/** The dynamic partial-update statement both owner-scoped services build:
    one `column = $n` clause per field that is not `undefined`, in a fixed
    order, numbered from `$1` by a running counter, then `$k+1` for the id
    and `$k+2` for the owner in the `WHERE`. */
module SetBuilder {
  import opened Common
  import opened Text

  /** A column the update may set: its name, the SQL function that wraps
      its placeholder ("" for none), and the request's value for it
      (`None` for `undefined`). */
  datatype Candidate<V> = Candidate(column: string, wrapper: string, value: Option<V>)

  /** `column = $param`, or `column = wrapper($param)`. */
  datatype Assignment = Assignment(column: string, wrapper: string, param: nat)

  function Placeholder(n: nat): string
  {
    "$" + NatToString(n)
  }

  function ClauseText(a: Assignment): string
  {
    if a.wrapper == "" then a.column + " = " + Placeholder(a.param)
    else a.column + " = " + a.wrapper + "(" + Placeholder(a.param) + ")"
  }

  /** The candidates that are not `undefined`, in order. */
  function Defined<V>(cands: seq<Candidate<V>>): (r: seq<Candidate<V>>)
    ensures |r| <= |cands|
    ensures forall i :: 0 <= i < |r| ==> r[i].value.Some? && r[i] in cands
    ensures r == [] <==> forall i :: 0 <= i < |cands| ==> cands[i].value.None?
  {
    if cands == [] then []
    else
      var init := Defined(cands[..|cands| - 1]);
      var last := cands[|cands| - 1];
      assert forall x :: x in init ==> x in cands[..|cands| - 1];
      assert forall i :: 0 <= i < |cands| - 1 ==> cands[..|cands| - 1][i] == cands[i];
      if last.value.Some? then init + [last] else init
  }

  /** The clauses and the values the counter produces, field by field. */
  datatype Plan<V> = Plan(sets: seq<Assignment>, values: seq<V>)

  /** The clauses and values for the candidates, as the sequence of `if`s
      builds them: each defined candidate gets the next placeholder
      number and pushes its value. */
  function PlanOf<V>(cands: seq<Candidate<V>>): (p: Plan<V>)
    ensures |p.sets| == |p.values| == |Defined(cands)|
    ensures forall i :: 0 <= i < |p.sets| ==>
      p.sets[i] == Assignment(Defined(cands)[i].column, Defined(cands)[i].wrapper, i + 1) &&
      p.values[i] == Defined(cands)[i].value.value
  {
    if cands == [] then Plan([], [])
    else
      var init := PlanOf(cands[..|cands| - 1]);
      var last := cands[|cands| - 1];
      if last.value.Some? then
        Plan(init.sets + [Assignment(last.column, last.wrapper, |init.sets| + 1)], init.values + [last.value.value])
      else init
  }

  /** One more candidate extends the plan by at most one clause. */
  lemma PlanSnoc<V>(cands: seq<Candidate<V>>, c: Candidate<V>)
    ensures PlanOf(cands + [c]) ==
      if c.value.Some? then
        Plan(PlanOf(cands).sets + [Assignment(c.column, c.wrapper, |PlanOf(cands).sets| + 1)],
             PlanOf(cands).values + [c.value.value])
      else PlanOf(cands)
  {
    assert (cands + [c])[..|cands + [c]| - 1] == cands;
  }

  /** The statement: its `SET` clauses, its value list, and the
      placeholder numbers of the `WHERE` id and owner. */
  datatype Statement<V> = Statement(sets: seq<Assignment>, values: seq<V>, idParam: nat, ownerParam: nat)

  /** The update for the candidates, or `None` when every field is
      `undefined` (the services then throw before querying). */
  function UpdateOf<V>(cands: seq<Candidate<V>>, id: V, owner: V): (r: Option<Statement<V>>)
    ensures r.None? <==> Defined(cands) == []
  {
    var p := PlanOf(cands);
    if p.sets == [] then None
    else Some(Statement(p.sets, p.values + [id, owner], |p.sets| + 1, |p.sets| + 2))
  }

  /** The update's placeholders: `$1..$k` for the `k` defined fields in
      order, each bound to that field's value, then `$k+1` bound to the id
      and `$k+2` to the owner. */
  lemma UpdateWellNumbered<V>(cands: seq<Candidate<V>>, id: V, owner: V)
    requires UpdateOf(cands, id, owner).Some?
    ensures var st := UpdateOf(cands, id, owner).value;
      var k := |st.sets|;
      k == |Defined(cands)| && k >= 1 &&
      |st.values| == k + 2 &&
      st.idParam == k + 1 && st.ownerParam == k + 2 &&
      st.values[k] == id && st.values[k + 1] == owner &&
      forall i :: 0 <= i < k ==>
        st.sets[i].param == i + 1 &&
        st.sets[i].column == Defined(cands)[i].column &&
        st.values[st.sets[i].param - 1] == Defined(cands)[i].value.value
  {
  }

  /** The clause texts joined by ", ", as in `SET ${setClauses.join(', ')}`. */
  function SetText(sets: seq<Assignment>): string
  {
    Join(seq(|sets|, i requires 0 <= i < |sets| => ClauseText(sets[i])), ", ")
  }

  /** `id = $k+1 AND utilisateur_id = $k+2`. */
  function WhereText(st: Statement): string
  {
    "id = " + Placeholder(st.idParam) + " AND utilisateur_id = " + Placeholder(st.ownerParam)
  }

  /** The statement's effect on a matching row: each clause in turn stores
      its placeholder's value in its column. */
  function ApplySets<V, R>(sets: seq<Assignment>, values: seq<V>, row: R, assign: (R, string, V) -> R): R
    requires forall i :: 0 <= i < |sets| ==> 1 <= sets[i].param <= |values|
  {
    if sets == [] then row
    else
      var init := sets[..|sets| - 1];
      var last := sets[|sets| - 1];
      assign(ApplySets(init, values, row, assign), last.column, values[last.param - 1])
  }

  /** The candidates' direct effect: each defined value stored in its
      column, in order. */
  function ApplyDefined<V, R>(cands: seq<Candidate<V>>, row: R, assign: (R, string, V) -> R): R
  {
    if cands == [] then row
    else
      var init := ApplyDefined(cands[..|cands| - 1], row, assign);
      var last := cands[|cands| - 1];
      if last.value.Some? then assign(init, last.column, last.value.value) else init
  }

  /** Every placeholder of the plan names one of its values, whatever
      follows them. */
  lemma PlanParamsBound<V>(cands: seq<Candidate<V>>, extra: seq<V>)
    ensures forall i :: 0 <= i < |PlanOf(cands).sets| ==>
      1 <= PlanOf(cands).sets[i].param <= |PlanOf(cands).values + extra|
  {
  }

  /** Running one more clause after the others. */
  lemma ApplySetsSnoc<V, R>(sets: seq<Assignment>, a: Assignment, values: seq<V>, row: R, assign: (R, string, V) -> R)
    requires forall i :: 0 <= i < |sets| ==> 1 <= sets[i].param <= |values|
    requires 1 <= a.param <= |values|
    ensures forall i :: 0 <= i < |sets + [a]| ==> 1 <= (sets + [a])[i].param <= |values|
    ensures ApplySets(sets + [a], values, row, assign) == assign(ApplySets(sets, values, row, assign), a.column, values[a.param - 1])
  {
    assert (sets + [a])[..|sets|] == sets;
  }

  /** The placeholders line up with the values: running the plan's
      clauses on a row does what setting the defined fields directly does. */
  lemma {:induction false} PlanMeansDefined<V, R>(cands: seq<Candidate<V>>, extra: seq<V>, row: R, assign: (R, string, V) -> R)
    ensures forall i :: 0 <= i < |PlanOf(cands).sets| ==>
      1 <= PlanOf(cands).sets[i].param <= |PlanOf(cands).values + extra|
    ensures ApplySets(PlanOf(cands).sets, PlanOf(cands).values + extra, row, assign) == ApplyDefined(cands, row, assign)
  {
    PlanParamsBound(cands, extra);
    if cands != [] {
      var init := cands[..|cands| - 1];
      var last := cands[|cands| - 1];
      assert cands == init + [last];
      PlanSnoc(init, last);
      var q := PlanOf(init);
      if last.value.Some? {
        PlanMeansDefined(init, [last.value.value] + extra, row, assign);
        DefinedStep(q.sets, q.values, Assignment(last.column, last.wrapper, |q.sets| + 1), last.value.value, extra, row, assign);
      } else {
        PlanMeansDefined(init, extra, row, assign);
      }
    }
  }

  /** A clause numbered after the others, run last, stores the value that
      follows theirs. */
  lemma DefinedStep<V, R>(sets: seq<Assignment>, values: seq<V>, a: Assignment, v: V, extra: seq<V>,
                          row: R, assign: (R, string, V) -> R)
    requires |sets| == |values| && a.param == |sets| + 1
    requires forall i :: 0 <= i < |sets| ==> 1 <= sets[i].param <= |values + ([v] + extra)|
    ensures forall i :: 0 <= i < |sets + [a]| ==> 1 <= (sets + [a])[i].param <= |values + [v] + extra|
    ensures ApplySets(sets + [a], values + [v] + extra, row, assign) ==
            assign(ApplySets(sets, values + ([v] + extra), row, assign), a.column, v)
  {
    var vals := values + [v] + extra;
    assert vals == values + ([v] + extra);
    assert vals[|sets|] == v;
    ApplySetsSnoc(sets, a, vals, row, assign);
  }

  /** The updated row for a statement built by `UpdateOf`. */
  lemma UpdateMeansDefined<V, R>(cands: seq<Candidate<V>>, id: V, owner: V, row: R, assign: (R, string, V) -> R)
    requires UpdateOf(cands, id, owner).Some?
    ensures forall i :: 0 <= i < |UpdateOf(cands, id, owner).value.sets| ==>
      1 <= UpdateOf(cands, id, owner).value.sets[i].param <= |UpdateOf(cands, id, owner).value.values|
    ensures ApplySets(UpdateOf(cands, id, owner).value.sets, UpdateOf(cands, id, owner).value.values, row, assign) ==
            ApplyDefined(cands, row, assign)
  {
    PlanMeansDefined(cands, [id, owner], row, assign);
  }

  /** The prefix of candidates handled after step `j + 1`. */
  lemma PrefixStep<V>(cands: seq<Candidate<V>>, j: nat)
    requires j < |cands|
    ensures cands[..j + 1] == cands[..j] + [cands[j]]
    ensures PlanOf(cands[..j + 1]) ==
      if cands[j].value.Some? then
        Plan(PlanOf(cands[..j]).sets + [Assignment(cands[j].column, cands[j].wrapper, |PlanOf(cands[..j]).sets| + 1)],
             PlanOf(cands[..j]).values + [cands[j].value.value])
      else PlanOf(cands[..j])
  {
    assert cands[..j + 1] == cands[..j] + [cands[j]];
    PlanSnoc(cands[..j], cands[j]);
  }

  /** Setting one more candidate's column after the others. */
  lemma ApplyDefinedSnoc<V, R>(cands: seq<Candidate<V>>, c: Candidate<V>, row: R, assign: (R, string, V) -> R)
    ensures ApplyDefined(cands + [c], row, assign) ==
      if c.value.Some? then assign(ApplyDefined(cands, row, assign), c.column, c.value.value)
      else ApplyDefined(cands, row, assign)
  {
    assert (cands + [c])[..|cands + [c]| - 1] == cands;
  }

  /** The text and the values of an update query. */
  datatype Query<V> = Query(setClauses: seq<string>, whereClause: string, values: seq<V>)

  function Render<V>(st: Statement<V>): Query<V>
  {
    Query(ClauseTexts(st.sets), WhereText(st), st.values)
  }

  function ClauseTexts(sets: seq<Assignment>): (r: seq<string>)
    ensures |r| == |sets|
    ensures forall i :: 0 <= i < |sets| ==> r[i] == ClauseText(sets[i])
  {
    seq(|sets|, i requires 0 <= i < |sets| => ClauseText(sets[i]))
  }

  /** After the first `j` tests, the clauses, values and counter are those
      of the plan for the first `j` candidates. */
  ghost predicate BuiltUpTo<V>(cands: seq<Candidate<V>>, j: nat, setClauses: seq<string>, values: seq<V>, paramIndex: nat)
    requires j <= |cands|
  {
    setClauses == ClauseTexts(PlanOf(cands[..j]).sets) &&
    values == PlanOf(cands[..j]).values &&
    paramIndex == |PlanOf(cands[..j]).sets| + 1
  }

  /** The builder's state after one test. */
  function Pushed<V>(c: Candidate<V>, setClauses: seq<string>, values: seq<V>, paramIndex: nat): (seq<string>, seq<V>, nat)
  {
    if c.value.Some? then
      (setClauses + [ClauseText(Assignment(c.column, c.wrapper, paramIndex))], values + [c.value.value], paramIndex + 1)
    else (setClauses, values, paramIndex)
  }

  lemma BuildStep<V>(cands: seq<Candidate<V>>, j: nat, setClauses: seq<string>, values: seq<V>, paramIndex: nat)
    requires j < |cands| && BuiltUpTo(cands, j, setClauses, values, paramIndex)
    ensures var t := Pushed(cands[j], setClauses, values, paramIndex); BuiltUpTo(cands, j + 1, t.0, t.1, t.2)
  {
    PrefixStep(cands, j);
    if cands[j].value.Some? {
      var p := PlanOf(cands[..j]);
      var a := Assignment(cands[j].column, cands[j].wrapper, paramIndex);
      assert ClauseTexts(p.sets + [a]) == ClauseTexts(p.sets) + [ClauseText(a)];
    }
  }

  /** One test of the builder: when the field is not `undefined`, its
      clause with placeholder `$paramIndex` and its value are pushed and
      the counter moves on. */
  method PushIfDefined<V>(c: Candidate<V>, setClauses: seq<string>, values: seq<V>, paramIndex: nat)
    returns (setClauses': seq<string>, values': seq<V>, paramIndex': nat)
    ensures (setClauses', values', paramIndex') == Pushed(c, setClauses, values, paramIndex)
  {
    setClauses', values', paramIndex' := setClauses, values, paramIndex;
    if c.value.Some? {
      setClauses' := setClauses' + [ClauseText(Assignment(c.column, c.wrapper, paramIndex'))];
      paramIndex' := paramIndex' + 1;
      values' := values' + [c.value.value];
    }
  }

  /** The builder after the test of field `j`, given its state after the
      tests of the fields before it. */
  method Test<V>(cands: seq<Candidate<V>>, j: nat, setClauses: seq<string>, values: seq<V>, paramIndex: nat)
    returns (setClauses': seq<string>, values': seq<V>, paramIndex': nat)
    requires j < |cands| && BuiltUpTo(cands, j, setClauses, values, paramIndex)
    ensures BuiltUpTo(cands, j + 1, setClauses', values', paramIndex')
  {
    BuildStep(cands, j, setClauses, values, paramIndex);
    setClauses', values', paramIndex' := PushIfDefined(cands[j], setClauses, values, paramIndex);
  }

  /** After the tests: no clause means no query; otherwise the id and the
      owner are pushed and the `WHERE` takes the next two placeholders.
      The query is the rendering of the statement `UpdateOf` describes. */
  method Complete<V>(cands: seq<Candidate<V>>, setClauses: seq<string>, values: seq<V>, paramIndex: nat, id: V, owner: V)
    returns (q: Option<Query<V>>)
    requires BuiltUpTo(cands, |cands|, setClauses, values, paramIndex)
    ensures q.None? <==> UpdateOf(cands, id, owner).None?
    ensures q.Some? ==> q.value == Render(UpdateOf(cands, id, owner).value)
  {
    assert cands[..|cands|] == cands;
    ghost var plan := PlanOf(cands);
    if |setClauses| == 0 {
      return None;
    }
    var all := values + [id];
    all := all + [owner];
    var whereClause := "id = " + Placeholder(paramIndex) + " AND utilisateur_id = " + Placeholder(paramIndex + 1);
    ghost var st := Statement(plan.sets, plan.values + [id, owner], |plan.sets| + 1, |plan.sets| + 2);
    assert UpdateOf(cands, id, owner) == Some(st);
    assert all == st.values && whereClause == WhereText(st);
    q := Some(Query(setClauses, whereClause, all));
  }
}
