/** The search over market-price observations that the price service and
    the price controller both build: one condition per filter the query
    gives, in a fixed order and numbered from `$1`, with the market name
    wrapped in `%` for `ILIKE`; what the bound conditions keep; and the
    listing order (newest observation first, then product name). */
module PriceSearch {
  import opened Common
  import opened Json
  import opened Http
  import opened Text
  import opened Postgres
  import opened Sorting
  import opened Tables
  import SetBuilder

  /** PostgreSQL's `LIKE` with its default escape character `\`: `%`
      matches any run of characters, `_` any one character, and `\c` the
      character `c` itself. (A pattern ending in a lone `\` is an error in
      PostgreSQL; here it matches nothing.) */
  predicate Like(t: string, p: string)
    decreases |p|, |t|
  {
    if p == [] then t == []
    else if p[0] == '%' then Like(t, p[1..]) || (t != [] && Like(t[1..], p))
    else if p[0] == '_' then t != [] && Like(t[1..], p[1..])
    else if p[0] == '\\' then |p| >= 2 && t != [] && t[0] == p[1] && Like(t[1..], p[2..])
    else t != [] && t[0] == p[0] && Like(t[1..], p[1..])
  }

  /** A text with no character `LIKE` treats specially. */
  predicate Plain(s: string)
  {
    forall i :: 0 <= i < |s| ==> s[i] != '%' && s[i] != '_' && s[i] != '\\'
  }

  /** `lower()`, a parameter of the model, applied to every character. */
  function Fold(s: string, fold: char -> char): (r: string)
    ensures |r| == |s| && forall i :: 0 <= i < |s| ==> r[i] == fold(s[i])
  {
    seq(|s|, i requires 0 <= i < |s| => fold(s[i]))
  }

  /** `ILIKE`: `LIKE` after folding the text and the pattern. */
  predicate ILike(t: string, p: string, fold: char -> char)
  {
    Like(Fold(t, fold), Fold(p, fold))
  }

  lemma {:induction false} LikeAnything(t: string)
    ensures Like(t, "%")
    decreases |t|
  {
    if t != [] {
      LikeAnything(t[1..]);
    }
  }

  /** `n%` for a plain `n` matches exactly the texts that start with `n`. */
  lemma {:induction false} LikePrefix(t: string, n: string)
    requires Plain(n)
    ensures Like(t, n + "%") <==> (|n| <= |t| && t[..|n|] == n)
  {
    if n == [] {
      assert n + "%" == "%";
      LikeAnything(t);
    } else {
      assert (n + "%")[0] == n[0];
      assert (n + "%")[1..] == n[1..] + "%";
      if t != [] {
        LikePrefix(t[1..], n[1..]);
        if |n| <= |t| && t[..|n|] == n {
          assert t[1..][..|n| - 1] == n[1..];
        }
        if |n| <= |t| && t[0] == n[0] && t[1..][..|n| - 1] == n[1..] {
          assert t[..|n|] == [t[0]] + t[1..][..|n| - 1];
        }
      }
    }
  }

  /** `%n%` for a plain `n` matches exactly the texts that contain `n`. */
  lemma {:induction false} LikeSubstring(t: string, n: string)
    requires Plain(n)
    ensures Like(t, "%" + n + "%") <==> Contains(t, n)
    decreases |t|
  {
    var q := n + "%";
    assert "%" + n + "%" == "%" + q;
    assert ("%" + q)[1..] == q;
    LikePrefix(t, n);
    if t != [] {
      LikeSubstring(t[1..], n);
    }
  }

  /** A market name with `_` in it matches more than the texts that
      contain it: `a_c` is found in `abc`. */
  lemma WildcardInName()
    ensures Like("abc", "%" + "a_c" + "%")
    ensures !Contains("abc", "a_c")
  {
    var p := "%" + "a_c" + "%";
    assert p[1..] == "a_c%";
    assert "a_c%"[2..] == "c%";
    assert "c%"[1..] == "%";
    assert Like("", "%");
    assert Like("c"[1..], "c%"[1..]);
    assert Like("c", "c%");
    assert Like("bc"[1..], "a_c%"[2..]);
    assert Like("abc", "a_c%");
    assert Like("abc", p);
    assert "abc"[..3] != "a_c";
    assert !Contains("abc"[1..], "a_c");
  }

  /** The query-string filters. A filter is applied when its value is
      truthy, which for a query-string value means a non-empty string. */
  datatype Filters = Filters(productId: Option<string>, regionId: Option<string>,
                             dateStart: Option<string>, dateEnd: Option<string>, market: Option<string>)

  predicate Given(v: Option<string>)
  {
    v.Some? && v.value != ""
  }

  /** What a condition compares. */
  datatype Criterion = ProductIs | RegionIs | NotBefore | NotAfter | MarketLike

  datatype Filter = Filter(criterion: Criterion, value: Option<string>)

  /** The filters in the order the code tests them. */
  function FilterList(f: Filters): (fs: seq<Filter>)
    ensures |fs| == 5
  {
    [Filter(ProductIs, f.productId), Filter(RegionIs, f.regionId), Filter(NotBefore, f.dateStart),
     Filter(NotAfter, f.dateEnd), Filter(MarketLike, f.market)]
  }

  function Operator(c: Criterion): string
  {
    match c
    case ProductIs => "opm.produit_id = "
    case RegionIs => "opm.region_id = "
    case NotBefore => "opm.date_observation >= "
    case NotAfter => "opm.date_observation <= "
    case MarketLike => "opm.nom_marche_specifique ILIKE "
  }

  /** A condition and the number of its placeholder. */
  datatype Condition = Condition(criterion: Criterion, param: nat)

  function ConditionText(c: Condition): string
  {
    Operator(c.criterion) + SetBuilder.Placeholder(c.param)
  }

  function ConditionTexts(cs: seq<Condition>): (r: seq<string>)
    ensures |r| == |cs|
    ensures forall i :: 0 <= i < |cs| ==> r[i] == ConditionText(cs[i])
  {
    seq(|cs|, i requires 0 <= i < |cs| => ConditionText(cs[i]))
  }

  /** The filters that are applied, in order. */
  function Active(fs: seq<Filter>): (r: seq<Filter>)
    ensures |r| <= |fs|
    ensures forall i :: 0 <= i < |r| ==> Given(r[i].value)
  {
    if fs == [] then []
    else
      var init := Active(fs[..|fs| - 1]);
      var last := fs[|fs| - 1];
      if Given(last.value) then init + [last] else init
  }

  /** The applied filters are drawn from the filters, and there are none
      exactly when no filter is given. */
  lemma {:induction false} ActiveFromFilters(fs: seq<Filter>)
    ensures forall x :: x in Active(fs) ==> x in fs
    ensures Active(fs) == [] <==> forall i :: 0 <= i < |fs| ==> !Given(fs[i].value)
  {
    if fs != [] {
      var init := fs[..|fs| - 1];
      ActiveFromFilters(init);
      assert forall x :: x in init ==> x in fs;
      assert forall i :: 0 <= i < |fs| - 1 ==> init[i] == fs[i];
    }
  }

  /** The parameter an applied filter pushes: its text, wrapped in `%` for
      the market name. */
  function Argument(x: Filter): (a: string)
    requires Given(x.value)
    ensures x.criterion.MarketLike? ==> a == "%" + x.value.value + "%"
    ensures !x.criterion.MarketLike? ==> a == x.value.value
  {
    if x.criterion.MarketLike? then "%" + x.value.value + "%" else x.value.value
  }

  /** The conditions and the parameters the sequence of `if`s produces. */
  datatype Plan = Plan(conditions: seq<Condition>, params: seq<string>)

  /** One `if`: an applied filter gets the next placeholder number and
      pushes its argument; a filter not given leaves the plan alone. */
  function Extend(p: Plan, x: Filter): Plan
  {
    if Given(x.value) then Plan(p.conditions + [Condition(x.criterion, |p.conditions| + 1)], p.params + [Argument(x)])
    else p
  }

  /** The `if`s in order, from no condition. */
  function PlanOf(fs: seq<Filter>): (p: Plan)
    ensures |p.conditions| == |p.params| == |Active(fs)|
  {
    if fs == [] then Plan([], []) else Extend(PlanOf(fs[..|fs| - 1]), fs[|fs| - 1])
  }

  /** Condition `i` of the plan tests applied filter `i` against
      placeholder `$i+1`, and parameter `i` is that filter's argument. */
  lemma {:induction false} PlanInOrder(fs: seq<Filter>)
    ensures forall i :: 0 <= i < |PlanOf(fs).conditions| ==>
      PlanOf(fs).conditions[i] == Condition(Active(fs)[i].criterion, i + 1) && PlanOf(fs).params[i] == Argument(Active(fs)[i])
  {
    if fs != [] {
      PlanInOrder(fs[..|fs| - 1]);
    }
  }

  /** Every placeholder of the plan has its parameter. */
  predicate Numbered(p: Plan)
  {
    forall i :: 0 <= i < |p.conditions| ==> 1 <= p.conditions[i].param <= |p.params|
  }

  lemma {:induction false} PlanNumbered(fs: seq<Filter>)
    ensures Numbered(PlanOf(fs))
  {
    if fs != [] {
      PlanNumbered(fs[..|fs| - 1]);
    }
  }

  lemma PlanSnoc(fs: seq<Filter>, x: Filter)
    ensures Active(fs + [x]) == if Given(x.value) then Active(fs) + [x] else Active(fs)
    ensures PlanOf(fs + [x]) ==
      if Given(x.value) then
        Plan(PlanOf(fs).conditions + [Condition(x.criterion, |PlanOf(fs).conditions| + 1)], PlanOf(fs).params + [Argument(x)])
      else PlanOf(fs)
  {
    assert (fs + [x])[..|fs + [x]| - 1] == fs;
  }

  /** The clauses, the parameters and the counter are those of plan `p`. */
  ghost predicate Builds(p: Plan, clauses: seq<string>, params: seq<string>, paramIndex: nat)
  {
    clauses == ConditionTexts(p.conditions) && params == p.params && paramIndex == |p.conditions| + 1
  }

  /** One `if (filter) { clauses.push(... $${paramIndex++}); params.push(...) }`. */
  method Test(ghost p: Plan, x: Filter, clauses: seq<string>, params: seq<string>, paramIndex: nat)
    returns (clauses': seq<string>, params': seq<string>, paramIndex': nat)
    requires Builds(p, clauses, params, paramIndex)
    ensures Builds(Extend(p, x), clauses', params', paramIndex')
  {
    clauses', params', paramIndex' := clauses, params, paramIndex;
    if Given(x.value) {
      clauses' := clauses' + [Operator(x.criterion) + SetBuilder.Placeholder(paramIndex')];
      paramIndex' := paramIndex' + 1;
      params' := params' + [Argument(x)];
      ghost var c := Condition(x.criterion, paramIndex);
      assert ConditionTexts(p.conditions + [c]) == ConditionTexts(p.conditions) + [ConditionText(c)];
    }
  }

  /** The plan of five filters is five `if`s from no condition. */
  lemma PlanOfFive(fs: seq<Filter>)
    requires |fs| == 5
    ensures PlanOf(fs) == Extend(Extend(Extend(Extend(Extend(Plan([], []), fs[0]), fs[1]), fs[2]), fs[3]), fs[4])
  {
    assert fs[..0] == [] && fs[..5] == fs;
    PlanOfPrefix(fs, 1);
    PlanOfPrefix(fs, 2);
    PlanOfPrefix(fs, 3);
    PlanOfPrefix(fs, 4);
    PlanOfPrefix(fs, 5);
  }

  lemma PlanOfPrefix(fs: seq<Filter>, j: nat)
    requires 0 < j <= |fs|
    ensures PlanOf(fs[..j]) == Extend(PlanOf(fs[..j - 1]), fs[j - 1])
  {
    assert fs[..j][..j - 1] == fs[..j - 1];
  }

  /** The five tests, in the code's order, from empty lists and `$1`. */
  method BuildConditions(f: Filters) returns (clauses: seq<string>, params: seq<string>, paramIndex: nat)
    ensures clauses == ConditionTexts(PlanOf(FilterList(f)).conditions)
    ensures params == PlanOf(FilterList(f)).params
    ensures paramIndex == |params| + 1
  {
    var fs := FilterList(f);
    PlanOfFive(fs);
    ghost var p := Plan([], []);
    clauses, params, paramIndex := [], [], 1;
    clauses, params, paramIndex := Test(p, fs[0], clauses, params, paramIndex);
    p := Extend(p, fs[0]);
    clauses, params, paramIndex := Test(p, fs[1], clauses, params, paramIndex);
    p := Extend(p, fs[1]);
    clauses, params, paramIndex := Test(p, fs[2], clauses, params, paramIndex);
    p := Extend(p, fs[2]);
    clauses, params, paramIndex := Test(p, fs[3], clauses, params, paramIndex);
    p := Extend(p, fs[3]);
    clauses, params, paramIndex := Test(p, fs[4], clauses, params, paramIndex);
  }

  /** A parameter as PostgreSQL binds it where its condition uses it. */
  datatype Value = IntV(i: int) | DayV(d: int) | PatternV(p: string)

  const InvalidDate := DbError("22007", "invalid input syntax for type date")

  /** How the server reads a parameter's text as an `integer` and as a
      `date`. */
  datatype Casts = Casts(integer: string -> Result<int, DbError>, date: string -> Option<int>)

  /** PostgreSQL's casts: the `integer` input function, and a `date`
      input (`dates`) that the model leaves as a parameter. */
  function ServerCasts(dates: string -> Option<int>): (k: Casts)
    ensures k.integer == IntegerParam && k.date == dates
  {
    Casts(IntegerParam, dates)
  }

  /** The text of a parameter bound against its condition: an integer for
      the two ids, a date for the two bounds, text for the pattern. */
  function Bind(c: Criterion, s: string, casts: Casts): (r: Result<Value, DbError>)
    ensures c.MarketLike? ==> r == Ok(PatternV(s))
    ensures (c.ProductIs? || c.RegionIs?) ==>
      r == if casts.integer(s).Ok? then Ok(IntV(casts.integer(s).value)) else Err(casts.integer(s).error)
    ensures (c.NotBefore? || c.NotAfter?) ==>
      r == if casts.date(s).Some? then Ok(DayV(casts.date(s).value)) else Err(InvalidDate)
  {
    match c
    case MarketLike => Ok(PatternV(s))
    case NotBefore => if casts.date(s).Some? then Ok(DayV(casts.date(s).value)) else Err(InvalidDate)
    case NotAfter => if casts.date(s).Some? then Ok(DayV(casts.date(s).value)) else Err(InvalidDate)
    case _ =>
      match casts.integer(s)
      case Ok(i) => Ok(IntV(i))
      case Err(e) => Err(e)
  }

  /** Binding every parameter in placeholder order: the first refusal
      fails the statement. */
  function BindAll(conds: seq<Condition>, params: seq<string>, casts: Casts): (r: Result<seq<Value>, DbError>)
    requires forall i :: 0 <= i < |conds| ==> 1 <= conds[i].param <= |params|
    ensures r.Ok? ==> |r.value| == |conds|
  {
    if conds == [] then Ok([])
    else
      var last := conds[|conds| - 1];
      match BindAll(conds[..|conds| - 1], params, casts)
      case Err(e) => Err(e)
      case Ok(vs) =>
        match Bind(last.criterion, params[last.param - 1], casts)
        case Err(e) => Err(e)
        case Ok(v) => Ok(vs + [v])
  }

  /** A row of `observations_prix_marches`. */
  datatype Observation = Observation(id: nat, productId: Option<int>, regionId: Option<int>, market: Json,
                                     price: Json, unit: Json, date: Option<int>, source: Json)

  /** A bound condition holds of a row; a comparison with NULL does not. */
  predicate Holds(c: Criterion, v: Value, o: Observation, fold: char -> char)
  {
    match c
    case ProductIs => v.IntV? && o.productId == Some(v.i)
    case RegionIs => v.IntV? && o.regionId == Some(v.i)
    case NotBefore => v.DayV? && o.date.Some? && o.date.value >= v.d
    case NotAfter => v.DayV? && o.date.Some? && o.date.value <= v.d
    case MarketLike => v.PatternV? && o.market.JStr? && ILike(o.market.s, v.p, fold)
  }

  /** The `WHERE`: every bound condition holds. */
  predicate Selected(conds: seq<Condition>, vs: seq<Value>, o: Observation, fold: char -> char)
  {
    forall i :: 0 <= i < |conds| && i < |vs| ==> Holds(conds[i].criterion, vs[i], o, fold)
  }

  /** What the applied filters ask for, read in order from their own
      texts; the first unreadable one is the error. */
  function Wanted(active: seq<Filter>, casts: Casts): (r: Result<seq<Value>, DbError>)
    requires forall i :: 0 <= i < |active| ==> Given(active[i].value)
    ensures r.Ok? ==> |r.value| == |active|
  {
    if active == [] then Ok([])
    else
      var last := active[|active| - 1];
      assert Given(last.value);
      assert forall i :: 0 <= i < |active| - 1 ==> active[..|active| - 1][i] == active[i];
      match Wanted(active[..|active| - 1], casts)
      case Err(e) => Err(e)
      case Ok(ws) =>
        match Bind(last.criterion, last.value.value, casts)
        case Err(e) => Err(e)
        case Ok(w) => Ok(ws + [w])
  }

  /** The filters' intended meaning: the same comparisons, and for the
      market name, that the folded market contains the folded name. */
  predicate Means(c: Criterion, w: Value, o: Observation, fold: char -> char)
  {
    if c.MarketLike? then w.PatternV? && o.market.JStr? && Contains(Fold(o.market.s, fold), Fold(w.p, fold))
    else Holds(c, w, o, fold)
  }

  predicate Meets(active: seq<Filter>, ws: seq<Value>, o: Observation, fold: char -> char)
  {
    forall i :: 0 <= i < |active| && i < |ws| ==> Means(active[i].criterion, ws[i], o, fold)
  }

  /** Binding more parameters than the conditions use changes nothing. */
  lemma {:induction false} BindAllExtends(conds: seq<Condition>, params: seq<string>, a: string, casts: Casts)
    requires forall i :: 0 <= i < |conds| ==> 1 <= conds[i].param <= |params|
    ensures BindAll(conds, params + [a], casts) == BindAll(conds, params, casts)
  {
    if conds != [] {
      BindAllExtends(conds[..|conds| - 1], params, a, casts);
      assert (params + [a])[conds[|conds| - 1].param - 1] == params[conds[|conds| - 1].param - 1];
    }
  }

  /** Binding the plan fails exactly when reading the applied filters
      does, with the same error: the `%` wrapping never makes a parameter
      unreadable, and placeholder `i` carries filter `i`. */
  lemma {:induction false} PlanBindsAsWanted(fs: seq<Filter>, casts: Casts)
    ensures Numbered(PlanOf(fs))
    ensures BindAll(PlanOf(fs).conditions, PlanOf(fs).params, casts).Err? <==> Wanted(Active(fs), casts).Err?
    ensures BindAll(PlanOf(fs).conditions, PlanOf(fs).params, casts).Err? ==>
      BindAll(PlanOf(fs).conditions, PlanOf(fs).params, casts).error == Wanted(Active(fs), casts).error
  {
    if fs != [] {
      var init, x := fs[..|fs| - 1], fs[|fs| - 1];
      assert fs == init + [x];
      PlanBindsAsWanted(init, casts);
      PlanSnoc(init, x);
      if Given(x.value) {
        StepBinds(PlanOf(init).conditions, PlanOf(init).params, Active(init), x, casts);
      }
    }
  }

  /** The statement's parameters bound against its conditions: the
      first filter whose text its comparison cannot read is the error, and
      otherwise there is one value per condition. */
  function BindPlan(fs: seq<Filter>, casts: Casts): (r: Result<seq<Value>, DbError>)
    ensures r.Err? <==> Wanted(Active(fs), casts).Err?
    ensures r.Err? ==> r.error == Wanted(Active(fs), casts).error
    ensures r.Ok? ==> |r.value| == |PlanOf(fs).conditions|
  {
    PlanBindsAsWanted(fs, casts);
    BindAll(PlanOf(fs).conditions, PlanOf(fs).params, casts)
  }

  /** Once bound, the plan keeps exactly the rows the filters mean. */
  lemma BoundPlanMeansFilters(fs: seq<Filter>, casts: Casts, fold: char -> char, o: Observation)
    requires fold('%') == '%' && PlainNames(fs, fold) && BindPlan(fs, casts).Ok?
    ensures Wanted(Active(fs), casts).Ok?
    ensures Selected(PlanOf(fs).conditions, BindPlan(fs, casts).value, o, fold) <==>
            Meets(Active(fs), Wanted(Active(fs), casts).value, o, fold)
  {
    PlanBindsAsWanted(fs, casts);
    PlanMeansFilters(fs, casts, fold, o);
  }

  /** One more applied filter keeps binding and reading in step. */
  lemma StepBinds(conds: seq<Condition>, params: seq<string>, act: seq<Filter>, x: Filter, casts: Casts)
    requires Given(x.value) && |conds| == |params|
    requires forall i :: 0 <= i < |conds| ==> 1 <= conds[i].param <= |params|
    requires forall i :: 0 <= i < |act| ==> Given(act[i].value)
    requires BindAll(conds, params, casts).Err? <==> Wanted(act, casts).Err?
    requires BindAll(conds, params, casts).Err? ==> BindAll(conds, params, casts).error == Wanted(act, casts).error
    ensures var conds', params', act' := conds + [Condition(x.criterion, |conds| + 1)], params + [Argument(x)], act + [x];
      (forall i :: 0 <= i < |conds'| ==> 1 <= conds'[i].param <= |params'|) &&
      (forall i :: 0 <= i < |act'| ==> Given(act'[i].value)) &&
      (BindAll(conds', params', casts).Err? <==> Wanted(act', casts).Err?) &&
      (BindAll(conds', params', casts).Err? ==> BindAll(conds', params', casts).error == Wanted(act', casts).error)
  {
    var c := Condition(x.criterion, |conds| + 1);
    var conds', params', act' := conds + [c], params + [Argument(x)], act + [x];
    BindAllExtends(conds, params, Argument(x), casts);
    assert conds'[..|conds'| - 1] == conds;
    assert act'[..|act'| - 1] == act;
    assert params'[c.param - 1] == Argument(x);
    BindArgument(x, casts);
  }

  /** The `%` wrapping never makes a parameter unreadable. */
  lemma BindArgument(x: Filter, casts: Casts)
    requires Given(x.value)
    ensures Bind(x.criterion, Argument(x), casts).Err? <==> Bind(x.criterion, x.value.value, casts).Err?
    ensures Bind(x.criterion, Argument(x), casts).Err? ==>
      Bind(x.criterion, Argument(x), casts).error == Bind(x.criterion, x.value.value, casts).error
  {
  }

  /** One applied filter: the bound condition holds exactly when the
      filter's meaning does. */
  lemma ConditionMeans(x: Filter, v: Value, w: Value, casts: Casts, fold: char -> char, o: Observation)
    requires Given(x.value) && fold('%') == '%'
    requires x.criterion.MarketLike? ==> Plain(Fold(x.value.value, fold))
    requires Bind(x.criterion, Argument(x), casts) == Ok(v)
    requires Bind(x.criterion, x.value.value, casts) == Ok(w)
    ensures Holds(x.criterion, v, o, fold) <==> Means(x.criterion, w, o, fold)
  {
    if x.criterion.MarketLike? {
      var n := x.value.value;
      assert Fold("%" + n + "%", fold) == "%" + Fold(n, fold) + "%";
      if o.market.JStr? {
        LikeSubstring(Fold(o.market.s, fold), Fold(n, fold));
      }
    }
  }

  /** No applied market name, once folded, holds a character `LIKE`
      treats specially. */
  predicate PlainNames(fs: seq<Filter>, fold: char -> char)
  {
    forall i :: 0 <= i < |fs| && fs[i].criterion.MarketLike? && Given(fs[i].value) ==> Plain(Fold(fs[i].value.value, fold))
  }

  /** Binding one more condition that reads one more parameter. */
  lemma BindAllSnoc(conds: seq<Condition>, params: seq<string>, c: Condition, a: string, casts: Casts)
    requires forall i :: 0 <= i < |conds| ==> 1 <= conds[i].param <= |params|
    requires c.param == |params| + 1
    ensures forall i :: 0 <= i < |conds + [c]| ==> 1 <= (conds + [c])[i].param <= |params + [a]|
    ensures BindAll(conds + [c], params + [a], casts).Ok? <==>
      BindAll(conds, params, casts).Ok? && Bind(c.criterion, a, casts).Ok?
    ensures BindAll(conds + [c], params + [a], casts).Ok? ==>
      BindAll(conds + [c], params + [a], casts).value == BindAll(conds, params, casts).value + [Bind(c.criterion, a, casts).value]
  {
    BindAllExtends(conds, params, a, casts);
    assert (conds + [c])[..|conds|] == conds;
  }

  /** Reading one more applied filter. */
  lemma WantedSnoc(act: seq<Filter>, x: Filter, casts: Casts)
    requires Given(x.value) && forall i :: 0 <= i < |act| ==> Given(act[i].value)
    ensures forall i :: 0 <= i < |act + [x]| ==> Given((act + [x])[i].value)
    ensures Wanted(act + [x], casts).Ok? <==> Wanted(act, casts).Ok? && Bind(x.criterion, x.value.value, casts).Ok?
    ensures Wanted(act + [x], casts).Ok? ==>
      Wanted(act + [x], casts).value == Wanted(act, casts).value + [Bind(x.criterion, x.value.value, casts).value]
  {
    assert (act + [x])[..|act|] == act;
  }

  lemma SelectedSnoc(conds: seq<Condition>, vs: seq<Value>, c: Condition, v: Value, o: Observation, fold: char -> char)
    requires |conds| == |vs|
    ensures Selected(conds + [c], vs + [v], o, fold) <==> Selected(conds, vs, o, fold) && Holds(c.criterion, v, o, fold)
  {
    assert forall i :: 0 <= i < |conds| ==> (conds + [c])[i] == conds[i] && (vs + [v])[i] == vs[i];
    assert (conds + [c])[|conds|] == c && (vs + [v])[|conds|] == v;
  }

  lemma MeetsSnoc(act: seq<Filter>, ws: seq<Value>, x: Filter, w: Value, o: Observation, fold: char -> char)
    requires |act| == |ws|
    ensures Meets(act + [x], ws + [w], o, fold) <==> Meets(act, ws, o, fold) && Means(x.criterion, w, o, fold)
  {
    assert forall i :: 0 <= i < |act| ==> (act + [x])[i] == act[i] && (ws + [w])[i] == ws[i];
    assert (act + [x])[|act|] == x && (ws + [w])[|act|] == w;
  }

  /** Once bound, the plan keeps exactly the rows the filters mean,
      provided `lower()` leaves `%` alone and no folded market name has a
      character `LIKE` treats specially (`WildcardInName` shows one that
      does). */
  lemma {:induction false} PlanMeansFilters(fs: seq<Filter>, casts: Casts, fold: char -> char, o: Observation)
    requires fold('%') == '%' && PlainNames(fs, fold)
    requires Numbered(PlanOf(fs)) && BindAll(PlanOf(fs).conditions, PlanOf(fs).params, casts).Ok?
    ensures Wanted(Active(fs), casts).Ok?
    ensures Selected(PlanOf(fs).conditions, BindAll(PlanOf(fs).conditions, PlanOf(fs).params, casts).value, o, fold) <==>
            Meets(Active(fs), Wanted(Active(fs), casts).value, o, fold)
  {
    if fs != [] {
      var init, x := fs[..|fs| - 1], fs[|fs| - 1];
      assert fs == init + [x];
      assert forall i :: 0 <= i < |init| ==> init[i] == fs[i];
      PlanPrefixBound(init, x, casts);
      PlanMeansFilters(init, casts, fold, o);
      PlanStep(init, x, casts, fold, o);
    }
  }

  /** A plan binds only if the plan of its filters but the last does. */
  lemma PlanPrefixBound(init: seq<Filter>, x: Filter, casts: Casts)
    requires Numbered(PlanOf(init + [x])) && BindAll(PlanOf(init + [x]).conditions, PlanOf(init + [x]).params, casts).Ok?
    ensures Numbered(PlanOf(init)) && BindAll(PlanOf(init).conditions, PlanOf(init).params, casts).Ok?
  {
    PlanSnoc(init, x);
    PlanNumbered(init);
    if Given(x.value) {
      var p := PlanOf(init);
      var c := Condition(x.criterion, |p.conditions| + 1);
      BindAllSnoc(p.conditions, p.params, c, Argument(x), casts);
      assert BindAll(p.conditions + [c], p.params + [Argument(x)], casts).Ok?;
    }
  }

  /** The induction step of `PlanMeansFilters`, one filter at a time. */
  lemma PlanStep(init: seq<Filter>, x: Filter, casts: Casts, fold: char -> char, o: Observation)
    requires fold('%') == '%' && (x.criterion.MarketLike? && Given(x.value) ==> Plain(Fold(x.value.value, fold)))
    requires Numbered(PlanOf(init)) && BindAll(PlanOf(init).conditions, PlanOf(init).params, casts).Ok?
    requires Numbered(PlanOf(init + [x])) && BindAll(PlanOf(init + [x]).conditions, PlanOf(init + [x]).params, casts).Ok?
    requires Wanted(Active(init), casts).Ok?
    requires Selected(PlanOf(init).conditions, BindAll(PlanOf(init).conditions, PlanOf(init).params, casts).value, o, fold) <==>
             Meets(Active(init), Wanted(Active(init), casts).value, o, fold)
    ensures Wanted(Active(init + [x]), casts).Ok?
    ensures Selected(PlanOf(init + [x]).conditions, BindAll(PlanOf(init + [x]).conditions, PlanOf(init + [x]).params, casts).value, o, fold) <==>
            Meets(Active(init + [x]), Wanted(Active(init + [x]), casts).value, o, fold)
  {
    PlanSnoc(init, x);
    if Given(x.value) {
      var p := PlanOf(init);
      BindAllSnoc(p.conditions, p.params, Condition(x.criterion, |p.conditions| + 1), Argument(x), casts);
      StepMeans(p.conditions, p.params, Active(init), x, casts, fold, o);
    }
  }

  /** One more applied filter keeps the bound plan and the filters'
      meaning in step. */
  lemma StepMeans(conds: seq<Condition>, params: seq<string>, act: seq<Filter>, x: Filter,
                  casts: Casts, fold: char -> char, o: Observation)
    requires Given(x.value) && fold('%') == '%' && (x.criterion.MarketLike? ==> Plain(Fold(x.value.value, fold)))
    requires |conds| == |params| == |act|
    requires forall i :: 0 <= i < |conds| ==> 1 <= conds[i].param <= |params|
    requires forall i :: 0 <= i < |act| ==> Given(act[i].value)
    requires BindAll(conds, params, casts).Ok? && Wanted(act, casts).Ok?
    requires Selected(conds, BindAll(conds, params, casts).value, o, fold) <==> Meets(act, Wanted(act, casts).value, o, fold)
    requires Bind(x.criterion, Argument(x), casts).Ok?
    ensures var c := Condition(x.criterion, |conds| + 1);
      (forall i :: 0 <= i < |conds + [c]| ==> 1 <= (conds + [c])[i].param <= |params + [Argument(x)]|) &&
      (forall i :: 0 <= i < |act + [x]| ==> Given((act + [x])[i].value)) &&
      BindAll(conds + [c], params + [Argument(x)], casts).Ok? && Wanted(act + [x], casts).Ok? &&
      (Selected(conds + [c], BindAll(conds + [c], params + [Argument(x)], casts).value, o, fold) <==>
       Meets(act + [x], Wanted(act + [x], casts).value, o, fold))
  {
    var c := Condition(x.criterion, |conds| + 1);
    BindAllSnoc(conds, params, c, Argument(x), casts);
    WantedSnoc(act, x, casts);
    BindArgument(x, casts);
    var v, w := Bind(x.criterion, Argument(x), casts).value, Bind(x.criterion, x.value.value, casts).value;
    ConditionMeans(x, v, w, casts, fold, o);
    SnocMeans(conds, BindAll(conds, params, casts).value, c, v, act, Wanted(act, casts).value, x, w, o, fold);
  }

  /** Adding one condition and one filter that agree keeps the `WHERE`
      and the filters' meaning in agreement. */
  lemma SnocMeans(conds: seq<Condition>, vs: seq<Value>, c: Condition, v: Value,
                  act: seq<Filter>, ws: seq<Value>, x: Filter, w: Value, o: Observation, fold: char -> char)
    requires |conds| == |vs| && |act| == |ws|
    requires Selected(conds, vs, o, fold) <==> Meets(act, ws, o, fold)
    requires Holds(c.criterion, v, o, fold) <==> Means(x.criterion, w, o, fold)
    ensures Selected(conds + [c], vs + [v], o, fold) <==> Meets(act + [x], ws + [w], o, fold)
  {
    SelectedSnoc(conds, vs, c, v, o, fold);
    MeetsSnoc(act, ws, x, w, o, fold);
  }
}
