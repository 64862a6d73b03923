/** The price handlers, which query the tables themselves rather than
    through the price service: an unpaged search whose conditions follow
    `WHERE 1=1`, an insert with its own required fields and its own
    defaults, and the two lists by name. */
module PrixController {
  import opened Common
  import opened Json
  import opened Http
  import opened Sorting
  import opened Pagination
  import opened PriceSearch
  import opened PrixService
  import SetBuilder
  import Text

  const Required := "Produit, région, prix et date d'observation sont requis."

  const ListingOrder := " ORDER BY opm.date_observation DESC, pa.nom_produit ASC;"

  /** ` AND c1 AND c2 ...`: one ` AND c` per clause, in order. */
  function AndEach(clauses: seq<string>): string
  {
    if clauses == [] then "" else AndEach(clauses[..|clauses| - 1]) + " AND " + clauses[|clauses| - 1]
  }

  /** `Text.Join` of one more piece. */
  lemma {:induction false} JoinSnoc(pieces: seq<string>, sep: string, last: string)
    requires pieces != []
    ensures Text.Join(pieces + [last], sep) == Text.Join(pieces, sep) + sep + last
  {
    if |pieces| > 1 {
      assert (pieces + [last])[1..] == pieces[1..] + [last];
      JoinSnoc(pieces[1..], sep, last);
    } else {
      assert (pieces + [last])[1..] == [last];
    }
  }

  /** The controller's conditions after `1=1` are the service's
      conjunction: ` AND c1 AND ... AND cn` is ` AND ` followed by the
      clauses joined with ` AND `. */
  lemma {:induction false} AndEachIsJoin(clauses: seq<string>)
    ensures clauses != [] ==> AndEach(clauses) == " AND " + Text.Join(clauses, " AND ")
    ensures clauses == [] ==> AndEach(clauses) == ""
  {
    if |clauses| > 1 {
      var init := clauses[..|clauses| - 1];
      AndEachIsJoin(init);
      JoinSnoc(init, " AND ", clauses[|clauses| - 1]);
      assert init + [clauses[|clauses| - 1]] == clauses;
    } else if |clauses| == 1 {
      assert clauses[..0] == [];
    }
  }

  /** The query text is `head` followed by the conditions of plan `p`,
      and the parameters and the counter are the plan's. */
  ghost predicate Appends(p: Plan, head: string, sql: string, params: seq<string>, paramIndex: nat)
  {
    sql == head + AndEach(ConditionTexts(p.conditions)) && params == p.params && paramIndex == |p.conditions| + 1
  }

  lemma AndEachSnoc(clauses: seq<string>, c: string)
    ensures AndEach(clauses + [c]) == AndEach(clauses) + " AND " + c
  {
    assert (clauses + [c])[..|clauses|] == clauses;
  }

  lemma AppendText(conds: seq<Condition>, c: Condition, head: string, sql: string, sql': string)
    requires sql == head + AndEach(ConditionTexts(conds))
    requires sql' == sql + (" AND " + Operator(c.criterion) + SetBuilder.Placeholder(c.param))
    ensures sql' == head + AndEach(ConditionTexts(conds + [c]))
  {
    var ts := ConditionTexts(conds);
    assert ConditionTexts(conds + [c]) == ts + [ConditionText(c)];
    AndEachSnoc(ts, ConditionText(c));
    Regroup(head, AndEach(ts), Operator(c.criterion), SetBuilder.Placeholder(c.param));
  }

  lemma Regroup(head: string, a: string, o: string, n: string)
    ensures (head + a) + (" AND " + o + n) == head + (a + " AND " + (o + n))
  {
  }

  /** One `if (filter) { baseQuery += ` AND ... $${paramIndex++}`; queryParams.push(...) }`. */
  method Append(ghost p: Plan, ghost head: string, x: Filter, sql: string, params: seq<string>, paramIndex: nat)
    returns (sql': string, params': seq<string>, paramIndex': nat)
    requires Appends(p, head, sql, params, paramIndex)
    ensures Appends(Extend(p, x), head, sql', params', paramIndex')
  {
    sql', params', paramIndex' := sql, params, paramIndex;
    if Given(x.value) {
      sql' := sql' + (" AND " + Operator(x.criterion) + SetBuilder.Placeholder(paramIndex'));
      paramIndex' := paramIndex' + 1;
      params' := params' + [Argument(x)];
      ghost var c := Condition(x.criterion, paramIndex);
      AppendText(p.conditions, c, head, sql, sql');
    }
  }

  /** `searchPrixObservations`' statement: the same conditions and
      parameters as the service's, each after ` AND ` following
      `WHERE 1=1`, and the service's order without `LIMIT` or `OFFSET`. */
  method BuildListing(f: Filters) returns (sql: string, params: seq<string>)
    ensures sql == DataBase + " WHERE 1=1" + AndEach(ConditionTexts(PlanOf(FilterList(f)).conditions)) + ListingOrder
    ensures params == PlanOf(FilterList(f)).params
  {
    var fs := FilterList(f);
    PlanOfFive(fs);
    ghost var p := Plan([], []);
    ghost var head := DataBase + " WHERE 1=1";
    var paramIndex: nat;
    sql, params, paramIndex := DataBase + " WHERE 1=1", [], 1;
    sql, params, paramIndex := Append(p, head, fs[0], sql, params, paramIndex);
    p := Extend(p, fs[0]);
    sql, params, paramIndex := Append(p, head, fs[1], sql, params, paramIndex);
    p := Extend(p, fs[1]);
    sql, params, paramIndex := Append(p, head, fs[2], sql, params, paramIndex);
    p := Extend(p, fs[2]);
    sql, params, paramIndex := Append(p, head, fs[3], sql, params, paramIndex);
    p := Extend(p, fs[3]);
    sql, params, paramIndex := Append(p, head, fs[4], sql, params, paramIndex);
    sql := sql + ListingOrder;
  }

  /** `searchPrixObservations`: 200 with every matching row in the
      search's order; a filter whose text its comparison cannot read goes
      to the global handler. */
  function SearchPrixObservations(tables: PriceTables, f: Filters, casts: Casts, fold: char -> char)
    : (a: Reply<seq<ObservationView>>)
    reads tables
    ensures var fs := FilterList(f);
      (a.status == 200 <==> Wanted(Active(fs), casts).Ok?) &&
      (a.status != 200 ==> a == GlobalHandler(Database(Wanted(Active(fs), casts).error))) &&
      (a.status == 200 ==> (a.Data? && BindPlan(fs, casts).Ok? &&
        SortedBy(a.payload, NewestFirst) &&
        multiset(a.payload) == multiset(tables.Matching(PlanOf(fs).conditions, BindPlan(fs, casts).value, fold))))
  {
    var fs := FilterList(f);
    match BindPlan(fs, casts)
    case Err(e) => GlobalHandler(Database(e))
    case Ok(vs) => Data(200, tables.Listing(PlanOf(fs).conditions, vs, fold))
  }

  /** The service's page `p` of `l` rows is the slice of the controller's
      unpaged answer at offset (p - 1) * l, and its count is the length
      of that answer. */
  lemma ServicePageOfListing(tables: PriceTables, f: Filters, p: int, l: int, casts: Casts, fold: char -> char)
    requires Pageable(p, l)
    requires SearchPrixObservations(tables, f, casts, fold).status == 200
    ensures var rows := SearchPrixObservations(tables, f, casts, fold).payload;
      var r := tables.SearchObservations(f, Some(p), Some(l), casts, fold);
      r.Ok? && r.value.pagination.totalItems == |rows| &&
      0 <= Min(|rows|, (p - 1) * l) <= Min(|rows|, p * l) <= |rows| &&
      r.value.data == rows[Min(|rows|, (p - 1) * l)..Min(|rows|, p * l)]
  {
    var fs := FilterList(f);
    var vs := BindPlan(fs, casts).value;
    var rows := tables.Listing(PlanOf(fs).conditions, vs, fold);
    assert |rows| == |tables.Matching(PlanOf(fs).conditions, vs, fold)| by {
      assert |multiset(rows)| == |multiset(tables.Matching(PlanOf(fs).conditions, vs, fold))|;
    }
  }

  /** The four fields the handler demands, by truthiness: a price of 0 is
      missing like an absent one. */
  predicate HasRequired(data: Json)
  {
    Truthy(Get(data, "produit_id")) && Truthy(Get(data, "region_id")) &&
    Truthy(Get(data, "prix_moyen_kg_ou_unite")) && Truthy(Get(data, "date_observation"))
  }

  /** `source_information || `Collecteur ${req.user.id}``. */
  function ControllerSource(data: Json, user: Json, show: Json -> string): (s: Json)
    ensures Truthy(Some(s))
    ensures Truthy(Get(data, "source_information")) ==> s == Get(data, "source_information").value
    ensures !Truthy(Get(data, "source_information")) ==> s == JStr("Collecteur " + TemplateText(Get(user, "id"), show))
  {
    if Truthy(Get(data, "source_information")) then Get(data, "source_information").value
    else JStr("Collecteur " + TemplateText(Get(user, "id"), show))
  }

  /** `addPrixObservation`: 400 before any query unless the four required
      fields are truthy; then the insert, 201 with the stored row; a
      foreign-key violation is the 400 with the generic message, and any
      other error goes to the global handler. */
  method AddPrixObservation(tables: PriceTables, data: Json, user: Json, dates: string -> Option<int>,
                            show: Json -> string, engine: Observation -> Option<DbError>) returns (a: Reply<Observation>)
    requires tables.Valid()
    modifies tables
    ensures tables.Valid() && tables.products == old(tables.products) && tables.regions == old(tables.regions)
    ensures !HasRequired(data) ==>
      a == Message(400, Required) && tables.observations == old(tables.observations) && tables.nextId == old(tables.nextId)
    ensures HasRequired(data) && Refusal(data, dates, show).Some? ==>
      a == GlobalHandler(Database(Refusal(data, dates, show).value)) &&
      tables.observations == old(tables.observations) && tables.nextId == old(tables.nextId)
    ensures HasRequired(data) && Refusal(data, dates, show).None? ==>
      tables.nextId == old(tables.nextId) + 1 &&
      var o := NewObservation(old(tables.nextId), data, ControllerSource(data, user, show), dates, show);
      match RowError(tables.products, tables.regions, o, engine)
      case Some(e) =>
        tables.observations == old(tables.observations) &&
        a == (if e.code == ForeignKeyViolation then Message(400, InvalidProductOrRegion) else GlobalHandler(Database(e)))
      case None => a == Data(201, o) && tables.observations == old(tables.observations)[o.id := o]
  {
    if !HasRequired(data) {
      return Message(400, Required);
    }
    var r := tables.Insert(data, ControllerSource(data, user, show), dates, show, engine);
    if r.Err? {
      if r.error.code == ForeignKeyViolation {
        return Message(400, InvalidProductOrRegion);
      }
      return GlobalHandler(Database(r.error));
    }
    a := Data(201, r.value);
  }

  /** `getAllProduits`: 200 with the whole product list by name. */
  function GetAllProduits(tables: PriceTables): (a: Reply<seq<Product>>)
    reads tables
    ensures a.Data? && a.status == 200
    ensures SortedBy(a.payload, ByProductName) && multiset(a.payload) == multiset(tables.products)
  {
    Data(200, tables.GetAllProduits())
  }

  /** `getAllRegions`: 200 with the whole region list by name. */
  function GetAllRegions(tables: PriceTables): (a: Reply<seq<Region>>)
    reads tables
    ensures a.Data? && a.status == 200
    ensures SortedBy(a.payload, ByRegionName) && multiset(a.payload) == multiset(tables.regions)
  {
    Data(200, tables.GetAllRegions())
  }
}
