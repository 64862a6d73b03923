/** The price tables: the product list `produits_agricoles_prix` and the
    region list `regions_tunisie`, both read only here, and the market
    observations `observations_prix_marches`, whose product and region are
    integer columns referencing them. The search joins all three with
    inner joins; the insert names the missing reference by probing the two
    lists. */
module PrixService {
  import opened Common
  import opened Json
  import opened Http
  import opened Postgres
  import opened Sorting
  import opened Tables
  import opened Pagination
  import opened PriceSearch
  import SetBuilder
  import Text

  const InvalidProduct := "ID de produit invalide."
  const InvalidRegion := "ID de région invalide."
  const InvalidProductOrRegion := "ID de produit ou de région invalide."
  const DefaultUnit := "TND/kg"

  const MissingReference := DbError(ForeignKeyViolation, "violates foreign key constraint on observations_prix_marches")

  /** A row of `produits_agricoles_prix`. */
  datatype Product = Product(id: int, name: string, category: Json)

  /** A row of `regions_tunisie`. */
  datatype Region = Region(id: int, name: string, governorate: Json)

  /** A row of the search: the observation's own columns but its two ids,
      with the product's name and category and the region's name and
      governorate. */
  datatype ObservationView = ObservationView(id: nat, date: Option<int>, price: Json, unit: Json, market: Json,
                                             source: Json, productName: string, category: Json,
                                             regionName: string, governorate: Json)

  /** The first row whose key is `id`. */
  function FindById<T>(rows: seq<T>, key: T -> int, id: int): (r: Option<T>)
    ensures r.Some? <==> exists k :: 0 <= k < |rows| && key(rows[k]) == id
    ensures r.Some? ==> r.value in rows && key(r.value) == id
  {
    if rows == [] then None
    else if key(rows[0]) == id then Some(rows[0])
    else
      var r := FindById(rows[1..], key, id);
      assert forall k :: 0 < k < |rows| ==> rows[1..][k - 1] == rows[k];
      r
  }

  function ProductKey(p: Product): int { p.id }

  function RegionKey(g: Region): int { g.id }

  /** The search's row for an observation: the inner joins find both its
      product and its region; a NULL id joins nothing. */
  function Join(products: seq<Product>, regions: seq<Region>, o: Observation): (v: Option<ObservationView>)
    ensures v.Some? <==>
      o.productId.Some? && FindById(products, ProductKey, o.productId.value).Some? &&
      o.regionId.Some? && FindById(regions, RegionKey, o.regionId.value).Some?
    ensures v.Some? ==>
      v.value.id == o.id && v.value.date == o.date && v.value.market == o.market &&
      v.value.productName == FindById(products, ProductKey, o.productId.value).value.name &&
      v.value.regionName == FindById(regions, RegionKey, o.regionId.value).value.name
  {
    if o.productId.None? || o.regionId.None? then None
    else
      match (FindById(products, ProductKey, o.productId.value), FindById(regions, RegionKey, o.regionId.value))
      case (Some(p), Some(g)) =>
        Some(ObservationView(o.id, o.date, o.price, o.unit, o.market, o.source, p.name, p.category, g.name, g.governorate))
      case _ => None
  }

  /** What the data query shows of a row: its join, when the bound
      conditions hold of it. */
  function Shown(products: seq<Product>, regions: seq<Region>, conds: seq<Condition>, vs: seq<Value>,
                 fold: char -> char): (nat, Observation) -> Option<ObservationView>
  {
    (id: nat, o: Observation) => if Selected(conds, vs, o, fold) then Join(products, regions, o) else None
  }

  /** What the count query counts: the rows the conditions keep and that
      join. */
  function Counted(products: seq<Product>, regions: seq<Region>, conds: seq<Condition>, vs: seq<Value>,
                   fold: char -> char): Observation -> bool
  {
    (o: Observation) => Selected(conds, vs, o, fold) && Join(products, regions, o).Some?
  }

  /** `ORDER BY opm.date_observation DESC, pa.nom_produit ASC`: `a` may
      come before `b`. NULL dates come first under `DESC`. */
  predicate NewestFirst(a: ObservationView, b: ObservationView)
  {
    DescNullsFirst(a.date, b.date) || (a.date == b.date && StrLe(a.productName, b.productName))
  }

  lemma NewestFirstIsTotalPreorder()
    ensures TotalPreorder(NewestFirst)
  {
    forall a: ObservationView, b: ObservationView
      ensures NewestFirst(a, b) || NewestFirst(b, a)
    {
      StrLeTotal(a.productName, b.productName);
    }
    forall a: ObservationView, b: ObservationView, c: ObservationView | NewestFirst(a, b) && NewestFirst(b, c)
      ensures NewestFirst(a, c)
    {
      if a.date == b.date && b.date == c.date {
        StrLeTransitive(a.productName, b.productName, c.productName);
      }
    }
  }

  /** `ORDER BY nom_produit`, in code-point order. */
  predicate ByProductName(a: Product, b: Product)
  {
    StrLe(a.name, b.name)
  }

  lemma ByProductNameIsTotalPreorder()
    ensures TotalPreorder(ByProductName)
  {
    forall a: Product, b: Product
      ensures ByProductName(a, b) || ByProductName(b, a)
    {
      StrLeTotal(a.name, b.name);
    }
    forall a: Product, b: Product, c: Product | ByProductName(a, b) && ByProductName(b, c)
      ensures ByProductName(a, c)
    {
      StrLeTransitive(a.name, b.name, c.name);
    }
  }

  /** `ORDER BY nom_region`, in code-point order. */
  predicate ByRegionName(a: Region, b: Region)
  {
    StrLe(a.name, b.name)
  }

  lemma ByRegionNameIsTotalPreorder()
    ensures TotalPreorder(ByRegionName)
  {
    forall a: Region, b: Region
      ensures ByRegionName(a, b) || ByRegionName(b, a)
    {
      StrLeTotal(a.name, b.name);
    }
    forall a: Region, b: Region, c: Region | ByRegionName(a, b) && ByRegionName(b, c)
      ensures ByRegionName(a, c)
    {
      StrLeTransitive(a.name, b.name, c.name);
    }
  }

  /** A non-null product id and region id of the row are in their lists
      (the two foreign keys). */
  predicate References(products: seq<Product>, regions: seq<Region>, o: Observation)
  {
    (o.productId.Some? ==> FindById(products, ProductKey, o.productId.value).Some?) &&
    (o.regionId.Some? ==> FindById(regions, RegionKey, o.regionId.value).Some?)
  }

  /** The database's verdict on the row the insert produces: `engine`
      stands for the constraints other than the two foreign keys, which
      PostgreSQL checks after them. */
  function RowError(products: seq<Product>, regions: seq<Region>, o: Observation,
                    engine: Observation -> Option<DbError>): (e: Option<DbError>)
    ensures e.None? <==> engine(o).None? && References(products, regions, o)
    ensures engine(o).Some? ==> e == engine(o)
    ensures engine(o).None? && e.Some? ==> e.value.code == ForeignKeyViolation
  {
    if engine(o).Some? then engine(o)
    else if !References(products, regions, o) then Some(MissingReference)
    else None
  }

  /** What the date column receives: NULL for `undefined` or `null`, and
      otherwise the text the driver sends (a string as itself, anything
      else through `show`) as PostgreSQL's date input `dates` reads it, or
      its refusal. */
  function DateColumn(v: Option<Json>, dates: string -> Option<int>, show: Json -> string): (c: Coerced)
    ensures c.Refused? ==> c.e == InvalidDate
    ensures v.Some? && v.value.JStr? ==> (c.Int? <==> dates(v.value.s).Some?)
  {
    match v
    case None => Null
    case Some(JNull) => Null
    case Some(JStr(s)) => DateText(s, dates)
    case Some(j) => DateText(show(j), dates)
  }

  function DateText(text: string, dates: string -> Option<int>): (c: Coerced)
    ensures c.Int? <==> dates(text).Some?
    ensures c.Refused? ==> c.e == InvalidDate
  {
    if dates(text).Some? then Int(dates(text).value) else Refused(InvalidDate)
  }

  /** The insert's refusal while binding its values, in placeholder
      order: the product id (`$1`), the region id (`$2`), the date (`$6`). */
  function Refusal(data: Json, dates: string -> Option<int>, show: Json -> string): (e: Option<DbError>)
    ensures e.None? <==>
      !IntegerColumn(Get(data, "produit_id")).Refused? && !IntegerColumn(Get(data, "region_id")).Refused? &&
      !DateColumn(Get(data, "date_observation"), dates, show).Refused?
    ensures IntegerColumn(Get(data, "produit_id")).Refused? ==> e == Some(IntegerColumn(Get(data, "produit_id")).e)
    ensures e.Some? ==> e.value.code != ForeignKeyViolation
  {
    var product := IntegerColumn(Get(data, "produit_id"));
    var region := IntegerColumn(Get(data, "region_id"));
    var date := DateColumn(Get(data, "date_observation"), dates, show);
    if product.Refused? then Some(product.e)
    else if region.Refused? then Some(region.e)
    else if date.Refused? then Some(date.e)
    else None
  }

  /** `unite_prix || 'TND/kg'`. */
  function Unit(data: Json): (u: Json)
    ensures Truthy(Some(u))
    ensures Truthy(Get(data, "unite_prix")) ==> u == Get(data, "unite_prix").value
    ensures !Truthy(Get(data, "unite_prix")) ==> u == JStr(DefaultUnit)
  {
    if Truthy(Get(data, "unite_prix")) then Get(data, "unite_prix").value else JStr(DefaultUnit)
  }

  /** The row the insert builds for `id`, the sequence's next value, once
      every value is bound. */
  function NewObservation(id: nat, data: Json, source: Json, dates: string -> Option<int>, show: Json -> string): (o: Observation)
    ensures o.id == id && o.source == source && o.unit == Unit(data)
    ensures o.market == Field(data, "nom_marche_specifique") && o.price == Field(data, "prix_moyen_kg_ou_unite")
    ensures o.productId == Stored(IntegerColumn(Get(data, "produit_id")), None)
    ensures o.regionId == Stored(IntegerColumn(Get(data, "region_id")), None)
    ensures o.date == Stored(DateColumn(Get(data, "date_observation"), dates, show), None)
  {
    Observation(id, Stored(IntegerColumn(Get(data, "produit_id")), None), Stored(IntegerColumn(Get(data, "region_id")), None),
                Field(data, "nom_marche_specifique"), Field(data, "prix_moyen_kg_ou_unite"), Unit(data),
                Stored(DateColumn(Get(data, "date_observation"), dates, show), None), source)
  }

  /** `source_information_input || `Collecteur: ${nom_complet} (ID: ${id})``,
      from the authenticated user's claims. */
  function ServiceSource(data: Json, user: Json, show: Json -> string): (s: Json)
    ensures Truthy(Some(s))
    ensures Truthy(Get(data, "source_information_input")) ==> s == Get(data, "source_information_input").value
    ensures !Truthy(Get(data, "source_information_input")) ==>
      s == JStr("Collecteur: " + TemplateText(Get(user, "nom_complet"), show) + " (ID: " + TemplateText(Get(user, "id"), show) + ")")
  {
    if Truthy(Get(data, "source_information_input")) then Get(data, "source_information_input").value
    else JStr("Collecteur: " + TemplateText(Get(user, "nom_complet"), show) + " (ID: " + TemplateText(Get(user, "id"), show) + ")")
  }

  /** `SELECT 1 FROM ... WHERE id = $1` with the body's value finds a row:
      the value reads as an integer that is a key of the list (a NULL
      compares equal to nothing). */
  predicate Probe<T>(rows: seq<T>, key: T -> int, v: Option<Json>)
  {
    IntegerColumn(v).Int? && FindById(rows, key, IntegerColumn(v).v).Some?
  }

  /** The message of the 400 after a foreign-key violation: the product
      when its probe finds nothing, else the region when its probe finds
      nothing, else the generic text. */
  function ProbeMessage(products: seq<Product>, regions: seq<Region>, data: Json): (m: string)
    ensures !Probe(products, ProductKey, Get(data, "produit_id")) ==> m == InvalidProduct
    ensures Probe(products, ProductKey, Get(data, "produit_id")) && !Probe(regions, RegionKey, Get(data, "region_id")) ==>
      m == InvalidRegion
    ensures Probe(products, ProductKey, Get(data, "produit_id")) && Probe(regions, RegionKey, Get(data, "region_id")) ==>
      m == InvalidProductOrRegion
  {
    if !Probe(products, ProductKey, Get(data, "produit_id")) then InvalidProduct
    else if !Probe(regions, RegionKey, Get(data, "region_id")) then InvalidRegion
    else InvalidProductOrRegion
  }

  /** When the only refusal is a foreign key, the probes always find the
      culprit: the generic text is never chosen, the region is named only
      when the product is in its list, and the product is named whenever
      its id is missing from it. */
  lemma ProbeNamesMissingKey(products: seq<Product>, regions: seq<Region>, data: Json, o: Observation,
                             engine: Observation -> Option<DbError>, dates: string -> Option<int>, show: Json -> string)
    requires Refusal(data, dates, show).None?
    requires o.productId == Stored(IntegerColumn(Get(data, "produit_id")), None)
    requires o.regionId == Stored(IntegerColumn(Get(data, "region_id")), None)
    requires engine(o).None? && RowError(products, regions, o, engine).Some?
    ensures ProbeMessage(products, regions, data) != InvalidProductOrRegion
    ensures ProbeMessage(products, regions, data) == InvalidRegion ==>
      o.productId.Some? && FindById(products, ProductKey, o.productId.value).Some? &&
      o.regionId.Some? && FindById(regions, RegionKey, o.regionId.value).None?
    ensures o.productId.Some? && FindById(products, ProductKey, o.productId.value).None? ==>
      ProbeMessage(products, regions, data) == InvalidProduct
  {
  }

  /** A row with no product and an unknown region is blamed on the
      product: the product probe compares `id = NULL` and finds nothing. */
  lemma NullProductIsBlamed(products: seq<Product>, regions: seq<Region>, data: Json)
    requires Get(data, "produit_id") == Some(JNull)
    ensures ProbeMessage(products, regions, data) == InvalidProduct
  {
  }

  /** The statements of the search: the data query with its `LIMIT` and
      `OFFSET` placeholders after the filters', the count query with the
      same `WHERE`, and their parameters. */
  datatype Search = Search(dataSql: string, countSql: string, dataParams: seq<string>, countParams: seq<string>)

  const DataBase :=
    "SELECT opm.id, opm.date_observation, opm.prix_moyen_kg_ou_unite, opm.unite_prix, " +
    "opm.nom_marche_specifique, opm.source_information, pa.nom_produit, pa.categorie_produit, " +
    "rt.nom_region, rt.gouvernorat FROM observations_prix_marches opm " +
    "JOIN produits_agricoles_prix pa ON opm.produit_id = pa.id JOIN regions_tunisie rt ON opm.region_id = rt.id"

  const CountBase :=
    "SELECT COUNT(opm.*) FROM observations_prix_marches opm " +
    "JOIN produits_agricoles_prix pa ON opm.produit_id = pa.id JOIN regions_tunisie rt ON opm.region_id = rt.id"

  /** ` WHERE c1 AND c2 ...`, or nothing for no condition. */
  function Where(clauses: seq<string>): (w: string)
    ensures clauses == [] <==> w == ""
  {
    if clauses == [] then "" else " WHERE " + Text.Join(clauses, " AND ")
  }

  /** The `ORDER BY`, `LIMIT $k` and `OFFSET $k+1` that end the data
      query. */
  function Tail(k: nat): string
  {
    " ORDER BY opm.date_observation DESC, pa.nom_produit ASC LIMIT " + SetBuilder.Placeholder(k) +
    " OFFSET " + SetBuilder.Placeholder(k + 1) + ";"
  }

  /** `searchObservations`' statements: the filters' conditions joined
      with `AND` in both queries; limit and offset are the last two
      parameters of the data query only, sent as their decimal text. */
  method BuildSearch(f: Filters, page: int, limit: int) returns (s: Search)
    ensures var p := PlanOf(FilterList(f));
      s.dataSql == DataBase + Where(ConditionTexts(p.conditions)) + Tail(|p.params| + 1) &&
      s.countSql == CountBase + Where(ConditionTexts(p.conditions)) &&
      s.dataParams == p.params + [IntToString(limit), IntToString(Offset(page, limit))] &&
      s.countParams == p.params
  {
    var offset := (page - 1) * limit;
    var whereClauses, queryParams, paramIndex := BuildConditions(f);
    var baseQuery, countBaseQuery := DataBase, CountBase;
    if |whereClauses| > 0 {
      var whereString := " WHERE " + Text.Join(whereClauses, " AND ");
      baseQuery := baseQuery + whereString;
      countBaseQuery := countBaseQuery + whereString;
    }
    baseQuery := baseQuery + Tail(paramIndex);
    s := Search(baseQuery, countBaseQuery, queryParams + [IntToString(limit), IntToString(offset)], queryParams);
  }

  class PriceTables {
    var products: seq<Product>
    var regions: seq<Region>
    var observations: map<nat, Observation>
    var nextId: nat

    /** Rows are keyed by their id, below the sequence's next value, and
        their references are in the lists. */
    ghost predicate Valid()
      reads this
    {
      forall id :: id in observations ==>
        id < nextId && observations[id].id == id && References(products, regions, observations[id])
    }

    constructor (ps: seq<Product>, rs: seq<Region>)
      ensures Valid() && products == ps && regions == rs && observations == map[] && nextId == 1
    {
      products := ps;
      regions := rs;
      observations := map[];
      nextId := 1;
    }

    /** The rows the bound conditions keep that join a product and a
        region, in id order: each comes from a stored observation, every
        such observation is there, and there are as many as the count
        query counts. */
    function Matching(conds: seq<Condition>, vs: seq<Value>, fold: char -> char): (ms: seq<ObservationView>)
      reads this
      ensures forall v :: v in ms ==>
        (exists id: nat :: id < nextId && id in observations && Selected(conds, vs, observations[id], fold) &&
           Join(products, regions, observations[id]) == Some(v))
      ensures forall id: nat ::
        (id < nextId && id in observations && Selected(conds, vs, observations[id], fold) &&
         Join(products, regions, observations[id]).Some?) ==> Join(products, regions, observations[id]).value in ms
      ensures |ms| == Count(observations, nextId, Counted(products, regions, conds, vs, fold))
    {
      var view := Shown(products, regions, conds, vs, fold);
      SelectComplete(observations, nextId, view);
      SelectCounted(observations, nextId, view, Counted(products, regions, conds, vs, fold));
      Select(observations, nextId, view)
    }

    /** The matching rows in the search's order. */
    function Listing(conds: seq<Condition>, vs: seq<Value>, fold: char -> char): (ls: seq<ObservationView>)
      reads this
      ensures SortedBy(ls, NewestFirst)
      ensures multiset(ls) == multiset(Matching(conds, vs, fold))
    {
      NewestFirstIsTotalPreorder();
      SortBySorted(Matching(conds, vs, fold), NewestFirst);
      SortBy(Matching(conds, vs, fold), NewestFirst)
    }

    /** `searchObservations`: page 1 and limit 10 when not given. A
        filter whose text its comparison cannot read fails both queries
        with that refusal; otherwise the page of the ordered matches at
        offset (page - 1) * limit, with the count of all matches. The
        handler that would call it never passes a zero limit. */
    function SearchObservations(f: Filters, page: Option<int>, limit: Option<int>, casts: Casts, fold: char -> char)
      : (r: Result<Page<ObservationView>, DbError>)
      reads this
      requires limit != Some(0)
      ensures var fs, p, l := FilterList(f), OrDefault(page, 1), OrDefault(limit, 10);
        (Wanted(Active(fs), casts).Err? ==> r == Err(Wanted(Active(fs), casts).error)) &&
        (Wanted(Active(fs), casts).Ok? ==> (r.Ok? <==> Pageable(p, l))) &&
        (r.Ok? ==> (BindPlan(fs, casts).Ok? &&
          var ms := Matching(PlanOf(fs).conditions, BindPlan(fs, casts).value, fold);
          var ls := Listing(PlanOf(fs).conditions, BindPlan(fs, casts).value, fold);
          r.value.pagination == PageInfo(p, CeilDiv(|ms|, l), |ms|, l) &&
          0 <= Min(|ls|, (p - 1) * l) <= Min(|ls|, p * l) <= |ls| &&
          r.value.data == ls[Min(|ls|, (p - 1) * l)..Min(|ls|, p * l)] &&
          |r.value.data| <= l && SortedBy(r.value.data, NewestFirst) &&
          forall v :: v in r.value.data ==> v in ms))
    {
      var fs, p, l := FilterList(f), OrDefault(page, 1), OrDefault(limit, 10);
      match BindPlan(fs, casts)
      case Err(e) => Err(e)
      case Ok(vs) =>
        var conds := PlanOf(fs).conditions;
        var ls := Listing(conds, vs, fold);
        var total := Count(observations, nextId, Counted(products, regions, conds, vs, fold));
        var r := Paginate(ls, total, p, l);
        if r.Ok? then
          PageOfSorted(ls, total, NewestFirst, p, l);
          assert forall v :: v in ls ==> v in multiset(Matching(conds, vs, fold));
          r
        else r
    }

    /** The search lists the joined observations the filters mean, all of
        them: provided `lower()` leaves `%` alone and no folded market name
        has a character `LIKE` treats specially. */
    lemma MatchingMeansFilters(f: Filters, casts: Casts, fold: char -> char)
      requires Valid()
      requires fold('%') == '%' && PlainNames(FilterList(f), fold) && BindPlan(FilterList(f), casts).Ok?
      ensures Wanted(Active(FilterList(f)), casts).Ok?
      ensures var fs := FilterList(f);
        var ms := Matching(PlanOf(fs).conditions, BindPlan(fs, casts).value, fold);
        (forall v :: v in ms ==>
           (exists id :: id in observations && Meets(Active(fs), Wanted(Active(fs), casts).value, observations[id], fold) &&
              Join(products, regions, observations[id]) == Some(v))) &&
        (forall id ::
           (id in observations && Meets(Active(fs), Wanted(Active(fs), casts).value, observations[id], fold) &&
            Join(products, regions, observations[id]).Some?) ==> Join(products, regions, observations[id]).value in ms)
    {
      var fs := FilterList(f);
      forall id | id in observations
        ensures Selected(PlanOf(fs).conditions, BindPlan(fs, casts).value, observations[id], fold) <==>
                Meets(Active(fs), Wanted(Active(fs), casts).value, observations[id], fold)
      {
        BoundPlanMeansFilters(fs, casts, fold, observations[id]);
      }
      BoundPlanMeansFilters(fs, casts, fold, Observation(0, None, None, JNull, JNull, JNull, None, JNull));
    }

    /** `getAllProduits`: the whole product list by name. */
    function GetAllProduits(): (r: seq<Product>)
      reads this
      ensures SortedBy(r, ByProductName) && multiset(r) == multiset(products)
    {
      ByProductNameIsTotalPreorder();
      SortBySorted(products, ByProductName);
      SortBy(products, ByProductName)
    }

    /** `getAllRegions`: the whole region list by name. */
    function GetAllRegions(): (r: seq<Region>)
      reads this
      ensures SortedBy(r, ByRegionName) && multiset(r) == multiset(regions)
    {
      ByRegionNameIsTotalPreorder();
      SortBySorted(regions, ByRegionName);
      SortBy(regions, ByRegionName)
    }

    /** The `INSERT ... RETURNING *` both handlers run: a value a column
        cannot read is refused when the statement is bound, before the
        sequence moves; otherwise the row takes the sequence's next value
        and is stored unless the database refuses it. */
    method Insert(data: Json, source: Json, dates: string -> Option<int>, show: Json -> string,
                  engine: Observation -> Option<DbError>) returns (r: Result<Observation, DbError>)
      requires Valid()
      modifies this
      ensures Valid() && products == old(products) && regions == old(regions)
      ensures Refusal(data, dates, show).Some? ==>
        r == Err(Refusal(data, dates, show).value) && observations == old(observations) && nextId == old(nextId)
      ensures Refusal(data, dates, show).None? ==>
        nextId == old(nextId) + 1 &&
        var o := NewObservation(old(nextId), data, source, dates, show);
        match RowError(products, regions, o, engine)
        case Some(e) => r == Err(e) && observations == old(observations)
        case None => r == Ok(o) && observations == old(observations)[o.id := o]
    {
      var refusal := Refusal(data, dates, show);
      if refusal.Some? {
        return Err(refusal.value);
      }
      var o := NewObservation(nextId, data, source, dates, show);
      nextId := nextId + 1;
      var e := RowError(products, regions, o, engine);
      if e.Some? {
        return Err(e.value);
      }
      observations := observations[o.id := o];
      r := Ok(o);
    }

    /** `addObservation`: the source defaults to the collector's name and
        id. A foreign-key violation runs the two probes and throws the 400
        with the message they choose; every other error goes on. */
    method AddObservation(data: Json, user: Json, dates: string -> Option<int>, show: Json -> string,
                          engine: Observation -> Option<DbError>) returns (r: Result<Observation, Failure>)
      requires Valid()
      modifies this
      ensures Valid() && products == old(products) && regions == old(regions)
      ensures Refusal(data, dates, show).Some? ==>
        r == Err(Database(Refusal(data, dates, show).value)) && observations == old(observations) && nextId == old(nextId)
      ensures Refusal(data, dates, show).None? ==>
        nextId == old(nextId) + 1 &&
        var o := NewObservation(old(nextId), data, ServiceSource(data, user, show), dates, show);
        match RowError(products, regions, o, engine)
        case Some(e) =>
          observations == old(observations) &&
          r == Err(if e.code == ForeignKeyViolation then Raised(400, ProbeMessage(products, regions, data)) else Database(e))
        case None => r == Ok(o) && observations == old(observations)[o.id := o]
    {
      var inserted := Insert(data, ServiceSource(data, user, show), dates, show, engine);
      if inserted.Err? {
        var error := inserted.error;
        if error.code == ForeignKeyViolation {
          var produitExists := Probe(products, ProductKey, Get(data, "produit_id"));
          var regionExists := Probe(regions, RegionKey, Get(data, "region_id"));
          var message := InvalidProductOrRegion;
          if !produitExists {
            message := InvalidProduct;
          } else if !regionExists {
            message := InvalidRegion;
          }
          return Err(Raised(400, message));
        }
        return Err(Database(error));
      }
      r := Ok(inserted.value);
    }
  }
}
