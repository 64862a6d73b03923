/** The crop catalogue (`cultures_catalogue`), read only: a page of it in
    name order with the listing metadata, and one crop by id. */
module CultureService {
  import opened Common
  import opened Json
  import opened Http
  import opened Sorting
  import opened Pagination

  /** A catalogue row: the columns the listing selects, and the rest of
      the row (`SELECT *`) as one value. */
  datatype Crop = Crop(id: nat, name: string, description: Json, sowingFrom: Json, sowingTo: Json,
                       waterMm: Json, soil: Json, rest: Json)

  /** The seven columns `getAll` selects. */
  datatype CropSummary = CropSummary(id: nat, name: string, description: Json, sowingFrom: Json,
                                     sowingTo: Json, waterMm: Json, soil: Json)

  function Summary(c: Crop): (s: CropSummary)
    ensures s.id == c.id && s.name == c.name
  {
    CropSummary(c.id, c.name, c.description, c.sowingFrom, c.sowingTo, c.waterMm, c.soil)
  }

  function Summaries(catalogue: seq<Crop>): (r: seq<CropSummary>)
    ensures |r| == |catalogue|
    ensures forall k :: 0 <= k < |r| ==> r[k] == Summary(catalogue[k])
  {
    if catalogue == [] then [] else [Summary(catalogue[0])] + Summaries(catalogue[1..])
  }

  /** `ORDER BY nom_culture`, comparing code points. */
  predicate ByName(a: CropSummary, b: CropSummary)
  {
    StrLe(a.name, b.name)
  }

  lemma ByNameIsTotalPreorder()
    ensures TotalPreorder(ByName)
  {
    forall a: CropSummary, b: CropSummary
      ensures ByName(a, b) || ByName(b, a)
    {
      StrLeTotal(a.name, b.name);
    }
    forall a: CropSummary, b: CropSummary, c: CropSummary | ByName(a, b) && ByName(b, c)
      ensures ByName(a, c)
    {
      StrLeTransitive(a.name, b.name, c.name);
    }
  }

  /** The catalogue in listing order. */
  function Ordered(catalogue: seq<Crop>): (r: seq<CropSummary>)
    ensures |r| == |catalogue|
    ensures SortedBy(r, ByName)
    ensures forall s :: s in r ==> s in Summaries(catalogue)
  {
    var r := SortBy(Summaries(catalogue), ByName);
    ByNameIsTotalPreorder();
    SortBySorted(Summaries(catalogue), ByName);
    assert forall s :: s in r ==> s in multiset(Summaries(catalogue));
    r
  }

  /** `getAll({ page = 1, limit = 10 })`: the window at offset
      (page - 1) * limit of the catalogue in name order, with
      `totalPages = ceil(totalItems / limit)` and page and limit echoed
      back; the database refuses a page below 1, a negative limit, and a
      limit or offset outside bigint. */
  function GetAll(catalogue: seq<Crop>, page: Option<int>, limit: Option<int>): (r: Result<Page<CropSummary>, DbError>)
    requires limit != Some(0)
    ensures var p, l := (if page.Some? then page.value else 1), (if limit.Some? then limit.value else 10);
      (r.Ok? <==> Pageable(p, l)) &&
      (r.Ok? ==>
        r.value.pagination == PageInfo(p, CeilDiv(|catalogue|, l), |catalogue|, l) &&
        0 <= Min(|catalogue|, (p - 1) * l) <= Min(|catalogue|, p * l) <= |catalogue| &&
        r.value.data == Ordered(catalogue)[Min(|catalogue|, (p - 1) * l)..Min(|catalogue|, p * l)] &&
        |r.value.data| <= l &&
        SortedBy(r.value.data, ByName) &&
        forall s :: s in r.value.data ==> s in Summaries(catalogue))
    ensures r.Err? ==> r.error in {OffsetNegative, LimitNegative, BigintSyntax, BigintRange}
  {
    var p := if page.Some? then page.value else 1;
    var l := if limit.Some? then limit.value else 10;
    var sorted := Ordered(catalogue);
    var r := Paginate(sorted, |catalogue|, p, l);
    if r.Ok? then
      PageOfSorted(sorted, |catalogue|, ByName, p, l);
      r
    else
      OffsetSign(p, l);
      r
  }

  /** Pages 1..p of the listing, one after the other. */
  function Browse(catalogue: seq<Crop>, limit: int, p: nat): seq<CropSummary>
    requires p == 0 || Pageable(p, limit)
  {
    if p == 0 then []
    else if p == 1 then GetAll(catalogue, Some(1), Some(limit)).value.data
    else
      EarlierPageable(p - 1, p, limit);
      Browse(catalogue, limit, p - 1) + GetAll(catalogue, Some(p), Some(limit)).value.data
  }

  /** Reading every page from 1 to `totalPages` lists each crop exactly
      once, in name order. */
  lemma BrowseListsCatalogue(catalogue: seq<Crop>, limit: int)
    requires 0 < limit <= MaxInt8 && |catalogue| <= MaxInt8
    ensures var all := Browse(catalogue, limit, CeilDiv(|catalogue|, limit));
      multiset(all) == multiset(Summaries(catalogue)) && SortedBy(all, ByName)
  {
    var sorted := Ordered(catalogue);
    LastPageable(|catalogue|, limit);
    BrowseIsPrefix(catalogue, limit, CeilDiv(|catalogue|, limit));
    PagesCoverRows(sorted, limit, 0);
    ByNameIsTotalPreorder();
    SortBySorted(Summaries(catalogue), ByName);
  }

  lemma {:induction false} BrowseIsPrefix(catalogue: seq<Crop>, limit: int, p: nat)
    requires p == 0 || Pageable(p, limit)
    ensures Browse(catalogue, limit, p) == PagesUpTo(Ordered(catalogue), limit, p)
  {
    if p > 1 {
      EarlierPageable(p - 1, p, limit);
      BrowseIsPrefix(catalogue, limit, p - 1);
    }
  }

  /** `getById`: the row with that id, or `null` when there is none. */
  function GetById(catalogue: seq<Crop>, id: nat): (r: Option<Crop>)
    ensures r.Some? <==> exists c :: c in catalogue && c.id == id
    ensures r.Some? ==> r.value in catalogue && r.value.id == id
  {
    if catalogue == [] then None
    else if catalogue[0].id == id then Some(catalogue[0])
    else GetById(catalogue[1..], id)
  }
}
