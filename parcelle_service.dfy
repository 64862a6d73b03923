/** The owner-scoped `parcelles` table: creation with the geometry handed
    to `ST_GeomFromGeoJSON`, the paged listing of one user's parcels, the
    lookup, the dynamic partial update and the deletion, each restricted to
    the rows whose `utilisateur_id` is the caller. */
module ParcelleService {
  import opened Common
  import opened Text
  import opened Json
  import opened Http
  import opened Sorting
  import opened Pagination
  import opened Postgres
  import opened SetBuilder

  const InvalidGeometry := "Format GeoJSON invalide pour la géométrie."
  const InvalidGeometryOnUpdate := "Format GeoJSON invalide pour la géométrie lors de la mise à jour."
  const NothingToUpdate := "Aucune donnée à mettre à jour."

  /** The text bound to `ST_GeomFromGeoJSON`'s placeholder: a string as
      the client sent it, or `JSON.stringify` of any other value. */
  datatype GeoText = Given(text: string) | Serialized(value: Json)

  /** The client value a geometry text carries: the string itself, or the
      value `JSON.stringify` wrote out. */
  function Carried(t: GeoText): Json
  {
    match t
    case Given(s) => JStr(s)
    case Serialized(v) => v
  }

  /** `typeof g === 'string' ? g : JSON.stringify(g)`: a string is passed
      as written and never serialized, and either way the text carries
      exactly the client's value. */
  function GeometryText(g: Json): (t: GeoText)
    ensures Carried(t) == g
    ensures t.Given? <==> g.JStr?
  {
    if g.JStr? then Given(g.s) else Serialized(g)
  }

  /** The geometry text `create` binds: `JSON.stringify(undefined)` is
      `undefined`, which the driver binds as NULL, and
      `ST_GeomFromGeoJSON(NULL)` is NULL; a given geometry is bound as a
      text carrying the client's value, from which PostGIS builds the
      stored geometry. */
  function CreateGeometry(g: Option<Json>): (t: Option<GeoText>)
    ensures t.None? <==> g.None?
    ensures t.Some? ==> Carried(t.value) == g.value && t.value == GeometryText(g.value)
  {
    MapOption(g, GeometryText)
  }

  /** One row of `parcelles`. The client's values are kept as JSON, NULL
      being `JNull`; `geometry` is the geometry PostGIS built from that
      text, named by the text; `cropId` is the integer column
      `culture_actuelle_id`; `createdAt` is `date_creation`. */
  datatype Parcel = Parcel(
    id: nat, owner: nat, name: Json, description: Json, geometry: Option<GeoText>,
    area: Json, soil: Json, cropId: Option<int>, createdAt: int)

  /** A parcel as a query returns it. `description` is `None` in the
      `RETURNING` list of `create` and `update`, which leaves it out; the
      owner is never returned; `geometry` is the text `ST_AsGeoJSON`
      writes for the stored geometry. */
  datatype ParcelView = ParcelView(
    id: nat, name: Json, description: Option<Json>, geometry: Option<string>,
    area: Json, soil: Json, cropId: Option<int>, createdAt: int)

  /** `ST_AsGeoJSON(geometrie)`, NULL staying NULL. `asGeoJSON` is PostGIS's
      rendering of the geometry built from a text. */
  function Rendered(g: Option<GeoText>, asGeoJSON: GeoText -> string): (r: Option<string>)
    ensures r.None? <==> g.None?
    ensures r.Some? ==> r.value == asGeoJSON(g.value)
  {
    MapOption(g, asGeoJSON)
  }

  /** The `RETURNING` list of `create` and `update`: every column but the
      description and the owner, the geometry rendered by PostGIS. */
  function Returned(p: Parcel, asGeoJSON: GeoText -> string): (v: ParcelView)
    ensures v.description.None? && v.id == p.id && v.geometry == Rendered(p.geometry, asGeoJSON)
    ensures v.name == p.name && v.area == p.area && v.soil == p.soil && v.cropId == p.cropId &&
            v.createdAt == p.createdAt
  {
    ParcelView(p.id, p.name, None, Rendered(p.geometry, asGeoJSON), p.area, p.soil, p.cropId, p.createdAt)
  }

  /** The select list of the lookup and the listing: `Returned`'s columns
      and the description. */
  function Selected(p: Parcel, asGeoJSON: GeoText -> string): (v: ParcelView)
    ensures v.description == Some(p.description) && v.id == p.id && v.geometry == Rendered(p.geometry, asGeoJSON)
    ensures v == Returned(p, asGeoJSON).(description := Some(p.description))
  {
    ParcelView(p.id, p.name, Some(p.description), Rendered(p.geometry, asGeoJSON), p.area, p.soil, p.cropId, p.createdAt)
  }

  /** The row `create` inserts for `id`, the sequence's next value. */
  function NewParcel(id: nat, owner: nat, data: Json, now: int): (p: Parcel)
    ensures p.id == id && p.owner == owner && p.createdAt == now
    ensures p.geometry == CreateGeometry(Get(data, "geometrie"))
    ensures p.cropId == Stored(IntegerColumn(Get(data, "culture_actuelle_id")), None)
  {
    Parcel(id, owner, Field(data, "nom_parcelle"), Field(data, "description"),
           CreateGeometry(Get(data, "geometrie")), Field(data, "superficie_calculee_ha"),
           Field(data, "type_sol_predominant"), Stored(IntegerColumn(Get(data, "culture_actuelle_id")), None), now)
  }

  /** PostGIS's rejection of a geometry text. */
  predicate IsInvalidGeometry(e: DbError)
  {
    e.code == InternalError && Contains(e.message, "invalid GeoJSON representation")
  }

  /** The catch blocks of `create` and `update`: PostGIS's rejection of
      the geometry text becomes a 400 with the operation's message, every
      other database error goes on unchanged. */
  function GeometryFailure(e: DbError, msg: string): (f: Failure)
    ensures f == Raised(400, msg) <==>
      e.code == InternalError && Contains(e.message, "invalid GeoJSON representation")
    ensures f.Database? <==>
      !(e.code == InternalError && Contains(e.message, "invalid GeoJSON representation"))
    ensures f.Database? ==> f.error == e
  {
    if e.code == InternalError && Contains(e.message, "invalid GeoJSON representation") then Raised(400, msg)
    else Database(e)
  }

  /** A value bound to a placeholder of the update. */
  datatype Param = Value(j: Json) | Geometry(t: GeoText) | Key(n: nat)

  /** The six updatable columns in the order `update` tests them. */
  function Candidates(data: Json): (c: seq<Candidate<Param>>)
    ensures |c| == 6
  {
    [Candidate("nom_parcelle", "", MapOption(Get(data, "nom_parcelle"), j => Value(j))),
     Candidate("description", "", MapOption(Get(data, "description"), j => Value(j))),
     Candidate("geometrie", "ST_GeomFromGeoJSON", MapOption(Get(data, "geometrie"), g => Geometry(GeometryText(g)))),
     Candidate("superficie_calculee_ha", "", MapOption(Get(data, "superficie_calculee_ha"), j => Value(j))),
     Candidate("type_sol_predominant", "", MapOption(Get(data, "type_sol_predominant"), j => Value(j))),
     Candidate("culture_actuelle_id", "", MapOption(Get(data, "culture_actuelle_id"), j => Value(j)))]
  }

  const UpdatableKeys: seq<string> :=
    ["nom_parcelle", "description", "geometrie", "superficie_calculee_ha",
     "type_sol_predominant", "culture_actuelle_id"]

  /** The update throws "nothing to update" exactly when none of the six
      keys is present; a key present with `null` counts as present. */
  lemma NothingToUpdateIff(data: Json)
    ensures Defined(Candidates(data)) == [] <==>
      forall k :: 0 <= k < |UpdatableKeys| ==> Get(data, UpdatableKeys[k]).None?
  {
    var c := Candidates(data);
    assert forall k :: 0 <= k < 6 ==> (c[k].value.None? <==> Get(data, UpdatableKeys[k]).None?);
  }

  /** What one `SET` clause does to the row. */
  function Assign(row: Parcel, column: string, p: Param): Parcel
  {
    match p
    case Geometry(t) => if column == "geometrie" then row.(geometry := Some(t)) else row
    case Value(j) =>
      if column == "nom_parcelle" then row.(name := j)
      else if column == "description" then row.(description := j)
      else if column == "superficie_calculee_ha" then row.(area := j)
      else if column == "type_sol_predominant" then row.(soil := j)
      else if column == "culture_actuelle_id" then row.(cropId := Stored(IntegerColumn(Some(j)), row.cropId))
      else row
    case Key(_) => row
  }

  /** The partial update stated field by field: a present key replaces its
      column (the geometry through `GeometryText`, the crop as the integer
      column reads it), an absent one keeps it; id, owner and creation
      date never change. */
  function Patch(row: Parcel, data: Json): Parcel
  {
    var geometry := Get(data, "geometrie");
    var crop := Get(data, "culture_actuelle_id");
    row.(name := Or(Get(data, "nom_parcelle"), row.name),
         description := Or(Get(data, "description"), row.description),
         geometry := if geometry.Some? then Some(GeometryText(geometry.value)) else row.geometry,
         area := Or(Get(data, "superficie_calculee_ha"), row.area),
         soil := Or(Get(data, "type_sol_predominant"), row.soil),
         cropId := if crop.Some? then Stored(IntegerColumn(crop), row.cropId) else row.cropId)
  }

  function Or(v: Option<Json>, otherwise: Json): Json
  {
    if v.Some? then v.value else otherwise
  }

  /** Setting the defined candidates one by one is the field-by-field patch. */
  lemma CandidatesArePatch(row: Parcel, data: Json)
    ensures ApplyDefined(Candidates(data), row, Assign) == Patch(row, data)
  {
    var c := Candidates(data);
    assert c == c[..5] + [c[5]];
    assert c[..5] == c[..4] + [c[4]];
    assert c[..4] == c[..3] + [c[3]];
    assert c[..3] == c[..2] + [c[2]];
    assert c[..2] == c[..1] + [c[1]];
    assert c[..1] == [] + [c[0]];
    ApplyDefinedSnoc([], c[0], row, Assign);
    ApplyDefinedSnoc(c[..1], c[1], row, Assign);
    ApplyDefinedSnoc(c[..2], c[2], row, Assign);
    ApplyDefinedSnoc(c[..3], c[3], row, Assign);
    ApplyDefinedSnoc(c[..4], c[4], row, Assign);
    ApplyDefinedSnoc(c[..5], c[5], row, Assign);
  }

  /** The statement `update` builds changes a matching row into exactly
      the field-by-field patch. */
  lemma UpdateIsPatch(data: Json, id: nat, owner: nat, row: Parcel)
    requires UpdateOf(Candidates(data), Key(id), Key(owner)).Some?
    ensures forall i :: 0 <= i < |UpdateOf(Candidates(data), Key(id), Key(owner)).value.sets| ==>
      1 <= UpdateOf(Candidates(data), Key(id), Key(owner)).value.sets[i].param <=
           |UpdateOf(Candidates(data), Key(id), Key(owner)).value.values|
    ensures ApplySets(UpdateOf(Candidates(data), Key(id), Key(owner)).value.sets,
                      UpdateOf(Candidates(data), Key(id), Key(owner)).value.values, row, Assign) ==
            Patch(row, data)
  {
    UpdateMeansDefined(Candidates(data), Key(id), Key(owner), row, Assign);
    CandidatesArePatch(row, data);
  }

  /** `update`'s query builder: the six tests with the running
      `paramIndex`, then the `WHERE` placeholders; no present key is the
      400 error, thrown before any query. */
  method BuildUpdate(data: Json, id: nat, owner: nat) returns (r: Result<Query<Param>, Failure>)
    ensures UpdateOf(Candidates(data), Key(id), Key(owner)).None? ==> r == Err(Raised(400, NothingToUpdate))
    ensures UpdateOf(Candidates(data), Key(id), Key(owner)).Some? ==>
      r == Ok(Render(UpdateOf(Candidates(data), Key(id), Key(owner)).value))
  {
    var cands := Candidates(data);
    var setClauses, values, paramIndex := CollectSets(cands);
    var q := Complete(cands, setClauses, values, paramIndex, Key(id), Key(owner));
    if q.None? {
      return Err(Raised(400, NothingToUpdate));
    }
    r := Ok(q.value);
  }

  /** The six tests of `update`, in its order. */
  method CollectSets(cands: seq<Candidate<Param>>) returns (setClauses: seq<string>, values: seq<Param>, paramIndex: nat)
    requires |cands| == 6
    ensures BuiltUpTo(cands, 6, setClauses, values, paramIndex)
  {
    setClauses, values, paramIndex := [], [], 1;
    assert cands[..0] == [];
    setClauses, values, paramIndex := Test(cands, 0, setClauses, values, paramIndex);
    setClauses, values, paramIndex := Test(cands, 1, setClauses, values, paramIndex);
    setClauses, values, paramIndex := Test(cands, 2, setClauses, values, paramIndex);
    setClauses, values, paramIndex := Test(cands, 3, setClauses, values, paramIndex);
    setClauses, values, paramIndex := Test(cands, 4, setClauses, values, paramIndex);
    setClauses, values, paramIndex := Test(cands, 5, setClauses, values, paramIndex);
  }

  /** The row a matched `UPDATE` leaves: the statement's clauses run on
      the row, which is the field-by-field patch. */
  function Executed(data: Json, id: nat, owner: nat, row: Parcel): (p: Parcel)
    requires UpdateOf(Candidates(data), Key(id), Key(owner)).Some?
    ensures p == Patch(row, data)
    ensures p.id == row.id && p.owner == row.owner && p.createdAt == row.createdAt
  {
    var st := UpdateOf(Candidates(data), Key(id), Key(owner)).value;
    UpdateIsPatch(data, id, owner, row);
    ApplySets(st.sets, st.values, row, Assign)
  }

  /** Newest first, as `ORDER BY date_creation DESC`; rows created at the
      same instant are taken in id order. */
  predicate NewestFirst(a: ParcelView, b: ParcelView)
  {
    a.createdAt > b.createdAt || (a.createdAt == b.createdAt && a.id <= b.id)
  }

  lemma NewestFirstIsTotalPreorder()
    ensures TotalPreorder(NewestFirst)
  {
  }

  class ParcelTable {
    var rows: map<nat, Parcel>
    var nextId: nat
    /** PostGIS's `ST_AsGeoJSON` of the geometry built from a text. */
    const asGeoJSON: GeoText -> string

    /** Rows are keyed by their id, below the sequence's next value. */
    ghost predicate Valid()
      reads this
    {
      forall id :: id in rows ==> id < nextId && rows[id].id == id
    }

    constructor (asGeoJSON: GeoText -> string)
      ensures Valid() && rows == map[] && nextId == 1 && this.asGeoJSON == asGeoJSON
    {
      rows := map[];
      nextId := 1;
      this.asGeoJSON := asGeoJSON;
    }

    /** `create`: a `culture_actuelle_id` the integer column cannot read is
        refused while the values are bound, before the sequence moves, and
        the catch block passes it on; otherwise the insert takes the
        sequence's next value whether or not the database then accepts the
        row (`engine` is its verdict on the row: constraints, the numeric
        area, and `ST_GeomFromGeoJSON`). */
    method Create(owner: nat, data: Json, now: int, engine: Parcel -> Option<DbError>)
      returns (r: Result<ParcelView, Failure>)
      requires Valid()
      modifies this
      ensures Valid()
      ensures IntegerColumn(Get(data, "culture_actuelle_id")).Refused? ==>
        r == Err(Database(IntegerColumn(Get(data, "culture_actuelle_id")).e)) &&
        rows == old(rows) && nextId == old(nextId)
      ensures !IntegerColumn(Get(data, "culture_actuelle_id")).Refused? ==>
        nextId == old(nextId) + 1 &&
        var p := NewParcel(old(nextId), owner, data, now);
        match engine(p)
        case None => rows == old(rows)[p.id := p] && r == Ok(Returned(p, asGeoJSON))
        case Some(e) => rows == old(rows) && r == Err(GeometryFailure(e, InvalidGeometry))
    {
      var column := IntegerColumn(Get(data, "culture_actuelle_id"));
      if column.Refused? {
        return Err(Database(column.e));
      }
      var p := NewParcel(nextId, owner, data, now);
      nextId := nextId + 1;
      var err := engine(p);
      if err.Some? {
        return Err(GeometryFailure(err.value, InvalidGeometry));
      }
      rows := rows[p.id := p];
      r := Ok(Returned(p, asGeoJSON));
    }

    /** `findByIdAndUserId`: the row with that id, only if the caller owns
        it. */
    function FindByIdAndUserId(id: nat, owner: nat): (r: Option<ParcelView>)
      reads this
      ensures r.Some? <==> id in rows && rows[id].owner == owner
      ensures r.Some? ==> r.value == Selected(rows[id], asGeoJSON) && r.value.description.Some?
    {
      if id in rows && rows[id].owner == owner then Some(Selected(rows[id], asGeoJSON)) else None
    }

    /** The ids below `n` of the caller's rows, in increasing order. */
    function OwnedIds(owner: nat, n: nat): (ids: seq<nat>)
      reads this
      ensures forall k :: 0 <= k < |ids| ==> ids[k] < n && ids[k] in rows && rows[ids[k]].owner == owner
      ensures forall k, l :: 0 <= k < l < |ids| ==> ids[k] < ids[l]
      ensures forall id :: id < n && id in rows && rows[id].owner == owner ==> id in ids
    {
      if n == 0 then []
      else
        var ids := OwnedIds(owner, n - 1);
        if n - 1 in rows && rows[n - 1].owner == owner then ids + [n - 1] else ids
    }

    /** `v` is what the listing selects from one of the caller's rows. */
    ghost predicate OwnedView(v: ParcelView, owner: nat)
      reads this
    {
      exists id :: id in rows && rows[id].owner == owner && v == Selected(rows[id], asGeoJSON)
    }

    /** The caller's rows as the listing selects them, in id order. */
    function OwnedViews(owner: nat): (vs: seq<ParcelView>)
      reads this
      ensures |vs| == |OwnedIds(owner, nextId)|
      ensures forall v :: v in vs ==> OwnedView(v, owner)
    {
      var ids := OwnedIds(owner, nextId);
      var table := rows;
      var render := asGeoJSON;
      var vs := seq(|ids|, k requires 0 <= k < |ids| => Selected(table[ids[k]], render));
      assert forall v :: v in vs ==> exists k :: 0 <= k < |ids| && v == Selected(table[ids[k]], render);
      assert forall k :: 0 <= k < |ids| ==> OwnedView(vs[k], owner);
      vs
    }

    /** `findByUserId`: the caller's parcels newest first, the page at
        offset (page - 1) * limit, and the count of the caller's rows.
        A page below 1, a negative limit, and a limit or offset outside
        bigint are refused by the database. */
    function FindByUserId(owner: nat, page: int, limit: int): (r: Result<Page<ParcelView>, DbError>)
      reads this
      requires limit != 0
      ensures r.Ok? <==> Pageable(page, limit)
      ensures r.Ok? ==>
        var total := |OwnedIds(owner, nextId)|;
        var sorted := SortBy(OwnedViews(owner), NewestFirst);
        r.value.pagination == PageInfo(page, CeilDiv(total, limit), total, limit) &&
        0 <= Min(|sorted|, (page - 1) * limit) <= Min(|sorted|, page * limit) <= |sorted| &&
        r.value.data == sorted[Min(|sorted|, (page - 1) * limit)..Min(|sorted|, page * limit)] &&
        |r.value.data| <= limit &&
        SortedBy(r.value.data, NewestFirst) &&
        forall v :: v in r.value.data ==> OwnedView(v, owner)
    {
      var views := OwnedViews(owner);
      var sorted := SortBy(views, NewestFirst);
      var r := Paginate(sorted, |views|, page, limit);
      if r.Ok? then
        SortBySorted(views, NewestFirst);
        PageOfSorted(sorted, |views|, NewestFirst, page, limit);
        assert forall v :: v in sorted ==> v in multiset(views);
        r
      else r
    }

    /** `update`: the 400 when no updatable key is present (before any
        query); then a `culture_actuelle_id` the integer column cannot read
        is refused while the values are bound; otherwise the owned row
        with that id becomes the patch, or nothing happens when there is
        none. A rejected geometry is the 400 of the update. */
    method Update(id: nat, owner: nat, data: Json, engine: Parcel -> Option<DbError>)
      returns (r: Result<Option<ParcelView>, Failure>)
      requires Valid()
      modifies this
      ensures Valid() && nextId == old(nextId)
      ensures Defined(Candidates(data)) == [] ==> r == Err(Raised(400, NothingToUpdate)) && rows == old(rows)
      ensures Defined(Candidates(data)) != [] && IntegerColumn(Get(data, "culture_actuelle_id")).Refused? ==>
        r == Err(Database(IntegerColumn(Get(data, "culture_actuelle_id")).e)) && rows == old(rows)
      ensures (Defined(Candidates(data)) != [] && !IntegerColumn(Get(data, "culture_actuelle_id")).Refused? &&
               !(id in old(rows) && old(rows)[id].owner == owner)) ==>
        r == Ok(None) && rows == old(rows)
      ensures (Defined(Candidates(data)) != [] && !IntegerColumn(Get(data, "culture_actuelle_id")).Refused? &&
               id in old(rows) && old(rows)[id].owner == owner) ==>
        var p := Patch(old(rows)[id], data);
        match engine(p)
        case None => rows == old(rows)[id := p] && r == Ok(Some(Returned(p, asGeoJSON)))
        case Some(e) => rows == old(rows) && r == Err(GeometryFailure(e, InvalidGeometryOnUpdate))
    {
      var q := BuildUpdate(data, id, owner);
      if q.Err? {
        return Err(q.error);
      }
      var column := IntegerColumn(Get(data, "culture_actuelle_id"));
      if column.Refused? {
        return Err(Database(column.e));
      }
      if !(id in rows && rows[id].owner == owner) {
        return Ok(None);
      }
      var p := Executed(data, id, owner, rows[id]);
      var err := engine(p);
      if err.Some? {
        return Err(GeometryFailure(err.value, InvalidGeometryOnUpdate));
      }
      rows := rows[id := p];
      r := Ok(Some(Returned(p, asGeoJSON)));
    }

    /** `delete`: true exactly when an owned row with that id existed, and
        then that row and only that row is gone. */
    method Delete(id: nat, owner: nat) returns (deleted: bool)
      requires Valid()
      modifies this
      ensures Valid() && nextId == old(nextId)
      ensures deleted <==> id in old(rows) && old(rows)[id].owner == owner
      ensures rows == if deleted then old(rows) - {id} else old(rows)
    {
      deleted := id in rows && rows[id].owner == owner;
      if deleted {
        rows := rows - {id};
      }
    }
  }
}
