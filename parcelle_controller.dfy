/** The parcel handlers: each takes the owner from the authenticated
    user's id, calls the parcel table and maps what it returns onto a
    status code. */
module ParcelleController {
  import opened Common
  import opened Json
  import opened Http
  import opened Pagination
  import opened SetBuilder
  import opened Postgres
  import opened ParcelleService

  const NotFound := "Parcelle non trouvée ou accès non autorisé."
  const NotFoundForUpdate := "Parcelle non trouvée ou accès non autorisé pour la mise à jour."
  const UpdateFailed := "Mise à jour échouée, parcelle non trouvée ou accès non autorisé."
  const NotFoundForDelete := "Parcelle non trouvée ou accès non autorisé pour la suppression."
  const Deleted := "Parcelle supprimée avec succès."

  /** `createParcelle`: 201 with the new row; an invalid geometry is the
      service's 400, any other database error, such as a crop id the
      integer column refuses, goes to the global handler. */
  method CreateParcelle(table: ParcelTable, user: nat, body: Json, now: int, engine: Parcel -> Option<DbError>)
    returns (a: Reply<ParcelView>)
    requires table.Valid()
    modifies table
    ensures table.Valid()
    ensures IntegerColumn(Get(body, "culture_actuelle_id")).Refused? ==>
      a == GlobalHandler(Database(IntegerColumn(Get(body, "culture_actuelle_id")).e)) &&
      table.rows == old(table.rows) && table.nextId == old(table.nextId)
    ensures !IntegerColumn(Get(body, "culture_actuelle_id")).Refused? ==>
      var p := NewParcel(old(table.nextId), user, body, now);
      match engine(p)
      case None => a == Data(201, Returned(p, table.asGeoJSON)) && table.rows == old(table.rows)[p.id := p]
      case Some(e) =>
        table.rows == old(table.rows) &&
        a == (if IsInvalidGeometry(e) then Message(400, InvalidGeometry) else GlobalHandler(Database(e)))
  {
    var r := table.Create(user, body, now, engine);
    if r.Err? {
      return CatchWithStatus(r.error);
    }
    a := Data(201, r.value);
  }

  /** `getUserParcelles`: the page and limit read as
      `parseInt(x, 10) || 1` and `parseInt(x, 10) || 10`; 200 with the
      listing, or the database's refusal of a page below 1, a negative
      limit, or a limit or offset outside bigint through the global
      handler. */
  function GetUserParcelles(table: ParcelTable, user: nat, page: Option<string>, limit: Option<string>): (a: Reply<Page<ParcelView>>)
    reads table
    ensures var p, l := QueryInt(page, 1), QueryInt(limit, 10);
      (a.status == 200 <==> Pageable(p, l)) &&
      (a.status == 200 ==> a.Data? && a == Data(200, table.FindByUserId(user, p, l).value)) &&
      (a.status != 200 ==> a.Message? && a.status == 500)
  {
    var l := QueryInt(limit, 10);
    match table.FindByUserId(user, QueryInt(page, 1), l)
    case Ok(result) => Data(200, result)
    case Err(e) => GlobalHandler(Database(e))
  }

  /** With no query string the listing is the first ten of the caller's
      parcels. */
  lemma DefaultListing(table: ParcelTable, user: nat)
    ensures GetUserParcelles(table, user, None, None) == Data(200, table.FindByUserId(user, 1, 10).value)
    ensures |GetUserParcelles(table, user, None, None).payload.data| <= 10
  {
  }

  /** `getParcelleById`: 200 with the row when the caller owns a parcel
      with that id, 404 otherwise. */
  function GetParcelleById(table: ParcelTable, user: nat, id: nat): (a: Reply<ParcelView>)
    reads table
    ensures a.status == 200 <==> id in table.rows && table.rows[id].owner == user
    ensures a.status == 200 ==> a == Data(200, Selected(table.rows[id], table.asGeoJSON))
    ensures a.status != 200 ==> a == Message(404, NotFound)
  {
    match table.FindByIdAndUserId(id, user)
    case None => Message(404, NotFound)
    case Some(v) => Data(200, v)
  }

  /** `updateParcelle`: the ownership check comes first, so a missing or
      foreign parcel is a 404 whatever the body holds, and the update is
      not attempted; then the service's 400 for an empty body, the global
      handler for a crop id the integer column refuses, the service's 400
      for an invalid geometry, or 200 with the patched row. */
  method UpdateParcelle(table: ParcelTable, user: nat, id: nat, body: Json, engine: Parcel -> Option<DbError>)
    returns (a: Reply<ParcelView>)
    requires table.Valid()
    modifies table
    ensures table.Valid() && table.nextId == old(table.nextId)
    ensures !(id in old(table.rows) && old(table.rows)[id].owner == user) ==>
      a == Message(404, NotFoundForUpdate) && table.rows == old(table.rows)
    ensures id in old(table.rows) && old(table.rows)[id].owner == user && Defined(Candidates(body)) == [] ==>
      a == Message(400, NothingToUpdate) && table.rows == old(table.rows)
    ensures id in old(table.rows) && old(table.rows)[id].owner == user && Defined(Candidates(body)) != [] &&
            IntegerColumn(Get(body, "culture_actuelle_id")).Refused? ==>
      a == GlobalHandler(Database(IntegerColumn(Get(body, "culture_actuelle_id")).e)) && table.rows == old(table.rows)
    ensures id in old(table.rows) && old(table.rows)[id].owner == user && Defined(Candidates(body)) != [] &&
            !IntegerColumn(Get(body, "culture_actuelle_id")).Refused? ==>
      var p := Patch(old(table.rows)[id], body);
      match engine(p)
      case None => a == Data(200, Returned(p, table.asGeoJSON)) && table.rows == old(table.rows)[id := p]
      case Some(e) =>
        table.rows == old(table.rows) &&
        a == (if IsInvalidGeometry(e) then Message(400, InvalidGeometryOnUpdate) else GlobalHandler(Database(e)))
  {
    var existing := table.FindByIdAndUserId(id, user);
    if existing.None? {
      return Message(404, NotFoundForUpdate);
    }
    var r := table.Update(id, user, body, engine);
    if r.Err? {
      return CatchWithStatus(r.error);
    }
    match r.value
    case None =>
      // The answer `UpdateFailed`: the row was checked just before, so
      // without a concurrent deletion the update always finds it.
      assert false;
    case Some(v) =>
      a := Data(200, v);
  }

  /** `deleteParcelle`: 200 when the caller's parcel was removed, 404
      when there was none, and nobody else's row is touched. */
  method DeleteParcelle(table: ParcelTable, user: nat, id: nat) returns (a: Reply<ParcelView>)
    requires table.Valid()
    modifies table
    ensures table.Valid() && table.nextId == old(table.nextId)
    ensures a == (if id in old(table.rows) && old(table.rows)[id].owner == user
                  then Message(200, Deleted) else Message(404, NotFoundForDelete))
    ensures table.rows == if a.status == 200 then old(table.rows) - {id} else old(table.rows)
  {
    var deleted := table.Delete(id, user);
    if !deleted {
      return Message(404, NotFoundForDelete);
    }
    a := Message(200, Deleted);
  }
}
