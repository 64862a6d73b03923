/** The parcel request rules: the hand-written GeoJSON polygon check
    (a subset of the linear-ring rules of section 3.1.6 of RFC 7946, and
    stricter than section 3.1.1 on positions: exactly two numbers), the
    body field rules and the route `id` rule. */
module ParcelleValidator {
  import opened Common
  import opened Text
  import opened Json
  import opened Validation

  const NotAnObject := "La géométrie doit être un objet GeoJSON."
  const MissingTypeOrCoordinates := "L'objet GeoJSON doit avoir les propriétés \"type\" et \"coordinates\"."
  const WrongType := "Le type de géométrie doit être Polygon ou MultiPolygon."
  const NoRings := "Les coordonnées du Polygon doivent être un tableau de rings."
  const ShortRing := "Chaque ring du Polygon doit être un tableau d'au moins 4 coordonnées."
  const BadPosition := "Chaque coordonnée doit être un tableau de deux nombres [longitude, latitude]."
  const OpenRing := "Le premier et le dernier point de chaque ring du Polygon doivent être identiques."

  /** A position as the check wants it: an array of exactly two numbers. */
  predicate IsPosition(p: Json)
  {
    p.JArr? && |p.items| == 2 && p.items[0].JNum? && p.items[1].JNum?
  }

  /** First and last positions agree in both coordinates. */
  predicate SameEnds(points: seq<Json>)
    requires points != []
    requires IsPosition(points[0]) && IsPosition(points[|points| - 1])
  {
    var first, last := points[0], points[|points| - 1];
    first.items[0].x == last.items[0].x && first.items[1].x == last.items[1].x
  }

  /** A ring the check accepts: an array of at least four positions whose
      first and last positions are equal. */
  predicate ClosedRing(ring: Json)
  {
    ring.JArr? && |ring.items| >= 4 &&
    (forall i :: 0 <= i < |ring.items| ==> IsPosition(ring.items[i])) &&
    SameEnds(ring.items)
  }

  /** The message the check throws for one ring, if any. */
  function RingError(ring: Json): (r: Option<string>)
    ensures r.None? <==> ClosedRing(ring)
    ensures r.Some? ==> r.value in {ShortRing, BadPosition, OpenRing}
  {
    if !ring.JArr? || |ring.items| < 4 then Some(ShortRing)
    else if !(forall i :: 0 <= i < |ring.items| ==> IsPosition(ring.items[i])) then Some(BadPosition)
    else if !SameEnds(ring.items) then Some(OpenRing)
    else None
  }

  /** The rings are visited in order and the first failing ring's message
      is thrown. */
  function RingsError(rings: seq<Json>): (r: Option<string>)
    ensures r.None? <==> forall i :: 0 <= i < |rings| ==> ClosedRing(rings[i])
    ensures r.Some? ==>
      exists i :: 0 <= i < |rings| && RingError(rings[i]) == r &&
                  forall j :: 0 <= j < i ==> ClosedRing(rings[j])
  {
    if rings == [] then None
    else if RingError(rings[0]).Some? then RingError(rings[0])
    else
      var r := RingsError(rings[1..]);
      assert forall i :: 1 <= i < |rings| ==> rings[i] == rings[1..][i - 1];
      r
  }

  /** The geometries the check accepts, stated declaratively: an object
      (arrays are objects too) with truthy `type` and `coordinates`, of
      type Polygon or MultiPolygon; a Polygon needs a non-empty array of
      closed rings, a MultiPolygon nothing more. */
  predicate Accepted(v: Option<Json>)
  {
    v.Some? && (v.value.JObj? || v.value.JArr?) &&
    Truthy(Get(v.value, "type")) && Truthy(Get(v.value, "coordinates")) &&
    (Get(v.value, "type").value == JStr("Polygon") || Get(v.value, "type").value == JStr("MultiPolygon")) &&
    (Get(v.value, "type").value == JStr("Polygon") ==>
       var c := Get(v.value, "coordinates").value;
       c.JArr? && c.items != [] && forall i :: 0 <= i < |c.items| ==> ClosedRing(c.items[i]))
  }

  /** `validateGeoJSON` as the validator sees its value (`None` is
      `undefined`): the message it throws, or `None` when it returns true. */
  function GeoJsonError(v: Option<Json>): (r: Option<string>)
    ensures r.None? <==> Accepted(v)
    ensures v.None? || v == Some(JNull) ==> r == Some(NotAnObject)
    ensures v.Some? && v.value.JArr? ==> r == Some(MissingTypeOrCoordinates)
  {
    if v.None? || !(v.value.JObj? || v.value.JArr?) then Some(NotAnObject)
    else
      var o := v.value;
      if !Truthy(Get(o, "type")) || !Truthy(Get(o, "coordinates")) then Some(MissingTypeOrCoordinates)
      else
        var t, c := Get(o, "type").value, Get(o, "coordinates").value;
        if t != JStr("Polygon") && t != JStr("MultiPolygon") then Some(WrongType)
        else if t == JStr("Polygon") then
          if !c.JArr? || c.items == [] then Some(NoRings) else RingsError(c.items)
        else None
  }

  /** A MultiPolygon passes whatever its coordinates are, once they are
      truthy. */
  lemma MultiPolygonUnchecked(members: seq<(string, Json)>)
    requires Get(JObj(members), "type") == Some(JStr("MultiPolygon"))
    requires Truthy(Get(JObj(members), "coordinates"))
    ensures GeoJsonError(Some(JObj(members))).None?
  {
  }

  /** `validateGeoJSON` as written: nested walks over the rings and their
      points, leaving at the first failure. */
  method ValidateGeoJson(v: Option<Json>) returns (err: Option<string>)
    ensures err == GeoJsonError(v)
  {
    if v.None? || !(v.value.JObj? || v.value.JArr?) {
      return Some(NotAnObject);
    }
    var o := v.value;
    var ty, coords := Get(o, "type"), Get(o, "coordinates");
    if !Truthy(ty) || !Truthy(coords) {
      return Some(MissingTypeOrCoordinates);
    }
    if ty.value != JStr("Polygon") && ty.value != JStr("MultiPolygon") {
      return Some(WrongType);
    }
    if ty.value == JStr("Polygon") {
      var c := coords.value;
      if !c.JArr? || c.items == [] {
        return Some(NoRings);
      }
      var rings := c.items;
      var i := 0;
      while i < |rings|
        invariant 0 <= i <= |rings|
        invariant forall k :: 0 <= k < i ==> ClosedRing(rings[k])
      {
        var ring := rings[i];
        if !ring.JArr? || |ring.items| < 4 {
          return Some(ShortRing);
        }
        var points := ring.items;
        var j := 0;
        while j < |points|
          invariant 0 <= j <= |points|
          invariant forall k :: 0 <= k < j ==> IsPosition(points[k])
        {
          var p := points[j];
          if !p.JArr? || |p.items| != 2 || !p.items[0].JNum? || !p.items[1].JNum? {
            return Some(BadPosition);
          }
          j := j + 1;
        }
        var first, last := points[0], points[|points| - 1];
        if first.items[0].x != last.items[0].x || first.items[1].x != last.items[1].x {
          return Some(OpenRing);
        }
        i := i + 1;
      }
    }
    return None;
  }

  // ---- Field rules (express-validator chains without `bail`: every
  // failing check of a chain reports its own error) ----

  const NomRequired := "Le nom de la parcelle est requis."
  const NomLength := "Le nom de la parcelle doit contenir entre 3 et 255 caractères."
  const GeometryRequired := "La géométrie de la parcelle est requise."
  const AreaNumeric := "La superficie doit être un nombre."
  const SoilLength := "Le type de sol ne doit pas dépasser 100 caractères."
  const CropIdPositive := "L'ID de la culture actuelle doit être un entier positif."
  const ParcelIdPositive := "L'ID de la parcelle doit être un entier positif."

  /** `nom_parcelle`: trimmed, then non-empty and 3 to 255 characters.
      `trim` turns a scalar or an object into a string, so `isString`
      holds for every field that is not an array; arrays are not
      modelled. */
  function NameErrors(rd: Readers, v: Option<Json>): (r: seq<FieldError>)
    ensures r == [] <==> 3 <= |Trim(AsText(rd, v))| <= 255
    ensures Trim(AsText(rd, v)) == "" ==> r == [FieldError("nom_parcelle", NomRequired), FieldError("nom_parcelle", NomLength)]
  {
    var t := Trim(AsText(rd, v));
    Check(t != "", "nom_parcelle", NomRequired) + Check(3 <= |t| <= 255, "nom_parcelle", NomLength)
  }

  /** `geometrie`: non-empty, then the GeoJSON check, whose thrown message
      becomes the error message. */
  function GeometryErrors(rd: Readers, v: Option<Json>): (r: seq<FieldError>)
    ensures r == [] <==> AsText(rd, v) != "" && Accepted(v)
    ensures v.None? ==> r == [FieldError("geometrie", GeometryRequired), FieldError("geometrie", NotAnObject)]
  {
    Check(AsText(rd, v) != "", "geometrie", GeometryRequired) +
    (match GeoJsonError(v) case None => [] case Some(m) => [FieldError("geometrie", m)])
  }

  /** `superficie_calculee_ha`: skipped when falsy, else numeric. */
  function AreaErrors(rd: Readers, v: Option<Json>): (r: seq<FieldError>)
    ensures r == [] <==> !Truthy(v) || rd.numeric(AsText(rd, v))
  {
    if !Truthy(v) then [] else Check(rd.numeric(AsText(rd, v)), "superficie_calculee_ha", AreaNumeric)
  }

  /** `type_sol_predominant`: skipped when falsy, else at most 100
      characters once trimmed. */
  function SoilErrors(rd: Readers, v: Option<Json>): (r: seq<FieldError>)
    ensures r == [] <==> !Truthy(v) || |Trim(AsText(rd, v))| <= 100
  {
    if !Truthy(v) then [] else Check(|Trim(AsText(rd, v))| <= 100, "type_sol_predominant", SoilLength)
  }

  /** `culture_actuelle_id`: skipped when falsy, else an integer of at
      least 1. */
  function CropIdErrors(rd: Readers, v: Option<Json>): (r: seq<FieldError>)
    ensures r == [] <==> !Truthy(v) || IntAtLeast(AsText(rd, v), 1)
  {
    if !Truthy(v) then [] else Check(IntAtLeast(AsText(rd, v), 1), "culture_actuelle_id", CropIdPositive)
  }

  /** `parcelleValidationRules` over a request body, in rule order.
      `description` reports nothing: it is optional with `checkFalsy`, and
      `trim` makes any value other than an array a string before
      `isString` runs. */
  function ParcelErrors(rd: Readers, body: Json): (r: seq<FieldError>)
    ensures r == [] <==>
      3 <= |Trim(AsText(rd, Get(body, "nom_parcelle")))| <= 255 &&
      AsText(rd, Get(body, "geometrie")) != "" && Accepted(Get(body, "geometrie")) &&
      (!Truthy(Get(body, "superficie_calculee_ha")) || rd.numeric(AsText(rd, Get(body, "superficie_calculee_ha")))) &&
      (!Truthy(Get(body, "type_sol_predominant")) || |Trim(AsText(rd, Get(body, "type_sol_predominant")))| <= 100) &&
      (!Truthy(Get(body, "culture_actuelle_id")) || IntAtLeast(AsText(rd, Get(body, "culture_actuelle_id")), 1))
  {
    NameErrors(rd, Get(body, "nom_parcelle")) +
    GeometryErrors(rd, Get(body, "geometrie")) +
    AreaErrors(rd, Get(body, "superficie_calculee_ha")) +
    SoilErrors(rd, Get(body, "type_sol_predominant")) +
    CropIdErrors(rd, Get(body, "culture_actuelle_id"))
  }

  /** `parcelleIdValidationRules`: the route `id` is an integer of at
      least 1. */
  function ParcelIdErrors(id: string): (r: seq<FieldError>)
    ensures r == [] <==> IntText(id).Some? && IntText(id).value >= 1
  {
    Check(IntAtLeast(id, 1), "id", ParcelIdPositive)
  }

  /** The decimal rendering of any positive id passes the id rule. */
  lemma PositiveIdAccepted(n: nat)
    requires n >= 1
    ensures ParcelIdErrors(NatToString(n)) == []
  {
    IntTextOfIntToString(n);
  }
}
