/** The price rules: the search query rules, with their cross-field date
    order check, and the rules for adding an observation. */
module PrixValidator {
  import opened Common
  import opened Text
  import opened Json
  import opened Validation

  /** A query string: parameter name to its (single) value. */
  type Query = map<string, string>

  function Param(q: Query, key: string): Option<string>
  {
    if key in q then Some(q[key]) else None
  }

  const ProductIdPositive := "L'ID du produit doit être un entier positif."
  const RegionIdPositive := "L'ID de la région doit être un entier positif."
  const StartIso := "La date de début doit être au format ISO8601 (YYYY-MM-DD)."
  const EndIso := "La date de fin doit être au format ISO8601 (YYYY-MM-DD)."
  const EndBeforeStart := "La date de fin ne peut pas être antérieure à la date de début."
  const PagePositive := "Le numéro de page doit être un entier positif."
  const LimitRange := "La limite doit être un entier entre 1 et 100."

  /** An `optional()` chain: no error when the parameter is absent. */
  function Optional(v: Option<string>, checks: string -> seq<FieldError>): (r: seq<FieldError>)
    ensures v.None? ==> r == []
  {
    if v.None? then [] else checks(v.value)
  }

  /** The date-order check of the `dateEnd` chain. By then `toDate` has
      replaced `dateStart` by a date or by `null` (an invalid date) and
      `dateEnd` likewise; the check fires when `dateStart` is a date and
      `dateEnd` compares below it, `null` comparing as 0. */
  predicate EndsBeforeStart(rd: Readers, q: Query)
  {
    "dateStart" in q && "dateEnd" in q && rd.date(q["dateStart"]).Some? &&
    (match rd.date(q["dateEnd"]) case None => 0 case Some(t) => t) < rd.date(q["dateStart"]).value
  }

  /** The `dateEnd` chain: ISO 8601, then the order check. */
  function DateEndErrors(rd: Readers, q: Query): (r: seq<FieldError>)
    ensures r == [] <==> "dateEnd" !in q || (rd.iso8601(q["dateEnd"]) && !EndsBeforeStart(rd, q))
    ensures "dateEnd" in q && rd.date(q["dateEnd"]).Some? && "dateStart" in q && rd.date(q["dateStart"]).Some? ==>
      (r == [] <==> rd.iso8601(q["dateEnd"]) && rd.date(q["dateEnd"]).value >= rd.date(q["dateStart"]).value)
  {
    if "dateEnd" !in q then []
    else Check(rd.iso8601(q["dateEnd"]), "dateEnd", EndIso) +
         Check(!EndsBeforeStart(rd, q), "dateEnd", EndBeforeStart)
  }

  /** An end date that does not parse, after a start date later than the
      epoch, is reported twice: once as not ISO 8601 and once as earlier
      than the start, because `null` compares as 0. */
  lemma InvalidEndReportedTwice(rd: Readers, q: Query)
    requires "dateEnd" in q && rd.date(q["dateEnd"]).None? && !rd.iso8601(q["dateEnd"])
    requires "dateStart" in q && rd.date(q["dateStart"]).Some? && rd.date(q["dateStart"]).value > 0
    ensures DateEndErrors(rd, q) == [FieldError("dateEnd", EndIso), FieldError("dateEnd", EndBeforeStart)]
  {
  }

  /** `searchPrixValidationRules` in rule order. `marcheNom` never fails
      here, because the model reads every query value as one string. */
  function SearchErrors(rd: Readers, q: Query): (r: seq<FieldError>)
    ensures r == [] <==>
      ("produitId" in q ==> IntAtLeast(q["produitId"], 1)) &&
      ("regionId" in q ==> IntAtLeast(q["regionId"], 1)) &&
      ("dateStart" in q ==> rd.iso8601(q["dateStart"])) &&
      ("dateEnd" in q ==> rd.iso8601(q["dateEnd"]) && !EndsBeforeStart(rd, q)) &&
      ("page" in q ==> IntAtLeast(q["page"], 1)) &&
      ("limit" in q ==> IntBetween(q["limit"], 1, 100))
  {
    Optional(Param(q, "produitId"), s => Check(IntAtLeast(s, 1), "produitId", ProductIdPositive)) +
    Optional(Param(q, "regionId"), s => Check(IntAtLeast(s, 1), "regionId", RegionIdPositive)) +
    Optional(Param(q, "dateStart"), s => Check(rd.iso8601(s), "dateStart", StartIso)) +
    DateEndErrors(rd, q) +
    Optional(Param(q, "page"), s => Check(IntAtLeast(s, 1), "page", PagePositive)) +
    Optional(Param(q, "limit"), s => Check(IntBetween(s, 1, 100), "limit", LimitRange))
  }

  /** A limit outside 1..100, when given, is always reported. */
  lemma LimitOutOfRangeRejected(rd: Readers, q: Query, n: int)
    requires "limit" in q && q["limit"] == IntToString(n) && (n < 1 || n > 100)
    ensures SearchErrors(rd, q) != []
  {
    IntTextOfIntToString(n);
  }

  const ProductRequired := "L'ID du produit est requis."
  const RegionRequired := "L'ID de la région est requis."
  const PriceRequired := "Le prix est requis."
  const PricePositive := "Le prix doit être un nombre positif."
  const DateRequired := "La date d'observation est requise."
  const DateIso := "La date d'observation doit être au format ISO8601 (YYYY-MM-DD)."

  /** An optional text field: when present it must be a string and at
      most `max` characters once trimmed; both checks use the default
      message. */
  function BoundedText(rd: Readers, path: string, v: Option<Json>, max: nat): (r: seq<FieldError>)
    ensures r == [] <==> v.None? || (v.value.JStr? && |Trim(v.value.s)| <= max)
    ensures forall e :: e in r ==> e == FieldError(path, DefaultMessage)
  {
    if v.None? then []
    else Check(v.value.JStr?, path, DefaultMessage) + Check(|Trim(AsText(rd, v))| <= max, path, DefaultMessage)
  }

  /** A required positive id: non-empty, then an integer of at least 1. */
  function RequiredId(rd: Readers, path: string, v: Option<Json>, required: string, positive: string): (r: seq<FieldError>)
    ensures r == [] <==> IntAtLeast(AsText(rd, v), 1)
    ensures v.None? ==> r == [FieldError(path, required), FieldError(path, positive)]
  {
    Check(AsText(rd, v) != "", path, required) + Check(IntAtLeast(AsText(rd, v), 1), path, positive)
  }

  /** The rules of `addObservationValidationRules` about where the price
      was seen: product, region and market. */
  function WhereErrors(rd: Readers, body: Json): (r: seq<FieldError>)
    ensures r == [] <==>
      IntAtLeast(AsText(rd, Get(body, "produit_id")), 1) &&
      IntAtLeast(AsText(rd, Get(body, "region_id")), 1) &&
      (Get(body, "nom_marche_specifique").None? || (Get(body, "nom_marche_specifique").value.JStr? && |Trim(Get(body, "nom_marche_specifique").value.s)| <= 255))
  {
    var e1 := RequiredId(rd, "produit_id", Get(body, "produit_id"), ProductRequired, ProductIdPositive);
    var e2 := RequiredId(rd, "region_id", Get(body, "region_id"), RegionRequired, RegionIdPositive);
    var e3 := BoundedText(rd, "nom_marche_specifique", Get(body, "nom_marche_specifique"), 255);
    assert |e1 + e2 + e3| == |e1| + |e2| + |e3|;
    e1 + e2 + e3
  }

  /** The rules about the price itself and its unit. */
  function PriceErrors(rd: Readers, body: Json): (r: seq<FieldError>)
    ensures r == [] <==>
      AsText(rd, Get(body, "prix_moyen_kg_ou_unite")) != "" &&
      rd.float(AsText(rd, Get(body, "prix_moyen_kg_ou_unite"))).Some? &&
      rd.float(AsText(rd, Get(body, "prix_moyen_kg_ou_unite"))).value >= 0.0 &&
      (Get(body, "unite_prix").None? || (Get(body, "unite_prix").value.JStr? && |Trim(Get(body, "unite_prix").value.s)| <= 20))
  {
    var price := AsText(rd, Get(body, "prix_moyen_kg_ou_unite"));
    var e4 := Check(price != "", "prix_moyen_kg_ou_unite", PriceRequired);
    var e5 := Check(rd.float(price).Some? && rd.float(price).value >= 0.0, "prix_moyen_kg_ou_unite", PricePositive);
    var e6 := BoundedText(rd, "unite_prix", Get(body, "unite_prix"), 20);
    assert |e4 + e5 + e6| == |e4| + |e5| + |e6|;
    e4 + e5 + e6
  }

  /** The rules about the date and the source of the information. */
  function WhenErrors(rd: Readers, body: Json): (r: seq<FieldError>)
    ensures r == [] <==>
      AsText(rd, Get(body, "date_observation")) != "" &&
      rd.iso8601(AsText(rd, Get(body, "date_observation"))) &&
      (Get(body, "source_information_input").None? || (Get(body, "source_information_input").value.JStr? && |Trim(Get(body, "source_information_input").value.s)| <= 255))
  {
    var date := AsText(rd, Get(body, "date_observation"));
    var e7 := Check(date != "", "date_observation", DateRequired);
    var e8 := Check(rd.iso8601(date), "date_observation", DateIso);
    var e9 := BoundedText(rd, "source_information_input", Get(body, "source_information_input"), 255);
    assert |e7 + e8 + e9| == |e7| + |e8| + |e9|;
    e7 + e8 + e9
  }

  /** `addObservationValidationRules` over a request body, in rule order. */
  function AddErrors(rd: Readers, body: Json): (r: seq<FieldError>)
    ensures r == [] <==>
      IntAtLeast(AsText(rd, Get(body, "produit_id")), 1) &&
      IntAtLeast(AsText(rd, Get(body, "region_id")), 1) &&
      AsText(rd, Get(body, "prix_moyen_kg_ou_unite")) != "" &&
      rd.float(AsText(rd, Get(body, "prix_moyen_kg_ou_unite"))).Some? &&
      rd.float(AsText(rd, Get(body, "prix_moyen_kg_ou_unite"))).value >= 0.0 &&
      AsText(rd, Get(body, "date_observation")) != "" &&
      rd.iso8601(AsText(rd, Get(body, "date_observation"))) &&
      (Get(body, "nom_marche_specifique").None? || (Get(body, "nom_marche_specifique").value.JStr? && |Trim(Get(body, "nom_marche_specifique").value.s)| <= 255)) &&
      (Get(body, "unite_prix").None? || (Get(body, "unite_prix").value.JStr? && |Trim(Get(body, "unite_prix").value.s)| <= 20)) &&
      (Get(body, "source_information_input").None? || (Get(body, "source_information_input").value.JStr? && |Trim(Get(body, "source_information_input").value.s)| <= 255))
  {
    var a, b, c := WhereErrors(rd, body), PriceErrors(rd, body), WhenErrors(rd, body);
    assert |a + b + c| == |a| + |b| + |c|;
    a + b + c
  }
}
