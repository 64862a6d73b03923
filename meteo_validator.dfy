/** The weather query rules: coordinates for the forecast and the history,
    optional units, and the history's date range. Their errors are
    answered by `Validation.Respond`. */
module MeteoValidator {
  import opened Common
  import opened Validation
  import PrixValidator

  type Query = map<string, string>

  const LatitudeRequired := "La latitude est requise."
  const LatitudeInvalid := "Latitude invalide."
  const LongitudeRequired := "La longitude est requise."
  const LongitudeInvalid := "Longitude invalide."
  const UnitsInvalid := "L'unité doit être 'metric' ou 'imperial'."
  const StartRequired := "La date de début est requise."
  const StartFormat := "La date de début doit être au format YYYY-MM-DD."
  const EndRequired := "La date de fin est requise."
  const EndFormat := "La date de fin doit être au format YYYY-MM-DD."
  const EndBeforeStart := "La date de fin ne peut être antérieure à la date de début."

  /** A missing query parameter reads as "". */
  function Value(q: Query, key: string): (s: string)
    ensures key !in q ==> s == ""
  {
    if key in q then q[key] else ""
  }

  /** A required float parameter within [lo, hi]. */
  function CoordinateErrors(rd: Readers, q: Query, key: string, lo: real, hi: real, required: string, invalid: string): (r: seq<FieldError>)
    ensures r == [] <==> FloatBetween(rd, Value(q, key), lo, hi) && Value(q, key) != ""
    ensures key !in q ==> FieldError(key, required) in r
  {
    Check(Value(q, key) != "", key, required) + Check(FloatBetween(rd, Value(q, key), lo, hi), key, invalid)
  }

  /** Latitude in [-90, 90] and longitude in [-180, 180], both required. */
  function CoordinatesErrors(rd: Readers, q: Query): (r: seq<FieldError>)
    ensures r == [] <==>
      Value(q, "latitude") != "" && FloatBetween(rd, Value(q, "latitude"), -90.0, 90.0) &&
      Value(q, "longitude") != "" && FloatBetween(rd, Value(q, "longitude"), -180.0, 180.0)
  {
    CoordinateErrors(rd, q, "latitude", -90.0, 90.0, LatitudeRequired, LatitudeInvalid) +
    CoordinateErrors(rd, q, "longitude", -180.0, 180.0, LongitudeRequired, LongitudeInvalid)
  }

  /** `previsionsMeteoValidationRules`: the coordinates, then `units`,
      which when given is `metric` or `imperial`. */
  function ForecastErrors(rd: Readers, q: Query): (r: seq<FieldError>)
    ensures r == [] <==>
      CoordinatesErrors(rd, q) == [] &&
      ("units" in q ==> q["units"] == "metric" || q["units"] == "imperial")
  {
    CoordinatesErrors(rd, q) +
    (if "units" !in q then []
     else Check(q["units"] == "metric" || q["units"] == "imperial", "units", UnitsInvalid))
  }

  /** The custom check of the history's `dateEnd`: it fires when
      `dateStart` is a non-empty string, both texts parse as dates, and the
      end is strictly earlier. */
  predicate EndsBeforeStart(rd: Readers, q: Query)
  {
    "dateStart" in q && q["dateStart"] != "" && "dateEnd" in q &&
    rd.date(q["dateEnd"]).Some? && rd.date(q["dateStart"]).Some? &&
    rd.date(q["dateEnd"]).value < rd.date(q["dateStart"]).value
  }

  /** `historiqueMeteoValidationRules`: the coordinates, then both dates
      required and ISO 8601, then the order check. */
  function HistoryErrors(rd: Readers, q: Query): (r: seq<FieldError>)
    ensures r == [] <==>
      CoordinatesErrors(rd, q) == [] &&
      Value(q, "dateStart") != "" && rd.iso8601(Value(q, "dateStart")) &&
      Value(q, "dateEnd") != "" && rd.iso8601(Value(q, "dateEnd")) &&
      !EndsBeforeStart(rd, q)
  {
    CoordinatesErrors(rd, q) +
    Check(Value(q, "dateStart") != "", "dateStart", StartRequired) +
    Check(rd.iso8601(Value(q, "dateStart")), "dateStart", StartFormat) +
    Check(Value(q, "dateEnd") != "", "dateEnd", EndRequired) +
    Check(rd.iso8601(Value(q, "dateEnd")), "dateEnd", EndFormat) +
    Check(!EndsBeforeStart(rd, q), "dateEnd", EndBeforeStart)
  }

  /** Equal dates pass the order check; only a strictly earlier end fails. */
  lemma SameDayRange(rd: Readers, q: Query)
    requires "dateStart" in q && "dateEnd" in q
    requires rd.date(q["dateStart"]).Some? && rd.date(q["dateEnd"]) == rd.date(q["dateStart"])
    ensures FieldError("dateEnd", EndBeforeStart) !in HistoryErrors(rd, q)
  {
    var r := HistoryErrors(rd, q);
    var prefix := CoordinatesErrors(rd, q) +
      Check(Value(q, "dateStart") != "", "dateStart", StartRequired) +
      Check(rd.iso8601(Value(q, "dateStart")), "dateStart", StartFormat) +
      Check(Value(q, "dateEnd") != "", "dateEnd", EndRequired) +
      Check(rd.iso8601(Value(q, "dateEnd")), "dateEnd", EndFormat);
    assert r == prefix;
    assert forall e :: e in prefix ==> e.msg != EndBeforeStart;
  }

  /** Unlike the price search, the history compares the raw date texts: an
      end date that does not parse never fires the order check. */
  lemma UnparsableEndNoOrderError(rd: Readers, q: Query)
    requires "dateEnd" in q && rd.date(q["dateEnd"]).None?
    ensures !EndsBeforeStart(rd, q)
    ensures "dateStart" in q && rd.date(q["dateStart"]).Some? && rd.date(q["dateStart"]).value > 0 ==>
      PrixValidator.EndsBeforeStart(rd, q)
  {
  }
}
