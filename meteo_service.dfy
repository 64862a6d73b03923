/** The weather service: a five-day forecast from the provider's
    three-hour samples, grouped by day, and the history read from the
    weather cache table. The provider call, the API key from the
    environment and JavaScript's rendering of numbers are parameters. */
module MeteoService {
  import opened Common
  import opened Json
  import opened Http
  import opened Text
  import opened Sorting

  const SimulatedMessage := "Prévisions météo simulées (Clé API manquante)"
  const FetchedMessage := "Prévisions météo récupérées avec succès."
  const InvalidKey := "Clé API OpenWeatherMap invalide ou non autorisée."
  const Unavailable := "Service météo temporairement indisponible."
  const CachedMessage := "Historique météo récupéré depuis le cache."
  const SimulatedHistoryMessage := "Historique météo simulé (ou aucune donnée en cache pour cette période)"
  const HistoryFailed := "Erreur lors de la récupération de l'historique météo."

  /** One three-hour sample of the provider's `list`: `dt_txt`, the three
      temperatures of `main`, and the other fields the service copies. */
  datatype Sample = Sample(dtTxt: string, tempMin: real, tempMax: real, temp: real,
                           description: Json, icon: Json, humidity: Json, windSpeed: Json)

  /** An entry of a day's `details`. */
  datatype Detail = Detail(time: Option<string>, temp: real, description: Json, icon: Json)

  /** One day of the forecast. */
  datatype Day = Day(date: string, tempMin: real, tempMax: real, description: Json, icon: Json,
                     humidity: Json, windSpeed: Json, details: seq<Detail>)

  /** `dt_txt.split(' ')[0]`. */
  function DayKey(dtTxt: string): string
  {
    Split(dtTxt, ' ')[0]
  }

  /** `dt_txt.split(' ')[1]`, `undefined` when there is no space. */
  function TimeOf(dtTxt: string): (t: Option<string>)
    ensures t.Some? <==> ' ' in dtTxt
  {
    SplitHasSecondPiece(dtTxt, ' ');
    var parts := Split(dtTxt, ' ');
    if |parts| >= 2 then Some(parts[1]) else None
  }

  /** A provider timestamp `date time` keys the sample by `date` and
      gives `time` as its detail's time. */
  lemma TimestampParts(date: string, time: string)
    requires ' ' !in date && ' ' !in time
    ensures DayKey(date + " " + time) == date
    ensures TimeOf(date + " " + time) == Some(time)
  {
    assert date + " " + time == date + [' '] + time;
    SplitCons(date, ' ', time);
    SplitNoSeparator(time, ' ');
  }

  function DetailOf(x: Sample): Detail
  {
    Detail(TimeOf(x.dtTxt), x.temp, x.description, x.icon)
  }

  /** The samples of day `k`, in input order. */
  function Of(list: seq<Sample>, k: string): (ss: seq<Sample>)
  {
    if list == [] then []
    else
      var ss := Of(list[..|list| - 1], k);
      var x := list[|list| - 1];
      if DayKey(x.dtTxt) == k then ss + [x] else ss
  }

  /** The samples' day keys without repeats, each where it first occurs
      (the order in which the service creates its entries): a key is
      listed exactly when it has samples. */
  function Keys(list: seq<Sample>): (ks: seq<string>)
    ensures forall k :: k in ks <==> Of(list, k) != []
    ensures forall a, b :: 0 <= a < b < |ks| ==> ks[a] != ks[b]
  {
    if list == [] then []
    else
      var ks := Keys(list[..|list| - 1]);
      var k := DayKey(list[|list| - 1].dtTxt);
      if k in ks then ks else ks + [k]
  }

  /** The samples of a day are those of the input with its key. */
  lemma {:induction false} OfIsTheDay(list: seq<Sample>, k: string)
    ensures forall x :: x in Of(list, k) <==> x in list && DayKey(x.dtTxt) == k
  {
    if list != [] {
      var init, last := list[..|list| - 1], list[|list| - 1];
      OfIsTheDay(init, k);
      assert list == init + [last];
      assert Of(list, k) == if DayKey(last.dtTxt) == k then Of(init, k) + [last] else Of(init, k);
    }
  }

  /** A day is listed exactly when some sample has its key. */
  lemma KeyListed(list: seq<Sample>, k: string)
    ensures k in Keys(list) <==> exists x :: x in list && DayKey(x.dtTxt) == k
  {
    OfIsTheDay(list, k);
    if Of(list, k) != [] {
      assert Of(list, k)[0] in Of(list, k);
    }
  }

  function MathMin(a: real, b: real): real { if a <= b then a else b }

  function MathMax(a: real, b: real): real { if a >= b then a else b }

  /** `Math.min` folded over the samples' `temp_min`. */
  function LowestMin(ss: seq<Sample>): real
    requires ss != []
  {
    if |ss| == 1 then ss[0].tempMin else MathMin(LowestMin(ss[..|ss| - 1]), ss[|ss| - 1].tempMin)
  }

  /** `Math.max` folded over the samples' `temp_max`. */
  function HighestMax(ss: seq<Sample>): real
    requires ss != []
  {
    if |ss| == 1 then ss[0].tempMax else MathMax(HighestMax(ss[..|ss| - 1]), ss[|ss| - 1].tempMax)
  }

  /** The fold of `Math.min` is the least `temp_min`, and some sample has it. */
  lemma {:induction false} LowestMinIsLeast(ss: seq<Sample>)
    requires ss != []
    ensures forall x :: x in ss ==> LowestMin(ss) <= x.tempMin
    ensures exists x :: x in ss && x.tempMin == LowestMin(ss)
  {
    var last := ss[|ss| - 1];
    assert last in ss;
    if |ss| > 1 {
      var init := ss[..|ss| - 1];
      LowestMinIsLeast(init);
      assert ss == init + [last];
      var w :| w in init && w.tempMin == LowestMin(init);
      assert w in ss;
    }
  }

  /** The fold of `Math.max` is the greatest `temp_max`, and some sample has it. */
  lemma {:induction false} HighestMaxIsGreatest(ss: seq<Sample>)
    requires ss != []
    ensures forall x :: x in ss ==> x.tempMax <= HighestMax(ss)
    ensures exists x :: x in ss && x.tempMax == HighestMax(ss)
  {
    var last := ss[|ss| - 1];
    assert last in ss;
    if |ss| > 1 {
      var init := ss[..|ss| - 1];
      HighestMaxIsGreatest(init);
      assert ss == init + [last];
      var w :| w in init && w.tempMax == HighestMax(init);
      assert w in ss;
    }
  }

  /** One detail per sample, in order. */
  function Details(ss: seq<Sample>): (ds: seq<Detail>)
    ensures |ds| == |ss|
    ensures forall j :: 0 <= j < |ss| ==> ds[j] == DetailOf(ss[j])
  {
    if ss == [] then [] else Details(ss[..|ss| - 1]) + [DetailOf(ss[|ss| - 1])]
  }

  /** The day a non-empty group of samples makes: the lowest minimum and
      the highest maximum, the first sample's description, icon, humidity
      and wind, and one detail per sample in order. */
  function Summary(ss: seq<Sample>): (d: Day)
    requires ss != []
  {
    Day(DayKey(ss[0].dtTxt), LowestMin(ss), HighestMax(ss), ss[0].description, ss[0].icon,
        ss[0].humidity, ss[0].windSpeed, Details(ss))
  }

  /** The summaries of the days `ks`, in that order. */
  function Summaries(list: seq<Sample>, ks: seq<string>): (ds: seq<Day>)
    requires forall k :: k in ks ==> Of(list, k) != []
    ensures |ds| == |ks|
    ensures forall j :: 0 <= j < |ks| ==> ds[j] == Summary(Of(list, ks[j]))
  {
    if ks == [] then [] else Summaries(list, ks[..|ks| - 1]) + [Summary(Of(list, ks[|ks| - 1]))]
  }

  /** `slice(0, 5)`. */
  function FirstFive<T>(s: seq<T>): (r: seq<T>)
    ensures |r| == Min(5, |s|) && r == s[..|r|]
  {
    if |s| <= 5 then s else s[..5]
  }

  /** The forecast the samples make: one day per distinct day key, in
      first-occurrence order, the first five only. */
  function Forecast(list: seq<Sample>): (f: seq<Day>)
    ensures |f| == Min(5, |Keys(list)|)
    ensures forall j :: 0 <= j < |f| ==> Of(list, Keys(list)[j]) != [] && f[j] == Summary(Of(list, Keys(list)[j]))
  {
    FirstFive(Summaries(list, Keys(list)))
  }

  /** The forecast's days are the distinct day keys, in the order of
      their first sample. */
  lemma ForecastDays(list: seq<Sample>)
    ensures forall j :: 0 <= j < |Forecast(list)| ==> Forecast(list)[j].date == Keys(list)[j]
    ensures forall a, b :: 0 <= a < b < |Forecast(list)| ==> Forecast(list)[a].date != Forecast(list)[b].date
  {
    forall j | 0 <= j < |Forecast(list)|
      ensures Forecast(list)[j].date == Keys(list)[j]
    {
      var k := Keys(list)[j];
      OfIsTheDay(list, k);
      assert Of(list, k)[0] in Of(list, k);
    }
  }

  /** Each day of the forecast holds the lowest minimum and the highest
      maximum of the input's samples of that day, both attained. */
  lemma DayExtremes(list: seq<Sample>, j: nat)
    requires j < |Forecast(list)|
    ensures var d := Forecast(list)[j];
      (forall x :: x in list && DayKey(x.dtTxt) == d.date ==> d.tempMin <= x.tempMin && x.tempMax <= d.tempMax) &&
      (exists x :: x in list && DayKey(x.dtTxt) == d.date && x.tempMin == d.tempMin) &&
      (exists x :: x in list && DayKey(x.dtTxt) == d.date && x.tempMax == d.tempMax)
  {
    var k := Keys(list)[j];
    OfIsTheDay(list, k);
    SummaryExtremes(Of(list, k));
  }

  lemma SummaryExtremes(ss: seq<Sample>)
    requires ss != []
    ensures var d := Summary(ss);
      (forall x :: x in ss ==> d.tempMin <= x.tempMin && x.tempMax <= d.tempMax) &&
      (exists x :: x in ss && x.tempMin == d.tempMin) &&
      (exists x :: x in ss && x.tempMax == d.tempMax)
  {
    LowestMinIsLeast(ss);
    HighestMaxIsGreatest(ss);
  }

  lemma KeysSnoc(list: seq<Sample>, x: Sample)
    ensures Keys(list + [x]) == if DayKey(x.dtTxt) in Keys(list) then Keys(list) else Keys(list) + [DayKey(x.dtTxt)]
    ensures forall k :: Of(list + [x], k) == if DayKey(x.dtTxt) == k then Of(list, k) + [x] else Of(list, k)
  {
    assert (list + [x])[..|list|] == list;
  }

  /** One more sample of a day updates the running minimum and maximum
      and appends its detail. */
  lemma SummarySnoc(ss: seq<Sample>, x: Sample)
    requires ss != []
    ensures Summary(ss + [x]) == Summary(ss).(tempMin := MathMin(Summary(ss).tempMin, x.tempMin),
                                               tempMax := MathMax(Summary(ss).tempMax, x.tempMax),
                                               details := Summary(ss).details + [DetailOf(x)])
  {
    var t := ss + [x];
    assert t[..|t| - 1] == ss;
    assert t[0] == ss[0];
  }

  /** What the entries hold after the samples before `i`. */
  ghost predicate Grouped(list: seq<Sample>, order: seq<string>, daily: map<string, Day>)
  {
    order == Keys(list) &&
    (forall k :: k in daily <==> k in order) &&
    (forall k :: k in daily ==> Of(list, k) != [] && daily[k] == Summary(Of(list, k)))
  }

  /** A day whose first sample is `x`. */
  lemma FirstSummary(x: Sample)
    ensures Summary([x]) == Day(DayKey(x.dtTxt), x.tempMin, x.tempMax, x.description, x.icon,
                                x.humidity, x.windSpeed, [DetailOf(x)])
  {
  }

  /** One more sample adds its day to the order when it is new, and
      replaces that day's entry by the summary of its group. */
  lemma GroupedSnoc(prefix: seq<Sample>, x: Sample, order: seq<string>, daily: map<string, Day>)
    requires Grouped(prefix, order, daily)
    ensures Of(prefix + [x], DayKey(x.dtTxt)) == Of(prefix, DayKey(x.dtTxt)) + [x]
    ensures DayKey(x.dtTxt) !in daily <==> Of(prefix, DayKey(x.dtTxt)) == []
    ensures var k := DayKey(x.dtTxt);
      Grouped(prefix + [x], if k in daily then order else order + [k], daily[k := Summary(Of(prefix + [x], k))])
  {
    KeysSnoc(prefix, x);
    var key := DayKey(x.dtTxt);
    var order' := if key in daily then order else order + [key];
    var daily' := daily[key := Summary(Of(prefix + [x], key))];
    SameDomain(daily, order, key, Summary(Of(prefix + [x], key)), order');
    OtherDaysKept(prefix, x, daily);
    assert order' == Keys(prefix + [x]);
    assert forall k :: k in daily' <==> k in order';
    forall k | k in daily'
      ensures Of(prefix + [x], k) != [] && daily'[k] == Summary(Of(prefix + [x], k))
    {
      if k == key {
        assert daily'[k] == Summary(Of(prefix + [x], key));
      } else {
        UpdateKeeps(daily, key, Summary(Of(prefix + [x], key)), k);
      }
    }
    assert Grouped(prefix + [x], order', daily');
  }

  lemma UpdateKeeps(m: map<string, Day>, key: string, v: Day, k: string)
    requires k in m[key := v] && k != key
    ensures k in m && m[key := v][k] == m[k]
  {
  }

  lemma UpdateTwice(m: map<string, Day>, key: string, v: Day, w: Day)
    ensures m[key := v][key := w] == m[key := w]
  {
  }

  lemma SameDomain(daily: map<string, Day>, order: seq<string>, key: string, v: Day, order': seq<string>)
    requires forall k :: k in daily <==> k in order
    requires order' == if key in daily then order else order + [key]
    ensures forall k :: k in daily[key := v] <==> k in order'
  {
  }

  lemma OtherDaysKept(prefix: seq<Sample>, x: Sample, daily: map<string, Day>)
    requires forall k :: k in daily ==> Of(prefix, k) != [] && daily[k] == Summary(Of(prefix, k))
    ensures var key := DayKey(x.dtTxt);
      forall k :: k in daily && k != key ==> Of(prefix + [x], k) != [] && daily[k] == Summary(Of(prefix + [x], k))
  {
    KeysSnoc(prefix, x);
  }

  /** The entry update for sample `x` turns the entry of the earlier
      samples of its day (a fresh entry from `x` when there are none)
      into the entry of the day's samples so far. */
  lemma EntryStep(group: seq<Sample>, x: Sample, d: Day, d': Day)
    requires group == [] ==> d == Day(DayKey(x.dtTxt), x.tempMin, x.tempMax, x.description, x.icon,
                                      x.humidity, x.windSpeed, [])
    requires group != [] ==> d == Summary(group)
    requires d' == d.(tempMin := MathMin(d.tempMin, x.tempMin), tempMax := MathMax(d.tempMax, x.tempMax),
                      details := d.details + [DetailOf(x)])
    ensures d' == Summary(group + [x])
  {
    if group == [] {
      FirstSummary(x);
      assert group + [x] == [x];
    } else {
      SummarySnoc(group, x);
    }
  }

  /** Once every sample is grouped, the entries in creation order are
      the days of the forecast. */
  lemma {:induction false} EntriesAreDays(list: seq<Sample>, order: seq<string>, daily: map<string, Day>)
    requires forall k :: k in order ==> k in daily && Of(list, k) != [] && daily[k] == Summary(Of(list, k))
    ensures Values(daily, order) == Summaries(list, order)
  {
    if order != [] {
      EntriesAreDays(list, order[..|order| - 1], daily);
    }
  }

  /** `Object.values` of the entries, listed in creation order. */
  function Values(daily: map<string, Day>, order: seq<string>): (vs: seq<Day>)
    requires forall k :: k in order ==> k in daily
    ensures |vs| == |order| && forall j :: 0 <= j < |order| ==> vs[j] == daily[order[j]]
  {
    if order == [] then [] else Values(daily, order[..|order| - 1]) + [daily[order[|order| - 1]]]
  }

  /** One turn of the loop: the entry of sample `i`'s day, fresh or
      found (`d`), updated with the sample (`d'`), keeps the entries
      those of the samples so far. */
  lemma Advance(prefix: seq<Sample>, x: Sample, order: seq<string>, daily: map<string, Day>, d: Day, d': Day)
    requires Grouped(prefix, order, daily)
    requires DayKey(x.dtTxt) !in daily ==>
      d == Day(DayKey(x.dtTxt), x.tempMin, x.tempMax, x.description, x.icon, x.humidity, x.windSpeed, [])
    requires DayKey(x.dtTxt) in daily ==> d == daily[DayKey(x.dtTxt)]
    requires d' == d.(tempMin := MathMin(d.tempMin, x.tempMin), tempMax := MathMax(d.tempMax, x.tempMax),
                      details := d.details + [DetailOf(x)])
    ensures var k := DayKey(x.dtTxt);
      Grouped(prefix + [x], if k in daily then order else order + [k], daily[k := d'])
  {
    GroupedSnoc(prefix, x, order, daily);
    EntryStep(Of(prefix, DayKey(x.dtTxt)), x, d, d');
  }

  /** The `forEach` over the samples: the first sample of a day creates
      its entry from that sample, and every sample then lowers the
      minimum, raises the maximum and pushes its detail; `Object.values`
      lists the entries in creation order and `slice(0, 5)` keeps five. */
  method DailyForecasts(list: seq<Sample>) returns (forecast: seq<Day>)
    ensures forecast == Forecast(list)
  {
    var daily: map<string, Day> := map[];
    var order: seq<string> := [];
    for i := 0 to |list|
      invariant Grouped(list[..i], order, daily)
    {
      var item := list[i];
      ghost var order0, daily0 := order, daily;
      var date := DayKey(item.dtTxt);
      if date !in daily {
        daily := daily[date := Day(date, item.tempMin, item.tempMax, item.description, item.icon,
                                   item.humidity, item.windSpeed, [])];
        order := order + [date];
      }
      var d := daily[date];
      var d' := d.(tempMin := MathMin(d.tempMin, item.tempMin));
      d' := d'.(tempMax := MathMax(d'.tempMax, item.tempMax));
      d' := d'.(details := d'.details + [Detail(TimeOf(item.dtTxt), item.temp, item.description, item.icon)]);
      UpdateTwice(daily0, date, d, d');
      daily := daily[date := d'];
      Advance(list[..i], item, order0, daily0, d, d');
      assert list[..i + 1] == list[..i] + [item];
    }
    assert list[..|list|] == list;
    EntriesAreDays(list, order, daily);
    forecast := FirstFive(Values(daily, order));
  }

  /** The provider's answer: the samples and the city. */
  datatype Response = Response(list: seq<Sample>, cityName: Json, country: Json)

  /** Why the provider call failed: an HTTP answer with its status, or no
      answer at all. */
  datatype ProviderError = Status(code: nat) | NoResponse

  /** The forecast payload, simulated when there is no API key. */
  datatype Previsions =
    | Simulated(latitude: real, longitude: real, units: string)
    | Fetched(city: Json, country: Json, latitude: real, longitude: real, units: string, forecast: seq<Day>)

  /** The single entry of the simulated forecast. */
  datatype SimulatedDay = SimulatedDay(date: string, tempMin: int, tempMax: int, description: string, icon: string)

  const SimulatedForecast := [SimulatedDay("2025-01-01", 10, 20, "Simulation", "01d")]

  /** The payload's message. */
  function MessageOf(p: Previsions): string
  {
    if p.Simulated? then SimulatedMessage else FetchedMessage
  }

  /** The provider's five-day forecast address; `number` is JavaScript's
      rendering of a number. */
  function ForecastUrl(latitude: real, longitude: real, units: string, key: string, number: real -> string): string
  {
    "https://api.openweathermap.org/data/2.5/forecast?lat=" + number(latitude) + "&lon=" + number(longitude) +
    "&units=" + units + "&appid=" + key + "&lang=fr"
  }

  /** A key is missing when the variable is unset or empty. */
  predicate Configured(apiKey: Option<string>)
  {
    apiKey.Some? && apiKey.value != ""
  }

  /** `getPrevisions`: without an API key, the simulated payload and no
      call; otherwise the provider's answer grouped by day, or the 401 for
      a refused key and the 503 for any other failure. */
  method GetPrevisions(latitude: real, longitude: real, units: Option<string>, apiKey: Option<string>,
                       number: real -> string, provider: string -> Result<Response, ProviderError>)
    returns (r: Result<Previsions, Failure>)
    ensures var u := if units.Some? then units.value else "metric";
      (!Configured(apiKey) ==> r == Ok(Simulated(latitude, longitude, u))) &&
      (Configured(apiKey) ==>
        match provider(ForecastUrl(latitude, longitude, u, apiKey.value, number))
        case Ok(resp) => r == Ok(Fetched(resp.cityName, resp.country, latitude, longitude, u, Forecast(resp.list)))
        case Err(Status(401)) => r == Err(Raised(401, InvalidKey))
        case Err(_) => r == Err(Raised(503, Unavailable)))
  {
    var u := if units.Some? then units.value else "metric";
    if !Configured(apiKey) {
      return Ok(Simulated(latitude, longitude, u));
    }
    var url := ForecastUrl(latitude, longitude, u, apiKey.value, number);
    var response := provider(url);
    if response.Err? {
      if response.error.Status? && response.error.code == 401 {
        return Err(Raised(401, InvalidKey));
      }
      return Err(Raised(503, Unavailable));
    }
    var simplified := DailyForecasts(response.value.list);
    r := Ok(Fetched(response.value.cityName, response.value.country, latitude, longitude, u, simplified));
  }

  /** A row of `donnees_meteo_cache`; `date` is the day number of
      `date_prevision`. */
  datatype CacheRow = CacheRow(latitude: real, longitude: real, date: int, tempMin: Json, tempMax: Json,
                               precipitation: Json, humidity: Json, wind: Json, description: Json, icon: Json)

  /** A row of the history: the cache row's columns but the coordinates. */
  datatype HistoryRow = HistoryRow(date: int, tempMin: Json, tempMax: Json, precipitation: Json,
                                   humidity: Json, wind: Json, description: Json, icon: Json)

  function HistoryOf(c: CacheRow): HistoryRow
  {
    HistoryRow(c.date, c.tempMin, c.tempMax, c.precipitation, c.humidity, c.wind, c.description, c.icon)
  }

  /** The simulated entry when the cache has nothing. */
  datatype SimulatedEntry = SimulatedEntry(date: string, tempAvg: int, precipitation: int)

  datatype History =
    | Cached(latitude: real, longitude: real, dateStart: string, dateEnd: string, data: seq<HistoryRow>)
    | SimulatedHistory(latitude: real, longitude: real, dateStart: string, dateEnd: string, entries: seq<SimulatedEntry>)

  /** The rows at the coordinates whose day is within the bounds, both
      included, in the table's order. */
  function InPeriod(cache: seq<CacheRow>, latitude: real, longitude: real, start: int, end: int): (rows: seq<HistoryRow>)
    ensures forall h :: h in rows <==>
      exists j :: 0 <= j < |cache| && cache[j].latitude == latitude && cache[j].longitude == longitude &&
        start <= cache[j].date <= end && h == HistoryOf(cache[j])
  {
    if cache == [] then []
    else
      var rest := InPeriod(cache[1..], latitude, longitude, start, end);
      var c := cache[0];
      assert forall j :: 0 < j < |cache| ==> cache[1..][j - 1] == cache[j];
      if c.latitude == latitude && c.longitude == longitude && start <= c.date <= end then [HistoryOf(c)] + rest else rest
  }

  /** `ORDER BY date_prevision ASC`. */
  predicate ByDate(a: HistoryRow, b: HistoryRow)
  {
    a.date <= b.date
  }

  lemma ByDateIsTotalPreorder()
    ensures TotalPreorder(ByDate)
  {
  }

  /** `getHistorique`: the cached rows of the period in date order, or,
      when there are none, the one simulated entry dated `dateStart`; a
      bound the database cannot read as a date (`dates`) fails the query,
      which is the 500. */
  function GetHistorique(cache: seq<CacheRow>, latitude: real, longitude: real, dateStart: string, dateEnd: string,
                         dates: string -> Option<int>): (r: Result<History, Failure>)
    ensures r.Err? <==> dates(dateStart).None? || dates(dateEnd).None?
    ensures r.Err? ==> r.error == Raised(500, HistoryFailed)
    ensures r.Ok? && r.value.Cached? ==>
      r.value.data != [] && SortedBy(r.value.data, ByDate) &&
      multiset(r.value.data) == multiset(InPeriod(cache, latitude, longitude, dates(dateStart).value, dates(dateEnd).value))
    ensures r.Ok? && r.value.SimulatedHistory? ==>
      InPeriod(cache, latitude, longitude, dates(dateStart).value, dates(dateEnd).value) == [] &&
      r.value.entries == [SimulatedEntry(dateStart, 20, 0)]
    ensures r.Ok? ==>
      r.value.latitude == latitude && r.value.longitude == longitude &&
      r.value.dateStart == dateStart && r.value.dateEnd == dateEnd
  {
    if dates(dateStart).None? || dates(dateEnd).None? then Err(Raised(500, HistoryFailed))
    else
      var rows := SortBy(InPeriod(cache, latitude, longitude, dates(dateStart).value, dates(dateEnd).value), ByDate);
      ByDateIsTotalPreorder();
      SortBySorted(InPeriod(cache, latitude, longitude, dates(dateStart).value, dates(dateEnd).value), ByDate);
      if |rows| > 0 then Ok(Cached(latitude, longitude, dateStart, dateEnd, rows))
      else Ok(SimulatedHistory(latitude, longitude, dateStart, dateEnd, [SimulatedEntry(dateStart, 20, 0)]))
  }

  /** The history message. */
  function HistoryMessage(h: History): string
  {
    if h.Cached? then CachedMessage else SimulatedHistoryMessage
  }
}
