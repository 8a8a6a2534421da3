/**
 * The WeatherAPI Astronomy plugin: the guarded fetch of one day's `astro`
 * object, the month assembled day by day under a transient cache key, and the
 * `[weatherapi_astronomy]` table with its exact-match moon-phase icons and its
 * placeholder rows.
 *
 * The WordPress options and the clock are parameters; the endpoint is a
 * constant function of a `Site` object, which also keeps the transient store
 * as a map and the list of requests sent.
 */
module WeatherApi {
  import opened Wrappers
  import opened PhpText
  import opened Calendar

  // ---------------------------------------------------------------------------
  // One day (waa_fetch_daily_astronomy_data)

  /** The members of the `astro` object the table prints. */
  datatype Astro = Astro(
    sunrise: string,
    sunset: string,
    moonrise: string,
    moonset: string,
    moonPhase: string,
    moonIllumination: string)

  /** `$data->astronomy->astro` once decoded and not null: an object, or any
      other JSON value, of which only its PHP truthiness matters. */
  datatype AstroJson = AstroObject(astro: Astro) | AstroScalar(truthy: bool)

  /** json_decode of the body: invalid JSON, no (or a null) `astronomy.astro`,
      or that member. */
  datatype Payload = InvalidJson | MissingAstro | HasAstro(astro: AstroJson)

  datatype HttpReply = TransportError(message: string) | Response(code: int, payload: Payload)

  /** The query arguments of the request: `key`, `q` and `dt`. */
  datatype Request = Request(key: string, q: string, dt: string)

  /** trim((string)$latitude) . ',' . trim((string)$longitude) */
  function Query(lat: string, lon: string): (q: string)
    ensures exists k :: 0 <= k < |q| && q[k] == ',' && q[..k] == Trim(lat) && q[k + 1..] == Trim(lon)
  {
    var q := Trim(lat) + "," + Trim(lon);
    assert q[..|Trim(lat)|] == Trim(lat) && q[|Trim(lat)| + 1..] == Trim(lon);
    q
  }

  /** The shortcode's setting check: any of the three options `empty()`. */
  predicate MissingSetting(apiKey: string, lat: string, lon: string) {
    IsEmpty(apiKey) || IsEmpty(lat) || IsEmpty(lon)
  }

  /** The fetcher's guard: any of the four parameters is `empty()`. */
  predicate MissingParameter(date: string, apiKey: string, lat: string, lon: string) {
    MissingSetting(apiKey, lat, lon) || IsEmpty(date)
  }

  /** The requests one call of the fetcher sends: none when the guard rejects
      the parameters, otherwise exactly one. */
  function FetchRequests(date: string, apiKey: string, lat: string, lon: string): (r: seq<Request>)
    ensures |r| <= 1
    ensures r == [] <==> MissingParameter(date, apiKey, lat, lon)
    ensures r != [] ==> r[0].key == apiKey && r[0].dt == date && r[0].q == Query(lat, lon)
  {
    if MissingParameter(date, apiKey, lat, lon) then [] else [Request(apiKey, Query(lat, lon), date)]
  }

  /** What the fetcher returns: the `astro` member, or `false` (here `None`) on
      a missing parameter, a transport error, a status other than 200, bad JSON
      or a missing `astronomy.astro`. */
  function FetchResult(date: string, apiKey: string, lat: string, lon: string, api: Request -> HttpReply)
    : (r: Option<AstroJson>)
    ensures MissingParameter(date, apiKey, lat, lon) ==> r.None?
    ensures r.Some? <==>
      !MissingParameter(date, apiKey, lat, lon)
      && var reply := api(Request(apiKey, Query(lat, lon), date));
         reply.Response? && reply.code == 200 && reply.payload.HasAstro?
    ensures r.Some? ==> r.value == api(Request(apiKey, Query(lat, lon), date)).payload.astro
  {
    if MissingParameter(date, apiKey, lat, lon) then None
    else
      match api(Request(apiKey, Query(lat, lon), date))
      case TransportError(_) => None
      case Response(code, payload) =>
        if code != 200 then None
        else if payload.HasAstro? then Some(payload.astro)
        else None
  }

  /** A coordinate of "0" counts as missing, while "0.0" does not. */
  lemma ZeroCoordinateIsMissing(date: string, apiKey: string, lon: string, api: Request -> HttpReply)
    ensures MissingParameter(date, apiKey, "0", lon) && MissingParameter(date, apiKey, lon, "0")
    ensures FetchRequests(date, apiKey, "0", lon) == [] && FetchResult(date, apiKey, "0", lon, api).None?
    ensures !IsEmpty("0.0")
  {
  }

  // ---------------------------------------------------------------------------
  // The month (waa_get_monthly_astronomy_data)

  /** `if ($daily_astro_data)`: PHP truthiness of the fetcher's result. */
  predicate Truthy(v: Option<AstroJson>) {
    match v
    case None => false
    case Some(AstroObject(_)) => true
    case Some(AstroScalar(t)) => t
  }

  /** One element of `$monthly_data`: its `Y-m-d` key and its value, with
      `None` standing for `null`. */
  datatype DayEntry = DayEntry(date: string, astro: Option<AstroJson>)

  /** The value the loop stores for a day: the fetched value when truthy, else null. */
  function StoredValue(v: Option<AstroJson>): (r: Option<AstroJson>)
    ensures r.Some? <==> Truthy(v)
    ensures r.Some? ==> r == v
  {
    if Truthy(v) then v else None
  }

  const TransientPrefix := "waa_month_astro_"

  /** 'waa_month_astro_' . $year . '_' . $month . '_' . $lat_key . '_' . $lon_key,
      where the coordinate keys have every '.' and ',' replaced by '_'. */
  function TransientKey(year: nat, month: nat, lat: string, lon: string): (key: string)
    ensures |key| > |TransientPrefix| && key[..|TransientPrefix|] == TransientPrefix
  {
    TransientPrefix + Decimal(year) + "_" + Decimal(month) + "_"
      + DotsAndCommasToUnderscores(lat) + "_" + DotsAndCommasToUnderscores(lon)
  }

  /** The key is not injective: latitude 1.5 with longitude 2 and latitude 1
      with longitude 5.2 share the key "waa_month_astro_<y>_<m>_1_5_2". */
  lemma TransientKeyCollision(year: nat, month: nat)
    ensures TransientKey(year, month, "1.5", "2") == TransientKey(year, month, "1", "5.2")
  {
    var p := TransientPrefix + Decimal(year) + "_" + Decimal(month) + "_";
    assert DotsAndCommasToUnderscores("1.5") == "1_5";
    assert DotsAndCommasToUnderscores("5.2") == "5_2";
    assert DotsAndCommasToUnderscores("1") == "1";
    assert DotsAndCommasToUnderscores("2") == "2";
    assert p + "1_5" + "_" + "2" == p + "1" + "_" + "5_2";
  }

  /** The key determines the year and the month for every pair of coordinates,
      so a new month is never served an earlier month's transient; of the
      place it keeps only the two coordinates with '.' and ',' turned into '_'. */
  lemma TransientKeyDeterminesMonth(y1: nat, m1: nat, lat1: string, lon1: string,
                                    y2: nat, m2: nat, lat2: string, lon2: string)
    requires TransientKey(y1, m1, lat1, lon1) == TransientKey(y2, m2, lat2, lon2)
    ensures y1 == y2 && m1 == m2
    ensures DotsAndCommasToUnderscores(lat1) + "_" + DotsAndCommasToUnderscores(lon1)
         == DotsAndCommasToUnderscores(lat2) + "_" + DotsAndCommasToUnderscores(lon2)
  {
    var p1 := DotsAndCommasToUnderscores(lat1) + "_" + DotsAndCommasToUnderscores(lon1);
    var p2 := DotsAndCommasToUnderscores(lat2) + "_" + DotsAndCommasToUnderscores(lon2);
    KeySplits(y1, m1, lat1, lon1);
    KeySplits(y2, m2, lat2, lon2);
    var k := TransientKey(y1, m1, lat1, lon1);
    assert KeySuffix(y1, m1, p1) == k[|TransientPrefix|..] == KeySuffix(y2, m2, p2);
    DecimalHasNoUnderscore(y1);
    DecimalHasNoUnderscore(y2);
    SplitAtSeparator(Decimal(y1), Decimal(m1) + "_" + p1, Decimal(y2), Decimal(m2) + "_" + p2, '_');
    DecimalInjective(y1, y2);
    DecimalHasNoUnderscore(m1);
    DecimalHasNoUnderscore(m2);
    SplitAtSeparator(Decimal(m1), p1, Decimal(m2), p2, '_');
    DecimalInjective(m1, m2);
  }

  predicate PlainCoordinate(s: string) {
    '.' !in s && ',' !in s && '_' !in s
  }

  /** Coordinates without '.', ',' or '_' (whole numbers, say) are told apart
      by the key as well: equal keys mean the same month and the same place. */
  lemma TransientKeyInjective(y1: nat, m1: nat, lat1: string, lon1: string,
                              y2: nat, m2: nat, lat2: string, lon2: string)
    requires TransientKey(y1, m1, lat1, lon1) == TransientKey(y2, m2, lat2, lon2)
    ensures PlainCoordinate(lat1) && PlainCoordinate(lon1) && PlainCoordinate(lat2) && PlainCoordinate(lon2)
      ==> y1 == y2 && m1 == m2 && lat1 == lat2 && lon1 == lon2
  {
    TransientKeyDeterminesMonth(y1, m1, lat1, lon1, y2, m2, lat2, lon2);
    if PlainCoordinate(lat1) && PlainCoordinate(lon1) && PlainCoordinate(lat2) && PlainCoordinate(lon2) {
      PlainUnchanged(lat1);
      PlainUnchanged(lon1);
      PlainUnchanged(lat2);
      PlainUnchanged(lon2);
      SplitAtSeparator(lat1, lon1, lat2, lon2, '_');
    }
  }

  /** The key after its prefix, grouped for splitting at '_'; `place` is the
      underscored latitude, '_' and the underscored longitude. */
  function KeySuffix(year: nat, month: nat, place: string): string {
    Decimal(year) + "_" + (Decimal(month) + "_" + place)
  }

  lemma KeySplits(year: nat, month: nat, lat: string, lon: string)
    ensures TransientKey(year, month, lat, lon)
         == TransientPrefix + KeySuffix(year, month, DotsAndCommasToUnderscores(lat) + "_" + DotsAndCommasToUnderscores(lon))
  {
  }

  lemma PlainUnchanged(s: string)
    requires '.' !in s && ',' !in s
    ensures DotsAndCommasToUnderscores(s) == s
  {
  }

  lemma DecimalHasNoUnderscore(n: nat)
    ensures '_' !in Decimal(n)
  {
    var d := Decimal(n);
    assert forall i :: 0 <= i < |d| ==> d[i] != '_';
  }

  /** `$monthly_data` after the loop: for day 1 to cal_days_in_month, the key
      sprintf('%04d-%02d-%02d') and what that day's fetch stored. */
  function MonthEntries(api: Request -> HttpReply, year: nat, month: nat, apiKey: string, lat: string, lon: string)
    : (r: seq<DayEntry>)
    requires 1 <= month <= 12
    ensures |r| == DaysInMonth(year, month)
  {
    seq(DaysInMonth(year, month), i requires 0 <= i < DaysInMonth(year, month) =>
      DayEntry(IsoDate(year, month, i + 1), StoredValue(FetchResult(IsoDate(year, month, i + 1), apiKey, lat, lon, api))))
  }

  /** The requests sent by the first `days` iterations of the loop. */
  function DaysRequests(year: nat, month: nat, apiKey: string, lat: string, lon: string, days: nat): seq<Request> {
    if days == 0 then []
    else
      var earlier := DaysRequests(year, month, apiKey, lat, lon, days - 1);
      earlier + FetchRequests(IsoDate(year, month, days), apiKey, lat, lon)
  }

  /** The `Y-m-d` key is never `empty()`, so only the three settings can stop a fetch. */
  lemma DayKeyNotEmpty(year: nat, month: nat, day: nat)
    ensures |IsoDate(year, month, day)| >= 10 && !IsEmpty(IsoDate(year, month, day))
  {
  }

  /** The loop sends one request per day, in day order, unless a setting is
      `empty()`, in which case it sends none. */
  lemma {:induction false} DaysRequestsOnePerDay(year: nat, month: nat, apiKey: string, lat: string, lon: string, days: nat)
    ensures MissingSetting(apiKey, lat, lon) ==> DaysRequests(year, month, apiKey, lat, lon, days) == []
    ensures !MissingSetting(apiKey, lat, lon) ==>
      var r := DaysRequests(year, month, apiKey, lat, lon, days);
      |r| == days && forall i :: 0 <= i < days ==> r[i] == Request(apiKey, Query(lat, lon), IsoDate(year, month, i + 1))
  {
    if days > 0 {
      var earlier := DaysRequests(year, month, apiKey, lat, lon, days - 1);
      var date := IsoDate(year, month, days);
      DaysRequestsOnePerDay(year, month, apiKey, lat, lon, days - 1);
      DayKeyNotEmpty(year, month, days);
      assert DaysRequests(year, month, apiKey, lat, lon, days) == earlier + FetchRequests(date, apiKey, lat, lon);
      if !MissingSetting(apiKey, lat, lon) {
        assert FetchRequests(date, apiKey, lat, lon) == [Request(apiKey, Query(lat, lon), date)];
      }
    }
  }

  /** Each entry is the day's own key, decodable back to that day, and holds a
      value exactly when that day's fetch returned a truthy one; a failed day
      leaves `null` and does not shorten the month. */
  lemma MonthEntriesDays(api: Request -> HttpReply, year: nat, month: nat, apiKey: string, lat: string, lon: string, i: nat)
    requires 1 <= month <= 12 && year < 10000
    requires i < DaysInMonth(year, month)
    ensures var e := MonthEntries(api, year, month, apiKey, lat, lon)[i];
      DigitsValue(e.date[..4]) == year && DigitsValue(e.date[5..7]) == month && DigitsValue(e.date[8..]) == i + 1
      && (e.astro.Some? <==> Truthy(FetchResult(e.date, apiKey, lat, lon, api)))
      && (e.astro.Some? ==> e.astro == FetchResult(e.date, apiKey, lat, lon, api))
  {
    IsoDateDecodes(year, month, i + 1);
  }

  /** The keys of the month are pairwise distinct, so the PHP array has one
      element per day. */
  lemma MonthEntriesDistinct(api: Request -> HttpReply, year: nat, month: nat, apiKey: string, lat: string, lon: string)
    requires 1 <= month <= 12
    ensures var r := MonthEntries(api, year, month, apiKey, lat, lon);
      forall i, j :: 0 <= i < j < |r| ==> r[i].date != r[j].date
  {
    var r := MonthEntries(api, year, month, apiKey, lat, lon);
    forall i, j | 0 <= i < j < |r|
      ensures r[i].date != r[j].date
    {
      if r[i].date == r[j].date {
        IsoDateDayInjective(year, month, i + 1, j + 1);
      }
    }
  }

  /** With an `empty()` setting nothing is fetched and every day is null. */
  lemma MissingSettingAllNull(api: Request -> HttpReply, year: nat, month: nat, apiKey: string, lat: string, lon: string)
    requires 1 <= month <= 12
    requires MissingSetting(apiKey, lat, lon)
    ensures forall e :: e in MonthEntries(api, year, month, apiKey, lat, lon) ==> e.astro.None?
  {
  }

  /** A stored transient: the month array, or a value that is not an array. */
  datatype Transient = MonthArray(entries: seq<DayEntry>) | NotArray

  /** The outcome of one call: the month returned, the new store and the requests sent. */
  datatype MonthLookup = MonthLookup(data: seq<DayEntry>, store: map<string, Transient>, requests: seq<Request>)

  /** A cached array is returned unchanged with no request; otherwise the month
      is fetched day by day and, being non-empty, stored under the key. */
  function MonthlyData(store: map<string, Transient>, api: Request -> HttpReply,
                       year: nat, month: nat, apiKey: string, lat: string, lon: string): (r: MonthLookup)
    requires 1 <= month <= 12
    ensures var key := TransientKey(year, month, lat, lon);
      if key in store && store[key].MonthArray? then
        r.data == store[key].entries && r.store == store && r.requests == []
      else
        r.data == MonthEntries(api, year, month, apiKey, lat, lon)
        && |r.data| == DaysInMonth(year, month)
        && r.store == store[key := MonthArray(r.data)]
        && r.requests == DaysRequests(year, month, apiKey, lat, lon, DaysInMonth(year, month))
  {
    var key := TransientKey(year, month, lat, lon);
    if key in store && store[key].MonthArray? then MonthLookup(store[key].entries, store, [])
    else
      var data := MonthEntries(api, year, month, apiKey, lat, lon);
      var requests := DaysRequests(year, month, apiKey, lat, lon, DaysInMonth(year, month));
      if |data| > 0 then MonthLookup(data, store[key := MonthArray(data)], requests)
      else MonthLookup(data, store, requests)
  }

  /** After a miss, asking again for the same month and place is a hit that
      returns the same entries and sends nothing, even when every day failed. */
  lemma RepeatMonthHits(store: map<string, Transient>, api: Request -> HttpReply, later: Request -> HttpReply,
                        year: nat, month: nat, apiKey: string, lat: string, lon: string)
    requires 1 <= month <= 12
    ensures var first := MonthlyData(store, api, year, month, apiKey, lat, lon);
      var second := MonthlyData(first.store, later, year, month, apiKey, lat, lon);
      second.data == first.data && second.store == first.store && second.requests == []
  {
  }

  /** Because of the key collision, the month fetched for (1.5, 2) is served,
      without a request, to a site at (1, 5.2). */
  lemma CollidingPlacesShareMonth(store: map<string, Transient>, api: Request -> HttpReply, year: nat, month: nat, apiKey: string)
    requires 1 <= month <= 12
    ensures var first := MonthlyData(store, api, year, month, apiKey, "1.5", "2");
      var second := MonthlyData(first.store, api, year, month, apiKey, "1", "5.2");
      second.data == first.data && second.requests == []
  {
    TransientKeyCollision(year, month);
  }

  // ---------------------------------------------------------------------------
  // The table (waa_shortcode_render_astronomy_table)

  // The icons exactly as the plugin writes them: the UTF-8 bytes of the moon
  // emoji U+1F311 to U+1F318, read as Windows-1252 and saved again as UTF-8,
  // so that a page shows these four characters rather than the emoji.
  const NewMoon := "\U{F0}\U{178}\U{152}\U{2018}"
  const WaxingCrescent := "\U{F0}\U{178}\U{152}\U{2019}"
  const FirstQuarter := "\U{F0}\U{178}\U{152}\U{201C}"
  const WaxingGibbous := "\U{F0}\U{178}\U{152}\U{201D}"
  const FullMoon := "\U{F0}\U{178}\U{152}\U{2022}"
  const WaningGibbous := "\U{F0}\U{178}\U{152}\U{2013}"
  const LastQuarter := "\U{F0}\U{178}\U{152}\U{2014}"
  const WaningCrescent := "\U{F0}\U{178}\U{152}\U{2DC}"

  /** The exact, case-sensitive icon table keyed by the API's phase names. */
  function WeatherIcon(phase: string): (icon: string)
    ensures icon != "" <==> phase in PhaseNames
  {
    if phase == "New Moon" then NewMoon
    else if phase == "Waxing Crescent" then WaxingCrescent
    else if phase == "First Quarter" then FirstQuarter
    else if phase == "Waxing Gibbous" then WaxingGibbous
    else if phase == "Full Moon" then FullMoon
    else if phase == "Waning Gibbous" then WaningGibbous
    else if phase == "Last Quarter" then LastQuarter
    else if phase == "Waning Crescent" then WaningCrescent
    else ""
  }

  const PhaseNames: set<string> := {
    "New Moon", "Waxing Crescent", "First Quarter", "Waxing Gibbous",
    "Full Moon", "Waning Gibbous", "Last Quarter", "Waning Crescent"
  }

  /** The lookup matches case and spacing exactly. */
  lemma WeatherIconIsExact()
    ensures WeatherIcon("Full Moon") == FullMoon
    ensures WeatherIcon("full moon") == "" && WeatherIcon("FullMoon") == ""
  {
  }

  /** The moon phase cell: the icon and a space before the text when the text
      is one of the eight names, the text alone otherwise. */
  function PhaseCell(phase: string): (cell: string)
    ensures phase in PhaseNames ==> cell == WeatherIcon(phase) + " " + phase
    ensures phase !in PhaseNames ==> cell == phase
  {
    var icon := if WeatherIcon(phase) != "" then WeatherIcon(phase) + " " else "";
    icon + phase
  }

  /** strtotime of a `Y-m-d` key naming a real day (other forms are not modelled). */
  function ParseDayKey(key: string): (r: Option<Date>)
    ensures r.Some? ==> ValidDate(r.value) && r.value.year < 10000
  {
    if |key| == 10 && key[4] == '-' && key[7] == '-'
       && AllDigits(key[..4]) && AllDigits(key[5..7]) && AllDigits(key[8..]) then
      DigitsValueBound(key[..4]);
      var d := Date(DigitsValue(key[..4]), DigitsValue(key[5..7]), DigitsValue(key[8..]));
      if ValidDate(d) then Some(d) else None
    else None
  }

  /** date('d/m/Y', strtotime($date_key)): the day the key names, read back
      from the text, or the epoch, which `date` prints for the `false` of an
      unparsable key. */
  function DisplayDate(key: string): (shown: string)
    ensures |shown| == 10 && shown[2] == '/' && shown[5] == '/'
    ensures ParseDayKey(key).None? ==> shown == "01/01/1970"
    ensures ParseDayKey(key).Some? ==>
      var d := ParseDayKey(key).value;
      AllDigits(shown[..2]) && AllDigits(shown[3..5]) && AllDigits(shown[6..])
      && DigitsValue(shown[..2]) == d.day && DigitsValue(shown[3..5]) == d.month
      && DigitsValue(shown[6..]) == d.year
  {
    match ParseDayKey(key)
    case Some(d) =>
      DayMonthYearDecodes(d.year, d.month, d.day);
      DayMonthYear(d.year, d.month, d.day)
    case None => "01/01/1970"
  }

  /** The keys the loop writes are shown as the same day in `d/m/Y`. */
  lemma DisplayDateOfDayKey(year: nat, month: nat, day: nat)
    requires ValidDate(Date(year, month, day)) && year < 10000
    ensures DisplayDate(IsoDate(year, month, day)) == DayMonthYear(year, month, day)
  {
    IsoDateDecodes(year, month, day);
  }

  const Placeholder := "Data unavailable for this day."

  /** `$day_data && is_object($day_data)`: only objects get the six data cells. */
  predicate HasObject(e: DayEntry) {
    e.astro.Some? && e.astro.value.AstroObject?
  }

  /** A table cell: how many columns it spans and its text. */
  datatype Cell = Cell(span: nat, text: string)

  /** The cells of one row: the date, then six data cells, or one placeholder
      spanning six columns. */
  function RowCells(e: DayEntry): (cells: seq<Cell>)
    ensures |cells| >= 2 && cells[0] == Cell(1, DisplayDate(e.date))
    ensures HasObject(e) <==> |cells| == 7
    ensures !HasObject(e) <==> cells[1..] == [Cell(6, Placeholder)]
    ensures HasObject(e) ==>
      var a := e.astro.value.astro;
      cells[1..] == [Cell(1, a.sunrise), Cell(1, a.sunset), Cell(1, a.moonrise), Cell(1, a.moonset),
                     Cell(1, PhaseCell(a.moonPhase)), Cell(1, a.moonIllumination + "%")]
  {
    if HasObject(e) then
      var a := e.astro.value.astro;
      [Cell(1, DisplayDate(e.date)), Cell(1, a.sunrise), Cell(1, a.sunset), Cell(1, a.moonrise),
       Cell(1, a.moonset), Cell(1, PhaseCell(a.moonPhase)), Cell(1, a.moonIllumination + "%")]
    else
      [Cell(1, DisplayDate(e.date)), Cell(6, Placeholder)]
  }

  function Span(cells: seq<Cell>): nat {
    if cells == [] then 0 else cells[0].span + Span(cells[1..])
  }

  const HeaderLabels := ["Date", "Sunrise", "Sunset", "Moonrise", "Moonset", "Moon Phase", "Illumination"]

  /** Every row, placeholder or not, spans exactly the seven header columns. */
  lemma RowSpansHeader(e: DayEntry)
    ensures Span(RowCells(e)) == |HeaderLabels|
  {
    var c := RowCells(e);
    if HasObject(e) {
      SpanOfSingleColumns(c);
    } else {
      assert c == [c[0]] + [Cell(6, Placeholder)];
      assert c[1..] == [Cell(6, Placeholder)];
      assert Span(c[1..]) == 6 + Span(c[1..][1..]);
    }
  }

  lemma {:induction false} SpanOfSingleColumns(cells: seq<Cell>)
    requires forall i :: 0 <= i < |cells| ==> cells[i].span == 1
    ensures Span(cells) == |cells|
  {
    if cells != [] {
      SpanOfSingleColumns(cells[1..]);
    }
  }

  // HTML text of the table

  /** One `<th>` per column label, in order. */
  function HeaderCells(labels: seq<string>): (ths: seq<string>)
    ensures |ths| == |labels|
    ensures forall i :: 0 <= i < |labels| ==> ths[i] == "<th>" + labels[i] + "</th>"
  {
    seq(|labels|, i requires 0 <= i < |labels| => "<th>" + labels[i] + "</th>")
  }

  const TableHead :=
    "<div class=\"weatherapi-astronomy-wrapper\"><table class=\"weatherapi-astronomy-table\"><thead><tr>"
    + Concat(HeaderCells(HeaderLabels)) + "</tr></thead><tbody>"
  const TableFoot := "</tbody></table></div>"

  function CellHtml(c: Cell): string {
    if c.span == 1 then "<td>" + c.text + "</td>"
    else "<td colspan=\"" + Decimal(c.span) + "\">" + c.text + "</td>"
  }

  function CellsHtml(cells: seq<Cell>): string {
    if cells == [] then "" else CellHtml(cells[0]) + CellsHtml(cells[1..])
  }

  function RowHtml(e: DayEntry): string {
    "<tr>" + CellsHtml(RowCells(e)) + "</tr>"
  }

  function RowsHtml(data: seq<DayEntry>): string {
    if data == [] then "" else RowsHtml(data[..|data| - 1]) + RowHtml(data[|data| - 1])
  }

  function RowTexts(data: seq<DayEntry>): (trs: seq<string>)
    ensures |trs| == |data|
    ensures forall i :: 0 <= i < |data| ==> trs[i] == RowHtml(data[i])
  {
    seq(|data|, i requires 0 <= i < |data| => RowHtml(data[i]))
  }

  /** The body holds one `<tr>` per entry of the month, in order. */
  lemma {:induction false} RowsOnePerEntry(data: seq<DayEntry>)
    ensures RowsHtml(data) == Concat(RowTexts(data))
  {
    if data != [] {
      var n := |data| - 1;
      assert RowTexts(data)[..n] == RowTexts(data[..n]);
      RowsOnePerEntry(data[..n]);
    }
  }

  /** The whole table: the fixed header of seven columns, then a `<tr>` per
      entry of the month, then the closing tags. */
  function TableHtml(data: seq<DayEntry>): (html: string)
    ensures html == TableHead + Concat(RowTexts(data)) + TableFoot
  {
    RowsOnePerEntry(data);
    TableHead + RowsHtml(data) + TableFoot
  }

  lemma RowsStep(data: seq<DayEntry>, i: nat)
    requires i < |data|
    ensures RowsHtml(data[..i + 1]) == RowsHtml(data[..i]) + RowHtml(data[i])
  {
    assert data[..i + 1][..i] == data[..i];
  }

  const ConfigNotice := "<p>WeatherAPI Astronomy: API key and location coordinates must be configured in settings.</p>"
  const NoDataNotice := "<p>WeatherAPI Astronomy: Could not retrieve astronomy data for the current month.</p>"

  /** The "could not retrieve" notice needs an empty month, which only a cached
      empty array supplies: a fetched month always has 28 to 31 entries. */
  lemma EmptyMonthOnlyFromCache(store: map<string, Transient>, api: Request -> HttpReply,
                                year: nat, month: nat, apiKey: string, lat: string, lon: string)
    requires 1 <= month <= 12
    requires MonthlyData(store, api, year, month, apiKey, lat, lon).data == []
    ensures var key := TransientKey(year, month, lat, lon);
      key in store && store[key] == MonthArray([])
  {
  }

  /** The site: its transient store, the requests it sent, and the endpoint. */
  class Site {
    var transients: map<string, Transient>
    var sent: seq<Request>
    const api: Request -> HttpReply

    constructor (api: Request -> HttpReply, transients: map<string, Transient>)
      ensures this.api == api && this.transients == transients && sent == []
    {
      this.api := api;
      this.transients := transients;
      sent := [];
    }

    /** waa_fetch_daily_astronomy_data */
    method FetchDailyAstronomyData(date: string, apiKey: string, lat: string, lon: string)
      returns (r: Option<AstroJson>)
      modifies this
      ensures r == FetchResult(date, apiKey, lat, lon, api)
      ensures sent == old(sent) + FetchRequests(date, apiKey, lat, lon)
      ensures transients == old(transients)
    {
      if MissingParameter(date, apiKey, lat, lon) {
        return None;
      }
      var request := Request(apiKey, Query(lat, lon), date);
      sent := sent + [request];
      var reply := api(request);
      if reply.TransportError? {
        return None;
      }
      if reply.code != 200 {
        return None;
      }
      if !reply.payload.HasAstro? {
        return None;
      }
      r := Some(reply.payload.astro);
    }

    /** waa_get_monthly_astronomy_data */
    method GetMonthlyAstronomyData(year: nat, month: nat, apiKey: string, lat: string, lon: string)
      returns (data: seq<DayEntry>)
      requires 1 <= month <= 12
      modifies this
      ensures var l := MonthlyData(old(transients), api, year, month, apiKey, lat, lon);
        data == l.data && transients == l.store && sent == old(sent) + l.requests
    {
      var key := TransientKey(year, month, lat, lon);
      if key in transients && transients[key].MonthArray? {
        return transients[key].entries;
      }
      ghost var spec := MonthEntries(api, year, month, apiKey, lat, lon);
      data := [];
      var daysInMonth := DaysInMonth(year, month);
      for day := 1 to daysInMonth + 1
        invariant data == spec[..day - 1]
        invariant sent == old(sent) + DaysRequests(year, month, apiKey, lat, lon, day - 1)
        invariant transients == old(transients)
      {
        var date := IsoDate(year, month, day);
        ghost var earlier := DaysRequests(year, month, apiKey, lat, lon, day - 1);
        var astro := FetchDailyAstronomyData(date, apiKey, lat, lon);
        AppendAssoc(old(sent), earlier, FetchRequests(date, apiKey, lat, lon));
        assert DaysRequests(year, month, apiKey, lat, lon, day) == earlier + FetchRequests(date, apiKey, lat, lon);
        ghost var entry := DayEntry(date, StoredValue(astro));
        if Truthy(astro) {
          data := data + [DayEntry(date, astro)];
        } else {
          data := data + [DayEntry(date, None)];
        }
        assert data == spec[..day - 1] + [entry];
        assert spec[day - 1] == entry;
        TakeOneMore(spec, day - 1);
      }
      assert spec[..daysInMonth] == spec;
      if |data| > 0 {
        transients := transients[key := MonthArray(data)];
      }
    }

    /** The `foreach ($monthly_data as $date_key => $day_data)` loop. */
    method BuildTable(data: seq<DayEntry>) returns (html: string)
      ensures html == TableHtml(data)
    {
      html := TableHead;
      for i := 0 to |data|
        invariant html == TableHead + RowsHtml(data[..i])
      {
        var e := data[i];
        var row := "<tr>" + CellsHtml(RowCells(e)) + "</tr>";
        RowsStep(data, i);
        AppendAssoc(TableHead, RowsHtml(data[..i]), row);
        html := html + row;
      }
      assert data[..|data|] == data;
      html := html + TableFoot;
    }

    /** waa_shortcode_render_astronomy_table, for the month of `today`. */
    method RenderAstronomyTable(apiKey: string, lat: string, lon: string, today: Date) returns (html: string)
      requires ValidDate(today)
      modifies this
      ensures MissingSetting(apiKey, lat, lon) ==>
        html == ConfigNotice && transients == old(transients) && sent == old(sent)
      ensures !MissingSetting(apiKey, lat, lon) ==>
        var l := MonthlyData(old(transients), api, today.year, today.month, apiKey, lat, lon);
        transients == l.store && sent == old(sent) + l.requests
        && html == (if l.data == [] then NoDataNotice else TableHtml(l.data))
    {
      if MissingSetting(apiKey, lat, lon) {
        return ConfigNotice;
      }
      var data := GetMonthlyAstronomyData(today.year, today.month, apiKey, lat, lon);
      if data == [] {
        return NoDataNotice;
      }
      html := BuildTable(data);
    }
  }
}
