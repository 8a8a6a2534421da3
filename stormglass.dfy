/**
 * The `[stormglass_astronomy]` shortcode of the Stormglass Astronomy Monthly
 * plugin: settings and date-range guards, the transient cache key, the
 * cache-or-fetch step against the Stormglass astronomy endpoint, the `fields`
 * attribute, and the HTML table built row by row and cell by cell.
 *
 * The WordPress options, the clock, the HTTP endpoint and `md5` are inputs:
 * the settings and "today" are parameters, the endpoint and the digest are
 * constant functions of a `Site` object, and the transient store is a map
 * field of that object.
 */
module Stormglass {
  import opened Wrappers
  import opened PhpText
  import opened Calendar

  // ---------------------------------------------------------------------------
  // Moon phase icon (stormglass_get_moon_phase_icon)

  // The icons exactly as the plugin writes them: the UTF-8 bytes of the moon
  // emoji U+1F311 to U+1F318, read as Windows-1252 and saved again as UTF-8,
  // so that a page shows these four characters rather than the emoji.
  const NewMoon := "\U{F0}\U{178}\U{152}\U{2018}"
  const WaxingCrescent := "\U{F0}\U{178}\U{152}\U{2019}"
  const FirstQuarter := "\U{F0}\U{178}\U{152}\U{201C}"
  const WaxingGibbous := "\U{F0}\U{178}\U{152}\U{201D}"
  const FullMoon := "\U{F0}\U{178}\U{152}\U{2022}"
  const WaningGibbous := "\U{F0}\U{178}\U{152}\U{2013}"
  const LastQuarter := "\U{F0}\U{178}\U{152}\U{2014}"
  const WaningCrescent := "\U{F0}\U{178}\U{152}\U{2DC}"

  /** The eight keys of the icon table: phase names, lower case, without spaces. */
  const PhaseKeys: set<string> := {
    "newmoon", "waxingcrescent", "firstquarter", "waxinggibbous",
    "fullmoon", "waninggibbous", "lastquarter", "waningcrescent"
  }

  /** The icon table, looked up by its key; "" for any other text. */
  function IconOfKey(key: string): (icon: string)
    ensures icon != "" <==> key in PhaseKeys
  {
    if key == "newmoon" then NewMoon
    else if key == "waxingcrescent" then WaxingCrescent
    else if key == "firstquarter" then FirstQuarter
    else if key == "waxinggibbous" then WaxingGibbous
    else if key == "fullmoon" then FullMoon
    else if key == "waninggibbous" then WaningGibbous
    else if key == "lastquarter" then LastQuarter
    else if key == "waningcrescent" then WaningCrescent
    else ""
  }

  /** strtolower(str_replace(' ', '', $phase)) */
  function NormalizePhase(phase: string): string {
    ToLower(RemoveSpaces(phase))
  }

  /** The icon of a phase name after normalisation, or "" when it names none
      of the eight phases. */
  function MoonPhaseIcon(phase: string): (icon: string)
    ensures icon != "" <==> NormalizePhase(phase) in PhaseKeys
  {
    IconOfKey(NormalizePhase(phase))
  }

  /** Upper- or lower-casing a phase name does not change its icon. */
  lemma MoonPhaseIconIgnoresCase(phase: string)
    ensures MoonPhaseIcon(ToUpper(phase)) == MoonPhaseIcon(phase)
    ensures MoonPhaseIcon(ToLower(phase)) == MoonPhaseIcon(phase)
  {
    RemoveSpacesToUpper(phase);
    LowerOfUpper(RemoveSpaces(phase));
    RemoveSpacesToLower(phase);
    LowerOfLower(RemoveSpaces(phase));
  }

  /** A space inserted anywhere in a phase name does not change its icon. */
  lemma MoonPhaseIconIgnoresSpaces(a: string, b: string)
    ensures MoonPhaseIcon(a + " " + b) == MoonPhaseIcon(a + b)
  {
    NormalizeDropsSpace(a, b);
  }

  lemma NormalizeDropsSpace(a: string, b: string)
    ensures NormalizePhase(a + " " + b) == NormalizePhase(a + b)
  {
    RemoveSpacesAppend(a + " ", b);
    RemoveSpacesAppend(a, " ");
    RemoveSpacesAppend(a, b);
    assert RemoveSpaces(" ") == "";
    assert RemoveSpaces(a) + "" == RemoveSpaces(a);
  }

  /** A text already lower-case and without spaces is its own normal form. */
  lemma {:induction false} NormalFormUnchanged(s: string)
    requires forall i :: 0 <= i < |s| ==> s[i] != ' ' && !IsUpperAscii(s[i])
    ensures NormalizePhase(s) == s
  {
    if s != [] {
      NormalFormUnchanged(s[1..]);
      assert RemoveSpaces(s) == [s[0]] + RemoveSpaces(s[1..]);
      assert ToLower([s[0]] + s[1..]) == [s[0]] + ToLower(s[1..]);
      assert [s[0]] + s[1..] == s;
    }
  }

  /** Any split of "fullmoon" with a space between, in lower or upper case
      ("full moon", "FULL MOON", "fullmoon"), finds the full-moon icon. */
  lemma FullMoonSpellings(a: string, b: string)
    requires a + b == "fullmoon"
    ensures MoonPhaseIcon(a + b) == FullMoon
    ensures MoonPhaseIcon(a + " " + b) == FullMoon
    ensures MoonPhaseIcon(ToUpper(a + " " + b)) == FullMoon
  {
    NormalFormUnchanged("fullmoon");
    MoonPhaseIconIgnoresSpaces(a, b);
    MoonPhaseIconIgnoresCase(a + " " + b);
  }

  /** The eight icons are distinct, so an icon identifies the normalised phase. */
  lemma MoonPhaseIconIdentifiesPhase(p: string, q: string)
    requires MoonPhaseIcon(p) != "" && MoonPhaseIcon(p) == MoonPhaseIcon(q)
    ensures NormalizePhase(p) == NormalizePhase(q)
  {
  }

  // ---------------------------------------------------------------------------
  // Settings guard

  /** A coordinate option as stored: its text, and its value when
      `is_numeric` accepts the text. */
  datatype Setting = Numeric(text: string, value: real) | NotNumeric(text: string)

  datatype Settings = Settings(apiKey: string, lat: Setting, lon: Setting)

  datatype SgError =
    | NotConfigured            // key missing or coordinates not numeric
    | InvalidCoordinates       // latitude or longitude out of range
    | EndBeforeStart
    | RequestFailed(message: string)
    | ApiError(details: string)
    | InvalidResponse
    | NoValidFields

  predicate InRange(lat: real, lon: real) {
    -90.0 <= lat <= 90.0 && -180.0 <= lon <= 180.0
  }

  /** The two settings checks, in order: presence/numeric, then inclusive bounds. */
  function ConfigError(s: Settings): (r: Option<SgError>)
    ensures r == Some(NotConfigured) <==> IsEmpty(s.apiKey) || s.lat.NotNumeric? || s.lon.NotNumeric?
    ensures r == Some(InvalidCoordinates) <==>
      !IsEmpty(s.apiKey) && s.lat.Numeric? && s.lon.Numeric? && !InRange(s.lat.value, s.lon.value)
    ensures r == None <==>
      !IsEmpty(s.apiKey) && s.lat.Numeric? && s.lon.Numeric? && InRange(s.lat.value, s.lon.value)
  {
    if IsEmpty(s.apiKey) || !s.lat.Numeric? || !s.lon.Numeric? then Some(NotConfigured)
    else if s.lat.value < -90.0 || s.lat.value > 90.0 || s.lon.value < -180.0 || s.lon.value > 180.0 then
      Some(InvalidCoordinates)
    else None
  }

  // ---------------------------------------------------------------------------
  // Date range

  /** Shortcode attributes, with dates already parsed; `None` means the
      attribute was not given. */
  datatype Atts = Atts(start: Option<Date>, end: Option<Date>, fields: Option<string>)

  /** date('Y-m-d', strtotime(...)) always names a real calendar day. */
  predicate ParsedDates(atts: Atts) {
    (atts.start.Some? ==> ValidDate(atts.start.value))
    && (atts.end.Some? ==> ValidDate(atts.end.value))
  }

  /** shortcode_atts with the defaults date('Y-m-01') and date('Y-m-t') of today. */
  function ResolveRange(atts: Atts, today: Date): (r: (Date, Date))
    requires ValidDate(today) && ParsedDates(atts)
    ensures ValidDate(r.0) && ValidDate(r.1)
    ensures atts.start.Some? ==> r.0 == atts.start.value
    ensures atts.end.Some? ==> r.1 == atts.end.value
    ensures atts.start.None? ==> r.0 == Date(today.year, today.month, 1)
    ensures atts.end.None? ==> r.1 == Date(today.year, today.month, DaysInMonth(today.year, today.month))
    ensures atts.start.None? && atts.end.None? ==> !Before(r.1, r.0)
  {
    var start := if atts.start.Some? then atts.start.value else FirstOfMonth(today);
    var end := if atts.end.Some? then atts.end.value else LastOfMonth(today);
    (start, end)
  }

  // ---------------------------------------------------------------------------
  // Cache key

  const CachePrefix := "stormglass_astronomy_"

  /** The text hashed for the key: `$lat . ',' . $lon . '_' . $start . '_' . $end`. */
  function DigestInput(lat: string, lon: string, start: Date, end: Date): string {
    lat + "," + lon + "_" + IsoDate(start.year, start.month, start.day)
      + "_" + IsoDate(end.year, end.month, end.day)
  }

  /** 'stormglass_astronomy_' . md5(...): always under the plugin's prefix, and
      a function of the coordinates and dates only. */
  function CacheKey(md5: string -> string, lat: string, lon: string, start: Date, end: Date): (key: string)
    ensures |key| >= |CachePrefix| && key[..|CachePrefix|] == CachePrefix
    ensures key[|CachePrefix|..] == md5(DigestInput(lat, lon, start, end))
  {
    CachePrefix + md5(DigestInput(lat, lon, start, end))
  }

  predicate SmallDate(d: Date) {
    d.year < 10000 && d.month < 100 && d.day < 100
  }

  /** The hashed text determines the coordinates and the date range: two
      requests hash the same text only when they agree on all four. (Nothing
      is claimed about collisions of md5 itself.) */
  lemma DigestInputDeterminesRequest(lat1: string, lon1: string, s1: Date, e1: Date,
                                     lat2: string, lon2: string, s2: Date, e2: Date)
    requires ',' !in lat1 && ',' !in lat2
    requires SmallDate(s1) && SmallDate(e1) && SmallDate(s2) && SmallDate(e2)
    ensures DigestInput(lat1, lon1, s1, e1) == DigestInput(lat2, lon2, s2, e2) <==>
      lat1 == lat2 && lon1 == lon2 && s1 == s2 && e1 == e2
  {
    if DigestInput(lat1, lon1, s1, e1) == DigestInput(lat2, lon2, s2, e2) {
      var a1, b1 := IsoDate(s1.year, s1.month, s1.day), IsoDate(e1.year, e1.month, e1.day);
      var a2, b2 := IsoDate(s2.year, s2.month, s2.day), IsoDate(e2.year, e2.month, e2.day);
      var x1, x2 := lat1 + "," + lon1, lat2 + "," + lon2;
      SplitFixedTail(x1, a1, b1, x2, a2, b2);
      IsoDateInjective(s1, s2);
      IsoDateInjective(e1, e2);
      SplitAtSeparator(lat1, lon1, lat2, lon2, ',');
    }
  }

  lemma SplitFixedTail(x1: string, a1: string, b1: string, x2: string, a2: string, b2: string)
    requires |a1| == |a2| == |b1| == |b2|
    requires x1 + "_" + a1 + "_" + b1 == x2 + "_" + a2 + "_" + b2
    ensures x1 == x2 && a1 == a2 && b1 == b2
  {
    var t := x1 + "_" + a1 + "_" + b1;
    assert |x1| == |x2|;
    assert b1 == t[|t| - |b1|..] == b2;
    assert a1 == t[|x1| + 1..|x1| + 1 + |a1|] == a2;
    assert x1 == t[..|x1|] == x2;
  }

  // ---------------------------------------------------------------------------
  // Cache or fetch

  /** A day of the API's `data` array, with its timestamps already parsed. */
  datatype Stamp = Stamp(year: nat, month: nat, day: nat, hour: nat, minute: nat)

  datatype DayRow = DayRow(
    time: Option<Stamp>,
    sunrise: Option<Stamp>,
    sunset: Option<Stamp>,
    moonrise: Option<Stamp>,
    moonset: Option<Stamp>,
    phaseText: Option<string>)   // moonPhase.current.text

  /** The request the shortcode sends: coordinates, range and the Authorization key. */
  datatype SgRequest = SgRequest(apiKey: string, lat: string, lon: string, start: Date, end: Date)

  /** The decoded body: `data` missing, not an array, or the day rows. */
  datatype SgData = DataMissing | DataNotArray | DataRows(rows: seq<DayRow>)

  /** json_decode of the body: not a JSON object, or one with optional `errors` and `data`. */
  datatype SgJson = NotAnObject | Document(errors: Option<string>, data: SgData)

  datatype SgReply = TransportFailure(message: string) | Body(json: SgJson)

  /** The checks of a reply, in the shortcode's order: transport error, `errors`, `data` shape. */
  function ReadReply(reply: SgReply): (r: Result<seq<DayRow>, SgError>)
    ensures r.Ok? <==> reply.Body? && reply.json.Document? && reply.json.errors.None? && reply.json.data.DataRows?
    ensures r.Ok? ==> r.value == reply.json.data.rows
    ensures reply.TransportFailure? ==> r == Err(RequestFailed(reply.message))
    ensures reply.Body? && reply.json.Document? && reply.json.errors.Some? ==> r == Err(ApiError(reply.json.errors.value))
    ensures r.Err? ==> r.error.RequestFailed? || r.error.ApiError? || r.error == InvalidResponse
    ensures reply.Body? && !(reply.json.Document? && reply.json.errors.Some?) && r.Err? ==> r == Err(InvalidResponse)
  {
    match reply
    case TransportFailure(m) => Err(RequestFailed(m))
    case Body(json) =>
      if json.Document? && json.errors.Some? then Err(ApiError(json.errors.value))
      else if json.Document? && json.data.DataRows? then Ok(json.data.rows)
      else Err(InvalidResponse)
  }

  /** The outcome of the cache-or-fetch step: the data or error, the new
      store, and whether the endpoint was called. */
  datatype Lookup = Lookup(result: Result<seq<DayRow>, SgError>, store: map<string, seq<DayRow>>, fetched: bool)

  /** A hit answers from the store without a fetch; a miss fetches, and only a
      successful reply is stored, under the key, touching no other entry. */
  function CacheOrFetch(store: map<string, seq<DayRow>>, key: string, reply: SgReply): (r: Lookup)
    ensures key in store ==> r.result == Ok(store[key]) && r.store == store && !r.fetched
    ensures key !in store ==> r.fetched && r.result == ReadReply(reply)
    ensures r.result.Err? ==> r.store == store
    ensures r.result.Ok? ==> key in r.store && r.store[key] == r.result.value
    ensures r.store.Keys == store.Keys + (if r.result.Ok? then {key} else {})
    ensures forall k :: k in store && k != key ==> r.store[k] == store[k]
  {
    if key in store then Lookup(Ok(store[key]), store, false)
    else
      var result := ReadReply(reply);
      if result.Ok? then Lookup(result, store[key := result.value], true)
      else Lookup(result, store, true)
  }

  /** After a successful fetch, the same key is a hit returning the same data. */
  lemma RepeatLookupHits(store: map<string, seq<DayRow>>, key: string, reply: SgReply, later: SgReply)
    requires CacheOrFetch(store, key, reply).result.Ok?
    ensures var first := CacheOrFetch(store, key, reply);
      CacheOrFetch(first.store, key, later) == Lookup(first.result, first.store, false)
  {
  }

  // ---------------------------------------------------------------------------
  // Field selection

  datatype Field = DateField | Sunrise | Sunset | Moonrise | Moonset | MoonPhase

  /** $valid_fields, in its order. */
  const AllFields: seq<Field> := [DateField, Sunrise, Sunset, Moonrise, Moonset, MoonPhase]

  function FieldName(f: Field): (name: string)
    ensures |name| >= 4
  {
    match f
    case DateField => "date"
    case Sunrise => "sunrise"
    case Sunset => "sunset"
    case Moonrise => "moonrise"
    case Moonset => "moonset"
    case MoonPhase => "moonphase"
  }

  /** The field whose name is exactly `name`, if any. */
  function FieldNamed(name: string): (r: Option<Field>)
    ensures r.Some? ==> FieldName(r.value) == name
    ensures r.None? ==> forall f: Field :: FieldName(f) != name
  {
    if name == "date" then Some(DateField)
    else if name == "sunrise" then Some(Sunrise)
    else if name == "sunset" then Some(Sunset)
    else if name == "moonrise" then Some(Moonrise)
    else if name == "moonset" then Some(Moonset)
    else if name == "moonphase" then Some(MoonPhase)
    else None
  }

  /** array_intersect(array_map('trim', $pieces), $valid_fields): the trimmed
      pieces that name a field, in input order, duplicates kept. */
  function ValidFields(pieces: seq<string>): (r: seq<Field>)
    ensures |r| <= |pieces|
    ensures r == [] <==> NoneNamesAField(pieces)
    ensures forall f :: f in r ==> exists i :: 0 <= i < |pieces| && FieldNamed(Trim(pieces[i])) == Some(f)
  {
    if pieces == [] then []
    else
      var rest := ValidFields(pieces[1..]);
      assert forall i :: 1 <= i < |pieces| ==> pieces[i] == pieces[1..][i - 1];
      match FieldNamed(Trim(pieces[0]))
      case Some(f) => [f] + rest
      case None => rest
  }

  predicate NoneNamesAField(pieces: seq<string>) {
    forall i :: 0 <= i < |pieces| ==> FieldNamed(Trim(pieces[i])).None?
  }

  /** The `fields` attribute: exactly "all" selects every field in table order;
      anything else selects its valid comma-separated entries, or fails when
      there is none. */
  function SelectFields(raw: string): (r: Option<seq<Field>>)
    ensures raw == "all" ==> r == Some(AllFields)
    ensures r.Some? ==> |r.value| >= 1
    ensures r.None? <==> raw != "all" && NoneNamesAField(Explode(raw))
    ensures raw != "all" && r.Some? ==> r.value == ValidFields(Explode(raw))
  {
    if raw == "all" then Some(AllFields)
    else
      var fields := ValidFields(Explode(raw));
      if fields == [] then None else Some(fields)
  }

  function FieldNames(fs: seq<Field>): (r: seq<string>)
    ensures |r| == |fs|
    ensures forall i :: 0 <= i < |fs| ==> r[i] == FieldName(fs[i])
  {
    seq(|fs|, i requires 0 <= i < |fs| => FieldName(fs[i]))
  }

  /** A field's own name names that field. */
  lemma FieldNamedName(f: Field)
    ensures FieldNamed(FieldName(f)) == Some(f)
  {
  }

  /** Field names have no blanks at either end. */
  lemma FieldNameTrimmed(f: Field)
    ensures Trim(FieldName(f)) == FieldName(f)
  {
    var n := FieldName(f);
    assert !IsTrimmed(n[0]) && !IsTrimmed(n[|n| - 1]);
  }

  lemma {:induction false} ValidFieldsOfNames(fs: seq<Field>)
    ensures ValidFields(FieldNames(fs)) == fs
  {
    if fs != [] {
      var names := FieldNames(fs);
      assert names == [names[0]] + names[1..];
      assert [fs[0]] + fs[1..] == fs;
      assert names[1..] == FieldNames(fs[1..]);
      ValidFieldsOfNames(fs[1..]);
      FieldNameTrimmed(fs[0]);
      FieldNamedName(fs[0]);
      ValidFieldsCons(names[0], names[1..], fs[0]);
    }
  }

  lemma ValidFieldsCons(piece: string, pieces: seq<string>, f: Field)
    requires FieldNamed(Trim(piece)) == Some(f)
    ensures ValidFields([piece] + pieces) == [f] + ValidFields(pieces)
  {
    assert ([piece] + pieces)[1..] == pieces;
  }

  /** The selection of a list is the selection of its first part followed by
      that of the rest: pieces keep their order and their repetitions. */
  lemma {:induction false} ValidFieldsAppend(a: seq<string>, b: seq<string>)
    ensures ValidFields(a + b) == ValidFields(a) + ValidFields(b)
  {
    if a == [] {
      assert a + b == b;
    } else {
      var p, rest := a[0], a[1..];
      ValidFieldsAppend(rest, b);
      assert a == [p] + rest;
      AppendAssoc([p], rest, b);
      match FieldNamed(Trim(p))
      case Some(f) =>
        ValidFieldsCons(p, rest + b, f);
        ValidFieldsCons(p, rest, f);
        AppendAssoc([f], ValidFields(rest), ValidFields(b));
      case None =>
        ValidFieldsSkip(p, rest + b);
        ValidFieldsSkip(p, rest);
    }
  }

  lemma ValidFieldsSkip(piece: string, pieces: seq<string>)
    requires FieldNamed(Trim(piece)).None?
    ensures ValidFields([piece] + pieces) == ValidFields(pieces)
  {
    assert ([piece] + pieces)[1..] == pieces;
  }

  /** A single piece selects its field when its trimmed text names one, and nothing otherwise. */
  lemma ValidFieldsSingle(piece: string)
    ensures FieldNamed(Trim(piece)).Some? ==> ValidFields([piece]) == [FieldNamed(Trim(piece)).value]
    ensures FieldNamed(Trim(piece)).None? ==> ValidFields([piece]) == []
  {
    assert [piece][1..] == [];
  }

  /** A valid entry, an invalid one and another valid one, such as
      " date ,bogus,date", select the two valid fields in order. */
  lemma MixedFieldList(a: string, b: string, c: string, f: Field, g: Field)
    requires ',' !in a && ',' !in b && ',' !in c
    requires FieldNamed(Trim(a)) == Some(f) && FieldNamed(Trim(b)).None? && FieldNamed(Trim(c)) == Some(g)
    ensures SelectFields(a + "," + b + "," + c) == Some([f, g])
  {
    var raw := a + "," + b + "," + c;
    ExplodeThree(a, b, c);
    assert raw[|a|] == ',';
    assert raw != "all";
    ValidFieldsThree(a, b, c, f, g);
  }

  lemma ValidFieldsThree(a: string, b: string, c: string, f: Field, g: Field)
    requires FieldNamed(Trim(a)) == Some(f) && FieldNamed(Trim(b)).None? && FieldNamed(Trim(c)) == Some(g)
    ensures ValidFields([a, b, c]) == [f, g]
  {
    ThreeAsSingles(a, b, c);
    ValidFieldsAppend([a], [b] + [c]);
    ValidFieldsAppend([b], [c]);
    ValidFieldsSingle(a);
    ValidFieldsSingle(b);
    ValidFieldsSingle(c);
    PairOfSingles(f, g);
  }

  /** Writing a non-empty list of fields as "a,b,c" selects exactly that list,
      in that order and with its repetitions. */
  lemma SelectFieldsRoundTrip(fs: seq<Field>)
    requires |fs| >= 1
    ensures SelectFields(Implode(FieldNames(fs))) == Some(fs)
  {
    var names := FieldNames(fs);
    var raw := Implode(names);
    FieldNamesCommaFree(fs);
    ExplodeImplode(names);
    ValidFieldsOfNames(fs);
    assert |raw| >= |names[0]| >= 4;
    assert ValidFields(Explode(raw)) == fs;
  }

  lemma FieldNamesCommaFree(fs: seq<Field>)
    ensures forall i :: 0 <= i < |fs| ==> ',' !in FieldNames(fs)[i]
  {
    forall i | 0 <= i < |fs|
      ensures ',' !in FieldNames(fs)[i]
    {
      FieldNameCommaFree(fs[i]);
    }
  }

  lemma FieldNameCommaFree(f: Field)
    ensures ',' !in FieldName(f)
  {
    match f
    case DateField => assert "date" == ['d', 'a', 't', 'e'];
    case Sunrise => assert "sunrise" == ['s', 'u', 'n', 'r', 'i', 's', 'e'];
    case Sunset => assert "sunset" == ['s', 'u', 'n', 's', 'e', 't'];
    case Moonrise => assert "moonrise" == ['m', 'o', 'o', 'n', 'r', 'i', 's', 'e'];
    case Moonset => assert "moonset" == ['m', 'o', 'o', 'n', 's', 'e', 't'];
    case MoonPhase => assert "moonphase" == ['m', 'o', 'o', 'n', 'p', 'h', 'a', 's', 'e'];
  }

  // ---------------------------------------------------------------------------
  // Table

  /** ucfirst(str_replace('moonphase', 'moon phase', $field)): a capitalised label. */
  function HeaderLabel(f: Field): (heading: string)
    ensures |heading| >= 4 && IsUpperAscii(heading[0])
  {
    UcFirst(HeadingText(f))
  }

  /** The field name after str_replace('moonphase', 'moon phase', ...). */
  function HeadingText(f: Field): string {
    if f == MoonPhase then "moon phase" else FieldName(f)
  }

  /** A header label, lower-cased and without spaces, is its field's own name. */
  lemma HeaderLabelNamesField(f: Field)
    ensures NormalizePhase(HeaderLabel(f)) == FieldName(f)
  {
    NormalizeUcFirst(HeadingText(f));
    if f == MoonPhase {
      MoonPhaseHeadingNormal();
    } else {
      FieldNameNormal(f);
    }
  }

  /** Capitalising the first letter does not change the normal form. */
  lemma NormalizeUcFirst(text: string)
    ensures NormalizePhase(UcFirst(text)) == NormalizePhase(text)
  {
    LowerOfUcFirst(text);
    RemoveSpacesToLower(UcFirst(text));
    RemoveSpacesToLower(text);
  }

  lemma MoonPhaseHeadingNormal()
    ensures NormalizePhase("moon phase") == "moonphase"
  {
    NormalizeDropsSpace("moon", "phase");
    assert "moon" + " " + "phase" == "moon phase" && "moon" + "phase" == "moonphase";
    FieldNameNormal(MoonPhase);
  }

  lemma FieldNameNormal(f: Field)
    ensures NormalizePhase(FieldName(f)) == FieldName(f)
  {
    match f
    case DateField => NormalFormUnchanged("date");
    case Sunrise => NormalFormUnchanged("sunrise");
    case Sunset => NormalFormUnchanged("sunset");
    case Moonrise => NormalFormUnchanged("moonrise");
    case Moonset => NormalFormUnchanged("moonset");
    case MoonPhase => NormalFormUnchanged("moonphase");
  }

  /** A time cell: date('H:i') of the timestamp, or "-" when it is absent. */
  function TimeValue(t: Option<Stamp>): (v: string)
    ensures t.None? <==> v == "-"
    ensures t.Some? && t.value.hour < 24 && t.value.minute < 60 ==> |v| == 5 && v[2] == ':'
  {
    if t.Some? then HourMinute(t.value.hour, t.value.minute) else "-"
  }

  /** The date cell: date('d/m/Y') of `time`, or "-" when it is absent. */
  function DateValue(t: Option<Stamp>): (v: string)
    ensures t.None? <==> v == "-"
    ensures t.Some? && SmallStamp(t.value) ==> |v| == 10 && v[2] == '/' && v[5] == '/'
  {
    if t.Some? then DayMonthYear(t.value.year, t.value.month, t.value.day) else "-"
  }

  predicate SmallStamp(s: Stamp) {
    s.year < 10000 && s.month < 100 && s.day < 100
  }

  /** The moon phase cell: icon, a space and the capitalised text when the text
      names a phase; the capitalised text alone otherwise; "-" when absent. */
  function PhaseValue(text: Option<string>): (v: string)
    ensures text.None? ==> v == "-"
    ensures text.Some? && NormalizePhase(text.value) in PhaseKeys ==>
      v == MoonPhaseIcon(text.value) + " " + UcFirst(text.value)
    ensures text.Some? && NormalizePhase(text.value) !in PhaseKeys ==> v == UcFirst(text.value)
  {
    var phaseText := if text.Some? then UcFirst(text.value) else "-";
    var icon := MoonPhaseIcon(if text.Some? then text.value else "");
    if icon != "" then icon + " " + phaseText else phaseText
  }

  /** The value of one cell of one row (the `switch ($field)`): "-" exactly
      where the row lacks the date or time the field shows, and always for a
      missing phase text. */
  function CellValue(row: DayRow, f: Field): (v: string)
    ensures f == DateField ==> (v == "-" <==> row.time.None?)
    ensures f == Sunrise ==> (v == "-" <==> row.sunrise.None?)
    ensures f == Sunset ==> (v == "-" <==> row.sunset.None?)
    ensures f == Moonrise ==> (v == "-" <==> row.moonrise.None?)
    ensures f == Moonset ==> (v == "-" <==> row.moonset.None?)
    ensures f == MoonPhase && row.phaseText.None? ==> v == "-"
    ensures f == DateField && row.time.Some? ==>
      var t := row.time.value; v == DayMonthYear(t.year, t.month, t.day)
    ensures f == Sunrise && row.sunrise.Some? ==> v == HourMinute(row.sunrise.value.hour, row.sunrise.value.minute)
    ensures f == Sunset && row.sunset.Some? ==> v == HourMinute(row.sunset.value.hour, row.sunset.value.minute)
    ensures f == Moonrise && row.moonrise.Some? ==> v == HourMinute(row.moonrise.value.hour, row.moonrise.value.minute)
    ensures f == Moonset && row.moonset.Some? ==> v == HourMinute(row.moonset.value.hour, row.moonset.value.minute)
    ensures f == MoonPhase && row.phaseText.Some? ==>
      v == (if MoonPhaseIcon(row.phaseText.value) != "" then MoonPhaseIcon(row.phaseText.value) + " " else "")
           + UcFirst(row.phaseText.value)
  {
    match f
    case DateField => DateValue(row.time)
    case Sunrise => TimeValue(row.sunrise)
    case Sunset => TimeValue(row.sunset)
    case Moonrise => TimeValue(row.moonrise)
    case Moonset => TimeValue(row.moonset)
    case MoonPhase => PhaseValue(row.phaseText)
  }

  function CellClass(f: Field): string {
    if f == MoonPhase then "moon-phase" else ""
  }

  datatype Cell = Cell(cls: string, value: string)

  /** One cell per selected field, in selection order. */
  function RowCells(row: DayRow, fields: seq<Field>): (cells: seq<Cell>)
    ensures |cells| == |fields|
    ensures forall i :: 0 <= i < |fields| ==> cells[i] == Cell(CellClass(fields[i]), CellValue(row, fields[i]))
  {
    seq(|fields|, i requires 0 <= i < |fields| => Cell(CellClass(fields[i]), CellValue(row, fields[i])))
  }

  /** A row's cells hold "-" exactly where the row lacks the selected value. */
  lemma AbsentValuesRenderDash(row: DayRow, fields: seq<Field>, i: nat)
    requires i < |fields|
    ensures var c := RowCells(row, fields)[i];
      (fields[i] == DateField ==> (c.value == "-" <==> row.time.None?))
      && (fields[i] == Sunrise ==> (c.value == "-" <==> row.sunrise.None?))
      && (fields[i] == Sunset ==> (c.value == "-" <==> row.sunset.None?))
      && (fields[i] == Moonrise ==> (c.value == "-" <==> row.moonrise.None?))
      && (fields[i] == Moonset ==> (c.value == "-" <==> row.moonset.None?))
      && (fields[i] == MoonPhase && row.phaseText.None? ==> c.value == "-")
      && (c.cls == "moon-phase" <==> fields[i] == MoonPhase)
  {
  }

  /** A present value shows in its own field's cell: each time cell decodes to
      the hour and minute of that field's timestamp, the date cell to the day,
      month and year of `time`, and the phase cell carries the phase's icon. */
  lemma PresentValuesRender(row: DayRow, fields: seq<Field>, i: nat)
    requires i < |fields|
    ensures var c := RowCells(row, fields)[i];
      (fields[i] == Sunrise && row.sunrise.Some? && ClockStamp(row.sunrise.value) ==> ShowsTime(c.value, row.sunrise.value))
      && (fields[i] == Sunset && row.sunset.Some? && ClockStamp(row.sunset.value) ==> ShowsTime(c.value, row.sunset.value))
      && (fields[i] == Moonrise && row.moonrise.Some? && ClockStamp(row.moonrise.value) ==> ShowsTime(c.value, row.moonrise.value))
      && (fields[i] == Moonset && row.moonset.Some? && ClockStamp(row.moonset.value) ==> ShowsTime(c.value, row.moonset.value))
      && (fields[i] == DateField && row.time.Some? && SmallStamp(row.time.value) ==> ShowsDate(c.value, row.time.value))
      && (fields[i] == MoonPhase && row.phaseText.Some? && MoonPhaseIcon(row.phaseText.value) != "" ==>
            c.value[..|MoonPhaseIcon(row.phaseText.value)|] == MoonPhaseIcon(row.phaseText.value))
  {
    var c := RowCells(row, fields)[i];
    match fields[i]
    case Sunrise => if row.sunrise.Some? && ClockStamp(row.sunrise.value) { TimeValueDecodes(row.sunrise.value); }
    case Sunset => if row.sunset.Some? && ClockStamp(row.sunset.value) { TimeValueDecodes(row.sunset.value); }
    case Moonrise => if row.moonrise.Some? && ClockStamp(row.moonrise.value) { TimeValueDecodes(row.moonrise.value); }
    case Moonset => if row.moonset.Some? && ClockStamp(row.moonset.value) { TimeValueDecodes(row.moonset.value); }
    case DateField => if row.time.Some? && SmallStamp(row.time.value) { DateValueDecodes(row.time.value); }
    case MoonPhase =>
  }

  predicate ClockStamp(t: Stamp) {
    t.hour < 24 && t.minute < 60
  }

  /** `v` is an `H:i` text reading back as the hour and minute of `t`. */
  predicate ShowsTime(v: string, t: Stamp) {
    |v| == 5 && AllDigits(v[..2]) && AllDigits(v[3..])
    && DigitsValue(v[..2]) == t.hour && DigitsValue(v[3..]) == t.minute
  }

  /** `v` is a `d/m/Y` text reading back as the day, month and year of `t`. */
  predicate ShowsDate(v: string, t: Stamp) {
    |v| == 10 && AllDigits(v[..2]) && AllDigits(v[3..5]) && AllDigits(v[6..])
    && DigitsValue(v[..2]) == t.day && DigitsValue(v[3..5]) == t.month && DigitsValue(v[6..]) == t.year
  }

  /** A time cell decodes back to the hour and minute of its timestamp. */
  lemma TimeValueDecodes(t: Stamp)
    requires t.hour < 24 && t.minute < 60
    ensures var v := TimeValue(Some(t));
      AllDigits(v[..2]) && AllDigits(v[3..]) && DigitsValue(v[..2]) == t.hour && DigitsValue(v[3..]) == t.minute
  {
    HourMinuteDecodes(t.hour, t.minute);
  }

  /** The date cell decodes back to the day, month and year of `time`. */
  lemma DateValueDecodes(t: Stamp)
    requires SmallStamp(t)
    ensures var v := DateValue(Some(t));
      AllDigits(v[..2]) && AllDigits(v[3..5]) && AllDigits(v[6..])
      && DigitsValue(v[..2]) == t.day && DigitsValue(v[3..5]) == t.month && DigitsValue(v[6..]) == t.year
  {
    DayMonthYearDecodes(t.year, t.month, t.day);
  }

  // HTML text of the table

  const TableOpen := "<table class=\"stormglass-astronomy-table\"><thead><tr>"
  const HeadClose := "</tr></thead><tbody>"
  const TableClose := "</tbody></table>"

  function HeaderCellHtml(f: Field): string {
    "<th>" + HeaderLabel(f) + "</th>"
  }

  /** The `<th>` element of each selected field, in selection order. */
  function HeaderCells(fields: seq<Field>): (ths: seq<string>)
    ensures |ths| == |fields|
    ensures forall i :: 0 <= i < |fields| ==> ths[i] == HeaderCellHtml(fields[i])
  {
    seq(|fields|, i requires 0 <= i < |fields| => HeaderCellHtml(fields[i]))
  }

  function HeaderCellsHtml(fields: seq<Field>): string {
    if fields == [] then "" else HeaderCellsHtml(fields[..|fields| - 1]) + HeaderCellHtml(fields[|fields| - 1])
  }

  /** The header row holds one `<th>` per selected field, in order. */
  lemma {:induction false} HeaderCellsOnePerField(fields: seq<Field>)
    ensures HeaderCellsHtml(fields) == Concat(HeaderCells(fields))
  {
    if fields != [] {
      var n := |fields| - 1;
      assert HeaderCells(fields)[..n] == HeaderCells(fields[..n]);
      HeaderCellsOnePerField(fields[..n]);
    }
  }

  function CellHtml(c: Cell): string {
    "<td class=\"" + c.cls + "\">" + c.value + "</td>"
  }

  function CellTexts(cells: seq<Cell>): (tds: seq<string>)
    ensures |tds| == |cells|
    ensures forall i :: 0 <= i < |cells| ==> tds[i] == CellHtml(cells[i])
  {
    seq(|cells|, i requires 0 <= i < |cells| => CellHtml(cells[i]))
  }

  function CellsHtml(cells: seq<Cell>): string {
    if cells == [] then "" else CellsHtml(cells[..|cells| - 1]) + CellHtml(cells[|cells| - 1])
  }

  /** A row holds one `<td>` per cell, in order. */
  lemma {:induction false} CellsOnePerCell(cells: seq<Cell>)
    ensures CellsHtml(cells) == Concat(CellTexts(cells))
  {
    if cells != [] {
      var n := |cells| - 1;
      assert CellTexts(cells)[..n] == CellTexts(cells[..n]);
      CellsOnePerCell(cells[..n]);
    }
  }

  function RowHtml(row: DayRow, fields: seq<Field>): string {
    "<tr>" + CellsHtml(RowCells(row, fields)) + "</tr>"
  }

  function RowTexts(rows: seq<DayRow>, fields: seq<Field>): (trs: seq<string>)
    ensures |trs| == |rows|
    ensures forall i :: 0 <= i < |rows| ==> trs[i] == RowHtml(rows[i], fields)
  {
    seq(|rows|, i requires 0 <= i < |rows| => RowHtml(rows[i], fields))
  }

  function RowsHtml(rows: seq<DayRow>, fields: seq<Field>): string {
    if rows == [] then "" else RowsHtml(rows[..|rows| - 1], fields) + RowHtml(rows[|rows| - 1], fields)
  }

  /** The body holds one `<tr>` per day, in order. */
  lemma {:induction false} RowsOnePerDay(rows: seq<DayRow>, fields: seq<Field>)
    ensures RowsHtml(rows, fields) == Concat(RowTexts(rows, fields))
  {
    if rows != [] {
      var n := |rows| - 1;
      assert RowTexts(rows, fields)[..n] == RowTexts(rows[..n], fields);
      RowsOnePerDay(rows[..n], fields);
    }
  }

  /** The whole table: the opening tags, a `<th>` per selected field, then a
      `<tr>` per day holding a `<td>` per selected field, then the closing tags. */
  function TableHtml(fields: seq<Field>, rows: seq<DayRow>): (html: string)
    ensures html == TableOpen + Concat(HeaderCells(fields)) + HeadClose + Concat(RowTexts(rows, fields)) + TableClose
  {
    HeaderCellsOnePerField(fields);
    RowsOnePerDay(rows, fields);
    TableOpen + HeaderCellsHtml(fields) + HeadClose + RowsHtml(rows, fields) + TableClose
  }

  lemma HeaderCellsStep(fields: seq<Field>, i: nat)
    requires i < |fields|
    ensures HeaderCellsHtml(fields[..i + 1]) == HeaderCellsHtml(fields[..i]) + HeaderCellHtml(fields[i])
  {
    assert fields[..i + 1][..i] == fields[..i];
  }

  lemma CellsStep(row: DayRow, fields: seq<Field>, j: nat)
    requires j < |fields|
    ensures CellsHtml(RowCells(row, fields[..j + 1]))
      == CellsHtml(RowCells(row, fields[..j])) + CellHtml(Cell(CellClass(fields[j]), CellValue(row, fields[j])))
  {
    var cells := RowCells(row, fields[..j + 1]);
    assert cells[..j] == RowCells(row, fields[..j]);
  }

  lemma RowsStep(rows: seq<DayRow>, fields: seq<Field>, r: nat)
    requires r < |rows|
    ensures RowsHtml(rows[..r + 1], fields) == RowsHtml(rows[..r], fields) + RowHtml(rows[r], fields)
  {
    assert rows[..r + 1][..r] == rows[..r];
  }

  /** The shortcode's `$output .= …` loops: a header cell per field, then for
      each day a row with a cell per field. */
  method BuildTable(fields: seq<Field>, rows: seq<DayRow>) returns (output: string)
    ensures output == TableHtml(fields, rows)
  {
    output := TableOpen;
    for i := 0 to |fields|
      invariant output == TableOpen + HeaderCellsHtml(fields[..i])
    {
      var th := "<th>" + HeaderLabel(fields[i]) + "</th>";
      HeaderCellsStep(fields, i);
      AppendAssoc(TableOpen, HeaderCellsHtml(fields[..i]), th);
      output := output + th;
    }
    assert fields[..|fields|] == fields;
    output := output + HeadClose;
    ghost var head := output;
    for r := 0 to |rows|
      invariant output == head + RowsHtml(rows[..r], fields)
    {
      var row := rows[r];
      var tr := "<tr>";
      for j := 0 to |fields|
        invariant tr == "<tr>" + CellsHtml(RowCells(row, fields[..j]))
      {
        var field := fields[j];
        var value := CellValue(row, field);
        var cls := if field == MoonPhase then "moon-phase" else "";
        CellsStep(row, fields, j);
        AppendAssoc("<tr>", CellsHtml(RowCells(row, fields[..j])), CellHtml(Cell(cls, value)));
        tr := tr + ("<td class=\"" + cls + "\">" + value + "</td>");
      }
      assert fields[..|fields|] == fields;
      RowsStep(rows, fields, r);
      AppendAssoc(head, RowsHtml(rows[..r], fields), RowHtml(row, fields));
      output := output + (tr + "</tr>");
    }
    assert rows[..|rows|] == rows;
    output := output + TableClose;
  }

  // ---------------------------------------------------------------------------
  // The shortcode

  datatype Output = Table(html: string) | ErrorBox(error: SgError)

  /** The site: its transient store, the calls made to the endpoint, and the
      two foreign functions the shortcode uses. */
  class Site {
    var transients: map<string, seq<DayRow>>
    var requests: seq<SgRequest>
    const api: SgRequest -> SgReply
    const md5: string -> string

    constructor (api: SgRequest -> SgReply, md5: string -> string, transients: map<string, seq<DayRow>>)
      ensures this.api == api && this.md5 == md5
      ensures this.transients == transients && requests == []
    {
      this.api := api;
      this.md5 := md5;
      this.transients := transients;
      requests := [];
    }

    /** get_transient, and on a miss wp_remote_get, the reply checks and set_transient. */
    method FetchCached(key: string, req: SgRequest) returns (result: Result<seq<DayRow>, SgError>)
      modifies this
      ensures var l := CacheOrFetch(old(transients), key, api(req));
        result == l.result && transients == l.store
        && requests == old(requests) + (if l.fetched then [req] else [])
    {
      if key in transients {
        result := Ok(transients[key]);
        return;
      }
      requests := requests + [req];
      var reply := api(req);
      if reply.TransportFailure? {
        result := Err(RequestFailed(reply.message));
        return;
      }
      var json := reply.json;
      if json.Document? && json.errors.Some? {
        result := Err(ApiError(json.errors.value));
        return;
      }
      if !(json.Document? && json.data.DataRows?) {
        result := Err(InvalidResponse);
        return;
      }
      result := Ok(json.data.rows);
      transients := transients[key := json.data.rows];
    }

    /** The shortcode: guards, cache key, cache-or-fetch, field selection, table. */
    method Shortcode(settings: Settings, atts: Atts, today: Date) returns (out: Output)
      requires ValidDate(today) && ParsedDates(atts)
      modifies this
      ensures ConfigError(settings).Some? ==>
        out == ErrorBox(ConfigError(settings).value)
        && transients == old(transients) && requests == old(requests)
      ensures var (start, end) := ResolveRange(atts, today);
        ConfigError(settings).None? && Before(end, start) ==>
        out == ErrorBox(EndBeforeStart) && transients == old(transients) && requests == old(requests)
      ensures var (start, end) := ResolveRange(atts, today);
        var req := SgRequest(settings.apiKey, settings.lat.text, settings.lon.text, start, end);
        var l := CacheOrFetch(old(transients), CacheKey(md5, settings.lat.text, settings.lon.text, start, end), api(req));
        var fields := SelectFields(if atts.fields.Some? then atts.fields.value else "all");
        ConfigError(settings).None? && !Before(end, start) ==>
        transients == l.store
        && requests == old(requests) + (if l.fetched then [req] else [])
        && out == (if l.result.Err? then ErrorBox(l.result.error)
                   else if fields.None? then ErrorBox(NoValidFields)
                   else Table(TableHtml(fields.value, l.result.value)))
    {
      var cfg := ConfigError(settings);
      if cfg.Some? {
        return ErrorBox(cfg.value);
      }
      var (start, end) := ResolveRange(atts, today);
      if Before(end, start) {
        return ErrorBox(EndBeforeStart);
      }
      var lat, lon := settings.lat.text, settings.lon.text;
      var key := CacheKey(md5, lat, lon, start, end);
      var data := FetchCached(key, SgRequest(settings.apiKey, lat, lon, start, end));
      if data.Err? {
        return ErrorBox(data.error);
      }
      var fields := SelectFields(if atts.fields.Some? then atts.fields.value else "all");
      if fields.None? {
        return ErrorBox(NoValidFields);
      }
      var html := BuildTable(fields.value, data.value);
      out := Table(html);
    }
  }
}
