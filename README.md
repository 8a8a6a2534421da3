# Astronomy table plugins, modelled in Dafny

Two WordPress plugins fetch daily astronomy data (sunrise, sunset, moonrise,
moonset, moon phase) from a web API, cache it in WordPress transients and
print it as an HTML table from a shortcode.

The model has five modules. They are meant to be verified together.

- `Wrappers` (`wrappers.dfy`): `Option` and `Result`. These stand in for the
  `false`/`null` returns and the error strings of the plugins.
- `PhpText` (`php_text.dfy`): the PHP string built-ins the plugins use, with
  their round trips:
  - `empty()` on a string;
  - `strtolower` and `ucfirst`, ASCII only as in PHP 8.2 and later;
  - `str_replace` of spaces, and of `.`/`,` by `_`;
  - `trim`;
  - `explode` on `,`;
  - integer to decimal text, and `sprintf('%0Nd')`.

  Neither plugin calls `strtoupper` or `implode`. The module defines them
  only to state properties: that the icon lookup ignores case, and that
  `explode` round-trips.
- `Calendar` (`calendar.dfy`): the Gregorian `cal_days_in_month`, dates, and
  the `Y-m-d`, `d/m/Y` and `H:i` formats, each proved to decode back to its
  numbers.
- `Stormglass` (`stormglass.dfy`): the `[stormglass_astronomy]` shortcode:
  - the moon-phase icon lookup, which normalises case and spaces;
  - the settings and date-range guards;
  - the md5 cache key;
  - cache-or-fetch against the endpoint;
  - the `fields` attribute;
  - the table, built cell by cell in nested loops.

  A `Site` object holds the transient store, as a map, and the log of
  requests sent.
- `WeatherApi` (`weatherapi.dfy`): the WeatherAPI.com plugin:
  - the day fetcher and its `empty()` guard;
  - the month assembled day by day under the transient key;
  - the cache hit;
  - the table, with exact-match phase icons and the placeholder row that
    spans 6 columns.

  A `Site` object holds the store and the request log.

Each state-changing method is proved against a pure specification function.
The properties are lemmas about those functions:
- `Site.Shortcode` and `Site.FetchCached` against `CacheOrFetch`, `SelectFields` and `TableHtml`;
- `Site.GetMonthlyAstronomyData` against `MonthlyData`;
- `Site.BuildTable` against `TableHtml`.

The clock and the site options are parameters. The HTTP endpoint and `md5` are
constant functions of the `Site` object. JSON replies arrive already decoded,
as datatypes.

Behaviour of the code the model keeps:
- The Stormglass shortcode takes only `start`, `end` and `fields`.
- When only `start` is given, `end` is the last day of the current month.
  When only `end` is given, `start` is the first day of the current month.
- The Stormglass cache key hashes the coordinates and the two dates. The
  `fields` attribute is not part of it.
- The `fields` list is read in input order, and a field named twice gets
  two columns. The list is read after the fetch and the caching, so an
  invalid list still fills the cache.
- Stormglass rows have no placeholder: each absent value prints `-`.
- The WeatherAPI placeholder cell always spans 6 columns.
- The WeatherAPI icon lookup is exact and case-sensitive. The Stormglass one
  lower-cases and removes spaces first.

Both plugins write their eight moon icons as garbled text, not as emoji.
Each icon is the UTF-8 encoding of a moon emoji (U+1F311 to U+1F318), read
as Windows-1252 and saved again as UTF-8. A page therefore shows four
characters per icon, such as "ðŸŒ‘" (U+00F0 U+0178 U+0152 U+2018) for the
new moon. The model uses exactly these four-character strings. Each plugin
keeps its own table, as the two source files do.

## Model

| member | source | states |
|---|---|---|
| PhpText.ToLower | Stormglass-Astronomy-Monthly.php:98 | strtolower keeps the length of the text |
| PhpText.RemoveSpaces | Stormglass-Astronomy-Monthly.php:98 | str_replace(' ', '') leaves no space and never lengthens the text |
| PhpText.RemoveSpacesAppend | Stormglass-Astronomy-Monthly.php:98 | removing spaces distributes over concatenation |
| PhpText.RemoveSpacesToLower | Stormglass-Astronomy-Monthly.php:98 | removing spaces commutes with lower-casing |
| PhpText.RemoveSpacesToUpper | Stormglass-Astronomy-Monthly.php:98 | removing spaces commutes with upper-casing |
| PhpText.LowerOfUpper | Stormglass-Astronomy-Monthly.php:98 | lower-casing an upper-cased text equals lower-casing the original |
| PhpText.LowerOfLower | Stormglass-Astronomy-Monthly.php:98 | strtolower is idempotent |
| PhpText.UcFirst | Stormglass-Astronomy-Monthly.php:188 | ucfirst upper-cases the first character only and keeps the rest and the length |
| PhpText.DotsAndCommasToUnderscores | weatherapi-astronomy.php:203-204 | every '.' and ',' becomes '_' and every other character is kept, so none of '.' or ',' remains |
| PhpText.Trim | Stormglass-Astronomy-Monthly.php:175 | trim yields a contiguous piece of the input with no blank at either end; every character removed before or after it is one of " \t\n\r\0\x0B"; the input itself when it has no blank at either end |
| PhpText.TrimPadded | Stormglass-Astronomy-Monthly.php:175 | blanks around a text that neither starts nor ends with one are removed and nothing else: trim(" date ") is "date" |
| PhpText.ExplodeThree | Stormglass-Astronomy-Monthly.php:175 | three comma-free pieces joined by commas split back into those three pieces |
| PhpText.Explode | Stormglass-Astronomy-Monthly.php:175 | explode(',') yields at least one piece and no piece holds a comma |
| PhpText.ImplodeExplode | Stormglass-Astronomy-Monthly.php:175 | joining the pieces of explode with commas gives back the input |
| PhpText.ExplodeImplode | Stormglass-Astronomy-Monthly.php:175 | splitting comma-free pieces joined by commas gives back the pieces |
| PhpText.Decimal | weatherapi-astronomy.php:205 | an integer's text is a non-empty run of digits |
| PhpText.DecimalRoundTrip | weatherapi-astronomy.php:205 | an integer's decimal text reads back as that integer |
| PhpText.DecimalInjective | weatherapi-astronomy.php:205 | distinct integers have distinct decimal texts |
| PhpText.ZeroPad | weatherapi-astronomy.php:218 | sprintf('%0Nd') is all digits and at least N wide |
| PhpText.ZeroPadRoundTrip | weatherapi-astronomy.php:218 | a zero-padded number reads back as that number |
| PhpText.ZeroPadWidth | weatherapi-astronomy.php:218 | a number below 10^N is padded to exactly N digits |
| PhpText.ZeroPadInjective | weatherapi-astronomy.php:218 | distinct numbers have distinct padded texts |
| PhpText.SplitAtSeparator | weatherapi-astronomy.php:205 | a text split at the first occurrence of a separator absent from its first part splits uniquely |
| Calendar.DaysInMonth | weatherapi-astronomy.php:215 | cal_days_in_month is 28..31, and is 29 exactly for February of a leap year and 28 exactly for February otherwise |
| Calendar.MonthLengthsMatchDayOfYear | weatherapi-astronomy.php:215 | month lengths agree with the cumulative day-of-year table and add up to 365 or 366 |
| Calendar.FirstOfMonth | Stormglass-Astronomy-Monthly.php:117 | date('Y-m-01') is a valid date of the same month, day 1, not after today |
| Calendar.LastOfMonth | Stormglass-Astronomy-Monthly.php:118 | date('Y-m-t') is a valid date of the same month, not before any day of that month |
| Calendar.IsoDate | weatherapi-astronomy.php:218 | the `Y-m-d` text of a four-digit year is ten characters with dashes at 4 and 7 |
| Calendar.IsoDateDecodes | weatherapi-astronomy.php:218 | the `Y-m-d` text decodes back to its year, month and day |
| Calendar.IsoDateInjective | Stormglass-Astronomy-Monthly.php:133-134 | distinct dates have distinct `Y-m-d` texts |
| Calendar.IsoDateDayInjective | weatherapi-astronomy.php:218 | within a month, distinct days have distinct keys |
| Calendar.DayMonthYear | Stormglass-Astronomy-Monthly.php:198 | date('d/m/Y') is ten characters with slashes at 2 and 5 |
| Calendar.DayMonthYearDecodes | Stormglass-Astronomy-Monthly.php:198 | the `d/m/Y` text decodes back to its day, month and year |
| Calendar.HourMinute | Stormglass-Astronomy-Monthly.php:201 | date('H:i') is five characters with a colon at 2 |
| Calendar.HourMinuteDecodes | Stormglass-Astronomy-Monthly.php:201 | the `H:i` text decodes back to its hour and minute |
| Stormglass.IconOfKey | Stormglass-Astronomy-Monthly.php:99-111 | the icon table gives an icon exactly for its eight keys and '' otherwise |
| Stormglass.MoonPhaseIcon | Stormglass-Astronomy-Monthly.php:96-111 | a phase gets an icon exactly when its lower-cased, space-free form is one of the eight keys |
| Stormglass.MoonPhaseIconIgnoresCase | Stormglass-Astronomy-Monthly.php:98 | upper- or lower-casing a phase does not change its icon |
| Stormglass.MoonPhaseIconIgnoresSpaces | Stormglass-Astronomy-Monthly.php:98 | inserting a space anywhere does not change the icon |
| Stormglass.NormalFormUnchanged | Stormglass-Astronomy-Monthly.php:98 | a lower-case text without spaces is its own normal form |
| Stormglass.FullMoonSpellings | Stormglass-Astronomy-Monthly.php:96-111 | "fullmoon", and any spacing of it in lower or upper case such as "full moon" or "FULL MOON", gives the full-moon icon |
| Stormglass.MoonPhaseIconIdentifiesPhase | Stormglass-Astronomy-Monthly.php:99-108 | the eight icons are distinct, so equal icons mean equal normalised phases |
| Stormglass.ConfigError | Stormglass-Astronomy-Monthly.php:126-131 | a missing key or non-numeric coordinate is reported first; otherwise an out-of-range coordinate, with inclusive bounds; both directions stated |
| Stormglass.ResolveRange | Stormglass-Astronomy-Monthly.php:116-120 | given dates (always real days once parsed) are kept; missing ones default to the first and last day of the current month, which are in order; both ends are real days |
| Stormglass.CacheKey | Stormglass-Astronomy-Monthly.php:141 | the key is the plugin prefix followed by md5 of coordinates and dates, and nothing else |
| Stormglass.DigestInputDeterminesRequest | Stormglass-Astronomy-Monthly.php:141 | for a comma-free latitude and four-digit years, two hashed texts are equal exactly when latitude, longitude, start and end all agree (md5 itself is not claimed collision-free) |
| Stormglass.ReadReply | Stormglass-Astronomy-Monthly.php:155-169 | a transport error, then `errors`, then a missing or non-array `data` are errors in that order; the last is exactly `InvalidResponse` ("Invalid API response."); otherwise the rows |
| Stormglass.CacheOrFetch | Stormglass-Astronomy-Monthly.php:144-173 | a hit returns the stored rows without fetching; a miss fetches; only successful data is stored, under the key, and no other entry changes |
| Stormglass.RepeatLookupHits | Stormglass-Astronomy-Monthly.php:144-173 | after a successful fetch the same key is a hit returning the same rows |
| Stormglass.FieldNamed | Stormglass-Astronomy-Monthly.php:176 | a name finds the field with exactly that name, and nothing when no field has it |
| Stormglass.ValidFields | Stormglass-Astronomy-Monthly.php:178 | the trimmed pieces that name fields, never more than the pieces, empty exactly when no piece names one, each taken from some piece |
| Stormglass.ValidFieldsAppend | Stormglass-Astronomy-Monthly.php:175-178 | the selection of a list is the selection of its first part followed by that of the rest, so input order and repetitions are kept |
| Stormglass.ValidFieldsSingle | Stormglass-Astronomy-Monthly.php:175-178 | one piece selects its field when its trimmed text names one, and nothing otherwise |
| Stormglass.SelectFields | Stormglass-Astronomy-Monthly.php:175-184 | "all" selects the six fields in table order; any other text selects `ValidFields` of its comma-separated pieces, failing exactly when that is empty |
| Stormglass.MixedFieldList | Stormglass-Astronomy-Monthly.php:175-181 | a valid entry, an invalid one and a valid one, such as " date ,bogus,date", select the two valid fields in order, repeats kept |
| Stormglass.ValidFieldsOfNames | Stormglass-Astronomy-Monthly.php:175-178 | a list of field names selects exactly those fields, in order and with duplicates |
| Stormglass.SelectFieldsRoundTrip | Stormglass-Astronomy-Monthly.php:175-181 | "a,b,c" written from a non-empty field list selects that list |
| Stormglass.HeaderLabel | Stormglass-Astronomy-Monthly.php:188 | a header label is at least four characters and starts with a capital letter |
| Stormglass.HeaderLabelNamesField | Stormglass-Astronomy-Monthly.php:188 | a header label, lower-cased and without spaces, is its field's own name ("Moon phase" for `moonphase`) |
| Stormglass.TimeValue | Stormglass-Astronomy-Monthly.php:201-210 | a time cell is "-" exactly when the time is absent, and `H:i` otherwise |
| Stormglass.DateValue | Stormglass-Astronomy-Monthly.php:198 | the date cell is "-" exactly when `time` is absent, and `d/m/Y` otherwise |
| Stormglass.PhaseValue | Stormglass-Astronomy-Monthly.php:212-215 | the phase cell is "-" when absent, icon + ' ' + ucfirst(text) when the text names a phase, ucfirst(text) otherwise |
| Stormglass.CellValue | Stormglass-Astronomy-Monthly.php:195-217 | a date or time cell is "-" exactly when its value is absent, and otherwise the `d/m/Y` or `H:i` text of that field's own timestamp; a phase cell is "-" when the phase text is absent, and otherwise the icon and a space (when the phase has one) before the capitalised text |
| Stormglass.RowCells | Stormglass-Astronomy-Monthly.php:194-219 | one cell per selected field, in selection order |
| Stormglass.AbsentValuesRenderDash | Stormglass-Astronomy-Monthly.php:195-218 | a date or time cell shows "-" exactly when its value is absent; a phase cell shows "-" when its text is absent (a phase text "-" also shows "-"); only the moon-phase cell has the `moon-phase` class |
| Stormglass.PresentValuesRender | Stormglass-Astronomy-Monthly.php:196-218 | in a row, a present time decodes to the hour and minute of its own field (sunrise in the sunrise cell, and so on), the date cell to the day, month and year of `time`, and a phase cell begins with the phase's icon |
| Stormglass.TimeValueDecodes | Stormglass-Astronomy-Monthly.php:201 | a time cell decodes back to its hour and minute |
| Stormglass.DateValueDecodes | Stormglass-Astronomy-Monthly.php:198 | the date cell decodes back to its day, month and year |
| Stormglass.HeaderCellsOnePerField | Stormglass-Astronomy-Monthly.php:187-189 | the header row is one `<th>` with the field's label per selected field, in order |
| Stormglass.CellsOnePerCell | Stormglass-Astronomy-Monthly.php:194-219 | a row's cells are one `<td>` per cell, in order |
| Stormglass.RowsOnePerDay | Stormglass-Astronomy-Monthly.php:192-221 | the body is one `<tr>` per day, in order |
| Stormglass.TableHtml | Stormglass-Astronomy-Monthly.php:186-222 | the table is the opening tags, a `<th>` per selected field, the head's closing tags, a `<tr>` per day, and the closing tags |
| Stormglass.BuildTable | Stormglass-Astronomy-Monthly.php:186-223 | the nested loops produce exactly the table of one header cell per field and one row of cells per day |
| Stormglass.Site.FetchCached | Stormglass-Astronomy-Monthly.php:144-173 | the store, result and requests sent are those of the cache-or-fetch step |
| Stormglass.Site.Shortcode | Stormglass-Astronomy-Monthly.php:115-224 | guards fail before any cache access or request; otherwise cache-or-fetch, then field selection, then the table |
| WeatherApi.Query | weatherapi-astronomy.php:159 | `q` is the trimmed latitude, a comma, the trimmed longitude |
| WeatherApi.FetchRequests | weatherapi-astronomy.php:152-166 | the fetcher sends no request exactly when a parameter is empty(), otherwise one with the key, query and date |
| WeatherApi.FetchResult | weatherapi-astronomy.php:151-189 | the result is the `astro` member exactly when the parameters pass, the status is 200 and `astronomy.astro` is present; `false` otherwise |
| WeatherApi.ZeroCoordinateIsMissing | weatherapi-astronomy.php:152 | a coordinate "0" counts as missing, so nothing is sent, while "0.0" does not |
| WeatherApi.StoredValue | weatherapi-astronomy.php:221-225 | a day stores the fetched value exactly when it is truthy, and null otherwise |
| WeatherApi.TransientKey | weatherapi-astronomy.php:203-205 | the key always starts with `waa_month_astro_` |
| WeatherApi.TransientKeyCollision | weatherapi-astronomy.php:203-205 | (1.5, 2) and (1, 5.2) give the same key for every year and month |
| WeatherApi.TransientKeyDeterminesMonth | weatherapi-astronomy.php:203-205 | for any coordinates, equal keys mean the same year and month, and the same underscored coordinate pair |
| WeatherApi.TransientKeyInjective | weatherapi-astronomy.php:203-205 | equal keys also mean the same place when no coordinate contains '.', ',' or '_' |
| WeatherApi.MonthEntries | weatherapi-astronomy.php:214-227 | the month has exactly cal_days_in_month entries |
| WeatherApi.DaysRequestsOnePerDay | weatherapi-astronomy.php:217-219 | the loop sends one request per day in day order, or none when a setting is empty() |
| WeatherApi.MonthEntriesDays | weatherapi-astronomy.php:217-226 | entry i is keyed by day i+1 of the month, and holds the fetched value exactly when that fetch returned a truthy one |
| WeatherApi.MonthEntriesDistinct | weatherapi-astronomy.php:218-222 | the month's keys are pairwise distinct |
| WeatherApi.MissingSettingAllNull | weatherapi-astronomy.php:152-155 | with an empty() setting every day is null |
| WeatherApi.MonthlyData | weatherapi-astronomy.php:201-236 | a cached array is returned unchanged with no request; otherwise the data is exactly `MonthEntries` (one entry per day, each keyed by its date and holding its truthy fetch or null), stored under the key, after one request per day |
| WeatherApi.RepeatMonthHits | weatherapi-astronomy.php:207-230 | after a miss the same month and place is a hit with the same entries and no request, even if every day failed |
| WeatherApi.CollidingPlacesShareMonth | weatherapi-astronomy.php:203-211 | the month fetched for (1.5, 2) is served to (1, 5.2) without a request |
| WeatherApi.EmptyMonthOnlyFromCache | weatherapi-astronomy.php:229-230 | an empty month can only come from a cached empty array, since a fetched month has 28 to 31 entries |
| WeatherApi.WeatherIcon | weatherapi-astronomy.php:270-279 | an icon exactly for the eight phase names as written |
| WeatherApi.WeatherIconIsExact | weatherapi-astronomy.php:330 | "Full Moon" finds the full-moon icon, "full moon" and "FullMoon" find none |
| WeatherApi.PhaseCell | weatherapi-astronomy.php:329-331 | icon + ' ' + phase for the eight names, the phase alone otherwise |
| WeatherApi.ParseDayKey | weatherapi-astronomy.php:321 | only a `Y-m-d` key naming a real day parses |
| WeatherApi.DisplayDate | weatherapi-astronomy.php:321 | the date cell is ten characters `dd/mm/yyyy`; a parsable key is shown as the day it names; any other key as 01/01/1970 |
| WeatherApi.DisplayDateOfDayKey | weatherapi-astronomy.php:321 | the key of a day is shown as that day in `d/m/Y` |
| WeatherApi.RowCells | weatherapi-astronomy.php:321-337 | a row starts with the date cell; when the day holds an object, six one-column cells follow: sunrise, sunset, moonrise, moonset, the phase with its icon, the illumination followed by "%"; otherwise one placeholder spanning 6 |
| WeatherApi.RowSpansHeader | weatherapi-astronomy.php:308-337 | every row spans exactly the seven columns of the rendered header, which is built from the same label list |
| WeatherApi.RowsOnePerEntry | weatherapi-astronomy.php:319-339 | the body is one `<tr>` per entry of the month, in order |
| WeatherApi.TableHtml | weatherapi-astronomy.php:305-342 | the table is the fixed seven-column header, a `<tr>` per entry of the month, and the closing tags |
| WeatherApi.Site.FetchDailyAstronomyData | weatherapi-astronomy.php:151-189 | returns the fetch result and logs exactly the requests the guard lets through |
| WeatherApi.Site.GetMonthlyAstronomyData | weatherapi-astronomy.php:201-236 | the day loop returns, stores and sends what the monthly lookup specifies |
| WeatherApi.Site.BuildTable | weatherapi-astronomy.php:305-342 | the row loop produces exactly the table of the month |
| WeatherApi.Site.RenderAstronomyTable | weatherapi-astronomy.php:269-345 | an empty() setting gives the configuration notice with no request; otherwise the month lookup, then the no-data notice or the table |

## Left out

- WordPress hook and shortcode registration, settings pages, widgets and textdomain loading: these are host-framework glue.
- Cache purging with SQL `DELETE … LIKE`, and the nonce checks: these are database I/O.
- `wp_remote_get`, URL building, the `Authorization` header and JSON decoding: the endpoint is a function from request to an already decoded reply.
- `md5` is an opaque function. No collision-freedom is claimed.
- The clock is a `today` parameter.
- `strtotime` on arbitrary text is not modelled. Shortcode dates and API timestamps arrive parsed; a parsed shortcode date is always a real calendar day (`ParsedDates`). In the model, a WeatherAPI key that is not a `Y-m-d` real day shows as 01/01/1970. PHP's `strtotime` is more lenient: it turns "2024-02-30" into 1 March 2024. Those lenient forms are not modelled; the plugin's own loop only builds real days.
- Time zones are not modelled.
- `is_numeric` and PHP's numeric comparison: a coordinate option is its text plus, when numeric, its real value.
- HTML escaping (`esc_html`, `wp_kses_post`) is not modelled.
- `error_log` and translations: the notices are the English texts.
- The whitespace of the WeatherAPI output template is not modelled; the table HTML is written without it.
- Transient expiry (30 days, 12 hours) is wall-clock behaviour: the store is a map without expiry.
- `empty()` on a Stormglass row field: an absent value covers a missing key, an empty string and "0".
- PHP array keys after `array_intersect`: only the iteration order matters, and the model keeps it.
- WeatherAPI rows take their keys and values from the stored array. The fetcher returns `astronomy.astro` whatever its JSON type, and the loop stores it when truthy. A stored truthy value that is not an object, such as a non-empty string, therefore renders the placeholder.
