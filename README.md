# WMATA Metro assistant: the table-driven core, in Dafny

`wmata.py` is a tool server answering questions about the Washington Metro.
Most of its tools forward a request to the transit authority's web API and
format the JSON that comes back. Its own logic is local and works on four
static tables: STATION_MAPPING (display name to station code), LINE_COLORS
(line code to line name), STATION_LINES (station code to the lines serving
it) and COMMON_ROUTES (precomputed itineraries). This project models that
logic and proves what it guarantees:

- **Station resolution** (`get_station_code`). An input is resolved in three
  passes:
  - an exact display name;
  - an upper-cased code, when the input has at most three characters;
  - the first name, in table order, whose lower-cased form contains the
    lower-cased input.

  The resolution itself is in `Resolver` and, on the real table, in
  `StationResolver`. The reverse lookup "first name with this code, else a
  fallback" is `Tables.KeyOf`, and `Tables.KeyOfFirst` states what it
  returns.
- **Arrival lines** (`format_train_prediction`): one feed record becomes one
  display line (`Prediction`).
- **Route heuristics** (`Routes`, `Planner`):
  - `find_simple_route` consults COMMON_ROUTES forwards and backwards, and
    otherwise builds a same-line route;
  - `find_optimal_transfer_point` picks the transfer station;
  - `build_optimal_route` builds the 2-step or 3-step itinerary the
    station-to-station tool shows.
- **Station directory** (the grouping and rendering in `get_all_stations`):
  the parsed station list is grouped by line and rendered line by line
  (`Directory`).

Python dicts iterate in insertion order, and several results depend on that
order. So every table is a sequence of (key, value) pairs in source order
(`Tables`), and a well-formed table has distinct keys. STATION_LINES and
STATION_MAPPING are proved to be well formed (`StationTables`). So the
exact-name pass and the name round trip hold for every name and every code
of the real table.

STATION_MAPPING, LINE_COLORS and STATION_LINES are constants in `Tables`. The
operations take them as parameters ("the table `m`", `colors`,
`stationLines`), so every property is proved for any table. Concrete facts
(`"c01"` resolves to `"C01"`; Union Station resolves to `"B03"`) are proved on
the constants.

State changed in place is modelled as state:
- The step dicts of COMMON_ROUTES are objects (`Routes.Step`) with a mutable
  `action` field, held by a `Routes.RouteTable`.
- Walking a stored route backwards re-tags those very objects, as the source
  does (see Findings).
- Loops become methods with loop invariants, each proved against a
  specification function: the fuzzy search, candidate collection and hub
  scan, the grouping into `lines`, and the rendering.
- `list(s)[0]` on a Python set depends on hash order. It is modelled as an
  arbitrary member (`:|`), and only its membership is specified.

The docstring of `get_station_code` (wmata.py:212) promises conversion of a
station name "with fuzzy matching", and the function returns None when
nothing matches. The empty input is not treated as "nothing matches". The
empty string occurs in every name, so the fuzzy pass resolves `""` to the
first entry, `"C01"` (Metro Center). The model follows the code:
`Resolver.EmptyResolvesToFirst`, `StationResolver.EmptyInputIsMetroCenter`.

## Model

| member | source | states |
|---|---|---|
| Text.Lower | wmata.py:222-223 | `str.lower()` over ASCII: it keeps the length and maps each character on its own |
| Text.Upper | wmata.py:218-219 | `str.upper()` over ASCII: it keeps the length and maps each character on its own |
| Text.PrefixIsContained | wmata.py:223 | a string that starts with `p` contains `p`, so the `startswith` disjunct adds nothing to `in` |
| Text.EmptyContained | wmata.py:223 | the empty string occurs in every string |
| Text.ContainsIffOccurs | wmata.py:223 | `p in s` holds exactly when `p` occurs in `s` at some offset |
| Text.BelowTotal | wmata.py:639 | Python's string order, used by `sorted`, is total on distinct strings |
| Text.BelowTransitive | wmata.py:639 | Python's string order is transitive |
| Text.BelowIrreflexive | wmata.py:639 | no string is below itself |
| Text.BelowAsymmetric | wmata.py:639 | two strings are never each below the other |
| Tables.Lookup | wmata.py:214-215 | `d.get(k)` is None exactly when no entry has key `k`; otherwise it is the value of the first entry with that key |
| Tables.LookupUnique | wmata.py:214-215 | in a dict (distinct keys), `d[k]` is the value of the one entry holding `k` |
| Tables.Values | wmata.py:218 | `d.values()` lists the entries' values in entry order |
| Tables.KeyOfFirst | wmata.py:270-271 | the reverse lookup `next((name for name, code in d.items() if code == c), fallback)` returns the key of the first entry holding `c`; it returns the fallback exactly when no entry holds `c` |
| Tables.KeyOf | wmata.py:270-271 | the reverse lookup `next((name for name, code in d.items() if code == c), fallback)`; what it returns is stated by Tables.KeyOfFirst and Resolver.NameRoundTrip |
| Tables.LinesOf | wmata.py:264-266 | a station's line set is the set of its STATION_LINES list, or empty when the code is not a key |
| Resolver.FirstFuzzy | wmata.py:222-226 | the fuzzy pass returns the code of the first entry whose name matches; it is None exactly when no name matches |
| Resolver.GetStationCode | wmata.py:211-226 | the loop with early returns computes the three-pass resolution: exact name, then short upper-cased code, then first fuzzy match |
| Resolver.ResolveYieldsCode | wmata.py:211-226 | every result that is not None is a code of the table (a value of STATION_MAPPING) |
| Resolver.ResolveExactName | wmata.py:213-215 | in a dict, every display name resolves to its own code |
| Resolver.ResolveCode | wmata.py:217-219 | an input of at most 3 characters that is not a name and whose upper-case form is a code resolves to that upper-case form |
| Resolver.FuzzyIsFirstContaining | wmata.py:221-226 | once the first two passes fail, the result is the code of the first entry whose lowered name contains the lowered input; it is None exactly when no name contains it |
| Resolver.EmptyResolvesToFirst | wmata.py:222-224 | with no empty name and no empty code, the empty input resolves to the first entry's code |
| Resolver.NameRoundTrip | wmata.py:270-271 | for any code of a dict, resolving the name found by the reverse lookup gives back that code |
| StationResolver.EveryNameResolves | wmata.py:213-215 | on the real table, every display name resolves to its own code |
| StationResolver.EveryCodeRoundTrips | wmata.py:270-271 | on the real table, the name the reverse lookup finds for any code resolves back to that code |
| StationResolver.StationMappingShaped | wmata.py:13-112 | every display name in STATION_MAPPING is longer than 3 characters, and every code is exactly 3 |
| StationResolver.ShortInputIsNoName | wmata.py:213-219 | on STATION_MAPPING, no input of at most 3 characters is a display name, so the code pass sees every short input |
| StationResolver.ShortCodeResolves | wmata.py:217-219 | on STATION_MAPPING, a short input whose upper-case form is a code resolves to that upper-case form |
| StationResolver.LowerCaseCode | wmata.py:217-219 | `"c01"` resolves to `"C01"` |
| StationResolver.EmptyInputIsMetroCenter | wmata.py:221-224 | the empty input resolves to `"C01"`, Metro Center, the first entry |
| StationResolver.UnionStation | wmata.py:31 | `"Union Station"` resolves to `"B03"` |
| StationResolver.Pentagon | wmata.py:46 | `"Pentagon"` resolves to `"C07"` |
| Prediction.FormatTrainPrediction | wmata.py:228-242 | `format_train_prediction(train)`; its parts are stated by Prediction.HeadIsPrefix, KnownLineNamed, OtherLineShownAsIs, DestinationShown, ArrivingNow, Boarding, MinutesVerbatim and CarsAtTheEnd |
| Prediction.NoEmptyLineCode | wmata.py:230 | the empty line code is not a key of LINE_COLORS, so a record without "Line" falls through to the default |
| Prediction.LineColorsUnique | wmata.py:115-122 | LINE_COLORS has distinct keys |
| Prediction.KnownLineNamed | wmata.py:230 | a known line code is shown as its line name, at the head of the display line |
| Prediction.OtherLineShownAsIs | wmata.py:230 | an unknown line code is shown unchanged; an absent one is shown as "Unknown" |
| Prediction.HeadIsPrefix | wmata.py:242 | the display line starts with the emoji and the line shown |
| Prediction.HeadLocated | wmata.py:242 | the template starts with the emoji and the line |
| Prediction.TimeLocated | wmata.py:242 | the time part stands in its slot: the line ends with " - {time} ({cars} cars)" |
| Prediction.MinutesLocated | wmata.py:239-242 | a minutes count stands in the time slot, followed by " minutes": the line ends with " - {min} minutes ({cars} cars)" |
| Prediction.DestinationLocated | wmata.py:242 | " to {destination} - " occurs in the display line |
| Prediction.CarsLocated | wmata.py:242 | the display line ends with " ({cars} cars)" |
| Prediction.ArrivingNow | wmata.py:235-236 | Min "ARR" fills the time slot with "Arriving now": the line ends with " - Arriving now ({cars} cars)" |
| Prediction.Boarding | wmata.py:237-238 | Min "BRD" fills the time slot with "Boarding": the line ends with " - Boarding ({cars} cars)" |
| Prediction.MinutesVerbatim | wmata.py:239-240 | any other Min fills the time slot verbatim before " minutes", with no numeric check; an absent Min gives "Unknown minutes" |
| Prediction.DestinationShown | wmata.py:231 | the destination, or "Unknown" when the record has none, stands between " to " and " - " |
| Prediction.CarsAtTheEnd | wmata.py:233 | the line ends with the car count, or "Unknown" when the record has none, followed by " cars)" |
| Routes.Reversed | wmata.py:254 | `list(reversed(xs))` keeps the length and puts element `n-1-i` at `i` |
| Routes.ReverseRouteAt | wmata.py:254-260 | a route read backwards keeps its length; step `i` is step `n-1-i` with start and arrive swapped, and every other tag and field unchanged |
| Routes.ReverseRouteInvolutive | wmata.py:254-260 | reading a route backwards twice gives it back |
| Routes.ReverseKeepsShape | wmata.py:254-260 | a route that starts with start, ends with arrive and has neither in between keeps that shape when read backwards |
| Routes.Step.constructor | wmata.py:171-174 | a step dict literal holds the given station, name, line, action and next line |
| Routes.NewSteps | wmata.py:170-175 | a list literal of step dicts yields distinct fresh dicts holding the given steps in order |
| Routes.NewEntries | wmata.py:168-190 | the COMMON_ROUTES literal yields its keys in order, each route made of fresh distinct dicts |
| Routes.RouteTable.constructor | wmata.py:168-190 | the table holds exactly the given routes under the given keys, on fresh dicts |
| Routes.RouteTable.FindSimpleRoute | wmata.py:244-277 | a stored pair returns the stored list itself, with nothing changed. A reversed pair returns the stored list reversed, with start and arrive swapped on the stored dicts and every other dict of the table unchanged. Otherwise it returns None exactly when the two ends share no line, else two fresh dicts forming an itinerary on a shared line |
| Routes.ReverseInPlace | wmata.py:253-261 | the reverse branch returns the stored list reversed; it re-tags the stored dicts so that the result reads as the route backwards |
| Routes.SwapEnds | wmata.py:256-260 | the tag loop swaps start and arrive on every dict of the list, in place, and leaves every other tag as it was |
| Routes.SwapAll | wmata.py:256-260 | every step's tag swapped, the order kept |
| Routes.ReverseRouteSplit | wmata.py:254-260 | reading a route backwards is reversing the list, then swapping its tags |
| Routes.ViewsReversed | wmata.py:254 | reversing the list of dicts reverses what they hold |
| Routes.ReversedDistinct | wmata.py:254 | reversing keeps the dicts of a route distinct |
| Routes.DirectSteps | wmata.py:263-275 | the same-line branch returns None exactly when the two ends share no line, else two fresh dicts forming an itinerary |
| Routes.DirectRoute | wmata.py:272-275 | the 2-step list literal of the same-line branches (also wmata.py:322-325); that it is an itinerary is stated by Routes.DirectRouteIsItinerary |
| Routes.DirectRouteIsItinerary | wmata.py:268-275 | a line serving both ends gives a 2-step route: start at from and arrive at to, both on that line, each named by the reverse lookup |
| Routes.RouteTable.FindSimpleRouteFresh | wmata.py:244-277 | same as FindSimpleRoute, except that a reversed pair returns fresh dicts holding the route backwards and the table stays unchanged |
| Routes.CommonRoutesShaped | wmata.py:168-190 | every stored route, and every stored route read backwards, starts with start and ends with arrive |
| Routes.CommonRoutesFirst | wmata.py:168-175 | COMMON_ROUTES has distinct keys; its first route, Union Station to Pentagon, begins with a start step, and the pair the other way round is not stored |
| Routes.StoredFirst | wmata.py:168-175 | a table built from COMMON_ROUTES holds the Union Station to Pentagon route, tagged start first, and not the reversed key |
| Routes.QueryBothWays | wmata.py:247-261 | querying a reversed pair and then the stored pair returns the stored list, whose first tag has been swapped |
| Routes.QueryBothWaysFresh | wmata.py:247-261 | with the copying variant, the same two queries return the stored first tag unchanged |
| Routes.ReverseThenForward | wmata.py:247-261 | asking for Pentagon to Union Station, then for Union Station to Pentagon, returns a route whose first step is tagged arrive |
| Routes.ReverseThenForwardFresh | wmata.py:247-261 | with the copying variant, the same two queries return a route whose first step is tagged start |
| Planner.CandidatesConnect | wmata.py:291-296 | every candidate is a STATION_LINES key whose lines meet both the origin's and the destination's lines |
| Planner.NoCandidatesIff | wmata.py:291-296 | there are no candidates exactly when no entry's lines meet both ends' lines |
| Planner.CollectCandidates | wmata.py:289-296 | the append loop collects exactly the connecting keys, in table order |
| Planner.FirstNonHub | wmata.py:303-305 | the hub scan is None exactly when every candidate is a major hub; otherwise it returns a candidate that is not a hub |
| Planner.FindOptimalTransferPoint | wmata.py:279-308 | the method computes the transfer choice: None when the ends share a line, else the first non-hub candidate, else the first candidate, else None |
| Planner.SharedLineNoTransfer | wmata.py:284-286 | stations that share a line get no transfer point |
| Planner.TransferConnects | wmata.py:291-308 | a chosen transfer station is a STATION_LINES entry whose lines meet both ends' lines |
| Planner.TransferLines | wmata.py:291-308 | in a dict, the chosen station's own line set meets the origin's and the destination's line sets |
| Planner.NoTransferIff | wmata.py:279-308 | there is no transfer point exactly when the ends share a line or no entry connects them |
| Planner.FirstNonHubChosen | wmata.py:303-305 | the hub scan returns the first connecting entry that is not a hub, whatever hubs come before it |
| Planner.FirstCandidate | wmata.py:308 | `transfer_candidates[0]` is the first connecting entry |
| Planner.NonHubPreferred | wmata.py:298-305 | when a connecting entry is not a major hub, the transfer point is the first such entry in table order |
| Planner.HubFallback | wmata.py:307-308 | when every connecting entry is a major hub, the transfer point is the first connecting entry |
| Planner.BuildOptimalRoute | wmata.py:310-342 | every route is an itinerary from `from` to `to`. Shared lines give exactly 2 steps. Otherwise a route exists exactly when a transfer point exists. It then has 3 steps, with the transfer point in the middle, tagged transfer_to, carrying the line the last step rides as its next_line |
| Planner.TransferRoute | wmata.py:336-340 | the 3-step list literal of the transfer branch; that it is an itinerary is stated by Planner.TransferRouteIsItinerary |
| Planner.TransferRouteIsItinerary | wmata.py:332-340 | first_line serving origin and transfer, and next_line serving destination and transfer, give the 3-step route: start, transfer_to carrying next_line, then arrive on next_line |
| StationTables.StationLinesAscending | wmata.py:125-165 | the STATION_LINES codes are written in ascending order |
| StationTables.StationMappingUnique | wmata.py:13-112 | STATION_MAPPING lists every display name once: the condition of the exact-name pass and of the round trip holds for the real table |
| StationTables.StationLinesUnique | wmata.py:125-165 | STATION_LINES lists every station code once: the condition BuildOptimalRoute places on its table holds for the real one |
| Directory.Entry | wmata.py:632 | the entry `f"{name} ({code})"` collected under each line; which entries are collected is stated by Directory.EntriesOnMembers and ListedLine |
| Directory.CountOfPositive | wmata.py:628-629 | a station's line fields name `k` at least once exactly when one of the four holds `k` |
| Directory.EntriesOnMembers | wmata.py:619-632 | an entry is collected under line `k` exactly when it is `"{name} ({code})"` of a station with a field naming `k` |
| Directory.StationListed | wmata.py:619-632 | every station with a field naming a known line is listed under that line |
| Directory.GroupingKeys | wmata.py:629-631 | only non-empty keys of LINE_COLORS become keys of `lines` |
| Directory.AddCodesEffect | wmata.py:628-632 | one station's fields append its entry to each known line they name, once per field; no other list changes |
| Directory.AddStation | wmata.py:628-632 | the inner loop appends the station's entry once per field naming a known line, creates a missing list first, and leaves other lists as they were |
| Directory.GroupByLine | wmata.py:619-632 | the loop fills `lines` with exactly the known lines some station names, each mapped to its entries in station order |
| Directory.Insert | wmata.py:639 | inserting into a strictly sorted list keeps it strictly sorted and adds exactly the new element |
| Directory.SortedSet | wmata.py:639 | `sorted(set(xs))` is strictly increasing and holds exactly the elements of `xs` |
| Directory.SortedUnique | wmata.py:639 | a strictly sorted list is determined by its elements, so `sorted(set(xs))` is the only such list |
| Directory.SectionsStep | wmata.py:636-643 | one more line of the order adds its section after the earlier ones, when it has a list |
| Directory.ShowSectionsSnoc | wmata.py:640-643 | rendering one more section appends to the rendering of the earlier ones |
| Directory.AppendEntries | wmata.py:641-642 | the bullet loop appends one line `• {station}` per entry, in order |
| Directory.AppendSection | wmata.py:640-643 | one section is its heading, its bullet lines, then a blank line |
| Directory.AppendLine | wmata.py:637-643 | one turn of the line-order loop appends that line's section when the line has a list, and nothing otherwise |
| Directory.AppendSections | wmata.py:636-643 | the loop over the order appends the section of every line that has a list, in order |
| Directory.Render | wmata.py:634-648 | the rendering is the header, the sections in the order RD, OR, SV, BL, YL, GR, then the usage tips |
| Directory.GetAllStations | wmata.py:612-650 | a missing response or station list gives "❌ Unable to get station list."; otherwise the directory of the grouped list |
| Directory.SectionsFrom | wmata.py:636-639 | each section is a line of the order that has a list; it is named from LINE_COLORS and lists that line's entries sorted |
| Directory.SectionsCover | wmata.py:636-637 | every line of the order that has a list gets a section |
| Directory.SectionsInOrder | wmata.py:636 | sections come in the order of the line order |
| Directory.ListedLine | wmata.py:619-643 | a listed line is a known line from the fixed order with its LINE_COLORS name. Its entries are non-empty, strictly sorted and so free of duplicates, and are exactly the entries of the stations naming that line |
| Directory.LineListed | wmata.py:619-643 | every line from the fixed order that is a key of LINE_COLORS and is named by some station is listed |
| Directory.ListingInOrder | wmata.py:636 | the listed lines come in the order RD, OR, SV, BL, YL, GR |
| Directory.LineOrderKnown | wmata.py:115-122 | every line of the fixed order is a key of LINE_COLORS, so the `LINE_COLORS[line_code]` lookup never fails |

## Left out

- The HTTP layer `make_wmata_request` (wmata.py:192-209) is not modelled: it is asynchronous network I/O with timeouts. An absent or failed response is the `None` case of `Directory.GetAllStations`.
- The API key read from the environment is not modelled (I/O).
- The tool-server set-up, tool, resource and prompt registration, the static resource texts and the prompt templates are not modelled: they are plumbing and fixed text with no logic.
- The handlers' own formatting of API answers is not modelled. This covers fares printed with `:.2f` on floats, parking counts, alert line lists and addresses. These are floating point or untyped JSON.
- The station-to-station handler's rendering of the built route steps (wmata.py:437-456) is not modelled. It is presentation in the handler, outside the route logic; the model stops at the steps `Planner.BuildOptimalRoute` returns.
- `Text.Lower` and `Text.Upper` map ASCII letters only; Python's Unicode case mapping is not modelled. Every name and code in the tables is ASCII.
- A JSON field is modelled as present-with-a-string or absent (`Option<string>`). A `null` or non-string value, which Python would print as `None` or a number, is not modelled.
- Planner.BuildOptimalRoute: `if transfer_code:` tests Python truthiness. It is modelled as "not None and not the empty string", the only falsy values a string result can have.
- Planner.BuildOptimalRoute, Routes.RouteTable.FindSimpleRoute: `list(s)[0]` on a set depends on hash order. It is modelled as an arbitrary member, so the contracts state only that the chosen line is in the intersection, not which line it is.
- No concrete itinerary on the real STATION_LINES (for example, Union Station to Pentagon changing at Metro Center) is evaluated. Evaluating the candidate search over the 101-entry table is too costly for the verifier, so these results are proved only for an arbitrary table.
- Concrete fuzzy-pass results on STATION_MAPPING are evaluated for the empty input only, for the same reason. The inputs "c01", "Union Station" and "Pentagon" are resolved by the code and exact-name passes.
- `find_simple_route` and COMMON_ROUTES are not on any handler path: the station-to-station handler calls only `build_optimal_route` (wmata.py:436). They are modelled as written all the same.

## Findings

| source | as written | input that shows it | evidently intended | confidence | as-written member | corrected member |
|---|---|---|---|---|---|---|
| wmata.py:254-260 | the reverse branch copies the list but re-tags the step dicts stored in COMMON_ROUTES in place | `find_simple_route("C07", "B03")` then `find_simple_route("B03", "C07")`: the second answer's first step, Union Station, is tagged "arrive" | reading a stored route backwards returns re-tagged copies and leaves COMMON_ROUTES as written | medium; not executed | Routes.ReverseThenForward | Routes.RouteTable.FindSimpleRouteFresh |
