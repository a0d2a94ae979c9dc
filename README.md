# Disaster dashboard: incident normalisation, UI state and nearest-resource selection

A Dafny model of the logic inside a single-page disaster-monitoring
application and the inference script that feeds it:

- **Dashboard** (`src/pages/DashboardPage.jsx`). Fetched incident records are
  normalised: JavaScript falsy values get defaults, a disaster type is derived
  by keyword search, and five optional nearest-resource sub-records are built.
  The page counts incidents per severity for the five stat cards. It draws a
  marker only for incidents whose state has a map position, styles
  out-of-range severities as level 1, and keeps a two-flag popup state (the
  selected incident, the expanded resource panel).
- **Report form** (`src/pages/ReportPage.jsx`). A seven-field draft is edited
  one field at a time. Submitting it posts the draft. Success clears the
  draft, shows a message and schedules a 3-second auto-hide. A non-2xx
  response or a thrown error shows an error and keeps the draft. The
  in-flight flag is released either way.
- **Nearest resources** (`inference.py`, `predict`). For each resource type
  it skips entries whose coordinates do not parse or that have no
  `resource_id` key, and every entry when the incident's `lat` or `lon` is
  not a number. It then sorts the rest by distance (a stable sort) and keeps
  the first three. A missing `lat` or `lon` key aborts the call.

Files and modules:

| file | module | models |
|---|---|---|
| Options.dfy | Options | optional values (absent JavaScript fields, `null` state) |
| Text.dfy | Text | ASCII `toLowerCase` and `includes` |
| DisasterTypes.dfy | DisasterTypes | `extractDisasterType` and an ordered rule table it is proved equal to |
| Incidents.dfy | Incidents | raw and normalised records, the normaliser, `STATE_COORDS` keys, `severityConfig`, marker rules |
| SeverityStats.dfy | SeverityStats | `getSeverityStats` as a loop over a dictionary, and the stat cards |
| Dashboard.dfy | Dashboard | class `DashboardView`: fetch settlement, marker click, resource toggle, popup close |
| Report.dfy | Report | class `ReportForm`: `handleChange`, `handleSubmit` split around the request, the auto-hide timer |
| NearestResources.dfy | NearestResources | `predict` as nested loops, with the sort and truncation as functions |

JavaScript truthiness is modelled explicitly. An absent field is `None`.
`""` and `0` are falsy. `toLowerCase` is ASCII lower-casing. Network
requests are inputs: a `FetchOutcome` (a parsed body, or failure) for the
dashboard, and an `Outcome` (`Ok`, `NotOk`, `Threw`) for the form. The
3-second timer is an explicit `AutoHide` event. `haversine` followed by
`round` is a function parameter (`DistanceFn`).

Behaviour of the code worth noting, which the model keeps:

- The dashboard's read path never checks `res.ok` (DashboardPage.jsx:39). A
  non-2xx response whose body parses is normalised like any other. A
  rejected fetch, an unparsable body, or a body that fails to normalise (next
  bullet) leaves the list unchanged.
- Normalisation can fail. A `null` element in the payload makes the property
  read throw (DashboardPage.jsx:45). The callback is abandoned and the list
  stays as it was (`NormalizeBody` returns `None`; `DashboardView.SettleFetch`).
  A truthy description that is not a string would make `toLowerCase` throw
  (DashboardPage.jsx:103) in the same way; descriptions are strings here.
- The description default applies to every falsy description, `""`
  included, not only to an absent one.
- The error message does not always persist until the next submit. An
  earlier success's auto-hide timer is never cancelled, so it clears an error
  that appears within its three seconds (`Report.ErrorClearedByEarlierTimer`).

## Model

| member | source | states |
|---|---|---|
| Text.Lower | src/pages/DashboardPage.jsx:103 | lower-casing keeps the length, maps every character by ASCII lower-casing and leaves no upper-case letter |
| Text.LowerIdempotent | src/pages/DashboardPage.jsx:103 | lower-casing an already lower-cased text changes nothing |
| Text.ContainsAt | src/pages/DashboardPage.jsx:104-110 | a word occurring at some position is found by `includes` |
| Text.ContainsWitness | src/pages/DashboardPage.jsx:104-110 | whatever `includes` finds occurs at some position |
| DisasterTypes.ExtractDisasterType | src/pages/DashboardPage.jsx:101-112 | the result is Unknown exactly when the description is absent or empty, and Disaster exactly when a description is present but mentions none of the eight keywords |
| DisasterTypes.MentionsAnyIff | src/pages/DashboardPage.jsx:104 | a keyword group matches exactly when one of its words occurs |
| DisasterTypes.MentionsAllKeywords | src/pages/DashboardPage.jsx:104-110 | matching any of the eight keywords is the disjunction of the eight `includes` tests |
| DisasterTypes.ExtractFollowsRules | src/pages/DashboardPage.jsx:101-112 | the chain of tests equals first-match over the ordered rule table applied to the lower-cased description |
| DisasterTypes.FirstMatchChoosesMatchingRule | src/pages/DashboardPage.jsx:104-111 | first-match returns the fallback or the label of a rule that matches |
| DisasterTypes.FirstMatchIsFirst | src/pages/DashboardPage.jsx:104-110 | rule i's label is returned exactly when rule i matches and no earlier rule does |
| DisasterTypes.FirstMatchFallback | src/pages/DashboardPage.jsx:111 | Disaster is returned exactly when no rule matches |
| DisasterTypes.RulesWellFormed | src/pages/DashboardPage.jsx:104-110 | the seven rules have distinct labels, none of them a fallback |
| DisasterTypes.ExtractPriority | src/pages/DashboardPage.jsx:103-110 | for a non-empty description, the label of rule i is returned exactly when rule i is the first to match |
| DisasterTypes.FloodWins | src/pages/DashboardPage.jsx:104 | a description containing "flood" or "rain" (in any case) is a Flood whatever else it mentions |
| DisasterTypes.CaseInsensitive | src/pages/DashboardPage.jsx:103 | descriptions with the same lower-cased form get the same label |
| DisasterTypes.IgnoresCase | src/pages/DashboardPage.jsx:103 | a description and its lower-cased form get the same label |
| Incidents.NearestResource | src/pages/DashboardPage.jsx:60-88 | a resource sub-record exists exactly when its location is truthy, and carries the source's location, distance and id |
| Incidents.Normalize | src/pages/DashboardPage.jsx:44-89 | severity is never falsy, the description is never empty (the source's when truthy, the placeholder otherwise), the type is Unknown exactly when the source description is falsy, id and state pass through |
| Incidents.SeverityDefault | src/pages/DashboardPage.jsx:47 | a falsy score gives severity 1, a truthy one is kept unclamped, so severity is in 1..5 exactly when the score is absent, 0 or in 1..5 |
| Incidents.ResourceCount | src/pages/DashboardPage.jsx:330 | the popup's resource count is at most five |
| Incidents.CountsAgree | src/pages/DashboardPage.jsx:60-88 | counting present sub-records equals counting truthy locations when they agree pointwise |
| Incidents.ResourceCountIsTruthyLocations | src/pages/DashboardPage.jsx:60-88 | each of the five sub-records is present exactly when its `_location` field is truthy, so the count is the number of truthy locations |
| Incidents.Elements | src/pages/DashboardPage.jsx:42 | an array payload is taken as it is, and a non-array payload becomes a one-element list |
| Incidents.NormalizeAll | src/pages/DashboardPage.jsx:44-89 | the map succeeds exactly when no element is null, and then keeps length and order, normalising each element |
| Incidents.NormalizeBody | src/pages/DashboardPage.jsx:42-89 | the whole payload normalises exactly when no element is null, to a list of the same length and order |
| Incidents.SingleRecordBecomesOneIncident | src/pages/DashboardPage.jsx:42-44 | a single object normalises to a one-element list |
| Incidents.Markers | src/pages/DashboardPage.jsx:225-227 | the incidents drawn are exactly those whose state is a key of `STATE_COORDS`, never more than the list holds |
| Incidents.MarkersKeepOrder | src/pages/DashboardPage.jsx:224-227 | markers follow list order: the markers of a concatenation are those of each part in turn, and one incident gives itself exactly when it has a map position |
| Incidents.UnplacedIncidentHasNoMarker | src/pages/DashboardPage.jsx:226-227 | an incident without a map position leaves fewer markers than incidents |
| Incidents.SeverityKey | src/pages/DashboardPage.jsx:229 | `severity \|\| 1` is never 0 and is the severity itself whenever that is truthy |
| Incidents.MarkerStyle | src/pages/DashboardPage.jsx:229-230 | a severity in 1..5 takes its own style, any other takes the level-1 style |
| Incidents.LowerCaseWordFound | src/pages/DashboardPage.jsx:103-104 | a lower-case word occurring in a description occurs in its lower-cased form |
| Incidents.FloodWarningIsFlood | src/pages/DashboardPage.jsx:104 | "Heavy flood warning issued" is classified as Flood |
| Incidents.KeralaFloodRecord | src/pages/DashboardPage.jsx:44-49 | a Kerala record with score 3 and a flood warning normalises to severity 3, Flood, its own description, a marker and no resources |
| Incidents.BiharBareRecord | src/pages/DashboardPage.jsx:44-49 | a record with neither score nor description gets severity 1, Unknown and the placeholder description |
| SeverityStats.Count | src/pages/DashboardPage.jsx:117-118 | the number of incidents at a level is at most the number of incidents |
| SeverityStats.TotalRemove | src/pages/DashboardPage.jsx:118 | a dictionary's total is any one entry plus the total of the rest |
| SeverityStats.TotalUpdate | src/pages/DashboardPage.jsx:118 | overwriting one entry changes the total by the difference |
| SeverityStats.GetSeverityStats | src/pages/DashboardPage.jsx:114-121 | the dictionary maps exactly the severities that occur to their counts, each at least 1, summing to the number of incidents |
| SeverityStats.StatCards | src/pages/DashboardPage.jsx:161-170 | five cards, levels 1 to 5, each `stats[level] \|\| 0` |
| SeverityStats.StatCardsShowCounts | src/pages/DashboardPage.jsx:161-170 | each card shows the number of incidents at its level, 0 when there are none |
| SeverityStats.FiveLevelsCoverAll | src/pages/DashboardPage.jsx:161-170 | when every severity is in 1..5 the five cards add up to the number of incidents |
| SeverityStats.StatsCountUnplacedIncidents | src/pages/DashboardPage.jsx:155-170 | incidents without a map position are counted in the stats and the subtitle, so these total more than the markers |
| Dashboard.SelectionComparisons | src/pages/DashboardPage.jsx:124 | the as-written and corrected comparisons agree whenever something is selected; with nothing selected the corrected one selects nothing |
| Dashboard.IdlessIncidentAsWritten | src/pages/DashboardPage.jsx:123-132 | as written, an incident without an id counts as selected when nothing is, and clicking it with nothing open leaves nothing open |
| Dashboard.ClickAsWritten | src/pages/DashboardPage.jsx:123-133 | as written: a click closes the popup when the source's comparison says the incident is selected, otherwise selects it; the panel collapses either way |
| Dashboard.IdlessPopupToggleAsWritten | src/pages/DashboardPage.jsx:231-327 | as written, the popup of an incident without an id is drawn while nothing is selected, and its toggle expands the panel with nothing selected |
| Dashboard.Click | src/pages/DashboardPage.jsx:123-133 | clicking the selected incident clears the selection, clicking another selects it, and the panel collapses either way |
| Dashboard.ClickOpensWhenClosed | src/pages/DashboardPage.jsx:123-132 | with nothing selected, clicking any marker opens that incident |
| Dashboard.ClickTwice | src/pages/DashboardPage.jsx:123-133 | clicking the same marker twice closes it unless it was open before, in which case it reopens collapsed |
| Dashboard.Toggle | src/pages/DashboardPage.jsx:135-137 | the toggle flips the panel flag and keeps the selection |
| Dashboard.TransitionsKeepConsistent | src/pages/DashboardPage.jsx:123-137 | click, close and toggle keep the panel expanded only while an incident is selected |
| Dashboard.ClickShowsClickedOrNothing | src/pages/DashboardPage.jsx:231-261 | after a click the clicked incident's popup is drawn or nothing is selected; any popup drawn has the clicked incident's id |
| Dashboard.DashboardView.constructor | src/pages/DashboardPage.jsx:32-35 | the page starts with no incidents, loading, nothing selected, panel collapsed |
| Dashboard.DashboardView.SettleFetch | src/pages/DashboardPage.jsx:37-97 | loading ends; a payload without null elements replaces the list with its normalised form; a failure or a null element leaves the list unchanged |
| Dashboard.DashboardView.HandleMarkerClick | src/pages/DashboardPage.jsx:123-133 | the popup state becomes `Click` of the old one |
| Dashboard.DashboardView.ToggleResources | src/pages/DashboardPage.jsx:135-137 | the popup state becomes `Toggle` of the old one |
| Dashboard.DashboardView.ClosePopup | src/pages/DashboardPage.jsx:278-281 | closing always leaves nothing selected and the panel collapsed |
| Report.Draft.With | src/pages/ReportPage.jsx:18 | the named field takes the value and the other six keep theirs |
| Report.StateOptionsAreMapKeys | src/pages/ReportPage.jsx:67-79 | the eleven states offered are exactly the keys of `STATE_COORDS` |
| Report.SubmittedDraftIsPlaceable | src/pages/ReportPage.jsx:133-175 | a complete draft names a state with a map position and a severity with a style |
| Report.ReportForm.constructor | src/pages/ReportPage.jsx:5-15 | the form starts empty, not submitting, with no status |
| Report.ReportForm.HandleChange | src/pages/ReportPage.jsx:17-19 | the named field takes the new value, the other six are unchanged |
| Report.ReportForm.SubmitBegin | src/pages/ReportPage.jsx:21-31 | only when not submitting and complete: submitting starts, the status is cleared and the posted body is the current form |
| Report.ReportForm.SubmitSettle | src/pages/ReportPage.jsx:33-53 | a 2xx response gives success, an empty form and one more pending auto-hide; a non-2xx response or a thrown error gives error and keeps the form; submitting ends either way |
| Report.ReportForm.AutoHide | src/pages/ReportPage.jsx:44 | the timer clears the status and changes nothing else |
| Report.FillIn | src/pages/ReportPage.jsx:17-19 | seven change events set the form to any admissible draft |
| Report.ErrorClearedByEarlierTimer | src/pages/ReportPage.jsx:44-47 | a success followed by a failed resubmission: the earlier timer hides the error while the draft is kept |
| NearestResources.Candidates | inference.py:19-31 | the inner loop keeps at most one entry per input resource |
| NearestResources.PyValue | inference.py:26 | a present JSON field reads as its string, or as `None` when it is `null` |
| NearestResources.LocationOf | inference.py:27 | `r.get("location", "Unknown")`: "Unknown" only when the key is missing, `None` for a `null` location, the string otherwise |
| NearestResources.NullIdKept | inference.py:21-29 | a resource whose `resource_id` is `null` is kept with id `None`; without the key it is skipped |
| NearestResources.CandidatesAppend | inference.py:20-31 | a failing entry is skipped without affecting the others: the candidates of a concatenation are the concatenated candidates |
| NearestResources.CandidatesFromKept | inference.py:21-31 | there is one candidate per resource whose `try` body completes, and each is built from such a resource |
| NearestResources.Insert | inference.py:32 | insertion adds exactly the one entry |
| NearestResources.InsertSorted | inference.py:32 | inserting into a sorted list keeps it sorted |
| NearestResources.SortByDistance | inference.py:32 | the sort is a permutation and is ascending by distance |
| NearestResources.InsertAtDistance | inference.py:32 | insertion puts an entry ahead of the entries at the same distance |
| NearestResources.SortIsStable | inference.py:32 | entries at equal distance keep their input order |
| NearestResources.FirstThree | inference.py:32 | `[:3]` keeps the first min(3, n) entries |
| NearestResources.NearestThree | inference.py:32 | a result list has at most three entries and is ascending by distance |
| NearestResources.NearestThreeLength | inference.py:32 | a result list has min(3, kept count) entries, so never more than the input count |
| NearestResources.NearestThreeFromInput | inference.py:25-29 | every entry is built from a kept input resource of that type, with location "Unknown" when the key is missing |
| NearestResources.PrefixIsNearest | inference.py:32 | in a sorted list no entry after a cut is nearer than one before it |
| NearestResources.PrefixKeepsNearest | inference.py:32 | a prefix of an ascending list, such as `[:3]`, is drawn from it, and nothing it drops is nearer than anything it keeps |
| NearestResources.NearestThreeAreNearest | inference.py:32 | the result is drawn from the candidates and no candidate left out is nearer than one kept |
| NearestResources.CollectDistances | inference.py:19-31 | the inner loop builds exactly the candidate list of its resource type |
| NearestResources.NonNumericPositionKeepsNothing | inference.py:15-30 | an incident `lat` or `lon` that is not a number makes `haversine` raise for every resource, so every list is empty |
| NearestResources.Predict | inference.py:13-34 | no result when the incident lacks a `lat` or `lon` key; otherwise one result list per resource type, each the nearest three kept resources of that type, and all empty when the position is not a number |

Definitions that only compute, and carry no contract of their own, have no
row above; their properties are stated by the members named beside them:

- `Text.Contains` (src/pages/DashboardPage.jsx:104-110, `includes`): `Text.ContainsAt`, `Text.ContainsWitness`.
- `Dashboard.IsSelectedAsWritten` (src/pages/DashboardPage.jsx:124, 231): `Dashboard.SelectionComparisons`, `Dashboard.IdlessIncidentAsWritten`, `Dashboard.IdlessPopupToggleAsWritten`.
- `Dashboard.PopupShown` (src/pages/DashboardPage.jsx:227, 231, 261, the popup's render condition): `Dashboard.ClickShowsClickedOrNothing`.
- `Incidents.HasMarker` (src/pages/DashboardPage.jsx:225-226): `Incidents.Markers`, `Incidents.UnplacedIncidentHasNoMarker`.
- `SeverityStats.StatCard` (src/pages/DashboardPage.jsx:170): `SeverityStats.StatCardsShowCounts`.
- `NearestResources.Usable`, `NearestResources.Kept` and `NearestResources.Entry` (inference.py:21-29): `NearestResources.CandidatesFromKept`, `NearestResources.NullIdKept`, `NearestResources.NearestThreeFromInput`.

## Findings

| source | as written | input that shows it | evidently intended | confidence | as-written member | corrected member |
|---|---|---|---|---|---|---|
| src/pages/DashboardPage.jsx:124 | `selectedIncident?.incident_id === incident.incident_id` is `undefined === undefined` when nothing is selected and the incident has no `incident_id` (the same test decides the popup at line 231) | a fetched record without `incident_id`, clicked while no popup is open | clicking a marker with nothing selected opens it, and no popup is drawn while nothing is selected; as written that incident's popup is drawn with nothing selected, and its toggle (line 326) expands the resource panel while nothing is selected | medium: needs a record without an id; not executed | Dashboard.IdlessIncidentAsWritten, Dashboard.IdlessPopupToggleAsWritten | Dashboard.ClickOpensWhenClosed |

The class `DashboardView` and the lemmas about `Click` use the corrected
comparison `IsSelected`, which needs a selection to exist. That is why
the precondition of `DashboardView.ToggleResources` (a selection exists)
holds whenever a popup is shown. Under the source's comparison it would not:
see `Dashboard.IdlessPopupToggleAsWritten`.
`Dashboard.SelectionComparisons` shows that it agrees with the source's
comparison whenever something is selected.

## Left out

- Network I/O: the GET and POST requests, `res.json()`, `JSON.stringify` and the endpoints are outcomes passed in (`FetchOutcome`, `Outcome`).
- `console.error` logging.
- Rendering: JSX, CSS, the map library, the GeoJSON URL and the projection. The map position coordinates are out; only the keys of `STATE_COORDS` are modelled.
- Floating-point and locale formatting: `toFixed`, `toLocaleString`, `haversine` and `round(distance, 2)`. The distance is the `DistanceFn` parameter and is taken to be already rounded. NaN and infinite distances are not modelled.
- The SageMaker handlers `model_fn`, `input_fn`, `predict_fn` and `output_fn` are one-line wrappers around `json.loads`/`json.dumps`.
- `src/App.jsx` and `src/components/Navbar.jsx` are not part of this model: routing glue, and `isActive` is one string equality.
- React mechanics: re-rendering, `useState` batching, stale closures over `form`, unmounting before a timer fires. The real `setTimeout` delay is also out: the timer is the explicit `AutoHide` event and `pendingHides` counts scheduled callbacks.
- Incidents.Normalize: JSON `null` fields of an incident record are treated as absent. For the fields the dashboard tests for truthiness this changes nothing. It does change one case of `Dashboard.IsSelectedAsWritten`: a record whose `incident_id` is `null` does not equal `undefined` under `===`, so the phantom popup of the Findings table needs the key to be missing, not `null`. `NearestResources` keeps all three states of a resource field: missing, `null` and a string (`JsonText`).
- Non-string descriptions (a truthy number would make `toLowerCase` throw) and non-integer severity scores are not modelled.
- Text.Lower: JavaScript's `toLowerCase` also folds non-ASCII letters (the Kelvin sign becomes "k"), which could create a keyword. Only ASCII is modelled.
- Incidents.HasMarker: a state named after an inherited object property (for example "constructor") is a truthy `STATE_COORDS` lookup in JavaScript. Only the eleven own keys are modelled.
- NearestResources.Predict: the event's shape is taken as given. A missing `event["incident"]` or `event["resources"]`, or a resource list that cannot be iterated (`null`, a number), aborts the whole call, since the `for r in rlist` is outside the `try`. A string or an object under a resource type is iterated, and every item fails at `r["latitude"]` inside the `try`, giving `[]`; the model expresses that case as a sequence of resources whose coordinates do not parse. Here `resources` is a map of sequences. A numeric `bool` position is not modelled. An exception inside `haversine` (a math domain error) would skip the entry; the distance here is total. Python's dict iteration order only affects the order of keys in the output, and `results` is a map.
- Report form: `e.preventDefault()` is not modelled. The browser's `required` check and the disabled submit button are preconditions of `SubmitBegin`. The select controls' option lists are a precondition of `HandleChange`.
