# Oil-spill danger-zone dashboard: session state and context helpers

A Dafny model of the logic inside the operator dashboard `app.py`. The dashboard
shows three simulated oil-spill danger zones in the Caspian Sea. An operator
picks a zone, either in a dropdown or by clicking near its marker on the map, and
then picks one of the zone's spills. The operator can dispatch and complete a
simulated cleanup of that spill and can ask an assistant about it. The
assistant's context includes a digest of the zone's past spills.

The model has these parts:

- `Types` holds the entities: zones, spill features, historical events, the
  cleanup status (`idle`, `cleaning`, `done`) and chat transcript entries.
- `ReferenceData` holds the dashboard's static tables, with coordinates and
  areas as exact reals.
- `Lookups` holds the pure lookups: `get_spill_geojson`, `get_zone_meta`,
  `get_spill_color`, the dropdown's option parsing and the spill-id lists of
  the selectors.
- `History` holds `get_history_summary`. It also defines Python's string
  ordering, which picks the most recent event, and proves that ordering is a
  strict total order.
- `Cleanup` holds `init_cleanup_status` as a nested scan and the cleanup
  button's one-way progression.
- `MapClick` holds the click handler's arg-min scan and its 0.2 tolerance.
- `AssistantGateway` holds `get_ai_response`, reduced to its branches. The
  outcome of the remote call is a parameter.
- `AppSession` holds a `Session` class with the session-state fields. Its
  methods are the handlers that change those fields: zone dropdown, map click,
  spill-selection repair, spill choice, cleanup button and chat turn.
- `Scenarios` states facts about the dashboard's own data and walks one
  session through the handlers, and one where a spill has no id.

A session's invariant (`Session.Valid`) has four parts. The first is the
condition a session is built under: the zone ids are ones the dropdown can offer
unambiguously, so no id is "None" and none contains " - ". A selected zone is
always one of the known zones, since both the dropdown and a map click choose
among them (app.py:326-342, 522-528). A selected spill is always one of the
spills listed for the selected zone. No spill seeded at start-up ever leaves the
cleanup table.

Behaviour of the code worth noting:

- The cleanup control and the assistant test the selected zone id for
  truthiness (app.py:534, 607-608). A zone whose id is the empty string can be
  selected, but then no spill is listed, no cleanup press happens and no chat
  turn is taken (`Session.ZoneShown`).
- One button drives the cleanup. It moves `idle` to `cleaning` and `cleaning`
  to `done` (app.py:582-589), so two presses from idle end in `done`. The button
  is disabled for a `done` spill (app.py:579).
- The dropdown resets the spill and transcript only when the chosen zone
  differs from the current one (app.py:348-351).
- A spill without an id is listed as "Unknown" (app.py:547). Pressing the
  button for it adds an "Unknown" entry to the cleanup table, because
  `.get(sid, "idle")` treats a missing key as idle (app.py:568-583).
- The chat input exists only when the selected zone lists spills, the spill
  selection has been repaired, and the assistant's context lookup has found the
  selected spill's feature (app.py:614-643). A turn is taken only for a
  non-empty question (app.py:666).

## Model

| member | source | states |
|---|---|---|
| `Lookups.SpillsOf` | app.py:90-159 | A known zone yields exactly its own feature list; an unknown zone has no features. |
| `Lookups.FindZone` | app.py:162-166 | None exactly when no zone has the id. Otherwise it returns the zone with that id at the earliest position. |
| `Lookups.FirstField` | app.py:344-346 | `split(" - ")[0]`: the result is a prefix with no separator inside. It is either the whole string or ends where the first separator starts. |
| `Lookups.DropdownZoneId` | app.py:344-346 | The "None" option, and only it, selects no zone. Any other option selects its text up to the first " - " (all of it when there is none). |
| `Lookups.DropdownOptionYieldsZoneId` | app.py:326-346 | Choosing a zone's own option selects that zone's id, provided the id is not "None" and contains no separator. |
| `Lookups.SpillIds` | app.py:544-550 | One listed id per feature, in feature order, with "Unknown" for a missing id. |
| `Lookups.SpillColor` | app.py:270-282 | Green exactly for done and blue exactly for cleaning. An idle spill is red, orange or yellow exactly for thick, medium or thin, and gray otherwise. |
| `History.LexLessIrreflexive` | app.py:177 | No date string is later than itself. |
| `History.LexLessTransitive` | app.py:177 | The string ordering used to find the latest date is transitive. |
| `History.LexLessTotal` | app.py:177 | Any two different date strings are ordered one way or the other. |
| `History.LexLessStrictTotalOrder` | app.py:177 | The string ordering is a strict total order. |
| `History.LexLessAtIndex` | app.py:177 | Strings equal before position k are ordered by their characters at k. |
| `History.MaxArea` | app.py:176 | The result is some event's area, and no event's area exceeds it. |
| `History.LatestIndex` | app.py:177 | The chosen event's date is not exceeded by any event's date. Every earlier event has a strictly earlier date, so the first latest event wins. |
| `History.LatestOfThreeIncreasing` | app.py:177 | Among three events with increasing dates, the third is the latest. |
| `History.SummarizeHistory` | app.py:169-184 | No history exactly for an unknown zone or an empty event list. Otherwise it reports the event count, the total area, the maximum area, and the date and area of the first latest event. |
| `History.MaxWithinTotal` | app.py:174-176 | With non-negative areas, the largest area is at most the total, and the total is at most count times the largest. |
| `History.TotalBounds` | app.py:175 | Areas in [0, m]: every single area is at most the sum, and the sum is at most count times m. |
| `History.TotalNonNegative` | app.py:175 | Non-negative areas have a non-negative sum. |
| `Cleanup.Advance` | app.py:572-589 | A press moves a status exactly one step forward. `done` stays `done`. |
| `Cleanup.PressButton` | app.py:567-593 | The pressed spill's status advances one step (a missing entry counts as idle). Every other entry keeps its key and value. The table is unchanged for a done spill. |
| `Cleanup.PressIsOneStep` | app.py:579-592 | For every spill, a press never lowers the status and never raises it by more than one step. Spills other than the pressed one are unaffected. |
| `Cleanup.DoneIsTerminal` | app.py:576-581 | Any number of presses leaves a done spill done. |
| `Cleanup.PressesFromIdle` | app.py:572-592 | Starting from idle, zero presses give idle, one gives cleaning, and two or more give done. |
| `Cleanup.FeatureKeysMembers` | app.py:262-266 | An id is taken from a zone's features exactly when it is non-empty and some feature carries it. |
| `Cleanup.AllSpillKeysMembers` | app.py:255-267 | The seeded keys are exactly the non-empty spill ids of the features of all zones. |
| `Cleanup.InitCleanupStatus` | app.py:255-267 | The nested scan builds a table whose keys are exactly those ids, every one mapped to idle. |
| `MapClick.SqDist` | app.py:523 | The squared distance from a zone centre to the click is non-negative. |
| `MapClick.SquaresOrderDistances` | app.py:523-524 | For non-negative distances, comparing squares decides the same as comparing the square roots. |
| `MapClick.ThresholdOnSquares` | app.py:527 | `d < 0.2` holds exactly when `d * d < 0.04`. |
| `MapClick.NearestZone` | app.py:517-526 | No zone only when there are no zones. Otherwise the result is at minimum distance, and every earlier zone is strictly farther (strict `<`, so the first minimum wins). |
| `AssistantGateway.AiResponse` | app.py:187-252 | Always a string: the fixed warning when no client is configured, and the completion text on success. When the call raises, the result is the marked error prefix followed by the error text. |
| `AppSession.Session.constructor` | app.py:294-302 | The session starts with no zone, no spill, an empty transcript and every seeded spill idle. |
| `AppSession.Session.ZoneOptions` | app.py:326-328 | The dropdown offers "None" first and then every zone id, in zone order. |
| `AppSession.Session.ChooseZoneInDropdown` | app.py:337-352 | The first option selects no zone and option k selects the k-th zone; a position outside the options is rejected. A different zone is selected, the spill is cleared and the transcript emptied. The same zone leaves the whole state unchanged. The selected zone stays a known zone. |
| `AppSession.Session.ClickMap` | app.py:516-531 | The first nearest zone is selected, with spill and transcript reset, when it lies strictly within 0.2. Otherwise nothing changes. The cleanup table is never touched. |
| `AppSession.Session.RepairSpillSelection` | app.py:552-555 | For a zone with spills, the old spill is kept if listed and is the first listed spill otherwise, so the selected spill belongs to the zone. Nothing else changes. |
| `AppSession.Session.ChooseSpill` | app.py:557-565 | A listed choice selects that spill. A choice outside the list is rejected and changes nothing. |
| `AppSession.Session.PressCleanup` | app.py:534-593 | A press happens exactly when a spill is selected and it is not done; a spill can only be selected while a non-empty zone id is selected and lists it. The cleanup table becomes `PressButton` of the old table at the selected spill. Selection and transcript are unchanged. |
| `AppSession.Session.SubmitChat` | app.py:607-670 | A non-empty question, with a non-empty zone id selected and a selected spill whose feature the context lookup finds, appends exactly the user entry and then the assistant's answer. Otherwise nothing is appended. Earlier entries are untouched, and nothing else changes. |
| `Scenarios.Z1LatestEvent` | app.py:53-58 | Zone Z1's latest event is its third (2024-01-03). |
| `Scenarios.Z1HistoryDigest` | app.py:53-58 | Zone Z1's summary reports 3 events, 5.1 km² in total, a 2.2 km² maximum and 1.1 km² on 2024-01-03. |
| `Scenarios.UnknownZoneHasNoHistory` | app.py:159-172 | An unknown zone has no history, no features and no zone metadata. |
| `Scenarios.AppCleanupKeys` | app.py:99-157 | The dashboard seeds the cleanup table with exactly S1, S2 and S3. |
| `Scenarios.ClickOutsideTolerance` | app.py:29-50 | A click 0.25 north of Z1 finds Z1 nearest but outside the tolerance, so it selects nothing. |
| `Scenarios.AppZonesDropdownSafe` | app.py:29-50 | The dashboard's zone ids are not "None" and contain no " - ". |
| `Scenarios.TwoPressesCompleteCleanup` | app.py:581-592 | An idle spill is cleaning after one press and done after two. |

## Left out

- Page configuration, sidebar text, titles, columns, captions, `st.rerun` and the status-table rendering (app.py:287-292, 307-325, 354-392, 604-605, 609, 615, 648-663, 672-673) are presentation only.
- The selectors' position bookkeeping (app.py:329-335, 555, 629) is presentation only.
- The map centre and zoom choice (app.py:401-412), the folium map, markers, info box, popups and the image overlays (app.py:68-84, 414-514) are rendering through an external library.
- The scenario metadata (app.py:21-26) is used only for display.
- The OpenAI client set-up and the chat-completion request (app.py:13-16, 240-250) are network I/O. The configured client and the call's outcome are parameters of `AssistantGateway.AiResponse`. The model, temperature and token limit are not modelled.
- The prompt text built from the zone, spill and history (app.py:195-238) is string templating around the remote call. It does not affect any state.
- `History.SummarizeHistory`: returns the summary's facts as values, not the rendered sentence. The `:.1f` rounding of areas (app.py:179-184) is float-to-text formatting.
- `AppSession.Session.ChooseSpill`: takes the option's position rather than its label. The source maps a label back to the first option with an equal label (app.py:565, 637), which gives the same spill whenever labels are distinct.
- AppSession.Session.SubmitChat: when the selected spill is listed as "Unknown", the source's context lookup `next(...)` (app.py:640-643) raises StopIteration and the page run stops before the chat input exists. The model takes no turn and leaves the state unchanged instead of modelling the crash.
- The zone metadata and history text handed to the assistant (app.py:644-646) shape only the prompt. The chat turn takes the gateway outcome directly.
- AssistantGateway.AiResponse: assumes a successful call carries string content. The client library types `message.content` as optional, and a missing content would be returned as is (app.py:250).
- `Lookups.SpillColor`: takes a status value instead of an arbitrary string. The cleanup table only ever holds the three status values.
- Floating-point arithmetic is modelled with exact reals. The square root in the click distance is replaced by comparing squared distances.
- The footer clock (app.py:678-682) is I/O.
