# TF2 demo cheater-detection core, in Dafny

This project models the cheater-detection engine of a Team Fortress 2 demo
tool, written in Rust. It covers:

- **The algorithm interface** (`src/cheater_detection/mod.rs`): the default
  behaviour every algorithm inherits (`default`, `does_handle`, `init`,
  `finish`) and the records the algorithms share (`Detection`,
  `PlayerState`, `CheatAnalyserState`).
- **The orchestrator** (`src/cheater_detection/base/mod.rs`):
  - `CheatAnalyser` runs an ordered list of algorithms on each tick. It
    counts ticks and appends their detections to a list that only grows.
    It stops a pass at the first algorithm that fails.
  - `CheatDemoHandler` routes demo packets to the analyser.
- **The streaming view-angle analyzer**
  (`src/cheater_detection/viewangles.rs`):
  - For each player it stores every sample with its wrapped yaw delta and
    its pitch delta.
  - It raises flick and out-of-bounds-pitch detections.
  - It exports the stored samples as CSV rows.
- **The batch analyzers over the extracted angle CSV** (`src/main.rs`):
  - `ViewAnglesToCSV`, the per-tick extractor;
  - `analyze_flicks`, which reports pitch-speed flicks sorted by size;
  - `analyze_psilent`, which finds three-tick shot/return/reset windows;
  - `analyze_oob_pitch`, which tracks runs of out-of-bounds pitch, their
    periods, the reported ticks and a per-player summary.
- **The small pure helpers of the application:**
  - SteamID conversion and normalisation;
  - the marked-player count of `analyze_demo`;
  - the player-table filter.

How the model is built:

- Stateful objects are classes whose methods update their fields in place:
  - `CheatAnalyser`, `CheatDemoHandler`, `ViewAnglesAnalyzer` and
    `ViewAnglesToCsv`.
- Each class method is proved against a specification function of the old
  state, for example `Model() == Record(old(Model()), ...)`.
- The batch analyzers are methods whose loops are proved equal to
  record-by-record specification functions. The properties the source
  promises are then proved about those functions:
  - exactly which flicks, psilent windows and out-of-bounds ticks are
    reported;
  - the sort order of the output, and that sorting keeps every element;
  - the emission gate of the out-of-bounds runs;
  - the state invariant linking each player's open run to that player's
    records.

## Conventions

- **Integer widths.** Rust `u32` and `u64` are the subset types `u32` and
  `u64`. Arithmetic that can overflow wraps, as a release build does:
  - the tick counter `tick_count + 1`;
  - the tick differences `record.tick - start_tick` (`Types.TickGap`);
  - the SteamID addition.
- **Floating point.** `f32` values are modelled as `real`. A `NaN` pitch in
  the out-of-bounds rows is `None`.
- **Hash-map iteration order.** This order is unspecified in the source.
  The model treats it as an ordered sequence:
  - the per-tick player map is the sequence `playerStates`;
  - the batch analyzers visit players in order of first appearance in
    the records.
  - Every property proved about the set of reported items holds for any
    order.

## Model

| member | source | states |
|---|---|---|
| CheatDetection.DefaultEnabled | src/cheater_detection/mod.rs:21-23 | an algorithm is enabled by default |
| CheatDetection.DoesHandle | src/cheater_detection/mod.rs:27-32 | a listed message kind is handled iff it is in the list; the all/none flag answers for every kind |
| CheatDetection.DefaultInit | src/cheater_detection/mod.rs:34-36 | the default `init` succeeds |
| CheatDetection.DefaultFinish | src/cheater_detection/mod.rs:44-46 | the default `finish` returns no detections |
| Analyser.Flatten | src/cheater_detection/base/mod.rs:60-63 | no algorithm output gives no detections; a detection is in the result iff some algorithm's output holds it |
| Analyser.CheatAnalyser.FlattenSnoc | src/cheater_detection/base/mod.rs:60-63 | appending one algorithm's output appends its detections after the earlier ones |
| Analyser.CheatAnalyser.constructor | src/cheater_detection/base/mod.rs:22-32 | a new analyser holds the given algorithms, tick 0, an empty state and no detections |
| Analyser.CheatAnalyser.Init | src/cheater_detection/base/mod.rs:34-39 | `init` passes iff every algorithm's `init` passes; otherwise it returns the first failing algorithm's error, and every earlier one passed |
| Analyser.CheatAnalyser.TickAlgorithm | src/cheater_detection/base/mod.rs:56-65 | one algorithm's `on_tick` on the current state: an outside algorithm's result is its function of the state; the view-angle analyzer observes the tick and never fails; the result's detections are appended; no other analyzer changes |
| Analyser.CheatAnalyser.TickAll | src/cheater_detection/base/mod.rs:60-63 | a pass runs the algorithms in order and appends their outputs; it stops at the first error, keeping what earlier algorithms appended; analyzers after the stop are untouched |
| Analyser.CheatAnalyser.HandleMessage | src/cheater_detection/base/mod.rs:41-54 | the counter and the state's tick become the message tick; a non-empty message runs a full pass, in which each view-angle analyzer that ran observes every player of the state at the new tick and each after a stop stays unchanged; an empty one changes no detection and no analyzer |
| Analyser.CheatAnalyser.HandleTick | src/cheater_detection/base/mod.rs:56-65 | the counter goes up by one (wrapping at 2^32, otherwise exactly +1); the state carries the new tick; then a full pass runs, in which each view-angle analyzer that ran observes every player of the state at the new tick and each after a stop stays unchanged |
| Analyser.CheatAnalyser.FinishAlgorithm | src/cheater_detection/base/mod.rs:67-73 | one algorithm's `finish`: its result; the view-angle analyzer forgets its previous angles; the result's detections are appended; no other analyzer changes |
| Analyser.CheatAnalyser.Finish | src/cheater_detection/base/mod.rs:67-73 | every algorithm's `finish` in order, stopping at the first error, with the outputs appended in order; the view-angle analyzers after the stop stay unchanged |
| Analyser.CheatAnalyser.GetDetections | src/cheater_detection/base/mod.rs:90-92 | returns the accumulated detections |
| Analyser.CheatAnalyser.GetTickCount | src/cheater_detection/base/mod.rs:94-96 | returns the tick counter |
| Analyser.CheatDemoHandler.WithAnalyser | src/cheater_detection/base/mod.rs:111-116 | the handler owns the given analyser |
| Analyser.CheatDemoHandler.HandlePacket | src/cheater_detection/base/mod.rs:122-136 | a message packet is handled at the current tick count, so the count stays; signon and sync-tick packets advance the tick and run a pass; in every pass each view-angle analyzer that ran observes the state's players and each after a stop stays unchanged; any other packet changes nothing |
| AngleMath.RemEuclid360 | src/cheater_detection/viewangles.rs:55-62 | `rem_euclid(360)` lies in [0, 360) and differs from its input by whole turns |
| AngleMath.YawDelta | src/cheater_detection/viewangles.rs:55-62 | the yaw delta lies in (-180, 180] and differs from `current - previous` by whole turns |
| AngleMath.WrappedUnique | src/cheater_detection/viewangles.rs:55-62 | two values in (-180, 180] that differ by whole turns are equal, so the yaw delta is the unique such value |
| AngleMath.YawDeltaPeriodic | src/cheater_detection/viewangles.rs:55-62 | adding whole turns to an angle does not change the yaw delta |
| AngleMath.YawDeltaAntisymmetric | src/cheater_detection/viewangles.rs:55-62 | swapping the two angles negates the delta, except at exactly +180 |
| ViewAngles.SampleDetections | src/cheater_detection/viewangles.rs:86-146 | a flick is raised iff both deltas exist and one passes 30 degrees of yaw or 20 of pitch; an out-of-bounds detection is raised iff both deltas exist and the pitch passes 89.8; at most two detections, stamped with the tick, the analyzer's name and the player, carrying the sample's angles and the limit and excess |
| ViewAngles.Record | src/cheater_detection/viewangles.rs:64-151 | one sample appends exactly one record, to this player's series only; its deltas exist iff the player had previous angles, and are then the wrapped yaw delta and the pitch difference; the previous angles become the sample |
| ViewAngles.Finished | src/cheater_detection/viewangles.rs:258-271 | `finish` forgets the previous angles and keeps the series, names and pending detections |
| ViewAngles.ObserveAllAppends | src/cheater_detection/viewangles.rs:228-252 | within a tick the pending detections only grow; each new one carries the tick, the analyzer's name and a player of the tick whose angles were present |
| ViewAngles.ObserveAllUntouched | src/cheater_detection/viewangles.rs:228-252 | a player without angles in a tick keeps its series and previous angles |
| ViewAngles.FirstSampleAfterFinish | src/cheater_detection/viewangles.rs:258-271 | after `finish`, a player's next sample has no deltas and raises nothing |
| ViewAngles.ViewAnglesAnalyzer.constructor | src/cheater_detection/viewangles.rs:38-47 | a new analyzer has empty maps and no pending detections |
| ViewAngles.ViewAnglesAnalyzer.HandledMessages | src/cheater_detection/viewangles.rs:224-226 | the analyzer handles user messages and nothing else |
| ViewAngles.ViewAnglesAnalyzer.CheckAngleChange | src/cheater_detection/viewangles.rs:64-151 | the fields after one sample are `Record` of the fields before |
| ViewAngles.ViewAnglesAnalyzer.PushDetections | src/cheater_detection/viewangles.rs:86-146 | the flick and out-of-bounds checks append exactly `SampleDetections`, and no other field changes |
| ViewAngles.ViewAnglesAnalyzer.OnTick | src/cheater_detection/viewangles.rs:228-252 | every player of the tick is observed in map order; the pending detections are returned and cleared |
| ViewAngles.ViewAnglesAnalyzer.Finish | src/cheater_detection/viewangles.rs:258-271 | `finish` returns no detections and leaves the `Finished` state |
| ViewAngles.DeltaCell | src/cheater_detection/viewangles.rs:189-208 | a missing delta is written as the token `NaN`, and a present one as its number |
| ViewAngles.RemoveCommas | src/cheater_detection/viewangles.rs:184-187 | the result has no comma and is no longer than the input; a name without commas is kept |
| ViewAngles.DisplayName | src/cheater_detection/viewangles.rs:184-187 | the exported player label never contains a comma |
| ViewAngles.RowsOf | src/cheater_detection/viewangles.rs:189-208 | one row per stored sample of the player, in order |
| ViewAngles.AllRowsMembers | src/cheater_detection/viewangles.rs:182-208 | a row is exported iff it is the row of some stored sample of some listed player |
| ViewAngles.AllRowsNoSeries | src/cheater_detection/viewangles.rs:177-180 | with no stored series there are no sample rows |
| ViewAngles.AllRowsComplete | src/cheater_detection/viewangles.rs:182-208 | when the order lists exactly the players with a series, the rows are exactly those of the stored samples |
| ViewAngles.Export | src/cheater_detection/viewangles.rs:154-216 | an empty store yields only the placeholder row; otherwise every row is the row of a stored sample and every stored sample has its row; no player name contains a comma |
| ViewAnglesCsv.CalculateDelta | src/main.rs:75-86 | the yaw delta lies in (-180, 180] and differs from the raw difference by whole turns; the pitch delta is the plain difference |
| ViewAnglesCsv.ExtractPlayer | src/main.rs:88-143 | a player without angles changes nothing; otherwise one row is written, whose deltas are `NaN` exactly for the first sample and otherwise the yaw and pitch differences `calculate_delta` gives against the previous angles, and the previous angles are updated; a detection is raised iff there was a previous sample and the deltas pass 45 degrees of yaw or 30 of pitch |
| ViewAnglesCsv.ExtractAllDetections | src/main.rs:88-143 | every detection of a tick carries the tick and a flick-sized delta, and belongs to a player of the tick with angles |
| ViewAnglesCsv.ViewAnglesToCsv.constructor | src/main.rs:56-73 | a new extractor has no previous angles and no rows |
| ViewAnglesCsv.ViewAnglesToCsv.ProcessTick | src/main.rs:88-143 | the fields and the returned detections are those of processing every player of the tick in map order |
| Flicks.LastSeenSpec | src/main.rs:3551-3593 | the last-pitch map holds exactly the players seen so far, each with the tick and pitch of its last record |
| Flicks.LastSeenOther | src/main.rs:3551-3593 | a record of another player leaves a player's entry as it was |
| Flicks.Raised | src/main.rs:3551-3593 | one verdict per record |
| Flicks.RaisedAt | src/main.rs:3551-3593 | record i is judged against the last-pitch map of the records before it |
| Flicks.FirstRecordNeverFlicks | src/main.rs:3561-3590 | a player's first record never yields a flick |
| Flicks.LaterRecordFlicks | src/main.rs:3561-3590 | a later record is a flick exactly when the pitch speed since the player's previous record passes the threshold, raised by 20% per tick of the gap once the gap exceeds two ticks; the flick carries the player, name, tick and absolute pitch change |
| Flicks.CollectStep | src/main.rs:3551-3593 | one record adds its flick, if any, and updates its player's entry |
| Flicks.CollectFlicks | src/main.rs:3551-3593 | the loop yields the raised flicks in record order |
| Flicks.ByPitchChangeDescTotal | src/main.rs:3596 | the sort comparator is a total preorder |
| Flicks.SortedFlicks | src/main.rs:3596 | the sorted flicks are in descending pitch change and are exactly the raised ones |
| Flicks.AnalyzeFlicks | src/main.rs:3522-3601 | the result is the stable sort of the raised flicks, largest change first, and holds exactly the raised flicks |
| Psilent.SamplesOfSnoc | src/main.rs:3714-3730 | one record adds one sample to its player's list only |
| Psilent.AppearanceSpec | src/main.rs:3714-3730 | the named players, the players with samples and the appearance order agree, and the order lists each player once |
| Psilent.NamesOfSnoc | src/main.rs:3714-3730 | a record sets its player's name |
| Psilent.AppearanceSnoc | src/main.rs:3714-3730 | a new player is appended to the order, and a known one changes nothing |
| Psilent.GroupedSnoc | src/main.rs:3714-3730 | the first-pass maps stay equal to their definitions on the records read so far |
| Psilent.CollectAngles | src/main.rs:3714-3730 | the first pass builds the name map, each player's samples in record order, and the appearance order |
| Psilent.WindowHitsMembers | src/main.rs:3749-3793 | a hit is found among the first n windows iff it is the hit of one of those windows that qualifies |
| Psilent.SeriesHitsMembers | src/main.rs:3733-3794 | a hit is found in a series iff some window of it qualifies and gives that hit |
| Psilent.PlayerHitsMembers | src/main.rs:3733-3794 | a player's hits are exactly the qualifying windows of the player's tick-sorted series |
| Psilent.FewSamplesNoHits | src/main.rs:3739-3741 | a player with fewer than three samples has no qualifying window |
| Psilent.ScanWindows | src/main.rs:3749-3793 | the window loop yields the hits of all windows of the sorted series, in order |
| Psilent.ScanPlayer | src/main.rs:3733-3794 | one player: the samples are sorted by tick, short series are skipped, and the windows are scanned |
| Psilent.MapGroupsOfRecords | src/main.rs:3733-3794 | hit lists computed from the first-pass maps equal those defined on the records |
| Psilent.ScanPlayers | src/main.rs:3733-3794 | the second pass concatenates the players' hit lists in order |
| Psilent.AllHitsSound | src/main.rs:3733-3794 | every hit comes from a qualifying window of some player |
| Psilent.AllHitsComplete | src/main.rs:3733-3794 | every qualifying window of every player is reported |
| Psilent.AllHitsMembers | src/main.rs:3733-3794 | a hit is reported iff it is the hit of a qualifying window of a player's tick-sorted series |
| Psilent.ByHitTickTotal | src/main.rs:3797 | the tick comparator is a total preorder |
| Psilent.AnalyzePsilent | src/main.rs:3681-3802 | the result is the stable tick sort of all hits; ticks are non-decreasing; a hit is reported iff some player's series has a qualifying window for it |
| OobPitch.TickRange | src/main.rs:3974 | `start..=end` lists the ticks from start to end in order, and is empty when start > end |
| OobPitch.AddTicksShape | src/main.rs:3974-3981 | reporting a range keeps the earlier list as a prefix and adds only entries for the player with the run's name and pitch; without the duplicate check it adds every tick in order |
| OobPitch.AddTicksNoRepeat | src/main.rs:4025-4034 | with the duplicate check, no added tick repeats a player/tick pair already reported |
| OobPitch.AddTicksCovers | src/main.rs:4025-4034 | afterwards every tick of the range is reported for the player |
| OobPitch.RunOf | src/main.rs:3956-4011 | the open run is no longer than the player's counted records |
| OobPitch.RunOfSuffix | src/main.rs:3956-4011 | the open run is a suffix of the player's counted records, made only of violations, and is not empty when the last record violates |
| OobPitch.RunOfStep | src/main.rs:3956-4037 | a record ends the run, restarts it at itself, or extends it |
| OobPitch.RunOfContiguous | src/main.rs:3947-3951 | consecutive records of a run are at most `MAX_TICK_GAP` ticks apart |
| OobPitch.RunOfMaximal | src/main.rs:3947-4037 | a run cannot be extended backwards: the record just before it is legal or lies more than `MAX_TICK_GAP` ticks before it |
| OobPitch.MaxAbsPitch | src/main.rs:3986-3995 | the run's maximum pitch bounds every record's absolute pitch and is attained |
| OobPitch.SummariseSnoc | src/main.rs:3988-3995 | the source's counters (start, max pitch, count) after extending a run summarise the extended run |
| OobPitch.CountedOfSnoc | src/main.rs:3926-3935 | a counted record extends its player's counted records, and a skipped one changes nothing |
| OobPitch.StepMaps | src/main.rs:3947-4037 | how one record updates the last-tick and open-run maps |
| OobPitch.StepMapsLegal | src/main.rs:4011-4037 | a legal pitch records the tick and ends the player's open run |
| OobPitch.StepMapsViolation | src/main.rs:3956-4010 | a violation records the tick and restarts the run after a gap or when none is open, and otherwise extends it |
| OobPitch.StepTracksSelf | src/main.rs:3947-4037 | the record's player stays tracked: its last tick and open run match its records |
| OobPitch.StepTracksOther | src/main.rs:3923-3935 | other players, and everyone on a skipped record, keep their entries |
| OobPitch.StepTracksAt | src/main.rs:3921-4037 | one step preserves the tracking of any given player |
| OobPitch.StepTracks | src/main.rs:3921-4037 | one step preserves the invariant linking the maps to the records |
| OobPitch.ProcessTracks | src/main.rs:3921-4037 | after any prefix of the records, the state's last-tick and open-run maps agree with each player's records |
| OobPitch.SkippedRecord | src/main.rs:3923-3935 | a record in the ignore window or with a `NaN` pitch only updates the player's name |
| OobPitch.StepCloses | src/main.rs:3956-4037 | on the state, a record closes the open run on a legal pitch or a gap, extends it otherwise, and reports the live tick from the fourth violation |
| OobPitch.StepOnRecords | src/main.rs:3956-4037 | on the records: a closing run with at least 4 violations spanning at least 5 ticks becomes the period up to the tick before the closing record, and all its ticks are reported with its largest pitch (deduplicated only on a legal-pitch close); a violation within the gap is reported live from the fourth one; nothing else reports |
| OobPitch.StepOnRun | src/main.rs:3956-4037 | `StepOnRecords`, stated on the state given the run the state keeps |
| OobPitch.GapCloseRepeatsTick | src/main.rs:3963-3982 | a run closed by a gap reports its whole range again: violations at ticks 10-13 then 20 report tick 13 twice |
| OobPitch.ExampleLive | src/main.rs:3997-4005 | in that example the fourth violation is reported at once |
| OobPitch.ExampleRun | src/main.rs:3988-4010 | in that example the first three violations open a run and report nothing |
| OobPitch.ProcessSnoc | src/main.rs:3921-4037 | the main loop is one step per record |
| OobPitch.EndOfInput | src/main.rs:4041-4064 | closing at the end keeps the earlier reports; every added tick is new for its player and lies in that player's open run, which has at least 4 violations spanning at least 5 ticks, reported with the run's largest pitch and the player's name, or `Unknown (id)` without one |
| OobPitch.CloseAtEndShape | src/main.rs:4041-4064 | the end closes keep the maps and the earlier reports; they add no repeated player/tick pair; every added tick lies in a gate-passing open run and carries the player's name or the fallback |
| OobPitch.CloseEndDetections | src/main.rs:4041-4064 | one player's end close keeps the maps and appends, without repeats, ticks of its gate-passing open run |
| OobPitch.CloseAtEndPeriods | src/main.rs:4041-4051 | the end closes keep the names and every earlier period; each listed player whose open run passes the gate ends with the period from the run's start to its last tick, with the run's largest pitch |
| OobPitch.CloseEndStep | src/main.rs:4041-4051 | one player's end close pushes that period exactly when its open run passes the gate, and keeps the maps |
| OobPitch.CloseAtEndTicks | src/main.rs:4053-4062 | every tick from the start to the last tick of a gate-passing open run is reported for its player |
| OobPitch.CountedAppears | src/main.rs:3921-3934 | a player with counted records is among the players seen |
| OobPitch.EndOfInputCovers | src/main.rs:4041-4064 | a player whose closing run passes the gate gets the period of that run, from its first to its last tick with its largest pitch, and every tick of that range is reported for it |
| OobPitch.AlreadyReported | src/main.rs:4026 | the duplicate search answers whether the player/tick pair is already reported |
| OobPitch.ReportTicks | src/main.rs:4025-4034 | the tick loop reports exactly `AddTicks` of the range |
| OobPitch.CloseRun | src/main.rs:4015-4035 | closing a run adds the period and its ticks exactly when the run passes the gate |
| OobPitch.ProcessRecord | src/main.rs:3921-4037 | the loop body computes one step |
| OobPitch.ProcessRecords | src/main.rs:3921-4037 | the main loop computes the state after all records, and the order of first appearance |
| OobPitch.CloseOpenRuns | src/main.rs:4041-4064 | the end-of-input loop closes the open runs in the given order |
| OobPitch.ByPlayerTickTotal | src/main.rs:4067-4073 | the player/tick comparator is a total preorder |
| OobPitch.SortedDetections | src/main.rs:4067-4073 | the sorted detections are ordered by player id, then by tick |
| OobPitch.SummariesMembers | src/main.rs:4113-4153 | a summary line exists exactly for each listed player with a period, with its name, period count and first period's start |
| OobPitch.SummariesStep | src/main.rs:4112-4153 | one more player adds its line exactly when it has a period |
| OobPitch.SummariseState | src/main.rs:4112-4153 | the summary loop builds the per-player summary |
| OobPitch.AnalyzeOobPitch | src/main.rs:3855-4164 | the detections are the sort by player and tick of all reports: a permutation of them, and ordered; the summaries are those of the final state |
| SteamId.TrimEndBrackets | src/main.rs:3091-3101 | the trimmed text is a prefix of the input without a trailing `]`, and only `]` was removed |
| SteamId.IndexOf | src/main.rs:3091-3101 | the first position of the character |
| SteamId.Split | src/main.rs:3091-3101 | splitting gives at least one piece |
| SteamId.SplitJoin | src/main.rs:3091-3101 | the pieces joined with the separator give back the input, and no piece contains the separator |
| SteamId.ParseShow | src/main.rs:3091-3111 | a printed `u64` parses back to itself |
| SteamId.ParseCanonical | src/main.rs:3103-3111 | a canonical decimal that parses is the printed form of its value |
| SteamId.SplitFirst | src/main.rs:3091-3101 | a piece without the separator splits off first |
| SteamId.TrimSteam32 | src/main.rs:3091-3101 | trimming `[U:1:N]` removes only the closing bracket |
| SteamId.SplitSteam32 | src/main.rs:3091-3101 | `[U:1:N` splits into `[U`, `1` and N |
| SteamId.Steam32Of | src/main.rs:3091-3101 | `[U:1:N]` converts to the decimal text of N plus the base, when that fits in a `u64` |
| SteamId.RoundTrip32 | src/main.rs:3091-3111 | for 0 < N with N plus the base in range, `[U:1:N]` converts to Steam64 and back to itself |
| SteamId.AtMostBaseRefused | src/main.rs:3103-3111 | every id up to the base is refused by the 64-to-32 conversion |
| SteamId.ZeroDoesNotRoundTrip | src/main.rs:3091-3111 | `[U:1:0]` converts to the base itself, which does not convert back |
| SteamId.RoundTrip64 | src/main.rs:3091-3111 | a canonical Steam64 id that converts to Steam32 converts back to itself |
| SteamId.NormalizePair | src/main.rs:3113-3127 | a normalised pair has a Steam32 form containing `[U:1:` and an all-digit Steam64 form; the first converts to the second whenever the second is canonical |
| PlayerList.MarkedIds | src/main.rs:2818-2831 | the set of marked SteamIDs is exactly the list's ids |
| PlayerList.CountMarked | src/main.rs:2818-2831 | the count is the number of players in the demo's map whose SteamID is marked, and the total is the size of the map; the count never exceeds the total |
| PlayerList.MarkedNamesAdd | src/main.rs:2818-2831 | one more player adds one to the count exactly when that player is marked |
| PlayerList.MarkedAtMostAll | src/main.rs:2818-2831 | the marked count is at most the number of players |
| PlayerList.LowerAll | src/main.rs:3255-3266 | lower-casing maps each character and keeps the length |
| PlayerList.FilterKeptMembers | src/main.rs:3255-3266 | the filter keeps exactly the players the closure accepts, and no more than there were |
| PlayerList.SelectsKeptSnoc | src/main.rs:3255-3266 | a kept player appended to the input is appended to the filtered list |
| PlayerList.SelectsDropSnoc | src/main.rs:3255-3266 | a rejected player appended to the input leaves the filtered list as it was |
| PlayerList.FilterKeptOrder | src/main.rs:3255-3266 | the filter's output is the subsequence, in input order, of exactly the accepted players |
| PlayerList.FilteredPlayersSpec | src/main.rs:3249-3271 | an empty exclude text shows every player; otherwise a player is shown iff neither its SteamID nor its name, lower-cased, contains the lower-cased text, and the shown players keep their order |
| PlayerList.EmptyExcludeMatchesAll | src/main.rs:3255-3266 | every text contains the empty one, so the empty-text case is what keeps everyone visible |
| Decimal.Show | src/main.rs:3091-3111 | the printed decimal is canonical (digits, no leading zero) |
| Decimal.ValueShow | src/main.rs:3091-3111 | the printed decimal denotes the number |
| Decimal.ShowValue | src/main.rs:3091-3111 | a canonical decimal is the printed form of its value |
| Decimal.ShowInjective | src/main.rs:3091-3111 | distinct numbers print differently |
| Sorting.Insert | src/main.rs:3596 | insertion adds exactly the element |
| Sorting.Sort | src/main.rs:3596 | sorting is a permutation |
| Sorting.InsertSorted | src/main.rs:3596 | inserting into a sorted list keeps it sorted |
| Sorting.SortSorted | src/main.rs:3596 | the sort's output is ordered by any total preorder |
| Sorting.SortMembers | src/main.rs:3596 | sorting keeps exactly the elements it was given |
| Sorting.InsertStable | src/main.rs:3596 | inserting passes no element of the same rank |
| Sorting.SortStable | src/main.rs:3596 | the sort is stable: elements of equal rank keep their relative order |
| Types.TickGap | src/main.rs:3947-3954 | the `u32` tick difference is exact when the tick is not earlier, and wraps by 2^32 when it is |

## Left out

- The GUI, the file dialogs, and reading and writing files are not modelled. The CSV parsing by `csv::Reader` is not modelled either; the analyzers start from parsed records, so the error paths for unreadable files and malformed rows are absent.
- The demo parser is outside this model. Packets enter `CheatDemoHandler.HandlePacket` as a four-way datatype. A message packet carries only whether it holds messages.
- Algorithms other than the view-angle analyzer are modelled as functions of the analyser state (`Algorithm.External`). Their own logic is outside the core.
- Floating point is modelled as real arithmetic. Not modelled: `f32` rounding, `NaN` in the CSV delta columns beyond the `NaN` token, the `{:.2}` formatting of CSV cells, and the flick magnitude (a square root) in the detection payload.
- The `LATEST_OOB_SUMMARY` thread-local, the summary text file, and its "end of demo" display for `u32::MAX` are left out. `OobPitch.AnalyzeOobPitch` returns the summaries directly.
- `analyze_and_display_*`, `print_detection_json`, `print_metadata`, the debug `println!` output and the silent flag are I/O only.
- In `analyze_demo`, the `f32` percentage and `needs_warning` are left out; only the marked count and the total are modelled.
- `update_filtered_players`: the 250 ms throttle (a clock) and the `last_filter_string` cache are left out.
- PlayerList.LowerAll: `to_lowercase` is modelled for ASCII letters only. Unicode case mapping, which can change the length, is not modelled.
- SteamId.Steam32To64: `str::parse::<u64>` is modelled for an optional `+` followed by ASCII digits. That is the full input language Rust accepts for unsigned integers.
- Hash-map iteration order is a sequence in the model:
  - the batch analyzers use first appearance in the records;
  - `CountMarked` counts over the map's key set.
  - The order affects only the relative order of equal-tick psilent hits and of end-of-input reports before sorting. The summaries' line order is the model's order.
- Position data in the flick and psilent records is not used by the source and is not modelled.
- Integer wrap-around follows release builds. A debug build panics instead on `tick_count + 1` at `u32::MAX`, on `record.tick - start_tick` when ticks go backwards, and on the SteamID addition near 2^64. Ticks are therefore not required to be non-decreasing: a backwards tick gives the wrapped, huge gap.
- OobPitch.Run: the violation counter of an open run is a `nat`, not a `u32`, since a run of 2^32 records is not reachable.
- Psilent.IsPsilentWindow: the test `tick1 + 1 == tick2` is compared on unbounded integers. The series is sorted, so it cannot overflow where it matters.

Modelled as written:

- An out-of-bounds record skipped for the ignore window or a `NaN` pitch still updates the player's name, because the name is stored before the skip (`src/main.rs:3923`).
- A run closed by a tick gap reports its ticks without the duplicate check that a legal-pitch close applies. A tick already reported live is therefore reported again (`OobPitch.GapCloseRepeatsTick`).
