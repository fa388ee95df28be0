/**
 * `analyze_oob_pitch` (src/main.rs): follows each player's runs of
 * out-of-bounds pitch through the extractor's CSV rows. A record of a run that
 * has reached four consecutive violations is reported at once; a run that is
 * closed (by a gap, a legal pitch, or the end of the input) with at least four
 * violations lasting at least five ticks becomes a violation period whose every
 * tick is reported with the run's largest pitch. The result is sorted by player
 * and tick, and a per-player summary of the periods is returned beside it.
 */
module OobPitch {
  import opened Wrappers
  import opened Types
  import opened Sorting
  import Decimal

  const MIN_CONSECUTIVE_TICKS: nat := 4
  const MAX_TICK_GAP: nat := 2
  const IGNORE_INITIAL_TICKS: nat := 10
  const MINIMUM_VIOLATION_DURATION: nat := 5

  /** The fields of a row the analysis reads; a `NaN` pitch is `None`. */
  datatype OobRecord = OobRecord(tick: u32, playerId: u64, playerName: string, pitch: Option<real>)

  /** A reported tick: player, name, tick and pitch. */
  datatype OobDetection = OobDetection(playerId: u64, playerName: string, tick: u32, pitch: real)

  /** An open run: its first tick, its largest absolute pitch, and its number of violations. */
  datatype Run = Run(start: u32, maxPitch: real, count: nat)

  /** A closed run that passed the gate: first tick, last tick, largest absolute pitch. */
  datatype Period = Period(start: u32, end: u32, maxPitch: real)

  /** A player's entry in the summary: name, number of periods, first period's start. */
  datatype Summary = Summary(playerName: string, periodCount: nat, firstStart: u32)

  /** The analysis state: `player_names`, `last_tick_by_player`, `active_violations`, `violation_periods`, `oob_detections`. */
  datatype OobState = OobState(
    names: map<u64, string>,
    lastTick: map<u64, u32>,
    active: map<u64, Run>,
    periods: map<u64, seq<Period>>,
    detections: seq<OobDetection>)

  const START: OobState := OobState(map[], map[], map[], map[], [])

  /** Records inside the ignore window or with a `NaN` pitch are skipped. */
  predicate IsCounted(r: OobRecord)
  {
    r.tick >= IGNORE_INITIAL_TICKS && r.pitch.Some?
  }

  function AbsPitch(r: OobRecord): real
  {
    if r.pitch.Some? then Abs(r.pitch.value) else 0.0
  }

  predicate IsViolation(r: OobRecord, threshold: real)
  {
    AbsPitch(r) > threshold
  }

  /** The gate a closing run must pass to become a period. */
  predicate Emits(run: Run, duration: u32)
  {
    run.count >= MIN_CONSECUTIVE_TICKS && duration >= MINIMUM_VIOLATION_DURATION
  }

  /** The ticks `start..=end`. */
  function TickRange(start: u32, end: u32): (ticks: seq<u32>)
    ensures |ticks| == if start <= end then end - start + 1 else 0
    ensures forall i :: 0 <= i < |ticks| ==> ticks[i] == start + i
  {
    if start > end then [] else if start == end then [end] else TickRange(start, end - 1) + [end]
  }

  /** Some detection of `dets` is player `p` at tick `t`. */
  predicate HasPair(dets: seq<OobDetection>, p: u64, t: u32)
  {
    exists k :: 0 <= k < |dets| && dets[k].playerId == p && dets[k].tick == t
  }

  /**
   * Reports `ticks` for player `p` with one pitch; with `dedupe`, a tick the
   * list already holds for `p` is not reported again.
   */
  function AddTicks(dets: seq<OobDetection>, p: u64, name: string, ticks: seq<u32>, pitch: real, dedupe: bool)
    : seq<OobDetection>
  {
    if ticks == [] then dets
    else
      var t := ticks[|ticks| - 1];
      var d := AddTicks(dets, p, name, ticks[..|ticks| - 1], pitch, dedupe);
      if dedupe && HasPair(d, p, t) then d else d + [OobDetection(p, name, t, pitch)]
  }

  function AppendPeriod(periods: map<u64, seq<Period>>, p: u64, period: Period): map<u64, seq<Period>>
  {
    periods[p := (if p in periods then periods[p] else []) + [period]]
  }

  /** Closes `run` of player `p` at `end`, if it passes the gate with duration `duration`. */
  function Close(st: OobState, p: u64, name: string, run: Run, duration: u32, end: u32, dedupe: bool): OobState
  {
    if Emits(run, duration) then
      st.(periods := AppendPeriod(st.periods, p, Period(run.start, end, run.maxPitch)),
          detections := AddTicks(st.detections, p, name, TickRange(run.start, end), run.maxPitch, dedupe))
    else st
  }

  /** One record of the main loop. */
  function Step(st: OobState, r: OobRecord, threshold: real): OobState
  {
    var p := r.playerId;
    var st := st.(names := st.names[p := r.playerName]);
    if !IsCounted(r) then st
    else
      var absPitch := AbsPitch(r);
      var hasGap := p in st.lastTick && TickGap(r.tick, st.lastTick[p]) > MAX_TICK_GAP;
      var st := st.(lastTick := st.lastTick[p := r.tick]);
      if absPitch > threshold then
        if p in st.active then
          var run := st.active[p];
          if hasGap then
            var closed := Close(st, p, r.playerName, run, TickGap(r.tick, run.start), r.tick - 1, false);
            closed.(active := closed.active[p := Run(r.tick, absPitch, 1)])
          else
            var count := run.count + 1;
            var maxPitch := if absPitch > run.maxPitch then absPitch else run.maxPitch;
            st.(active := st.active[p := Run(run.start, maxPitch, count)],
                detections := st.detections +
                  (if count >= MIN_CONSECUTIVE_TICKS then [OobDetection(p, r.playerName, r.tick, absPitch)] else []))
        else
          st.(active := st.active[p := Run(r.tick, absPitch, 1)])
      else if p in st.active then
        var run := st.active[p];
        Close(st.(active := st.active - {p}), p, r.playerName, run, TickGap(r.tick, run.start), r.tick - 1, true)
      else st
  }

  /** The state after the main loop over `records`. */
  function Process(records: seq<OobRecord>, threshold: real): OobState
  {
    if records == [] then START
    else Step(Process(records[..|records| - 1], threshold), records[|records| - 1], threshold)
  }

  /** The name used at the end of the input, with the source's fallback. */
  function NameOf(st: OobState, p: u64): string
  {
    if p in st.names then st.names[p] else "Unknown (" + Decimal.Show(p) + ")"
  }

  /** End of input: close the open runs of the players `ps`, in that order, at their last tick. */
  function CloseAtEnd(st: OobState, ps: seq<u64>): OobState
  {
    if ps == [] then st
    else
      var st := CloseAtEnd(st, ps[..|ps| - 1]);
      var p := ps[|ps| - 1];
      if p in st.active then
        var run := st.active[p];
        var last := if p in st.lastTick then st.lastTick[p] else run.start;
        Close(st, p, NameOf(st, p), run, TickGap(last, run.start), last, true)
      else st
  }

  /** Players in order of first appearance (the model's iteration order of the source's maps). */
  function Appearance(records: seq<OobRecord>): seq<u64>
  {
    if records == [] then []
    else
      var r := records[|records| - 1];
      var ps := Appearance(records[..|records| - 1]);
      if r.playerId in ps then ps else ps + [r.playerId]
  }

  /** By player id, then by tick. */
  function ByPlayerTick(a: OobDetection, b: OobDetection): bool
  {
    a.playerId < b.playerId || (a.playerId == b.playerId && a.tick <= b.tick)
  }

  lemma ByPlayerTickTotal()
    ensures TotalPreorder(ByPlayerTick)
  {
  }

  /** One summary per player of `ps` with at least one period. */
  function Summaries(st: OobState, ps: seq<u64>): seq<Summary>
  {
    if ps == [] then []
    else
      var p := ps[|ps| - 1];
      Summaries(st, ps[..|ps| - 1]) +
        (if p in st.periods && |st.periods[p]| > 0 then
           [Summary(NameOf(st, p), |st.periods[p]|, st.periods[p][0].start)]
         else [])
  }

  /** The final state: the main loop, then the end-of-input closes. */
  function Analysis(records: seq<OobRecord>, threshold: real): OobState
  {
    CloseAtEnd(Process(records, threshold), Appearance(records))
  }

  // ---------------------------------------------------------------------------
  // Reporting ticks

  /**
   * Reporting keeps the list as a prefix and appends only entries for `p` with
   * the given name and pitch at ticks of the range; without `dedupe` it appends
   * every tick of the range, in order.
   */
  lemma {:induction false} AddTicksShape(dets: seq<OobDetection>, p: u64, name: string, ticks: seq<u32>, pitch: real, dedupe: bool)
    ensures var r := AddTicks(dets, p, name, ticks, pitch, dedupe);
      && |r| >= |dets| && r[..|dets|] == dets
      && (forall k :: |dets| <= k < |r| ==>
            r[k].playerId == p && r[k].playerName == name && r[k].pitch == pitch && r[k].tick in ticks)
      && (!dedupe ==> r == dets + seq(|ticks|, i requires 0 <= i < |ticks| => OobDetection(p, name, ticks[i], pitch)))
  {
    if ticks != [] {
      var n := |ticks| - 1;
      AddTicksShape(dets, p, name, ticks[..n], pitch, dedupe);
      var d := AddTicks(dets, p, name, ticks[..n], pitch, dedupe);
      var r := AddTicks(dets, p, name, ticks, pitch, dedupe);
      assert r == d || r == d + [OobDetection(p, name, ticks[n], pitch)];
      assert r[..|d|] == d;
      forall k | |dets| <= k < |r|
        ensures r[k].playerId == p && r[k].playerName == name && r[k].pitch == pitch && r[k].tick in ticks
      {
        if k < |d| {
          assert r[k] == d[k] && d[k].tick in ticks[..n];
        }
      }
      if !dedupe {
        assert r == d + [OobDetection(p, name, ticks[n], pitch)];
        assert seq(|ticks|, i requires 0 <= i < |ticks| => OobDetection(p, name, ticks[i], pitch)) ==
          seq(n, i requires 0 <= i < n => OobDetection(p, name, ticks[..n][i], pitch)) + [OobDetection(p, name, ticks[n], pitch)];
      }
    }
  }

  /** No entry of `dets` from index `from` on repeats the (player, tick) pair of an earlier entry. */
  ghost predicate NoRepeatFrom(dets: seq<OobDetection>, from: nat)
  {
    forall k :: from <= k < |dets| ==> !HasPair(dets[..k], dets[k].playerId, dets[k].tick)
  }

  /**
   * With `dedupe`, no reported tick repeats a (player, tick) pair already in
   * the list, nor one reported earlier in the same call.
   */
  lemma {:induction false} AddTicksNoRepeat(dets: seq<OobDetection>, p: u64, name: string, ticks: seq<u32>, pitch: real)
    ensures NoRepeatFrom(AddTicks(dets, p, name, ticks, pitch, true), |dets|)
  {
    if ticks != [] {
      var n := |ticks| - 1;
      AddTicksNoRepeat(dets, p, name, ticks[..n], pitch);
      var d := AddTicks(dets, p, name, ticks[..n], pitch, true);
      var r := AddTicks(dets, p, name, ticks, pitch, true);
      assert r == d || (r == d + [OobDetection(p, name, ticks[n], pitch)] && !HasPair(d, p, ticks[n]));
      forall k | |dets| <= k < |r|
        ensures !HasPair(r[..k], r[k].playerId, r[k].tick)
      {
        if k < |d| {
          assert r[..k] == d[..k] && r[k] == d[k];
        } else {
          assert r[..k] == d;
        }
      }
    }
  }

  /** With or without `dedupe`, every tick of the range is reported for `p` afterwards. */
  lemma {:induction false} AddTicksCovers(dets: seq<OobDetection>, p: u64, name: string, ticks: seq<u32>, pitch: real, dedupe: bool)
    ensures var r := AddTicks(dets, p, name, ticks, pitch, dedupe);
      forall t :: t in ticks ==> HasPair(r, p, t)
  {
    if ticks != [] {
      var n := |ticks| - 1;
      var t := ticks[n];
      AddTicksCovers(dets, p, name, ticks[..n], pitch, dedupe);
      var d := AddTicks(dets, p, name, ticks[..n], pitch, dedupe);
      var r := AddTicks(dets, p, name, ticks, pitch, dedupe);
      forall u | u in ticks
        ensures HasPair(r, p, u)
      {
        if u != t {
          assert u in ticks[..n];
          var j :| 0 <= j < |d| && d[j].playerId == p && d[j].tick == u;
          assert r[j] == d[j];
        } else if r != d {
          assert r[|d|].playerId == p && r[|d|].tick == t;
        }
      }
    }
  }

  // ---------------------------------------------------------------------------
  // The current run of a player, defined on its records

  /** Player `p`'s counted records, in order. */
  function CountedOf(records: seq<OobRecord>, p: u64): seq<OobRecord>
  {
    if records == [] then []
    else
      var r := records[|records| - 1];
      CountedOf(records[..|records| - 1], p) + (if r.playerId == p && IsCounted(r) then [r] else [])
  }

  /** The open run after a player's counted records `s`: the violations since the last legal pitch or gap. */
  function RunOf(s: seq<OobRecord>, threshold: real): (run: seq<OobRecord>)
    ensures |run| <= |s|
  {
    if s == [] then []
    else
      var init := s[..|s| - 1];
      var r := s[|s| - 1];
      if !IsViolation(r, threshold) then []
      else
        var run := RunOf(init, threshold);
        if run != [] && TickGap(r.tick, init[|init| - 1].tick) <= MAX_TICK_GAP then run + [r] else [r]
  }

  /** Consecutive records of `s` are at most `MAX_TICK_GAP` ticks apart. */
  ghost predicate Contiguous(s: seq<OobRecord>)
  {
    forall i :: 0 < i < |s| ==> TickGap(s[i].tick, s[i - 1].tick) <= MAX_TICK_GAP
  }

  ghost predicate AllViolations(s: seq<OobRecord>, threshold: real)
  {
    forall i :: 0 <= i < |s| ==> IsViolation(s[i], threshold)
  }

  /** The run is a suffix of the records, made of violations only, and not empty when the last record violates. */
  lemma {:induction false} RunOfSuffix(s: seq<OobRecord>, threshold: real)
    ensures var run := RunOf(s, threshold);
      && run == s[|s| - |run|..]
      && AllViolations(run, threshold)
      && (s != [] && IsViolation(s[|s| - 1], threshold) ==> run != [])
  {
    if s != [] {
      var init := s[..|s| - 1];
      var r := s[|s| - 1];
      RunOfSuffix(init, threshold);
      var prev := RunOf(init, threshold);
      var run := RunOf(s, threshold);
      RunOfStep(s, threshold);
      if run == [r] {
        assert s[|s| - 1..] == [r];
      } else if run != [] {
        assert run == prev + [r];
        assert s == init + [r];
        SuffixSnoc(init, |prev|, r);
        AllViolationsSnoc(prev, r, threshold);
      }
    }
  }

  lemma SuffixSnoc(init: seq<OobRecord>, k: nat, r: OobRecord)
    requires k <= |init|
    ensures (init + [r])[|init| - k..] == init[|init| - k..] + [r]
  {
  }

  lemma AllViolationsSnoc(prev: seq<OobRecord>, r: OobRecord, threshold: real)
    requires AllViolations(prev, threshold) && IsViolation(r, threshold)
    ensures AllViolations(prev + [r], threshold)
  {
    forall i | 0 <= i < |prev| + 1
      ensures IsViolation((prev + [r])[i], threshold)
    {
      if i < |prev| {
        assert (prev + [r])[i] == prev[i];
      }
    }
  }

  /** The three ways a record can leave the run: ended, restarted at the record, or extended by it. */
  lemma RunOfStep(s: seq<OobRecord>, threshold: real)
    requires s != []
    ensures var init := s[..|s| - 1];
      var r := s[|s| - 1];
      var prev := RunOf(init, threshold);
      var run := RunOf(s, threshold);
      && (!IsViolation(r, threshold) <==> run == [])
      && (IsViolation(r, threshold) && (prev == [] || TickGap(r.tick, init[|init| - 1].tick) > MAX_TICK_GAP) ==> run == [r])
      && (IsViolation(r, threshold) && prev != [] && TickGap(r.tick, init[|init| - 1].tick) <= MAX_TICK_GAP ==>
            run == prev + [r])
  {
  }

  /** Consecutive records of the run are at most `MAX_TICK_GAP` ticks apart. */
  lemma {:induction false} RunOfContiguous(s: seq<OobRecord>, threshold: real)
    ensures Contiguous(RunOf(s, threshold))
  {
    if s != [] {
      var init := s[..|s| - 1];
      RunOfContiguous(init, threshold);
      RunOfSuffix(init, threshold);
      var prev := RunOf(init, threshold);
      var run := RunOf(s, threshold);
      if |run| > 1 {
        assert run == prev + [s[|s| - 1]];
        assert prev[|prev| - 1] == init[|init| - 1];
        forall i | 0 < i < |run|
          ensures TickGap(run[i].tick, run[i - 1].tick) <= MAX_TICK_GAP
        {
          if i < |run| - 1 {
            assert run[i] == prev[i] && run[i - 1] == prev[i - 1];
          }
        }
      }
    }
  }

  /**
   * The run cannot be extended backwards: the record just before it, if any,
   * is legal or lies more than `MAX_TICK_GAP` ticks before it.
   */
  lemma {:induction false} RunOfMaximal(s: seq<OobRecord>, threshold: real)
    ensures var run := RunOf(s, threshold);
      0 < |run| < |s| ==>
        var before := s[|s| - |run| - 1];
        !IsViolation(before, threshold) || TickGap(run[0].tick, before.tick) > MAX_TICK_GAP
  {
    if s != [] {
      var init := s[..|s| - 1];
      var r := s[|s| - 1];
      RunOfMaximal(init, threshold);
      RunOfStep(s, threshold);
      var prev := RunOf(init, threshold);
      var run := RunOf(s, threshold);
      if run == [r] && |s| > 1 {
        assert s[|s| - 2] == init[|init| - 1];
        if prev == [] && |init| > 0 {
          RunOfSuffix(init, threshold);
        }
      } else if run != [] && run != [r] && |run| < |s| {
        assert run == prev + [r] && |prev| < |init|;
        assert s[|s| - |run| - 1] == init[|init| - |prev| - 1];
        assert run[0] == prev[0];
      }
    }
  }

  /** The largest absolute pitch of a run. */
  function MaxAbsPitch(run: seq<OobRecord>): (m: real)
    requires run != []
    ensures forall i :: 0 <= i < |run| ==> AbsPitch(run[i]) <= m
    ensures exists i :: 0 <= i < |run| && AbsPitch(run[i]) == m
  {
    if |run| == 1 then AbsPitch(run[0])
    else
      var m := MaxAbsPitch(run[..|run| - 1]);
      var a := AbsPitch(run[|run| - 1]);
      var r := if a > m then a else m;
      assert forall i :: 0 <= i < |run| - 1 ==> run[i] == run[..|run| - 1][i];
      if a > m then r
      else
        var i :| 0 <= i < |run| - 1 && AbsPitch(run[..|run| - 1][i]) == m;
        assert run[i] == run[..|run| - 1][i];
        r
  }

  /** What the state keeps for an open run. */
  function Summarise(run: seq<OobRecord>): Run
    requires run != []
  {
    Run(run[0].tick, MaxAbsPitch(run), |run|)
  }

  /** Player `q`'s entries in the state agree with its records: a last tick iff it
   * has counted records, the last one's; an open run iff `RunOf` is not empty,
   * summarised. */
  ghost predicate TracksAt(records: seq<OobRecord>, st: OobState, threshold: real, q: u64)
  {
    var s := CountedOf(records, q);
    && (q in st.lastTick <==> s != [])
    && (q in st.lastTick ==> st.lastTick[q] == s[|s| - 1].tick)
    && (q in st.active <==> RunOf(s, threshold) != [])
    && (q in st.active ==> st.active[q] == Summarise(RunOf(s, threshold)))
  }

  /** The state's per-player maps agree with the records. */
  ghost predicate Tracks(records: seq<OobRecord>, st: OobState, threshold: real)
  {
    forall q :: TracksAt(records, st, threshold, q)
  }

  lemma CountedOfSnoc(records: seq<OobRecord>, r: OobRecord, p: u64)
    ensures CountedOf(records + [r], p) ==
      CountedOf(records, p) + (if r.playerId == p && IsCounted(r) then [r] else [])
  {
    assert (records + [r])[..|records|] == records;
  }

  /** What one record does to the last-tick and open-run maps. */
  lemma StepMaps(st: OobState, r: OobRecord, threshold: real)
    ensures var next := Step(st, r, threshold);
      var p := r.playerId;
      && next.lastTick == (if IsCounted(r) then st.lastTick[p := r.tick] else st.lastTick)
      && (!IsCounted(r) ==> next.active == st.active)
      && (IsCounted(r) && !IsViolation(r, threshold) ==> next.active == st.active - {p})
      && (IsCounted(r) && IsViolation(r, threshold) &&
            (p !in st.active || (p in st.lastTick && TickGap(r.tick, st.lastTick[p]) > MAX_TICK_GAP)) ==>
            next.active == st.active[p := Run(r.tick, AbsPitch(r), 1)])
      && (IsCounted(r) && IsViolation(r, threshold) && p in st.active &&
            !(p in st.lastTick && TickGap(r.tick, st.lastTick[p]) > MAX_TICK_GAP) ==>
            var run := st.active[p];
            next.active == st.active[p := Run(run.start, if AbsPitch(r) > run.maxPitch then AbsPitch(r) else run.maxPitch, run.count + 1)])
  {
    if !IsCounted(r) {
    } else if !IsViolation(r, threshold) {
      StepMapsLegal(st, r, threshold);
    } else {
      StepMapsViolation(st, r, threshold);
    }
  }

  lemma StepMapsLegal(st: OobState, r: OobRecord, threshold: real)
    requires IsCounted(r) && !IsViolation(r, threshold)
    ensures var next := Step(st, r, threshold);
      next.lastTick == st.lastTick[r.playerId := r.tick] && next.active == st.active - {r.playerId}
  {
  }

  lemma StepMapsViolation(st: OobState, r: OobRecord, threshold: real)
    requires IsCounted(r) && IsViolation(r, threshold)
    ensures var next := Step(st, r, threshold);
      var p := r.playerId;
      && next.lastTick == st.lastTick[p := r.tick]
      && ((p !in st.active || (p in st.lastTick && TickGap(r.tick, st.lastTick[p]) > MAX_TICK_GAP)) ==>
            next.active == st.active[p := Run(r.tick, AbsPitch(r), 1)])
      && (p in st.active && !(p in st.lastTick && TickGap(r.tick, st.lastTick[p]) > MAX_TICK_GAP) ==>
            var run := st.active[p];
            next.active == st.active[p := Run(run.start, if AbsPitch(r) > run.maxPitch then AbsPitch(r) else run.maxPitch, run.count + 1)])
  {
  }

  /** Extending a run by a record updates its summary as the source's counters do. */
  lemma SummariseSnoc(run: seq<OobRecord>, r: OobRecord)
    requires run != []
    ensures var m := MaxAbsPitch(run);
      Summarise(run + [r]) == Run(run[0].tick, if AbsPitch(r) > m then AbsPitch(r) else m, |run| + 1)
  {
    assert (run + [r])[..|run|] == run;
  }

  /** The player of the record: its counted records grow by the record. */
  lemma StepTracksSelf(records: seq<OobRecord>, st: OobState, r: OobRecord, threshold: real)
    requires TracksAt(records, st, threshold, r.playerId)
    requires IsCounted(r)
    ensures TracksAt(records + [r], Step(st, r, threshold), threshold, r.playerId)
  {
    var p := r.playerId;
    CountedOfSnoc(records, r, p);
    var s := CountedOf(records, p);
    var s' := s + [r];
    assert s'[..|s|] == s;
    RunOfStep(s', threshold);
    var run := RunOf(s, threshold);
    if !IsViolation(r, threshold) {
      StepMapsLegal(st, r, threshold);
    } else {
      StepMapsViolation(st, r, threshold);
      if run != [] {
        RunOfSuffix(s, threshold);
        assert run[|run| - 1] == s[|s| - 1];
        SummariseSnoc(run, r);
      }
    }
  }

  /** Any other player, or a skipped record: nothing changes for that player. */
  lemma StepTracksOther(records: seq<OobRecord>, st: OobState, r: OobRecord, threshold: real, q: u64)
    requires q != r.playerId || !IsCounted(r)
    requires TracksAt(records, st, threshold, q)
    ensures TracksAt(records + [r], Step(st, r, threshold), threshold, q)
  {
    CountedOfSnoc(records, r, q);
    assert CountedOf(records + [r], q) == CountedOf(records, q);
    StepMaps(st, r, threshold);
  }

  lemma StepTracksAt(records: seq<OobRecord>, st: OobState, r: OobRecord, threshold: real, q: u64)
    requires Tracks(records, st, threshold)
    ensures TracksAt(records + [r], Step(st, r, threshold), threshold, q)
  {
    assert TracksAt(records, st, threshold, q);
    if q == r.playerId && IsCounted(r) {
      StepTracksSelf(records, st, r, threshold);
    } else {
      StepTracksOther(records, st, r, threshold, q);
    }
  }

  lemma StepTracks(records: seq<OobRecord>, st: OobState, r: OobRecord, threshold: real)
    requires Tracks(records, st, threshold)
    ensures Tracks(records + [r], Step(st, r, threshold), threshold)
  {
    forall q {
      StepTracksAt(records, st, r, threshold, q);
    }
  }

  lemma {:induction false} ProcessTracks(records: seq<OobRecord>, threshold: real)
    ensures Tracks(records, Process(records, threshold), threshold)
  {
    if records != [] {
      var init := records[..|records| - 1];
      ProcessTracks(init, threshold);
      StepTracks(init, Process(init, threshold), records[|records| - 1], threshold);
      assert init + [records[|records| - 1]] == records;
    }
  }

  // ---------------------------------------------------------------------------
  // What one record does, in terms of the player's run

  /** A skipped record (ignore window or `NaN` pitch) only records the player's name. */
  lemma SkippedRecord(st: OobState, r: OobRecord, threshold: real)
    requires !IsCounted(r)
    ensures Step(st, r, threshold) == st.(names := st.names[r.playerId := r.playerName])
  {
  }

  /** The state's view of a record: does it close the player's open run, and with which run. */
  lemma StepCloses(st: OobState, r: OobRecord, threshold: real)
    ensures var p := r.playerId;
      var next := Step(st, r, threshold);
      var closes := IsCounted(r) && p in st.active &&
        (!IsViolation(r, threshold) || (p in st.lastTick && TickGap(r.tick, st.lastTick[p]) > MAX_TICK_GAP));
      var grows := IsCounted(r) && IsViolation(r, threshold) && p in st.active &&
        !(p in st.lastTick && TickGap(r.tick, st.lastTick[p]) > MAX_TICK_GAP);
      && (closes ==>
            var run := st.active[p];
            var closed := Close(st, p, r.playerName, run, TickGap(r.tick, run.start), r.tick - 1, !IsViolation(r, threshold));
            next.periods == closed.periods && next.detections == closed.detections)
      && (grows ==>
            next.periods == st.periods &&
            next.detections == st.detections +
              (if st.active[p].count + 1 >= MIN_CONSECUTIVE_TICKS then [OobDetection(p, r.playerName, r.tick, AbsPitch(r))] else []))
      && (!closes && !grows ==> next.periods == st.periods && next.detections == st.detections)
  {
  }

  /**
   * The emission gate, stated on the records: a record closes player `p`'s run
   * (`RunOf` its earlier records) when it is legal or lies more than
   * `MAX_TICK_GAP` ticks after the run's last record. A closed run with at
   * least `MIN_CONSECUTIVE_TICKS` violations spanning at least
   * `MINIMUM_VIOLATION_DURATION` ticks becomes the period from its first tick
   * to the tick before the closing record, with its largest absolute pitch,
   * and its ticks are reported with that pitch (skipping ticks already reported
   * for `p` only when a legal pitch closed it). A violation within the gap
   * extends the run and is reported at once when the run reaches
   * `MIN_CONSECUTIVE_TICKS`. Nothing else adds a period or a detection.
   */
  lemma {:induction false} StepOnRecords(records: seq<OobRecord>, r: OobRecord, threshold: real)
    ensures StepEffect(Process(records, threshold), Process(records + [r], threshold), r, threshold,
                       RunOf(CountedOf(records, r.playerId), threshold))
  {
    var st := Process(records, threshold);
    var p := r.playerId;
    ProcessSnoc(records, r, threshold);
    ProcessTracks(records, threshold);
    assert TracksAt(records, st, threshold, p);
    var s := CountedOf(records, p);
    var run := RunOf(s, threshold);
    if run != [] {
      RunOfSuffix(s, threshold);
      assert run[|run| - 1] == s[|s| - 1];
    }
    StepOnRun(st, r, threshold, run);
  }

  /**
   * What record `r` does to the periods and detections of `st`, giving
   * `next`, when `run` is its player's open run: the gate described above.
   */
  ghost predicate StepEffect(st: OobState, next: OobState, r: OobRecord, threshold: real, run: seq<OobRecord>)
  {
    var p := r.playerId;
    var closes := IsCounted(r) && run != [] &&
      (!IsViolation(r, threshold) || TickGap(r.tick, run[|run| - 1].tick) > MAX_TICK_GAP);
    var grows := IsCounted(r) && IsViolation(r, threshold) && run != [] &&
      TickGap(r.tick, run[|run| - 1].tick) <= MAX_TICK_GAP;
    var emits := closes && |run| >= MIN_CONSECUTIVE_TICKS && TickGap(r.tick, run[0].tick) >= MINIMUM_VIOLATION_DURATION;
    && (emits ==>
          next.periods == AppendPeriod(st.periods, p, Period(run[0].tick, r.tick - 1, MaxAbsPitch(run))) &&
          next.detections == AddTicks(st.detections, p, r.playerName, TickRange(run[0].tick, r.tick - 1),
                                      MaxAbsPitch(run), !IsViolation(r, threshold)))
    && (grows ==>
          next.periods == st.periods &&
          next.detections == st.detections +
            (if |run| + 1 >= MIN_CONSECUTIVE_TICKS then [OobDetection(p, r.playerName, r.tick, AbsPitch(r))] else []))
    && (!emits && !grows ==> next.periods == st.periods && next.detections == st.detections)
  }

  /** `StepOnRecords` on the state, given the run the state keeps for the record's player. */
  lemma StepOnRun(st: OobState, r: OobRecord, threshold: real, run: seq<OobRecord>)
    requires r.playerId in st.active <==> run != []
    requires run != [] ==>
      && st.active[r.playerId] == Summarise(run)
      && r.playerId in st.lastTick && st.lastTick[r.playerId] == run[|run| - 1].tick
    ensures StepEffect(st, Step(st, r, threshold), r, threshold, run)
  {
    StepCloses(st, r, threshold);
  }

  /**
   * As written, a run closed by a gap reports its whole range again without
   * looking for ticks already reported: four violations at ticks 10 to 13
   * report tick 13 live, and a violation at tick 20 then closes the run and
   * reports ticks 10 to 19, so tick 13 appears twice.
   */
  lemma GapCloseRepeatsTick()
    ensures var a := OobRecord(10, 7, "a", Some(90.0));
      var records := [a, a.(tick := 11), a.(tick := 12), a.(tick := 13), a.(tick := 20)];
      var dets := Process(records, 89.0).detections;
      exists i, j :: 0 <= i < j < |dets| && dets[i].playerId == dets[j].playerId == 7 && dets[i].tick == dets[j].tick == 13
  {
    var a := OobRecord(10, 7, "a", Some(90.0));
    var records := [a, a.(tick := 11), a.(tick := 12), a.(tick := 13), a.(tick := 20)];
    ExampleLive(records[..4]);
    var st := Process(records[..4], 89.0);
    ProcessSnoc(records[..4], records[4], 89.0);
    assert records == records[..4] + [records[4]];
    StepCloses(st, records[4], 89.0);
    var dets := Process(records, 89.0).detections;
    assert dets == AddTicks(st.detections, 7, "a", TickRange(10, 19), 90.0, false);
    AddTicksShape(st.detections, 7, "a", TickRange(10, 19), 90.0, false);
    assert |dets| == 11 && dets[0] == st.detections[0];
    assert dets[4] == OobDetection(7, "a", 13, 90.0);
    assert dets[0].playerId == dets[4].playerId == 7 && dets[0].tick == dets[4].tick == 13;
  }

  /** The fourth violation of the example is reported at once. */
  lemma ExampleLive(records: seq<OobRecord>)
    requires var a := OobRecord(10, 7, "a", Some(90.0));
      records == [a, a.(tick := 11), a.(tick := 12), a.(tick := 13)]
    ensures var st := Process(records, 89.0);
      && 7 in st.active && st.active[7] == Run(10, 90.0, 4) && 7 in st.lastTick && st.lastTick[7] == 13
      && st.detections == [OobDetection(7, "a", 13, 90.0)]
  {
    var st := Process(records[..3], 89.0);
    ExampleRun(records[..3]);
    ProcessSnoc(records[..3], records[3], 89.0);
    assert records == records[..3] + [records[3]];
    StepMaps(st, records[3], 89.0);
    StepCloses(st, records[3], 89.0);
  }

  /** The first three records of the example open a run with nothing reported. */
  lemma ExampleRun(records: seq<OobRecord>)
    requires var a := OobRecord(10, 7, "a", Some(90.0));
      records == [a, a.(tick := 11), a.(tick := 12)]
    ensures var st := Process(records, 89.0);
      7 in st.active && st.active[7] == Run(10, 90.0, 3) && 7 in st.lastTick && st.lastTick[7] == 12 && st.detections == []
  {
    var a := records[0];
    ProcessSnoc([], a, 89.0);
    assert [a] == [] + [a];
    StepMaps(START, a, 89.0);
    StepCloses(START, a, 89.0);
    var st := Process([a], 89.0);
    assert 7 in st.active && st.active[7] == Run(10, 90.0, 1) && 7 in st.lastTick && st.lastTick[7] == 10 && st.detections == [];
    ProcessSnoc([a], records[1], 89.0);
    assert records[..2] == [a] + [records[1]];
    StepMaps(st, records[1], 89.0);
    StepCloses(st, records[1], 89.0);
    st := Process(records[..2], 89.0);
    assert 7 in st.active && st.active[7] == Run(10, 90.0, 2) && 7 in st.lastTick && st.lastTick[7] == 11 && st.detections == [];
    ProcessSnoc(records[..2], records[2], 89.0);
    assert records == records[..2] + [records[2]];
    StepMaps(st, records[2], 89.0);
    StepCloses(st, records[2], 89.0);
  }

  lemma ProcessSnoc(records: seq<OobRecord>, r: OobRecord, threshold: real)
    ensures Process(records + [r], threshold) == Step(Process(records, threshold), r, threshold)
  {
    assert (records + [r])[..|records|] == records;
  }

  /**
   * The end of the input closes each open run at its player's last tick, as a
   * legal pitch would: the reports made before are kept, and every tick added
   * is new for its player and lies in a run that passes the gate (at least
   * `MIN_CONSECUTIVE_TICKS` violations spanning at least
   * `MINIMUM_VIOLATION_DURATION` ticks), reported with its largest pitch and
   * the player's recorded name (or the `Unknown (id)` fallback).
   * `EndOfInputCovers` states the converse: every tick of such a run is reported.
   */
  lemma EndOfInput(records: seq<OobRecord>, threshold: real)
    ensures var before := Process(records, threshold).detections;
      var after := Analysis(records, threshold).detections;
      && |after| >= |before| && after[..|before|] == before
      && NoRepeatFrom(after, |before|)
      && (forall k :: |before| <= k < |after| ==> EndReport(records, threshold, after[k]))
      && forall k :: |before| <= k < |after| ==>
           after[k].playerName == NameOf(Process(records, threshold), after[k].playerId)
  {
    var st := Process(records, threshold);
    ProcessTracks(records, threshold);
    CloseAtEndShape(st, Appearance(records));
    var after := Analysis(records, threshold).detections;
    forall k | |st.detections| <= k < |after|
      ensures EndReport(records, threshold, after[k])
    {
      var p := after[k].playerId;
      assert TracksAt(records, st, threshold, p);
      var s := CountedOf(records, p);
      var run := RunOf(s, threshold);
      RunOfSuffix(s, threshold);
      assert run[|run| - 1] == s[|s| - 1];
    }
  }

  /** Reported at the end of the input: inside a closing run of its player that passes the gate. */
  ghost predicate EndReport(records: seq<OobRecord>, threshold: real, d: OobDetection)
  {
    var run := RunOf(CountedOf(records, d.playerId), threshold);
    && run != []
    && |run| >= MIN_CONSECUTIVE_TICKS
    && TickGap(run[|run| - 1].tick, run[0].tick) >= MINIMUM_VIOLATION_DURATION
    && run[0].tick <= d.tick <= run[|run| - 1].tick
    && d.pitch == MaxAbsPitch(run)
  }

  /** A close at the end, on the state: the open run passes the gate, `d` lies in its range, and carries the end-of-input name. */
  ghost predicate EndClose(st: OobState, d: OobDetection)
  {
    var p := d.playerId;
    && p in st.active
    && var run := st.active[p];
    && var last := if p in st.lastTick then st.lastTick[p] else run.start;
    && Emits(run, TickGap(last, run.start))
    && run.start <= d.tick <= last
    && d.pitch == run.maxPitch
    && d.playerName == NameOf(st, p)
  }

  lemma {:induction false} CloseAtEndShape(st: OobState, ps: seq<u64>)
    ensures var e := CloseAtEnd(st, ps);
      && e.active == st.active && e.lastTick == st.lastTick && e.names == st.names
      && |e.detections| >= |st.detections| && e.detections[..|st.detections|] == st.detections
      && NoRepeatFrom(e.detections, |st.detections|)
      && forall k :: |st.detections| <= k < |e.detections| ==> EndClose(st, e.detections[k])
  {
    if ps != [] {
      var init := ps[..|ps| - 1];
      CloseAtEndShape(st, init);
      CloseEndDetections(st, ps);
      var m := CloseAtEnd(st, init);
      var e := CloseAtEnd(st, ps);
      assert e.detections[..|st.detections|] == m.detections[..|st.detections|];
      forall k | |st.detections| <= k < |e.detections|
        ensures !HasPair(e.detections[..k], e.detections[k].playerId, e.detections[k].tick)
        ensures EndClose(st, e.detections[k])
      {
        if k < |m.detections| {
          assert e.detections[..k] == m.detections[..k] && e.detections[k] == m.detections[k];
        }
      }
    }
  }

  /** One end close: it keeps the maps and appends, without repeats, ticks that are closes of the state before it. */
  lemma CloseEndDetections(st: OobState, ps: seq<u64>)
    requires ps != []
    ensures var m := CloseAtEnd(st, ps[..|ps| - 1]);
      var e := CloseAtEnd(st, ps);
      && e.active == m.active && e.lastTick == m.lastTick && e.names == m.names
      && |e.detections| >= |m.detections| && e.detections[..|m.detections|] == m.detections
      && NoRepeatFrom(e.detections, |m.detections|)
      && forall k :: |m.detections| <= k < |e.detections| ==> EndClose(m, e.detections[k])
  {
    var m := CloseAtEnd(st, ps[..|ps| - 1]);
    var p := ps[|ps| - 1];
    if p in m.active {
      var run := m.active[p];
      var last := if p in m.lastTick then m.lastTick[p] else run.start;
      if Emits(run, TickGap(last, run.start)) {
        var ticks := TickRange(run.start, last);
        AddTicksShape(m.detections, p, NameOf(m, p), ticks, run.maxPitch, true);
        AddTicksNoRepeat(m.detections, p, NameOf(m, p), ticks, run.maxPitch);
        var e := CloseAtEnd(st, ps);
        assert e.detections == AddTicks(m.detections, p, NameOf(m, p), ticks, run.maxPitch, true);
        forall k | |m.detections| <= k < |e.detections|
          ensures EndClose(m, e.detections[k])
        {
          assert e.detections[k].tick in ticks;
        }
      }
    }
  }

  /** The tick at which the end of the input closes `p`'s open run: `p`'s last tick, or the run's start. */
  function EndTick(st: OobState, p: u64): u32
    requires p in st.active
  {
    if p in st.lastTick then st.lastTick[p] else st.active[p].start
  }

  /** At the end of the input, `p`'s open run passes the gate. */
  ghost predicate ClosesAtEnd(st: OobState, p: u64)
  {
    p in st.active && Emits(st.active[p], TickGap(EndTick(st, p), st.active[p].start))
  }

  /**
   * The end closes keep the names and every earlier period, and each listed
   * player whose open run passes the gate ends with the period from the run's
   * start to its end tick, with the run's largest pitch.
   */
  lemma {:induction false} CloseAtEndPeriods(st: OobState, ps: seq<u64>)
    ensures var e := CloseAtEnd(st, ps);
      && e.names == st.names && e.active == st.active && e.lastTick == st.lastTick
      && (forall q :: q in st.periods ==> q in e.periods && st.periods[q] <= e.periods[q])
      && forall p :: p in ps && ClosesAtEnd(st, p) ==>
           && p in e.periods && |e.periods[p]| > 0
           && e.periods[p][|e.periods[p]| - 1] == Period(st.active[p].start, EndTick(st, p), st.active[p].maxPitch)
  {
    if ps != [] {
      var init := ps[..|ps| - 1];
      var p := ps[|ps| - 1];
      CloseAtEndPeriods(st, init);
      var m := CloseAtEnd(st, init);
      var e := CloseAtEnd(st, ps);
      CloseEndStep(st, ps);
      forall q | q in st.periods
        ensures q in e.periods && st.periods[q] <= e.periods[q]
      {
        assert q in m.periods && st.periods[q] <= m.periods[q];
      }
      forall q | q in ps && ClosesAtEnd(st, q)
        ensures q in e.periods && |e.periods[q]| > 0
        ensures e.periods[q][|e.periods[q]| - 1] == Period(st.active[q].start, EndTick(st, q), st.active[q].maxPitch)
      {
        if q != p {
          assert q in init;
        }
      }
    }
  }

  /** One end close: the maps other than the periods and detections are kept, and a run that passes the gate appends its period. */
  lemma CloseEndStep(st: OobState, ps: seq<u64>)
    requires ps != []
    ensures var m := CloseAtEnd(st, ps[..|ps| - 1]);
      var p := ps[|ps| - 1];
      var e := CloseAtEnd(st, ps);
      && e.names == m.names && e.active == m.active && e.lastTick == m.lastTick
      && e.periods == if ClosesAtEnd(m, p)
                      then AppendPeriod(m.periods, p, Period(m.active[p].start, EndTick(m, p), m.active[p].maxPitch))
                      else m.periods
  {
  }

  /** Each listed player whose open run passes the gate has every tick of the run's range reported. */
  lemma {:induction false} CloseAtEndTicks(st: OobState, ps: seq<u64>)
    ensures var e := CloseAtEnd(st, ps);
      forall p, t :: p in ps && ClosesAtEnd(st, p) && t in TickRange(st.active[p].start, EndTick(st, p)) ==>
        HasPair(e.detections, p, t)
  {
    if ps != [] {
      var init := ps[..|ps| - 1];
      var p := ps[|ps| - 1];
      CloseAtEndTicks(st, init);
      CloseAtEndPeriods(st, init);
      var m := CloseAtEnd(st, init);
      var e := CloseAtEnd(st, ps);
      if p in m.active && Emits(m.active[p], TickGap(EndTick(m, p), m.active[p].start)) {
        var run := m.active[p];
        var ticks := TickRange(run.start, EndTick(m, p));
        AddTicksShape(m.detections, p, NameOf(m, p), ticks, run.maxPitch, true);
        AddTicksCovers(m.detections, p, NameOf(m, p), ticks, run.maxPitch, true);
        assert e.detections == AddTicks(m.detections, p, NameOf(m, p), ticks, run.maxPitch, true);
        forall q, t | q in init && ClosesAtEnd(st, q) && t in TickRange(st.active[q].start, EndTick(st, q))
          ensures HasPair(e.detections, q, t)
        {
          var j :| 0 <= j < |m.detections| && m.detections[j].playerId == q && m.detections[j].tick == t;
          assert e.detections[j] == m.detections[j];
        }
      }
    }
  }

  /** A player with counted records is listed in the order of first appearance. */
  lemma {:induction false} CountedAppears(records: seq<OobRecord>, p: u64)
    requires CountedOf(records, p) != []
    ensures p in Appearance(records)
  {
    var init := records[..|records| - 1];
    if CountedOf(init, p) != [] {
      CountedAppears(init, p);
    }
  }

  /** An open run that passes the gate when the input ends: enough violations over enough ticks. */
  ghost predicate PassesAtEnd(run: seq<OobRecord>)
  {
    && run != []
    && |run| >= MIN_CONSECUTIVE_TICKS
    && TickGap(run[|run| - 1].tick, run[0].tick) >= MINIMUM_VIOLATION_DURATION
  }

  /**
   * The end of the input, stated on the records: when player `p`'s open run
   * passes the gate, `p`'s last period runs from the run's first tick to its
   * last with the run's largest pitch, and every tick of that range is reported
   * for `p`.
   */
  lemma EndOfInputCovers(records: seq<OobRecord>, threshold: real, p: u64)
    requires PassesAtEnd(RunOf(CountedOf(records, p), threshold))
    ensures var run := RunOf(CountedOf(records, p), threshold);
      var a := Analysis(records, threshold);
      && p in a.periods && |a.periods[p]| > 0
      && a.periods[p][|a.periods[p]| - 1] == Period(run[0].tick, run[|run| - 1].tick, MaxAbsPitch(run))
      && forall t :: t in TickRange(run[0].tick, run[|run| - 1].tick) ==> HasPair(a.detections, p, t)
  {
    var st := Process(records, threshold);
    var s := CountedOf(records, p);
    var run := RunOf(s, threshold);
    ProcessTracks(records, threshold);
    assert TracksAt(records, st, threshold, p);
    RunOfSuffix(s, threshold);
    assert run[|run| - 1] == s[|s| - 1];
    CountedAppears(records, p);
    CloseAtEndPeriods(st, Appearance(records));
    CloseAtEndTicks(st, Appearance(records));
  }

  /** The summary holds exactly one line per listed player with a period: its name, period count and first start. */
  lemma {:induction false} SummariesMembers(st: OobState, ps: seq<u64>, x: Summary)
    ensures x in Summaries(st, ps) <==>
      exists p :: p in ps && p in st.periods && |st.periods[p]| > 0 &&
        x == Summary(NameOf(st, p), |st.periods[p]|, st.periods[p][0].start)
  {
    if ps != [] {
      SummariesMembers(st, ps[..|ps| - 1], x);
      var p := ps[|ps| - 1];
      assert forall q :: q in ps <==> q in ps[..|ps| - 1] || q == p;
    }
  }

  // ---------------------------------------------------------------------------
  // The analysis as the source runs it

  /** The search the source makes before reporting a tick again. */
  method AlreadyReported(dets: seq<OobDetection>, p: u64, t: u32) returns (found: bool)
    ensures found <==> HasPair(dets, p, t)
  {
    found := false;
    var k := 0;
    while k < |dets| && !found
      invariant 0 <= k <= |dets|
      invariant found <==> HasPair(dets[..k], p, t)
    {
      found := dets[k].playerId == p && dets[k].tick == t;
      if found {
        assert dets[..k + 1][k] == dets[k];
      } else {
        assert forall j :: 0 <= j < k ==> dets[..k + 1][j] == dets[..k][j];
      }
      k := k + 1;
    }
    if !found {
      assert dets[..k] == dets;
    } else {
      var j :| 0 <= j < k && dets[..k][j].playerId == p && dets[..k][j].tick == t;
      assert dets[j] == dets[..k][j];
    }
  }

  /** Reports every tick of `start..=end` for `p`, skipping, with `dedupe`, ticks already reported for `p`. */
  method ReportTicks(dets: seq<OobDetection>, p: u64, name: string, start: u32, end: u32, pitch: real, dedupe: bool)
    returns (r: seq<OobDetection>)
    ensures r == AddTicks(dets, p, name, TickRange(start, end), pitch, dedupe)
  {
    ghost var ticks := TickRange(start, end);
    r := dets;
    var t: int := start;
    while t <= end
      invariant start <= t <= if start <= end then end + 1 else start
      invariant r == AddTicks(dets, p, name, ticks[..t - start], pitch, dedupe)
    {
      assert ticks[..t + 1 - start][..t - start] == ticks[..t - start];
      assert ticks[t - start] == t;
      var seen := false;
      if dedupe {
        seen := AlreadyReported(r, p, t);
      }
      if !seen {
        r := r + [OobDetection(p, name, t, pitch)];
      }
      t := t + 1;
    }
    assert ticks[..t - start] == ticks;
  }

  /** Closes `run` of `p` at `end`: a period and its ticks, if the run passes the gate. */
  method CloseRun(st: OobState, p: u64, name: string, run: Run, duration: u32, end: u32, dedupe: bool)
    returns (next: OobState)
    ensures next == Close(st, p, name, run, duration, end, dedupe)
  {
    next := st;
    if run.count >= MIN_CONSECUTIVE_TICKS && duration >= MINIMUM_VIOLATION_DURATION {
      var dets := ReportTicks(st.detections, p, name, run.start, end, run.maxPitch, dedupe);
      next := st.(periods := AppendPeriod(st.periods, p, Period(run.start, end, run.maxPitch)), detections := dets);
    }
  }

  /** One record of the main loop. */
  method ProcessRecord(st: OobState, r: OobRecord, threshold: real) returns (next: OobState)
    ensures next == Step(st, r, threshold)
  {
    var p := r.playerId;
    next := st.(names := st.names[p := r.playerName]);
    if r.tick < IGNORE_INITIAL_TICKS as u32 || r.pitch.None? {
      return;
    }
    var absPitch := Abs(r.pitch.value);
    assert IsCounted(r) && absPitch == AbsPitch(r);
    var hasGap := p in next.lastTick && TickGap(r.tick, next.lastTick[p]) > MAX_TICK_GAP;
    next := next.(lastTick := next.lastTick[p := r.tick]);
    if absPitch > threshold {
      if p in next.active {
        var run := next.active[p];
        if hasGap {
          next := CloseRun(next, p, r.playerName, run, TickGap(r.tick, run.start), r.tick - 1, false);
          next := next.(active := next.active[p := Run(r.tick, absPitch, 1)]);
        } else {
          var count := run.count + 1;
          var maxPitch := run.maxPitch;
          if absPitch > maxPitch {
            maxPitch := absPitch;
          }
          next := next.(active := next.active[p := Run(run.start, maxPitch, count)]);
          if count >= MIN_CONSECUTIVE_TICKS {
            next := next.(detections := next.detections + [OobDetection(p, r.playerName, r.tick, absPitch)]);
          } else {
            assert next.detections == next.detections + [];
          }
        }
      } else {
        next := next.(active := next.active[p := Run(r.tick, absPitch, 1)]);
      }
    } else if p in next.active {
      var run := next.active[p];
      next := next.(active := next.active - {p});
      next := CloseRun(next, p, r.playerName, run, TickGap(r.tick, run.start), r.tick - 1, true);
    }
  }

  /** The end of the input: closes the open runs of `order`, in that order. */
  method CloseOpenRuns(st: OobState, order: seq<u64>) returns (next: OobState)
    ensures next == CloseAtEnd(st, order)
  {
    next := st;
    var j := 0;
    while j < |order|
      invariant 0 <= j <= |order|
      invariant next == CloseAtEnd(st, order[..j])
    {
      assert order[..j + 1][..j] == order[..j];
      var p := order[j];
      if p in next.active {
        var run := next.active[p];
        var last := if p in next.lastTick then next.lastTick[p] else run.start;
        next := CloseRun(next, p, NameOf(next, p), run, TickGap(last, run.start), last, true);
      }
      j := j + 1;
    }
    assert order[..j] == order;
  }

  /**
   * `analyze_oob_pitch`: the detections sorted by player and tick, and the
   * per-player summary of the violation periods.
   */
  method AnalyzeOobPitch(records: seq<OobRecord>, threshold: real)
    returns (detections: seq<OobDetection>, summaries: seq<Summary>)
    ensures detections == Sort(Analysis(records, threshold).detections, ByPlayerTick)
    ensures multiset(detections) == multiset(Analysis(records, threshold).detections)
    ensures ByPlayerAndTick(detections)
    ensures summaries == Summaries(Analysis(records, threshold), Appearance(records))
  {
    var st, order := ProcessRecords(records, threshold);
    st := CloseOpenRuns(st, order);
    detections := Sort(st.detections, ByPlayerTick);
    SortedDetections(st.detections);
    summaries := SummariseState(st, order);
  }

  /** The main loop; `order` lists the players in order of first appearance. */
  method ProcessRecords(records: seq<OobRecord>, threshold: real) returns (st: OobState, order: seq<u64>)
    ensures st == Process(records, threshold)
    ensures order == Appearance(records)
  {
    st := START;
    order := [];
    var i := 0;
    while i < |records|
      invariant 0 <= i <= |records|
      invariant st == Process(records[..i], threshold)
      invariant order == Appearance(records[..i])
    {
      assert records[..i + 1][..i] == records[..i];
      var r := records[i];
      st := ProcessRecord(st, r, threshold);
      if r.playerId !in order {
        order := order + [r.playerId];
      }
      i := i + 1;
    }
    assert records[..i] == records;
  }

  /** The summary lines, one per player of `order` with a violation period. */
  method SummariseState(st: OobState, order: seq<u64>) returns (summaries: seq<Summary>)
    ensures summaries == Summaries(st, order)
  {
    summaries := [];
    var j := 0;
    while j < |order|
      invariant 0 <= j <= |order|
      invariant summaries == Summaries(st, order[..j])
    {
      SummariesStep(st, order, j);
      var p := order[j];
      if p in st.periods && |st.periods[p]| > 0 {
        summaries := summaries + [Summary(NameOf(st, p), |st.periods[p]|, st.periods[p][0].start)];
      }
      j := j + 1;
    }
    assert order[..j] == order;
  }

  lemma SummariesStep(st: OobState, order: seq<u64>, j: int)
    requires 0 <= j < |order|
    ensures var p := order[j];
      Summaries(st, order[..j + 1]) == Summaries(st, order[..j]) +
        (if p in st.periods && |st.periods[p]| > 0 then
           [Summary(NameOf(st, p), |st.periods[p]|, st.periods[p][0].start)]
         else [])
  {
    assert order[..j + 1][..j] == order[..j];
  }

  /** Ordered by player id, then by tick. */
  ghost predicate ByPlayerAndTick(dets: seq<OobDetection>)
  {
    forall i, j :: 0 <= i < j < |dets| ==>
      dets[i].playerId < dets[j].playerId || (dets[i].playerId == dets[j].playerId && dets[i].tick <= dets[j].tick)
  }

  lemma SortedDetections(dets: seq<OobDetection>)
    ensures ByPlayerAndTick(Sort(dets, ByPlayerTick))
  {
    var sorted := Sort(dets, ByPlayerTick);
    ByPlayerTickTotal();
    SortSorted(dets, ByPlayerTick);
    forall i, j | 0 <= i < j < |sorted|
      ensures sorted[i].playerId < sorted[j].playerId || (sorted[i].playerId == sorted[j].playerId && sorted[i].tick <= sorted[j].tick)
    {
      assert ByPlayerTick(sorted[i], sorted[j]);
    }
  }
}
