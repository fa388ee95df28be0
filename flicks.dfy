/**
 * `analyze_flicks` (src/main.rs): scans view-angle records in file order and
 * reports a pitch flick when a player's pitch moves faster than a threshold
 * since that player's previous record; the result is sorted by the size of the
 * pitch change, largest first.
 */
module Flicks {
  import opened Wrappers
  import opened Types
  import opened Sorting
  import opened Sequences

  /** One parsed row: player_id, player_name, tick, pitch, yaw, roll. */
  datatype FlickRecord = FlickRecord(playerId: u64, playerName: string, tick: u32, pitch: real, yaw: real, roll: real)

  /** A reported flick: player, name, tick and the absolute pitch change. */
  datatype Flick = Flick(playerId: u64, playerName: string, tick: u32, pitchChange: real)

  /** `j` is the last record of player `p` in `records`. */
  ghost predicate IsLastOf(records: seq<FlickRecord>, p: u64, j: int)
  {
    && 0 <= j < |records| && records[j].playerId == p
    && forall k :: j < k < |records| ==> records[k].playerId != p
  }

  /** The `last_pitch` map after `records`: each player's latest (tick, pitch). */
  function LastSeen(records: seq<FlickRecord>): map<u64, (u32, real)>
  {
    if records == [] then map[]
    else
      var last := records[|records| - 1];
      LastSeen(records[..|records| - 1])[last.playerId := (last.tick, last.pitch)]
  }

  /** `LastSeen` holds exactly the players seen so far, each with its last record's tick and pitch. */
  lemma {:induction false} LastSeenSpec(records: seq<FlickRecord>, p: u64)
    ensures p in LastSeen(records) <==> exists j :: 0 <= j < |records| && records[j].playerId == p
    ensures p in LastSeen(records) ==>
      exists j :: IsLastOf(records, p, j) && LastSeen(records)[p] == (records[j].tick, records[j].pitch)
  {
    if records != [] {
      var n := |records| - 1;
      var init := records[..n];
      LastSeenSpec(init, p);
      assert LastSeen(records) == LastSeen(init)[records[n].playerId := (records[n].tick, records[n].pitch)];
      if p == records[n].playerId {
        assert IsLastOf(records, p, n);
      } else {
        LastSeenOther(records, p);
      }
    }
  }

  /** The step of `LastSeenSpec` for a player other than the last record's. */
  lemma LastSeenOther(records: seq<FlickRecord>, p: u64)
    requires records != [] && records[|records| - 1].playerId != p
    requires var init := records[..|records| - 1];
      && (p in LastSeen(init) <==> exists j :: 0 <= j < |init| && init[j].playerId == p)
      && (p in LastSeen(init) ==>
            exists j :: IsLastOf(init, p, j) && LastSeen(init)[p] == (init[j].tick, init[j].pitch))
    ensures p in LastSeen(records) <==> exists j :: 0 <= j < |records| && records[j].playerId == p
    ensures p in LastSeen(records) ==>
      exists j :: IsLastOf(records, p, j) && LastSeen(records)[p] == (records[j].tick, records[j].pitch)
  {
    var n := |records| - 1;
    var init := records[..n];
    assert LastSeen(records) == LastSeen(init)[records[n].playerId := (records[n].tick, records[n].pitch)];
    if exists j :: 0 <= j < |records| && records[j].playerId == p {
      var j :| 0 <= j < |records| && records[j].playerId == p;
      assert init[j] == records[j];
    }
    if p in LastSeen(records) {
      var j :| IsLastOf(init, p, j) && LastSeen(init)[p] == (init[j].tick, init[j].pitch);
      assert IsLastOf(records, p, j);
    }
  }

  /** Pitch change per tick, or the whole change when both records share a tick. */
  function FlickSpeed(pitchDelta: real, tickDelta: nat): real
  {
    if tickDelta > 0 then pitchDelta / tickDelta as real else pitchDelta
  }

  /** The threshold, raised by 20% per tick once more than two ticks separate the records. */
  function AdjustedThreshold(threshold: real, tickDelta: nat): real
  {
    if tickDelta <= 2 then threshold else threshold * (1.0 + tickDelta as real * 0.2)
  }

  /** The flick, if any, that record `r` yields against the `last_pitch` map `last`. */
  function FlickOf(last: map<u64, (u32, real)>, r: FlickRecord, threshold: real): Option<Flick>
  {
    if r.playerId !in last then None
    else
      var (lastTick, lastPitch) := last[r.playerId];
      var pitchDelta := Abs(r.pitch - lastPitch);
      var tickDelta := TickGap(r.tick, lastTick);
      if FlickSpeed(pitchDelta, tickDelta) > AdjustedThreshold(threshold, tickDelta) then
        Some(Flick(r.playerId, r.playerName, r.tick, pitchDelta))
      else None
  }

  /** What each record raises against the records before it, in record order. */
  function Raised(records: seq<FlickRecord>, threshold: real): (r: seq<Option<Flick>>)
    ensures |r| == |records|
  {
    if records == [] then []
    else
      var init := records[..|records| - 1];
      Raised(init, threshold) + [FlickOf(LastSeen(init), records[|records| - 1], threshold)]
  }

  /** Record `i` is judged against the `last_pitch` map of the records before it. */
  lemma {:induction false} RaisedAt(records: seq<FlickRecord>, threshold: real, i: int)
    requires 0 <= i < |records|
    ensures Raised(records, threshold)[i] == FlickOf(LastSeen(records[..i]), records[i], threshold)
  {
    var n := |records| - 1;
    if i < n {
      var init := records[..n];
      RaisedAt(init, threshold, i);
      assert init[..i] == records[..i];
    }
  }

  /** The flicks in the order the records raise them, before sorting. */
  function Candidates(records: seq<FlickRecord>, threshold: real): seq<Flick>
  {
    Somes(Raised(records, threshold))
  }

  /** Largest pitch change first. */
  function ByPitchChangeDesc(a: Flick, b: Flick): bool
  {
    a.pitchChange >= b.pitchChange
  }

  lemma ByPitchChangeDescTotal()
    ensures TotalPreorder(ByPitchChangeDesc)
  {
  }

  /** A player's first record never yields a flick. */
  lemma FirstRecordNeverFlicks(records: seq<FlickRecord>, i: int, threshold: real)
    requires 0 <= i < |records|
    requires forall j :: 0 <= j < i ==> records[j].playerId != records[i].playerId
    ensures Raised(records, threshold)[i] == None
  {
    RaisedAt(records, threshold, i);
    var prefix := records[..i];
    LastSeenSpec(prefix, records[i].playerId);
    assert forall j :: 0 <= j < i ==> prefix[j] == records[j];
  }

  /**
   * A later record, whose player last appeared at record `j`, is a flick exactly
   * when the pitch speed since `j` passes the threshold adjusted for the tick gap;
   * the flick carries the record's player, name and tick and the absolute pitch change.
   */
  lemma LaterRecordFlicks(records: seq<FlickRecord>, i: int, j: int, threshold: real)
    requires 0 <= j < i < |records|
    requires records[j].playerId == records[i].playerId
    requires forall k :: j < k < i ==> records[k].playerId != records[i].playerId
    ensures var pitchDelta := Abs(records[i].pitch - records[j].pitch);
      var tickDelta := TickGap(records[i].tick, records[j].tick);
      && (Raised(records, threshold)[i].Some? <==>
            FlickSpeed(pitchDelta, tickDelta) > AdjustedThreshold(threshold, tickDelta))
      && (Raised(records, threshold)[i].Some? ==>
            Raised(records, threshold)[i].value ==
              Flick(records[i].playerId, records[i].playerName, records[i].tick, pitchDelta))
  {
    RaisedAt(records, threshold, i);
    var prefix := records[..i];
    var p := records[i].playerId;
    assert prefix[j] == records[j];
    assert IsLastOf(prefix, p, j);
    LastSeenSpec(prefix, p);
    var j' :| IsLastOf(prefix, p, j') && LastSeen(prefix)[p] == (prefix[j'].tick, prefix[j'].pitch);
    assert j' == j;
  }

  /** One more record: its entry in `last_pitch` and the flick it raises. */
  lemma CollectStep(records: seq<FlickRecord>, i: int, threshold: real)
    requires 0 <= i < |records|
    ensures var r := records[i];
      && LastSeen(records[..i + 1]) == LastSeen(records[..i])[r.playerId := (r.tick, r.pitch)]
      && Candidates(records[..i + 1], threshold) == Candidates(records[..i], threshold) +
           (match FlickOf(LastSeen(records[..i]), r, threshold) case Some(f) => [f] case None => [])
  {
    assert records[..i + 1][..i] == records[..i];
    var raised := FlickOf(LastSeen(records[..i]), records[i], threshold);
    assert Raised(records[..i + 1], threshold) == Raised(records[..i], threshold) + [raised];
    SomesSnoc(Raised(records[..i], threshold), raised);
  }

  /** The record loop of `analyze_flicks`: the flicks in the order the records raise them. */
  method CollectFlicks(records: seq<FlickRecord>, pitchThreshold: real) returns (found: seq<Flick>)
    ensures found == Candidates(records, pitchThreshold)
  {
    var lastPitch: map<u64, (u32, real)> := map[];
    found := [];
    var i := 0;
    while i < |records|
      invariant 0 <= i <= |records|
      invariant lastPitch == LastSeen(records[..i])
      invariant found == Candidates(records[..i], pitchThreshold)
    {
      var record := records[i];
      ghost var raised := FlickOf(lastPitch, record, pitchThreshold);
      ghost var before := found;
      if record.playerId in lastPitch {
        var (lastTick, lastPitchValue) := lastPitch[record.playerId];
        var pitchDelta := Abs(record.pitch - lastPitchValue);
        var tickDelta := TickGap(record.tick, lastTick);
        if FlickSpeed(pitchDelta, tickDelta) > AdjustedThreshold(pitchThreshold, tickDelta) {
          found := found + [Flick(record.playerId, record.playerName, record.tick, pitchDelta)];
        }
      }
      assert found == before + (match raised case Some(f) => [f] case None => []);
      lastPitch := lastPitch[record.playerId := (record.tick, record.pitch)];
      CollectStep(records, i, pitchThreshold);
      i := i + 1;
    }
    assert records[..i] == records;
  }

  /**
   * `analyze_flicks` over already-parsed records: the reported flicks are
   * exactly those the records raise, sorted by pitch change, largest first, and
   * in record order among equal changes.
   */
  method AnalyzeFlicks(records: seq<FlickRecord>, pitchThreshold: real) returns (flicks: seq<Flick>)
    ensures flicks == Sort(Candidates(records, pitchThreshold), ByPitchChangeDesc)
    ensures DescendingByPitchChange(flicks)
    ensures forall f :: f in flicks <==> IsRaised(Raised(records, pitchThreshold), f)
  {
    var found := CollectFlicks(records, pitchThreshold);
    flicks := Sort(found, ByPitchChangeDesc);
    SortedFlicks(Raised(records, pitchThreshold));
  }

  ghost predicate DescendingByPitchChange(flicks: seq<Flick>)
  {
    forall i, j :: 0 <= i < j < |flicks| ==> flicks[i].pitchChange >= flicks[j].pitchChange
  }

  /** Some record raised flick `f`. */
  ghost predicate IsRaised(raised: seq<Option<Flick>>, f: Flick)
  {
    exists i :: 0 <= i < |raised| && raised[i] == Some(f)
  }

  /** Sorting raised flicks orders them by pitch change and keeps exactly the raised ones. */
  lemma SortedFlicks(raised: seq<Option<Flick>>)
    ensures DescendingByPitchChange(Sort(Somes(raised), ByPitchChangeDesc))
    ensures forall f :: f in Sort(Somes(raised), ByPitchChangeDesc) <==> IsRaised(raised, f)
  {
    var found := Somes(raised);
    var sorted := Sort(found, ByPitchChangeDesc);
    ByPitchChangeDescTotal();
    SortSorted(found, ByPitchChangeDesc);
    forall i, j | 0 <= i < j < |sorted|
      ensures sorted[i].pitchChange >= sorted[j].pitchChange
    {
      assert ByPitchChangeDesc(sorted[i], sorted[j]);
    }
    forall f
      ensures f in sorted <==> IsRaised(raised, f)
    {
      SortMembers(found, ByPitchChangeDesc, f);
      SomesMembers(raised, f);
    }
  }
}
