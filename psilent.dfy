/**
 * `analyze_psilent` (src/main.rs): groups view-angle records by player, sorts
 * each player's samples by tick, and reports the middle tick of every window
 * of three consecutive ticks in which the view jumps away (the shot), lands
 * back near where it started, and jumps again (the reset).
 */
module Psilent {
  import opened Types
  import opened Sorting
  import opened Sequences

  /** One parsed row: player_id, player_name, tick, pitch, yaw, roll. */
  datatype PsilentRecord = PsilentRecord(playerId: u64, playerName: string, tick: u32, pitch: real, yaw: real, roll: real)

  /** One entry of a player's angle list: (tick, pitch, yaw). */
  datatype Sample = Sample(tick: u32, pitch: real, yaw: real)

  /** A reported pattern: player, name, the shot tick and the shot's pitch and yaw change. */
  datatype PsilentHit = PsilentHit(playerId: u64, playerName: string, tick: u32, shotPitch: real, shotYaw: real)

  /** Movement above one degree on either axis counts as a shot or a reset. */
  const MOVEMENT: real := 1.0

  /** Player `p`'s samples, in record order. */
  function SamplesOf(records: seq<PsilentRecord>, p: u64): seq<Sample>
  {
    if records == [] then []
    else
      var r := records[|records| - 1];
      SamplesOf(records[..|records| - 1], p) + (if r.playerId == p then [Sample(r.tick, r.pitch, r.yaw)] else [])
  }

  lemma SamplesOfSnoc(records: seq<PsilentRecord>, r: PsilentRecord, p: u64)
    ensures SamplesOf(records + [r], p) ==
      SamplesOf(records, p) + (if r.playerId == p then [Sample(r.tick, r.pitch, r.yaw)] else [])
  {
    assert (records + [r])[..|records|] == records;
  }

  /** Players in order of first appearance (the model's iteration order of the per-player map). */
  function Appearance(records: seq<PsilentRecord>): seq<u64>
  {
    if records == [] then []
    else
      var r := records[|records| - 1];
      var ps := Appearance(records[..|records| - 1]);
      if r.playerId in ps then ps else ps + [r.playerId]
  }

  /** The name map after the first pass: the last name each player was recorded under. */
  function NamesOf(records: seq<PsilentRecord>): map<u64, string>
  {
    if records == [] then map[]
    else
      var r := records[|records| - 1];
      NamesOf(records[..|records| - 1])[r.playerId := r.playerName]
  }

  /**
   * The players with samples are exactly the named players and exactly the
   * players of the appearance order, which lists each of them once.
   */
  lemma {:induction false} AppearanceSpec(records: seq<PsilentRecord>)
    ensures forall p :: p in NamesOf(records) <==> p in Appearance(records)
    ensures forall p :: p in Appearance(records) <==> |SamplesOf(records, p)| > 0
    ensures forall i, j :: 0 <= i < j < |Appearance(records)| ==> Appearance(records)[i] != Appearance(records)[j]
  {
    if records != [] {
      AppearanceSpec(records[..|records| - 1]);
    }
  }

  function ByTick(a: Sample, b: Sample): bool
  {
    a.tick <= b.tick
  }

  /** Player `p`'s samples stably sorted by tick. */
  function PlayerSeries(records: seq<PsilentRecord>, p: u64): seq<Sample>
  {
    Sort(SamplesOf(records, p), ByTick)
  }

  /** Three strictly consecutive ticks: a shot, a return below the threshold, and a reset. */
  predicate IsPsilentWindow(a: Sample, b: Sample, c: Sample, returnThreshold: real)
  {
    && b.tick == a.tick + 1 && c.tick == b.tick + 1
    && (Abs(b.pitch - a.pitch) > MOVEMENT || Abs(b.yaw - a.yaw) > MOVEMENT)
    && Abs(c.pitch - a.pitch) < returnThreshold && Abs(c.yaw - a.yaw) < returnThreshold
    && (Abs(c.pitch - b.pitch) > MOVEMENT || Abs(c.yaw - b.yaw) > MOVEMENT)
  }

  /** The hit reported for the window starting at `w`: its middle tick and the shot deltas. */
  function HitAt(p: u64, name: string, s: seq<Sample>, w: nat): PsilentHit
    requires w + 2 < |s|
  {
    PsilentHit(p, name, s[w + 1].tick, Abs(s[w + 1].pitch - s[w].pitch), Abs(s[w + 1].yaw - s[w].yaw))
  }

  /** The hits of the first `n` windows of `s`. */
  function WindowHits(p: u64, name: string, s: seq<Sample>, n: nat, returnThreshold: real): seq<PsilentHit>
    requires n + 2 <= |s|
  {
    if n == 0 then []
    else
      var w := n - 1;
      WindowHits(p, name, s, w, returnThreshold) +
        (if IsPsilentWindow(s[w], s[w + 1], s[w + 2], returnThreshold) then [HitAt(p, name, s, w)] else [])
  }

  /** The hits of a sorted series: none with fewer than three samples, else one per qualifying window. */
  function SeriesHits(p: u64, name: string, s: seq<Sample>, returnThreshold: real): seq<PsilentHit>
  {
    if |s| < 3 then [] else WindowHits(p, name, s, |s| - 2, returnThreshold)
  }

  /** The hits of player `p` (none for a player without records). */
  function PlayerHits(records: seq<PsilentRecord>, p: u64, returnThreshold: real): seq<PsilentHit>
  {
    if p in NamesOf(records) then SeriesHits(p, NamesOf(records)[p], PlayerSeries(records, p), returnThreshold) else []
  }

  /** The hit list of each player of `ps`, in that order. */
  function PlayerGroups(records: seq<PsilentRecord>, ps: seq<u64>, returnThreshold: real): seq<seq<PsilentHit>>
  {
    seq(|ps|, k requires 0 <= k < |ps| => PlayerHits(records, ps[k], returnThreshold))
  }

  function ByHitTick(a: PsilentHit, b: PsilentHit): bool
  {
    a.tick <= b.tick
  }

  lemma ByHitTickTotal()
    ensures TotalPreorder(ByHitTick)
  {
  }

  /** `h` is the hit of the qualifying window starting at `w` in series `s`. */
  ghost predicate IsWindowHit(p: u64, name: string, s: seq<Sample>, w: int, returnThreshold: real, h: PsilentHit)
  {
    && 0 <= w && w + 2 < |s|
    && IsPsilentWindow(s[w], s[w + 1], s[w + 2], returnThreshold)
    && h == HitAt(p, name, s, w)
  }

  /** `h` is the hit of window `w` in player `p`'s tick-sorted series. */
  ghost predicate HitOfWindow(records: seq<PsilentRecord>, p: u64, w: int, returnThreshold: real, h: PsilentHit)
  {
    && p in NamesOf(records)
    && IsWindowHit(p, NamesOf(records)[p], PlayerSeries(records, p), w, returnThreshold, h)
  }

  lemma {:induction false} WindowHitsMembers(p: u64, name: string, s: seq<Sample>, n: nat, returnThreshold: real, h: PsilentHit)
    requires n + 2 <= |s|
    ensures h in WindowHits(p, name, s, n, returnThreshold) <==>
      exists w :: 0 <= w < n && IsWindowHit(p, name, s, w, returnThreshold, h)
  {
    if n > 0 {
      var w := n - 1;
      WindowHitsMembers(p, name, s, w, returnThreshold, h);
      if h in WindowHits(p, name, s, n, returnThreshold) && h !in WindowHits(p, name, s, w, returnThreshold) {
        assert IsWindowHit(p, name, s, w, returnThreshold, h);
      }
      if exists v :: 0 <= v < n && IsWindowHit(p, name, s, v, returnThreshold, h) {
        var v :| 0 <= v < n && IsWindowHit(p, name, s, v, returnThreshold, h);
        if v < w {
          assert h in WindowHits(p, name, s, w, returnThreshold);
        }
      }
    }
  }

  lemma SeriesHitsMembers(p: u64, name: string, s: seq<Sample>, returnThreshold: real, h: PsilentHit)
    ensures h in SeriesHits(p, name, s, returnThreshold) <==> exists w :: IsWindowHit(p, name, s, w, returnThreshold, h)
  {
    if |s| >= 3 {
      WindowHitsMembers(p, name, s, |s| - 2, returnThreshold, h);
    }
  }

  lemma PlayerHitsMembers(records: seq<PsilentRecord>, p: u64, returnThreshold: real, h: PsilentHit)
    ensures h in PlayerHits(records, p, returnThreshold) <==> exists w :: HitOfWindow(records, p, w, returnThreshold, h)
  {
    if p in NamesOf(records) {
      var name, s := NamesOf(records)[p], PlayerSeries(records, p);
      SeriesHitsMembers(p, name, s, returnThreshold, h);
      if h in PlayerHits(records, p, returnThreshold) {
        var w :| IsWindowHit(p, name, s, w, returnThreshold, h);
        assert HitOfWindow(records, p, w, returnThreshold, h);
      }
    }
  }

  /** The hits of all players, in first-appearance order, before the final sort. */
  function AllHits(records: seq<PsilentRecord>, returnThreshold: real): seq<PsilentHit>
  {
    Concat(PlayerGroups(records, Appearance(records), returnThreshold))
  }

  /** A hit is reported exactly for a qualifying window of some recorded player's tick-sorted series. */
  lemma AllHitsMembers(records: seq<PsilentRecord>, returnThreshold: real, h: PsilentHit)
    ensures h in AllHits(records, returnThreshold) <==> exists p, w :: HitOfWindow(records, p, w, returnThreshold, h)
  {
    if h in AllHits(records, returnThreshold) {
      AllHitsSound(records, returnThreshold, h);
    }
    if exists p, w :: HitOfWindow(records, p, w, returnThreshold, h) {
      var p, w :| HitOfWindow(records, p, w, returnThreshold, h);
      AllHitsComplete(records, returnThreshold, p, w, h);
    }
  }

  lemma AllHitsSound(records: seq<PsilentRecord>, returnThreshold: real, h: PsilentHit)
    requires h in AllHits(records, returnThreshold)
    ensures exists p, w :: HitOfWindow(records, p, w, returnThreshold, h)
  {
    var ps := Appearance(records);
    var groups := PlayerGroups(records, ps, returnThreshold);
    ConcatMembers(groups, h);
    var k :| 0 <= k < |groups| && h in groups[k];
    assert groups[k] == PlayerHits(records, ps[k], returnThreshold);
    PlayerHitsMembers(records, ps[k], returnThreshold, h);
  }

  lemma AllHitsComplete(records: seq<PsilentRecord>, returnThreshold: real, p: u64, w: int, h: PsilentHit)
    requires HitOfWindow(records, p, w, returnThreshold, h)
    ensures h in AllHits(records, returnThreshold)
  {
    var ps := Appearance(records);
    var groups := PlayerGroups(records, ps, returnThreshold);
    AppearanceSpec(records);
    assert p in ps;
    var k :| 0 <= k < |ps| && ps[k] == p;
    PlayerHitsMembers(records, p, returnThreshold, h);
    assert groups[k] == PlayerHits(records, p, returnThreshold);
    ConcatMembers(groups, h);
  }

  /** A player with fewer than three samples has no qualifying window. */
  lemma FewSamplesNoHits(records: seq<PsilentRecord>, p: u64, returnThreshold: real, h: PsilentHit)
    requires |SamplesOf(records, p)| < 3
    ensures forall w :: !HitOfWindow(records, p, w, returnThreshold, h)
  {
  }

  /** The first-pass maps describe `records`. */
  ghost predicate Grouped(records: seq<PsilentRecord>, names: map<u64, string>, angles: map<u64, seq<Sample>>, order: seq<u64>)
  {
    && names == NamesOf(records) && order == Appearance(records)
    && (forall p :: p in angles <==> p in order)
    && (forall p :: p in angles ==> angles[p] == SamplesOf(records, p))
  }

  lemma NamesOfSnoc(records: seq<PsilentRecord>, r: PsilentRecord)
    ensures NamesOf(records + [r]) == NamesOf(records)[r.playerId := r.playerName]
  {
    assert (records + [r])[..|records|] == records;
  }

  lemma AppearanceSnoc(records: seq<PsilentRecord>, r: PsilentRecord)
    ensures Appearance(records + [r]) ==
      if r.playerId in Appearance(records) then Appearance(records) else Appearance(records) + [r.playerId]
  {
    assert (records + [r])[..|records|] == records;
  }

  lemma GroupedSnoc(records: seq<PsilentRecord>, r: PsilentRecord,
                    names: map<u64, string>, angles: map<u64, seq<Sample>>, order: seq<u64>)
    requires Grouped(records, names, angles, order)
    ensures var x := Sample(r.tick, r.pitch, r.yaw);
      Grouped(records + [r], names[r.playerId := r.playerName],
              if r.playerId in angles then angles[r.playerId := angles[r.playerId] + [x]] else angles[r.playerId := [x]],
              if r.playerId in angles then order else order + [r.playerId])
  {
    var next := records + [r];
    var id := r.playerId;
    var x := Sample(r.tick, r.pitch, r.yaw);
    NamesOfSnoc(records, r);
    AppearanceSnoc(records, r);
    var angles' := if id in angles then angles[id := angles[id] + [x]] else angles[id := [x]];
    var order' := if id in angles then order else order + [id];
    forall p | p in angles'
      ensures angles'[p] == SamplesOf(next, p)
    {
      SamplesOfSnoc(records, r, p);
      if p !in angles {
        AppearanceSpec(records);
      }
    }
  }

  /** The first pass: the name map, each player's samples, and the players in order of first appearance. */
  method CollectAngles(records: seq<PsilentRecord>)
    returns (names: map<u64, string>, angles: map<u64, seq<Sample>>, order: seq<u64>)
    ensures Grouped(records, names, angles, order)
  {
    names, angles, order := map[], map[], [];
    var i := 0;
    while i < |records|
      invariant 0 <= i <= |records|
      invariant Grouped(records[..i], names, angles, order)
    {
      var r := records[i];
      var x := Sample(r.tick, r.pitch, r.yaw);
      GroupedSnoc(records[..i], r, names, angles, order);
      TakeSnoc(records, i);
      if r.playerId in angles {
        angles := angles[r.playerId := angles[r.playerId] + [x]];
      } else {
        angles := angles[r.playerId := [x]];
        order := order + [r.playerId];
      }
      names := names[r.playerId := r.playerName];
      i := i + 1;
    }
    assert records[..i] == records;
  }

  /** The windows of one player's sorted series. */
  method ScanWindows(p: u64, name: string, sorted: seq<Sample>, returnThreshold: real) returns (hits: seq<PsilentHit>)
    requires |sorted| >= 3
    ensures hits == WindowHits(p, name, sorted, |sorted| - 2, returnThreshold)
  {
    hits := [];
    var w := 0;
    while w < |sorted| - 2
      invariant 0 <= w <= |sorted| - 2
      invariant hits == WindowHits(p, name, sorted, w, returnThreshold)
    {
      var tick1: int, pitch1, yaw1 := sorted[w].tick, sorted[w].pitch, sorted[w].yaw;
      var tick2: int, pitch2, yaw2 := sorted[w + 1].tick, sorted[w + 1].pitch, sorted[w + 1].yaw;
      var tick3: int, pitch3, yaw3 := sorted[w + 2].tick, sorted[w + 2].pitch, sorted[w + 2].yaw;
      if tick2 == tick1 + 1 && tick3 == tick2 + 1 {
        var shotPitch, shotYaw := Abs(pitch2 - pitch1), Abs(yaw2 - yaw1);
        var returnPitch, returnYaw := Abs(pitch3 - pitch1), Abs(yaw3 - yaw1);
        var resetPitch, resetYaw := Abs(pitch3 - pitch2), Abs(yaw3 - yaw2);
        if (shotPitch > MOVEMENT || shotYaw > MOVEMENT)
           && (returnPitch < returnThreshold && returnYaw < returnThreshold)
           && (resetPitch > MOVEMENT || resetYaw > MOVEMENT)
        {
          hits := hits + [PsilentHit(p, name, sorted[w + 1].tick, shotPitch, shotYaw)];
        }
      }
      w := w + 1;
    }
  }

  /** One player of the second pass: sort the samples by tick, skip short series, scan the windows. */
  method ScanPlayer(p: u64, name: string, samples: seq<Sample>, returnThreshold: real) returns (hits: seq<PsilentHit>)
    ensures hits == SeriesHits(p, name, Sort(samples, ByTick), returnThreshold)
  {
    var sorted := Sort(samples, ByTick);
    if |sorted| < 3 {
      return [];
    }
    hits := ScanWindows(p, name, sorted, returnThreshold);
  }

  /** The per-player hit lists computed from the first-pass maps, in the order `order`. */
  function MapGroups(names: map<u64, string>, angles: map<u64, seq<Sample>>, order: seq<u64>, returnThreshold: real)
    : seq<seq<PsilentHit>>
    requires forall p :: p in order ==> p in names && p in angles
  {
    seq(|order|, k requires 0 <= k < |order| =>
      SeriesHits(order[k], names[order[k]], Sort(angles[order[k]], ByTick), returnThreshold))
  }

  /** Computed from the first-pass maps, the hit lists are those of the records. */
  lemma MapGroupsOfRecords(records: seq<PsilentRecord>, names: map<u64, string>, angles: map<u64, seq<Sample>>,
                           order: seq<u64>, returnThreshold: real)
    requires Grouped(records, names, angles, order)
    ensures forall p :: p in order ==> p in names && p in angles
    ensures MapGroups(names, angles, order, returnThreshold) == PlayerGroups(records, order, returnThreshold)
  {
    AppearanceSpec(records);
  }

  /** The second pass: every player's windows, player by player in the order `order`. */
  method ScanPlayers(names: map<u64, string>, angles: map<u64, seq<Sample>>, order: seq<u64>, returnThreshold: real)
    returns (found: seq<PsilentHit>)
    requires forall p :: p in order ==> p in names && p in angles
    ensures found == Concat(MapGroups(names, angles, order, returnThreshold))
  {
    ghost var groups := MapGroups(names, angles, order, returnThreshold);
    found := [];
    var k := 0;
    while k < |order|
      invariant 0 <= k <= |order|
      invariant found == Concat(groups[..k])
    {
      var hits := ScanPlayer(order[k], names[order[k]], angles[order[k]], returnThreshold);
      assert hits == groups[k];
      TakeSnoc(groups, k);
      ConcatSnoc(groups[..k], hits);
      found := found + hits;
      k := k + 1;
    }
    assert groups[..k] == groups;
  }

  /**
   * `analyze_psilent` over already-parsed records: the hits are exactly the
   * qualifying windows of the players' tick-sorted series, ordered by tick
   * (stably, so players keep their first-appearance order within a tick).
   */
  method AnalyzePsilent(records: seq<PsilentRecord>, returnThreshold: real) returns (detections: seq<PsilentHit>)
    ensures detections == Sort(AllHits(records, returnThreshold), ByHitTick)
    ensures forall i, j :: 0 <= i < j < |detections| ==> detections[i].tick <= detections[j].tick
    ensures forall h :: h in detections <==> exists p, w :: HitOfWindow(records, p, w, returnThreshold, h)
  {
    var names, angles, order := CollectAngles(records);
    MapGroupsOfRecords(records, names, angles, order, returnThreshold);
    var found := ScanPlayers(names, angles, order, returnThreshold);
    detections := Sort(found, ByHitTick);
    ByHitTickTotal();
    SortSorted(found, ByHitTick);
    forall h
      ensures h in detections <==> exists p, w :: HitOfWindow(records, p, w, returnThreshold, h)
    {
      SortMembers(found, ByHitTick, h);
      AllHitsMembers(records, returnThreshold, h);
    }
  }
}
