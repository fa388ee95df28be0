/**
 * `ViewAnglesToCSV` (src/main.rs): a per-tick extractor that writes one CSV row
 * per player sample and raises a flick detection at 45 degrees of yaw or 30 of
 * pitch between a player's consecutive samples.
 */
module ViewAnglesCsv {
  import opened Wrappers
  import opened Types
  import opened AngleMath
  import opened CheatDetection
  import opened ViewAngles

  const FLICK_YAW_CHANGE: real := 45.0
  const FLICK_PITCH_CHANGE: real := 30.0

  /**
   * `calculate_delta`: the yaw delta wrapped into (-180, 180] and congruent to
   * the raw difference modulo 360; the pitch delta is the plain difference.
   */
  function CalculateDelta(currViewangle: real, currPitchangle: real,
                          prevViewangle: real, prevPitchangle: real): (d: (real, real))
    ensures -180.0 < d.0 <= 180.0
    ensures exists k: int :: d.0 == currViewangle - prevViewangle - Turns(k)
    ensures d.1 == currPitchangle - prevPitchangle
  {
    (YawDelta(currViewangle, prevViewangle), currPitchangle - prevPitchangle)
  }

  predicate IsCsvFlick(vaDelta: real, paDelta: real)
  {
    Abs(vaDelta) > FLICK_YAW_CHANGE || Abs(paDelta) > FLICK_PITCH_CHANGE
  }

  /** The extractor's previous angles (yaw, pitch per player), the rows written so far, and this tick's detections. */
  datatype Extraction = Extraction(
    previousAngles: map<u64, (real, real)>,
    rows: seq<CsvRow>,
    detections: seq<Detection>)

  /**
   * One player's turn in `process_tick`. A player without angles is skipped.
   * Otherwise one row is written, whose deltas are the `NaN` token exactly for
   * the player's first sample and otherwise the `calculate_delta` of the
   * sample against the previous angles; the previous angles become (yaw, pitch); and a
   * detection is raised exactly when there was a previous sample and the
   * deltas pass 45 degrees of yaw or 30 of pitch.
   */
  function ExtractPlayer(e: Extraction, player: u64, ps: PlayerState, tick: u32): (f: Extraction)
    ensures ps.viewangles.None? ==> f == e
    ensures ps.viewangles.Some? ==>
      var (pitch, yaw, _) := ps.viewangles.value;
      && f.previousAngles == e.previousAngles[player := (yaw, pitch)]
      && |f.rows| == |e.rows| + 1 && f.rows[..|e.rows|] == e.rows
      && var row := f.rows[|e.rows|];
      && row.tick == tick && row.playerId == player && row.playerName == ps.name
      && row.viewangle == yaw && row.pitchangle == pitch
      && row.origin == (if ps.position.Some? then ps.position.value else (0.0, 0.0, 0.0))
      && (row.vaDelta == Token("NaN") <==> player !in e.previousAngles)
      && (row.paDelta == Token("NaN") <==> player !in e.previousAngles)
      && (player in e.previousAngles ==>
            var (prevYaw, prevPitch) := e.previousAngles[player];
            var d := CalculateDelta(yaw, pitch, prevYaw, prevPitch);
            row.vaDelta == Number(d.0) && row.paDelta == Number(d.1))
    ensures |f.detections| >= |e.detections| && f.detections[..|e.detections|] == e.detections
    ensures |f.detections| <= |e.detections| + 1
    ensures |f.detections| == |e.detections| + 1 <==>
      && ps.viewangles.Some? && player in e.previousAngles
      && var (pitch, yaw, _) := ps.viewangles.value;
         var (prevYaw, prevPitch) := e.previousAngles[player];
         var d := CalculateDelta(yaw, pitch, prevYaw, prevPitch);
         IsCsvFlick(d.0, d.1)
    ensures |f.detections| == |e.detections| + 1 ==>
      var (pitch, yaw, _) := ps.viewangles.value;
      var (prevYaw, prevPitch) := e.previousAngles[player];
      var d := CalculateDelta(yaw, pitch, prevYaw, prevPitch);
      f.detections[|e.detections|] == Detection(tick, ALGORITHM_NAME, player, CsvAngleChange(d.0, d.1, yaw, pitch))
  {
    if ps.viewangles.None? then e
    else
      var (pitch, yaw, _) := ps.viewangles.value;
      var deltas: Option<(real, real)> :=
        if player in e.previousAngles then
          var (prevYaw, prevPitch) := e.previousAngles[player];
          Some(CalculateDelta(yaw, pitch, prevYaw, prevPitch))
        else None;
      var origin := if ps.position.Some? then ps.position.value else (0.0, 0.0, 0.0);
      var row := CsvRow(tick, player, ps.name, origin, yaw, pitch,
                        if deltas.Some? then Number(deltas.value.0) else Token("NaN"),
                        if deltas.Some? then Number(deltas.value.1) else Token("NaN"));
      var flick := if deltas.Some? && IsCsvFlick(deltas.value.0, deltas.value.1) then
        [Detection(tick, ALGORITHM_NAME, player, CsvAngleChange(deltas.value.0, deltas.value.1, yaw, pitch))]
        else [];
      Extraction(e.previousAngles[player := (yaw, pitch)], e.rows + [row], e.detections + flick)
  }

  /** All players of one tick, in the iteration order of the player map. */
  function ExtractAll(e: Extraction, players: seq<(u64, PlayerState)>, tick: u32): Extraction
  {
    if players == [] then e
    else
      var last := players[|players| - 1];
      ExtractPlayer(ExtractAll(e, players[..|players| - 1], tick), last.0, last.1, tick)
  }

  /**
   * Every detection of a tick carries the tick and a flick-sized delta, and
   * belongs to a player of the tick whose angles were present.
   */
  lemma {:induction false} ExtractAllDetections(e: Extraction, players: seq<(u64, PlayerState)>, tick: u32)
    ensures var f := ExtractAll(e, players, tick);
      && |f.detections| >= |e.detections| && f.detections[..|e.detections|] == e.detections
      && forall k :: |e.detections| <= k < |f.detections| ==>
           && f.detections[k].tick == tick
           && f.detections[k].data.CsvAngleChange?
           && IsCsvFlick(f.detections[k].data.vaDelta, f.detections[k].data.paDelta)
           && exists i :: 0 <= i < |players| && players[i].0 == f.detections[k].player
                          && players[i].1.viewangles.Some?
  {
    if players != [] {
      var init := players[..|players| - 1];
      var last := players[|players| - 1];
      ExtractAllDetections(e, init, tick);
      var m := ExtractAll(e, init, tick);
      var f := ExtractAll(e, players, tick);
      assert f == ExtractPlayer(m, last.0, last.1, tick);
      forall k | |e.detections| <= k < |f.detections|
        ensures && f.detections[k].tick == tick
                && f.detections[k].data.CsvAngleChange?
                && IsCsvFlick(f.detections[k].data.vaDelta, f.detections[k].data.paDelta)
                && exists i :: 0 <= i < |players| && players[i].0 == f.detections[k].player
                               && players[i].1.viewangles.Some?
      {
        if k < |m.detections| {
          assert f.detections[k] == m.detections[k];
          var i :| 0 <= i < |init| && init[i].0 == m.detections[k].player && init[i].1.viewangles.Some?;
          assert players[i] == init[i];
        } else {
          assert players[|players| - 1] == last;
        }
      }
    }
  }

  /** The extractor: its previous-angle map and the rows it has written after the header. */
  class ViewAnglesToCsv {
    var previousAngles: map<u64, (real, real)>
    var rows: seq<CsvRow>

    constructor ()
      ensures previousAngles == map[] && rows == []
    {
      previousAngles := map[];
      rows := [];
    }

    method ProcessTick(tick: u32, players: seq<(u64, PlayerState)>) returns (detections: seq<Detection>)
      modifies this
      ensures var f := ExtractAll(Extraction(old(previousAngles), old(rows), []), players, tick);
        previousAngles == f.previousAngles && rows == f.rows && detections == f.detections
    {
      detections := [];
      var i := 0;
      while i < |players|
        invariant 0 <= i <= |players|
        invariant Extraction(previousAngles, rows, detections) ==
                  ExtractAll(Extraction(old(previousAngles), old(rows), []), players[..i], tick)
      {
        var (playerId, playerState) := players[i];
        if playerState.viewangles.Some? {
          var (pitch, yaw, _) := playerState.viewangles.value;
          var va: Option<real>, pa: Option<real> := None, None;
          if playerId in previousAngles {
            var (prevYaw, prevPitch) := previousAngles[playerId];
            var d := CalculateDelta(yaw, pitch, prevYaw, prevPitch);
            va, pa := Some(d.0), Some(d.1);
          }
          previousAngles := previousAngles[playerId := (yaw, pitch)];
          var origin := if playerState.position.Some? then playerState.position.value else (0.0, 0.0, 0.0);
          rows := rows + [CsvRow(tick, playerId, playerState.name, origin, yaw, pitch,
                                 if va.Some? then Number(va.value) else Token("NaN"),
                                 if pa.Some? then Number(pa.value) else Token("NaN"))];
          if va.Some? && pa.Some? {
            if Abs(va.value) > FLICK_YAW_CHANGE || Abs(pa.value) > FLICK_PITCH_CHANGE {
              detections := detections + [Detection(tick, ALGORITHM_NAME, playerId,
                                                    CsvAngleChange(va.value, pa.value, yaw, pitch))];
            }
          }
        }
        assert players[..i + 1][..i] == players[..i];
        i := i + 1;
      }
      assert players[..i] == players;
    }
  }
}
