/**
 * The streaming view-angle analyzer (src/cheater_detection/viewangles.rs): per
 * player it keeps every sample with its yaw and pitch deltas against that
 * player's previous sample, and raises flick and out-of-bounds-pitch detections
 * that `on_tick` hands to the caller.
 */
module ViewAngles {
  import opened Wrappers
  import opened Types
  import opened AngleMath
  import opened Decimal
  import opened CheatDetection

  const ALGORITHM_NAME: string := "viewangles_analyzer"
  const SUSPICIOUS_YAW_CHANGE: real := 30.0
  const SUSPICIOUS_PITCH_CHANGE: real := 20.0
  const MAX_PITCH_ANGLE: real := 89.8

  /** One stored sample; the deltas are None for a player's first sample. */
  datatype AngleRecord = AngleRecord(
    tick: u32, pitch: real, yaw: real, roll: real,
    position: Option<Triple>,
    vaDelta: Option<real>,   // yaw delta
    paDelta: Option<real>)   // pitch delta

  /** The analyzer's fields as one value. */
  datatype Store = Store(
    previousAngles: map<u64, Triple>,
    playerViewangles: map<u64, seq<AngleRecord>>,
    playerNames: map<u64, string>,
    detections: seq<Detection>)

  const EMPTY_STORE: Store := Store(map[], map[], map[], [])

  /** The stored series of a player; empty when the player was never seen. */
  function SeriesOf(s: Store, player: u64): seq<AngleRecord>
  {
    if player in s.playerViewangles then s.playerViewangles[player] else []
  }

  predicate IsFlick(yawDelta: real, pitchDelta: real)
  {
    Abs(yawDelta) > SUSPICIOUS_YAW_CHANGE || Abs(pitchDelta) > SUSPICIOUS_PITCH_CHANGE
  }

  predicate IsOutOfBounds(pitch: real)
  {
    Abs(pitch) > MAX_PITCH_ANGLE
  }

  predicate HasFlick(ds: seq<Detection>)
  {
    exists k :: 0 <= k < |ds| && ds[k].data.SuspiciousAngleChange?
  }

  predicate HasOutOfBounds(ds: seq<Detection>)
  {
    exists k :: 0 <= k < |ds| && ds[k].data.OutOfBoundsPitch?
  }

  /** The detections a sample with the given deltas raises, flick first. */
  function SampleDetections(player: u64, current: Triple, tick: u32,
                            vaDelta: Option<real>, paDelta: Option<real>): (r: seq<Detection>)
    ensures HasFlick(r) <==> vaDelta.Some? && paDelta.Some? && IsFlick(vaDelta.value, paDelta.value)
    ensures HasOutOfBounds(r) <==> vaDelta.Some? && paDelta.Some? && IsOutOfBounds(current.0)
    ensures |r| <= 2
    ensures forall k :: 0 <= k < |r| ==>
      r[k].tick == tick && r[k].player == player && r[k].algorithm == ALGORITHM_NAME
    ensures forall k :: 0 <= k < |r| && r[k].data.SuspiciousAngleChange? ==>
      var d := r[k].data;
      && d.yawDelta == vaDelta.value && d.pitchDelta == paDelta.value
      && d.currentPitch == current.0 && d.currentYaw == current.1
      && d.previousPitch == current.0 - d.pitchDelta && d.previousYaw == current.1 - d.yawDelta
    ensures forall k :: 0 <= k < |r| && r[k].data.OutOfBoundsPitch? ==>
      var d := r[k].data;
      d.pitch == current.0 && d.limit == MAX_PITCH_ANGLE && d.excess == Abs(current.0) - MAX_PITCH_ANGLE > 0.0
  {
    if vaDelta.Some? && paDelta.Some? then
      var yawDelta, pitchDelta := vaDelta.value, paDelta.value;
      var (currPitch, currYaw, _) := current;
      var flick := if IsFlick(yawDelta, pitchDelta) then
        [Detection(tick, ALGORITHM_NAME, player,
           SuspiciousAngleChange(pitchDelta, yawDelta, currPitch - pitchDelta, currYaw - yawDelta, currPitch, currYaw))]
        else [];
      var oob := if IsOutOfBounds(currPitch) then
        [Detection(tick, ALGORITHM_NAME, player,
           OutOfBoundsPitch(currPitch, MAX_PITCH_ANGLE, Abs(currPitch) - MAX_PITCH_ANGLE))]
        else [];
      var r := flick + oob;
      assert forall k :: 0 <= k < |r| ==> (r[k].data.SuspiciousAngleChange? <==> k < |flick|);
      assert flick != [] ==> r[0].data.SuspiciousAngleChange?;
      assert oob != [] ==> r[|flick|].data.OutOfBoundsPitch?;
      r
    else []
  }

  /**
   * `check_angle_change`: the store after one sample of `player`. Exactly one
   * record is appended, to this player's series only; its deltas exist iff the
   * player had previous angles; the previous angles become the whole triple.
   */
  function Record(s: Store, player: u64, current: Triple, position: Option<Triple>, tick: u32): (t: Store)
    ensures t.previousAngles == s.previousAngles[player := current]
    ensures t.playerNames == s.playerNames
    ensures t.playerViewangles.Keys == s.playerViewangles.Keys + {player}
    ensures forall p :: p != player ==> SeriesOf(t, p) == SeriesOf(s, p)
    ensures |SeriesOf(t, player)| == |SeriesOf(s, player)| + 1
    ensures SeriesOf(t, player)[..|SeriesOf(s, player)|] == SeriesOf(s, player)
    ensures var r := SeriesOf(t, player)[|SeriesOf(s, player)|];
      && r.tick == tick && r.pitch == current.0 && r.yaw == current.1 && r.roll == current.2
      && r.position == position
      && (r.vaDelta.None? <==> player !in s.previousAngles)
      && (r.paDelta.None? <==> player !in s.previousAngles)
      && (player in s.previousAngles ==>
            && r.vaDelta == Some(YawDelta(current.1, s.previousAngles[player].1))
            && r.paDelta == Some(current.0 - s.previousAngles[player].0))
      && t.detections == s.detections + SampleDetections(player, current, tick, r.vaDelta, r.paDelta)
  {
    var vaDelta, paDelta :=
      if player in s.previousAngles then Some(YawDelta(current.1, s.previousAngles[player].1)) else None,
      if player in s.previousAngles then Some(current.0 - s.previousAngles[player].0) else None;
    var rec := AngleRecord(tick, current.0, current.1, current.2, position, vaDelta, paDelta);
    Store(s.previousAngles[player := current],
          s.playerViewangles[player := SeriesOf(s, player) + [rec]],
          s.playerNames,
          s.detections + SampleDetections(player, current, tick, vaDelta, paDelta))
  }

  /** One player's turn inside `on_tick`: remember a non-empty name, then record the angles if any. */
  function Observe(s: Store, player: u64, ps: PlayerState, tick: u32): Store
  {
    var named := if ps.name != "" then s.(playerNames := s.playerNames[player := ps.name]) else s;
    if ps.viewangles.Some? then Record(named, player, ps.viewangles.value, ps.position, tick) else named
  }

  /** All players' turns of one `on_tick`, in the iteration order of the player map. */
  function ObserveAll(s: Store, players: seq<(u64, PlayerState)>, tick: u32): Store
  {
    if players == [] then s
    else
      var last := players[|players| - 1];
      Observe(ObserveAll(s, players[..|players| - 1], tick), last.0, last.1, tick)
  }

  /** The state `finish` leaves: previous angles forgotten, everything else kept. */
  function Finished(s: Store): (t: Store)
    ensures t.previousAngles == map[]
    ensures t.playerViewangles == s.playerViewangles && t.playerNames == s.playerNames
    ensures t.detections == s.detections
  {
    s.(previousAngles := map[])
  }

  /**
   * Detections only accumulate during a tick: the pending ones are a prefix of
   * the new pending list, and every added detection is stamped with this tick,
   * this analyzer's name, and a player of the tick whose angles were present.
   */
  lemma {:induction false} ObserveAllAppends(s: Store, players: seq<(u64, PlayerState)>, tick: u32)
    ensures var t := ObserveAll(s, players, tick);
      && |t.detections| >= |s.detections|
      && t.detections[..|s.detections|] == s.detections
      && forall k :: |s.detections| <= k < |t.detections| ==>
           && t.detections[k].tick == tick
           && t.detections[k].algorithm == ALGORITHM_NAME
           && exists i :: 0 <= i < |players| && players[i].0 == t.detections[k].player
                          && players[i].1.viewangles.Some?
  {
    if players != [] {
      var init := players[..|players| - 1];
      var last := players[|players| - 1];
      ObserveAllAppends(s, init, tick);
      var m := ObserveAll(s, init, tick);
      var t := ObserveAll(s, players, tick);
      assert t == Observe(m, last.0, last.1, tick);
      forall k | |s.detections| <= k < |t.detections|
        ensures exists i :: 0 <= i < |players| && players[i].0 == t.detections[k].player
                            && players[i].1.viewangles.Some?
      {
        if k < |m.detections| {
          var i :| 0 <= i < |init| && init[i].0 == m.detections[k].player && init[i].1.viewangles.Some?;
          assert players[i] == init[i];
        } else {
          assert players[|players| - 1] == last;
        }
      }
    }
  }

  /** A player who has no angles in a tick keeps its series and previous angles through that tick. */
  lemma {:induction false} ObserveAllUntouched(s: Store, players: seq<(u64, PlayerState)>, tick: u32, p: u64)
    requires forall i :: 0 <= i < |players| && players[i].0 == p ==> players[i].1.viewangles.None?
    ensures SeriesOf(ObserveAll(s, players, tick), p) == SeriesOf(s, p)
    ensures (p in ObserveAll(s, players, tick).previousAngles) == (p in s.previousAngles)
    ensures p in s.previousAngles ==> ObserveAll(s, players, tick).previousAngles[p] == s.previousAngles[p]
  {
    if players != [] {
      var init := players[..|players| - 1];
      assert forall i :: 0 <= i < |init| ==> init[i] == players[i];
      ObserveAllUntouched(s, init, tick, p);
    }
  }

  /** After `finish`, the next sample of any player is treated as its first: no deltas and no detection. */
  lemma FirstSampleAfterFinish(s: Store, player: u64, current: Triple, position: Option<Triple>, tick: u32)
    ensures var before := Finished(s);
      var t := Record(before, player, current, position, tick);
      var r := SeriesOf(t, player)[|SeriesOf(before, player)|];
      r.vaDelta.None? && r.paDelta.None? && t.detections == s.detections
  {
  }

  /** The analyzer itself: the source's four maps and pending list, updated in place. */
  class ViewAnglesAnalyzer {
    var previousAngles: map<u64, Triple>
    var detections: seq<Detection>
    var playerViewangles: map<u64, seq<AngleRecord>>
    var playerNames: map<u64, string>

    function Model(): Store
      reads this
    {
      Store(previousAngles, playerViewangles, playerNames, detections)
    }

    constructor ()
      ensures Model() == EMPTY_STORE
    {
      previousAngles := map[];
      detections := [];
      playerViewangles := map[];
      playerNames := map[];
    }

    /** `handled_messages`: user messages only. */
    function HandledMessages(): (h: HandledMessages)
      ensures forall t :: DoesHandle(h, t) <==> t == UserMessage
    {
      Ok([UserMessage])
    }

    method CheckAngleChange(playerId: u64, current: Triple, position: Option<Triple>, tick: u32)
      modifies this
      ensures Model() == Record(old(Model()), playerId, current, position, tick)
    {
      var (currPitch, currYaw, currRoll) := current;

      var vaDelta: Option<real>, paDelta: Option<real> := None, None;
      if playerId in previousAngles {
        var (prevPitch, prevYaw, _) := previousAngles[playerId];
        vaDelta := Some(YawDelta(currYaw, prevYaw));
        paDelta := Some(currPitch - prevPitch);
      }

      var series := if playerId in playerViewangles then playerViewangles[playerId] else [];
      playerViewangles := playerViewangles[playerId :=
        series + [AngleRecord(tick, currPitch, currYaw, currRoll, position, vaDelta, paDelta)]];

      PushDetections(playerId, current, tick, vaDelta, paDelta);
      previousAngles := previousAngles[playerId := current];
    }

    /** The two checks of `check_angle_change`, run when both deltas exist. */
    method PushDetections(playerId: u64, current: Triple, tick: u32, vaDelta: Option<real>, paDelta: Option<real>)
      modifies this
      ensures detections == old(detections) + SampleDetections(playerId, current, tick, vaDelta, paDelta)
      ensures previousAngles == old(previousAngles) && playerViewangles == old(playerViewangles)
      ensures playerNames == old(playerNames)
    {
      var (currPitch, currYaw, _) := current;
      ghost var expected := SampleDetections(playerId, current, tick, vaDelta, paDelta);
      if vaDelta.Some? && paDelta.Some? {
        var yawDelta, pitchDelta := vaDelta.value, paDelta.value;
        if Abs(yawDelta) > SUSPICIOUS_YAW_CHANGE || Abs(pitchDelta) > SUSPICIOUS_PITCH_CHANGE {
          detections := detections + [Detection(tick, ALGORITHM_NAME, playerId,
            SuspiciousAngleChange(pitchDelta, yawDelta, currPitch - pitchDelta, currYaw - yawDelta, currPitch, currYaw))];
        }
        if Abs(currPitch) > MAX_PITCH_ANGLE {
          detections := detections + [Detection(tick, ALGORITHM_NAME, playerId,
            OutOfBoundsPitch(currPitch, MAX_PITCH_ANGLE, Abs(currPitch) - MAX_PITCH_ANGLE))];
        }
      }
      assert detections == old(detections) + expected;
    }

    /** `on_tick`: record every player of the tick, then hand over and clear the pending detections. */
    method OnTick(state: CheatAnalyserState) returns (r: seq<Detection>)
      modifies this
      ensures var t := ObserveAll(old(Model()), state.playerStates, state.tick);
        r == t.detections && Model() == t.(detections := [])
      ensures detections == []
    {
      var players := state.playerStates;
      var i := 0;
      while i < |players|
        invariant 0 <= i <= |players|
        invariant Model() == ObserveAll(old(Model()), players[..i], state.tick)
      {
        var (playerId, playerState) := players[i];
        if playerState.name != "" {
          playerNames := playerNames[playerId := playerState.name];
        }
        if playerState.viewangles.Some? {
          CheckAngleChange(playerId, playerState.viewangles.value, playerState.position, state.tick);
        }
        assert players[..i + 1][..i] == players[..i];
        i := i + 1;
      }
      assert players[..i] == players;
      r := detections;
      detections := [];
    }

    /** `finish`: no detections, and the previous angles are forgotten (the export is a separate function). */
    method Finish() returns (r: seq<Detection>)
      modifies this
      ensures r == []
      ensures Model() == Finished(old(Model()))
    {
      previousAngles := map[];
      r := [];
    }
  }

  // ---- The CSV export written by `finish` ----

  /** A CSV cell: a number (its `{:.2}` text is not modelled) or a literal token. */
  datatype Cell = Number(value: real) | Token(text: string)

  datatype CsvRow = CsvRow(
    tick: u32, playerId: u64, playerName: string,
    origin: Triple, viewangle: real, pitchangle: real,
    vaDelta: Cell, paDelta: Cell)

  const CSV_HEADER: string :=
    "tick,player_id,player_name,origin_x,origin_y,origin_z,viewangle,pitchangle,va_delta,pa_delta"

  /** The one row written when no player has any sample. */
  const PLACEHOLDER_ROW: CsvRow :=
    CsvRow(0, 0, "No_Players_Found", (0.0, 0.0, 0.0), 0.0, 0.0, Token("NaN"), Token("NaN"))

  /** A missing delta is written as the token `NaN`, a present one as its number. */
  function DeltaCell(d: Option<real>): (c: Cell)
    ensures c == Token("NaN") <==> d.None?
    ensures d.Some? ==> c == Number(d.value)
  {
    match d
    case None => Token("NaN")
    case Some(v) => Number(v)
  }

  /** `replace(",", "")`: the string with every comma dropped and the other characters kept in order. */
  function RemoveCommas(s: string): (r: string)
    ensures ',' !in r
    ensures |r| <= |s|
    ensures ',' !in s ==> r == s
  {
    if s == [] then []
    else if s[0] == ',' then RemoveCommas(s[1..])
    else [s[0]] + RemoveCommas(s[1..])
  }

  /** The label of a player in the export: its recorded name, or "Player <id>", without commas. */
  function DisplayName(s: Store, player: u64): (name: string)
    ensures ',' !in name
  {
    RemoveCommas(if player in s.playerNames then s.playerNames[player] else "Player " + Show(player))
  }

  function RowOf(player: u64, name: string, rec: AngleRecord): CsvRow
  {
    CsvRow(rec.tick, player, name,
           if rec.position.Some? then rec.position.value else (0.0, 0.0, 0.0),
           rec.yaw, rec.pitch, DeltaCell(rec.vaDelta), DeltaCell(rec.paDelta))
  }

  function RowsOf(player: u64, name: string, records: seq<AngleRecord>): (rows: seq<CsvRow>)
    ensures |rows| == |records|
    ensures forall j :: 0 <= j < |records| ==> rows[j] == RowOf(player, name, records[j])
  {
    if records == [] then [] else [RowOf(player, name, records[0])] + RowsOf(player, name, records[1..])
  }

  /** The rows of the players in `order`, player after player. */
  function AllRows(s: Store, order: seq<u64>): seq<CsvRow>
  {
    if order == [] then []
    else RowsOf(order[0], DisplayName(s, order[0]), SeriesOf(s, order[0])) + AllRows(s, order[1..])
  }

  /** A row of `AllRows` is exactly a row of some sample of some player listed in `order`. */
  lemma {:induction false} AllRowsMembers(s: Store, order: seq<u64>, row: CsvRow)
    ensures row in AllRows(s, order) <==>
      exists i, j :: 0 <= i < |order| && 0 <= j < |SeriesOf(s, order[i])| &&
        row == RowOf(order[i], DisplayName(s, order[i]), SeriesOf(s, order[i])[j])
  {
    if order != [] {
      AllRowsMembers(s, order[1..], row);
      var head := RowsOf(order[0], DisplayName(s, order[0]), SeriesOf(s, order[0]));
      assert AllRows(s, order) == head + AllRows(s, order[1..]);
      if row in AllRows(s, order) {
        if row in head {
          var j :| 0 <= j < |head| && head[j] == row;
          assert row == RowOf(order[0], DisplayName(s, order[0]), SeriesOf(s, order[0])[j]);
        } else {
          var i, j :| 0 <= i < |order[1..]| && 0 <= j < |SeriesOf(s, order[1..][i])| &&
            row == RowOf(order[1..][i], DisplayName(s, order[1..][i]), SeriesOf(s, order[1..][i])[j]);
          assert order[1..][i] == order[i + 1];
        }
      }
      if exists i, j :: 0 <= i < |order| && 0 <= j < |SeriesOf(s, order[i])| &&
           row == RowOf(order[i], DisplayName(s, order[i]), SeriesOf(s, order[i])[j]) {
        var i, j :| 0 <= i < |order| && 0 <= j < |SeriesOf(s, order[i])| &&
          row == RowOf(order[i], DisplayName(s, order[i]), SeriesOf(s, order[i])[j]);
        if i == 0 {
          assert head[j] == row;
        } else {
          assert order[1..][i - 1] == order[i];
        }
      }
    }
  }

  lemma {:induction false} AllRowsNoSeries(s: Store, order: seq<u64>)
    requires s.playerViewangles == map[]
    ensures AllRows(s, order) == []
  {
    if order != [] {
      AllRowsNoSeries(s, order[1..]);
    }
  }

  /** When `order` lists exactly the players with a series, `AllRows` holds the rows of exactly the stored samples. */
  lemma AllRowsComplete(s: Store, order: seq<u64>, row: CsvRow)
    requires forall p :: p in order <==> p in s.playerViewangles
    ensures row in AllRows(s, order) <==>
      (exists p, j :: p in s.playerViewangles && 0 <= j < |s.playerViewangles[p]| &&
         row == RowOf(p, DisplayName(s, p), s.playerViewangles[p][j]))
  {
    AllRowsMembers(s, order, row);
    if row in AllRows(s, order) {
      var i, j :| 0 <= i < |order| && 0 <= j < |SeriesOf(s, order[i])| &&
        row == RowOf(order[i], DisplayName(s, order[i]), SeriesOf(s, order[i])[j]);
      var p := order[i];
      assert p in order;
      assert p in s.playerViewangles;
      assert SeriesOf(s, p) == s.playerViewangles[p];
    }
    if exists p, j :: p in s.playerViewangles && 0 <= j < |s.playerViewangles[p]| &&
         row == RowOf(p, DisplayName(s, p), s.playerViewangles[p][j]) {
      var p, j :| p in s.playerViewangles && 0 <= j < |s.playerViewangles[p]| &&
        row == RowOf(p, DisplayName(s, p), s.playerViewangles[p][j]);
      assert p in order;
      var i :| 0 <= i < |order| && order[i] == p;
      assert SeriesOf(s, order[i]) == s.playerViewangles[p];
    }
  }

  /**
   * `write_viewangles_to_file`, the rows after the header. `order` is the
   * iteration order of the series map: each player with a series once.
   * An empty store yields exactly the placeholder row; otherwise every row
   * is the row of one stored sample, every stored sample has its row, and no
   * player name contains a comma.
   */
  function Export(s: Store, order: seq<u64>): (rows: seq<CsvRow>)
    requires forall p :: p in order <==> p in s.playerViewangles
    ensures s.playerViewangles == map[] ==> rows == [PLACEHOLDER_ROW]
    ensures forall k :: 0 <= k < |rows| ==> ',' !in rows[k].playerName
    ensures s.playerViewangles != map[] ==> forall row ::
      row in rows <==> (exists p, j :: p in s.playerViewangles && 0 <= j < |s.playerViewangles[p]| &&
                          row == RowOf(p, DisplayName(s, p), s.playerViewangles[p][j]))
  {
    if s.playerViewangles == map[] then
      AllRowsNoSeries(s, order);
      [PLACEHOLDER_ROW] + AllRows(s, order)
    else
      var rows := AllRows(s, order);
      assert forall k :: 0 <= k < |rows| ==> ',' !in rows[k].playerName by {
        forall k | 0 <= k < |rows| ensures ',' !in rows[k].playerName {
          AllRowsMembers(s, order, rows[k]);
        }
      }
      assert forall row :: row in rows <==>
        (exists p, j :: p in s.playerViewangles && 0 <= j < |s.playerViewangles[p]| &&
           row == RowOf(p, DisplayName(s, p), s.playerViewangles[p][j])) by {
        forall row {
          AllRowsComplete(s, order, row);
        }
      }
      rows
  }
}
