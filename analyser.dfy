/**
 * The orchestrator (src/cheater_detection/base/mod.rs): `CheatAnalyser` runs an
 * ordered list of algorithms on every tick, counts ticks, and keeps an
 * append-only list of their detections; `CheatDemoHandler` routes demo packets
 * to it.
 */
module Analyser {
  import opened Wrappers
  import opened Types
  import opened CheatDetection
  import opened ViewAngles

  /**
   * The algorithms the analyser can hold: the view-angle analyzer of this core,
   * or an algorithm from outside it, given by its `init` outcome, its `on_tick`
   * as a function of the analyser state, and its `finish` result.
   */
  datatype Algorithm =
    | ViewAngles(analyzer: ViewAnglesAnalyzer)
    | External(name: string,
               onInit: Outcome<Error>,
               onTick: CheatAnalyserState -> Result<seq<Detection>, Error>,
               onFinish: Result<seq<Detection>, Error>)

  /** What `init()` of an algorithm returns: the view-angle analyzer keeps the default. */
  function InitOf(a: Algorithm): Outcome<Error>
  {
    match a
    case ViewAngles(_) => DefaultInit()
    case External(_, onInit, _, _) => onInit
  }

  /** What `finish()` of an algorithm returns: the view-angle analyzer returns no detections. */
  function FinishOf(a: Algorithm): Result<seq<Detection>, Error>
  {
    match a
    case ViewAngles(_) => Ok([])
    case External(_, _, _, onFinish) => onFinish
  }

  /** The detections of every algorithm, concatenated in algorithm order. */
  function Flatten(outs: seq<seq<Detection>>): (r: seq<Detection>)
    ensures outs == [] ==> r == []
    ensures forall d :: d in r <==> exists o :: o in outs && d in o
  {
    if outs == [] then [] else Flatten(outs[..|outs| - 1]) + outs[|outs| - 1]
  }

  /**
   * The view-angle analyzer `a`, which held `before`, observed every player of
   * `st` at its tick, handed out `out` and kept no pending detections.
   */
  ghost predicate Observed(a: ViewAnglesAnalyzer, before: Store, st: CheatAnalyserState, out: seq<Detection>)
    reads a
  {
    var t := ObserveAll(before, st.playerStates, st.tick);
    out == t.detections && a.Model() == t.(detections := [])
  }

  /** A demo packet, as far as the handler distinguishes packets. */
  datatype Packet =
    | Message(hasMessages: bool)   // a message packet; whether its message list is non-empty
    | Signon
    | SyncTick
    | Other

  class CheatAnalyser {
    const algorithms: seq<Algorithm>
    var state: CheatAnalyserState
    var detections: seq<Detection>
    var tickCount: u32

    /** The view-angle analyzers among the algorithms: what a tick may change besides this object. */
    ghost function Analyzers(): set<ViewAnglesAnalyzer>
    {
      set i | 0 <= i < |algorithms| && algorithms[i].ViewAngles? :: algorithms[i].analyzer
    }

    /** Each boxed algorithm is owned once, and the state's tick is the tick counter. */
    ghost predicate Valid()
      reads this
    {
      && state.tick == tickCount
      && forall i, j :: 0 <= i < j < |algorithms| && algorithms[i].ViewAngles? && algorithms[j].ViewAngles? ==>
           algorithms[i].analyzer != algorithms[j].analyzer
    }

    /** `new`: tick 0, no players, no detections. */
    constructor (algorithms: seq<Algorithm>)
      requires forall i, j :: 0 <= i < j < |algorithms| && algorithms[i].ViewAngles? && algorithms[j].ViewAngles? ==>
        algorithms[i].analyzer != algorithms[j].analyzer
      ensures Valid()
      ensures this.algorithms == algorithms
      ensures tickCount == 0 && state == CheatAnalyserState(0, []) && detections == []
    {
      this.algorithms := algorithms;
      state := CheatAnalyserState(0, []);
      detections := [];
      tickCount := 0;
    }

    /** `init`: every algorithm's `init` in order, stopping at the first error. */
    method Init() returns (r: Outcome<Error>)
      ensures r.Pass? <==> forall i :: 0 <= i < |algorithms| ==> InitOf(algorithms[i]).Pass?
      ensures r.Fail? ==> exists k :: 0 <= k < |algorithms| && InitOf(algorithms[k]) == r &&
                            forall i :: 0 <= i < k ==> InitOf(algorithms[i]).Pass?
    {
      var i := 0;
      while i < |algorithms|
        invariant 0 <= i <= |algorithms|
        invariant forall j :: 0 <= j < i ==> InitOf(algorithms[j]).Pass?
      {
        var outcome := InitOf(algorithms[i]);
        if outcome.Fail? {
          return outcome;
        }
        i := i + 1;
      }
      return Pass;
    }

    /**
     * Runs `on_tick` of algorithms[i] on the current state and appends what it
     * returns; the view-angle analyzer never fails.
     */
    method TickAlgorithm(i: nat) returns (r: Result<seq<Detection>, Error>)
      requires i < |algorithms| && Valid()
      modifies this`detections, if algorithms[i].ViewAngles? then {algorithms[i].analyzer} else {}
      ensures forall k :: 0 <= k < |algorithms| && k != i && algorithms[k].ViewAngles? ==> unchanged(algorithms[k].analyzer)
      ensures algorithms[i].External? ==> r == algorithms[i].onTick(state)
      ensures algorithms[i].ViewAngles? ==>
        var t := ObserveAll(old(algorithms[i].analyzer.Model()), state.playerStates, state.tick);
        r == Ok(t.detections) && algorithms[i].analyzer.Model() == t.(detections := [])
      ensures detections == old(detections) + (if r.Ok? then r.value else [])
    {
      match algorithms[i] {
        case ViewAngles(analyzer) =>
          var ds := analyzer.OnTick(state);
          r := Ok(ds);
        case External(_, _, onTick, _) =>
          r := onTick(state);
      }
      if r.Ok? {
        detections := detections + r.value;
      }
    }
  
    /**
     * The first |outs| algorithms ran `on_tick` and returned `outs`, which were
     * appended to `before` in algorithm order.
     */
    ghost predicate TickPrefix(outs: seq<seq<Detection>>, before: seq<Detection>)
      reads this
    {
      && detections == before + Flatten(outs)
      && |outs| <= |algorithms|
      && forall i :: 0 <= i < |outs| && algorithms[i].External? ==> algorithms[i].onTick(state) == Ok(outs[i])
    }

    /**
     * One whole pass of `on_tick`: on success every algorithm ran; on an error
     * the pass stopped at the first failing algorithm, whose error is returned,
     * and what the earlier ones returned stays appended.
     */
    ghost predicate TickRun(r: Outcome<Error>, outs: seq<seq<Detection>>, before: seq<Detection>)
      reads this
    {
      && TickPrefix(outs, before)
      && (r.Pass? ==> |outs| == |algorithms|)
      && (r.Fail? ==> |outs| < |algorithms| && algorithms[|outs|].External? &&
                      algorithms[|outs|].onTick(state) == Err(r.error))
    }

    /** The same for `finish`, whose results do not depend on the state. */
    ghost predicate FinishPrefix(outs: seq<seq<Detection>>, before: seq<Detection>)
      reads this
    {
      && detections == before + Flatten(outs)
      && |outs| <= |algorithms|
      && forall i :: 0 <= i < |outs| ==> FinishOf(algorithms[i]) == Ok(outs[i])
    }

    ghost predicate FinishRun(r: Outcome<Error>, outs: seq<seq<Detection>>, before: seq<Detection>)
      reads this
    {
      && FinishPrefix(outs, before)
      && (r.Pass? ==> |outs| == |algorithms|)
      && (r.Fail? ==> |outs| < |algorithms| && FinishOf(algorithms[|outs|]) == Err(r.error))
    }

    lemma FlattenSnoc(outs: seq<seq<Detection>>, x: seq<Detection>)
      ensures Flatten(outs + [x]) == Flatten(outs) + x
    {
      assert (outs + [x])[..|outs|] == outs;
    }

    /** The loop shared by `handle_message` and `handle_tick`: every algorithm's `on_tick`, then its detections appended. */
    method TickAll() returns (r: Outcome<Error>, ghost outs: seq<seq<Detection>>)
      requires Valid()
      modifies this`detections, Analyzers()
      ensures TickRun(r, outs, old(detections))
      ensures forall i :: 0 <= i < |outs| && algorithms[i].ViewAngles? ==>
        Observed(algorithms[i].analyzer, old(algorithms[i].analyzer.Model()), state, outs[i])
      ensures forall i :: |outs| <= i < |algorithms| && algorithms[i].ViewAngles? ==>
        unchanged(algorithms[i].analyzer)
    {
      outs := [];
      var i := 0;
      while i < |algorithms|
        invariant 0 <= i <= |algorithms| && |outs| == i
        invariant TickPrefix(outs, old(detections))
        invariant forall k :: 0 <= k < i && algorithms[k].ViewAngles? ==>
          Observed(algorithms[k].analyzer, old(algorithms[k].analyzer.Model()), state, outs[k])
        invariant forall k :: i <= k < |algorithms| && algorithms[k].ViewAngles? ==>
          unchanged(algorithms[k].analyzer)
      {
        var result := TickAlgorithm(i);
        if result.Err? {
          r := Fail(result.error);
          return;
        }
        FlattenSnoc(outs, result.value);
        outs := outs + [result.value];
        i := i + 1;
      }
      r := Pass;
    }

    /** `handle_message`: the counter and the state's tick become `tick`; a non-empty message runs every algorithm. */
    method HandleMessage(hasMessages: bool, tick: u32) returns (r: Outcome<Error>, ghost outs: seq<seq<Detection>>)
      requires Valid()
      modifies this, Analyzers()
      ensures Valid()
      ensures tickCount == tick && state == old(state).(tick := tick)
      ensures hasMessages ==> TickRun(r, outs, old(detections))
      ensures hasMessages ==> forall i :: 0 <= i < |outs| && algorithms[i].ViewAngles? ==>
        Observed(algorithms[i].analyzer, old(algorithms[i].analyzer.Model()), state, outs[i])
      ensures hasMessages ==> forall i :: |outs| <= i < |algorithms| && algorithms[i].ViewAngles? ==>
        unchanged(algorithms[i].analyzer)
      ensures !hasMessages ==> r == Pass && outs == [] && detections == old(detections)
      ensures !hasMessages ==> unchanged(Analyzers())
    {
      tickCount := tick;
      state := state.(tick := tick);
      if hasMessages {
        r, outs := TickAll();
      } else {
        r, outs := Pass, [];
      }
    }

    /** `handle_tick`: the counter goes up by one (wrapping like a release-build `u32`), then every algorithm runs. */
    method HandleTick() returns (r: Outcome<Error>, ghost outs: seq<seq<Detection>>)
      requires Valid()
      modifies this, Analyzers()
      ensures Valid()
      ensures tickCount == (old(tickCount) + 1) % U32_LIMIT
      ensures old(tickCount) + 1 < U32_LIMIT ==> tickCount == old(tickCount) + 1
      ensures state == old(state).(tick := tickCount)
      ensures TickRun(r, outs, old(detections))
      ensures forall i :: 0 <= i < |outs| && algorithms[i].ViewAngles? ==>
        Observed(algorithms[i].analyzer, old(algorithms[i].analyzer.Model()), state, outs[i])
      ensures forall i :: |outs| <= i < |algorithms| && algorithms[i].ViewAngles? ==>
        unchanged(algorithms[i].analyzer)
    {
      tickCount := (tickCount + 1) % U32_LIMIT;
      state := state.(tick := tickCount);
      r, outs := TickAll();
    }

    /** Runs `finish` of algorithms[i] and appends what it returns. */
    method FinishAlgorithm(i: nat) returns (r: Result<seq<Detection>, Error>)
      requires i < |algorithms| && Valid()
      modifies this`detections, if algorithms[i].ViewAngles? then {algorithms[i].analyzer} else {}
      ensures r == FinishOf(algorithms[i])
      ensures algorithms[i].ViewAngles? ==>
        algorithms[i].analyzer.Model() == Finished(old(algorithms[i].analyzer.Model()))
      ensures forall k :: 0 <= k < |algorithms| && k != i && algorithms[k].ViewAngles? ==> unchanged(algorithms[k].analyzer)
      ensures detections == old(detections) + (if r.Ok? then r.value else [])
    {
      match algorithms[i] {
        case ViewAngles(analyzer) =>
          var ds := analyzer.Finish();
          r := Ok(ds);
        case External(_, _, _, onFinish) =>
          r := onFinish;
      }
      if r.Ok? {
        detections := detections + r.value;
      }
    }

    /** `finish`: every algorithm's `finish` in order, its detections appended, stopping at the first error. */
    method Finish() returns (r: Outcome<Error>, ghost outs: seq<seq<Detection>>)
      requires Valid()
      modifies this`detections, Analyzers()
      ensures Valid()
      ensures FinishRun(r, outs, old(detections))
      ensures forall i :: 0 <= i < |outs| && algorithms[i].ViewAngles? ==>
        algorithms[i].analyzer.Model() == Finished(old(algorithms[i].analyzer.Model()))
      ensures forall i :: |outs| <= i < |algorithms| && algorithms[i].ViewAngles? ==>
        unchanged(algorithms[i].analyzer)
    {
      outs := [];
      var i := 0;
      while i < |algorithms|
        invariant 0 <= i <= |algorithms| && |outs| == i
        invariant FinishPrefix(outs, old(detections))
        invariant forall k :: 0 <= k < i && algorithms[k].ViewAngles? ==>
          algorithms[k].analyzer.Model() == Finished(old(algorithms[k].analyzer.Model()))
        invariant forall k :: i <= k < |algorithms| && algorithms[k].ViewAngles? ==>
          unchanged(algorithms[k].analyzer)
      {
        var result := FinishAlgorithm(i);
        if result.Err? {
          r := Fail(result.error);
          return;
        }
        FlattenSnoc(outs, result.value);
        outs := outs + [result.value];
        i := i + 1;
      }
      r := Pass;
    }

    /** `get_detections`. */
    method GetDetections() returns (ds: seq<Detection>)
      ensures ds == detections
    {
      ds := detections;
    }

    /** `get_tick_count_u32`. */
    method GetTickCount() returns (t: u32)
      ensures t == tickCount
    {
      t := tickCount;
    }
  }

  /** `CheatDemoHandler`: owns an analyser and feeds it packets. The parser state it also owns is outside this model. */
  class CheatDemoHandler {
    const analyser: CheatAnalyser

    constructor WithAnalyser(analyser: CheatAnalyser)
      ensures this.analyser == analyser
    {
      this.analyser := analyser;
    }

    /**
     * `handle_packet`: a message packet is handled at the current tick count, so
     * the count stays; signon and sync-tick packets advance the tick; any other
     * packet changes nothing.
     */
    method HandlePacket(packet: Packet) returns (r: Outcome<Error>, ghost outs: seq<seq<Detection>>)
      requires analyser.Valid()
      modifies analyser, analyser.Analyzers()
      ensures analyser.Valid()
      ensures packet.Message? ==>
        analyser.tickCount == old(analyser.tickCount) && analyser.state == old(analyser.state)
      ensures packet.Message? && packet.hasMessages ==> analyser.TickRun(r, outs, old(analyser.detections))
      ensures (packet.Message? && packet.hasMessages) || packet.Signon? || packet.SyncTick? ==>
        && (forall i :: 0 <= i < |outs| <= |analyser.algorithms| && analyser.algorithms[i].ViewAngles? ==>
              Observed(analyser.algorithms[i].analyzer, old(analyser.algorithms[i].analyzer.Model()),
                       analyser.state, outs[i]))
        && (forall i :: |outs| <= i < |analyser.algorithms| && analyser.algorithms[i].ViewAngles? ==>
              unchanged(analyser.algorithms[i].analyzer))
      ensures packet.Message? && !packet.hasMessages ==>
        r == Pass && analyser.detections == old(analyser.detections) && unchanged(analyser.Analyzers())
      ensures (packet.Signon? || packet.SyncTick?) ==>
        && analyser.tickCount == (old(analyser.tickCount) + 1) % U32_LIMIT
        && analyser.state == old(analyser.state).(tick := analyser.tickCount)
        && analyser.TickRun(r, outs, old(analyser.detections))
      ensures packet.Other? ==>
        r == Pass && outs == [] && unchanged(analyser) && unchanged(analyser.Analyzers())
    {
      match packet {
        case Message(_) =>
          var tick := analyser.GetTickCount();
          r, outs := analyser.HandleMessage(packet.hasMessages, tick);
        case Signon =>
          r, outs := analyser.HandleTick();
        case SyncTick =>
          r, outs := analyser.HandleTick();
        case Other =>
          r, outs := Pass, [];
      }
    }
  }
}
