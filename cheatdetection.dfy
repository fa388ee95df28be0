/**
 * The records shared by every cheat-detection algorithm and the default
 * behaviour of the algorithm interface (src/cheater_detection/mod.rs).
 */
module CheatDetection {
  import opened Wrappers
  import opened Types

  /** An error raised by an algorithm; its text is all the analyser passes on. */
  type Error = string

  /**
   * The structured payload of a detection. The source builds a JSON value; each
   * variant here is one of the shapes the core builds. The flick magnitude
   * (a square root over f32 values) is not part of this model.
   */
  datatype Payload =
    | SuspiciousAngleChange(pitchDelta: real, yawDelta: real,
                            previousPitch: real, previousYaw: real,
                            currentPitch: real, currentYaw: real)
    | OutOfBoundsPitch(pitch: real, limit: real, excess: real)
    | CsvAngleChange(vaDelta: real, paDelta: real, viewangle: real, pitchangle: real)

  /** One observation emitted by an algorithm. */
  datatype Detection = Detection(tick: u32, algorithm: string, player: u64, data: Payload)

  /** What the analyser knows about one player at the current tick. */
  datatype PlayerState = PlayerState(
    steamid: u64,
    viewangles: Option<Triple>,  // pitch, yaw, roll
    position: Option<Triple>,    // x, y, z
    name: string)

  /**
   * The analyser state handed to every algorithm. The source keeps the players
   * in a hash map; the sequence is that map in its iteration order.
   */
  datatype CheatAnalyserState = CheatAnalyserState(tick: u32, playerStates: seq<(u64, PlayerState)>)

  /** The kinds of demo message; only the user-message kind is named by the core. */
  datatype MessageType = UserMessage | OtherMessage(code: nat)

  /** `handled_messages()`: a list of kinds, or a flag meaning "all" or "none". */
  type HandledMessages = Result<seq<MessageType>, bool>

  /** `default()`: an algorithm is enabled by default. */
  function DefaultEnabled(): (enabled: bool)
    ensures enabled
  {
    true
  }

  /** `does_handle(t)`: membership in the listed kinds, or the flag for every kind. */
  function DoesHandle(handled: HandledMessages, t: MessageType): (r: bool)
    ensures handled.Ok? ==> (r <==> t in handled.value)
    ensures handled.Err? ==> r == handled.error
  {
    match handled
    case Ok(types) => t in types
    case Err(parseAll) => parseAll
  }

  /** The default `init()`: succeeds and changes nothing. */
  function DefaultInit(): (r: Outcome<Error>)
    ensures r.Pass?
  {
    Pass
  }

  /** The default `finish()`: succeeds with no detections. */
  function DefaultFinish(): (r: Result<seq<Detection>, Error>)
    ensures r == Ok([])
  {
    Ok([])
  }
}
