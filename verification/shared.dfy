/** Values shared by the three turn-timer scripts: their CONFIG constants, the
    timer state strings, the module globals as one value, LED patterns, the
    audio assets and the observable effects of one pass of the main loop.

    Time is kept in whole milliseconds of the monotonic clock. */
module Shared {

  datatype Option<+T> = None | Some(value: T)

  /** The CONFIG block, identical in all three scripts. */
  const TURN_SECONDS := 10
  const WARN_YELLOW := 4
  const WARN_RED := 2
  const MS_PER_SECOND := 1000

  /** The main loop sleeps 0.02 s whenever no turn is running. */
  const IDLE_SLEEP_MS := 20

  /** The `state` global: "IDLE", "P1_RUNNING" .. "P4_RUNNING", "TIMEOUT".
      The two-player scripts only ever use the first two running states. */
  datatype TimerState = Idle | P1Running | P2Running | P3Running | P4Running | Timeout
  {
    predicate IsRunning() {
      P1Running? || P2Running? || P3Running? || P4Running?
    }

    /** The player whose turn a running state names. */
    function RunningPlayer(): (p: int)
      requires IsRunning()
      ensures 1 <= p <= 4
    {
      match this
      case P1Running => 1
      case P2Running => 2
      case P3Running => 3
      case P4Running => 4
    }
  }

  /** The three module globals `state`, `active_player` and `deadline`. */
  datatype Globals = Globals(state: TimerState, activePlayer: int, deadline: int)

  /** Their values when a script starts. */
  const INITIAL := Globals(Idle, 1, 0)

  /** The `Led` patterns the scripts write to the button LED. */
  datatype LedPattern = Off | On | Blink | Blink3 | Beacon | BeaconDark

  /** Which of the optional `Led` attributes the installed AIY library has. */
  datatype LedCaps = LedCaps(beaconDark: bool, blink3: bool)

  /** The WAV files under audio/ that a cue may prefer. */
  datatype Asset = StartP1 | StartP2 | StartP3 | StartP4 | TimeoutClip

  /** What a pass of the main loop does to the outside world, in order:
      an LED write, a WAV file played, a synthesized tone played, a sleep. */
  datatype Effect =
    | SetLed(pattern: LedPattern)
    | PlayWav(asset: Asset)
    | PlayTone(freqHz: int, ms: int, volume: real)
    | Sleep(ms: int)

  /** What one pass of the main loop observes: whether the button was pressed,
      the clock when `start_turn` reads it, the clock when `remaining` reads it,
      and which asset files exist at that time. */
  datatype Input = Input(pressed: bool, pressNow: int, tickNow: int, present: set<Asset>)

  /** The globals after a step together with the effects the step produced. */
  datatype Outcome = Outcome(next: Globals, effects: seq<Effect>)

  /** No pass of the loop in `inputs` sees a press. */
  predicate NoPress(inputs: seq<Input>) {
    forall i :: 0 <= i < |inputs| ==> !inputs[i].pressed
  }
}
