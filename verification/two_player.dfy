/** timer-aiy-custom-audio-2player.py: two players taking turns, a custom WAV
    start cue for player 1 and one shared by everyone else, and a custom
    timeout cue, each with a fallback beep list when its file is missing. */
module TwoPlayerTimer {
  import opened Shared
  import opened Clock
  import opened LedPolicy
  import opened AudioCues
  import opened Runs

  const PLAYER_ONE_FALLBACK: seq<int> := [1200, 1200]
  const OTHER_PLAYER_FALLBACK: seq<int> := [900, 900, 900]
  const TIMEOUT_FALLBACK: seq<int> := [1200, 1000, 800, 600, 400]

  // ---- Player rotation ----

  /** `2 if active_player == 1 else 1`: the toggle used by `next_player` and
      by a press in TIMEOUT. */
  function OtherPlayer(p: int): (q: int)
    ensures q == 1 || q == 2
    ensures q == 2 <==> p == 1
  {
    if p == 1 then 2 else 1
  }

  /** On players 1 and 2 the toggle is the cyclic rotation over two players,
      and toggling twice returns to the same player. */
  lemma OtherPlayerRotatesTwo(p: int)
    requires p == 1 || p == 2
    ensures OtherPlayer(p) == (p % 2) + 1
    ensures OtherPlayer(OtherPlayer(p)) == p
  {
  }

  // ---- Cues ----

  /** `start_sound(for_player)`: start_p1.wav or [1200, 1200] for player 1;
      start_p2.wav or [900, 900, 900] for anyone else. */
  function StartCue(player: int, present: set<Asset>): (effects: seq<Effect>)
    ensures player == 1 && StartP1 in present ==> Audio(effects) == [PlayWav(StartP1)]
    ensures player == 1 && StartP1 !in present ==> Audio(effects) == Tones(PLAYER_ONE_FALLBACK, BEEP_MS, BEEP_VOLUME)
    ensures player != 1 && StartP2 in present ==> Audio(effects) == [PlayWav(StartP2)]
    ensures player != 1 && StartP2 !in present ==> Audio(effects) == Tones(OTHER_PLAYER_FALLBACK, BEEP_MS, BEEP_VOLUME)
  {
    if player == 1 then CustomOrBeep(StartP1, present, PLAYER_ONE_FALLBACK)
    else CustomOrBeep(StartP2, present, OTHER_PLAYER_FALLBACK)
  }

  method StartSound(player: int, present: set<Asset>) returns (effects: seq<Effect>)
    ensures effects == StartCue(player, present)
  {
    if player == 1 {
      effects := PlayCustomOrBeep(StartP1, present, PLAYER_ONE_FALLBACK);
    } else {
      effects := PlayCustomOrBeep(StartP2, present, OTHER_PLAYER_FALLBACK);
    }
  }

  /** `timeout_alarm()`: timeout.wav if present, otherwise five falling beeps. */
  function TimeoutCue(present: set<Asset>): (effects: seq<Effect>)
    ensures TimeoutClip in present ==> Audio(effects) == [PlayWav(TimeoutClip)]
    ensures TimeoutClip !in present ==> Audio(effects) == Tones(TIMEOUT_FALLBACK, BEEP_MS, BEEP_VOLUME)
  {
    CustomOrBeep(TimeoutClip, present, TIMEOUT_FALLBACK)
  }

  method TimeoutAlarm(present: set<Asset>) returns (effects: seq<Effect>)
    ensures effects == TimeoutCue(present)
  {
    effects := PlayCustomOrBeep(TimeoutClip, present, TIMEOUT_FALLBACK);
  }

  // ---- State machine, as functions of the globals ----

  /** The states the main loop treats as a running turn. */
  predicate Running(s: TimerState) {
    s == P1Running || s == P2Running
  }

  /** What the script keeps true of its globals: the active player is 1 or 2,
      only the two-player states occur, and a running state names the active
      player. */
  predicate Invariant(g: Globals) {
    && (g.activePlayer == 1 || g.activePlayer == 2)
    && (g.state == Idle || Running(g.state) || g.state == Timeout)
    && (Running(g.state) ==> g.state.RunningPlayer() == g.activePlayer)
  }

  /** `start_turn(player)`: P1_RUNNING for player 1 and P2_RUNNING otherwise. */
  function StartTurnStep(player: int, now: int, present: set<Asset>): (o: Outcome)
    ensures Running(o.next.state) && (o.next.state == P1Running <==> player == 1)
    ensures o.next.activePlayer == player
    ensures o.next.deadline == now + TURN_SECONDS * MS_PER_SECOND
    ensures Remaining(o.next.deadline, now) == TURN_SECONDS
    ensures (player == 1 || player == 2) ==> Invariant(o.next)
    ensures o.effects == StartCue(player, present)
  {
    RemainingAtTurnStart(now);
    Outcome(Globals(if player == 1 then P1Running else P2Running, player, now + TURN_SECONDS * MS_PER_SECOND),
            StartCue(player, present))
  }

  /** `next_player()`. */
  function NextPlayerStep(g: Globals, now: int, present: set<Asset>): (o: Outcome)
    ensures Invariant(o.next) && Running(o.next.state)
    ensures o.next.activePlayer == OtherPlayer(g.activePlayer)
    ensures o.next.deadline == now + TURN_SECONDS * MS_PER_SECOND
    ensures o.effects == StartCue(o.next.activePlayer, present)
  {
    StartTurnStep(OtherPlayer(g.activePlayer), now, present)
  }

  /** The press branch of the main loop. Whatever the state, a press leaves a
      running turn with a fresh deadline: player 1 from IDLE, and otherwise
      the other player. */
  function PressStep(g: Globals, now: int, present: set<Asset>): (o: Outcome)
    ensures Invariant(o.next) && Running(o.next.state)
    ensures o.next.activePlayer == if g.state == Idle then 1 else OtherPlayer(g.activePlayer)
    ensures o.next.deadline == now + TURN_SECONDS * MS_PER_SECOND
    ensures o.effects == StartCue(o.next.activePlayer, present)
  {
    if g.state == Idle || g.state == Timeout then
      StartTurnStep(if g.state == Idle then 1 else OtherPlayer(g.activePlayer), now, present)
    else
      NextPlayerStep(g, now, present)
  }

  /** A running turn whose remaining time has reached zero. */
  predicate TimesOut(g: Globals, now: int) {
    Running(g.state) && Remaining(g.deadline, now) <= 0
  }

  /** The tick branch of the main loop: show the tier of a running turn and
      time it out when nothing remains; otherwise turn the LED off in IDLE and
      sleep. Only the timeout changes a global, and only the state. */
  function TickStep(g: Globals, now: int, present: set<Asset>, caps: LedCaps): (o: Outcome)
    ensures TimesOut(g, now) ==>
      o.next == g.(state := Timeout)
      && o.effects == [SetLed(Blink), SetLed(TimeoutPattern(caps))] + TimeoutCue(present)
    ensures !TimesOut(g, now) ==> o.next == g && Quiet(o.effects)
    ensures Running(g.state) ==>
      |o.effects| > 0 && o.effects[0] == SetLed(LedPatternForRemaining(Remaining(g.deadline, now), caps.beaconDark))
    ensures Running(g.state) && !TimesOut(g, now) ==>
      o.effects == [SetLed(LedPatternForRemaining(Remaining(g.deadline, now), caps.beaconDark))]
    ensures g.state == Idle ==> o.effects == [SetLed(Off), Sleep(IDLE_SLEEP_MS)]
    ensures g.state == Timeout ==> o.effects == [Sleep(IDLE_SLEEP_MS)]
  {
    if Running(g.state) then
      var r := Remaining(g.deadline, now);
      var shown := SetLed(LedPatternForRemaining(r, caps.beaconDark));
      if r <= 0 then
        assert shown == SetLed(Blink);
        Outcome(g.(state := Timeout), [shown, SetLed(TimeoutPattern(caps))] + TimeoutCue(present))
      else
        SilentIsQuiet([shown]);
        Outcome(g, [shown])
    else
      var effects := (if g.state == Idle then [SetLed(Off)] else []) + [Sleep(IDLE_SLEEP_MS)];
      SilentIsQuiet(effects);
      Outcome(g, effects)
  }

  /** The press half of one pass of the loop. */
  function PressPhase(g: Globals, input: Input): (o: Outcome)
    ensures !input.pressed ==> o.next == g && o.effects == []
    ensures input.pressed ==>
      Running(o.next.state) && o.next.deadline == input.pressNow + TURN_SECONDS * MS_PER_SECOND
    ensures input.pressed ==> o.next.activePlayer == if g.state == Idle then 1 else OtherPlayer(g.activePlayer)
  {
    if input.pressed then PressStep(g, input.pressNow, input.present) else Outcome(g, [])
  }

  /** The alarm sounds in this pass of the loop. */
  predicate Fires(g: Globals, input: Input) {
    TimesOut(PressPhase(g, input).next, input.tickNow)
  }

  /** One pass of `while True`: the press branch, then the tick branch. */
  function LoopStep(g: Globals, input: Input, caps: LedCaps): (o: Outcome)
    ensures Invariant(g) ==> Invariant(o.next)
    ensures input.pressed ==> o.next.state != Idle
    ensures Fires(g, input) ==>
      o.next.state == Timeout
      && o.next.activePlayer == PressPhase(g, input).next.activePlayer
      && o.effects == PressPhase(g, input).effects
                      + ([SetLed(Blink), SetLed(TimeoutPattern(caps))] + TimeoutCue(input.present))
    ensures !Fires(g, input) ==>
      o.next == PressPhase(g, input).next && Audio(o.effects) == Audio(PressPhase(g, input).effects)
    ensures !input.pressed && !Fires(g, input) ==> o.next == g && Quiet(o.effects)
    ensures |o.effects| > |PressPhase(g, input).effects|
  {
    var pressed := PressPhase(g, input);
    var ticked := TickStep(pressed.next, input.tickNow, input.present, caps);
    AudioConcat(pressed.effects, ticked.effects);
    Outcome(ticked.next, pressed.effects + ticked.effects)
  }

  /** The loop run over a sequence of passes, effects in order. Every pass
      writes the LED or sleeps, so the loop never spins without an effect. */
  function LoopRun(g: Globals, inputs: seq<Input>, caps: LedCaps): (o: Outcome)
    ensures |o.effects| >= |inputs|
    ensures inputs == [] ==> o == Outcome(g, [])
  {
    if inputs == [] then Outcome(g, [])
    else
      var before := LoopRun(g, inputs[..|inputs| - 1], caps);
      var last := LoopStep(before.next, inputs[|inputs| - 1], caps);
      Outcome(last.next, before.effects + last.effects)
  }

  /** How many passes of a run sound the alarm. */
  function AlarmCount(g: Globals, inputs: seq<Input>, caps: LedCaps): nat {
    if inputs == [] then 0
    else
      var prefix := inputs[..|inputs| - 1];
      AlarmCount(g, prefix, caps) + (if Fires(LoopRun(g, prefix, caps).next, inputs[|inputs| - 1]) then 1 else 0)
  }

  // ---- Properties of runs ----

  /** LoopRun is the generic run of LoopStep. */
  lemma {:induction false} LoopRunIsRun(g: Globals, inputs: seq<Input>, caps: LedCaps)
    ensures LoopRun(g, inputs, caps) == Run((h, i) => LoopStep(h, i, caps), g, inputs)
  {
    if inputs != [] {
      LoopRunIsRun(g, inputs[..|inputs| - 1], caps);
    }
  }

  /** A run splits at any pass: the second part starts from where the first
      ended, and the effects are those of the parts in order. */
  lemma LoopRunSplit(g: Globals, a: seq<Input>, b: seq<Input>, caps: LedCaps)
    ensures LoopRun(g, a + b, caps).next == LoopRun(LoopRun(g, a, caps).next, b, caps).next
    ensures LoopRun(g, a + b, caps).effects
         == LoopRun(g, a, caps).effects + LoopRun(LoopRun(g, a, caps).next, b, caps).effects
  {
    LoopRunIsRun(g, a + b, caps);
    LoopRunIsRun(g, a, caps);
    LoopRunIsRun(LoopRun(g, a, caps).next, b, caps);
    RunSplit((h, i) => LoopStep(h, i, caps), g, a, b);
  }

  /** The alarms of a run are those of its two parts. */
  lemma {:induction false} AlarmCountSplit(g: Globals, a: seq<Input>, b: seq<Input>, caps: LedCaps)
    ensures AlarmCount(g, a + b, caps) == AlarmCount(g, a, caps) + AlarmCount(LoopRun(g, a, caps).next, b, caps)
  {
    if b == [] {
      assert a + b == a;
    } else {
      var front := b[..|b| - 1];
      assert (a + b)[..|a + b| - 1] == a + front;
      assert (a + b)[|a + b| - 1] == b[|b| - 1];
      AlarmCountSplit(g, a, front, caps);
      LoopRunSplit(g, a, front, caps);
    }
  }

  /** Every pass keeps the invariant, so it holds for any run from the start. */
  lemma {:induction false} RunKeepsInvariant(g: Globals, inputs: seq<Input>, caps: LedCaps)
    requires Invariant(g)
    ensures Invariant(LoopRun(g, inputs, caps).next)
  {
    if inputs != [] {
      RunKeepsInvariant(g, inputs[..|inputs| - 1], caps);
    }
  }

  /** Without presses the alarm sounds at most once. Until it does, nothing
      changes and nothing is heard; afterwards the state is TIMEOUT with the
      same player and deadline. */
  lemma {:induction false} AlarmAtMostOnceWithoutPress(g: Globals, inputs: seq<Input>, caps: LedCaps)
    requires NoPress(inputs)
    ensures AlarmCount(g, inputs, caps) <= 1
    ensures AlarmCount(g, inputs, caps) == 0 ==>
      LoopRun(g, inputs, caps).next == g && Quiet(LoopRun(g, inputs, caps).effects)
    ensures AlarmCount(g, inputs, caps) == 1 ==> LoopRun(g, inputs, caps).next == g.(state := Timeout)
  {
    if inputs != [] {
      var prefix := inputs[..|inputs| - 1];
      var last := inputs[|inputs| - 1];
      assert NoPress(prefix);
      AlarmAtMostOnceWithoutPress(g, prefix, caps);
      var before := LoopRun(g, prefix, caps);
      var step := LoopStep(before.next, last, caps);
      AudioConcat(before.effects, step.effects);
      assert !last.pressed;
    }
  }

  /** A running turn with no presses sounds the alarm exactly once as soon as
      some pass sees no time remaining. */
  lemma {:induction false} AlarmFiresOnceAtDeadline(g: Globals, inputs: seq<Input>, caps: LedCaps, j: nat)
    requires NoPress(inputs) && Running(g.state)
    requires j < |inputs| && Remaining(g.deadline, inputs[j].tickNow) == 0
    ensures AlarmCount(g, inputs, caps) == 1
  {
    var prefix := inputs[..|inputs| - 1];
    var last := inputs[|inputs| - 1];
    assert NoPress(prefix);
    AlarmAtMostOnceWithoutPress(g, inputs, caps);
    AlarmAtMostOnceWithoutPress(g, prefix, caps);
    if j < |inputs| - 1 {
      AlarmFiresOnceAtDeadline(g, prefix, caps, j);
    } else {
      assert last == inputs[j];
    }
  }

  /** In TIMEOUT the loop only sleeps until the next press. */
  lemma {:induction false} TimeoutWaitsForPress(g: Globals, inputs: seq<Input>, caps: LedCaps)
    requires NoPress(inputs) && g.state == Timeout
    ensures LoopRun(g, inputs, caps).next == g
    ensures LoopRun(g, inputs, caps).effects == seq(|inputs|, _ => Sleep(IDLE_SLEEP_MS))
  {
    if inputs != [] {
      var prefix := inputs[..|inputs| - 1];
      assert NoPress(prefix);
      TimeoutWaitsForPress(g, prefix, caps);
      assert !inputs[|inputs| - 1].pressed;
    }
  }

  // ---- The script's globals and the code that updates them ----

  class Timer {
    var state: TimerState
    var activePlayer: int
    var deadline: int

    function Snapshot(): Globals
      reads this
    {
      Globals(state, activePlayer, deadline)
    }

    ghost predicate Valid()
      reads this
    {
      Invariant(Snapshot())
    }

    /** The globals as the script initialises them. */
    constructor ()
      ensures Snapshot() == INITIAL && Valid()
    {
      state, activePlayer, deadline := Idle, 1, 0;
    }

    /** `start_turn(player)`, with `time.monotonic()` read as `now`. */
    method StartTurn(player: int, now: int, present: set<Asset>) returns (effects: seq<Effect>)
      modifies this
      ensures Outcome(Snapshot(), effects) == StartTurnStep(player, now, present)
      ensures (player == 1 || player == 2) ==> Valid()
    {
      activePlayer := player;
      deadline := now + TURN_SECONDS * MS_PER_SECOND;
      state := if player == 1 then P1Running else P2Running;
      effects := StartSound(player, present);
    }

    /** `next_player()`. */
    method NextPlayer(now: int, present: set<Asset>) returns (effects: seq<Effect>)
      modifies this
      ensures Outcome(Snapshot(), effects) == NextPlayerStep(old(Snapshot()), now, present)
      ensures Valid()
    {
      effects := StartTurn(OtherPlayer(activePlayer), now, present);
    }

    /** One pass of the body of `while True`. */
    method Iterate(input: Input, caps: LedCaps) returns (effects: seq<Effect>)
      modifies this
      ensures Outcome(Snapshot(), effects) == LoopStep(old(Snapshot()), input, caps)
      ensures old(Valid()) ==> Valid()
    {
      effects := [];
      if input.pressed {
        if state == Idle || state == Timeout {
          var playerToStart := if state == Idle then 1 else OtherPlayer(activePlayer);
          effects := StartTurn(playerToStart, input.pressNow, input.present);
        } else {
          effects := NextPlayer(input.pressNow, input.present);
        }
      }
      ghost var afterPress := Snapshot();
      assert Outcome(afterPress, effects) == PressPhase(old(Snapshot()), input);
      var tick: seq<Effect>;
      if Running(state) {
        var r := Remaining(deadline, input.tickNow);
        var shown := SetLed(LedPatternForRemaining(r, caps.beaconDark));
        tick := [shown];
        if r <= 0 {
          state := Timeout;
          tick := [shown, SetLed(TimeoutPattern(caps))];
          var alarm := TimeoutAlarm(input.present);
          tick := tick + alarm;
        }
      } else {
        tick := [];
        if state == Idle {
          tick := tick + [SetLed(Off)];
        }
        tick := tick + [Sleep(IDLE_SLEEP_MS)];
      }
      assert Outcome(Snapshot(), tick) == TickStep(afterPress, input.tickNow, input.present, caps);
      effects := effects + tick;
    }

    /** The main loop over a finite sequence of passes. */
    method RunLoop(inputs: seq<Input>, caps: LedCaps) returns (effects: seq<Effect>)
      modifies this
      ensures Outcome(Snapshot(), effects) == LoopRun(old(Snapshot()), inputs, caps)
    {
      effects := [];
      for i := 0 to |inputs|
        invariant Outcome(Snapshot(), effects) == LoopRun(old(Snapshot()), inputs[..i], caps)
      {
        var step := Iterate(inputs[i], caps);
        assert inputs[..i + 1][..i] == inputs[..i];
        effects := effects + step;
      }
      assert inputs[..|inputs|] == inputs;
    }
  }
}
