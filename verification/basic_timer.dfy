/** timer-aiy.py: the two-player timer without custom audio. Its cues are
    always synthesized beeps; no WAV file is ever looked up. */
module BasicTimer {
  import opened Shared
  import opened Clock
  import opened LedPolicy
  import opened AudioCues
  import opened Runs

  /** `start_sound` beeps for 80 ms at volume 0.6 and pauses 0.07 s after each. */
  const START_BEEP_MS := 80
  const START_BEEP_VOLUME := 0.6
  const START_PAUSE_MS := 70

  /** The tuple `timeout_alarm` iterates over; each at 120 ms, volume 0.7,
      then a 0.04 s pause. */
  const TIMEOUT_TONES: seq<int> := [1200, 1000, 800, 600, 400]

  // ---- Player rotation ----

  /** `2 if active_player == 1 else 1`: the toggle used by `next_player` and
      by a press in TIMEOUT. */
  function OtherPlayer(p: int): (q: int)
    ensures q == 1 || q == 2
    ensures q == 2 <==> p == 1
  {
    if p == 1 then 2 else 1
  }

  // ---- Cues ----

  /** The tone `start_sound` repeats for a player: 1200 Hz for player 1 and
      900 Hz for anyone else. */
  function StartTone(player: int): (hz: int)
    ensures hz == 1200 <==> player == 1
    ensures hz == 1200 || hz == 900
  {
    if player == 1 then 1200 else 900
  }

  /** How often `start_sound` repeats it: twice for player 1, three times
      otherwise. */
  function StartCount(player: int): (n: nat)
    ensures n == 2 <==> player == 1
    ensures n == 2 || n == 3
  {
    if player == 1 then 2 else 3
  }

  /** `start_sound(for_player)`: two 1200 Hz beeps for player 1, three 900 Hz
      beeps for anyone else, each 80 ms at volume 0.6; never a WAV file. */
  function StartCue(player: int): (effects: seq<Effect>)
    ensures player == 1 ==> Audio(effects) == Tones([1200, 1200], START_BEEP_MS, START_BEEP_VOLUME)
    ensures player != 1 ==> Audio(effects) == Tones([900, 900, 900], START_BEEP_MS, START_BEEP_VOLUME)
  {
    var tones := seq(StartCount(player), _ => StartTone(player));
    assert player == 1 ==> tones == [1200, 1200];
    assert player != 1 ==> tones == [900, 900, 900];
    BeepsPlayTones(tones, START_BEEP_MS, START_BEEP_VOLUME, START_PAUSE_MS);
    Beeps(tones, START_BEEP_MS, START_BEEP_VOLUME, START_PAUSE_MS)
  }

  /** `start_sound`: `for _ in range(count): beep(tone, 80, 0.6); sleep(0.07)`. */
  method StartSound(player: int) returns (effects: seq<Effect>)
    ensures effects == StartCue(player)
  {
    var tone := StartTone(player);
    var count := StartCount(player);
    effects := [];
    for k := 0 to count
      invariant effects == Beeps(seq(k, _ => tone), START_BEEP_MS, START_BEEP_VOLUME, START_PAUSE_MS)
    {
      BeepsAppend(seq(k, _ => tone), tone, START_BEEP_MS, START_BEEP_VOLUME, START_PAUSE_MS);
      assert seq(k + 1, _ => tone) == seq(k, _ => tone) + [tone];
      effects := effects + [PlayTone(tone, START_BEEP_MS, START_BEEP_VOLUME), Sleep(START_PAUSE_MS)];
    }
  }

  /** `timeout_alarm()`: the five tones of TIMEOUT_TONES, always synthesized. */
  function TimeoutCue(): (effects: seq<Effect>)
    ensures Audio(effects) == Tones(TIMEOUT_TONES, BEEP_MS, BEEP_VOLUME)
  {
    BeepsPlayTones(TIMEOUT_TONES, BEEP_MS, BEEP_VOLUME, BEEP_PAUSE_MS);
    Beeps(TIMEOUT_TONES, BEEP_MS, BEEP_VOLUME, BEEP_PAUSE_MS)
  }

  /** The timeout tones fall strictly, one after the other. */
  lemma TimeoutTonesDescend()
    ensures var t := Tones(TIMEOUT_TONES, BEEP_MS, BEEP_VOLUME);
      && |t| == 5
      && (forall i :: 0 <= i < |t| ==> t[i].PlayTone?)
      && (forall i, j :: 0 <= i < j < |t| ==> t[i].freqHz > t[j].freqHz)
  {
    var t := Tones(TIMEOUT_TONES, BEEP_MS, BEEP_VOLUME);
    assert forall i :: 0 <= i < 5 ==> t[i] == PlayTone(TIMEOUT_TONES[i], BEEP_MS, BEEP_VOLUME);
  }

  /** `timeout_alarm`: `for f in (1200, 1000, 800, 600, 400): beep(f, 120, 0.7); sleep(0.04)`. */
  method TimeoutAlarm() returns (effects: seq<Effect>)
    ensures effects == TimeoutCue()
  {
    effects := [];
    for i := 0 to |TIMEOUT_TONES|
      invariant effects == Beeps(TIMEOUT_TONES[..i], BEEP_MS, BEEP_VOLUME, BEEP_PAUSE_MS)
    {
      var f := TIMEOUT_TONES[i];
      BeepsAppend(TIMEOUT_TONES[..i], f, BEEP_MS, BEEP_VOLUME, BEEP_PAUSE_MS);
      assert TIMEOUT_TONES[..i + 1] == TIMEOUT_TONES[..i] + [f];
      effects := effects + [PlayTone(f, BEEP_MS, BEEP_VOLUME), Sleep(BEEP_PAUSE_MS)];
    }
    assert TIMEOUT_TONES[..|TIMEOUT_TONES|] == TIMEOUT_TONES;
  }

  // ---- State machine, as functions of the globals ----

  /** The states the main loop treats as a running turn. */
  predicate Running(s: TimerState) {
    s == P1Running || s == P2Running
  }

  /** What the script keeps true of its globals: the active player is 1 or 2,
      only the two-player states occur, and a running state names the active
      player. */
  predicate Invariant(g: Globals) {
    && (g.activePlayer == 1 || g.activePlayer == 2)
    && (g.state == Idle || Running(g.state) || g.state == Timeout)
    && (Running(g.state) ==> g.state.RunningPlayer() == g.activePlayer)
  }

  /** `start_turn(player)`: P1_RUNNING for player 1 and P2_RUNNING otherwise. */
  function StartTurnStep(player: int, now: int): (o: Outcome)
    ensures Running(o.next.state) && (o.next.state == P1Running <==> player == 1)
    ensures o.next.activePlayer == player
    ensures o.next.deadline == now + TURN_SECONDS * MS_PER_SECOND
    ensures Remaining(o.next.deadline, now) == TURN_SECONDS
    ensures (player == 1 || player == 2) ==> Invariant(o.next)
    ensures o.effects == StartCue(player)
  {
    RemainingAtTurnStart(now);
    Outcome(Globals(if player == 1 then P1Running else P2Running, player, now + TURN_SECONDS * MS_PER_SECOND),
            StartCue(player))
  }

  /** `next_player()`. */
  function NextPlayerStep(g: Globals, now: int): (o: Outcome)
    ensures Invariant(o.next) && Running(o.next.state)
    ensures o.next.activePlayer == OtherPlayer(g.activePlayer)
    ensures o.next.deadline == now + TURN_SECONDS * MS_PER_SECOND
    ensures o.effects == StartCue(o.next.activePlayer)
  {
    StartTurnStep(OtherPlayer(g.activePlayer), now)
  }

  /** The press branch of the main loop. Whatever the state, a press leaves a
      running turn with a fresh deadline: player 1 from IDLE, and otherwise
      the other player. */
  function PressStep(g: Globals, now: int): (o: Outcome)
    ensures Invariant(o.next) && Running(o.next.state)
    ensures o.next.activePlayer == if g.state == Idle then 1 else OtherPlayer(g.activePlayer)
    ensures o.next.deadline == now + TURN_SECONDS * MS_PER_SECOND
    ensures o.effects == StartCue(o.next.activePlayer)
  {
    if g.state == Idle || g.state == Timeout then
      StartTurnStep(if g.state == Idle then 1 else OtherPlayer(g.activePlayer), now)
    else
      NextPlayerStep(g, now)
  }

  /** A running turn whose remaining time has reached zero. */
  predicate TimesOut(g: Globals, now: int) {
    Running(g.state) && Remaining(g.deadline, now) <= 0
  }

  /** The tick branch of the main loop: show the tier of a running turn and
      time it out when nothing remains; otherwise turn the LED off in IDLE and
      sleep. Only the timeout changes a global, and only the state. */
  function TickStep(g: Globals, now: int, caps: LedCaps): (o: Outcome)
    ensures TimesOut(g, now) ==>
      o.next == g.(state := Timeout)
      && o.effects == [SetLed(Blink), SetLed(TimeoutPattern(caps))] + TimeoutCue()
    ensures !TimesOut(g, now) ==> o.next == g && Quiet(o.effects)
    ensures Running(g.state) ==>
      |o.effects| > 0 && o.effects[0] == SetLed(LedPatternForRemaining(Remaining(g.deadline, now), caps.beaconDark))
    ensures Running(g.state) && !TimesOut(g, now) ==>
      o.effects == [SetLed(LedPatternForRemaining(Remaining(g.deadline, now), caps.beaconDark))]
    ensures g.state == Idle ==> o.effects == [SetLed(Off), Sleep(IDLE_SLEEP_MS)]
    ensures g.state == Timeout ==> o.effects == [Sleep(IDLE_SLEEP_MS)]
  {
    if Running(g.state) then
      var r := Remaining(g.deadline, now);
      var shown := SetLed(LedPatternForRemaining(r, caps.beaconDark));
      if r <= 0 then
        assert shown == SetLed(Blink);
        Outcome(g.(state := Timeout), [shown, SetLed(TimeoutPattern(caps))] + TimeoutCue())
      else
        SilentIsQuiet([shown]);
        Outcome(g, [shown])
    else
      var effects := (if g.state == Idle then [SetLed(Off)] else []) + [Sleep(IDLE_SLEEP_MS)];
      SilentIsQuiet(effects);
      Outcome(g, effects)
  }

  /** The press half of one pass of the loop. */
  function PressPhase(g: Globals, input: Input): (o: Outcome)
    ensures !input.pressed ==> o.next == g && o.effects == []
    ensures input.pressed ==>
      Running(o.next.state) && o.next.deadline == input.pressNow + TURN_SECONDS * MS_PER_SECOND
    ensures input.pressed ==> o.next.activePlayer == if g.state == Idle then 1 else OtherPlayer(g.activePlayer)
  {
    if input.pressed then PressStep(g, input.pressNow) else Outcome(g, [])
  }

  /** The alarm sounds in this pass of the loop. */
  predicate Fires(g: Globals, input: Input) {
    TimesOut(PressPhase(g, input).next, input.tickNow)
  }

  /** One pass of `while True`: the press branch, then the tick branch. */
  function LoopStep(g: Globals, input: Input, caps: LedCaps): (o: Outcome)
    ensures Invariant(g) ==> Invariant(o.next)
    ensures input.pressed ==> o.next.state != Idle
    ensures Fires(g, input) ==>
      o.next.state == Timeout
      && o.next.activePlayer == PressPhase(g, input).next.activePlayer
      && o.effects == PressPhase(g, input).effects
                      + ([SetLed(Blink), SetLed(TimeoutPattern(caps))] + TimeoutCue())
    ensures !Fires(g, input) ==>
      o.next == PressPhase(g, input).next && Audio(o.effects) == Audio(PressPhase(g, input).effects)
    ensures !input.pressed && !Fires(g, input) ==> o.next == g && Quiet(o.effects)
    ensures |o.effects| > |PressPhase(g, input).effects|
  {
    var pressed := PressPhase(g, input);
    assert Fires(g, input) <==> TimesOut(pressed.next, input.tickNow);
    var ticked := TickStep(pressed.next, input.tickNow, caps);
    AudioConcat(pressed.effects, ticked.effects);
    Outcome(ticked.next, pressed.effects + ticked.effects)
  }

  /** The loop run over a sequence of passes, effects in order. Every pass
      writes the LED or sleeps, so the loop never spins without an effect. */
  function LoopRun(g: Globals, inputs: seq<Input>, caps: LedCaps): (o: Outcome)
    ensures |o.effects| >= |inputs|
    ensures inputs == [] ==> o == Outcome(g, [])
  {
    if inputs == [] then Outcome(g, [])
    else
      var before := LoopRun(g, inputs[..|inputs| - 1], caps);
      var last := LoopStep(before.next, inputs[|inputs| - 1], caps);
      Outcome(last.next, before.effects + last.effects)
  }

  /** How many passes of a run sound the alarm. */
  function AlarmCount(g: Globals, inputs: seq<Input>, caps: LedCaps): nat {
    if inputs == [] then 0
    else
      var prefix := inputs[..|inputs| - 1];
      AlarmCount(g, prefix, caps) + (if Fires(LoopRun(g, prefix, caps).next, inputs[|inputs| - 1]) then 1 else 0)
  }

  // ---- Properties of runs ----

  /** LoopRun is the generic run of LoopStep. */
  lemma {:induction false} LoopRunIsRun(g: Globals, inputs: seq<Input>, caps: LedCaps)
    ensures LoopRun(g, inputs, caps) == Run((h, i) => LoopStep(h, i, caps), g, inputs)
  {
    if inputs != [] {
      LoopRunIsRun(g, inputs[..|inputs| - 1], caps);
    }
  }

  /** A run splits at any pass: the second part starts from where the first
      ended, and the effects are those of the parts in order. */
  lemma LoopRunSplit(g: Globals, a: seq<Input>, b: seq<Input>, caps: LedCaps)
    ensures LoopRun(g, a + b, caps).next == LoopRun(LoopRun(g, a, caps).next, b, caps).next
    ensures LoopRun(g, a + b, caps).effects
         == LoopRun(g, a, caps).effects + LoopRun(LoopRun(g, a, caps).next, b, caps).effects
  {
    LoopRunIsRun(g, a + b, caps);
    LoopRunIsRun(g, a, caps);
    LoopRunIsRun(LoopRun(g, a, caps).next, b, caps);
    RunSplit((h, i) => LoopStep(h, i, caps), g, a, b);
  }

  /** The alarms of a run are those of its two parts. */
  lemma {:induction false} AlarmCountSplit(g: Globals, a: seq<Input>, b: seq<Input>, caps: LedCaps)
    ensures AlarmCount(g, a + b, caps) == AlarmCount(g, a, caps) + AlarmCount(LoopRun(g, a, caps).next, b, caps)
  {
    if b == [] {
      assert a + b == a;
    } else {
      var front := b[..|b| - 1];
      assert (a + b)[..|a + b| - 1] == a + front;
      assert (a + b)[|a + b| - 1] == b[|b| - 1];
      AlarmCountSplit(g, a, front, caps);
      LoopRunSplit(g, a, front, caps);
    }
  }

  /** Every pass keeps the invariant, so it holds for any run from the start. */
  lemma {:induction false} RunKeepsInvariant(g: Globals, inputs: seq<Input>, caps: LedCaps)
    requires Invariant(g)
    ensures Invariant(LoopRun(g, inputs, caps).next)
  {
    if inputs != [] {
      RunKeepsInvariant(g, inputs[..|inputs| - 1], caps);
    }
  }

  /** Without presses the alarm sounds at most once. Until it does, nothing
      changes and nothing is heard; afterwards the state is TIMEOUT with the
      same player and deadline. */
  lemma {:induction false} AlarmAtMostOnceWithoutPress(g: Globals, inputs: seq<Input>, caps: LedCaps)
    requires NoPress(inputs)
    ensures AlarmCount(g, inputs, caps) <= 1
    ensures AlarmCount(g, inputs, caps) == 0 ==>
      LoopRun(g, inputs, caps).next == g && Quiet(LoopRun(g, inputs, caps).effects)
    ensures AlarmCount(g, inputs, caps) == 1 ==> LoopRun(g, inputs, caps).next == g.(state := Timeout)
  {
    if inputs != [] {
      var prefix := inputs[..|inputs| - 1];
      var last := inputs[|inputs| - 1];
      assert NoPress(prefix);
      AlarmAtMostOnceWithoutPress(g, prefix, caps);
      var before := LoopRun(g, prefix, caps);
      var step := LoopStep(before.next, last, caps);
      AudioConcat(before.effects, step.effects);
      assert !last.pressed;
    }
  }

  /** A running turn with no presses sounds the alarm exactly once as soon as
      some pass sees no time remaining. */
  lemma {:induction false} AlarmFiresOnceAtDeadline(g: Globals, inputs: seq<Input>, caps: LedCaps, j: nat)
    requires NoPress(inputs) && Running(g.state)
    requires j < |inputs| && Remaining(g.deadline, inputs[j].tickNow) == 0
    ensures AlarmCount(g, inputs, caps) == 1
  {
    var prefix := inputs[..|inputs| - 1];
    var last := inputs[|inputs| - 1];
    assert NoPress(prefix);
    AlarmAtMostOnceWithoutPress(g, inputs, caps);
    AlarmAtMostOnceWithoutPress(g, prefix, caps);
    if j < |inputs| - 1 {
      AlarmFiresOnceAtDeadline(g, prefix, caps, j);
    } else {
      assert last == inputs[j];
    }
  }

  /** In TIMEOUT the loop only sleeps until the next press. */
  lemma {:induction false} TimeoutWaitsForPress(g: Globals, inputs: seq<Input>, caps: LedCaps)
    requires NoPress(inputs) && g.state == Timeout
    ensures LoopRun(g, inputs, caps).next == g
    ensures LoopRun(g, inputs, caps).effects == seq(|inputs|, _ => Sleep(IDLE_SLEEP_MS))
  {
    if inputs != [] {
      var prefix := inputs[..|inputs| - 1];
      assert NoPress(prefix);
      TimeoutWaitsForPress(g, prefix, caps);
      assert !inputs[|inputs| - 1].pressed;
    }
  }

  // ---- The script's globals and the code that updates them ----

  class Timer {
    var state: TimerState
    var activePlayer: int
    var deadline: int

    function Snapshot(): Globals
      reads this
    {
      Globals(state, activePlayer, deadline)
    }

    ghost predicate Valid()
      reads this
    {
      Invariant(Snapshot())
    }

    /** The globals as the script initialises them. */
    constructor ()
      ensures Snapshot() == INITIAL && Valid()
    {
      state, activePlayer, deadline := Idle, 1, 0;
    }

    /** `start_turn(player)`, with `time.monotonic()` read as `now`. */
    method StartTurn(player: int, now: int) returns (effects: seq<Effect>)
      modifies this
      ensures Outcome(Snapshot(), effects) == StartTurnStep(player, now)
      ensures (player == 1 || player == 2) ==> Valid()
    {
      activePlayer := player;
      deadline := now + TURN_SECONDS * MS_PER_SECOND;
      state := if player == 1 then P1Running else P2Running;
      effects := StartSound(player);
    }

    /** `next_player()`. */
    method NextPlayer(now: int) returns (effects: seq<Effect>)
      modifies this
      ensures Outcome(Snapshot(), effects) == NextPlayerStep(old(Snapshot()), now)
      ensures Valid()
    {
      effects := StartTurn(OtherPlayer(activePlayer), now);
    }

    /** One pass of the body of `while True`. */
    method Iterate(input: Input, caps: LedCaps) returns (effects: seq<Effect>)
      modifies this
      ensures Outcome(Snapshot(), effects) == LoopStep(old(Snapshot()), input, caps)
      ensures old(Valid()) ==> Valid()
    {
      effects := [];
      if input.pressed {
        if state == Idle || state == Timeout {
          var playerToStart := if state == Idle then 1 else OtherPlayer(activePlayer);
          effects := StartTurn(playerToStart, input.pressNow);
        } else {
          effects := NextPlayer(input.pressNow);
        }
      }
      ghost var afterPress := Snapshot();
      assert Outcome(afterPress, effects) == PressPhase(old(Snapshot()), input);
      var tick: seq<Effect>;
      if Running(state) {
        var r := Remaining(deadline, input.tickNow);
        var shown := SetLed(LedPatternForRemaining(r, caps.beaconDark));
        tick := [shown];
        if r <= 0 {
          state := Timeout;
          tick := [shown, SetLed(TimeoutPattern(caps))];
          var alarm := TimeoutAlarm();
          tick := tick + alarm;
        }
      } else {
        tick := [];
        if state == Idle {
          tick := tick + [SetLed(Off)];
        }
        tick := tick + [Sleep(IDLE_SLEEP_MS)];
      }
      assert Outcome(Snapshot(), tick) == TickStep(afterPress, input.tickNow, caps);
      effects := effects + tick;
    }

    /** The main loop over a finite sequence of passes. */
    method RunLoop(inputs: seq<Input>, caps: LedCaps) returns (effects: seq<Effect>)
      modifies this
      ensures Outcome(Snapshot(), effects) == LoopRun(old(Snapshot()), inputs, caps)
    {
      effects := [];
      for i := 0 to |inputs|
        invariant Outcome(Snapshot(), effects) == LoopRun(old(Snapshot()), inputs[..i], caps)
      {
        var step := Iterate(inputs[i], caps);
        assert inputs[..i + 1][..i] == inputs[..i];
        effects := effects + step;
      }
      assert inputs[..|inputs|] == inputs;
    }
  }
}
