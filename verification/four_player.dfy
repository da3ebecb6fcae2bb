/** timer-aiy-custom-audio-4player.py: four players in rotation, a custom WAV
    start cue per player and a custom timeout cue, each with a fallback beep
    pattern when its file is missing. */
module FourPlayerTimer {
  import opened Shared
  import opened Clock
  import opened LedPolicy
  import opened AudioCues
  import opened Runs

  const PLAYER_COUNT := 4

  /** `START_BEEP_PATTERNS.get(player, [1000, 1000])`. */
  function StartBeepPattern(player: int): (pattern: seq<int>)
    ensures 2 <= |pattern| <= 4
    ensures forall i :: 0 <= i < |pattern| ==> 700 <= pattern[i] <= 1200
    ensures !(1 <= player <= PLAYER_COUNT) ==> pattern == [1000, 1000]
  {
    if player == 1 then [1200, 1200]
    else if player == 2 then [1000, 1000, 1000]
    else if player == 3 then [900, 1100, 900]
    else if player == 4 then [700, 700, 1000, 700]
    else [1000, 1000]
  }

  const TIMEOUT_BEEP_PATTERN: seq<int> := [1200, 1000, 800, 600, 400]

  // ---- Player rotation ----

  /** `next_in_sequence`: the player after `p`, cyclically over 1..PLAYER_COUNT. */
  function NextInSequence(p: int): (q: int)
    ensures 1 <= q <= PLAYER_COUNT
    ensures (q - 1 - p) % PLAYER_COUNT == 0
    ensures 1 <= p < PLAYER_COUNT ==> q == p + 1
    ensures p == PLAYER_COUNT ==> q == 1
  {
    (p % PLAYER_COUNT) + 1
  }

  /** The player reached from `p` after `k` rotations. */
  function Rotate(p: int, k: nat): int {
    if k == 0 then p else NextInSequence(Rotate(p, k - 1))
  }

  /** `k` rotations advance a player by `k` places around the table. */
  lemma {:induction false} RotateCycles(p: int, k: nat)
    requires 1 <= p <= PLAYER_COUNT
    ensures Rotate(p, k) == (p - 1 + k) % PLAYER_COUNT + 1
  {
    if k > 0 {
      RotateCycles(p, k - 1);
      SuccessorMod(p - 2 + k);
    }
  }

  /** Taking the successor commutes with reduction modulo PLAYER_COUNT. */
  lemma SuccessorMod(x: int)
    ensures (x % PLAYER_COUNT + 1) % PLAYER_COUNT == (x + 1) % PLAYER_COUNT
  {
  }

  /** Every player gets a turn within PLAYER_COUNT rotations of any other. */
  lemma EveryPlayerGetsATurn(p: int, q: int)
    requires 1 <= p <= PLAYER_COUNT && 1 <= q <= PLAYER_COUNT
    ensures Rotate(p, (q - p) % PLAYER_COUNT) == q
  {
    var k := (q - p) % PLAYER_COUNT;
    RotateCycles(p, k);
    assert p - 1 + k == q - 1 || p - 1 + k == q - 1 + PLAYER_COUNT;
  }

  /** A full round of PLAYER_COUNT rotations returns to the player who
      started it. */
  lemma FullRoundReturns(p: int)
    requires 1 <= p <= PLAYER_COUNT
    ensures Rotate(p, PLAYER_COUNT) == p
  {
    RotateCycles(p, PLAYER_COUNT);
  }

  // ---- Lookups keyed by player ----

  /** `state_for_player`: a dict lookup defined for players 1..4 only. */
  function StateForPlayer(player: int): (s: Option<TimerState>)
    ensures s.Some? <==> 1 <= player <= PLAYER_COUNT
    ensures s.Some? ==> s.value.IsRunning() && s.value.RunningPlayer() == player
  {
    if player == 1 then Some(P1Running)
    else if player == 2 then Some(P2Running)
    else if player == 3 then Some(P3Running)
    else if player == 4 then Some(P4Running)
    else None
  }

  /** The path dict in `start_sound`, also defined for players 1..4 only. */
  function StartAsset(player: int): (a: Option<Asset>)
    ensures a.Some? <==> 1 <= player <= PLAYER_COUNT
  {
    if player == 1 then Some(StartP1)
    else if player == 2 then Some(StartP2)
    else if player == 3 then Some(StartP3)
    else if player == 4 then Some(StartP4)
    else None
  }

  /** Each player has a start clip of its own. */
  lemma StartAssetsDistinct(p: int, q: int)
    requires 1 <= p <= PLAYER_COUNT && 1 <= q <= PLAYER_COUNT && p != q
    ensures StartAsset(p) != StartAsset(q)
  {
  }

  // ---- Cues ----

  /** `start_sound(player)`: the player's own WAV if present, otherwise the
      player's beep pattern. */
  function StartCue(player: int, present: set<Asset>): (effects: seq<Effect>)
    requires 1 <= player <= PLAYER_COUNT
    ensures StartAsset(player).value in present ==> Audio(effects) == [PlayWav(StartAsset(player).value)]
    ensures StartAsset(player).value !in present ==> Audio(effects) == Tones(StartBeepPattern(player), BEEP_MS, BEEP_VOLUME)
  {
    CustomOrBeep(StartAsset(player).value, present, StartBeepPattern(player))
  }

  method StartSound(player: int, present: set<Asset>) returns (effects: seq<Effect>)
    requires 1 <= player <= PLAYER_COUNT
    ensures effects == StartCue(player, present)
  {
    var path := StartAsset(player).value;
    effects := PlayCustomOrBeep(path, present, StartBeepPattern(player));
  }

  /** Each player's fallback pattern begins with its own frequency. */
  lemma FallbackPatternsDistinct(p: int, q: int)
    requires 1 <= p <= PLAYER_COUNT && 1 <= q <= PLAYER_COUNT && p != q
    ensures Tones(StartBeepPattern(p), BEEP_MS, BEEP_VOLUME) != Tones(StartBeepPattern(q), BEEP_MS, BEEP_VOLUME)
  {
    var a := Tones(StartBeepPattern(p), BEEP_MS, BEEP_VOLUME);
    var b := Tones(StartBeepPattern(q), BEEP_MS, BEEP_VOLUME);
    assert a[0].freqHz == StartBeepPattern(p)[0];
    assert b[0].freqHz == StartBeepPattern(q)[0];
  }

  /** With no WAV files, two players never hear the same start cue: already
      their first beeps differ. */
  lemma FallbackStartCuesDistinct(p: int, q: int)
    requires 1 <= p <= PLAYER_COUNT && 1 <= q <= PLAYER_COUNT && p != q
    ensures Audio(StartCue(p, {})) != Audio(StartCue(q, {}))
  {
    assert StartAsset(p).value !in {} && StartAsset(q).value !in {};
    FallbackPatternsDistinct(p, q);
  }

  /** `timeout_alarm()`: timeout.wav if present, otherwise five falling beeps. */
  function TimeoutCue(present: set<Asset>): (effects: seq<Effect>)
    ensures TimeoutClip in present ==> Audio(effects) == [PlayWav(TimeoutClip)]
    ensures TimeoutClip !in present ==> Audio(effects) == Tones(TIMEOUT_BEEP_PATTERN, BEEP_MS, BEEP_VOLUME)
  {
    CustomOrBeep(TimeoutClip, present, TIMEOUT_BEEP_PATTERN)
  }

  method TimeoutAlarm(present: set<Asset>) returns (effects: seq<Effect>)
    ensures effects == TimeoutCue(present)
  {
    effects := PlayCustomOrBeep(TimeoutClip, present, TIMEOUT_BEEP_PATTERN);
  }

  // ---- State machine, as functions of the globals ----

  /** What the script keeps true of its globals: the active player is one of
      the four, and a running state names the active player. */
  predicate Invariant(g: Globals) {
    && 1 <= g.activePlayer <= PLAYER_COUNT
    && (g.state.IsRunning() ==> g.state.RunningPlayer() == g.activePlayer)
  }

  /** `start_turn(player)`. */
  function StartTurnStep(player: int, now: int, present: set<Asset>): (o: Outcome)
    requires 1 <= player <= PLAYER_COUNT
    ensures Invariant(o.next) && o.next.state.IsRunning()
    ensures o.next.activePlayer == player
    ensures o.next.deadline == now + TURN_SECONDS * MS_PER_SECOND
    ensures Remaining(o.next.deadline, now) == TURN_SECONDS
    ensures o.effects == StartCue(player, present)
  {
    RemainingAtTurnStart(now);
    Outcome(Globals(StateForPlayer(player).value, player, now + TURN_SECONDS * MS_PER_SECOND),
            StartCue(player, present))
  }

  /** `next_player()`. */
  function NextPlayerStep(g: Globals, now: int, present: set<Asset>): (o: Outcome)
    ensures Invariant(o.next) && o.next.state.IsRunning()
    ensures o.next.activePlayer == NextInSequence(g.activePlayer)
    ensures o.next.deadline == now + TURN_SECONDS * MS_PER_SECOND
    ensures o.effects == StartCue(o.next.activePlayer, present)
  {
    StartTurnStep(NextInSequence(g.activePlayer), now, present)
  }

  /** The press branch of the main loop. Whatever the state, a press leaves a
      running turn with a fresh deadline: player 1 from IDLE, and otherwise
      the player after the active one. */
  function PressStep(g: Globals, now: int, present: set<Asset>): (o: Outcome)
    ensures Invariant(o.next) && o.next.state.IsRunning()
    ensures o.next.activePlayer == if g.state == Idle then 1 else NextInSequence(g.activePlayer)
    ensures o.next.deadline == now + TURN_SECONDS * MS_PER_SECOND
    ensures o.effects == StartCue(o.next.activePlayer, present)
  {
    if g.state == Idle || g.state == Timeout then
      StartTurnStep(if g.state == Idle then 1 else NextInSequence(g.activePlayer), now, present)
    else
      NextPlayerStep(g, now, present)
  }

  /** A running turn whose remaining time has reached zero. */
  predicate TimesOut(g: Globals, now: int) {
    g.state.IsRunning() && Remaining(g.deadline, now) <= 0
  }

  /** The tick branch of the main loop: show the tier of a running turn and
      time it out when nothing remains; otherwise turn the LED off in IDLE and
      sleep. Only the timeout changes a global, and only the state. */
  function TickStep(g: Globals, now: int, present: set<Asset>, caps: LedCaps): (o: Outcome)
    ensures TimesOut(g, now) ==>
      o.next == g.(state := Timeout)
      && o.effects == [SetLed(Blink), SetLed(TimeoutPattern(caps))] + TimeoutCue(present)
    ensures !TimesOut(g, now) ==> o.next == g && Quiet(o.effects)
    ensures g.state.IsRunning() ==>
      |o.effects| > 0 && o.effects[0] == SetLed(LedPatternForRemaining(Remaining(g.deadline, now), caps.beaconDark))
    ensures g.state.IsRunning() && !TimesOut(g, now) ==>
      o.effects == [SetLed(LedPatternForRemaining(Remaining(g.deadline, now), caps.beaconDark))]
    ensures g.state == Idle ==> o.effects == [SetLed(Off), Sleep(IDLE_SLEEP_MS)]
    ensures g.state == Timeout ==> o.effects == [Sleep(IDLE_SLEEP_MS)]
  {
    if g.state.IsRunning() then
      var r := Remaining(g.deadline, now);
      var shown := SetLed(LedPatternForRemaining(r, caps.beaconDark));
      if r <= 0 then
        assert shown == SetLed(Blink);
        Outcome(g.(state := Timeout), [shown, SetLed(TimeoutPattern(caps))] + TimeoutCue(present))
      else
        SilentIsQuiet([shown]);
        Outcome(g, [shown])
    else
      var effects := (if g.state == Idle then [SetLed(Off)] else []) + [Sleep(IDLE_SLEEP_MS)];
      SilentIsQuiet(effects);
      Outcome(g, effects)
  }

  /** The press half of one pass of the loop. */
  function PressPhase(g: Globals, input: Input): (o: Outcome)
    ensures !input.pressed ==> o.next == g && o.effects == []
    ensures input.pressed ==>
      o.next.state.IsRunning() && o.next.deadline == input.pressNow + TURN_SECONDS * MS_PER_SECOND
    ensures input.pressed ==> o.next.activePlayer == if g.state == Idle then 1 else NextInSequence(g.activePlayer)
  {
    if input.pressed then PressStep(g, input.pressNow, input.present) else Outcome(g, [])
  }

  /** The alarm sounds in this pass of the loop. */
  predicate Fires(g: Globals, input: Input) {
    TimesOut(PressPhase(g, input).next, input.tickNow)
  }

  /** One pass of `while True`: the press branch, then the tick branch. */
  function LoopStep(g: Globals, input: Input, caps: LedCaps): (o: Outcome)
    ensures Invariant(g) ==> Invariant(o.next)
    ensures input.pressed ==> o.next.state != Idle
    ensures Fires(g, input) ==>
      o.next.state == Timeout
      && o.next.activePlayer == PressPhase(g, input).next.activePlayer
      && o.effects == PressPhase(g, input).effects
                      + ([SetLed(Blink), SetLed(TimeoutPattern(caps))] + TimeoutCue(input.present))
    ensures !Fires(g, input) ==>
      o.next == PressPhase(g, input).next && Audio(o.effects) == Audio(PressPhase(g, input).effects)
    ensures !input.pressed && !Fires(g, input) ==> o.next == g && Quiet(o.effects)
    ensures |o.effects| > |PressPhase(g, input).effects|
  {
    var pressed := PressPhase(g, input);
    var ticked := TickStep(pressed.next, input.tickNow, input.present, caps);
    AudioConcat(pressed.effects, ticked.effects);
    Outcome(ticked.next, pressed.effects + ticked.effects)
  }

  /** The loop run over a sequence of passes, effects in order. Every pass
      writes the LED or sleeps, so the loop never spins without an effect. */
  function LoopRun(g: Globals, inputs: seq<Input>, caps: LedCaps): (o: Outcome)
    ensures |o.effects| >= |inputs|
    ensures inputs == [] ==> o == Outcome(g, [])
  {
    if inputs == [] then Outcome(g, [])
    else
      var before := LoopRun(g, inputs[..|inputs| - 1], caps);
      var last := LoopStep(before.next, inputs[|inputs| - 1], caps);
      Outcome(last.next, before.effects + last.effects)
  }

  /** How many passes of a run sound the alarm. */
  function AlarmCount(g: Globals, inputs: seq<Input>, caps: LedCaps): nat {
    if inputs == [] then 0
    else
      var prefix := inputs[..|inputs| - 1];
      AlarmCount(g, prefix, caps) + (if Fires(LoopRun(g, prefix, caps).next, inputs[|inputs| - 1]) then 1 else 0)
  }

  // ---- Properties of runs ----

  /** LoopRun is the generic run of LoopStep. */
  lemma {:induction false} LoopRunIsRun(g: Globals, inputs: seq<Input>, caps: LedCaps)
    ensures LoopRun(g, inputs, caps) == Run((h, i) => LoopStep(h, i, caps), g, inputs)
  {
    if inputs != [] {
      LoopRunIsRun(g, inputs[..|inputs| - 1], caps);
    }
  }

  /** A run splits at any pass: the second part starts from where the first
      ended, and the effects are those of the parts in order. */
  lemma LoopRunSplit(g: Globals, a: seq<Input>, b: seq<Input>, caps: LedCaps)
    ensures LoopRun(g, a + b, caps).next == LoopRun(LoopRun(g, a, caps).next, b, caps).next
    ensures LoopRun(g, a + b, caps).effects
         == LoopRun(g, a, caps).effects + LoopRun(LoopRun(g, a, caps).next, b, caps).effects
  {
    LoopRunIsRun(g, a + b, caps);
    LoopRunIsRun(g, a, caps);
    LoopRunIsRun(LoopRun(g, a, caps).next, b, caps);
    RunSplit((h, i) => LoopStep(h, i, caps), g, a, b);
  }

  /** The alarms of a run are those of its two parts. */
  lemma {:induction false} AlarmCountSplit(g: Globals, a: seq<Input>, b: seq<Input>, caps: LedCaps)
    ensures AlarmCount(g, a + b, caps) == AlarmCount(g, a, caps) + AlarmCount(LoopRun(g, a, caps).next, b, caps)
  {
    if b == [] {
      assert a + b == a;
    } else {
      var front := b[..|b| - 1];
      assert (a + b)[..|a + b| - 1] == a + front;
      assert (a + b)[|a + b| - 1] == b[|b| - 1];
      AlarmCountSplit(g, a, front, caps);
      LoopRunSplit(g, a, front, caps);
    }
  }

  /** Every pass keeps the invariant, so it holds for any run from the start. */
  lemma {:induction false} RunKeepsInvariant(g: Globals, inputs: seq<Input>, caps: LedCaps)
    requires Invariant(g)
    ensures Invariant(LoopRun(g, inputs, caps).next)
  {
    if inputs != [] {
      RunKeepsInvariant(g, inputs[..|inputs| - 1], caps);
    }
  }

  /** Without presses the alarm sounds at most once. Until it does, nothing
      changes and nothing is heard; afterwards the state is TIMEOUT with the
      same player and deadline. */
  lemma {:induction false} AlarmAtMostOnceWithoutPress(g: Globals, inputs: seq<Input>, caps: LedCaps)
    requires NoPress(inputs)
    ensures AlarmCount(g, inputs, caps) <= 1
    ensures AlarmCount(g, inputs, caps) == 0 ==>
      LoopRun(g, inputs, caps).next == g && Quiet(LoopRun(g, inputs, caps).effects)
    ensures AlarmCount(g, inputs, caps) == 1 ==> LoopRun(g, inputs, caps).next == g.(state := Timeout)
  {
    if inputs != [] {
      var prefix := inputs[..|inputs| - 1];
      var last := inputs[|inputs| - 1];
      assert NoPress(prefix);
      AlarmAtMostOnceWithoutPress(g, prefix, caps);
      var before := LoopRun(g, prefix, caps);
      var step := LoopStep(before.next, last, caps);
      AudioConcat(before.effects, step.effects);
      assert !last.pressed;
    }
  }

  /** A running turn with no presses sounds the alarm exactly once as soon as
      some pass sees no time remaining. */
  lemma {:induction false} AlarmFiresOnceAtDeadline(g: Globals, inputs: seq<Input>, caps: LedCaps, j: nat)
    requires NoPress(inputs) && g.state.IsRunning()
    requires j < |inputs| && Remaining(g.deadline, inputs[j].tickNow) == 0
    ensures AlarmCount(g, inputs, caps) == 1
  {
    var prefix := inputs[..|inputs| - 1];
    var last := inputs[|inputs| - 1];
    assert NoPress(prefix);
    AlarmAtMostOnceWithoutPress(g, inputs, caps);
    AlarmAtMostOnceWithoutPress(g, prefix, caps);
    if j < |inputs| - 1 {
      AlarmFiresOnceAtDeadline(g, prefix, caps, j);
    } else {
      assert last == inputs[j];
    }
  }

  /** In TIMEOUT the loop only sleeps until the next press. */
  lemma {:induction false} TimeoutWaitsForPress(g: Globals, inputs: seq<Input>, caps: LedCaps)
    requires NoPress(inputs) && g.state == Timeout
    ensures LoopRun(g, inputs, caps).next == g
    ensures LoopRun(g, inputs, caps).effects == seq(|inputs|, _ => Sleep(IDLE_SLEEP_MS))
  {
    if inputs != [] {
      var prefix := inputs[..|inputs| - 1];
      assert NoPress(prefix);
      TimeoutWaitsForPress(g, prefix, caps);
      assert !inputs[|inputs| - 1].pressed;
    }
  }

  // ---- The script's globals and the code that updates them ----

  class Timer {
    var state: TimerState
    var activePlayer: int
    var deadline: int

    function Snapshot(): Globals
      reads this
    {
      Globals(state, activePlayer, deadline)
    }

    ghost predicate Valid()
      reads this
    {
      Invariant(Snapshot())
    }

    /** The globals as the script initialises them. */
    constructor ()
      ensures Snapshot() == INITIAL && Valid()
    {
      state, activePlayer, deadline := Idle, 1, 0;
    }

    /** `start_turn(player)`, with `time.monotonic()` read as `now`. */
    method StartTurn(player: int, now: int, present: set<Asset>) returns (effects: seq<Effect>)
      requires 1 <= player <= PLAYER_COUNT
      modifies this
      ensures Outcome(Snapshot(), effects) == StartTurnStep(player, now, present)
      ensures Valid()
    {
      activePlayer := player;
      deadline := now + TURN_SECONDS * MS_PER_SECOND;
      state := StateForPlayer(player).value;
      effects := StartSound(player, present);
    }

    /** `next_player()`. */
    method NextPlayer(now: int, present: set<Asset>) returns (effects: seq<Effect>)
      modifies this
      ensures Outcome(Snapshot(), effects) == NextPlayerStep(old(Snapshot()), now, present)
      ensures Valid()
    {
      effects := StartTurn(NextInSequence(activePlayer), now, present);
    }

    /** One pass of the body of `while True`. */
    method Iterate(input: Input, caps: LedCaps) returns (effects: seq<Effect>)
      modifies this
      ensures Outcome(Snapshot(), effects) == LoopStep(old(Snapshot()), input, caps)
      ensures old(Valid()) ==> Valid()
    {
      effects := [];
      if input.pressed {
        if state == Idle || state == Timeout {
          var playerToStart := if state == Idle then 1 else NextInSequence(activePlayer);
          effects := StartTurn(playerToStart, input.pressNow, input.present);
        } else {
          effects := NextPlayer(input.pressNow, input.present);
        }
      }
      ghost var afterPress := Snapshot();
      assert Outcome(afterPress, effects) == PressPhase(old(Snapshot()), input);
      var tick: seq<Effect>;
      if state.IsRunning() {
        var r := Remaining(deadline, input.tickNow);
        var shown := SetLed(LedPatternForRemaining(r, caps.beaconDark));
        tick := [shown];
        if r <= 0 {
          state := Timeout;
          tick := [shown, SetLed(TimeoutPattern(caps))];
          var alarm := TimeoutAlarm(input.present);
          tick := tick + alarm;
        }
      } else {
        tick := [];
        if state == Idle {
          tick := tick + [SetLed(Off)];
        }
        tick := tick + [Sleep(IDLE_SLEEP_MS)];
      }
      assert Outcome(Snapshot(), tick) == TickStep(afterPress, input.tickNow, input.present, caps);
      effects := effects + tick;
    }

    /** The main loop over a finite sequence of passes. */
    method RunLoop(inputs: seq<Input>, caps: LedCaps) returns (effects: seq<Effect>)
      modifies this
      ensures Outcome(Snapshot(), effects) == LoopRun(old(Snapshot()), inputs, caps)
    {
      effects := [];
      for i := 0 to |inputs|
        invariant Outcome(Snapshot(), effects) == LoopRun(old(Snapshot()), inputs[..i], caps)
      {
        var step := Iterate(inputs[i], caps);
        assert inputs[..i + 1][..i] == inputs[..i];
        effects := effects + step;
      }
      assert inputs[..|inputs|] == inputs;
    }
  }
}
