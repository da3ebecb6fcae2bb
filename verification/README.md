# AIY turn timer — a Dafny model

The three turn-timer scripts of this repository run on a Google AIY Voice Kit.
The kit's big button starts a turn of `TURN_SECONDS` (10) seconds. Each later
press hands the turn to the next player. While a turn runs, the button's LED
shows how much time is left: `BEACON` while more than `WARN_YELLOW` (4) seconds
remain, `BEACON_DARK` in the warning band, and `BLINK` at `WARN_RED` (2) seconds
or less. When the time runs out the state becomes `TIMEOUT`, the LED is set to
`BLINK_3` and an alarm plays. The next press starts the following player's turn.

- `timer-aiy-custom-audio-4player.py` rotates four players. Each player has a
  start WAV file and a fallback beep pattern.
- `timer-aiy-custom-audio-2player.py` alternates two players. It has a start
  WAV for player 1, one for "anyone else" and a timeout WAV, each with a
  fallback beep list.
- `timer-aiy.py` alternates two players with synthesized beeps only.

The model is built from these parts:

- **`Shared`** (`shared.dfy`) holds the vocabulary of all three scripts:
  - the constants;
  - the `state` string as `TimerState`;
  - the three globals as `Globals`;
  - the observable effects of a step as `Effect` (an LED write, a WAV played, a
    synthesized tone, a sleep);
  - one pass of the main loop's inputs as `Input`: whether the button was
    pressed, the clock reading at the press, the clock reading at the tick, and
    which WAV files exist.
- **`Clock`** models `remaining()`. Python's `round` of a difference of
  `time.monotonic()` readings is written over integer milliseconds,
  ties-to-even included.
- **`LedPolicy`** models `led_pattern_for_remaining` and the `BLINK_3` / `BLINK`
  choice at timeout. Both depend on `LedCaps`, which says whether the installed
  library has `Led.BEACON_DARK` and `Led.BLINK_3`. This replaces the
  `AttributeError` the scripts catch.
- **`AudioCues`** models `play_custom_or_beep` and the beep loops.
- **`ToneBuffer`** models the sample payload of `make_tone_wav_bytes`:
  - the frame count;
  - the amplitude;
  - 16-bit little-endian packing;
  - two identical channels per frame.
- **`FourPlayerTimer`, `TwoPlayerTimer`, `BasicTimer`** model each script's
  state machine twice:
  - as pure step functions over `Globals` (`PressStep`, `TickStep`,
    `LoopStep`, `LoopRun`);
  - as a `Timer` class whose fields are the script's globals and whose methods
    (`StartTurn`, `NextPlayer`, `Iterate`, `RunLoop`) update them in place.

  Each method's postcondition ties its new state and effect trace to the step
  function. The properties of whole runs are lemmas over the functions.
- **`Runs`** folds any pass function over a sequence of inputs and splits such
  runs. Each script's `LoopRun` is shown to be such a fold.
- **`VariantDrift`** relates the cues of the three copies.

## Model

| member | source | states |
|---|---|---|
| Clock.RoundToSeconds | timer-aiy-custom-audio-4player.py:131-132 | The rounded second count lies within half a second of the millisecond difference. A tie goes to the even neighbour, as Python's `round` does. |
| Clock.RoundToSecondsUnique | timer-aiy-custom-audio-4player.py:131-132 | Those two properties determine the rounded value uniquely. |
| Clock.RoundToSecondsMonotone | timer-aiy-custom-audio-4player.py:131-132 | Rounding preserves order. |
| Clock.Remaining | timer-aiy-custom-audio-4player.py:131-132 | `remaining()` is never negative. It is zero exactly when at most 500 ms are left, and otherwise within half a second of the time left. |
| Clock.RemainingNonIncreasing | timer-aiy-custom-audio-4player.py:131-132 | As the clock advances, the remaining seconds never increase. |
| Clock.RemainingAtTurnStart | timer-aiy-custom-audio-4player.py:121-126 | Right after `start_turn`, `remaining()` is `TURN_SECONDS`. |
| LedPolicy.LedPatternForRemaining | timer-aiy-custom-audio-4player.py:82-95 | BEACON above WARN_YELLOW and BLINK at or below WARN_RED. In between, BEACON_DARK, or ON when the library lacks it. |
| LedPolicy.FallbackPattern | timer-aiy-custom-audio-4player.py:94-95 | The `except` expression is ON exactly above WARN_RED and BLINK exactly at or below it. |
| LedPolicy.SeverityNonDecreasing | timer-aiy-custom-audio-4player.py:82-95 | Fewer remaining seconds never show a less urgent pattern, with or without BEACON_DARK. |
| LedPolicy.FallbackOnlyBelowYellow | timer-aiy-custom-audio-4player.py:92-95 | Without BEACON_DARK, the `except` expression is the result exactly in the bands at or below WARN_YELLOW. BEACON is still shown above. |
| LedPolicy.LedEscalatesOverTime | timer-aiy-custom-audio-4player.py:159-161 | Within a turn, the LED pattern written on each pass only escalates as time passes. |
| LedPolicy.TimeoutPattern | timer-aiy-custom-audio-4player.py:163-167 | At timeout the LED is BLINK_3 exactly when the library has it, and BLINK otherwise. Both are of the most urgent kind. |
| AudioCues.Audio | timer-aiy-custom-audio-4player.py:72-79 | The audible part of a trace is no longer than the trace, and holds only WAV playbacks and tones taken from the trace. |
| AudioCues.AudioKeepsAudible | timer-aiy-custom-audio-4player.py:72-79 | Every WAV playback and tone of a trace appears in its audible part. |
| AudioCues.AudioSingle | timer-aiy-custom-audio-4player.py:72-79 | One effect is heard as itself when it is a WAV playback or a tone, and not at all otherwise. With `AudioConcat` this fixes the audible part as the trace's audible effects in trace order. |
| AudioCues.AudioOfAudible | timer-aiy-custom-audio-4player.py:76-79 | A trace of WAV playbacks and tones only is heard exactly as it is. |
| AudioCues.SilentIsQuiet | timer-aiy-custom-audio-4player.py:159-172 | A trace of LED writes and sleeps plays nothing. |
| AudioCues.AudioConcat | timer-aiy-custom-audio-4player.py:149-172 | The sound of two consecutive traces is the sound of the first followed by that of the second. |
| AudioCues.Tones | timer-aiy-custom-audio-4player.py:76-79 | A list of fallback frequencies yields one tone per frequency. |
| AudioCues.Beeps | timer-aiy-custom-audio-4player.py:77-79 | A beep loop takes two effects per frequency, and its pauses are exactly the effects at odd positions, one after each tone. |
| AudioCues.BeepsPlayTones | timer-aiy-custom-audio-4player.py:76-79 | The beep loop plays exactly the listed frequencies, in order, and no WAV file, in twice as many effects as there are frequencies. |
| AudioCues.BeepsCons | timer-aiy-custom-audio-4player.py:76-79 | A run of beeps is the first tone and its pause, followed by the run of the remaining frequencies. |
| AudioCues.BeepsAppend | timer-aiy-custom-audio-4player.py:76-79 | One more loop iteration appends one tone and one pause. |
| AudioCues.TonesCons | timer-aiy-custom-audio-4player.py:76-79 | The tones of a frequency list are the first tone followed by the tones of the rest. |
| AudioCues.CustomOrBeep | timer-aiy-custom-audio-4player.py:72-79 | An existing WAV is played alone and is the whole trace. Otherwise each fallback frequency is beeped for 120 ms at volume 0.7, in order. Neither branch writes the LED. |
| AudioCues.PlayCustomOrBeep | timer-aiy-custom-audio-4player.py:72-79 | The loop's effect trace is `CustomOrBeep` of the same path, file set and frequencies. |
| ToneBuffer.Truncate | timer-aiy-custom-audio-4player.py:40 | `int()` truncates toward zero. |
| ToneBuffer.FrameCount | timer-aiy-custom-audio-4player.py:40 | `n` is the product of sample rate and duration divided by 1000, truncated toward zero. |
| ToneBuffer.Clamp01 | timer-aiy-custom-audio-4player.py:42 | The volume is clamped into [0, 1] and left unchanged inside it. |
| ToneBuffer.Amplitude | timer-aiy-custom-audio-4player.py:42 | `amp` lies in [0, 32767]. It is 0 at or below volume 0 and 32767 at or above volume 1, and in between it is `32767*volume` truncated. |
| ToneBuffer.Sample | timer-aiy-custom-audio-4player.py:44 | Each sample lies within plus or minus `amp`, so it fits a signed 16-bit value. |
| ToneBuffer.Pack16 | timer-aiy-custom-audio-4player.py:45 | `struct.pack('<h', s)` yields two bytes. |
| ToneBuffer.Unpack16 | timer-aiy-custom-audio-4player.py:45 | Reading two bytes back gives a signed 16-bit value. |
| ToneBuffer.Pack16RoundTrip | timer-aiy-custom-audio-4player.py:45 | Unpacking a packed sample gives back the sample. |
| ToneBuffer.Unpack16RoundTrip | timer-aiy-custom-audio-4player.py:45 | Packing an unpacked byte pair gives back the pair. |
| ToneBuffer.StereoFrame | timer-aiy-custom-audio-4player.py:45 | A frame is four bytes whose left and right halves are the same packed sample. |
| ToneBuffer.Payload | timer-aiy-custom-audio-4player.py:43-45 | `n` frames take `4*n` bytes. |
| ToneBuffer.PayloadFrameBytes | timer-aiy-custom-audio-4player.py:43-45 | The four bytes of frame `k` are the stereo frame of sample `k`. |
| ToneBuffer.PayloadFrame | timer-aiy-custom-audio-4player.py:43-45 | Frame `k` of the payload is the stereo frame of sample `k`. Its two channels are equal, and it decodes to a value within plus or minus `amp`. |
| ToneBuffer.MakeToneFrames | timer-aiy-custom-audio-4player.py:38-45 | The frame loop builds exactly the payload of `max(0, n)` frames at the clamped amplitude. |
| FourPlayerTimer.NextInSequence | timer-aiy-custom-audio-4player.py:98-99 | The next player is in 1..4, one place further modulo 4. Players 1 to 3 advance by one, and 4 wraps to 1. |
| FourPlayerTimer.RotateCycles | timer-aiy-custom-audio-4player.py:98-99 | `k` rotations from player `p` reach `(p-1+k) mod 4 + 1`. |
| FourPlayerTimer.EveryPlayerGetsATurn | timer-aiy-custom-audio-4player.py:98-99 | Every player is reached from every player within four rotations. |
| FourPlayerTimer.FullRoundReturns | timer-aiy-custom-audio-4player.py:98-99 | Four rotations return to the player who started the round. |
| FourPlayerTimer.StartBeepPattern | timer-aiy-custom-audio-4player.py:29-34 | Every fallback pattern has two to four beeps between 700 and 1200 Hz. A player outside 1..4 gets the `[1000, 1000]` default of `.get` (line 116). |
| FourPlayerTimer.StateForPlayer | timer-aiy-custom-audio-4player.py:106-107 | The dict gives a running state exactly for players 1..4, and that state names the player. |
| FourPlayerTimer.StartAsset | timer-aiy-custom-audio-4player.py:110-115 | The path dict has an entry exactly for players 1..4. |
| FourPlayerTimer.StartAssetsDistinct | timer-aiy-custom-audio-4player.py:110-115 | Different players have different start WAV files. |
| FourPlayerTimer.StartCue | timer-aiy-custom-audio-4player.py:109-116 | The player's own WAV plays if it exists. Otherwise the player's row of START_BEEP_PATTERNS is beeped. |
| FourPlayerTimer.StartSound | timer-aiy-custom-audio-4player.py:109-116 | The effect trace is `StartCue(player, present)`. |
| FourPlayerTimer.FallbackPatternsDistinct | timer-aiy-custom-audio-4player.py:29-34 | No two players share a fallback beep pattern. |
| FourPlayerTimer.FallbackStartCuesDistinct | timer-aiy-custom-audio-4player.py:109-116 | With no WAV files present, two different players never hear the same start cue. |
| FourPlayerTimer.TimeoutCue | timer-aiy-custom-audio-4player.py:118-119 | timeout.wav plays if it exists. Otherwise TIMEOUT_BEEP_PATTERN is beeped. |
| FourPlayerTimer.TimeoutAlarm | timer-aiy-custom-audio-4player.py:118-119 | The effect trace is `TimeoutCue(present)`. |
| FourPlayerTimer.StartTurnStep | timer-aiy-custom-audio-4player.py:121-126 | A turn starts: a running state naming the player, a deadline ten seconds after `now`, and `remaining()` equal to 10. It plays the player's start cue and keeps the invariant. |
| FourPlayerTimer.NextPlayerStep | timer-aiy-custom-audio-4player.py:128-129 | The turn passes to the next player in sequence, running, with a fresh ten-second deadline and that player's start cue, and the invariant holds. |
| FourPlayerTimer.PressStep | timer-aiy-custom-audio-4player.py:151-157 | Any press leaves a running turn with a fresh deadline. From IDLE it is player 1; from TIMEOUT or a running turn it is the next player in sequence. |
| FourPlayerTimer.TickStep | timer-aiy-custom-audio-4player.py:159-172 | A running turn with nothing left becomes TIMEOUT with the rest unchanged, writes BLINK and then the timeout pattern, and sounds the alarm. Otherwise nothing changes and nothing is heard. A running turn first writes the tier pattern, and with time left that write is the whole pass; IDLE writes OFF and sleeps; TIMEOUT only sleeps. |
| FourPlayerTimer.PressPhase | timer-aiy-custom-audio-4player.py:150-157 | Without a press nothing changes and nothing happens. With one, a turn runs with a deadline ten seconds after the press, for player 1 from IDLE and for the next player otherwise. |
| FourPlayerTimer.LoopStep | timer-aiy-custom-audio-4player.py:149-172 | One pass keeps the invariant, and a press never leaves IDLE. The tick half always adds an effect. When the alarm fires, the pass ends in TIMEOUT with the pressed player, and the press effects are followed by the alarm. Otherwise the sound is that of the press alone. With neither press nor alarm, nothing changes and nothing is heard. |
| FourPlayerTimer.LoopRun | timer-aiy-custom-audio-4player.py:149-172 | A run has at least one effect per pass, since every pass writes the LED or sleeps. An empty run changes nothing. |
| FourPlayerTimer.RunKeepsInvariant | timer-aiy-custom-audio-4player.py:149-172 | Any run of the loop from a valid state keeps the invariant. |
| FourPlayerTimer.LoopRunIsRun | timer-aiy-custom-audio-4player.py:149-172 | The loop run is the generic run of one pass. |
| FourPlayerTimer.LoopRunSplit | timer-aiy-custom-audio-4player.py:149-172 | A run splits at any pass: the second part continues from where the first ended, and the effects are those of the two parts in order. |
| FourPlayerTimer.AlarmCountSplit | timer-aiy-custom-audio-4player.py:159-168 | The alarms of a run are those of its two parts. |
| FourPlayerTimer.AlarmAtMostOnceWithoutPress | timer-aiy-custom-audio-4player.py:159-172 | Without presses the alarm sounds at most once. Before it, nothing changes and nothing is heard; after it, the state is TIMEOUT with the same player and deadline. |
| FourPlayerTimer.AlarmFiresOnceAtDeadline | timer-aiy-custom-audio-4player.py:159-168 | A running turn left without presses sounds the alarm exactly once, as soon as one pass sees zero seconds remaining. |
| FourPlayerTimer.TimeoutWaitsForPress | timer-aiy-custom-audio-4player.py:168-172 | In TIMEOUT without presses the loop changes nothing and only sleeps 20 ms per pass. |
| FourPlayerTimer.Timer.constructor | timer-aiy-custom-audio-4player.py:102-104 | The globals start as IDLE, player 1, deadline 0, and satisfy the invariant. |
| FourPlayerTimer.Timer.StartTurn | timer-aiy-custom-audio-4player.py:121-126 | The new globals and effects are those of `StartTurnStep`, and the invariant holds. |
| FourPlayerTimer.Timer.NextPlayer | timer-aiy-custom-audio-4player.py:128-129 | The method starts the turn of the player after the active one, and the invariant holds. |
| FourPlayerTimer.Timer.Iterate | timer-aiy-custom-audio-4player.py:150-172 | One pass updates the globals and emits the effects of `LoopStep`, and it preserves the invariant. |
| FourPlayerTimer.Timer.RunLoop | timer-aiy-custom-audio-4player.py:149-172 | A sequence of passes ends in the state and trace of `LoopRun`. |
| TwoPlayerTimer.OtherPlayer | timer-aiy-custom-audio-2player.py:104-105 | The toggle always gives 1 or 2, and it gives 2 exactly when the active player is 1. |
| TwoPlayerTimer.OtherPlayerRotatesTwo | timer-aiy-custom-audio-2player.py:104-105 | On players 1 and 2 the toggle is the cyclic rotation over two players, and toggling twice is the identity. |
| TwoPlayerTimer.StartCue | timer-aiy-custom-audio-2player.py:69-74 | Player 1 hears start_p1.wav or [1200, 1200]. Any other player hears start_p2.wav or [900, 900, 900]. |
| TwoPlayerTimer.StartSound | timer-aiy-custom-audio-2player.py:69-74 | The effect trace is `StartCue(player, present)`. |
| TwoPlayerTimer.TimeoutCue | timer-aiy-custom-audio-2player.py:76-78 | timeout.wav plays if it exists. Otherwise five falling beeps play. |
| TwoPlayerTimer.TimeoutAlarm | timer-aiy-custom-audio-2player.py:76-78 | The effect trace is `TimeoutCue(present)`. |
| TwoPlayerTimer.StartTurnStep | timer-aiy-custom-audio-2player.py:97-102 | The state is P1_RUNNING for player 1 and P2_RUNNING otherwise. It sets a ten-second deadline and plays the start cue, and keeps the invariant for players 1 and 2. |
| TwoPlayerTimer.NextPlayerStep | timer-aiy-custom-audio-2player.py:104-105 | The turn passes to the other player, running, with a fresh ten-second deadline and that player's start cue, and the invariant holds. |
| TwoPlayerTimer.PressStep | timer-aiy-custom-audio-2player.py:127-131 | A press leaves a running turn of player 1 from IDLE, or of the other player otherwise, with a fresh deadline. |
| TwoPlayerTimer.TickStep | timer-aiy-custom-audio-2player.py:133-146 | Same as the four-player tick, over the two running states: with time left the tier write is the whole pass. |
| TwoPlayerTimer.PressPhase | timer-aiy-custom-audio-2player.py:126-131 | Without a press nothing changes and nothing happens. With one, a turn runs with a fresh deadline, for player 1 from IDLE and for the other player otherwise. |
| TwoPlayerTimer.LoopStep | timer-aiy-custom-audio-2player.py:125-146 | Same as the four-player pass, over the two-player invariant. |
| TwoPlayerTimer.LoopRun | timer-aiy-custom-audio-2player.py:125-146 | A run has at least one effect per pass. An empty run changes nothing. |
| TwoPlayerTimer.RunKeepsInvariant | timer-aiy-custom-audio-2player.py:125-146 | Any run keeps the two-player invariant. |
| TwoPlayerTimer.LoopRunIsRun | timer-aiy-custom-audio-2player.py:125-146 | The loop run is the generic run of one pass. |
| TwoPlayerTimer.LoopRunSplit | timer-aiy-custom-audio-2player.py:125-146 | A run splits at any pass, with the effects of the two parts in order. |
| TwoPlayerTimer.AlarmCountSplit | timer-aiy-custom-audio-2player.py:133-142 | The alarms of a run are those of its two parts. |
| TwoPlayerTimer.AlarmAtMostOnceWithoutPress | timer-aiy-custom-audio-2player.py:133-146 | Without presses the alarm sounds at most once. Before it, nothing changes and nothing is heard. |
| TwoPlayerTimer.AlarmFiresOnceAtDeadline | timer-aiy-custom-audio-2player.py:133-142 | A running turn without presses sounds the alarm exactly once once zero seconds remain. |
| TwoPlayerTimer.TimeoutWaitsForPress | timer-aiy-custom-audio-2player.py:143-146 | In TIMEOUT without presses the loop only sleeps. |
| TwoPlayerTimer.Timer.constructor | timer-aiy-custom-audio-2player.py:93-95 | The globals start as IDLE, player 1, deadline 0. |
| TwoPlayerTimer.Timer.StartTurn | timer-aiy-custom-audio-2player.py:97-102 | The new globals and effects are those of `StartTurnStep`, and the invariant holds for players 1 and 2. |
| TwoPlayerTimer.Timer.NextPlayer | timer-aiy-custom-audio-2player.py:104-105 | The method starts the other player's turn, and the invariant holds. |
| TwoPlayerTimer.Timer.Iterate | timer-aiy-custom-audio-2player.py:126-146 | One pass updates the globals and emits the effects of `LoopStep`, and it preserves the invariant. |
| TwoPlayerTimer.Timer.RunLoop | timer-aiy-custom-audio-2player.py:125-146 | A sequence of passes ends in the state and trace of `LoopRun`. |
| BasicTimer.OtherPlayer | timer-aiy.py:90-91 | The toggle always gives 1 or 2, and it gives 2 exactly when the active player is 1. |
| BasicTimer.StartTone | timer-aiy.py:50 | The start tone is 1200 Hz exactly for player 1, and 900 Hz otherwise. |
| BasicTimer.StartCount | timer-aiy.py:51 | The start beep repeats twice exactly for player 1, and three times otherwise. |
| BasicTimer.StartCue | timer-aiy.py:49-54 | Player 1 hears two 1200 Hz beeps and anyone else three 900 Hz beeps, each 80 ms at volume 0.6. |
| BasicTimer.StartSound | timer-aiy.py:49-54 | The counted loop's trace is `StartCue(player)`. |
| BasicTimer.TimeoutCue | timer-aiy.py:56-59 | The alarm is the five tones 1200..400 Hz, each 120 ms at volume 0.7. |
| BasicTimer.TimeoutTonesDescend | timer-aiy.py:56-59 | The five alarm tones fall strictly. |
| BasicTimer.TimeoutAlarm | timer-aiy.py:56-59 | The loop over the tuple produces `TimeoutCue()`. |
| BasicTimer.StartTurnStep | timer-aiy.py:83-88 | The state is P1_RUNNING for player 1 and P2_RUNNING otherwise. It sets a ten-second deadline and plays the start cue. |
| BasicTimer.NextPlayerStep | timer-aiy.py:90-91 | The turn passes to the other player, running, with a fresh ten-second deadline and that player's start cue, and the invariant holds. |
| BasicTimer.PressStep | timer-aiy.py:110-114 | A press leaves a running turn of player 1 from IDLE, or of the other player otherwise. |
| BasicTimer.TickStep | timer-aiy.py:116-129 | A running turn with nothing left becomes TIMEOUT and sounds the alarm. Otherwise nothing changes and nothing is heard, and with time left the tier write is the whole pass. |
| BasicTimer.PressPhase | timer-aiy.py:109-114 | Without a press nothing changes and nothing happens. With one, a turn runs with a fresh deadline, for player 1 from IDLE and for the other player otherwise. |
| BasicTimer.LoopStep | timer-aiy.py:108-129 | One pass keeps the invariant and relates its sound to the press and the alarm. |
| BasicTimer.LoopRun | timer-aiy.py:108-129 | A run has at least one effect per pass. An empty run changes nothing. |
| BasicTimer.RunKeepsInvariant | timer-aiy.py:108-129 | Any run keeps the two-player invariant. |
| BasicTimer.LoopRunIsRun | timer-aiy.py:108-129 | The loop run is the generic run of one pass. |
| BasicTimer.LoopRunSplit | timer-aiy.py:108-129 | A run splits at any pass, with the effects of the two parts in order. |
| BasicTimer.AlarmCountSplit | timer-aiy.py:116-125 | The alarms of a run are those of its two parts. |
| BasicTimer.AlarmAtMostOnceWithoutPress | timer-aiy.py:116-129 | Without presses the alarm sounds at most once. |
| BasicTimer.AlarmFiresOnceAtDeadline | timer-aiy.py:116-125 | A running turn without presses sounds the alarm exactly once once zero seconds remain. |
| BasicTimer.TimeoutWaitsForPress | timer-aiy.py:126-129 | In TIMEOUT without presses the loop only sleeps. |
| BasicTimer.Timer.constructor | timer-aiy.py:79-81 | The globals start as IDLE, player 1, deadline 0. |
| BasicTimer.Timer.StartTurn | timer-aiy.py:83-88 | The new globals and effects are those of `StartTurnStep`. |
| BasicTimer.Timer.NextPlayer | timer-aiy.py:90-91 | The method starts the other player's turn. |
| BasicTimer.Timer.Iterate | timer-aiy.py:109-129 | One pass updates the globals and emits the effects of `LoopStep`, and it preserves the invariant. |
| BasicTimer.Timer.RunLoop | timer-aiy.py:108-129 | A sequence of passes ends in the state and trace of `LoopRun`. |
| VariantDrift.TimeoutFallbackShared | timer-aiy.py:56-59 | Without timeout.wav, all three scripts play the same five-tone alarm. |
| VariantDrift.PlayerTwoFallbackDiffers | timer-aiy-custom-audio-2player.py:69-74 | Player 2's fallback start cue differs between the four-player script (1000 Hz) and the two-player script (900 Hz). |
| VariantDrift.BasicStartCueShorter | timer-aiy.py:49-54 | timer-aiy.py beeps the same frequencies as the two-player fallback, but for 80 ms instead of 120 ms. |
| Runs.RunSplit | timer-aiy-custom-audio-4player.py:149-172 | Any run of passes splits at any point: the second part continues from where the first ended, and the effects are those of the two parts in order. |

## Code and design notes

- The tone synthesis does not reject a non-positive duration. The frame count
  is then zero or negative, the frame loop writes no frames, and the model
  follows the code here (`ToneBuffer.MakeToneFrames`). A non-positive sample
  rate is rejected, but only later, by the WAV header writer, which is outside
  the model.
- `led_pattern_for_remaining` only evaluates `Led.BEACON_DARK` in the warning
  band. So the `except` branch, and with it the steady `ON`, can only occur
  there. Above WARN_YELLOW, BEACON is shown whether or not BEACON_DARK exists.
- Because `remaining()` rounds to the nearest second, a turn times out when at
  most half a second is left, not at the deadline itself.

## Left out

- Hardware and the AIY library:
  - `Board`, the button's `wait_for_press`, `Led` and `aiy.voice.audio.play_wav` are not modelled as code.
  - A press is the `pressed` flag of an `Input`, and an LED write or a playback is an `Effect` in the trace.
  - The `Led` constants BEACON, BLINK, ON and OFF are assumed to exist. Only BEACON_DARK and BLINK_3 are treated as optional.
  - Exceptions raised by playback are not modelled.
- The clock:
  - `time.monotonic()` is a parameter (`now`, `pressNow`, `tickNow`) in integer milliseconds, not a float in seconds.
  - Rounding of sub-millisecond floats is not captured.
- Waiting:
  - `time.sleep` and the 0.05 s `wait_for_press` timeout take no time in the model.
  - A sleep appears only as a `Sleep` effect.
  - How many passes fit in a turn is not modelled.
- Files:
  - The existence check of a WAV file is membership in the `present` set, taken once per pass.
  - `play_wav_bytes`, with its temporary file and cleanup, is not modelled.
  - Nor is the WAV header that `wave` writes (channels, sample width, frame rate).
- ToneBuffer.Sample: the sine is a caller-supplied function bounded by [-1, 1], because `math.sin` and the float product `2*pi*freq*i/rate` are floating-point. The `amp*sine` product is computed over exact reals rather than IEEE doubles.
- ToneBuffer.Amplitude: `32767*volume` is an exact real product, not the double the script computes.
- FourPlayerTimer.StartTurnStep: requires a player in 1..4. The script's `state_for_player` would raise KeyError for any other player, after `active_player` and `deadline` were already assigned. No caller passes such a value, since `next_in_sequence` always returns 1..4.
- FourPlayerTimer.Timer.StartTurn: same precondition and reason as `StartTurnStep`.
- FourPlayerTimer.StartSound: same precondition. The `[1000, 1000]` default of `START_BEEP_PATTERNS.get` is unreachable, because the path dict raises KeyError first for an unknown player. It is kept in `StartBeepPattern` but plays no role.
- ToneBuffer.MakeToneFrames: models only the frame count, the amplitude and the frame loop (timer-aiy-custom-audio-4player.py:40-45). The WAV header written by `wave` (lines 46-51) is not modelled. Neither is the error its `setframerate` raises for a non-positive sample rate, so the model returns a payload where the script would fail.
- The `board.led.state = Led.OFF` written once before the main loop is not modelled (timer-aiy-custom-audio-4player.py:147, timer-aiy-custom-audio-2player.py:123, timer-aiy.py:106). The model starts from the initial globals, with the LED state not part of them.
- The startup audio that each script plays before its main loop is not modelled. This covers the test tone, the sample WAV and the boot beep.
- The `KeyboardInterrupt` handler and the final `board.led.state = Led.OFF` are not modelled.
- The unused default arguments of `beep` are not modelled.
- The scripts `1-button.py` and `2-speaker.py` are hardware demos outside the turn timer, and are not part of this model.
- The table cites the four-player script for the shared modules `Clock`, `LedPolicy`, `AudioCues` and `ToneBuffer`. How the corresponding code appears in the other two scripts:
  - `remaining` is the same, at timer-aiy-custom-audio-2player.py:107-108 and timer-aiy.py:93-94.
  - `led_pattern_for_remaining` is the same, at timer-aiy-custom-audio-2player.py:81-90 and timer-aiy.py:62-76.
  - `make_tone_wav_bytes` is the same, at timer-aiy-custom-audio-2player.py:26-40 and timer-aiy.py:16-30.
  - `play_custom_or_beep` exists only in the two custom-audio scripts. At timer-aiy-custom-audio-2player.py:60-67 it hard-codes 120 ms, volume 0.7 and a 0.04 s pause rather than taking them as default arguments. These are the same values, so `AudioCues.CustomOrBeep` models both.
  - timer-aiy.py has no `play_custom_or_beep`. Its cues are fixed beep loops at timer-aiy.py:49-59, with 80 ms, volume 0.6 and a 0.07 s pause for the start beeps. It shares only the loop shape, which `BasicTimer` builds from `AudioCues.Beeps` and `AudioCues.Tones` directly.
