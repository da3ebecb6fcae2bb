/** How the cues of the three scripts relate when no WAV file is present:
    the timeout alarm is the same everywhere, while the start cues drifted
    apart between the copies. */
module VariantDrift {
  import opened Shared
  import opened AudioCues
  import FourPlayerTimer
  import TwoPlayerTimer
  import BasicTimer

  /** Without timeout.wav, all three scripts play the same five tones for a
      timeout. */
  lemma TimeoutFallbackShared()
    ensures Audio(FourPlayerTimer.TimeoutCue({})) == Audio(TwoPlayerTimer.TimeoutCue({}))
    ensures Audio(TwoPlayerTimer.TimeoutCue({})) == Audio(BasicTimer.TimeoutCue())
  {
    assert TimeoutClip !in {};
    assert FourPlayerTimer.TIMEOUT_BEEP_PATTERN == TwoPlayerTimer.TIMEOUT_FALLBACK == BasicTimer.TIMEOUT_TONES;
  }

  /** Player 2's fallback start cue is three 1000 Hz beeps in the four-player
      script but three 900 Hz beeps in the two-player one. */
  lemma PlayerTwoFallbackDiffers()
    ensures Audio(FourPlayerTimer.StartCue(2, {})) != Audio(TwoPlayerTimer.StartCue(2, {}))
  {
    assert StartP2 !in {};
    var four := Tones(FourPlayerTimer.StartBeepPattern(2), BEEP_MS, BEEP_VOLUME);
    var two := Tones(TwoPlayerTimer.OTHER_PLAYER_FALLBACK, BEEP_MS, BEEP_VOLUME);
    assert four[0].freqHz == 1000;
    assert two[0].freqHz == 900;
  }

  /** timer-aiy.py beeps the same frequencies as the two-player fallback for a
      start, but for 80 ms at volume 0.6 instead of 120 ms at 0.7. */
  lemma BasicStartCueShorter(player: int)
    ensures |Audio(BasicTimer.StartCue(player))| == |Audio(TwoPlayerTimer.StartCue(player, {}))|
    ensures forall i :: 0 <= i < |Audio(BasicTimer.StartCue(player))| ==>
      && Audio(BasicTimer.StartCue(player))[i].freqHz == Audio(TwoPlayerTimer.StartCue(player, {}))[i].freqHz
      && Audio(BasicTimer.StartCue(player))[i].ms == 80
      && Audio(TwoPlayerTimer.StartCue(player, {}))[i].ms == 120
  {
    assert StartP1 !in {} && StartP2 !in {};
  }
}
