/** Cue resolution shared by the scripts: a run of beeps, and
    `play_custom_or_beep`, which prefers a WAV file and otherwise beeps a
    fallback list of frequencies. */
module AudioCues {
  import opened Shared

  /** `play_custom_or_beep` beeps each fallback tone for 120 ms at volume 0.7
      and pauses 0.04 s after it. */
  const BEEP_MS := 120
  const BEEP_VOLUME := 0.7
  const BEEP_PAUSE_MS := 40

  /** Whether an effect is heard: a WAV file or a synthesized tone. */
  predicate Audible(e: Effect) {
    e.PlayWav? || e.PlayTone?
  }

  /** The audible effects of a trace, in order: the WAV files and tones played.
      Nothing silent is kept; AudioKeepsAudible shows nothing audible is
      dropped, and AudioSingle with AudioConcat that the order is the trace's. */
  function Audio(effects: seq<Effect>): (a: seq<Effect>)
    ensures |a| <= |effects|
    ensures forall e :: e in a ==> e in effects && (e.PlayWav? || e.PlayTone?)
  {
    if effects == [] then []
    else (if effects[0].PlayWav? || effects[0].PlayTone? then [effects[0]] else [])
         + Audio(effects[1..])
  }

  /** A trace that plays nothing. */
  predicate Quiet(effects: seq<Effect>) {
    Audio(effects) == []
  }

  /** LED writes and sleeps make no sound. */
  lemma {:induction false} SilentIsQuiet(effects: seq<Effect>)
    requires forall i :: 0 <= i < |effects| ==> effects[i].SetLed? || effects[i].Sleep?
    ensures Quiet(effects)
  {
    if effects != [] {
      SilentIsQuiet(effects[1..]);
    }
  }

  lemma {:induction false} AudioConcat(a: seq<Effect>, b: seq<Effect>)
    ensures Audio(a + b) == Audio(a) + Audio(b)
  {
    if a == [] {
      assert a + b == b;
    } else {
      var ab := a + b;
      assert ab[0] == a[0] && ab[1..] == a[1..] + b;
      AudioConcat(a[1..], b);
      var head := if a[0].PlayWav? || a[0].PlayTone? then [a[0]] else [];
      assert Audio(ab) == head + Audio(a[1..] + b);
      assert Audio(a) == head + Audio(a[1..]);
    }
  }

  /** Every WAV playback and tone of a trace is heard. */
  lemma {:induction false} AudioKeepsAudible(effects: seq<Effect>, e: Effect)
    requires e in effects && Audible(e)
    ensures e in Audio(effects)
  {
    if effects[0] != e {
      AudioKeepsAudible(effects[1..], e);
    }
  }

  /** A single effect is heard exactly when it is audible. */
  lemma AudioSingle(e: Effect)
    ensures Audible(e) ==> Audio([e]) == [e]
    ensures !Audible(e) ==> Audio([e]) == []
  {
    assert [e][1..] == [];
  }

  /** A trace of audible effects only is heard as it is. */
  lemma {:induction false} AudioOfAudible(effects: seq<Effect>)
    requires forall i :: 0 <= i < |effects| ==> Audible(effects[i])
    ensures Audio(effects) == effects
  {
    if effects != [] {
      AudioOfAudible(effects[1..]);
    }
  }

  /** The tones `freqs`, each played for `ms` at `volume`, in list order. */
  function Tones(freqs: seq<int>, ms: int, volume: real): (t: seq<Effect>)
    ensures |t| == |freqs|
  {
    seq(|freqs|, i requires 0 <= i < |freqs| => PlayTone(freqs[i], ms, volume))
  }

  /** What a loop `for f in freqs: beep(f, ms, volume); time.sleep(pause)` does:
      for each frequency, its tone followed by the pause. */
  function Beeps(freqs: seq<int>, ms: int, volume: real, pauseMs: int): (b: seq<Effect>)
    ensures |b| == 2 * |freqs|
    ensures forall i :: 0 <= i < |b| ==> (b[i] == Sleep(pauseMs) <==> i % 2 == 1)
  {
    seq(2 * |freqs|, i requires 0 <= i < 2 * |freqs| =>
      if i % 2 == 0 then PlayTone(freqs[i / 2], ms, volume) else Sleep(pauseMs))
  }

  /** The first beep, then the run of the rest. */
  lemma BeepsCons(freqs: seq<int>, ms: int, volume: real, pauseMs: int)
    requires freqs != []
    ensures Beeps(freqs, ms, volume, pauseMs)
         == [PlayTone(freqs[0], ms, volume), Sleep(pauseMs)] + Beeps(freqs[1..], ms, volume, pauseMs)
  {
    var a := Beeps(freqs, ms, volume, pauseMs);
    var b := [PlayTone(freqs[0], ms, volume), Sleep(pauseMs)] + Beeps(freqs[1..], ms, volume, pauseMs);
    assert |a| == |b|;
    forall i | 0 <= i < |a|
      ensures a[i] == b[i]
    {
      if i >= 2 {
        assert (i - 2) / 2 == i / 2 - 1 && (i - 2) % 2 == i % 2;
      }
    }
  }

  /** A run of beeps plays exactly the listed tones, in order, and no WAV file. */
  lemma {:induction false} BeepsPlayTones(freqs: seq<int>, ms: int, volume: real, pauseMs: int)
    ensures Audio(Beeps(freqs, ms, volume, pauseMs)) == Tones(freqs, ms, volume)
    ensures |Beeps(freqs, ms, volume, pauseMs)| == 2 * |freqs|
  {
    if freqs != [] {
      var tone := PlayTone(freqs[0], ms, volume);
      var rest := Beeps(freqs[1..], ms, volume, pauseMs);
      BeepsCons(freqs, ms, volume, pauseMs);
      BeepsPlayTones(freqs[1..], ms, volume, pauseMs);
      AudioSingle(tone);
      AudioSingle(Sleep(pauseMs));
      AudioConcat([tone], [Sleep(pauseMs)]);
      assert [tone] + [Sleep(pauseMs)] == [tone, Sleep(pauseMs)];
      AudioConcat([tone, Sleep(pauseMs)], rest);
      TonesCons(freqs, ms, volume);
    }
  }

  lemma TonesCons(freqs: seq<int>, ms: int, volume: real)
    requires freqs != []
    ensures Tones(freqs, ms, volume) == [PlayTone(freqs[0], ms, volume)] + Tones(freqs[1..], ms, volume)
  {
  }


  /** Appending one beep to the list appends its tone and pause to the run. */
  lemma BeepsAppend(freqs: seq<int>, f: int, ms: int, volume: real, pauseMs: int)
    ensures Beeps(freqs + [f], ms, volume, pauseMs)
         == Beeps(freqs, ms, volume, pauseMs) + [PlayTone(f, ms, volume), Sleep(pauseMs)]
  {
    var a := Beeps(freqs + [f], ms, volume, pauseMs);
    var b := Beeps(freqs, ms, volume, pauseMs) + [PlayTone(f, ms, volume), Sleep(pauseMs)];
    assert |a| == |b|;
    forall i | 0 <= i < |a|
      ensures a[i] == b[i]
    {
      if i < 2 * |freqs| {
        assert (freqs + [f])[i / 2] == freqs[i / 2];
      } else {
        assert i / 2 == |freqs|;
      }
    }
  }

  /** The choice `play_custom_or_beep` makes: the WAV file alone if it exists,
      otherwise every fallback tone in list order at 120 ms and volume 0.7. */
  function CustomOrBeep(asset: Asset, present: set<Asset>, freqs: seq<int>): (effects: seq<Effect>)
    ensures asset in present ==> Audio(effects) == [PlayWav(asset)]
    ensures asset !in present ==> Audio(effects) == Tones(freqs, BEEP_MS, BEEP_VOLUME)
    ensures asset in present ==> effects == [PlayWav(asset)]
    ensures forall i :: 0 <= i < |effects| ==> !effects[i].SetLed?
  {
    if asset in present then
      assert [PlayWav(asset)][1..] == [];
      [PlayWav(asset)]
    else
      BeepsPlayTones(freqs, BEEP_MS, BEEP_VOLUME, BEEP_PAUSE_MS);
      Beeps(freqs, BEEP_MS, BEEP_VOLUME, BEEP_PAUSE_MS)
  }

  /** `play_custom_or_beep(path, fallback_freqs)`, with the existence check of
      the file as membership in `present`. */
  method PlayCustomOrBeep(asset: Asset, present: set<Asset>, freqs: seq<int>) returns (effects: seq<Effect>)
    ensures effects == CustomOrBeep(asset, present, freqs)
  {
    if asset in present {
      effects := [PlayWav(asset)];
    } else {
      effects := [];
      for i := 0 to |freqs|
        invariant effects == Beeps(freqs[..i], BEEP_MS, BEEP_VOLUME, BEEP_PAUSE_MS)
      {
        BeepsAppend(freqs[..i], freqs[i], BEEP_MS, BEEP_VOLUME, BEEP_PAUSE_MS);
        assert freqs[..i + 1] == freqs[..i] + [freqs[i]];
        effects := effects + [PlayTone(freqs[i], BEEP_MS, BEEP_VOLUME), Sleep(BEEP_PAUSE_MS)];
      }
      assert freqs[..|freqs|] == freqs;
    }
  }
}
