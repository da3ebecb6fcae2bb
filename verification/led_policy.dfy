/** `led_pattern_for_remaining`: the LED pattern shown for the whole seconds
    left in a turn. `Led.BEACON_DARK` is missing from older AIY images; the
    scripts catch the AttributeError its lookup raises and fall back to the
    expression in their `except` branch. */
module LedPolicy {
  import opened Shared
  import opened Clock

  /** The `except AttributeError` branch: steady on while more than WARN_RED
      seconds remain, blinking otherwise. */
  function FallbackPattern(r: int): (p: LedPattern)
    ensures p == On <==> r > WARN_RED
    ensures p == Blink <==> r <= WARN_RED
  {
    if r > WARN_RED then On else Blink
  }

  /** BEACON while safe, BEACON_DARK in the warning band and BLINK when critical.
      Only the warning band looks up BEACON_DARK, so only there does its absence
      send the lookup to the fallback. */
  function LedPatternForRemaining(r: int, beaconDark: bool): (p: LedPattern)
    ensures r > WARN_YELLOW ==> p == Beacon
    ensures r <= WARN_RED ==> p == Blink
    ensures WARN_RED < r <= WARN_YELLOW ==> p == (if beaconDark then BeaconDark else On)
  {
    if r > WARN_YELLOW then Beacon
    else if r <= WARN_RED then Blink
    else if beaconDark then BeaconDark
    else FallbackPattern(r)
  }

  /** How urgent a pattern looks: pulsing, then steady or dim, then blinking. */
  function Severity(p: LedPattern): nat {
    match p
    case Off => 0
    case Beacon => 0
    case On => 1
    case BeaconDark => 1
    case Blink => 2
    case Blink3 => 2
  }

  /** Less time left never shows a less urgent pattern, with or without
      BEACON_DARK. */
  lemma SeverityNonDecreasing(r1: int, r2: int, beaconDark: bool)
    requires r1 <= r2
    ensures Severity(LedPatternForRemaining(r1, beaconDark)) >= Severity(LedPatternForRemaining(r2, beaconDark))
  {
  }

  /** Without BEACON_DARK the pattern is the fallback expression exactly when
      at most WARN_YELLOW seconds remain; above that BEACON is still shown. */
  lemma FallbackOnlyBelowYellow(r: int)
    ensures LedPatternForRemaining(r, false) != BeaconDark
    ensures r <= WARN_YELLOW ==> LedPatternForRemaining(r, false) == FallbackPattern(r)
    ensures r > WARN_YELLOW ==> LedPatternForRemaining(r, false) == Beacon
  {
  }

  /** Within one turn the LED only ever escalates as the clock advances. */
  lemma LedEscalatesOverTime(deadline: int, t1: int, t2: int, beaconDark: bool)
    requires t1 <= t2
    ensures Severity(LedPatternForRemaining(Remaining(deadline, t2), beaconDark))
         >= Severity(LedPatternForRemaining(Remaining(deadline, t1), beaconDark))
  {
    RemainingNonIncreasing(deadline, t1, t2);
    SeverityNonDecreasing(Remaining(deadline, t2), Remaining(deadline, t1), beaconDark);
  }

  /** The pattern written when a turn times out: BLINK_3, or BLINK when the
      library has no BLINK_3. */
  function TimeoutPattern(caps: LedCaps): (p: LedPattern)
    ensures Severity(p) == 2
    ensures caps.blink3 <==> p == Blink3
  {
    if caps.blink3 then Blink3 else Blink
  }
}
