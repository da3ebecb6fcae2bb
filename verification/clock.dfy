/** `remaining()`: whole seconds left until the deadline, as Python's `round`
    gives them, clamped at zero. */
module Clock {
  import opened Shared

  /** Python's `round` of `ms / 1000`: to the nearest whole second, a tie going
      to the even neighbour. */
  function RoundToSeconds(ms: int): (s: int)
    ensures -500 <= ms - MS_PER_SECOND * s <= 500
    ensures (ms - MS_PER_SECOND * s == 500 || ms - MS_PER_SECOND * s == -500) ==> s % 2 == 0
  {
    var q, rest := ms / MS_PER_SECOND, ms % MS_PER_SECOND;
    if rest > 500 then q + 1
    else if rest < 500 then q
    else if q % 2 == 0 then q
    else q + 1
  }

  /** The two properties in RoundToSeconds' contract pin the rounded value down. */
  lemma RoundToSecondsUnique(ms: int, s: int)
    requires -500 <= ms - MS_PER_SECOND * s <= 500
    requires (ms - MS_PER_SECOND * s == 500 || ms - MS_PER_SECOND * s == -500) ==> s % 2 == 0
    ensures s == RoundToSeconds(ms)
  {
  }

  /** Rounding never reverses the order of two durations. */
  lemma RoundToSecondsMonotone(a: int, b: int)
    requires a <= b
    ensures RoundToSeconds(a) <= RoundToSeconds(b)
  {
    var ra, rb := RoundToSeconds(a), RoundToSeconds(b);
    if ra > rb {
      assert a >= MS_PER_SECOND * ra - 500 >= MS_PER_SECOND * rb + 500 >= b;
      RoundToSecondsUnique(a, rb);
    }
  }

  /** `max(0, int(round(deadline - now)))`. It is never negative, and it is zero
      exactly when at most half a second is left (a tie rounds down to 0). */
  function Remaining(deadline: int, now: int): (r: nat)
    ensures r == 0 <==> deadline - now <= 500
    ensures r > 0 ==> -500 <= (deadline - now) - MS_PER_SECOND * r <= 500
  {
    var s := RoundToSeconds(deadline - now);
    if s > 0 then s else 0
  }

  /** As the clock advances the remaining time never grows. */
  lemma RemainingNonIncreasing(deadline: int, t1: int, t2: int)
    requires t1 <= t2
    ensures Remaining(deadline, t2) <= Remaining(deadline, t1)
  {
    RoundToSecondsMonotone(deadline - t2, deadline - t1);
  }

  /** A turn that has just begun shows the whole turn length. */
  lemma RemainingAtTurnStart(now: int)
    ensures Remaining(now + TURN_SECONDS * MS_PER_SECOND, now) == TURN_SECONDS
  {
    RoundToSecondsUnique(TURN_SECONDS * MS_PER_SECOND, TURN_SECONDS);
  }
}
