/**
 * `isEventStartingSoon`: an event starts soon when it starts after now and
 * at most thirty minutes from now. Timestamps are integer milliseconds and
 * `now` is a parameter.
 */
module Dates {

  const MsPerMinute: int := 60_000

  /** The difference in minutes, as a real quotient. */
  function MinutesUntil(start: int, now: int): real {
    (start - now) as real / MsPerMinute as real
  }

  predicate StartingSoon(start: int, now: int) {
    0.0 < MinutesUntil(start, now) <= 30.0
  }

  /** In whole milliseconds: strictly after now and at most 1,800,000 ms ahead. */
  lemma StartingSoonInMs(start: int, now: int)
    ensures StartingSoon(start, now) <==> 0 < start - now <= 1_800_000
  {
    var d := (start - now) as real;
    assert MinutesUntil(start, now) * 60000.0 == d;
  }

  /** The boundaries: now itself is not soon, exactly thirty minutes is, one millisecond more is not. */
  lemma StartingSoonBoundaries(now: int)
    ensures !StartingSoon(now, now)
    ensures StartingSoon(now + 1_800_000, now)
    ensures !StartingSoon(now + 1_800_001, now)
    ensures forall start :: start <= now ==> !StartingSoon(start, now)
  {
    StartingSoonInMs(now, now);
    StartingSoonInMs(now + 1_800_000, now);
    StartingSoonInMs(now + 1_800_001, now);
    forall start | start <= now
      ensures !StartingSoon(start, now)
    {
      StartingSoonInMs(start, now);
    }
  }

  /** Only the distance between the two instants matters. */
  lemma StartingSoonShift(start: int, now: int, k: int)
    ensures StartingSoon(start + k, now + k) == StartingSoon(start, now)
  {
    assert (start + k) - (now + k) == start - now;
  }
}
