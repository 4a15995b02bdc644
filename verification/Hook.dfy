/** The sleep calls of src/hook.c: how a request becomes a number of milliseconds, an unsigned int. */
module Hook {
  import opened TimerWheel
  import opened TimerFiring

  const UINT := 0x1_0000_0000

  /** sleep(seconds) */
  function SleepMs(seconds: nat): nat { seconds * 1000 % UINT }

  /** nanosleep(sec, nsec) */
  function NanosleepMs(sec: nat, nsec: nat): nat { (sec * 1000 % UINT + nsec / 1000000) % UINT }

  /** usleep(usec) */
  function UsleepMs(usec: nat): nat { usec / 1000 }

  /** sleep asks for the full time exactly up to 4294967 seconds; beyond that the product wraps round. */
  lemma SleepIsFull(seconds: nat)
    requires seconds < UINT
    ensures SleepMs(seconds) == 1000 * seconds <==> seconds <= 4294967
  {
  }

  /** A request for n units of time, `unit` of them to the millisecond, asks for ms milliseconds: rounded down, and
      reduced by q times 2^32 to fit an unsigned int. */
  predicate Asks(ms: nat, n: nat, unit: nat, q: nat) {
    ms < UINT && unit * (ms + q * UINT) <= n < unit * (ms + q * UINT + 1)
  }

  /** What sleep asks for, for every number of seconds. */
  lemma SleepAsks(seconds: nat) returns (q: nat)
    ensures Asks(SleepMs(seconds), 1000 * seconds, 1, q)
  {
    q := 1000 * seconds / UINT;
  }

  /** And nanosleep, for every request. */
  lemma NanosleepAsks(sec: nat, nsec: nat) returns (q: nat)
    requires nsec < 1_000_000_000
    ensures Asks(NanosleepMs(sec, nsec), 1_000_000_000 * sec + nsec, 1_000_000, q)
  {
    var a, b := nsec / 1_000_000, nsec % 1_000_000;
    var n := sec * 1000 + a;
    AddModulo(sec * 1000, a);
    assert NanosleepMs(sec, nsec) == n % UINT;
    hide NanosleepMs;
    q := n / UINT;
    assert n == n % UINT + q * UINT && 1_000_000_000 * sec + nsec == 1_000_000 * n + b;
  }

  /** usleep asks for the request rounded down to milliseconds: never for more, and for all of it exactly for whole
      milliseconds. */
  lemma UsleepIsFull(usec: nat)
    requires usec < UINT
    ensures Asks(UsleepMs(usec), usec, 1000, 0)
    ensures usec - 999 <= 1000 * UsleepMs(usec) <= usec && (1000 * UsleepMs(usec) == usec <==> usec % 1000 == 0)
  {
  }

  lemma AddModulo(a: nat, b: nat)
    ensures (a % UINT + b) % UINT == (a + b) % UINT
  {
  }

  /** nanosleep never asks for more than the request, and for all of it exactly if it is a whole number of
      milliseconds and does not wrap round. */
  lemma NanosleepIsFull(sec: nat, nsec: nat)
    requires nsec < 1_000_000_000
    ensures 1_000_000 * NanosleepMs(sec, nsec) <= 1_000_000_000 * sec + nsec
    ensures 1_000_000 * NanosleepMs(sec, nsec) == 1_000_000_000 * sec + nsec
            <==> nsec % 1_000_000 == 0 && sec * 1000 + nsec / 1_000_000 < UINT
  {
    var a, b := nsec / 1_000_000, nsec % 1_000_000;
    var ms := sec * 1000 + a;
    assert nsec == 1_000_000 * a + b;
    AddModulo(sec * 1000, a);
    assert NanosleepMs(sec, nsec) == ms % UINT;
    Modulo(ms);
    hide NanosleepMs;
    assert 1_000_000_000 * sec + nsec == 1_000_000 * ms + b;
  }

  lemma Modulo(x: nat)
    ensures x % UINT <= x && (x % UINT == x <==> x < UINT)
  {
  }

  /** A sleep of 4294968 seconds lasts 704 milliseconds. */
  lemma SleepWraps()
    ensures SleepMs(4294968) == 704
  {
  }

  /** Exactly when a sleep armed at base j lasts at least the requested seconds: if the request fits an unsigned
      int of milliseconds, and the granularity does not make the timer fire early. */
  lemma SleepPromise(g: nat, j: nat, seconds: nat)
    requires g >= 1 && seconds < UINT && j + SleepMs(seconds) < WORD
    ensures CreatedFireAt(g, j, SleepMs(seconds)) >= j + 1000 * seconds
            <==> seconds <= 4294967 && Exact(g, j, 1000 * seconds)
  {
    hide CreatedFireAt, Exact, LevelFor, Sits, FireAt;
    SleepIsFull(seconds);
    CreatedNotLate(g, j, SleepMs(seconds));
    CreatedSharp(g, j, SleepMs(seconds));
  }

  /** The requested time in whole milliseconds, rounded up. */
  function UsleepWant(usec: nat): nat { (usec + 999) / 1000 }

  function NanosleepWant(sec: nat, nsec: nat): nat { sec * 1000 + (nsec + 999_999) / 1_000_000 }

  /** The same for usleep: it keeps its promise exactly for whole milliseconds and an exact timer. */
  lemma UsleepPromise(g: nat, j: nat, usec: nat)
    requires g >= 1 && usec < UINT && j + UsleepMs(usec) < WORD
    ensures CreatedFireAt(g, j, UsleepMs(usec)) >= j + UsleepWant(usec) <==> usec % 1000 == 0 && Exact(g, j, UsleepMs(usec))
    ensures CreatedFireAt(g, j, UsleepMs(usec)) >= j + UsleepWant(usec) <==> 1000 * CreatedFireAt(g, j, UsleepMs(usec)) >= 1000 * j + usec
  {
    hide CreatedFireAt, Exact, LevelFor, Sits, FireAt;
    CreatedNotLate(g, j, UsleepMs(usec));
    CreatedSharp(g, j, UsleepMs(usec));
  }

  /** And for nanosleep, if the request fits besides. */
  lemma NanosleepPromise(g: nat, j: nat, sec: nat, nsec: nat)
    requires g >= 1 && nsec < 1_000_000_000 && j + NanosleepMs(sec, nsec) < WORD
    ensures CreatedFireAt(g, j, NanosleepMs(sec, nsec)) >= j + NanosleepWant(sec, nsec)
            <==> nsec % 1_000_000 == 0 && sec * 1000 + nsec / 1_000_000 < UINT && Exact(g, j, NanosleepMs(sec, nsec))
    ensures CreatedFireAt(g, j, NanosleepMs(sec, nsec)) >= j + NanosleepWant(sec, nsec)
            <==> 1_000_000 * CreatedFireAt(g, j, NanosleepMs(sec, nsec)) >= 1_000_000 * j + 1_000_000_000 * sec + nsec
  {
    hide CreatedFireAt, Exact, LevelFor, Sits, FireAt;
    var ms := NanosleepMs(sec, nsec);
    CreatedNotLate(g, j, ms);
    CreatedSharp(g, j, ms);
    NanosleepRounds(sec, nsec);
    hide NanosleepMs, NanosleepWant;
  }

  /** The request in milliseconds, rounded down, wrapped round, and rounded up. */
  lemma NanosleepRounds(sec: nat, nsec: nat)
    requires nsec < 1_000_000_000
    ensures var ms, full, want := NanosleepMs(sec, nsec), sec * 1000 + nsec / 1_000_000, NanosleepWant(sec, nsec);
            && ms <= full <= want && (ms == full <==> full < UINT) && (full == want <==> nsec % 1_000_000 == 0)
            && 1_000_000 * (want - 1) < 1_000_000_000 * sec + nsec <= 1_000_000 * want
  {
    AddModulo(sec * 1000, nsec / 1_000_000);
    Modulo(sec * 1000 + nsec / 1_000_000);
    hide NanosleepMs;
    var a, b := nsec / 1_000_000, nsec % 1_000_000;
    assert nsec == 1_000_000 * a + b;
    assert (nsec + 999_999) / 1_000_000 == if b == 0 then a else a + 1;
  }

  lemma CreatedNotLate(g: nat, j: nat, due: nat)
    requires g >= 1 && j + due < WORD
    ensures j <= CreatedFireAt(g, j, due) <= j + due
  {
    hide LevelFor, Sits, FireAt;
    ArmedSits(g, j, j + due);
    FireBounds(g, LevelFor(g, due), j, j + due);
  }
}
