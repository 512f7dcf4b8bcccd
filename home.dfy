/** The festival countdown of the home page: a millisecond distance split
    into days, hours, minutes and seconds, written to the `timeLeft` state
    only while the festival is still ahead. */
module Home {

  const MsPerSecond: int := 1000
  const MsPerMinute: int := 60000
  const MsPerHour: int := 3600000
  const MsPerDay: int := 86400000

  datatype TimeLeft = TimeLeft(days: int, hours: int, minutes: int, seconds: int)

  /** The state the page starts with. */
  const Zero := TimeLeft(0, 0, 0, 0)

  /** The milliseconds a displayed value stands for. */
  function Milliseconds(t: TimeLeft): int {
    t.days * MsPerDay + t.hours * MsPerHour + t.minutes * MsPerMinute + t.seconds * MsPerSecond
  }

  /** The whole seconds a displayed value stands for. */
  function Seconds(t: TimeLeft): int {
    t.days * 86400 + t.hours * 3600 + t.minutes * 60 + t.seconds
  }

  /** Hours below a day, minutes and seconds below sixty. */
  predicate InRange(t: TimeLeft) {
    t.days >= 0 && 0 <= t.hours < 24 && 0 <= t.minutes < 60 && 0 <= t.seconds < 60
  }

  /** The `setTimeLeft` argument for a positive distance. `Math.floor` of a
      quotient of positive numbers is integer division, and JavaScript's `%`
      agrees with Euclidean remainder on positive operands. */
  function Split(distance: int): (t: TimeLeft)
    requires distance > 0
    ensures InRange(t)
    ensures t.days == distance / MsPerDay
    ensures Milliseconds(t) <= distance < Milliseconds(t) + MsPerSecond
  {
    var t := TimeLeft(
      distance / MsPerDay,
      (distance % MsPerDay) / MsPerHour,
      (distance % MsPerHour) / MsPerMinute,
      (distance % MsPerMinute) / MsPerSecond);
    NestedRemainder(distance, MsPerDay, MsPerHour);
    NestedRemainder(distance, MsPerHour, MsPerMinute);
    NestedRemainder(distance, MsPerMinute, MsPerSecond);
    t
  }

  /** When `small` divides `big`, reducing modulo `big` first does not change
      the remainder modulo `small`; the quotient of the reduced value is what
      lies between the two units. */
  lemma NestedRemainder(d: int, big: int, small: int)
    requires d >= 0 && small > 0 && big > 0 && big % small == 0
    ensures (d % big) % small == d % small
    ensures d % big == ((d % big) / small) * small + d % small
  {
    var k := big / small;
    var q, r := d / big, d % big;
    var q', r' := r / small, r % small;
    assert d == q * big + r;
    assert r == q' * small + r';
    assert big == k * small;
    assert d == (q * k + q') * small + r' by {
      assert q * big == q * k * small;
    }
    DivModUnique(d, small, q * k + q', r');
  }

  lemma DivModUnique(d: int, c: int, q: int, r: int)
    requires c > 0 && d == q * c + r && 0 <= r < c
    ensures d / c == q && d % c == r
  {
    var q0, r0 := d / c, d % c;
    assert (q - q0) * c == r0 - r;
    MultipleBounds(q - q0, c);
  }

  lemma MultipleBounds(x: int, c: int)
    requires c > 0
    ensures x >= 1 ==> x * c >= c
    ensures x <= -1 ==> x * c <= -c
  {
  }

  /** Lexicographic order on (days, hours, minutes, seconds). */
  predicate LexLe(a: TimeLeft, b: TimeLeft) {
    a.days < b.days || (a.days == b.days &&
      (a.hours < b.hours || (a.hours == b.hours &&
        (a.minutes < b.minutes || (a.minutes == b.minutes && a.seconds <= b.seconds)))))
  }

  /** On values in range the lexicographic order is the order of the
      milliseconds they stand for. */
  lemma LexLeIffMilliseconds(a: TimeLeft, b: TimeLeft)
    requires InRange(a) && InRange(b)
    ensures LexLe(a, b) <==> Milliseconds(a) <= Milliseconds(b)
  {
    var sa := a.hours * MsPerHour + a.minutes * MsPerMinute + a.seconds * MsPerSecond;
    var sb := b.hours * MsPerHour + b.minutes * MsPerMinute + b.seconds * MsPerSecond;
    assert 0 <= sa < MsPerDay && 0 <= sb < MsPerDay;
  }

  /** A larger distance never shows a lexicographically smaller countdown. */
  lemma SplitMonotone(d1: int, d2: int)
    requires 0 < d1 <= d2
    ensures LexLe(Split(d1), Split(d2))
  {
    var t1, t2 := Split(d1), Split(d2);
    LexLeIffMilliseconds(t1, t2);
    // both are whole seconds, and t1's is less than a second above t2's
    assert Milliseconds(t1) == 1000 * Seconds(t1) && Milliseconds(t2) == 1000 * Seconds(t2);
  }

  /** The page's countdown state and its interval handler `updateCountdown`. */
  class Countdown {
    /** `new Date(festDate).getTime()`: the festival start in epoch milliseconds. */
    const target: int
    var timeLeft: TimeLeft

    ghost predicate Valid()
      reads this
    {
      InRange(timeLeft)
    }

    constructor (target: int)
      ensures this.target == target && timeLeft == Zero && Valid()
    {
      this.target := target;
      timeLeft := Zero;
    }

    /** One run of `updateCountdown` at clock reading `now`. */
    method Tick(now: int)
      requires Valid()
      modifies this`timeLeft
      ensures Valid()
      ensures target - now > 0 ==> timeLeft == Split(target - now)
      ensures target - now <= 0 ==> timeLeft == old(timeLeft)
    {
      var distance := target - now;
      if distance > 0 {
        timeLeft := Split(distance);
      }
    }
  }

  /** Once the festival has started the display stays at whatever it last
      showed: all zeros only if no tick ever saw a positive distance. */
  lemma {:induction false} ExpiredTicksKeepState(t: TimeLeft, target: int, nows: seq<int>)
    requires forall k :: 0 <= k < |nows| ==> target - nows[k] <= 0
    ensures Run(t, target, nows) == t
  {
    if nows != [] {
      ExpiredTicksKeepState(t, target, nows[1..]);
    }
  }

  /** The state after the ticks at `nows`, in order. */
  function Run(t: TimeLeft, target: int, nows: seq<int>): TimeLeft
    decreases |nows|
  {
    if nows == [] then t
    else Run(if target - nows[0] > 0 then Split(target - nows[0]) else t, target, nows[1..])
  }
}
