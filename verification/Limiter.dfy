/** The benchmark's rate limiter, with time in nanoseconds and sleeping exact. */
module Limiters {
  import opened Types
  import opened QuorumSets

  const SECOND := 1_000_000_000

  /** Integer division truncating toward zero. */
  function Quotient(a: int, b: int): int
    requires b != 0
  {
    if (a >= 0) == (b > 0) then Abs(a) / Abs(b) else -(Abs(a) / Abs(b))
  }

  function Abs(a: int): nat {
    if a < 0 then -a else a
  }

  /** The limiter as a value; `last` is None while the recorded time is the zero time. */
  datatype Pace = Pace(last: Option<int>, sleep: int, interval: int, slack: int)

  function New(rate: int): Pace
    requires rate != 0
  {
    Pace(None, 0, Quotient(SECOND, rate), Quotient(-10 * SECOND, rate))
  }

  /** One call at time `now`; afterwards `last` is the time at which the call returns. */
  function Call(p: Pace, now: int): Pace {
    if p.last.None? then p.(last := Some(now)) else
    var debt := p.sleep + (p.interval - (now - p.last.value));
    var sleep := if debt < p.slack then p.slack else debt;
    if sleep > 0 then p.(last := Some(now + sleep), sleep := 0) else p.(last := Some(now), sleep := sleep)
  }

  class Limiter {
    var last: Option<int>
    var sleep: int
    const interval: int
    const slack: int

    ghost function State(): Pace
      reads this
    {
      Pace(last, sleep, interval, slack)
    }

    constructor (rate: int)
      requires rate != 0
      ensures State() == New(rate)
    {
      last, sleep := None, 0;
      interval, slack := Quotient(SECOND, rate), Quotient(-10 * SECOND, rate);
    }

    /** Returns the time at which the call comes back. */
    method Wait(now: int) returns (release: int)
      modifies this
      ensures State() == Call(old(State()), now) && last == Some(release)
      ensures old(last).None? ==> release == now
      ensures old(last).Some? && slack <= 0 ==> release == Larger(now, old(last).value + interval + old(sleep))
    {
      if last.None? {
        last := Some(now);
        return now;
      }
      sleep := sleep + (interval - (now - last.value));
      if sleep < slack {
        sleep := slack;
      }
      if sleep > 0 {
        release := now + sleep;
        last := Some(now + sleep);
        sleep := 0;
      } else {
        release := now;
        last := Some(now);
      }
    }
  }

  /** The limiter after calls at these times. */
  function After(p: Pace, nows: seq<int>): Pace {
    if nows == [] then p else Call(After(p, nows[..|nows| - 1]), nows[|nows| - 1])
  }

  /** A limiter as created, with a slack that is a debt. */
  ghost predicate Fresh(p: Pace) {
    p.last.None? && p.sleep == 0 && p.slack <= 0
  }

  lemma {:induction false} AfterKeeps(p: Pace, nows: seq<int>)
    requires Fresh(p)
    ensures var q := After(p, nows);
      && q.interval == p.interval && q.slack == p.slack && p.slack <= q.sleep <= 0
      && (q.last.Some? <==> nows != []) && (nows == [] ==> q.sleep == 0)
  {
    if nows != [] { AfterKeeps(p, nows[..|nows| - 1]); }
  }

  /** When the j-th call returns. */
  function Release(p: Pace, nows: seq<int>, j: nat): int
    requires j < |nows| && After(p, nows[..j + 1]).last.Some?
  {
    After(p, nows[..j + 1]).last.value
  }

  /** The time that n intervals take. */
  function Span(n: nat, interval: int): int {
    n * interval
  }

  lemma SpanGrows(n: nat, interval: int)
    ensures Span(n, interval) == if n == 0 then 0 else Span(n - 1, interval) + interval
  {
  }

  lemma CallGrows(p: Pace, now: int)
    requires p.last.Some?
    ensures var q := Call(p, now); q.last.Some? && q.last.value + q.sleep >= p.last.value + p.sleep + p.interval
  {
  }

  /** The return time plus the banked debt grows by at least an interval a call. */
  lemma {:induction false} PotentialGrows(p: Pace, nows: seq<int>, i: nat, j: nat)
    requires Fresh(p) && i <= j < |nows|
    ensures var a, b := After(p, nows[..i + 1]), After(p, nows[..j + 1]);
      && a.last.Some? && b.last.Some?
      && b.last.value + b.sleep >= a.last.value + a.sleep + Span(j - i, p.interval)
    decreases j - i
  {
    AfterKeeps(p, nows[..i + 1]);
    SpanGrows(j - i, p.interval);
    if i < j {
      hide Call, Fresh, Span;
      PotentialGrows(p, nows, i, j - 1);
      AfterKeeps(p, nows[..j]);
      assert nows[..j + 1][..j] == nows[..j] && nows[..(j - 1) + 1] == nows[..j];
      CallGrows(After(p, nows[..j]), nows[j]);
    }
  }

  /** Rate bound: for any call times, the j-th return comes at least (j-i) intervals less the slack after the i-th. */
  lemma ReleasesAreSpaced(p: Pace, nows: seq<int>, i: nat, j: nat)
    requires Fresh(p) && i <= j < |nows|
    ensures After(p, nows[..i + 1]).last.Some? && After(p, nows[..j + 1]).last.Some?
    ensures Release(p, nows, j) >= Release(p, nows, i) + (j - i) * p.interval - Abs(p.slack)
  {
    PotentialGrows(p, nows, i, j);
    AfterKeeps(p, nows[..i + 1]);
    AfterKeeps(p, nows[..j + 1]);
  }

  /** The exact release time: the first call returns at once, and any later one at the call time or, if that is later, an
      interval after the last release less the credit banked. What a late call leaves of the interval is the new credit, at
      most the slack. */
  lemma ReleaseIs(p: Pace, nows: seq<int>, j: nat)
    requires Fresh(p) && j < |nows|
    ensures After(p, nows[..j + 1]).last.Some? && (j > 0 ==> After(p, nows[..j]).last.Some?)
    ensures j == 0 ==> Release(p, nows, 0) == nows[0] && After(p, nows[..1]).sleep == 0
    ensures j > 0 ==>
      var before, after := After(p, nows[..j]), After(p, nows[..j + 1]);
      var due := before.last.value + p.interval + before.sleep;
      && Release(p, nows, j) == Larger(nows[j], due)
      && after.sleep == Larger(Smaller(due - nows[j], 0), p.slack)
  {
    hide After, Call;
    AfterStep(p, nows, j);
    AfterKeeps(p, nows[..j]);
    AfterKeeps(p, nows[..j + 1]);
    CallIs(After(p, nows[..j]), nows[j]);
  }

  lemma AfterStep(p: Pace, nows: seq<int>, j: nat)
    requires j < |nows|
    ensures After(p, nows[..j + 1]) == Call(After(p, nows[..j]), nows[j])
    ensures j == 0 ==> After(p, nows[..j]) == p
  {
    hide Call;
    assert nows[..j + 1][..j] == nows[..j];
  }

  lemma CallIs(p: Pace, now: int)
    requires p.slack <= 0
    ensures p.last.None? ==> Call(p, now) == p.(last := Some(now))
    ensures p.last.Some? ==>
      var due := p.last.value + p.interval + p.sleep;
      && Call(p, now).last == Some(Larger(now, due))
      && Call(p, now).sleep == Larger(Smaller(due - now, 0), p.slack)
  {
  }

  function Larger(a: int, b: int): int {
    if a >= b then a else b
  }

  function Smaller(a: int, b: int): int {
    if a <= b then a else b
  }

  /** Idle time is credited: after a pause of at least the slack, calls return at once until the credit is used up. */
  lemma {:induction false} PauseIsCredited(p: Pace, nows: seq<int>, i: nat, j: nat)
    requires Fresh(p) && 0 < i <= j < |nows| && After(p, nows[..i]).last.Some?
    requires nows[i] >= After(p, nows[..i]).last.value + p.interval - p.slack + After(p, nows[..i]).sleep
    requires forall k :: i <= k <= j ==> nows[k] == nows[i]
    requires (j - i) * p.interval <= -p.slack && p.interval >= 0
    ensures After(p, nows[..j + 1]).last.Some? && Release(p, nows, j) == nows[i]
    ensures After(p, nows[..j + 1]).sleep == p.slack + (j - i) * p.interval
    decreases j - i
  {
    hide After, Call;
    ReleaseIs(p, nows, j);
    if i < j {
      ScaledGrows(j - 1 - i, p.interval);
      PauseIsCredited(p, nows, i, j - 1);
      assert nows[..(j - 1) + 1] == nows[..j];
      OneMore(j - 1 - i, p.interval);
    }
  }

  lemma ScaledGrows(n: nat, scale: int)
    requires scale >= 0
    ensures n * scale <= (n + 1) * scale
  {
  }

  /** No needless delay: a call returns at once, or no later than an interval after the return before it. */
  lemma DelaysAreShort(p: Pace, nows: seq<int>, j: nat)
    requires Fresh(p) && j < |nows|
    ensures After(p, nows[..j + 1]).last.Some? && (j > 0 ==> After(p, nows[..j]).last.Some?)
    ensures Release(p, nows, j) >= nows[j]
    ensures Release(p, nows, j) > nows[j] ==> j > 0 && Release(p, nows, j) <= After(p, nows[..j]).last.value + p.interval
  {
    AfterKeeps(p, nows[..j]);
    assert nows[..j + 1][..j] == nows[..j];
  }

  ghost predicate ReturnsIn(p: Pace, nows: seq<int>, j: nat, from: int, length: nat) {
    j < |nows| && After(p, nows[..j + 1]).last.Some? && from <= Release(p, nows, j) <= from + length
  }

  /** The calls that return within a window. */
  ghost function Within(p: Pace, nows: seq<int>, from: int, length: nat): set<nat> {
    set j | j in Range(0, |nows|) && ReturnsIn(p, nows, j, from, length)
  }

  lemma Extremes(s: set<nat>) returns (lo: nat, hi: nat)
    requires s != {}
    ensures lo in s && hi in s && lo <= hi && s <= Range(lo, hi + 1)
  {
    var x :| x in s;
    if s == {x} {
      lo, hi := x, x;
    } else {
      var a, b := Extremes(s - {x});
      lo, hi := if x < a then x else a, if x > b then x else b;
    }
  }

  lemma ScaledOrder(a: int, b: int, scale: int)
    requires a <= b && scale > 0
    ensures a * scale <= b * scale
  {
    assert (b - a) * scale >= 0;
  }

  lemma OneMore(n: int, scale: int)
    ensures (n + 1) * scale == n * scale + scale
  {
  }

  lemma QuotientBound(k: nat, interval: int, total: int)
    requires interval > 0 && k * interval <= total
    ensures k <= total / interval
  {
    var q := total / interval;
    if k > q {
      ScaledOrder(q + 1, k, interval);
      OneMore(q, interval);
      assert false;
    }
  }

  lemma WindowSpan(p: Pace, nows: seq<int>, from: int, length: nat, lo: nat, hi: nat)
    requires Fresh(p) && p.interval > 0 && lo <= hi
    requires ReturnsIn(p, nows, lo, from, length) && ReturnsIn(p, nows, hi, from, length)
    ensures hi - lo <= (length + Abs(p.slack)) / p.interval
  {
    hide After, Fresh, Abs;
    ReleasesAreSpaced(p, nows, lo, hi);
    QuotientBound(hi - lo, p.interval, length + Abs(p.slack));
  }

  /** A window of length T holds at most (T + |slack|) / interval + 1 returns. */
  lemma WindowBound(p: Pace, nows: seq<int>, from: int, length: nat)
    requires Fresh(p) && p.interval > 0
    ensures |Within(p, nows, from, length)| <= (length + Abs(p.slack)) / p.interval + 1
  {
    var s := Within(p, nows, from, length);
    var span := (length + Abs(p.slack)) / p.interval;
    hide Range, After, Fresh, Abs, ReturnsIn;
    if s != {} {
      var lo, hi := Extremes(s);
      SubsetSize(s, Range(lo, hi + 1));
      WindowSpan(p, nows, from, length, lo, hi);
    } else {
      WindowIsPositive(length + Abs(p.slack), p.interval);
    }
  }

  lemma WindowIsPositive(total: nat, interval: int)
    requires interval > 0
    ensures total / interval >= 0
  {
  }

  /** The interval is the second divided by the rate, and the slack ten times that, both rounded toward zero. */
  lemma NewIs(rate: int)
    requires rate > 0
    ensures var p := New(rate);
      && p.last.None? && p.sleep == 0
      && p.interval * rate <= SECOND < (p.interval + 1) * rate
      && -p.slack * rate <= 10 * SECOND < (-p.slack + 1) * rate
  {
    DivisionBounds(SECOND, rate);
    DivisionBounds(10 * SECOND, rate);
  }

  lemma DivisionBounds(total: nat, rate: int)
    requires rate > 0
    ensures (total / rate) * rate <= total < (total / rate + 1) * rate
  {
    OneMore(total / rate, rate);
  }

  /** The constructor yields a limiter these bounds apply to for every positive rate, and one that limits at all
      exactly for rates of at most one operation a nanosecond. */
  lemma NewLimits(rate: int)
    requires rate != 0
    ensures rate > 0 ==> Fresh(New(rate))
    ensures New(rate).interval > 0 <==> 0 < rate <= SECOND
  {
    if rate > 0 {
      assert SECOND / rate >= 1 <==> rate <= SECOND by {
        if rate <= SECOND { QuotientBound(1, rate, SECOND); }
      }
    } else {
      assert SECOND / -rate >= 0;
    }
  }
}
