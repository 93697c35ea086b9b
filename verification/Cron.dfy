/**
 `scheduler/cron.py`: the next fire time of a schedule, and the latest one that is due.
 Times are integers (microseconds). A cron expression in its time zone is an arbitrary
 function that gives the least fire time strictly after an instant.
 */
module Cron {
  import opened Collections
  import opened Runs

  const MICROS := 1_000_000

  datatype Schedule =
    | Manually
    | Interval(expr: Option<string>)
    | CronExpr(next: Option<int -> int>)  // None: no expression

  predicate IsDigits(s: string) {
    s != "" && forall i :: 0 <= i < |s| ==> '0' <= s[i] <= '9'
  }

  function ParseInt(s: string): (n: nat)
    requires forall i :: 0 <= i < |s| ==> '0' <= s[i] <= '9'
  {
    if s == "" then 0 else 10 * ParseInt(s[..|s| - 1]) + (s[|s| - 1] as int - '0' as int)
  }

  // ------------------------------------------------------- decimal notation

  function Digit(d: nat): char
    requires d < 10
  {
    ('0' as int + d) as char
  }

  /** The decimal notation of a number. */
  function Decimal(n: nat): string {
    if n < 10 then [Digit(n)] else Decimal(n / 10) + [Digit(n % 10)]
  }

  function Zeros(k: nat): string {
    if k == 0 then "" else Zeros(k - 1) + "0"
  }

  /** `s` is the decimal notation of `n`, possibly with leading zeros. */
  ghost predicate Denotes(s: string, n: nat) {
    exists k: nat :: s == Zeros(k) + Decimal(n)
  }

  ghost predicate AllDigits(s: string) {
    forall i :: 0 <= i < |s| ==> '0' <= s[i] <= '9'
  }

  lemma {:induction false} ParseAppend(s: string, d: nat)
    requires AllDigits(s) && d < 10
    ensures AllDigits(s + [Digit(d)]) && ParseInt(s + [Digit(d)]) == 10 * ParseInt(s) + d
  {
    var t := s + [Digit(d)];
    assert t[..|t| - 1] == s && t[|t| - 1] == Digit(d);
  }

  lemma DecimalAppend(n: nat, d: nat)
    requires n > 0 && d < 10
    ensures Decimal(10 * n + d) == Decimal(n) + [Digit(d)]
  {
    assert (10 * n + d) / 10 == n && (10 * n + d) % 10 == d;
  }

  lemma {:induction false} ZerosParse(k: nat)
    ensures AllDigits(Zeros(k)) && ParseInt(Zeros(k)) == 0
  {
    if k > 0 {
      ZerosParse(k - 1);
      ParseAppend(Zeros(k - 1), 0);
      assert Zeros(k) == Zeros(k - 1) + [Digit(0)];
    }
  }

  lemma {:induction false} PaddedParse(k: nat, n: nat)
    ensures AllDigits(Zeros(k) + Decimal(n)) && ParseInt(Zeros(k) + Decimal(n)) == n
    decreases n
  {
    if n < 10 {
      ZerosParse(k);
      ParseAppend(Zeros(k), n);
    } else {
      var front := Zeros(k) + Decimal(n / 10);
      PaddedParse(k, n / 10);
      ParseAppend(front, n % 10);
      assert Zeros(k) + Decimal(n) == front + [Digit(n % 10)];
    }
  }

  lemma {:induction false} ParsedIsDenoted(s: string) returns (k: nat)
    requires AllDigits(s) && s != ""
    ensures s == Zeros(k) + Decimal(ParseInt(s))
  {
    var front, d := s[..|s| - 1], s[|s| - 1] as int - '0' as int;
    assert s == front + [Digit(d)];
    if front == "" {
      k := 0;
      assert ParseInt(front) == 0;
    } else {
      k := ParsedIsDenoted(front);
      k := DenotesAppend(front, k, ParseInt(front), d);
    }
  }

  lemma DenotesAppend(s: string, k: nat, n: nat, d: nat) returns (k': nat)
    requires s == Zeros(k) + Decimal(n) && d < 10
    ensures s + [Digit(d)] == Zeros(k') + Decimal(10 * n + d)
  {
    if n == 0 {
      k' := k + 1;
      assert Zeros(k') == Zeros(k) + [Digit(0)];
    } else {
      k' := k;
      DecimalAppend(n, d);
    }
  }

  /** `isdigit` and `int`: exactly the decimal notations are read, each as the number it denotes. */
  lemma {:induction false} ParseIntExact(s: string, n: nat)
    ensures IsDigits(s) && ParseInt(s) == n <==> Denotes(s, n)
  {
    if Denotes(s, n) {
      var k: nat :| s == Zeros(k) + Decimal(n);
      PaddedParse(k, n);
    }
    if IsDigits(s) { var k := ParsedIsDenoted(s); }
  }

  // ------------------------------------------------------- fire times

  function NextRunTime(sch: Schedule, after: int): Option<int> {
    match sch
    case CronExpr(next) => if next.None? then None else Some(next.value(after))
    case Interval(expr) =>
      if expr.None? || !IsDigits(expr.value) then None
      else
        var seconds := ParseInt(expr.value);
        if seconds <= 0 then None else Some(after + seconds * MICROS)
    case Manually => None
  }

  /** `next` gives the least element after an instant of some set of fire times. */
  ghost predicate LeastAfter(next: int -> int) {
    && (forall t :: next(t) > t)
    && (forall t, u :: t <= u < next(t) ==> next(u) == next(t))
  }

  ghost predicate Valid(sch: Schedule) {
    sch.CronExpr? && sch.next.Some? ==> LeastAfter(sch.next.value)
  }

  /** The instants a cron schedule fires at. */
  ghost predicate Fires(next: int -> int, t: int) {
    next(t - 1) == t
  }

  /** The next run time is a fire time, and no fire time comes before it. */
  lemma NextIsLeastFire(next: int -> int, after: int)
    requires LeastAfter(next)
    ensures Fires(next, next(after))
    ensures forall u :: after < u < next(after) ==> !Fires(next, u)
  {
    assert next(next(after) - 1) == next(after);
    forall u | after < u < next(after) ensures !Fires(next, u) {
      assert next(u - 1) == next(after);
    }
  }

  lemma NextIsLater(sch: Schedule, after: int)
    requires Valid(sch)
    ensures NextRunTime(sch, after).Some? ==> NextRunTime(sch, after).value > after
  {
    if sch.CronExpr? && sch.next.Some? { assert sch.next.value(after) > after; }
  }

  // ------------------------------------------------------- the orbit of fire times

  /** The fire time reached from `base` in `k` moves, if there is one. */
  ghost function Orbit(sch: Schedule, base: int, k: nat): Option<int> {
    if k == 0 then Some(base)
    else
      match Orbit(sch, base, k - 1)
      case None => None
      case Some(t) => NextRunTime(sch, t)
  }

  ghost predicate OnOrbit(sch: Schedule, base: int, t: int) {
    exists k: nat :: Orbit(sch, base, k) == Some(t)
  }

  /** The last point of the orbit of `t` not after `now` (`t` itself if none is). */
  ghost function Latest(sch: Schedule, t: int, now: int): (r: int)
    requires Valid(sch)
    ensures r >= t
    decreases now - t
  {
    NextIsLater(sch, t);
    var next := NextRunTime(sch, t);
    if next.None? || next.value > now then t else Latest(sch, next.value, now)
  }

  ghost function DueSpec(sch: Schedule, base: int, now: int): Option<int>
    requires Valid(sch)
  {
    if Latest(sch, base, now) == base then None else Some(Latest(sch, base, now))
  }

  // ------------------------------------------------------- fire times, without the code's functions

  /** The instant `t` is a fire time of the schedule after `base`. */
  ghost predicate FireTime(sch: Schedule, base: int, t: int) {
    match sch
    case Manually => false
    case CronExpr(next) => next.Some? && base < t && Fires(next.value, t)
    case Interval(expr) => expr.Some? && exists n: nat, k: nat :: IntervalFire(expr.value, base, t, n, k)
  }

  /** Every n seconds, `k` times. */
  ghost predicate IntervalFire(expr: string, base: int, t: int, n: nat, k: nat) {
    Denotes(expr, n) && n > 0 && k > 0 && t == base + 1_000_000 * n * k
  }

  /** The latest fire time in (base, now]. */
  ghost predicate LatestFire(sch: Schedule, base: int, now: int, t: int) {
    FireTime(sch, base, t) && t <= now && forall u :: FireTime(sch, base, u) && u <= now ==> u <= t
  }

  /** `due_tick` */
  method DueTick(sch: Schedule, base: int, now: int) returns (due: Option<int>)
    requires Valid(sch)
    ensures due == DueSpec(sch, base, now)
    ensures match due
            case Some(t) => LatestFire(sch, base, now, t)
            case None => forall u :: FireTime(sch, base, u) ==> u > now
  {
    DueIsLatestFire(sch, base, now);
    NextIsLater(sch, base);
    due := NextRunTime(sch, base);
    if due.None? || due.value > now { return None; }
    while true
      invariant due.Some? && base < due.value <= now
      invariant Latest(sch, due.value, now) == Latest(sch, base, now)
      decreases now - due.value
    {
      NextIsLater(sch, due.value);
      var nxt := NextRunTime(sch, due.value);
      if nxt.None? || nxt.value > now { return; }
      due := nxt;
    }
  }

  // ------------------------------------------------------- what the loop finds

  /** Orbits are increasing. */
  lemma {:induction false} OrbitIncreases(sch: Schedule, base: int, i: nat, k: nat)
    requires Valid(sch) && i < k && Orbit(sch, base, k).Some?
    ensures Orbit(sch, base, i).Some? && Orbit(sch, base, i).value < Orbit(sch, base, k).value
    decreases k
  {
    assert Orbit(sch, base, k - 1).Some?;
    NextIsLater(sch, Orbit(sch, base, k - 1).value);
    if i < k - 1 { OrbitIncreases(sch, base, i, k - 1); }
  }

  lemma {:induction false} OrbitShift(sch: Schedule, base: int, k: nat)
    requires NextRunTime(sch, base).Some?
    ensures Orbit(sch, NextRunTime(sch, base).value, k) == Orbit(sch, base, k + 1)
  {
    if k > 0 { OrbitShift(sch, base, k - 1); }
  }

  /** `Latest` is a point of the orbit. */
  lemma {:induction false} LatestOnOrbit(sch: Schedule, base: int, now: int) returns (k: nat)
    requires Valid(sch)
    ensures Orbit(sch, base, k) == Some(Latest(sch, base, now))
    decreases now - base
  {
    NextIsLater(sch, base);
    var next := NextRunTime(sch, base);
    if next.None? || next.value > now {
      k := 0;
    } else {
      k := LatestOnOrbit(sch, next.value, now);
      OrbitShift(sch, base, k);
      k := k + 1;
    }
  }

  /** No orbit point up to `now` is later. */
  lemma {:induction false} LatestIsLast(sch: Schedule, base: int, now: int, k: nat)
    requires Valid(sch) && Orbit(sch, base, k).Some? && Orbit(sch, base, k).value <= now
    ensures Orbit(sch, base, k).value <= Latest(sch, base, now) <= now
    decreases k
  {
    NextIsLater(sch, base);
    var next := NextRunTime(sch, base);
    if k > 0 {
      OrbitIncreases(sch, base, 0, k);
      if k > 1 { OrbitIncreases(sch, base, 1, k); }
      assert Orbit(sch, base, 1) == next;
      OrbitShift(sch, base, k - 1);
      LatestIsLast(sch, next.value, now, k - 1);
    } else {
      LatestWithinNow(sch, base, now);
    }
  }

  /**
   `due_tick` returns the greatest fire time in (base, now], and None exactly if there is none:
   missed ticks collapse to the latest.
   */
  lemma {:induction false} DueIsLatest(sch: Schedule, base: int, now: int)
    requires Valid(sch)
    ensures match DueSpec(sch, base, now)
            case None => forall k: nat :: k > 0 && Orbit(sch, base, k).Some? ==> Orbit(sch, base, k).value > now
            case Some(t) =>
              && base < t <= now && OnOrbit(sch, base, t)
              && forall k: nat :: Orbit(sch, base, k).Some? && Orbit(sch, base, k).value <= now ==>
                    Orbit(sch, base, k).value <= t
  {
    var i := LatestOnOrbit(sch, base, now);
    forall k: nat | k > 0 && Orbit(sch, base, k).Some? && Orbit(sch, base, k).value <= now
      ensures base < Orbit(sch, base, k).value <= Latest(sch, base, now) <= now
    {
      OrbitIncreases(sch, base, 0, k);
      LatestIsLast(sch, base, now, k);
    }
    if Latest(sch, base, now) != base { LatestWithinNow(sch, base, now); }
  }

  lemma {:induction false} LatestWithinNow(sch: Schedule, base: int, now: int)
    requires Valid(sch)
    ensures Latest(sch, base, now) == base || Latest(sch, base, now) <= now
    decreases now - base
  {
    NextIsLater(sch, base);
    var next := NextRunTime(sch, base);
    if next.Some? && next.value <= now { LatestWithinNow(sch, next.value, now); }
  }

  /** An interval's orbit: whole steps, the last of them less than a step before `now`. */
  lemma {:induction false} IntervalSteps(sch: Schedule, base: int, now: int, step: int) returns (q: nat)
    requires sch.Interval? && NextRunTime(sch, base) == Some(base + step) && step > 0 && base <= now
    ensures Latest(sch, base, now) == base + step * q <= now < base + step * q + step
    decreases now - base
  {
    if base + step <= now {
      q := IntervalSteps(sch, base + step, now, step);
      assert step * (q + 1) == step * q + step;
      q := q + 1;
    } else {
      q := 0;
    }
  }

  lemma WholeSteps(step: int, e: int)
    requires step > 0
    ensures e >= 1 ==> step * e >= step
    ensures e <= -1 ==> step * e <= -step
  {}

  lemma DivideUnique(d: int, step: int, q: int)
    requires step > 0 && step * q <= d < step * q + step
    ensures d / step == q
  {
    var e := d / step - q;
    assert step * (d / step) == step * q + step * e;
    WholeSteps(step, e);
  }

  lemma {:induction false} IntervalByStep(sch: Schedule, base: int, now: int, step: int)
    requires sch.Interval? && NextRunTime(sch, base) == Some(base + step) && step > 0
    ensures var q := (now - base) / step; DueSpec(sch, base, now) == if q <= 0 then None else Some(base + step * q)
  {
    if base <= now {
      var q := IntervalSteps(sch, base, now, step);
      DivideUnique(now - base, step, q);
      WholeSteps(step, q);
    } else {
      NegativeQuotient(now - base, step);
    }
  }

  /** Intervals in closed form: base + s * floor((now - base) / s), or None unless that quotient is positive. */
  lemma IntervalLatest(expr: string, n: nat, base: int, now: int)
    requires Denotes(expr, n) && n > 0
    ensures var step := 1_000_000 * n; var q := (now - base) / step;
            DueSpec(Interval(Some(expr)), base, now) == if q <= 0 then None else Some(base + step * q)
  {
    ParseIntExact(expr, n);
    IntervalByStep(Interval(Some(expr)), base, now, 1_000_000 * n);
  }

  lemma NegativeQuotient(d: int, step: int)
    requires step > 0 && d < 0
    ensures d / step < 0
  {}

  /** For cron the result is the greatest fire time in (base, now]. */
  lemma {:induction false} CronLatest(next: int -> int, base: int, now: int)
    requires LeastAfter(next)
    ensures var t := Latest(CronExpr(Some(next)), base, now);
            && (t != base ==> Fires(next, t) && t <= now)
            && (forall u :: base < u <= now && Fires(next, u) ==> u <= t)
    decreases now - base
  {
    NextIsLeastFire(next, base);
    assert next(base) > base;
    if next(base) <= now { CronLatest(next, next(base), now); }
  }

  // ------------------------------------------------------- the result is the latest fire time

  lemma CronDue(next: int -> int, base: int, now: int)
    requires LeastAfter(next)
    ensures match DueSpec(CronExpr(Some(next)), base, now)
            case Some(t) => LatestFire(CronExpr(Some(next)), base, now, t)
            case None => forall u :: FireTime(CronExpr(Some(next)), base, u) ==> u > now
  {
    CronLatest(next, base, now);
  }

  lemma QuotientBound(d: int, step: int, k: int)
    requires step > 0 && step * k <= d
    ensures k <= d / step
  {
    var q := d / step;
    assert step * q <= d < step * q + step;
    assert step * (k - q) == step * k - step * q;
    WholeSteps(step, k - q);
  }

  lemma IntervalDue(expr: string, n: nat, base: int, now: int)
    requires Denotes(expr, n) && n > 0
    ensures match DueSpec(Interval(Some(expr)), base, now)
            case Some(t) => LatestFire(Interval(Some(expr)), base, now, t)
            case None => forall u :: FireTime(Interval(Some(expr)), base, u) ==> u > now
  {
    IntervalLatest(expr, n, base, now);
    var step := 1_000_000 * n;
    var q := (now - base) / step;
    forall u | FireTime(Interval(Some(expr)), base, u) && u <= now ensures q > 0 && u <= base + step * q {
      var m: nat, k: nat :| IntervalFire(expr, base, u, m, k);
      ParseIntExact(expr, n);
      ParseIntExact(expr, m);
      QuotientBound(now - base, step, k);
      Multiples(step, k, q);
    }
    if q > 0 {
      QuotientFits(now - base, step);
      assert IntervalFire(expr, base, base + step * q, n, q);
    }
  }

  lemma Multiples(step: int, k: int, q: int)
    requires step > 0 && k <= q
    ensures step * k <= step * q
  {
    assert step * q - step * k == step * (q - k);
  }

  lemma QuotientFits(d: int, step: int)
    requires step > 0
    ensures step * (d / step) <= d
  {}

  /**
   `due_tick` finds the latest fire time in (base, now], where a cron expression fires at its
   fire times and an interval of n seconds at every n-th second after the anchor; None exactly
   if there is none.
   */
  lemma DueIsLatestFire(sch: Schedule, base: int, now: int)
    requires Valid(sch)
    ensures match DueSpec(sch, base, now)
            case Some(t) => LatestFire(sch, base, now, t)
            case None => forall u :: FireTime(sch, base, u) ==> u > now
  {
    match sch
    case Manually =>
    case CronExpr(next) => if next.Some? { CronDue(next.value, base, now); }
    case Interval(expr) =>
      if expr.Some? && IsDigits(expr.value) && ParseInt(expr.value) > 0 {
        ParseIntExact(expr.value, ParseInt(expr.value));
        IntervalDue(expr.value, ParseInt(expr.value), base, now);
      } else if expr.Some? {
        forall n: nat ensures !(Denotes(expr.value, n) && n > 0) { ParseIntExact(expr.value, n); }
      }
  }

  // ------------------------------------------------------- polls in any order

  /** Restarting from a later orbit point changes nothing. */
  lemma {:induction false} LatestRestart(sch: Schedule, base: int, early: int, now: int)
    requires Valid(sch) && early <= now
    ensures Latest(sch, Latest(sch, base, early), now) == Latest(sch, base, now)
    decreases early - base
  {
    NextIsLater(sch, base);
    var next := NextRunTime(sch, base);
    if next.Some? && next.value <= early { LatestRestart(sch, next.value, early, now); }
  }

  /** An earlier clock finds nothing new. */
  lemma {:induction false} LatestStays(sch: Schedule, base: int, late: int, now: int)
    requires Valid(sch) && now <= late
    ensures Latest(sch, Latest(sch, base, late), now) == Latest(sch, base, late)
    decreases late - base
  {
    NextIsLater(sch, base);
    var next := NextRunTime(sch, base);
    if next.Some? && next.value <= late { LatestStays(sch, next.value, late, now); }
  }

  /** From any orbit point a poll reaches the later of that point and the latest due one. */
  lemma {:induction false} LatestFromOrbit(sch: Schedule, created: int, k: nat, now: int)
    requires Valid(sch) && Orbit(sch, created, k).Some?
    ensures Latest(sch, Orbit(sch, created, k).value, now)
         == Max(Orbit(sch, created, k).value, Latest(sch, created, now))
    decreases k
  {
    if k > 0 {
      OrbitIncreases(sch, created, 0, k);
      if k > 1 { OrbitIncreases(sch, created, 1, k); }
      assert Orbit(sch, created, 1) == NextRunTime(sch, created);
      OrbitShift(sch, created, k - 1);
      LatestFromOrbit(sch, NextRunTime(sch, created).value, k - 1, now);
    }
  }
}
