/** `getTimeAgo`: elapsed time as days, hours, minutes and seconds. */
module Elapsed {
  import opened Text

  /** `~~(a / b)` for a positive divisor: division truncated toward zero,
      so what is left over has the sign of `a` and is smaller than `b`. */
  function TDiv(a: int, b: int): (r: int)
    requires b > 0
    ensures a >= 0 ==> 0 <= a - r * b < b
    ensures a < 0 ==> -b < a - r * b <= 0
  {
    if a >= 0 then a / b else -((-a) / b)
  }

  /** `a % b` for a positive divisor: the remainder takes the sign of `a`. */
  function TMod(a: int, b: int): (r: int)
    requires b > 0
    ensures a == b * TDiv(a, b) + r
    ensures a >= 0 ==> 0 <= r < b
    ensures a < 0 ==> -b < r <= 0
  {
    a - b * TDiv(a, b)
  }

  /** The parts of an elapsed time; a part the code never reaches is 0. */
  datatype Span = Span(days: int, hours: int, minutes: int, seconds: int)

  /** The breakdown as the code does it: the seconds of `t`, then, while
      the rest is large enough, minutes, hours and days. */
  function Steps(t: int): (r: Span)
    ensures -60 < r.seconds < 60 && 0 <= r.minutes < 60 && 0 <= r.hours < 24
    ensures t < 60 ==> r.days == 0 && r.hours == 0 && r.minutes == 0
  {
    var seconds := TMod(t, 60);
    if t < 60 then Span(0, 0, 0, seconds)
    else
      var t1 := (t - seconds) / 60;
      var minutes := t1 % 60;
      if t1 < 60 then Span(0, 0, minutes, seconds)
      else
        var t2 := (t1 - minutes) / 60;
        var hours := t2 % 24;
        if t2 < 24 then Span(0, hours, minutes, seconds)
        else Span((t2 - hours) / 24, hours, minutes, seconds)
  }

  /** The breakdown of a non-negative number of seconds by plain division. */
  function Breakdown(t: nat): Span {
    Span(t / 86400, (t / 3600) % 24, (t / 60) % 60, t % 60)
  }

  /** For a non-negative time the steps give the plain breakdown: each part
      is below its unit's range and together they add back up to `t`. */
  lemma StepsAreBreakdown(t: nat)
    ensures Steps(t) == Breakdown(t)
    ensures var b := Breakdown(t);
      && 0 <= b.seconds < 60 && 0 <= b.minutes < 60 && 0 <= b.hours < 24 && b.days >= 0
      && b.days * 86400 + b.hours * 3600 + b.minutes * 60 + b.seconds == t
  {
    var t1 := t / 60;
    assert (t - t % 60) / 60 == t1;
    var t2 := t1 / 60;
    assert t2 == t / 3600;
    assert (t1 - t1 % 60) / 60 == t2;
    assert t2 / 24 == t / 86400;
    assert (t2 - t2 % 24) / 24 == t2 / 24;
    if t1 < 60 {
      assert t2 == 0;
    }
    if t2 < 24 {
      assert t / 86400 == 0;
    }
  }

  /** A time before `now`'s clock reading only ever shows seconds, counted
      toward zero. */
  lemma NegativeShowsSeconds(t: int)
    requires t < 0
    ensures Steps(t) == Span(0, 0, 0, TMod(t, 60))
  {
  }

  /** `n + ' unit'` or `n + ' units'`. */
  function Label(n: int, unit: string): string {
    IntToString(n) + (if n == 1 then " " + unit else " " + unit + "s")
  }

  /** The label of a part, when the part is not zero. */
  function Part(n: int, unit: string): (r: seq<string>)
    ensures |r| <= 1
    ensures r != [] <==> n != 0
  {
    if n != 0 then [Label(n, unit)] else []
  }

  /** The non-zero parts, largest unit first. */
  function Parts(sp: Span): seq<string> {
    Part(sp.days, "day") + Part(sp.hours, "hour") + Part(sp.minutes, "minute") + Part(sp.seconds, "second")
  }

  /** `getTimeAgo(time)` with the clock reading `now`, both in
      milliseconds. */
  function TimeAgo(now: int, time: int): (r: string)
    ensures r != ""
  {
    var parts := Parts(Steps(TDiv(now - time, 1000)));
    if parts == [] then "0 seconds"
    else
      JoinStartsWithFirst(parts, ", ");
      Join(parts, ", ")
  }

  /** A join of parts whose first part is not empty is not empty. */
  lemma JoinStartsWithFirst(parts: seq<string>, sep: string)
    requires parts != [] && parts[0] != ""
    ensures Join(parts, sep) != ""
  {
  }

  /** Less than a second, in either direction, reads as "0 seconds". */
  lemma UnderASecond(now: int, time: int)
    requires -1000 < now - time < 1000
    ensures TimeAgo(now, time) == "0 seconds"
  {
    assert TDiv(now - time, 1000) == 0;
  }

  /** From one second on, the text lists the non-zero parts of the plain
      breakdown of the whole seconds elapsed, largest first, and at least
      one part is shown. */
  lemma TimeAgoIsBreakdown(now: int, time: int)
    requires now - time >= 1000
    ensures var t := (now - time) / 1000;
      && Parts(Breakdown(t)) != []
      && TimeAgo(now, time) == Join(Parts(Breakdown(t)), ", ")
  {
    var t := (now - time) / 1000;
    StepsAreBreakdown(t);
    var b := Breakdown(t);
    assert b.days != 0 || b.hours != 0 || b.minutes != 0 || b.seconds != 0;
  }

  /** Whole minutes show no seconds part. */
  lemma WholeMinutes(now: int, time: int, m: nat)
    requires 1 <= m < 60 && now - time == m * 60000
    ensures TimeAgo(now, time) == Label(m, "minute")
  {
    var t := TDiv(now - time, 1000);
    assert t == m * 60;
    StepsAreBreakdown(t);
    assert Steps(t) == Span(0, 0, m, 0);
    assert Parts(Steps(t)) == [Label(m, "minute")];
  }
}
