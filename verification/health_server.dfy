/**
 * `_format_uptime` of the health server (src/api/health_server.py): an
 * uptime in seconds as `"<d>d <h>h <m>m <s>s"`, leaving out leading units
 * that are zero. Python's `//` and `%` on floats floor, so the units are
 * computed with `Floor` on the real-valued uptime.
 */
module HealthServer {
  import opened Strings

  const SecondsPerDay: int := 86400
  const SecondsPerHour: int := 3600
  const SecondsPerMinute: int := 60

  /** Python's `x // d` on a float, as an integer. */
  function FloorDiv(x: real, d: int): int
    requires d > 0
  {
    (x / d as real).Floor
  }

  /** Python's `x % d` on a float: the remainder takes the sign of the divisor. */
  function FloorMod(x: real, d: int): (r: real)
    requires d > 0
    ensures 0.0 <= r < d as real
    ensures x == (FloorDiv(x, d) * d) as real + r
  {
    var q := FloorDiv(x, d);
    var y := x / d as real;
    assert q as real <= y < (q + 1) as real;
    assert x == y * d as real;
    ScaleBounds(q as real, y, (q + 1) as real, d as real);
    assert (q * d) as real == q as real * d as real;
    assert ((q + 1) * d) as real == (q + 1) as real * d as real;
    x - (q * d) as real
  }

  lemma ScaleBounds(lo: real, y: real, hi: real, k: real)
    requires lo <= y < hi && k > 0.0
    ensures lo * k <= y * k < hi * k
  {
  }

  lemma DivideBounds(lo: real, x: real, hi: real, k: real)
    requires k > 0.0 && lo * k <= x < hi * k
    ensures lo <= x / k < hi
  {
  }

  datatype Uptime = Uptime(days: int, hours: int, minutes: int, secs: int)

  /** The four units exactly as the source computes them. */
  function Units(seconds: real): (u: Uptime)
    ensures 0 <= u.hours < 24 && 0 <= u.minutes < 60 && 0 <= u.secs < 60
  {
    var hours := FloorDiv(FloorMod(seconds, SecondsPerDay), SecondsPerHour);
    var minutes := FloorDiv(FloorMod(seconds, SecondsPerHour), SecondsPerMinute);
    assert hours < 24 by {
      assert FloorMod(seconds, SecondsPerDay) / 3600.0 < 24.0;
    }
    assert minutes < 60 by {
      assert FloorMod(seconds, SecondsPerHour) / 60.0 < 60.0;
    }
    Uptime(FloorDiv(seconds, SecondsPerDay), hours, minutes, FloorMod(seconds, SecondsPerMinute).Floor)
  }

  lemma FloorDivOfFloor(x: real, d: int)
    requires d > 0
    ensures FloorDiv(x, d) == x.Floor / d
    ensures FloorMod(x, d).Floor == x.Floor % d
  {
    var w := x.Floor;
    var q := w / d;
    var r := w % d;
    assert w == q * d + r && 0 <= r < d;
    assert (q * d) as real <= x < (q * d + d) as real;
    assert (q * d) as real == q as real * d as real;
    assert (q * d + d) as real == (q + 1) as real * d as real;
    DivideBounds(q as real, x, (q + 1) as real, d as real);
    assert FloorDiv(x, d) == q;
    assert FloorMod(x, d) == x - (q * d) as real;
    assert (r as real) <= FloorMod(x, d) < (r + 1) as real;
  }

  /** The units are the days, hours, minutes and seconds of the whole seconds elapsed. */
  lemma UnitsDecompose(seconds: real)
    ensures var u := Units(seconds);
            var whole := seconds.Floor;
            && u.days == whole / SecondsPerDay
            && u.hours == (whole % SecondsPerDay) / SecondsPerHour
            && u.minutes == (whole % SecondsPerHour) / SecondsPerMinute
            && u.secs == whole % SecondsPerMinute
            && u.days * SecondsPerDay + u.hours * SecondsPerHour + u.minutes * SecondsPerMinute + u.secs == whole
  {
    var whole := seconds.Floor;
    FloorDivOfFloor(seconds, SecondsPerDay);
    FloorDivOfFloor(seconds, SecondsPerHour);
    FloorDivOfFloor(seconds, SecondsPerMinute);
    var md := FloorMod(seconds, SecondsPerDay);
    var mh := FloorMod(seconds, SecondsPerHour);
    FloorDivOfFloor(md, SecondsPerHour);
    FloorDivOfFloor(mh, SecondsPerMinute);
    assert md.Floor == whole % SecondsPerDay;
    assert mh.Floor == whole % SecondsPerHour;
    ClockArithmetic(whole);
  }

  lemma ClockArithmetic(w: int)
    ensures (w / 86400) * 86400 + ((w % 86400) / 3600) * 3600 + ((w % 3600) / 60) * 60 + w % 60 == w
  {
    var d := w / 86400;
    var r := w % 86400;
    var h := r / 3600;
    assert w % 3600 == r % 3600 by {
      assert w == (d * 24) * 3600 + r;
    }
    var r2 := r % 3600;
    assert r == h * 3600 + r2;
    assert w % 60 == r2 % 60 by {
      assert w == (d * 1440 + h * 60) * 60 + r2;
    }
  }

  /** One emitted part: a count and its unit letter. */
  datatype Part = Part(count: int, unit: char)

  /** The parts emitted for given units: days, hours and minutes only when positive; seconds always. */
  function PartsOf(u: Uptime): (ps: seq<Part>)
    ensures 1 <= |ps| <= 4 && ps[|ps| - 1] == Part(u.secs, 's')
    ensures forall i :: 0 <= i < |ps| - 1 ==> ps[i].count > 0 && ps[i].unit in "dhm"
    ensures forall i, j :: 0 <= i < j < |ps| ==> UnitSeconds(ps[i].unit) > UnitSeconds(ps[j].unit)
  {
    (if u.days > 0 then [Part(u.days, 'd')] else [])
    + (if u.hours > 0 then [Part(u.hours, 'h')] else [])
    + (if u.minutes > 0 then [Part(u.minutes, 'm')] else [])
    + [Part(u.secs, 's')]
  }

  function UptimeParts(seconds: real): seq<Part> {
    PartsOf(Units(seconds))
  }

  function UnitSeconds(unit: char): int {
    match unit
    case 'd' => SecondsPerDay
    case 'h' => SecondsPerHour
    case 'm' => SecondsPerMinute
    case _ => 1
  }

  /** What the parts add up to. */
  function PartsTotal(ps: seq<Part>): int {
    if |ps| == 0 then 0 else ps[0].count * UnitSeconds(ps[0].unit) + PartsTotal(ps[1..])
  }

  /** Leaving out units that are zero loses nothing. */
  lemma PartsOfTotal(u: Uptime)
    requires u.days >= 0 && u.hours >= 0 && u.minutes >= 0
    ensures PartsTotal(PartsOf(u)) == u.days * SecondsPerDay + u.hours * SecondsPerHour + u.minutes * SecondsPerMinute + u.secs
  {
    var a := OptionalPart(u.days, 'd');
    var b := OptionalPart(u.hours, 'h');
    var c := OptionalPart(u.minutes, 'm');
    var s := [Part(u.secs, 's')];
    assert PartsOf(u) == a + (b + (c + s));
    PartsTotalSingle(Part(u.secs, 's'));
    PartsTotalAppend(c, s);
    PartsTotalAppend(b, c + s);
    PartsTotalAppend(a, b + (c + s));
  }

  /** The part for a unit that is emitted only when positive. */
  function OptionalPart(n: int, unit: char): (ps: seq<Part>)
    requires n >= 0
    ensures PartsTotal(ps) == n * UnitSeconds(unit)
  {
    if n > 0 then PartsTotalSingle(Part(n, unit)); [Part(n, unit)] else []
  }

  lemma PartsTotalSingle(p: Part)
    ensures PartsTotal([p]) == p.count * UnitSeconds(p.unit)
  {
    assert [p][1..] == [];
  }

  /** The parts add up to the whole seconds elapsed. */
  lemma PartsAddUp(seconds: real)
    requires seconds >= 0.0
    ensures PartsTotal(UptimeParts(seconds)) == seconds.Floor
  {
    UnitsDecompose(seconds);
    PartsOfTotal(Units(seconds));
  }

  lemma {:induction false} PartsTotalAppend(a: seq<Part>, b: seq<Part>)
    ensures PartsTotal(a + b) == PartsTotal(a) + PartsTotal(b)
    decreases |a|
  {
    if |a| == 0 {
      assert a + b == b;
    } else {
      assert (a + b)[1..] == a[1..] + b;
      PartsTotalAppend(a[1..], b);
    }
  }

  /** An integer as Python prints it. */
  function IntToString(n: int): string {
    if n < 0 then "-" + NatToString(-n) else NatToString(n)
  }

  function RenderPart(p: Part): string {
    IntToString(p.count) + [p.unit]
  }

  /** `_format_uptime`: the parts joined by single spaces. */
  function FormatUptime(seconds: real): (s: string)
    ensures EndsWith(s, RenderPart(Part(Units(seconds).secs, 's')))
  {
    var ps := UptimeParts(seconds);
    var rendered := seq(|ps|, i requires 0 <= i < |ps| => RenderPart(ps[i]));
    JoinEndsWithLast(rendered, ' ');
    Join(rendered, ' ')
  }

  /** A day and a second: the hour and minute parts are left out. */
  lemma DayAndASecond()
    ensures UptimeParts(86401.5) == [Part(1, 'd'), Part(1, 's')]
  {
    UnitsDecompose(86401.5);
    assert (86401.5).Floor == 86401;
  }
}
