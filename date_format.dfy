/** `formatTimeAgo` (utils/date-formatter.ts): elapsed time as coarse
    buckets. The clock is the parameter `now` and `formatDate`, which
    depends on the locale and time zone, is the parameter `formatDate`. */
module DateFormat {
  import opened JsText

  /** `${n} ${n === 1 ? unit : unit + 's'} ago`. */
  function AgoText(n: int, unit: string): string {
    IntToString(n) + " " + (if n == 1 then unit else unit + "s") + " ago"
  }

  /** The text is `just now` under a minute (a future timestamp included),
      the calendar date from a week on, and `… ago` in between. */
  function FormatTimeAgo(timestamp: int, now: int, formatDate: int -> string): (r: string)
    ensures now - timestamp < 60000 ==> r == "just now"
    ensures now - timestamp >= 604800000 ==> r == formatDate(timestamp)
    ensures 60000 <= now - timestamp < 604800000 ==> |r| > 4 && r[|r| - 4..] == " ago"
  {
    var seconds := (now - timestamp) / 1000;
    if seconds < 60 then "just now"
    else
      var minutes := seconds / 60;
      if minutes < 60 then AgoText(minutes, "minute")
      else
        var hours := minutes / 60;
        if hours < 24 then AgoText(hours, "hour")
        else
          var days := hours / 24;
          if days < 7 then AgoText(days, "day")
          else formatDate(timestamp)
  }

  /** Floor division is determined by its quotient-remainder equation. */
  lemma DivUnique(a: int, b: int, q: int, r: int)
    requires b > 0 && a == b * q + r && 0 <= r < b
    ensures a / b == q
  {
    var q' := a / b;
    var r' := a % b;
    assert b * (q - q') == r' - r;
    var k := q - q';
    if k >= 1 {
      MulAtLeast(b, k);
    } else if k <= -1 {
      MulAtLeast(b, -k);
    }
  }

  lemma MulAtLeast(b: int, k: int)
    requires b > 0 && k >= 1
    ensures b * k >= b
  {
  }

  /** Flooring twice is flooring once by the product. */
  lemma FloorTwice(a: int, b: int, c: int)
    requires b > 0 && c > 0
    ensures (a / b) / c == a / (b * c)
  {
    var q1 := a / b;
    var r1 := a % b;
    var q2 := q1 / c;
    var r2 := q1 % c;
    assert a == b * q1 + r1 && 0 <= r1 < b;
    assert q1 == c * q2 + r2 && 0 <= r2 < c;
    assert b * q1 == b * (c * q2) + b * r2;
    assert b * (c * q2) == (b * c) * q2;
    MulNonneg(b, r2);
    MulNonneg(b, c - 1 - r2);
    assert b * (c - 1 - r2) == b * c - b - b * r2;
    DivUnique(a, b * c, q2, b * r2 + r1);
  }

  lemma MulNonneg(a: int, b: int)
    requires a >= 0 && b >= 0
    ensures a * b >= 0
  {
  }

  /** The buckets in milliseconds: under a minute (a future timestamp
      included), whole minutes under an hour, whole hours under a day,
      whole days under a week, and the calendar date beyond. */
  lemma TimeAgoBuckets(timestamp: int, now: int, formatDate: int -> string)
    ensures var e := now - timestamp;
            var r := FormatTimeAgo(timestamp, now, formatDate);
            && (e < 60000 ==> r == "just now")
            && (60000 <= e < 3600000 ==> r == AgoText(e / 60000, "minute") && 1 <= e / 60000 < 60)
            && (3600000 <= e < 86400000 ==> r == AgoText(e / 3600000, "hour") && 1 <= e / 3600000 < 24)
            && (86400000 <= e < 604800000 ==> r == AgoText(e / 86400000, "day") && 1 <= e / 86400000 < 7)
            && (604800000 <= e ==> r == formatDate(timestamp))
  {
    var e := now - timestamp;
    FloorTwice(e, 1000, 60);
    FloorTwice(e, 60000, 60);
    FloorTwice(e, 3600000, 24);
    FloorTwice(e / 1000, 60, 60);
    FloorTwice(e / 1000 / 60, 60, 24);
    assert e / 1000 / 60 / 60 == e / 3600000;
    assert e / 1000 / 60 / 60 / 24 == e / 86400000;
    if e < 60000 {
      assert e / 1000 < 60 by { DivUnique(59999, 1000, 59, 999); DivMonotone(e, 59999, 1000); }
    }
    if 60000 <= e {
      DivMonotone(60000, e, 1000);
      assert 60000 / 1000 == 60;
      DivMonotone(60000, e, 60000);
    }
    if e < 3600000 { DivMonotone(e, 3599999, 60000); }
    if 3600000 <= e { DivMonotone(3600000, e, 3600000); DivMonotone(3600000, e, 60000); }
    if e < 86400000 { DivMonotone(e, 86399999, 3600000); }
    if 86400000 <= e { DivMonotone(86400000, e, 86400000); DivMonotone(86400000, e, 3600000); }
    if e < 604800000 { DivMonotone(e, 604799999, 86400000); }
    if 604800000 <= e { DivMonotone(604800000, e, 86400000); }
  }

  lemma DivMonotone(a: int, b: int, d: int)
    requires a <= b && d > 0
    ensures a / d <= b / d
  {
    var k := a / d - b / d;
    assert d * k == (a - a % d) - (b - b % d);
    if k >= 1 {
      MulAtLeast(d, k);
    }
  }
}
