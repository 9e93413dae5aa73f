/**
 * `Player.prototype.getTime`: turns a number of seconds into the minutes and
 * seconds shown as "mm:ss" in the player's current-time and duration labels.
 *
 * JavaScript numbers are modelled as `real`, so `Math.floor`, `Math.ceil` and
 * `%` are exact. Each component is kept as its numeric value plus whether a
 * "0" was written in front of it; `Text` renders it as the template string
 * does.
 */
module TimeFormat {

  /** `Math.floor` */
  function Floor(x: real): (r: int)
    ensures r as real <= x < r as real + 1.0
  {
    x.Floor
  }

  /** `Math.ceil` */
  function Ceil(x: real): (r: int)
    ensures r as real - 1.0 < x <= r as real
  {
    -((-x).Floor)
  }

  /** `x % 60` in JavaScript: the quotient is truncated toward zero, so the
      remainder has the sign of `x`. */
  function Rem60(x: real): (r: real)
    ensures x >= 0.0 ==> 0.0 <= r < 60.0 && r == x - 60.0 * Floor(x / 60.0) as real
    ensures x < 0.0 ==> -60.0 < r <= 0.0
  {
    var q := if x >= 0.0 then Floor(x / 60.0) else -Floor(-x / 60.0);
    x - 60.0 * q as real
  }

  function Digit(d: int): (c: char)
    requires 0 <= d <= 9
    ensures '0' <= c <= '9'
  {
    "0123456789"[d]
  }

  function DigitValue(c: char): (d: nat)
    ensures d <= 9
  {
    if '0' <= c <= '9' then c as int - '0' as int else 0
  }

  /** The decimal digits of a non-negative integer, as JavaScript prints it. */
  function Natural(n: nat): (s: string)
    ensures |s| >= 1
    ensures n <= 9 <==> |s| == 1
    ensures 10 <= n <= 99 <==> |s| == 2
  {
    if n < 10 then [Digit(n)] else Natural(n / 10) + [Digit(n % 10)]
  }

  /** An integer as JavaScript prints it: a minus sign, then the digits. */
  function Decimal(n: int): string
  {
    if n < 0 then "-" + Natural(-n) else Natural(n)
  }

  /** Reads a string of decimal digits back as a number (leading zeros allowed). */
  function ParseNatural(s: string): nat
  {
    if s == [] then 0 else ParseNatural(s[..|s| - 1]) * 10 + DigitValue(s[|s| - 1])
  }

  lemma {:induction false} ParseNaturalInverse(n: nat)
    ensures ParseNatural(Natural(n)) == n
  {
    if n >= 10 {
      var s := Natural(n);
      assert s[..|s| - 1] == Natural(n / 10);
      assert DigitValue(s[|s| - 1]) == n % 10;
      ParseNaturalInverse(n / 10);
    } else {
      assert DigitValue(Digit(n)) == n;
    }
  }

  lemma {:induction false} LeadingZero(s: string)
    ensures ParseNatural("0" + s) == ParseNatural(s)
  {
    if s == [] {
      assert "0" + s == "0";
      assert ("0" + s)[..0] == [];
    } else {
      var t := "0" + s;
      assert t[..|t| - 1] == "0" + s[..|s| - 1];
      assert t[|t| - 1] == s[|s| - 1];
      LeadingZero(s[..|s| - 1]);
    }
  }

  /** One component of the display: its value, and whether a "0" was put in
      front of it (`` `0${n}` ``). */
  datatype Part = Part(value: int, padded: bool)
  {
    function Text(): string
    {
      (if padded then "0" else "") + Decimal(value)
    }
  }

  /** `n <= 9 ? `0${n}` : n` */
  function Pad(n: int): Part
  {
    Part(n, n <= 9)
  }

  datatype Clock = Clock(minutes: Part, seconds: Part)
  {
    /** `${minutes}:${seconds}` */
    function Text(): string
    {
      minutes.Text() + ":" + seconds.Text()
    }
  }

  /** `getTime(value)`: whole minutes and seconds rounded up; a seconds count
      that rounds up to 60 is carried into the minutes. On a carry the padding
      test looks at the minutes from before the carry. */
  function GetTime(value: real): (t: Clock)
    ensures -59 <= t.seconds.value <= 59
    ensures t.seconds.padded <==> t.seconds.value <= 9
  {
    var m := Floor(value / 60.0);
    var s := Ceil(Rem60(value));
    if s >= 60 then Clock(Part(m + 1, m <= 9), Part(0, true))
    else Clock(Pad(m), Pad(s))
  }

  /** For a non-negative time the seconds are in 0..59 and minutes * 60 +
      seconds is the time rounded up to a whole second. */
  lemma GetTimeSplitsCeiling(value: real)
    requires value >= 0.0
    ensures var t := GetTime(value);
      0 <= t.seconds.value <= 59 && 0 <= t.minutes.value &&
      t.minutes.value * 60 + t.seconds.value == Ceil(value)
  {
  }

  /** The padding test runs on the minutes from before the carry: every
      minutes value up to 9 is padded, and so is the 10 that a carry out of
      9 minutes produces (shown as "010"). */
  lemma GetTimePadding(value: real)
    requires value >= 0.0
    ensures var t := GetTime(value);
      (t.minutes.value <= 9 ==> t.minutes.padded) &&
      (t.minutes.padded <==> t.minutes.value <= 9 || (t.minutes.value == 10 && 599.0 < value < 600.0))
  {
  }

  /** Concrete instance of the carry quirk: 599.5 seconds is shown as "010:00". */
  lemma GetTimeCarryQuirk()
    ensures GetTime(599.5).Text() == "010:00"
  {
  }

  /** The rendered text means what it should: the seconds label is always two
      digits, and reading both labels back as numbers gives the time rounded
      up to a whole second. */
  lemma {:induction false} GetTimeTextReadsBack(value: real)
    requires value >= 0.0
    ensures var t := GetTime(value);
      |t.seconds.Text()| == 2 &&
      ParseNatural(t.minutes.Text()) * 60 + ParseNatural(t.seconds.Text()) == Ceil(value)
  {
    var t := GetTime(value);
    GetTimeSplitsCeiling(value);
    PartReadsBack(t.minutes);
    PartReadsBack(t.seconds);
  }

  lemma {:induction false} PartReadsBack(p: Part)
    requires p.value >= 0
    ensures ParseNatural(p.Text()) == p.value
    ensures p.padded && p.value <= 9 ==> |p.Text()| == 2
    ensures !p.padded && 10 <= p.value <= 99 ==> |p.Text()| == 2
  {
    ParseNaturalInverse(p.value);
    if p.padded {
      LeadingZero(Natural(p.value));
    } else {
      assert p.Text() == Natural(p.value);
    }
  }
}
