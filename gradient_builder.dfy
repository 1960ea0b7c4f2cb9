/**
 * The custom gradient creator (src/components/GradientBuilder.tsx).
 *
 * The component keeps two colours and an angle and serialises them with one
 * template literal into a CSS `linear-gradient(...)` value.  The same value is
 * shown in the preview box and handed to the library's add handler.
 */
module GradientBuilder {
  import opened Options

  /** The builder's three pieces of state (GradientBuilder.tsx:11-13). */
  datatype Builder = Builder(color1: string, color2: string, angle: nat)

  /** Initial state: blue to violet at 45 degrees. */
  const Initial: Builder := Builder("#3b82f6", "#8b5cf6", 45)

  const Prefix: string := "linear-gradient("
  const AngleUnit: string := "deg, "
  const FirstStop: string := " 0%, "
  const LastStop: string := " 100%)"

  predicate IsDigit(c: char) { '0' <= c <= '9' }

  predicate AllDigits(s: string) { forall i :: 0 <= i < |s| ==> IsDigit(s[i]) }

  /** The value an `<input type="color">` reports: `#` and six lower-case hex digits. */
  predicate IsHexColor(c: string)
  {
    |c| == 7 && c[0] == '#' &&
    forall i :: 1 <= i < 7 ==> (IsDigit(c[i]) || 'a' <= c[i] <= 'f')
  }

  function DigitChar(d: nat): (c: char)
    requires d < 10
    ensures IsDigit(c) && c as int - '0' as int == d
  {
    ('0' as int + d) as char
  }

  function DigitValue(c: char): (d: nat)
    requires IsDigit(c)
    ensures d < 10
  {
    c as int - '0' as int
  }

  /** How JavaScript interpolates a non-negative integer into a template literal. */
  function Decimal(n: nat): (s: string)
    ensures |s| >= 1 && AllDigits(s)
    ensures s[0] == '0' ==> s == "0"
    decreases n
  {
    if n < 10 then [DigitChar(n)] else Decimal(n / 10) + [DigitChar(n % 10)]
  }

  /** Reads a run of decimal digits back as a number. */
  function DecimalValue(s: string): nat
    requires AllDigits(s)
    decreases |s|
  {
    if s == [] then 0 else DecimalValue(s[..|s| - 1]) * 10 + DigitValue(s[|s| - 1])
  }

  lemma {:induction false} DecimalRoundTrip(n: nat)
    ensures DecimalValue(Decimal(n)) == n
    decreases n
  {
    if n >= 10 {
      var s := Decimal(n);
      assert s[..|s| - 1] == Decimal(n / 10);
      DecimalRoundTrip(n / 10);
    }
  }

  /** `generateGradient` (GradientBuilder.tsx:15-17). */
  function Generate(b: Builder): (r: string)
    ensures |r| > |Prefix| + |LastStop| && r[..|Prefix|] == Prefix && r[|r| - |LastStop|..] == LastStop
  {
    Prefix + Decimal(b.angle) + AngleUnit + b.color1 + FirstStop + b.color2 + LastStop
  }

  /** Where the first colour starts inside `Generate(b)`. */
  function Color1Start(b: Builder): nat
  {
    |Prefix| + |Decimal(b.angle)| + |AngleUnit|
  }

  /** Where the second colour starts inside `Generate(b)`. */
  function Color2Start(b: Builder): nat
  {
    Color1Start(b) + |b.color1| + |FirstStop|
  }

  /** The output always opens with `linear-gradient(`, closes with ` 100%)`,
      and carries the first colour before the second. */
  lemma Shape(b: Builder)
    ensures var r := Generate(b);
      |r| == Color2Start(b) + |b.color2| + |LastStop| &&
      r[..|Prefix|] == Prefix &&
      r[|r| - |LastStop|..] == LastStop &&
      r[|Prefix|..|Prefix| + |Decimal(b.angle)|] == Decimal(b.angle) &&
      r[Color1Start(b)..Color1Start(b) + |b.color1|] == b.color1 &&
      Color1Start(b) + |b.color1| < Color2Start(b) &&
      r[Color2Start(b)..Color2Start(b) + |b.color2|] == b.color2
  {
  }

  /** With the initial state the preview reads
      `linear-gradient(45deg, #3b82f6 0%, #8b5cf6 100%)`. */
  lemma InitialGradient()
    ensures Generate(Initial) == "linear-gradient(45deg, #3b82f6 0%, #8b5cf6 100%)"
  {
    assert Decimal(45) == Decimal(4) + ['5'];
    assert Decimal(45) == "45";
    assert Generate(Initial) == Prefix + "45" + AngleUnit + "#3b82f6" + FirstStop + "#8b5cf6" + LastStop;
  }

  /** Length of the longest all-digit prefix of `s`. */
  function DigitRun(s: string): (k: nat)
    ensures k <= |s| && AllDigits(s[..k])
    ensures k < |s| ==> !IsDigit(s[k])
  {
    if s == [] || !IsDigit(s[0]) then 0
    else
      var k := 1 + DigitRun(s[1..]);
      assert s[..k] == [s[0]] + s[1..][..k - 1];
      k
  }

  lemma {:induction false} DigitRunOfDigits(d: string, t: string)
    requires AllDigits(d)
    requires t != [] && !IsDigit(t[0])
    ensures DigitRun(d + t) == |d|
    decreases |d|
  {
    if d == [] {
      assert d + t == t;
    } else {
      var s := d + t;
      assert s[0] == d[0];
      assert s[1..] == d[1..] + t;
      assert AllDigits(d[1..]) by {
        forall i | 0 <= i < |d| - 1 ensures IsDigit(d[1..][i]) { assert d[1..][i] == d[i + 1]; }
      }
      DigitRunOfDigits(d[1..], t);
    }
  }

  /** Reads what follows the angle's digits: the unit, both colours and the stops. */
  function ParseStops(tail: string, angle: nat): Option<Builder>
  {
    if |tail| == 30 && tail[..5] == AngleUnit && tail[12..17] == FirstStop &&
       tail[24..] == LastStop && IsHexColor(tail[5..12]) && IsHexColor(tail[17..24])
    then Some(Builder(tail[5..12], tail[17..24], angle))
    else None
  }

  /** Inverse of `Generate` on builder states whose colours come from a colour picker:
      the angle and both colours are read back, anything else is rejected. */
  function Parse(s: string): Option<Builder>
  {
    if |s| < |Prefix| || s[..|Prefix|] != Prefix then None
    else
      var rest := s[|Prefix|..];
      var k := DigitRun(rest);
      if k == 0 then None else ParseStops(rest[k..], DecimalValue(rest[..k]))
  }

  lemma ParseStopsOf(c1: string, c2: string, angle: nat)
    requires IsHexColor(c1) && IsHexColor(c2)
    ensures ParseStops(AngleUnit + c1 + FirstStop + c2 + LastStop, angle) == Some(Builder(c1, c2, angle))
  {
    var tail := AngleUnit + c1 + FirstStop + c2 + LastStop;
    assert |tail| == 30;
    assert tail[..5] == AngleUnit;
    assert tail[5..12] == c1;
    assert tail[12..17] == FirstStop;
    assert tail[17..24] == c2;
    assert tail[24..] == LastStop;
  }

  lemma RoundTrip(b: Builder)
    requires IsHexColor(b.color1) && IsHexColor(b.color2)
    ensures Parse(Generate(b)) == Some(b)
  {
    var s := Generate(b);
    var d := Decimal(b.angle);
    var tail := AngleUnit + b.color1 + FirstStop + b.color2 + LastStop;
    assert s == Prefix + (d + tail);
    assert s[..|Prefix|] == Prefix;
    var rest := s[|Prefix|..];
    assert rest == d + tail;
    DigitRunOfDigits(d, tail);
    assert rest[..|d|] == d;
    assert rest[|d|..] == tail;
    DecimalRoundTrip(b.angle);
    ParseStopsOf(b.color1, b.color2, b.angle);
  }

  /** Two builder states with picker colours that render the same string are the same state. */
  lemma Injective(a: Builder, b: Builder)
    requires IsHexColor(a.color1) && IsHexColor(a.color2)
    requires IsHexColor(b.color1) && IsHexColor(b.color2)
    requires Generate(a) == Generate(b)
    ensures a == b
  {
    RoundTrip(a);
    RoundTrip(b);
  }
}
