/**
 * Rendering of decoded values and of the InfluxDB line-protocol body that
 * `post_data` builds: one `ALL_SENSORS <field>=<value>` line per field,
 * joined by a single newline.
 */
module LineProtocol {

  /**
   * A fixed-point number: `units * 10^-places`. The source rounds each
   * register quantity to the register's resolution (`round(x * 0.1, 1)`
   * and so on) and formats it with `str`; `places == 0` is a quantity
   * the source turns into an `int`.
   */
  datatype Value = Value(units: int, places: nat)

  function Pow10(n: nat): (p: nat)
    ensures p >= 1
  {
    if n == 0 then 1 else 10 * Pow10(n - 1)
  }

  predicate IsDigit(c: char)
  {
    '0' <= c <= '9'
  }

  predicate AllDigits(s: string)
  {
    forall i :: 0 <= i < |s| ==> IsDigit(s[i])
  }

  function DigitChar(d: nat): (c: char)
    requires d < 10
    ensures IsDigit(c) && c as int - '0' as int == d
  {
    (d + '0' as int) as char
  }

  /** Decimal text of a natural number, without leading zeros. */
  function Digits(n: nat): (s: string)
    ensures |s| >= 1 && AllDigits(s)
  {
    if n < 10 then [DigitChar(n)] else Digits(n / 10) + [DigitChar(n % 10)]
  }

  /** The decimal text of `f` in exactly `width` digits, zero-padded on the left. */
  function Padded(f: nat, width: nat): (s: string)
    requires f < Pow10(width)
    ensures |s| == width && AllDigits(s)
  {
    if width == 0 then [] else Padded(f / 10, width - 1) + [DigitChar(f % 10)]
  }

  /** Drops trailing zeros, keeping at least one digit (Python's `repr` of a float's fraction). */
  function StripZeros(s: string): (r: string)
    requires |s| >= 1 && AllDigits(s)
    ensures 1 <= |r| <= |s| && r == s[..|r|] && AllDigits(r)
    ensures |r| > 1 ==> r[|r| - 1] != '0'
  {
    if |s| > 1 && s[|s| - 1] == '0' then StripZeros(s[..|s| - 1]) else s
  }

  /** The digits before the point: the units divided by `10^places`. */
  function IntPart(n: nat, places: nat): (s: string)
    ensures |s| >= 1 && AllDigits(s)
  {
    var p := Pow10(places);
    DivModBounds(n, p);
    Digits(n / p)
  }

  /** The digits after the point: the remainder, in `places` digits, trailing zeros dropped. */
  function FracPart(n: nat, places: nat): (s: string)
    requires places > 0
    ensures 1 <= |s| <= places && AllDigits(s)
  {
    var p := Pow10(places);
    DivModBounds(n, p);
    StripZeros(Padded(n % p, places))
  }

  /** The text of a non-negative fixed-point quantity: it starts with a digit. */
  function Magnitude(n: nat, places: nat): (m: string)
    ensures |m| >= 1 && IsDigit(m[0])
  {
    if places == 0 then Digits(n) else IntPart(n, places) + "." + FracPart(n, places)
  }

  lemma DivModBounds(n: nat, p: nat)
    requires p > 0
    ensures n / p >= 0 && 0 <= n % p < p && n == n / p * p + n % p
  {
  }

  /** The text `str` gives for the value: it opens with a minus sign exactly when the value is negative. */
  function Render(v: Value): (s: string)
    ensures |s| >= 1 && (s[0] == '-' <==> v.units < 0)
  {
    if v.units < 0 then "-" + Magnitude(-v.units, v.places) else Magnitude(v.units, v.places)
  }

  /** The characters a rendered value is made of. */
  predicate IsNumeral(s: string)
  {
    forall i :: 0 <= i < |s| ==> IsDigit(s[i]) || s[i] == '.' || s[i] == '-'
  }

  /** A rendered value is a non-empty numeral: digits, at most a point and a sign. */
  lemma RenderIsNumeral(v: Value)
    ensures |Render(v)| >= 1 && IsNumeral(Render(v))
    ensures ('.' in Render(v)) <==> v.places > 0
  {
    var n := if v.units < 0 then -v.units else v.units;
    var m := Magnitude(n, v.places);
    MagnitudeIsNumeral(n, v.places);
    if v.units < 0 {
      var r := "-" + m;
      forall i | 0 <= i < |r|
        ensures IsDigit(r[i]) || r[i] == '.' || r[i] == '-'
      {
        if i > 0 {
          assert r[i] == m[i - 1];
        }
      }
      assert '.' in m ==> '.' in r by {
        if '.' in m {
          var i :| 0 <= i < |m| && m[i] == '.';
          assert r[i + 1] == '.';
        }
      }
      assert '.' in r ==> '.' in m by {
        if '.' in r {
          var i :| 0 <= i < |r| && r[i] == '.';
          assert m[i - 1] == '.';
        }
      }
    }
  }

  lemma MagnitudeIsNumeral(n: nat, places: nat)
    ensures |Magnitude(n, places)| >= 1
    ensures forall i :: 0 <= i < |Magnitude(n, places)| ==> IsDigit(Magnitude(n, places)[i]) || Magnitude(n, places)[i] == '.'
    ensures ('.' in Magnitude(n, places)) <==> places > 0
  {
    var m := Magnitude(n, places);
    if places > 0 {
      var ip, fp := IntPart(n, places), FracPart(n, places);
      assert m == ip + "." + fp;
      assert m[|ip|] == '.';
      forall i | 0 <= i < |m|
        ensures IsDigit(m[i]) || m[i] == '.'
      {
        if i < |ip| {
          assert m[i] == ip[i];
        } else if i > |ip| {
          assert m[i] == fp[i - |ip| - 1];
        }
      }
    } else {
      assert forall i :: 0 <= i < |m| ==> IsDigit(m[i]);
    }
  }

  // ---------------------------------------------------------------------
  // Reading a rendered value back

  /** The number a string of decimal digits denotes. */
  function DigitsValue(s: string): (n: nat)
    requires AllDigits(s)
  {
    if s == [] then 0 else 10 * DigitsValue(s[..|s| - 1]) + (s[|s| - 1] as int - '0' as int)
  }

  lemma {:induction false} DigitsRoundTrip(n: nat)
    ensures DigitsValue(Digits(n)) == n
  {
    var s := Digits(n);
    if n >= 10 {
      assert s[..|s| - 1] == Digits(n / 10);
      DigitsRoundTrip(n / 10);
    }
  }

  lemma {:induction false} PaddedRoundTrip(f: nat, width: nat)
    requires f < Pow10(width)
    ensures DigitsValue(Padded(f, width)) == f
  {
    if width > 0 {
      var s := Padded(f, width);
      assert s[..|s| - 1] == Padded(f / 10, width - 1);
      PaddedRoundTrip(f / 10, width - 1);
    }
  }

  /** Stripping trailing zeros divides the denoted number by a power of ten. */
  lemma {:induction false} StripZerosScale(s: string)
    requires |s| >= 1 && AllDigits(s)
    ensures DigitsValue(StripZeros(s)) * Pow10(|s| - |StripZeros(s)|) == DigitsValue(s)
  {
    if |s| > 1 && s[|s| - 1] == '0' {
      var t := s[..|s| - 1];
      StripZerosScale(t);
      var d, k := DigitsValue(StripZeros(t)), |t| - |StripZeros(t)|;
      assert StripZeros(s) == StripZeros(t) && |s| - |StripZeros(s)| == k + 1;
      assert DigitsValue(s) == 10 * DigitsValue(t);
      assert Pow10(k + 1) == 10 * Pow10(k);
      ShiftByTen(d, Pow10(k));
    }
  }

  lemma ShiftByTen(d: int, p: int)
    ensures d * (10 * p) == 10 * (d * p)
  {
  }

  /**
   * What a reader of the body recovers from the text of a non-negative
   * quantity with a point: the digits as one integer and the number of
   * fractional digits.
   */
  function ReadFixed(intPart: string, fracPart: string): (v: Value)
    requires AllDigits(intPart) && AllDigits(fracPart)
  {
    Value(DigitsValue(intPart) * Pow10(|fracPart|) + DigitsValue(fracPart), |fracPart|)
  }

  /** Two values denote the same number. */
  predicate SameNumber(a: Value, b: Value)
  {
    a.units * Pow10(b.places) == b.units * Pow10(a.places)
  }

  /**
   * What a reader recovers from a rendered value: an optional minus sign,
   * the digits before the point and those after it (none without a point).
   */
  function ReadSigned(negative: bool, intPart: string, fracPart: string): (v: Value)
    requires AllDigits(intPart) && AllDigits(fracPart)
  {
    var u := ReadFixed(intPart, fracPart);
    if negative then Value(-u.units, u.places) else u
  }

  /**
   * Round trip for every value: Render writes a sign exactly for a negative
   * value, then the integer digits and, with places, a point and the
   * fraction digits; reading these pieces back denotes the value rendered.
   */
  lemma RenderReadBack(v: Value)
    ensures Render(v) == (if v.units < 0 then "-" else "")
                         + (if v.places == 0 then IntText(v) else IntText(v) + "." + FracText(v))
    ensures SameNumber(ReadSigned(v.units < 0, IntText(v), FracText(v)), v)
  {
    RenderPieces(v);
    var u := ReadFixed(IntText(v), FracText(v));
    ReadSize(v);
    if v.units < 0 {
      NegatedSameNumber(u, Value(Size(v), v.places));
    }
  }

  lemma RenderPieces(v: Value)
    ensures Render(v) == (if v.units < 0 then "-" else "")
                         + (if v.places == 0 then IntText(v) else IntText(v) + "." + FracText(v))
  {
  }

  /** Reading back the digits written for the size denotes the size. */
  lemma ReadSize(v: Value)
    ensures SameNumber(ReadFixed(IntText(v), FracText(v)), Value(Size(v), v.places))
  {
    var n := Size(v);
    if v.places == 0 {
      DigitsRoundTrip(n);
      assert ReadFixed(IntText(v), FracText(v)) == Value(n, 0);
    } else {
      MagnitudeReadBack(n, v.places);
    }
  }

  /** The size of a value's units, the quantity Render writes after any sign. */
  function Size(v: Value): (n: nat)
    ensures n == v.units || n == -v.units
  {
    if v.units < 0 then -v.units else v.units
  }

  /** The digits Render writes before the point, or all of them when there is none. */
  function IntText(v: Value): (s: string)
    ensures AllDigits(s)
  {
    if v.places == 0 then Digits(Size(v)) else IntPart(Size(v), v.places)
  }

  /** The digits Render writes after the point; none when there is no point. */
  function FracText(v: Value): (s: string)
    ensures AllDigits(s) && |s| <= v.places
  {
    if v.places == 0 then "" else FracPart(Size(v), v.places)
  }

  lemma NegatedSameNumber(a: Value, b: Value)
    requires SameNumber(a, b)
    ensures SameNumber(Value(-a.units, a.places), Value(-b.units, b.places))
  {
    assert -a.units * Pow10(b.places) == -(a.units * Pow10(b.places));
    assert -b.units * Pow10(a.places) == -(b.units * Pow10(a.places));
  }

  /**
   * Reading back the integer and fractional parts written for a
   * non-negative quantity with a point denotes that quantity, with at most
   * as many fractional digits as it has places.
   */
  lemma MagnitudeReadBack(n: nat, places: nat)
    requires places > 0
    ensures SameNumber(ReadFixed(IntPart(n, places), FracPart(n, places)), Value(n, places))
  {
    var p := Pow10(places);
    DivModBounds(n, p);
    PartsReadBack(n / p, n % p, places, n);
  }

  /** MagnitudeReadBack for the quotient `q` and remainder `r` of the units by `10^places`. */
  lemma PartsReadBack(q: nat, r: nat, places: nat, n: nat)
    requires places > 0 && r < Pow10(places) && n == q * Pow10(places) + r
    ensures var fp := StripZeros(Padded(r, places));
            |fp| <= places
            && SameNumber(ReadFixed(Digits(q), fp), Value(n, places))
  {
    var p := Pow10(places);
    var pad := Padded(r, places);
    var fp := StripZeros(pad);
    DigitsRoundTrip(q);
    PaddedRoundTrip(r, places);
    StripZerosScale(pad);
    Pow10Split(places, |fp|);
    ScaleIdentity(q, DigitsValue(fp), Pow10(|fp|), Pow10(places - |fp|), n, p, r);
  }

  /** The integer step of MagnitudeReadBack, over plain integers. */
  lemma ScaleIdentity(q: int, d: int, a: int, k: int, n: int, p: int, r: int)
    requires n == q * p + r && d * k == r && p == a * k
    ensures (q * a + d) * p == n * a
  {
    calc {
      (q * a + d) * p;
      (q * a + d) * (a * k);
      q * a * (a * k) + d * (a * k);
      a * (q * (a * k)) + a * (d * k);
      a * (q * p + r);
      n * a;
    }
  }

  lemma Pow10Split(total: nat, part: nat)
    requires part <= total
    ensures Pow10(total) == Pow10(part) * Pow10(total - part)
  {
    Pow10Add(part, total - part);
  }

  lemma {:induction false} Pow10Add(a: nat, b: nat)
    ensures Pow10(a + b) == Pow10(a) * Pow10(b)
  {
    if a > 0 {
      Pow10Add(a - 1, b);
    }
  }

  // ---------------------------------------------------------------------
  // The line-protocol body

  const MeasurementName: string := "ALL_SENSORS"

  /**
   * One point: `<measurement> <field>=<value>`. It starts with the
   * measurement name and a space, and it holds no newline unless the field
   * or the value text does.
   */
  function Line(field: string, text: string): (l: string)
    ensures MeasurementName + " " <= l
    ensures '\n' !in l <==> '\n' !in field && '\n' !in text
  {
    NoNewlineConcat(MeasurementName, " ");
    NoNewlineConcat(MeasurementName + " ", field);
    NoNewlineConcat(MeasurementName + " " + field, "=");
    NoNewlineConcat(MeasurementName + " " + field + "=", text);
    MeasurementName + " " + field + "=" + text
  }

  /** Python's `'\n'.join(lines)`: it starts with the first line, and a single line is taken as it is, with no newline. */
  function Join(lines: seq<string>): (s: string)
    ensures |lines| == 0 ==> s == ""
    ensures |lines| >= 1 ==> lines[0] <= s
    ensures |lines| == 1 ==> s == lines[0]
  {
    if |lines| == 0 then ""
    else if |lines| == 1 then lines[0]
    else lines[0] + "\n" + Join(lines[1..])
  }

  /** Splitting a text at each newline, as a reader of the body does. */
  function SplitLines(s: string): (lines: seq<string>)
    ensures |lines| >= 1
    decreases |s|
  {
    if '\n' in s then
      var i := FirstNewline(s);
      [s[..i]] + SplitLines(s[i + 1..])
    else [s]
  }

  function FirstNewline(s: string): (i: nat)
    requires '\n' in s
    ensures i < |s| && s[i] == '\n' && '\n' !in s[..i]
  {
    if s[0] == '\n' then 0
    else
      assert '\n' in s[1..] by {
        var j :| 0 <= j < |s| && s[j] == '\n';
        assert s[1..][j - 1] == '\n';
      }
      var i := 1 + FirstNewline(s[1..]);
      assert s[..i] == [s[0]] + s[1..][..i - 1];
      i
  }

  /** Joining lines that hold no newline and splitting the result gives the lines back. */
  lemma {:induction false} SplitJoin(lines: seq<string>)
    requires |lines| >= 1
    requires forall i :: 0 <= i < |lines| ==> '\n' !in lines[i]
    ensures SplitLines(Join(lines)) == lines
  {
    if |lines| > 1 {
      var h, t := lines[0], Join(lines[1..]);
      assert Join(lines) == h + "\n" + t;
      SplitAtFirstNewline(h, t);
      SplitJoin(lines[1..]);
      assert lines == [h] + lines[1..];
    }
  }

  /** A text with no newline, a newline, then more: the first line is that text. */
  lemma SplitAtFirstNewline(h: string, t: string)
    requires '\n' !in h
    ensures SplitLines(h + "\n" + t) == [h] + SplitLines(t)
  {
    var s := h + "\n" + t;
    FirstNewlineAfter(h, t);
    assert s[..|h|] == h;
    assert s[|h| + 1..] == t;
  }

  /** The first newline of `h + "\n" + t` is the one after `h` when `h` holds none. */
  lemma FirstNewlineAfter(h: string, t: string)
    requires '\n' !in h
    ensures '\n' in h + "\n" + t && FirstNewline(h + "\n" + t) == |h|
  {
    var s := h + "\n" + t;
    assert s[|h|] == '\n';
    var i := FirstNewline(s);
    forall j | 0 <= j < i
      ensures s[j] != '\n'
    {
      assert s[..i][j] == s[j];
    }
    forall j | 0 <= j < |h|
      ensures s[j] != '\n'
    {
      assert s[j] == h[j];
    }
  }

  lemma NoNewlineConcat(a: string, b: string)
    ensures '\n' !in a + b <==> '\n' !in a && '\n' !in b
  {
    if '\n' in a {
      var j :| 0 <= j < |a| && a[j] == '\n';
      assert (a + b)[j] == '\n';
    }
    if '\n' in b {
      var j :| 0 <= j < |b| && b[j] == '\n';
      assert (a + b)[|a| + j] == '\n';
    }
    if '\n' in a + b {
      var j :| 0 <= j < |a + b| && (a + b)[j] == '\n';
      if j < |a| {
        assert a[j] == '\n';
      } else {
        assert b[j - |a|] == '\n';
      }
    }
  }

  /**
   * The body `post_data` posts for the given field names and value texts.
   * When no field or text holds a newline, a reader splitting the body at
   * each newline finds exactly one line per field, in field order: no
   * trailing newline and no empty line.
   */
  function Body(fields: seq<string>, texts: seq<string>): (b: string)
    requires |fields| == |texts|
    ensures |fields| >= 1 && NoNewlines(fields, texts) ==> SplitLines(b) == Lines(fields, texts)
  {
    JoinedLinesSplit(fields, texts);
    Join(Lines(fields, texts))
  }

  predicate NoNewlines(fields: seq<string>, texts: seq<string>)
    requires |fields| == |texts|
  {
    forall i :: 0 <= i < |fields| ==> '\n' !in fields[i] && '\n' !in texts[i]
  }

  function Lines(fields: seq<string>, texts: seq<string>): (lines: seq<string>)
    requires |fields| == |texts|
    ensures |lines| == |fields|
    ensures forall i :: 0 <= i < |fields| ==> lines[i] == Line(fields[i], texts[i])
  {
    if fields == [] then [] else [Line(fields[0], texts[0])] + Lines(fields[1..], texts[1..])
  }

  lemma JoinedLinesSplit(fields: seq<string>, texts: seq<string>)
    requires |fields| == |texts|
    ensures |fields| >= 1 && NoNewlines(fields, texts) ==> SplitLines(Join(Lines(fields, texts))) == Lines(fields, texts)
  {
    if |fields| >= 1 && NoNewlines(fields, texts) {
      var lines := Lines(fields, texts);
      assert forall i :: 0 <= i < |lines| ==> '\n' !in lines[i];
      SplitJoin(lines);
    }
  }
}
