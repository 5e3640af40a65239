/** Currency displays of the cost table, on amounts held as whole cents.

    The handlers show a dollar amount `x` as `f"${x:,.2f}"` (thousands
    separator, two decimals) for each service row and as `f"${x:.2f}"`
    (no separator) for the totals, and read a display back with
    `float(x.replace('$', '').replace(',', ''))`. */
module Currency {
  import opened Wrappers

  function DigitChar(d: nat): (c: char)
    requires d < 10
    ensures '0' <= c <= '9'
  {
    ('0' as int + d) as char
  }

  function DigitValue(c: char): (d: nat)
    requires '0' <= c <= '9'
    ensures d < 10 && DigitChar(d) == c
  {
    c as int - '0' as int
  }

  predicate AllDigits(s: string) {
    forall i | 0 <= i < |s| :: '0' <= s[i] <= '9'
  }

  function Pow10(k: nat): (p: nat)
    ensures p >= 1
  {
    if k == 0 then 1 else 10 * Pow10(k - 1)
  }

  /** Decimal digits of `n`, most significant first, without leading zeros. */
  function Digits(n: nat): string
    decreases n
  {
    if n < 10 then [DigitChar(n)] else Digits(n / 10) + [DigitChar(n % 10)]
  }

  /** The lowest `width` decimal digits of `n`, zero-padded. */
  function Pad(n: nat, width: nat): string
    decreases width
  {
    if width == 0 then [] else Pad(n / 10, width - 1) + [DigitChar(n % 10)]
  }

  /** Digits of `n` in groups of three separated by commas: the `,` option of
      Python's format mini-language (PEP 378). */
  function Grouped(n: nat): string
    decreases n
  {
    if n < 1000 then Digits(n) else Grouped(n / 1000) + "," + Pad(n % 1000, 3)
  }

  /** `f"${x:,.2f}"` for an amount of `cents` cents. */
  function FormatGrouped(cents: nat): (r: string)
    ensures |r| >= 5 && r[0] == '$' && r[|r| - 3] == '.'
  {
    "$" + Grouped(cents / 100) + "." + Pad(cents % 100, 2)
  }

  /** `f"${x:.2f}"` for an amount of `cents` cents. */
  function FormatPlain(cents: nat): (r: string)
    ensures |r| >= 5 && r[0] == '$' && r[|r| - 3] == '.'
  {
    "$" + Digits(cents / 100) + "." + Pad(cents % 100, 2)
  }

  /** `s.replace(c, '')`. */
  function Remove(s: string, c: char): (r: string)
    ensures c !in r
    ensures forall x | x in r :: x in s
  {
    if s == [] then []
    else if s[0] == c then Remove(s[1..], c)
    else [s[0]] + Remove(s[1..], c)
  }

  /** `x.replace('$', '').replace(',', '')`. */
  function Strip(s: string): (r: string)
    ensures '$' !in r && ',' !in r
  {
    Remove(Remove(s, '$'), ',')
  }

  /** Value of a string of decimal digits; the empty string is 0. */
  function Value(s: string): nat
    requires AllDigits(s)
  {
    if s == [] then 0 else Value(s[..|s| - 1]) * 10 + DigitValue(s[|s| - 1])
  }

  /** `float(s)` in cents, for the shape the displays strip to: one or more
      digits, a point and two digits. Any other text is not a number here. */
  function ParseCents(s: string): (r: Option<nat>)
    ensures r.Some? ==> |s| >= 4 && s[|s| - 3] == '.' && AllDigits(s[..|s| - 3]) && AllDigits(s[|s| - 2..])
                        && Value(s[|s| - 2..]) < 100 && r.value == 100 * Value(s[..|s| - 3]) + Value(s[|s| - 2..])
  {
    if |s| >= 4 && s[|s| - 3] == '.' && AllDigits(s[..|s| - 3]) && AllDigits(s[|s| - 2..])
    then TwoDigitValue(s[|s| - 2..]); Some(Value(s[..|s| - 3]) * 100 + Value(s[|s| - 2..]))
    else None
  }

  // ---------------------------------------------------------------------
  // Digits and padding

  /** Two digits make a value below one hundred. */
  lemma TwoDigitValue(t: string)
    requires |t| == 2 && AllDigits(t)
    ensures Value(t) < 100
  {
    assert t[..1][..0] == [];
    assert Value(t[..1]) == DigitValue(t[0]);
  }

  lemma {:induction false} DigitsFacts(n: nat)
    ensures AllDigits(Digits(n)) && |Digits(n)| >= 1 && Value(Digits(n)) == n
    ensures |Digits(n)| == 1 <==> n < 10
    ensures n < 100 ==> |Digits(n)| <= 2
    ensures n < 1000 ==> |Digits(n)| <= 3
    decreases n
  {
    if n >= 10 {
      DigitsFacts(n / 10);
      var s := Digits(n);
      assert s[..|s| - 1] == Digits(n / 10);
    }
  }

  lemma {:induction false} PadFacts(n: nat, width: nat)
    ensures AllDigits(Pad(n, width)) && |Pad(n, width)| == width
    ensures n < Pow10(width) ==> Value(Pad(n, width)) == n
    decreases width
  {
    if width > 0 {
      PadFacts(n / 10, width - 1);
      var s := Pad(n, width);
      assert s[..|s| - 1] == Pad(n / 10, width - 1);
    }
  }

  lemma DivTen(n: nat, a: nat, b: nat)
    requires n == 10 * a + b && b < 10
    ensures n / 10 == a && n % 10 == b
  {
  }

  /** Appending one digit `d` to the digits of a positive `q` spells `10 * q + d`. */
  lemma DigitsAppend(q: nat, d: nat)
    requires q >= 1 && d < 10
    ensures Digits(10 * q + d) == Digits(q) + [DigitChar(d)]
  {
    DivTen(10 * q + d, q, d);
  }

  /** The three digits of `r < 1000`, zero-padded. */
  lemma PadThree(r: nat, a: nat, b: nat, c: nat)
    requires r == 100 * a + 10 * b + c && a < 10 && b < 10 && c < 10
    ensures Pad(r, 3) == [DigitChar(a), DigitChar(b), DigitChar(c)]
  {
    DivTen(r, 10 * a + b, c);
    DivTen(10 * a + b, a, b);
    DivTen(a, 0, a);
  }

  lemma DigitsAppend3(q: nat, a: nat, b: nat, c: nat)
    requires q >= 1 && a < 10 && b < 10 && c < 10
    ensures Digits(1000 * q + 100 * a + 10 * b + c) == Digits(q) + [DigitChar(a), DigitChar(b), DigitChar(c)]
  {
    DigitsAppend(q, a);
    DigitsAppend(10 * q + a, b);
    DigitsAppend(100 * q + 10 * a + b, c);
  }

  /** Writing a positive `q` and then `r` in exactly three digits spells `1000 * q + r`. */
  lemma DigitsSplit3(q: nat, r: nat)
    requires q >= 1 && r < 1000
    ensures Digits(1000 * q + r) == Digits(q) + Pad(r, 3)
  {
    var a := r / 100;
    var b := (r - 100 * a) / 10;
    var c := r - 100 * a - 10 * b;
    PadThree(r, a, b, c);
    DigitsAppend3(q, a, b, c);
  }

  // ---------------------------------------------------------------------
  // Removing characters

  lemma {:induction false} RemoveConcat(a: string, b: string, c: char)
    ensures Remove(a + b, c) == Remove(a, c) + Remove(b, c)
    decreases |a|
  {
    if a != [] {
      assert (a + b)[1..] == a[1..] + b;
      RemoveConcat(a[1..], b, c);
    } else {
      assert a + b == b;
    }
  }

  lemma {:induction false} RemoveAbsent(s: string, c: char)
    requires c !in s
    ensures Remove(s, c) == s
    decreases |s|
  {
    if s != [] {
      assert c !in s[1..];
      RemoveAbsent(s[1..], c);
    }
  }

  lemma DigitStringsHaveNoMarks(s: string)
    requires AllDigits(s)
    ensures '$' !in s && ',' !in s && '.' !in s
  {
  }

  /** Removing the separators from a grouped number gives its plain digits. */
  lemma {:induction false} Ungroup(n: nat)
    ensures Remove(Grouped(n), ',') == Digits(n)
    ensures '$' !in Grouped(n)
    decreases n
  {
    if n < 1000 {
      DigitsFacts(n);
      DigitStringsHaveNoMarks(Digits(n));
      RemoveAbsent(Digits(n), ',');
    } else {
      var q, r := n / 1000, n % 1000;
      Ungroup(q);
      PadFacts(r, 3);
      DigitStringsHaveNoMarks(Pad(r, 3));
      var g, p := Grouped(q), Pad(r, 3);
      assert Grouped(n) == g + "," + p;
      RemoveConcat(g + ",", p, ',');
      RemoveConcat(g, ",", ',');
      RemoveAbsent(p, ',');
      DigitsSplit3(q, r);
      assert n == 1000 * q + r;
    }
  }

  /** A grouped number has one comma for every complete group of three digits
      after the leading one: ⌊(d - 1) / 3⌋ commas for d digits. */
  lemma {:induction false} GroupedLength(n: nat)
    ensures |Grouped(n)| == |Digits(n)| + (|Digits(n)| - 1) / 3
    decreases n
  {
    DigitsFacts(n);
    if n >= 1000 {
      var q, r := n / 1000, n % 1000;
      GroupedLength(q);
      DigitsFacts(q);
      PadFacts(r, 3);
      DigitsSplit3(q, r);
      assert n == 1000 * q + r;
      assert Grouped(n) == Grouped(q) + "," + Pad(r, 3);
      var d := |Digits(q)|;
      assert |Digits(n)| == d + 3;
      assert (d + 2) / 3 == (d - 1) / 3 + 1;
    }
  }

  /** A comma at exactly every fourth position counting from the right:
      each comma is followed by a full group of three digits. */
  predicate CommaEveryFourth(g: string) {
    forall i | 0 <= i < |g| :: (g[i] == ',' <==> (|g| - i) % 4 == 0)
  }

  /** The commas of a grouped number sit where PEP 378 puts them. */
  lemma {:induction false} GroupedCommas(n: nat)
    ensures CommaEveryFourth(Grouped(n))
    decreases n
  {
    if n < 1000 {
      DigitsFacts(n);
      ShortDigitsCommas(Digits(n));
    } else {
      GroupedCommas(n / 1000);
      PadFacts(n % 1000, 3);
      GroupCommas(Grouped(n / 1000), Pad(n % 1000, 3));
    }
  }

  lemma ShortDigitsCommas(d: string)
    requires AllDigits(d) && |d| <= 3
    ensures CommaEveryFourth(d)
  {
    forall i | 0 <= i < |d|
      ensures d[i] != ',' && (|d| - i) % 4 != 0
    {
      assert '0' <= d[i] <= '9';
    }
  }

  lemma GroupCommas(a: string, p: string)
    requires CommaEveryFourth(a) && AllDigits(p) && |p| == 3
    ensures CommaEveryFourth(a + "," + p)
  {
    var g := a + "," + p;
    forall i | 0 <= i < |g|
      ensures g[i] == ',' <==> (|g| - i) % 4 == 0
    {
      if i < |a| {
        assert g[i] == a[i];
        assert (|g| - i) % 4 == (|a| - i) % 4;
      } else if i > |a| {
        assert g[i] == p[i - |a| - 1];
        assert '0' <= p[i - |a| - 1] <= '9';
      }
    }
  }

  // ---------------------------------------------------------------------
  // The round trip of the totals: format, strip, parse

  /** Removing `c` from `x + "." + p` when `p` is all digits and `c` is not. */
  lemma RemoveBeforePoint(x: string, p: string, c: char)
    requires AllDigits(p) && c != '.' && !('0' <= c <= '9')
    ensures Remove(x + "." + p, c) == Remove(x, c) + "." + p
  {
    assert x + "." + p == x + ("." + p);
    RemoveConcat(x, "." + p, c);
    RemoveConcat(".", p, c);
    RemoveAbsent(p, c);
    assert Remove(".", c) == ".";
  }

  /** What the stripping leaves of a display `"$" + x + "." + p`. */
  lemma StripDisplay(x: string, p: string)
    requires '$' !in x && AllDigits(p)
    ensures Strip("$" + x + "." + p) == Remove(x, ',') + "." + p
  {
    assert "$" + x + "." + p == "$" + (x + "." + p);
    RemoveConcat("$", x + "." + p, '$');
    RemoveBeforePoint(x, p, '$');
    RemoveAbsent(x, '$');
    RemoveBeforePoint(x, p, ',');
  }

  lemma StripGrouped(cents: nat)
    ensures Strip(FormatGrouped(cents)) == Digits(cents / 100) + "." + Pad(cents % 100, 2)
  {
    Ungroup(cents / 100);
    PadFacts(cents % 100, 2);
    StripDisplay(Grouped(cents / 100), Pad(cents % 100, 2));
  }

  lemma StripPlain(cents: nat)
    ensures Strip(FormatPlain(cents)) == Digits(cents / 100) + "." + Pad(cents % 100, 2)
  {
    DigitsFacts(cents / 100);
    DigitStringsHaveNoMarks(Digits(cents / 100));
    RemoveAbsent(Digits(cents / 100), ',');
    PadFacts(cents % 100, 2);
    StripDisplay(Digits(cents / 100), Pad(cents % 100, 2));
  }

  lemma ParseShape(d: string, p: string)
    requires AllDigits(d) && |d| >= 1 && AllDigits(p) && |p| == 2
    ensures ParseCents(d + "." + p) == Some(Value(d) * 100 + Value(p))
  {
    var s := d + "." + p;
    assert |s| == |d| + 3 && s[|s| - 3] == '.';
    assert s[..|s| - 3] == d;
    assert s[|s| - 2..] == p;
  }

  lemma ParseDigitsPointPad(n: nat, m: nat)
    requires m < 100
    ensures ParseCents(Digits(n) + "." + Pad(m, 2)) == Some(n * 100 + m)
  {
    DigitsFacts(n);
    PadFacts(m, 2);
    assert Pow10(2) == 100;
    ParseShape(Digits(n), Pad(m, 2));
  }

  /** Stripping `$` and `,` from a row display and reading it as a number
      gives back exactly the amount it shows; so does a total display. */
  lemma RoundTrip(cents: nat)
    ensures ParseCents(Strip(FormatGrouped(cents))) == Some(cents)
    ensures ParseCents(Strip(FormatPlain(cents))) == Some(cents)
  {
    StripGrouped(cents);
    StripPlain(cents);
    ParseDigitsPointPad(cents / 100, cents % 100);
  }

  /** The totals format has no thousands separator, so it agrees with the row
      format exactly when the amount is below one thousand dollars. */
  lemma PlainMatchesGroupedBelowThousand(cents: nat)
    ensures ',' !in FormatPlain(cents)
    ensures FormatPlain(cents) == FormatGrouped(cents) <==> cents < 100000
  {
    PlainHasNoComma(cents);
    if cents >= 100000 {
      GroupedDisplayHasComma(cents);
    } else {
      assert Grouped(cents / 100) == Digits(cents / 100);
    }
  }

  lemma PlainHasNoComma(cents: nat)
    ensures ',' !in FormatPlain(cents)
  {
    var n, m := cents / 100, cents % 100;
    DigitsFacts(n);
    DigitStringsHaveNoMarks(Digits(n));
    PadFacts(m, 2);
    DigitStringsHaveNoMarks(Pad(m, 2));
  }

  lemma GroupedDisplayHasComma(cents: nat)
    requires cents >= 100000
    ensures ',' in FormatGrouped(cents)
  {
    var g := Grouped(cents / 100);
    GroupedHasComma(cents / 100);
    var k :| 0 <= k < |g| && g[k] == ',';
    assert FormatGrouped(cents)[1 + k] == ',';
  }

  /** From one thousand upwards the grouped digits carry a separator. */
  lemma GroupedHasComma(n: nat)
    requires n >= 1000
    ensures ',' in Grouped(n)
  {
    var g := Grouped(n / 1000);
    assert Grouped(n) == g + "," + Pad(n % 1000, 3);
    assert Grouped(n)[|g|] == ',';
  }

  lemma SmallDigits()
    ensures Pad(0, 2) == "00" && Pad(200, 3) == "200"
    ensures Digits(100) == "100" && Digits(1200) == "1200"
  {
    assert Digits(10) == "10";
    assert Digits(12) == "12";
    assert Digits(120) == "120";
    assert Pad(2, 1) == "2";
    assert Pad(20, 2) == "20";
  }

  /** $100.00 a month and $1,200.00 a year, in both formats. */
  lemma HundredDollarDisplays()
    ensures FormatGrouped(10000) == "$100.00" && FormatPlain(10000) == "$100.00"
    ensures FormatGrouped(120000) == "$1,200.00" && FormatPlain(120000) == "$1200.00"
  {
    SmallDigits();
    assert Grouped(100) == "100";
    assert Grouped(1200) == "1,200";
  }
}
