/** Parsing of the invoice's Swedish-format numbers (src/main.py:151-153):
    a captured token loses its spaces, its commas become dots, and Python's
    float() reads the result. Amounts are exact reals, not binary floats. */
module Numbers {
  import opened Wrappers
  import Strings

  predicate IsDigit(c: char) { '0' <= c <= '9' }

  predicate IsDigits(s: string) { forall i | 0 <= i < |s| :: IsDigit(s[i]) }

  /** The natural number a decimal digit string denotes. */
  function DigitsValue(s: string): nat
    requires IsDigits(s)
    decreases |s|
  {
    if s == [] then 0 else 10 * DigitsValue(s[..|s| - 1]) + (s[|s| - 1] as int - '0' as int)
  }

  function Pow10(n: nat): (r: nat)
    ensures r >= 1
  {
    if n == 0 then 1 else 10 * Pow10(n - 1)
  }

  /** The value of the digits after a decimal point. */
  function FractionValue(f: string): (r: real)
    requires IsDigits(f)
    ensures r >= 0.0
  {
    var d, p := DigitsValue(f) as real, Pow10(|f|) as real;
    assert d >= 0.0 && p >= 1.0;
    d / p
  }

  /** `tok.replace(' ', '').replace(',', '.')`, as the source writes it. */
  function Normalise(tok: string): string
  {
    Strings.ReplaceAll(Strings.ReplaceAll(tok, " ", ""), ",", ".")
  }

  /** What the normalisation is meant to do, in one pass: every space is
      dropped and every comma becomes a dot; other characters stay in order. */
  function Cleaned(tok: string): string
  {
    if tok == [] then []
    else (if tok[0] == ' ' then [] else if tok[0] == ',' then ['.'] else [tok[0]]) + Cleaned(tok[1..])
  }

  lemma {:induction false} NormaliseIsCleaned(tok: string)
    ensures Normalise(tok) == Cleaned(tok)
    decreases |tok|
  {
    if tok != [] {
      var c, rest := tok[0], tok[1..];
      assert tok == [c] + rest;
      assert " " == [' '] && "," == [','];
      Strings.ReplaceCharCons(c, rest, ' ', "");
      var mid := Strings.ReplaceAll(rest, " ", "");
      assert Strings.ReplaceAll(tok, " ", "") == (if c == ' ' then "" else [c]) + mid;
      NormaliseIsCleaned(rest);
      assert Strings.ReplaceAll(mid, ",", ".") == Cleaned(rest);
      if c == ' ' {
        assert Strings.ReplaceAll(tok, " ", "") == mid;
      } else {
        Strings.ReplaceCharCons(c, mid, ',', ".");
        assert Normalise(tok) == (if c == ',' then "." else [c]) + Cleaned(rest);
      }
    }
  }

  lemma {:induction false} CleanedHasNoSpaceOrComma(tok: string)
    ensures ' ' !in Cleaned(tok) && ',' !in Cleaned(tok)
    decreases |tok|
  {
    if tok != [] {
      CleanedHasNoSpaceOrComma(tok[1..]);
    }
  }

  lemma {:induction false} CleanedAppend(a: string, b: string)
    ensures Cleaned(a + b) == Cleaned(a) + Cleaned(b)
    decreases |a|
  {
    if a == [] {
      assert a + b == b;
    } else {
      assert (a + b)[0] == a[0];
      assert (a + b)[1..] == a[1..] + b;
      CleanedAppend(a[1..], b);
    }
  }

  lemma {:induction false} CleanedDigits(d: string)
    requires IsDigits(d)
    ensures Cleaned(d) == d
    decreases |d|
  {
    if d != [] {
      CleanedDigits(d[1..]);
    }
  }

  lemma {:induction false} CleanedSpaces(sp: string)
    requires forall i | 0 <= i < |sp| :: sp[i] == ' '
    ensures Cleaned(sp) == []
    decreases |sp|
  {
    if sp != [] {
      CleanedSpaces(sp[1..]);
    }
  }

  /** Index of the first `c` in `s`, or |s| when there is none (str.find). */
  function IndexOf(s: string, c: char): (k: nat)
    ensures k <= |s|
    ensures k < |s| ==> s[k] == c
    ensures forall i | 0 <= i < k :: s[i] != c
  {
    if s == [] then 0 else if s[0] == c then 0 else 1 + IndexOf(s[1..], c)
  }

  /** Text Python's float() accepts among strings of digits and dots:
      only digits and dots, at most one dot, at least one digit. */
  predicate WellFormedDecimal(s: string)
  {
    && (forall i | 0 <= i < |s| :: IsDigit(s[i]) || s[i] == '.')
    && (forall i, j | 0 <= i < j < |s| :: s[i] != '.' || s[j] != '.')
    && (exists i | 0 <= i < |s| :: IsDigit(s[i]))
  }

  /** Python's float() on the normalised token; None stands for ValueError.
      A normalised capture holds only digits, dots and whitespace and starts and
      ends with a digit, so signs, exponents and padding never arise. */
  function ParseDecimal(s: string): (r: Option<real>)
    ensures r.Some? <==> WellFormedDecimal(s)
    ensures r.Some? ==> r.value >= 0.0
  {
    var k := IndexOf(s, '.');
    var whole := s[..k];
    var frac := if k < |s| then s[k + 1..] else "";
    if IsDigits(whole) && IsDigits(frac) && |whole| + |frac| > 0 then
      Some(DigitsValue(whole) as real + FractionValue(frac))
    else
      None
  }

  /** float(tok.replace(' ', '').replace(',', '.')): the token read after its
      spaces are dropped and its commas become dots. */
  function ParseNumber(tok: string): (r: Option<real>)
    ensures r.Some? <==> WellFormedDecimal(Normalise(tok))
    ensures r.Some? ==> r.value >= 0.0
  {
    ParseDecimal(Normalise(tok))
  }

  /** Python's float() on "digits.digits". */
  lemma ParseDecimalPoint(whole: string, frac: string)
    requires IsDigits(whole) && IsDigits(frac) && |frac| > 0
    ensures ParseDecimal(whole + "." + frac) == Some(DigitsValue(whole) as real + FractionValue(frac))
  {
    var n := whole + "." + frac;
    SplitAtPoint(whole, frac);
    assert n[..|whole|] == whole;
    assert n[|whole| + 1..] == frac;
  }

  /** The point after `whole` is the first one. */
  lemma SplitAtPoint(whole: string, frac: string)
    requires IsDigits(whole)
    ensures IndexOf(whole + "." + frac, '.') == |whole|
  {
    var n := whole + "." + frac;
    assert n[|whole|] == '.';
    assert forall i | 0 <= i < |whole| :: n[i] == whole[i];
    IndexOfFirst(n, '.', |whole|);
  }

  lemma IndexOfFirst(s: string, c: char, k: nat)
    requires k < |s| && s[k] == c
    requires forall i | 0 <= i < k :: s[i] != c
    ensures IndexOf(s, c) == k
  {
  }

  /** Normalising "whole<spaces>rest,frac" gives "wholerest.frac". */
  lemma NormaliseSwedish(whole: string, sp: string, rest: string, frac: string)
    requires IsDigits(whole) && IsDigits(rest) && IsDigits(frac)
    requires forall i | 0 <= i < |sp| :: sp[i] == ' '
    ensures Normalise(whole + sp + rest + "," + frac) == (whole + rest) + "." + frac
  {
    NormaliseIsCleaned(whole + sp + rest + "," + frac);
    CleanedSwedish(whole, sp, rest, frac);
  }

  lemma CleanedSwedish(whole: string, sp: string, rest: string, frac: string)
    requires IsDigits(whole) && IsDigits(rest) && IsDigits(frac)
    requires forall i | 0 <= i < |sp| :: sp[i] == ' '
    ensures Cleaned(whole + sp + rest + "," + frac) == (whole + rest) + "." + frac
  {
    var a := whole + sp;
    var b := a + rest;
    var c := b + ",";
    CleanedDigits(whole);
    CleanedSpaces(sp);
    CleanedAppend(whole, sp);
    assert Cleaned(a) == whole;
    CleanedDigits(rest);
    CleanedAppend(a, rest);
    assert Cleaned(b) == whole + rest;
    CleanedComma();
    CleanedAppend(b, ",");
    assert Cleaned(c) == whole + rest + ".";
    CleanedDigits(frac);
    CleanedAppend(c, frac);
  }

  lemma CleanedComma()
    ensures Cleaned(",") == "."
  {
    assert ","[1..] == [];
  }

  lemma DigitsAppend(a: string, b: string)
    requires IsDigits(a) && IsDigits(b)
    ensures IsDigits(a + b)
  {
    assert forall i | |a| <= i < |a + b| :: (a + b)[i] == b[i - |a|];
  }

  /** A Swedish-format number with spaces as thousands separator reads as
      the digits on both sides of the spaces followed by the decimals. */
  lemma ParseSwedishNumber(whole: string, sp: string, rest: string, frac: string)
    requires IsDigits(whole) && IsDigits(rest) && IsDigits(frac) && |frac| > 0
    requires forall i | 0 <= i < |sp| :: sp[i] == ' '
    ensures IsDigits(whole + rest)
    ensures ParseNumber(whole + sp + rest + "," + frac)
         == Some(DigitsValue(whole + rest) as real + FractionValue(frac))
  {
    DigitsAppend(whole, rest);
    SwedishReadsAsPoint(whole, sp, rest, frac);
    ReadAsPoint(whole + sp + rest + "," + frac, whole + rest, frac);
  }

  lemma ReadAsPoint(tok: string, whole: string, frac: string)
    requires IsDigits(whole) && IsDigits(frac) && |frac| > 0
    requires ParseNumber(tok) == ParseDecimal(whole + "." + frac)
    ensures ParseNumber(tok) == Some(DigitsValue(whole) as real + FractionValue(frac))
  {
    ParseDecimalPoint(whole, frac);
  }

  lemma SwedishReadsAsPoint(whole: string, sp: string, rest: string, frac: string)
    requires IsDigits(whole) && IsDigits(rest) && IsDigits(frac)
    requires forall i | 0 <= i < |sp| :: sp[i] == ' '
    ensures ParseNumber(whole + sp + rest + "," + frac) == ParseDecimal((whole + rest) + "." + frac)
  {
    NormaliseSwedish(whole, sp, rest, frac);
  }

  lemma DigitsValueExample()
    ensures IsDigits("1234") && DigitsValue("1234") == 1234
    ensures IsDigits("50") && FractionValue("50") == 0.50
  {
    assert "1234"[..3] == "123" && "123"[..2] == "12" && "12"[..1] == "1" && "1"[..0] == "";
    assert "50"[..1] == "5" && "5"[..0] == "";
    assert Pow10(2) == 100;
  }

  lemma ExampleParts()
    ensures IsDigits("1") && IsDigits("234") && IsDigits("50")
    ensures forall i | 0 <= i < |" "| :: " "[i] == ' '
    ensures "1" + " " + "234" + "," + "50" == "1 234,50"
    ensures "1" + "234" == "1234"
  {
  }

  /** The example the source is written for: "1 234,50" is 1234.50. */
  lemma ParseExample()
    ensures ParseNumber("1 234,50") == Some(1234.50)
  {
    ExampleParts();
    ParseSwedishNumber("1", " ", "234", "50");
    DigitsValueExample();
  }

  /** A comma used as thousands separator (which the capture pattern admits)
      turns into a second dot, and float() raises. */
  lemma ThousandsCommaRejected(whole: string, rest: string, frac: string)
    requires IsDigits(whole) && IsDigits(rest) && IsDigits(frac)
    ensures ParseNumber(whole + "," + rest + "," + frac) == None
  {
    var tok := whole + "," + rest + "," + frac;
    NormaliseIsCleaned(tok);
    CleanedAppend(whole + "," + rest + ",", frac);
    CleanedAppend(whole + "," + rest, ",");
    CleanedAppend(whole + ",", rest);
    CleanedAppend(whole, ",");
    CleanedDigits(whole);
    CleanedDigits(rest);
    CleanedDigits(frac);
    assert Cleaned(",") == ".";
    var m := whole + "." + rest + "." + frac;
    assert Normalise(tok) == m;
    assert m[|whole|] == '.' && m[|whole| + 1 + |rest|] == '.';
  }
}
