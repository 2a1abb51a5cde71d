/**
 * The numbers the Dobot replies carry and the Dobot commands render: a token is read with
 * `float(p)` when it contains a '.', and with `int(p)` otherwise; an argument is written with
 * `str(v)`. A float is kept as the exact decimal its token denotes.
 */
module Numbers {
  import opened Common
  import opened Text

  /**
   * `Int(i)` is a Python int; `Float(negative, digits, scale)` is the decimal
   * ±digits / 10^scale (the sign is kept apart, so -0.0 is a value of its own, as in Python).
   */
  datatype Number = Int(i: int) | Float(negative: bool, digits: nat, scale: nat)

  /**
   * The shape `str(float)` writes for a decimal without exponent: at least one fraction digit,
   * and no trailing zero after the first fraction digit.
   */
  predicate Canonical(n: Number)
  {
    n.Float? ==> n.scale >= 1 && (n.scale == 1 || n.digits % 10 != 0)
  }

  /** Python truthiness of a number: zero (int or float, either sign) is falsy. */
  predicate Truthy(n: Number)
  {
    match n
    case Int(i) => i != 0
    case Float(_, d, _) => d != 0
  }

  /** The digits of a float's text: its digit value, left-padded to more than `scale` digits. */
  function FloatDigits(digits: nat, scale: nat): (d: string)
    ensures AllDigits(d) && |d| > scale
  {
    PadDigits(NatToString(digits), scale + 1)
  }

  /** The unsigned text of a float: its padded digits with a '.' before the last `k` of them. */
  function FloatBody(digits: nat, k: nat): string
  {
    var d := FloatDigits(digits, k);
    d[..|d| - k] + "." + d[|d| - k..]
  }

  /** `str(n)`: an int in decimal; a float as its sign followed by its body. */
  function RenderNumber(n: Number): string
  {
    match n
    case Int(i) => IntToString(i)
    case Float(neg, digits, k) => (if neg then "-" else "") + FloatBody(digits, k)
  }

  /**
   * Brings the decimal digits / 10^k into the canonical shape: trailing fraction zeros are
   * dropped down to one fraction digit, and a number written with no fraction digit (`"1."`)
   * gets one.
   */
  function Normalize(digits: nat, k: nat): (r: (nat, nat))
    ensures r.1 >= 1 && (r.1 == 1 || r.0 % 10 != 0)
    decreases k
  {
    if k == 0 then (digits * 10, 1)
    else if k > 1 && digits % 10 == 0 then Normalize(digits / 10, k - 1)
    else (digits, k)
  }

  /** `Normalize` keeps the value of the decimal: digits / 10^k == r.0 / 10^r.1. */
  lemma {:induction false} NormalizeValue(digits: nat, k: nat)
    ensures var r := Normalize(digits, k); r.0 * Pow10(k) == digits * Pow10(r.1)
    decreases k
  {
    if k > 1 && digits % 10 == 0 {
      var r := Normalize(digits / 10, k - 1);
      NormalizeValue(digits / 10, k - 1);
      var q := digits / 10;
      var p, p' := Pow10(k - 1), Pow10(r.1);
      assert digits == q * 10;
      assert r.0 * p == q * p';
      MulTen(r.0, p);
      MulTen(q, p');
    }
  }

  /** Multiplying one factor by ten multiplies the product by ten. */
  lemma MulTen(x: int, y: int)
    ensures x * (y * 10) == (x * y) * 10 && (x * 10) * y == (x * y) * 10
  {
  }

  /** A canonical decimal is its own normal form. */
  lemma NormalizeCanonical(digits: nat, k: nat)
    requires k >= 1 && (k == 1 || digits % 10 != 0)
    ensures Normalize(digits, k) == (digits, k)
  {
  }

  /**
   * The unsigned part of a float token, `whole.frac` with at least one digit in all, as the value
   * of its digits and the number of fraction digits.
   */
  function DecimalBody(body: string): (r: Option<(nat, nat)>)
    ensures r.Some? ==> '.' in body
  {
    var parts := SplitOnce(body, '.');
    if |parts| != 2 || parts[0] + parts[1] == [] || !AllDigits(parts[0] + parts[1]) then None
    else Some((DigitsValue(parts[0] + parts[1]), |parts[1]|))
  }

  /**
   * `float(p)` for a token made of an optional sign, digits, a '.', and digits, with at least
   * one digit in all; None where Python raises ValueError.
   */
  function ParseFloat(s: string): (r: Option<Number>)
    ensures r.Some? ==> r.value.Float? && Canonical(r.value)
  {
    var (body, negative) := SignSplit(Strip(s));
    match DecimalBody(body)
    case None => None
    case Some((a, k)) =>
      var (digits, scale) := Normalize(a, k);
      Some(Float(negative, digits, scale))
  }

  /** One reply token: `float(p) if '.' in p else int(p)`. */
  function ParseNumber(p: string): (r: Option<Number>)
    ensures r.Some? ==> ('.' in p <==> r.value.Float?)
  {
    if '.' in p then ParseFloat(p)
    else
      match ParseInt(p)
      case None => None
      case Some(i) => Some(Int(i))
  }

  // ---------------------------------------------------------------------------------------------
  // Reading back what was rendered

  /** Text before the first occurrence of a character is determined by that occurrence. */
  lemma SplitAtFirst(p0: string, p1: string, a: string, b: string, c: char)
    requires c !in p0 && c !in a
    requires p0 + [c] + p1 == a + [c] + b
    ensures p0 == a && p1 == b
  {
    var s := a + [c] + b;
    assert forall j :: 0 <= j < |p0| ==> s[j] == p0[j];
    assert forall j :: 0 <= j < |a| ==> s[j] == a[j];
    assert s[|p0|] == c && s[|a|] == c;
    assert |p0| == |a|;
    assert p0 == s[..|a|] == a;
    assert p1 == s[|a| + 1..] == b;
  }

  /** A `whole.frac` body splits at its '.' into the whole and the fraction digits. */
  lemma FloatBodySplit(whole: string, frac: string)
    requires AllDigits(whole)
    ensures SplitOnce(whole + "." + frac, '.') == [whole, frac]
  {
    assert '.' !in whole;
    var parts := SplitOnce(whole + "." + frac, '.');
    SplitAtFirst(parts[0], parts[1], whole, frac, '.');
  }

  lemma AllDigitsConcat(a: string, b: string)
    requires AllDigits(a) && AllDigits(b)
    ensures AllDigits(a + b)
  {
    forall i | 0 <= i < |a + b| ensures IsDigit((a + b)[i]) {
      if i >= |a| { assert (a + b)[i] == b[i - |a|]; }
    }
  }

  /** The body `whole.frac` reads as the value of its digits and the length of its fraction. */
  lemma DecimalBodyOf(whole: string, frac: string)
    requires AllDigits(whole) && |whole| > 0 && AllDigits(frac)
    ensures AllDigits(whole + frac)
    ensures DecimalBody(whole + "." + frac) == Some((DigitsValue(whole + frac), |frac|))
  {
    FloatBodySplit(whole, frac);
    AllDigitsConcat(whole, frac);
  }

  /** The body of a float's text reads back as its digit value and scale. */
  lemma FloatBodyValue(digits: nat, k: nat)
    ensures DecimalBody(FloatBody(digits, k)) == Some((digits, k))
  {
    var d := FloatDigits(digits, k);
    var whole, frac := d[..|d| - k], d[|d| - k..];
    assert whole + frac == d;
    DecimalBodyOf(whole, frac);
    NatToStringValue(digits);
    PadDigitsValue(NatToString(digits), k + 1);
  }

  /** The body of a float's text runs from a digit to a digit. */
  lemma FloatBodyEnds(digits: nat, k: nat)
    requires k >= 1
    ensures var b := FloatBody(digits, k); |b| > 0 && IsDigit(b[0]) && IsDigit(b[|b| - 1])
  {
    var d := FloatDigits(digits, k);
    var b := FloatBody(digits, k);
    assert b[0] == d[0] && b[|b| - 1] == d[|d| - 1];
  }

  /** What `ParseFloat` computes from a stripped token whose sign has been split off. */
  lemma ParseFloatUnfold(s: string, body: string, negative: bool, a: nat, k: nat)
    requires Strip(s) == s && SignSplit(s) == (body, negative)
    requires DecimalBody(body) == Some((a, k))
    ensures ParseFloat(s) == Some(Float(negative, Normalize(a, k).0, Normalize(a, k).1))
  {
  }

  /** `float(str(x)) == x` for a canonical negative float. */
  lemma ParseRenderMinusFloat(digits: nat, k: nat)
    requires k >= 1 && (k == 1 || digits % 10 != 0)
    ensures ParseFloat("-" + FloatBody(digits, k)) == Some(Float(true, digits, k))
  {
    var body := FloatBody(digits, k);
    FloatBodyEnds(digits, k);
    MinusTextShape(body);
    FloatBodyValue(digits, k);
    ParseFloatUnfold("-" + body, body, true, digits, k);
    NormalizeCanonical(digits, k);
  }

  /** `float(str(x)) == x` for a canonical non-negative float. */
  lemma ParseRenderPlainFloat(digits: nat, k: nat)
    requires k >= 1 && (k == 1 || digits % 10 != 0)
    ensures ParseFloat(FloatBody(digits, k)) == Some(Float(false, digits, k))
  {
    var body := FloatBody(digits, k);
    FloatBodyEnds(digits, k);
    UnsignedTextShape(body);
    FloatBodyValue(digits, k);
    ParseFloatUnfold(body, body, false, digits, k);
    NormalizeCanonical(digits, k);
  }

  /** `str(i)` is a sign and digits only. */
  lemma IntTextHasNoDot(i: int)
    ensures '.' !in IntToString(i) && ',' !in IntToString(i)
  {
    var s := IntToString(i);
    forall j | 0 <= j < |s| ensures s[j] != '.' && s[j] != ',' {
      if i < 0 && j > 0 { assert s[j] == NatToString(-i)[j - 1]; }
    }
  }

  /** The text of a float holds a '.' and no ','. */
  lemma FloatTextChars(n: Number)
    requires n.Float?
    ensures '.' in RenderNumber(n) && ',' !in RenderNumber(n)
  {
    var d := FloatDigits(n.digits, n.scale);
    var k := n.scale;
    var sign := if n.negative then "-" else "";
    var s := RenderNumber(n);
    assert s == sign + (d[..|d| - k] + "." + d[|d| - k..]);
    assert s[|sign| + |d| - k] == '.';
    forall j | 0 <= j < |s| ensures s[j] != ',' {
      if j < |sign| { } else if j < |sign| + |d| - k { assert s[j] == d[j - |sign|]; }
      else if j > |sign| + |d| - k { assert s[j] == d[j - |sign| - 1]; }
    }
  }

  /** Reading back a rendered number gives it back: `int(str(i)) == i`, `float(str(x)) == x`. */
  lemma ParseRender(n: Number)
    requires Canonical(n)
    ensures ParseNumber(RenderNumber(n)) == Some(n)
  {
    match n
    case Int(i) =>
      IntTextHasNoDot(i);
      ParseIntToString(i);
    case Float(neg, digits, k) =>
      FloatTextChars(n);
      if neg {
        ParseRenderMinusFloat(digits, k);
      } else {
        assert RenderNumber(n) == FloatBody(digits, k);
        ParseRenderPlainFloat(digits, k);
      }
  }

  /** A rendered number never contains a comma, so it survives a split on commas as one token. */
  lemma RenderHasNoComma(n: Number)
    ensures ',' !in RenderNumber(n)
  {
    match n
    case Int(i) => IntTextHasNoDot(i);
    case Float(_, _, _) => FloatTextChars(n);
  }

  /** `int("-7")` reads -7; `int("")` raises. */
  lemma ParseNumberExamples()
    ensures ParseNumber("-7") == Some(Int(-7))
    ensures ParseNumber("") == None
  {
    assert Strip("-7") == "-7";
    assert SignSplit("-7") == ("7", true);
    assert DigitRun("7");
    assert DropUnderscores("7") == "7";
    ParseIntEmpty();
  }

  // ---------------------------------------------------------------------------------------------
  // Lists of number tokens

  /**
   * `[float(p) if '.' in p else int(p) for p in ps]`: every token read as a number, or
   * ValueError when one of them is not a number.
   */
  function ParseTokens(ps: seq<string>): (r: Result<seq<Number>>)
    ensures r.Ok? ==> |r.value| == |ps| && forall i :: 0 <= i < |ps| ==> ParseNumber(ps[i]) == Some(r.value[i])
    ensures r.Err? ==> r.error == ValueError && exists i :: 0 <= i < |ps| && ParseNumber(ps[i]).None?
  {
    if ps == [] then Ok([])
    else
      match ParseNumber(ps[0])
      case None => Err(ValueError)
      case Some(n) =>
        match ParseTokens(ps[1..])
        case Err(e) => Err(e)
        case Ok(ns) => Ok([n] + ns)
  }

  /** The texts of a list of numbers, as `str` writes them. */
  function RenderAll(ns: seq<Number>): (ps: seq<string>)
    ensures |ps| == |ns| && forall i :: 0 <= i < |ns| ==> ps[i] == RenderNumber(ns[i])
  {
    seq(|ns|, i requires 0 <= i < |ns| => RenderNumber(ns[i]))
  }

  predicate AllCanonical(ns: seq<Number>) { forall i :: 0 <= i < |ns| ==> Canonical(ns[i]) }

  /** Reading back rendered number tokens gives the numbers back. */
  lemma {:induction false} ParseTokensRender(ns: seq<Number>)
    requires AllCanonical(ns)
    ensures ParseTokens(RenderAll(ns)) == Ok(ns)
  {
    if ns != [] {
      ParseRender(ns[0]);
      assert RenderAll(ns)[1..] == RenderAll(ns[1..]);
      ParseTokensRender(ns[1..]);
      assert ns == [ns[0]] + ns[1..];
    }
  }

  /** A rendered number is never empty and holds no comma. */
  lemma RenderedToken(n: Number)
    ensures RenderNumber(n) != "" && ',' !in RenderNumber(n)
  {
    RenderHasNoComma(n);
    if n.Float? { FloatTextChars(n); }
  }
}
