/** The second source's prices: per-token decimal strings, turned into per-million-token text by moving the point. */
module Decimals {
  import opened Texts
  import opened Wrappers

  // ---------------------------------------------------------------- what a decimal text denotes

  function Points(s: string): nat {
    if s == [] then 0 else (if s[0] == '.' then 1 else 0) + Points(s[1..])
  }

  /** The digits of a text, its points left out. */
  function Digits(s: string): string {
    if s == [] then [] else (if s[0] == '.' then [] else [s[0]]) + Digits(s[1..])
  }

  /** How many characters follow the first point. */
  function Places(s: string): nat {
    if s == [] then 0 else if s[0] == '.' then |s| - 1 else Places(s[1..])
  }

  /** Digits with at most one point among them, and at least one digit. */
  predicate IsDecimal(s: string) {
    (forall i :: 0 <= i < |s| ==> IsDigit(s[i]) || s[i] == '.') && Points(s) <= 1 && Digits(s) != []
  }

  /** The number a run of digits writes. */
  function Numeral(s: string): int {
    if s == [] then 0 else 10 * Numeral(s[..|s| - 1]) + (s[|s| - 1] as int - '0' as int)
  }

  function Pow10(n: nat): (p: int)
    ensures p > 0
  {
    if n == 0 then 1 else 10 * Pow10(n - 1)
  }

  /** What a decimal text denotes. */
  function Value(s: string): real {
    Numeral(Digits(s)) as real / Pow10(Places(s)) as real
  }

  // ---------------------------------------------------------------- trimming

  /** A trimmed text without its one optional plus sign. */
  function Unsigned(s: string): string {
    if s != [] && s[0] == '+' then s[1..] else s
  }

  // ---------------------------------------------------------------- facts about texts

  lemma {:induction false} DigitsOnly(s: string)
    requires AllDigits(s)
    ensures Digits(s) == s && Points(s) == 0 && Places(s) == 0
  {
    if s == [] {
    } else {
      DigitsOnly(s[1..]);
    }
  }

  /** A whole part, a point and a fraction. */
  lemma {:induction false} Pointed(whole: string, fraction: string)
    requires AllDigits(whole)
    ensures var s := whole + (['.'] + fraction);
      Digits(s) == whole + Digits(fraction) && Points(s) == 1 + Points(fraction) && Places(s) == |fraction|
  {
    var s := whole + (['.'] + fraction);
    if whole == [] {
      assert s == ['.'] + fraction && s[1..] == fraction;
    } else {
      Pointed(whole[1..], fraction);
      assert s[1..] == whole[1..] + (['.'] + fraction);
    }
  }

  lemma {:induction false} NoPoints(s: string)
    requires Points(s) == 0 && forall i :: 0 <= i < |s| ==> IsDigit(s[i]) || s[i] == '.'
    ensures AllDigits(s)
  {
    if s == [] {
    } else {
      NoPoints(s[1..]);
      assert forall i :: 0 < i < |s| ==> s[i] == s[1..][i - 1];
    }
  }

  function Zeros(n: nat): (z: string)
    ensures |z| == n && AllDigits(z)
  {
    seq(n, i => '0')
  }

  /** Zeros at the end multiply by ten each. */
  lemma {:induction false} Padded(s: string, n: nat)
    ensures Numeral(s + Zeros(n)) == Numeral(s) * Pow10(n)
  {
    if n == 0 {
      assert s + Zeros(0) == s;
    } else {
      Padded(s, n - 1);
      var t := s + Zeros(n);
      assert t[..|t| - 1] == s + Zeros(n - 1);
    }
  }

  lemma {:induction false} PowAdds(a: nat, b: nat)
    ensures Pow10(a + b) == Pow10(a) * Pow10(b)
  {
    if a == 0 {
    } else {
      PowAdds(a - 1, b);
      assert Pow10(a) * Pow10(b) == 10 * (Pow10(a - 1) * Pow10(b));
    }
  }

  lemma Tens(x: int, p: int)
    ensures x * (10 * p) == 10 * (x * p)
  {
  }

  /** Numbers are read in tens: putting one text behind another shifts the first by as many places as the second has. */
  lemma {:induction false} NumeralLaw(a: string, b: string)
    ensures Numeral(a + b) == Numeral(a) * Pow10(|b|) + Numeral(b)
  {
    if b == [] {
      assert a + b == a;
    } else {
      var n: nat := |b| - 1;
      var front := b[..n];
      NumeralLaw(a, front);
      assert (a + b)[..|a + b| - 1] == a + front;
      Tens(Numeral(a), Pow10(n));
    }
  }

  lemma DigitLaw(c: char)
    ensures Numeral([c]) == c as int - 48 && Pow10(0) == 1 && Pow10(1) == 10
  {
    assert [c][..0] == [];
    assert Pow10(1) == 10 * Pow10(0);
  }

  // ---------------------------------------------------------------- moving the point

  const SHIFT := 6

  function Moved(fraction: string): nat {
    if |fraction| <= SHIFT then |fraction| else SHIFT
  }

  /** The text after the shift. */
  function Shifted(whole: string, fraction: string): string {
    var moved := Moved(fraction);
    whole + fraction[..moved] + Zeros(SHIFT - moved) + (if moved < |fraction| then ['.'] + fraction[moved..] else [])
  }

  lemma RatioByTen(n: int, p: int, q: int, k: int)
    requires p > 0 && q > 0 && k > 0 && p == q * k
    ensures n as real / q as real == (n as real / p as real) * k as real
  {
    assert p as real == q as real * k as real;
    assert n as real / p as real * p as real == n as real;
    assert (n as real / p as real) * k as real * q as real == n as real;
  }

  lemma Million()
    ensures Pow10(6) == 1000000
  {
    assert Pow10(3) == 1000;
    PowAdds(3, 3);
  }

  /** More than six decimals: the point moves inside the digits. */
  lemma ShiftInside(whole: string, fraction: string)
    requires AllDigits(whole) && AllDigits(fraction) && |fraction| > SHIFT
    ensures var text := Shifted(whole, fraction);
      IsDecimal(text) && Digits(text) == whole + fraction && Places(text) == |fraction| - SHIFT
  {
    var front, rest := whole + fraction[..SHIFT], fraction[SHIFT..];
    var text := front + (['.'] + rest);
    assert whole + fraction[..SHIFT] + Zeros(0) == front;
    assert Shifted(whole, fraction) == text;
    Pointed(front, rest);
    DigitsOnly(rest);
    assert front + rest == whole + fraction;
    forall i | 0 <= i < |text| ensures IsDigit(text[i]) || text[i] == '.' {
      assert i < |front| ==> text[i] == front[i];
      assert i > |front| ==> text[i] == rest[i - |front| - 1];
    }
  }

  /** Six decimals or fewer: zeros make up the rest and no point is left. */
  lemma ShiftPast(whole: string, fraction: string)
    requires AllDigits(whole) && AllDigits(fraction) && |fraction| <= SHIFT
    ensures var text := Shifted(whole, fraction);
      IsDecimal(text) && Digits(text) == (whole + fraction) + Zeros(SHIFT - |fraction|) && Places(text) == 0
  {
    var n := SHIFT - |fraction|;
    var text := (whole + fraction) + Zeros(n);
    assert fraction[..|fraction|] == fraction;
    assert Shifted(whole, fraction) == text + [] == text;
    assert |text| == |whole| + SHIFT;
    DigitsOnly(text);
  }

  /** Moving the point six places multiplies by exactly one million, at any length and precision. */
  lemma ShiftIsExact(whole: string, fraction: string)
    requires AllDigits(whole) && AllDigits(fraction)
    ensures IsDecimal(Shifted(whole, fraction))
    ensures Value(Shifted(whole, fraction)) ==
        (Numeral(whole + fraction) as real / Pow10(|fraction|) as real) * 1000000.0
  {
    if |fraction| > SHIFT {
      ShiftInside(whole, fraction);
      InsideValue(Shifted(whole, fraction), whole + fraction, |fraction|);
    } else {
      ShiftPast(whole, fraction);
      PastValue(Shifted(whole, fraction), whole + fraction, |fraction|);
    }
  }

  lemma InsideValue(text: string, digits: string, places: nat)
    requires places > SHIFT && Digits(text) == digits && Places(text) == places - SHIFT
    ensures Value(text) == (Numeral(digits) as real / Pow10(places) as real) * 1000000.0
  {
    InsidePowers(places);
    RatioByTen(Numeral(digits), Pow10(places), Pow10(places - SHIFT), 1000000);
  }

  lemma InsidePowers(places: nat)
    requires places > SHIFT
    ensures Pow10(places) == Pow10(places - SHIFT) * 1000000
  {
    Million();
    var rest: nat := places - SHIFT;
    PowAdds(rest, SHIFT);
  }

  lemma PastValue(text: string, digits: string, places: nat)
    requires places <= SHIFT && Digits(text) == digits + Zeros(SHIFT - places) && Places(text) == 0
    ensures Value(text) == (Numeral(digits) as real / Pow10(places) as real) * 1000000.0
  {
    PastPowers(digits, places);
    WholeValue(text);
    RatioUp(Numeral(digits), Numeral(Digits(text)), Pow10(places), Pow10(SHIFT - places));
  }

  lemma WholeValue(text: string)
    requires Places(text) == 0
    ensures Value(text) == Numeral(Digits(text)) as real
  {
  }

  lemma PastPowers(digits: string, places: nat)
    requires places <= SHIFT
    ensures Numeral(digits + Zeros(SHIFT - places)) == Numeral(digits) * Pow10(SHIFT - places)
    ensures Pow10(places) * Pow10(SHIFT - places) == 1000000
  {
    Million();
    var pad: nat := SHIFT - places;
    Padded(digits, pad);
    PowAdds(places, pad);
  }

  lemma RatioUp(n: int, m: int, p: int, k: int)
    requires p > 0 && k > 0 && p * k == 1000000 && m == n * k
    ensures m as real == (n as real / p as real) * 1000000.0
  {
    var x := n as real / p as real;
    assert x * p as real == n as real;
    assert p as real * k as real == 1000000.0;
    assert x * (p as real * k as real) == (x * p as real) * k as real;
  }

  // ---------------------------------------------------------------- the parser

  /** Split at the first point, if there is one. */
  method SplitOnce(s: string) returns (whole: string, fraction: string, found: bool)
    ensures found ==> s == whole + (['.'] + fraction)
    ensures !found ==> whole == s && fraction == []
    ensures forall i :: 0 <= i < |whole| ==> whole[i] != '.'
  {
    var i := 0;
    while i < |s| && s[i] != '.'
      invariant 0 <= i <= |s| && forall k :: 0 <= k < i ==> s[k] != '.'
    {
      i := i + 1;
    }
    if i < |s| {
      whole, fraction, found := s[..i], s[i + 1..], true;
    } else {
      whole, fraction, found := s, [], false;
    }
  }

  method CheckDigits(s: string) returns (ok: bool)
    ensures ok <==> AllDigits(s)
  {
    ok := true;
    var i := 0;
    while i < |s|
      invariant 0 <= i <= |s| && (ok <==> forall k :: 0 <= k < i ==> IsDigit(s[k]))
    {
      ok := ok && IsDigit(s[i]);
      i := i + 1;
    }
  }

  lemma SplitTells(s: string, whole: string, fraction: string, found: bool)
    requires if found then s == whole + (['.'] + fraction) else whole == s && fraction == []
    requires forall i :: 0 <= i < |whole| ==> whole[i] != '.'
    ensures IsDecimal(s) <==> AllDigits(whole) && AllDigits(fraction) && (whole != [] || fraction != [])
    ensures IsDecimal(s) ==> Digits(s) == whole + fraction && Places(s) == |fraction|
  {
    if found {
      if AllDigits(whole) {
        Pointed(whole, fraction);
        if AllDigits(fraction) { DigitsOnly(fraction); }
      }
      assert forall i :: 0 <= i < |whole| ==> s[i] == whole[i];
      assert forall i :: 0 <= i < |fraction| ==> s[|whole| + 1 + i] == fraction[i];
      if IsDecimal(s) {
        assert AllDigits(whole);
        NoPoints(fraction);
        DigitsOnly(fraction);
      }
    } else {
      if AllDigits(whole) { DigitsOnly(whole); }
      if IsDecimal(s) { assert AllDigits(s); DigitsOnly(s); }
    }
  }

  /** What a published price means, per million tokens: nothing unless it is a plain non-negative decimal. */
  function PerMtokValue(price: string): Option<real> {
    var body := Unsigned(Trim(price));
    if IsDecimal(body) then Some(Value(body) * 1000000.0) else None
  }

  /** An optional plus sign, digits, and optionally a point and more digits, with one digit at least. */
  ghost predicate Grammatical(body: string, whole: string, fraction: string) {
    && (forall i :: 0 <= i < |whole| ==> '0' <= whole[i] <= '9')
    && (forall i :: 0 <= i < |fraction| ==> '0' <= fraction[i] <= '9')
    && whole + fraction != ""
    && (body == whole + "." + fraction || body == "+" + whole + "." + fraction
        || (fraction == "" && (body == whole || body == "+" + whole)))
  }

  /** What is accepted as a price: exactly the trimmed texts of that form. */
  lemma PriceLaw(price: string)
    ensures PerMtokValue(price).Some? <==> exists whole, fraction :: Grammatical(Trim(price), whole, fraction)
  {
    if PerMtokValue(price).Some? {
      var whole, fraction := Parted(Unsigned(Trim(price)));
      Signed(Trim(price), whole, fraction);
    }
    if whole, fraction :| Grammatical(Trim(price), whole, fraction) {
      GrammarMeans(Trim(price), whole, fraction);
    }
  }

  /** And what it means: a million times the number they write. */
  lemma ReadingLaw(price: string, whole: string, fraction: string)
    requires Grammatical(Trim(price), whole, fraction)
    ensures PerMtokValue(price).Some?
    ensures PerMtokValue(price).value == 1000000.0 * (Numeral(whole + fraction) as real / Pow10(|fraction|) as real)
  {
    GrammarMeans(Trim(price), whole, fraction);
    var value := Value(Unsigned(Trim(price)));
    Scaled(price, value);
  }

  lemma Scaled(price: string, value: real)
    requires IsDecimal(Unsigned(Trim(price))) && Value(Unsigned(Trim(price))) == value
    ensures PerMtokValue(price) == Some(value * 1000000.0)
  {
  }

  lemma Signed(body: string, whole: string, fraction: string)
    requires AllDigits(whole) && AllDigits(fraction) && whole + fraction != ""
    requires Unsigned(body) == whole + (['.'] + fraction) || (Unsigned(body) == whole && fraction == "")
    ensures Grammatical(body, whole, fraction)
  {
    assert whole + "." + fraction == whole + (['.'] + fraction);
    if body != [] && body[0] == '+' {
      assert body == "+" + body[1..];
      assert "+" + (whole + (['.'] + fraction)) == "+" + whole + "." + fraction;
    }
  }

  lemma {:induction false} Parted(s: string) returns (whole: string, fraction: string)
    requires IsDecimal(s)
    ensures AllDigits(whole) && AllDigits(fraction) && whole + fraction != ""
    ensures s == whole + (['.'] + fraction) || (s == whole && fraction == "")
  {
    var i := 0;
    while i < |s| && s[i] != '.'
      invariant 0 <= i <= |s| && forall k :: 0 <= k < i ==> s[k] != '.'
    {
      i := i + 1;
    }
    if i < |s| {
      whole, fraction := s[..i], s[i + 1..];
      assert s == whole + (['.'] + fraction);
      SplitTells(s, whole, fraction, true);
    } else {
      whole, fraction := s, "";
      SplitTells(s, whole, fraction, false);
    }
  }

  lemma GrammarMeans(body: string, whole: string, fraction: string)
    requires Grammatical(body, whole, fraction)
    ensures IsDecimal(Unsigned(body))
    ensures Value(Unsigned(body)) == Numeral(whole + fraction) as real / Pow10(|fraction|) as real
  {
    var s := Unsigned(body);
    GrammarUnsigned(body, whole, fraction);
    assert AllDigits(whole) && AllDigits(fraction);
    SplitTells(s, whole, fraction, s == whole + (['.'] + fraction));
  }

  lemma GrammarUnsigned(body: string, whole: string, fraction: string)
    requires Grammatical(body, whole, fraction)
    ensures Unsigned(body) == whole + (['.'] + fraction) || (Unsigned(body) == whole && fraction == "")
  {
    var dotted := whole + (['.'] + fraction);
    assert whole + "." + fraction == dotted;
    if body == "+" + whole + "." + fraction {
      assert body[1..] == dotted;
    } else if body == "+" + whole {
      assert body[1..] == whole;
    } else {
      assert body == dotted || body == whole;
      assert body[0] != '+';
    }
  }

  /** Accepts exactly a trimmed decimal with an optional plus sign, and rewrites it to text that denotes exactly
      one million times as much. */
  method PerMtok(price: string) returns (text: Option<string>)
    ensures text.Some? <==> IsDecimal(Unsigned(Trim(price)))
    ensures text.Some? ==> IsDecimal(text.value) && Some(Value(text.value)) == PerMtokValue(price)
  {
    var body := Unsigned(Trim(price));
    if body == [] || body[0] == '-' {
      return None;
    }
    var whole, fraction, found := SplitOnce(body);
    SplitTells(body, whole, fraction, found);
    if whole == [] && fraction == [] {
      return None;
    }
    var wholeOk := CheckDigits(whole);
    var fractionOk := CheckDigits(fraction);
    if !wholeOk || !fractionOk {
      return None;
    }
    var moved := if |fraction| <= SHIFT then |fraction| else SHIFT;
    var shifted := whole + fraction[..moved];
    var i := moved;
    while i < SHIFT
      invariant moved <= i <= SHIFT && shifted == whole + fraction[..moved] + Zeros(i - moved)
    {
      shifted := shifted + ['0'];
      i := i + 1;
    }
    if moved < |fraction| {
      shifted := shifted + ['.'];
      shifted := shifted + fraction[moved..];
    }
    assert shifted == Shifted(whole, fraction);
    ShiftIsExact(whole, fraction);
    return Some(shifted);
  }
}
