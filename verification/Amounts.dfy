/** The exact decimal parser (internal/domain/transfer.go). */
module Amounts {
  import opened Domain

  datatype ParseError = EmptyAmount | NegativeAmount | TooManyDecimals | InvalidNumber

  // ---- the string operations the parser uses ----

  /** unicode.IsSpace. */
  predicate IsSpace(c: char) {
    || c in {'\t', '\n', '\U{000B}', '\U{000C}', '\r', ' ', '\U{0085}', '\U{00A0}'}
    || c in {'\U{1680}', '\U{2028}', '\U{2029}', '\U{202F}', '\U{205F}', '\U{3000}'}
    || '\U{2000}' <= c <= '\U{200A}'
  }

  function TrimLeft(s: string): string {
    if s != "" && IsSpace(s[0]) then TrimLeft(s[1..]) else s
  }

  function TrimRight(s: string): string {
    if s != "" && IsSpace(s[|s| - 1]) then TrimRight(s[..|s| - 1]) else s
  }

  function TrimSpace(s: string): string {
    TrimRight(TrimLeft(s))
  }

  /** The text before the first point and, when there is a point, the text after it. */
  function SplitPoint(s: string): (string, Option<string>) {
    if s == "" then ("", None)
    else if s[0] == '.' then ("", Some(s[1..]))
    else var (before, after) := SplitPoint(s[1..]); ([s[0]] + before, after)
  }

  function TrimZeros(s: string): string {
    if s != "" && s[0] == '0' then TrimZeros(s[1..]) else s
  }

  function Zeros(n: nat): (s: string)
    ensures |s| == n
  {
    if n == 0 then "" else "0" + Zeros(n - 1)
  }

  predicate IsDigit(c: char) {
    '0' <= c <= '9'
  }

  predicate AllDigits(s: string) {
    forall i :: 0 <= i < |s| ==> IsDigit(s[i])
  }

  function Value(s: string): nat
    requires AllDigits(s)
  {
    if s == "" then 0 else 10 * Value(s[..|s| - 1]) + (s[|s| - 1] as int - '0' as int)
  }

  predicate IsSign(c: char) {
    c == '+' || c == '-'
  }

  /** big.Int's SetString in base 10: an optional sign, then at least one digit and nothing else. */
  function SetString(s: string): Option<int> {
    var signed := s != "" && IsSign(s[0]);
    var body := if signed then s[1..] else s;
    if body == "" || !AllDigits(body) then None else
    var n: int := Value(body);
    Some(if signed && s[0] == '-' then -n else n)
  }

  // ---- the parser ----

  function IntPart(s: string): string {
    if SplitPoint(s).0 == "" then "0" else SplitPoint(s).0
  }

  function FracPart(s: string): string {
    if SplitPoint(s).1.None? then "" else SplitPoint(s).1.value
  }

  function ParseAmount(amount: string, decimals: nat): Result<int, ParseError> {
    if amount == "" then Err(EmptyAmount) else
    var s := TrimSpace(amount);
    if s != "" && s[0] == '-' then Err(NegativeAmount) else
    var frac := FracPart(s);
    if |frac| > decimals then Err(TooManyDecimals) else
    var stripped := TrimZeros(IntPart(s) + (frac + Zeros(decimals - |frac|)));
    var combined := if stripped == "" then "0" else stripped;
    var n := SetString(combined);
    if n.None? then Err(InvalidNumber) else Ok(n.value)
  }

  // ---- what trimming leaves ----

  predicate AllSpaces(s: string) {
    forall i :: 0 <= i < |s| ==> IsSpace(s[i])
  }

  lemma {:induction false} TrimLeftShape(s: string) returns (k: nat)
    ensures k <= |s| && AllSpaces(s[..k]) && s[k..] == TrimLeft(s)
    ensures k < |s| ==> !IsSpace(s[k])
  {
    k := 0;
    if s != "" && IsSpace(s[0]) {
      k := TrimLeftShape(s[1..]);
      assert s[..k + 1] == [s[0]] + s[1..][..k] && s[k + 1..] == s[1..][k..];
      k := k + 1;
    }
  }

  lemma {:induction false} TrimRightShape(s: string) returns (k: nat)
    ensures k <= |s| && AllSpaces(s[k..]) && s[..k] == TrimRight(s)
    ensures k > 0 ==> !IsSpace(s[k - 1])
  {
    k := |s|;
    if s != "" && IsSpace(s[|s| - 1]) {
      var init := s[..|s| - 1];
      k := TrimRightShape(init);
      assert s[k..] == init[k..] + [s[|s| - 1]] && s[..k] == init[..k];
    }
  }

  /** `t` stands in s at `from`, between spaces, and has none at its own ends. */
  predicate IsTrimmed(s: string, t: string, from: nat) {
    && from + |t| <= |s| && s[from..from + |t|] == t
    && AllSpaces(s[..from]) && AllSpaces(s[from + |t|..])
    && (t != "" ==> !IsSpace(t[0]) && !IsSpace(t[|t| - 1]))
  }

  /** Wherever one of them begins, the other begins there too or there is nothing but spaces. */
  lemma TrimmedTogether(s: string, t: string, i: nat, u: string, j: nat)
    requires IsTrimmed(s, t, i) && IsTrimmed(s, u, j) && t != ""
    ensures u != "" && j <= i && i + |t| <= j + |u|
  {
    assert !IsSpace(s[i]) && !IsSpace(s[i + |t| - 1]) by {
      assert s[i] == t[0] && s[i + |t| - 1] == t[|t| - 1];
    }
    assert forall n :: 0 <= n < j ==> s[n] == s[..j][n];
    assert forall n :: j + |u| <= n < |s| ==> s[n] == s[j + |u|..][n - (j + |u|)];
  }

  /** Trimming takes away the spaces at both ends and nothing else. */
  lemma TrimSpaceIff(s: string, t: string)
    ensures t == TrimSpace(s) <==> exists from :: IsTrimmed(s, t, from)
  {
    var i := TrimLeftShape(s);
    var j := TrimRightShape(s[i..]);
    var u := TrimSpace(s);
    assert IsTrimmed(s, u, i) by {
      assert s[i..][..j] == s[i..i + j] && s[i..][j..] == s[i + j..];
      if j > 0 { assert u[0] == s[i]; }
    }
    if from :| IsTrimmed(s, t, from) {
      if t != "" { TrimmedTogether(s, t, from, u, i); }
      if u != "" { TrimmedTogether(s, u, i, t, from); }
    }
  }

  // ---- what a decimal numeral means ----

  function Pow10(n: nat): nat {
    if n == 0 then 1 else 10 * Pow10(n - 1)
  }

  /** Digits with at most one point; either side of the point may be empty. */
  predicate IsDecimal(s: string) {
    AllDigits(SplitPoint(s).0) && AllDigits(FracPart(s))
  }

  /** The numeral's value times 10^decimals. */
  function Scaled(s: string, decimals: nat): nat
    requires IsDecimal(s) && |FracPart(s)| <= decimals
  {
    Value(SplitPoint(s).0) * Pow10(decimals)
    + Value(FracPart(s)) * Pow10(decimals - |FracPart(s)|)
  }

  // ---- digit strings ----

  lemma {:induction false} ValueConcat(a: string, b: string)
    requires AllDigits(a) && AllDigits(b)
    ensures AllDigits(a + b) && Value(a + b) == Value(a) * Pow10(|b|) + Value(b)
  {
    if b == "" {
      assert a + b == a;
    } else {
      var init := b[..|b| - 1];
      ValueConcat(a, init);
      assert (a + b)[..|a + b| - 1] == a + init;
      assert Value(a) * (10 * Pow10(|init|)) == 10 * (Value(a) * Pow10(|init|));
    }
  }

  lemma {:induction false} ValueZeros(n: nat)
    ensures AllDigits(Zeros(n)) && Value(Zeros(n)) == 0
  {
    if n > 0 {
      ValueZeros(n - 1);
      ValueConcat("0", Zeros(n - 1));
      assert Value("0") == 0;
    }
  }

  /** Stripping leading zeros removes exactly a run of zeros and stops at another character. */
  lemma {:induction false} TrimZerosShape(s: string) returns (k: nat)
    ensures k <= |s| && s == Zeros(k) + TrimZeros(s)
    ensures TrimZeros(s) != "" ==> TrimZeros(s)[0] != '0'
  {
    if s != "" && s[0] == '0' {
      var j := TrimZerosShape(s[1..]);
      k := j + 1;
      assert s == "0" + s[1..];
    } else {
      k := 0;
    }
  }

  lemma StrippedValue(s: string)
    requires s != ""
    ensures var t := TrimZeros(s);
            var c := if t == "" then "0" else t;
            AllDigits(s) ==> SetString(c) == Some(Value(s))
  {
    if AllDigits(s) {
      var k := TrimZerosShape(s);
      var t := TrimZeros(s);
      assert AllDigits(t) by {
        forall i | 0 <= i < |t| ensures IsDigit(t[i]) { assert t[i] == s[k + i]; }
      }
      ValueZeros(k);
      ValueConcat(Zeros(k), t);
      assert Value("0") == 0;
      assert t != "" ==> !IsSign(t[0]);
    }
  }

  lemma PaddedValue(whole: string, frac: string, pad: nat)
    requires AllDigits(whole) && AllDigits(frac)
    ensures AllDigits(whole + (frac + Zeros(pad)))
    ensures Value(whole + (frac + Zeros(pad)))
            == Value(whole) * Pow10(|frac| + pad) + Value(frac) * Pow10(pad)
  {
    ValueZeros(pad);
    ValueConcat(frac, Zeros(pad));
    ValueConcat(whole, frac + Zeros(pad));
  }

  /** The digits the parser hands to the integer reader, point removed and fraction padded. */
  function Joined(s: string, decimals: nat): string
    requires |FracPart(s)| <= decimals
  {
    IntPart(s) + (FracPart(s) + Zeros(decimals - |FracPart(s)|))
  }

  lemma JoinedValue(s: string, decimals: nat)
    requires IsDecimal(s) && |FracPart(s)| <= decimals
    ensures AllDigits(Joined(s, decimals)) && Value(Joined(s, decimals)) == Scaled(s, decimals)
  {
    PaddedValue(IntPart(s), FracPart(s), decimals - |FracPart(s)|);
    assert Value("0") == 0 && Value("") == 0;
  }

  lemma DecimalHasNoMinus(s: string)
    requires IsDecimal(s)
    ensures !(s != "" && s[0] == '-')
  {
    if s != "" && s[0] == '-' {
      assert SplitPoint(s).0 == ['-'] + SplitPoint(s[1..]).0;
      assert !IsDigit(SplitPoint(s).0[0]);
      assert false;
    }
  }

  /** On decimal numerals the parser is exact: it succeeds if and only if the fraction fits, and then
      returns value * 10^decimals. Surrounding space does not matter. */
  lemma ParsesDecimals(amount: string, decimals: nat)
    requires amount != "" && IsDecimal(TrimSpace(amount))
    ensures var s := TrimSpace(amount);
            ParseAmount(amount, decimals)
            == if |FracPart(s)| <= decimals then Ok(Scaled(s, decimals)) else Err(TooManyDecimals)
  {
    var s := TrimSpace(amount);
    DecimalHasNoMinus(s);
    if |FracPart(s)| <= decimals {
      JoinedValue(s, decimals);
      StrippedValue(Joined(s, decimals));
    }
  }

  // ---- exactly which strings are accepted ----

  /** A sign that only zeros precede and only digits, at least one of them, follow. */
  predicate SignAfterZeros(s: string) {
    var t := TrimZeros(s);
    |t| >= 2 && IsSign(t[0]) && AllDigits(t[1..])
  }

  lemma DigitsOfParts(s: string, t: string)
    ensures AllDigits(s + t) <==> AllDigits(s) && AllDigits(t)
  {
    if AllDigits(s + t) {
      forall i | 0 <= i < |s| ensures IsDigit(s[i]) {
        assert (s + t)[i] == s[i];
      }
      forall i | 0 <= i < |t| ensures IsDigit(t[i]) {
        assert (s + t)[|s| + i] == t[i];
      }
    }
  }

  lemma JoinedDigits(s: string, decimals: nat)
    requires |FracPart(s)| <= decimals
    ensures AllDigits(Joined(s, decimals)) <==> IsDecimal(s)
  {
    var frac := FracPart(s);
    var pad := Zeros(decimals - |frac|);
    ValueZeros(decimals - |frac|);
    DigitsOfParts(frac, pad);
    DigitsOfParts(IntPart(s), frac + pad);
  }

  /** The parser accepts every decimal numeral that fits and, besides those, exactly the strings in
      which a sign follows nothing but zeros, as in "+5", "0.-5" or ".+5". */
  lemma AcceptsExactly(amount: string, decimals: nat)
    ensures ParseAmount(amount, decimals).Ok? <==>
              var s := TrimSpace(amount);
              && amount != ""
              && !(s != "" && s[0] == '-')
              && |FracPart(s)| <= decimals
              && (IsDecimal(s) || SignAfterZeros(Joined(s, decimals)))
  {
    var s := TrimSpace(amount);
    if amount != "" && !(s != "" && s[0] == '-') && |FracPart(s)| <= decimals {
      var joined := Joined(s, decimals);
      JoinedDigits(s, decimals);
      StrippedValue(joined);
      var k := TrimZerosShape(joined);
      var t := TrimZeros(joined);
      ValueZeros(k);
      if SetString(if t == "" then "0" else t).Some? && !SignAfterZeros(joined) {
        assert AllDigits(t);
        ValueConcat(Zeros(k), t);
        assert AllDigits(joined);
      }
    }
  }

  lemma {:induction false} SplitKeepsCharacters(s: string, c: char)
    requires c != '.'
    ensures c in s <==> c in SplitPoint(s).0 || c in FracPart(s)
  {
    if s != "" {
      assert s == [s[0]] + s[1..];
      if s[0] != '.' {
        SplitKeepsCharacters(s[1..], c);
        assert FracPart(s) == FracPart(s[1..]);
      }
    }
  }

  /** The parser accepts decimal numerals only if, and on accepted input exactly if, no sign occurs:
      a caller that rejects '+' and '-' gets the documented grammar. */
  lemma AcceptedIsDecimalIffUnsigned(amount: string, decimals: nat)
    requires ParseAmount(amount, decimals).Ok?
    ensures var s := TrimSpace(amount);
            IsDecimal(s) <==> '+' !in s && '-' !in s
  {
    var s := TrimSpace(amount);
    AcceptsExactly(amount, decimals);
    SplitKeepsCharacters(s, '+');
    SplitKeepsCharacters(s, '-');
    if IsDecimal(s) {
      assert !IsDigit('+') && !IsDigit('-');
    } else {
      var joined := Joined(s, decimals);
      var k := TrimZerosShape(joined);
      var sign := TrimZeros(joined)[0];
      assert joined[k] == sign && IsSign(sign);
      ValueZeros(decimals - |FracPart(s)|);
      assert !IsDigit(sign) && AllDigits(Zeros(decimals - |FracPart(s)|));
      assert sign in joined;
      assert sign in IntPart(s) || sign in FracPart(s);
    }
  }

  lemma {:induction false} SplitAtPoint(a: string, b: string)
    requires '.' !in a
    ensures SplitPoint(a + "." + b) == (a, Some(b))
    ensures SplitPoint(a) == (a, None)
  {
    if a == "" {
      assert a + "." + b == "." + b;
    } else {
      SplitAtPoint(a[1..], b);
      assert a == [a[0]] + a[1..];
      assert a + "." + b == [a[0]] + (a[1..] + "." + b);
    }
  }

  /** The minus check looks at the first character only, so a negative amount can come back. */
  lemma HiddenMinus()
    ensures ParseAmount("0.-5", 2) == Ok(-5)
  {
    var s := "0.-5";
    assert TrimLeft(s) == s && TrimRight(s) == s;
    SplitAtPoint("0", "-5");
    assert "0" + "." + "-5" == s;
    var j := "0" + ("-5" + Zeros(0));
    assert j == "0-5" && j[1..] == "-5";
    assert TrimZeros("-5") == "-5";
    assert TrimZeros(j) == "-5";
    assert "-5"[1..] == "5";
    assert Value("5") == 5 by { assert "5"[..0] == ""; }
  }

  // ---- printing and reading back ----

  function Digits(n: nat): string {
    if n < 10 then [('0' as int + n) as char] else Digits(n / 10) + [('0' as int + n % 10) as char]
  }

  lemma {:induction false} DigitsValue(n: nat)
    ensures Digits(n) != "" && AllDigits(Digits(n)) && Value(Digits(n)) == n
  {
    var last := [('0' as int + n % 10) as char];
    assert Value(last) == n % 10 by { assert last[..0] == ""; }
    if n >= 10 {
      DigitsValue(n / 10);
      ValueConcat(Digits(n / 10), last);
      assert Pow10(1) == 10;
    }
  }

  function PadLeft(s: string, width: nat): string {
    if |s| < width then Zeros(width - |s|) + s else s
  }

  /** n smallest units as a decimal amount with all its decimals, as in "0.05". */
  function Format(n: nat, decimals: nat): string {
    var padded := PadLeft(Digits(n), decimals + 1);
    var point := |padded| - decimals;
    if decimals == 0 then padded else padded[..point] + "." + padded[point..]
  }

  lemma TrimNothing(s: string)
    requires s != "" && !IsSpace(s[0]) && !IsSpace(s[|s| - 1])
    ensures TrimSpace(s) == s
  {
  }

  lemma PadLeftValue(s: string, width: nat)
    requires AllDigits(s)
    ensures AllDigits(PadLeft(s, width)) && Value(PadLeft(s, width)) == Value(s)
    ensures |PadLeft(s, width)| >= width
  {
    if |s| < width {
      ValueZeros(width - |s|);
      ValueConcat(Zeros(width - |s|), s);
    }
  }

  lemma NumeralMeaning(whole: string, frac: string, s: string)
    requires AllDigits(whole) && AllDigits(frac) && whole != ""
    requires s == if frac == "" then whole else whole + "." + frac
    ensures TrimSpace(s) == s && s != "" && IsDecimal(s)
    ensures FracPart(s) == frac && Scaled(s, |frac|) == Value(whole + frac)
  {
    assert !IsDigit('.') && '.' !in whole;
    SplitAtPoint(whole, frac);
    assert IsDigit(s[0]) && IsDigit(s[|s| - 1]);
    TrimNothing(s);
    ValueConcat(whole, frac);
  }

  /** Printing any quantity and parsing it gives the quantity back, with no loss, for any decimals. */
  lemma RoundTrip(n: nat, decimals: nat)
    ensures ParseAmount(Format(n, decimals), decimals) == Ok(n)
  {
    FormatMeaning(n, decimals);
    ParsesDecimals(Format(n, decimals), decimals);
  }

  lemma FormatMeaning(n: nat, decimals: nat)
    ensures var s := Format(n, decimals);
            && s != "" && TrimSpace(s) == s && IsDecimal(s)
            && |FracPart(s)| == decimals && Scaled(s, decimals) == n
  {
    DigitsValue(n);
    PadLeftValue(Digits(n), decimals + 1);
    var padded := PadLeft(Digits(n), decimals + 1);
    var point := |padded| - decimals;
    DigitsOfParts(padded[..point], padded[point..]);
    assert padded[..point] + padded[point..] == padded;
    NumeralMeaning(padded[..point], padded[point..], Format(n, decimals));
  }
}
