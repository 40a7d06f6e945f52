/**
 * The string conversions the typed getters rely on: `strconv.Atoi` (with
 * `strconv.Itoa` as its reference inverse) and `strings.EqualFold`
 * restricted to ASCII case folding.
 */
module GoText {
  import opened Wrappers
  import opened GoTypes

  predicate IsDigit(c: char)
  {
    '0' <= c <= '9'
  }

  predicate AllDigits(s: string)
  {
    forall i | 0 <= i < |s| :: IsDigit(s[i])
  }

  /** The number a string of decimal digits denotes. */
  function DigitsValue(s: string): nat
    requires AllDigits(s)
    decreases |s|
  {
    if s == [] then 0 else 10 * DigitsValue(s[..|s| - 1]) + (s[|s| - 1] as int - '0' as int)
  }

  /** An optional `+` or `-` followed by at least one decimal digit. */
  predicate IsDecimal(s: string)
  {
    var digits := if |s| > 0 && (s[0] == '+' || s[0] == '-') then s[1..] else s;
    digits != [] && AllDigits(digits)
  }

  function DecimalValue(s: string): int
    requires IsDecimal(s)
  {
    if s[0] == '-' then -(DigitsValue(s[1..]) as int)
    else if s[0] == '+' then DigitsValue(s[1..])
    else DigitsValue(s)
  }

  /**
   * `strconv.Atoi`: base 10, an optional sign, no underscores, no spaces, no
   * base prefix, and the value within the 64-bit `int` range.
   */
  function Atoi(s: string): (r: Option<Int64>)
    ensures r.Some? <==> IsDecimal(s) && MIN_INT <= DecimalValue(s) <= MAX_INT
    ensures r.Some? ==> r.value == DecimalValue(s)
  {
    var neg := |s| > 0 && s[0] == '-';
    var digits := if |s| > 0 && (s[0] == '+' || s[0] == '-') then s[1..] else s;
    if digits == [] || !AllDigits(digits) then None
    else
      var v: int := if neg then -(DigitsValue(digits) as int) else DigitsValue(digits);
      if MIN_INT <= v <= MAX_INT then Some(v) else None
  }

  /** The shortest decimal digits of a natural number. */
  function Digits(n: nat): (s: string)
    ensures s != [] && AllDigits(s)
  {
    if n < 10 then [('0' as int + n) as char]
    else Digits(n / 10) + [('0' as int + n % 10) as char]
  }

  /** `strconv.Itoa`. */
  function Itoa(n: int): string
  {
    if n < 0 then "-" + Digits(-n) else Digits(n)
  }

  lemma {:induction false} DigitsValueOfDigits(n: nat)
    ensures DigitsValue(Digits(n)) == n
  {
    if n >= 10 {
      DigitsValueOfDigits(n / 10);
      var s := Digits(n);
      assert s[..|s| - 1] == Digits(n / 10);
    }
  }

  /** Every `int` printed by `strconv.Itoa` is read back by `strconv.Atoi`. */
  lemma AtoiItoa(n: Int64)
    ensures Atoi(Itoa(n)) == Some(n)
  {
    var s := Itoa(n);
    if n < 0 {
      var m: nat := -(n as int);
      DigitsValueOfDigits(m);
      assert s[0] == '-' && s[1..] == Digits(m);
      assert DigitsValue(s[1..]) == m;
    } else {
      DigitsValueOfDigits(n);
      assert s == Digits(n) && IsDigit(s[0]);
      assert DigitsValue(s) == n;
    }
  }

  /** Strings `strconv.Atoi` refuses, and the one the getter test reads. */
  lemma AtoiExamples()
    ensures Atoi("33") == Some(33)
    ensures Atoi("-7") == Some(-7) && Atoi("+7") == Some(7) && Atoi("007") == Some(7)
    ensures Atoi("") == None && Atoi("+") == None && Atoi("-") == None
    ensures Atoi("1_000") == None && Atoi(" 1") == None && Atoi("0x1F") == None
  {
    assert DigitsValue("33") == 33 by {
      assert "33"[..1] == "3";
    }
    assert "+7"[1..] == "7";
    assert "-7"[1..] == "7";
    assert DigitsValue("007") == 7 by {
      assert "007"[..2] == "00";
      assert "00"[..1] == "0";
    }
    assert !AllDigits("1_000") by {
      assert !IsDigit("1_000"[1]);
    }
    assert !AllDigits("0x1F") by {
      assert !IsDigit("0x1F"[1]);
    }
  }

  /** ASCII lower-casing of one character; every other character is left alone. */
  function LowerAscii(c: char): char
  {
    if 'A' <= c <= 'Z' then (c as int + 32) as char else c
  }

  function UpperAscii(c: char): char
  {
    if 'a' <= c <= 'z' then (c as int - 32) as char else c
  }

  /** `strings.EqualFold` with ASCII simple folding only: equal once both are lower-cased. */
  function EqualFoldAscii(a: string, b: string): (r: bool)
    ensures r <==> ToLowerAscii(a) == ToLowerAscii(b)
    ensures a == b ==> r
  {
    |a| == |b| && forall i | 0 <= i < |a| :: LowerAscii(a[i]) == LowerAscii(b[i])
  }

  function ToLowerAscii(s: string): (l: string)
    ensures |l| == |s| && forall i | 0 <= i < |s| :: l[i] == LowerAscii(s[i])
  {
    if s == [] then [] else [LowerAscii(s[0])] + ToLowerAscii(s[1..])
  }

  function ToUpperAscii(s: string): (u: string)
    ensures |u| == |s| && forall i | 0 <= i < |s| :: u[i] == UpperAscii(s[i])
  {
    if s == [] then [] else [UpperAscii(s[0])] + ToUpperAscii(s[1..])
  }

  /** Folding ignores case: upper-casing a string does not change what it matches. */
  lemma CaseBlind(s: string, t: string)
    ensures EqualFoldAscii(ToUpperAscii(s), t) <==> EqualFoldAscii(s, t)
  {
    var u := ToUpperAscii(s);
    assert forall i | 0 <= i < |s| :: LowerAscii(u[i]) == LowerAscii(s[i]);
    assert ToLowerAscii(u) == ToLowerAscii(s);
  }
}
