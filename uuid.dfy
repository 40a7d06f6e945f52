/**
 * A session token (`uuid.UUID`) and its canonical textual form, which is the
 * value of the session cookie: 32 lower-case hexadecimal digits in groups of
 * 8-4-4-4-12 separated by dashes (RFC 4122, section 3).
 */
module Uuid {
  import opened Wrappers
  import opened GoTypes

  /** Sixteen bytes. */
  type Token = s: seq<Byte> | |s| == 16 witness [0, 0, 0, 0, 0, 0, 0, 0, 0, 0, 0, 0, 0, 0, 0, 0]

  /** `uuid.Nil`, the all-zero token that a failed parse yields. */
  const NilToken: Token := [0, 0, 0, 0, 0, 0, 0, 0, 0, 0, 0, 0, 0, 0, 0, 0]

  function HexDigit(n: int): char
    requires 0 <= n < 16
  {
    if n < 10 then ('0' as int + n) as char else ('a' as int + n - 10) as char
  }

  /** The value of a hexadecimal digit of either case. */
  function HexValue(c: char): (r: Option<int>)
    ensures r.Some? ==> 0 <= r.value < 16
  {
    if '0' <= c <= '9' then Some(c as int - '0' as int)
    else if 'a' <= c <= 'f' then Some(c as int - 'a' as int + 10)
    else if 'A' <= c <= 'F' then Some(c as int - 'A' as int + 10)
    else None
  }

  lemma HexValueOfDigit(n: int)
    requires 0 <= n < 16
    ensures HexValue(HexDigit(n)) == Some(n)
  {
  }

  /** Two hexadecimal digits per byte, high nibble first. */
  function Hex(bs: seq<Byte>): (s: string)
    ensures |s| == 2 * |bs|
  {
    if bs == [] then [] else [HexDigit(bs[0] / 16), HexDigit(bs[0] % 16)] + Hex(bs[1..])
  }

  /** Reads pairs of hexadecimal digits back into bytes. */
  function Unhex(s: string): (r: Option<seq<Byte>>)
    ensures r.Some? ==> 2 * |r.value| == |s|
    decreases |s|
  {
    if s == [] then Some([])
    else if |s| == 1 then None
    else match (HexValue(s[0]), HexValue(s[1]), Unhex(s[2..]))
      case (Some(hi), Some(lo), Some(rest)) => Some([hi * 16 + lo] + rest)
      case _ => None
  }

  lemma {:induction false} UnhexHex(bs: seq<Byte>)
    ensures Unhex(Hex(bs)) == Some(bs)
  {
    if bs != [] {
      UnhexHex(bs[1..]);
      var s := Hex(bs);
      assert s[2..] == Hex(bs[1..]);
      assert s[0] == HexDigit(bs[0] / 16) && s[1] == HexDigit(bs[0] % 16);
      HexValueOfDigit(bs[0] / 16);
      HexValueOfDigit(bs[0] % 16);
      assert (bs[0] / 16) * 16 + bs[0] % 16 == bs[0];
      assert [bs[0]] + bs[1..] == bs;
    }
  }

  /** A character `HexValue` reads. */
  predicate IsHex(c: char)
  {
    HexValue(c).Some?
  }

  /** Pairs of hexadecimal digits read back exactly when the text has even length and only hexadecimal digits. */
  lemma {:induction false} UnhexDefined(s: string)
    ensures Unhex(s).Some? <==> |s| % 2 == 0 && forall i | 0 <= i < |s| :: IsHex(s[i])
    decreases |s|
  {
    if |s| >= 2 {
      UnhexDefined(s[2..]);
      assert forall i | 2 <= i < |s| :: s[i] == s[2..][i - 2];
      if forall i | 0 <= i < |s| :: IsHex(s[i]) {
        assert IsHex(s[0]) && IsHex(s[1]);
      }
    }
  }

  /** The canonical 36-character form: dashes at offsets 8, 13, 18 and 23, hexadecimal digits elsewhere. */
  predicate Canonical(s: string)
  {
    |s| == 36 && s[8] == '-' && s[13] == '-' && s[18] == '-' && s[23] == '-' &&
    forall i | 0 <= i < 36 && i != 8 && i != 13 && i != 18 && i != 23 :: IsHex(s[i])
  }

  /** `t.String()`. */
  function TokenString(t: Token): (s: string)
    ensures |s| == 36
  {
    var h := Hex(t);
    h[..8] + "-" + h[8..12] + "-" + h[12..16] + "-" + h[16..20] + "-" + h[20..]
  }

  /**
   * `uuid.Parse` on the 36-character canonical form: dashes at offsets 8, 13,
   * 18 and 23 and hexadecimal digits of either case everywhere else.
   */
  function Parse(s: string): (r: Option<Token>)
    ensures r.Some? ==> |s| == 36 && s[8] == '-' && s[13] == '-' && s[18] == '-' && s[23] == '-'
  {
    if |s| != 36 || s[8] != '-' || s[13] != '-' || s[18] != '-' || s[23] != '-' then None
    else match Unhex(s[..8] + s[9..13] + s[14..18] + s[19..23] + s[24..])
      case Some(bs) => var t: Token := bs; Some(t)
      case None => None
  }

  /** The token a cookie value names in `token, _ := uuid.Parse(s)`; a failed parse is taken to give the nil token. */
  function ParseOrNil(s: string): (t: Token)
    ensures t == NilToken <==> Parse(s).None? || Parse(s) == Some(NilToken)
    ensures Parse(s).Some? ==> t == Parse(s).value
  {
    match Parse(s)
    case Some(t) => t
    case None => NilToken
  }

  /** `Parse` accepts exactly the canonical form. */
  lemma ParseCanonical(s: string)
    ensures Parse(s).Some? <==> Canonical(s)
  {
    if |s| == 36 && s[8] == '-' && s[13] == '-' && s[18] == '-' && s[23] == '-' {
      var h := s[..8] + s[9..13] + s[14..18] + s[19..23] + s[24..];
      assert |h| == 32;
      assert forall k | 0 <= k < 8 :: h[k] == s[k];
      assert forall k | 8 <= k < 12 :: h[k] == s[k + 1];
      assert forall k | 12 <= k < 16 :: h[k] == s[k + 2];
      assert forall k | 16 <= k < 20 :: h[k] == s[k + 3];
      assert forall k | 20 <= k < 32 :: h[k] == s[k + 4];
      UnhexDefined(h);
      if Canonical(s) {
        assert forall k | 0 <= k < 32 :: IsHex(h[k]) by {
          forall k | 0 <= k < 32
            ensures IsHex(h[k])
          {
            if k < 8 { assert h[k] == s[k]; }
            else if k < 12 { assert h[k] == s[k + 1]; }
            else if k < 16 { assert h[k] == s[k + 2]; }
            else if k < 20 { assert h[k] == s[k + 3]; }
            else { assert h[k] == s[k + 4]; }
          }
        }
      }
      if Parse(s).Some? {
        forall i | 0 <= i < 36 && i != 8 && i != 13 && i != 18 && i != 23
          ensures IsHex(s[i])
        {
          if i < 8 { assert s[i] == h[i]; }
          else if i < 13 { assert s[i] == h[i - 1]; }
          else if i < 18 { assert s[i] == h[i - 2]; }
          else if i < 23 { assert s[i] == h[i - 3]; }
          else { assert s[i] == h[i - 4]; }
        }
      }
    }
  }

  /** The cookie value of a token reads back as that token. */
  lemma ParseTokenString(t: Token)
    ensures Parse(TokenString(t)) == Some(t)
    ensures ParseOrNil(TokenString(t)) == t
  {
    var h := Hex(t);
    var s := TokenString(t);
    assert s[..8] == h[..8];
    assert s[9..13] == h[8..12];
    assert s[14..18] == h[12..16];
    assert s[19..23] == h[16..20];
    assert s[24..] == h[20..];
    assert h[..8] + h[8..12] + h[12..16] + h[16..20] + h[20..] == h;
    UnhexHex(t);
  }
}
