/**
 * Text helpers the panel relies on: Python's lossy ASCII codec
 * (`str.encode("ascii", "ignore")`, `bytes.decode("ascii", "ignore")`)
 * and the decimal rendering of a non-negative `int` inside `str.format`.
 */
module Text {

  type byte = b: int | 0 <= b < 256

  predicate IsAscii(s: string) {
    forall i :: 0 <= i < |s| ==> s[i] as int < 128
  }

  predicate IsAsciiBytes(b: seq<byte>) {
    forall i :: 0 <= i < |b| ==> b[i] < 128
  }

  predicate EndsWith(s: string, suffix: string) {
    |suffix| <= |s| && s[|s| - |suffix|..] == suffix
  }

  /** `s.encode("ascii", "ignore")`: ASCII characters become their codes, all others are dropped. */
  function AsciiEncodeIgnore(s: string): (r: seq<byte>)
    ensures IsAsciiBytes(r)
    ensures |r| <= |s|
    ensures IsAscii(s) <==> |r| == |s|
  {
    if s == [] then []
    else
      var c := s[0] as int;
      var rest := AsciiEncodeIgnore(s[1..]);
      assert IsAscii(s) <==> c < 128 && IsAscii(s[1..]) by {
        if c < 128 && IsAscii(s[1..]) {
          forall i | 0 <= i < |s| ensures s[i] as int < 128 {
            if i > 0 { assert s[i] == s[1..][i - 1]; }
          }
        }
      }
      if c < 128 then [c] + rest else rest
  }

  /** `b.decode("ascii", "ignore")`: bytes below 128 become characters, all others are dropped. */
  function AsciiDecodeIgnore(b: seq<byte>): (r: string)
    ensures IsAscii(r)
    ensures |r| <= |b|
  {
    if b == [] then []
    else
      var rest := AsciiDecodeIgnore(b[1..]);
      if b[0] < 128 then [b[0] as char] + rest else rest
  }

  lemma {:induction false} AsciiEncodeConcat(s: string, t: string)
    ensures AsciiEncodeIgnore(s + t) == AsciiEncodeIgnore(s) + AsciiEncodeIgnore(t)
  {
    if s == [] {
      assert s + t == t;
    } else {
      assert (s + t)[1..] == s[1..] + t;
      AsciiEncodeConcat(s[1..], t);
    }
  }

  /** Decoding undoes encoding on ASCII text. */
  lemma {:induction false} AsciiDecodeEncode(s: string)
    requires IsAscii(s)
    ensures AsciiDecodeIgnore(AsciiEncodeIgnore(s)) == s
  {
    if s != [] {
      assert IsAscii(s[1..]) by {
        forall i | 0 <= i < |s[1..]| ensures s[1..][i] as int < 128 {
          assert s[1..][i] == s[i + 1];
        }
      }
      AsciiDecodeEncode(s[1..]);
      assert s[0] as int < 128;
      var e := AsciiEncodeIgnore(s);
      assert e == [s[0] as int] + AsciiEncodeIgnore(s[1..]);
      assert e[1..] == AsciiEncodeIgnore(s[1..]);
    }
  }

  /** Encoding undoes decoding on ASCII bytes. */
  lemma {:induction false} AsciiEncodeDecode(b: seq<byte>)
    requires IsAsciiBytes(b)
    ensures AsciiEncodeIgnore(AsciiDecodeIgnore(b)) == b
  {
    if b != [] {
      assert IsAsciiBytes(b[1..]) by {
        forall i | 0 <= i < |b[1..]| ensures b[1..][i] < 128 {
          assert b[1..][i] == b[i + 1];
        }
      }
      AsciiEncodeDecode(b[1..]);
      var d := AsciiDecodeIgnore(b);
      assert d == [b[0] as char] + AsciiDecodeIgnore(b[1..]);
      assert d[1..] == AsciiDecodeIgnore(b[1..]);
      assert b == [b[0]] + b[1..];
    }
  }

  /** The bytes of `b` below 128, in order. */
  function AsciiBytesOnly(b: seq<byte>): (r: seq<byte>)
    ensures IsAsciiBytes(r)
    ensures |r| <= |b|
  {
    if b == [] then []
    else (if b[0] < 128 then [b[0]] else []) + AsciiBytesOnly(b[1..])
  }

  /** Decoding then re-encoding arbitrary bytes keeps exactly the bytes below 128. */
  lemma {:induction false} AsciiEncodeDecodeDropsHigh(b: seq<byte>)
    ensures AsciiEncodeIgnore(AsciiDecodeIgnore(b)) == AsciiBytesOnly(b)
  {
    if b != [] {
      AsciiEncodeDecodeDropsHigh(b[1..]);
      var d := AsciiDecodeIgnore(b);
      if b[0] < 128 {
        assert d == [b[0] as char] + AsciiDecodeIgnore(b[1..]);
        assert d[1..] == AsciiDecodeIgnore(b[1..]);
      } else {
        assert d == AsciiDecodeIgnore(b[1..]);
      }
    }
  }

  predicate IsDigits(s: string) {
    forall i :: 0 <= i < |s| ==> '0' <= s[i] <= '9'
  }

  function Digit(d: nat): (c: char)
    requires d < 10
    ensures '0' <= c <= '9' && c as int - '0' as int == d
  {
    ('0' as int + d) as char
  }

  /** `"{}".format(n)` for a non-negative integer `n`. */
  function DecimalString(n: nat): (r: string)
    ensures |r| >= 1 && IsDigits(r)
    ensures r[0] == '0' ==> n == 0
  {
    if n < 10 then [Digit(n)]
    else
      var high := DecimalString(n / 10);
      high + [Digit(n % 10)]
  }

  /** Reads a string of decimal digits back as a number; an independent inverse of DecimalString. */
  function ParseDecimal(s: string): nat
    requires IsDigits(s)
  {
    if s == [] then 0
    else ParseDecimal(s[..|s| - 1]) * 10 + (s[|s| - 1] as int - '0' as int)
  }

  lemma {:induction false} DecimalRoundTrip(n: nat)
    ensures ParseDecimal(DecimalString(n)) == n
  {
    var r := DecimalString(n);
    if n < 10 {
      assert r[..|r| - 1] == [];
    } else {
      assert r[..|r| - 1] == DecimalString(n / 10);
      DecimalRoundTrip(n / 10);
    }
  }
}
