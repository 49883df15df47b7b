/**
 * Lower-case hexadecimal text of a byte string, as Node's
 * `Buffer.toString("hex")` writes it, and the verification token that
 * signup draws from 32 random bytes.
 */
module Hex {
  import opened Options

  newtype Byte = b: int | 0 <= b < 256

  /** `crypto.randomBytes(32)`: the number of random bytes in a token. */
  const TokenBytes: nat := 32

  predicate IsHexDigit(c: char)
  {
    ('0' <= c <= '9') || ('a' <= c <= 'f')
  }

  function DigitChar(n: int): (c: char)
    requires 0 <= n < 16
    ensures IsHexDigit(c)
  {
    if n < 10 then ('0' as int + n) as char else ('a' as int + n - 10) as char
  }

  /** The value of one hexadecimal digit; `None` for any other character. */
  function DigitValue(c: char): (r: Option<int>)
    ensures r.Some? <==> IsHexDigit(c)
    ensures r.Some? ==> 0 <= r.value < 16 && DigitChar(r.value) == c
  {
    if '0' <= c <= '9' then Some(c as int - '0' as int)
    else if 'a' <= c <= 'f' then Some(c as int - 'a' as int + 10)
    else None
  }

  /** Two digits per byte, high nibble first. */
  function Encode(bytes: seq<Byte>): (s: string)
    ensures |s| == 2 * |bytes|
    ensures forall i :: 0 <= i < |s| ==> IsHexDigit(s[i])
  {
    if bytes == [] then ""
    else [DigitChar(bytes[0] as int / 16), DigitChar(bytes[0] as int % 16)] + Encode(bytes[1..])
  }

  /** The inverse reading: `None` for odd length or a character that is not a digit. */
  function Decode(s: string): (r: Option<seq<Byte>>)
    ensures r.Some? ==> 2 * |r.value| == |s|
  {
    if s == [] then Some([])
    else if |s| == 1 then None
    else
      match (DigitValue(s[0]), DigitValue(s[1]), Decode(s[2..]))
      case (Some(hi), Some(lo), Some(rest)) => Some([(hi * 16 + lo) as Byte] + rest)
      case _ => None
  }

  lemma {:induction false} DecodeEncode(bytes: seq<Byte>)
    ensures Decode(Encode(bytes)) == Some(bytes)
  {
    if bytes != [] {
      var b := bytes[0] as int;
      var s := Encode(bytes);
      assert s[2..] == Encode(bytes[1..]);
      DecodeEncode(bytes[1..]);
      assert DigitValue(s[0]) == Some(b / 16);
      assert DigitValue(s[1]) == Some(b % 16);
      assert bytes == [bytes[0]] + bytes[1..];
    }
  }

  lemma {:induction false} EncodeDecode(s: string)
    requires Decode(s).Some?
    ensures Encode(Decode(s).value) == s
  {
    if s != [] {
      var hi, lo := DigitValue(s[0]).value, DigitValue(s[1]).value;
      var rest := Decode(s[2..]).value;
      var b := (hi * 16 + lo) as Byte;
      assert Decode(s).value == [b] + rest;
      EncodeDecode(s[2..]);
      assert b as int / 16 == hi && b as int % 16 == lo;
      assert ([b] + rest)[1..] == rest;
      assert Encode([b] + rest) == [DigitChar(hi), DigitChar(lo)] + s[2..];
      assert s == [s[0], s[1]] + s[2..];
    }
  }

  /** Decoding succeeds exactly on even-length strings of lower-case digits. */
  lemma {:induction false} DecodeDefined(s: string)
    ensures Decode(s).Some? <==> (|s| % 2 == 0 && forall i :: 0 <= i < |s| ==> IsHexDigit(s[i]))
  {
    if |s| >= 2 {
      DecodeDefined(s[2..]);
      assert forall i :: 2 <= i < |s| ==> s[i] == s[2..][i - 2];
    }
  }

  /**
   * The token signup stores and mails: `crypto.randomBytes(32).toString("hex")`,
   * with the random bytes supplied by the caller.
   */
  function NewToken(entropy: seq<Byte>): (token: string)
    requires |entropy| == TokenBytes
    ensures |token| == 64
    ensures forall i :: 0 <= i < |token| ==> IsHexDigit(token[i])
    ensures Decode(token) == Some(entropy)
  {
    DecodeEncode(entropy);
    Encode(entropy)
  }
}
