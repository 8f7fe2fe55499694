/**
 Hexadecimal text as the repository uses it: hexutil.Encode, common.FromHex,
 common.HexToAddress, and Address.Hex with its EIP-55 capitals.
 */
module Hex {
  import opened Values

  function HexDigit(n: nat): char
    requires n < 16
  {
    "0123456789abcdef"[n]
  }

  function HexValue(c: char): (v: Option<nat>)
    ensures v.Some? ==> v.value < 16
  {
    if '0' <= c <= '9' then Some(c as nat - '0' as nat)
    else if 'a' <= c <= 'f' then Some(c as nat - 'a' as nat + 10)
    else if 'A' <= c <= 'F' then Some(c as nat - 'A' as nat + 10)
    else None
  }

  /** hex.EncodeToString. */
  function EncodeHex(b: Bytes): (s: string)
    ensures |s| == 2 * |b|
  {
    if b == [] then "" else [HexDigit(b[0] as nat / 16), HexDigit(b[0] as nat % 16)] + EncodeHex(b[1..])
  }

  /** hex.DecodeString, without an error. */
  function DecodeHex(s: string): Option<Bytes> {
    if s == "" then Some([])
    else if |s| == 1 || HexValue(s[0]).None? || HexValue(s[1]).None? || DecodeHex(s[2..]).None? then None
    else Some([(HexValue(s[0]).value * 16 + HexValue(s[1]).value) as byte] + DecodeHex(s[2..]).value)
  }

  /** Subtracting 32 from a lower-case letter. */
  function Upper(c: char): char {
    if 'a' <= c <= 'f' then (c as int - 32) as char else c
  }

  predicate SameButCase(s: string, t: string) {
    |s| == |t| && forall i :: 0 <= i < |s| ==> s[i] == t[i] || s[i] == Upper(t[i])
  }

  predicate IsHex(s: string) {
    |s| % 2 == 0 && forall i :: 0 <= i < |s| ==> HexValue(s[i]).Some?
  }

  /** Decoding undoes encoding, whatever the case of the letters. */
  lemma {:induction false} DecodeEncode(b: Bytes, s: string)
    requires SameButCase(s, EncodeHex(b))
    ensures DecodeHex(s) == Some(b) && IsHex(s)
  {
    if b != [] {
      var e := EncodeHex(b);
      assert e[2..] == EncodeHex(b[1..]);
      DigitValue(b[0] as nat / 16, s[0]);
      DigitValue(b[0] as nat % 16, s[1]);
      hide HexValue, Upper, HexDigit;
      SameTail(s, e);
      DecodeEncode(b[1..], s[2..]);
      assert b[0] as nat / 16 * 16 + b[0] as nat % 16 == b[0] as nat;
      assert b == [b[0]] + b[1..];
    }
    DecodesIffHex(s);
  }

  /** And text that decodes is the encoding of what it decodes to, but for case. */
  lemma {:induction false} EncodeDecode(s: string)
    requires DecodeHex(s).Some?
    ensures SameButCase(s, EncodeHex(DecodeHex(s).value))
  {
    if s != "" {
      EncodeDecode(s[2..]);
      var e, tail := EncodeHex(DecodeHex(s).value), EncodeHex(DecodeHex(s[2..]).value);
      FirstDigits(s);
      ValueDigit(s[0]);
      ValueDigit(s[1]);
      hide HexValue, HexDigit, Upper, EncodeHex, DecodeHex;
      forall i | 0 <= i < |s| ensures s[i] == e[i] || s[i] == Upper(e[i]) {
        assert i >= 2 ==> s[i] == s[2..][i - 2] && e[i] == tail[i - 2];
      }
    }
  }

  lemma FirstDigits(s: string)
    requires DecodeHex(s).Some? && s != ""
    ensures |s| >= 2 && HexValue(s[0]).Some? && HexValue(s[1]).Some? && DecodeHex(s[2..]).Some?
    ensures EncodeHex(DecodeHex(s).value) ==
      [HexDigit(HexValue(s[0]).value), HexDigit(HexValue(s[1]).value)] + EncodeHex(DecodeHex(s[2..]).value)
  {
    var hi, lo := HexValue(s[0]).value, HexValue(s[1]).value;
    var rest := DecodeHex(s[2..]).value;
    hide HexValue;
    assert DecodeHex(s).value == [(hi * 16 + lo) as byte] + rest;
    hide DecodeHex;
    OneByte(hi, lo, rest);
  }

  lemma OneByte(hi: nat, lo: nat, rest: Bytes)
    requires hi < 16 && lo < 16
    ensures EncodeHex([(hi * 16 + lo) as byte] + rest) == [HexDigit(hi), HexDigit(lo)] + EncodeHex(rest)
  {
    var b := [(hi * 16 + lo) as byte] + rest;
    assert b[1..] == rest && (hi * 16 + lo) / 16 == hi && (hi * 16 + lo) % 16 == lo;
  }

  lemma ValueDigit(c: char)
    requires HexValue(c).Some?
    ensures c == HexDigit(HexValue(c).value) || c == Upper(HexDigit(HexValue(c).value))
  {
    DigitLetter(HexValue(c).value);
  }

  /** The digits, and which comes first. */
  lemma Spelled()
    ensures EncodeHex([0x0f, 0xa5]) == "0fa5"
  {
    var b: Bytes := [0x0f, 0xa5];
    assert b[1..] == [0xa5] && b[1..][1..] == [];
    DigitLetter(15);
    DigitLetter(10);
    DigitLetter(5);
    DigitLetter(0);
  }

  lemma SameTail(s: string, t: string)
    requires SameButCase(s, t) && |s| >= 2
    ensures SameButCase(s[2..], t[2..])
  {
    forall i | 0 <= i < |s| - 2 ensures s[2..][i] == t[2..][i] || s[2..][i] == Upper(t[2..][i]) {
      assert s[2..][i] == s[i + 2] && t[2..][i] == t[i + 2];
    }
  }

  lemma DigitValue(n: nat, c: char)
    requires n < 16 && (c == HexDigit(n) || c == Upper(HexDigit(n)))
    ensures HexValue(c) == Some(n)
  {
    assert HexValue("0123456789abcdef"[n]) == Some(n) by {
      assert "0123456789abcdef"[n] == if n < 10 then ('0' as int + n) as char else ('a' as int + n - 10) as char;
    }
  }

  /** The text that decodes is exactly the hexadecimal text. */
  lemma {:induction false} DecodesIffHex(s: string)
    ensures DecodeHex(s).Some? <==> IsHex(s)
    ensures DecodeHex(s).Some? ==> 2 * |DecodeHex(s).value| == |s|
  {
    if |s| > 1 {
      DecodesIffHex(s[2..]);
      if IsHex(s) {
        forall i | 0 <= i < |s| - 2 ensures HexValue(s[2..][i]).Some? { assert s[2..][i] == s[i + 2]; }
      }
      if IsHex(s[2..]) && HexValue(s[0]).Some? && HexValue(s[1]).Some? {
        forall i | 0 <= i < |s| ensures HexValue(s[i]).Some? { assert i >= 2 ==> HexValue(s[2..][i - 2]).Some?; }
      }
    }
  }

  /** hexutil.Encode. */
  function Encode(b: Bytes): string {
    "0x" + EncodeHex(b)
  }

  predicate HasPrefix(s: string) {
    |s| >= 2 && s[0] == '0' && (s[1] == 'x' || s[1] == 'X')
  }

  /** common.FromHex; `junk` is what the decoder returns beside an error, which
      FromHex drops. */
  function FromHex(junk: string -> Bytes, s: string): Bytes {
    var digits := if HasPrefix(s) then s[2..] else s;
    var even := if |digits| % 2 == 1 then "0" + digits else digits;
    if DecodeHex(even).Some? then DecodeHex(even).value else junk(even)
  }

  lemma FromHexEncode(junk: string -> Bytes, b: Bytes)
    ensures FromHex(junk, Encode(b)) == b
  {
    assert Encode(b)[2..] == EncodeHex(b);
    DecodeEncode(b, EncodeHex(b));
  }

  /** FromHex of digits, prefixed or not: the bytes they encode, with a zero digit
      put before an odd number of them. */
  lemma FromHexReads(junk: string -> Bytes, prefix: string, digits: string)
    requires prefix == "0x" || prefix == "0X" || (prefix == "" && !HasPrefix(digits))
    requires forall i :: 0 <= i < |digits| ==> HexValue(digits[i]).Some?
    ensures SameButCase(if |digits| % 2 == 1 then "0" + digits else digits, EncodeHex(FromHex(junk, prefix + digits)))
  {
    var s := prefix + digits;
    assert (if HasPrefix(s) then s[2..] else s) == digits;
    var even := if |digits| % 2 == 1 then "0" + digits else digits;
    assert HexValue('0').Some?;
    hide HexValue;
    DecodesIffHex(even);
    EncodeDecode(even);
  }

  // ---------------------------------------------------------------- addresses

  function Zeros(n: nat): (b: Bytes)
    ensures |b| == n
  {
    if n == 0 then [] else [0] + Zeros(n - 1)
  }

  /** Address.SetBytes on a fresh address: the last 20 bytes, zeros in front. */
  function BytesToAddress(b: Bytes): Address {
    if |b| > 20 then b[|b| - 20..] else Zeros(20 - |b|) + b
  }

  /** An address is made of the last 20 of any bytes, after 20 zeros. */
  lemma AddressBytes(b: Bytes)
    ensures BytesToAddress(b) == ([0, 0, 0, 0, 0, 0, 0, 0, 0, 0, 0, 0, 0, 0, 0, 0, 0, 0, 0, 0] + b)[|b|..]
  {
    AllZeros(20);
    if |b| <= 20 { AllZeros(20 - |b|); }
  }

  lemma {:induction false} AllZeros(n: nat)
    ensures forall i :: 0 <= i < n ==> Zeros(n)[i] == 0
  {
    if n > 0 { AllZeros(n - 1); }
  }

  function HexToAddress(junk: string -> Bytes, s: string): Address {
    BytesToAddress(FromHex(junk, s))
  }

  predicate IsHexAddress(s: string) {
    var digits := if HasPrefix(s) then s[2..] else s;
    |digits| == 40 && IsHex(digits)
  }

  type Digest32 = b: Bytes | |b| == 32 witness Zeros(32)

  function Nibble(h: Digest32, i: nat): nat
    requires i < 64
  {
    if i % 2 == 0 then h[i / 2] as nat / 16 else h[i / 2] as nat % 16
  }

  /** Address.Hex: letters over a high nibble of the hash of the text are capital. */
  function AddressHex(keccak: string -> Digest32, a: Address): (s: string)
    ensures |s| == 42 && HasPrefix(s)
  {
    var e := EncodeHex(a);
    var h := keccak(e);
    "0x" + seq(40, i requires 0 <= i < 40 => if e[i] > '9' && Nibble(h, i) > 7 then Upper(e[i]) else e[i])
  }

  /** Digit i of the text of b. */
  function NibbleOf(b: Bytes, i: nat): nat
    requires i < 2 * |b|
  {
    if i % 2 == 0 then b[i / 2] as nat / 16 else b[i / 2] as nat % 16
  }

  lemma {:induction false} EncodedDigit(b: Bytes, i: nat)
    requires i < 2 * |b|
    ensures EncodeHex(b)[i] == HexDigit(NibbleOf(b, i))
  {
    if i >= 2 {
      EncodedDigit(b[1..], i - 2);
      assert b[1..][(i - 2) / 2] == b[i / 2];
    }
  }

  /** Character i of a printed address stands for half-byte i of it, and is a
      capital exactly when it is a letter over a half-byte of 8 or more. */
  lemma PrintedDigit(keccak: string -> Digest32, a: Address, i: nat)
    requires i < 40
    ensures var c := AddressHex(keccak, a)[2 + i];
      && HexValue(c) == Some(NibbleOf(a, i))
      && ('A' <= c <= 'F' <==> NibbleOf(a, i) >= 10 && Nibble(keccak(EncodeHex(a)), i) >= 8)
  {
    var n := NibbleOf(a, i);
    EncodedDigit(a, i);
    DigitLetter(n);
    DigitValue(n, AddressHex(keccak, a)[2 + i]);
  }

  lemma DigitLetter(n: nat)
    requires n < 16
    ensures HexDigit(n) == if n < 10 then ('0' as int + n) as char else ('a' as int + n - 10) as char
  {
  }

  /** Reading back a printed address, whatever its capitals. */
  lemma AddressRoundTrip(keccak: string -> Digest32, junk: string -> Bytes, a: Address)
    ensures HexToAddress(junk, AddressHex(keccak, a)) == a && IsHexAddress(AddressHex(keccak, a))
  {
    var s := AddressHex(keccak, a);
    assert SameButCase(s[2..], EncodeHex(a));
    DecodeEncode(a, s[2..]);
  }
}
