/**
 * Lowercase hexadecimal text as JavaScript produces it: `Number.prototype.toString(16)`
 * for a non-negative integer, and `Buffer.prototype.toString("hex")` for bytes.
 * Each encoder comes with its decoder and the two round-trip lemmas.
 */
module Hex {
  import opened Values

  predicate IsHexDigit(c: char) {
    '0' <= c <= '9' || 'a' <= c <= 'f'
  }

  predicate AllHexDigits(s: string) {
    forall i | 0 <= i < |s| :: IsHexDigit(s[i])
  }

  /** What `toString(16)` can produce: digits only, and no leading zero except for "0" itself. */
  predicate Canonical(s: string) {
    && |s| > 0
    && AllHexDigits(s)
    && (s[0] == '0' ==> |s| == 1)
  }

  function DigitValue(c: char): (d: nat)
    requires IsHexDigit(c)
    ensures d < 16
  {
    if c <= '9' then c as int - '0' as int else c as int - 'a' as int + 10
  }

  /** The lowercase digit for `d`. */
  function DigitChar(d: nat): (c: char)
    requires d < 16
    ensures IsHexDigit(c) && DigitValue(c) == d
    ensures c == '0' <==> d == 0
  {
    if d < 10 then ('0' as int + d) as char else ('a' as int + d - 10) as char
  }

  lemma DigitCharValue(c: char)
    requires IsHexDigit(c)
    ensures DigitChar(DigitValue(c)) == c
  {
  }

  /** `n.toString(16)`: most significant digit first, lowercase, no leading zeros. */
  function ToHex(n: nat): (s: string)
    ensures Canonical(s)
    ensures s == "0" <==> n == 0
    decreases n
  {
    if n < 16 then [DigitChar(n)] else ToHex(n / 16) + [DigitChar(n % 16)]
  }

  /** The number a string of hex digits denotes (most significant digit first). */
  function FromHex(s: string): nat
    requires AllHexDigits(s)
  {
    if s == [] then 0 else FromHex(s[..|s| - 1]) * 16 + DigitValue(s[|s| - 1])
  }

  /** The digits of `ToHex(n)` denote `n`. */
  lemma {:induction false} FromHexToHex(n: nat)
    ensures FromHex(ToHex(n)) == n
    decreases n
  {
    if n >= 16 {
      var s := ToHex(n);
      assert s[..|s| - 1] == ToHex(n / 16);
      FromHexToHex(n / 16);
    }
  }

  /** A string of digits without a leading zero denotes a number that is not zero. */
  lemma {:induction false} FromHexPositive(s: string)
    requires |s| > 0 && AllHexDigits(s) && s[0] != '0'
    ensures FromHex(s) > 0
    decreases |s|
  {
    if |s| > 1 {
      FromHexPositive(s[..|s| - 1]);
    } else {
      assert DigitValue(s[0]) != 0 by { DigitCharValue(s[0]); }
    }
  }

  /** Every canonical digit string is the encoding of the number it denotes. */
  lemma {:induction false} ToHexFromHex(s: string)
    requires Canonical(s)
    ensures ToHex(FromHex(s)) == s
    decreases |s|
  {
    var c := s[|s| - 1];
    DigitCharValue(c);
    if |s| > 1 {
      var p := s[..|s| - 1];
      FromHexPositive(p);
      ToHexFromHex(p);
      var n := FromHex(s);
      assert n / 16 == FromHex(p) && n % 16 == DigitValue(c);
      assert s == p + [c];
    }
  }

  /** The example `(21000).toString(16)`. */
  lemma ToHexGasExample()
    ensures ToHex(21000) == "5208"
  {
  }

  /** `Buffer.from([b]).toString("hex")`: always two digits. */
  function ByteToHex(b: byte): string {
    [DigitChar(b as int / 16), DigitChar(b as int % 16)]
  }

  /** `buf.toString("hex")`: two lowercase digits per byte, in order. */
  function BytesToHex(bs: seq<byte>): (s: string)
    ensures |s| == 2 * |bs| && AllHexDigits(s)
  {
    if bs == [] then [] else ByteToHex(bs[0]) + BytesToHex(bs[1..])
  }

  /** `Buffer.from(s, "hex")` on a well-formed string. */
  function HexToBytes(s: string): seq<byte>
    requires |s| % 2 == 0 && AllHexDigits(s)
  {
    if s == [] then [] else [(DigitValue(s[0]) * 16 + DigitValue(s[1])) as byte] + HexToBytes(s[2..])
  }

  /** Decoding the hex text of a buffer gives the buffer back. */
  lemma {:induction false} HexToBytesToHex(bs: seq<byte>)
    ensures HexToBytes(BytesToHex(bs)) == bs
  {
    if bs != [] {
      var s := BytesToHex(bs);
      assert s[2..] == BytesToHex(bs[1..]);
      HexToBytesToHex(bs[1..]);
    }
  }

  /** Every even-length digit string is the hex text of exactly the bytes it decodes to. */
  lemma {:induction false} BytesToHexFromHex(s: string)
    requires |s| % 2 == 0 && AllHexDigits(s)
    ensures BytesToHex(HexToBytes(s)) == s
    decreases |s|
  {
    if s != [] {
      DigitCharValue(s[0]);
      DigitCharValue(s[1]);
      BytesToHexFromHex(s[2..]);
      var bs := HexToBytes(s);
      assert bs[1..] == HexToBytes(s[2..]);
      assert ByteToHex(bs[0]) == s[..2];
      assert s == s[..2] + s[2..];
    }
  }
}
