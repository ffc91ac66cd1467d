/**
 * The random string generator (src/Ukey1/Generators/RandomString.php): the
 * hexadecimal encoding of `length` bytes from OpenSSL, so the string is
 * twice as long as the number of bytes. The random source is a parameter.
 */
module RandomString {
  import opened Wrappers
  import opened Exceptions

  newtype byte = x: int | 0 <= x < 256

  const DEFAULT_LENGTH := 16

  /** The random source: whether OpenSSL is available, and the bytes it yields for a length. */
  datatype Entropy = Entropy(available: bool, draw: nat -> seq<byte>)

  /** Lower-case hexadecimal digit of a nibble, as `bin2hex` writes it. */
  function HexDigit(d: int): (c: char)
    requires 0 <= d < 16
    ensures IsHexChar(c)
  {
    if d < 10 then ('0' as int + d) as char else ('a' as int + d - 10) as char
  }

  predicate IsHexChar(c: char) {
    '0' <= c <= '9' || 'a' <= c <= 'f'
  }

  predicate IsHex(s: string) {
    forall i :: 0 <= i < |s| ==> IsHexChar(s[i])
  }

  /** The nibble a lower-case hexadecimal digit stands for. */
  function DigitValue(c: char): (d: int)
    requires IsHexChar(c)
    ensures 0 <= d < 16
  {
    if c <= '9' then c as int - '0' as int else c as int - 'a' as int + 10
  }

  /** `bin2hex`: two digits per byte, high nibble first. */
  function Bin2Hex(bytes: seq<byte>): (hex: string)
    ensures |hex| == 2 * |bytes|
    ensures IsHex(hex)
  {
    if bytes == [] then ""
    else [HexDigit(bytes[0] as int / 16), HexDigit(bytes[0] as int % 16)] + Bin2Hex(bytes[1..])
  }

  /** The reference inverse, `hex2bin` on well-formed input. */
  function Hex2Bin(hex: string): seq<byte>
    requires |hex| % 2 == 0 && IsHex(hex)
    decreases |hex|
  {
    if hex == [] then []
    else [(DigitValue(hex[0]) * 16 + DigitValue(hex[1])) as byte] + Hex2Bin(hex[2..])
  }

  lemma DigitRoundTrip(d: int)
    requires 0 <= d < 16
    ensures DigitValue(HexDigit(d)) == d
  {
  }

  /** The digits at positions 2i and 2i+1 encode byte i. */
  lemma {:induction false} Bin2HexAt(bytes: seq<byte>, i: int)
    requires 0 <= i < |bytes|
    ensures Bin2Hex(bytes)[2 * i] == HexDigit(bytes[i] as int / 16)
    ensures Bin2Hex(bytes)[2 * i + 1] == HexDigit(bytes[i] as int % 16)
    decreases i
  {
    if i > 0 {
      Bin2HexAt(bytes[1..], i - 1);
      assert Bin2Hex(bytes)[2 * i] == Bin2Hex(bytes[1..])[2 * (i - 1)];
      assert Bin2Hex(bytes)[2 * i + 1] == Bin2Hex(bytes[1..])[2 * (i - 1) + 1];
    }
  }

  /** Decoding the encoding gives the bytes back. */
  lemma {:induction false} Hex2BinInverts(bytes: seq<byte>)
    ensures Hex2Bin(Bin2Hex(bytes)) == bytes
  {
    if bytes != [] {
      var hex := Bin2Hex(bytes);
      var b := bytes[0] as int;
      DigitRoundTrip(b / 16);
      DigitRoundTrip(b % 16);
      assert hex[2..] == Bin2Hex(bytes[1..]);
      Hex2BinInverts(bytes[1..]);
      assert Hex2Bin(hex) == [(b / 16 * 16 + b % 16) as byte] + bytes[1..];
    }
  }

  /** Different bytes never give the same string. */
  lemma Bin2HexInjective(a: seq<byte>, b: seq<byte>)
    requires Bin2Hex(a) == Bin2Hex(b)
    ensures a == b
  {
    Hex2BinInverts(a);
    Hex2BinInverts(b);
  }

  /** `generate`: fails without OpenSSL, otherwise the hexadecimal form of the drawn bytes. */
  function Generate(length: nat, rng: Entropy): (r: Result<string, Error>)
    ensures r.Failure? <==> !rng.available
    ensures r.Failure? ==> r.error == RandomUnavailable
    ensures r.Success? ==> |r.value| == 2 * |rng.draw(length)| && IsHex(r.value)
  {
    if !rng.available then Failure(RandomUnavailable)
    else Success(Bin2Hex(rng.draw(length)))
  }

  /** The documented doubling, and that the string carries exactly the drawn bytes. */
  lemma GenerateDoubles(length: nat, rng: Entropy)
    requires rng.available && |rng.draw(length)| == length
    ensures |Generate(length, rng).value| == 2 * length
    ensures Hex2Bin(Generate(length, rng).value) == rng.draw(length)
  {
    Hex2BinInverts(rng.draw(length));
  }

  /** With the default length the string has 32 characters. */
  lemma DefaultLength(rng: Entropy)
    requires rng.available && |rng.draw(DEFAULT_LENGTH)| == DEFAULT_LENGTH
    ensures |Generate(DEFAULT_LENGTH, rng).value| == 32
  {
  }
}
