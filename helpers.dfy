/** Room and user identifiers: `generateRoomId`, `validateRoomId` and `generateUserId`.
    The random bytes that `crypto.randomBytes` would supply are parameters. */
module Helpers {

  newtype byte = x: int | 0 <= x < 256

  /** The base16 alphabet of section 8 of RFC 4648. */
  const Base16Alphabet: string := "0123456789ABCDEF"

  /** A character Node's `Buffer.toString('hex')` can write: `[0-9a-f]`. */
  predicate IsLowerHexDigit(c: char) {
    '0' <= c <= '9' || 'a' <= c <= 'f'
  }

  /** The lowercase hex digit of a nibble. */
  function HexDigit(n: int): (c: char)
    requires 0 <= n < 16
    ensures IsLowerHexDigit(c)
  {
    if n < 10 then ('0' as int + n) as char else ('a' as int + n - 10) as char
  }

  /** Two lowercase digits for one byte, high nibble first. */
  function HexByte(b: byte): (r: string)
    ensures |r| == 2
  {
    [HexDigit(b as int / 16), HexDigit(b as int % 16)]
  }

  /** `Buffer.from(bytes).toString('hex')`. */
  function ToHex(bytes: seq<byte>): (r: string)
    ensures |r| == 2 * |bytes|
    ensures forall i :: 0 <= i < |r| ==> IsLowerHexDigit(r[i])
  {
    if bytes == [] then "" else HexByte(bytes[0]) + ToHex(bytes[1..])
  }

  /** `String.prototype.toUpperCase` on one character; only ASCII letters can occur here. */
  function UpperChar(c: char): char {
    if 'a' <= c <= 'z' then (c as int - 32) as char else c
  }

  /** `String.prototype.toUpperCase`, character by character. */
  function ToUpperCase(s: string): (r: string)
    ensures |r| == |s|
  {
    if s == "" then "" else [UpperChar(s[0])] + ToUpperCase(s[1..])
  }

  lemma {:induction false} ToUpperCaseConcat(a: string, b: string)
    ensures ToUpperCase(a + b) == ToUpperCase(a) + ToUpperCase(b)
  {
    if a == "" {
      assert a + b == b;
    } else {
      assert (a + b)[1..] == a[1..] + b;
      ToUpperCaseConcat(a[1..], b);
    }
  }

  /** Base16 encoding of section 8 of RFC 4648: each byte becomes the two alphabet
      characters of its high and low nibble. */
  function Base16(bytes: seq<byte>): (r: string)
    ensures |r| == 2 * |bytes|
  {
    if bytes == [] then ""
    else [Base16Alphabet[bytes[0] as int / 16], Base16Alphabet[bytes[0] as int % 16]] + Base16(bytes[1..])
  }

  /** Upper-casing a lowercase hex digit gives the base16 alphabet's digit. */
  lemma UpperHexDigit(n: int)
    requires 0 <= n < 16
    ensures UpperChar(HexDigit(n)) == Base16Alphabet[n]
  {
    assert Base16Alphabet == ['0', '1', '2', '3', '4', '5', '6', '7', '8', '9', 'A', 'B', 'C', 'D', 'E', 'F'];
  }

  /** Upper-casing Node's hex output gives the RFC 4648 base16 encoding. */
  lemma {:induction false} UpperHexIsBase16(bytes: seq<byte>)
    ensures ToUpperCase(ToHex(bytes)) == Base16(bytes)
  {
    if bytes != [] {
      var b := bytes[0] as int;
      ToUpperCaseConcat(HexByte(bytes[0]), ToHex(bytes[1..]));
      UpperHexDigit(b / 16);
      UpperHexDigit(b % 16);
      assert ToUpperCase(HexByte(bytes[0])) == [Base16Alphabet[b / 16], Base16Alphabet[b % 16]];
      UpperHexIsBase16(bytes[1..]);
    }
  }

  /** One character of the class `[A-Z0-9]`. */
  predicate InRoomIdClass(c: char) {
    'A' <= c <= 'Z' || '0' <= c <= '9'
  }

  /** The anchored pattern `^[A-Z0-9]{n}$`: n characters of the class, then the end. */
  predicate MatchesRoomIdPattern(s: string, n: nat) {
    if n == 0 then s == ""
    else s != "" && InRoomIdClass(s[0]) && MatchesRoomIdPattern(s[1..], n - 1)
  }

  lemma {:induction false} MatchesRoomIdPatternIff(s: string, n: nat)
    ensures MatchesRoomIdPattern(s, n) <==> |s| == n && forall i :: 0 <= i < |s| ==> InRoomIdClass(s[i])
  {
    if n > 0 && s != "" {
      MatchesRoomIdPatternIff(s[1..], n - 1);
      assert forall i :: 0 < i < |s| ==> s[i] == s[1..][i - 1];
    }
  }

  /** `validateRoomId`: `/^[A-Z0-9]{6}$/.test(roomId)`. */
  predicate ValidateRoomId(roomId: string): (ok: bool)
    ensures ok <==> |roomId| == 6 && forall i :: 0 <= i < |roomId| ==> InRoomIdClass(roomId[i])
  {
    MatchesRoomIdPatternIff(roomId, 6);
    MatchesRoomIdPattern(roomId, 6)
  }

  /** Lowercase letters are outside the class, so a code holding one is refused. */
  lemma {:induction false} LowercaseRoomIdRejected(roomId: string, i: nat)
    requires i < |roomId| && 'a' <= roomId[i] <= 'z'
    ensures !ValidateRoomId(roomId)
  {
    assert !InRoomIdClass(roomId[i]);
  }

  /** `generateRoomId`: three random bytes, hex encoded and upper-cased. The result is
      their base16 encoding, six characters long, and it passes `validateRoomId`. */
  function GenerateRoomId(random: seq<byte>): (roomId: string)
    requires |random| == 3
    ensures roomId == Base16(random)
    ensures |roomId| == 6 && ValidateRoomId(roomId)
  {
    UpperHexIsBase16(random);
    Base16InRoomIdClass(random);
    ToUpperCase(ToHex(random))
  }

  /** Every character of a base16 encoding is in `[A-Z0-9]`. */
  lemma {:induction false} Base16InRoomIdClass(bytes: seq<byte>)
    ensures forall i :: 0 <= i < |Base16(bytes)| ==> InRoomIdClass(Base16(bytes)[i])
  {
    if bytes != [] {
      Base16InRoomIdClass(bytes[1..]);
      var b := bytes[0] as int;
      var e := Base16(bytes);
      assert e == [Base16Alphabet[b / 16], Base16Alphabet[b % 16]] + Base16(bytes[1..]);
      forall i | 0 <= i < |e| ensures InRoomIdClass(e[i]) {
        if i >= 2 {
          assert e[i] == Base16(bytes[1..])[i - 2];
        }
      }
    }
  }

  /** `generateUserId`: eight random bytes, hex encoded (lowercase). */
  function GenerateUserId(random: seq<byte>): (userId: string)
    requires |random| == 8
    ensures |userId| == 16
    ensures forall i :: 0 <= i < |userId| ==> IsLowerHexDigit(userId[i])
  {
    ToHex(random)
  }

  /** The value of one lowercase hex digit. */
  function DigitValue(c: char): (v: int)
    requires IsLowerHexDigit(c)
    ensures 0 <= v < 16
  {
    if '0' <= c <= '9' then c as int - '0' as int else c as int - 'a' as int + 10
  }

  /** Decoding of a lowercase hex string, the inverse of `ToHex`. */
  function FromHex(s: string): (bytes: seq<byte>)
    requires |s| % 2 == 0
    requires forall i :: 0 <= i < |s| ==> IsLowerHexDigit(s[i])
    ensures |bytes| == |s| / 2
  {
    if s == "" then []
    else [(DigitValue(s[0]) * 16 + DigitValue(s[1])) as byte] + FromHex(s[2..])
  }

  /** Decoding undoes hex encoding. */
  lemma {:induction false} FromHexToHex(bytes: seq<byte>)
    ensures FromHex(ToHex(bytes)) == bytes
  {
    if bytes != [] {
      var h := ToHex(bytes);
      assert h[..2] == HexByte(bytes[0]) && h[2..] == ToHex(bytes[1..]);
      FromHexToHex(bytes[1..]);
    }
  }

  /** Distinct random inputs give distinct user ids. */
  lemma GenerateUserIdInjective(a: seq<byte>, b: seq<byte>)
    requires |a| == 8 && |b| == 8 && a != b
    ensures GenerateUserId(a) != GenerateUserId(b)
  {
    FromHexToHex(a);
    FromHexToHex(b);
  }
}
