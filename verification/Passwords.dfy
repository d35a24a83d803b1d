/** The stored form of a password: salt and derived key in hexadecimal, joined by a colon. */
module Passwords {
  import opened Text

  // The key derivation function is the host's; nothing is assumed about it here.
  type Kdf = (string, seq<Byte>) -> seq<Byte>

  function HexDigit(n: nat): char
    requires n < 16
  {
    if n < 10 then ('0' as int + n) as char else ('a' as int + n - 10) as char
  }

  function HexEncode(bytes: seq<Byte>): string {
    if bytes == [] then "" else [HexDigit(bytes[0] / 16), HexDigit(bytes[0] % 16)] + HexEncode(bytes[1..])
  }

  /** Decodes pair by pair and stops at the first pair that is not hexadecimal. */
  function HexDecode(s: string): seq<Byte> {
    if |s| < 2 || HexValue(s[0]) < 0 || HexValue(s[1]) < 0 then []
    else [16 * HexValue(s[0]) + HexValue(s[1])] + HexDecode(s[2..])
  }

  function HashPassword(kdf: Kdf, password: string, salt: seq<Byte>): string {
    HexEncode(salt) + ":" + HexEncode(kdf(password, salt))
  }

  predicate VerifyPassword(kdf: Kdf, password: string, stored: string) {
    var parts := Split(stored, ':');
    && |parts| >= 2 && parts[0] != "" && parts[1] != ""
    && kdf(password, HexDecode(parts[0])) == HexDecode(parts[1])
  }

  lemma HexDigitRoundTrip(n: nat)
    requires n < 16
    ensures HexValue(HexDigit(n)) == n && HexDigit(n) != ':'
  {
  }

  lemma {:induction false} HexRoundTrip(bytes: seq<Byte>)
    ensures HexDecode(HexEncode(bytes)) == bytes
  {
    if bytes != [] {
      HexDigitRoundTrip(bytes[0] / 16);
      HexDigitRoundTrip(bytes[0] % 16);
      assert HexEncode(bytes)[2..] == HexEncode(bytes[1..]);
      HexRoundTrip(bytes[1..]);
    }
  }

  lemma {:induction false} HexHasNoColon(bytes: seq<Byte>)
    ensures ':' !in HexEncode(bytes)
    ensures bytes != [] ==> HexEncode(bytes) != ""
  {
    if bytes != [] {
      HexDigitRoundTrip(bytes[0] / 16);
      HexDigitRoundTrip(bytes[0] % 16);
      HexHasNoColon(bytes[1..]);
    }
  }

  /** Verification accepts exactly the passwords that derive the same key under the stored salt. */
  lemma VerifyExactlyWhenKeysAgree(kdf: Kdf, p: string, q: string, salt: seq<Byte>)
    requires salt != [] && kdf(p, salt) != []
    ensures VerifyPassword(kdf, q, HashPassword(kdf, p, salt)) <==> kdf(q, salt) == kdf(p, salt)
    ensures VerifyPassword(kdf, p, HashPassword(kdf, p, salt))
  {
    var head, tail := HexEncode(salt), HexEncode(kdf(p, salt));
    HexHasNoColon(salt);
    HexHasNoColon(kdf(p, salt));
    SplitAtSeparator(head, tail, ':');
    SplitPlain(tail, ':');
    HexRoundTrip(salt);
    HexRoundTrip(kdf(p, salt));
  }

  /** Decoding stops where hexadecimal does: at a rest too short, or not of digits, for another pair. */
  lemma {:induction false} DecodingStops(bytes: seq<Byte>, rest: string)
    requires |rest| < 2 || HexValue(rest[0]) < 0 || HexValue(rest[1]) < 0
    ensures HexDecode(HexEncode(bytes) + rest) == bytes
  {
    if bytes == [] {
      assert HexEncode(bytes) + rest == rest;
    } else {
      HexDigitRoundTrip(bytes[0] / 16);
      HexDigitRoundTrip(bytes[0] % 16);
      assert (HexEncode(bytes) + rest)[2..] == HexEncode(bytes[1..]) + rest;
      DecodingStops(bytes[1..], rest);
    }
  }

  /** A stored form without a colon is never accepted; of any other the first two parts count, and neither may be empty. */
  lemma StoredFormIsReadExactly(kdf: Kdf, q: string, head: string, tail: string, rest: string)
    requires ':' !in head && ':' !in tail
    ensures !VerifyPassword(kdf, q, head)
    ensures VerifyPassword(kdf, q, head + ":" + tail) <==> head != "" && tail != "" && kdf(q, HexDecode(head)) == HexDecode(tail)
    ensures VerifyPassword(kdf, q, head + ":" + (tail + ":" + rest)) <==> VerifyPassword(kdf, q, head + ":" + tail)
  {
    SplitPlain(head, ':');
    SplitPlain(tail, ':');
    SplitAtSeparator(head, tail, ':');
    SplitAtSeparator(head, tail + ":" + rest, ':');
    SplitAtSeparator(tail, rest, ':');
  }
}
