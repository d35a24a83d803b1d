/** Reading a Cookie header back: splitting, trimming, percent-decoding, and the one name an object cannot hold. */
module Cookies {
  import opened Policy
  import opened Text

  // Strings are sequences of Unicode scalar values: percent-encoding refuses anything else.

  // --- Percent-encoding of UTF-8 (section 2.1 of RFC 3986, section 3 of RFC 3629) -------------------------

  function Hex(n: int): char
    requires 0 <= n < 16
  {
    if n < 10 then ('0' as int + n) as char else ('A' as int + n - 10) as char
  }

  function Utf8(c: char): seq<Byte> {
    var n := c as int;
    if n < 0x80 then [n]
    else if n < 0x800 then [0xC0 + n / 0x40, 0x80 + n % 0x40]
    else if n < 0x1_0000 then [0xE0 + n / 0x1000, 0x80 + n / 0x40 % 0x40, 0x80 + n % 0x40]
    else [0xF0 + n / 0x4_0000, 0x80 + n / 0x1000 % 0x40, 0x80 + n / 0x40 % 0x40, 0x80 + n % 0x40]
  }

  predicate Unreserved(c: char) {
    'A' <= c <= 'Z' || 'a' <= c <= 'z' || '0' <= c <= '9' || c in "-_.!~*'()"
  }

  function Escaped(bytes: seq<Byte>): string {
    if bytes == [] then "" else ['%', Hex(bytes[0] / 16), Hex(bytes[0] % 16)] + Escaped(bytes[1..])
  }

  function EncodeChar(c: char): string {
    if Unreserved(c) then [c] else Escaped(Utf8(c))
  }

  function Encode(value: string): string {
    if value == "" then "" else EncodeChar(value[0]) + Encode(value[1..])
  }

  /** The byte an escape at the front of the text stands for. */
  function EscapeAt(s: string): (b: Option<Byte>)
    ensures b.Some? ==> |s| >= 3
  {
    if |s| < 3 || s[0] != '%' || HexValue(s[1]) < 0 || HexValue(s[2]) < 0 then None
    else Some(16 * HexValue(s[1]) + HexValue(s[2]))
  }

  predicate Continues(b: Option<Byte>) {
    b.Some? && 0x80 <= b.value < 0xC0
  }

  function Trailing(b: Byte): int {
    b % 0x40
  }

  /** The scalar value at the front of percent-encoded text and how many characters it takes, or None if malformed. */
  function DecodeAt(s: string): (r: Option<(char, nat)>)
    requires s != ""
    ensures r.Some? ==> 1 <= r.value.1 <= |s|
  {
    if s[0] != '%' then Some((s[0], 1))
    else
      var first := EscapeAt(s);
      if first.None? then None
      else if first.value < 0x80 then Some((first.value as char, 3))
      else
        var second := EscapeAt(s[3..]);
        if !Continues(second) then None
        else if 0xC2 <= first.value < 0xE0 then
          Some(((0x40 * (first.value - 0xC0) + Trailing(second.value)) as char, 6))
        else
          var third := EscapeAt(s[6..]);
          if !Continues(third) then None
          else if 0xE0 <= first.value < 0xF0 then
            var n := 0x1000 * (first.value - 0xE0) + 0x40 * Trailing(second.value) + Trailing(third.value);
            if 0x800 <= n < 0xD800 || 0xE000 <= n then Some((n as char, 9)) else None
          else
            var fourth := EscapeAt(s[9..]);
            if !Continues(fourth) || first.value < 0xF0 then None
            else
              var n := 0x4_0000 * (first.value - 0xF0) + 0x1000 * Trailing(second.value) + 0x40 * Trailing(third.value) + Trailing(fourth.value);
              if 0x1_0000 <= n < 0x11_0000 then Some((n as char, 12)) else None
  }

  function Decode(s: string): Option<string>
    decreases |s|
  {
    if s == "" then Some("")
    else
      match DecodeAt(s)
      case None => None
      case Some((c, n)) =>
        var rest := Decode(s[n..]);
        if rest.None? then None else Some([c] + rest.value)
  }

  // --- Reading the header ------------------------------------------------------------------------------------

  function TrimStart(s: string): string {
    if s != "" && IsSpace(s[0]) then TrimStart(s[1..]) else s
  }

  function TrimEnd(s: string): string {
    if s != "" && IsSpace(s[|s| - 1]) then TrimEnd(s[..|s| - 1]) else s
  }

  function Trim(s: string): string {
    TrimEnd(TrimStart(s))
  }

  function IndexOf(s: string, c: char): (i: Option<nat>)
    ensures i.Some? ==> i.value < |s| && s[i.value] == c && c !in s[..i.value]
    ensures i.None? <==> c !in s
  {
    if s == "" then None
    else if s[0] == c then Some(0)
    else
      var rest := IndexOf(s[1..], c);
      if rest.None? then None
      else
        assert s[..rest.value + 1] == [s[0]] + s[1..][..rest.value];
        Some(rest.value + 1)
  }

  datatype Entry = Skip | Malformed | Pair(name: string, value: string)

  function ReadPart(part: string): Entry {
    var at := IndexOf(part, '=');
    if at.None? then Skip
    else
      var key := Trim(part[..at.value]);
      if key == "" then Skip
      else
        var value := Decode(Trim(part[at.value + 1..]));
        if value.None? then Malformed else Pair(key, value.value)
  }

  /** Setting a property of a plain object to a string: the accessor named __proto__ swallows it. */
  function Assign(out: map<string, string>, name: string, value: string): map<string, string> {
    if name == PROTO then out else out[name := value]
  }

  function ReadParts(parts: seq<string>, out: map<string, string>): Option<map<string, string>> {
    if parts == [] then Some(out)
    else
      match ReadPart(parts[0])
      case Skip => ReadParts(parts[1..], out)
      case Malformed => None
      case Pair(name, value) => ReadParts(parts[1..], Assign(out, name, value))
  }

  /** The cookies of a header, or None when a value cannot be decoded. */
  function CookiesOf(header: Option<string>): Option<map<string, string>> {
    if header.None? || header.value == "" then Some(map[]) else ReadParts(Split(header.value, ';'), map[])
  }

  method ParseCookies(header: Option<string>) returns (r: Option<map<string, string>>)
    ensures r == CookiesOf(header)
  {
    if header.None? || header.value == "" { return Some(map[]); }
    var out := map[];
    var parts := Split(header.value, ';');
    for i := 0 to |parts|
      invariant ReadParts(parts[i..], out) == ReadParts(parts, map[])
    {
      var part := parts[i];
      assert parts[i..][0] == part && parts[i..][1..] == parts[i + 1..];
      var idx := IndexOf(part, '=');
      if idx.None? { continue; }
      var key, value := Trim(part[..idx.value]), Trim(part[idx.value + 1..]);
      if key != "" {
        var decoded := Decode(value);
        if decoded.None? { return None; }
        if key != PROTO { out := out[key := decoded.value]; }
      }
    }
    r := Some(out);
  }

  /** One undecodable value anywhere fails the whole header, whatever its name. */
  lemma {:induction false} FailsExactlyWhenSomePartIsMalformed(parts: seq<string>, out: map<string, string>)
    ensures ReadParts(parts, out).None? <==> exists p :: p in parts && ReadPart(p).Malformed?
  {
    if parts != [] {
      match ReadPart(parts[0])
      case Skip => FailsExactlyWhenSomePartIsMalformed(parts[1..], out);
      case Malformed => assert parts[0] in parts;
      case Pair(name, value) => FailsExactlyWhenSomePartIsMalformed(parts[1..], Assign(out, name, value));
      assert forall p :: p in parts <==> p == parts[0] || p in parts[1..];
    }
  }

  // --- The round trip ----------------------------------------------------------------------------------------

  datatype Cookie = Cookie(name: string, value: string)

  function Piece(c: Cookie): string {
    c.name + "=" + Encode(c.value)
  }

  /** The Cookie header for a list of cookies (section 4.2.1 of RFC 6265). */
  function Print(cookies: seq<Cookie>): string {
    if cookies == [] then ""
    else if |cookies| == 1 then Piece(cookies[0])
    else Piece(cookies[0]) + "; " + Print(cookies[1..])
  }

  predicate PlainName(name: string) {
    && name != "" && ';' !in name && '=' !in name
    && !IsSpace(name[0]) && !IsSpace(name[|name| - 1])
  }

  /** The map a list of cookies stands for; of two with one name the later counts. */
  function MapOf(cookies: seq<Cookie>, out: map<string, string>): map<string, string> {
    if cookies == [] then out else MapOf(cookies[1..], out[cookies[0].name := cookies[0].value])
  }

  lemma HexRoundTrip(b: Byte, rest: string)
    ensures EscapeAt(['%', Hex(b / 16), Hex(b % 16)] + rest) == Some(b)
    ensures (['%', Hex(b / 16), Hex(b % 16)] + rest)[3..] == rest
  {
  }

  lemma EscapedRoundTrip(bytes: seq<Byte>, rest: string)
    requires bytes != []
    ensures EscapeAt(Escaped(bytes) + rest) == Some(bytes[0])
    ensures (Escaped(bytes) + rest)[3..] == Escaped(bytes[1..]) + rest
  {
    hide EscapeAt, Hex;
    var head, tail := ['%', Hex(bytes[0] / 16), Hex(bytes[0] % 16)], Escaped(bytes[1..]);
    HexRoundTrip(bytes[0], tail + rest);
    assert Escaped(bytes) == head + tail;
    assert (head + tail) + rest == head + (tail + rest);
  }

  lemma {:induction false} EscapedLength(bytes: seq<Byte>)
    ensures |Escaped(bytes)| == 3 * |bytes|
  {
    if bytes != [] {
      EscapedLength(bytes[1..]);
    }
  }

  /** The escapes of up to four bytes, read off one after the other. */
  lemma EscapesAt(bytes: seq<Byte>, rest: string)
    requires 1 <= |bytes| <= 4
    ensures var s := Escaped(bytes) + rest;
            && |s| == 3 * |bytes| + |rest| && s[0] == '%' && s[3 * |bytes|..] == rest
            && EscapeAt(s) == Some(bytes[0])
            && (|bytes| > 1 ==> EscapeAt(s[3..]) == Some(bytes[1]))
            && (|bytes| > 2 ==> EscapeAt(s[6..]) == Some(bytes[2]))
            && (|bytes| > 3 ==> EscapeAt(s[9..]) == Some(bytes[3]))
  {
    var s := Escaped(bytes) + rest;
    EscapedLength(bytes);
    EscapedRoundTrip(bytes, rest);
    if |bytes| > 1 {
      EscapedRoundTrip(bytes[1..], rest);
      assert s[6..] == s[3..][3..];
      if |bytes| > 2 {
        assert bytes[1..][1..] == bytes[2..];
        EscapedRoundTrip(bytes[2..], rest);
        assert s[9..] == s[6..][3..];
        if |bytes| > 3 {
          assert bytes[2..][1..] == bytes[3..];
          EscapedRoundTrip(bytes[3..], rest);
        }
      }
    }
  }

  /** Base-64 digits put together again. */
  lemma DigitsRoundTrip(n: nat)
    ensures n == 0x40 * (n / 0x40) + n % 0x40
    ensures n == 0x1000 * (n / 0x1000) + 0x40 * (n / 0x40 % 0x40) + n % 0x40
    ensures n == 0x4_0000 * (n / 0x4_0000) + 0x1000 * (n / 0x1000 % 0x40) + 0x40 * (n / 0x40 % 0x40) + n % 0x40
  {
    assert n / 0x1000 == n / 0x40 / 0x40;
    assert n / 0x4_0000 == n / 0x1000 / 0x40;
  }

  lemma TrailingDigit(d: nat)
    requires d < 0x40
    ensures Trailing(0x80 + d) == d
  {
  }

  /** The bytes of a scalar value put together again. */
  lemma Utf8RoundTrip(c: char)
    ensures var n, u := c as int, Utf8(c);
            && (n < 0x80 ==> |u| == 1 && u[0] == n)
            && (0x80 <= n < 0x800 ==> |u| == 2 && 0xC2 <= u[0] < 0xE0 && n == 0x40 * (u[0] - 0xC0) + Trailing(u[1]))
            && (0x800 <= n < 0x1_0000 ==> |u| == 3 && 0xE0 <= u[0] < 0xF0
                                          && n == 0x1000 * (u[0] - 0xE0) + 0x40 * Trailing(u[1]) + Trailing(u[2]))
            && (0x1_0000 <= n ==> |u| == 4 && 0xF0 <= u[0]
                                  && n == 0x4_0000 * (u[0] - 0xF0) + 0x1000 * Trailing(u[1]) + 0x40 * Trailing(u[2]) + Trailing(u[3]))
            && forall i :: 1 <= i < |u| ==> 0x80 <= u[i] < 0xC0
  {
    hide Trailing;
    var n := c as int;
    DigitsRoundTrip(n);
    TrailingDigit(n % 0x40);
    TrailingDigit(n / 0x40 % 0x40);
    TrailingDigit(n / 0x1000 % 0x40);
  }

  lemma CharRoundTrip(c: char, rest: string)
    ensures var s := EncodeChar(c) + rest;
            && s != "" && DecodeAt(s) == Some((c, |EncodeChar(c)|)) && s[|EncodeChar(c)|..] == rest
  {
    if !Unreserved(c) {
      Utf8RoundTrip(c);
      EscapesAt(Utf8(c), rest);
      EscapedLength(Utf8(c));
    }
  }

  lemma {:induction false} EncodingRoundTrip(value: string)
    ensures Decode(Encode(value)) == Some(value)
  {
    if value != "" {
      CharRoundTrip(value[0], Encode(value[1..]));
      EncodingRoundTrip(value[1..]);
      assert [value[0]] + value[1..] == value;
    }
  }

  predicate Safe(s: string) {
    forall i :: 0 <= i < |s| ==> s[i] != ';' && s[i] != '=' && !IsSpace(s[i])
  }

  lemma {:induction false} EscapedIsSafe(bytes: seq<Byte>)
    ensures Safe(Escaped(bytes))
  {
    if bytes != [] {
      EscapedIsSafe(bytes[1..]);
    }
  }

  lemma {:induction false} EncodedIsSafe(value: string)
    ensures Safe(Encode(value))
  {
    if value != "" {
      EscapedIsSafe(Utf8(value[0]));
      EncodedIsSafe(value[1..]);
    }
  }

  lemma TrimLeavesSafe(s: string)
    requires Safe(s)
    ensures Trim(s) == s
  {
  }

  lemma TrimLead(lead: string, name: string)
    requires (lead == "" || lead == " ") && PlainName(name)
    ensures Trim(lead + name) == name
  {
    assert TrimStart(name) == name && TrimEnd(name) == name;
    if lead == " " {
      assert (lead + name)[0] == ' ' && (lead + name)[1..] == name;
      assert TrimStart(lead + name) == TrimStart(name);
    } else {
      assert lead + name == name;
    }
  }

  lemma PlainNameHasNoEquals(name: string)
    requires PlainName(name)
    ensures name != "" && '=' !in name
  {
  }

  lemma PieceRoundTrip(lead: string, c: Cookie)
    requires (lead == "" || lead == " ") && PlainName(c.name)
    ensures ReadPart(lead + Piece(c)) == Pair(c.name, c.value)
  {
    hide Encode, Decode, Trim, PlainName;
    assert '=' !in c.name by { PlainNameHasNoEquals(c.name); }
    var part, at := lead + Piece(c), |lead + c.name|;
    EncodedIsSafe(c.value);
    assert part[..at] == lead + c.name && part[at] == '=' && part[at + 1..] == Encode(c.value);
    FirstIndex(part, '=', at);
    TrimLead(lead, c.name);
    TrimLeavesSafe(Encode(c.value));
    EncodingRoundTrip(c.value);
    PlainNameHasNoEquals(c.name);
  }

  lemma FirstIndex(s: string, c: char, at: nat)
    requires at < |s| && s[at] == c && c !in s[..at]
    ensures IndexOf(s, c) == Some(at)
  {
    assert IndexOf(s, c).Some? by {
      assert s[at] in s;
    }
  }

  lemma PieceHasNoSeparator(lead: string, c: Cookie)
    requires (lead == "" || lead == " ") && PlainName(c.name)
    ensures ';' !in lead + Piece(c)
  {
    EncodedIsSafe(c.value);
  }

  lemma ReadOn(part: string, rest: seq<string>, out: map<string, string>, c: Cookie)
    requires ReadPart(part) == Pair(c.name, c.value)
    ensures ReadParts([part] + rest, out) == ReadParts(rest, Assign(out, c.name, c.value))
  {
    hide ReadPart;
    assert ([part] + rest)[1..] == rest;
  }

  /** Reading on from a printed list, with what was read before it. */
  lemma {:induction false} PrintedIsRead(cookies: seq<Cookie>, lead: string, out: map<string, string>)
    requires cookies != [] && (lead == "" || lead == " ") && forall c :: c in cookies ==> PlainName(c.name)
    requires PROTO !in out
    ensures ReadParts(Split(lead + Print(cookies), ';'), out) == Some(MapOf(cookies, out) - {PROTO})
  {
    hide ReadPart, Split, Piece, PlainName;
    var c := cookies[0];
    var piece := lead + Piece(c);
    PieceHasNoSeparator(lead, c);
    PieceRoundTrip(lead, c);
    var next := Assign(out, c.name, c.value);
    if |cookies| == 1 {
      SplitPlain(piece, ';');
      ReadOn(piece, [], out, c);
      assert lead + Print(cookies) == piece && [piece] + [] == [piece];
      assert MapOf(cookies, out) == out[c.name := c.value];
      assert next == MapOf(cookies, out) - {PROTO};
    } else {
      assert lead + Print(cookies) == piece + ";" + (" " + Print(cookies[1..]));
      SplitAtSeparator(piece, " " + Print(cookies[1..]), ';');
      ReadOn(piece, Split(" " + Print(cookies[1..]), ';'), out, c);
      PrintedIsRead(cookies[1..], " ", next);
      MapOfWithoutProto(cookies[1..], out[c.name := c.value]);
      MapOfWithoutProto(cookies[1..], next);
      assert out[c.name := c.value] - {PROTO} == next - {PROTO};
    }
  }

  /** A __proto__ entry beforehand makes no difference to the rest. */
  lemma {:induction false} MapOfWithoutProto(cookies: seq<Cookie>, out: map<string, string>)
    ensures MapOf(cookies, out) - {PROTO} == MapOf(cookies, out - {PROTO}) - {PROTO}
  {
    if cookies != [] {
      var c := cookies[0];
      MapOfWithoutProto(cookies[1..], out[c.name := c.value]);
      MapOfWithoutProto(cookies[1..], (out - {PROTO})[c.name := c.value]);
      assert out[c.name := c.value] - {PROTO} == (out - {PROTO})[c.name := c.value] - {PROTO};
    }
  }

  lemma {:induction false} NamesInMapOf(cookies: seq<Cookie>, out: map<string, string>)
    ensures MapOf(cookies, out).Keys == out.Keys + (set c | c in cookies :: c.name)
  {
    if cookies != [] {
      NamesInMapOf(cookies[1..], out[cookies[0].name := cookies[0].value]);
      assert cookies == [cookies[0]] + cookies[1..];
    }
  }

  /**
   * Parsing a printed list of cookies with plain names and any values gives the map the list stands for, less its
   * __proto__ entry; so it gives back the whole map exactly when no cookie has that name.
   */
  lemma ParsingUndoesPrinting(cookies: seq<Cookie>)
    requires forall c :: c in cookies ==> PlainName(c.name)
    ensures CookiesOf(Some(Print(cookies))) == Some(MapOf(cookies, map[]) - {PROTO})
    ensures CookiesOf(Some(Print(cookies))) == Some(MapOf(cookies, map[])) <==> forall c :: c in cookies ==> c.name != PROTO
  {
    if cookies != [] {
      PrintedIsRead(cookies, "", map[]);
      assert "" + Print(cookies) == Print(cookies);
    }
    NamesInMapOf(cookies, map[]);
    var all := MapOf(cookies, map[]);
    assert PROTO in all <==> exists c :: c in cookies && c.name == PROTO;
    if PROTO !in all {
      assert all - {PROTO} == all;
    }
  }

  const SESSION_COOKIE := "tna_cc_session"
  const CSRF_COOKIE := "tna_cc_csrf"

  lemma SessionNamesArePlain()
    ensures PlainName(SESSION_COOKIE) && PlainName(CSRF_COOKIE)
  {
  }

  /** Both session cookies come back, whatever their values and whatever plain cookies are sent before them. */
  lemma SessionCookiesComeBack(others: seq<Cookie>, sessionId: string, csrfToken: string)
    requires forall c :: c in others ==> PlainName(c.name)
    ensures var r := CookiesOf(Some(Print(others + [Cookie(SESSION_COOKIE, sessionId), Cookie(CSRF_COOKIE, csrfToken)])));
            && r.Some? && SESSION_COOKIE in r.value && CSRF_COOKIE in r.value
            && r.value[SESSION_COOKIE] == sessionId && r.value[CSRF_COOKIE] == csrfToken
  {
    hide CookiesOf, Print, MapOf, PlainName;
    var session, csrf := Cookie(SESSION_COOKIE, sessionId), Cookie(CSRF_COOKIE, csrfToken);
    var cookies := others + [session, csrf];
    SessionNamesArePlain();
    ParsingUndoesPrinting(cookies);
    MapOfAppend(others + [session], csrf, map[]);
    MapOfAppend(others, session, map[]);
    assert cookies == (others + [session]) + [csrf];
    assert SESSION_COOKIE[7] == 's' && CSRF_COOKIE[7] == 'c' && PROTO[0] == '_';
  }

  lemma {:induction false} MapOfAppend(cookies: seq<Cookie>, last: Cookie, out: map<string, string>)
    ensures MapOf(cookies + [last], out) == MapOf(cookies, out)[last.name := last.value]
  {
    if cookies != [] {
      assert (cookies + [last])[1..] == cookies[1..] + [last];
      MapOfAppend(cookies[1..], last, out[cookies[0].name := cookies[0].value]);
    } else {
      assert (cookies + [last])[1..] == [];
    }
  }
}
