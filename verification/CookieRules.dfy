/** Which text a percent-encoded value may be written as, and what a whole Cookie header gives. */
module CookieRules {
  import opened Policy
  import opened Text
  import opened Cookies

  // --- Percent-encoded text -----------------------------------------------------------------------------------------

  /** A hexadecimal digit of either case. */
  predicate Digit(c: char, d: int) {
    0 <= d < 16 && (c == "0123456789abcdef"[d] || c == "0123456789ABCDEF"[d])
  }

  /** One escape for each of the bytes. */
  predicate Escapes(e: string, bytes: seq<Byte>) {
    |e| == 3 * |bytes| && forall i :: 0 <= i < |bytes| ==> EscapeOf(e[3 * i..3 * i + 3], bytes[i])
  }

  predicate EscapeOf(e: string, b: Byte) {
    |e| == 3 && e[0] == '%' && Digit(e[1], b / 16) && Digit(e[2], b % 16)
  }

  /** The text stands for the value: each character for itself, or by the escapes of exactly its UTF-8 bytes. */
  predicate Reads(s: string, value: string)
    decreases |value|
  {
    if value == "" then s == ""
    else
      && s != ""
      && var n := if s[0] == '%' then 3 * |Utf8(value[0])| else 1;
      && n <= |s| && (if s[0] == '%' then Escapes(s[..n], Utf8(value[0])) else s[0] == value[0])
      && Reads(s[n..], value[1..])
  }

  lemma DigitExactlyWhen(c: char, d: int)
    requires 0 <= d < 16
    ensures HexValue(c) == d <==> Digit(c, d)
  {
    if d < 10 {
      assert "0123456789abcdef"[d] as int == '0' as int + d;
      assert "0123456789ABCDEF"[d] as int == '0' as int + d;
    } else {
      assert "0123456789abcdef"[d] as int == 'a' as int + d - 10;
      assert "0123456789ABCDEF"[d] as int == 'A' as int + d - 10;
    }
  }

  lemma EscapeExactlyWhen(s: string, b: Byte)
    ensures EscapeAt(s) == Some(b) <==> |s| >= 3 && EscapeOf(s[..3], b)
  {
    hide HexValue, Digit;
    if |s| >= 3 {
      DigitExactlyWhen(s[1], b / 16);
      DigitExactlyWhen(s[2], b % 16);
    }
  }

  lemma EscapesFromFirst(s: string, bytes: seq<Byte>)
    requires 1 <= |bytes| <= 4 && 3 * |bytes| <= |s|
    ensures Escapes(s[..3 * |bytes|], bytes) <==>
              && EscapeAt(s) == Some(bytes[0])
              && (|bytes| > 1 ==> EscapeAt(s[3..]) == Some(bytes[1]))
              && (|bytes| > 2 ==> EscapeAt(s[6..]) == Some(bytes[2]))
              && (|bytes| > 3 ==> EscapeAt(s[9..]) == Some(bytes[3]))
  {
    hide EscapeAt, EscapeOf;
    var e := s[..3 * |bytes|];
    forall i | 0 <= i < |bytes| ensures EscapeOf(e[3 * i..3 * i + 3], bytes[i]) <==> EscapeAt(s[3 * i..]) == Some(bytes[i]) {
      EscapeExactlyWhen(s[3 * i..], bytes[i]);
      assert e[3 * i..3 * i + 3] == s[3 * i..][..3];
    }
    assert s[0..] == s;
    if EscapesAll(s, bytes) {
      assert EscapeOf(e[3 * 0..3 * 0 + 3], bytes[0]);
    }
  }

  predicate EscapesAll(s: string, bytes: seq<Byte>)
    requires 1 <= |bytes| <= 4 && 3 * |bytes| <= |s|
  {
    Escapes(s[..3 * |bytes|], bytes)
  }

  /** The bytes that put a scalar value together are its UTF-8 bytes. */
  lemma TwoBytes(b0: Byte, b1: Byte, c: char)
    requires 0xC2 <= b0 < 0xE0 && 0x80 <= b1 < 0xC0 && c as int == 0x40 * (b0 - 0xC0) + b1 % 0x40
    ensures Utf8(c) == [b0, b1]
  {
  }

  lemma ThreeBytes(b0: Byte, b1: Byte, b2: Byte, c: char)
    requires 0xE0 <= b0 < 0xF0 && 0x80 <= b1 < 0xC0 && 0x80 <= b2 < 0xC0
    requires c as int == 0x1000 * (b0 - 0xE0) + 0x40 * (b1 % 0x40) + b2 % 0x40 && 0x800 <= c as int
    ensures Utf8(c) == [b0, b1, b2]
  {
    var n := c as int;
    assert n / 0x40 == 0x40 * (b0 - 0xE0) + b1 % 0x40;
  }

  lemma FourBytes(b0: Byte, b1: Byte, b2: Byte, b3: Byte, c: char)
    requires 0xF0 <= b0 && 0x80 <= b1 < 0xC0 && 0x80 <= b2 < 0xC0 && 0x80 <= b3 < 0xC0
    requires c as int == 0x4_0000 * (b0 - 0xF0) + 0x1000 * (b1 % 0x40) + 0x40 * (b2 % 0x40) + b3 % 0x40 && 0x1_0000 <= c as int
    ensures Utf8(c) == [b0, b1, b2, b3]
  {
    DigitsApart(c as int, b0 - 0xF0, b1 - 0x80, b2 - 0x80, b3 - 0x80);
  }

  lemma DigitsApart(n: nat, d0: nat, d1: nat, d2: nat, d3: nat)
    requires d1 < 0x40 && d2 < 0x40 && d3 < 0x40 && n == 0x4_0000 * d0 + 0x1000 * d1 + 0x40 * d2 + d3
    ensures n / 0x4_0000 == d0 && n / 0x1000 % 0x40 == d1 && n / 0x40 % 0x40 == d2 && n % 0x40 == d3
  {
    assert n / 0x40 == 0x1000 * d0 + 0x40 * d1 + d2;
    assert n / 0x1000 == 0x40 * d0 + d1;
  }

  lemma ScalarsAreNoSurrogates(c: char)
    ensures c as int < 0xD800 || 0xE000 <= c as int < 0x11_0000
  {
  }

  lemma DecodedIsUtf8(s: string)
    requires s != "" && s[0] == '%' && DecodeAt(s).Some?
    ensures var (c, n) := DecodeAt(s).value;
            n == 3 * |Utf8(c)| && n <= |s| && Escapes(s[..n], Utf8(c))
  {
    hide EscapeAt, Escapes, Utf8;
    var (c, n) := DecodeAt(s).value;
    var b0 := EscapeAt(s).value;
    if n == 3 {
      assert Utf8(c) == [b0] by { OneByte(b0, c); }
      EscapesFromFirst(s, [b0]);
    } else {
      var b1 := EscapeAt(s[3..]).value;
      if n == 6 {
        TwoBytes(b0, b1, c);
        EscapesFromFirst(s, [b0, b1]);
      } else {
        var b2 := EscapeAt(s[6..]).value;
        if n == 9 {
          ThreeBytes(b0, b1, b2, c);
          EscapesFromFirst(s, [b0, b1, b2]);
        } else {
          var b3 := EscapeAt(s[9..]).value;
          FourBytes(b0, b1, b2, b3, c);
          EscapesFromFirst(s, [b0, b1, b2, b3]);
        }
      }
    }
  }

  lemma OneByte(b: Byte, c: char)
    requires b < 0x80 && c as int == b
    ensures Utf8(c) == [b]
  {
  }

  lemma EscapesDecode(s: string, c: char)
    requires s != "" && s[0] == '%' && 3 * |Utf8(c)| <= |s| && Escapes(s[..3 * |Utf8(c)|], Utf8(c))
    ensures DecodeAt(s) == Some((c, 3 * |Utf8(c)|))
  {
    hide EscapeAt, Escapes, Utf8;
    Utf8RoundTrip(c);
    ScalarsAreNoSurrogates(c);
    EscapesFromFirst(s, Utf8(c));
  }

  /** Decoding gives a value exactly for the text that stands for it; so it fails for all text that stands for none. */
  lemma {:induction false} DecodesExactlyWhen(s: string, value: string)
    ensures Decode(s) == Some(value) <==> Reads(s, value)
    decreases |s|
  {
    hide DecodeAt, Utf8, Escapes;
    if s != "" && value != "" {
      var c := value[0];
      if s[0] == '%' {
        if DecodeAt(s).Some? {
          DecodedIsUtf8(s);
        }
        if 3 * |Utf8(c)| <= |s| && Escapes(s[..3 * |Utf8(c)|], Utf8(c)) {
          EscapesDecode(s, c);
        }
      } else {
        PlainDecodes(s);
      }
      if DecodeAt(s).Some? {
        var (d, n) := DecodeAt(s).value;
        DecodesExactlyWhen(s[n..], value[1..]);
        assert [value[0]] + value[1..] == value;
        assert Decode(s).Some? ==> Decode(s).value[0] == d && Decode(s).value[1..] == Decode(s[n..]).value;
      }
    }
  }

  lemma PlainDecodes(s: string)
    requires s != "" && s[0] != '%'
    ensures DecodeAt(s) == Some((s[0], 1))
  {
  }

  // --- One part of the header -----------------------------------------------------------------------------------------

  predicate AllSpace(s: string) {
    forall i :: 0 <= i < |s| ==> IsSpace(s[i])
  }

  predicate Trimmed(s: string) {
    s != "" ==> !IsSpace(s[0]) && !IsSpace(s[|s| - 1])
  }

  lemma {:induction false} TrimStartOf(a: string, t: string)
    requires AllSpace(a) && (t != "" ==> !IsSpace(t[0]))
    ensures TrimStart(a + t) == t
  {
    hide IsSpace;
    if a == "" {
      assert a + t == t;
    } else {
      assert (a + t)[0] == a[0] && (a + t)[1..] == a[1..] + t;
      TrimStartOf(a[1..], t);
    }
  }

  lemma {:induction false} TrimEndOf(t: string, b: string)
    requires AllSpace(b) && (t != "" ==> !IsSpace(t[|t| - 1]))
    ensures TrimEnd(t + b) == t
  {
    hide IsSpace;
    if b == "" {
      assert t + b == t;
    } else {
      var last := |b| - 1;
      assert (t + b)[|t + b| - 1] == b[last] && (t + b)[..|t + b| - 1] == t + b[..last];
      TrimEndOf(t, b[..last]);
    }
  }

  lemma TrimOf(a: string, t: string, b: string)
    requires AllSpace(a) && AllSpace(b) && Trimmed(t)
    ensures Trim(a + t + b) == t
  {
    hide IsSpace, TrimStart, TrimEnd;
    if t == "" {
      assert a + t + b == a + b && (a + b) + "" == a + b && "" + "" == "";
      TrimStartOf(a + b, "");
      TrimEndOf("", "");
    } else {
      assert a + t + b == a + (t + b);
      TrimStartOf(a, t + b);
      TrimEndOf(t, b);
    }
  }

  lemma {:induction false} TrimStartSplits(s: string) returns (a: string)
    ensures AllSpace(a) && s == a + TrimStart(s) && (TrimStart(s) != "" ==> !IsSpace(TrimStart(s)[0]))
  {
    hide IsSpace;
    if s != "" && IsSpace(s[0]) {
      var rest := TrimStartSplits(s[1..]);
      a := [s[0]] + rest;
      assert s == [s[0]] + s[1..];
    } else {
      a := "";
    }
  }

  lemma {:induction false} TrimEndSplits(s: string) returns (b: string)
    ensures AllSpace(b) && s == TrimEnd(s) + b && (TrimEnd(s) != "" ==> !IsSpace(TrimEnd(s)[|TrimEnd(s)| - 1]))
  {
    hide IsSpace;
    if s != "" && IsSpace(s[|s| - 1]) {
      var rest := TrimEndSplits(s[..|s| - 1]);
      b := rest + [s[|s| - 1]];
      assert s == s[..|s| - 1] + [s[|s| - 1]];
    } else {
      b := "";
    }
  }

  lemma TrimSplits(s: string) returns (a: string, b: string)
    ensures AllSpace(a) && AllSpace(b) && s == a + Trim(s) + b && Trimmed(Trim(s))
  {
    hide IsSpace, TrimStart, TrimEnd;
    a := TrimStartSplits(s);
    b := TrimEndSplits(TrimStart(s));
    assert s == a + (Trim(s) + b);
    if Trim(s) != "" {
      assert TrimStart(s)[0] == Trim(s)[0];
    }
  }

  /** The part is a name, an equals sign and a raw value, with any white space around the two. */
  ghost predicate Names(part: string, name: string, raw: string) {
    exists a, b, c, d ::
      && part == a + name + b + "=" + (c + raw + d)
      && AllSpace(a) && AllSpace(b) && AllSpace(c) && AllSpace(d)
      && name != "" && Trimmed(name) && Trimmed(raw) && '=' !in name
  }

  /** The part gives a name this value. */
  ghost predicate Gives(part: string, name: string, value: string) {
    exists raw :: Names(part, name, raw) && Reads(raw, value)
  }

  /** The part has a name but its raw value stands for nothing. */
  ghost predicate Broken(part: string) {
    exists name, raw :: Names(part, name, raw) && forall value :: !Reads(raw, value)
  }

  lemma SpaceIsNoEquals(s: string)
    requires AllSpace(s)
    ensures '=' !in s
  {
  }

  /** Name and raw value, as the reader finds them. */
  function Found(part: string): Option<(string, string)> {
    var at := IndexOf(part, '=');
    if at.None? || Trim(part[..at.value]) == "" then None
    else Some((Trim(part[..at.value]), Trim(part[at.value + 1..])))
  }

  lemma NamesAreFound(part: string, name: string, raw: string)
    requires Names(part, name, raw)
    ensures Found(part) == Some((name, raw))
  {
    hide IndexOf, Trim, AllSpace, Trimmed;
    var a, b, c, d :| && part == a + name + b + "=" + (c + raw + d)
                      && AllSpace(a) && AllSpace(b) && AllSpace(c) && AllSpace(d)
                      && name != "" && Trimmed(name) && Trimmed(raw) && '=' !in name;
    var at := |a + name + b|;
    SpaceIsNoEquals(a);
    SpaceIsNoEquals(b);
    assert part[..at] == a + name + b && part[at] == '=' && part[at + 1..] == c + raw + d;
    FirstIndex(part, '=', at);
    TrimOf(a, name, b);
    TrimOf(c, raw, d);
  }

  lemma FoundIsNamed(part: string)
    requires Found(part).Some?
    ensures Names(part, Found(part).value.0, Found(part).value.1)
  {
    hide Trim, AllSpace, Trimmed;
    var at := IndexOf(part, '=').value;
    var a, b := TrimSplits(part[..at]);
    var c, d := TrimSplits(part[at + 1..]);
    var name, raw := Trim(part[..at]), Trim(part[at + 1..]);
    assert part == part[..at] + "=" + part[at + 1..];
    assert '=' !in name by {
      forall k | 0 <= k < |name| ensures name[k] != '=' {
        assert part[..at][|a| + k] == name[k];
      }
    }
  }

  lemma PartIsFound(part: string)
    ensures ReadPart(part) == if Found(part).None? then Skip
                              else var (name, raw) := Found(part).value;
                                   if Decode(raw).None? then Malformed else Pair(name, Decode(raw).value)
  {
    hide Trim, Decode, IndexOf;
  }

  /** A part gives a name a value exactly when it is read so, and is broken exactly when it fails. */
  lemma PartIsReadExactlyWhen(part: string)
    ensures forall name, value :: ReadPart(part) == Pair(name, value) <==> Gives(part, name, value)
    ensures ReadPart(part).Malformed? <==> Broken(part)
  {
    hide ReadPart, Found, Names, Decode, Reads;
    PartIsFound(part);
    forall name, raw ensures Names(part, name, raw) <==> Found(part) == Some((name, raw)) {
      if Names(part, name, raw) {
        NamesAreFound(part, name, raw);
      }
      if Found(part) == Some((name, raw)) {
        FoundIsNamed(part);
      }
    }
    if Found(part).Some? {
      var (name, raw) := Found(part).value;
      forall value ensures Decode(raw) == Some(value) <==> Reads(raw, value) {
        DecodesExactlyWhen(raw, value);
      }
      assert Decode(raw).Some? ==> Reads(raw, Decode(raw).value);
    }
  }

  // --- The whole header -----------------------------------------------------------------------------------------------

  /** The last part that names the name gives it the value. */
  ghost predicate GivesLast(parts: seq<string>, i: nat, name: string, value: string) {
    && i < |parts| && Gives(parts[i], name, value)
    && forall j, w :: i < j < |parts| ==> !Gives(parts[j], name, w)
  }

  lemma {:induction false} LastPartCounts(parts: seq<string>, out: map<string, string>, name: string)
    requires ReadParts(parts, out).Some?
    ensures var r := ReadParts(parts, out).value;
            if name == "__proto__" then (name in r <==> name in out)
            else if exists i: nat, value :: GivesLast(parts, i, name, value)
            then name in r && forall i: nat, value :: GivesLast(parts, i, name, value) ==> r[name] == value
            else (name in r <==> name in out) && (name in r ==> r[name] == out[name])
  {
    hide ReadPart, Gives;
    if parts != [] {
      var rest := parts[1..];
      PartIsReadExactlyWhen(parts[0]);
      var next := match ReadPart(parts[0])
        case Pair(n, v) => Assign(out, n, v)
        case _ => out;
      LastPartCounts(rest, next, name);
      LastInRest(parts, name);
      if j: nat, value :| GivesLast(rest, j, name, value) {
        assert GivesLast(parts, j + 1, name, value);
      } else if ReadPart(parts[0]).Pair? && ReadPart(parts[0]).name == name {
        assert Gives(parts[0], name, ReadPart(parts[0]).value);
        assert GivesLast(parts, 0, name, ReadPart(parts[0]).value);
      }
    }
  }

  lemma LastInRest(parts: seq<string>, name: string)
    requires parts != []
    ensures forall i: nat, value :: i > 0 ==> (GivesLast(parts, i, name, value) <==> GivesLast(parts[1..], i - 1, name, value))
    ensures forall value :: GivesLast(parts, 0, name, value) <==>
                              Gives(parts[0], name, value) && forall j: nat, w :: !GivesLast(parts[1..], j, name, w)
  {
    hide Gives;
    var rest := parts[1..];
    forall i: nat, value | i > 0 ensures GivesLast(parts, i, name, value) <==> GivesLast(rest, i - 1, name, value) {
      GivesLastBehind(parts, i, name, value);
    }
    if exists j: nat, w :: j < |rest| && Gives(rest[j], name, w) {
      SomeGivesLast(rest, name);
      var j: nat, w :| GivesLast(rest, j, name, w);
      assert Gives(parts[j + 1], name, w);
    } else {
      forall j, w | 0 < j < |parts| ensures !Gives(parts[j], name, w) {
        assert parts[j] == rest[j - 1];
      }
    }
  }

  lemma GivesLastBehind(parts: seq<string>, i: nat, name: string, value: string)
    requires parts != [] && i > 0
    ensures GivesLast(parts, i, name, value) <==> GivesLast(parts[1..], i - 1, name, value)
  {
    hide Gives;
    var rest := parts[1..];
    if GivesLast(parts, i, name, value) {
      forall j, w | i - 1 < j < |rest| ensures !Gives(rest[j], name, w) {
        assert rest[j] == parts[j + 1];
      }
    }
    if GivesLast(rest, i - 1, name, value) {
      forall j, w | i < j < |parts| ensures !Gives(parts[j], name, w) {
        assert parts[j] == rest[j - 1];
      }
    }
  }

  lemma {:induction false} SomeGivesLast(parts: seq<string>, name: string)
    requires exists j: nat, w :: j < |parts| && Gives(parts[j], name, w)
    ensures exists i: nat, value :: GivesLast(parts, i, name, value)
  {
    hide Gives;
    var last := |parts| - 1;
    if w :| Gives(parts[last], name, w) {
      assert GivesLast(parts, last, name, w);
    } else {
      var j: nat, w :| j < |parts| && Gives(parts[j], name, w);
      var front := parts[..last];
      assert front[j] == parts[j];
      SomeGivesLast(front, name);
      var i: nat, value :| GivesLast(front, i, name, value);
      assert GivesLast(parts, i, name, value);
    }
  }

  /**
   * A header of any parts fails exactly when some part has a name and a raw value that stands for nothing. Otherwise it
   * gives every name but __proto__ that some part gives a value, and of several the last; and no other name.
   */
  lemma HeaderIsRead(parts: seq<string>)
    requires parts != [] && forall p :: p in parts ==> ';' !in p
    ensures var r := CookiesOf(Some(Joined(parts, ';')));
            && (r.None? <==> exists p :: p in parts && Broken(p))
            && (r.Some? ==>
                  forall name ::
                    && (name in r.value <==> name != "__proto__" && exists i: nat, value :: GivesLast(parts, i, name, value))
                    && forall i: nat, value :: name in r.value && GivesLast(parts, i, name, value) ==> r.value[name] == value)
  {
    hide ReadPart, Gives, GivesLast, Broken, Split;
    SplitJoined(parts, ';');
    FailsExactlyWhenSomePartIsMalformed(parts, map[]);
    forall p | p in parts ensures ReadPart(p).Malformed? <==> Broken(p) {
      PartIsReadExactlyWhen(p);
    }
    if Joined(parts, ';') == "" {
      NothingIsRead(parts);
    }
    if ReadParts(parts, map[]).Some? {
      forall name
        ensures var r := ReadParts(parts, map[]).value;
                && (name in r <==> name != "__proto__" && exists i: nat, value :: GivesLast(parts, i, name, value))
                && forall i: nat, value :: name in r && GivesLast(parts, i, name, value) ==> r[name] == value
      {
        LastPartCounts(parts, map[], name);
      }
    }
  }

  lemma NothingIsRead(parts: seq<string>)
    requires parts != [] && Joined(parts, ';') == ""
    ensures ReadParts(parts, map[]) == Some(map[])
  {
    assert |parts| == 1 && parts[0] == "";
    assert ReadPart("") == Skip;
    assert parts[1..] == [];
  }
}
