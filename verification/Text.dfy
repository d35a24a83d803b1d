/** Strings as the host language treats them: character classes, splitting, hexadecimal digits. */
module Text {
  /** White space and line ends: what trimming removes and a pattern's \s matches. */
  predicate IsSpace(c: char) {
    var n := c as int;
    9 <= n <= 13 || n == 32 || n == 0xA0 || n == 0x1680 || 0x2000 <= n <= 0x200A || n == 0x2028 || n == 0x2029
    || n == 0x202F || n == 0x205F || n == 0x3000 || n == 0xFEFF
  }

  /** The length the host language reports: UTF-16 code units, two for a character outside the basic plane. */
  function Utf16Length(s: string): (n: nat)
    ensures |s| <= n <= 2 * |s|
  {
    if s == "" then 0 else (if s[0] as int < 0x1_0000 then 1 else 2) + Utf16Length(s[1..])
  }

  /** The code units spell the string in UTF-16 (section 2.1 of RFC 2781): pairs for characters outside the basic plane. */
  predicate Spells(units: seq<nat>, s: string)
    decreases |s|
  {
    if s == "" || units == [] then s == "" && units == []
    else if 0xD800 <= units[0] < 0xDC00 then
      && |units| >= 2 && 0xDC00 <= units[1] < 0xE000
      && s[0] as int == 0x1_0000 + 0x400 * (units[0] - 0xD800) + (units[1] - 0xDC00) && Spells(units[2..], s[1..])
    else units[0] < 0x1_0000 && s[0] as int == units[0] && Spells(units[1..], s[1..])
  }

  /** Every string can be spelled, and the length is the number of code units it takes. */
  lemma {:induction false} LengthCountsCodeUnits(s: string)
    ensures exists units :: Spells(units, s)
    ensures forall units :: Spells(units, s) ==> |units| == Utf16Length(s)
  {
    if s == "" {
      assert Spells([], s);
    } else {
      LengthCountsCodeUnits(s[1..]);
      var n := s[0] as int;
      var rest :| Spells(rest, s[1..]);
      var first: seq<nat> := if n < 0x1_0000 then [n] else [0xD800 + (n - 0x1_0000) / 0x400, 0xDC00 + (n - 0x1_0000) % 0x400];
      assert (first + rest)[|first|..] == rest;
      assert Spells(first + rest, s);
    }
  }

  function LowerChar(c: char): char {
    if 'A' <= c <= 'Z' then (c as int + 32) as char else c
  }

  /** ASCII letters in lower case; nothing else matches across case. */
  function Lower(s: string): (r: string)
    ensures |r| == |s| && forall i :: 0 <= i < |s| ==> r[i] == LowerChar(s[i])
  {
    seq(|s|, i requires 0 <= i < |s| => LowerChar(s[i]))
  }

  predicate OccursAt(s: string, word: string, i: nat) {
    i + |word| <= |s| && s[i..i + |word|] == word
  }

  predicate Contains(s: string, word: string) {
    exists i :: 0 <= i <= |s| && OccursAt(s, word, i)
  }

  // The one property name a plain object cannot be given by assignment: an inherited accessor swallows it.
  const PROTO := "__proto__"

  type Byte = b: int | 0 <= b < 256

  /** The value of a hexadecimal digit of either case, or -1. */
  function HexValue(c: char): (v: int)
    ensures -1 <= v < 16
  {
    if '0' <= c <= '9' then c as int - '0' as int
    else if 'a' <= c <= 'f' then c as int - 'a' as int + 10
    else if 'A' <= c <= 'F' then c as int - 'A' as int + 10
    else -1
  }

  function Split(s: string, separator: char): (parts: seq<string>)
    ensures |parts| >= 1
  {
    if s == "" then [""]
    else
      var rest := Split(s[1..], separator);
      if s[0] == separator then [""] + rest else [[s[0]] + rest[0]] + rest[1..]
  }

  lemma {:induction false} SplitPlain(s: string, separator: char)
    requires separator !in s
    ensures Split(s, separator) == [s]
  {
    if s != "" {
      SplitPlain(s[1..], separator);
      assert [s[0]] + s[1..] == s;
    }
  }

  lemma {:induction false} SplitAtSeparator(head: string, tail: string, separator: char)
    requires separator !in head
    ensures Split(head + [separator] + tail, separator) == [head] + Split(tail, separator)
  {
    var s := head + [separator] + tail;
    if head == "" {
      assert s[1..] == tail;
    } else {
      SplitAtSeparator(head[1..], tail, separator);
      assert s[1..] == head[1..] + [separator] + tail;
      assert [s[0]] + head[1..] == head;
    }
  }

  function Joined(parts: seq<string>, separator: char): string
    requires parts != []
  {
    if |parts| == 1 then parts[0] else parts[0] + [separator] + Joined(parts[1..], separator)
  }

  lemma {:induction false} SplitJoined(parts: seq<string>, separator: char)
    requires parts != [] && forall p :: p in parts ==> separator !in p
    ensures Split(Joined(parts, separator), separator) == parts
  {
    hide Split;
    if |parts| == 1 {
      SplitPlain(parts[0], separator);
    } else {
      SplitAtSeparator(parts[0], Joined(parts[1..], separator), separator);
      SplitJoined(parts[1..], separator);
      assert parts == [parts[0]] + parts[1..];
    }
  }

  lemma {:induction false} JoinUndoesSplit(s: string, separator: char)
    ensures Joined(Split(s, separator), separator) == s
    ensures forall p :: p in Split(s, separator) ==> separator !in p
  {
    if s != "" {
      var rest := Split(s[1..], separator);
      JoinUndoesSplit(s[1..], separator);
      assert s == [s[0]] + s[1..];
      if s[0] == separator {
        assert ([""] + rest)[1..] == rest;
        assert Split(s, separator)[0] == "" && "" + [separator] + Joined(rest, separator) == s;
      } else {
        var first := [[s[0]] + rest[0]];
        assert (first + rest[1..])[1..] == rest[1..];
        JoinedFirst(rest, s[0], separator);
      }
    }
  }

  lemma JoinedFirst(parts: seq<string>, c: char, separator: char)
    requires parts != []
    ensures Joined([[c] + parts[0]] + parts[1..], separator) == [c] + Joined(parts, separator)
  {
    var longer := [[c] + parts[0]] + parts[1..];
    if |parts| > 1 {
      assert longer[1..] == parts[1..];
    }
  }
}
