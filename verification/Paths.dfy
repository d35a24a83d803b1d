/** Canonical absolute paths as lists of segments, and the trees below them. */
module Paths {
  import opened Text

  predicate Plain(c: char) {
    c != '/' && c != '\\' && c != '%' && c != '*' && c as int >= 32 && c as int != 127
  }

  predicate Segment(s: string) {
    s != "" && s != "." && s != ".." && forall c :: c in s ==> Plain(c)
  }

  /** A path has at least one segment. */
  predicate Proper(segments: seq<string>) {
    segments != [] && Segments(segments)
  }

  predicate Segments(segments: seq<string>) {
    forall s :: s in segments ==> Segment(s)
  }

  function Path(segments: seq<string>): string {
    if segments == [] then "" else "/" + segments[0] + Path(segments[1..])
  }

  /** The resource is the path the scope names or, if the scope names a tree, lies strictly below it. */
  ghost predicate LiesIn(resource: string, scope: string) {
    exists r: seq<string>, s: seq<string> ::
      && Proper(r) && Proper(s) && resource == Path(r)
      && ((scope == Path(s) && r == s) || (scope == Path(s) + "/**" && s < r))
  }

  // --- Splitting and joining ---------------------------------------------------------------------------------

  lemma SegmentHasNoSlash(s: string)
    requires Segment(s)
    ensures '/' !in s
  {
  }

  lemma PathSteps(s: seq<string>, tail: string)
    requires s != []
    ensures Path(s) + tail == "/" + (s[0] + (Path(s[1..]) + tail))
  {
  }

  lemma PathStartsWithSlash(s: seq<string>)
    ensures (s == [] ==> Path(s) == "") && (s != [] ==> Path(s) != "" && Path(s)[0] == '/')
  {
  }

  lemma {:induction false} SplitParts(s: string, part: string)
    requires part in Split(s, '/')
    ensures forall c :: c in part ==> c in s && c != '/'
  {
    if s != "" {
      var rest := Split(s[1..], '/');
      if part in rest {
        SplitParts(s[1..], part);
      } else if part != "" {
        SplitParts(s[1..], rest[0]);
        assert part == [s[0]] + rest[0];
      }
    }
  }

  lemma {:induction false} JoinedSplit(s: string)
    ensures Path(Split(s, '/')) == "/" + s
  {
    if s == "" {
      assert Path([""]) == "/" + "" + Path([]);
    } else {
      JoinedSplit(s[1..]);
      var rest := Split(s[1..], '/');
      assert Path(rest) == "/" + rest[0] + Path(rest[1..]);
      var tail := rest[0] + Path(rest[1..]);
      assert Path(rest) == "/" + tail && Path(rest)[1..] == tail && ("/" + s[1..])[1..] == s[1..];
      assert s == [s[0]] + s[1..];
      if s[0] == '/' {
        assert ([""] + rest)[1..] == rest;
      } else {
        assert ([[s[0]] + rest[0]] + rest[1..])[1..] == rest[1..];
      }
    }
  }

  lemma {:induction false} SplitPath(segments: seq<string>)
    requires Proper(segments)
    ensures Path(segments) != "" && Path(segments)[0] == '/' && Split(Path(segments)[1..], '/') == segments
    ensures Split(Path(segments), '/') == [""] + segments
  {
    hide Segment, Path, Split;
    var head, rest := segments[0], segments[1..];
    SegmentHasNoSlash(head);
    PathSteps(segments, "");
    PathStartsWithSlash(segments);
    PathStartsWithSlash(rest);
    var tail := head + Path(rest);
    assert Path(segments) + "" == Path(segments) && Path(rest) + "" == Path(rest);
    assert Path(segments) == "" + ['/'] + tail && Path(segments)[1..] == tail;
    SplitAtSeparator("", tail, '/');
    if rest == [] {
      assert tail == head;
      SplitPlain(head, '/');
    } else {
      SplitPath(rest);
      assert tail == head + ['/'] + Path(rest)[1..];
      SplitAtSeparator(head, Path(rest)[1..], '/');
    }
  }

  lemma PathIsInjective(r: seq<string>, s: seq<string>)
    requires Proper(r) && Proper(s) && Path(r) == Path(s)
    ensures r == s
  {
    SplitPath(r);
    SplitPath(s);
  }

  lemma {:induction false} PathHasPlainCharacters(segments: seq<string>, c: char)
    requires Segments(segments) && c in Path(segments)
    ensures c == '/' || Plain(c)
  {
    if segments != [] {
      assert Segment(segments[0]);
      if c in Path(segments[1..]) {
        PathHasPlainCharacters(segments[1..], c);
      }
    }
  }

  // --- Below -----------------------------------------------------------------------------------------------

  /** Two segments, the first followed by a slash, the second by a slash or nothing, start alike only if they are the same. */
  lemma HeadsAgree(a: string, x: string, b: string, y: string)
    requires '/' !in a && '/' !in b && x != "" && x[0] == '/' && (y == "" || y[0] == '/')
    requires a + x <= b + y
    ensures a == b && x <= y
  {
    var left, right := a + x, b + y;
    NoSlashWithin(a, x);
    NoSlashWithin(b, y);
    assert left[|a|] == '/' && right[|a|] == '/';
    assert |b| <= |a| && right[|b|] == y[0] && left[|b|] == right[|b|];
    assert left[..|a|] == a && right[..|b|] == b;
    assert left[|a|..] == x && right[|b|..] == y;
  }

  lemma NoSlashWithin(a: string, x: string)
    requires '/' !in a
    ensures forall i :: 0 <= i < |a| ==> (a + x)[i] != '/'
  {
    forall i | 0 <= i < |a| ensures (a + x)[i] != '/' {
      assert a[i] in a;
    }
  }

  lemma WithoutFirst(first: string, x: string, y: string)
    ensures first + x <= first + y <==> x <= y
  {
    assert (first + x)[|first|..] == x && (first + y)[|first|..] == y;
    if x <= y {
      assert first + y == first + x + y[|x|..];
    }
  }

  lemma ProperPrefixStep(s: seq<string>, r: seq<string>)
    requires s != [] && r != []
    ensures s < r <==> s[0] == r[0] && s[1..] < r[1..]
  {
    assert s == [s[0]] + s[1..] && r == [r[0]] + r[1..];
  }

  lemma PrefixByHeads(a: string, x: string, b: string, y: string)
    requires '/' !in a && '/' !in b && x != "" && x[0] == '/' && (y == "" || y[0] == '/')
    ensures "/" + (a + x) <= "/" + (b + y) <==> a == b && x <= y
  {
    WithoutFirst("/", a + x, b + y);
    if a + x <= b + y {
      HeadsAgree(a, x, b, y);
    }
    WithoutFirst(a, x, y);
  }

  lemma {:induction false} BelowExactlyWhen(s: seq<string>, r: seq<string>)
    requires Segments(s) && Segments(r)
    ensures Path(s) + "/" <= Path(r) <==> s < r
  {
    hide Segment, Path;
    PathStartsWithSlash(s);
    PathStartsWithSlash(r);
    if s != [] && r != [] {
      BelowExactlyWhen(s[1..], r[1..]);
      ProperPrefixStep(s, r);
      PathSteps(s, "/");
      PathSteps(r, "");
      assert Path(r) + "" == Path(r) && Path(r[1..]) + "" == Path(r[1..]);
      SegmentHasNoSlash(s[0]);
      SegmentHasNoSlash(r[0]);
      PathStartsWithSlash(s[1..]);
      PathStartsWithSlash(r[1..]);
      PrefixByHeads(s[0], Path(s[1..]) + "/", r[0], Path(r[1..]));
    }
  }
}
