/** Which names and which strings redaction strikes out, spelled out, and what is left at every place of a tree. */
module RedactionRules {
  import opened Policy
  import opened Text
  import opened Redaction

  // --- Words in any case --------------------------------------------------------------------------------------------

  /** One letter for another, whichever of the two is a capital. */
  predicate SameLetter(c: char, d: char) {
    || c == d
    || ('A' <= c <= 'Z' && d as int == c as int + 32)
    || ('A' <= d <= 'Z' && c as int == d as int + 32)
  }

  predicate EqualIgnoringCase(v: string, w: string) {
    |v| == |w| && forall i :: 0 <= i < |v| ==> SameLetter(v[i], w[i])
  }

  predicate LowerCase(w: string) {
    forall i :: 0 <= i < |w| ==> 'a' <= w[i] <= 'z' || w[i] == '_' || w[i] == '-'
  }

  lemma LowerExactlyWhenEqual(v: string, w: string)
    requires LowerCase(w)
    ensures Lower(v) == w <==> EqualIgnoringCase(v, w)
  {
    if EqualIgnoringCase(v, w) {
      assert forall i :: 0 <= i < |v| ==> Lower(v)[i] == w[i];
    }
    if Lower(v) == w {
      forall i | 0 <= i < |v| ensures SameLetter(v[i], w[i]) {
        assert Lower(v)[i] == w[i];
      }
    }
  }

  /** Somewhere in the text the word is written, in capitals or not. */
  ghost predicate Writes(text: string, w: string) {
    exists a, v, b :: text == a + v + b && EqualIgnoringCase(v, w)
  }

  lemma OccursWhereWritten(a: string, v: string, b: string, w: string)
    requires LowerCase(w)
    ensures OccursAt(Lower(a + v + b), w, |a|) && |v| == |w| <==> EqualIgnoringCase(v, w)
  {
    var low := Lower(a + v + b);
    assert low[|a|..|a| + |v|] == Lower(v);
    LowerExactlyWhenEqual(v, w);
  }

  lemma ContainsExactlyWhenWritten(text: string, w: string)
    requires LowerCase(w)
    ensures Contains(Lower(text), w) <==> Writes(text, w)
  {
    hide Lower, OccursAt, EqualIgnoringCase;
    if Contains(Lower(text), w) {
      var i :| 0 <= i <= |text| && OccursAt(Lower(text), w, i);
      OccursWithin(text, w, i);
      var a, v, b := text[..i], text[i..i + |w|], text[i + |w|..];
      assert text == a + v + b;
      OccursWhereWritten(a, v, b, w);
    }
    if Writes(text, w) {
      var a, v, b :| text == a + v + b && EqualIgnoringCase(v, w);
      OccursWhereWritten(a, v, b, w);
      assert 0 <= |a| <= |Lower(text)|;
    }
  }

  lemma OccursWithin(text: string, w: string, i: nat)
    requires OccursAt(Lower(text), w, i)
    ensures i + |w| <= |text|
  {
  }

  // --- The names ----------------------------------------------------------------------------------------------------

  /** Two words written together, or with an underscore or a hyphen between them. */
  predicate Joins(w: string, first: string, second: string) {
    w == first + second || w == first + "_" + second || w == first + "-" + second
  }

  /** The words that make a name secret. */
  predicate SecretWord(w: string) {
    || w == "secret" || w == "password" || w == "bearer" || w == "authorization" || w == "credential" || w == "token"
    || Joins(w, "api", "key") || Joins(w, "private", "key") || Joins(w, "signing", "key")
    || Joins(w, "access", "token") || Joins(w, "refresh", "token") || Joins(w, "client", "secret")
  }

  predicate HintWord(w: string) {
    w == "token" || w == "secret" || w == "credential" || w == "password" || w == "key"
  }

  ghost predicate NamesSecret(name: string) {
    exists w :: SecretWord(w) && Writes(name, w)
  }

  ghost predicate NamesHint(name: string) {
    exists w :: HintWord(w) && Writes(name, w)
  }

  lemma JoinsAreThree(w: string, first: string, second: string, plain: string, under: string, hyphen: string)
    requires first + second == plain && first + "_" + second == under && first + "-" + second == hyphen
    ensures Joins(w, first, second) <==> w == plain || w == under || w == hyphen
  {
  }

  predicate Listed(w: string) {
    || w == "apikey" || w == "api_key" || w == "api-key" || w == "secret" || w == "password"
    || w == "privatekey" || w == "private_key" || w == "private-key"
    || w == "accesstoken" || w == "access_token" || w == "access-token"
    || w == "refreshtoken" || w == "refresh_token" || w == "refresh-token"
    || w == "clientsecret" || w == "client_secret" || w == "client-secret"
    || w == "bearer" || w == "authorization" || w == "credential"
    || w == "signingkey" || w == "signing_key" || w == "signing-key" || w == "token"
  }

  lemma WordsAreListed(w: string)
    ensures Listed(w) <==> SecretWord(w)
  {
    JoinsAreThree(w, "api", "key", "apikey", "api_key", "api-key");
    JoinsAreThree(w, "private", "key", "privatekey", "private_key", "private-key");
    JoinsAreThree(w, "signing", "key", "signingkey", "signing_key", "signing-key");
    JoinsAreThree(w, "access", "token", "accesstoken", "access_token", "access-token");
    JoinsAreThree(w, "refresh", "token", "refreshtoken", "refresh_token", "refresh-token");
    JoinsAreThree(w, "client", "secret", "clientsecret", "client_secret", "client-secret");
  }

  lemma InListExactlyWhenListed(w: string)
    ensures w in SECRET_WORDS <==> Listed(w)
  {
  }

  lemma JoinIsLowerCase(w: string, first: string, second: string)
    requires LowerCase(first) && LowerCase(second)
    ensures Joins(w, first, second) ==> LowerCase(w)
  {
  }

  lemma SecretWordIsLowerCase(w: string)
    requires SecretWord(w)
    ensures LowerCase(w)
  {
    hide Joins;
    JoinIsLowerCase(w, "api", "key");
    JoinIsLowerCase(w, "private", "key");
    JoinIsLowerCase(w, "signing", "key");
    JoinIsLowerCase(w, "access", "token");
    JoinIsLowerCase(w, "refresh", "token");
    JoinIsLowerCase(w, "client", "secret");
  }

  lemma SecretWordsAreThese(w: string)
    ensures w in SECRET_WORDS <==> SecretWord(w)
    ensures SecretWord(w) ==> LowerCase(w)
  {
    hide SecretWord, Listed, LowerCase;
    WordsAreListed(w);
    InListExactlyWhenListed(w);
    if SecretWord(w) {
      SecretWordIsLowerCase(w);
    }
  }

  lemma HintWordsAreThese(w: string)
    ensures w in HINT_WORDS <==> HintWord(w)
    ensures HintWord(w) ==> LowerCase(w)
  {
  }

  /** A name is secret exactly when one of the words is written in it, whatever is before and behind and in whatever case. */
  lemma SecretKeyExactlyWhen(name: string)
    ensures SecretKey(name) <==> NamesSecret(name)
  {
    hide Contains, Lower, Writes, SecretWord, LowerCase;
    forall w ensures w in SECRET_WORDS && Contains(Lower(name), w) <==> SecretWord(w) && Writes(name, w) {
      SecretWordsAreThese(w);
      if SecretWord(w) {
        ContainsExactlyWhenWritten(name, w);
      }
    }
  }

  lemma HintKeyExactlyWhen(name: string)
    ensures Mentions(name, HINT_WORDS) <==> NamesHint(name)
  {
    hide Contains, Lower, Writes, HintWord, LowerCase;
    forall w ensures w in HINT_WORDS && Contains(Lower(name), w) <==> HintWord(w) && Writes(name, w) {
      HintWordsAreThese(w);
      if HintWord(w) {
        ContainsExactlyWhenWritten(name, w);
      }
    }
  }

  // --- The strings --------------------------------------------------------------------------------------------------

  /** White space and line terminators, sections 12.2 and 12.3 of ECMA-262. */
  predicate IsBlank(c: char) {
    var code := c as int;
    || code in {0x9, 0xB, 0xC, 0xFEFF}
    || code in {0x20, 0xA0, 0x1680, 0x202F, 0x205F, 0x3000} || 0x2000 <= code < 0x200B
    || code in {0xA, 0xD, 0x2028, 0x2029}
  }

  predicate AllBlank(s: string) {
    forall i :: 0 <= i < |s| ==> IsBlank(s[i])
  }

  /** Somewhere the word bearer in any case, then at least one blank, then something that is none. */
  ghost predicate CarriesBearer(text: string) {
    exists a, v, blanks, rest ::
      && text == a + v + blanks + rest && EqualIgnoringCase(v, "bearer")
      && blanks != "" && AllBlank(blanks) && rest != "" && !IsBlank(rest[0])
  }

  predicate IsTokenCharacter(c: char) {
    var code := c as int;
    48 <= code < 58 || 65 <= code < 91 || 97 <= code < 123 || code == 95 || code == 45
  }

  /** Twenty-four token characters, and any number more. */
  ghost predicate LooksLikeToken(text: string) {
    exists a: string, b: string :: text == a + b && |a| == 24 && forall i :: 0 <= i < |a + b| ==> IsTokenCharacter((a + b)[i])
  }

  lemma BearerExactlyWhen(text: string)
    ensures BearerValue(text) <==> CarriesBearer(text)
  {
    hide EqualIgnoringCase, OccursAt;
    if BearerValue(text) {
      var i, j :| 0 <= i < |text| && 0 <= j < |text| && BearerAt(text, i, j);
      BearerIsCarried(text, i, j);
    }
    if CarriesBearer(text) {
      var a, v, blanks, rest :| text == a + v + blanks + rest && EqualIgnoringCase(v, "bearer")
                                && blanks != "" && AllBlank(blanks) && rest != "" && !IsBlank(rest[0]);
      CarriedIsBearer(a, v, blanks, rest);
    }
  }

  lemma BearerIsCarried(text: string, i: nat, j: nat)
    requires BearerAt(text, i, j)
    ensures CarriesBearer(text)
  {
    hide EqualIgnoringCase, OccursAt;
    var a, v, blanks, rest := text[..i], text[i..i + 6], text[i + 6..j], text[j..];
    assert text == a + v + (blanks + rest);
    assert text == a + v + blanks + rest;
    OccursWhereWritten(a, v, blanks + rest, "bearer");
    forall k | 0 <= k < |blanks| ensures IsBlank(blanks[k]) {
      assert blanks[k] == text[i + 6 + k];
    }
  }

  lemma CarriedIsBearer(a: string, v: string, blanks: string, rest: string)
    requires EqualIgnoringCase(v, "bearer") && blanks != "" && AllBlank(blanks) && rest != "" && !IsBlank(rest[0])
    ensures BearerValue(a + v + blanks + rest)
  {
    hide OccursAt;
    var text := a + v + blanks + rest;
    assert text == a + v + (blanks + rest);
    OccursWhereWritten(a, v, blanks + rest, "bearer");
    var i, j := |a|, |a| + 6 + |blanks|;
    forall k | i + 6 <= k < j ensures IsSpace(text[k]) {
      assert text[k] == blanks[k - i - 6];
    }
    assert text[j] == rest[0];
    assert BearerAt(text, i, j);
  }

  lemma LongOpaqueExactlyWhen(text: string)
    ensures LongOpaque(text) <==> LooksLikeToken(text)
  {
    if LongOpaque(text) {
      var a, b := text[..24], text[24..];
      assert text == a + b && |a| == 24;
      forall i | 0 <= i < |a + b| ensures IsTokenCharacter((a + b)[i]) {
        assert text[i] in text;
      }
    }
    if LooksLikeToken(text) {
      var a: string, b: string :| text == a + b && |a| == 24 && forall i :: 0 <= i < |a + b| ==> IsTokenCharacter((a + b)[i]);
      forall c | c in text ensures IsTokenCharacter(c) {
        var i :| 0 <= i < |text| && text[i] == c;
        assert (a + b)[i] == c;
      }
    }
  }

  // --- What is struck out, and what is left ---------------------------------------------------------------------------

  /** A string under a key, if under one, is struck out. */
  ghost predicate StruckOut(text: string, key: Option<string>) {
    || (key.Some? && NamesSecret(key.value))
    || CarriesBearer(text)
    || (key.Some? && NamesHint(key.value) && LooksLikeToken(text))
  }

  lemma EmptyNamesNothing()
    ensures !NamesSecret("") && !NamesHint("")
  {
    forall w | SecretWord(w) || HintWord(w) ensures !Writes("", w) {
      forall a, v, b | "" == a + v + b ensures |v| != |w| {
        assert |a + v + b| == 0 && |w| > 0;
      }
    }
  }

  /** A string is struck out for the key it comes under, for the bearer it carries or as a token under a telling key; else it is left. */
  lemma StringIsReplacedExactlyWhen(text: string, key: Option<string>)
    ensures Redacted(Str(text), key) == if StruckOut(text, key) then Str("[REDACTED]") else Str(text)
  {
    hide SecretKey, BearerValue, LongOpaque, Mentions, NamesSecret, NamesHint, CarriesBearer, LooksLikeToken;
    EmptyNamesNothing();
    BearerExactlyWhen(text);
    LongOpaqueExactlyWhen(text);
    if key.Some? {
      SecretKeyExactlyWhen(key.value);
      HintKeyExactlyWhen(key.value);
    }
  }

  // A place in a tree is reached by entering list items and entries.
  datatype Turn = Item(i: nat) | Entry(key: string)

  function At(value: Json, path: seq<Turn>): Option<Json> {
    if path == [] then Some(value)
    else match path[0]
      case Item(i) => if value.Arr? && i < |value.items| then At(value.items[i], path[1..]) else None
      case Entry(key) => if value.Obj? && key in value.fields then At(value.fields[key], path[1..]) else None
  }

  /** The key a place comes under: that of the last entry, none for a list item. */
  function KeyOf(path: seq<Turn>, key: Option<string>): Option<string> {
    if path == [] then key
    else if path[|path| - 1].Entry? then Some(path[|path| - 1].key) else None
  }

  /** No entry on the way has a secret name or the one name that is lost. */
  ghost predicate Open(path: seq<Turn>) {
    forall n :: 0 <= n < |path| && path[n].Entry? ==> path[n].key != "__proto__" && !NamesSecret(path[n].key)
  }

  lemma {:induction false} RedactedAt(value: Json, key: Option<string>, path: seq<Turn>)
    requires Open(path)
    ensures At(Redacted(value, key), path)
            == if At(value, path).None? then None else Some(Redacted(At(value, path).value, KeyOf(path, key)))
    decreases |path|
  {
    hide SecretKey, Suspicious, NamesSecret;
    if path != [] {
      var rest := path[1..];
      assert Open(rest) by {
        forall n | 0 <= n < |rest| && rest[n].Entry? ensures rest[n].key != "__proto__" && !NamesSecret(rest[n].key) {
          assert rest[n] == path[n + 1];
        }
      }
      match path[0]
      case Item(i) =>
        if value.Arr? && i < |value.items| {
          RedactedAt(value.items[i], None, rest);
          assert KeyOf(path, key) == KeyOf(rest, None);
        }
      case Entry(k) =>
        SecretKeyExactlyWhen(k);
        if value.Obj? && k in value.fields {
          RedactedAt(value.fields[k], Some(k), rest);
          assert KeyOf(path, key) == KeyOf(rest, Some(k));
        }
    }
  }

  /**
   * Place by place, as long as no name on the way is secret or __proto__: a string is left or struck out as said, a list
   * keeps its length, an object its keys but __proto__, anything else is left, and nothing comes to be where nothing was.
   */
  lemma WhatIsLeft(value: Json, key: Option<string>, path: seq<Turn>)
    requires Open(path)
    ensures var before, after := At(value, path), At(Redacted(value, key), path);
            if before.None? then after.None?
            else match before.value
              case Str(text) => after == Some(Str(if StruckOut(text, KeyOf(path, key)) then "[REDACTED]" else text))
              case Arr(items) => after.Some? && after.value.Arr? && |after.value.items| == |items|
              case Obj(fields) => after.Some? && after.value.Obj? && after.value.fields.Keys == fields.Keys - {"__proto__"}
              case _ => after == before
  {
    hide SecretKey, Suspicious, NamesSecret, StruckOut, At;
    RedactedAt(value, key, path);
    var before := At(value, path);
    if before.Some? && before.value.Str? {
      StringIsReplacedExactlyWhen(before.value.text, KeyOf(path, key));
    }
  }

  /** Under a name in which a secret word is written, whatever was there gives way to the mark and nothing below it is left. */
  lemma SecretEntryIsReplaced(value: Json, key: Option<string>, path: seq<Turn>, name: string, below: seq<Turn>)
    requires Open(path) && NamesSecret(name) && name != "__proto__" && At(value, path + [Entry(name)]).Some?
    ensures At(Redacted(value, key), path + [Entry(name)]) == Some(Str("[REDACTED]"))
    ensures below != [] ==> At(Redacted(value, key), path + [Entry(name)] + below).None?
  {
    hide SecretKey, Suspicious, NamesSecret;
    RedactedAt(value, key, path);
    SecretKeyExactlyWhen(name);
    AtAppends(value, path, [Entry(name)]);
    AtAppends(Redacted(value, key), path, [Entry(name)]);
    AtAppends(Redacted(value, key), path + [Entry(name)], below);
    var holder := At(value, path).value;
    assert [Entry(name)][1..] == [];
  }

  lemma {:induction false} AtAppends(value: Json, path: seq<Turn>, more: seq<Turn>)
    ensures At(value, path + more) == if At(value, path).None? then None else At(At(value, path).value, more)
    decreases |path|
  {
    if path == [] {
      assert path + more == more;
    } else {
      assert (path + more)[0] == path[0] && (path + more)[1..] == path[1..] + more;
      match path[0]
      case Item(i) =>
        if value.Arr? && i < |value.items| {
          AtAppends(value.items[i], path[1..], more);
        }
      case Entry(key) =>
        if value.Obj? && key in value.fields {
          AtAppends(value.fields[key], path[1..], more);
        }
    }
  }
}
