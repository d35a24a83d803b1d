/** Redaction of secrets from any tree of values before it is printed or put into an incident package. */
module Redaction {
  import opened Policy
  import opened Text

  datatype Json =
    | Null
    | Bool(truth: bool)
    | Number(amount: real)
    | Str(text: string)
    | Arr(items: seq<Json>)
    | Obj(fields: map<string, Json>)

  const REDACTED := "[REDACTED]"

  const SECRET_WORDS := [
    "apikey", "api_key", "api-key", "secret", "password", "privatekey", "private_key", "private-key",
    "accesstoken", "access_token", "access-token", "refreshtoken", "refresh_token", "refresh-token",
    "clientsecret", "client_secret", "client-secret", "bearer", "authorization", "credential",
    "signingkey", "signing_key", "signing-key", "token"]

  const HINT_WORDS := ["token", "secret", "credential", "password", "key"]

  predicate Mentions(s: string, words: seq<string>) {
    exists w :: w in words && Contains(Lower(s), w)
  }

  predicate SecretKey(key: string) {
    Mentions(key, SECRET_WORDS)
  }

  /** Does the word bearer occur at i, then white space up to j, then something? */
  predicate BearerAt(s: string, i: nat, j: nat) {
    && i + 6 < j < |s| && OccursAt(Lower(s), "bearer", i)
    && (forall k :: i + 6 <= k < j ==> IsSpace(s[k])) && !IsSpace(s[j])
  }

  predicate BearerValue(s: string) {
    exists i, j :: 0 <= i < |s| && 0 <= j < |s| && BearerAt(s, i, j)
  }

  predicate LongOpaque(s: string) {
    |s| >= 24 && forall c :: c in s ==> 'A' <= c <= 'Z' || 'a' <= c <= 'z' || '0' <= c <= '9' || c == '_' || c == '-'
  }

  /** Would a string be replaced, coming under this key if under any? */
  predicate Suspicious(s: string, hint: Option<string>) {
    var hinted := hint.Some? && hint.value != "";
    || (hinted && SecretKey(hint.value))
    || BearerValue(s)
    || (hinted && Mentions(hint.value, HINT_WORDS) && LongOpaque(s))
  }

  function Redacted(value: Json, hint: Option<string>): Json
    decreases value
  {
    match value
    case Str(text) => if Suspicious(text, hint) then Str(REDACTED) else value
    case Arr(items) => Arr(seq(|items|, i requires 0 <= i < |items| => Redacted(items[i], None)))
    case Obj(fields) =>
      Obj(map k | k in fields && k != PROTO :: if SecretKey(k) then Str(REDACTED) else Redacted(fields[k], Some(k)))
    case _ => value
  }

  /** What redaction leaves of the entries under some of the keys. */
  function RedactedUnder(fields: map<string, Json>, keys: set<string>): map<string, Json>
    requires keys <= fields.Keys
  {
    map k | k in keys && k != PROTO :: if SecretKey(k) then Str(REDACTED) else Redacted(fields[k], Some(k))
  }

  lemma EntriesRedacted(fields: map<string, Json>, hint: Option<string>, none: set<string>)
    requires none == {}
    ensures RedactedUnder(fields, none) == map[] && Redacted(Obj(fields), hint) == Obj(RedactedUnder(fields, fields.Keys))
  {
    hide SecretKey;
  }

  lemma OneMoreKey(fields: map<string, Json>, keys: set<string>, key: string)
    requires keys <= fields.Keys && key in fields
    ensures RedactedUnder(fields, keys + {key})
              == if key == PROTO then RedactedUnder(fields, keys)
                 else RedactedUnder(fields, keys)[key := if SecretKey(key) then Str(REDACTED) else Redacted(fields[key], Some(key))]
  {
    hide SecretKey, Redacted;
  }

  method RedactDeep(value: Json, hint: Option<string>) returns (r: Json)
    ensures r == Redacted(value, hint)
    decreases value
  {
    hide SecretKey, BearerValue, LongOpaque, Mentions, RedactedUnder;
    match value
    case Str(text) =>
      if hint.Some? && hint.value != "" && SecretKey(hint.value) { return Str(REDACTED); }
      if BearerValue(text) { return Str(REDACTED); }
      if hint.Some? && hint.value != "" && Mentions(hint.value, HINT_WORDS) && LongOpaque(text) { return Str(REDACTED); }
      r := value;
    case Arr(items) =>
      var mapped: seq<Json> := [];
      for i := 0 to |items|
        invariant |mapped| == i && forall j :: 0 <= j < i ==> mapped[j] == Redacted(items[j], None)
      {
        var entry := RedactDeep(items[i], None);
        mapped := mapped + [entry];
      }
      r := Arr(mapped);
    case Obj(fields) =>
      var out: map<string, Json> := map[];
      var rest := fields.Keys;
      EntriesRedacted(fields, hint, fields.Keys - rest);
      while rest != {}
        invariant rest <= fields.Keys
        invariant out == RedactedUnder(fields, fields.Keys - rest)
        decreases |rest|
      {
        var key :| key in rest;
        var replacement := Str(REDACTED);
        if !SecretKey(key) {
          replacement := RedactDeep(fields[key], Some(key));
        }
        assert fields.Keys - (rest - {key}) == fields.Keys - rest + {key};
        OneMoreKey(fields, fields.Keys - rest, key);
        if key != PROTO { out := out[key := replacement]; }
        rest := rest - {key};
      }
      assert fields.Keys - rest == fields.Keys;
      r := Obj(out);
    case _ => r := value;
  }

  // --- What is left after redaction -------------------------------------------------------------------------

  /** No secret shows: under a secret key only the mark, and no string that should have been replaced. */
  predicate Clean(value: Json, hint: Option<string>)
    decreases value
  {
    match value
    case Str(text) => text == REDACTED || !Suspicious(text, hint)
    case Arr(items) => forall i :: 0 <= i < |items| ==> Clean(items[i], None)
    case Obj(fields) =>
      && PROTO !in fields
      && forall k :: k in fields ==> if SecretKey(k) then fields[k] == Str(REDACTED) else Clean(fields[k], Some(k))
    case _ => true
  }

  /** Redaction leaves a value alone exactly when it is clean. */
  lemma {:induction false} UnchangedExactlyWhenClean(value: Json, hint: Option<string>)
    ensures Redacted(value, hint) == value <==> Clean(value, hint)
    decreases value
  {
    hide Suspicious, SecretKey;
    match value
    case Arr(items) =>
      forall i | 0 <= i < |items| ensures Redacted(items[i], None) == items[i] <==> Clean(items[i], None) {
        UnchangedExactlyWhenClean(items[i], None);
      }
      ItemsUnchanged(items);
    case Obj(fields) =>
      forall k | k in fields ensures Redacted(fields[k], Some(k)) == fields[k] <==> Clean(fields[k], Some(k)) {
        UnchangedExactlyWhenClean(fields[k], Some(k));
      }
      FieldsUnchanged(fields, hint);
    case _ =>
  }

  lemma ItemsUnchanged(items: seq<Json>)
    ensures Redacted(Arr(items), None) == Arr(items) <==> forall i :: 0 <= i < |items| ==> Redacted(items[i], None) == items[i]
  {
    var mapped := seq(|items|, i requires 0 <= i < |items| => Redacted(items[i], None));
    assert Redacted(Arr(items), None) == Arr(mapped);
    if mapped == items {
      forall i | 0 <= i < |items| ensures Redacted(items[i], None) == items[i] {
        assert mapped[i] == items[i];
      }
    }
  }

  function Replacement(fields: map<string, Json>, k: string): Json
    requires k in fields
  {
    if SecretKey(k) then Str(REDACTED) else Redacted(fields[k], Some(k))
  }

  lemma FieldsUnchanged(fields: map<string, Json>, hint: Option<string>)
    ensures Redacted(Obj(fields), hint) == Obj(fields) <==> PROTO !in fields && forall k :: k in fields ==> Replacement(fields, k) == fields[k]
  {
    hide SecretKey;
    var out := map k | k in fields && k != PROTO :: if SecretKey(k) then Str(REDACTED) else Redacted(fields[k], Some(k));
    assert Redacted(Obj(fields), hint) == Obj(out);
    assert forall k :: k in out ==> out[k] == Replacement(fields, k);
    if out == fields {
      assert PROTO !in out;
      forall k | k in fields ensures Replacement(fields, k) == fields[k] {
        assert out[k] == fields[k];
      }
    }
  }

  /** The output is clean, whatever went in. */
  lemma {:induction false} OutputIsClean(value: Json, hint: Option<string>)
    ensures Clean(Redacted(value, hint), hint)
    decreases value
  {
    hide Suspicious, SecretKey;
    match value
    case Arr(items) =>
      forall i | 0 <= i < |items| ensures Clean(Redacted(items[i], None), None) {
        OutputIsClean(items[i], None);
      }
    case Obj(fields) =>
      forall k | k in fields ensures Clean(Redacted(fields[k], Some(k)), Some(k)) {
        OutputIsClean(fields[k], Some(k));
      }
    case _ =>
  }

  /** Redacting twice is redacting once. */
  lemma {:induction false} Idempotent(value: Json, hint: Option<string>)
    ensures Redacted(Redacted(value, hint), hint) == Redacted(value, hint)
  {
    OutputIsClean(value, hint);
    UnchangedExactlyWhenClean(Redacted(value, hint), hint);
  }

  /** What may be replaced was; all else is as it was, key by key and item by item. */
  predicate Keeps(value: Json, r: Json, hint: Option<string>)
    decreases value
  {
    match value
    case Str(text) => r == if Suspicious(text, hint) then Str(REDACTED) else value
    case Arr(items) => r.Arr? && |r.items| == |items| && forall i :: 0 <= i < |items| ==> Keeps(items[i], r.items[i], None)
    case Obj(fields) =>
      && r.Obj? && r.fields.Keys == fields.Keys
      && forall k :: k in fields ==> if SecretKey(k) then r.fields[k] == Str(REDACTED) else Keeps(fields[k], r.fields[k], Some(k))
    case _ => r == value
  }

  /** No object outside a replaced subtree has an entry named __proto__. */
  predicate WithoutProto(value: Json)
    decreases value
  {
    match value
    case Arr(items) => forall i :: 0 <= i < |items| ==> WithoutProto(items[i])
    case Obj(fields) => PROTO !in fields && forall k :: k in fields && !SecretKey(k) ==> WithoutProto(fields[k])
    case _ => true
  }

  /** Every key and every length outside the replaced subtrees is kept exactly when no entry is named __proto__ there. */
  lemma {:induction false} ShapeIsKeptExactlyWithoutProto(value: Json, hint: Option<string>)
    ensures Keeps(value, Redacted(value, hint), hint) <==> WithoutProto(value)
    decreases value
  {
    hide Suspicious, SecretKey;
    match value
    case Arr(items) =>
      var r := Redacted(value, hint).items;
      forall i | 0 <= i < |items| ensures Keeps(items[i], r[i], None) <==> WithoutProto(items[i]) {
        ShapeIsKeptExactlyWithoutProto(items[i], None);
      }
    case Obj(fields) =>
      var r := Redacted(value, hint).fields;
      assert PROTO !in r;
      forall k | k in fields && k != PROTO && !SecretKey(k) ensures Keeps(fields[k], r[k], Some(k)) <==> WithoutProto(fields[k]) {
        ShapeIsKeptExactlyWithoutProto(fields[k], Some(k));
      }
      if PROTO !in fields {
        assert r.Keys == fields.Keys;
      }
    case _ =>
  }

  predicate Hidden(text: string, hint: Option<string>) {
    text == REDACTED || Suspicious(text, hint)
  }

  /** Two values differ in secrets only: under secret keys, in strings to be hidden, and in __proto__ entries. */
  predicate Agree(a: Json, b: Json, hint: Option<string>)
    decreases a
  {
    match a
    case Str(text) => b.Str? && (text == b.text || (Hidden(text, hint) && Hidden(b.text, hint)))
    case Arr(items) => b.Arr? && |items| == |b.items| && forall i :: 0 <= i < |items| ==> Agree(items[i], b.items[i], None)
    case Obj(fields) =>
      && b.Obj? && fields.Keys - {PROTO} == b.fields.Keys - {PROTO}
      && forall k :: k in fields && k in b.fields && k != PROTO && !SecretKey(k) ==> Agree(fields[k], b.fields[k], Some(k))
    case _ => a == b
  }

  /** The output tells nothing about the secrets, and everything else: two inputs look alike exactly when they differ in secrets only. */
  lemma {:induction false} OutputHidesExactlyTheSecrets(a: Json, b: Json, hint: Option<string>)
    ensures Redacted(a, hint) == Redacted(b, hint) <==> Agree(a, b, hint)
    decreases a
  {
    hide Suspicious, SecretKey;
    match a
    case Arr(items) =>
      if b.Arr? && |items| == |b.items| {
        forall i | 0 <= i < |items| ensures Redacted(items[i], None) == Redacted(b.items[i], None) <==> Agree(items[i], b.items[i], None) {
          OutputHidesExactlyTheSecrets(items[i], b.items[i], None);
        }
      }
      if b.Arr? {
        ItemsLookAlike(items, b.items, hint);
      }
    case Obj(fields) =>
      if b.Obj? {
        forall k | k in fields && k in b.fields
          ensures Redacted(fields[k], Some(k)) == Redacted(b.fields[k], Some(k)) <==> Agree(fields[k], b.fields[k], Some(k))
        {
          OutputHidesExactlyTheSecrets(fields[k], b.fields[k], Some(k));
        }
        FieldsLookAlike(fields, b.fields, hint);
      }
    case _ =>
  }

  lemma ItemsLookAlike(items: seq<Json>, others: seq<Json>, hint: Option<string>)
    ensures Redacted(Arr(items), hint) == Redacted(Arr(others), hint) <==>
              |items| == |others| && forall i :: 0 <= i < |items| ==> Redacted(items[i], None) == Redacted(others[i], None)
  {
    var mapped := seq(|items|, i requires 0 <= i < |items| => Redacted(items[i], None));
    var mapped' := seq(|others|, i requires 0 <= i < |others| => Redacted(others[i], None));
    assert Redacted(Arr(items), hint) == Arr(mapped) && Redacted(Arr(others), hint) == Arr(mapped');
    if mapped == mapped' {
      forall i | 0 <= i < |items| ensures Redacted(items[i], None) == Redacted(others[i], None) {
        assert mapped[i] == mapped'[i];
      }
    }
  }

  lemma FieldsLookAlike(fields: map<string, Json>, others: map<string, Json>, hint: Option<string>)
    ensures Redacted(Obj(fields), hint) == Redacted(Obj(others), hint) <==>
              fields.Keys - {PROTO} == others.Keys - {PROTO}
              && forall k :: k in fields && k in others && k != PROTO && !SecretKey(k) ==> Redacted(fields[k], Some(k)) == Redacted(others[k], Some(k))
  {
    hide SecretKey;
    var out, out' := Redacted(Obj(fields), hint).fields, Redacted(Obj(others), hint).fields;
    assert out.Keys == fields.Keys - {PROTO} && out'.Keys == others.Keys - {PROTO};
    if out == out' {
      forall k | k in fields && k in others && k != PROTO && !SecretKey(k) ensures Redacted(fields[k], Some(k)) == Redacted(others[k], Some(k)) {
        assert out[k] == out'[k];
      }
    }
  }

  /** A leaf of a tree: reached through list items and entries. */
  predicate HasLeaf(value: Json, text: string)
    decreases value
  {
    match value
    case Str(s) => s == text
    case Arr(items) => exists i :: 0 <= i < |items| && HasLeaf(items[i], text)
    case Obj(fields) => exists k :: k in fields && HasLeaf(fields[k], text)
    case _ => false
  }

  lemma DoesNotOccur(s: string, word: string, i: nat)
    requires word != "" && (i + |word| <= |s| ==> s[i] != word[0])
    ensures !OccursAt(s, word, i)
  {
    if i + |word| <= |s| {
      assert s[i..i + |word|][0] != word[0];
    }
  }

  lemma MarkIsNoBearer()
    ensures !BearerValue(REDACTED)
  {
    forall i: nat, j: nat ensures !BearerAt(REDACTED, i, j) {
      DoesNotOccur(Lower(REDACTED), "bearer", i);
    }
  }

  lemma {:induction false} CleanHasNoBearer(value: Json, hint: Option<string>, text: string)
    requires Clean(value, hint) && HasLeaf(value, text)
    ensures !BearerValue(text)
    decreases value
  {
    hide BearerValue, SecretKey;
    match value
    case Str(s) => MarkIsNoBearer();
    case Arr(items) =>
      var i :| 0 <= i < |items| && HasLeaf(items[i], text);
      CleanHasNoBearer(items[i], None, text);
    case Obj(fields) =>
      var k :| k in fields && HasLeaf(fields[k], text);
      if SecretKey(k) {
        MarkIsNoBearer();
      } else {
        CleanHasNoBearer(fields[k], Some(k), text);
      }
  }

  /** No string anywhere in the output carries a bearer credential. */
  lemma NoBearerInOutput(value: Json, hint: Option<string>, text: string)
    requires HasLeaf(Redacted(value, hint), text)
    ensures !BearerValue(text)
  {
    OutputIsClean(value, hint);
    CleanHasNoBearer(Redacted(value, hint), hint, text);
  }

  /** A list forgets the key it came under: its strings are judged as if they had none. */
  lemma {:induction false} ListForgetsItsKey(items: seq<string>, hint: Option<string>)
    requires forall i :: 0 <= i < |items| ==> !BearerValue(items[i])
    ensures var list := Arr(seq(|items|, i requires 0 <= i < |items| => Str(items[i]))); Redacted(list, hint) == list
  {
    hide BearerValue;
    var list := Arr(seq(|items|, i requires 0 <= i < |items| => Str(items[i])));
    assert Clean(list, hint);
    UnchangedExactlyWhenClean(list, hint);
  }
}
