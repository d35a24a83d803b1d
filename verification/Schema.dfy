/** The shapes the shared schemas demand of identifiers, labels, hosts and amounts. */
module Schema {
  import opened Text

  const ID_MAX := 128
  const LABEL_MAX := 512
  const HOST_MAX := 253
  const RELEASE_MAX := 64

  // A million dollars, in micro-dollars.
  const MONEY_MAX := 1_000_000_000000

  // The largest integer the schemas take for one: beyond it a double no longer tells neighbours apart.
  const SAFE_MAX := 0x1F_FFFF_FFFF_FFFF

  const RUNTIME_MAX := 86400

  predicate IsLower(c: char) {
    'a' <= c <= 'z' || '0' <= c <= '9'
  }

  predicate IsAlphanumeric(c: char) {
    IsLower(c) || 'A' <= c <= 'Z'
  }

  /** A letter or digit, then at most 127 of letters, digits, dots, underscores and hyphens. */
  predicate IsId(s: string) {
    && 1 <= |s| <= ID_MAX && IsAlphanumeric(s[0])
    && forall c :: c in s ==> IsAlphanumeric(c) || c == '.' || c == '_' || c == '-'
  }

  predicate IsLabel(s: string) {
    1 <= Utf16Length(s) <= LABEL_MAX
  }

  predicate IsHostPart(part: string) {
    && part != "" && part[0] != '-' && part[|part| - 1] != '-'
    && forall c :: c in part ==> IsLower(c) || c == '-'
  }

  predicate IsHost(s: string) {
    |s| <= HOST_MAX && forall part :: part in Split(s, '.') ==> IsHostPart(part)
  }

  predicate IsReleasePart(part: string) {
    part != "" && forall c :: c in part ==> IsLower(c)
  }

  predicate IsVersion(s: string) {
    forall part :: part in Split(s, '.') ==> IsReleasePart(part)
  }

  /** What the one tool with an input of its own may be asked to deploy. */
  predicate IsRelease(s: string) {
    && |s| <= RELEASE_MAX
    && (|| ("release-" <= s && IsVersion(s[8..]))
        || ("prod.deploy." <= s && IsReleasePart(s[12..])))
  }

  /** Every identifier is a label, also after a short prefix. */
  lemma IdsAreLabels(prefix: string, id: string)
    requires IsId(id) && |prefix| <= ID_MAX
    ensures IsLabel(prefix + id)
  {
  }

  /** An identifier cut off at a dot, or anywhere else, is one. */
  lemma IdPrefix(s: string, suffix: string)
    requires IsId(s + suffix) && s != ""
    ensures IsId(s)
  {
    assert (s + suffix)[0] == s[0];
    forall c | c in s ensures c in s + suffix {
    }
  }
}
