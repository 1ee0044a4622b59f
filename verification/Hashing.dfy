/** Content hashes and state fingerprints (hashing.ts, validate-action.ts)
    over an arbitrary hash function. No hash into 64 hexadecimal digits is
    injective, so nothing here assumes it: a statement that needs two hashes
    to differ says that otherwise its own two inputs are a collision. */
module Hashing {
  import opened Wrappers
  import opened Text
  import opened Json

  type Hash = Text -> Text

  /** "sha256:" */
  const SHA256_TEXT: Text := [115, 104, 97, 50, 53, 54, 58]

  predicate Collision(h: Hash, x: Text, y: Text) {
    x != y && h(x) == h(y)
  }

  function ContentHash(h: Hash, v: Value): Text {
    SHA256_TEXT + h(CanonicalJson(v))
  }

  /** Equal content hashes mean equal contents, or a collision in hand. */
  lemma ContentHashSeparates(h: Hash, a: Value, b: Value)
    ensures Denote(a) == Denote(b) ==> ContentHash(h, a) == ContentHash(h, b)
    ensures ContentHash(h, a) == ContentHash(h, b) ==>
      Denote(a) == Denote(b) || Collision(h, CanonicalJson(a), CanonicalJson(b))
  {
    CanonicalJsonInjective(a, b);
    if ContentHash(h, a) == ContentHash(h, b) {
      assert ContentHash(h, a)[7..] == h(CanonicalJson(a));
      assert ContentHash(h, b)[7..] == h(CanonicalJson(b));
    }
  }

  // ---- State fingerprint -------------------------------------------------

  /** The state identity of one fetched dependency. */
  datatype StateEntry = StateEntry(ref: Text, version: Option<Text>, contentHash: Option<Text>)

  /** "ref", "version", "content_hash" */
  const REF_KEY: Text := [114, 101, 102]
  const VERSION_KEY: Text := [118, 101, 114, 115, 105, 111, 110]
  const CONTENT_HASH_KEY: Text := [99, 111, 110, 116, 101, 110, 116, 95, 104, 97, 115, 104]

  function Nullable(t: Option<Text>): Value {
    if t.Some? then Str(t.value) else Null
  }

  function EntryValue(e: StateEntry): Value {
    Obj(map[REF_KEY := Str(e.ref), VERSION_KEY := Nullable(e.version), CONTENT_HASH_KEY := Nullable(e.contentHash)])
  }

  function EntriesValue(es: seq<StateEntry>): Value {
    Arr(seq(|es|, i requires 0 <= i < |es| => EntryValue(es[i])))
  }

  function Fingerprint(h: Hash, es: seq<StateEntry>): Text {
    ContentHash(h, EntriesValue(es))
  }

  /** The fingerprint is the content hash of the list of entries, each with its
      reference, version and hash, the latter two null where there is none. */
  lemma FingerprintTells(h: Hash, es: seq<StateEntry>)
    ensures Fingerprint(h, es) == Units("sha256:") + h(CanonicalJson(EntriesValue(es)))
    ensures EntriesValue(es).Arr? && |EntriesValue(es).items| == |es|
    ensures forall i :: 0 <= i < |es| ==>
      EntriesValue(es).items[i] == Obj(map[
        Units("ref") := Str(es[i].ref),
        Units("version") := if es[i].version.Some? then Str(es[i].version.value) else Null,
        Units("content_hash") := if es[i].contentHash.Some? then Str(es[i].contentHash.value) else Null])
  {
    assert Units("sha256:") == SHA256_TEXT && Units("ref") == REF_KEY && Units("version") == VERSION_KEY;
    assert Units("content_hash") == CONTENT_HASH_KEY;
  }

  lemma EntryValueInjective(a: StateEntry, b: StateEntry)
    requires EntryValue(a) == EntryValue(b)
    ensures a == b
  {
    var m, n := EntryValue(a).members, EntryValue(b).members;
    assert m[REF_KEY] == n[REF_KEY];
    assert m[VERSION_KEY] == n[VERSION_KEY];
    assert m[CONTENT_HASH_KEY] == n[CONTENT_HASH_KEY];
  }

  lemma EntriesValueInjective(a: seq<StateEntry>, b: seq<StateEntry>)
    requires EntriesValue(a) == EntriesValue(b)
    ensures a == b
  {
    assert |EntriesValue(a).items| == |EntriesValue(b).items|;
    forall i | 0 <= i < |a| ensures a[i] == b[i] {
      assert EntriesValue(a).items[i] == EntriesValue(b).items[i];
      EntryValueInjective(a[i], b[i]);
    }
  }

  /** Equal fingerprints mean the same entries in the same order. */
  lemma FingerprintSeparates(h: Hash, a: seq<StateEntry>, b: seq<StateEntry>)
    ensures a == b ==> Fingerprint(h, a) == Fingerprint(h, b)
    ensures Fingerprint(h, a) == Fingerprint(h, b) ==>
      a == b || Collision(h, CanonicalJson(EntriesValue(a)), CanonicalJson(EntriesValue(b)))
  {
    ContentHashSeparates(h, EntriesValue(a), EntriesValue(b));
    if Denote(EntriesValue(a)) == Denote(EntriesValue(b)) {
      DenoteInjectiveOnPlain(EntriesValue(a), EntriesValue(b));
      EntriesValueInjective(a, b);
    }
  }
}
