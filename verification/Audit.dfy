/** The hash-chained audit ledger (audit-engine.ts, memory-store.ts). */
module Audit {
  import opened Text
  import opened Json
  import opened Hashing

  const BAR: Unit := 124

  /** The previous hash of the first record: sixty-four zeros. */
  const GENESIS: Text := seq(64, _ => 48)

  datatype AuditBody = AuditBody(
    eventId: Text, eventType: Text, occurredAt: Text, payload: Value, schemaVersion: Text)

  datatype AuditRecord = AuditRecord(number: nat, body: AuditBody, prevHash: Text, recordHash: Text)

  /** "event_id", "event_type", "occurred_at", "payload", "audit_schema_version" */
  const EVENT_ID_KEY: Text := [101, 118, 101, 110, 116, 95, 105, 100]
  const EVENT_TYPE_KEY: Text := [101, 118, 101, 110, 116, 95, 116, 121, 112, 101]
  const OCCURRED_AT_KEY: Text := [111, 99, 99, 117, 114, 114, 101, 100, 95, 97, 116]
  const PAYLOAD_KEY: Text := [112, 97, 121, 108, 111, 97, 100]
  const SCHEMA_VERSION_KEY: Text :=
    [97, 117, 100, 105, 116, 95, 115, 99, 104, 101, 109, 97, 95, 118, 101, 114, 115, 105, 111, 110]

  function BodyValue(b: AuditBody): Value {
    Obj(map[
      EVENT_ID_KEY := Str(b.eventId),
      EVENT_TYPE_KEY := Str(b.eventType),
      OCCURRED_AT_KEY := Str(b.occurredAt),
      PAYLOAD_KEY := b.payload,
      SCHEMA_VERSION_KEY := Str(b.schemaVersion)])
  }

  /** What is hashed for a record. */
  function ChainInput(prevHash: Text, b: AuditBody): Text {
    prevHash + [BAR] + CanonicalJson(BodyValue(b))
  }

  /** The record `append` adds to a ledger. */
  function NextRecord(h: Hash, ledger: seq<AuditRecord>, body: AuditBody): AuditRecord {
    var prev := if ledger == [] then GENESIS else ledger[|ledger| - 1].recordHash;
    AuditRecord(|ledger| + 1, body, prev, h(ChainInput(prev, body)))
  }

  /** A record is numbered after the ledger, refers to its last record, or to
      sixty-four zeros, and hashes that reference, a bar and the five named members of
      its body. */
  lemma NextRecordTells(h: Hash, ledger: seq<AuditRecord>, b: AuditBody)
    ensures var record := NextRecord(h, ledger, b);
      && record.number == |ledger| + 1 && record.body == b
      && (ledger != [] ==> record.prevHash == ledger[|ledger| - 1].recordHash)
      && (ledger == [] ==> |record.prevHash| == 64 && forall i :: 0 <= i < 64 ==> record.prevHash[i] == ZERO)
      && record.recordHash == h(record.prevHash + Units("|") + CanonicalJson(Obj(map[
        Units("event_id") := Str(b.eventId), Units("event_type") := Str(b.eventType),
        Units("occurred_at") := Str(b.occurredAt), Units("payload") := b.payload,
        Units("audit_schema_version") := Str(b.schemaVersion)])))
  {
    hide CanonicalJson;
    assert Units("event_id") == EVENT_ID_KEY && Units("event_type") == EVENT_TYPE_KEY;
    assert Units("occurred_at") == OCCURRED_AT_KEY && Units("payload") == PAYLOAD_KEY;
    assert Units("audit_schema_version") == SCHEMA_VERSION_KEY && Units("|") == [BAR];
  }

  /** Ledgers that a sequence of appends produces. */
  ghost predicate Produced(h: Hash, ledger: seq<AuditRecord>) {
    ledger == [] ||
    (Produced(h, ledger[..|ledger| - 1]) &&
     ledger[|ledger| - 1] == NextRecord(h, ledger[..|ledger| - 1], ledger[|ledger| - 1].body))
  }

  /** Record `i` links to its predecessor and commits to its own body. */
  predicate LinkHolds(h: Hash, ledger: seq<AuditRecord>, i: nat)
    requires i < |ledger|
  {
    ledger[i].prevHash == (if i == 0 then GENESIS else ledger[i - 1].recordHash) &&
    ledger[i].recordHash == h(ChainInput(ledger[i].prevHash, ledger[i].body))
  }

  ghost predicate Verified(h: Hash, ledger: seq<AuditRecord>) {
    forall i :: 0 <= i < |ledger| ==> LinkHolds(h, ledger, i)
  }

  ghost predicate FirstBroken(h: Hash, ledger: seq<AuditRecord>, i: nat)
    requires i < |ledger|
  {
    !LinkHolds(h, ledger, i) && Verified(h, ledger[..i])
  }

  datatype Verification = Intact(checked: nat) | Broken(checkedBefore: int, brokenAt: nat)

  predicate BreakReported(v: Verification, number: nat) {
    v == Broken(number - 1, number)
  }

  /** The chain walk of the audit engine: it stops at the first bad record. */
  method Verify(h: Hash, ledger: seq<AuditRecord>) returns (v: Verification)
    ensures v.Intact? <==> Verified(h, ledger)
    ensures v.Intact? ==> v.checked == |ledger|
    ensures v.Broken? ==>
      exists i :: 0 <= i < |ledger| && FirstBroken(h, ledger, i) && BreakReported(v, ledger[i].number)
  {
    hide BodyValue, CanonicalJson;
    var expectedPrev := GENESIS;
    for i := 0 to |ledger|
      invariant Verified(h, ledger[..i])
      invariant forall k :: 0 <= k < i ==> LinkHolds(h, ledger, k)
      invariant expectedPrev == if i == 0 then GENESIS else ledger[i - 1].recordHash
    {
      var record := ledger[i];
      if record.prevHash != expectedPrev || h(ChainInput(record.prevHash, record.body)) != record.recordHash {
        assert FirstBroken(h, ledger, i) && BreakReported(Broken(record.number - 1, record.number), ledger[i].number);
        return Broken(record.number - 1, record.number);
      }
      assert LinkHolds(h, ledger, i);
      VerifiedPrefix(h, ledger, i + 1);
      expectedPrev := record.recordHash;
    }
    assert ledger[..|ledger|] == ledger;
    return Intact(|ledger|);
  }

  /** Links are local, so a good stretch is a verified ledger of its own. */
  lemma VerifiedPrefix(h: Hash, ledger: seq<AuditRecord>, n: nat)
    requires n <= |ledger| && forall k :: 0 <= k < n ==> LinkHolds(h, ledger, k)
    ensures Verified(h, ledger[..n])
  {
    forall k | 0 <= k < n ensures LinkHolds(h, ledger[..n], k) {
      assert LinkHolds(h, ledger, k);
    }
  }

  /** Appending alone yields a ledger that verifies, numbered from one. */
  lemma {:induction false} ProducedVerifies(h: Hash, ledger: seq<AuditRecord>)
    requires Produced(h, ledger)
    ensures Verified(h, ledger)
    ensures forall i :: 0 <= i < |ledger| ==> ledger[i].number == i + 1
  {
    if ledger != [] {
      var n := |ledger| - 1;
      var before := ledger[..n];
      ProducedVerifies(h, before);
      forall i | 0 <= i < |ledger| ensures LinkHolds(h, ledger, i) && ledger[i].number == i + 1 {
        if i < n {
          assert LinkHolds(h, before, i) && before[i] == ledger[i];
        }
      }
    }
  }

  // ---- What the last hash commits to --------------------------------------

  /** The texts hashed along a ledger. */
  function Inputs(ledger: seq<AuditRecord>): set<Text> {
    set i | 0 <= i < |ledger| :: ChainInput(ledger[i].prevHash, ledger[i].body)
  }

  /** Two of the given texts collide, or one of them hashes to the genesis value. */
  ghost predicate HashBroken(h: Hash, texts: set<Text>) {
    (exists x, y :: x in texts && y in texts && Collision(h, x, y)) || exists x :: x in texts && h(x) == GENESIS
  }

  /** The same event: equal fields, and payloads that say the same. */
  predicate SameBody(a: AuditBody, b: AuditBody) {
    && a.eventId == b.eventId && a.eventType == b.eventType && a.occurredAt == b.occurredAt
    && a.schemaVersion == b.schemaVersion
    && (a.payload == Undefined <==> b.payload == Undefined) && Denote(a.payload) == Denote(b.payload)
  }

  ghost predicate SameBodies(a: seq<AuditRecord>, b: seq<AuditRecord>) {
    |a| == |b| && forall i :: 0 <= i < |a| ==> SameBody(a[i].body, b[i].body)
  }

  lemma ChainInputSplits(p: Text, a: AuditBody, q: Text, b: AuditBody)
    requires |p| == |q| && ChainInput(p, a) == ChainInput(q, b)
    ensures p == q && SameBody(a, b)
  {
    var x, y := ChainInput(p, a), ChainInput(q, b);
    assert x[..|p|] == p && y[..|q|] == q;
    assert x[|p| + 1..] == CanonicalJson(BodyValue(a)) && y[|q| + 1..] == CanonicalJson(BodyValue(b));
    CanonicalJsonInjective(BodyValue(a), BodyValue(b));
    hide Denote, BodyValue, CanonicalJson;
    BodyFields(a, b);
  }

  lemma BodyMembers(b: AuditBody)
    ensures var m := BodyValue(b).members;
      && EVENT_ID_KEY in m && m[EVENT_ID_KEY] == Str(b.eventId)
      && EVENT_TYPE_KEY in m && m[EVENT_TYPE_KEY] == Str(b.eventType)
      && OCCURRED_AT_KEY in m && m[OCCURRED_AT_KEY] == Str(b.occurredAt)
      && PAYLOAD_KEY in m && m[PAYLOAD_KEY] == b.payload
      && SCHEMA_VERSION_KEY in m && m[SCHEMA_VERSION_KEY] == Str(b.schemaVersion)
  {
    assert |EVENT_ID_KEY| == 8 && |EVENT_TYPE_KEY| == 10 && |OCCURRED_AT_KEY| == 11;
    assert |PAYLOAD_KEY| == 7 && |SCHEMA_VERSION_KEY| == 20;
  }

  lemma MemberDenotation(m: map<Text, Value>, n: map<Text, Value>, k: Text)
    requires Denote(Obj(m)) == Denote(Obj(n))
    requires k in m && k in n && m[k] != Undefined && n[k] != Undefined
    ensures Denote(m[k]) == Denote(n[k])
  {
    assert Denote(Obj(m)).members[k] == Denote(Obj(n)).members[k];
  }

  lemma MembersDenoted(m: map<Text, Value>, n: map<Text, Value>, k: Text)
    requires Denote(Obj(m)) == Denote(Obj(n)) && k in m && k in n
    ensures m[k] == Undefined <==> n[k] == Undefined
  {
    var d, e := Denote(Obj(m)).members, Denote(Obj(n)).members;
    assert k in d <==> m[k] != Undefined;
    assert k in e <==> n[k] != Undefined;
  }

  /** A body is recovered from what it denotes, its payload up to denotation. */
  lemma BodyFields(a: AuditBody, b: AuditBody)
    requires Denote(BodyValue(a)) == Denote(BodyValue(b))
    ensures SameBody(a, b)
  {
    BodyMembers(a);
    BodyMembers(b);
    var m, n := BodyValue(a).members, BodyValue(b).members;
    MemberDenotation(m, n, EVENT_ID_KEY);
    MemberDenotation(m, n, EVENT_TYPE_KEY);
    MemberDenotation(m, n, OCCURRED_AT_KEY);
    MemberDenotation(m, n, SCHEMA_VERSION_KEY);
    MembersDenoted(m, n, PAYLOAD_KEY);
    if a.payload != Undefined {
      MemberDenotation(m, n, PAYLOAD_KEY);
    }
  }

  lemma InputOf(ledger: seq<AuditRecord>, i: nat)
    requires i < |ledger|
    ensures ChainInput(ledger[i].prevHash, ledger[i].body) in Inputs(ledger)
    ensures Inputs(ledger[..i]) <= Inputs(ledger)
  {
    forall x | x in Inputs(ledger[..i]) ensures x in Inputs(ledger) {
      var k :| 0 <= k < i && x == ChainInput(ledger[..i][k].prevHash, ledger[..i][k].body);
      assert ledger[..i][k] == ledger[k];
    }
  }

  lemma HashBrokenGrows(h: Hash, s: set<Text>, t: set<Text>)
    requires HashBroken(h, s) && s <= t
    ensures HashBroken(h, t)
  {
  }

  /** Every link hash in a verified ledger is the hash of one of its inputs. */
  lemma RecordHashOfInput(h: Hash, ledger: seq<AuditRecord>, i: nat)
    requires Verified(h, ledger) && i < |ledger|
    ensures exists x :: x in Inputs(ledger) && ledger[i].recordHash == h(x)
    ensures (forall x: Text :: |h(x)| == 64) ==> |ledger[i].prevHash| == 64
    ensures i == 0 ==> ledger[i].prevHash == GENESIS
    ensures i > 0 ==> ledger[i].prevHash == ledger[i - 1].recordHash
  {
    assert LinkHolds(h, ledger, i);
    InputOf(ledger, i);
    if i > 0 { assert LinkHolds(h, ledger, i - 1); }
  }

  /** Equal last hashes: equal last bodies and equal predecessors. */
  lemma LastLinkCommits(h: Hash, a: seq<AuditRecord>, b: seq<AuditRecord>)
    requires forall x: Text :: |h(x)| == 64
    requires Verified(h, a) && Verified(h, b) && a != [] && b != []
    requires a[|a| - 1].recordHash == b[|b| - 1].recordHash
    ensures HashBroken(h, Inputs(a) + Inputs(b)) ||
      (a[|a| - 1].prevHash == b[|b| - 1].prevHash && SameBody(a[|a| - 1].body, b[|b| - 1].body))
  {
    var m, n := |a| - 1, |b| - 1;
    var x, y := ChainInput(a[m].prevHash, a[m].body), ChainInput(b[n].prevHash, b[n].body);
    assert LinkHolds(h, a, m) && LinkHolds(h, b, n);
    InputOf(a, m);
    InputOf(b, n);
    RecordHashOfInput(h, a, m);
    RecordHashOfInput(h, b, n);
    if x != y {
      assert Collision(h, x, y);
    } else {
      ChainInputSplits(a[m].prevHash, a[m].body, b[n].prevHash, b[n].body);
    }
  }

  lemma SameBodiesExtend(a: seq<AuditRecord>, b: seq<AuditRecord>)
    requires a != [] && b != [] && SameBodies(a[..|a| - 1], b[..|b| - 1])
    requires SameBody(a[|a| - 1].body, b[|b| - 1].body)
    ensures SameBodies(a, b)
  {
    hide SameBody;
    var m := |a| - 1;
    forall i | 0 <= i < |a| ensures SameBody(a[i].body, b[i].body) {
      if i < m { assert a[..m][i] == a[i] && b[..m][i] == b[i]; }
    }
  }

  /** The last record hash commits to the whole history: two verified ledgers
      that end in the same hash record the same bodies in the same order, or
      the texts hashed along them break the hash. */
  lemma {:induction false} LastHashCommits(h: Hash, a: seq<AuditRecord>, b: seq<AuditRecord>)
    requires forall x: Text :: |h(x)| == 64
    requires Verified(h, a) && Verified(h, b) && a != [] && b != []
    requires a[|a| - 1].recordHash == b[|b| - 1].recordHash
    ensures SameBodies(a, b) || HashBroken(h, Inputs(a) + Inputs(b))
    decreases |a|
  {
    hide SameBody, BodyValue, CanonicalJson;
    var m, n := |a| - 1, |b| - 1;
    LastLinkCommits(h, a, b);
    if HashBroken(h, Inputs(a) + Inputs(b)) { return; }
    RecordHashOfInput(h, a, m);
    RecordHashOfInput(h, b, n);
    if m > 0 { RecordHashOfInput(h, a, m - 1); }
    if n > 0 { RecordHashOfInput(h, b, n - 1); }
    if m > 0 && n > 0 {
      VerifiedPrefix(h, a, m);
      VerifiedPrefix(h, b, n);
      InputOf(a, m);
      InputOf(b, n);
      LastHashCommits(h, a[..m], b[..n]);
      if HashBroken(h, Inputs(a[..m]) + Inputs(b[..n])) {
        HashBrokenGrows(h, Inputs(a[..m]) + Inputs(b[..n]), Inputs(a) + Inputs(b));
      }
    }
    SameBodiesExtend(a, b);
  }

  /** Altering a body, or dropping, adding or reordering records of a verified
      ledger while keeping its last hash is caught by `Verify`, or breaks the hash. */
  lemma TamperingDetected(h: Hash, original: seq<AuditRecord>, altered: seq<AuditRecord>)
    requires forall x: Text :: |h(x)| == 64
    requires Verified(h, original) && original != [] && altered != []
    requires original[|original| - 1].recordHash == altered[|altered| - 1].recordHash
    requires !SameBodies(original, altered)
    requires !HashBroken(h, Inputs(original) + Inputs(altered))
    ensures !Verified(h, altered)
  {
    if Verified(h, altered) { LastHashCommits(h, original, altered); }
  }

  /** The ledger under other numbers. */
  function Renumbered(ledger: seq<AuditRecord>, numbers: seq<nat>): seq<AuditRecord>
    requires |numbers| == |ledger|
  {
    seq(|ledger|, i requires 0 <= i < |ledger| => ledger[i].(number := numbers[i]))
  }

  /** The numbers are not hashed, and verification is blind to them. */
  lemma VerificationIgnoresNumbers(h: Hash, ledger: seq<AuditRecord>, numbers: seq<nat>)
    requires |numbers| == |ledger|
    ensures Verified(h, Renumbered(ledger, numbers)) <==> Verified(h, ledger)
    ensures SameBodies(Renumbered(ledger, numbers), ledger)
  {
    hide ChainInput, Denote;
    var renumbered := Renumbered(ledger, numbers);
    forall i | 0 <= i < |ledger| ensures LinkHolds(h, renumbered, i) <==> LinkHolds(h, ledger, i) {
    }
  }
}
