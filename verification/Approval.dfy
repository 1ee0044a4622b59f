/** The binding of an approval to what was approved (execute-action.ts,
    executeApprovedAction). The escalated decision fixes tool, operation,
    target and dependencies; the arguments compared are those of the intent
    FIRST recorded under the action id. */
module Approval {
  import opened Wrappers
  import opened Text
  import opened Json
  import opened Domain
  import opened Redaction
  import opened Store

  function RefsOf(intent: Intent): seq<Ref> {
    seq(|intent.dependencies|, i requires 0 <= i < |intent.dependencies| => intent.dependencies[i].ref)
  }

  function KeysOf(refs: seq<Ref>): seq<Text> {
    seq(|refs|, i requires 0 <= i < |refs| => RefKey(refs[i]))
  }

  /** The decision record a submission of `intent` leaves. */
  function RecordOf(id: Id, actionId: Id, outcome: Outcome, intent: Intent): DecisionRecord {
    DecisionRecord(id, actionId, outcome, intent.tool, intent.operation, intent.target, RefsOf(intent))
  }

  /** What the store keeps of a submitted intent. */
  function RecordedIntent(sensitive: Sensitive, intent: Intent): Intent {
    intent.(arguments := Redacted(sensitive, intent.arguments, 0))
  }

  predicate SameArguments(sensitive: Sensitive, recorded: Option<Intent>, submitted: Intent) {
    var arguments := if recorded.Some? then recorded.value.arguments else Obj(map[]);
    CanonicalJson(Redacted(sensitive, arguments, 0)) == CanonicalJson(Redacted(sensitive, submitted.arguments, 0))
  }

  predicate Binds(sensitive: Sensitive, decision: DecisionRecord, recorded: Option<Intent>, submitted: Intent) {
    && decision.tool == submitted.tool
    && decision.operation == submitted.operation
    && decision.target == submitted.target
    && Sort(KeysOf(decision.refs)) == Sort(KeysOf(RefsOf(submitted)))
    && SameArguments(sensitive, recorded, submitted)
  }

  /** What is stored of an intent is the intent but for its arguments, which show
      nothing under a sensitive key. */
  lemma StoredIntent(sensitive: Sensitive, intent: Intent)
    ensures var stored := RecordedIntent(sensitive, intent);
      Covered(sensitive, stored.arguments) && stored == intent.(arguments := stored.arguments)
  {
    RedactionCovers(sensitive, intent.arguments, 0);
  }

  /** Two submissions that name the same effect on the same dependencies. */
  ghost predicate SameTarget(a: Intent, b: Intent) {
    && a.tool == b.tool && a.operation == b.operation && a.target == b.target
    && multiset(KeysOf(RefsOf(a))) == multiset(KeysOf(RefsOf(b)))
  }

  /** A submission is bound exactly when it names what was escalated and its
      arguments are alike to those first recorded. */
  lemma BindsExactly(sensitive: Sensitive, d: DecisionRecord, first: Intent, escalated: Intent, submitted: Intent)
    requires d == RecordOf(d.id, d.actionId, d.outcome, escalated)
    ensures Binds(sensitive, d, Some(RecordedIntent(sensitive, first)), submitted) <==>
      SameTarget(escalated, submitted) && Alike(sensitive, first.arguments, submitted.arguments, 0)
  {
    SortComparesMultisets(KeysOf(RefsOf(escalated)), KeysOf(RefsOf(submitted)));
    RedactionIsIdempotent(sensitive, first.arguments, 0);
    RedactedFormsAgree(sensitive, first.arguments, submitted.arguments);
  }

  /** Where no intent is recorded the arguments compared are those of an empty object. */
  lemma BindsUnrecordedExactly(sensitive: Sensitive, d: DecisionRecord, escalated: Intent, submitted: Intent)
    requires d == RecordOf(d.id, d.actionId, d.outcome, escalated)
    ensures Binds(sensitive, d, None, submitted) <==>
      SameTarget(escalated, submitted) && Alike(sensitive, Obj(map[]), submitted.arguments, 0)
  {
    SortComparesMultisets(KeysOf(RefsOf(escalated)), KeysOf(RefsOf(submitted)));
    RedactedFormsAgree(sensitive, Obj(map[]), submitted.arguments);
  }

  lemma AlikeToItself(sensitive: Sensitive, v: Value)
    ensures Alike(sensitive, v, v, 0)
  {
    RedactedFormsAgree(sensitive, v, v);
  }

  /** Resubmitting the first recorded intent passes exactly when that is also
      what was escalated. */
  lemma FirstIntentPassesExactly(sensitive: Sensitive, d: DecisionRecord, first: Intent, escalated: Intent)
    requires d == RecordOf(d.id, d.actionId, d.outcome, escalated)
    ensures Binds(sensitive, d, Some(RecordedIntent(sensitive, first)), first) <==> SameTarget(escalated, first)
  {
    BindsExactly(sensitive, d, first, escalated, first);
    AlikeToItself(sensitive, first.arguments);
  }

  /** Resubmitting exactly what was escalated passes exactly when its arguments
      are alike to those first recorded; what always passes is the escalated
      action under the first arguments. */
  lemma EscalatedIntentPassesExactly(sensitive: Sensitive, d: DecisionRecord, first: Intent, escalated: Intent)
    requires d == RecordOf(d.id, d.actionId, d.outcome, escalated)
    ensures Binds(sensitive, d, Some(RecordedIntent(sensitive, first)), escalated) <==>
      Alike(sensitive, first.arguments, escalated.arguments, 0)
    ensures Binds(sensitive, d, Some(RecordedIntent(sensitive, first)), escalated.(arguments := first.arguments))
  {
    BindsExactly(sensitive, d, first, escalated, escalated);
    var mixed := escalated.(arguments := first.arguments);
    assert RefsOf(mixed) == RefsOf(escalated);
    BindsExactly(sensitive, d, first, escalated, mixed);
    AlikeToItself(sensitive, first.arguments);
  }

  /** So the first intent, resubmitted unchanged under an approval, can be
      refused: the approval was given to a later submission under its id. */
  lemma FirstIntentCanBeRefused(sensitive: Sensitive) returns (first: Intent, escalated: Intent, d: DecisionRecord)
    ensures d == RecordOf(d.id, d.actionId, d.outcome, escalated)
    ensures !Binds(sensitive, d, Some(RecordedIntent(sensitive, first)), first)
  {
    first := Intent([1], [1], None, Obj(map[]), [], [], None, None);
    escalated := first.(operation := [2]);
    d := RecordOf(0, 0, Escalate, escalated);
  }
}
