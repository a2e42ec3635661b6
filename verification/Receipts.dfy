/**
 How the answer to the one mutating request is classified, and the shape of the provider
 references that may be stored with an operation.
 */
module Receipts {
  import opened Options
  import opened Lifecycle
  import opened Text

  datatype Action = PowerOn | Shutdown | PowerOff | Reboot | SnapshotCreate | SnapshotDelete

  datatype Kind = Server | Snapshot

  predicate SnapshotAction(action: Action) {
    action.SnapshotCreate? || action.SnapshotDelete?
  }

  function TargetKind(action: Action): Kind {
    if action.SnapshotDelete? then Snapshot else Server
  }

  datatype Verdict = Accepted | Rejected | Ambiguous | Other

  /** A submission's answer: the adapter's receipt, or `failed` when it returned an error. */
  datatype Reply = Reply(verdict: Verdict, reference: string, failed: bool)

  const REFERENCE_MAX := 128
  const PARTS_MAX := 3

  predicate Alphanumeric(c: char) {
    'A' <= c <= 'Z' || 'a' <= c <= 'z' || '0' <= c <= '9'
  }

  predicate ReferenceChar(c: char) {
    Alphanumeric(c) || c == '.' || c == '_' || c == ':' || c == '-'
  }

  predicate NativeReference(s: string) {
    1 <= |s| <= REFERENCE_MAX && Alphanumeric(s[0]) && forall i :: 0 <= i < |s| ==> ReferenceChar(s[i])
  }

  predicate SnapshotReference(s: string) {
    |Split(s, '/')| <= PARTS_MAX && forall p | p in Split(s, '/') :: NativeReference(p)
  }

  /** The check constraint on the stored reference column. */
  predicate StorableReference(action: Action, reference: Option<string>) {
    reference.None? ||
    if SnapshotAction(action) then SnapshotReference(reference.value) else NativeReference(reference.value)
  }

  function ClassifyReceipt(r: Reply): (OpState, Option<string>) {
    if r.failed then (Reconciling, None)
    else if r.verdict.Rejected? && r.reference == "" then (Failed, None)
    else if r.verdict.Accepted? && NativeReference(r.reference) then (WaitingProvider, Some(r.reference))
    else (Reconciling, None)
  }

  function ClassifyActionReceipt(action: Action, r: Reply): (OpState, Option<string>) {
    if SnapshotAction(action) && !r.failed && r.verdict.Accepted? && SnapshotReference(r.reference)
    then (WaitingProvider, Some(r.reference))
    else ClassifyReceipt(r)
  }

  /** The only receipt that proves no effect. */
  predicate DefiniteRejection(r: Reply) {
    !r.failed && r.verdict.Rejected? && r.reference == ""
  }

  lemma NativeIsOnePart(s: string)
    requires NativeReference(s)
    ensures SnapshotReference(s)
  {
    var i := IndexOf(s, '/');
    assert i == |s|;
    assert Split(s, '/') == [s];
  }

  /**
   Only a definite rejection is terminal, only an acceptance with a storable reference waits, and
   every other answer is reconciled by observation; the reference kept always fits its column.
   */
  lemma ReceiptSoundness(action: Action, r: Reply)
    ensures var (to, reference) := ClassifyActionReceipt(action, r);
            && (to.Failed? <==> DefiniteRejection(r))
            && (to.WaitingProvider? <==> !r.failed && r.verdict.Accepted? && StorableReference(action, Some(r.reference)))
            && (!to.Failed? && !to.WaitingProvider? ==> to.Reconciling?)
            && (reference.Some? <==> to.WaitingProvider?)
            && StorableReference(action, reference)
            && Allowed(Dispatching, to)
  {
    if NativeReference(r.reference) {
      NativeIsOnePart(r.reference);
    }
  }
}
