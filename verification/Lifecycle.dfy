/**
 The lifecycle of one operation: its states, the transition relation, and the numbered
 event history that every transition appends to.
 */
module Lifecycle {
  import opened Options

  datatype OpState =
    | Queued
    | Dispatching
    | WaitingProvider
    | Reconciling
    | Unknown
    | Succeeded
    | Failed
    | Cancelled

  /** The transition relation of the source, case by case. */
  predicate Allowed(from: OpState, to: OpState) {
    match from
    case Queued => to.Dispatching? || to.Cancelled? || to.Failed?
    case Dispatching => to.WaitingProvider? || to.Reconciling? || to.Succeeded? || to.Failed?
    case WaitingProvider => to.WaitingProvider? || to.Reconciling? || to.Succeeded? || to.Failed?
    case Reconciling => to.WaitingProvider? || to.Reconciling? || to.Succeeded? || to.Failed? || to.Unknown?
    case Unknown => to.Reconciling?
    case _ => false
  }

  predicate Terminal(s: OpState) {
    s.Succeeded? || s.Failed? || s.Cancelled?
  }

  /** Submitted, and still owed an observation. */
  predicate InFlight(s: OpState) {
    s.Dispatching? || s.WaitingProvider? || s.Reconciling?
  }

  /** Work remains for the operation's job. */
  predicate Unsettled(s: OpState) {
    s.Queued? || InFlight(s)
  }

  /** One row of the event table; the first event has no source state. */
  datatype Event = Event(sequence: nat, from: Option<OpState>, to: OpState)

  /** A gap-free, chained history whose last target is `state`. */
  ghost predicate Chain(events: seq<Event>, state: OpState) {
    && |events| >= 1
    && events[0] == Event(1, None, Queued)
    && events[|events| - 1].to == state
    && (forall i :: 0 <= i < |events| ==> events[i].sequence == i + 1)
    && (forall i :: 1 <= i < |events| ==> LinkAt(events, i))
  }

  ghost predicate LinkAt(events: seq<Event>, i: int)
    requires 1 <= i < |events|
  {
    && events[i].from == Some(events[i - 1].to)
    && Allowed(events[i - 1].to, events[i].to)
  }

  lemma ChainExtends(events: seq<Event>, from: OpState, to: OpState)
    requires Chain(events, from) && Allowed(from, to)
    ensures Chain(events + [Event(|events| + 1, Some(from), to)], to)
  {
    var longer := events + [Event(|events| + 1, Some(from), to)];
    forall i | 1 <= i < |longer| ensures LinkAt(longer, i) {
      if i < |events| {
        assert LinkAt(events, i);
      }
    }
  }

  /** No path returns to queued, and a terminal state is the end of its history. */
  lemma ChainShape(events: seq<Event>, state: OpState, i: int)
    requires Chain(events, state) && 0 <= i < |events|
    ensures events[i].to.Queued? <==> i == 0
    ensures Terminal(events[i].to) ==> i == |events| - 1
  {
    if i > 0 {
      assert LinkAt(events, i);
    }
    if i + 1 < |events| {
      assert LinkAt(events, i + 1);
    }
  }

  /** The dispatching marker occurs at most once in any history, and only as the second event. */
  lemma MarkerOnlySecond(events: seq<Event>, state: OpState, i: int)
    requires Chain(events, state) && 0 <= i < |events| && events[i].to.Dispatching?
    ensures i == 1
  {
    if i > 0 {
      assert LinkAt(events, i);
      ChainShape(events, state, i - 1);
    }
  }
}
