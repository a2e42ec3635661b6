/**
 One request to a provider: how often it is sent, and what its answers come to. Reads may be retried
 within one deadline; a mutation leaves exactly once, and only a definite refusal proves it had no effect.
 */
module Outbound {
  import opened Options
  import Receipts

  /** What one sending came to: no response, or a status with a body of one of these kinds. */
  datatype Body = Readable(matches: bool) | Oversized | Broken

  datatype Exchange = NoResponse | Response(status: nat, body: Body)

  datatype Failure = Unavailable | PermissionDenied | ResponseInvalid | RateLimited | ProviderRejected

  datatype Result = Delivered | Failed(failure: Failure)

  const READ_ATTEMPTS := 5

  datatype Method = Get | Head | Post | Delete

  function Attempts(m: Method): nat {
    if m.Get? || m.Head? then READ_ATTEMPTS else 1
  }

  predicate Success(status: nat) {
    200 <= status < 300
  }

  predicate Denial(e: Exchange) {
    e.Response? && (e.status == 401 || e.status == 403)
  }

  /** Nothing came back, the body of no denial broke off, or an intact answer asks for patience. */
  predicate Transient(e: Exchange) {
    e.NoResponse? || (!Denial(e) && (e.body.Broken? || (e.body.Readable? && (e.status == 429 || e.status >= 500))))
  }

  /** An intact success, with a body that fits if the caller wants it decoded. */
  predicate Good(e: Exchange, decodes: bool) {
    e.Response? && Success(e.status) && e.body.Readable? && (decodes ==> e.body.matches)
  }

  /** An answer that arrived and says something else than it should: too large, or a success that does not fit. */
  predicate Invalid(e: Exchange, decodes: bool) {
    e.Response? && !Denial(e) && (e.body.Oversized? || (Success(e.status) && e.body.Readable? && decodes && !e.body.matches))
  }

  /** An intact answer that is neither a success nor a reason to try again. */
  predicate Refused(e: Exchange) {
    e.Response? && !Denial(e) && e.body.Readable? && !Success(e.status) && e.status != 429 && e.status < 500
  }

  predicate Throttled(e: Exchange) {
    e.Response? && e.body.Readable? && e.status == 429
  }

  /** Every answer is of exactly one kind. */
  lemma OneKind(e: Exchange, decodes: bool)
    ensures var kinds := [Good(e, decodes), Denial(e), Invalid(e, decodes), Refused(e), Transient(e)];
      exists i :: 0 <= i < 5 && kinds[i] && forall j :: 0 <= j < 5 && j != i ==> !kinds[j]
    ensures Throttled(e) ==> Transient(e)
  {
    var kinds := [Good(e, decodes), Denial(e), Invalid(e, decodes), Refused(e), Transient(e)];
    var i := if Denial(e) then 1 else if Transient(e) then 4 else if Invalid(e, decodes) then 2 else if Refused(e) then 3 else 0;
    assert kinds[i];
  }

  /** What happens around attempt k: its answer, whether the deadline has passed after it, whether the pause before the next one was cut short. */
  datatype World = World(answer: nat -> Exchange, expired: nat -> bool, cut: nat -> bool)

  /** The request goes on after attempt k, unless that was the last one. */
  predicate GoesOn(w: World, k: nat) {
    Transient(w.answer(k)) && !w.expired(k) && !w.cut(k)
  }

  /** This many requests leave: the attempts go on up to the last of them, and no further. */
  ghost predicate Sends(m: Method, w: World, sent: nat) {
    && 1 <= sent <= Attempts(m) && (forall k :: 0 <= k < sent - 1 ==> GoesOn(w, k))
    && (sent == Attempts(m) || !GoesOn(w, sent - 1))
  }

  /** Attempt k is good and is reached. */
  ghost predicate ReachedGood(m: Method, w: World, decodes: bool, k: nat) {
    k < Attempts(m) && Good(w.answer(k), decodes) && forall j :: 0 <= j < k ==> GoesOn(w, j)
  }

  /** The number of requests is determined, and the last of them is good exactly if any good attempt is reached. */
  lemma DeliversExactly(m: Method, w: World, decodes: bool, sent: nat, other: nat)
    requires Sends(m, w, sent)
    ensures Sends(m, w, other) ==> other == sent
    ensures Good(w.answer(sent - 1), decodes) <==> exists k :: ReachedGood(m, w, decodes, k)
  {
    if Good(w.answer(sent - 1), decodes) {
      assert ReachedGood(m, w, decodes, sent - 1);
    }
    forall k | ReachedGood(m, w, decodes, k) ensures k == sent - 1 {
      assert !GoesOn(w, k);
    }
  }

  /**
   The retry loop. It sends until an answer is not transient, the deadline has passed, the pause is cut short, or
   the attempts of the method are used up; it delivers exactly if a good answer is reached, and every other end has
   a failure of its own.
   */
  method RequestJson(m: Method, w: World, decodes: bool) returns (r: Result, sent: nat)
    ensures Sends(m, w, sent)
    ensures r.Delivered? <==> Good(w.answer(sent - 1), decodes)
    ensures r == Failed(PermissionDenied) <==> Denial(w.answer(sent - 1))
    ensures r == Failed(ResponseInvalid) <==> Invalid(w.answer(sent - 1), decodes)
    ensures r == Failed(ProviderRejected) <==> Refused(w.answer(sent - 1))
    ensures r == Failed(RateLimited) <==> Throttled(w.answer(sent - 1)) && (sent == Attempts(m) || w.expired(sent - 1))
  {
    r, sent := Failed(Unavailable), 1;
    var attempts := if m.Get? || m.Head? then 5 else 1;
    var attempt := 0;
    while attempt < attempts
      invariant 0 <= attempt < attempts == Attempts(m)
      invariant forall k :: 0 <= k < attempt ==> GoesOn(w, k)
    {
      var e := w.answer(attempt);
      var failure := Unavailable;
      if e.Response? {
        if e.status == 401 || e.status == 403 {
          return Failed(PermissionDenied), attempt + 1;
        }
        if !e.body.Broken? {
          if e.body.Oversized? {
            return Failed(ResponseInvalid), attempt + 1;
          }
          if 200 <= e.status < 300 {
            return if decodes && !e.body.matches then Failed(ResponseInvalid) else Delivered, attempt + 1;
          } else if e.status == 429 {
            failure := RateLimited;
          } else if e.status < 500 {
            return Failed(ProviderRejected), attempt + 1;
          }
        }
      }
      if attempt == attempts - 1 || w.expired(attempt) {
        return Failed(failure), attempt + 1;
      }
      if w.cut(attempt) {
        return Failed(Unavailable), attempt + 1;
      }
      attempt := attempt + 1;
    }
  }

  /** The statuses that prove the provider did nothing. */
  predicate Refusal(status: nat) {
    status in {400, 401, 403, 404, 409, 422}
  }

  function StatusOf(e: Exchange): nat {
    if e.Response? then e.status else 0
  }

  /** Preconditions of a mutation: the caller's binding is the client's, and there is a token. */
  datatype Call = Call(bound: bool, token: bool, endpoint: bool)

  predicate Ready(c: Call) {
    c.bound && c.token && c.endpoint
  }

  /**
   A mutation by POST: sent exactly once if it may be sent at all. It is rejected exactly on a status
   that proves no effect, never accepted, and everything else stays ambiguous.
   */
  method PostMutation(c: Call, w: World, decodes: bool) returns (reply: Receipts.Reply, sent: nat)
    ensures sent == if Ready(c) then 1 else 0
    ensures reply.reference == "" && !reply.verdict.Accepted?
    ensures reply.verdict.Rejected? && !reply.failed <==> Ready(c) && Refusal(StatusOf(w.answer(0)))
    ensures Receipts.DefiniteRejection(reply) <==> Ready(c) && Refusal(StatusOf(w.answer(0)))
  {
    if !c.bound || !c.token || !c.endpoint {
      return Receipts.Reply(Receipts.Other, "", true), 0;
    }
    var r;
    r, sent := RequestJson(Post, w, decodes);
    var status := StatusOf(w.answer(0));
    if !r.Delivered? {
      if Refusal(status) {
        return Receipts.Reply(Receipts.Rejected, "", false), sent;
      }
      return Receipts.Reply(Receipts.Ambiguous, "", true), sent;
    }
    return Receipts.Reply(Receipts.Ambiguous, "", false), sent;
  }

  /** A deletion: sent at most once; accepted exactly on an intact 204, rejected exactly on a refusal. */
  method DeleteSnapshot(c: Call, w: World) returns (reply: Receipts.Reply, sent: nat)
    ensures sent == if Ready(c) then 1 else 0
    ensures Receipts.DefiniteRejection(reply) <==> Ready(c) && Refusal(StatusOf(w.answer(0)))
    ensures reply.verdict.Accepted? && !reply.failed <==>
              Ready(c) && w.answer(0).Response? && w.answer(0).status == 204 && w.answer(0).body.Readable?
  {
    if !c.bound || !c.token || !c.endpoint {
      return Receipts.Reply(Receipts.Other, "", true), 0;
    }
    var r;
    r, sent := RequestJson(Delete, w, false);
    var status := StatusOf(w.answer(0));
    if !r.Delivered? {
      if Refusal(status) {
        return Receipts.Reply(Receipts.Rejected, "", false), sent;
      }
      return Receipts.Reply(Receipts.Ambiguous, "", true), sent;
    }
    if status != 204 {
      return Receipts.Reply(Receipts.Ambiguous, "", true), sent;
    }
    return Receipts.Reply(Receipts.Accepted, "", false), sent;
  }
}
