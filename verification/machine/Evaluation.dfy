/** Waiting for a Nomad evaluation: it is queried again for as long as it is pending. */
module Evaluation {
  import opened Common

  /** One answer of the evaluations endpoint. */
  datatype Reply = QueryFailed | Eval(status: string, deploymentID: string)

  predicate Pending(r: Reply) {
    r.Eval? && r.status == "pending"
  }

  /** What the first answer that is not pending means. */
  function Outcome(r: Reply): Option<string> {
    if r.Eval? && r.status == "complete" then Some(r.deploymentID) else None
  }

  /** The recursion over the answers still to come: the deployment id or an error,
      and how many queries were made. `None` for the pair: still waiting. */
  function Poll(replies: seq<Reply>): Option<(Option<string>, nat)> {
    if replies == [] then None
    else if Pending(replies[0]) then
      match Poll(replies[1..])
      case None => None
      case Some((r, n)) => Some((r, n + 1))
    else Some((Outcome(replies[0]), 1))
  }

  /** The first n answers say "pending", and the one after them does not. */
  ghost predicate EndsAt(replies: seq<Reply>, n: int) {
    && 0 <= n < |replies|
    && (forall i :: 0 <= i < n ==> replies[i].Eval? && replies[i].status == "pending")
    && !(replies[n].Eval? && replies[n].status == "pending")
  }

  /** n pending answers and then another one: n + 1 queries, decided by that answer alone. Its deployment
      id is the result if it says "complete"; a failed query and any other status are an error. */
  lemma {:induction false} PollAfterPending(replies: seq<Reply>, n: nat)
    requires EndsAt(replies, n)
    ensures Poll(replies) == Some((
      if replies[n].Eval? && replies[n].status == "complete" then Some(replies[n].deploymentID) else None,
      n + 1))
    decreases n
  {
    if n > 0 {
      assert replies[1..][n - 1] == replies[n];
      PollAfterPending(replies[1..], n - 1);
    }
  }

  /** It keeps waiting exactly while every answer so far was pending. */
  lemma {:induction false} PollWaitsIff(replies: seq<Reply>)
    ensures Poll(replies).None? <==>
      forall i :: 0 <= i < |replies| ==> replies[i].Eval? && replies[i].status == "pending"
  {
    if replies != [] && Pending(replies[0]) {
      PollWaitsIff(replies[1..]);
      assert forall i :: 0 < i < |replies| ==> replies[i] == replies[1..][i - 1];
      assert forall i :: 0 <= i < |replies| - 1 ==> replies[1..][i] == replies[i + 1];
    }
  }

  /** Both for any answers: where they stop being pending decides. */
  lemma PollIsDecided(replies: seq<Reply>)
    ensures Poll(replies).None? <==>
      forall i :: 0 <= i < |replies| ==> replies[i].Eval? && replies[i].status == "pending"
    ensures forall i :: EndsAt(replies, i) ==> Poll(replies) == Some((
      if replies[i].Eval? && replies[i].status == "complete" then Some(replies[i].deploymentID) else None,
      i + 1))
  {
    PollWaitsIff(replies);
    forall i | EndsAt(replies, i)
      ensures Poll(replies) == Some((
        if replies[i].Eval? && replies[i].status == "complete" then Some(replies[i].deploymentID) else None,
        i + 1))
    {
      PollAfterPending(replies, i);
    }
  }

  lemma {:induction false} EndsSomewhere(replies: seq<Reply>)
    ensures (exists i :: EndsAt(replies, i)) <==>
      !(forall i :: 0 <= i < |replies| ==> replies[i].Eval? && replies[i].status == "pending")
  {
    if replies != [] && replies[0].Eval? && replies[0].status == "pending" {
      EndsSomewhere(replies[1..]);
      if i: int :| EndsAt(replies[1..], i) {
        assert EndsAt(replies, i + 1);
      }
    } else if replies != [] {
      assert EndsAt(replies, 0);
    }
  }

  /** The same as a loop. */
  method PollLoop(replies: seq<Reply>) returns (answer: Option<(Option<string>, nat)>)
    ensures answer == Poll(replies)
  {
    var n := 0;
    while n < |replies| && Pending(replies[n])
      invariant 0 <= n <= |replies|
      invariant forall i :: 0 <= i < n ==> replies[i].Eval? && replies[i].status == "pending"
    {
      n := n + 1;
    }
    if n == |replies| {
      PollWaitsIff(replies);
      return None;
    }
    PollAfterPending(replies, n);
    return Some((Outcome(replies[n]), n + 1));
  }
}
