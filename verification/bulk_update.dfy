/**
  The bulk update (`LinearGraphQLClient.updateIssues`): one single-issue
  update per identifier, strictly in input order, never aborting; the issues
  confirmed updated are collected and one success flag is AND-ed over all
  calls. Per-identifier failures are logged, not thrown.

  The method is proved against reference functions over the replies the
  transport gives (`Replies`), and the properties of the result are lemmas
  about those functions.
 */
module BulkUpdate {
  import opened ClientTypes
  import opened Gateway
  import opened Operations

  /** `{ issueUpdate: { success, issues } }` as the bulk update builds it. */
  datatype BulkUpdateResult = BulkUpdateResult(success: bool, issues: seq<Issue>)

  /** A diagnostic line: the call returned without a confirmed issue, or it threw. */
  datatype Diagnostic = NotUpdated(id: Id) | UpdateFailed(id: Id, error: Throwable)

  /** The requests of a bulk update: one `{ id, input }` update per identifier, in input order. */
  function BulkRequests(tpl: Templates, ids: seq<Id>, input: Record): (reqs: seq<Request>)
    ensures |reqs| == |ids|
    ensures forall i :: 0 <= i < |ids| ==>
              reqs[i].body == RequestBody(tpl.updateIssues)
              && IdOf(reqs[i].variables) == Some(ids[i])
              && InputOf(reqs[i].variables) == Some(input)
  {
    seq(|ids|, i requires 0 <= i < |ids| => Request(RequestBody(tpl.updateIssues), IdVariables(ids[i], input)))
  }

  /** How each of a sequence of calls settles, each given the requests sent before it. */
  function Replies(server: Oracle<IssueUpdate>, reqs: seq<Request>): seq<Completion<IssueUpdate>>
  {
    seq(|reqs|, i requires 0 <= i < |reqs| => Normalise(server(reqs[..i], reqs[i])))
  }

  /** A call confirms its update when it returns `success` true with an issue present. */
  predicate Confirmed(c: Completion<IssueUpdate>)
  {
    c.Returned? && c.value.success && c.value.issue.Some?
  }

  /** The issue a call contributes to the result: its issue when confirmed, nothing otherwise. */
  function Contribution(c: Completion<IssueUpdate>): seq<Issue>
  {
    if Confirmed(c) then [c.value.issue.value] else []
  }

  /** The confirmed issues of a sequence of calls, in call order. */
  function ConfirmedIssues(replies: seq<Completion<IssueUpdate>>): seq<Issue>
  {
    if replies == [] then [] else Contribution(replies[0]) + ConfirmedIssues(replies[1..])
  }

  /** Every call confirmed its update. */
  predicate AllConfirmed(replies: seq<Completion<IssueUpdate>>)
  {
    forall i :: 0 <= i < |replies| ==> Confirmed(replies[i])
  }

  /** The diagnostic one call produces: none when confirmed, one line otherwise. */
  function Diagnose(id: Id, c: Completion<IssueUpdate>): seq<Diagnostic>
  {
    match c
    case Returned(update) => if update.success && update.issue.Some? then [] else [NotUpdated(id)]
    case Raised(error) => [UpdateFailed(id, error)]
  }

  /** The diagnostics of a sequence of calls, in call order. */
  function Diagnostics(ids: seq<Id>, replies: seq<Completion<IssueUpdate>>): seq<Diagnostic>
    requires |ids| == |replies|
  {
    if replies == [] then [] else Diagnose(ids[0], replies[0]) + Diagnostics(ids[1..], replies[1..])
  }

  /**
    `updateIssues(ids, input)`. It returns the aggregate result, the requests
    it sent (exactly one per identifier, in input order, whatever the earlier
    calls gave) and the diagnostics it logged.
   */
  method UpdateIssues(tpl: Templates, server: Oracle<IssueUpdate>, ids: seq<Id>, input: Record)
    returns (response: BulkUpdateResult, sent: seq<Request>, log: seq<Diagnostic>)
    ensures sent == BulkRequests(tpl, ids, input)
    ensures response.issues == ConfirmedIssues(Replies(server, sent))
    ensures response.success == AllConfirmed(Replies(server, sent))
    ensures log == Diagnostics(ids, Replies(server, sent))
  {
    var results: seq<Issue> := [];
    var overallSuccess := true;
    sent, log := [], [];
    var i := 0;
    while i < |ids|
      invariant 0 <= i <= |ids|
      invariant sent == BulkRequests(tpl, ids[..i], input)
      invariant results == ConfirmedIssues(Replies(server, sent))
      invariant overallSuccess == AllConfirmed(Replies(server, sent))
      invariant log == Diagnostics(ids[..i], Replies(server, sent))
    {
      var id := ids[i];
      var call := UpdateIssueById(tpl, server, sent, id, input);
      match call.result {
        case Returned(update) =>
          if update.success && update.issue.Some? {
            results := results + [update.issue.value];
          } else {
            overallSuccess := false;
            log := log + [NotUpdated(id)];
          }
        case Raised(error) =>
          overallSuccess := false;
          log := log + [UpdateFailed(id, error)];
      }
      ghost var before := sent;
      sent := sent + [call.request];
      RepliesExtend(server, before, call.request);
      ConfirmedIssuesAppend(Replies(server, before), call.result);
      AllConfirmedAppend(Replies(server, before), call.result);
      DiagnosticsAppend(ids[..i], Replies(server, before), id, call.result);
      assert ids[..i + 1] == ids[..i] + [id];
      i := i + 1;
    }
    assert ids[..i] == ids;
    response := BulkUpdateResult(overallSuccess, results);
  }

  /** Sending one more request adds one reply and leaves the earlier ones as they were. */
  lemma RepliesExtend(server: Oracle<IssueUpdate>, reqs: seq<Request>, r: Request)
    ensures Replies(server, reqs + [r]) == Replies(server, reqs) + [Normalise(server(reqs, r))]
  {
    var longer := reqs + [r];
    forall i | 0 <= i < |reqs|
      ensures longer[..i] == reqs[..i]
    {
    }
    assert longer[..|reqs|] == reqs;
  }

  lemma {:induction false} ConfirmedIssuesAppend(replies: seq<Completion<IssueUpdate>>, c: Completion<IssueUpdate>)
    ensures ConfirmedIssues(replies + [c]) == ConfirmedIssues(replies) + Contribution(c)
  {
    if replies != [] {
      assert (replies + [c])[1..] == replies[1..] + [c];
      ConfirmedIssuesAppend(replies[1..], c);
    }
  }

  lemma AllConfirmedAppend(replies: seq<Completion<IssueUpdate>>, c: Completion<IssueUpdate>)
    ensures AllConfirmed(replies + [c]) <==> AllConfirmed(replies) && Confirmed(c)
  {
    assert (replies + [c])[|replies|] == c;
    forall i | 0 <= i < |replies|
      ensures (replies + [c])[i] == replies[i]
    {
    }
  }

  lemma {:induction false} DiagnosticsAppend(ids: seq<Id>, replies: seq<Completion<IssueUpdate>>, id: Id, c: Completion<IssueUpdate>)
    requires |ids| == |replies|
    ensures Diagnostics(ids + [id], replies + [c]) == Diagnostics(ids, replies) + Diagnose(id, c)
  {
    if replies != [] {
      assert (replies + [c])[1..] == replies[1..] + [c];
      assert (ids + [id])[1..] == ids[1..] + [id];
      DiagnosticsAppend(ids[1..], replies[1..], id, c);
    }
  }

  /** The number of calls that confirmed their update. */
  function CountConfirmed(replies: seq<Completion<IssueUpdate>>): nat
  {
    if replies == [] then 0 else (if Confirmed(replies[0]) then 1 else 0) + CountConfirmed(replies[1..])
  }

  /**
    With K confirmed calls out of N, the list has length K, K is at most N,
    and the bulk update reports success iff K = N.
   */
  lemma {:induction false} ConfirmedCount(replies: seq<Completion<IssueUpdate>>)
    ensures |ConfirmedIssues(replies)| == CountConfirmed(replies)
    ensures CountConfirmed(replies) <= |replies|
    ensures CountConfirmed(replies) == |replies| <==> AllConfirmed(replies)
  {
    if replies != [] {
      ConfirmedCount(replies[1..]);
      assert AllConfirmed(replies) <==> Confirmed(replies[0]) && AllConfirmed(replies[1..]) by {
        forall i | 1 <= i < |replies|
          ensures replies[i] == replies[1..][i - 1]
        {
        }
      }
    }
  }

  /**
    The result holds exactly the issues of the calls that confirmed their
    update: an issue is in the list iff some call returned it with success.
   */
  lemma {:induction false} ConfirmedIssuesExactly(replies: seq<Completion<IssueUpdate>>, x: Issue)
    ensures x in ConfirmedIssues(replies) <==>
            exists i :: 0 <= i < |replies| && Confirmed(replies[i]) && replies[i].value.issue.value == x
  {
    if replies != [] {
      ConfirmedIssuesExactly(replies[1..], x);
      if x in ConfirmedIssues(replies[1..]) {
        var i :| 0 <= i < |replies[1..]| && Confirmed(replies[1..][i]) && replies[1..][i].value.issue.value == x;
        assert replies[i + 1] == replies[1..][i];
      }
      if exists i :: 0 <= i < |replies| && Confirmed(replies[i]) && replies[i].value.issue.value == x {
        var i :| 0 <= i < |replies| && Confirmed(replies[i]) && replies[i].value.issue.value == x;
        if i > 0 {
          assert replies[1..][i - 1] == replies[i];
        }
      }
    }
  }

  /**
    Later calls only append: the issues confirmed by the first k calls are a
    prefix of the issues confirmed by all of them, so the result keeps input order.
   */
  lemma {:induction false} ConfirmedIssuesPrefix(replies: seq<Completion<IssueUpdate>>, k: nat)
    requires k <= |replies|
    ensures ConfirmedIssues(replies[..k]) <= ConfirmedIssues(replies)
  {
    if k > 0 {
      assert replies[..k][1..] == replies[1..][..k - 1];
      ConfirmedIssuesPrefix(replies[1..], k - 1);
    }
  }

  /**
    Each call does exactly one of two things: it contributes one issue, or it
    logs one diagnostic, and that diagnostic names the call's identifier.
   */
  lemma IssueOrDiagnostic(id: Id, c: Completion<IssueUpdate>)
    ensures |Contribution(c)| + |Diagnose(id, c)| == 1
    ensures |Diagnose(id, c)| == 1 <==> !Confirmed(c)
    ensures forall d :: d in Diagnose(id, c) ==> d.id == id
  {
  }

  /** The identifiers of the calls that did not confirm their update, in input order. */
  function FailedIds(ids: seq<Id>, replies: seq<Completion<IssueUpdate>>): seq<Id>
    requires |ids| == |replies|
  {
    if replies == [] then []
    else (if Confirmed(replies[0]) then [] else [ids[0]]) + FailedIds(ids[1..], replies[1..])
  }

  /** The identifiers a log names, in log order. */
  function LoggedIds(log: seq<Diagnostic>): seq<Id>
  {
    if log == [] then [] else [log[0].id] + LoggedIds(log[1..])
  }

  lemma {:induction false} LoggedIdsAppend(a: seq<Diagnostic>, b: seq<Diagnostic>)
    ensures LoggedIds(a + b) == LoggedIds(a) + LoggedIds(b)
  {
    if a != [] {
      assert (a + b)[1..] == a[1..] + b;
      LoggedIdsAppend(a[1..], b);
    } else {
      assert a + b == b;
    }
  }

  /** The log names exactly the identifiers of the unconfirmed calls, once each, in input order. */
  lemma {:induction false} LogNamesFailures(ids: seq<Id>, replies: seq<Completion<IssueUpdate>>)
    requires |ids| == |replies|
    ensures LoggedIds(Diagnostics(ids, replies)) == FailedIds(ids, replies)
  {
    if replies != [] {
      LogNamesFailures(ids[1..], replies[1..]);
      LoggedIdsAppend(Diagnose(ids[0], replies[0]), Diagnostics(ids[1..], replies[1..]));
    }
  }

  /** In total, every call either contributes an issue or logs exactly one diagnostic. */
  lemma {:induction false} ConfirmedOrLogged(ids: seq<Id>, replies: seq<Completion<IssueUpdate>>)
    requires |ids| == |replies|
    ensures |ConfirmedIssues(replies)| + |Diagnostics(ids, replies)| == |ids|
  {
    if replies != [] {
      ConfirmedOrLogged(ids[1..], replies[1..]);
    }
  }

  /** A call that reports success but carries no issue still fails the whole bulk update. */
  lemma SuccessWithoutIssueFails(replies: seq<Completion<IssueUpdate>>, i: nat)
    requires i < |replies| && replies[i] == Returned(IssueUpdate(true, None))
    ensures !AllConfirmed(replies)
    ensures |ConfirmedIssues(replies)| < |replies|
  {
    ConfirmedCount(replies);
  }

  /** An oracle that throws on the update of "b" and confirms every other update. */
  function ThrowsOnB(history: seq<Request>, r: Request): Transport<IssueUpdate>
  {
    match IdOf(r.variables)
    case Some(id) =>
      if id == "b" then Threw(Error("update rejected"))
      else Responded(IssueUpdate(true, Some(Issue(id, map[]))))
    case None => Responded(IssueUpdate(false, None))
  }

  /**
    Updating ["a", "b", "c"] when "b" throws: all three are attempted, the
    result is not successful and holds the issues of "a" and "c", in that order.
   */
  lemma ThrowOnBScenario(tpl: Templates, input: Record)
    ensures |BulkRequests(tpl, ["a", "b", "c"], input)| == 3
    ensures ConfirmedIssues(Replies(ThrowsOnB, BulkRequests(tpl, ["a", "b", "c"], input)))
         == [Issue("a", map[]), Issue("c", map[])]
    ensures !AllConfirmed(Replies(ThrowsOnB, BulkRequests(tpl, ["a", "b", "c"], input)))
  {
    var reqs := BulkRequests(tpl, ["a", "b", "c"], input);
    var replies := Replies(ThrowsOnB, reqs);
    assert IdOf(reqs[0].variables) == Some("a");
    assert IdOf(reqs[1].variables) == Some("b");
    assert IdOf(reqs[2].variables) == Some("c");
    assert replies[0] == Normalise(ThrowsOnB(reqs[..0], reqs[0]));
    assert replies[1] == Normalise(ThrowsOnB(reqs[..1], reqs[1]));
    assert replies[2] == Normalise(ThrowsOnB(reqs[..2], reqs[2]));
    assert replies[0] == Returned(IssueUpdate(true, Some(Issue("a", map[]))));
    assert replies[1] == Raised(Error(FailurePrefix + "update rejected"));
    assert replies[2] == Returned(IssueUpdate(true, Some(Issue("c", map[]))));
    var a, c := Issue("a", map[]), Issue("c", map[]);
    assert replies[1..][1..][1..] == [];
    assert ConfirmedIssues(replies[1..][1..]) == [c];
    assert ConfirmedIssues(replies[1..]) == [c];
    assert ConfirmedIssues(replies) == [a] + [c];
    assert !Confirmed(replies[1]);
  }

  /** An empty list of identifiers sends nothing and succeeds with no issues. */
  lemma EmptyIdsSucceed(tpl: Templates, server: Oracle<IssueUpdate>, input: Record)
    ensures BulkRequests(tpl, [], input) == []
    ensures ConfirmedIssues(Replies(server, [])) == [] && AllConfirmed(Replies(server, []))
  {
  }
}
