// The response interceptor of the browser client, with its module variables as fields.

module ApiClient {
  import opened RefreshQueue

  /** A waiting request is sent once more with the new token, or fails with the refresh. */
  function Answered(r: Request, waiting: bool, ok: bool): Request {
    if waiting && ok then Request(InFlight, true, r.authEndpoint, r.sends + 1)
    else if waiting then Request(Rejected, r.retried, r.authEndpoint, r.sends)
    else r
  }

  /** The end of a refresh answers every waiting request and touches no other. */
  lemma AllAnswered(c: Client, i: nat, ok: bool)
    requires Inv(c) && i < |c.refreshes| && c.refreshes[i] in c.requests
    ensures var c' := RefreshEnded(c, i, ok);
      forall id :: id in c.requests ==>
        id in c'.requests && c'.requests[id] == Answered(c.requests[id], c.requests[id].phase in {Queued, Refreshing}, ok)
  {
    var c' := RefreshEnded(c, i, ok);
    forall id | id in c.requests
      ensures id in c'.requests && c'.requests[id] == Answered(c.requests[id], c.requests[id].phase in {Queued, Refreshing}, ok)
    {
      RefreshEndedAt(c, i, ok, id);
    }
  }

  class Interceptor {
    var isRefreshing: bool
    var failedQueue: seq<RequestId>
    var requests: map<RequestId, Request>
    var refreshes: seq<RequestId>
    ghost var joined: seq<RequestId>
    ghost var released: seq<RequestId>

    ghost function State(): Client
      reads this
    {
      Client(requests, isRefreshing, failedQueue, refreshes, joined, released)
    }

    constructor ()
      ensures Initial(State())
    {
      isRefreshing, failedQueue, requests, refreshes := false, [], map[], [];
      joined, released := [], [];
    }

    method SendRequest(id: RequestId, authEndpoint: bool)
      requires id !in requests
      modifies this`requests
      ensures State() == Next(old(State()), Send(id, authEndpoint))
      ensures requests == old(requests)[id := Request(InFlight, false, authEndpoint, 1)]
    {
      requests := requests[id := Request(InFlight, false, authEndpoint, 1)];
    }

    method OnSuccess(id: RequestId)
      requires id in requests && requests[id].phase == InFlight
      modifies this`requests
      ensures State() == Next(old(State()), Succeed(id))
      ensures requests == old(requests)[id := old(requests)[id].(phase := Resolved)]
    {
      requests := requests[id := requests[id].(phase := Resolved)];
    }

    /** The interceptor's error branch up to its first await. */
    method OnError(id: RequestId, status: int) returns (startsRefresh: bool)
      requires id in requests && requests[id].phase == InFlight && Inv(State())
      modifies this
      ensures State() == Next(old(State()), Fail(id, status)) && Inv(State())
      ensures startsRefresh <==> status == 401 && !old(requests)[id].retried && !old(requests)[id].authEndpoint && !old(isRefreshing)
      ensures requests == old(requests)[id :=
        if startsRefresh then old(requests)[id].(phase := Refreshing, retried := true)
        else if status == 401 && !old(requests)[id].retried && !old(requests)[id].authEndpoint then old(requests)[id].(phase := Queued)
        else old(requests)[id].(phase := Rejected)]
      ensures isRefreshing <==> old(isRefreshing) || startsRefresh
      ensures failedQueue == if requests[id].phase == Queued then old(failedQueue) + [id] else old(failedQueue)
    {
      NextKeepsInv(State(), Fail(id, status));
      if status == 401 && !requests[id].retried && !requests[id].authEndpoint {
        if isRefreshing {
          failedQueue := failedQueue + [id];
          joined := joined + [id];
          requests := requests[id := requests[id].(phase := Queued)];
          return false;
        }
        requests := requests[id := requests[id].(phase := Refreshing, retried := true)];
        isRefreshing := true;
        refreshes := refreshes + [id];
        return true;
      }
      requests := requests[id := requests[id].(phase := Rejected)];
      return false;
    }

    /** processQueue: settle every waiter in the order it joined, then empty the queue. */
    method ProcessQueue(ok: bool)
      requires forall i :: 0 <= i < |failedQueue| ==> failedQueue[i] in requests
      modifies this`requests, this`failedQueue, this`released
      ensures requests == SettleAll(old(requests), old(failedQueue), ok)
      ensures failedQueue == [] && released == old(released) + old(failedQueue)
      ensures Distinct(old(failedQueue)) ==> forall id :: id in old(requests) ==>
        id in requests && requests[id] == Answered(old(requests)[id], id in old(failedQueue), ok)
    {
      ghost var before := requests;
      for i := 0 to |failedQueue|
        invariant failedQueue == old(failedQueue)
        invariant requests == SettleAll(before, failedQueue[..i], ok)
        invariant requests.Keys == before.Keys
        invariant released == old(released) + failedQueue[..i]
      {
        var id := failedQueue[i];
        assert failedQueue[..i + 1][..i] == failedQueue[..i];
        assert id in before;
        if ok {
          requests := requests[id := requests[id].(phase := InFlight, retried := true, sends := requests[id].sends + 1)];
        } else {
          requests := requests[id := requests[id].(phase := Rejected)];
        }
        released := released + [id];
      }
      assert failedQueue[..|failedQueue|] == failedQueue;
      forall id | id in before && Distinct(failedQueue)
        ensures id in requests && requests[id] == Answered(before[id], id in failedQueue, ok)
      {
        SettleAllAt(before, failedQueue, ok, id);
      }
      failedQueue := [];
    }

    /** The continuation after the refresh call, success or failure, including the finally block. */
    method OnRefreshEnd(i: nat, ok: bool)
      requires Inv(State()) && i < |refreshes| && refreshes[i] in requests
      modifies this
      ensures State() == RefreshEnded(old(State()), i, ok) && Inv(State())
      ensures !isRefreshing && failedQueue == [] && refreshes == []
      ensures forall id :: id in old(requests) ==>
        id in requests && requests[id] == Answered(old(requests)[id], old(requests)[id].phase in {Queued, Refreshing}, ok)
    {
      AllAnswered(State(), i, ok);
      RefreshEndedKeepsInv(State(), i, ok);
      var starter := refreshes[i];
      ProcessQueue(ok);
      if starter in requests {
        if ok {
          requests := requests[starter :=
            requests[starter].(phase := InFlight, retried := true, sends := requests[starter].sends + 1)];
        } else {
          requests := requests[starter := requests[starter].(phase := Rejected)];
        }
      }
      refreshes := refreshes[..i] + refreshes[i + 1..];
      isRefreshing := false;
    }
  }
}
