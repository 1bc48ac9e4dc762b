// The browser client's single-flight token refresh: requests that fail with 401 while a refresh is under way
// wait in a queue and are sent again, once, when it ends.

module RefreshQueue {

  type RequestId = nat

  /** Where a request is: on the wire, in the queue, waiting for the refresh it started, or finished. */
  datatype Phase = InFlight | Queued | Refreshing | Resolved | Rejected

  datatype Request = Request(phase: Phase, retried: bool, authEndpoint: bool, sends: nat)

  /** refreshes lists, for each refresh call on the wire, the request that started it. The two logs record
      who ever joined the queue and who was ever released from it, in order. */
  datatype Client = Client(
    requests: map<RequestId, Request>, isRefreshing: bool, failedQueue: seq<RequestId>,
    refreshes: seq<RequestId>, joined: seq<RequestId>, released: seq<RequestId>)

  datatype Event =
    | Send(id: RequestId, authEndpoint: bool)
    | Succeed(id: RequestId)
    | Fail(id: RequestId, status: int)
    | RefreshSucceeded(index: nat)
    | RefreshFailed(index: nat)

  function Sent(r: Request): Request {
    r.(phase := InFlight, retried := true, sends := r.sends + 1)
  }

  /** processQueue: every waiter is settled, in order. */
  function SettleAll(requests: map<RequestId, Request>, queue: seq<RequestId>, ok: bool): map<RequestId, Request> {
    if queue == [] then requests else
      var id := queue[|queue| - 1];
      var before := SettleAll(requests, queue[..|queue| - 1], ok);
      if id !in before then before
      else before[id := if ok then Sent(before[id]) else before[id].(phase := Rejected)]
  }

  /** May a 401 on this request be answered by a refresh? */
  predicate Refreshable(r: Request, status: int) {
    status == 401 && !r.retried && !r.authEndpoint
  }

  predicate Enabled(c: Client, e: Event) {
    match e
    case Send(id, _) => id !in c.requests
    case Succeed(id) => id in c.requests && c.requests[id].phase == InFlight
    case Fail(id, _) => id in c.requests && c.requests[id].phase == InFlight
    case RefreshSucceeded(i) => i < |c.refreshes| && c.refreshes[i] in c.requests
    case RefreshFailed(i) => i < |c.refreshes| && c.refreshes[i] in c.requests
  }

  function RefreshEnded(c: Client, i: nat, ok: bool): Client
    requires i < |c.refreshes| && c.refreshes[i] in c.requests
  {
    var settled := SettleAll(c.requests, c.failedQueue, ok);
    var starter := c.refreshes[i];
    var all := if starter in settled
      then settled[starter := if ok then Sent(settled[starter]) else settled[starter].(phase := Rejected)]
      else settled;
    Client(all, false, [], c.refreshes[..i] + c.refreshes[i + 1..], c.joined, c.released + c.failedQueue)
  }

  function Next(c: Client, e: Event): Client
    requires Enabled(c, e)
  {
    match e
    case Send(id, auth) => c.(requests := c.requests[id := Request(InFlight, false, auth, 1)])
    case Succeed(id) => c.(requests := c.requests[id := c.requests[id].(phase := Resolved)])
    case Fail(id, status) =>
      var r := c.requests[id];
      if !Refreshable(r, status) then c.(requests := c.requests[id := r.(phase := Rejected)])
      else if c.isRefreshing then
        c.(requests := c.requests[id := r.(phase := Queued)], failedQueue := c.failedQueue + [id], joined := c.joined + [id])
      else
        c.(requests := c.requests[id := r.(phase := Refreshing, retried := true)], isRefreshing := true,
           refreshes := c.refreshes + [id])
    case RefreshSucceeded(i) => RefreshEnded(c, i, true)
    case RefreshFailed(i) => RefreshEnded(c, i, false)
  }

  ghost predicate Run(c: Client, events: seq<Event>)
    decreases |events|
  {
    events == [] || (Enabled(c, events[0]) && Run(Next(c, events[0]), events[1..]))
  }

  ghost function Exec(c: Client, events: seq<Event>): Client
    requires Run(c, events)
    decreases |events|
  {
    if events == [] then c else Exec(Next(c, events[0]), events[1..])
  }

  // ---- The invariant ----

  /** How often each request has been sent, by where it is. */
  predicate SendsFit(r: Request) {
    match r.phase
    case InFlight => r.sends == if r.retried then 2 else 1
    case Queued => r.sends == 1 && !r.retried && !r.authEndpoint
    case Refreshing => r.sends == 1 && r.retried && !r.authEndpoint
    case _ => 1 <= r.sends <= 2
  }

  predicate Distinct(ids: seq<RequestId>) {
    forall i, j :: 0 <= i < j < |ids| ==> ids[i] != ids[j]
  }

  /** A request that joined the queue and has left it can never join again. */
  predicate Spent(requests: map<RequestId, Request>, ids: seq<RequestId>) {
    forall i :: 0 <= i < |ids| ==>
      ids[i] in requests && (requests[ids[i]].retried || requests[ids[i]].phase in {Queued, Rejected})
  }

  predicate Waiting(requests: map<RequestId, Request>, queue: seq<RequestId>) {
    && (forall i :: 0 <= i < |queue| ==> queue[i] in requests && requests[queue[i]].phase == Queued)
    && (forall id :: id in requests && requests[id].phase == Queued ==> id in queue)
  }

  ghost predicate Inv(c: Client) {
    && (forall id :: id in c.requests ==> SendsFit(c.requests[id]))
    && (c.isRefreshing <==> c.refreshes != []) && |c.refreshes| <= 1
    && (!c.isRefreshing ==> c.failedQueue == [])
    && (forall id :: id in c.requests && c.requests[id].phase == Refreshing <==> id in c.refreshes)
    && Waiting(c.requests, c.failedQueue)
    && c.joined == c.released + c.failedQueue
    && Distinct(c.joined) && Spent(c.requests, c.joined)
  }

  function Settled(r: Request, waiting: bool, ok: bool): Request {
    if !waiting then r else if ok then Sent(r) else r.(phase := Rejected)
  }

  lemma {:induction false} SettleAllAt(requests: map<RequestId, Request>, queue: seq<RequestId>, ok: bool, id: RequestId)
    requires Distinct(queue)
    ensures SettleAll(requests, queue, ok).Keys == requests.Keys
    ensures id in requests ==> SettleAll(requests, queue, ok)[id] == Settled(requests[id], id in queue, ok)
    decreases |queue|
  {
    if queue != [] {
      var n := |queue| - 1;
      SettleAllAt(requests, queue[..n], ok, id);
      SettleAllAt(requests, queue[..n], ok, queue[n]);
      assert queue == queue[..n] + [queue[n]];
    }
  }

  lemma RefreshEndedAt(c: Client, i: nat, ok: bool, id: RequestId)
    requires Inv(c) && i < |c.refreshes| && id in c.requests
    ensures RefreshEnded(c, i, ok).requests.Keys == c.requests.Keys
    ensures RefreshEnded(c, i, ok).requests[id] == Settled(c.requests[id], c.requests[id].phase in {Queued, Refreshing}, ok)
  {
    var q := c.failedQueue;
    assert Distinct(q) by {
      forall a, b | 0 <= a < b < |q|
        ensures q[a] != q[b]
      {
        assert c.joined[|c.released| + a] == q[a] && c.joined[|c.released| + b] == q[b];
      }
    }
    SettleAllAt(c.requests, q, ok, id);
    SettleAllAt(c.requests, q, ok, c.refreshes[i]);
    assert c.refreshes[i] in c.refreshes && c.refreshes == [c.refreshes[i]];
  }

  lemma RefreshEndedKeepsInv(c: Client, i: nat, ok: bool)
    requires Inv(c) && i < |c.refreshes| && c.refreshes[i] in c.requests
    ensures Inv(RefreshEnded(c, i, ok))
  {
    var c' := RefreshEnded(c, i, ok);
    RefreshEndedAt(c, i, ok, c.refreshes[i]);
    forall id | id in c.requests
      ensures SendsFit(c'.requests[id]) && c'.requests[id].phase !in {Queued, Refreshing}
      ensures c.requests[id].retried || c.requests[id].phase in {Queued, Rejected} ==>
        c'.requests[id].retried || c'.requests[id].phase == Rejected
    {
      RefreshEndedAt(c, i, ok, id);
    }
    assert c'.refreshes == [];
  }

  lemma NextKeepsInv(c: Client, e: Event)
    requires Inv(c) && Enabled(c, e)
    ensures Inv(Next(c, e))
  {
    match e
    case Send(id, _) =>
    case Succeed(id) => OneSettlesKeepsInv(c, id, Resolved);
    case Fail(id, status) =>
      if !Refreshable(c.requests[id], status) { OneSettlesKeepsInv(c, id, Rejected); }
      else { RefreshableFailKeepsInv(c, id, status); }
    case RefreshSucceeded(i) => RefreshEndedKeepsInv(c, i, true);
    case RefreshFailed(i) => RefreshEndedKeepsInv(c, i, false);
  }

  lemma OneSettlesKeepsInv(c: Client, id: RequestId, phase: Phase)
    requires Inv(c) && id in c.requests && c.requests[id].phase == InFlight && phase in {Resolved, Rejected}
    ensures Inv(c.(requests := c.requests[id := c.requests[id].(phase := phase)]))
  {
    assert SendsFit(c.requests[id]);
  }

  lemma RefreshableFailKeepsInv(c: Client, id: RequestId, status: int)
    requires Inv(c) && id in c.requests && c.requests[id].phase == InFlight && Refreshable(c.requests[id], status)
    ensures Inv(Next(c, Fail(id, status)))
  {
    assert SendsFit(c.requests[id]);
    assert id !in c.joined by {
      if i :| 0 <= i < |c.joined| && c.joined[i] == id { assert false; }
    }
  }

  predicate Initial(c: Client) {
    c == Client(map[], false, [], [], [], [])
  }

  lemma {:induction false} RunsKeepInv(c: Client, events: seq<Event>)
    requires Inv(c) && Run(c, events)
    ensures Inv(Exec(c, events))
    decreases |events|
  {
    if events != [] {
      NextKeepsInv(c, events[0]);
      RunsKeepInv(Next(c, events[0]), events[1..]);
    }
  }

  /** In every run: at most one refresh is on the wire; with none, nobody waits, so every request is on the wire
      or finished; waiters are released in the order they joined, each once; nothing is sent more than twice. */
  lemma SingleFlight(c: Client, events: seq<Event>)
    requires Initial(c) && Run(c, events)
    ensures var c' := Exec(c, events);
      && |c'.refreshes| == (if c'.isRefreshing then 1 else 0)
      && (!c'.isRefreshing ==> c'.failedQueue == [])
      && (forall id :: id in c'.requests && !c'.isRefreshing ==> c'.requests[id].phase in {InFlight, Resolved, Rejected})
      && c'.joined == c'.released + c'.failedQueue && Distinct(c'.joined)
      && forall id :: id in c'.requests ==> 1 <= c'.requests[id].sends <= 2
  {
    RunsKeepInv(c, events);
    var c' := Exec(c, events);
    forall id | id in c'.requests
      ensures 1 <= c'.requests[id].sends <= 2
      ensures !c'.isRefreshing ==> c'.requests[id].phase in {InFlight, Resolved, Rejected}
    {
      assert SendsFit(c'.requests[id]);
    }
  }

  predicate Finished(p: Phase) {
    p == Resolved || p == Rejected
  }

  /** A finished request is never touched again: each is settled once. */
  lemma {:induction false} SettledOnce(c: Client, events: seq<Event>, id: RequestId)
    requires Inv(c) && Run(c, events) && id in c.requests && Finished(c.requests[id].phase)
    ensures id in Exec(c, events).requests && Exec(c, events).requests[id] == c.requests[id]
    decreases |events|
  {
    if events != [] {
      var e := events[0];
      NextKeepsInv(c, e);
      if e.RefreshSucceeded? || e.RefreshFailed? { RefreshEndedAt(c, e.index, e.RefreshSucceeded?, id); }
      SettledOnce(Next(c, e), events[1..], id);
    }
  }

  /** A 403, a second 401, or a 401 of an auth endpoint is final at once; any other 401 never is. */
  lemma FinalIffNotRefreshable(c: Client, id: RequestId, status: int)
    requires Inv(c) && Enabled(c, Fail(id, status))
    ensures Next(c, Fail(id, status)).requests[id].phase == Rejected <==>
      status != 401 || c.requests[id].sends == 2 || c.requests[id].authEndpoint
  {
    assert SendsFit(c.requests[id]);
  }
}
