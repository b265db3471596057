/**
 * The TCP socket's handle and its requests (unio/src/net/tcp_socket.cc, unio/inc/jcu-unio/uv_helper.h):
 * who owns the handle, which request objects are alive, and to whom a result is delivered.
 *
 * Premises on libuv: a successful call never runs the request's callback synchronously; a closing
 * handle refuses new requests; requests cancelled by a close complete before the close callback;
 * callbacks from the loop do not nest. The handle is initialised before it is used.
 */
module TcpRequests {
  import opened Prelude

  datatype Kind = Connect | Shutdown | Write

  /** `callback` says whether the caller gave a completion callback. */
  datatype Request = Request(kind: Kind, callback: bool)

  datatype Route = ToCallback | ToErrorEvent | ToOwnEvent

  datatype Delivery = Delivery(id: nat, request: Request, status: int, refused: bool, route: Route)

  datatype Phase = Zeroed | Open | Closing | InCloseCallback | Closed

  datatype Tcp = Tcp(
    inited: bool,
    phase: Phase,                  // of the uv handle
    owner: bool,                   // the handle's reference to its socket is set
    connected: bool,
    uvInits: nat,
    uvCloses: nat,
    requests: seq<Request>,        // every request ever made; its index is its id
    inflight: set<nat>,            // held by libuv
    publishing: set<nat>,          // in the middle of publishAndClose
    live: set<nat>,                // allocated and not deleted
    deletions: multiset<nat>,      // every `delete` of a request reference
    deliveries: seq<Delivery>
  )

  const CREATED: Tcp := Tcp(false, Zeroed, false, false, 0, 0, [], {}, {}, {}, multiset{}, [])

  /** `publish`: the callback if there is one, else ErrorEvent on error, else the event itself. */
  function PublishRoute(callback: bool, status: int): Route {
    if callback then ToCallback else if status != 0 then ToErrorEvent else ToOwnEvent
  }

  /** The refusal paths of `reset` and `create` know that there is an error. */
  function RefusalRoute(callback: bool): Route {
    if callback then ToCallback else ToErrorEvent
  }

  /** `init` under the init mutex, `rc` being the result of `uv_tcp_init` if it is reached. */
  function AfterInit(t: Tcp, rc: int): Tcp {
    if t.inited then t
    else if rc == 0 then t.(inited := true, phase := Open, owner := true, uvInits := t.uvInits + 1)
    else t.(inited := true, uvInits := t.uvInits + 1)
  }

  /** `connect`, `disconnect` (through `create`) and `write` (through `reset`) with libuv's answer `rc`. */
  function Submit(t: Tcp, r: Request, rc: int): Tcp {
    var id := |t.requests|;
    if rc != 0 then
      t.(requests := t.requests + [r],
         live := if r.kind.Write? then t.live + {id} else t.live,
         deletions := if r.kind.Write? then t.deletions else t.deletions + multiset{id},
         deliveries := t.deliveries + [Delivery(id, r, rc, true, RefusalRoute(r.callback))])
    else
      t.(requests := t.requests + [r], inflight := t.inflight + {id}, live := t.live + {id})
  }

  /** The uv request callback up to the end of `publish`. */
  function Complete(t: Tcp, id: nat, status: int): Tcp
    requires id < |t.requests|
  {
    var r := t.requests[id];
    t.(connected := if r.kind.Connect? && status == 0 then true
                    else if r.kind.Shutdown? then false else t.connected,
       inflight := t.inflight - {id}, publishing := t.publishing + {id},
       deliveries := t.deliveries + [Delivery(id, r, status, false, PublishRoute(r.callback, status))])
  }

  /** `close` of the request reference: it deletes itself. */
  function Finish(t: Tcp, id: nat): Tcp {
    t.(publishing := t.publishing - {id}, live := t.live - {id}, deletions := t.deletions + multiset{id})
  }

  function AfterClose(t: Tcp): Tcp {
    var u := t.(connected := false);
    if t.phase.Open? then u.(phase := Closing, uvCloses := u.uvCloses + 1) else u
  }

  /** The end of the close callback: `ref->close()` lets go of the socket. */
  function AfterCloseCallback(t: Tcp): Tcp {
    t.(phase := Closed, owner := false)
  }

  datatype Label =
    | DoInit(rc: int)
    | DoSubmit(request: Request, rc: int)
    | DoComplete(id: nat, status: int)
    | DoFinish(id: nat)
    | DoClose
    | BeginCloseCallback
    | EndCloseCallback
    | StreamCallback            // alloc, read or listen callback

  predicate Enabled(t: Tcp, l: Label) {
    match l
    case DoInit(_) => true
    case DoSubmit(_, rc) => !t.phase.Zeroed? && (!t.phase.Open? ==> rc != 0)
    case DoComplete(id, _) => id in t.inflight && id < |t.requests|
                              && (t.phase.Open? || t.phase.Closing?) && t.publishing == {}
    case DoFinish(id) => id in t.publishing
    case DoClose => !t.phase.Zeroed?
    case BeginCloseCallback => t.phase.Closing? && t.inflight == {} && t.publishing == {}
    case EndCloseCallback => t.phase.InCloseCallback?
    case StreamCallback => t.phase.Open?
  }

  function Step(t: Tcp, l: Label): Tcp
    requires Enabled(t, l)
  {
    match l
    case DoInit(rc) => AfterInit(t, rc)
    case DoSubmit(r, rc) => Submit(t, r, rc)
    case DoComplete(id, status) => Complete(t, id, status)
    case DoFinish(id) => Finish(t, id)
    case DoClose => AfterClose(t)
    case BeginCloseCallback => t.(phase := InCloseCallback)
    case EndCloseCallback => AfterCloseCallback(t)
    case StreamCallback => t
  }

  predicate Valid(t: Tcp, ls: seq<Label>)
    decreases ls
  {
    ls == [] || (Enabled(t, ls[0]) && Valid(Step(t, ls[0]), ls[1..]))
  }

  function Run(t: Tcp, ls: seq<Label>): Tcp
    requires Valid(t, ls)
    decreases ls
  {
    if ls == [] then t else Run(Step(t, ls[0]), ls[1..])
  }

  predicate Delivered(t: Tcp, id: nat) {
    exists i :: 0 <= i < |t.deliveries| && t.deliveries[i].id == id
  }

  /** A write libuv refused: `reset` reports it but leaves its reference allocated. */
  predicate RefusedWrite(t: Tcp, id: nat) {
    exists i :: 0 <= i < |t.deliveries| && t.deliveries[i].id == id
      && t.deliveries[i].refused && t.deliveries[i].request.kind.Write?
  }

  /** Every request is delivered once or still in flight, never both. */
  ghost predicate DeliveredOnce(t: Tcp) {
    && (forall id: nat :: id in t.inflight ==> id < |t.requests| && !Delivered(t, id))
    && (forall id: nat :: id < |t.requests| && id !in t.inflight ==> Delivered(t, id))
    && (forall i, j :: 0 <= i < j < |t.deliveries| ==> t.deliveries[i].id != t.deliveries[j].id)
    && (forall i :: 0 <= i < |t.deliveries| ==> Routed(t, t.deliveries[i]))
  }

  /** Refused at once or completed later, a result takes the same route. */
  predicate Routed(t: Tcp, d: Delivery) {
    && d.id < |t.requests| && d.request == t.requests[d.id]
    && (d.refused ==> d.status != 0)
    && d.route == PublishRoute(d.request.callback, d.status)
  }

  ghost predicate RefsAccounted(t: Tcp) {
    && (forall id: nat :: id in t.live <==> id in t.inflight || id in t.publishing || RefusedWrite(t, id))
    && (forall id: nat :: id in t.publishing ==> Delivered(t, id) && id !in t.inflight && !RefusedWrite(t, id))
  }

  /** A reference is deleted once if it is no longer alive, and never while it is. */
  ghost predicate DeletedOnce(t: Tcp) {
    forall id: nat :: t.deletions[id] == (if id < |t.requests| && id !in t.live then 1 else 0)
  }

  predicate OwnerTracksHandle(t: Tcp) {
    && (t.owner <==> t.phase.Open? || t.phase.Closing? || t.phase.InCloseCallback?)
    && t.uvInits == (if t.inited then 1 else 0)
    && t.uvCloses == (if t.phase.Zeroed? || t.phase.Open? then 0 else 1)
    && (!t.inited ==> t.phase.Zeroed?)
    && (t.phase.InCloseCallback? || t.phase.Closed? ==> t.inflight == {} && t.publishing == {})
  }

  ghost predicate Inv(t: Tcp) {
    DeliveredOnce(t) && RefsAccounted(t) && DeletedOnce(t) && OwnerTracksHandle(t)
  }

  /** Appending one delivery, read off the two predicates that look at the list. */
  lemma DeliveriesSnoc(t: Tcp, u: Tcp, d: Delivery, id: nat)
    requires u.deliveries == t.deliveries + [d]
    ensures Delivered(u, id) <==> Delivered(t, id) || d.id == id
    ensures RefusedWrite(u, id) <==> RefusedWrite(t, id) || (d.id == id && d.refused && d.request.kind.Write?)
  {
    var n := |t.deliveries|;
    assert u.deliveries[n] == d;
    forall i | 0 <= i < n ensures u.deliveries[i] == t.deliveries[i] {}
    if Delivered(t, id) {
      var i :| 0 <= i < n && t.deliveries[i].id == id;
      assert u.deliveries[i].id == id;
    }
    if RefusedWrite(t, id) {
      var i :| 0 <= i < n && t.deliveries[i].id == id && t.deliveries[i].refused && t.deliveries[i].request.kind.Write?;
      assert u.deliveries[i].id == id;
    }
  }

  /** A connect that libuv completed with status zero. */
  predicate SomeConnectSucceeded(t: Tcp) {
    exists i :: 0 <= i < |t.deliveries|
      && t.deliveries[i].request.kind.Connect? && !t.deliveries[i].refused && t.deliveries[i].status == 0
  }

  lemma {:induction false} ConnectedRun(t: Tcp, ls: seq<Label>)
    requires Inv(t) && Valid(t, ls) && (t.connected ==> SomeConnectSucceeded(t))
    ensures Run(t, ls).connected ==> SomeConnectSucceeded(Run(t, ls))
    decreases ls
  {
    if ls != [] {
      var u := Step(t, ls[0]);
      StepInv(t, ls[0]);
      assert t.deliveries <= u.deliveries;
      if SomeConnectSucceeded(t) {
        var i :| 0 <= i < |t.deliveries|
          && t.deliveries[i].request.kind.Connect? && !t.deliveries[i].refused && t.deliveries[i].status == 0;
        assert u.deliveries[i] == t.deliveries[i];
      } else if u.connected {
        assert u.deliveries[|t.deliveries|].request.kind.Connect?;
      }
      ConnectedRun(u, ls[1..]);
    }
  }

  /** `isConnected` is never true without a connect having succeeded, nor just after a call of `close`. */
  lemma ConnectedNeedsConnect(ls: seq<Label>)
    requires Valid(CREATED, ls)
    ensures Run(CREATED, ls).connected ==> SomeConnectSucceeded(Run(CREATED, ls))
    ensures !AfterClose(Run(CREATED, ls)).connected
  {
    StartInv();
    ConnectedRun(CREATED, ls);
  }

  /** What libuv says about a request in one step, `n` requests having been made: a refusal or a completion. */
  function Report(n: nat, l: Label): seq<(nat, int)> {
    match l
    case DoSubmit(_, rc) => if rc != 0 then [(n, rc)] else []
    case DoComplete(id, status) => [(id, status)]
    case _ => []
  }

  /** ... and in a run, in order. */
  function Reports(n: nat, ls: seq<Label>): seq<(nat, int)>
    decreases ls
  {
    if ls == [] then []
    else Report(n, ls[0]) + Reports(if ls[0].DoSubmit? then n + 1 else n, ls[1..])
  }

  function Reported(ds: seq<Delivery>): seq<(nat, int)> {
    seq(|ds|, i requires 0 <= i < |ds| => (ds[i].id, ds[i].status))
  }

  lemma {:induction false} ReportsFrom(t: Tcp, ls: seq<Label>)
    requires Valid(t, ls)
    ensures Reported(Run(t, ls).deliveries) == Reported(t.deliveries) + Reports(|t.requests|, ls)
    decreases ls
  {
    if ls == [] {
      assert Reported(t.deliveries) + [] == Reported(t.deliveries);
    } else {
      var v := Step(t, ls[0]);
      ReportsFrom(v, ls[1..]);
      var one := Report(|t.requests|, ls[0]);
      assert Reported(v.deliveries) == Reported(t.deliveries) + one;
      Associative(Reported(t.deliveries), one, Reports(|v.requests|, ls[1..]));
    }
  }

  /** Callers are told exactly what libuv said, request by request and status by status, in its order. */
  lemma DeliveredAsReported(ls: seq<Label>)
    requires Valid(CREATED, ls)
    ensures Reported(Run(CREATED, ls).deliveries) == Reports(0, ls)
  {
    ReportsFrom(CREATED, ls);
    assert Reported([]) + Reports(0, ls) == Reports(0, ls);
  }

  /** The answer of `uv_tcp_init` in a run: that of the first call of `init`. */
  function InitAnswer(ls: seq<Label>): int {
    if ls == [] then -1 else if ls[0].DoInit? then ls[0].rc else InitAnswer(ls[1..])
  }

  lemma {:induction false} OpenedFrom(t: Tcp, ls: seq<Label>)
    requires Inv(t) && Valid(t, ls)
    ensures Run(t, ls).phase.Zeroed? <==> t.phase.Zeroed? && (t.inited || InitAnswer(ls) != 0)
    decreases ls
  {
    if ls != [] {
      StepInv(t, ls[0]);
      OpenedFrom(Step(t, ls[0]), ls[1..]);
    }
  }

  /** The handle comes to life, and takes its owner, exactly when the one `uv_tcp_init` succeeded. */
  lemma OpenedIff(ls: seq<Label>)
    requires Valid(CREATED, ls)
    ensures !Run(CREATED, ls).phase.Zeroed? <==> InitAnswer(ls) == 0
  {
    StartInv();
    OpenedFrom(CREATED, ls);
  }

  /** What the calls and completions of a run say about the connection, whoever looks only at them. */
  predicate LastSaysConnected(requests: seq<Request>, ls: seq<Label>, before: bool)
    decreases ls
  {
    if ls == [] then before
    else
      match ls[0]
      case DoSubmit(r, _) => LastSaysConnected(requests + [r], ls[1..], before)
      case DoComplete(id, status) =>
        LastSaysConnected(requests, ls[1..],
          if id < |requests| && requests[id].kind.Connect? && status == 0 then true
          else if id < |requests| && requests[id].kind.Shutdown? then false
          else before)
      case DoClose => LastSaysConnected(requests, ls[1..], false)
      case _ => LastSaysConnected(requests, ls[1..], before)
  }

  lemma {:induction false} ConnectedFrom(t: Tcp, ls: seq<Label>)
    requires Valid(t, ls)
    ensures Run(t, ls).connected <==> LastSaysConnected(t.requests, ls, t.connected)
    decreases ls
  {
    if ls != [] {
      ConnectedFrom(Step(t, ls[0]), ls[1..]);
    }
  }

  /**
   * `isConnected` holds exactly when the last of these events was the first: a connect completing without
   * an error; a shutdown completing; a call of `close`.
   */
  lemma ConnectedIff(ls: seq<Label>)
    requires Valid(CREATED, ls)
    ensures Run(CREATED, ls).connected <==> LastSaysConnected([], ls, false)
  {
    ConnectedFrom(CREATED, ls);
  }

  /** Every connect that completes on a handle that is no longer open completes with an error. */
  predicate CancelsFail(t: Tcp, ls: seq<Label>)
    requires Valid(t, ls)
    decreases ls
  {
    ls == [] || (
      && (ls[0].DoComplete? && t.requests[ls[0].id].kind.Connect? && !t.phase.Open? ==> ls[0].status != 0)
      && CancelsFail(Step(t, ls[0]), ls[1..]))
  }

  lemma {:induction false} ClosedRun(t: Tcp, ls: seq<Label>)
    requires Valid(t, ls) && CancelsFail(t, ls) && (!t.phase.Open? ==> !t.connected)
    ensures !Run(t, ls).phase.Open? ==> !Run(t, ls).connected
    decreases ls
  {
    if ls != [] {
      ClosedRun(Step(t, ls[0]), ls[1..]);
    }
  }

  /** If libuv fails the connects a close cancels, `isConnected` stays false from the close on. */
  lemma NotConnectedOnceClosed(ls: seq<Label>)
    requires Valid(CREATED, ls) && CancelsFail(CREATED, ls)
    ensures Run(CREATED, ls).connected ==> Run(CREATED, ls).phase.Open?
  {
    ClosedRun(CREATED, ls);
  }

  lemma StartInv()
    ensures Inv(CREATED)
  {
    forall id: nat ensures !Delivered(CREATED, id) && !RefusedWrite(CREATED, id) {}
  }

  lemma DeliveriesKnown(t: Tcp)
    requires DeliveredOnce(t)
    ensures forall i :: 0 <= i < |t.deliveries| ==>
              t.deliveries[i].id < |t.requests| && t.deliveries[i].request == t.requests[t.deliveries[i].id]
  {
    forall i | 0 <= i < |t.deliveries| ensures Routed(t, t.deliveries[i]) {}
  }

  lemma SubmitInv(t: Tcp, r: Request, rc: int)
    requires Inv(t) && Enabled(t, DoSubmit(r, rc))
    ensures Inv(Submit(t, r, rc))
  {
    var u := Submit(t, r, rc);
    var id := |t.requests|;
    DeliveriesKnown(t);
    assert !Delivered(t, id);
    assert id !in t.inflight;
    if rc != 0 {
      var d := Delivery(id, r, rc, true, RefusalRoute(r.callback));
      forall x: nat ensures (Delivered(u, x) <==> Delivered(t, x) || x == id)
                         && (RefusedWrite(u, x) <==> RefusedWrite(t, x) || (x == id && r.kind.Write?)) {
        DeliveriesSnoc(t, u, d, x);
      }
      assert id !in t.publishing;
    } else {
      forall x: nat ensures Delivered(u, x) == Delivered(t, x) && RefusedWrite(u, x) == RefusedWrite(t, x) {
        assert u.deliveries == t.deliveries;
      }
      assert !RefusedWrite(t, id);
    }
    forall i | 0 <= i < |u.deliveries| ensures Routed(u, u.deliveries[i]) {
      assert i < |t.deliveries| ==> Routed(t, t.deliveries[i]);
    }
  }

  lemma CompleteInv(t: Tcp, id: nat, status: int)
    requires Inv(t) && Enabled(t, DoComplete(id, status))
    ensures Inv(Complete(t, id, status))
  {
    var u := Complete(t, id, status);
    var r := t.requests[id];
    var d := Delivery(id, r, status, false, PublishRoute(r.callback, status));
    forall x: nat ensures (Delivered(u, x) <==> Delivered(t, x) || x == id)
                       && (RefusedWrite(u, x) <==> RefusedWrite(t, x)) {
      DeliveriesSnoc(t, u, d, x);
    }
    assert !RefusedWrite(t, id);
    forall i | 0 <= i < |u.deliveries| ensures Routed(u, u.deliveries[i]) {
      assert i < |t.deliveries| ==> Routed(t, t.deliveries[i]);
    }
  }

  lemma FinishInv(t: Tcp, id: nat)
    requires Inv(t) && id in t.publishing
    ensures Inv(Finish(t, id))
  {
    var u := Finish(t, id);
    forall x: nat ensures Delivered(u, x) == Delivered(t, x) && RefusedWrite(u, x) == RefusedWrite(t, x) {
      assert u.deliveries == t.deliveries;
    }
    forall i | 0 <= i < |u.deliveries| ensures Routed(u, u.deliveries[i]) {
      assert Routed(t, t.deliveries[i]);
    }
  }

  lemma HandleInv(t: Tcp, l: Label)
    requires Inv(t) && Enabled(t, l)
    requires !l.DoSubmit? && !l.DoComplete? && !l.DoFinish?
    ensures Inv(Step(t, l))
  {
    var u := Step(t, l);
    assert u.deliveries == t.deliveries && u.requests == t.requests;
    forall x: nat ensures Delivered(u, x) == Delivered(t, x) && RefusedWrite(u, x) == RefusedWrite(t, x) {}
    forall i | 0 <= i < |u.deliveries| ensures Routed(u, u.deliveries[i]) {
      assert Routed(t, t.deliveries[i]);
    }
  }

  lemma CloseInv(t: Tcp)
    requires Inv(t)
    ensures Inv(AfterClose(t))
  {
    var u := AfterClose(t);
    assert u.deliveries == t.deliveries && u.requests == t.requests;
    forall x: nat ensures Delivered(u, x) == Delivered(t, x) && RefusedWrite(u, x) == RefusedWrite(t, x) {}
    forall i | 0 <= i < |u.deliveries| ensures Routed(u, u.deliveries[i]) {
      assert Routed(t, t.deliveries[i]);
    }
  }

  lemma StepInv(t: Tcp, l: Label)
    requires Inv(t) && Enabled(t, l)
    ensures Inv(Step(t, l))
  {
    match l {
      case DoSubmit(r, rc) => SubmitInv(t, r, rc);
      case DoComplete(id, status) => CompleteInv(t, id, status);
      case DoFinish(id) => FinishInv(t, id);
      case _ => HandleInv(t, l);
    }
  }

  lemma {:induction false} RunInv(t: Tcp, ls: seq<Label>)
    requires Inv(t) && Valid(t, ls)
    ensures Inv(Run(t, ls))
    decreases ls
  {
    if ls != [] {
      StepInv(t, ls[0]);
      RunInv(Step(t, ls[0]), ls[1..]);
    }
  }

  /**
   * Exactly-once completion: in every reachable state a request is in flight with no delivery, or has
   * exactly one, routed by the callback it was made with and by its status alone.
   */
  lemma ExactlyOnce(ls: seq<Label>, id: nat)
    requires Valid(CREATED, ls) && id < |Run(CREATED, ls).requests|
    ensures var t := Run(CREATED, ls);
            && (id in t.inflight <==> !Delivered(t, id))
            && (forall i, j :: (0 <= i < |t.deliveries| && 0 <= j < |t.deliveries|
                                && t.deliveries[i].id == id && t.deliveries[j].id == id) ==> i == j)
            && (forall i :: 0 <= i < |t.deliveries| && t.deliveries[i].id == id ==>
                  && t.deliveries[i].route == PublishRoute(t.requests[id].callback, t.deliveries[i].status)
                  && (t.deliveries[i].route.ToCallback? <==> t.requests[id].callback)
                  && (t.deliveries[i].route.ToErrorEvent?
                      <==> !t.requests[id].callback && t.deliveries[i].status != 0))
  {
    RunInv(CREATED, ls);
    var t := Run(CREATED, ls);
    forall i | 0 <= i < |t.deliveries| ensures Routed(t, t.deliveries[i]) {}
  }

  /** For connect and shutdown, what is allocated is exactly what libuv or a running callback holds. */
  lemma ConnectRefsMatch(ls: seq<Label>, id: nat)
    requires Valid(CREATED, ls) && id < |Run(CREATED, ls).requests|
    requires !Run(CREATED, ls).requests[id].kind.Write?
    ensures var t := Run(CREATED, ls);
            && (id in t.live <==> id in t.inflight || id in t.publishing)
            && t.deletions[id] == (if id in t.live then 0 else 1)
  {
    RunInv(CREATED, ls);
    var t := Run(CREATED, ls);
    DeliveriesKnown(t);
    assert !RefusedWrite(t, id);
  }

  /**
   * No double delete, for any kind of request: a reference is deleted at most once, exactly when its
   * request is over and is not a refused write; and whatever is about to delete it finds it alive.
   */
  lemma NoDoubleDelete(ls: seq<Label>, id: nat)
    requires Valid(CREATED, ls)
    ensures var t := Run(CREATED, ls);
            && t.deletions[id] <= 1
            && (t.deletions[id] == 1 <==>
                  id < |t.requests| && id !in t.inflight && id !in t.publishing && !RefusedWrite(t, id))
            && (Enabled(t, DoFinish(id)) ==> id in t.live)
  {
    RunInv(CREATED, ls);
    assert DeletedOnce(Run(CREATED, ls)) && RefsAccounted(Run(CREATED, ls));
  }

  ghost predicate NoRefusedWrite(t: Tcp) {
    forall id: nat :: !RefusedWrite(t, id)
  }

  /**
   * The same for all requests holds if and only if libuv has refused no write, and once the close
   * callback has returned it is also what decides whether everything has been released.
   */
  lemma AllRefsMatchIff(ls: seq<Label>)
    requires Valid(CREATED, ls)
    ensures var t := Run(CREATED, ls);
            && (t.live == t.inflight + t.publishing <==> NoRefusedWrite(t))
            && (t.phase.Closed? ==> (t.live == {} && !t.owner <==> NoRefusedWrite(t)))
  {
    RunInv(CREATED, ls);
    var t := Run(CREATED, ls);
    if !NoRefusedWrite(t) {
      var id: nat :| RefusedWrite(t, id);
      assert id in t.live;
      assert Delivered(t, id) && id !in t.inflight && id !in t.publishing;
    } else {
      forall id: nat ensures id in t.live <==> id in t.inflight + t.publishing {
        assert !RefusedWrite(t, id);
      }
    }
  }

  lemma RunCons(t: Tcp, l: Label, rest: seq<Label>)
    requires Enabled(t, l) && Valid(Step(t, l), rest)
    ensures Valid(t, [l] + rest) && Run(t, [l] + rest) == Run(Step(t, l), rest)
  {
    assert ([l] + rest)[1..] == rest;
  }

  /** A write refused on an open handle: the reference outlives the whole run. */
  lemma RefusedWriteLeaks() returns (ls: seq<Label>)
    ensures Valid(CREATED, ls) && Run(CREATED, ls).phase.Closed? && Run(CREATED, ls).live == {0}
  {
    var t1 := Step(CREATED, DoInit(0));
    var t2 := Step(t1, DoSubmit(Request(Write, true), -9));
    var t3 := Step(t2, DoClose);
    var t4 := Step(t3, BeginCloseCallback);
    RunCons(t4, EndCloseCallback, []);
    ls := [EndCloseCallback] + [];
    RunCons(t3, BeginCloseCallback, ls);
    ls := [BeginCloseCallback] + ls;
    RunCons(t2, DoClose, ls);
    ls := [DoClose] + ls;
    RunCons(t1, DoSubmit(Request(Write, true), -9), ls);
    ls := [DoSubmit(Request(Write, true), -9)] + ls;
    RunCons(CREATED, DoInit(0), ls);
    ls := [DoInit(0)] + ls;
  }

  /**
   * Live owner: the handle's owner is set exactly while libuv owns the initialised handle, so whenever
   * libuv can call back into the socket; the uv handle is initialised at most once and closed at most once.
   */
  lemma LiveOwner(ls: seq<Label>, l: Label)
    requires Valid(CREATED, ls) && Enabled(Run(CREATED, ls), l)
    ensures l.StreamCallback? || l.BeginCloseCallback? || l.EndCloseCallback? || l.DoComplete? ==>
              Run(CREATED, ls).owner
    ensures var t := Run(CREATED, ls);
            t.owner <==> t.phase.Open? || t.phase.Closing? || t.phase.InCloseCallback?
    ensures Run(CREATED, ls).uvInits <= 1 && Run(CREATED, ls).uvCloses <= 1
    ensures Run(CREATED, ls).phase.Closed? ==> !Run(CREATED, ls).owner
  {
    RunInv(CREATED, ls);
  }

  /** The socket object; a user callback's own calls are separate steps of the runs above. */
  class TcpSocket {
    var inited: bool
    var phase: Phase
    var owner: bool
    var connected: bool
    var uvInits: nat
    var uvCloses: nat
    var requests: seq<Request>
    var inflight: set<nat>
    var publishing: set<nat>
    var live: set<nat>
    var deletions: multiset<nat>
    var deliveries: seq<Delivery>

    ghost function Model(): Tcp
      reads this
    {
      Tcp(inited, phase, owner, connected, uvInits, uvCloses,
          requests, inflight, publishing, live, deletions, deliveries)
    }

    constructor ()
      ensures Model() == CREATED
    {
      inited, phase, owner, connected, uvInits, uvCloses := false, Zeroed, false, false, 0, 0;
      requests, inflight, publishing, live, deletions, deliveries := [], {}, {}, {}, multiset{}, [];
    }

    /** `Handle::init` and `_init`; `rc` is what `uv_tcp_init` returns if it is called. */
    method Init(rc: int)
      modifies this
      ensures Model() == AfterInit(old(Model()), rc)
    {
      if !inited {
        uvInits := uvInits + 1;
        if rc == 0 {
          phase := Open;
          owner := true;
        }
        inited := true;
      }
    }

    method Delete(id: nat)
      modifies this`live, this`deletions
      ensures live == old(live) - {id} && deletions == old(deletions) + multiset{id}
    {
      live := live - {id};
      deletions := deletions + multiset{id};
    }

    method Deliver(id: nat, r: Request, status: int, refused: bool)
      modifies this`deliveries
      ensures deliveries == old(deliveries)
                + [Delivery(id, r, status, refused, PublishRoute(r.callback, status))]
    {
      var route;
      if r.callback {
        route := ToCallback;
      } else if status != 0 {
        route := ToErrorEvent;
      } else {
        route := ToOwnEvent;
      }
      deliveries := deliveries + [Delivery(id, r, status, refused, route)];
    }

    /** `UvCallbackRef::create`: a refused request is deleted, then reported. */
    method CreateRef(r: Request, rc: int)
      requires !r.kind.Write? && |requests| !in live
      modifies this
      ensures Model() == Submit(old(Model()), r, rc)
    {
      var id := |requests|;
      requests := requests + [r];
      live := live + {id};
      if rc != 0 {
        Delete(id);
        Deliver(id, r, rc, true);
        return;
      }
      inflight := inflight + {id};
    }

    /** `WriteRef::create` and `UvCallbackRef::reset`: a refused write is reported and not deleted. */
    method ResetRef(r: Request, rc: int) returns (accepted: bool)
      requires r.kind.Write?
      modifies this
      ensures Model() == Submit(old(Model()), r, rc)
      ensures accepted <==> rc == 0
    {
      var id := |requests|;
      requests := requests + [r];
      live := live + {id};
      if rc != 0 {
        Deliver(id, r, rc, true);
        return false;
      }
      inflight := inflight + {id};
      return true;
    }

    /** The connect, shutdown and write callbacks with `publishAndClose`. */
    method RequestCallback(id: nat, status: int)
      requires id < |requests| && id in inflight
      modifies this
      ensures Model() == Finish(Complete(old(Model()), id, status), id)
    {
      var r := requests[id];
      inflight := inflight - {id};
      match r.kind {
        case Connect => if status == 0 { connected := true; }
        case Shutdown => connected := false;
        case Write =>
      }
      publishing := publishing + {id};
      Deliver(id, r, status, false);
      publishing := publishing - {id};
      Delete(id);
    }

    method Close()
      requires phase != Zeroed
      modifies this
      ensures Model() == AfterClose(old(Model()))
    {
      connected := false;
      if phase == Open {
        phase := Closing;
        uvCloses := uvCloses + 1;
      }
    }
  }
}
