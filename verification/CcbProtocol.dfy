/**
 * Clients, the broker and the targets' listeners together.
 *
 * A client asks the broker for a target, the broker forwards the request over the
 * target's connection, the target's listener connects to the client and writes a hello
 * that carries the client's connect id, and then reports to the broker.  A listener goes
 * through its own states, so what it reports is what it did.  Everything
 * that was ever sent stays in the state, so any message may be delivered late, twice or
 * never, over whatever connections exist by then: connections break, targets reconnect
 * and the broker restarts in between.
 */
module CcbProtocol {
  import opened Common
  import opened CcbReconnectFile
  import opened CcbServerSpec
  import opened CcbAnswers
  import opened CcbReverse
  import L = CcbListener

  /** A client's request, as the client sent it over its connection to the broker. */
  datatype Ask = Ask(sock: SockId, ccbid: CcbId, returnAddr: string, connectId: string)

  /** A confirmed registration: whoever holds this connection is known under this identifier. */
  datatype Membership = Membership(sock: SockId, ccbid: CcbId)

  /** The broker told a client over this connection how its request turned out. */
  datatype Answer = Answer(sock: SockId, success: bool, connectId: string, returnAddr: string)

  datatype Net = Net(
    server: Server,
    clients: map<string, string>,  // connect id --> return address
    waiting: set<string>,          // connect ids that clients wait for
    asks: set<Ask>,
    members: set<Membership>,
    orders: set<Order>,
    listeners: map<nat, L.State>,
    unsent: set<Ask>,              // requests that the broker could not forward
    answers: set<Answer>,
    attached: seq<Order>)

  datatype Action =
    | NewClient(connectId: string, returnAddr: string)
    | ClientAsks(sock: SockId, connectId: string, ccbid: CcbId)
    | Broker(event: Event)
    | NewListener(name: nat)
    | Listener(name: nat, does: L.Event)
    | ClientAccepts(hello: Order)
    | ClientGivesUp(connectId: string)

  /** Some listener has written this. */
  ghost predicate Wrote(listeners: map<nat, L.State>, x: Sent)
  {
    exists name :: name in listeners && x in listeners[name].reverse.sent
  }

  /** Some listener has reported how the request with this identifier and connect id turned out. */
  ghost predicate Claimed(listeners: map<nat, L.State>, requestId: CcbId, connectId: string, success: bool)
  {
    exists order :: Wrote(listeners, Report(order, success)) && order.requestId == requestId
        && order.connectId == connectId
  }

  /** What the broker may read: requests that clients sent, results that listeners reported; anything else freely. */
  ghost predicate Deliverable(n: Net, e: Event)
  {
    match e
    case ClientRequest(sock, request, _) => request.Some? ==> AskOf(sock, request.value) in n.asks
    case TargetMessage(_, msg, _, _, _) =>
      msg.Result? && msg.requestId.Some? ==> Claimed(n.listeners, msg.requestId.value, msg.connectId, msg.success)
    case _ => true
  }

  function AskOf(sock: SockId, m: RequestMsg): Ask
  {
    Ask(sock, m.ccbid, m.returnAddr, m.connectId)
  }

  ghost predicate CanDo(n: Net, a: Action)
  {
    match a
    case NewClient(connectId, _) => connectId !in n.clients
    case ClientAsks(_, connectId, _) => connectId in n.clients
    case Broker(e) => Enabled(n.server, e) && Deliverable(n, e)
    case NewListener(name) => name !in n.listeners
    case Listener(name, e) =>
      && name in n.listeners && L.Enabled(n.listeners[name], e)
      && (forall order :: L.Brings(e, order) ==> order in n.orders)
    case ClientAccepts(hello) =>
      && Wrote(n.listeners, Hello(hello)) && hello.connectId in n.waiting
      && hello.connectId in n.clients && n.clients[hello.connectId] == hello.returnAddr
    case ClientGivesUp(connectId) => connectId in n.waiting
  }

  ghost function Do(n: Net, a: Action): Net
    requires CanDo(n, a)
  {
    match a
    case NewClient(connectId, returnAddr) =>
      n.(clients := n.clients[connectId := returnAddr], waiting := n.waiting + {connectId})
    case ClientAsks(sock, connectId, ccbid) =>
      n.(asks := n.asks + {Ask(sock, ccbid, n.clients[connectId], connectId)})
    case Broker(e) =>
      var r := Step(n.server, e);
      n.(server := r.state,
         orders := n.orders +
             (set o | o in r.outputs && o.Forward? :: Order(o.sock, o.ccbid, o.requestId, o.returnAddr, o.connectId)),
         members := n.members + (set o | o in r.outputs && o.Registered? :: Membership(o.sock, o.ccbid)),
         unsent := if e.ClientRequest? && e.request.Some? && !e.forwarded
                   then n.unsent + {AskOf(e.sock, e.request.value)} else n.unsent,
         answers := n.answers +
             (set o | o in r.outputs && o.Reply? :: Answer(o.sock, o.success, o.connectId, o.returnAddr)))
    case NewListener(name) => n.(listeners := n.listeners[name := L.Created()])
    case Listener(name, e) => n.(listeners := n.listeners[name := L.Step(n.listeners[name], e)])
    case ClientAccepts(hello) => n.(attached := n.attached + [hello], waiting := n.waiting - {hello.connectId})
    case ClientGivesUp(connectId) => n.(waiting := n.waiting - {connectId})
  }

  // ---------------------------------------------------------------- what every run keeps

  /** Every request that the broker holds was sent by a client. */
  ghost predicate LiveAsked(s: Server, asks: set<Ask>)
  {
    forall id :: id in s.requests ==>
      var r := s.requests[id]; Ask(r.sock, r.target, r.returnAddr, r.connectId) in asks
  }

  ghost predicate Asked(asks: set<Ask>, ccbid: CcbId, returnAddr: string, connectId: string)
  {
    exists sock :: Ask(sock, ccbid, returnAddr, connectId) in asks
  }

  /** Every connected target got its identifier confirmed over its connection. */
  ghost predicate ConnectedMembers(s: Server, members: set<Membership>)
  {
    forall k :: k in s.targets ==> Membership(s.targets[k].sock, k) in members
  }

  /** The order passes on a client's request to a connection that is known under the requested identifier. */
  ghost predicate Ordered(o: Order, asks: set<Ask>, members: set<Membership>)
  {
    Asked(asks, o.ccbid, o.returnAddr, o.connectId) && Membership(o.sock, o.ccbid) in members
  }

  /** A listener reports truthfully, and acts only on orders that were sent. */
  ghost predicate Faithful(r: Reverse, orders: set<Order>)
  {
    && Honest(r.sent)
    && (forall i :: 0 <= i < |r.pending| ==> r.pending[i] in orders)
    && (forall i :: 0 <= i < |r.sent| && r.sent[i].Hello? ==> r.sent[i].order in orders)
  }

  /** A listener has greeted the client at this address with this connect id. */
  ghost predicate Greeted(listeners: map<nat, L.State>, connectId: string, returnAddr: string)
  {
    exists h :: Wrote(listeners, Hello(h)) && h.connectId == connectId && h.returnAddr == returnAddr
  }

  /** A listener has reported that an order with this connect id failed. */
  ghost predicate ReportedFailed(listeners: map<nat, L.State>, connectId: string)
  {
    exists h :: Wrote(listeners, Report(h, false)) && h.connectId == connectId
  }

  /** Where the request came from, the answer goes. */
  ghost predicate Returned(c: Answer, asks: set<Ask>)
  {
    exists ccbid :: Ask(c.sock, ccbid, c.returnAddr, c.connectId) in asks
  }

  ghost predicate Unsent(c: Answer, unsent: set<Ask>)
  {
    exists ccbid :: Ask(c.sock, ccbid, c.returnAddr, c.connectId) in unsent
  }

  /**
   * A success has a hello behind it; a failure was reported, or the request could not be forwarded.
   */
  ghost predicate Truthful(c: Answer, listeners: map<nat, L.State>, unsent: set<Ask>)
  {
    if c.success then Greeted(listeners, c.connectId, c.returnAddr)
    else ReportedFailed(listeners, c.connectId) || Unsent(c, unsent)
  }

  ghost predicate Trace(n: Net)
  {
    && (forall a :: a in n.asks ==> a.connectId in n.clients && n.clients[a.connectId] == a.returnAddr)
    && LiveAsked(n.server, n.asks)
    && ConnectedMembers(n.server, n.members)
    && (forall o :: o in n.orders ==> Ordered(o, n.asks, n.members))
    && (forall name :: name in n.listeners ==> Faithful(n.listeners[name].reverse, n.orders))
    && (forall c :: c in n.answers ==> Returned(c, n.asks) && Truthful(c, n.listeners, n.unsent))
    && AttachedOnce(n)
  }

  /** Nobody is attached twice, or waits once attached, and only to a target that had the order. */
  ghost predicate AttachedOnce(n: Net)
  {
    && n.waiting <= n.clients.Keys
    && (forall i :: 0 <= i < |n.attached| ==> n.attached[i] in n.orders && n.attached[i].connectId in n.clients)
    && (forall i :: 0 <= i < |n.attached| ==> n.attached[i].connectId !in n.waiting)
    && (forall i, j :: 0 <= i < j < |n.attached| ==> n.attached[i].connectId != n.attached[j].connectId)
  }

  // ---------------------------------------------------------------- what one step of the broker shows

  /** `r` holds no request that `s` does not hold. */
  ghost predicate NoNewRequests(s: Server, r: Server)
  {
    forall id :: id in r.requests ==> id in s.requests && s.requests[id] == r.requests[id]
  }

  lemma RegistrationRequests(s: Server, sock: SockId, ip: PeerIp, claim: Option<ReconnectClaim>, freshCookie: CcbId,
        now: int, replySent: bool)
    requires |Taken(s)| < WORD
    ensures NoNewRequests(s, HandleRegistration(s, sock, ip, claim, freshCookie, now, replySent).state)
  {
    hide FreshId, FormatLine;
  }

  lemma MessageRequests(s: Server, ccbid: CcbId, msg: TargetMsg, clientGone: bool, goneAtReply: bool,
        heartbeatSent: bool)
    requires ccbid in s.targets
    ensures NoNewRequests(s, HandleTargetMessage(s, ccbid, msg, clientGone, goneAtReply, heartbeatSent).state)
  {
  }

  lemma AskRequests(s: Server, sock: SockId, msg: Option<RequestMsg>, forwarded: bool, id: CcbId)
    requires |s.requests| < WORD && id in HandleRequest(s, sock, msg, forwarded).state.requests
    ensures var r := HandleRequest(s, sock, msg, forwarded).state.requests[id];
            || (id in s.requests && s.requests[id] == r)
            || (msg == Some(RequestMsg(r.target, r.returnAddr, r.connectId)) && r.sock == sock)
  {
    hide FreshId;
  }

  /** After a step, every live request was live before or has just been received. */
  lemma StepRequests(s: Server, e: Event, id: CcbId)
    requires Enabled(s, e) && id in Step(s, e).state.requests
    ensures var r := Step(s, e).state.requests[id];
            || (id in s.requests && s.requests[id] == r)
            || (e.ClientRequest? && e.request == Some(RequestMsg(r.target, r.returnAddr, r.connectId))
                && r.sock == e.sock)
  {
    hide HandleRegistration, HandleRequest, HandleTargetMessage, Survivors, Rewritten, RecordsFrom, LoadedTable,
        LoadedNext;
    match e
    case Registration(sock, ip, claim, freshCookie, now, replySent) =>
      RegistrationRequests(s, sock, ip, claim, freshCookie, now, replySent);
    case ClientRequest(sock, msg, forwarded) => AskRequests(s, sock, msg, forwarded, id);
    case TargetMessage(ccbid, msg, clientGone, goneAtReply, heartbeatSent) =>
      MessageRequests(s, ccbid, msg, clientGone, goneAtReply, heartbeatSent);
    case _ =>
  }

  /** `r` has no target that `s` does not have over the same connection. */
  ghost predicate NoNewTargets(s: Server, r: Server)
  {
    forall k :: k in r.targets ==> k in s.targets && s.targets[k].sock == r.targets[k].sock
  }

  lemma RegistrationTargets(s: Server, sock: SockId, ip: PeerIp, claim: Option<ReconnectClaim>, freshCookie: CcbId,
        now: int, replySent: bool, k: CcbId)
    requires |Taken(s)| < WORD && k in HandleRegistration(s, sock, ip, claim, freshCookie, now, replySent).state.targets
    ensures var r := HandleRegistration(s, sock, ip, claim, freshCookie, now, replySent);
            || (k in s.targets && s.targets[k].sock == r.state.targets[k].sock)
            || (r.outputs != [] && r.outputs[0].Registered? && r.outputs[0].sock == r.state.targets[k].sock
                && r.outputs[0].ccbid == k)
  {
    hide FreshId, FormatLine;
  }

  lemma FinishTargets(s: Server, id: CcbId, success: bool)
    requires id in s.requests
    ensures NoNewTargets(s, Finish(s, id, success))
  {
  }

  lemma ExpectedTargets(s: Server, ccbid: CcbId)
    requires ccbid in s.targets
    ensures NoNewTargets(s, ExpectOneLess(s, ccbid)) && ccbid in ExpectOneLess(s, ccbid).targets
  {
  }

  lemma DroppedTargets(s: Server, ccbid: CcbId)
    requires ccbid in s.targets
    ensures NoNewTargets(s, WithoutTarget(s, ccbid))
  {
  }

  lemma ResultTargets(s: Server, ccbid: CcbId, success: bool, requestId: Option<CcbId>, connectId: string,
        clientGone: bool, goneAtReply: bool)
    requires ccbid in s.targets
    ensures NoNewTargets(s, HandleResult(s, ccbid, success, requestId, connectId, clientGone, goneAtReply).state)
  {
    hide Finish, WithoutTarget, ExpectOneLess;
    var s1 := ExpectOneLess(s, ccbid);
    ExpectedTargets(s, ccbid);
    DroppedTargets(s1, ccbid);
    if requestId.Some? && requestId.value in s1.requests {
      FinishTargets(s1, requestId.value, success);
    }
  }

  lemma MessageTargets(s: Server, ccbid: CcbId, msg: TargetMsg, clientGone: bool, goneAtReply: bool,
        heartbeatSent: bool)
    requires ccbid in s.targets
    ensures NoNewTargets(s, HandleTargetMessage(s, ccbid, msg, clientGone, goneAtReply, heartbeatSent).state)
  {
    hide HandleResult;
    if msg.Result? {
      ResultTargets(s, ccbid, msg.success, msg.requestId, msg.connectId, clientGone, goneAtReply);
    }
  }

  lemma AskTargets(s: Server, sock: SockId, msg: Option<RequestMsg>, forwarded: bool)
    requires |s.requests| < WORD
    ensures NoNewTargets(s, HandleRequest(s, sock, msg, forwarded).state)
  {
    hide FreshId;
  }

  /** After a step, every connected target was connected before or has just been confirmed. */
  lemma StepTargets(s: Server, e: Event, k: CcbId)
    requires Enabled(s, e) && k in Step(s, e).state.targets
    ensures var r := Step(s, e);
            || (k in s.targets && s.targets[k].sock == r.state.targets[k].sock)
            || (exists o :: o in r.outputs && o.Registered? && o.sock == r.state.targets[k].sock && o.ccbid == k)
  {
    hide HandleRegistration, HandleRequest, HandleTargetMessage, Swept, Started;
    match e
    case Registration(sock, ip, claim, freshCookie, now, replySent) =>
      RegistrationTargets(s, sock, ip, claim, freshCookie, now, replySent, k);
    case ClientRequest(sock, msg, forwarded) => AskTargets(s, sock, msg, forwarded);
    case TargetMessage(ccbid, msg, clientGone, goneAtReply, heartbeatSent) =>
      MessageTargets(s, ccbid, msg, clientGone, goneAtReply, heartbeatSent);
    case _ => OtherTargets(s, e);
  }

  lemma OtherTargets(s: Server, e: Event)
    requires Enabled(s, e) && !e.Registration? && !e.ClientRequest? && !e.TargetMessage?
    ensures NoNewTargets(s, Step(s, e).state)
  {
    hide Survivors, Rewritten, RecordsFrom, LoadedTable, LoadedNext;
  }

  /** The broker forwards a request only as it was received, over the connection of the target it names. */
  lemma StepForwards(s: Server, e: Event, o: Output)
    requires Enabled(s, e) && o in Step(s, e).outputs && o.Forward?
    ensures e.ClientRequest? && e.request == Some(RequestMsg(o.ccbid, o.returnAddr, o.connectId))
    ensures o.ccbid in s.targets && o.sock == s.targets[o.ccbid].sock
  {
    hide FreshId, FormatLine, Survivors, RecordsFrom, LoadedTable, LoadedNext, Rewritten;
  }

  /**
   * The broker answers a live request, over its connection, with the result that carries its connect id;
   * and a request that it cannot forward, over the connection that it came by, with a failure.
   */
  lemma StepReplies(s: Server, e: Event, o: Output)
    requires Enabled(s, e) && o in Step(s, e).outputs && o.Reply?
    ensures e.ClientRequest? || e.TargetMessage?
    ensures e.ClientRequest? ==>
              && e.request.Some? && !e.forwarded
              && o == Reply(e.sock, false, e.request.value.connectId, e.request.value.returnAddr)
    ensures e.TargetMessage? ==>
              && e.msg.Result? && e.msg.requestId.Some? && e.msg.requestId.value in s.requests
              && var r := s.requests[e.msg.requestId.value];
                 e.msg.connectId == r.connectId && o == Reply(r.sock, e.msg.success, r.connectId, r.returnAddr)
  {
    hide Step;
    if e.ClientRequest? {
      RequestAnswered(s, e);
    } else if e.TargetMessage? {
      ResultAnswered(s, e);
    } else {
      OthersDoNotReply(s, e);
    }
  }

  lemma OthersDoNotReply(s: Server, e: Event)
    requires Enabled(s, e) && !e.ClientRequest? && !e.TargetMessage?
    ensures forall o :: o in Step(s, e).outputs ==> !o.Reply?
  {
    hide FreshId, FormatLine, Survivors, RecordsFrom, LoadedTable, LoadedNext, Rewritten;
  }

  // ---------------------------------------------------------------- every run

  lemma BrokerLive(n: Net, e: Event)
    requires Trace(n) && Enabled(n.server, e) && Deliverable(n, e)
    ensures LiveAsked(Step(n.server, e).state, n.asks)
  {
    hide Step;
    forall id | id in Step(n.server, e).state.requests
      ensures var r := Step(n.server, e).state.requests[id]; Ask(r.sock, r.target, r.returnAddr, r.connectId) in n.asks
    {
      StepRequests(n.server, e, id);
    }
  }

  lemma BrokerMembers(n: Net, e: Event)
    requires Trace(n) && Enabled(n.server, e) && Deliverable(n, e)
    ensures var n' := Do(n, Broker(e)); ConnectedMembers(n'.server, n'.members)
  {
    hide Step;
    var n' := Do(n, Broker(e));
    forall k | k in n'.server.targets
      ensures Membership(n'.server.targets[k].sock, k) in n'.members
    {
      StepTargets(n.server, e, k);
    }
  }

  lemma BrokerOrders(n: Net, e: Event, o: Order)
    requires Trace(n) && Enabled(n.server, e) && Deliverable(n, e) && o in Do(n, Broker(e)).orders
    ensures Ordered(o, n.asks, n.members)
  {
    hide Step;
    if o !in n.orders {
      var f :| f in Step(n.server, e).outputs && f.Forward?
          && o == Order(f.sock, f.ccbid, f.requestId, f.returnAddr, f.connectId);
      StepForwards(n.server, e, f);
    }
  }

  /**
   * The heart of the protocol: an answer goes back over the connection that its request came by; a
   * success means that a listener has already presented the connect id at that request's own address.
   */
  lemma BrokerAnswers(n: Net, e: Event, c: Answer)
    requires Trace(n) && Enabled(n.server, e) && Deliverable(n, e) && c in Do(n, Broker(e)).answers
    ensures Returned(c, n.asks) && Truthful(c, n.listeners, Do(n, Broker(e)).unsent)
  {
    hide Step, LiveAsked, ConnectedMembers, AttachedOnce, Greeted, ReportedFailed, Unsent, Wrote;
    if c in n.answers {
      assert Returned(c, n.asks) && Truthful(c, n.listeners, n.unsent);
      UnsentStays(c, n.unsent, Do(n, Broker(e)).unsent);
    } else {
      var o :| o in Step(n.server, e).outputs && o.Reply?
          && c == Answer(o.sock, o.success, o.connectId, o.returnAddr);
      StepReplies(n.server, e, o);
      if e.ClientRequest? {
        NotForwarded(n, e, c);
      } else {
        ResultReturned(n, e.msg.requestId.value);
        ResultIsTrue(n, e.msg.requestId.value, e.msg.success);
      }
    }
  }

  lemma UnsentStays(c: Answer, unsent: set<Ask>, more: set<Ask>)
    requires unsent <= more
    ensures Unsent(c, unsent) ==> Unsent(c, more)
  {
    if Unsent(c, unsent) {
      var ccbid :| Ask(c.sock, ccbid, c.returnAddr, c.connectId) in unsent;
      assert Ask(c.sock, ccbid, c.returnAddr, c.connectId) in more;
    }
  }

  lemma NotForwarded(n: Net, e: Event, c: Answer)
    requires Enabled(n.server, e) && Deliverable(n, e) && e.ClientRequest? && e.request.Some? && !e.forwarded
    requires c == Answer(e.sock, false, e.request.value.connectId, e.request.value.returnAddr)
    ensures Returned(c, n.asks) && Unsent(c, Do(n, Broker(e)).unsent)
  {
    hide Step;
    var a := AskOf(e.sock, e.request.value);
    assert a == Ask(c.sock, e.request.value.ccbid, c.returnAddr, c.connectId);
    assert a in n.asks && a in Do(n, Broker(e)).unsent;
  }

  lemma ResultReturned(n: Net, id: CcbId)
    requires LiveAsked(n.server, n.asks) && id in n.server.requests
    ensures var r := n.server.requests[id];
            forall success :: Returned(Answer(r.sock, success, r.connectId, r.returnAddr), n.asks)
  {
    var r := n.server.requests[id];
    assert Ask(r.sock, r.target, r.returnAddr, r.connectId) in n.asks;
  }

  lemma ResultIsTrue(n: Net, id: CcbId, success: bool)
    requires Trace(n) && id in n.server.requests
    requires Claimed(n.listeners, id, n.server.requests[id].connectId, success)
    ensures var r := n.server.requests[id];
            if success then Greeted(n.listeners, r.connectId, r.returnAddr)
            else ReportedFailed(n.listeners, r.connectId)
  {
    hide Wrote, ConnectedMembers, AttachedOnce, Faithful, Truthful, Returned, LiveAsked;
    var r := n.server.requests[id];
    var h :| Wrote(n.listeners, Report(h, success)) && h.requestId == id && h.connectId == r.connectId;
    if success {
      HelloFirst(n, h);
      LiveAddress(n, id);
      var sock :| Ask(sock, h.ccbid, h.returnAddr, h.connectId) in n.asks;
      assert n.clients[h.connectId] == h.returnAddr;
    }
  }

  lemma LiveAddress(n: Net, id: CcbId)
    requires Trace(n) && id in n.server.requests
    ensures var r := n.server.requests[id]; r.connectId in n.clients && n.clients[r.connectId] == r.returnAddr
  {
    hide ConnectedMembers, Faithful, Truthful, Returned, AttachedOnce, Ordered;
    var r := n.server.requests[id];
    assert Ask(r.sock, r.target, r.returnAddr, r.connectId) in n.asks;
  }

  /** Behind every success that was reported stands a hello, and an order. */
  lemma HelloFirst(n: Net, h: Order)
    requires Trace(n) && Wrote(n.listeners, Report(h, true))
    ensures Wrote(n.listeners, Hello(h)) && Ordered(h, n.asks, n.members)
  {
    hide LiveAsked, ConnectedMembers, Truthful, Returned, AttachedOnce, Ordered;
    var name :| name in n.listeners && Report(h, true) in n.listeners[name].reverse.sent;
    var sent := n.listeners[name].reverse.sent;
    var i :| 0 <= i < |sent| && sent[i] == Report(h, true);
    assert sent[i - 1] == Hello(h);
    assert sent[i - 1].order in n.orders;
  }

  lemma BrokerKeeps(n: Net, e: Event)
    requires Trace(n) && Enabled(n.server, e) && Deliverable(n, e)
    ensures Trace(Do(n, Broker(e)))
  {
    hide Step, LiveAsked, ConnectedMembers, Truthful, Returned;
    var n' := Do(n, Broker(e));
    BrokerLive(n, e);
    BrokerMembers(n, e);
    forall o | o in n'.orders
      ensures Ordered(o, n'.asks, n'.members)
    {
      BrokerOrders(n, e, o);
    }
    forall c | c in n'.answers
      ensures Returned(c, n'.asks) && Truthful(c, n'.listeners, n'.unsent)
    {
      BrokerAnswers(n, e, c);
    }
  }

  /** Nothing that was written is taken back. */
  lemma StepWrites(l: L.State, e: L.Event, x: Sent)
    requires x in l.reverse.sent
    ensures x in L.Step(l, e).reverse.sent
  {
    hide L.Step;
    L.StepFollows(l, e);
  }

  lemma StepFaithful(l: L.State, e: L.Event, orders: set<Order>)
    requires Faithful(l.reverse, orders)
    requires forall order :: L.Brings(e, order) ==> order in orders
    ensures Faithful(L.Step(l, e).reverse, orders)
  {
    hide L.Step;
    L.StepFollows(l, e);
  }

  lemma ListenerWrites(n: Net, name: nat, e: L.Event, x: Sent)
    requires name in n.listeners && Wrote(n.listeners, x)
    ensures Wrote(n.listeners[name := L.Step(n.listeners[name], e)], x)
  {
    hide L.Step;
    var writer :| writer in n.listeners && x in n.listeners[writer].reverse.sent;
    if writer == name {
      StepWrites(n.listeners[name], e, x);
    }
    WroteBy(n.listeners[name := L.Step(n.listeners[name], e)], writer, x);
  }

  lemma WroteBy(listeners: map<nat, L.State>, name: nat, x: Sent)
    requires name in listeners && x in listeners[name].reverse.sent
    ensures Wrote(listeners, x)
  {
  }

  lemma ListenerKeeps(n: Net, name: nat, e: L.Event)
    requires Trace(n) && CanDo(n, Listener(name, e))
    ensures Trace(Do(n, Listener(name, e)))
  {
    hide L.Step, LiveAsked, ConnectedMembers, Ordered, Faithful, Wrote, Returned, Truthful;
    var n' := Do(n, Listener(name, e));
    StepFaithful(n.listeners[name], e, n.orders);
    forall x | Wrote(n.listeners, x)
      ensures Wrote(n'.listeners, x)
    {
      ListenerWrites(n, name, e, x);
    }
    forall c | c in n'.answers
      ensures Truthful(c, n'.listeners, n'.unsent)
    {
      StaysTrue(c, n.listeners, n'.listeners, n.unsent);
    }
  }

  /** What was written stays written, so what was true stays true. */
  lemma StaysTrue(c: Answer, before: map<nat, L.State>, after: map<nat, L.State>, unsent: set<Ask>)
    requires Truthful(c, before, unsent) && forall x :: Wrote(before, x) ==> Wrote(after, x)
    ensures Truthful(c, after, unsent)
  {
    hide Wrote;
    if c.success {
      var h :| Wrote(before, Hello(h)) && h.connectId == c.connectId && h.returnAddr == c.returnAddr;
      assert Wrote(after, Hello(h));
    } else if ReportedFailed(before, c.connectId) {
      var h :| Wrote(before, Report(h, false)) && h.connectId == c.connectId;
      assert Wrote(after, Report(h, false));
    }
  }

  lemma ActionKeeps(n: Net, a: Action)
    requires Trace(n) && CanDo(n, a)
    ensures Trace(Do(n, a))
  {
    hide LiveAsked, ConnectedMembers, Truthful, Returned, Ordered, Step;
    match a
    case Broker(e) => BrokerKeeps(n, e);
    case Listener(name, e) => ListenerKeeps(n, name, e);
    case NewListener(name) => NewKeeps(n, name);
    case ClientAsks(sock, connectId, ccbid) => AskKeeps(n, Ask(sock, ccbid, n.clients[connectId], connectId));
    case NewClient(_, _) =>
    case ClientAccepts(hello) => AcceptKeeps(n, hello);
    case ClientGivesUp(_) =>
  }

  lemma StillWrote(listeners: map<nat, L.State>, name: nat, x: Sent)
    requires name !in listeners && Wrote(listeners, x)
    ensures Wrote(listeners[name := L.Created()], x)
  {
    var writer :| writer in listeners && x in listeners[writer].reverse.sent;
    WroteBy(listeners[name := L.Created()], writer, x);
  }

  lemma NewKeeps(n: Net, name: nat)
    requires Trace(n) && name !in n.listeners
    ensures Trace(Do(n, NewListener(name)))
  {
    hide LiveAsked, ConnectedMembers, Ordered, Wrote, Returned, Truthful;
    var n' := Do(n, NewListener(name));
    forall x | Wrote(n.listeners, x)
      ensures Wrote(n'.listeners, x)
    {
      StillWrote(n.listeners, name, x);
    }
    forall c | c in n'.answers
      ensures Truthful(c, n'.listeners, n'.unsent)
    {
      StaysTrue(c, n.listeners, n'.listeners, n.unsent);
    }
  }

  lemma AcceptKeeps(n: Net, hello: Order)
    requires Trace(n) && CanDo(n, ClientAccepts(hello))
    ensures Trace(Do(n, ClientAccepts(hello)))
  {
    hide LiveAsked, ConnectedMembers, Truthful, Returned, Ordered;
    var name :| name in n.listeners && Hello(hello) in n.listeners[name].reverse.sent;
    assert Faithful(n.listeners[name].reverse, n.orders);
  }

  lemma AskKeeps(n: Net, a: Ask)
    requires Trace(n) && a.connectId in n.clients && n.clients[a.connectId] == a.returnAddr
    ensures Trace(n.(asks := n.asks + {a}))
  {
    hide Truthful, Faithful, ConnectedMembers;
    var more := n.asks + {a};
    forall o | o in n.orders
      ensures Ordered(o, more, n.members)
    {
      assert Ordered(o, n.asks, n.members);
      var sock :| Ask(sock, o.ccbid, o.returnAddr, o.connectId) in n.asks;
      assert Ask(sock, o.ccbid, o.returnAddr, o.connectId) in more;
    }
    forall c | c in n.answers
      ensures Returned(c, more)
    {
      assert Returned(c, n.asks);
      var ccbid :| Ask(c.sock, ccbid, c.returnAddr, c.connectId) in n.asks;
      assert Ask(c.sock, ccbid, c.returnAddr, c.connectId) in more;
    }
  }

  /** The actions can happen one after the other. */
  ghost predicate Possible(n: Net, actions: seq<Action>)
    decreases |actions|
  {
    actions == [] || (CanDo(n, actions[0]) && Possible(Do(n, actions[0]), actions[1..]))
  }

  ghost function Run(n: Net, actions: seq<Action>): Net
    requires Possible(n, actions)
    decreases |actions|
  {
    if actions == [] then n else Run(Do(n, actions[0]), actions[1..])
  }

  /** A broker that finds any reconnect file at all, and nobody else yet. */
  ghost function Initial(file: string, now: int, interval: int, anyIp: bool): Net
  {
    Net(Started(file, file != "", now, interval, anyIp), map[], {}, {}, {}, {}, map[], {}, {}, [])
  }

  lemma {:induction false} RunKeeps(n: Net, actions: seq<Action>)
    requires Trace(n) && Possible(n, actions)
    ensures Trace(Run(n, actions))
    decreases |actions|
  {
    if actions != [] {
      ActionKeeps(n, actions[0]);
      RunKeeps(Do(n, actions[0]), actions[1..]);
    }
  }

  /**
   * In every run, if the broker has answered over some connection, a client had asked over that very
   * connection with that connect id and return address.  If the answer is a success, some listener has
   * written a hello with the connect id to the address; if it is a failure, some listener has reported
   * one for that connect id, or the broker could not forward the request.
   */
  lemma AnswersReturn(file: string, now: int, interval: int, anyIp: bool, actions: seq<Action>, c: Answer)
    requires Possible(Initial(file, now, interval, anyIp), actions)
    ensures var n := Run(Initial(file, now, interval, anyIp), actions);
            c in n.answers ==>
              && (exists ccbid :: Ask(c.sock, ccbid, c.returnAddr, c.connectId) in n.asks)
              && (c.success ==>
                  exists h ::
                    Wrote(n.listeners, Hello(h)) && h.connectId == c.connectId && h.returnAddr == c.returnAddr)
              && (!c.success ==> ReportedFailed(n.listeners, c.connectId) || Unsent(c, n.unsent))
  {
    var n := Initial(file, now, interval, anyIp);
    RunKeeps(n, actions);
    hide Possible, Run, Initial, Wrote;
    assert c in Run(n, actions).answers ==> Returned(c, Run(n, actions).asks);
  }

  /**
   * In every run, a client's socket is only ever attached to a listener whose connection
   * the broker knew under an identifier for which this very client had asked.
   */
  lemma AttachedWasAskedFor(file: string, now: int, interval: int, anyIp: bool, actions: seq<Action>, h: Order)
    requires Possible(Initial(file, now, interval, anyIp), actions)
    ensures var n := Run(Initial(file, now, interval, anyIp), actions);
            h in n.attached ==>
              && h.connectId in n.clients
              && (exists sock :: Ask(sock, h.ccbid, n.clients[h.connectId], h.connectId) in n.asks)
              && Membership(h.sock, h.ccbid) in n.members
  {
    var n := Initial(file, now, interval, anyIp);
    RunKeeps(n, actions);
    assert h in Run(n, actions).attached ==> Ordered(h, Run(n, actions).asks, Run(n, actions).members);
  }

  /** In every run, at most one listener is ever attached to a client: a second hello finds nobody waiting. */
  lemma AttachedAtMostOnce(
      file: string, now: int, interval: int, anyIp: bool, actions: seq<Action>, i: nat, j: nat)
    requires Possible(Initial(file, now, interval, anyIp), actions)
    requires i < j < |Run(Initial(file, now, interval, anyIp), actions).attached|
    ensures var n := Run(Initial(file, now, interval, anyIp), actions);
            n.attached[i].connectId != n.attached[j].connectId
  {
    RunKeeps(Initial(file, now, interval, anyIp), actions);
  }

  /** The client is known, and does not wait. */
  ghost predicate Settled(n: Net, connectId: string)
  {
    connectId in n.clients && connectId !in n.waiting
  }

  /** How often clients with this connect id were attached. */
  ghost function Attachments(attached: seq<Order>, connectId: string): nat
  {
    if attached == [] then 0
    else Attachments(attached[..|attached| - 1], connectId)
         + if attached[|attached| - 1].connectId == connectId then 1 else 0
  }

  lemma ActionSettled(n: Net, a: Action, connectId: string)
    requires Settled(n, connectId) && CanDo(n, a)
    ensures Settled(Do(n, a), connectId)
    ensures Attachments(Do(n, a).attached, connectId) == Attachments(n.attached, connectId)
  {
    hide Step, Enabled, Deliverable, Wrote, L.Step, L.Enabled;
    if a.ClientAccepts? {
      assert Do(n, a).attached[..|n.attached|] == n.attached;
    }
  }

  /** A client that gave up, or is attached, is not attached again, whatever happens. */
  lemma {:induction false} SettledStays(n: Net, actions: seq<Action>, connectId: string)
    requires Settled(n, connectId) && Possible(n, actions)
    ensures Attachments(Run(n, actions).attached, connectId) == Attachments(n.attached, connectId)
    decreases |actions|
  {
    hide CanDo, Do, Settled;
    if actions != [] {
      ActionSettled(n, actions[0], connectId);
      SettledStays(Do(n, actions[0]), actions[1..], connectId);
    }
  }

  lemma LeavingSettles(n: Net, a: Action)
    requires n.waiting <= n.clients.Keys && CanDo(n, a)
    ensures a.ClientGivesUp? ==> Settled(Do(n, a), a.connectId)
    ensures a.ClientAccepts? ==> Settled(Do(n, a), a.hello.connectId)
  {
    hide Step, Enabled, Deliverable, Wrote, L.Step, L.Enabled;
  }
}
