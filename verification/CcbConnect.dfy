/**
 * That the connection broker can do its work: from every state of clients, broker and listeners
 * there is a continuation that connects a new client with a new target.
 */
module CcbConnect {
  import opened Common
  import opened CcbReconnectFile
  import opened CcbServerSpec
  import opened CcbAnswers
  import opened CcbReverse
  import opened CcbProtocol
  import L = CcbListener

  lemma Prepend(n: Net, a: Action, rest: seq<Action>) returns (more: seq<Action>)
    requires CanDo(n, a) && CcbProtocol.Possible(Do(n, a), rest)
    ensures CcbProtocol.Possible(n, more) && CcbProtocol.Run(n, more) == CcbProtocol.Run(Do(n, a), rest)
  {
    more := [a] + rest;
    assert more[0] == a && more[1..] == rest;
  }

  /** The client with this connect id is attached, and its broker has told it so. */
  ghost predicate Connected(n: Net, sock: SockId, connectId: string, returnAddr: string)
  {
    && Answer(sock, true, connectId, returnAddr) in n.answers
    && exists h :: h in n.attached && h.connectId == connectId && h.returnAddr == returnAddr
  }

  // ---------------------------------------------------------------- the listener

  const GOOD := L.Attempt(true, false, true, L.RegistrationReply)

  /** A listener that registers, takes an order and carries it out has written the hello and the report. */
  function Registered(): L.State
  {
    L.Step(L.Created(), L.Register(true, GOOD))
  }

  lemma RegisteredListener()
    ensures L.Enabled(L.Created(), L.Register(true, GOOD))
    ensures var l := Registered(); l.sock.Connected? && l.refs == 1 && !l.waitingForConnect && l.reverse == NONE
  {
  }

  lemma TakesOrder(l: L.State, order: Order)
    requires l.sock.Connected? && l.refs == 1 && !l.waitingForConnect && l.reverse == NONE
    ensures var e := L.Arrived(L.Request(order, true, true), false);
            && L.Enabled(l, e) && L.Brings(e, order)
            && var m := L.Step(l, e);
               m.sock.Connected? && !m.waitingForConnect && m.reverse == Reverse([order], [order], [])
  {
    L.RescheduledPhases(l, false, false);
    RescheduledReverse(l);
    hide L.Rescheduled;
    assert Take(NONE, order, true, L.Sends(L.Rescheduled(l, false, false), true)) == Reverse([order], [order], []);
  }

  lemma RescheduledReverse(l: L.State)
    ensures L.Rescheduled(l, false, false).reverse == l.reverse
  {
  }

  lemma CarriesOut(l: L.State, order: Order)
    requires l.sock.Connected? && !l.waitingForConnect && l.reverse == Reverse([order], [order], [])
    ensures var e := L.ReverseConnected(0, true, true, true);
            L.Enabled(l, e) && L.Step(l, e).reverse.sent == [Hello(order), Report(order, true)]
  {
    L.ReversedWrites(l, 0, true, true, true);
    assert [] + [Hello(order)] + [Report(order, true)] == [Hello(order), Report(order, true)];
  }

  // ---------------------------------------------------------------- the last steps

  /** Once the order is written about, the client takes the connection and the broker hears of it. */
  lemma Delivers(n: Net, name: nat, sock: SockId, order: Order) returns (actions: seq<Action>)
    requires name in n.listeners && n.listeners[name].reverse.sent == [Hello(order), Report(order, true)]
    requires order.connectId in n.waiting && order.connectId in n.clients
    requires n.clients[order.connectId] == order.returnAddr
    requires order.ccbid in n.server.targets && order.requestId in n.server.requests
    requires n.server.requests[order.requestId] == Request(sock, order.ccbid, order.returnAddr, order.connectId)
    ensures CcbProtocol.Possible(n, actions)
    ensures Connected(CcbProtocol.Run(n, actions), sock, order.connectId, order.returnAddr)
  {
    var sent := n.listeners[name].reverse.sent;
    assert sent[0] == Hello(order) && sent[1] == Report(order, true);
    WroteBy(n.listeners, name, Hello(order));
    WroteBy(n.listeners, name, Report(order, true));
    hide Step, Wrote;
    var a := ClientAccepts(order);
    var n1 := Do(n, a);
    assert n1.attached[|n.attached|] == order;
    var e := TargetMessage(order.ccbid, Result(true, Some(order.requestId), order.connectId), false, false, false);
    assert Claimed(n1.listeners, order.requestId, order.connectId, true);
    ResultAnswered(n1.server, e);
    var reply := Reply(sock, true, order.connectId, order.returnAddr);
    assert Step(n1.server, e).outputs == [reply];
    assert reply in Step(n1.server, e).outputs;
    var b := Broker(e);
    assert CanDo(n1, b);
    assert Answer(sock, true, order.connectId, order.returnAddr) in Do(n1, b).answers;
    assert order in Do(n1, b).attached;
    actions := Prepend(n1, b, []);
    actions := Prepend(n, a, actions);
  }

  /** A listener that is new to the broker carries the order out. */
  lemma Serves(n: Net, name: nat, sock: SockId, order: Order) returns (actions: seq<Action>)
    requires name !in n.listeners && order in n.orders
    requires order.connectId in n.waiting && order.connectId in n.clients
    requires n.clients[order.connectId] == order.returnAddr
    requires order.ccbid in n.server.targets && order.requestId in n.server.requests
    requires n.server.requests[order.requestId] == Request(sock, order.ccbid, order.returnAddr, order.connectId)
    ensures CcbProtocol.Possible(n, actions)
    ensures Connected(CcbProtocol.Run(n, actions), sock, order.connectId, order.returnAddr)
  {
    hide L.Step, L.Enabled, Step;
    RegisteredListener();
    TakesOrder(Registered(), order);
    var take := L.Arrived(L.Request(order, true, true), false);
    CarriesOut(L.Step(Registered(), take), order);
    var a1, a2 := NewListener(name), Listener(name, L.Register(true, GOOD));
    var a3, a4 := Listener(name, take), Listener(name, L.ReverseConnected(0, true, true, true));
    var n1 := Do(n, a1);
    var n2 := Do(n1, a2);
    var n3 := Do(n2, a3);
    var n4 := Do(n3, a4);
    actions := Delivers(n4, name, sock, order);
    actions := Prepend(n3, a4, actions);
    actions := Prepend(n2, a3, actions);
    actions := Prepend(n1, a2, actions);
    actions := Prepend(n, a1, actions);
  }

  // ---------------------------------------------------------------- the first steps

  /** A client asks for a connected target. */
  lemma Asks(n: Net, name: nat, sock: SockId, ccbid: CcbId, connectId: string, returnAddr: string)
    returns (actions: seq<Action>)
    requires name !in n.listeners && connectId !in n.clients && ccbid in n.server.targets && |n.server.requests| < WORD
    ensures CcbProtocol.Possible(n, actions)
    ensures Connected(CcbProtocol.Run(n, actions), sock, connectId, returnAddr)
  {
    hide Step, Connected;
    var a1, a2 := NewClient(connectId, returnAddr), ClientAsks(sock, connectId, ccbid);
    var n1 := Do(n, a1);
    var n2 := Do(n1, a2);
    var m := RequestMsg(ccbid, returnAddr, connectId);
    var e := ClientRequest(sock, Some(m), true);
    RequestAnswered(n.server, e);
    var o := Step(n.server, e).outputs[0];
    RequestLives(n.server, e, o.requestId);
    StepKeepsTarget(n.server, e, ccbid);
    var a3 := Broker(e);
    assert AskOf(sock, m) in n2.asks;
    assert CanDo(n2, a3);
    var n3 := Do(n2, a3);
    var order := Order(o.sock, o.ccbid, o.requestId, o.returnAddr, o.connectId);
    assert o in Step(n.server, e).outputs && order in n3.orders;
    actions := Serves(n3, name, sock, order);
    actions := Prepend(n2, a3, actions);
    actions := Prepend(n1, a2, actions);
    actions := Prepend(n, a1, actions);
  }

  lemma StepKeepsTarget(s: Server, e: Event, k: CcbId)
    requires Enabled(s, e) && e.ClientRequest? && k in s.targets
    ensures k in Step(s, e).state.targets
  {
    RequestExpects(s, e.sock, e.request, e.forwarded, k);
  }

  /**
   * From every state, whatever has happened and as long as there are identifiers left, a new target can
   * register and a new client be connected with it: the client is attached and is told of it, over its own
   * connection.
   */
  lemma CanConnect(n: Net, name: nat, target: SockId, ip: PeerIp, cookie: CcbId, now: int,
        sock: SockId, connectId: string, returnAddr: string)
    requires name !in n.listeners && connectId !in n.clients
    requires |Taken(n.server)| < WORD && |n.server.requests| < WORD
    ensures exists actions :: CcbProtocol.Possible(n, actions)
              && Connected(CcbProtocol.Run(n, actions), sock, connectId, returnAddr)
  {
    hide Connected, Step;
    var e := Registration(target, ip, None, cookie, now, true);
    RegistrationAnswered(n.server, e);
    var id := Step(n.server, e).outputs[0].ccbid;
    RegistrationConnects(n.server, e, id);
    NoMoreRequests(n.server, e);
    var a := Broker(e);
    var n1 := Do(n, a);
    var actions := Asks(n1, name, sock, id, connectId, returnAddr);
    actions := Prepend(n, a, actions);
    assert CcbProtocol.Possible(n, actions)
        && Connected(CcbProtocol.Run(n, actions), sock, connectId, returnAddr);
  }

  lemma NoMoreRequests(s: Server, e: Event)
    requires Enabled(s, e) && e.Registration? && e.claim == None && e.replySent
    ensures Step(s, e).state.requests == s.requests
  {
    hide FreshId, FormatLine;
  }
}
