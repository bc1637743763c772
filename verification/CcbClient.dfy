/**
 * A client's non-blocking reverse connect: the callbacks of one CCBClient, its entry in
 * the table of waiting clients, its deadline timer and its reference count.
 */
module CcbClient {
  // ---------------------------------------------------------------- specification

  /** One client.  `contacts` is how many brokers it may ask. */
  datatype State = State(
    contacts: nat,
    asked: nat,              // brokers asked so far
    targetSock: bool,        // the client still refers to its target socket
    reverseConnecting: bool, // the target socket is in the reverse-connecting state
    connected: bool,         // the target socket got a connection
    waiting: bool,           // the client is in the table of waiting clients
    deadline: bool,          // the deadline timer is armed
    pendingCb: bool,         // the client refers to a callback object
    liveCb: bool,            // a result callback will still be delivered
    refs: int,               // references: the socket's, the table's and the callback's
    exits: nat,              // how often the socket has left the reverse-connecting state
    incs: nat, decs: nat)    // explicit incRefCount and decRefCount calls

  datatype Event =
    | ResultFailed      // no answer from the broker, or a refusal
    | ResultSucceeded
    | ReverseConnected  // a hello with this client's connect id arrives
    | TimedOut          // the deadline timer fires
    | Cancelled         // the target socket is closed

  /** A client that its target socket has just created. */
  function Created(contacts: nat): State
  {
    State(contacts, 0, true, false, false, false, false, false, false, 1, 0, 0, 0)
  }

  /** Every stage of the final callback: leave the state, drop the callback, leave the table. */
  function Finished(c: State, connected: bool): State
  {
    c.(targetSock := false, reverseConnecting := false, connected := connected, waiting := false, deadline := false,
       liveCb := false, exits := c.exits + 1,
       refs := c.refs - 2 - (if c.pendingCb then 1 else 0),
       decs := c.decs + (if c.pendingCb then 1 else 0))
  }

  /** The client is in the table, its deadline is armed, and it asks the next broker. */
  function Asking(c: State): State
  {
    c.(waiting := true, deadline := true, asked := c.asked + 1, pendingCb := true, liveCb := true,
       refs := c.refs + 1, incs := c.incs + 1)
  }

  function Start(c: State): State
  {
    var c1 := c.(reverseConnecting := true, waiting := true, deadline := true, refs := c.refs + 1);
    if c1.asked < c1.contacts then Asking(c1) else Finished(c1, false)
  }

  function Step(c: State, e: Event): State
  {
    match e
    case ResultFailed =>
      var c1 := c.(pendingCb := false, liveCb := false);
      var c2 := if c1.asked < c1.contacts then Asking(c1) else Finished(c1, false);
      c2.(refs := c2.refs - 1, decs := c2.decs + 1)
    case ResultSucceeded => c.(pendingCb := false, liveCb := false, refs := c.refs - 1, decs := c.decs + 1)
    case ReverseConnected => Finished(c, true)
    case TimedOut => Finished(c, false)
    case Cancelled => Finished(c, false)
  }

  /** Which callbacks can be delivered. */
  predicate Enabled(c: State, e: Event)
  {
    match e
    case ResultFailed => c.liveCb
    case ResultSucceeded => c.liveCb
    case ReverseConnected => c.waiting
    case TimedOut => c.deadline
    case Cancelled => c.reverseConnecting
  }

  predicate Possible(c: State, es: seq<Event>)
    decreases |es|
  {
    es == [] || (Enabled(c, es[0]) && Possible(Step(c, es[0]), es[1..]))
  }

  function Run(c: State, es: seq<Event>): State
    requires Possible(c, es)
    decreases |es|
  {
    if es == [] then c else Run(Step(c, es[0]), es[1..])
  }

  /** The connect is under way: the client is findable, its deadline is armed, and nothing has left yet. */
  ghost predicate Unfinished(c: State)
  {
    && c.targetSock && c.reverseConnecting && !c.connected && c.waiting && c.deadline
    && (c.liveCb <==> c.pendingCb)
    && c.refs == 2 + (if c.liveCb then 1 else 0)
    && c.incs == c.decs + (if c.liveCb then 1 else 0)
    && c.exits == 0 && c.asked <= c.contacts
  }

  /** The connect is over: the socket has left its state once, and nothing refers to the client any more. */
  ghost predicate Over(c: State)
  {
    && !c.targetSock && !c.reverseConnecting && !c.waiting && !c.deadline && !c.liveCb
    && c.refs == 0 && c.incs == c.decs
    && c.exits == 1 && c.asked <= c.contacts
  }

  /** Before it starts, a client has no connection and no callback, and none can be delivered to it. */
  lemma NothingBefore(contacts: nat, e: Event)
    ensures var c := Created(contacts);
            !Enabled(c, e) && !c.connected && !c.pendingCb && c.asked == 0 && c.exits == 0 && c.incs == c.decs
  {
  }

  lemma StartSettles(contacts: nat)
    ensures var c := Start(Created(contacts)); if contacts > 0 then Unfinished(c) else Over(c) && !c.connected
  {
  }

  /** The client is counted and findable, or not, as the next attempt left it. */
  lemma TriedAgain(c: State)
    requires c.refs == 3 && !c.pendingCb
    ensures Asking(c).refs == 4 && Asking(c).waiting && Finished(c, false).refs == 1 && !Finished(c, false).waiting
  {
  }

  lemma StepSettles(c: State, e: Event)
    requires Unfinished(c) && Enabled(c, e)
    ensures Unfinished(Step(c, e)) || Over(Step(c, e))
    ensures Over(Step(c, e)) <==> !e.ResultSucceeded? && !(e.ResultFailed? && c.asked < c.contacts)
    ensures Step(c, e).connected <==> e.ReverseConnected?
  {
  }

  lemma {:induction false} RunSettles(c: State, es: seq<Event>)
    requires (Unfinished(c) || Over(c)) && Possible(c, es)
    ensures Unfinished(Run(c, es)) || Over(Run(c, es))
    ensures Run(c, es).contacts == c.contacts
    ensures Over(c) ==> es == []
    decreases |es|
  {
    if es != [] {
      assert Unfinished(c);
      StepSettles(c, es[0]);
      RunSettles(Step(c, es[0]), es[1..]);
    }
  }

  /**
   * Whatever callbacks arrive, in whatever order: the client is either unfinished, and then
   * it waits with an armed deadline, or over, and then its socket left the reverse-connecting
   * state exactly once, nothing refers to it, and every incRefCount met one decRefCount.
   */
  lemma CompletesOnce(contacts: nat, es: seq<Event>)
    requires Possible(Start(Created(contacts)), es)
    ensures var c := Run(Start(Created(contacts)), es); Unfinished(c) || Over(c)
  {
    StartSettles(contacts);
    RunSettles(Start(Created(contacts)), es);
  }

  /** As long as the connect is under way a hello, the deadline and a cancellation can each end it. */
  lemma UnfinishedCanEnd(c: State, e: Event)
    requires Unfinished(c)
    ensures Enabled(c, e) <==> e in {ReverseConnected, TimedOut, Cancelled} || c.liveCb
    ensures e in {ReverseConnected, TimedOut, Cancelled} ==> Over(Step(c, e))
  {
  }

  /** How many more callbacks can be delivered, the final one included. */
  function Budget(c: State): int
  {
    if !c.waiting then 0 else c.contacts - c.asked + 1 + (if c.liveCb then 1 else 0)
  }

  lemma {:induction false} RunIsBounded(c: State, es: seq<Event>)
    requires (Unfinished(c) || Over(c)) && Possible(c, es)
    ensures |es| <= Budget(c)
    decreases |es|
  {
    if es != [] {
      RunSettles(c, es);
      StepSettles(c, es[0]);
      RunIsBounded(Step(c, es[0]), es[1..]);
    }
  }

  /** A reverse connect over n brokers asks each at most once and sees at most n + 1 callbacks. */
  lemma AtMostOneRequestEach(contacts: nat, es: seq<Event>)
    requires Possible(Start(Created(contacts)), es)
    ensures Run(Start(Created(contacts)), es).asked <= contacts
    ensures |es| <= contacts + 1
  {
    StartSettles(contacts);
    RunSettles(Start(Created(contacts)), es);
    RunIsBounded(Start(Created(contacts)), es);
  }

  // ---------------------------------------------------------------- the objects

  /** The clients that wait for a reverse connect, by connect id. */
  class WaitingTable {
    var clients: map<string, CcbClient>

    constructor ()
      ensures clients == map[]
    {
      clients := map[];
    }

    /** Every entry is an unfinished client under its own connect id. */
    ghost predicate Valid()
      reads this, clients.Values
    {
      forall id :: id in clients ==> clients[id].connectId == id && clients[id].Live(this)
    }

    /** Directs a hello to the client that waits for it; false if there is none. */
    method ReverseConnectCommandHandler(connectId: string) returns (kept: bool)
      requires Valid()
      modifies this, if connectId in clients then {clients[connectId]} else {}
      ensures Valid()
      ensures kept <==> connectId in old(clients)
      ensures clients == old(clients) - {connectId}
      ensures kept ==> old(clients)[connectId].View(this) == Step(old(clients[connectId].View(this)), ReverseConnected)
    {
      if connectId !in clients {
        assert clients == clients - {connectId};
        return false;
      }
      var client := clients[connectId];
      client.ReverseConnectCallback(this, true);
      return true;
    }
  }

  class CcbClient {
    const connectId: string
    const contacts: seq<string>
    var asked: nat
    var targetSock: bool
    var reverseConnecting: bool
    var connected: bool
    var deadline: bool
    var pendingCb: bool
    var liveCb: bool
    var refs: int
    ghost var exits: nat
    ghost var incs: nat
    ghost var decs: nat

    constructor (connectId: string, contacts: seq<string>)
      ensures this.connectId == connectId && this.contacts == contacts
      ensures forall table: WaitingTable :: connectId !in table.clients ==> View(table) == Created(|contacts|)
    {
      this.connectId, this.contacts := connectId, contacts;
      asked, targetSock, reverseConnecting, connected := 0, true, false, false;
      deadline, pendingCb, liveCb, refs := false, false, false, 1;
      exits, incs, decs := 0, 0, 0;
    }

    ghost function View(table: WaitingTable): State
      reads this, table
    {
      State(|contacts|, asked, targetSock, reverseConnecting, connected, connectId in table.clients, deadline,
            pendingCb, liveCb, refs, exits, incs, decs)
    }

    /** The client waits under its own connect id. */
    ghost predicate Live(table: WaitingTable)
      reads this, table
    {
      Unfinished(View(table)) && table.clients[connectId] == this
    }

    method IncRefCount()
      modifies this`refs, this`incs
      ensures refs == old(refs) + 1 && incs == old(incs) + 1
    {
      refs, incs := refs + 1, incs + 1;
    }

    /** The source aborts when the count is not positive. */
    method DecRefCount()
      requires refs > 0
      modifies this`refs, this`decs
      ensures refs == old(refs) - 1 && decs == old(decs) + 1
    {
      refs, decs := refs - 1, decs + 1;
    }

    /** Arms the deadline, unless it is armed, and enters the table, which holds a reference. */
    method RegisterReverseConnectCallback(table: WaitingTable)
      requires connectId !in table.clients
      modifies this`deadline, this`refs, table
      ensures deadline && refs == old(refs) + 1
      ensures table.clients == old(table.clients)[connectId := this]
    {
      if !deadline {
        deadline := true;
      }
      table.clients := table.clients[connectId := this];
      refs := refs + 1;
    }

    /** Disarms the deadline and leaves the table; this may drop the last reference. */
    method UnregisterReverseConnectCallback(table: WaitingTable)
      requires connectId in table.clients && refs > 0
      modifies this`deadline, this`refs, table
      ensures !deadline && refs == old(refs) - 1
      ensures table.clients == old(table.clients) - {connectId}
    {
      if deadline {
        deadline := false;
      }
      table.clients := table.clients - {connectId};
      refs := refs - 1;
    }

    /** The target socket leaves its state, which the source only allows once, and lets go of the client. */
    method ExitReverseConnectingState(sock: bool)
      requires reverseConnecting && refs > 0
      modifies this`reverseConnecting, this`connected, this`refs, this`exits
      ensures !reverseConnecting && connected == sock && refs == old(refs) - 1 && exits == old(exits) + 1
    {
      reverseConnecting, connected, exits := false, sock, exits + 1;
      refs := refs - 1;
    }

    /** The final stage.  As long as a field is used, somebody holds a reference. */
    method ReverseConnectCallback(table: WaitingTable, sock: bool)
      requires targetSock && reverseConnecting && connectId in table.clients
      requires refs >= 2 + (if pendingCb then 1 else 0) && (liveCb ==> pendingCb)
      modifies this, table
      ensures View(table) == Finished(old(View(table)), sock)
      ensures table.clients == old(table.clients) - {connectId}
    {
      ExitReverseConnectingState(sock);
      targetSock := false;
      if pendingCb {
        liveCb := false;
        assert refs > 1;
        DecRefCount();
      }
      assert refs > 0;
      UnregisterReverseConnectCallback(table);
    }

    /** Asks the next broker, or gives up when there is none left. */
    method TryNextCcb(table: WaitingTable) returns (initiated: bool)
      requires targetSock && reverseConnecting && !pendingCb && !liveCb && connectId !in table.clients && refs >= 1
      requires asked <= |contacts|
      modifies this, table
      ensures initiated <==> old(asked) < |contacts|
      ensures var c := old(View(table)).(waiting := true, deadline := true, refs := old(refs) + 1);
              View(table) == if initiated then Asking(c) else Finished(c, false)
      ensures table.clients == if initiated then old(table.clients)[connectId := this]
                else old(table.clients) - {connectId}
    {
      RegisterReverseConnectCallback(table);
      if asked == |contacts| {
        ReverseConnectCallback(table, false);
        return false;
      }
      asked := asked + 1;
      IncRefCount();
      pendingCb, liveCb := true, true;
      return true;
    }

    /** Starts a non-blocking reverse connect. */
    method ReverseConnect(table: WaitingTable) returns (initiated: bool)
      requires View(table) == Created(|contacts|)
      modifies this, table
      ensures View(table) == Start(old(View(table)))
      ensures initiated ==> Live(table)
      ensures table.clients == if initiated then old(table.clients)[connectId := this]
                else old(table.clients) - {connectId}
    {
      reverseConnecting := true;
      initiated := TryNextCcb(table);
    }

    /** The broker answered, or could not be asked. */
    method CCBResultsCallback(table: WaitingTable, success: bool)
      requires Live(table) && liveCb
      modifies this, table
      ensures View(table) == Step(old(View(table)), if success then ResultSucceeded else ResultFailed)
      ensures table.clients == if View(table).waiting then old(table.clients)[connectId := this]
                else old(table.clients) - {connectId}
    {
      ghost var c := View(table).(pendingCb := false, liveCb := false);
      TriedAgain(c);
      hide Asking, Finished, Unfinished;
      pendingCb, liveCb := false, false;
      if !success {
        UnregisterReverseConnectCallback(table);
        assert View(table).(waiting := true, deadline := true, refs := refs + 1) == c;
        var initiated := TryNextCcb(table);
      }
      assert refs > 0;
      DecRefCount();
    }

    method CancelReverseConnect(table: WaitingTable)
      requires Unfinished(View(table)) || Over(View(table))
      modifies this, table
      ensures View(table) == if old(targetSock) then Step(old(View(table)), Cancelled) else old(View(table))
    {
      if targetSock {
        ReverseConnectCallback(table, false);
      }
    }

    method DeadlineExpired(table: WaitingTable)
      requires Unfinished(View(table))
      modifies this, table
      ensures View(table) == Step(old(View(table)), TimedOut)
    {
      deadline := false;
      if targetSock {
        ReverseConnectCallback(table, false);
      }
    }
  }
}
