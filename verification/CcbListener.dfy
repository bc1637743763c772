/**
 * A target daemon's connection to its broker: the phases of CCBListener, its socket, its
 * reconnect and heartbeat timers and its reference count, under any order of callbacks.
 */
module CcbListener {
  import opened CcbReverse

  // ---------------------------------------------------------------- specification

  datatype Sock = NoSock | Pending | Connected

  datatype State = State(
    sock: Sock,
    waitingForConnect: bool,
    waitingForRegistration: bool,
    registered: bool,
    reconnectTimer: bool,
    heartbeat: Heartbeat,
    refs: int,
    due: Due,
    reverse: Reverse)         // reversed connections, of which each one under way holds a reference

  /** The heartbeat timer and its settings. */
  datatype Heartbeat = Heartbeat(armed: bool, interval: int, disabled: bool, initialized: bool)

  /** What is still to come back to the listener, and who refers to it. */
  datatype Due = Due(
    connect: bool,            // the connect callback is still to come
    owned: bool,              // the daemon's list of listeners refers to this one
    taken: nat, dropped: nat) // how often the connect reference was taken and dropped

  /** What the broker's socket delivers.  For a request: was a connection begun, and if not, was that reported? */
  datatype Message =
    | Unreadable
    | RegistrationReply
    | Request(order: Order, initiated: bool, written: bool)
    | Alive
    | Unexpected

  /** How one attempt to reach the broker turns out. */
  datatype Attempt = Attempt(made: bool, oldServer: bool, written: bool, reply: Message)

  datatype Event =
    | Register(blocking: bool, attempt: Attempt)
    | ConnectDone(success: bool, oldServer: bool, written: bool)
    | ReconnectTime(attempt: Attempt)
    | HeartbeatTime(age: int, written: bool)
    | Arrived(message: Message, oldServer: bool)
    | ReverseConnected(i: nat, connected: bool, greeted: bool, written: bool)
    | Reconfigure(setting: nat, open: bool) // open: a pending socket is already connected underneath
    | Released                              // the daemon drops the listener from its list

  function Created(): State
  {
    State(NoSock, false, false, false, false, Heartbeat(false, 0, false, false), 1, Due(false, true, 0, 0), NONE)
  }

  function Disconnected(l: State): State
  {
    l.(sock := NoSock, waitingForConnect := false, waitingForRegistration := false, registered := false,
       heartbeat := l.heartbeat.(armed := false), reconnectTimer := true,
       refs := if l.waitingForConnect then l.refs - 1 else l.refs,
       due := if l.waitingForConnect then l.due.(dropped := l.due.dropped + 1) else l.due)
  }

  function Rescheduled(l: State, oldServer: bool, open: bool): State
  {
    if !l.heartbeat.initialized && l.sock.NoSock? then l else
    var h := if l.heartbeat.initialized then l.heartbeat
             else l.heartbeat.(initialized := true, disabled := l.heartbeat.interval > 0 && oldServer);
    if h.interval <= 0 || h.disabled then l.(heartbeat := h.(armed := false))
    else if l.sock.Connected? || (l.sock.Pending? && open) then l.(heartbeat := h.(armed := true))
    else l.(heartbeat := h)
  }

  /** A message to the broker, on the present connection or not at all. */
  function Written(l: State, written: bool): State
  {
    if l.sock.NoSock? || l.waitingForConnect || written then l else Disconnected(l)
  }

  function WithReverse(l: State, r: Reverse): State
  {
    l.(reverse := r)
  }

  predicate Sends(l: State, written: bool)
  {
    !l.sock.NoSock? && !l.waitingForConnect && written
  }

  function Reported(l: State, order: Order, success: bool, written: bool): State
  {
    var r := l.reverse;
    WithReverse(Written(l, written), r.(sent := Tell(r.sent, order, success, Sends(l, written))))
  }

  function Greeted(l: State, order: Order, greeted: bool): State
  {
    WithReverse(l, l.reverse.(sent := Greet(l.reverse.sent, order, greeted)))
  }

  function Forgotten(l: State, i: nat): State
    requires i < |l.reverse.pending|
  {
    l.(refs := l.refs - 1,
       reverse := l.reverse.(pending := l.reverse.pending[..i] + l.reverse.pending[i + 1..]))
  }

  /** A reversed connection is begun, and takes a reference; or the broker is told that it could not be. */
  function Requested(l: State, order: Order, initiated: bool, written: bool): State
  {
    var l1 := WithReverse(l, Take(l.reverse, order, initiated, Sends(l, written)));
    if initiated then l1.(refs := l1.refs + 1) else Written(l1, written)
  }

  /** A reversed connection is made, or not, and gives its reference back. */
  function Reversed(l: State, i: nat, greeted: bool, written: bool): State
    requires i < |l.reverse.pending|
  {
    var l1 := WithReverse(Written(l, written), Close(l.reverse, i, greeted, Sends(l, written)));
    l1.(refs := l1.refs - 1)
  }

  function Read(l: State, message: Message, oldServer: bool): State
  {
    if l.sock.NoSock? then l
    else if message.Unreadable? then Disconnected(l)
    else
      var l1 := Rescheduled(l, oldServer, false);
      match message
      case RegistrationReply => l1.(waitingForRegistration := false, registered := true)
      case Request(order, initiated, written) => Requested(l1, order, initiated, written)
      case _ => l1
  }

  function Phases(l: State): nat
  {
    (if l.waitingForConnect then 1 else 0) + (if l.waitingForRegistration then 1 else 0)
    + (if l.registered then 1 else 0) + (if l.reconnectTimer then 1 else 0)
  }

  /** Sends the registration once there is a connection, and waits for or reads the answer. */
  function Announced(l: State, blocking: bool, a: Attempt): State
  {
    if l.sock.NoSock? || l.waitingForConnect then l
    else if !a.written then Disconnected(l)
    else if blocking then Read(l, a.reply, a.oldServer)
    else l.(waitingForRegistration := true)
  }

  function Registering(l: State, blocking: bool, a: Attempt): State
  {
    if Phases(l) > 0 then l
    else if !l.sock.NoSock? then Announced(l, blocking, a)
    else if !a.made then Disconnected(l)
    else if blocking then Announced(Rescheduled(l.(sock := Connected), a.oldServer, false), true, a)
    else l.(sock := Pending, waitingForConnect := true, refs := l.refs + 1,
        due := l.due.(connect := true, taken := l.due.taken + 1))
  }

  function Settled(l: State, success: bool, oldServer: bool, written: bool): State
  {
    var l1 := l.(waitingForConnect := false, due := l.due.(connect := false));
    if success
    then Registering(Rescheduled(l1.(sock := Connected), oldServer, false), false,
        Attempt(true, oldServer, written, Alive))
    else Disconnected(l1.(sock := NoSock))
  }

  function Dropped(l: State): State
  {
    l.(refs := l.refs - 1, due := l.due.(dropped := l.due.dropped + 1))
  }

  /** The connect callback; its closing statement drops the reference that the connect took. */
  function Answered(l: State, success: bool, oldServer: bool, written: bool): State
  {
    Dropped(Settled(l, success, oldServer, written))
  }

  function Reconfigured(l: State, setting: nat, open: bool): State
  {
    if setting == l.heartbeat.interval then l else
    var l1 := l.(heartbeat := l.heartbeat.(interval := if 0 < setting < 30 then 30 else setting));
    if l1.heartbeat.initialized then Rescheduled(l1, false, open) else l1
  }

  function Step(l: State, e: Event): State
  {
    match e
    case Register(blocking, a) => Registering(l, blocking, a)
    case ConnectDone(success, oldServer, written) => Answered(l, success, oldServer, written)
    case ReconnectTime(a) => Registering(l.(reconnectTimer := false), false, a)
    case HeartbeatTime(age, written) => if age > 3 * l.heartbeat.interval then Disconnected(l) else Written(l, written)
    case Arrived(message, oldServer) => Read(l, message, oldServer)
    case ReverseConnected(i, connected, greeted, written) =>
      if i < |l.reverse.pending| then Reversed(l, i, connected && greeted, written) else l
    case Reconfigure(setting, open) => Reconfigured(l, setting, open)
    case Released => l.(refs := l.refs - 1, due := l.due.(owned := false))
  }

  /** Timers, the socket and the daemon's own calls need the object; the two callbacks hold references of their own. */
  predicate Enabled(l: State, e: Event)
  {
    match e
    case ConnectDone(_, _, _) => l.due.connect
    case ReverseConnected(i, _, _, _) => i < |l.reverse.pending|
    case ReconnectTime(_) => l.refs > 0 && l.reconnectTimer
    case HeartbeatTime(_, _) => l.refs > 0 && l.heartbeat.armed
    case Arrived(_, _) => l.refs > 0 && l.sock.Connected?
    case Register(_, _) => l.due.owned
    case Reconfigure(_, _) => l.due.owned
    case Released => l.due.owned
  }

  predicate Possible(l: State, es: seq<Event>)
    decreases |es|
  {
    es == [] || (Enabled(l, es[0]) && Possible(Step(l, es[0]), es[1..]))
  }

  function Run(l: State, es: seq<Event>): State
    requires Possible(l, es)
    decreases |es|
  {
    if es == [] then l else Run(Step(l, es[0]), es[1..])
  }

  /**
   * At most one phase; a connect under way is the only phase with a pending socket; the heartbeat
   * runs only on a connected one, and at most every 30 seconds; an armed reconnect timer means no socket.
   */
  ghost predicate Shape(l: State)
  {
    && Phases(l) <= 1
    && (l.waitingForConnect <==> l.sock.Pending?)
    && (l.waitingForConnect <==> l.due.connect)
    && (l.waitingForRegistration || l.registered ==> l.sock.Connected?)
    && (l.reconnectTimer ==> l.sock.NoSock?)
    && (l.heartbeat.armed ==> l.sock.Connected?)
    && (l.heartbeat.interval == 0 || l.heartbeat.interval >= 30)
  }

  /** The references are those of the owner, of the connect and of the reversed connections, and `more` more. */
  ghost predicate Counted(l: State, more: nat)
  {
    && l.refs == (if l.due.owned then 1 else 0) + (if l.waitingForConnect then 1 else 0)
                 + |l.reverse.pending| + more
    && l.due.taken == l.due.dropped + (if l.waitingForConnect then 1 else 0) + more
  }

  ghost predicate Inv(l: State)
  {
    Shape(l) && Counted(l, 0)
  }

  lemma DisconnectedKeeps(l: State, more: nat)
    requires Counted(l, more) && !l.due.connect && (l.heartbeat.interval == 0 || l.heartbeat.interval >= 30)
    ensures Shape(Disconnected(l)) && Phases(Disconnected(l)) == 1
    ensures Counted(Disconnected(l), more) && Disconnected(l).reverse == l.reverse
  {
  }

  lemma RescheduledKeeps(l: State, oldServer: bool, more: nat)
    requires Shape(l) && Counted(l, more)
    ensures var l1 := Rescheduled(l, oldServer, false);
            && Shape(l1) && Counted(l1, more) && Phases(l1) == Phases(l) && l1.sock == l.sock
            && l1.waitingForConnect == l.waitingForConnect
  {
  }

  lemma WrittenKeeps(l: State, written: bool, more: nat)
    requires Shape(l) && Counted(l, more)
    ensures var l1 := Written(l, written);
            && Shape(l1) && Counted(l1, more) && l1.reverse == l.reverse
            && Phases(l1) == if l1 == l then Phases(l) else 1
  {
    hide Phases, Shape, Disconnected, Counted;
    if Written(l, written) != l {
      PendingIff(l);
      DisconnectedKeeps(l, more);
    }
  }

  /** What a listener writes to the broker does not depend on its reversed connections. */
  lemma WrittenApart(l: State, r: Reverse, written: bool)
    ensures Written(WithReverse(l, r), written) == WithReverse(Written(l, written), r)
    ensures Sends(WithReverse(l, r), written) == Sends(l, written)
    ensures Written(l, written).reverse == l.reverse
  {
  }

  /** A reversed connection that comes back: first the hello, then the report, then the reference. */
  lemma ReversedInTurn(l: State, i: nat, greeted: bool, written: bool)
    requires i < |l.reverse.pending|
    ensures var l1 := Reported(Greeted(l, l.reverse.pending[i], greeted), l.reverse.pending[i], greeted, written);
            l1.reverse.pending == l.reverse.pending && Reversed(l, i, greeted, written) == Forgotten(l1, i)
  {
    hide Written, Sends, Tell, Greet;
    WrittenApart(l, l.reverse.(sent := Greet(l.reverse.sent, l.reverse.pending[i], greeted)), written);
  }

  lemma PendingIff(l: State)
    requires Shape(l)
    ensures l.heartbeat.interval == 0 || l.heartbeat.interval >= 30
    ensures l.waitingForConnect <==> l.due.connect
    ensures l.waitingForConnect <==> l.sock.Pending?
  {
  }

  /** A reading changes the phase only to registered, or to reconnecting on a lost connection. */
  lemma ReadKeeps(l: State, message: Message, oldServer: bool, more: nat)
    requires Shape(l) && Counted(l, more) && l.sock.Connected?
    ensures Shape(Read(l, message, oldServer)) && Counted(Read(l, message, oldServer), more)
    ensures Phases(Read(l, message, oldServer)) == if Passed(message) then Phases(l) else 1
  {
    hide Disconnected, Rescheduled, Requested;
    if message.Unreadable? {
      DisconnectedKeeps(l, more);
    } else {
      var l1 := Rescheduled(l, oldServer, false);
      RescheduledKeeps(l, oldServer, more);
      if message.Request? {
        RequestedKeeps(l1, message.order, message.initiated, message.written, more);
      }
    }
  }

  lemma RequestedKeeps(l: State, order: Order, initiated: bool, written: bool, more: nat)
    requires Shape(l) && Counted(l, more) && l.sock.Connected?
    ensures var l1 := Requested(l, order, initiated, written);
            && Shape(l1) && Counted(l1, more) && Phases(l1) == if initiated || written then Phases(l) else 1
  {
    hide Written;
    var l1 := WithReverse(l, Take(l.reverse, order, initiated, Sends(l, written)));
    if !initiated {
      WrittenKeeps(l1, written, more);
      WrittenIff(l1, written);
    }
  }

  lemma WrittenIff(l: State, written: bool)
    requires Shape(l) && l.sock.Connected?
    ensures Written(l, written) == l <==> written
  {
  }

  /** Messages that a reader does not take for an answer and survives. */
  predicate Passed(message: Message)
  {
    message.Alive? || message.Unexpected? || (message.Request? && (message.initiated || message.written))
  }

  lemma AnnouncedKeeps(l: State, blocking: bool, a: Attempt, more: nat)
    requires Shape(l) && Counted(l, more) && l.sock.Connected? && Phases(l) == 0
    ensures Shape(Announced(l, blocking, a)) && Counted(Announced(l, blocking, a), more)
    ensures Phases(Announced(l, blocking, a)) == if blocking && a.written && Passed(a.reply) then 0 else 1
  {
    hide Disconnected, Read, Passed;
    if !a.written {
      DisconnectedKeeps(l, more);
    } else if blocking {
      ReadKeeps(l, a.reply, a.oldServer, more);
    }
  }

  /** A blocking registration that reads something else than an answer. */
  predicate Ignored(l: State, blocking: bool, a: Attempt)
  {
    Phases(l) == 0 && blocking && (l.sock.Connected? || a.made) && a.written && Passed(a.reply)
  }

  lemma RegisteringKeeps(l: State, blocking: bool, a: Attempt, more: nat)
    requires Shape(l) && Counted(l, more)
    ensures Shape(Registering(l, blocking, a)) && Counted(Registering(l, blocking, a), more)
    ensures Phases(Registering(l, blocking, a)) == if Ignored(l, blocking, a) then 0 else 1
  {
    hide Disconnected, Announced, Rescheduled, Passed;
    if Phases(l) == 0 {
      if !l.sock.NoSock? {
        AnnouncedKeeps(l, blocking, a, more);
      } else if !a.made {
        DisconnectedKeeps(l, more);
      } else if blocking {
        RescheduledKeeps(l.(sock := Connected), a.oldServer, more);
        AnnouncedKeeps(Rescheduled(l.(sock := Connected), a.oldServer, false), true, a, more);
      }
    }
  }

  lemma AnsweredKeeps(l: State, success: bool, oldServer: bool, written: bool)
    requires Inv(l) && l.due.connect
    ensures Inv(Answered(l, success, oldServer, written)) && Phases(Answered(l, success, oldServer, written)) == 1
  {
    hide Disconnected, Registering, Rescheduled;
    var l1 := l.(waitingForConnect := false, due := l.due.(connect := false));
    if success {
      var l2 := l1.(sock := Connected);
      RescheduledKeeps(l2, oldServer, 1);
      RegisteringKeeps(Rescheduled(l2, oldServer, false), false, Attempt(true, oldServer, written, Alive), 1);
    } else {
      DisconnectedKeeps(l1.(sock := NoSock), 1);
    }
  }

  /** A new, positive heartbeat setting reaches a listener whose pending socket is connected underneath. */
  predicate ArmsEarly(l: State, e: Event)
  {
    && e.Reconfigure? && l.sock.Pending? && e.open
    && l.heartbeat.initialized && !l.heartbeat.disabled && e.setting > 0 && e.setting != l.heartbeat.interval
  }

  lemma ReconfiguredKeepsIff(l: State, setting: nat, open: bool)
    requires Inv(l)
    ensures Inv(Reconfigured(l, setting, open)) <==> !ArmsEarly(l, Reconfigure(setting, open))
    ensures Phases(Reconfigured(l, setting, open)) == Phases(l)
  {
  }

  lemma HeartbeatKeeps(l: State, age: int, written: bool)
    requires Inv(l) && l.heartbeat.armed
    ensures var l1 := if age > 3 * l.heartbeat.interval then Disconnected(l) else Written(l, written);
            Inv(l1) && (Phases(l) == 1 ==> Phases(l1) == 1)
  {
    hide Disconnected, Written;
    DisconnectedKeeps(l, 0);
    WrittenKeeps(l, written, 0);
  }

  lemma ReverseKeeps(l: State, i: nat, greeted: bool, written: bool)
    requires Inv(l) && i < |l.reverse.pending|
    ensures var l1 := Reversed(l, i, greeted, written);
            Inv(l1) && (Phases(l) == 1 ==> Phases(l1) == 1)
  {
    hide Written;
    WrittenKeeps(l, written, 0);
  }

  /**
   * Every callback keeps the invariant, with the one exception of an early heartbeat, which always
   * breaks it; and a started listener stays in exactly one phase.
   */
  lemma StepKeepsIff(l: State, e: Event)
    requires Inv(l) && Enabled(l, e)
    ensures Inv(Step(l, e)) <==> !ArmsEarly(l, e)
    ensures Phases(l) == 1 ==> Phases(Step(l, e)) == 1
  {
    hide Registering, Answered, Disconnected, Written, Read, Reconfigured, Reversed;
    match e
    case Register(blocking, a) =>
      RegisteringKeeps(l, blocking, a, 0);
    case ConnectDone(success, oldServer, written) =>
      AnsweredKeeps(l, success, oldServer, written);
    case ReconnectTime(a) =>
      RegisteringKeeps(l.(reconnectTimer := false), false, a, 0);
    case HeartbeatTime(age, written) =>
      HeartbeatKeeps(l, age, written);
    case Arrived(message, oldServer) =>
      ReadKeeps(l, message, oldServer, 0);
    case ReverseConnected(i, connected, greeted, written) =>
      ReverseKeeps(l, i, connected && greeted, written);
    case Reconfigure(setting, open) =>
      ReconfiguredKeepsIff(l, setting, open);
    case Released =>
  }

  // ---------------------------------------------------------------- which phase

  /** The event reads a registration reply: from the socket, or in a blocking registration that got its message out. */
  predicate HearsReply(l: State, e: Event)
  {
    match e
    case Arrived(message, _) => message.RegistrationReply? && l.sock.Connected?
    case Register(blocking, a) =>
      blocking && Phases(l) == 0 && (l.sock.Connected? || a.made) && a.written && a.reply.RegistrationReply?
    case _ => false
  }

  lemma RescheduledPhases(l: State, oldServer: bool, open: bool)
    ensures var r := Rescheduled(l, oldServer, open);
            && r.sock == l.sock && r.registered == l.registered && r.waitingForConnect == l.waitingForConnect
            && r.waitingForRegistration == l.waitingForRegistration && r.reconnectTimer == l.reconnectTimer
  {
  }

  lemma WrittenPhases(l: State, written: bool)
    ensures Written(l, written) != l ==> Written(l, written).sock.NoSock? && !Written(l, written).registered
  {
  }

  lemma ReadHears(l: State, message: Message, oldServer: bool)
    requires l.sock.Connected?
    ensures var r := Read(l, message, oldServer);
            r.registered <==> r.sock.Connected? && (l.registered || message.RegistrationReply?)
  {
    hide Rescheduled;
    RescheduledPhases(l, oldServer, false);
    var l1 := Rescheduled(l, oldServer, false);
    if message.Request? {
      WrittenPhases(WithReverse(l1, Take(l1.reverse, message.order, message.initiated, Sends(l1, message.written))),
        message.written);
    }
  }

  lemma AnnouncedHears(l: State, blocking: bool, a: Attempt)
    requires l.sock.Connected? && !l.waitingForConnect && !l.registered
    ensures var r := Announced(l, blocking, a);
            r.registered <==> r.sock.Connected? && blocking && a.written && a.reply.RegistrationReply?
  {
    hide Read;
    ReadHears(l, a.reply, a.oldServer);
  }

  lemma RegisteringHears(l: State, blocking: bool, a: Attempt)
    requires Shape(l)
    ensures var r := Registering(l, blocking, a);
            r.registered <==> r.sock.Connected? && (l.registered || HearsReply(l, Register(blocking, a)))
  {
    hide Announced, Rescheduled;
    if Phases(l) == 0 {
      if l.sock.Connected? {
        AnnouncedHears(l, blocking, a);
      } else if l.sock.NoSock? && a.made && blocking {
        var l1 := l.(sock := Connected);
        RescheduledPhases(l1, a.oldServer, false);
        AnnouncedHears(Rescheduled(l1, a.oldServer, false), true, a);
      }
    }
  }

  lemma AnsweredHears(l: State, success: bool, oldServer: bool, written: bool)
    requires Inv(l) && l.due.connect
    ensures !Answered(l, success, oldServer, written).registered
  {
    hide Registering, Rescheduled;
    var l1 := l.(waitingForConnect := false, due := l.due.(connect := false));
    if success {
      var l2 := l1.(sock := Connected);
      RescheduledPhases(l2, oldServer, false);
      RescheduledKeeps(l2, oldServer, 1);
      RegisteringHears(Rescheduled(l2, oldServer, false), false, Attempt(true, oldServer, written, Alive));
    }
  }

  /** A listener is registered after a step exactly if it is connected, and was registered or has just read a reply. */
  lemma RegisteredIff(l: State, e: Event)
    requires Inv(l) && Enabled(l, e)
    ensures var r := Step(l, e); r.registered <==> r.sock.Connected? && (l.registered || HearsReply(l, e))
  {
    hide Registering, Answered, Read, Rescheduled;
    match e
    case Register(blocking, a) => RegisteringHears(l, blocking, a);
    case ConnectDone(success, oldServer, written) => AnsweredHears(l, success, oldServer, written);
    case ReconnectTime(a) => RegisteringHears(l.(reconnectTimer := false), false, a);
    case HeartbeatTime(_, written) => WrittenPhases(l, written);
    case Arrived(message, oldServer) => ReadHears(l, message, oldServer);
    case ReverseConnected(_, _, _, written) => WrittenPhases(l, written);
    case Reconfigure(setting, open) => ReconfiguredPhases(l, setting, open);
    case Released =>
  }

  lemma ReconfiguredPhases(l: State, setting: nat, open: bool)
    ensures Reconfigured(l, setting, open).sock == l.sock && Reconfigured(l, setting, open).registered == l.registered
  {
  }

  /** A message that the listener does not survive: none, or an order that it cannot even refuse. */
  predicate Fatal(message: Message)
  {
    message.Unreadable? || (message.Request? && !message.initiated && !message.written)
  }

  /** The connection that an event leaves, of a listener that satisfies the invariant. */
  function Left(l: State, e: Event): Sock
  {
    match e
    case Register(blocking, a) =>
      if Phases(l) > 0 then l.sock
      else if l.sock.NoSock? && !a.made then NoSock
      else if l.sock.NoSock? && !blocking then Pending
      else if !a.written || (blocking && Fatal(a.reply)) then NoSock
      else Connected
    case ReconnectTime(a) => if a.made then Pending else NoSock
    case ConnectDone(success, _, written) => if success && written then Connected else NoSock
    case HeartbeatTime(age, written) => if age > 3 * l.heartbeat.interval || !written then NoSock else l.sock
    case Arrived(message, _) => if Fatal(message) then NoSock else l.sock
    case ReverseConnected(_, _, _, written) => if l.sock.Connected? && !written then NoSock else l.sock
    case Reconfigure(_, _) => l.sock
    case Released => l.sock
  }

  lemma ReadLeaves(l: State, message: Message, oldServer: bool)
    requires l.sock.Connected? && !l.waitingForConnect
    ensures Read(l, message, oldServer).sock == if Fatal(message) then NoSock else Connected
  {
    hide Rescheduled;
    RescheduledPhases(l, oldServer, false);
  }

  lemma AnnouncedLeaves(l: State, blocking: bool, a: Attempt)
    requires l.sock.Connected? && !l.waitingForConnect
    ensures Announced(l, blocking, a).sock == if !a.written || (blocking && Fatal(a.reply)) then NoSock else Connected
  {
    hide Read, Fatal;
    ReadLeaves(l, a.reply, a.oldServer);
  }

  lemma RegisteringLeaves(l: State, blocking: bool, a: Attempt)
    requires Shape(l)
    ensures Registering(l, blocking, a).sock == Left(l, Register(blocking, a))
  {
    hide Announced, Rescheduled, Fatal;
    if Phases(l) == 0 {
      if l.sock.Connected? {
        AnnouncedLeaves(l, blocking, a);
      } else if l.sock.NoSock? && a.made && blocking {
        var l1 := l.(sock := Connected);
        RescheduledPhases(l1, a.oldServer, false);
        AnnouncedLeaves(Rescheduled(l1, a.oldServer, false), true, a);
      }
    }
  }

  lemma AnsweredLeaves(l: State, success: bool, oldServer: bool, written: bool)
    requires Inv(l) && l.due.connect
    ensures Answered(l, success, oldServer, written).sock == if success && written then Connected else NoSock
  {
    hide Registering, Rescheduled;
    var l1 := l.(waitingForConnect := false, due := l.due.(connect := false));
    if success {
      var l2 := l1.(sock := Connected);
      RescheduledPhases(l2, oldServer, false);
      RescheduledKeeps(l2, oldServer, 1);
      RegisteringLeaves(Rescheduled(l2, oldServer, false), false, Attempt(true, oldServer, written, Alive));
    }
  }

  /** Which connection every event leaves. */
  lemma StepLeaves(l: State, e: Event)
    requires Inv(l) && Enabled(l, e)
    ensures Step(l, e).sock == Left(l, e)
  {
    hide Registering, Answered, Read, Rescheduled, Fatal;
    match e
    case Register(blocking, a) => RegisteringLeaves(l, blocking, a);
    case ConnectDone(success, oldServer, written) => AnsweredLeaves(l, success, oldServer, written);
    case ReconnectTime(a) => RegisteringLeaves(l.(reconnectTimer := false), false, a);
    case Arrived(message, oldServer) => ReadLeaves(l, message, oldServer);
    case Reconfigure(setting, open) => ReconfiguredPhases(l, setting, open);
    case _ =>
  }

  /** The connection, and whether the broker has confirmed it, decide the phase of a started listener. */
  lemma PhaseIs(l: State)
    requires Inv(l) && Phases(l) == 1
    ensures l.reconnectTimer <==> l.sock.NoSock?
    ensures l.waitingForConnect <==> l.sock.Pending?
    ensures l.waitingForRegistration <==> l.sock.Connected? && !l.registered
  {
  }

  /** Connected from now on, after every event. */
  ghost predicate StaysConnected(l: State, es: seq<Event>)
    requires Possible(l, es)
    decreases |es|
  {
    l.sock.Connected? && (es != [] ==> StaysConnected(Step(l, es[0]), es[1..]))
  }

  /** At some point the listener reads a reply, and from then on it stays connected. */
  ghost predicate HeardSince(l: State, es: seq<Event>)
    requires Possible(l, es)
    decreases |es|
  {
    && es != []
    && (|| (HearsReply(l, es[0]) && StaysConnected(Step(l, es[0]), es[1..]))
        || HeardSince(Step(l, es[0]), es[1..]))
  }

  lemma {:induction false} RunHears(l: State, es: seq<Event>)
    requires Inv(l) && Possible(l, es) && Calm(l, es)
    ensures Run(l, es).registered <==> (l.registered && StaysConnected(l, es)) || HeardSince(l, es)
    decreases |es|
  {
    hide Inv, Step, Enabled, HearsReply;
    if es == [] {
      RegisteredIsConnected(l);
    } else {
      StepKeepsIff(l, es[0]);
      RegisteredIff(l, es[0]);
      RegisteredIsConnected(l);
      RunHears(Step(l, es[0]), es[1..]);
    }
  }

  lemma RegisteredIsConnected(l: State)
    requires Inv(l)
    ensures l.registered ==> l.sock.Connected?
  {
  }

  /** A listener is registered exactly if it has read a reply since its present connection was made. */
  lemma RegisteredSince(es: seq<Event>)
    requires Possible(Created(), es) && Calm(Created(), es)
    ensures Run(Created(), es).registered <==> HeardSince(Created(), es)
  {
    RunHears(Created(), es);
  }

  // ---------------------------------------------------------------- the heartbeat

  /** On a connection the heartbeat runs exactly if there is an interval and the broker answers heartbeats. */
  ghost predicate Beats(l: State)
  {
    l.sock.Connected? ==>
      && l.heartbeat.initialized
      && (l.heartbeat.armed <==> l.heartbeat.interval > 0 && !l.heartbeat.disabled)
  }

  lemma RescheduledBeats(l: State, oldServer: bool, open: bool)
    ensures Beats(Rescheduled(l, oldServer, open))
  {
  }

  lemma WrittenBeats(l: State, written: bool)
    requires Beats(l)
    ensures Beats(Written(l, written))
  {
  }

  lemma ReadBeats(l: State, message: Message, oldServer: bool)
    requires Beats(l)
    ensures Beats(Read(l, message, oldServer))
  {
    hide Rescheduled, Written;
    RescheduledBeats(l, oldServer, false);
    if message.Request? {
      var l1 := Rescheduled(l, oldServer, false);
      WrittenBeats(WithReverse(l1, Take(l1.reverse, message.order, message.initiated, Sends(l1, message.written))),
        message.written);
    }
  }

  lemma RegisteringBeats(l: State, blocking: bool, a: Attempt)
    requires Beats(l)
    ensures Beats(Registering(l, blocking, a))
  {
    hide Rescheduled, Read;
    RescheduledBeats(l.(sock := Connected), a.oldServer, false);
    ReadBeats(l, a.reply, a.oldServer);
    ReadBeats(Rescheduled(l.(sock := Connected), a.oldServer, false), a.reply, a.oldServer);
  }

  lemma AnsweredBeats(l: State, success: bool, oldServer: bool, written: bool)
    ensures Beats(Answered(l, success, oldServer, written))
  {
    hide Rescheduled, Registering;
    var l1 := l.(waitingForConnect := false, due := l.due.(connect := false), sock := Connected);
    RescheduledBeats(l1, oldServer, false);
    RegisteringBeats(Rescheduled(l1, oldServer, false), false, Attempt(true, oldServer, written, Alive));
  }

  lemma StepBeats(l: State, e: Event)
    requires Inv(l) && Beats(l) && Enabled(l, e)
    ensures Beats(Step(l, e))
  {
    hide Registering, Answered, Read, Rescheduled, Written;
    match e
    case Register(blocking, a) => RegisteringBeats(l, blocking, a);
    case ConnectDone(success, oldServer, written) => AnsweredBeats(l, success, oldServer, written);
    case ReconnectTime(a) => RegisteringBeats(l.(reconnectTimer := false), false, a);
    case HeartbeatTime(_, written) => WrittenBeats(l, written);
    case Arrived(message, oldServer) => ReadBeats(l, message, oldServer);
    case ReverseConnected(_, _, _, written) => WrittenBeats(l, written);
    case Reconfigure(setting, open) => ReconfiguredBeats(l, setting, open);
    case Released =>
  }

  lemma ReconfiguredBeats(l: State, setting: nat, open: bool)
    requires Beats(l)
    ensures Beats(Reconfigured(l, setting, open))
  {
  }

  /** The interval is the setting, but no shorter than 30 seconds; a new one reaches the timer on a connection. */
  lemma IntervalIs(l: State, setting: nat, open: bool)
    requires Inv(l) && Beats(l)
    ensures var h := Reconfigured(l, setting, open).heartbeat;
            && h.interval == (if 0 < setting < 30 then 30 else setting)
            && (l.sock.Connected? ==> (h.armed <==> h.interval > 0 && !h.disabled))
            && h.disabled == l.heartbeat.disabled
  {
  }

  /** Heartbeats are given up for good exactly if the first broker met with an interval is too old for them. */
  lemma DisabledIff(l: State, oldServer: bool, open: bool)
    ensures var h := Rescheduled(l, oldServer, open).heartbeat;
            if l.heartbeat.initialized || l.sock.NoSock? then h.disabled == l.heartbeat.disabled
            else h.initialized && (h.disabled <==> oldServer && l.heartbeat.interval > 0)
  {
  }

  /** What a listener writes when a reversed connection comes back. */
  lemma ReversedWrites(l: State, i: nat, connected: bool, greeted: bool, written: bool)
    requires i < |l.reverse.pending|
    ensures var r := Step(l, ReverseConnected(i, connected, greeted, written)).reverse;
            var o := l.reverse.pending[i];
            var reachable := !l.sock.NoSock? && !l.waitingForConnect;
            && r.sent == l.reverse.sent
                 + (if connected && greeted then [Hello(o)] else [])
                 + (if reachable && written then [Report(o, connected && greeted)] else [])
            && r.pending == l.reverse.pending[..i] + l.reverse.pending[i + 1..]
  {
    CloseWrites(l.reverse, i, connected && greeted, Sends(l, written));
  }

  // ---------------------------------------------------------------- what a listener writes

  /** The order that an event brings, if any. */
  predicate Brings(e: Event, order: Order)
  {
    match e
    case Register(_, a) => a.reply.Request? && a.reply.order == order
    case Arrived(message, _) => message.Request? && message.order == order
    case _ => false
  }

  /** What one event may do to the reversed connections. */
  ghost predicate Follows(r: Reverse, e: Event, r': Reverse)
  {
    || r' == r
    || (exists order, begun, told :: Brings(e, order) && r' == Take(r, order, begun, told))
    || (exists i: nat, greeted, told :: i < |r.pending| && r' == Close(r, i, greeted, told))
  }

  lemma ReadFollows(l: State, message: Message, oldServer: bool)
    ensures var r := Read(l, message, oldServer).reverse;
            || r == l.reverse
            || (message.Request? && exists told :: r == Take(l.reverse, message.order, message.initiated, told))
  {
    hide Take;
    if message.Request? && !l.sock.NoSock? {
      var l1 := Rescheduled(l, oldServer, false);
      assert l1.reverse == l.reverse;
      var told := Sends(l1, message.written);
      WrittenApart(WithReverse(l1, Take(l1.reverse, message.order, message.initiated, told)), l1.reverse,
          message.written);
    }
  }

  lemma AnnouncedFollows(l: State, blocking: bool, a: Attempt)
    ensures var r := Announced(l, blocking, a).reverse;
            || r == l.reverse
            || (a.reply.Request? && exists told :: r == Take(l.reverse, a.reply.order, a.reply.initiated, told))
    ensures !blocking ==> Announced(l, blocking, a).reverse == l.reverse
  {
    hide Read, Take;
    ReadFollows(l, a.reply, a.oldServer);
  }

  lemma RegisteringFollows(l: State, blocking: bool, a: Attempt)
    ensures var r := Registering(l, blocking, a).reverse;
            || r == l.reverse
            || (a.reply.Request? && exists told :: r == Take(l.reverse, a.reply.order, a.reply.initiated, told))
    ensures !blocking ==> Registering(l, blocking, a).reverse == l.reverse
  {
    hide Announced, Take;
    AnnouncedFollows(l, blocking, a);
    AnnouncedFollows(Rescheduled(l.(sock := Connected), a.oldServer, false), true, a);
  }

  lemma SettledFollows(l: State, success: bool, oldServer: bool, written: bool)
    ensures Answered(l, success, oldServer, written).reverse == l.reverse
  {
    hide Registering;
    var l1 := l.(waitingForConnect := false, due := l.due.(connect := false));
    RegisteringFollows(Rescheduled(l1.(sock := Connected), oldServer, false), false,
        Attempt(true, oldServer, written, Alive));
  }

  lemma StepFollows(l: State, e: Event)
    ensures Follows(l.reverse, e, Step(l, e).reverse)
  {
    hide Registering, Answered, Read, Take, Close;
    match e
    case Register(blocking, a) => RegisteringFollows(l, blocking, a);
    case ConnectDone(success, oldServer, written) => SettledFollows(l, success, oldServer, written);
    case ReconnectTime(a) => RegisteringFollows(l.(reconnectTimer := false), false, a);
    case Arrived(message, oldServer) => ReadFollows(l, message, oldServer);
    case _ =>
  }

  lemma StepProper(l: State, e: Event)
    requires Proper(l.reverse)
    ensures Proper(Step(l, e).reverse)
  {
    hide Step, Proper, Take, Close;
    StepFollows(l, e);
    var r := l.reverse;
    var r' := Step(l, e).reverse;
    if exists order, begun, told :: Brings(e, order) && r' == Take(r, order, begun, told) {
      var order, begun, told :| Brings(e, order) && r' == Take(r, order, begun, told);
      TakeProper(r, order, begun, told);
    } else if r' != r {
      var i: nat, greeted, told :| i < |r.pending| && r' == Close(r, i, greeted, told);
      CloseProper(r, i, greeted, told);
    }
  }

  lemma {:induction false} RunProper(l: State, es: seq<Event>)
    requires Proper(l.reverse) && Possible(l, es)
    ensures Proper(Run(l, es).reverse)
    decreases |es|
  {
    hide Step, Enabled, Proper;
    if es != [] {
      StepProper(l, es[0]);
      RunProper(Step(l, es[0]), es[1..]);
    }
  }

  /**
   * Over every run, whatever fails: a success that a listener reports comes right after the hello that
   * it wrote for the same order, and no order is greeted or reported more often than it was received.
   */
  lemma ReportsAreTrue(es: seq<Event>)
    requires Possible(Created(), es)
    ensures var r := Run(Created(), es).reverse;
            && Honest(r.sent)
            && forall order :: Hellos(r.sent, order) <= Times(r.received, order)
                               && Reports(r.sent, order) <= Times(r.received, order)
  {
    hide Possible, Run, Honest, Hellos, Reports, Times;
    NothingProper();
    RunProper(Created(), es);
    var r := Run(Created(), es).reverse;
    forall order
      ensures Hellos(r.sent, order) <= Times(r.received, order) && Reports(r.sent, order) <= Times(r.received, order)
    {
      assert AtMostOnce(r, order);
    }
  }

  // ---------------------------------------------------------------- runs

  /** No event of the run changes the heartbeat setting while a connect is about to complete. */
  ghost predicate Calm(l: State, es: seq<Event>)
    requires Possible(l, es)
    decreases |es|
  {
    es != [] ==> !ArmsEarly(l, es[0]) && Calm(Step(l, es[0]), es[1..])
  }

  lemma {:induction false} RunKeeps(l: State, es: seq<Event>)
    requires Inv(l) && Possible(l, es) && Calm(l, es)
    ensures Inv(Run(l, es))
    ensures Phases(l) == 1 ==> Phases(Run(l, es)) == 1
    decreases |es|
  {
    if es != [] {
      StepKeepsIff(l, es[0]);
      RunKeeps(Step(l, es[0]), es[1..]);
    }
  }

  /** In non-blocking use the listener is in exactly one phase from the first call on, so it is never stuck. */
  lemma NeverStuck(l: State, a: Attempt, es: seq<Event>)
    requires Inv(l) && l.due.owned
    requires Possible(Registering(l, false, a), es) && Calm(Registering(l, false, a), es)
    ensures Inv(Run(Registering(l, false, a), es)) && Phases(Run(Registering(l, false, a), es)) == 1
  {
    hide Inv, Registering, Run;
    RegistrationStartsIff(l, false, a);
    RunKeeps(Registering(l, false, a), es);
  }

  /** Every callback that a reference protects finds the object alive. */
  lemma CallbacksFindTheListener(l: State, e: Event)
    requires Inv(l) && Enabled(l, e)
    ensures l.refs > 0
    ensures e.ConnectDone? ==> l.sock.Pending? && l.waitingForConnect
  {
  }

  /**
   * A registration leaves the listener without a phase exactly if it blocks and reads something else
   * than an answer.
   */
  lemma RegistrationStartsIff(l: State, blocking: bool, a: Attempt)
    requires Inv(l)
    ensures Inv(Registering(l, blocking, a))
    ensures Phases(Registering(l, blocking, a)) == 1 <==> !Ignored(l, blocking, a)
  {
    hide Registering;
    RegisteringKeeps(l, blocking, a, 0);
  }

  /**
   * A heartbeat that a blocking registration reads in place of its answer leaves a connection without a phase.
   * The broker of this repository sends heartbeats only in reply to heartbeats, so on a fresh connection this
   * takes another broker.
   */
  lemma HeartbeatInsteadOfAnswer()
    ensures var l := Registering(Created(), true, Attempt(true, false, true, Alive));
            l.sock.Connected? && Phases(l) == 0
  {
  }

  /**
   * The run behind the exception: a second connect is under way, a new setting arms the heartbeat,
   * the heartbeat finds the broker silent and gives up, and the connect callback is still to come
   * although its socket and its reference are gone.
   */
  lemma EarlyHeartbeat()
    ensures exists es ::
              && Possible(Created(), es) && !Calm(Created(), es)
              && Run(Created(), es).due.connect && Run(Created(), es).sock.NoSock?
              && Run(Created(), es).due.taken == Run(Created(), es).due.dropped
  {
    var good := Attempt(true, false, true, Alive);
    var on := Heartbeat(true, 1200, false, true);
    var off := on.(armed := false);
    var l1 := Created().(heartbeat := Heartbeat(false, 1200, false, false));
    var l2 := State(Pending, true, false, false, false, l1.heartbeat, 2, Due(true, true, 1, 0), NONE);
    var l3 := State(Connected, false, true, false, false, on, 1, Due(false, true, 1, 1), NONE);
    var l4 := State(NoSock, false, false, false, true, off, 1, Due(false, true, 1, 1), NONE);
    var l5 := State(Pending, true, false, false, false, off, 2, Due(true, true, 2, 1), NONE);
    var l6 := l5.(heartbeat := on.(interval := 30));
    var l7 := State(NoSock, false, false, false, true, off.(interval := 30), 1, Due(true, true, 2, 2), NONE);
    var es: seq<Event> := [];
    es := Prepend(l6, HeartbeatTime(91, false), l7, es);
    es := Prepend(l5, Reconfigure(30, true), l6, es);
    es := Prepend(l4, ReconnectTime(good), l5, es);
    es := Prepend(l3, Arrived(Unreadable, false), l4, es);
    es := Prepend(l2, ConnectDone(true, false, true), l3, es);
    es := Prepend(l1, Register(false, good), l2, es);
    es := Prepend(Created(), Reconfigure(1200, false), l1, es);
    hide *;
    assert Possible(Created(), es) && !Calm(Created(), es) && Run(Created(), es) == l7;
  }

  lemma Prepend(l: State, e: Event, l1: State, es: seq<Event>) returns (more: seq<Event>)
    requires Enabled(l, e) && Step(l, e) == l1 && Possible(l1, es)
    ensures Possible(l, more) && Run(l, more) == Run(l1, es)
    ensures Calm(l, more) <==> !ArmsEarly(l, e) && Calm(l1, es)
  {
    more := [e] + es;
    assert more[0] == e && more[1..] == es;
  }

  // ---------------------------------------------------------------- the object

  class CcbListener {
    var sock: Sock
    var waitingForConnect: bool
    var waitingForRegistration: bool
    var registered: bool
    var reconnectTimer: bool
    var heartbeat: Heartbeat
    var refs: int
    ghost var due: Due
    ghost var reverse: Reverse

    constructor ()
      ensures View() == Created()
    {
      sock, waitingForConnect, waitingForRegistration, registered := NoSock, false, false, false;
      reconnectTimer, heartbeat := false, Heartbeat(false, 0, false, false);
      refs, due, reverse := 1, Due(false, true, 0, 0), NONE;
    }

    ghost function View(): State
      reads this
    {
      State(sock, waitingForConnect, waitingForRegistration, registered, reconnectTimer, heartbeat, refs, due, reverse)
    }

    method StopHeartbeat()
      modifies this`heartbeat
      ensures heartbeat == old(heartbeat).(armed := false)
    {
      if heartbeat.armed {
        heartbeat := heartbeat.(armed := false);
      }
    }

    method RescheduleHeartbeat(oldServer: bool, open: bool)
      modifies this`heartbeat
      ensures View() == Rescheduled(old(View()), oldServer, open)
    {
      if !heartbeat.initialized {
        if sock.NoSock? {
          return;
        }
        heartbeat := heartbeat.(initialized := true, disabled := false);
        if heartbeat.interval > 0 && oldServer {
          heartbeat := heartbeat.(disabled := true);
        }
      }
      if heartbeat.interval <= 0 || heartbeat.disabled {
        StopHeartbeat();
        heartbeat := heartbeat.(initialized := true);
      } else if sock.Connected? || (sock.Pending? && open) {
        if !heartbeat.armed {
          heartbeat := heartbeat.(armed := true);
        }
      }
    }

    method Disconnect()
      modifies this
      ensures View() == Disconnected(old(View()))
    {
      sock := NoSock;
      if waitingForConnect {
        waitingForConnect, refs, due := false, refs - 1, due.(dropped := due.dropped + 1);
      }
      waitingForRegistration, registered := false, false;
      StopHeartbeat();
      if reconnectTimer {
        return;
      }
      reconnectTimer := true;
    }

    method WriteMsgToCCB(written: bool) returns (sent: bool)
      modifies this
      ensures View() == Written(old(View()), written)
      ensures sent <==> !old(sock).NoSock? && !old(waitingForConnect) && written
    {
      if sock.NoSock? || waitingForConnect {
        return false;
      }
      if !written {
        Disconnect();
        return false;
      }
      return true;
    }

    /** Connects first if need be; in non-blocking use the message then waits for the connect callback. */
    method SendRegistration(blocking: bool, a: Attempt) returns (sent: bool)
      requires Phases(View()) == 0
      modifies this
      ensures !blocking ==>
                View().(waitingForRegistration := sent) == Registering(old(View()), false, a)
                && !View().waitingForRegistration
      ensures blocking && !sent ==> View() == Registering(old(View()), true, a)
      ensures blocking && sent ==>
                !sock.NoSock? && Read(View(), a.reply, a.oldServer) == Registering(old(View()), true, a)
    {
      if sock.NoSock? {
        if blocking {
          if !a.made {
            Disconnect();
            return false;
          }
          sock := Connected;
          RescheduleHeartbeat(a.oldServer, false);
        } else {
          if !a.made {
            Disconnect();
            return false;
          }
          sock, waitingForConnect, refs := Pending, true, refs + 1;
          due := due.(connect := true, taken := due.taken + 1);
          return false;
        }
      }
      sent := WriteMsgToCCB(a.written);
    }

    method HandleRegistrationReply()
      modifies this`waitingForRegistration, this`registered
      ensures !waitingForRegistration && registered
    {
      waitingForRegistration, registered := false, true;
    }

    /** Tells the broker, if it can be told, how an order turned out. */
    method ReportReverseConnectResult(order: Order, success: bool, written: bool)
      modifies this
      ensures View() == Reported(old(View()), order, success, written)
    {
      hide Disconnected;
      WrittenApart(View(), reverse, written);
      var told := WriteMsgToCCB(written);
      if told {
        reverse := reverse.(sent := reverse.sent + [Report(order, success)]);
      }
    }

    /** Begins a reversed connection, which holds a reference, or reports that it could not. */
    method HandleCCBRequest(order: Order, initiated: bool, written: bool)
      modifies this
      ensures View() == Requested(old(View()), order, initiated, written)
    {
      hide Written, Sends, Tell;
      ghost var l, r := View(), reverse;
      reverse := r.(received := r.received + [order]);
      WrittenApart(l, reverse, written);
      if initiated {
        reverse := reverse.(pending := reverse.pending + [order]);
        refs := refs + 1;
      } else {
        ReportReverseConnectResult(order, false, written);
        WrittenApart(l, Take(r, order, false, Sends(l, written)), written);
      }
    }

    method ReadMsgFromCCB(message: Message, oldServer: bool)
      modifies this
      ensures View() == Read(old(View()), message, oldServer)
    {
      hide Disconnected, Rescheduled, Requested;
      if sock.NoSock? {
        return;
      }
      if message.Unreadable? {
        Disconnect();
        return;
      }
      RescheduleHeartbeat(oldServer, false);
      match message
      case RegistrationReply => HandleRegistrationReply();
      case Request(order, initiated, written) => HandleCCBRequest(order, initiated, written);
      case _ =>
    }

    method RegisterWithCCBServer(blocking: bool, a: Attempt)
      modifies this
      ensures View() == Registering(old(View()), blocking, a)
    {
      if waitingForConnect || reconnectTimer || waitingForRegistration || registered {
        return;
      }
      hide Read, Registering;
      var sent := SendRegistration(blocking, a);
      if sent {
        if blocking {
          ReadMsgFromCCB(a.reply, a.oldServer);
        } else {
          waitingForRegistration := true;
        }
      }
    }

    method DropConnectReference()
      modifies this`refs, this`due
      ensures View() == Dropped(old(View()))
    {
      refs, due := refs - 1, due.(dropped := due.dropped + 1);
    }

    method CCBConnectCallback(success: bool, oldServer: bool, written: bool)
      requires due.connect
      modifies this
      ensures View() == Answered(old(View()), success, oldServer, written)
    {
      hide Disconnected, Rescheduled, Registering;
      waitingForConnect, due := false, due.(connect := false);
      ghost var l1 := View();
      if success {
        sock := Connected;
        assert View() == l1.(sock := Connected);
        RescheduleHeartbeat(oldServer, false);
        RegisterWithCCBServer(false, Attempt(true, oldServer, written, Alive));
      } else {
        sock := NoSock;
        assert View() == l1.(sock := NoSock);
        Disconnect();
      }
      assert View() == Settled(old(View()), success, oldServer, written);
      hide Settled, View;
      DropConnectReference();
    }

    method FireReconnect(a: Attempt)
      requires reconnectTimer
      modifies this
      ensures View() == Step(old(View()), ReconnectTime(a))
    {
      hide Registering;
      reconnectTimer := false;
      RegisterWithCCBServer(false, a);
    }

    method FireHeartbeat(age: int, written: bool)
      requires heartbeat.armed
      modifies this
      ensures View() == Step(old(View()), HeartbeatTime(age, written))
    {
      hide Disconnected, Written;
      if age > 3 * heartbeat.interval {
        Disconnect();
        return;
      }
      var sent := WriteMsgToCCB(written);
    }

    /** Greets the client if the connection is made, and reports only then that it is. */
    method ReverseConnectDone(order: Order, ghost i: nat, connected: bool, greeted: bool, written: bool)
      requires i < |reverse.pending| && order == reverse.pending[i]
      modifies this
      ensures View() == Step(old(View()), ReverseConnected(i, connected, greeted, written))
    {
      ReversedInTurn(View(), i, connected && greeted, written);
      hide Reversed, Reported, Greeted, Forgotten, View;
      var success := WriteHello(order, connected, greeted);
      ReportReverseConnectResult(order, success, written);
      ForgetReverse(i);
    }

    /** The hello that makes a reversed connection look like a command to the client. */
    method WriteHello(order: Order, connected: bool, greeted: bool) returns (success: bool)
      modifies this`reverse
      ensures success == (connected && greeted)
      ensures View() == Greeted(old(View()), order, success)
    {
      if !connected {
        return false;
      }
      if !greeted {
        return false;
      }
      reverse := reverse.(sent := reverse.sent + [Hello(order)]);
      return true;
    }

    method ForgetReverse(ghost i: nat)
      requires i < |reverse.pending|
      modifies this`reverse, this`refs
      ensures View() == Forgotten(old(View()), i)
    {
      reverse := reverse.(pending := reverse.pending[..i] + reverse.pending[i + 1..]);
      refs := refs - 1;
    }

    method InitAndReconfig(setting: nat, open: bool)
      modifies this
      ensures View() == Reconfigured(old(View()), setting, open)
    {
      hide Rescheduled;
      var wanted: int := setting;
      if wanted != heartbeat.interval {
        if 0 < wanted < 30 {
          wanted := 30;
        }
        heartbeat := heartbeat.(interval := wanted);
        if heartbeat.initialized {
          RescheduleHeartbeat(false, open);
        }
      }
    }
  }
}
