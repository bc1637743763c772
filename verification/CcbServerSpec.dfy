/**
 * What the connection broker does, as functions on its state: one function for
 * every handler, the invariant that every handler keeps, and what follows for
 * every run.  Module CcbServer holds the objects and loops that implement these
 * functions.
 */
module CcbServerSpec {
  import opened Common
  import opened CcbReconnectFile

  type SockId = nat

  /** A client waiting for a target to connect back to it. */
  datatype Request = Request(sock: SockId, target: CcbId, returnAddr: string, connectId: string)

  datatype TargetState = TargetState(
    sock: SockId,
    peerIp: PeerIp,
    pending: int,
    registered: bool,
    requests: map<CcbId, Request>)

  datatype Reconnect = Reconnect(cookie: CcbId, peerIp: string, lastAlive: int)

  datatype Stats = Stats(
    endpointsConnected: int,
    endpointsRegistered: int,
    reconnects: int,
    requests: int,
    notFound: int,
    succeeded: int,
    failed: int)

  datatype Server = Server(
    targets: map<CcbId, TargetState>,
    requests: map<CcbId, Request>,
    reconnect: map<CcbId, Reconnect>,
    nextCcbid: CcbId,
    nextRequestId: CcbId,
    lastSweep: int,
    sweepInterval: int,
    anyIp: bool,
    stats: Stats,
    store: Storage)

  /**
   * The reconnect file: all that was written to it, the part of that which has been flushed, and
   * whether there is a file at all.
   */
  datatype Storage = Storage(file: string, disk: string, created: bool)

  // ---------------------------------------------------------------- messages

  datatype RequestMsg = RequestMsg(ccbid: CcbId, returnAddr: string, connectId: string)

  /** The identifier and cookie that a reconnecting target presents. */
  datatype ReconnectClaim = ReconnectClaim(ccbid: CcbId, cookie: CcbId)

  /** What the broker reads from a target's socket. */
  datatype TargetMsg =
    | Disconnected
    | Alive
    | Result(success: bool, requestId: Option<CcbId>, connectId: string)

  /** What the broker writes. */
  datatype Output =
    | Registered(sock: SockId, ccbid: CcbId, cookie: CcbId)
    | Forward(sock: SockId, ccbid: CcbId, requestId: CcbId, returnAddr: string, connectId: string)
    | Heartbeat(sock: SockId)
    | Reply(sock: SockId, success: bool, connectId: string, returnAddr: string)
    | Reject(sock: SockId)

  /** One activation of the broker, with everything that its environment decides. */
  datatype Event =
    | Registration(sock: SockId, ip: PeerIp, claim: Option<ReconnectClaim>, freshCookie: CcbId, now: int,
        replySent: bool)
    | ClientRequest(sock: SockId, request: Option<RequestMsg>, forwarded: bool)
    | TargetMessage(ccbid: CcbId, msg: TargetMsg, clientGone: bool, goneAtReply: bool, heartbeatSent: bool)
    | ClientDisconnect(requestId: CcbId)
    | Sweep(now: int, order: seq<CcbId>)
    | Reconfigure(now: int, interval: int, anyIp: bool)
    | Restart(now: int, interval: int, anyIp: bool, kept: string) // the process ends with `kept` in its file

  datatype Outcome = Outcome(state: Server, outputs: seq<Output>)

  // ---------------------------------------------------------------- fresh identifiers

  /** The identifier that a wrapping counter shows after `i` increments. */
  function Offset(start: CcbId, i: nat): CcbId
  {
    (start + i) % WORD
  }

  ghost function Window(start: CcbId, n: nat): set<CcbId>
  {
    set i | 0 <= i < n :: Offset(start, i)
  }

  /** Up to a full turn the counter shows pairwise different identifiers. */
  lemma {:induction false} WindowSize(start: CcbId, n: nat)
    requires n <= WORD
    ensures |Window(start, n)| == n
  {
    if n > 0 {
      WindowSize(start, n - 1);
      WindowGrows(start, n);
      LastIsNew(start, n);
      hide Window, Offset;
    }
  }

  lemma WindowGrows(start: CcbId, n: nat)
    requires n > 0
    ensures Window(start, n) == Window(start, n - 1) + {Offset(start, n - 1)}
  {
    hide Offset;
    forall x | x in Window(start, n)
      ensures x in Window(start, n - 1) + {Offset(start, n - 1)}
    {
      var i: nat :| i < n && x == Offset(start, i);
      assert i < n - 1 || i == n - 1;
    }
  }

  lemma LastIsNew(start: CcbId, n: nat)
    requires 0 < n <= WORD
    ensures Offset(start, n - 1) !in Window(start, n - 1)
  {
    hide Offset;
    forall i | 0 <= i < n - 1
      ensures Offset(start, i) != Offset(start, n - 1)
    {
      OffsetsDiffer(start, i, n - 1);
    }
  }

  lemma OffsetsDiffer(start: CcbId, i: nat, j: nat)
    requires i < j < i + WORD
    ensures Offset(start, i) != Offset(start, j)
  {
    var q, r := (start + i) / WORD, (start + j) / WORD;
    assert start + i == q * WORD + Offset(start, i);
    assert start + j == r * WORD + Offset(start, j);
    assert q <= r <= q + 1;
  }

  lemma SubsetSize<T>(a: set<T>, b: set<T>)
    requires a <= b
    ensures |a| <= |b|
    ensures |b - a| == |b| - |a|
  {
    assert b == a + (b - a);
  }

  /** If the first `n` identifiers are all taken, at least `n` identifiers are taken. */
  lemma Pigeonhole(start: CcbId, used: set<CcbId>, n: nat)
    requires n <= WORD
    requires forall i :: 0 <= i < n ==> Offset(start, i) in used
    ensures n <= |used|
  {
    WindowSize(start, n);
    SubsetSize(Window(start, n), used);
  }

  /** How many taken identifiers the counter passes before a free one. */
  function FirstFree(start: CcbId, used: set<CcbId>, from: nat): (i: nat)
    requires |used| < WORD && from <= |used|
    requires forall j :: 0 <= j < from ==> Offset(start, j) in used
    ensures from <= i <= |used|
    ensures Offset(start, i) !in used
    ensures forall j :: 0 <= j < i ==> Offset(start, j) in used
    decreases |used| - from
  {
    if Offset(start, from) !in used then from
    else
      Pigeonhole(start, used, from + 1);
      FirstFree(start, used, from + 1)
  }

  function FreshId(start: CcbId, used: set<CcbId>): (id: CcbId)
    requires |used| < WORD
    ensures id !in used
  {
    Offset(start, FirstFree(start, used, 0))
  }

  function NextId(id: CcbId): CcbId
  {
    (id + 1) % WORD
  }

  lemma OffsetZero(start: CcbId)
    ensures Offset(start, 0) == start
  {
  }

  lemma OffsetNext(start: CcbId, i: nat)
    ensures NextId(Offset(start, i)) == Offset(start, i + 1)
  {
  }

  // ---------------------------------------------------------------- requests

  function WithoutRequest(s: Server, id: CcbId): Server
    requires id in s.requests
  {
    var t := s.requests[id].target;
    s.(requests := s.requests - {id},
       targets := if t in s.targets
                  then s.targets[t := s.targets[t].(requests := s.targets[t].requests - {id})]
                  else s.targets)
  }

  function Score(st: Stats, success: bool): Stats
  {
    if success then st.(succeeded := st.succeeded + 1) else st.(failed := st.failed + 1)
  }

  /** A request leaves the broker and is counted. */
  function Finish(s: Server, id: CcbId, success: bool): Server
    requires id in s.requests
  {
    var r := WithoutRequest(s, id);
    r.(stats := Score(r.stats, success))
  }

  /** A target from which one more result is expected. */
  function Expecting(t: TargetState, id: CcbId, r: Request): TargetState
  {
    t.(pending := t.pending + 1, registered := true, requests := t.requests[id := r])
  }

  function WithRequest(s: Server, id: CcbId, r: Request): Server
    requires r.target in s.targets
  {
    s.(requests := s.requests[id := r],
       nextRequestId := NextId(id),
       targets := s.targets[r.target := Expecting(s.targets[r.target], id, r)],
       stats := s.stats.(requests := s.stats.requests + 1))
  }

  function HandleRequest(s: Server, sock: SockId, msg: Option<RequestMsg>, forwarded: bool): Outcome
    requires |s.requests| < WORD
  {
    if msg.None? then Outcome(s, [])
    else
      var m := msg.value;
      if m.ccbid !in s.targets then
        Outcome(s.(stats := s.stats.(requests := s.stats.requests + 1, notFound := s.stats.notFound + 1)),
            [Reject(sock)])
      else
        var r := Request(sock, m.ccbid, m.returnAddr, m.connectId);
        var id := FreshId(s.nextRequestId, s.requests.Keys);
        var s1 := WithRequest(s, id, r);
        if forwarded
        then Outcome(s1, [Forward(s.targets[m.ccbid].sock, m.ccbid, id, m.returnAddr, m.connectId)])
        else Outcome(Finish(s1, id, false), [Reply(sock, false, m.connectId, m.returnAddr)])
  }

  // ---------------------------------------------------------------- targets

  /** A target goes away: the broker hangs up on everyone who waits for it. */
  function WithoutTarget(s: Server, ccbid: CcbId): Server
    requires ccbid in s.targets
  {
    var waiting := s.targets[ccbid].requests;
    s.(requests := s.requests - waiting.Keys,
       targets := s.targets - {ccbid},
       stats := s.stats.(failed := s.stats.failed + |waiting|, endpointsConnected := s.stats.endpointsConnected - 1))
  }

  function Accepted(s: Server, ip: PeerIp, claim: Option<ReconnectClaim>): bool
  {
    && claim.Some?
    && claim.value.ccbid in s.reconnect
    && (s.reconnect[claim.value.ccbid].peerIp == ip || s.anyIp)
    && s.reconnect[claim.value.ccbid].cookie == claim.value.cookie
  }

  function NewTarget(sock: SockId, ip: PeerIp): TargetState
  {
    TargetState(sock, ip, 0, false, map[])
  }

  /** A target takes its old identifier back and replaces a connection it may still have. */
  function Reconnected(s: Server, ccbid: CcbId, sock: SockId, ip: PeerIp, now: int): Server
    requires ccbid in s.reconnect
  {
    var s1 := s.(reconnect := s.reconnect[ccbid := s.reconnect[ccbid].(lastAlive := now)]);
    var s2 := if ccbid in s1.targets then WithoutTarget(s1, ccbid) else s1;
    s2.(targets := s2.targets[ccbid := NewTarget(sock, ip)],
        stats := s2.stats.(endpointsConnected := s2.stats.endpointsConnected + 1,
            reconnects := s2.stats.reconnects + 1))
  }

  /** A target registers under a new identifier, which is also written to the reconnect file. */
  function Added(s: Server, ccbid: CcbId, sock: SockId, ip: PeerIp, cookie: CcbId, now: int): Server
  {
    s.(targets := s.targets[ccbid := NewTarget(sock, ip)],
       reconnect := s.reconnect[ccbid := Reconnect(cookie, ip, now)],
       nextCcbid := NextId(ccbid),
       store := s.store.(file := s.store.file + FormatLine(ip, ccbid, cookie), created := true),
       stats := s.stats.(endpointsConnected := s.stats.endpointsConnected + 1,
                         endpointsRegistered := s.stats.endpointsRegistered + 1))
  }

  function Taken(s: Server): set<CcbId>
  {
    s.reconnect.Keys + s.targets.Keys
  }

  function HandleRegistration(s: Server, sock: SockId, ip: PeerIp, claim: Option<ReconnectClaim>, freshCookie: CcbId,
        now: int, replySent: bool): Outcome
    requires |Taken(s)| < WORD
  {
    var ccbid := if Accepted(s, ip, claim) then claim.value.ccbid else FreshId(s.nextCcbid, Taken(s));
    var s1 := if Accepted(s, ip, claim) then Reconnected(s, ccbid, sock, ip, now)
        else Added(s, ccbid, sock, ip, freshCookie, now);
    if replySent then Outcome(s1, [Registered(sock, ccbid, s1.reconnect[ccbid].cookie)])
    else Outcome(WithoutTarget(s1, ccbid), [])
  }

  function ExpectOneLess(s: Server, ccbid: CcbId): Server
    requires ccbid in s.targets
  {
    var t := s.targets[ccbid];
    s.(targets := s.targets[ccbid := t.(pending := t.pending - 1, registered := t.registered && t.pending - 1 > 0)])
  }

  function HandleResult(s: Server, ccbid: CcbId, success: bool, requestId: Option<CcbId>, connectId: string,
        clientGone: bool, goneAtReply: bool): Outcome
    requires ccbid in s.targets
  {
    var s1 := ExpectOneLess(s, ccbid);
    if requestId.None? then Outcome(WithoutTarget(s1, ccbid), [])
    else if requestId.value !in s1.requests then Outcome(s1, [])
    else
      var r := s1.requests[requestId.value];
      if clientGone then Outcome(Finish(s1, requestId.value, success), [])
      else if connectId != r.connectId then Outcome(WithoutTarget(s1, ccbid), [])
      else Outcome(Finish(s1, requestId.value, success),
                   if success && goneAtReply then [] else [Reply(r.sock, success, r.connectId, r.returnAddr)])
  }

  function HandleTargetMessage(s: Server, ccbid: CcbId, msg: TargetMsg, clientGone: bool, goneAtReply: bool,
        heartbeatSent: bool): Outcome
    requires ccbid in s.targets
  {
    match msg
    case Disconnected => Outcome(WithoutTarget(s, ccbid), [])
    case Alive =>
      if heartbeatSent then Outcome(s, [Heartbeat(s.targets[ccbid].sock)]) else Outcome(WithoutTarget(s, ccbid), [])
    case Result(success, requestId, connectId) =>
      HandleResult(s, ccbid, success, requestId, connectId, clientGone, goneAtReply)
  }

  // ---------------------------------------------------------------- sweeping

  /** The records after every connected target was noted as alive. */
  function Refreshed(s: Server, now: int): map<CcbId, Reconnect>
  {
    map k | k in s.reconnect :: if k in s.targets then s.reconnect[k].(lastAlive := now) else s.reconnect[k]
  }

  predicate Expired(r: Reconnect, now: int, interval: int)
  {
    now - r.lastAlive > 2 * interval
  }

  function Survivors(s: Server, now: int): map<CcbId, Reconnect>
  {
    map k | k in s.reconnect && !Expired(Refreshed(s, now)[k], now, s.sweepInterval) :: Refreshed(s, now)[k]
  }

  predicate SweepDue(s: Server, now: int)
  {
    s.lastSweep + s.sweepInterval <= now
  }

  /** The order in which a table was walked: every key once. */
  ghost predicate Enumerates(order: seq<CcbId>, keys: set<CcbId>)
  {
    && (forall i :: 0 <= i < |order| ==> order[i] in keys)
    && (forall k :: k in keys ==> k in order)
    && (forall i, j :: 0 <= i < j < |order| ==> order[i] != order[j])
  }

  function RecordOf(k: CcbId, r: Reconnect): Record
  {
    Record(r.peerIp, k, r.cookie)
  }

  /** The file that writing the table in the given order produces. */
  function Rewritten(table: map<CcbId, Reconnect>, order: seq<CcbId>): string
    requires forall k :: k in order ==> k in table
  {
    if order == [] then ""
    else
      var k := order[|order| - 1];
      Rewritten(table, order[..|order| - 1]) + FormatLine(table[k].peerIp, k, table[k].cookie)
  }

  /** A rewritten file is closed, and an empty one is removed. */
  function RewrittenStore(table: map<CcbId, Reconnect>, order: seq<CcbId>): Storage
    requires forall k :: k in order ==> k in table
  {
    Storage(Rewritten(table, order), Rewritten(table, order), order != [])
  }

  function Swept(s: Server, now: int, order: seq<CcbId>): Server
    requires SweepDue(s, now) && |Survivors(s, now)| < |s.reconnect| ==> forall k :: k in order ==>
               k in Survivors(s, now)
  {
    var s0 := s.(store := s.store.(disk := s.store.file));
    if !SweepDue(s, now) then s0
    else
      var left := Survivors(s, now);
      var s1 := s0.(lastSweep := now, reconnect := left,
                    stats := s.stats.(endpointsRegistered := s.stats.endpointsRegistered - (|s.reconnect| - |left|)));
      if |left| < |s.reconnect| then s1.(store := RewrittenStore(left, order)) else s1
  }

  // ---------------------------------------------------------------- restart

  function StoredIp(ip: string): string
  {
    if |ip| > 47 then ip[..47] else ip
  }

  /** The reconnect table that reading the records in order leaves. */
  function LoadedTable(rs: seq<Record>, now: int): map<CcbId, Reconnect>
  {
    if rs == [] then map[]
    else
      var r := rs[|rs| - 1];
      LoadedTable(rs[..|rs| - 1], now)[r.ccbid := Reconnect(r.cookie, StoredIp(r.ip), now)]
  }

  /** The identifier counter after reading the records, before it jumps ahead. */
  function LoadedNext(rs: seq<Record>, start: CcbId): CcbId
  {
    if rs == [] then start
    else
      var next := LoadedNext(rs[..|rs| - 1], start);
      var id := rs[|rs| - 1].ccbid;
      if id > next then NextId(id) else next
  }

  const NO_STATS := Stats(0, 0, 0, 0, 0, 0, 0)

  /** The identifier counter of a new process: a file, even an empty one, makes it jump ahead. */
  function StartedNext(text: string, created: bool): CcbId
  {
    if created then (LoadedNext(RecordsFrom(text, 0), 1) + 100) % WORD else 1
  }

  /** A new broker process that finds the given text in its file, or no file. */
  function Started(text: string, created: bool, now: int, interval: int, anyIp: bool): Server
  {
    var table := LoadedTable(RecordsFrom(text, 0), now);
    Server(map[], map[], table, StartedNext(text, created), 1, now, interval, anyIp,
           NO_STATS.(endpointsRegistered := |table|), Storage(text, text, created))
  }

  /** What a process may leave in its file: all that was flushed, and perhaps more, in whole lines. */
  predicate Leaves(store: Storage, kept: string)
  {
    store.disk <= kept <= store.file && (kept == "" || kept[|kept| - 1] == '\n')
  }

  // ---------------------------------------------------------------- steps and runs

  ghost predicate Enabled(s: Server, e: Event)
  {
    match e
    case Registration(_, _, _, _, _, _) => |Taken(s)| < WORD
    case ClientRequest(_, _, _) => |s.requests| < WORD
    case TargetMessage(ccbid, _, _, _, _) => ccbid in s.targets
    case ClientDisconnect(id) => id in s.requests
    case Sweep(now, order) => Enumerates(order, Survivors(s, now).Keys)
    case Reconfigure(_, interval, _) => interval >= 0
    case Restart(_, interval, _, kept) => interval >= 0 && Leaves(s.store, kept)
  }

  ghost function Step(s: Server, e: Event): Outcome
    requires Enabled(s, e)
  {
    match e
    case Registration(sock, ip, claim, freshCookie, now, replySent) =>
      HandleRegistration(s, sock, ip, claim, freshCookie, now, replySent)
    case ClientRequest(sock, msg, forwarded) => HandleRequest(s, sock, msg, forwarded)
    case TargetMessage(ccbid, msg, clientGone, goneAtReply, heartbeatSent) =>
      HandleTargetMessage(s, ccbid, msg, clientGone, goneAtReply, heartbeatSent)
    case ClientDisconnect(id) => Outcome(Finish(s, id, true), [])
    case Sweep(now, order) => Outcome(Swept(s, now, order), [])
    case Reconfigure(now, interval, anyIp) =>
      Outcome(s.(lastSweep := now, sweepInterval := interval, anyIp := anyIp), [])
    case Restart(now, interval, anyIp, kept) => Outcome(Started(kept, s.store.created, now, interval, anyIp), [])
  }

  /** The events can happen one after the other, starting in `s`. */
  ghost predicate Possible(s: Server, es: seq<Event>)
    decreases |es|
  {
    es == [] || (Enabled(s, es[0]) && Possible(Step(s, es[0]).state, es[1..]))
  }

  ghost function Run(s: Server, es: seq<Event>): Server
    requires Possible(s, es)
    decreases |es|
  {
    if es == [] then s else Run(Step(s, es[0]).state, es[1..])
  }

  // ---------------------------------------------------------------- invariant

  /** Target `k` holds request `id` rightly: it is live, it is the same, and it names `k`. */
  ghost predicate Filed(s: Server, k: CcbId, id: CcbId)
    requires k in s.targets && id in s.targets[k].requests
  {
    id in s.requests && s.requests[id] == s.targets[k].requests[id] && s.requests[id].target == k
  }

  /** Live request `id` names a connected target that holds it. */
  ghost predicate Awaited(s: Server, id: CcbId)
    requires id in s.requests
  {
    s.requests[id].target in s.targets && id in s.targets[s.requests[id].target].requests
  }

  /** The two request indexes agree: a target's own table is exactly the live requests that name it. */
  ghost predicate Indexed(s: Server)
  {
    && (forall k, id :: k in s.targets && id in s.targets[k].requests ==> Filed(s, k, id))
    && (forall id :: id in s.requests ==> Awaited(s, id))
  }

  /** Every request ever received is accounted for; the two gauges are exact. */
  ghost predicate Counted(s: Server)
  {
    && s.stats.requests == s.stats.notFound + s.stats.succeeded + s.stats.failed + |s.requests|
    && s.stats.endpointsConnected == |s.targets|
    && s.stats.endpointsRegistered == |s.reconnect|
  }

  /** Every connected target can be recognised again after its connection breaks. */
  ghost predicate Remembered(s: Server)
  {
    s.targets.Keys <= s.reconnect.Keys
  }

  function Claims(table: map<CcbId, Reconnect>): map<CcbId, Claim>
  {
    map k | k in table :: Claim(table[k].cookie, table[k].peerIp)
  }

  predicate Distinct(rs: seq<Record>)
  {
    forall i, j :: 0 <= i < j < |rs| ==> rs[i].ccbid != rs[j].ccbid
  }

  /**
   * The file holds the records `rs`, one for every identifier of the table; the first `m` of them are
   * flushed, and if there are more, the last one is that of the identifier handed out last.
   */
  ghost predicate Described(s: Server, rs: seq<Record>, m: nat)
  {
    && Writable(rs) && Distinct(rs) && TableOf(rs) == Claims(s.reconnect)
    && s.store.file == Lines(rs) && (rs != [] ==> s.store.created)
    && m <= |rs| && s.store.disk == Lines(rs[..m])
    && (m < |rs| ==> NextId(rs[|rs| - 1].ccbid) == s.nextCcbid)
  }

  /** The file says what the table says. */
  ghost predicate Persisted(s: Server)
  {
    exists rs: seq<Record>, m: nat :: Described(s, rs, m)
  }

  ghost predicate Inv(s: Server)
  {
    && Indexed(s)
    && Counted(s)
    && Remembered(s)
    && Persisted(s)
    && s.sweepInterval >= 0
  }
}
