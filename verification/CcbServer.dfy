/**
 * The connection broker: the object whose tables and counters the source updates in
 * place, and its loops.  Every method is proved to do what its function in
 * CcbServerSpec says.
 */
module CcbServer {
  import opened Common
  import opened CcbReconnectFile
  import opened CcbServerSpec
  import opened CcbServerProperties

  class CcbServer {
    var targets: map<CcbId, TargetState>
    var requests: map<CcbId, Request>
    var reconnect: map<CcbId, Reconnect>
    var nextCcbid: CcbId
    var nextRequestId: CcbId
    var lastSweep: int
    var sweepInterval: int
    var anyIp: bool
    var stats: Stats
    var store: Storage

    ghost function View(): Server
      reads this
    {
      Server(targets, requests, reconnect, nextCcbid, nextRequestId, lastSweep, sweepInterval, anyIp, stats, store)
    }

    // ---------------------------------------------------------------- requests

    method RemoveRequest(id: CcbId)
      requires id in requests
      modifies this`requests, this`targets
      ensures View() == WithoutRequest(old(View()), id)
    {
      var ccbid := requests[id].target;
      requests := requests - {id};
      if ccbid in targets {
        targets := targets[ccbid := targets[ccbid].(requests := targets[ccbid].requests - {id})];
      }
    }

    /** Removes a request and counts it as succeeded or failed. */
    method FinishRequest(id: CcbId, success: bool)
      requires id in requests
      modifies this`requests, this`targets, this`stats
      ensures View() == Finish(old(View()), id, success)
    {
      RemoveRequest(id);
      if success {
        stats := stats.(succeeded := stats.succeeded + 1);
      } else {
        stats := stats.(failed := stats.failed + 1);
      }
    }

    /** The search for a free identifier ends after as many rounds as there are live requests, plus one. */
    method NewRequestId() returns (id: CcbId, ghost rounds: nat)
      requires |requests| < WORD
      modifies this`nextRequestId
      ensures id == FreshId(old(nextRequestId), requests.Keys) && nextRequestId == NextId(id)
      ensures rounds <= |requests| + 1
    {
      hide Offset, NextId, FirstFree;
      ghost var free := FirstFree(nextRequestId, requests.Keys, 0);
      OffsetZero(nextRequestId);
      id, nextRequestId, rounds := nextRequestId, NextId(nextRequestId), 1;
      while id in requests
        invariant 1 <= rounds <= free + 1
        invariant id == Offset(old(nextRequestId), rounds - 1) && nextRequestId == NextId(id)
        decreases free - rounds
      {
        OffsetNext(old(nextRequestId), rounds - 1);
        id, nextRequestId, rounds := nextRequestId, NextId(nextRequestId), rounds + 1;
      }
    }

    method AddRequest(r: Request) returns (id: CcbId)
      requires |requests| < WORD && r.target in targets
      modifies this`requests, this`nextRequestId, this`targets, this`stats
      ensures id == FreshId(old(nextRequestId), old(requests).Keys)
      ensures View() == WithRequest(old(View()), id, r)
    {
      hide FreshId, NextId;
      ghost var rounds;
      id, rounds := NewRequestId();
      requests := requests[id := r];
      targets := targets[r.target := Expecting(targets[r.target], id, r)];
      stats := stats.(requests := stats.requests + 1);
    }

    // ---------------------------------------------------------------- targets

    /**
     * Hangs up on everybody who waits for the target and forgets it.  That the two request
     * indexes agree is what makes the loop end: every round takes one request out of the
     * target's table.
     */
    method RemoveTarget(ccbid: CcbId)
      requires Indexed(View()) && ccbid in targets
      modifies this`requests, this`targets, this`stats
      ensures View() == WithoutTarget(old(View()), ccbid)
    {
      hide Indexed, HungUp, WithoutTarget;
      ghost var s := View();
      HungUpStart(s, ccbid);
      while targets[ccbid].requests != map[]
        invariant ccbid in targets
        invariant targets[ccbid].requests.Keys <= s.targets[ccbid].requests.Keys
        invariant View() == HungUp(s, ccbid, targets[ccbid].requests)
        decreases |targets[ccbid].requests|
      {
        HangUpOne(ccbid, s);
      }
      HungUpEnd(s, ccbid);
      targets := targets - {ccbid};
      stats := stats.(endpointsConnected := stats.endpointsConnected - 1);
    }

    /** One round of that loop. */
    method HangUpOne(ccbid: CcbId, ghost s: Server)
      requires Indexed(s) && ccbid in s.targets && ccbid in targets && targets[ccbid].requests != map[]
      requires targets[ccbid].requests.Keys <= s.targets[ccbid].requests.Keys
      requires View() == HungUp(s, ccbid, targets[ccbid].requests)
      modifies this`requests, this`targets, this`stats
      ensures ccbid in targets && targets[ccbid].requests.Keys <= s.targets[ccbid].requests.Keys
      ensures View() == HungUp(s, ccbid, targets[ccbid].requests)
      ensures |targets[ccbid].requests| < |old(targets)[ccbid].requests|
    {
      hide Indexed, Finish, HungUp;
      ghost var left := targets[ccbid].requests;
      var id :| id in targets[ccbid].requests;
      HungUpStep(s, ccbid, left, id);
      Fewer(left, {id});
      FinishRequest(id, false);
    }

    method AddReconnectInfo(ccbid: CcbId, r: Reconnect)
      modifies this`reconnect, this`stats
      ensures reconnect == old(reconnect)[ccbid := r]
      ensures stats == if ccbid in old(reconnect) then old(stats)
                       else old(stats).(endpointsRegistered := old(stats).endpointsRegistered + 1)
    {
      if ccbid !in reconnect {
        stats := stats.(endpointsRegistered := stats.endpointsRegistered + 1);
      }
      reconnect := reconnect[ccbid := r];
    }

    /** Appends a line to the file, which is created if need be; the line is not flushed. */
    method SaveReconnectInfo(ccbid: CcbId)
      requires ccbid in reconnect
      modifies this`store
      ensures store == Storage(old(store).file + FormatLine(reconnect[ccbid].peerIp, ccbid, reconnect[ccbid].cookie),
                               old(store).disk, true)
    {
      store := store.(file := store.file + FormatLine(reconnect[ccbid].peerIp, ccbid, reconnect[ccbid].cookie),
                      created := true);
    }

    method FlushReconnectFile()
      modifies this`store
      ensures store == old(store).(disk := old(store).file)
    {
      store := store.(disk := store.file);
    }

    /** Passes identifiers that wait for a reconnect or are connected; ends within their number plus one rounds. */
    method NewCcbid() returns (id: CcbId, ghost rounds: nat)
      requires |reconnect.Keys + targets.Keys| < WORD
      modifies this`nextCcbid
      ensures id == FreshId(old(nextCcbid), reconnect.Keys + targets.Keys) && nextCcbid == NextId(id)
      ensures rounds <= |reconnect.Keys + targets.Keys| + 1
    {
      hide Offset, NextId, FirstFree;
      ghost var free := FirstFree(nextCcbid, reconnect.Keys + targets.Keys, 0);
      OffsetZero(nextCcbid);
      id, nextCcbid, rounds := nextCcbid, NextId(nextCcbid), 1;
      while id in reconnect || id in targets
        invariant 1 <= rounds <= free + 1
        invariant id == Offset(old(nextCcbid), rounds - 1) && nextCcbid == NextId(id)
        decreases free - rounds
      {
        OffsetNext(old(nextCcbid), rounds - 1);
        id, nextCcbid, rounds := nextCcbid, NextId(nextCcbid), rounds + 1;
      }
    }

    method AddTarget(target: TargetState, freshCookie: CcbId, now: int) returns (id: CcbId)
      requires |Taken(View())| < WORD && target == NewTarget(target.sock, target.peerIp)
      modifies this`targets, this`reconnect, this`nextCcbid, this`stats, this`store
      ensures id == FreshId(old(nextCcbid), Taken(old(View())))
      ensures View() == Added(old(View()), id, target.sock, target.peerIp, freshCookie, now)
    {
      hide FreshId, FormatLine, NextId;
      ghost var rounds;
      id, rounds := NewCcbid();
      targets := targets[id := target];
      AddReconnectInfo(id, Reconnect(freshCookie, target.peerIp, now));
      SaveReconnectInfo(id);
      stats := stats.(endpointsConnected := stats.endpointsConnected + 1);
    }

    method ReconnectTarget(id: CcbId, target: TargetState, cookie: CcbId, now: int) returns (ok: bool)
      requires Indexed(View()) && target == NewTarget(target.sock, target.peerIp)
      modifies this`targets, this`requests, this`reconnect, this`stats
      ensures ok == Accepted(old(View()), target.peerIp, Some(ReconnectClaim(id, cookie)))
      ensures View() == if ok then Reconnected(old(View()), id, target.sock, target.peerIp, now) else old(View())
    {
      hide Indexed, WithoutTarget;
      if id !in reconnect {
        return false;
      }
      if reconnect[id].peerIp != target.peerIp && !anyIp {
        return false;
      }
      if cookie != reconnect[id].cookie {
        return false;
      }
      reconnect := reconnect[id := reconnect[id].(lastAlive := now)];
      if id in targets {
        SameRequestsIndexed(old(View()), View());
        RemoveTarget(id);
      }
      targets := targets[id := target];
      stats := stats.(endpointsConnected := stats.endpointsConnected + 1, reconnects := stats.reconnects + 1);
      return true;
    }

    // ---------------------------------------------------------------- handlers

    method HandleRegistration(sock: SockId, ip: PeerIp, claim: Option<ReconnectClaim>, freshCookie: CcbId, now: int,
          replySent: bool)
      returns (outputs: seq<Output>)
      requires Inv(View()) && |Taken(View())| < WORD
      modifies this
      ensures Inv(View())
      ensures Outcome(View(), outputs) == CcbServerSpec.HandleRegistration(old(View()), sock, ip, claim, freshCookie,
                now, replySent)
    {
      hide Indexed, Persisted, Counted, Reconnected, Added, FreshId, WithoutTarget;
      RegistrationKeeps(View(), sock, ip, claim, freshCookie, now, replySent);
      var target := NewTarget(sock, ip);
      var reconnected := false;
      var ccbid := WORD - 1;
      if claim.Some? {
        ccbid := claim.value.ccbid;
        reconnected := ReconnectTarget(ccbid, target, claim.value.cookie, now);
      }
      if reconnected {
        ReconnectedInv(old(View()), ccbid, sock, ip, now);
      } else {
        assert View() == old(View());
        ccbid := AddTarget(target, freshCookie, now);
        AddedInv(old(View()), ccbid, sock, ip, freshCookie, now);
      }
      RegistrationRecord(old(View()), sock, ip, claim, freshCookie, now);
      // the source asserts here that the record exists
      assert ccbid in reconnect && ccbid in targets;
      if replySent {
        outputs := [Registered(sock, ccbid, reconnect[ccbid].cookie)];
      } else {
        RemoveTarget(ccbid);
        outputs := [];
      }
    }

    method HandleRequest(sock: SockId, msg: Option<RequestMsg>, forwarded: bool) returns (outputs: seq<Output>)
      requires Inv(View()) && |requests| < WORD
      modifies this
      ensures Inv(View())
      ensures Outcome(View(), outputs) == CcbServerSpec.HandleRequest(old(View()), sock, msg, forwarded)
    {
      hide Inv, FreshId, Finish;
      RequestKeeps(View(), sock, msg, forwarded);
      if msg.None? {
        return [];
      }
      var m := msg.value;
      if m.ccbid !in targets {
        stats := stats.(requests := stats.requests + 1, notFound := stats.notFound + 1);
        return [Reject(sock)];
      }
      var id := AddRequest(Request(sock, m.ccbid, m.returnAddr, m.connectId));
      if forwarded {
        outputs := [Forward(targets[m.ccbid].sock, m.ccbid, id, m.returnAddr, m.connectId)];
      } else {
        outputs := [Reply(sock, false, m.connectId, m.returnAddr)];
        FinishRequest(id, false);
      }
    }

    method HandleRequestResultsMsg(ccbid: CcbId, msg: TargetMsg, clientGone: bool, goneAtReply: bool,
          heartbeatSent: bool)
      returns (outputs: seq<Output>)
      requires Inv(View()) && ccbid in targets
      modifies this
      ensures Inv(View())
      ensures Outcome(View(), outputs) == HandleTargetMessage(old(View()), ccbid, msg, clientGone, goneAtReply,
                heartbeatSent)
    {
      hide Indexed, Persisted, Counted, WithoutTarget, Finish;
      outputs := [];
      if msg.Disconnected? {
        WithoutTargetInv(View(), ccbid);
        RemoveTarget(ccbid);
      } else if msg.Alive? {
        if heartbeatSent {
          outputs := [Heartbeat(targets[ccbid].sock)];
        } else {
          WithoutTargetInv(View(), ccbid);
          RemoveTarget(ccbid);
        }
      } else {
        outputs := HandleResultMsg(ccbid, msg.success, msg.requestId, msg.connectId, clientGone, goneAtReply);
      }
    }

    /** A target reports how a reverse connect went. */
    method HandleResultMsg(ccbid: CcbId, success: bool, requestId: Option<CcbId>, connectId: string,
          clientGone: bool, goneAtReply: bool)
      returns (outputs: seq<Output>)
      requires Inv(View()) && ccbid in targets
      modifies this
      ensures Inv(View())
      ensures Outcome(View(), outputs) == HandleResult(old(View()), ccbid, success, requestId, connectId, clientGone,
                goneAtReply)
    {
      hide Indexed, Persisted, Counted, WithoutTarget, Finish;
      ResultKeeps(View(), ccbid, success, requestId, connectId, clientGone, goneAtReply);
      ExpectOneLessInv(View(), ccbid);
      var t := targets[ccbid];
      targets := targets[ccbid := t.(pending := t.pending - 1, registered := t.registered && t.pending - 1 > 0)];
      outputs := [];
      if requestId.None? {
        RemoveTarget(ccbid);
        return;
      }
      var id := requestId.value;
      if id !in requests {
        return;
      }
      var r := requests[id];
      if clientGone {
        FinishRequest(id, success);
      } else if connectId != r.connectId {
        RemoveTarget(ccbid);
      } else {
        if !(success && goneAtReply) {
          outputs := [Reply(r.sock, success, r.connectId, r.returnAddr)];
        }
        FinishRequest(id, success);
      }
    }

    method HandleRequestDisconnect(id: CcbId)
      requires Inv(View()) && id in requests
      modifies this
      ensures Inv(View()) && View() == Finish(old(View()), id, true)
    {
      FinishInv(View(), id, true);
      FinishRequest(id, true);
    }

    // ---------------------------------------------------------------- starting

    /** A broker process that starts from scratch and finds `content` in its reconnect file, or no file. */
    constructor (content: string, created: bool, now: int, interval: int, anyIp: bool)
      requires created || content == ""
      ensures View() == Started(content, created, now, interval, anyIp)
    {
      hide LoadedTable, LoadedNext, RecordsFrom;
      targets, requests, reconnect := map[], map[], map[];
      nextCcbid, nextRequestId := 1, 1;
      lastSweep, sweepInterval, this.anyIp := now, interval, anyIp;
      stats, store := NO_STATS, Storage(content, content, created);
      new;
      LoadReconnectInfo(now);
    }

    /** Reads the reconnect file line by line, then jumps ahead of the identifiers it found. */
    method LoadReconnectInfo(now: int)
      requires reconnect == map[] && nextCcbid == 1 && stats == NO_STATS && (store.created || store.file == "")
      modifies this`reconnect, this`nextCcbid, this`stats
      ensures reconnect == LoadedTable(RecordsFrom(store.file, 0), now)
      ensures nextCcbid == StartedNext(store.file, store.created)
      ensures stats == NO_STATS.(endpointsRegistered := |reconnect|)
    {
      hide ParseLine, LoadedTable, LoadedNext, RecordsFrom;
      var file := store.file;
      LoadedNothing(file, now);
      if !store.created {
        return;
      }
      var at := 0;
      ghost var rs: seq<Record> := [];
      while at < |file|
        invariant at <= |file| && RecordsFrom(file, 0) == rs + RecordsFrom(file, at)
        invariant reconnect == LoadedTable(rs, now) && nextCcbid == LoadedNext(rs, 1)
        invariant stats == NO_STATS.(endpointsRegistered := |reconnect|)
      {
        ReadStep(file, at);
        var end := LineEnd(file, at, at);
        var line := ParseLine(file[at..end]);
        if line.Some? {
          LoadedStep(rs, line.value, now);
          LoadRecord(line.value, now);
          rs := rs + [line.value];
        }
        at := end;
      }
      assert RecordsFrom(file, 0) == rs;
      nextCcbid := (nextCcbid + 100) % WORD;
    }

    method LoadRecord(r: Record, now: int)
      requires stats == NO_STATS.(endpointsRegistered := |reconnect|)
      modifies this`reconnect, this`nextCcbid, this`stats
      ensures reconnect == old(reconnect)[r.ccbid := Reconnect(r.cookie, StoredIp(r.ip), now)]
      ensures nextCcbid == if r.ccbid > old(nextCcbid) then NextId(r.ccbid) else old(nextCcbid)
      ensures stats == NO_STATS.(endpointsRegistered := |reconnect|)
    {
      var info := Reconnect(r.cookie, StoredIp(r.ip), now);
      if r.ccbid > nextCcbid {
        nextCcbid := NextId(r.ccbid);
      }
      if r.ccbid in reconnect {
        AsMany(reconnect, r.ccbid, info);
      } else {
        OneMore(reconnect, r.ccbid, info);
      }
      AddReconnectInfo(r.ccbid, info);
    }

    // ---------------------------------------------------------------- sweeping

    /** Notes that every connected target is alive. */
    method RefreshConnected(now: int)
      requires Remembered(View())
      modifies this`reconnect
      ensures reconnect == Refreshed(old(View()), now)
    {
      var todo := targets.Keys;
      while todo != {}
        invariant todo <= targets.Keys
        invariant reconnect.Keys == old(reconnect).Keys
        invariant forall k :: k in reconnect ==>
                    reconnect[k] == if k in targets && k !in todo then old(reconnect)[k].(lastAlive := now)
                        else old(reconnect)[k]
        decreases todo
      {
        var k :| k in todo;
        // the source asserts here that the record exists
        assert k in reconnect;
        reconnect := reconnect[k := reconnect[k].(lastAlive := now)];
        todo := todo - {k};
      }
    }

    /** Drops the records that have expired and reports how many. */
    method DropExpired(now: int) returns (removed: nat)
      modifies this`reconnect, this`stats
      ensures reconnect == map k | k in old(reconnect) && !Expired(old(reconnect)[k], now, sweepInterval) ::
                old(reconnect)[k]
      ensures removed == |old(reconnect)| - |reconnect|
      ensures stats == old(stats).(endpointsRegistered := old(stats).endpointsRegistered - removed)
    {
      removed := 0;
      var todo := reconnect.Keys;
      while todo != {}
        invariant todo <= reconnect.Keys
        invariant forall k :: k in reconnect
                    <==> k in old(reconnect) && (k in todo || !Expired(old(reconnect)[k], now, sweepInterval))
        invariant forall k :: k in reconnect ==> reconnect[k] == old(reconnect)[k]
        invariant removed == |old(reconnect)| - |reconnect|
        invariant stats == old(stats).(endpointsRegistered := old(stats).endpointsRegistered - removed)
        decreases todo
      {
        var k :| k in todo;
        todo := todo - {k};
        if Expired(reconnect[k], now, sweepInterval) {
          Fewer(reconnect, {k});
          reconnect := reconnect - {k};
          stats := stats.(endpointsRegistered := stats.endpointsRegistered - 1);
          removed := removed + 1;
        }
      }
    }

    /** Rewrites the reconnect file from the table, in whatever order the table is walked, and closes it. */
    method SaveAllReconnectInfo() returns (ghost order: seq<CcbId>)
      modifies this`store
      ensures Enumerates(order, reconnect.Keys)
      ensures store == RewrittenStore(reconnect, order)
    {
      hide FormatLine;
      order := [];
      store := Storage("", "", false);
      var todo := reconnect.Keys;
      while todo != {}
        invariant todo <= reconnect.Keys && Enumerates(order, reconnect.Keys - todo)
        invariant store == Storage(Rewritten(reconnect, order), "", order != [])
        decreases todo
      {
        var k :| k in todo;
        SaveReconnectInfo(k);
        todo := todo - {k};
        ghost var more := order + [k];
        assert more[..|more| - 1] == order;
        order := more;
      }
      FlushReconnectFile();
    }

    /** The deleting part of a sweep. */
    method PruneRecords(now: int) returns (removed: nat)
      requires Remembered(View())
      modifies this`reconnect, this`stats
      ensures reconnect == Survivors(old(View()), now)
      ensures removed == |old(reconnect)| - |reconnect|
      ensures stats == old(stats).(endpointsRegistered := old(stats).endpointsRegistered - removed)
    {
      RefreshConnected(now);
      assert reconnect.Keys == old(reconnect).Keys;
      removed := DropExpired(now);
    }

    method SweepReconnectInfo(now: int) returns (ghost order: seq<CcbId>)
      requires Inv(View())
      modifies this
      ensures Inv(View())
      ensures Enumerates(order, Survivors(old(View()), now).Keys) && View() == Swept(old(View()), now, order)
    {
      hide Indexed, Persisted, Counted, Survivors, Enumerates, Rewritten, RewrittenStore;
      ghost var s := View();
      order := SomeOrder(Survivors(s, now).Keys);
      SweepKeeps(s, now, order);
      FlushReconnectFile();
      if lastSweep + sweepInterval > now {
        return;
      }
      var removed := PruneRecords(now);
      SameSurvivors(s, old(View()).(store := store), now);
      lastSweep := now;
      if removed > 0 {
        order := SaveAllReconnectInfo();
        SweepKeeps(s, now, order);
      }
    }
  }

  lemma SameSurvivors(s: Server, r: Server, now: int)
    requires r.targets == s.targets && r.reconnect == s.reconnect && r.sweepInterval == s.sweepInterval
    ensures Survivors(r, now) == Survivors(s, now)
  {
  }

  lemma LoadedNothing(text: string, now: int)
    ensures LoadedTable([], now) == map[] && LoadedNext([], 1) == 1
    ensures RecordsFrom(text, |text|) == []
  {
  }

  /** Reading one more line of the file. */
  lemma ReadStep(text: string, at: nat)
    requires at < |text|
    ensures var end := LineEnd(text, at, at);
            var line := ParseLine(text[at..end]);
            RecordsFrom(text, at) == (if line.Some? then [line.value] else []) + RecordsFrom(text, end)
  {
    hide ParseLine;
  }

  /** Loading one more record. */
  lemma LoadedStep(rs: seq<Record>, r: Record, now: int)
    ensures LoadedTable(rs + [r], now) == LoadedTable(rs, now)[r.ccbid := Reconnect(r.cookie, StoredIp(r.ip), now)]
    ensures LoadedNext(rs + [r], 1) == if r.ccbid > LoadedNext(rs, 1) then NextId(r.ccbid) else LoadedNext(rs, 1)
  {
    assert (rs + [r])[..|rs|] == rs;
  }

  /** Some order in which a table could be walked. */
  ghost method SomeOrder(keys: set<CcbId>) returns (order: seq<CcbId>)
    ensures Enumerates(order, keys)
  {
    order := [];
    var todo := keys;
    while todo != {}
      invariant todo <= keys && Enumerates(order, keys - todo)
      decreases todo
    {
      var k :| k in todo;
      todo := todo - {k};
      order := order + [k];
    }
  }

  /** Whichever way a registration goes, its target ends up connected and remembered. */
  lemma RegistrationRecord(s: Server, sock: SockId, ip: PeerIp, claim: Option<ReconnectClaim>, freshCookie: CcbId,
        now: int)
    requires |Taken(s)| < WORD
    ensures var id := if Accepted(s, ip, claim) then claim.value.ccbid else FreshId(s.nextCcbid, Taken(s));
            var r := if Accepted(s, ip, claim) then Reconnected(s, id, sock, ip, now)
                else Added(s, id, sock, ip, freshCookie, now);
            id in r.targets && id in r.reconnect
  {
    hide FreshId, FormatLine;
  }

  /** The broker on its way to dropping target `k`, when only `left` still wait for it. */
  ghost function HungUp(s: Server, k: CcbId, left: map<CcbId, Request>): Server
    requires k in s.targets
  {
    var own := s.targets[k].requests;
    s.(requests := s.requests - (own.Keys - left.Keys),
       targets := s.targets[k := s.targets[k].(requests := left)],
       stats := s.stats.(failed := s.stats.failed + |own| - |left|))
  }

  lemma HungUpStart(s: Server, k: CcbId)
    requires k in s.targets
    ensures HungUp(s, k, s.targets[k].requests) == s
  {
    assert s.targets[k := s.targets[k].(requests := s.targets[k].requests)] == s.targets;
    assert s.requests - {} == s.requests;
  }

  /** When nobody is left, what remains is to forget the target itself. */
  lemma HungUpEnd(s: Server, k: CcbId)
    requires k in s.targets
    ensures var h := HungUp(s, k, map[]);
            h.(targets := h.targets - {k}, stats := h.stats.(endpointsConnected := h.stats.endpointsConnected - 1))
            == WithoutTarget(s, k)
  {
    var none: map<CcbId, Request> := map[];
    assert s.targets[k].requests.Keys - none.Keys == s.targets[k].requests.Keys;
    SetThenDropped(s.targets, k, s.targets[k].(requests := map[]));
  }

  lemma SetThenDropped<K, V>(m: map<K, V>, k: K, v: V)
    ensures m[k := v] - {k} == m - {k}
  {
  }

  lemma HungUpStep(s: Server, k: CcbId, left: map<CcbId, Request>, id: CcbId)
    requires Indexed(s) && k in s.targets && left.Keys <= s.targets[k].requests.Keys && id in left
    ensures id in HungUp(s, k, left).requests
    ensures Finish(HungUp(s, k, left), id, false) == HungUp(s, k, left - {id})
    ensures k in HungUp(s, k, left - {id}).targets && HungUp(s, k, left - {id}).targets[k].requests == left - {id}
  {
    hide Indexed;
    OwnRequests(s, k);
    Fewer(left, {id});
    DroppedOneMore(s.requests, s.targets[k].requests.Keys, left, id);
    SetTwice(s.targets, k, s.targets[k].(requests := left), s.targets[k].(requests := left - {id}));
  }

  lemma SetTwice<K, V>(m: map<K, V>, k: K, v: V, w: V)
    ensures m[k := v][k := w] == m[k := w]
  {
  }

  lemma DroppedOneMore<K, V, W>(m: map<K, V>, own: set<K>, left: map<K, W>, id: K)
    requires left.Keys <= own && id in left
    ensures m - (own - left.Keys) - {id} == m - (own - (left - {id}).Keys)
  {
    assert own - (left - {id}).Keys == (own - left.Keys) + {id};
  }
}
