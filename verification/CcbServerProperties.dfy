/** Every handler of the broker keeps the broker's invariant, so every run does. */
module CcbServerProperties {
  import opened Common
  import opened CcbReconnectFile
  import opened CcbServerSpec

  // ---------------------------------------------------------------- the two indexes

  lemma FinishIndexed(s: Server, id: CcbId, success: bool)
    requires Indexed(s) && id in s.requests
    ensures Indexed(Finish(s, id, success))
  {
    var r := Finish(s, id, success);
    assert Awaited(s, id);
    forall k, i | k in r.targets && i in r.targets[k].requests
      ensures Filed(r, k, i)
    {
      assert Filed(s, k, i);
    }
    forall i | i in r.requests
      ensures Awaited(r, i)
    {
      assert Awaited(s, i);
    }
  }

  lemma WithoutTargetIndexed(s: Server, ccbid: CcbId)
    requires Indexed(s) && ccbid in s.targets
    ensures Indexed(WithoutTarget(s, ccbid))
  {
    var r := WithoutTarget(s, ccbid);
    forall k, i | k in r.targets && i in r.targets[k].requests
      ensures Filed(r, k, i)
    {
      assert Filed(s, k, i);
      assert i in s.targets[ccbid].requests ==> Filed(s, ccbid, i);
    }
    forall i | i in r.requests
      ensures Awaited(r, i)
    {
      assert Awaited(s, i);
    }
  }

  lemma WithRequestIndexed(s: Server, id: CcbId, q: Request)
    requires Indexed(s) && q.target in s.targets && id !in s.requests
    ensures Indexed(WithRequest(s, id, q))
  {
    var r := WithRequest(s, id, q);
    forall k, i | k in r.targets && i in r.targets[k].requests
      ensures Filed(r, k, i)
    {
      assert i in s.targets[k].requests ==> Filed(s, k, i);
    }
    forall i | i in r.requests
      ensures Awaited(r, i)
    {
      assert i != id ==> Awaited(s, i);
    }
  }

  /** Replacing targets one by one, with the same requests waiting, keeps the indexes in step. */
  lemma SameRequestsIndexed(s: Server, r: Server)
    requires Indexed(s) && r.requests == s.requests && s.targets.Keys <= r.targets.Keys
    requires forall k :: k in r.targets ==> r.targets[k].requests == if k in s.targets then s.targets[k].requests
               else map[]
    ensures Indexed(r)
  {
    forall k, i | k in r.targets && i in r.targets[k].requests
      ensures Filed(r, k, i)
    {
      assert Filed(s, k, i);
    }
    forall i | i in r.requests
      ensures Awaited(r, i)
    {
      assert Awaited(s, i);
    }
  }

  // ---------------------------------------------------------------- the counters

  lemma OneMore<K, V>(m: map<K, V>, k: K, v: V)
    requires k !in m
    ensures |m[k := v]| == |m| + 1
  {
    assert m[k := v].Keys == m.Keys + {k};
  }

  lemma AsMany<K, V>(m: map<K, V>, k: K, v: V)
    requires k in m
    ensures |m[k := v]| == |m|
  {
    assert m[k := v].Keys == m.Keys;
  }

  lemma Fewer<K, V>(m: map<K, V>, ks: set<K>)
    requires ks <= m.Keys
    ensures |m - ks| == |m| - |ks|
  {
    assert (m - ks).Keys == m.Keys - ks;
    SubsetSize(ks, m.Keys);
  }

  lemma FinishCounted(s: Server, id: CcbId, success: bool)
    requires Counted(s) && id in s.requests
    ensures Counted(Finish(s, id, success))
  {
    Fewer(s.requests, {id});
    var t := s.requests[id].target;
    if t in s.targets {
      AsMany(s.targets, t, s.targets[t].(requests := s.targets[t].requests - {id}));
    }
  }

  lemma WithoutTargetCounted(s: Server, ccbid: CcbId)
    requires Indexed(s) && Counted(s) && ccbid in s.targets
    ensures Counted(WithoutTarget(s, ccbid))
  {
    OwnRequests(s, ccbid);
    Fewer(s.requests, s.targets[ccbid].requests.Keys);
    Fewer(s.targets, {ccbid});
    hide Indexed;
    assert |s.targets[ccbid].requests| == |s.targets[ccbid].requests.Keys|;
  }

  /** What a target's own table holds are live requests that name the target. */
  lemma OwnRequests(s: Server, k: CcbId)
    requires Indexed(s) && k in s.targets
    ensures s.targets[k].requests.Keys <= s.requests.Keys
    ensures forall id :: id in s.targets[k].requests ==> id in s.requests && s.requests[id].target == k
  {
    forall id | id in s.targets[k].requests
      ensures id in s.requests && s.requests[id].target == k
    {
      assert Filed(s, k, id);
    }
  }

  lemma WithRequestCounted(s: Server, id: CcbId, q: Request)
    requires Counted(s) && q.target in s.targets && id !in s.requests
    ensures Counted(WithRequest(s, id, q))
  {
    OneMore(s.requests, id, q);
    AsMany(s.targets, q.target, Expecting(s.targets[q.target], id, q));
  }

  // ---------------------------------------------------------------- targets come and go

  /** The record of a target that comes back is refreshed. */
  function Noted(s: Server, ccbid: CcbId, now: int): Server
    requires ccbid in s.reconnect
  {
    s.(reconnect := s.reconnect[ccbid := s.reconnect[ccbid].(lastAlive := now)])
  }

  lemma NotedKeeps(s: Server, ccbid: CcbId, now: int)
    requires Indexed(s) && Counted(s) && Remembered(s) && ccbid in s.reconnect
    ensures var r := Noted(s, ccbid, now); Indexed(r) && Counted(r) && Remembered(r)
  {
    hide Indexed;
    SameRequestsIndexed(s, Noted(s, ccbid, now));
    AsMany(s.reconnect, ccbid, s.reconnect[ccbid].(lastAlive := now));
  }

  /** The first part of a reconnect: the record is refreshed and an old connection is dropped. */
  lemma DroppedKeeps(s: Server, ccbid: CcbId, now: int)
    requires Indexed(s) && Counted(s) && Remembered(s) && ccbid in s.reconnect
    ensures var s1 := Noted(s, ccbid, now);
            var s2 := if ccbid in s1.targets then WithoutTarget(s1, ccbid) else s1;
            Indexed(s2) && Counted(s2) && Remembered(s2) && ccbid !in s2.targets && s2.reconnect == s1.reconnect
  {
    hide Indexed, Counted;
    var s1 := Noted(s, ccbid, now);
    NotedKeeps(s, ccbid, now);
    if ccbid in s1.targets {
      WithoutTargetIndexed(s1, ccbid);
      WithoutTargetCounted(s1, ccbid);
    }
  }

  lemma ReconnectedKeeps(s: Server, ccbid: CcbId, sock: SockId, ip: PeerIp, now: int)
    requires Indexed(s) && Counted(s) && Remembered(s) && ccbid in s.reconnect
    ensures var r := Reconnected(s, ccbid, sock, ip, now); Indexed(r) && Counted(r) && Remembered(r)
  {
    hide Indexed, Counted, Remembered, WithoutTarget;
    var s1 := Noted(s, ccbid, now);
    var s2 := if ccbid in s1.targets then WithoutTarget(s1, ccbid) else s1;
    DroppedKeeps(s, ccbid, now);
    ConnectedKeeps(s2, ccbid, sock, ip);
  }

  /** A target joins under an identifier that no connected target has. */
  lemma ConnectedKeeps(s: Server, ccbid: CcbId, sock: SockId, ip: PeerIp)
    requires Indexed(s) && Counted(s) && Remembered(s) && ccbid in s.reconnect && ccbid !in s.targets
    ensures var r := Joined(s, ccbid, sock, ip);
            Indexed(r) && Counted(r) && Remembered(r)
  {
    hide Indexed, Counted, Remembered;
    JoinedIndexed(s, ccbid, sock, ip);
    JoinedCounted(s, ccbid, sock, ip);
    JoinedRemembered(s, ccbid, sock, ip);
  }

  lemma JoinedCounted(s: Server, ccbid: CcbId, sock: SockId, ip: PeerIp)
    requires Counted(s) && ccbid !in s.targets
    ensures Counted(Joined(s, ccbid, sock, ip))
  {
    OneMore(s.targets, ccbid, NewTarget(sock, ip));
  }

  lemma JoinedRemembered(s: Server, ccbid: CcbId, sock: SockId, ip: PeerIp)
    requires Remembered(s) && ccbid in s.reconnect
    ensures Remembered(Joined(s, ccbid, sock, ip))
  {
    assert Joined(s, ccbid, sock, ip).targets.Keys == s.targets.Keys + {ccbid};
  }

  lemma JoinedIndexed(s: Server, ccbid: CcbId, sock: SockId, ip: PeerIp)
    requires Indexed(s) && ccbid !in s.targets
    ensures Indexed(Joined(s, ccbid, sock, ip))
  {
    hide Indexed;
    SameRequestsIndexed(s, Joined(s, ccbid, sock, ip));
  }

  function Joined(s: Server, ccbid: CcbId, sock: SockId, ip: PeerIp): Server
  {
    s.(targets := s.targets[ccbid := NewTarget(sock, ip)],
       stats := s.stats.(endpointsConnected := s.stats.endpointsConnected + 1, reconnects := s.stats.reconnects + 1))
  }

  lemma ReconnectedClaims(s: Server, ccbid: CcbId, sock: SockId, ip: PeerIp, now: int)
    requires ccbid in s.reconnect
    ensures Claims(Reconnected(s, ccbid, sock, ip, now).reconnect) == Claims(s.reconnect)
    ensures Reconnected(s, ccbid, sock, ip, now).store == s.store
    ensures Reconnected(s, ccbid, sock, ip, now).nextCcbid == s.nextCcbid
  {
  }

  lemma AddedIndexed(s: Server, ccbid: CcbId, sock: SockId, ip: PeerIp, cookie: CcbId, now: int)
    requires Indexed(s) && ccbid !in Taken(s)
    ensures Indexed(Added(s, ccbid, sock, ip, cookie, now))
  {
    hide Indexed, FormatLine;
    SameRequestsIndexed(s, Added(s, ccbid, sock, ip, cookie, now));
  }

  lemma AddedCounted(s: Server, ccbid: CcbId, sock: SockId, ip: PeerIp, cookie: CcbId, now: int)
    requires Counted(s) && ccbid !in Taken(s)
    ensures Counted(Added(s, ccbid, sock, ip, cookie, now))
  {
    hide FormatLine;
    OneMore(s.targets, ccbid, NewTarget(sock, ip));
    OneMore(s.reconnect, ccbid, Reconnect(cookie, ip, now));
  }

  /** Appending a line to the file adds its record to what the file says. */
  lemma AppendPersists(file: string, table: map<CcbId, Reconnect>, ip: PeerIp, ccbid: CcbId, cookie: CcbId, now: int,
        rs: seq<Record>)
    requires Writable(rs) && file == Lines(rs) && TableOf(rs) == Claims(table)
    ensures var rs' := rs + [Record(ip, ccbid, cookie)];
            Writable(rs') && file + FormatLine(ip, ccbid, cookie) == Lines(rs')
            && TableOf(rs') == Claims(table[ccbid := Reconnect(cookie, ip, now)])
  {
    var rs' := rs + [Record(ip, ccbid, cookie)];
    assert rs'[..|rs'| - 1] == rs;
  }

  /** The identifiers of a file are those of its table. */
  lemma {:induction false} TableKeys(rs: seq<Record>, i: nat)
    requires i < |rs|
    ensures rs[i].ccbid in TableOf(rs)
  {
    var n := |rs| - 1;
    if i < n {
      TableKeys(rs[..n], i);
      assert rs[..n][i] == rs[i];
    }
  }

  lemma AppendDistinct(rs: seq<Record>, r: Record)
    requires Distinct(rs) && r.ccbid !in TableOf(rs)
    ensures Distinct(rs + [r])
  {
    forall i | 0 <= i < |rs|
      ensures rs[i].ccbid != r.ccbid
    {
      TableKeys(rs, i);
    }
  }

  lemma AddedDescribed(
      s: Server, ccbid: CcbId, sock: SockId, ip: PeerIp, cookie: CcbId, now: int, rs: seq<Record>, m: nat)
    requires Described(s, rs, m) && ccbid !in s.reconnect
    ensures Described(Added(s, ccbid, sock, ip, cookie, now), rs + [Record(ip, ccbid, cookie)], m)
  {
    hide FormatLine, Lines, TableOf, Distinct;
    var r := Record(ip, ccbid, cookie);
    assert ccbid !in Claims(s.reconnect);
    AppendPersists(s.store.file, s.reconnect, ip, ccbid, cookie, now, rs);
    AppendDistinct(rs, r);
    assert (rs + [r])[..m] == rs[..m];
  }

  lemma AddedPersists(s: Server, ccbid: CcbId, sock: SockId, ip: PeerIp, cookie: CcbId, now: int)
    requires Persisted(s) && ccbid !in s.reconnect
    ensures Persisted(Added(s, ccbid, sock, ip, cookie, now))
  {
    hide Described, Added;
    var rs: seq<Record>, m: nat :| Described(s, rs, m);
    AddedDescribed(s, ccbid, sock, ip, cookie, now, rs, m);
  }

  lemma AddedInv(s: Server, ccbid: CcbId, sock: SockId, ip: PeerIp, cookie: CcbId, now: int)
    requires Inv(s) && ccbid !in Taken(s)
    ensures Inv(Added(s, ccbid, sock, ip, cookie, now))
  {
    hide Indexed, Counted, Persisted, FormatLine;
    AddedIndexed(s, ccbid, sock, ip, cookie, now);
    AddedCounted(s, ccbid, sock, ip, cookie, now);
    AddedPersists(s, ccbid, sock, ip, cookie, now);
  }

  lemma ReconnectedInv(s: Server, ccbid: CcbId, sock: SockId, ip: PeerIp, now: int)
    requires Inv(s) && ccbid in s.reconnect
    ensures Inv(Reconnected(s, ccbid, sock, ip, now))
  {
    hide Indexed, Counted, Persisted, Claims;
    ReconnectedKeeps(s, ccbid, sock, ip, now);
    ReconnectedClaims(s, ccbid, sock, ip, now);
    PersistedFrame(s, Reconnected(s, ccbid, sock, ip, now));
  }

  lemma WithoutTargetInv(s: Server, ccbid: CcbId)
    requires Inv(s) && ccbid in s.targets
    ensures Inv(WithoutTarget(s, ccbid))
  {
    hide Indexed, Counted, Persisted, Claims;
    WithoutTargetIndexed(s, ccbid);
    WithoutTargetCounted(s, ccbid);
    PersistedFrame(s, WithoutTarget(s, ccbid));
  }

  lemma FinishInv(s: Server, id: CcbId, success: bool)
    requires Inv(s) && id in s.requests
    ensures Inv(Finish(s, id, success))
  {
    hide Indexed, Counted, Persisted, Claims;
    FinishIndexed(s, id, success);
    FinishCounted(s, id, success);
    PersistedFrame(s, Finish(s, id, success));
  }

  lemma WithRequestInv(s: Server, id: CcbId, q: Request)
    requires Inv(s) && q.target in s.targets && id !in s.requests
    ensures Inv(WithRequest(s, id, q))
  {
    hide Indexed, Counted, Persisted, Claims;
    WithRequestIndexed(s, id, q);
    WithRequestCounted(s, id, q);
    PersistedFrame(s, WithRequest(s, id, q));
  }

  lemma ExpectOneLessInv(s: Server, ccbid: CcbId)
    requires Inv(s) && ccbid in s.targets
    ensures Inv(ExpectOneLess(s, ccbid))
  {
    hide Indexed, Persisted, Claims;
    SameRequestsIndexed(s, ExpectOneLess(s, ccbid));
    assert ExpectOneLess(s, ccbid).targets.Keys == s.targets.Keys;
    PersistedFrame(s, ExpectOneLess(s, ccbid));
  }

  /** A step that touches neither the file, the claims nor the counter keeps the file right. */
  lemma PersistedFrame(s: Server, r: Server)
    requires Persisted(s) && r.store == s.store && Claims(r.reconnect) == Claims(s.reconnect)
    requires r.nextCcbid == s.nextCcbid
    ensures Persisted(r)
  {
    var rs: seq<Record>, m: nat :| Described(s, rs, m);
    assert Described(r, rs, m);
  }

  /** Flushing the file keeps it right. */
  lemma FlushPersists(s: Server, r: Server)
    requires Persisted(s) && r.store == s.store.(disk := s.store.file) && Claims(r.reconnect) == Claims(s.reconnect)
    ensures Persisted(r)
  {
    hide Lines, TableOf, Claims;
    var rs: seq<Record>, m: nat :| Described(s, rs, m);
    assert rs[..|rs|] == rs;
    assert Described(r, rs, |rs|);
  }

  // ---------------------------------------------------------------- handlers

  lemma RegistrationKeeps(s: Server, sock: SockId, ip: PeerIp, claim: Option<ReconnectClaim>, freshCookie: CcbId,
        now: int, replySent: bool)
    requires Inv(s) && |Taken(s)| < WORD
    ensures Inv(HandleRegistration(s, sock, ip, claim, freshCookie, now, replySent).state)
  {
    hide Inv, FormatLine;
    if Accepted(s, ip, claim) {
      ReconnectedInv(s, claim.value.ccbid, sock, ip, now);
      WithoutTargetInv(Reconnected(s, claim.value.ccbid, sock, ip, now), claim.value.ccbid);
    } else {
      var ccbid := FreshId(s.nextCcbid, Taken(s));
      AddedInv(s, ccbid, sock, ip, freshCookie, now);
      WithoutTargetInv(Added(s, ccbid, sock, ip, freshCookie, now), ccbid);
    }
  }

  lemma RequestKeeps(s: Server, sock: SockId, msg: Option<RequestMsg>, forwarded: bool)
    requires Inv(s) && |s.requests| < WORD
    ensures Inv(HandleRequest(s, sock, msg, forwarded).state)
  {
    hide Inv, Finish;
    if msg.Some? && msg.value.ccbid in s.targets {
      var m := msg.value;
      var r := Request(sock, m.ccbid, m.returnAddr, m.connectId);
      var id := FreshId(s.nextRequestId, s.requests.Keys);
      WithRequestInv(s, id, r);
      FinishInv(WithRequest(s, id, r), id, false);
    } else {
      NotFoundKeeps(s);
    }
  }

  /** A request for an unknown target is only counted. */
  lemma NotFoundKeeps(s: Server)
    requires Inv(s)
    ensures Inv(s.(stats := s.stats.(requests := s.stats.requests + 1, notFound := s.stats.notFound + 1)))
  {
    hide Indexed, Persisted, Claims;
    var r := s.(stats := s.stats.(requests := s.stats.requests + 1, notFound := s.stats.notFound + 1));
    SameRequestsIndexed(s, r);
    PersistedFrame(s, r);
  }

  lemma ResultKeeps(s: Server, ccbid: CcbId, success: bool, requestId: Option<CcbId>, connectId: string,
        clientGone: bool, goneAtReply: bool)
    requires Inv(s) && ccbid in s.targets
    ensures Inv(HandleResult(s, ccbid, success, requestId, connectId, clientGone, goneAtReply).state)
  {
    hide Inv, WithoutTarget, Finish;
    var s1 := ExpectOneLess(s, ccbid);
    ExpectOneLessInv(s, ccbid);
    WithoutTargetInv(s1, ccbid);
    if requestId.Some? && requestId.value in s1.requests {
      FinishInv(s1, requestId.value, success);
    }
  }

  // ---------------------------------------------------------------- sweeping

  /**
   * With a non-negative interval a sweep drops exactly the records of unconnected
   * identifiers that have been silent for more than two intervals.
   */
  lemma SweepDropsExactly(s: Server, now: int, k: CcbId)
    requires s.sweepInterval >= 0 && k in s.reconnect
    ensures k !in Survivors(s, now) <==> k !in s.targets && now - s.reconnect[k].lastAlive > 2 * s.sweepInterval
    ensures k in Survivors(s, now) ==>
              Survivors(s, now)[k].cookie == s.reconnect[k].cookie
                  && Survivors(s, now)[k].peerIp == s.reconnect[k].peerIp
  {
    assert k in Refreshed(s, now);
  }

  /** A due sweep leaves every connected target its record exactly when the interval is not negative. */
  lemma SweepRemembersIff(s: Server, now: int, order: seq<CcbId>)
    requires Remembered(s) && SweepDue(s, now) && Enumerates(order, Survivors(s, now).Keys)
    ensures Remembered(Swept(s, now, order)) <==> s.sweepInterval >= 0 || s.targets == map[]
  {
    var r := Swept(s, now, order);
    assert r.reconnect == Survivors(s, now) && r.targets == s.targets;
    if s.sweepInterval >= 0 {
      forall k | k in s.targets
        ensures k in r.reconnect
      {
        SweepDropsExactly(s, now, k);
      }
    } else if s.targets != map[] {
      var k :| k in s.targets;
      assert Refreshed(s, now)[k].lastAlive == now;
      assert k !in r.reconnect;
    }
  }

  /** With a negative interval a target registers, and the next sweep forgets it while it is connected. */
  lemma SweepForgets()
    ensures var s := Started("", false, 0, -1, false);
            exists es :: Possible(s, es) && !Remembered(Run(s, es))
  {
    var s := Started("", false, 0, -1, false);
    var join := Registration(1, "0", None, 0, 0, true);
    assert Taken(s) == {};
    var r := Added(s, FreshId(1, {}), 1, "0", 0, 0);
    AddedRemembered(s, FreshId(1, {}), 1, "0", 0, 0);
    assert Step(s, join).state == r;
    NothingSurvives(r);
    hide Added, FreshId, Survivors, Step, Possible, Run, Started, Enumerates;
    SweepRemembersIff(r, 0, []);
    RunOfTwo(s, join, Sweep(0, []));
    SweepStep(r);
  }

  lemma SweepStep(s: Server)
    requires Enabled(s, Sweep(0, []))
    ensures Step(s, Sweep(0, [])).state == Swept(s, 0, [])
  {
  }

  lemma RunOfTwo(s: Server, a: Event, b: Event)
    requires Enabled(s, a) && Enabled(Step(s, a).state, b)
    ensures Possible(s, [a, b]) && Run(s, [a, b]) == Step(Step(s, a).state, b).state
  {
    hide Step, Enabled;
    assert [a, b][1..] == [b] && [b][1..] == [];
    var t := Step(s, a).state;
    assert Possible(t, [b]) && Run(t, [b]) == Run(Step(t, b).state, []);
  }

  lemma NothingSurvives(s: Server)
    requires s.sweepInterval == -1 && forall k :: k in s.reconnect ==> s.reconnect[k].lastAlive == 0
    ensures Survivors(s, 0) == map[] && Enumerates([], Survivors(s, 0).Keys)
  {
  }

  lemma AddedRemembered(s: Server, ccbid: CcbId, sock: SockId, ip: PeerIp, cookie: CcbId, now: int)
    requires s.targets == map[] && s.reconnect == map[]
    ensures var r := Added(s, ccbid, sock, ip, cookie, now);
            && r.targets.Keys == {ccbid} == r.reconnect.Keys && r.reconnect[ccbid].lastAlive == now
            && r.lastSweep == s.lastSweep && r.sweepInterval == s.sweepInterval
  {
  }

  /** The records that a rewrite puts into the file. */
  ghost function Records(table: map<CcbId, Reconnect>, order: seq<CcbId>): seq<Record>
    requires forall k :: k in order ==> k in table
  {
    seq(|order|, i requires 0 <= i < |order| => RecordOf(order[i], table[order[i]]))
  }

  lemma {:induction false} RewrittenLines(table: map<CcbId, Reconnect>, order: seq<CcbId>)
    requires forall k :: k in order ==> k in table
    ensures Rewritten(table, order) == Lines(Records(table, order))
  {
    if order != [] {
      hide FormatLine;
      var n := |order| - 1;
      RewrittenLines(table, order[..n]);
      RecordsSplit(table, order);
      hide Records;
    }
  }

  lemma RecordsSplit(table: map<CcbId, Reconnect>, order: seq<CcbId>)
    requires order != [] && forall k :: k in order ==> k in table
    ensures var n := |order| - 1;
            && |Records(table, order)| == n + 1
            && Records(table, order)[n] == RecordOf(order[n], table[order[n]])
            && Records(table, order)[..n] == Records(table, order[..n])
  {
  }

  lemma {:induction false} RewrittenTable(table: map<CcbId, Reconnect>, order: seq<CcbId>)
    requires forall k :: k in order ==> k in table
    requires forall i, j :: 0 <= i < j < |order| ==> order[i] != order[j]
    ensures TableOf(Records(table, order)) == map k | k in order :: Claim(table[k].cookie, table[k].peerIp)
  {
    if order != [] {
      var n := |order| - 1;
      RewrittenTable(table, order[..n]);
      assert Records(table, order)[..n] == Records(table, order[..n]);
      assert forall k :: k in order <==> k in order[..n] || k == order[n];
    }
  }

  /** What a file of whole lines says about addresses fits the file again. */
  lemma {:induction false} TableIps(rs: seq<Record>, k: CcbId)
    requires Writable(rs) && k in TableOf(rs)
    ensures IsPeerIp(TableOf(rs)[k].ip)
  {
    if rs != [] && k != rs[|rs| - 1].ccbid {
      TableIps(rs[..|rs| - 1], k);
    }
  }

  lemma PersistedIps(s: Server, k: CcbId)
    requires Persisted(s) && k in s.reconnect
    ensures IsPeerIp(s.reconnect[k].peerIp)
  {
    var rs: seq<Record>, m: nat :| Described(s, rs, m);
    assert k in Claims(s.reconnect);
    TableIps(rs, k);
  }

  lemma RewritePersists(s: Server, table: map<CcbId, Reconnect>, order: seq<CcbId>)
    requires Enumerates(order, table.Keys) && s.reconnect == table && s.store == RewrittenStore(table, order)
    requires forall k :: k in table ==> IsPeerIp(table[k].peerIp)
    ensures Persisted(s)
  {
    var rs := Records(table, order);
    RewrittenLines(table, order);
    RewrittenTable(table, order);
    assert TableOf(rs) == Claims(table);
    hide TableOf, Lines, Claims, Rewritten;
    assert rs[..|rs|] == rs;
    assert Described(s, rs, |rs|);
  }

  lemma SurvivorClaims(s: Server, now: int)
    ensures |Survivors(s, now)| <= |s.reconnect|
    ensures |Survivors(s, now)| == |s.reconnect| ==> Claims(Survivors(s, now)) == Claims(s.reconnect)
    ensures forall k :: k in Survivors(s, now) ==>
              k in s.reconnect && Survivors(s, now)[k].peerIp == s.reconnect[k].peerIp
  {
    var left := Survivors(s, now);
    assert left.Keys <= s.reconnect.Keys;
    SubsetSize(left.Keys, s.reconnect.Keys);
    if |left| == |s.reconnect| {
      assert s.reconnect.Keys - left.Keys == {};
      assert left.Keys == s.reconnect.Keys;
    }
  }

  lemma SweptPersists(s: Server, now: int, order: seq<CcbId>)
    requires Persisted(s) && Enumerates(order, Survivors(s, now).Keys)
    ensures Persisted(Swept(s, now, order))
  {
    hide Persisted, Survivors, Claims;
    SurvivorClaims(s, now);
    var r, left := Swept(s, now, order), Survivors(s, now);
    if SweepDue(s, now) && |left| < |s.reconnect| {
      forall k | k in left
        ensures IsPeerIp(left[k].peerIp)
      {
        PersistedIps(s, k);
      }
      RewritePersists(r, left, order);
    } else {
      FlushPersists(s, r);
    }
  }

  lemma SweepKeeps(s: Server, now: int, order: seq<CcbId>)
    requires Inv(s) && Enumerates(order, Survivors(s, now).Keys)
    ensures Inv(Swept(s, now, order))
  {
    hide Indexed, Persisted, Survivors;
    var r := Swept(s, now, order);
    SameRequestsIndexed(s, r);
    SweptPersists(s, now, order);
    if SweepDue(s, now) {
      SweepRemembersIff(s, now, order);
    }
  }

  // ---------------------------------------------------------------- restart

  lemma {:induction false} LoadedClaims(rs: seq<Record>, now: int)
    requires Writable(rs)
    ensures Claims(LoadedTable(rs, now)) == TableOf(rs)
  {
    if rs != [] {
      LoadedClaims(rs[..|rs| - 1], now);
    }
  }

  /** A part of the file that ends with a line consists of its first lines. */
  lemma {:induction false} PrefixLines(rs: seq<Record>, kept: string) returns (n: nat)
    requires Writable(rs) && kept <= Lines(rs) && (kept == "" || kept[|kept| - 1] == '\n')
    ensures n <= |rs| && kept == Lines(rs[..n])
  {
    hide FormatLine;
    n := |rs|;
    if kept == Lines(rs) {
      assert rs[..n] == rs;
    } else {
      var front := rs[..n - 1];
      var r := rs[n - 1];
      OneNewline(r.ip, r.ccbid, r.cookie);
      assert Lines(rs) == Lines(front) + FormatLine(r.ip, r.ccbid, r.cookie);
      NotInside(Lines(front), FormatLine(r.ip, r.ccbid, r.cookie), kept);
      n := PrefixLines(front, kept);
      assert rs[..n] == front[..n];
    }
  }

  /** A text that ends with a newline does not end inside a line. */
  lemma NotInside(before: string, line: string, kept: string)
    requires kept < before + line && (kept == "" || kept[|kept| - 1] == '\n')
    requires forall i :: 0 <= i < |line| - 1 ==> line[i] != '\n'
    ensures kept <= before
  {
    assert kept == (before + line)[..|kept|];
  }

  lemma {:induction false} DistinctTable(rs: seq<Record>, n: nat, k: CcbId)
    requires Distinct(rs) && n <= |rs| && k in TableOf(rs[..n])
    ensures k in TableOf(rs) && TableOf(rs)[k] == TableOf(rs[..n])[k]
    decreases |rs|
  {
    if n < |rs| {
      var last := |rs| - 1;
      var front := rs[..last];
      assert front[..n] == rs[..n];
      DistinctTable(front, n, k);
      TableHas(front, k);
    } else {
      assert rs[..n] == rs;
    }
  }

  /** What the table holds stands in the file. */
  lemma {:induction false} TableHas(rs: seq<Record>, k: CcbId)
    requires k in TableOf(rs)
    ensures exists i :: 0 <= i < |rs| && rs[i].ccbid == k
  {
    var n := |rs| - 1;
    if rs[n].ccbid != k {
      TableHas(rs[..n], k);
      var i :| 0 <= i < n && rs[..n][i].ccbid == k;
      assert rs[i].ccbid == k;
    }
  }

  /** A process that starts on the first lines of a file holds exactly their records. */
  lemma StartedDescribed(rs: seq<Record>, created: bool, now: int, interval: int, anyIp: bool)
    requires Writable(rs) && Distinct(rs) && (rs != [] ==> created)
    ensures Described(Started(Lines(rs), created, now, interval, anyIp), rs, |rs|)
  {
    hide LoadedNext, LoadedTable, RecordsFrom, TableOf, Lines, Claims;
    FileRoundTrip(rs);
    LoadedClaims(rs, now);
    assert rs[..|rs|] == rs;
  }

  /** However the process ends, what it leaves is a right file for what the next process knows. */
  lemma RestartPersists(s: Server, now: int, interval: int, anyIp: bool, kept: string)
    requires Persisted(s) && Leaves(s.store, kept)
    ensures Persisted(Started(kept, s.store.created, now, interval, anyIp))
  {
    hide Started;
    var rs: seq<Record>, m: nat :| Described(s, rs, m);
    var n := PrefixLines(rs, kept);
    StartedDescribed(rs[..n], s.store.created, now, interval, anyIp);
  }

  /**
   * A broker that ends cleanly knows every target afterwards that it knew before: reading the file
   * back gives exactly the cookies and addresses of the table that was in memory.
   */
  lemma RestartRemembers(s: Server, now: int, interval: int, anyIp: bool)
    requires Persisted(s)
    ensures Claims(Started(s.store.file, s.store.created, now, interval, anyIp).reconnect) == Claims(s.reconnect)
  {
    hide Started;
    var rs: seq<Record>, m: nat :| Described(s, rs, m);
    StartedDescribed(rs, s.store.created, now, interval, anyIp);
  }

  /** However the process ends, the next one remembers every target whose record was flushed, and none wrongly. */
  lemma RestartRemembersFlushed(s: Server, now: int, interval: int, anyIp: bool, kept: string, k: CcbId)
    requires Persisted(s) && Leaves(s.store, kept)
    ensures var before := Claims(s.reconnect);
            var after := Claims(Started(kept, s.store.created, now, interval, anyIp).reconnect);
            && (k in after ==> k in before && before[k] == after[k])
            && (k in TableOf(RecordsFrom(s.store.disk, 0)) ==> k in after)
  {
    hide Started, Claims, Lines, TableOf, RecordsFrom;
    var rs: seq<Record>, m: nat :| Described(s, rs, m);
    var n := PrefixLines(rs, kept);
    StartedDescribed(rs[..n], s.store.created, now, interval, anyIp);
    if k in TableOf(rs[..n]) {
      DistinctTable(rs, n, k);
    }
    FileRoundTrip(rs[..m]);
    LinesGrow(rs, m, n);
    if k in TableOf(rs[..m]) {
      assert rs[..n][..m] == rs[..m];
      DistinctTable(rs[..n], m, k);
    }
  }

  /** More text means at least as many lines. */
  lemma LinesGrow(rs: seq<Record>, m: nat, n: nat)
    requires Writable(rs) && m <= |rs| && n <= |rs| && |Lines(rs[..m])| <= |Lines(rs[..n])|
    ensures m <= n
  {
    if n < m {
      assert rs[..m][..n] == rs[..n];
      LinesLonger(rs[..m], n);
    }
  }

  lemma {:induction false} LinesLonger(rs: seq<Record>, n: nat)
    requires n < |rs|
    ensures |Lines(rs[..n])| < |Lines(rs)|
    decreases |rs|
  {
    var last := |rs| - 1;
    if n < last {
      LinesLonger(rs[..last], n);
      assert rs[..last][..n] == rs[..n];
    }
  }

  lemma RestartKeeps(s: Server, now: int, interval: int, anyIp: bool, kept: string)
    requires Inv(s) && interval >= 0 && Leaves(s.store, kept)
    ensures Inv(Started(kept, s.store.created, now, interval, anyIp))
  {
    RestartPersists(s, now, interval, anyIp, kept);
    hide Persisted, LoadedTable, RecordsFrom, StartedNext;
  }

  /** The counter never ends up below an identifier that was read, unless it wraps. */
  lemma {:induction false} LoadedNextCovers(rs: seq<Record>, start: CcbId)
    requires forall i :: 0 <= i < |rs| ==> rs[i].ccbid != WORD - 1
    ensures start <= LoadedNext(rs, start)
    ensures forall i :: 0 <= i < |rs| ==> rs[i].ccbid <= LoadedNext(rs, start)
  {
    if rs != [] {
      var n := |rs| - 1;
      LoadedNextCovers(rs[..n], start);
      forall i | 0 <= i < |rs|
        ensures rs[i].ccbid <= LoadedNext(rs, start)
      {
        if i < n { assert rs[..n][i] == rs[i]; }
      }
    }
  }

  /** Neither counting up nor jumping ahead wraps the counter around. */
  ghost predicate NoWrap(rs: seq<Record>)
  {
    (forall i :: 0 <= i < |rs| ==> rs[i].ccbid != WORD - 1) && LoadedNext(rs, 1) + 100 < WORD
  }

  ghost predicate FarAbove(next: CcbId, rs: seq<Record>)
  {
    forall i :: 0 <= i < |rs| ==> next >= rs[i].ccbid + 100
  }

  lemma JumpIff(rs: seq<Record>)
    requires rs != []
    ensures FarAbove((LoadedNext(rs, 1) + 100) % WORD, rs) <==> NoWrap(rs)
  {
    hide LoadedNext;
    var next := LoadedNext(rs, 1);
    if forall i :: 0 <= i < |rs| ==> rs[i].ccbid != WORD - 1 {
      LoadedNextCovers(rs, 1);
      assert next + 100 >= WORD ==> (next + 100) % WORD == next + 100 - WORD < rs[0].ccbid + 100;
    } else {
      var i :| 0 <= i < |rs| && rs[i].ccbid == WORD - 1;
      assert (next + 100) % WORD < rs[i].ccbid + 100;
    }
  }

  /**
   * After a restart the next identifier is at least 100 above every identifier in the
   * file exactly when neither the counter nor its jump ahead wraps around.
   */
  lemma RestartJumpsAheadIff(text: string, now: int, interval: int, anyIp: bool)
    requires RecordsFrom(text, 0) != []
    ensures FarAbove(Started(text, true, now, interval, anyIp).nextCcbid, RecordsFrom(text, 0)) <==>
            NoWrap(RecordsFrom(text, 0))
  {
    hide NoWrap, FarAbove, LoadedNext, LoadedTable, RecordsFrom;
    JumpIff(RecordsFrom(text, 0));
  }

  // ---------------------------------------------------------------- every run

  lemma StepKeeps(s: Server, e: Event)
    requires Inv(s) && Enabled(s, e)
    ensures Inv(Step(s, e).state)
  {
    hide Inv, HandleRegistration, HandleRequest, HandleResult, Swept, Started, Finish, WithoutTarget;
    match e
    case Registration(sock, ip, claim, freshCookie, now, replySent) =>
      RegistrationKeeps(s, sock, ip, claim, freshCookie, now, replySent);
    case ClientRequest(sock, msg, forwarded) => RequestKeeps(s, sock, msg, forwarded);
    case TargetMessage(ccbid, msg, clientGone, goneAtReply, heartbeatSent) =>
      WithoutTargetInv(s, ccbid);
      if msg.Result? { ResultKeeps(s, ccbid, msg.success, msg.requestId, msg.connectId, clientGone, goneAtReply); }
    case ClientDisconnect(id) => FinishInv(s, id, true);
    case Sweep(now, order) => SweepKeeps(s, now, order);
    case Reconfigure(now, interval, anyIp) => ReconfigureKeeps(s, now, interval, anyIp);
    case Restart(now, interval, anyIp, kept) => RestartKeeps(s, now, interval, anyIp, kept);
  }

  lemma ReconfigureKeeps(s: Server, now: int, interval: int, anyIp: bool)
    requires Inv(s) && interval >= 0
    ensures Inv(s.(lastSweep := now, sweepInterval := interval, anyIp := anyIp))
  {
    hide Indexed, Persisted, Claims;
    var r := s.(lastSweep := now, sweepInterval := interval, anyIp := anyIp);
    SameRequestsIndexed(s, r);
    PersistedFrame(s, r);
  }

  /** A broker that starts without a reconnect file. */
  lemma StartKeeps(now: int, interval: int, anyIp: bool)
    requires interval >= 0
    ensures Inv(Started("", false, now, interval, anyIp))
  {
    assert Described(Started("", false, now, interval, anyIp), [], 0) by {
      assert Lines([]) == "" && TableOf([]) == map[] && Claims(map[]) == map[];
    }
  }

  /** In every run of the broker, restarts included, the invariant holds at every moment. */
  lemma {:induction false} RunKeeps(s: Server, es: seq<Event>)
    requires Inv(s) && Possible(s, es)
    ensures Inv(Run(s, es))
    decreases |es|
  {
    if es != [] {
      StepKeeps(s, es[0]);
      RunKeeps(Step(s, es[0]).state, es[1..]);
    }
  }

  // ---------------------------------------------------------------- identifiers keep their owners

  /** Dropping a target or finishing a request does not touch the records or their counter. */
  lemma RecordsUntouched(s: Server)
    ensures forall k :: k in s.targets ==>
              WithoutTarget(s, k).reconnect == s.reconnect && WithoutTarget(s, k).nextCcbid == s.nextCcbid
    ensures forall id, b :: id in s.requests ==>
              Finish(s, id, b).reconnect == s.reconnect && Finish(s, id, b).nextCcbid == s.nextCcbid
  {
  }

  lemma ReconnectedRecords(s: Server, ccbid: CcbId, sock: SockId, ip: PeerIp, now: int)
    requires ccbid in s.reconnect
    ensures var r := Reconnected(s, ccbid, sock, ip, now);
            && r.reconnect == s.reconnect[ccbid := s.reconnect[ccbid].(lastAlive := now)] && ccbid in r.targets
            && r.nextCcbid == s.nextCcbid
  {
  }

  lemma AddedRecords(s: Server, ccbid: CcbId, sock: SockId, ip: PeerIp, cookie: CcbId, now: int)
    ensures var r := Added(s, ccbid, sock, ip, cookie, now);
            && r.reconnect == s.reconnect[ccbid := Reconnect(cookie, ip, now)] && ccbid in r.targets
            && r.nextCcbid == NextId(ccbid)
  {
  }

  lemma RegistrationClaims(s: Server, sock: SockId, ip: PeerIp, claim: Option<ReconnectClaim>, freshCookie: CcbId,
        now: int, replySent: bool, k: CcbId)
    requires |Taken(s)| < WORD && k in s.reconnect
    ensures var r := HandleRegistration(s, sock, ip, claim, freshCookie, now, replySent).state.reconnect;
            k in r && r[k].cookie == s.reconnect[k].cookie && r[k].peerIp == s.reconnect[k].peerIp
  {
    hide Reconnected, Added, WithoutTarget, FreshId;
    if Accepted(s, ip, claim) {
      ReconnectedRecords(s, claim.value.ccbid, sock, ip, now);
      RecordsUntouched(Reconnected(s, claim.value.ccbid, sock, ip, now));
    } else {
      var id := FreshId(s.nextCcbid, Taken(s));
      AddedRecords(s, id, sock, ip, freshCookie, now);
      RecordsUntouched(Added(s, id, sock, ip, freshCookie, now));
    }
  }

  lemma RequestClaims(s: Server, sock: SockId, msg: Option<RequestMsg>, forwarded: bool)
    requires |s.requests| < WORD
    ensures var r := HandleRequest(s, sock, msg, forwarded).state;
            r.reconnect == s.reconnect && r.nextCcbid == s.nextCcbid
  {
    hide FreshId;
  }

  lemma MessageClaims(s: Server, ccbid: CcbId, msg: TargetMsg, clientGone: bool, goneAtReply: bool, heartbeatSent: bool)
    requires ccbid in s.targets
    ensures var r := HandleTargetMessage(s, ccbid, msg, clientGone, goneAtReply, heartbeatSent).state;
            r.reconnect == s.reconnect && r.nextCcbid == s.nextCcbid
  {
    hide WithoutTarget, Finish;
    RecordsUntouched(s);
    RecordsUntouched(ExpectOneLess(s, ccbid));
  }

  lemma RestartClaims(s: Server, now: int, interval: int, anyIp: bool, kept: string, k: CcbId)
    requires Persisted(s) && Leaves(s.store, kept) && k in s.reconnect
    ensures var r := Started(kept, s.store.created, now, interval, anyIp).reconnect;
            && (k in r ==> r[k].cookie == s.reconnect[k].cookie && r[k].peerIp == s.reconnect[k].peerIp)
            && (k !in r ==> !Flushed(s, k))
  {
    hide Started, Persisted, RecordsFrom;
    RestartRemembersFlushed(s, now, interval, anyIp, kept, k);
    var r := Started(kept, s.store.created, now, interval, anyIp).reconnect;
    assert k in r ==> k in Claims(r) && Claims(r)[k] == Claims(s.reconnect)[k];
  }

  /** The record of an identifier has been flushed. */
  predicate Flushed(s: Server, k: CcbId)
  {
    k in TableOf(RecordsFrom(s.store.disk, 0))
  }

  /**
   * An identifier stays with its owner: no step changes or drops what the broker remembers of it,
   * except a sweep that finds it unconnected and silent for too long, or the end of a process that
   * has not yet flushed its record.
   */
  lemma ClaimStays(s: Server, e: Event, k: CcbId)
    requires Inv(s) && Enabled(s, e) && k in s.reconnect
    ensures var r := Step(s, e).state.reconnect;
            && (k in r ==> r[k].cookie == s.reconnect[k].cookie && r[k].peerIp == s.reconnect[k].peerIp)
            && (k !in r ==>
                || (e.Sweep? && k !in s.targets && e.now - s.reconnect[k].lastAlive > 2 * s.sweepInterval)
                || (e.Restart? && !Flushed(s, k)))
  {
    hide Indexed, Counted, Persisted, HandleRegistration, HandleRequest, HandleTargetMessage, Survivors, Started;
    match e
    case Registration(sock, ip, claim, freshCookie, now, replySent) =>
      RegistrationClaims(s, sock, ip, claim, freshCookie, now, replySent, k);
    case ClientRequest(sock, msg, forwarded) => RequestClaims(s, sock, msg, forwarded);
    case TargetMessage(ccbid, msg, clientGone, goneAtReply, heartbeatSent) =>
      MessageClaims(s, ccbid, msg, clientGone, goneAtReply, heartbeatSent);
    case Sweep(now, _) => SweepDropsExactly(s, now, k);
    case Restart(now, interval, anyIp, kept) => RestartClaims(s, now, interval, anyIp, kept, k);
    case _ =>
  }
}
