/**
 * What the broker writes, over which connection and on what grounds, and who can take an
 * identifier back.
 */
module CcbAnswers {
  import opened Common
  import opened CcbReconnectFile
  import opened CcbServerSpec
  import opened CcbServerProperties

  // ---------------------------------------------------------------- registrations

  /** The claim names the identifier with the cookie that it was given, from its address or from any. */
  predicate Entitled(s: Server, ip: PeerIp, claim: Option<ReconnectClaim>, id: CcbId)
  {
    && id in s.reconnect
    && claim == Some(ReconnectClaim(id, s.reconnect[id].cookie))
    && (s.anyIp || s.reconnect[id].peerIp == ip)
  }

  /**
   * A registration is confirmed, over its own connection, under an identifier that it is entitled to;
   * and if there is none, under one that nobody has, with a new cookie.
   */
  lemma RegistrationAnswered(s: Server, e: Event)
    requires Enabled(s, e) && e.Registration?
    ensures var o := Step(s, e).outputs;
            if !e.replySent then o == []
            else
              && |o| == 1 && o[0].Registered? && o[0].sock == e.sock
              && (o[0].ccbid in s.reconnect ==>
                  Entitled(s, e.ip, e.claim, o[0].ccbid) && o[0].cookie == e.claim.value.cookie)
              && (o[0].ccbid !in s.reconnect ==>
                  && (forall id :: !Entitled(s, e.ip, e.claim, id))
                  && o[0].ccbid !in s.targets && o[0].cookie == e.freshCookie)
  {
    hide FreshId, Reconnected, Added, WithoutTarget, NextId;
    if Accepted(s, e.ip, e.claim) {
      ReconnectedRecords(s, e.claim.value.ccbid, e.sock, e.ip, e.now);
    } else {
      AddedRecords(s, FreshId(s.nextCcbid, Taken(s)), e.sock, e.ip, e.freshCookie, e.now);
    }
  }

  /** What is confirmed under an identifier. */
  predicate Confirms(o: seq<Output>, id: CcbId)
  {
    exists i :: 0 <= i < |o| && o[i].Registered? && o[i].ccbid == id
  }

  /** A remembered identifier is confirmed if and only if the registration is entitled to it and can be answered. */
  lemma ReclaimedIff(s: Server, e: Event, id: CcbId)
    requires Enabled(s, e) && id in s.reconnect
    ensures Confirms(Step(s, e).outputs, id) <==>
            e.Registration? && e.replySent && Entitled(s, e.ip, e.claim, id)
  {
    hide Step, Entitled, Enabled;
    if e.Registration? {
      RegistrationAnswered(s, e);
      if Entitled(s, e.ip, e.claim, id) {
        OneClaim(s, e.ip, e.claim, id);
      }
    } else {
      OthersConfirmNothing(s, e);
    }
  }

  lemma OneClaim(s: Server, ip: PeerIp, claim: Option<ReconnectClaim>, id: CcbId)
    requires Entitled(s, ip, claim, id)
    ensures forall other :: Entitled(s, ip, claim, other) ==> other == id
  {
  }

  lemma OthersConfirmNothing(s: Server, e: Event)
    requires Enabled(s, e) && !e.Registration?
    ensures forall o :: o in Step(s, e).outputs ==> !o.Registered?
  {
    hide FreshId, FormatLine, Survivors, RecordsFrom, LoadedTable, LoadedNext, Rewritten;
  }

  /**
   * A new connection under an identifier replaces the one it had, and if it cannot be answered there is
   * none; nobody else's connection changes.
   */
  lemma RegistrationConnects(s: Server, e: Event, k: CcbId)
    requires Enabled(s, e) && e.Registration?
    ensures var o, t := Step(s, e).outputs, Step(s, e).state.targets;
            if Confirms(o, k) then k in t && t[k] == TargetState(e.sock, e.ip, 0, false, map[])
            else if Entitled(s, e.ip, e.claim, k) then k !in t
            else (k in t <==> k in s.targets) && (k in t ==> t[k] == s.targets[k])
  {
    hide FreshId, Reconnected, Added, WithoutTarget, NextId, Confirms;
    ConfirmsOne(k);
    var id := if Accepted(s, e.ip, e.claim) then e.claim.value.ccbid else FreshId(s.nextCcbid, Taken(s));
    if Accepted(s, e.ip, e.claim) {
      ReconnectedTargets(s, id, e.sock, e.ip, e.now);
      ReconnectedRecords(s, id, e.sock, e.ip, e.now);
    } else {
      AddedTargets(s, id, e.sock, e.ip, e.freshCookie, e.now);
      AddedRecords(s, id, e.sock, e.ip, e.freshCookie, e.now);
      assert id !in Taken(s);
    }
  }

  lemma ConfirmsOne(k: CcbId)
    ensures !Confirms([], k)
    ensures forall sock, id, cookie :: Confirms([Registered(sock, id, cookie)], k) <==> id == k
  {
    forall sock, id, cookie
      ensures Confirms([Registered(sock, id, cookie)], k) <==> id == k
    {
      var o: seq<Output> := [Registered(sock, id, cookie)];
      assert o[0] == Registered(sock, id, cookie);
    }
  }

  lemma ReconnectedTargets(s: Server, id: CcbId, sock: SockId, ip: PeerIp, now: int)
    requires id in s.reconnect
    ensures var r := Reconnected(s, id, sock, ip, now);
            && r.targets == s.targets[id := TargetState(sock, ip, 0, false, map[])]
            && WithoutTarget(r, id).targets == s.targets - {id}
  {
    var r := Reconnected(s, id, sock, ip, now);
    assert r.targets == s.targets[id := TargetState(sock, ip, 0, false, map[])];
    assert r.targets - {id} == s.targets - {id};
  }

  lemma AddedTargets(s: Server, id: CcbId, sock: SockId, ip: PeerIp, cookie: CcbId, now: int)
    ensures var r := Added(s, id, sock, ip, cookie, now);
            && r.targets == s.targets[id := TargetState(sock, ip, 0, false, map[])]
            && WithoutTarget(r, id).targets == s.targets - {id}
  {
    var r := Added(s, id, sock, ip, cookie, now);
    assert r.targets - {id} == s.targets - {id};
  }

  // ---------------------------------------------------------------- cookies over runs

  /** The identifier is remembered all along. */
  ghost predicate Held(s: Server, es: seq<Event>, k: CcbId)
    requires Possible(s, es)
    decreases |es|
  {
    k in s.reconnect && (es != [] ==> Held(Step(s, es[0]).state, es[1..], k))
  }

  /** Whoever is confirmed under the identifier has shown the cookie, and is told the same one. */
  ghost predicate OnlyWith(s: Server, es: seq<Event>, k: CcbId, cookie: CcbId)
    requires Possible(s, es)
    decreases |es|
  {
    es != [] ==>
      && (Confirms(Step(s, es[0]).outputs, k) ==> ShownAndTold(es[0], Step(s, es[0]).outputs, k, cookie))
      && OnlyWith(Step(s, es[0]).state, es[1..], k, cookie)
  }

  ghost predicate ShownAndTold(e: Event, o: seq<Output>, k: CcbId, cookie: CcbId)
  {
    && e.Registration? && e.claim == Some(ReconnectClaim(k, cookie))
    && o == [Registered(e.sock, k, cookie)]
  }

  lemma {:induction false} HeldIsGuarded(s: Server, es: seq<Event>, k: CcbId)
    requires Inv(s) && Possible(s, es) && Held(s, es, k)
    ensures OnlyWith(s, es, k, s.reconnect[k].cookie)
    decreases |es|
  {
    hide Inv, Step, Enabled, Entitled;
    if es != [] {
      StepKeeps(s, es[0]);
      ClaimStays(s, es[0], k);
      ReclaimedIff(s, es[0], k);
      if Confirms(Step(s, es[0]).outputs, k) {
        RegistrationAnswered(s, es[0]);
        EntitledShows(s, es[0].ip, es[0].claim, k);
      }
      HeldIsGuarded(Step(s, es[0]).state, es[1..], k);
    }
  }

  lemma EntitledShows(s: Server, ip: PeerIp, claim: Option<ReconnectClaim>, id: CcbId)
    requires Entitled(s, ip, claim, id)
    ensures claim == Some(ReconnectClaim(id, s.reconnect[id].cookie))
  {
  }

  /** What a registration is told is what the broker remembers. */
  lemma ToldIsRemembered(s: Server, e: Event, sock: SockId, k: CcbId, cookie: CcbId)
    requires Enabled(s, e) && Step(s, e).outputs == [Registered(sock, k, cookie)]
    ensures var r := Step(s, e).state.reconnect; k in r && r[k].cookie == cookie
  {
    assert Step(s, e).outputs[0] == Registered(sock, k, cookie);
    if e.Registration? {
      hide FreshId, FormatLine, WithoutTarget;
    } else {
      hide Step;
      OthersConfirmNothing(s, e);
    }
  }

  /**
   * From the registration that first gives out an identifier on, and as long as it is remembered, through
   * reconnects, sweeps and restarts, nobody is confirmed under it without the cookie that came with it.
   */
  lemma OnlyTheOwnerReturns(s: Server, e: Event, es: seq<Event>, sock: SockId, k: CcbId, cookie: CcbId)
    requires Inv(s) && Enabled(s, e) && Step(s, e).outputs == [Registered(sock, k, cookie)]
    requires Possible(Step(s, e).state, es) && Held(Step(s, e).state, es, k)
    ensures OnlyWith(Step(s, e).state, es, k, cookie)
  {
    hide Inv, Step, Enabled;
    StepKeeps(s, e);
    ToldIsRemembered(s, e, sock, k, cookie);
    HeldIsGuarded(Step(s, e).state, es, k);
  }

  // ---------------------------------------------------------------- requests and results

  /** A client's request is rejected, forwarded over the named target's connection, or answered as failed. */
  lemma RequestAnswered(s: Server, e: Event)
    requires Enabled(s, e) && e.ClientRequest?
    ensures var o := Step(s, e).outputs;
            if e.request.None? then o == []
            else
              var m := e.request.value;
              if m.ccbid !in s.targets then o == [Reject(e.sock)]
              else if !e.forwarded then o == [Reply(e.sock, false, m.connectId, m.returnAddr)]
              else
                && |o| == 1 && o[0].Forward? && o[0].sock == s.targets[m.ccbid].sock && o[0].ccbid == m.ccbid
                && o[0].returnAddr == m.returnAddr && o[0].connectId == m.connectId && o[0].requestId !in s.requests
  {
    hide Finish;
  }

  /** A forwarded request is live under the identifier that went out, and it is the only one that is new. */
  lemma RequestLives(s: Server, e: Event, id: CcbId)
    requires Enabled(s, e) && e.ClientRequest?
    ensures var o, r := Step(s, e).outputs, Step(s, e).state.requests;
            if o != [] && o[0].Forward? && o[0].requestId == id
            then
              && id in r && r[id] == Request(e.sock, o[0].ccbid, o[0].returnAddr, o[0].connectId)
              && Step(s, e).state.nextRequestId == (id + 1) % WORD
            else (id in r <==> id in s.requests) && (id in r ==> r[id] == s.requests[id])
  {
    hide FreshId;
  }

  /** The report of a target closes this live request: its client is gone, or it carries its connect id. */
  predicate Closes(s: Server, e: Event, id: CcbId)
  {
    && e.TargetMessage? && e.msg.Result? && e.msg.requestId == Some(id) && id in s.requests
    && (e.clientGone || e.msg.connectId == s.requests[id].connectId)
  }

  /** The client of the request can be told. */
  predicate Told(e: Event)
    requires e.TargetMessage? && e.msg.Result?
  {
    !e.clientGone && !(e.msg.success && e.goneAtReply)
  }

  /**
   * The report with the right connect id for a live request is passed on, as it is and over the
   * connection of that request, unless the client is gone; nothing else is.  A heartbeat is returned.
   */
  lemma ResultAnswered(s: Server, e: Event)
    requires Enabled(s, e) && e.TargetMessage?
    ensures var o := Step(s, e).outputs;
            if e.msg.Alive? && e.heartbeatSent then o == [Heartbeat(s.targets[e.ccbid].sock)]
            else if e.msg.Result? && e.msg.requestId.Some? && Closes(s, e, e.msg.requestId.value) && Told(e)
            then
              var r := s.requests[e.msg.requestId.value];
              o == [Reply(r.sock, e.msg.success, r.connectId, r.returnAddr)]
            else o == []
  {
    hide Finish, WithoutTarget;
  }

  /** The target loses its connection: it broke, or it sent something that it must not. */
  predicate HangsUp(s: Server, e: Event)
  {
    && e.TargetMessage?
    && match e.msg
       case Disconnected => true
       case Alive => !e.heartbeatSent
       case Result(_, requestId, connectId) =>
         requestId.None? || (requestId.value in s.requests && !Closes(s, e, requestId.value))
  }

  lemma HangsUpIff(s: Server, e: Event, k: CcbId)
    requires Enabled(s, e) && e.TargetMessage? && k in s.targets
    ensures k in Step(s, e).state.targets <==> !(k == e.ccbid && HangsUp(s, e))
  {
    hide WithoutTarget, Finish, ExpectOneLess;
    WithoutLeaves(s, e.ccbid);
    Expected(s, e.ccbid);
    WithoutLeaves(ExpectOneLess(s, e.ccbid), e.ccbid);
    if e.msg.Result? && e.msg.requestId.Some? && e.msg.requestId.value in s.requests {
      FinishLeaves(ExpectOneLess(s, e.ccbid), e.msg.requestId.value, e.msg.success);
    }
  }

  lemma WithoutLeaves(s: Server, k: CcbId)
    requires k in s.targets
    ensures var r := WithoutTarget(s, k);
            r.targets.Keys == s.targets.Keys - {k} && r.requests == s.requests - s.targets[k].requests.Keys
  {
  }

  lemma Expected(s: Server, k: CcbId)
    requires k in s.targets
    ensures var r := ExpectOneLess(s, k);
            && r.targets.Keys == s.targets.Keys && r.requests == s.requests && r.stats == s.stats
            && r.targets[k].requests == s.targets[k].requests
  {
  }

  lemma FinishLeaves(s: Server, id: CcbId, success: bool)
    requires id in s.requests
    ensures var r := Finish(s, id, success);
            && r.targets.Keys == s.targets.Keys && r.requests == s.requests - {id}
            && r.stats == if success then s.stats.(succeeded := s.stats.succeeded + 1)
                          else s.stats.(failed := s.stats.failed + 1)
  {
    var r := Finish(s, id, success);
    assert r.targets.Keys == s.targets.Keys;
  }

  /**
   * A request ends with the report that closes it, with its target's connection, or with its client, and
   * does not change before.
   */
  lemma RequestEndsIff(s: Server, e: Event, id: CcbId)
    requires Indexed(s) && Enabled(s, e) && id in s.requests && (e.TargetMessage? || e.ClientDisconnect?)
    ensures var r := Step(s, e).state;
            && (id in r.requests <==>
                && !Closes(s, e, id)
                && !(HangsUp(s, e) && s.requests[id].target == e.ccbid)
                && e != ClientDisconnect(id))
            && (id in r.requests ==> r.requests[id] == s.requests[id])
  {
    hide WithoutTarget, Finish, ExpectOneLess, Indexed;
    if e.ClientDisconnect? {
      FinishLeaves(s, e.requestId, true);
    } else {
      HeldByTarget(s, e.ccbid, id);
      WithoutLeaves(s, e.ccbid);
      Expected(s, e.ccbid);
      WithoutLeaves(ExpectOneLess(s, e.ccbid), e.ccbid);
      if e.msg.Result? && e.msg.requestId.Some? && e.msg.requestId.value in s.requests {
        FinishLeaves(ExpectOneLess(s, e.ccbid), e.msg.requestId.value, e.msg.success);
      }
    }
  }

  lemma HeldByTarget(s: Server, k: CcbId, id: CcbId)
    requires Indexed(s) && k in s.targets && id in s.requests
    ensures id in s.targets[k].requests <==> s.requests[id].target == k
  {
    assert Awaited(s, id);
    assert id in s.targets[k].requests ==> Filed(s, k, id);
  }

  /** A closed request is counted as reported, and one whose client went away as succeeded. */
  lemma EndIsCounted(s: Server, e: Event, id: CcbId)
    requires Enabled(s, e) && (Closes(s, e, id) || e == ClientDisconnect(id))
    ensures var st := Step(s, e).state.stats;
            if e.ClientDisconnect? || e.msg.success then st == s.stats.(succeeded := s.stats.succeeded + 1)
            else st == s.stats.(failed := s.stats.failed + 1)
  {
    hide WithoutTarget, Finish, ExpectOneLess;
    if e.ClientDisconnect? {
      FinishLeaves(s, id, true);
    } else {
      Expected(s, e.ccbid);
      FinishLeaves(ExpectOneLess(s, e.ccbid), id, e.msg.success);
    }
  }

  /** Every request is counted as received, and at once as not found or as failed if it is. */
  lemma RequestCounted(s: Server, e: Event)
    requires Enabled(s, e) && e.ClientRequest?
    ensures var st := Step(s, e).state.stats;
            if e.request.None? then st == s.stats
            else if e.request.value.ccbid !in s.targets
            then st == s.stats.(requests := s.stats.requests + 1, notFound := s.stats.notFound + 1)
            else if e.forwarded then st == s.stats.(requests := s.stats.requests + 1)
            else st == s.stats.(requests := s.stats.requests + 1, failed := s.stats.failed + 1)
  {
    hide FreshId;
  }

  /** Reconnects are counted: a registration that is entitled to its identifier, answered or not, and no other. */
  lemma ReconnectCounted(s: Server, e: Event)
    requires Enabled(s, e) && e.Registration?
    ensures var st := Step(s, e).state.stats;
            && st.reconnects == s.stats.reconnects + (if exists id :: Entitled(s, e.ip, e.claim, id) then 1 else 0)
            && st.requests == s.stats.requests && st.notFound == s.stats.notFound && st.succeeded == s.stats.succeeded
  {
    hide FreshId, Reconnected, Added, WithoutTarget, NextId;
    if Accepted(s, e.ip, e.claim) {
      assert Entitled(s, e.ip, e.claim, e.claim.value.ccbid);
      ReconnectedCounts(s, e.claim.value.ccbid, e.sock, e.ip, e.now);
      ReconnectedRecords(s, e.claim.value.ccbid, e.sock, e.ip, e.now);
    } else {
      AddedCounts(s, FreshId(s.nextCcbid, Taken(s)), e.sock, e.ip, e.freshCookie, e.now);
      AddedRecords(s, FreshId(s.nextCcbid, Taken(s)), e.sock, e.ip, e.freshCookie, e.now);
    }
  }

  /** Neither reconnects nor requests received, not found or succeeded are counted, but for `more` reconnects. */
  predicate SameCounts(st: Stats, was: Stats, more: nat)
  {
    && st.reconnects == was.reconnects + more && st.requests == was.requests
    && st.notFound == was.notFound && st.succeeded == was.succeeded
  }

  lemma ReconnectedCounts(s: Server, id: CcbId, sock: SockId, ip: PeerIp, now: int)
    requires id in s.reconnect
    ensures var r := Reconnected(s, id, sock, ip, now);
            id in r.targets && SameCounts(r.stats, s.stats, 1) && SameCounts(WithoutTarget(r, id).stats, s.stats, 1)
  {
  }

  lemma AddedCounts(s: Server, id: CcbId, sock: SockId, ip: PeerIp, cookie: CcbId, now: int)
    ensures var r := Added(s, id, sock, ip, cookie, now);
            id in r.targets && SameCounts(r.stats, s.stats, 0) && SameCounts(WithoutTarget(r, id).stats, s.stats, 0)
  {
    hide FormatLine;
  }

  /** Sweeps that look for expired records are at least an interval apart, and the first that is gets to do it. */
  lemma SweepsApart(s: Server, e: Event)
    requires Enabled(s, e) && e.Sweep?
    ensures Step(s, e).state.lastSweep == if e.now < s.lastSweep + s.sweepInterval then s.lastSweep else e.now
    ensures e.now < s.lastSweep + s.sweepInterval ==> Step(s, e).state.reconnect == s.reconnect
  {
    hide Survivors, Rewritten, Enumerates;
  }

  /** Addresses of more than 47 characters are cut, and others are not. */
  lemma StoredIpIs(ip: string)
    ensures StoredIp(ip) <= ip && |StoredIp(ip)| == if |ip| < 47 then |ip| else 47
  {
  }

  // ---------------------------------------------------------------- results still to come

  /** The event sends a request to the target, or at least tries to. */
  predicate Orders(s: Server, e: Event, k: CcbId)
  {
    e.ClientRequest? && e.request.Some? && e.request.value.ccbid == k
  }

  predicate Reports(e: Event, k: CcbId)
  {
    e.TargetMessage? && e.msg.Result? && e.ccbid == k
  }

  /**
   * On a connection that stays, every request makes the target expect one result more, and its socket
   * watched; every report one less, and watched only while more are expected.
   */
  lemma ExpectationsCount(s: Server, e: Event, k: CcbId)
    requires Enabled(s, e) && k in s.targets && k in Step(s, e).state.targets && !Confirms(Step(s, e).outputs, k)
    ensures var t, u := s.targets[k], Step(s, e).state.targets[k];
            && u.sock == t.sock && u.peerIp == t.peerIp
            && (Orders(s, e, k) ==> u.pending == t.pending + 1 && u.registered)
            && (Reports(e, k) ==> u.pending == t.pending - 1 && u.registered == (t.registered && t.pending > 1))
            && (!Orders(s, e, k) && !Reports(e, k) ==> u.pending == t.pending && u.registered == t.registered)
  {
    if e.Registration? {
      hide Step, Enabled, Confirms, Entitled;
      RegistrationConnects(s, e, k);
    } else if e.TargetMessage? {
      hide Step, Enabled;
      MessageExpects(s, e, k);
    } else {
      hide HandleRegistration, HandleRequest, HandleTargetMessage, Swept, Started, Finish;
      match e
      case ClientRequest(sock, msg, forwarded) => RequestExpects(s, sock, msg, forwarded, k);
      case ClientDisconnect(id) => FinishExpects(s, id, true, k);
      case Sweep(now, order) => SweptTargets(s, now, order);
      case Restart(now, interval, anyIp, kept) => StartedTargets(kept, s.store.created, now, interval, anyIp);
      case _ =>
    }
  }

  lemma SweptTargets(s: Server, now: int, order: seq<CcbId>)
    requires Enumerates(order, Survivors(s, now).Keys)
    ensures Swept(s, now, order).targets == s.targets
  {
    hide Survivors, Rewritten;
  }

  lemma StartedTargets(text: string, created: bool, now: int, interval: int, anyIp: bool)
    ensures Started(text, created, now, interval, anyIp).targets == map[]
  {
    hide RecordsFrom, LoadedTable, LoadedNext;
  }

  lemma FinishExpects(s: Server, id: CcbId, success: bool, k: CcbId)
    requires id in s.requests && k in s.targets
    ensures var r := Finish(s, id, success).targets;
            && k in r && r[k].sock == s.targets[k].sock && r[k].peerIp == s.targets[k].peerIp
            && r[k].pending == s.targets[k].pending && r[k].registered == s.targets[k].registered
  {
  }

  lemma RequestExpects(s: Server, sock: SockId, msg: Option<RequestMsg>, forwarded: bool, k: CcbId)
    requires |s.requests| < WORD && k in s.targets
    ensures var t, u := s.targets[k], HandleRequest(s, sock, msg, forwarded).state.targets;
            && k in u && u[k].sock == t.sock && u[k].peerIp == t.peerIp
            && if msg.Some? && msg.value.ccbid == k then u[k].pending == t.pending + 1 && u[k].registered
               else u[k].pending == t.pending && u[k].registered == t.registered
  {
    hide FreshId, Finish;
    if msg.Some? && msg.value.ccbid in s.targets {
      var m := msg.value;
      var id := FreshId(s.nextRequestId, s.requests.Keys);
      FinishExpects(WithRequest(s, id, Request(sock, m.ccbid, m.returnAddr, m.connectId)), id, false, k);
    }
  }

  lemma MessageExpects(s: Server, e: Event, k: CcbId)
    requires Enabled(s, e) && e.TargetMessage? && k in s.targets && k in Step(s, e).state.targets
    ensures var t, u := s.targets[k], Step(s, e).state.targets[k];
            && u.sock == t.sock && u.peerIp == t.peerIp
            && if Reports(e, k) then u.pending == t.pending - 1 && u.registered == (t.registered && t.pending > 1)
               else u.pending == t.pending && u.registered == t.registered
  {
    hide Finish, WithoutTarget;
    WithoutOthers(s, e.ccbid, k);
    WithoutOthers(ExpectOneLess(s, e.ccbid), e.ccbid, k);
    if e.msg.Result? && e.msg.requestId.Some? && e.msg.requestId.value in s.requests {
      FinishExpects(ExpectOneLess(s, e.ccbid), e.msg.requestId.value, e.msg.success, k);
    }
  }

  lemma WithoutOthers(s: Server, ccbid: CcbId, k: CcbId)
    requires ccbid in s.targets && k in s.targets
    ensures var t := WithoutTarget(s, ccbid).targets; k in t ==> t[k] == s.targets[k] && k != ccbid
  {
  }
}
