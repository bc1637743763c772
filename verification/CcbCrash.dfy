/**
 * What a crash of the broker can do to identifiers: records that were not yet flushed are lost, and
 * the jump of the counter at the next start is meant to keep their identifiers from being handed
 * out to somebody else.
 */
module CcbCrash {
  import opened Common
  import opened CcbReconnectFile
  import opened CcbServerSpec
  import opened CcbServerProperties

  /** Every identifier that is remembered was handed out before the counter came to where it is. */
  ghost predicate Ahead(s: Server)
  {
    forall k :: k in s.reconnect ==> k < s.nextCcbid
  }

  /** The counter is not about to wrap around. */
  ghost predicate FarFromWrap(s: Server)
  {
    |s.reconnect| + 2 * s.nextCcbid + 200 < WORD
  }

  // ---------------------------------------------------------------- handing out identifiers

  /** Short of the end of the numbers, the search only goes up. */
  lemma FreshIsAbove(start: CcbId, used: set<CcbId>)
    requires start + |used| + 1 < WORD
    ensures start <= FreshId(start, used) <= start + |used|
    ensures NextId(FreshId(start, used)) == FreshId(start, used) + 1
    ensures start !in used ==> FreshId(start, used) == start
  {
    var i := FirstFree(start, used, 0);
    assert Offset(start, i) == start + i;
    assert Offset(start, 0) == start;
  }

  lemma TakenIsRemembered(s: Server)
    requires Remembered(s)
    ensures Taken(s) == s.reconnect.Keys && |Taken(s)| == |s.reconnect|
  {
    assert |s.reconnect| == |s.reconnect.Keys|;
  }

  /** A registration adds at most one identifier, the fresh one, and moves the counter past it. */
  lemma RegistrationIds(s: Server, sock: SockId, ip: PeerIp, claim: Option<ReconnectClaim>, freshCookie: CcbId,
        now: int, replySent: bool)
    requires |Taken(s)| < WORD
    ensures var r := HandleRegistration(s, sock, ip, claim, freshCookie, now, replySent).state;
            var id := FreshId(s.nextCcbid, Taken(s));
            if Accepted(s, ip, claim) then r.reconnect.Keys == s.reconnect.Keys && r.nextCcbid == s.nextCcbid
            else r.reconnect.Keys == s.reconnect.Keys + {id} && r.nextCcbid == NextId(id)
  {
    hide Reconnected, Added, WithoutTarget, FreshId, NextId, Accepted;
    if Accepted(s, ip, claim) {
      ReconnectedIds(s, sock, ip, claim, now);
    } else {
      AddedIds(s, FreshId(s.nextCcbid, Taken(s)), sock, ip, freshCookie, now);
    }
  }

  lemma ReconnectedIds(s: Server, sock: SockId, ip: PeerIp, claim: Option<ReconnectClaim>, now: int)
    requires Accepted(s, ip, claim)
    ensures claim.Some? && claim.value.ccbid in s.reconnect
    ensures var r := Reconnected(s, claim.value.ccbid, sock, ip, now);
            && r.reconnect.Keys == s.reconnect.Keys && r.nextCcbid == s.nextCcbid && claim.value.ccbid in r.targets
            && var t := WithoutTarget(r, claim.value.ccbid);
               t.reconnect.Keys == s.reconnect.Keys && t.nextCcbid == s.nextCcbid
  {
    hide Reconnected, WithoutTarget;
    ReconnectedRecords(s, claim.value.ccbid, sock, ip, now);
    RecordsUntouched(Reconnected(s, claim.value.ccbid, sock, ip, now));
  }

  lemma AddedIds(s: Server, id: CcbId, sock: SockId, ip: PeerIp, cookie: CcbId, now: int)
    ensures var r := Added(s, id, sock, ip, cookie, now);
            && r.reconnect.Keys == s.reconnect.Keys + {id} && r.nextCcbid == NextId(id) && id in r.targets
            && var t := WithoutTarget(r, id);
               t.reconnect.Keys == s.reconnect.Keys + {id} && t.nextCcbid == NextId(id)
  {
    hide Added, WithoutTarget, NextId;
    AddedRecords(s, id, sock, ip, cookie, now);
    RecordsUntouched(Added(s, id, sock, ip, cookie, now));
  }

  lemma SweptIds(s: Server, now: int, order: seq<CcbId>)
    requires Enumerates(order, Survivors(s, now).Keys)
    ensures Swept(s, now, order).nextCcbid == s.nextCcbid
    ensures Swept(s, now, order).reconnect.Keys <= s.reconnect.Keys
  {
    hide Enumerates, Rewritten;
  }

  /** While a process runs, the counter only goes up, and only identifiers from it on are added. */
  lemma StepIds(s: Server, e: Event, k: CcbId)
    requires Remembered(s) && FarFromWrap(s) && Enabled(s, e) && !e.Restart?
    ensures var r := Step(s, e).state;
            && s.nextCcbid <= r.nextCcbid
            && (k in r.reconnect && k !in s.reconnect ==> s.nextCcbid <= k < r.nextCcbid)
  {
    hide HandleRegistration, HandleRequest, HandleTargetMessage, Swept, Survivors, Finish, FreshId, Enumerates;
    match e
    case Registration(sock, ip, claim, freshCookie, now, replySent) =>
      RegistrationIds(s, sock, ip, claim, freshCookie, now, replySent);
      TakenIsRemembered(s);
      FreshIsAbove(s.nextCcbid, Taken(s));
    case ClientRequest(sock, msg, forwarded) => RequestClaims(s, sock, msg, forwarded);
    case TargetMessage(ccbid, msg, clientGone, goneAtReply, heartbeatSent) =>
      MessageClaims(s, ccbid, msg, clientGone, goneAtReply, heartbeatSent);
    case ClientDisconnect(id) => RecordsUntouched(s);
    case Sweep(now, order) => SweptIds(s, now, order);
    case Reconfigure(_, _, _) =>
  }

  // ---------------------------------------------------------------- starting again

  lemma {:induction false} LoadedNextBelow(rs: seq<Record>, bound: int)
    requires 1 <= bound < WORD && forall i :: 0 <= i < |rs| ==> rs[i].ccbid < bound
    ensures LoadedNext(rs, 1) <= bound
  {
    if rs != [] {
      LoadedNextBelow(rs[..|rs| - 1], bound);
    }
  }

  /** What a file of whole lines holds belongs to the table, so its counter stays below the old one. */
  lemma StartedBelow(s: Server, rs: seq<Record>, m: nat, n: nat)
    requires Described(s, rs, m) && Ahead(s) && FarFromWrap(s) && n <= |rs|
    ensures forall i :: 0 <= i < n ==> rs[i].ccbid < s.nextCcbid
    ensures NoWrap(rs[..n]) && RecordsFrom(Lines(rs[..n]), 0) == rs[..n]
  {
    hide Lines, TableOf, RecordsFrom, LoadedNext;
    forall i | 0 <= i < n
      ensures rs[i].ccbid < s.nextCcbid
    {
      TableKeys(rs, i);
      assert rs[i].ccbid in Claims(s.reconnect);
    }
    LoadedNextBelow(rs[..n], if s.nextCcbid == 0 then 1 else s.nextCcbid);
    FileRoundTrip(rs[..n]);
  }

  /** After a start the counter is ahead of everything that was read. */
  lemma StartedAhead(rs: seq<Record>, created: bool, now: int, interval: int, anyIp: bool)
    requires Writable(rs) && Distinct(rs) && (rs != [] ==> created) && NoWrap(rs)
    ensures Ahead(Started(Lines(rs), created, now, interval, anyIp))
    ensures created ==> Started(Lines(rs), created, now, interval, anyIp).nextCcbid == LoadedNext(rs, 1) + 100
  {
    hide Started, LoadedNext, Lines, RecordsFrom, TableOf, NoWrap;
    var r := Started(Lines(rs), created, now, interval, anyIp);
    StartedDescribed(rs, created, now, interval, anyIp);
    StartedCounter(rs, created, now, interval, anyIp);
    forall k | k in r.reconnect
      ensures k < r.nextCcbid
    {
      assert k in Claims(r.reconnect);
      TableHas(rs, k);
    }
  }

  lemma StartedCounter(rs: seq<Record>, created: bool, now: int, interval: int, anyIp: bool)
    requires Writable(rs) && (rs != [] ==> created) && NoWrap(rs)
    ensures var next := Started(Lines(rs), created, now, interval, anyIp).nextCcbid;
            && (created ==> next == LoadedNext(rs, 1) + 100)
            && forall i :: 0 <= i < |rs| ==> rs[i].ccbid < next
  {
    hide LoadedNext, LoadedTable, Lines, RecordsFrom;
    FileRoundTrip(rs);
    if rs != [] {
      JumpIff(rs);
    }
  }

  /** Far from the wrap the counter stays ahead, however a process ends. */
  lemma StepAhead(s: Server, e: Event)
    requires Inv(s) && Ahead(s) && FarFromWrap(s) && Enabled(s, e)
    ensures Ahead(Step(s, e).state)
  {
    hide Step, Inv, Ahead;
    InvRemembers(s);
    if e.Restart? {
      RestartAhead(s, e);
    } else {
      ProcessAhead(s, e);
    }
  }

  lemma RestartAhead(s: Server, e: Event)
    requires Persisted(s) && Ahead(s) && FarFromWrap(s) && Enabled(s, e) && e.Restart?
    ensures Ahead(Step(s, e).state)
  {
    hide Started, Ahead, FarFromWrap, NoWrap, Lines, TableOf, Claims, Distinct;
    var rs: seq<Record>, m: nat :| Described(s, rs, m);
    var n := PrefixLines(rs, e.kept);
    StartedBelow(s, rs, m, n);
    DistinctFirst(rs, n);
    StartedAhead(rs[..n], s.store.created, e.now, e.interval, e.anyIp);
  }

  lemma DistinctFirst(rs: seq<Record>, n: nat)
    requires Distinct(rs) && n <= |rs|
    ensures Distinct(rs[..n])
  {
  }

  lemma ProcessAhead(s: Server, e: Event)
    requires Remembered(s) && Ahead(s) && FarFromWrap(s) && Enabled(s, e) && !e.Restart?
    ensures Ahead(Step(s, e).state)
  {
    hide Step;
    forall k | k in Step(s, e).state.reconnect
      ensures k < Step(s, e).state.nextCcbid
    {
      StepIds(s, e, k);
    }
  }

  lemma InvRemembers(s: Server)
    requires Inv(s)
    ensures Remembered(s) && Persisted(s)
  {
  }

  // ---------------------------------------------------------------- one process

  /** One process goes through the events, far from the wrap. */
  ghost predicate Unbroken(s: Server, es: seq<Event>)
    requires Possible(s, es)
    decreases |es|
  {
    es != [] ==> FarFromWrap(s) && !es[0].Restart? && Unbroken(Step(s, es[0]).state, es[1..])
  }

  /** One process hands out `k`, or remembers it anyway. */
  ghost predicate Reaches(s: Server, k: CcbId)
  {
    exists es :: Possible(s, es) && Unbroken(s, es) && k in Run(s, es).reconnect
  }

  lemma {:induction false} NeverBelow(s: Server, es: seq<Event>, k: CcbId)
    requires Inv(s) && Possible(s, es) && Unbroken(s, es) && k !in s.reconnect && k < s.nextCcbid
    ensures k !in Run(s, es).reconnect
    decreases |es|
  {
    hide Inv, Step, Enabled, FarFromWrap;
    if es != [] {
      StepKeeps(s, es[0]);
      InvRemembers(s);
      StepIds(s, es[0], k);
      NeverBelow(Step(s, es[0]).state, es[1..], k);
    }
  }

  /** A registration of a target that claims nothing. */
  function Join(sock: SockId, cookie: CcbId): Event
  {
    Registration(sock, "0", None, cookie, 0, true)
  }

  /** One more record, under the identifier at which the counter stood, and not flushed. */
  ghost predicate Gained(s: Server, r: Server)
  {
    && r.reconnect.Keys == s.reconnect.Keys + {s.nextCcbid}
    && |r.reconnect| == |s.reconnect| + 1
    && r.nextCcbid == s.nextCcbid + 1
    && r.store.disk == s.store.disk && r.store.created
  }

  lemma JoinGets(s: Server, sock: SockId, cookie: CcbId)
    requires Inv(s) && Ahead(s) && FarFromWrap(s)
    ensures Enabled(s, Join(sock, cookie))
    ensures var o := Step(s, Join(sock, cookie));
            o.outputs == [Registered(sock, s.nextCcbid, cookie)] && Gained(s, o.state)
  {
    hide Step, Enabled, Inv, Remembered, Persisted, Added, Join, Ahead, Gained;
    InvRemembers(s);
    JoinIs(s, sock, cookie);
    AddedGains(s, sock, cookie);
  }

  lemma AddedGains(s: Server, sock: SockId, cookie: CcbId)
    requires FarFromWrap(s) && s.nextCcbid !in s.reconnect
    ensures Gained(s, Added(s, s.nextCcbid, sock, "0", cookie, 0))
  {
    hide Added;
    AddedRecords(s, s.nextCcbid, sock, "0", cookie, 0);
    OneMore(s.reconnect, s.nextCcbid, Reconnect(cookie, "0", 0));
    AddedStore(s, s.nextCcbid, sock, "0", cookie, 0);
  }

  lemma AddedStore(s: Server, ccbid: CcbId, sock: SockId, ip: PeerIp, cookie: CcbId, now: int)
    ensures var r := Added(s, ccbid, sock, ip, cookie, now).store; r.disk == s.store.disk && r.created
  {
    hide FormatLine;
  }

  lemma JoinIs(s: Server, sock: SockId, cookie: CcbId)
    requires Remembered(s) && Ahead(s) && FarFromWrap(s)
    ensures Enabled(s, Join(sock, cookie)) && s.nextCcbid !in s.reconnect
    ensures Step(s, Join(sock, cookie)) ==
            Outcome(Added(s, s.nextCcbid, sock, "0", cookie, 0), [Registered(sock, s.nextCcbid, cookie)])
  {
    hide FreshId, FormatLine, WithoutTarget, Reconnected;
    TakenIsRemembered(s);
    FreshIsAbove(s.nextCcbid, Taken(s));
    AddedRecords(s, s.nextCcbid, sock, "0", cookie, 0);
  }

  /** Registrations bring the counter to any identifier above it. */
  lemma {:induction false} CanReach(s: Server, k: CcbId)
    requires Inv(s) && Ahead(s) && s.nextCcbid <= k && |s.reconnect| + 3 * k - s.nextCcbid + 200 < WORD
    ensures Reaches(s, k)
    decreases k - s.nextCcbid
  {
    hide Inv, Step, Enabled, Ahead;
    var e := Join(0, 0);
    JoinGets(s, 0, 0);
    StepKeeps(s, e);
    var r := Step(s, e).state;
    if s.nextCcbid == k {
      FirstStep(s, e, [], k);
    } else {
      StepAhead(s, e);
      CanReach(r, k);
      var es :| Possible(r, es) && Unbroken(r, es) && k in Run(r, es).reconnect;
      FirstStep(s, e, es, k);
    }
  }

  lemma FirstStep(s: Server, e: Event, es: seq<Event>, k: CcbId)
    requires Enabled(s, e) && FarFromWrap(s) && !e.Restart?
    requires var r := Step(s, e).state; Possible(r, es) && Unbroken(r, es) && k in Run(r, es).reconnect
    ensures Reaches(s, k)
  {
    hide Step, Enabled, FarFromWrap;
    var all := [e] + es;
    assert all[0] == e && all[1..] == es;
    assert Possible(s, all) && Unbroken(s, all) && Run(s, all) == Run(Step(s, e).state, es);
  }

  // ---------------------------------------------------------------- crashes

  /** The process that starts after a crash that loses all that was not flushed. */
  function Crashed(s: Server, now: int, interval: int, anyIp: bool): Server
  {
    Started(s.store.disk, s.store.created, now, interval, anyIp)
  }

  /** Some identifier that is remembered now is lost in a crash and may be handed out again afterwards. */
  ghost predicate AtRisk(s: Server, now: int, interval: int, anyIp: bool)
  {
    exists k :: k in s.reconnect && k !in Crashed(s, now, interval, anyIp).reconnect
                && Reaches(Crashed(s, now, interval, anyIp), k)
  }

  lemma DiskIsLeft(s: Server)
    requires Persisted(s)
    ensures Leaves(s.store, s.store.disk)
  {
    var rs: seq<Record>, m: nat :| Described(s, rs, m);
    LinesPrefix(rs, m);
    LinesEnd(rs[..m]);
  }

  lemma {:induction false} LinesPrefix(rs: seq<Record>, m: nat)
    requires m <= |rs|
    ensures Lines(rs[..m]) <= Lines(rs)
    decreases |rs|
  {
    hide FormatLine;
    if m < |rs| {
      var last := |rs| - 1;
      LinesPrefix(rs[..last], m);
      assert rs[..last][..m] == rs[..m];
    } else {
      assert rs[..m] == rs;
    }
  }

  lemma LinesEnd(rs: seq<Record>)
    ensures Lines(rs) == "" || Lines(rs)[|Lines(rs)| - 1] == '\n'
  {
  }

  /** If something is not flushed, the identifier handed out last is among what a crash loses. */
  lemma LastIsLost(s: Server, now: int, interval: int, anyIp: bool)
    requires Persisted(s) && Ahead(s) && FarFromWrap(s) && s.store.disk != s.store.file
    ensures s.nextCcbid > 0 && s.nextCcbid - 1 in s.reconnect
    ensures s.nextCcbid - 1 !in Crashed(s, now, interval, anyIp).reconnect
    ensures s.store.created
  {
    hide Started, Lines, TableOf, RecordsFrom, LoadedNext, Claims, NoWrap, FarFromWrap;
    var rs: seq<Record>, m: nat :| Described(s, rs, m);
    assert rs[..|rs|] == rs;
    LastRecord(s, rs, m);
    StartedBelow(s, rs, m, m);
    DistinctFirst(rs, m);
    StartedDescribed(rs[..m], s.store.created, now, interval, anyIp);
    NotLoaded(Crashed(s, now, interval, anyIp), rs, m);
  }

  lemma LastRecord(s: Server, rs: seq<Record>, m: nat)
    requires Described(s, rs, m) && m < |rs| && Ahead(s)
    ensures s.nextCcbid > 0 && rs[|rs| - 1].ccbid == s.nextCcbid - 1 && s.nextCcbid - 1 in s.reconnect
  {
    hide Lines, TableOf;
    var last := rs[|rs| - 1].ccbid;
    TableKeys(rs, |rs| - 1);
    assert last in Claims(s.reconnect);
  }

  lemma NotLoaded(r: Server, rs: seq<Record>, m: nat)
    requires Distinct(rs) && m < |rs| && Described(r, rs[..m], m)
    ensures rs[|rs| - 1].ccbid !in r.reconnect
  {
    hide Lines, TableOf;
    var last := rs[|rs| - 1].ccbid;
    if last in r.reconnect {
      assert last in Claims(r.reconnect);
      TableHas(rs[..m], last);
      assert false;
    }
  }

  lemma CrashedInv(s: Server, now: int, interval: int, anyIp: bool)
    requires Inv(s) && Ahead(s) && FarFromWrap(s) && interval >= 0
    ensures Inv(Crashed(s, now, interval, anyIp)) && Ahead(Crashed(s, now, interval, anyIp))
  {
    var e := Restart(now, interval, anyIp, s.store.disk);
    hide Inv, Started, Ahead, FarFromWrap, Persisted, Remembered;
    InvRemembers(s);
    DiskIsLeft(s);
    assert Enabled(s, e) && Step(s, e).state == Crashed(s, now, interval, anyIp);
    hide Step, Enabled;
    StepKeeps(s, e);
    StepAhead(s, e);
  }

  lemma CrashedKey(s: Server, now: int, interval: int, anyIp: bool, k: CcbId)
    requires Persisted(s) && k in Crashed(s, now, interval, anyIp).reconnect
    ensures k in s.reconnect
  {
    hide Started, Persisted, RecordsFrom, TableOf, Leaves;
    DiskIsLeft(s);
    RestartRemembersFlushed(s, now, interval, anyIp, s.store.disk, k);
    assert k in Claims(Crashed(s, now, interval, anyIp).reconnect);
  }

  lemma CrashedSize(s: Server, now: int, interval: int, anyIp: bool)
    requires Persisted(s)
    ensures |Crashed(s, now, interval, anyIp).reconnect| <= |s.reconnect|
  {
    hide Started, Persisted;
    var r := Crashed(s, now, interval, anyIp);
    forall k | k in r.reconnect
      ensures k in s.reconnect
    {
      CrashedKey(s, now, interval, anyIp, k);
    }
    SubsetSize(r.reconnect.Keys, s.reconnect.Keys);
  }

  /** A crash that finds everything flushed loses nothing. */
  lemma NothingToLose(s: Server, now: int, interval: int, anyIp: bool, k: CcbId)
    requires Persisted(s) && s.store.disk == s.store.file && k in s.reconnect
    ensures k in Crashed(s, now, interval, anyIp).reconnect
  {
    hide Started, Persisted;
    RestartRemembers(s, now, interval, anyIp);
    assert k in Claims(s.reconnect);
  }

  lemma RiskMeans(s: Server, now: int, interval: int, anyIp: bool)
    requires Inv(s) && Ahead(s) && FarFromWrap(s) && interval >= 0 && AtRisk(s, now, interval, anyIp)
    ensures s.store.disk != s.store.file && s.nextCcbid > Crashed(s, now, interval, anyIp).nextCcbid
  {
    hide Inv, Crashed, Possible, Run, Unbroken, Persisted, Remembered;
    var r := Crashed(s, now, interval, anyIp);
    var k :| k in s.reconnect && k !in r.reconnect && Reaches(r, k);
    var es :| Possible(r, es) && Unbroken(r, es) && k in Run(r, es).reconnect;
    InvRemembers(s);
    if s.store.disk == s.store.file {
      NothingToLose(s, now, interval, anyIp, k);
    }
    CrashedInv(s, now, interval, anyIp);
    if k < r.nextCcbid {
      NeverBelow(r, es, k);
    }
  }

  lemma RiskArises(s: Server, now: int, interval: int, anyIp: bool)
    requires Inv(s) && Ahead(s) && |s.reconnect| + 3 * s.nextCcbid + 200 < WORD && interval >= 0
    requires s.store.disk != s.store.file && s.nextCcbid > Crashed(s, now, interval, anyIp).nextCcbid
    ensures AtRisk(s, now, interval, anyIp)
  {
    hide Inv, Crashed, Reaches, Ahead, Persisted, Remembered;
    InvRemembers(s);
    LastIsLost(s, now, interval, anyIp);
    CrashedInv(s, now, interval, anyIp);
    CrashedSize(s, now, interval, anyIp);
    var k: CcbId := s.nextCcbid - 1;
    CanReach(Crashed(s, now, interval, anyIp), k);
    assert k in s.reconnect && k !in Crashed(s, now, interval, anyIp).reconnect;
  }

  /**
   * Far from the wrap, a crash can lead to an identifier being handed out again that somebody still
   * has, exactly if something is not flushed and the counter has come further than the jump of the
   * next start will take it.
   */
  lemma CrashRiskIff(s: Server, now: int, interval: int, anyIp: bool)
    requires Inv(s) && Ahead(s) && |s.reconnect| + 3 * s.nextCcbid + 200 < WORD && interval >= 0
    ensures AtRisk(s, now, interval, anyIp) <==>
            s.store.disk != s.store.file && s.nextCcbid > Crashed(s, now, interval, anyIp).nextCcbid
  {
    hide Inv, Crashed, AtRisk;
    if AtRisk(s, now, interval, anyIp) {
      RiskMeans(s, now, interval, anyIp);
    } else if s.store.disk != s.store.file && s.nextCcbid > Crashed(s, now, interval, anyIp).nextCcbid {
      RiskArises(s, now, interval, anyIp);
    }
  }

  /**
   * The jump of 100 does not help a process that has just been started: what it hands out before the
   * first flush, the next one hands out again after a crash.
   */
  lemma HandedOutTwice(rs: seq<Record>, now: int, interval: int, anyIp: bool, c1: CcbId, c2: CcbId)
    requires Writable(rs) && Distinct(rs) && NoWrap(rs) && interval >= 0
    requires FarFromWrap(Started(Lines(rs), true, now, interval, anyIp))
    ensures var s := Started(Lines(rs), true, now, interval, anyIp);
            && Enabled(s, Join(1, c1))
            && var t := Crashed(Step(s, Join(1, c1)).state, now, interval, anyIp);
               && Enabled(t, Join(2, c2))
               && Step(s, Join(1, c1)).outputs == [Registered(1, s.nextCcbid, c1)]
               && Step(t, Join(2, c2)).outputs == [Registered(2, s.nextCcbid, c2)]
  {
    var s := Started(Lines(rs), true, now, interval, anyIp);
    assert s.store == Storage(Lines(rs), Lines(rs), true);
    hide Started, Lines, Step, Enabled, Inv, Ahead, FarFromWrap;
    StartedInv(rs, now, interval, anyIp);
    StartedAhead(rs, true, now, interval, anyIp);
    JoinGets(s, 1, c1);
    JoinGets(s, 2, c2);
    assert Crashed(Step(s, Join(1, c1)).state, now, interval, anyIp) == s;
  }

  lemma StartedInv(rs: seq<Record>, now: int, interval: int, anyIp: bool)
    requires Writable(rs) && Distinct(rs) && interval >= 0
    ensures Inv(Started(Lines(rs), true, now, interval, anyIp))
  {
    hide Persisted, LoadedTable, RecordsFrom, StartedNext, Lines, Writable, Distinct;
    StartedPersisted(rs, now, interval, anyIp);
  }

  lemma StartedPersisted(rs: seq<Record>, now: int, interval: int, anyIp: bool)
    requires Writable(rs) && Distinct(rs)
    ensures Persisted(Started(Lines(rs), true, now, interval, anyIp))
  {
    hide Described, Started, Lines;
    StartedDescribed(rs, true, now, interval, anyIp);
  }
}
