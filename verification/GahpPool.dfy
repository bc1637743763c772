/**
 * The worker pool of the ARC GAHP: commands, threads and the big mutex.  Between two
 * releases of the mutex exactly one thread runs, so each such stretch is one step.
 */
module GahpPool {
  import opened Common

  // ---------------------------------------------------------------- state and steps

  /** Where a thread stands when it does not hold the mutex. */
  datatype Phase =
    | New                // created, and yet to take the mutex
    | Waiting            // in its timed wait
    | Busy(command: nat) // working on a command

  datatype Worker = Worker(phase: Phase, doing: bool, waiting: bool, list: seq<nat>)

  /** Where a command is. */
  datatype Place = Queued | Listed(id: int) | InHand(id: int) | Done | Lost

  /** Commands are numbered as they are accepted; `place` and `given` only record what happened. */
  datatype Pool = Pool(
    min: int, max: int,
    workers: map<int, Worker>,
    avail: int,
    pending: seq<nat>,
    accepted: nat,
    given: seq<nat>,         // commands in the order in which workers got them
    place: map<nat, Place>)

  datatype Event =
    | Accept(free: Option<int>, id: int, created: bool) // a command; the free worker found, or the id of a new one
    | Begin(worker: int)                                // a new thread takes the mutex
    | Wake(worker: int)                                 // a signal, or none
    | TimeOut(worker: int)
    | Finish(worker: int)

  /** A command goes to a worker's own list. */
  function Assigned(p: Pool, id: int): Pool
    requires id in p.workers
  {
    var w := p.workers[id];
    p.(workers := p.workers[id := w.(list := w.list + [p.accepted], doing := true)],
       accepted := p.accepted + 1,
       given := p.given + [p.accepted],
       place := p.place[p.accepted := Listed(id)])
  }

  function Appended(p: Pool): Pool
  {
    p.(pending := p.pending + [p.accepted], accepted := p.accepted + 1, place := p.place[p.accepted := Queued])
  }

  function Grown(p: Pool, id: int): Pool
  {
    p.(workers := p.workers[id := Worker(New, false, false, [])], avail := p.avail + 1)
  }

  predicate Room(p: Pool)
  {
    p.max == -1 || p.avail < p.max
  }

  function Accepted(p: Pool, free: Option<int>, id: int, created: bool): Pool
    requires free.Some? ==> free.value in p.workers
  {
    if free.Some? then Assigned(p, free.value)
    else if Room(p) && created then Assigned(Grown(p, id), id)
    else Appended(p)
  }

  /** The thread takes a command: its own first, then the oldest pending one; with neither it waits. */
  function Next(p: Pool, id: int): Pool
    requires id in p.workers
  {
    var w := p.workers[id];
    if w.list != [] then
      p.(workers := p.workers[id := Worker(Busy(w.list[0]), true, false, w.list[1..])],
          place := p.place[w.list[0] := InHand(id)])
    else if p.pending != [] then
      p.(workers := p.workers[id := Worker(Busy(p.pending[0]), true, false, [])], pending := p.pending[1..],
         given := p.given + [p.pending[0]], place := p.place[p.pending[0] := InHand(id)])
    else p.(workers := p.workers[id := w.(phase := Waiting, waiting := true)])
  }

  function Idle(p: Pool, id: int): Pool
    requires id in p.workers
  {
    p.(workers := p.workers[id := p.workers[id].(doing := false, waiting := false)])
  }

  /** The thread ends, and with it the commands in its list. */
  function Removed(p: Pool, id: int): Pool
    requires id in p.workers
  {
    p.(workers := p.workers - {id}, avail := p.avail - 1,
       place := map c | c in p.place :: if p.place[c] == Listed(id) then Lost else p.place[c])
  }

  function Completed(p: Pool, id: int): Pool
    requires id in p.workers && p.workers[id].phase.Busy?
  {
    var w := p.workers[id];
    p.(workers := p.workers[id := w.(phase := New)], place := p.place[w.phase.command := Done])
  }

  predicate Enabled(p: Pool, e: Event)
  {
    match e
    case Accept(free, id, created) =>
      && (free.Some? ==> free.value in p.workers && !p.workers[free.value].doing)
      && (free.None? ==> forall i :: i in p.workers ==> p.workers[i].doing)
      && (free.None? && Room(p) && created ==> id !in p.workers)
    case Begin(id) => id in p.workers && p.workers[id].phase.New?
    case Wake(id) => id in p.workers && p.workers[id].phase.Waiting?
    case TimeOut(id) => id in p.workers && p.workers[id].phase.Waiting?
    case Finish(id) => id in p.workers && p.workers[id].phase.Busy?
  }

  function Step(p: Pool, e: Event): Pool
    requires Enabled(p, e)
  {
    match e
    case Accept(free, id, created) => Accepted(p, free, id, created)
    case Begin(id) => Next(Idle(p, id), id)
    case Wake(id) => Next(p, id)
    case TimeOut(id) =>
      if p.pending != [] then Next(p, id)
      else if p.avail > p.min then Removed(p, id)
      else Next(Idle(p, id), id)
    case Finish(id) => Next(Idle(Completed(p, id), id), id)
  }

  // ---------------------------------------------------------------- invariants

  /** A worker is busy, or marked as doing something, exactly while it has a command; and it is never given two. */
  predicate Sound(w: Worker)
  {
    && |w.list| <= 1
    && (w.doing <==> w.phase.Busy? || w.list != [])
    && (w.phase.Busy? ==> w.list == [])
    && (w.waiting <==> w.phase.Waiting?)
  }

  ghost predicate Sized(p: Pool)
  {
    p.avail == |p.workers| && p.min <= p.avail && (p.max != -1 ==> p.avail <= if p.min < p.max then p.max else p.min)
  }

  ghost predicate AllSound(p: Pool)
  {
    forall id :: id in p.workers ==> Sound(p.workers[id])
  }

  /** Commands wait only while every worker is busy. */
  ghost predicate Conserving(p: Pool)
  {
    p.pending != [] ==> forall id :: id in p.workers ==> p.workers[id].doing
  }

  /** Each accepted command is in exactly one place. */
  ghost predicate Located(p: Pool)
  {
    Numbered(p) && LocatedPending(p) && LocatedLists(p) && LocatedHands(p)
  }

  ghost predicate Numbered(p: Pool)
  {
    && (forall c: nat :: c in p.place <==> c < p.accepted)
    && (forall c :: c in p.place && (p.place[c].Listed? || p.place[c].InHand?) ==> p.place[c].id in p.workers)
  }

  ghost predicate LocatedLists(p: Pool)
  {
    forall id, c :: id in p.workers ==> (c in p.workers[id].list <==> c in p.place && p.place[c] == Listed(id))
  }

  ghost predicate LocatedHands(p: Pool)
  {
    forall id, c :: id in p.workers ==>
      (p.workers[id].phase == Busy(c) <==> c in p.place && p.place[c] == InHand(id))
  }

  ghost predicate LocatedPending(p: Pool)
  {
    && (forall c :: c in p.pending <==> c in p.place && p.place[c] == Queued)
    && (forall i, j :: 0 <= i < j < |p.pending| ==> p.pending[i] != p.pending[j])
  }

  ghost predicate Core(p: Pool)
  {
    Sized(p) && AllSound(p) && Conserving(p) && Located(p)
  }

  function Upto(n: nat): (s: seq<nat>)
    ensures |s| == n && forall i :: 0 <= i < n ==> s[i] == i
  {
    if n == 0 then [] else Upto(n - 1) + [n - 1]
  }

  /** Commands wait only in a pool of the greatest size, and workers get them in the order of arrival. */
  ghost predicate Orderly(p: Pool)
  {
    && (p.pending != [] ==> p.max != -1 && p.avail == if p.min < p.max then p.max else p.min)
    && p.given + p.pending == Upto(p.accepted)
  }

  // ---------------------------------------------------------------- size

  lemma NextSized(p: Pool, id: int)
    requires Sized(p) && id in p.workers
    ensures Sized(Next(p, id)) && Sized(Idle(p, id))
  {
    assert Next(p, id).workers.Keys == p.workers.Keys;
    assert Idle(p, id).workers.Keys == p.workers.Keys;
    SameSize(p.workers, Next(p, id).workers);
    SameSize(p.workers, Idle(p, id).workers);
  }

  lemma SameSize<V, W>(m: map<int, V>, n: map<int, W>)
    requires m.Keys == n.Keys
    ensures |m| == |n|
  {
    assert |m| == |m.Keys| && |n| == |n.Keys|;
  }

  lemma OneFewer<V>(m: map<int, V>, k: int)
    requires k in m
    ensures |m - {k}| == |m| - 1
  {
    assert (m - {k}).Keys == m.Keys - {k};
    assert |m| == |m.Keys| && |m - {k}| == |(m - {k}).Keys|;
  }

  lemma OneMore<V>(m: map<int, V>, k: int, v: V)
    requires k !in m
    ensures |m[k := v]| == |m| + 1
  {
    assert m[k := v].Keys == m.Keys + {k};
    assert |m| == |m.Keys| && |m[k := v]| == |m[k := v].Keys|;
  }

  lemma AcceptSized(p: Pool, free: Option<int>, id: int, created: bool)
    requires Sized(p) && Enabled(p, Accept(free, id, created))
    ensures Sized(Accepted(p, free, id, created))
  {
    if free.Some? {
      SameSize(p.workers, Assigned(p, free.value).workers);
    } else if Room(p) && created {
      var q := Grown(p, id);
      OneMore(p.workers, id, Worker(New, false, false, []));
      SameSize(q.workers, Assigned(q, id).workers);
    }
  }

  lemma RemovedSized(p: Pool, id: int)
    requires Sized(p) && id in p.workers && p.avail > p.min
    ensures Sized(Removed(p, id))
  {
    OneFewer(p.workers, id);
  }

  lemma CompletedSized(p: Pool, id: int)
    requires Sized(p) && id in p.workers && p.workers[id].phase.Busy?
    ensures Sized(Completed(p, id))
  {
    SameSize(p.workers, Completed(p, id).workers);
  }

  lemma StepSized(p: Pool, e: Event)
    requires Sized(p) && Enabled(p, e)
    ensures Sized(Step(p, e))
  {
    hide Next, Removed, Accepted, Sized;
    match e
    case Accept(free, id, created) =>
      AcceptSized(p, free, id, created);
    case Begin(id) =>
      NextSized(p, id);
      NextSized(Idle(p, id), id);
    case Wake(id) =>
      NextSized(p, id);
    case TimeOut(id) =>
      NextSized(p, id);
      if p.pending == [] && p.avail > p.min {
        RemovedSized(p, id);
      } else {
        NextSized(Idle(p, id), id);
      }
    case Finish(id) =>
      CompletedSized(p, id);
      NextSized(Completed(p, id), id);
      NextSized(Idle(Completed(p, id), id), id);
  }

  // ---------------------------------------------------------------- soundness and work conservation

  /** Between taking the mutex and choosing what to do next, one worker's own flags lag behind. */
  ghost predicate Ready(p: Pool, id: int)
  {
    && id in p.workers
    && (forall i :: i in p.workers && i != id ==> Sound(p.workers[i]))
    && (p.pending != [] ==> forall i :: i in p.workers && i != id ==> p.workers[i].doing)
    && |p.workers[id].list| <= 1 && !p.workers[id].phase.Busy?
    && (p.workers[id].list == [] && p.pending == [] ==> !p.workers[id].doing)
  }

  lemma NextKeeps(p: Pool, id: int)
    requires Ready(p, id)
    ensures AllSound(Next(p, id)) && Conserving(Next(p, id))
  {
    var q := Next(p, id);
    assert Sound(q.workers[id]);
    forall i | i in q.workers && i != id
      ensures q.workers[i] == p.workers[i] && Sound(q.workers[i]) && (q.pending != [] ==> q.workers[i].doing)
    {
    }
  }

  lemma IdleReady(p: Pool, id: int)
    requires AllSound(p) && Conserving(p) && id in p.workers && !p.workers[id].phase.Busy?
    ensures Ready(p, id) && Ready(Idle(p, id), id)
  {
  }

  lemma CompletedReady(p: Pool, id: int)
    requires AllSound(p) && Conserving(p) && id in p.workers && p.workers[id].phase.Busy?
    ensures Ready(Idle(Completed(p, id), id), id)
  {
  }

  lemma AcceptKeeps(p: Pool, free: Option<int>, id: int, created: bool)
    requires AllSound(p) && Conserving(p) && Enabled(p, Accept(free, id, created))
    ensures AllSound(Accepted(p, free, id, created)) && Conserving(Accepted(p, free, id, created))
  {
  }

  lemma RemovedKeeps(p: Pool, id: int)
    requires AllSound(p) && Conserving(p) && id in p.workers
    ensures AllSound(Removed(p, id)) && Conserving(Removed(p, id))
  {
  }

  lemma StepSound(p: Pool, e: Event)
    requires AllSound(p) && Conserving(p) && Enabled(p, e)
    ensures AllSound(Step(p, e)) && Conserving(Step(p, e))
  {
    hide Next, Removed, Accepted, Sound, Conserving, Ready;
    match e
    case Accept(free, id, created) =>
      AcceptKeeps(p, free, id, created);
    case Begin(id) =>
      IdleReady(p, id);
      NextKeeps(Idle(p, id), id);
    case Wake(id) =>
      IdleReady(p, id);
      NextKeeps(p, id);
    case TimeOut(id) =>
      IdleReady(p, id);
      NextKeeps(p, id);
      NextKeeps(Idle(p, id), id);
      RemovedKeeps(p, id);
    case Finish(id) =>
      CompletedReady(p, id);
      NextKeeps(Idle(Completed(p, id), id), id);
  }

  // ---------------------------------------------------------------- every command in one place

  lemma PendingUntouched(p: Pool, q: Pool, c: nat)
    requires LocatedPending(p) && c in p.place && p.place[c] != Queued
    requires q.pending == p.pending && q.place.Keys == p.place.Keys && q.place[c] != Queued
    requires forall k :: k in p.place && k != c ==> q.place[k] == p.place[k]
    ensures LocatedPending(q)
  {
  }

  lemma TakeOwnLocated(p: Pool, id: int)
    requires Located(p) && id in p.workers && !p.workers[id].phase.Busy? && |p.workers[id].list| == 1
    ensures Located(Next(p, id))
  {
    var c := p.workers[id].list[0];
    assert c in p.place && p.place[c] == Listed(id);
    PendingUntouched(p, Next(p, id), c);
    TakeOwnLists(p, id);
    TakeOwnHands(p, id);
    hide LocatedPending, LocatedLists, LocatedHands;
  }

  lemma TakeOwnLists(p: Pool, id: int)
    requires LocatedLists(p) && id in p.workers && |p.workers[id].list| == 1
    ensures LocatedLists(Next(p, id))
  {
  }

  lemma TakeOwnHands(p: Pool, id: int)
    requires LocatedLists(p) && LocatedHands(p)
    requires id in p.workers && !p.workers[id].phase.Busy? && |p.workers[id].list| == 1
    ensures LocatedHands(Next(p, id))
  {
    var c := p.workers[id].list[0];
    assert c in p.place && p.place[c] == Listed(id);
  }

  lemma TakePendingLocated(p: Pool, id: int)
    requires Located(p) && id in p.workers && !p.workers[id].phase.Busy? && p.workers[id].list == [] && p.pending != []
    ensures Located(Next(p, id))
  {
    assert p.pending[0] in p.place && p.place[p.pending[0]] == Queued;
    TakePendingOrder(p, id);
    TakePendingHands(p, id);
    hide LocatedPending, LocatedHands;
  }

  lemma TakePendingHands(p: Pool, id: int)
    requires LocatedPending(p) && LocatedHands(p) && p.pending != []
    requires id in p.workers && !p.workers[id].phase.Busy? && p.workers[id].list == []
    ensures LocatedHands(Next(p, id))
  {
    assert p.pending[0] in p.place && p.place[p.pending[0]] == Queued;
  }

  lemma TakePendingOrder(p: Pool, id: int)
    requires LocatedPending(p) && id in p.workers && p.workers[id].list == [] && p.pending != []
    ensures LocatedPending(Next(p, id))
  {
    assert p.pending == [p.pending[0]] + p.pending[1..];
    assert Next(p, id).pending == p.pending[1..];
  }

  lemma NextLocated(p: Pool, id: int)
    requires Located(p) && id in p.workers && !p.workers[id].phase.Busy? && |p.workers[id].list| <= 1
    ensures Located(Next(p, id))
  {
    if p.workers[id].list != [] {
      TakeOwnLocated(p, id);
    } else if p.pending != [] {
      TakePendingLocated(p, id);
    }
  }

  lemma IdleLocated(p: Pool, id: int)
    requires Located(p) && id in p.workers
    ensures Located(Idle(p, id))
  {
  }

  lemma CompletedLocated(p: Pool, id: int)
    requires Located(p) && id in p.workers && p.workers[id].phase.Busy?
    ensures Located(Completed(p, id))
  {
    var c := p.workers[id].phase.command;
    assert c in p.place && p.place[c] == InHand(id);
    PendingUntouched(p, Completed(p, id), c);
    CompletedLists(p, id);
    hide LocatedPending, LocatedLists;
  }

  lemma CompletedLists(p: Pool, id: int)
    requires LocatedLists(p) && LocatedHands(p) && id in p.workers && p.workers[id].phase.Busy?
    ensures LocatedLists(Completed(p, id))
  {
    var c := p.workers[id].phase.command;
    assert c in p.place && p.place[c] == InHand(id);
  }

  lemma RemovedLocated(p: Pool, id: int)
    requires Located(p) && id in p.workers && !p.workers[id].phase.Busy?
    ensures Located(Removed(p, id))
  {
    assert Removed(p, id).place.Keys == p.place.Keys;
  }

  lemma AssignedLocated(p: Pool, id: int)
    requires Located(p) && id in p.workers
    ensures Located(Assigned(p, id))
  {
    AssignedPending(p, id);
    AssignedLists(p, id);
    AssignedHands(p, id);
    hide LocatedPending, LocatedLists, LocatedHands;
  }

  lemma AssignedPending(p: Pool, id: int)
    requires Numbered(p) && LocatedPending(p) && id in p.workers
    ensures LocatedPending(Assigned(p, id))
  {
    assert p.accepted !in p.place;
  }

  lemma AssignedLists(p: Pool, id: int)
    requires Numbered(p) && LocatedLists(p) && id in p.workers
    ensures LocatedLists(Assigned(p, id))
  {
    assert p.accepted !in p.place;
  }

  lemma AssignedHands(p: Pool, id: int)
    requires Numbered(p) && LocatedHands(p) && id in p.workers
    ensures LocatedHands(Assigned(p, id))
  {
    assert p.accepted !in p.place;
  }

  lemma AppendedLocated(p: Pool)
    requires Located(p)
    ensures Located(Appended(p))
  {
    assert p.accepted !in p.place;
  }

  lemma GrownLocated(p: Pool, id: int)
    requires Located(p) && id !in p.workers
    ensures Located(Grown(p, id))
  {
  }

  lemma StepLocated(p: Pool, e: Event)
    requires Located(p) && AllSound(p) && Enabled(p, e)
    ensures Located(Step(p, e))
  {
    hide Next, Removed, Located;
    match e
    case Accept(free, id, created) =>
      if free.Some? {
        AssignedLocated(p, free.value);
      } else if Room(p) && created {
        GrownLocated(p, id);
        AssignedLocated(Grown(p, id), id);
      } else {
        AppendedLocated(p);
      }
    case Begin(id) =>
      IdleLocated(p, id);
      NextLocated(Idle(p, id), id);
    case Wake(id) =>
      NextLocated(p, id);
    case TimeOut(id) =>
      NextLocated(p, id);
      IdleLocated(p, id);
      NextLocated(Idle(p, id), id);
      RemovedLocated(p, id);
    case Finish(id) =>
      CompletedLocated(p, id);
      IdleLocated(Completed(p, id), id);
      NextLocated(Idle(Completed(p, id), id), id);
  }

  /** The pool's counter, its workers and the places of its commands agree after every step. */
  lemma StepKeepsCore(p: Pool, e: Event)
    requires Core(p) && Enabled(p, e)
    ensures Core(Step(p, e))
  {
    hide Sized, AllSound, Conserving, Located, Step, Enabled;
    StepSized(p, e);
    StepSound(p, e);
    StepLocated(p, e);
  }

  // ---------------------------------------------------------------- order

  /** A thread is needed and the system does not grant one. */
  predicate Refused(p: Pool, e: Event)
  {
    e.Accept? && e.free.None? && (p.max == -1 || p.avail < p.max) && !e.created
  }

  lemma NextOrderly(p: Pool, id: int)
    requires Orderly(p) && id in p.workers
    ensures Orderly(Next(p, id)) && Orderly(Idle(p, id))
  {
    if p.workers[id].list == [] && p.pending != [] {
      assert p.given + [p.pending[0]] + p.pending[1..] == p.given + p.pending;
    }
  }

  lemma AcceptOrderlyIff(p: Pool, free: Option<int>, id: int, created: bool)
    requires Orderly(p) && Conserving(p) && Sized(p) && Enabled(p, Accept(free, id, created))
    ensures Orderly(Accepted(p, free, id, created)) <==> !Refused(p, Accept(free, id, created))
  {
    var q := Accepted(p, free, id, created);
    if free.Some? || (Room(p) && created) {
      assert p.pending == [] && p.given + [p.accepted] + [] == p.given + [] + [p.accepted];
    } else {
      assert p.given + (p.pending + [p.accepted]) == p.given + p.pending + [p.accepted];
    }
  }

  lemma CompletedOrderly(p: Pool, id: int)
    requires Orderly(p) && id in p.workers && p.workers[id].phase.Busy?
    ensures Orderly(Completed(p, id))
  {
  }

  lemma RemovedOrderly(p: Pool, id: int)
    requires Orderly(p) && id in p.workers && p.pending == []
    ensures Orderly(Removed(p, id))
  {
  }

  /** No command overtakes a waiting one, and none waits while the pool can grow, unless a thread is refused. */
  lemma StepOrderlyIff(p: Pool, e: Event)
    requires Core(p) && Orderly(p) && Enabled(p, e)
    ensures Orderly(Step(p, e)) <==> !Refused(p, e)
  {
    hide Next, Removed, Orderly, Accepted, Sized, Located, AllSound, Room;
    match e
    case Accept(free, id, created) =>
      AcceptOrderlyIff(p, free, id, created);
    case Begin(id) =>
      NextOrderly(p, id);
      NextOrderly(Idle(p, id), id);
    case Wake(id) =>
      NextOrderly(p, id);
    case TimeOut(id) =>
      NextOrderly(p, id);
      NextOrderly(Idle(p, id), id);
      if p.pending == [] {
        RemovedOrderly(p, id);
      }
    case Finish(id) =>
      CompletedOrderly(p, id);
      NextOrderly(Completed(p, id), id);
      NextOrderly(Idle(Completed(p, id), id), id);
  }

  // ---------------------------------------------------------------- loss

  ghost predicate NoneLost(p: Pool)
  {
    forall c :: c in p.place ==> p.place[c] != Lost
  }

  /**
   * The wait of a worker times out after it was given a command and before it saw it, in a pool with
   * workers to spare.
   */
  predicate Loses(p: Pool, e: Event)
    requires Enabled(p, e)
  {
    e.TimeOut? && p.workers[e.worker].list != [] && p.pending == [] && p.avail > p.min
  }

  lemma StepLosesIff(p: Pool, e: Event)
    requires Core(p) && NoneLost(p) && Enabled(p, e)
    ensures NoneLost(Step(p, e)) <==> !Loses(p, e)
  {
    hide LocatedPending, LocatedHands, AllSound, Sized;
    if e.TimeOut? && p.pending == [] && p.avail > p.min && p.workers[e.worker].list != [] {
      var c := p.workers[e.worker].list[0];
      assert c in p.place && p.place[c] == Listed(e.worker);
      assert Step(p, e).place[c] == Lost;
    }
  }

  // ---------------------------------------------------------------- runs

  predicate Possible(p: Pool, es: seq<Event>)
    decreases |es|
  {
    es == [] || (Enabled(p, es[0]) && Possible(Step(p, es[0]), es[1..]))
  }

  function Run(p: Pool, es: seq<Event>): Pool
    requires Possible(p, es)
    decreases |es|
  {
    if es == [] then p else Run(Step(p, es[0]), es[1..])
  }

  /** No thread is refused on the way. */
  predicate Granted(p: Pool, es: seq<Event>)
    requires Possible(p, es)
    decreases |es|
  {
    es == [] || (!Refused(p, es[0]) && Granted(Step(p, es[0]), es[1..]))
  }

  /** No worker times out on the way with a command it has not seen. */
  predicate Careful(p: Pool, es: seq<Event>)
    requires Possible(p, es)
    decreases |es|
  {
    es == [] || (!Loses(p, es[0]) && Careful(Step(p, es[0]), es[1..]))
  }

  /** After start-up there are `min` threads, and nothing to do. */
  function StartedUp(min: nat, max: int): Pool
  {
    Pool(min, max, Crew(min), min, [], 0, [], map[])
  }

  /** The first `n` threads. */
  function Crew(n: nat): map<int, Worker>
  {
    map id | id in Ids(n) :: Worker(New, false, false, [])
  }

  lemma StartKeeps(min: nat, max: int)
    ensures Core(StartedUp(min, max)) && Orderly(StartedUp(min, max)) && NoneLost(StartedUp(min, max))
  {
    assert StartedUp(min, max).workers.Keys == Ids(min);
    assert |StartedUp(min, max).workers| == |StartedUp(min, max).workers.Keys|;
  }

  lemma CrewGrows(n: nat)
    ensures |Crew(n)| == n && forall id :: id in Crew(n) ==> id <= n
    ensures Crew(n)[n + 1 := Worker(New, false, false, [])] == Crew(n + 1)
  {
    assert Crew(n).Keys == Ids(n);
    assert Ids(n + 1) == Ids(n) + {n + 1};
  }

  /** The identifiers 1, ..., n. */
  function Ids(n: nat): (ids: set<int>)
    ensures |ids| == n && forall id :: id in ids <==> 1 <= id <= n
  {
    if n == 0 then {} else Ids(n - 1) + {n}
  }

  /**
   * After any run the counter is the number of workers and within its bounds, commands wait only
   * while all workers are busy, and every accepted command is in exactly one place.
   */
  lemma {:induction false} RunKeepsCore(p: Pool, es: seq<Event>)
    requires Core(p) && Possible(p, es)
    ensures Core(Run(p, es))
    decreases |es|
  {
    if es != [] {
      StepKeepsCore(p, es[0]);
      RunKeepsCore(Step(p, es[0]), es[1..]);
    }
  }

  /** After any run in which threads are granted, workers got the commands in the order of arrival. */
  lemma {:induction false} RunOrderly(p: Pool, es: seq<Event>)
    requires Core(p) && Orderly(p) && Possible(p, es) && Granted(p, es)
    ensures Orderly(Run(p, es))
    decreases |es|
  {
    hide Core, Orderly, Step, Enabled, Refused;
    if es != [] {
      StepKeepsCore(p, es[0]);
      StepOrderlyIff(p, es[0]);
      RunOrderly(Step(p, es[0]), es[1..]);
    }
  }

  lemma {:induction false} LostForever(p: Pool, es: seq<Event>, c: nat)
    requires Core(p) && Possible(p, es) && c in p.place && p.place[c] == Lost
    ensures c in Run(p, es).place && Run(p, es).place[c] == Lost
    decreases |es|
  {
    hide Core;
    if es != [] {
      StepKeepsCore(p, es[0]);
      LostStays(p, es[0], c);
      LostForever(Step(p, es[0]), es[1..], c);
    }
  }

  lemma LostStays(p: Pool, e: Event, c: nat)
    requires Core(p) && Enabled(p, e) && c in p.place && p.place[c] == Lost
    ensures c in Step(p, e).place && Step(p, e).place[c] == Lost
  {
    if !e.Accept? {
      var w := p.workers[e.worker];
      assert w.list != [] ==> w.list[0] in p.place && p.place[w.list[0]] == Listed(e.worker);
      assert p.pending != [] ==> p.pending[0] in p.place && p.place[p.pending[0]] == Queued;
    }
  }

  /** A run loses a command exactly if some worker times out with a command it has not seen. */
  lemma {:induction false} NothingLostIff(p: Pool, es: seq<Event>)
    requires Core(p) && NoneLost(p) && Possible(p, es)
    ensures NoneLost(Run(p, es)) <==> Careful(p, es)
    decreases |es|
  {
    hide Core, Step, Enabled, Loses;
    if es != [] {
      StepKeepsCore(p, es[0]);
      StepLosesIff(p, es[0]);
      var q := Step(p, es[0]);
      if NoneLost(q) {
        NothingLostIff(q, es[1..]);
      } else {
        var c :| c in q.place && q.place[c] == Lost;
        LostForever(q, es[1..], c);
      }
    }
  }

  lemma Prepend(p: Pool, e: Event, q: Pool, es: seq<Event>) returns (more: seq<Event>)
    requires Enabled(p, e) && Step(p, e) == q && Possible(q, es)
    ensures Possible(p, more) && Run(p, more) == Run(q, es)
  {
    more := [e] + es;
    assert more[0] == e && more[1..] == es;
  }

  /** A waiting worker to spare is given a command, and its wait times out before it looks. */
  lemma Overlooked(p: Pool, id: int) returns (es: seq<Event>)
    requires id in p.workers && p.workers[id] == Worker(Waiting, false, true, [])
    requires p.pending == [] && p.avail > p.min
    ensures Possible(p, es) && !NoneLost(Run(p, es))
  {
    var q := Step(p, Accept(Some(id), 0, true));
    var r := Step(q, TimeOut(id));
    assert q.place[p.accepted] == Listed(id);
    assert p.accepted in r.place && r.place[p.accepted] == Lost;
    hide Step, Enabled;
    es := [];
    es := Prepend(q, TimeOut(id), r, es);
    es := Prepend(p, Accept(Some(id), 0, true), q, es);
  }

  /** With every worker busy, one more comes for a command, and is to spare when that is done. */
  lemma SpareThread(p: Pool, id: int) returns (es: seq<Event>)
    requires id !in p.workers && forall i :: i in p.workers ==> p.workers[i].doing
    requires p.pending == [] && Room(p) && p.avail >= p.min
    ensures Possible(p, es) && !NoneLost(Run(p, es))
  {
    var q := Step(p, Accept(None, id, true));
    assert q.workers[id] == Worker(New, true, false, [p.accepted]) && q.avail == p.avail + 1 && q.min == p.min;
    var r := Step(q, Begin(id));
    assert r.workers[id] == Worker(Busy(p.accepted), true, false, []) && r.avail == q.avail && r.min == p.min;
    var t := Step(r, Finish(id));
    assert t.workers[id] == Worker(Waiting, false, true, []) && t.avail == q.avail && t.min == p.min;
    hide Step;
    es := Overlooked(t, id);
    es := Prepend(r, Finish(id), t, es);
    es := Prepend(q, Begin(id), r, es);
    es := Prepend(p, Accept(None, id, true), q, es);
  }

  /** Two workers are given a command each, and a third thread comes and goes. */
  lemma ACommandIsLost()
    ensures exists es :: Possible(StartedUp(2, 10), es) && !NoneLost(Run(StartedUp(2, 10), es))
  {
    var p := StartedUp(2, 10);
    var q := Step(p, Accept(Some(1), 0, true));
    var r := Step(q, Accept(Some(2), 0, true));
    assert r.workers.Keys == {1, 2} && r.workers[1].doing && r.workers[2].doing;
    hide Step;
    var es := SpareThread(r, 3);
    es := Prepend(q, Accept(Some(2), 0, true), r, es);
    es := Prepend(p, Accept(Some(1), 0, true), q, es);
  }

  // ---------------------------------------------------------------- the objects

  const LAST_ID := 990_000_000

  /** Fewer than n - 1 used identifiers leave one free besides `start`. */
  lemma FreeId(n: nat, used: set<int>, start: int) returns (id: int)
    requires |used| < n - 1
    ensures 1 <= id <= n && id != start && id !in used
  {
    var left := Ids(n) - {start} - used;
    if left == {} {
      assert Ids(n) <= used + {start};
      Subset(Ids(n), used + {start});
      assert false;
    }
    id :| id in left;
  }

  lemma Element(s: set<int>) returns (x: int)
    requires s != {}
    ensures x in s
  {
    if forall y :: y !in s {
      assert false;
    }
    x :| x in s;
  }

  lemma {:induction false} Least(s: set<int>) returns (x: int)
    requires s != {}
    ensures x in s && forall y :: y in s ==> x <= y
    decreases s
  {
    x := Element(s);
    var rest := s - {x};
    assert s == rest + {x};
    if rest != {} {
      var y := Least(rest);
      if y < x {
        x := y;
      }
    }
  }

  lemma Subset(a: set<int>, b: set<int>)
    requires a <= b
    ensures |a| <= |b|
  {
    assert b == a + (b - a);
  }

  class IOProcess {
    var min: int
    var max: int
    var workers: map<int, Worker>
    var avail: int
    var pending: seq<nat>
    var nextWorkerId: int
    var rotated: bool
    var accepted: nat            // names the commands
    ghost var given: seq<nat>
    ghost var place: map<nat, Place>

    ghost function View(): Pool
      reads this
    {
      Pool(min, max, workers, avail, pending, accepted, given, place)
    }

    /** Until the identifiers come round again, every one in use is behind the counter. */
    ghost predicate IdsBehind()
      reads this
    {
      0 <= nextWorkerId <= LAST_ID && (!rotated ==> forall id :: id in workers ==> id <= nextWorkerId)
    }

    constructor (min: nat, max: int)
      requires min < LAST_ID
      ensures View() == StartedUp(min, max) && IdsBehind()
    {
      this.min, this.max := min, max;
      workers, avail, pending, nextWorkerId, rotated := map[], 0, [], 0, false;
      accepted, given, place := 0, [], map[];
      new;
      for i := 0 to min
        invariant View() == StartedUp(i, max).(min := min) && nextWorkerId == i && !rotated
      {
        CrewGrows(i);
        hide Crew;
        var id := CreateNewWorker(true);
      }
      CrewGrows(min);
    }

    /** An identifier that no worker has. */
    method NewWorkerId() returns (id: int)
      requires IdsBehind() && |workers| < LAST_ID - 1
      modifies this`nextWorkerId, this`rotated
      ensures IdsBehind() && id !in workers && id == nextWorkerId
      ensures !old(rotated) && old(nextWorkerId) < LAST_ID ==> id == old(nextWorkerId) + 1 && !rotated
    {
      var start := nextWorkerId;
      ghost var free := FreeId(LAST_ID, workers.Keys, start);
      ghost var wrapped := false;
      nextWorkerId := nextWorkerId + 1;
      while start != nextWorkerId
        invariant 1 <= nextWorkerId <= LAST_ID + 1
        invariant !wrapped ==>
                    nextWorkerId > start && rotated == old(rotated) && (!rotated ==> nextWorkerId == start + 1)
        invariant wrapped ==> rotated && (old(rotated) || start == LAST_ID)
        invariant forall k :: start < k < nextWorkerId && !wrapped ==> k in workers
        invariant forall k :: (1 <= k < nextWorkerId || start < k <= LAST_ID) && wrapped ==> k in workers
        decreases if nextWorkerId <= free then free - nextWorkerId else LAST_ID + 1 - nextWorkerId + free
      {
        if nextWorkerId > LAST_ID {
          nextWorkerId, rotated, wrapped := 1, true, true;
        }
        if !rotated {
          return nextWorkerId;
        }
        if nextWorkerId !in workers {
          return nextWorkerId;
        }
        nextWorkerId := nextWorkerId + 1;
      }
      assert false;
      id := -1;
    }

    /** A new worker, unless the system refuses a thread. */
    method CreateNewWorker(created: bool) returns (id: int)
      requires IdsBehind() && |workers| < LAST_ID - 1
      modifies this`nextWorkerId, this`rotated, this`workers, this`avail
      ensures IdsBehind() && id !in old(workers)
      ensures View() == if created then Grown(old(View()), id) else old(View())
      ensures !old(rotated) && old(nextWorkerId) < LAST_ID ==> id == old(nextWorkerId) + 1 == nextWorkerId && !rotated
    {
      id := NewWorkerId();
      workers := workers[id := Worker(New, false, false, [])];
      if !created {
        workers := workers - {id};
        assert workers == old(workers);
        return;
      }
      avail := avail + 1;
    }

    /** The worker with the lowest id that is not busy. */
    method FindFreeWorker() returns (free: Option<int>)
      ensures free.Some? ==> free.value in workers && !workers[free.value].doing
      ensures free.Some? ==> forall id :: id in workers && id < free.value ==> workers[id].doing
      ensures free.None? ==> forall id :: id in workers ==> workers[id].doing
    {
      var ids := workers.Keys;
      while ids != {}
        invariant ids <= workers.Keys
        invariant forall id :: id in workers && id !in ids ==> workers[id].doing
        decreases ids
      {
        ghost var some := Least(ids);
        var id :| id in ids && forall other :: other in ids ==> id <= other;
        if !workers[id].doing {
          return Some(id);
        }
        ids := ids - {id};
      }
      return None;
    }

    /** Gives the command that has just arrived to a worker, or appends it to the pending ones. */
    method AddRequestToWorker(worker: Option<int>)
      requires worker.Some? ==> worker.value in workers
      modifies this`workers, this`pending, this`accepted, this`given, this`place
      ensures View() == if worker.Some? then Assigned(old(View()), worker.value) else Appended(old(View()))
    {
      var command := accepted;
      accepted := accepted + 1;
      if worker.Some? {
        var w := workers[worker.value];
        workers := workers[worker.value := w.(list := w.list + [command], doing := true)];
        given, place := given + [command], place[command := Listed(worker.value)];
      } else {
        pending := pending + [command];
        place := place[command := Queued];
      }
    }

    /** A command arrives: to a free worker, to a new one, or to the pending ones. */
    method AddNewRequest(created: bool) returns (free: Option<int>, id: int)
      requires IdsBehind() && |workers| < LAST_ID - 1
      modifies this
      ensures IdsBehind() && Enabled(old(View()), Accept(free, id, created))
      ensures View() == Step(old(View()), Accept(free, id, created))
    {
      free := FindFreeWorker();
      if free.Some? {
        id := 0;
        AddRequestToWorker(free);
      } else if max == -1 || avail < max {
        id := CreateNewWorker(created);
        AddRequestToWorker(if created then Some(id) else None);
      } else {
        id := 0;
        AddRequestToWorker(None);
      }
    }

    /** The command a worker does next: its own before the oldest pending one. */
    method PopRequest(id: int) returns (command: Option<nat>)
      requires id in workers
      modifies this`workers, this`pending, this`given
      ensures var w := old(workers)[id];
              if w.list != [] then
                command == Some(w.list[0]) && workers == old(workers)[id := w.(list := w.list[1..])]
                && pending == old(pending) && given == old(given)
              else if old(pending) != [] then
                command == Some(old(pending)[0]) && workers == old(workers)
                && pending == old(pending)[1..] && given == old(given) + [old(pending)[0]]
              else
                command == None && workers == old(workers) && pending == old(pending) && given == old(given)
    {
      var w := workers[id];
      if w.list == [] {
        if pending == [] {
          return None;
        }
        command := Some(pending[0]);
        pending := pending[1..];
        given := given + [command.value];
      } else {
        command := Some(w.list[0]);
        workers := workers[id := w.(list := w.list[1..])];
      }
    }

    /** One round of the inner loop: take a command and mark the worker busy, or wait. */
    method TakeOrWait(id: int)
      requires id in workers
      modifies this`workers, this`pending, this`given, this`place
      ensures View() == Next(old(View()), id)
    {
      var command := PopRequest(id);
      var w := workers[id];
      if command.Some? {
        workers := workers[id := w.(phase := Busy(command.value), doing := true, waiting := false)];
        place := place[command.value := InHand(id)];
      } else {
        workers := workers[id := w.(phase := Waiting, waiting := true)];
      }
    }

    method MarkIdle(id: int)
      requires id in workers
      modifies this`workers
      ensures View() == Idle(old(View()), id)
    {
      workers := workers[id := workers[id].(doing := false, waiting := false)];
    }

    /** After a wait in vain: the thread ends if there are threads to spare. */
    method WorkerExit(id: int) returns (gone: bool)
      requires id in workers
      modifies this`workers, this`avail, this`place
      ensures gone <==> old(avail) > min
      ensures View() == if gone then Removed(old(View()), id) else Idle(old(View()), id)
    {
      if avail > min {
        workers := workers - {id};
        avail := avail - 1;
        place := Removed(old(View()), id).place;
        return true;
      }
      MarkIdle(id);
      return false;
    }

    method BeginThread(id: int)
      requires Enabled(View(), Begin(id))
      modifies this
      ensures View() == Step(old(View()), Begin(id))
    {
      hide Next;
      MarkIdle(id);
      TakeOrWait(id);
    }

    method WakeThread(id: int)
      requires Enabled(View(), Wake(id))
      modifies this
      ensures View() == Step(old(View()), Wake(id))
    {
      hide Next;
      TakeOrWait(id);
    }

    method TimeOutThread(id: int)
      requires Enabled(View(), TimeOut(id))
      modifies this
      ensures View() == Step(old(View()), TimeOut(id))
    {
      hide Next, Removed;
      if |pending| > 0 {
        TakeOrWait(id);
        return;
      }
      var gone := WorkerExit(id);
      if !gone {
        TakeOrWait(id);
      }
    }

    method FinishCommand(id: int)
      requires Enabled(View(), Finish(id))
      modifies this
      ensures View() == Step(old(View()), Finish(id))
    {
      hide Next;
      var w := workers[id];
      place := place[w.phase.command := Done];
      workers := workers[id := w.(phase := New)];
      assert View() == Completed(old(View()), id);
      MarkIdle(id);
      TakeOrWait(id);
    }
  }
}
