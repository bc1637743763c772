/**
 * The annex daemon's functor sequence: functors called one after the other, compensated in
 * reverse order after a failure, and resumed from a log when the daemon restarts.
 */
module AnnexSequence {
  import opened Common

  // ---------------------------------------------------------------- specification

  /** What a functor returns: go on, call me again, or anything else. */
  datatype Outcome = Pass | Keep | Stop

  datatype Call =
    | Forward(index: nat)
    | Back(index: nat)
    | Last       // the closing functor after success
    | LastBack   // its rollback

  datatype Record = Record(call: Call, outcome: Outcome)

  /** `logged` is the place at which a rollback began; `past` ends at the last restart. */
  datatype State = State(
    size: nat,
    current: int,
    rollingBack: bool,
    logged: Option<int>,
    finished: bool,
    past: seq<Record>,
    recent: seq<Record>)

  datatype Event = Tick(outcome: Outcome) | Restart

  /** A sequence of functors as it is built: from the log if there is one. */
  function Built(size: nat, logged: Option<int>, past: seq<Record>): State
  {
    State(size, if logged.Some? then logged.value else 0, logged.Some?, logged, false, past, [])
  }

  function NextCall(s: State): Call
  {
    if s.current >= s.size then Last
    else if s.current < 0 then LastBack
    else if s.rollingBack then Back(s.current)
    else Forward(s.current)
  }

  /** The timer fires, and the functor whose turn it is returns `o`. */
  function Ticked(s: State, o: Outcome): State
  {
    var s1 := s.(recent := s.recent + [Record(NextCall(s), o)]);
    match NextCall(s)
    case Last => s1.(finished := o != Keep)
    case LastBack => s1.(finished := o != Keep)
    case Back(i) => if o == Keep then s1 else s1.(current := i - 1)
    case Forward(i) =>
      if o == Pass then s1.(current := i + 1)
      else if o == Keep then s1
      else s1.(rollingBack := true, logged := Some(i))
  }

  function Step(s: State, e: Event): State
  {
    match e
    case Tick(o) => Ticked(s, o)
    case Restart => Built(s.size, s.logged, s.past + s.recent)
  }

  predicate Possible(s: State, es: seq<Event>)
    decreases |es|
  {
    es == [] || (!s.finished && Possible(Step(s, es[0]), es[1..]))
  }

  function Run(s: State, es: seq<Event>): State
    requires Possible(s, es)
    decreases |es|
  {
    if es == [] then s else Run(Step(s, es[0]), es[1..])
  }

  // ---------------------------------------------------------------- reading a history

  /** The functors that went through, in order. */
  function Done(h: seq<Record>): seq<nat>
  {
    if h == [] then [] else
    var r := h[|h| - 1];
    Done(h[..|h| - 1]) + if r.call.Forward? && r.outcome == Pass then [r.call.index] else []
  }

  /** The functors whose rollback was called until it was through, in order. */
  function Undone(h: seq<Record>): seq<nat>
  {
    if h == [] then [] else
    var r := h[|h| - 1];
    Undone(h[..|h| - 1]) + if r.call.Back? && r.outcome != Keep then [r.call.index] else []
  }

  lemma OneMore(h: seq<Record>, r: Record)
    ensures Done(h + [r]) == Done(h) + if r.call.Forward? && r.outcome == Pass then [r.call.index] else []
    ensures Undone(h + [r]) == Undone(h) + if r.call.Back? && r.outcome != Keep then [r.call.index] else []
  {
    assert (h + [r])[..|h|] == h;
  }

  /** 0, ..., n - 1. */
  function Upward(n: nat): seq<nat>
  {
    if n == 0 then [] else Upward(n - 1) + [n - 1]
  }

  /** k, k - 1, ..., to. */
  function Downward(k: int, to: nat): seq<nat>
    decreases k - to
  {
    if to > k then [] else Downward(k, to + 1) + [to]
  }

  predicate Compensating(c: Call)
  {
    c.Back? || c.LastBack?
  }

  /** At `j` the functor `k` failed, and everything after it compensates. */
  predicate FailedAt(h: seq<Record>, k: int, j: nat)
  {
    && j < |h| && h[j].call.Forward? && h[j].call.index == k && h[j].outcome == Stop
    && forall i :: j < i < |h| ==> Compensating(h[i].call)
  }

  ghost predicate Failed(h: seq<Record>, k: int)
  {
    exists j: nat :: FailedAt(h, k, j)
  }

  // ---------------------------------------------------------------- the invariant

  /** Going forward: exactly the functors before the current one went through, in order. */
  ghost predicate Advancing(s: State)
  {
    && 0 <= s.current <= s.size && s.logged == None
    && Done(s.recent) == Upward(s.current)
    && forall i :: 0 <= i < |s.past + s.recent| ==> !Compensating((s.past + s.recent)[i].call)
  }

  /** Rolling back: functor `k` failed, and since the last restart k, ..., current + 1 were undone, in order. */
  ghost predicate Retreating(s: State)
  {
    && s.logged.Some? && 0 <= s.logged.value < s.size && -1 <= s.current <= s.logged.value
    && Undone(s.recent) == Downward(s.logged.value, s.current + 1)
    && Failed(s.past + s.recent, s.logged.value)
  }

  ghost predicate Inv(s: State)
  {
    if s.rollingBack then Retreating(s) else Advancing(s)
  }

  lemma {:induction false} NothingUndone(h: seq<Record>)
    requires forall i :: 0 <= i < |h| ==> !Compensating(h[i].call)
    ensures Undone(h) == []
  {
    if h != [] {
      NothingUndone(h[..|h| - 1]);
    }
  }

  lemma ForwardKeeps(s: State, o: Outcome)
    requires Advancing(s) && !s.rollingBack && s.current < s.size
    ensures Inv(Ticked(s, o))
  {
    hide Done, Undone;
    var t := Ticked(s, o);
    var r := Record(Forward(s.current), o);
    OneMore(s.recent, r);
    assert t.past + t.recent == s.past + s.recent + [r];
    if o == Stop {
      assert FailedAt(t.past + t.recent, s.current, |s.past + s.recent|);
      forall i | 0 <= i < |s.recent|
        ensures !Compensating(s.recent[i].call)
      {
        assert (s.past + s.recent)[|s.past| + i] == s.recent[i];
      }
      NothingUndone(s.recent);
    }
  }

  lemma StillFailed(h: seq<Record>, r: Record, k: int)
    requires Failed(h, k) && Compensating(r.call)
    ensures Failed(h + [r], k)
  {
    var j: nat :| FailedAt(h, k, j);
    assert FailedAt(h + [r], k, j);
  }

  lemma BackKeeps(s: State, o: Outcome)
    requires Retreating(s) && s.rollingBack
    ensures Inv(Ticked(s, o))
  {
    hide Failed, Done, Undone;
    var t := Ticked(s, o);
    var r := Record(NextCall(s), o);
    OneMore(s.recent, r);
    assert t.past + t.recent == s.past + s.recent + [r];
    StillFailed(s.past + s.recent, r, s.logged.value);
  }

  lemma LastKeeps(s: State, o: Outcome)
    requires Advancing(s) && !s.rollingBack && s.current == s.size
    ensures Inv(Ticked(s, o))
  {
    var r := Record(Last, o);
    OneMore(s.recent, r);
    assert Ticked(s, o).past + Ticked(s, o).recent == s.past + s.recent + [r];
  }

  lemma RestartKeeps(s: State)
    requires Inv(s)
    ensures Inv(Step(s, Restart))
  {
    assert s.past + s.recent + [] == s.past + s.recent;
  }

  lemma StepKeeps(s: State, e: Event)
    requires Inv(s)
    ensures Inv(Step(s, e))
  {
    if e.Restart? {
      RestartKeeps(s);
    } else if s.rollingBack {
      BackKeeps(s, e.outcome);
    } else if s.current < s.size {
      ForwardKeeps(s, e.outcome);
    } else {
      LastKeeps(s, e.outcome);
    }
  }

  lemma {:induction false} RunKeeps(s: State, es: seq<Event>)
    requires Inv(s) && Possible(s, es)
    ensures Inv(Run(s, es))
    decreases |es|
  {
    if es != [] {
      StepKeeps(s, es[0]);
      RunKeeps(Step(s, es[0]), es[1..]);
    }
  }

  lemma BuiltInv(size: nat)
    ensures Inv(Built(size, None, []))
  {
  }

  /** The closing functor is called when all functors went through, in order, and none was ever undone. */
  lemma SuccessMeansAllDone(size: nat, es: seq<Event>)
    requires Possible(Built(size, None, []), es) && NextCall(Run(Built(size, None, []), es)) == Last
    ensures var s := Run(Built(size, None, []), es);
            && Done(s.recent) == Upward(size)
            && forall i :: 0 <= i < |s.past + s.recent| ==> !Compensating((s.past + s.recent)[i].call)
  {
    hide Run, Possible, Done, Undone, Upward, Downward, Failed, Compensating;
    BuiltInv(size);
    RunKeeps(Built(size, None, []), es);
    RunSize(Built(size, None, []), es);
  }

  /**
   * The closing functor's rollback is called when, after a failure at k, the rollbacks of k, ..., 0
   * each went through in that order since the last restart, and nothing went forward after the failure,
   * restarts or not.
   */
  lemma RollbackIsComplete(size: nat, es: seq<Event>)
    requires Possible(Built(size, None, []), es) && NextCall(Run(Built(size, None, []), es)) == LastBack
    ensures var s := Run(Built(size, None, []), es);
            && s.logged.Some? && 0 <= s.logged.value < size
            && Undone(s.recent) == Downward(s.logged.value, 0)
            && Failed(s.past + s.recent, s.logged.value)
  {
    hide Run, Possible, Done, Undone, Upward, Downward, Failed, Compensating;
    BuiltInv(size);
    RunKeeps(Built(size, None, []), es);
    RunSize(Built(size, None, []), es);
  }

  /** A restart during a rollback resumes at the functor that failed. */
  lemma RestartResumes(size: nat, es: seq<Event>)
    requires Possible(Built(size, None, []), es) && Run(Built(size, None, []), es).rollingBack
    ensures var s := Run(Built(size, None, []), es);
            && Failed(s.past + s.recent, Step(s, Restart).current)
            && NextCall(Step(s, Restart)) == Back(Step(s, Restart).current)
  {
    hide Run, Possible, Done, Undone, Upward, Downward, Failed, Compensating;
    BuiltInv(size);
    RunKeeps(Built(size, None, []), es);
  }

  lemma {:induction false} RunSize(s: State, es: seq<Event>)
    requires Possible(s, es)
    ensures Run(s, es).size == s.size
    decreases |es|
  {
    if es != [] {
      RunSize(Step(s, es[0]), es[1..]);
    }
  }

  /** The closing functor, or its rollback, was called last and does not want to be called again. */
  predicate Ended(h: seq<Record>)
  {
    h != [] && h[|h| - 1].call in {Last, LastBack} && h[|h| - 1].outcome != Keep
  }

  /** The sequence is over exactly when its closing functor, or the rollback of it, is through. */
  lemma {:induction false} FinishedIff(s: State, es: seq<Event>)
    requires Possible(s, es) && (s.finished <==> Ended(s.recent))
    ensures Run(s, es).finished <==> Ended(Run(s, es).recent)
    decreases |es|
  {
    if es != [] {
      FinishedIff(Step(s, es[0]), es[1..]);
    }
  }

  // ---------------------------------------------------------------- the object

  class FunctorSequence {
    const size: nat
    var current: int
    var rollingBack: bool
    var logged: Option<int>
    var finished: bool
    ghost var past: seq<Record>
    ghost var recent: seq<Record>

    ghost function View(): State
      reads this
    {
      State(size, current, rollingBack, logged, finished, past, recent)
    }

    /** Builds the sequence, from the logged state if there is one. */
    constructor (size: nat, logged: Option<int>, ghost past: seq<Record>)
      ensures View() == Built(size, logged, past)
    {
      this.size := size;
      current, rollingBack := 0, false;
      if logged.Some? {
        rollingBack, current := true, logged.value;
      }
      this.logged := logged;
      finished := false;
      this.past, recent := past, [];
    }

    method Log()
      modifies this`logged
      ensures logged == if rollingBack then Some(current) else old(logged)
    {
      if rollingBack {
        logged := Some(current);
      }
    }

    /** One timer call: `outcome` is what the functor whose turn it is returns. */
    method Call(outcome: Outcome) returns (called: Call)
      requires !finished
      modifies this
      ensures called == NextCall(old(View()))
      ensures View() == Ticked(old(View()), outcome)
    {
      ghost var s := View();
      recent := recent + [Record(NextCall(s), outcome)];
      if current >= size || current < 0 {
        called := if current >= size then Last else LastBack;
        if outcome != Keep {
          finished := true;
        }
        return;
      }
      called := if rollingBack then Back(current) else Forward(current);
      match outcome
      case Pass => current := current + if rollingBack then -1 else 1;
      case Keep =>
      case Stop =>
        if rollingBack {
          current := current - 1;
        } else {
          rollingBack := true;
          Log();
        }
    }
  }
}
