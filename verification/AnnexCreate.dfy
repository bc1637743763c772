/**
 * Creating an annex: the functor sequence of annex-create with its real functors.  After two or
 * three checks come the lease rule, the rule's target, and last the request for instances.
 */
module AnnexCreate {
  import opened Common
  import S = AnnexSequence

  // ---------------------------------------------------------------- specification

  /** What exists in the cloud. */
  datatype Cloud = Cloud(rule: bool, target: bool, instances: bool)

  /** How a call of the cloud service stands.  `check`: the bulk request asks to be repeated in any case. */
  datatype Answer = Waiting | Granted | Refused(check: bool)

  /** What the functors remember: the rule's name, the request's identifier (logged), and the attempts (logged). */
  datatype Memory = Memory(ruleKnown: bool, requestKnown: bool, tries: nat, trying: bool)

  datatype State = State(s: S.State, cloud: Cloud, memory: Memory, aborted: bool)

  /** `plain` is what the connectivity check returns; a Stop also ends one of the later checks at once. */
  datatype Event = Tick(answer: Answer, plain: S.Outcome) | Restart

  function Rule(size: nat): int { size - 3 }
  function Target(size: nat): int { size - 2 }
  function Request(size: nat): int { size - 1 }

  /** The daemon starts on a command: five functors, or six with an upload. */
  function Started(upload: bool): State
  {
    State(S.Built(if upload then 6 else 5, None, []), Cloud(false, false, false), Memory(false, false, 0, false), false)
  }

  /** An attempt is counted when it begins, and given up at the third refusal, unless a bulk request asks for more. */
  function Attempted(m: Memory, answer: Answer, bulk: bool): (Memory, S.Outcome)
  {
    var tries := if m.trying then m.tries else m.tries + 1;
    match answer
    case Waiting => (m.(tries := tries, trying := true), S.Keep)
    case Granted => (m.(tries := 0, trying := false), S.Pass)
    case Refused(check) =>
      (m.(tries := tries, trying := false), if tries < 3 || (bulk && check) then S.Keep else S.Stop)
  }

  function Forwarded(c: State, i: nat, answer: Answer, plain: S.Outcome): State
  {
    var (m, o) := Attempted(c.memory, answer, i == Request(c.s.size));
    if i == Rule(c.s.size) then
      var done := answer.Granted?;
      State(S.Ticked(c.s, o), c.cloud.(rule := c.cloud.rule || done), m.(ruleKnown := m.ruleKnown || done), c.aborted)
    else if i == Target(c.s.size) then
      if !c.memory.ruleKnown then c.(aborted := true)
      else State(S.Ticked(c.s, o), c.cloud.(target := c.cloud.target || answer.Granted?), m, c.aborted)
    else if i == Request(c.s.size) then
      if c.memory.requestKnown then c.(s := S.Ticked(c.s, S.Pass), memory := c.memory.(tries := 0))
      else
        var done := answer.Granted?;
        State(S.Ticked(c.s, o), c.cloud.(instances := c.cloud.instances || done), m.(requestKnown := done), c.aborted)
    else if i == 0 || plain == S.Stop then c.(s := S.Ticked(c.s, plain))
    else State(S.Ticked(c.s, o), c.cloud, m, c.aborted)
  }

  /** A compensating call that is refused is given up at once. */
  function Backed(c: State, i: nat, answer: Answer): State
  {
    var o := if answer.Waiting? then S.Keep else S.Pass;
    var undone := answer.Granted?;
    if i == Rule(c.s.size) then State(S.Ticked(c.s, o), c.cloud.(rule := c.cloud.rule && !undone), c.memory, c.aborted)
    else if i == Target(c.s.size) then
      if !c.memory.ruleKnown then c.(aborted := true)
      else State(S.Ticked(c.s, o), c.cloud.(target := c.cloud.target && !undone), c.memory, c.aborted)
    else if i == Request(c.s.size) && c.memory.requestKnown then
      State(S.Ticked(c.s, o), c.cloud.(instances := c.cloud.instances && !undone), c.memory, c.aborted)
    else c.(s := S.Ticked(c.s, S.Pass))
  }

  function Step(c: State, e: Event): State
  {
    if e.Restart? then
      State(S.Step(c.s, S.Restart), c.cloud, c.memory.(ruleKnown := false, trying := false), false)
    else
      match S.NextCall(c.s)
      case Forward(i) => Forwarded(c, i, e.answer, e.plain)
      case Back(i) => Backed(c, i, e.answer)
      case _ => c.(s := S.Ticked(c.s, e.plain))
  }

  /** After a failed assertion only a restart helps. */
  predicate Enabled(c: State, e: Event)
  {
    !c.s.finished && (c.aborted ==> e.Restart?)
  }

  predicate Possible(c: State, es: seq<Event>)
    decreases |es|
  {
    es == [] || (Enabled(c, es[0]) && Possible(Step(c, es[0]), es[1..]))
  }

  function Run(c: State, es: seq<Event>): State
    requires Possible(c, es)
    decreases |es|
  {
    if es == [] then c else Run(Step(c, es[0]), es[1..])
  }

  /** Running instances have a lease. */
  predicate Leased(c: State)
  {
    c.cloud.instances ==> c.cloud.rule && c.cloud.target
  }

  // ---------------------------------------------------------------- what every run keeps

  /** Position of the sequence: where it stands, and where it failed. */
  ghost predicate Placed(c: State)
  {
    && c.s.size in {5, 6} && -1 <= c.s.current <= c.s.size
    && (c.s.rollingBack <==> c.s.logged.Some?)
    && (c.s.rollingBack ==> 0 <= c.s.logged.value < c.s.size && c.s.current <= c.s.logged.value)
    && (!c.s.rollingBack ==> c.s.current >= 0)
  }

  /**
   * Going forward: what this process went through exists, and the request's identifier is that of
   * running instances.
   */
  ghost predicate Sound(c: State)
  {
    && Placed(c)
    && (var i, n := c.s.current, c.s.size;
        !c.s.rollingBack ==>
          && !c.aborted && Leased(c)
          && (i > Rule(n) ==> c.cloud.rule) && (c.memory.ruleKnown <==> i > Rule(n))
          && (i > Target(n) ==> c.cloud.target) && (i > Request(n) ==> c.cloud.instances)
          && (c.memory.requestKnown <==> c.cloud.instances))
  }

  lemma AttemptedShape(m: Memory, answer: Answer, bulk: bool)
    ensures var (n, o) := Attempted(m, answer, bulk);
            && (o == S.Pass <==> answer.Granted?)
            && (o == S.Stop <==> Exhausted(m, answer) && !(bulk && answer.check))
            && n.ruleKnown == m.ruleKnown && n.requestKnown == m.requestKnown
  {
  }

  /** A refusal that is the third in a row. */
  predicate Exhausted(m: Memory, answer: Answer)
  {
    answer.Refused? && (if m.trying then m.tries else m.tries + 1) >= 3
  }

  lemma CheckSound(c: State, answer: Answer, plain: S.Outcome)
    requires Sound(c) && S.NextCall(c.s).Forward? && c.s.current < Rule(c.s.size)
    ensures Sound(Step(c, Tick(answer, plain))) && Leased(Step(c, Tick(answer, plain)))
  {
    AttemptedShape(c.memory, answer, false);
    hide Attempted;
  }

  lemma RuleSound(c: State, answer: Answer, plain: S.Outcome)
    requires Sound(c) && S.NextCall(c.s).Forward? && c.s.current == Rule(c.s.size)
    ensures Sound(Step(c, Tick(answer, plain))) && Leased(Step(c, Tick(answer, plain)))
  {
    AttemptedShape(c.memory, answer, false);
    hide Attempted;
  }

  lemma TargetSound(c: State, answer: Answer, plain: S.Outcome)
    requires Sound(c) && S.NextCall(c.s).Forward? && c.s.current == Target(c.s.size)
    ensures Sound(Step(c, Tick(answer, plain))) && Leased(Step(c, Tick(answer, plain)))
  {
    AttemptedShape(c.memory, answer, false);
    hide Attempted;
  }

  lemma RequestSound(c: State, answer: Answer, plain: S.Outcome)
    requires Sound(c) && S.NextCall(c.s).Forward? && c.s.current == Request(c.s.size)
    ensures Sound(Step(c, Tick(answer, plain))) && Leased(Step(c, Tick(answer, plain)))
  {
    AttemptedShape(c.memory, answer, true);
    hide Attempted;
  }

  lemma ForwardSound(c: State, answer: Answer, plain: S.Outcome)
    requires Sound(c) && S.NextCall(c.s).Forward?
    ensures Sound(Step(c, Tick(answer, plain))) && Leased(Step(c, Tick(answer, plain)))
  {
    hide Step;
    if c.s.current < Rule(c.s.size) {
      CheckSound(c, answer, plain);
    } else if c.s.current == Rule(c.s.size) {
      RuleSound(c, answer, plain);
    } else if c.s.current == Target(c.s.size) {
      TargetSound(c, answer, plain);
    } else {
      RequestSound(c, answer, plain);
    }
  }

  lemma BackSound(c: State, answer: Answer, plain: S.Outcome)
    requires Sound(c) && S.NextCall(c.s).Back?
    ensures Sound(Step(c, Tick(answer, plain)))
  {
  }

  lemma StepSound(c: State, e: Event)
    requires Sound(c)
    ensures Sound(Step(c, e))
  {
    if e.Tick? && S.NextCall(c.s).Forward? {
      ForwardSound(c, e.answer, e.plain);
    } else if e.Tick? && S.NextCall(c.s).Back? {
      BackSound(c, e.answer, e.plain);
    }
  }

  lemma {:induction false} RunSound(c: State, es: seq<Event>)
    requires Sound(c) && Possible(c, es)
    ensures Sound(Run(c, es))
    decreases |es|
  {
    if es != [] {
      StepSound(c, es[0]);
      RunSound(Step(c, es[0]), es[1..]);
    }
  }

  // ---------------------------------------------------------------- all or nothing

  /** A functor gives up, and the sequence turns back. */
  predicate Fails(c: State, e: Event)
  {
    !c.s.rollingBack && Step(c, e).s.rollingBack
  }

  /** Something exists, left by an earlier process, that a rollback from here does not come by. */
  predicate Stranded(c: State)
  {
    || (c.cloud.rule && c.s.current < Rule(c.s.size))
    || (c.cloud.target && c.s.current < Target(c.s.size))
    || c.cloud.instances
  }

  /** A compensating call is refused although it has something to undo. */
  predicate Spoils(c: State, e: Event)
  {
    && e.Tick? && e.answer.Refused? && c.s.size >= 3
    && (|| (S.NextCall(c.s) == S.Back(c.s.size - 3) && c.cloud.rule)
        || (S.NextCall(c.s) == S.Back(c.s.size - 2) && c.cloud.target && c.memory.ruleKnown))
  }

  /** A rollback still has all that exists ahead of it. */
  predicate Clearing(c: State)
  {
    && (c.cloud.rule ==> Rule(c.s.size) <= c.s.current)
    && (c.cloud.target ==> Target(c.s.size) <= c.s.current)
    && !c.cloud.instances
  }

  /** A rollback began below something that exists. */
  predicate LeftBehind(c: State)
  {
    c.s.logged.Some? &&
    (|| (c.cloud.rule && c.s.logged.value < Rule(c.s.size))
     || (c.cloud.target && c.s.logged.value < Target(c.s.size))
     || (c.cloud.instances && c.s.logged.value < Request(c.s.size)))
  }

  lemma CheckFails(c: State, e: Event)
    requires Sound(c) && Fails(c, e) && c.s.current < Rule(c.s.size)
    ensures var d := Step(c, e); d.cloud == c.cloud && d.s.current == c.s.current && d.s.logged == Some(c.s.current)
  {
    SoundPlaced(c);
    hide Attempted, Sound;
  }

  lemma RuleFails(c: State, e: Event)
    requires Sound(c) && Fails(c, e) && c.s.current == Rule(c.s.size)
    ensures var d := Step(c, e); d.cloud == c.cloud && d.s.current == c.s.current && d.s.logged == Some(c.s.current)
  {
    AttemptedShape(c.memory, e.answer, false);
    SoundPlaced(c);
    hide Attempted, Sound;
  }

  lemma TargetFails(c: State, e: Event)
    requires Sound(c) && Fails(c, e) && c.s.current == Target(c.s.size)
    ensures var d := Step(c, e); d.cloud == c.cloud && d.s.current == c.s.current && d.s.logged == Some(c.s.current)
  {
    AttemptedShape(c.memory, e.answer, false);
    SoundPlaced(c);
    hide Attempted, Sound;
  }

  lemma RequestFails(c: State, e: Event)
    requires Sound(c) && Fails(c, e) && c.s.current == Request(c.s.size)
    ensures var d := Step(c, e); d.cloud == c.cloud && d.s.current == c.s.current && d.s.logged == Some(c.s.current)
    ensures !c.cloud.instances
  {
    AttemptedShape(c.memory, e.answer, true);
    hide Attempted;
  }

  /** A failure changes nothing in the cloud and is logged where it happens; the request does not fail once granted. */
  lemma FailureIsLogged(c: State, e: Event)
    requires Sound(c) && Fails(c, e)
    ensures var d := Step(c, e); d.cloud == c.cloud && d.s.current == c.s.current && d.s.logged == Some(c.s.current)
    ensures 0 <= c.s.current <= Request(c.s.size) && (c.cloud.instances ==> c.s.current < Request(c.s.size))
    ensures Step(c, e).s.size == c.s.size
  {
    FailureIsForward(c, e);
    hide Step, Fails;
    if c.s.current < Rule(c.s.size) {
      CheckFails(c, e);
    } else if c.s.current == Rule(c.s.size) {
      RuleFails(c, e);
    } else if c.s.current == Target(c.s.size) {
      TargetFails(c, e);
    } else {
      RequestFails(c, e);
    }
  }

  lemma FailureIsForward(c: State, e: Event)
    requires Placed(c) && Fails(c, e)
    ensures e.Tick? && S.NextCall(c.s) == S.Forward(c.s.current) && Step(c, e).s.size == c.s.size
  {
    hide Attempted;
  }

  /** A forward failure leaves only what its rollback comes by, exactly if nothing is stranded. */
  lemma FailureClearsIff(c: State, e: Event)
    requires Sound(c) && Fails(c, e)
    ensures Clearing(Step(c, e)) <==> !Stranded(c)
    ensures LeftBehind(Step(c, e)) <==> Stranded(c)
  {
    hide Step, Fails, Sound;
    FailureIsLogged(c, e);
  }

  /** A step of a rollback, restarts included, keeps all that exists ahead of it exactly if no such call is refused. */
  lemma StepClearsIff(c: State, e: Event)
    requires Placed(c) && c.s.rollingBack && Clearing(c)
    ensures Clearing(Step(c, e)) <==> !Spoils(c, e)
    ensures Step(c, e).s.rollingBack
  {
  }

  lemma LeftBehindStays(c: State, e: Event)
    requires Placed(c) && c.s.rollingBack && LeftBehind(c)
    ensures LeftBehind(Step(c, e)) && Step(c, e).s.rollingBack
  {
    assert !S.NextCall(c.s).Forward?;
    hide Forwarded;
    if e.Tick? && S.NextCall(c.s).Back? {
      BackedKeeps(c, c.s.current, e.answer);
      hide Backed;
    }
  }

  /** A compensating call undoes at most its own thing, and does not touch the log. */
  lemma BackedKeeps(c: State, i: nat, answer: Answer)
    requires Placed(c) && S.NextCall(c.s) == S.Back(i)
    ensures var d := Backed(c, i, answer);
            && d.s.logged == c.s.logged && d.s.size == c.s.size && d.s.rollingBack
            && (i != Rule(c.s.size) ==> d.cloud.rule == c.cloud.rule)
            && (i != Target(c.s.size) ==> d.cloud.target == c.cloud.target)
            && (i != Request(c.s.size) ==> d.cloud.instances == c.cloud.instances)
  {
  }

  lemma {:induction false} LeftBehindForever(c: State, es: seq<Event>)
    requires Sound(c) && c.s.rollingBack && LeftBehind(c) && Possible(c, es)
    ensures Run(c, es).s.rollingBack && LeftBehind(Run(c, es))
    decreases |es|
  {
    if es != [] {
      StepSound(c, es[0]);
      LeftBehindStays(c, es[0]);
      LeftBehindForever(Step(c, es[0]), es[1..]);
    }
  }

  /** Every compensating call of the run that has something to undo succeeds in the end. */
  predicate Compensated(c: State, es: seq<Event>)
    requires Possible(c, es)
    decreases |es|
  {
    es == [] || (!Spoils(c, es[0]) && Compensated(Step(c, es[0]), es[1..]))
  }

  /** When the run turns back, nothing is stranded. */
  predicate Clean(c: State, es: seq<Event>)
    requires Possible(c, es)
    decreases |es|
  {
    es == [] || (!(Fails(c, es[0]) && Stranded(c)) && Clean(Step(c, es[0]), es[1..]))
  }

  lemma {:induction false} RunClearsIff(c: State, es: seq<Event>)
    requires Sound(c) && Possible(c, es) && Compensated(c, es) && (c.s.rollingBack ==> Clearing(c))
    ensures Run(c, es).s.rollingBack ==> if Clean(c, es) then Clearing(Run(c, es)) else LeftBehind(Run(c, es))
    ensures !Clean(c, es) ==> Run(c, es).s.rollingBack
    decreases |es|
  {
    hide Sound, Step, Clearing, LeftBehind, Stranded, Spoils, Enabled;
    if es != [] {
      var e, d := es[0], Step(c, es[0]);
      StepSound(c, e);
      if Fails(c, e) {
        FailureClearsIff(c, e);
        if Stranded(c) {
          LeftBehindForever(d, es[1..]);
        } else {
          RunClearsIff(d, es[1..]);
        }
      } else {
        if c.s.rollingBack {
          SoundPlaced(c);
          StepClearsIff(c, e);
        }
        RunClearsIff(d, es[1..]);
      }
    }
  }

  lemma SoundPlaced(c: State)
    requires Sound(c)
    ensures Placed(c)
  {
  }

  /**
   * In every run, restarts included, whose compensating calls succeed: the closing functor finds
   * everything made; and its rollback finds nothing left exactly if nothing was stranded when the
   * run turned back.
   */
  lemma AllOrNothing(upload: bool, es: seq<Event>)
    requires Possible(Started(upload), es) && Compensated(Started(upload), es)
    ensures var c := Run(Started(upload), es);
            && (S.NextCall(c.s) == S.Last ==> c.cloud == Cloud(true, true, true))
            && (S.NextCall(c.s) == S.LastBack ==>
                  (c.cloud == Cloud(false, false, false) <==> Clean(Started(upload), es)))
  {
    RunSound(Started(upload), es);
    RunClearsIff(Started(upload), es);
  }

  /**
   * Rule and target are made, the daemon restarts, and now the connectivity check fails: the
   * rollback from the first functor passes by both, although no compensating call is refused.
   */
  lemma LeftoversAfterRestart()
    ensures exists es :: && Possible(Started(false), es) && Compensated(Started(false), es)
                         && S.NextCall(Run(Started(false), es).s) == S.LastBack
                         && Run(Started(false), es).cloud == Cloud(true, true, false)
  {
    var yes := Tick(Granted, S.Pass);
    var c0 := Started(false);
    var c1 := Step(c0, yes);
    var c2 := Step(c1, yes);
    var c3 := Step(c2, yes);
    var c4 := Step(c3, yes);
    assert c4.s.current == 4 && c4.cloud == Cloud(true, true, false) && c4.s.logged == None;
    var c5 := Step(c4, Restart);
    var c6 := Step(c5, Tick(Granted, S.Stop));
    assert c6.s.rollingBack && c6.s.current == 0 && c6.cloud == c4.cloud;
    var c7 := Step(c6, yes);
    assert S.NextCall(c7.s) == S.LastBack && c7.cloud == c4.cloud;
    var es: seq<Event> := [];
    hide Step;
    es := Prepend(c6, yes, c7, es);
    es := Prepend(c5, Tick(Granted, S.Stop), c6, es);
    es := Prepend(c4, Restart, c5, es);
    es := Prepend(c3, yes, c4, es);
    es := Prepend(c2, yes, c3, es);
    es := Prepend(c1, yes, c2, es);
    es := Prepend(c0, yes, c1, es);
  }

  lemma Prepend(c: State, e: Event, d: State, es: seq<Event>) returns (more: seq<Event>)
    requires Enabled(c, e) && Step(c, e) == d && Possible(d, es)
    ensures Possible(c, more) && Run(c, more) == Run(d, es)
    ensures Compensated(c, more) <==> !Spoils(c, e) && Compensated(d, es)
  {
    more := [e] + es;
    assert more[0] == e && more[1..] == es;
  }

  // ---------------------------------------------------------------- the lease

  /** The rule or its target is given up although the request for instances is known to have been granted. */
  predicate Deserts(c: State, e: Event)
  {
    && e.Tick? && !c.s.rollingBack && c.memory.requestKnown
    && (c.s.current == Rule(c.s.size) || c.s.current == Target(c.s.size))
    && Exhausted(c.memory, e.answer)
  }

  /** Instances have their lease, and no rollback is on its way to it. */
  ghost predicate Safe(c: State)
  {
    && Sound(c) && Leased(c)
    && (c.s.rollingBack && c.cloud.instances ==> c.s.logged.value < Rule(c.s.size))
  }

  lemma BackSafe(c: State, e: Event)
    requires Safe(c) && c.s.rollingBack
    ensures Safe(Step(c, e))
  {
    StepSound(c, e);
  }

  lemma ForwardSafeIff(c: State, e: Event)
    requires Safe(c) && S.NextCall(c.s).Forward? && e.Tick?
    ensures Safe(Step(c, e)) <==> !Deserts(c, e)
  {
    ForwardSound(c, e.answer, e.plain);
    AttemptedShape(c.memory, e.answer, true);
    AttemptedShape(c.memory, e.answer, false);
    hide Attempted;
  }

  /** Restarts included, a step keeps the lease out of danger exactly if it does not desert the instances. */
  lemma StepSafeIff(c: State, e: Event)
    requires Safe(c)
    ensures Safe(Step(c, e)) <==> !Deserts(c, e)
  {
    if c.s.rollingBack {
      BackSafe(c, e);
    } else if e.Tick? && S.NextCall(c.s).Forward? {
      ForwardSafeIff(c, e);
    }
  }

  /** Once the instances are deserted, the next compensating call that is granted takes their lease. */
  lemma DesertedLoses(c: State, e: Event)
    requires Safe(c) && Enabled(c, e) && Deserts(c, e)
    ensures Enabled(Step(c, e), Tick(Granted, S.Pass)) && !Leased(Step(Step(c, e), Tick(Granted, S.Pass)))
  {
    AttemptedShape(c.memory, e.answer, false);
    hide Attempted;
  }

  /** The lease holds, and holds after whatever can happen next. */
  ghost predicate Assured(c: State)
  {
    Leased(c) && forall e :: Enabled(c, e) ==> Leased(Step(c, e))
  }

  lemma SafeIsAssured(c: State)
    requires Safe(c)
    ensures Assured(c)
  {
    forall e | Enabled(c, e)
      ensures Leased(Step(c, e))
    {
      if c.s.rollingBack {
        BackSafe(c, e);
      } else if e.Tick? && S.NextCall(c.s).Forward? {
        ForwardSound(c, e.answer, e.plain);
      }
    }
  }

  /** No step of the run deserts the instances. */
  predicate Steady(c: State, es: seq<Event>)
    requires Possible(c, es)
    decreases |es|
  {
    es == [] || (!Deserts(c, es[0]) && Steady(Step(c, es[0]), es[1..]))
  }

  /** The lease is assured at every moment of the run. */
  ghost predicate AlwaysAssured(c: State, es: seq<Event>)
    requires Possible(c, es)
    decreases |es|
  {
    Assured(c) && (es != [] ==> AlwaysAssured(Step(c, es[0]), es[1..]))
  }

  lemma {:induction false} RunAssuredIff(c: State, es: seq<Event>)
    requires Safe(c) && Possible(c, es)
    ensures AlwaysAssured(c, es) <==> Steady(c, es)
    decreases |es|
  {
    hide Safe, Step, Deserts, Enabled, Assured;
    SafeIsAssured(c);
    if es != [] {
      var d := Step(c, es[0]);
      StepSafeIff(c, es[0]);
      if Deserts(c, es[0]) {
        DesertedIsNotAssured(c, es[0]);
      } else {
        RunAssuredIff(d, es[1..]);
      }
    }
  }

  lemma DesertedIsNotAssured(c: State, e: Event)
    requires Safe(c) && Enabled(c, e) && Deserts(c, e)
    ensures !Assured(Step(c, e))
  {
    hide Safe, Step, Deserts, Enabled, Leased;
    DesertedLoses(c, e);
  }

  /**
   * In every run, restarts included: running instances have rule and target at every moment, and
   * after whatever can happen next, exactly if the rule and the target are never given up while
   * the granted request is known.
   */
  lemma InstancesAreLeased(upload: bool, es: seq<Event>)
    requires Possible(Started(upload), es)
    ensures AlwaysAssured(Started(upload), es) <==> Steady(Started(upload), es)
  {
    RunAssuredIff(Started(upload), es);
  }

  /**
   * All is made and the daemon restarts before it has replied.  The rule is granted again, but its
   * target is refused three times: the rollback removes the target, and the instances run on.
   */
  lemma LeaseLostAfterRestart()
    ensures exists es :: Possible(Started(false), es) && !Leased(Run(Started(false), es))
  {
    var yes := Tick(Granted, S.Pass);
    var c0 := Started(false);
    var c1 := Step(c0, yes);
    var c2 := Step(c1, yes);
    var c3 := Step(c2, yes);
    var c4 := Step(c3, yes);
    var c5 := Step(c4, yes);
    assert c5.s.current == 5 && c5.s.size == 5 && c5.s.logged == None;
    assert c5.cloud == Cloud(true, true, true) && c5.memory == Memory(true, true, 0, false);
    hide Step, Spoils;
    var es := Relapse(c5);
    es := Prepend(c4, yes, c5, es);
    es := Prepend(c3, yes, c4, es);
    es := Prepend(c2, yes, c3, es);
    es := Prepend(c1, yes, c2, es);
    es := Prepend(c0, yes, c1, es);
  }

  lemma Relapse(c: State) returns (es: seq<Event>)
    requires c.s.size == 5 && c.s.logged == None && !c.s.finished
    requires c.cloud == Cloud(true, true, true) && c.memory.requestKnown && c.memory.tries == 0
    ensures Possible(c, es) && !Leased(Run(c, es))
  {
    var yes := Tick(Granted, S.Pass);
    var c1 := Step(c, Restart);
    var c2 := Step(c1, yes);
    var c3 := Step(c2, yes);
    var c4 := Step(c3, yes);
    assert c4.s.size == 5 && c4.s.current == 3 && !c4.s.rollingBack && !c4.s.finished && !c4.aborted;
    assert c4.cloud == c.cloud && c4.memory == Memory(true, true, 0, false);
    hide Step, Spoils;
    es := GivenUp(c4);
    es := Prepend(c3, yes, c4, es);
    es := Prepend(c2, yes, c3, es);
    es := Prepend(c1, yes, c2, es);
    es := Prepend(c, Restart, c1, es);
  }

  lemma GivenUp(c: State) returns (es: seq<Event>)
    requires c.s.size == 5 && c.s.current == 3 && !c.s.rollingBack && !c.s.finished && !c.aborted
    requires c.cloud == Cloud(true, true, true) && c.memory == Memory(true, true, 0, false)
    ensures Possible(c, es) && !Leased(Run(c, es))
  {
    var yes, no := Tick(Granted, S.Pass), Tick(Refused(false), S.Pass);
    var c1 := Step(c, no);
    var c2 := Step(c1, no);
    var c3 := Step(c2, no);
    assert c3.s.rollingBack && c3.s.current == 3 && c3.s.size == 5 && c3.cloud == c.cloud && c3.memory.ruleKnown;
    var c4 := Step(c3, yes);
    assert !c4.cloud.target && c4.cloud.instances;
    hide Step, Spoils;
    es := [];
    es := Prepend(c3, yes, c4, es);
    es := Prepend(c2, no, c3, es);
    es := Prepend(c1, no, c2, es);
    es := Prepend(c, no, c1, es);
  }

  // ---------------------------------------------------------------- restarted rollbacks

  /** The rule's name is lost, and the rollback stands at the target or after it. */
  ghost predicate Stuck(c: State)
  {
    && Placed(c) && c.s.rollingBack && !c.memory.ruleKnown && c.s.logged.value >= Target(c.s.size)
    && c.s.current >= Target(c.s.size) && !c.s.finished
  }

  lemma StuckStays(c: State, e: Event)
    requires Stuck(c)
    ensures Stuck(Step(c, e))
    ensures Step(c, e).cloud.target == c.cloud.target && Step(c, e).cloud.rule == c.cloud.rule
  {
  }

  /** However often it is restarted, such a rollback never gets past the target, and undoes neither it nor the rule. */
  lemma {:induction false} StuckForever(c: State, es: seq<Event>)
    requires Stuck(c) && Possible(c, es)
    ensures Stuck(Run(c, es))
    ensures Run(c, es).cloud.target == c.cloud.target && Run(c, es).cloud.rule == c.cloud.rule
    decreases |es|
  {
    if es != [] {
      StuckStays(c, es[0]);
      StuckForever(Step(c, es[0]), es[1..]);
    }
  }

  /** A rollback that does not come by the target. */
  ghost predicate Short(c: State)
  {
    Placed(c) && c.s.rollingBack && c.s.logged.value < Target(c.s.size) && !c.aborted
  }

  lemma ShortStays(c: State, e: Event)
    requires Short(c)
    ensures Short(Step(c, e))
  {
  }

  lemma {:induction false} ShortForever(c: State, es: seq<Event>)
    requires Short(c) && Possible(c, es)
    ensures Short(Run(c, es))
    decreases |es|
  {
    if es != [] {
      ShortStays(c, es[0]);
      ShortForever(Step(c, es[0]), es[1..]);
    }
  }

  /** With answers, such a rollback finishes. */
  lemma {:induction false} ShortFinishes(c: State) returns (es: seq<Event>)
    requires Short(c) && !c.s.finished
    ensures Possible(c, es) && Run(c, es).s.finished
    decreases c.s.current + 1
  {
    var e := Tick(Granted, S.Pass);
    var d := Step(c, e);
    ShortStays(c, e);
    es := [];
    if c.s.current >= 0 {
      es := ShortFinishes(d);
    }
    es := Prepend(c, e, d, es);
  }

  ghost predicate CanFinish(c: State)
  {
    exists es :: Possible(c, es) && Run(c, es).s.finished
  }

  /**
   * A rollback that is restarted can finish exactly if the functor that failed comes before the
   * target: then it never aborts, and otherwise target and rule stay as they are forever.
   */
  lemma RestartedRollbackFinishesIff(upload: bool, es: seq<Event>, more: seq<Event>)
    requires Possible(Started(upload), es)
    requires var c := Run(Started(upload), es);
             && c.s.rollingBack && c.s.logged.Some? && !c.s.finished
             && Possible(Step(c, Restart), more)
    ensures var c := Run(Started(upload), es);
            var d := Run(Step(c, Restart), more);
            && (CanFinish(Step(c, Restart)) <==> c.s.logged.value < Target(c.s.size))
            && (if c.s.logged.value < Target(c.s.size) then !d.aborted
                else !d.s.finished && d.cloud.target == c.cloud.target && d.cloud.rule == c.cloud.rule)
  {
    RunSound(Started(upload), es);
    var c := Run(Started(upload), es);
    var r := Step(c, Restart);
    if c.s.logged.value < Target(c.s.size) {
      ShortForever(r, more);
      var rest := ShortFinishes(r);
    } else {
      StuckForever(r, more);
      forall rest | Possible(r, rest)
        ensures !Run(r, rest).s.finished
      {
        StuckForever(r, rest);
      }
    }
  }

  // ---------------------------------------------------------------- one process

  /**
   * Without restarts: going forward, exactly the functors that are through have made their
   * things; rolling back, there are no instances, and nothing is left that was not made.
   */
  ghost predicate Inv(c: State)
  {
    && Placed(c) && !c.aborted
    && (var i, n := c.s.current, c.s.size;
        if !c.s.rollingBack then
          && c.cloud == Cloud(i > Rule(n), i > Target(n), i > Request(n))
          && c.memory.ruleKnown == c.cloud.rule && c.memory.requestKnown == c.cloud.instances
        else
          var k := c.s.logged.value;
          && !c.cloud.instances && !c.memory.requestKnown && c.memory.ruleKnown == (k > Rule(n))
          && (c.cloud.rule ==> k > Rule(n)) && (c.cloud.target ==> k > Target(n)))
  }

  lemma CheckKeeps(c: State, answer: Answer, plain: S.Outcome)
    requires Inv(c) && S.NextCall(c.s).Forward? && c.s.current < Rule(c.s.size)
    ensures Inv(Step(c, Tick(answer, plain)))
  {
    AttemptedShape(c.memory, answer, false);
    hide Attempted;
  }

  lemma RuleKeeps(c: State, answer: Answer, plain: S.Outcome)
    requires Inv(c) && S.NextCall(c.s).Forward? && c.s.current == Rule(c.s.size)
    ensures Inv(Step(c, Tick(answer, plain)))
  {
    AttemptedShape(c.memory, answer, false);
    hide Attempted;
  }

  lemma TargetKeeps(c: State, answer: Answer, plain: S.Outcome)
    requires Inv(c) && S.NextCall(c.s).Forward? && c.s.current == Target(c.s.size)
    ensures Inv(Step(c, Tick(answer, plain)))
  {
    AttemptedShape(c.memory, answer, false);
    hide Attempted;
  }

  lemma RequestKeeps(c: State, answer: Answer, plain: S.Outcome)
    requires Inv(c) && S.NextCall(c.s).Forward? && c.s.current == Request(c.s.size)
    ensures Inv(Step(c, Tick(answer, plain)))
  {
    AttemptedShape(c.memory, answer, true);
    hide Attempted;
  }

  lemma BackKeeps(c: State, answer: Answer, plain: S.Outcome)
    requires Inv(c) && S.NextCall(c.s).Back?
    ensures Inv(Step(c, Tick(answer, plain)))
  {
  }

  lemma StepKeeps(c: State, e: Event)
    requires Inv(c) && e.Tick?
    ensures Inv(Step(c, e))
  {
    if S.NextCall(c.s).Back? {
      BackKeeps(c, e.answer, e.plain);
    } else if S.NextCall(c.s).Forward? {
      hide Step;
      if c.s.current < Rule(c.s.size) {
        CheckKeeps(c, e.answer, e.plain);
      } else if c.s.current == Rule(c.s.size) {
        RuleKeeps(c, e.answer, e.plain);
      } else if c.s.current == Target(c.s.size) {
        TargetKeeps(c, e.answer, e.plain);
      } else {
        RequestKeeps(c, e.answer, e.plain);
      }
    }
  }

  lemma InvIsClean(c: State, e: Event)
    requires Inv(c)
    ensures !(Fails(c, e) && Stranded(c)) && !Deserts(c, e)
  {
    hide Forwarded, Backed;
  }

  ghost predicate NoRestart(es: seq<Event>)
  {
    forall i :: 0 <= i < |es| ==> es[i].Tick?
  }

  lemma {:induction false} RunKeeps(c: State, es: seq<Event>)
    requires Inv(c) && Possible(c, es) && NoRestart(es)
    ensures Inv(Run(c, es)) && Clean(c, es) && Steady(c, es)
    decreases |es|
  {
    hide Inv, Step, Fails, Stranded, Deserts, Enabled;
    if es != [] {
      InvIsClean(c, es[0]);
      StepKeeps(c, es[0]);
      RunKeeps(Step(c, es[0]), es[1..]);
    }
  }

  /** A process that is never restarted meets both conditions, whatever the calls return, and never aborts. */
  lemma OneProcessIsClean(upload: bool, es: seq<Event>)
    requires Possible(Started(upload), es) && NoRestart(es)
    ensures Clean(Started(upload), es) && Steady(Started(upload), es) && !Run(Started(upload), es).aborted
  {
    RunKeeps(Started(upload), es);
  }

  // ---------------------------------------------------------------- what one call does

  /** Asking `k` times for the answer of a call that is still under way. */
  function Awaited(m: Memory, k: nat, bulk: bool): Memory
  {
    if k == 0 then m else Attempted(Awaited(m, k - 1, bulk), Waiting, bulk).0
  }

  lemma {:induction false} AwaitedIs(m: Memory, k: nat, bulk: bool)
    ensures k > 0 ==> Awaited(m, k, bulk) == m.(trying := true, tries := if m.trying then m.tries else m.tries + 1)
  {
    if k > 1 {
      AwaitedIs(m, k - 1, bulk);
    }
  }

  /**
   * An attempt counts once, however often its answer is asked for: a refusal is one more, at the third
   * of which the functor gives up, unless a bulk request asks for more; a grant clears the count.
   */
  lemma AttemptCountsOnce(m: Memory, k: nat, answer: Answer, bulk: bool)
    requires !m.trying
    ensures var (n, o) := Attempted(Awaited(m, k, bulk), answer, bulk);
            match answer
            case Waiting => o == S.Keep && n.trying && n.tries == m.tries + 1
            case Granted => o == S.Pass && !n.trying && n.tries == 0
            case Refused(check) =>
              !n.trying && n.tries == m.tries + 1 && o == if n.tries < 3 || (bulk && check) then S.Keep else S.Stop
  {
    hide Awaited;
    AwaitedIs(m, k, bulk);
    AwaitedNone(m, bulk);
  }

  lemma AwaitedNone(m: Memory, bulk: bool)
    ensures Awaited(m, 0, bulk) == m
  {
  }

  /** A forward call makes its own thing, if it is granted, and nothing else; a known request makes none. */
  lemma ForwardMakes(c: State, i: nat, answer: Answer, plain: S.Outcome)
    requires Placed(c) && Enabled(c, Tick(answer, plain)) && S.NextCall(c.s) == S.Forward(i)
    ensures var d := Step(c, Tick(answer, plain));
            var made := answer.Granted? && !d.aborted;
            && d.cloud.rule == (c.cloud.rule || (made && i == c.s.size - 3))
            && d.cloud.target == (c.cloud.target || (made && i == c.s.size - 2))
            && d.cloud.instances == (c.cloud.instances || (made && i == c.s.size - 1 && !c.memory.requestKnown))
  {
    hide S.Ticked, Attempted;
  }

  /** A compensating call removes its own thing, if it is granted, and nothing else. */
  lemma BackRemoves(c: State, i: nat, answer: Answer, plain: S.Outcome)
    requires Placed(c) && Enabled(c, Tick(answer, plain)) && S.NextCall(c.s) == S.Back(i)
    ensures var d := Step(c, Tick(answer, plain));
            var gone := answer.Granted? && !d.aborted;
            && d.cloud.rule == (c.cloud.rule && !(gone && i == c.s.size - 3))
            && d.cloud.target == (c.cloud.target && !(gone && i == c.s.size - 2))
            && d.cloud.instances == (c.cloud.instances && !(gone && i == c.s.size - 1 && c.memory.requestKnown))
            && d.memory == c.memory
  {
    hide S.Ticked;
  }

  /** What the last functor called returned. */
  function Returned(c: State): S.Outcome
    requires c.s.recent != []
  {
    c.s.recent[|c.s.recent| - 1].outcome
  }

  /**
   * The checks: connectivity decides alone and leaves no trace; the others stop at once or at their third
   * refusal, and go through when granted.
   */
  lemma CheckDecides(c: State, i: nat, answer: Answer, plain: S.Outcome)
    requires Placed(c) && S.NextCall(c.s) == S.Forward(i) && i < c.s.size - 3
    ensures var d := Step(c, Tick(answer, plain));
            && d.s.recent != [] && d.aborted == c.aborted
            && (i == 0 ==> Returned(d) == plain && d.memory == c.memory)
            && (i > 0 ==> (Returned(d) == S.Stop <==> plain == S.Stop || Exhausted(c.memory, answer)))
            && (i > 0 ==> (Returned(d) == S.Pass <==> plain != S.Stop && answer.Granted?))
            && (i > 0 && plain != S.Stop ==> d.memory == Attempted(c.memory, answer, false).0)
            && (plain == S.Stop ==> d.memory == c.memory)
  {
    AttemptedShape(c.memory, answer, false);
    hide Attempted;
  }

  /** A request that is known goes through without a call, and clears the count. */
  lemma KnownRequestPasses(c: State, answer: Answer, plain: S.Outcome)
    requires Placed(c) && S.NextCall(c.s) == S.Forward(c.s.size - 1) && c.memory.requestKnown
    ensures var d := Step(c, Tick(answer, plain));
            && d.s.recent != [] && Returned(d) == S.Pass && d.cloud == c.cloud
            && d.memory.requestKnown && d.memory.tries == 0 && d.memory.trying == c.memory.trying
  {
    hide Attempted;
  }

  /** A new process knows the request and the attempts, but not the rule's name nor the call under way. */
  lemma RestartKnows(c: State)
    ensures var d := Step(c, Restart);
            && d.cloud == c.cloud && !d.aborted && !d.s.finished
            && d.memory == Memory(false, c.memory.requestKnown, c.memory.tries, false)
  {
  }

  /** At first nothing exists, nothing is known and nothing is under way. */
  lemma NothingYet(upload: bool)
    ensures var c := Started(upload);
            && !c.cloud.rule && !c.cloud.target && !c.cloud.instances && !c.aborted
            && !c.memory.ruleKnown && !c.memory.requestKnown && !c.memory.trying && c.memory.tries == 0
            && S.NextCall(c.s) == S.Forward(0) && c.s.size == if upload then 6 else 5
  {
  }

  // ---------------------------------------------------------------- the objects

  class Annex {
    const sequence: S.FunctorSequence
    var memory: Memory
    var aborted: bool
    ghost var cloud: Cloud

    constructor (upload: bool)
      ensures View() == Started(upload) && fresh(sequence)
    {
      sequence := new S.FunctorSequence(if upload then 6 else 5, None, []);
      memory, aborted, cloud := Memory(false, false, 0, false), false, Cloud(false, false, false);
    }

    /** A new process takes up the command: from the log, with new functors that know only what is logged. */
    constructor Resume(size: nat, logged: Option<int>, requestKnown: bool, tries: nat, ghost before: State)
      requires before.s.size == size && before.s.logged == logged
      requires before.memory.requestKnown == requestKnown && before.memory.tries == tries
      ensures View() == Step(before, Restart) && fresh(sequence)
    {
      sequence := new S.FunctorSequence(size, logged, before.s.past + before.s.recent);
      memory, aborted, cloud := Memory(false, requestKnown, tries, false), false, before.cloud;
    }

    ghost function View(): State
      reads this, sequence
    {
      State(sequence.View(), cloud, memory, aborted)
    }

    /** One attempt at a forward call, counted in the command's logged state. */
    method Attempt(answer: Answer, bulk: bool) returns (o: S.Outcome)
      modifies this`memory
      ensures (memory, o) == Attempted(old(memory), answer, bulk)
    {
      if !memory.trying {
        memory := memory.(tries := memory.tries + 1, trying := true);
      }
      if answer.Waiting? {
        return S.Keep;
      }
      memory := memory.(trying := false);
      if answer.Granted? {
        memory := memory.(tries := 0);
        return S.Pass;
      }
      return if memory.tries < 3 || (bulk && answer.check) then S.Keep else S.Stop;
    }

    method PutRule(answer: Answer) returns (o: S.Outcome)
      modifies this`memory, this`cloud
      ensures var (m, p) := Attempted(old(memory), answer, false);
              o == p && memory == m.(ruleKnown := m.ruleKnown || answer.Granted?)
      ensures cloud == old(cloud).(rule := old(cloud).rule || answer.Granted?)
    {
      o := Attempt(answer, false);
      if answer.Granted? {
        memory := memory.(ruleKnown := true);
        cloud := cloud.(rule := true);
      }
    }

    /** The source asserts that the rule's name is known. */
    method PutTargets(answer: Answer) returns (o: S.Outcome)
      requires memory.ruleKnown
      modifies this`memory, this`cloud
      ensures (memory, o) == Attempted(old(memory), answer, false)
      ensures cloud == old(cloud).(target := old(cloud).target || answer.Granted?)
    {
      o := Attempt(answer, false);
      if answer.Granted? {
        cloud := cloud.(target := true);
      }
    }

    /** BulkRequest and OnDemandRequest: nothing to do when the request's identifier is known. */
    method RequestInstances(answer: Answer) returns (o: S.Outcome)
      modifies this`memory, this`cloud
      ensures old(memory).requestKnown ==> o == S.Pass && memory == old(memory).(tries := 0) && cloud == old(cloud)
      ensures !old(memory).requestKnown ==>
                var (m, p) := Attempted(old(memory), answer, true);
                && o == p && memory == m.(requestKnown := answer.Granted?)
                && cloud == old(cloud).(instances := old(cloud).instances || answer.Granted?)
    {
      if memory.requestKnown {
        memory := memory.(tries := 0);
        return S.Pass;
      }
      o := Attempt(answer, true);
      if answer.Granted? {
        memory := memory.(requestKnown := true);
        cloud := cloud.(instances := true);
      }
    }

    /** A compensating call: wait for its answer, and go on whatever it is. */
    method Compensate(answer: Answer, ghost rest: Cloud) returns (o: S.Outcome)
      modifies this`cloud
      ensures o == if answer.Waiting? then S.Keep else S.Pass
      ensures cloud == if answer.Granted? then rest else old(cloud)
    {
      if answer.Granted? {
        cloud := rest;
      }
      return if answer.Waiting? then S.Keep else S.Pass;
    }

    /** Calls the functor at `i`, forward or back; None is a failed assertion. */
    method CallFunctor(i: nat, back: bool, answer: Answer, plain: S.Outcome) returns (o: Option<S.Outcome>)
      requires sequence.size >= 3
      modifies this`memory, this`cloud
      ensures var c, n := old(View()), sequence.size;
              var d := if back then Backed(c, i, answer) else Forwarded(c, i, answer, plain);
              && (o.None? <==> i == Target(n) && !old(memory).ruleKnown)
              && (o.None? ==> cloud == old(cloud) && memory == old(memory))
              && (o.Some? ==> cloud == d.cloud && memory == d.memory && d.s == S.Ticked(c.s, o.value))
    {
      var r: S.Outcome;
      var n := sequence.size;
      if i == n - 3 {
        if back {
          r := Compensate(answer, cloud.(rule := false));
        } else {
          r := PutRule(answer);
        }
      } else if i == n - 2 {
        if !memory.ruleKnown {
          return None;
        }
        if back {
          r := Compensate(answer, cloud.(target := false));
        } else {
          r := PutTargets(answer);
        }
      } else if i == n - 1 {
        if back && memory.requestKnown {
          r := Compensate(answer, cloud.(instances := false));
        } else if back {
          r := S.Pass;
        } else {
          r := RequestInstances(answer);
        }
      } else if back {
        r := S.Pass;
      } else if i == 0 || plain == S.Stop {
        r := plain;
      } else {
        r := Attempt(answer, false);
      }
      o := Some(r);
    }

    /** One timer call of the whole sequence. */
    method Timer(answer: Answer, plain: S.Outcome)
      requires sequence.size >= 3 && !sequence.finished && !aborted
      modifies this`memory, this`cloud, this`aborted, sequence
      ensures View() == Step(old(View()), Tick(answer, plain))
    {
      hide Forwarded, Backed;
      var i := sequence.current;
      if 0 <= i < sequence.size {
        var o := CallFunctor(i, sequence.rollingBack, answer, plain);
        ForwardedAborts(old(View()), i, answer, plain);
        if o.None? {
          aborted := true;
        } else {
          var called := sequence.Call(o.value);
        }
      } else {
        var called := sequence.Call(plain);
      }
    }
  }

  lemma ForwardedAborts(c: State, i: nat, answer: Answer, plain: S.Outcome)
    ensures i == Target(c.s.size) && !c.memory.ruleKnown ==>
              Forwarded(c, i, answer, plain) == c.(aborted := true) && Backed(c, i, answer) == c.(aborted := true)
    ensures !(i == Target(c.s.size) && !c.memory.ruleKnown) ==>
              Forwarded(c, i, answer, plain).aborted == c.aborted && Backed(c, i, answer).aborted == c.aborted
  {
  }
}
