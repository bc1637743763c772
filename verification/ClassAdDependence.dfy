/**
 * What the names of an expression are good for: a name matters to its evaluation, for some
 * operators and some alternate scopes, exactly if a relative reference reaches it.
 */
module ClassAdDependence {
  import opened Common
  import opened ClassAdReferences

  // ---------------------------------------------------------------- operators that look for a mark

  /** A list with an element through which `n` can be looked up. */
  ghost predicate Inside(root: map<Name, Expr>, n: Name, r: Result)
  {
    && r.Some? && r.value.ListOf?
    && exists j :: 0 <= j < |r.value.elems| && Reaches(root, r.value.elems[j], n, true)
  }

  ghost function Entry(root: map<Name, Expr>, n: Name, r: Result): (j: nat)
    requires Inside(root, n, r)
    ensures j < |r.value.elems| && Reaches(root, r.value.elems[j], n, true)
  {
    var j: nat :| j < |r.value.elems| && Reaches(root, r.value.elems[j], n, true);
    j
  }

  /** How many operands the answers dispose of. */
  ghost function Passed(root: map<Name, Expr>, n: Name, answers: seq<Result>): nat
  {
    if answers == [] then 0
    else Passed(root, n, answers[..|answers| - 1]) + if Inside(root, n, answers[|answers| - 1]) then 0 else 1
  }

  /** Asks one operand after the other, and into lists where `n` may be, until an answer is the mark. */
  ghost function Seek(root: map<Name, Expr>, n: Name, mark: Constant, answers: seq<Result>): Move
  {
    if answers == [] then AskOperand(0, false) else
    var last := answers[|answers| - 1];
    if last == Some(Const(mark)) then Yield(mark)
    else if Inside(root, n, last) then AskElement(|answers| - 1, Entry(root, n, last))
    else AskOperand(Passed(root, n, answers), false)
  }

  /** A world of such operators whose alternate scope shows the mark, and nothing else, under `n`. */
  ghost function Seeker(root: map<Name, Expr>, n: Name, mark: Constant, rounds: nat): World
  {
    World(root, map[n := mark], (symbol: string, answers: seq<Result>) => Seek(root, n, mark, answers), rounds)
  }

  // ---------------------------------------------------------------- bounds

  /** No operator has more than `b` operands, and no integer reaches `b`. */
  predicate Within(e: Expr, b: nat)
  {
    match e
    case Literal(c) => c.Integer? ==> c.i < b
    case Reference(_, _) => true
    case Operation(_, operands) => |operands| <= b && forall i :: 0 <= i < |operands| ==> Within(operands[i], b)
    case Call(_, args) => |args| <= b && forall i :: 0 <= i < |args| ==> Within(args[i], b)
    case List(elems) => forall i :: 0 <= i < |elems| ==> Within(elems[i], b)
  }

  ghost predicate RootWithin(root: map<Name, Expr>, b: nat)
  {
    forall k :: k in root ==> Within(root[k], b)
  }

  lemma {:induction false} WithinMore(e: Expr, b: nat, c: nat)
    requires Within(e, b) && b <= c
    ensures Within(e, c)
    decreases e
  {
    match e
    case Operation(_, operands) => AllWithinMore(operands, b, c);
    case Call(_, args) => AllWithinMore(args, b, c);
    case List(elems) => AllWithinMore(elems, b, c);
    case _ =>
  }

  lemma {:induction false} AllWithinMore(es: seq<Expr>, b: nat, c: nat)
    requires b <= c && forall i :: 0 <= i < |es| ==> Within(es[i], b)
    ensures forall i :: 0 <= i < |es| ==> Within(es[i], c)
    decreases es
  {
    forall i | 0 <= i < |es|
      ensures Within(es[i], c)
    {
      WithinMore(es[i], b, c);
    }
  }

  lemma {:induction false} SomeBound(e: Expr) returns (b: nat)
    ensures Within(e, b)
    decreases e, 0
  {
    match e
    case Literal(c) => b := if c.Integer? && c.i >= 0 then c.i + 1 else 0;
    case Reference(_, _) => b := 0;
    case Operation(_, operands) => b := SomeBounds(operands);
    case Call(_, args) => b := SomeBounds(args);
    case List(elems) => b := SomeBounds(elems);
  }

  lemma {:induction false} SomeBounds(es: seq<Expr>) returns (b: nat)
    ensures |es| <= b && forall i :: 0 <= i < |es| ==> Within(es[i], b)
    decreases es, |es|
  {
    b := |es|;
    for k := 0 to |es|
      invariant |es| <= b && forall i :: 0 <= i < k ==> Within(es[i], b)
    {
      var c := SomeBound(es[k]);
      var more := if b <= c then c else b;
      forall i | 0 <= i <= k
        ensures Within(es[i], more)
      {
        WithinMore(es[i], if i < k then b else c, more);
      }
      b := more;
    }
  }

  lemma {:induction false} RootBound(root: map<Name, Expr>) returns (b: nat)
    ensures RootWithin(root, b)
    decreases |root|
  {
    b := 0;
    if root != map[] {
      var k :| k in root;
      var rest := root - {k};
      assert |rest.Keys| < |root.Keys| by {
        assert rest.Keys == root.Keys - {k};
      }
      var b0 := RootBound(rest);
      var c := SomeBound(root[k]);
      b := b0 + c;
      forall x | x in root
        ensures Within(root[x], b)
      {
        if x == k {
          WithinMore(root[k], c, b);
        } else {
          assert x in rest && rest[x] == root[x];
          WithinMore(root[x], b0, b);
        }
      }
    }
  }

  // ---------------------------------------------------------------- without the mark

  /** Neither the mark nor anything that holds it. */
  ghost predicate Clean(r: Result, b: nat)
  {
    r.Some? ==>
      match r.value
      case Const(c) => c != Integer(b)
      case ListOf(elems) => forall i :: 0 <= i < |elems| ==> Within(elems[i], b)
  }

  /** In an empty alternate scope the mark never comes up. */
  lemma {:induction false} EvalClean(v: World, n: Name, b: nat, e: Expr, depth: nat)
    requires v == Seeker(v.root, n, Integer(b), v.rounds).(alternate := map[])
    requires RootWithin(v.root, b) && Within(e, b)
    ensures Clean(Eval(v, e, depth), b)
    decreases depth, e, 0
  {
    match e
    case Literal(c) =>
    case Reference(name, _) =>
      if name in v.root && depth > 0 {
        EvalClean(v, n, b, v.root[name], depth - 1);
      }
    case Operation(op, operands) => PlayClean(v, n, b, op, operands, [], v.rounds, depth);
    case Call(fn, args) => PlayClean(v, n, b, fn, args, [], v.rounds, depth);
    case List(elems) =>
  }

  lemma {:induction false} PlayClean(v: World, n: Name, b: nat, symbol: string, operands: seq<Expr>,
        answers: seq<Result>, rounds: nat, depth: nat)
    requires v == Seeker(v.root, n, Integer(b), v.rounds).(alternate := map[])
    requires RootWithin(v.root, b) && forall i :: 0 <= i < |operands| ==> Within(operands[i], b)
    requires forall k :: 0 <= k < |answers| ==> Clean(answers[k], b)
    ensures Clean(Play(v, symbol, operands, answers, rounds, depth), b)
    decreases depth, operands, rounds
  {
    hide Within, Eval, RootWithin;
    var move := Seek(v.root, n, Integer(b), answers);
    assert v.strategy(symbol, answers) == move;
    assert !move.Yield?;
    if rounds > 0 {
      if move.AskOperand? && move.index < |operands| {
        EvalClean(v, n, b, operands[move.index], depth);
        PlayClean(v, n, b, symbol, operands, answers + [Eval(v, operands[move.index], depth)], rounds - 1, depth);
      } else if move.AskElement? && depth > 0 {
        var element := answers[move.answer].value.elems[move.index];
        assert Clean(answers[move.answer], b);
        EvalClean(v, n, b, element, depth - 1);
        PlayClean(v, n, b, symbol, operands, answers + [Eval(v, element, depth - 1)], rounds - 1, depth);
      }
    }
  }

  // ---------------------------------------------------------------- with the mark

  lemma {:induction false} WalkDeepens(root: map<Name, Expr>, e: Expr, d: nat)
    requires Walk(root, e, d).Some?
    ensures Walk(root, e, d + 1).Some?
  {
    WalkFailsIff(root, e, d);
    WalkFailsIff(root, e, d + 1);
    if Walk(root, e, d + 1).None? {
      SpendsLess(root, e, d + 1);
    }
  }

  /** Such operators answer with the mark or not at all. */
  lemma {:induction false} PlayIsMark(w: World, n: Name, mark: Constant, symbol: string, operands: seq<Expr>,
        answers: seq<Result>, rounds: nat, depth: nat)
    requires w == Seeker(w.root, n, mark, w.rounds)
    ensures Play(w, symbol, operands, answers, rounds, depth) in {Some(Const(mark)), None}
    decreases rounds
  {
    hide Eval;
    var move := Seek(w.root, n, mark, answers);
    assert w.strategy(symbol, answers) == move;
    if rounds > 0 {
      if move.AskOperand? && move.index < |operands| {
        var answer := Eval(w, operands[move.index], depth);
        PlayIsMark(w, n, mark, symbol, operands, answers + [answer], rounds - 1, depth);
      } else if move.AskElement? && depth > 0 {
        var answer := Eval(w, answers[move.answer].value.elems[move.index], depth - 1);
        PlayIsMark(w, n, mark, symbol, operands, answers + [answer], rounds - 1, depth);
      }
    }
  }

  /** The elements of a list, if it is one, can be walked with less than `d` units of depth. */
  ghost predicate Walked(root: map<Name, Expr>, r: Result, d: nat, b: nat)
  {
    r.Some? && r.value.ListOf? ==>
      forall j :: 0 <= j < |r.value.elems| ==>
        d > 0 && Walk(root, r.value.elems[j], d - 1).Some? && Within(r.value.elems[j], b)
  }

  ghost predicate Ready(w: World, n: Name, mark: Constant, b: nat)
  {
    w == Seeker(w.root, n, mark, w.rounds) && RootWithin(w.root, b)
  }

  lemma {:induction false} EvalWalked(w: World, n: Name, mark: Constant, b: nat, e: Expr, d: nat, depth: nat)
    requires Ready(w, n, mark, b) && Within(e, b) && Walk(w.root, e, d).Some?
    ensures Walked(w.root, Eval(w, e, depth), d, b)
    decreases depth, e
  {
    match e
    case Literal(_) =>
    case Reference(name, _) =>
      if name in w.root && depth > 0 {
        EvalWalked(w, n, mark, b, w.root[name], d - 1, depth - 1);
        WalkedMore(w.root, Eval(w, e, depth), d - 1, b);
      }
    case Operation(op, operands) => PlayIsMark(w, n, mark, op, operands, [], w.rounds, depth);
    case Call(fn, args) => PlayIsMark(w, n, mark, fn, args, [], w.rounds, depth);
    case List(elems) => ElementsWalked(w.root, elems, d);
  }

  lemma WalkedMore(root: map<Name, Expr>, r: Result, d: nat, b: nat)
    requires Walked(root, r, d, b)
    ensures Walked(root, r, d + 1, b)
  {
    if r.Some? && r.value.ListOf? {
      forall j | 0 <= j < |r.value.elems|
        ensures Walk(root, r.value.elems[j], d).Some?
      {
        WalkDeepens(root, r.value.elems[j], d - 1);
      }
    }
  }

  /** Arguments and elements are walked with one unit less. */
  lemma ElementsWalked(root: map<Name, Expr>, es: seq<Expr>, d: nat)
    requires WalkDeeper(root, es, d).Some?
    ensures forall i :: 0 <= i < |es| ==> d > 0 && Walk(root, es[i], d - 1).Some?
  {
    if es != [] {
      OperandsWalked(root, es, d - 1);
    }
  }

  lemma OperandsWalked(root: map<Name, Expr>, es: seq<Expr>, d: nat)
    requires WalkAll(root, es, d).Some?
    ensures forall i :: 0 <= i < |es| ==> Walk(root, es[i], d).Some?
  {
    WalkAllFailsIff(root, es, d);
  }

  /** What reaches `n` has a part that does, or stands for something that does, or is a reference to it. */
  lemma ReachesThrough(root: map<Name, Expr>, e: Expr, n: Name) returns (i: nat)
    requires Reaches(root, e, n, true)
    ensures e.Operation? || e.Call? || e.List? ==> i < |Parts(e)| && Reaches(root, Parts(e)[i], n, true)
    ensures !e.Literal?
    ensures e.Reference? ==> if e.name in root then Reaches(root, root[e.name], n, true) else e.name == n && !e.absolute
  {
    i := 0;
    var hops: nat :| Mentions(root, e, n, hops, true);
    if e.Operation? || e.Call? || e.List? {
      i :| 0 <= i < |Parts(e)| && Mentions(root, Parts(e)[i], n, hops, true);
    } else if e.Reference? && e.name in root {
      assert Mentions(root, root[e.name], n, hops - 1, true);
    }
  }

  /** Where the mark can be looked up, it is found, or a list is that leads to it. */
  lemma {:induction false} EvalFinds(w: World, n: Name, mark: Constant, b: nat, e: Expr, d: nat, depth: nat)
    requires Ready(w, n, mark, b) && Within(e, b) && Walk(w.root, e, d).Some?
    requires Reaches(w.root, e, n, true) && depth > d && w.rounds > b + d
    ensures var r := Eval(w, e, depth); r == Some(Const(mark)) || (!e.Operation? && Inside(w.root, n, r))
    decreases d, e, 0
  {
    hide Reaches, Mentions;
    var i := ReachesThrough(w.root, e, n);
    match e
    case Reference(name, absolute) =>
      if name in w.root {
        EvalFinds(w, n, mark, b, w.root[name], d - 1, depth - 1);
      }
    case Operation(op, operands) =>
      OperandsWalked(w.root, operands, d);
      PlayFinds(w, n, mark, b, op, operands, [], i, w.rounds, d, depth);
    case Call(fn, args) =>
      ElementsWalked(w.root, args, d);
      PlayFinds(w, n, mark, b, fn, args, [], i, w.rounds, d - 1, depth);
    case List(elems) =>
  }

  lemma YieldsMark(w: World, n: Name, mark: Constant, b: nat, symbol: string, operands: seq<Expr>,
        answers: seq<Result>, rounds: nat, depth: nat)
    requires Ready(w, n, mark, b)
    ensures Play(w, symbol, operands, answers + [Some(Const(mark))], rounds, depth) == Some(Const(mark))
  {
    hide Eval, Inside, Passed;
    assert w.strategy(symbol, answers + [Some(Const(mark))]) == Yield(mark);
  }

  lemma AsksOperand(w: World, n: Name, mark: Constant, b: nat, symbol: string, operands: seq<Expr>,
        answers: seq<Result>, rounds: nat, depth: nat)
    requires Ready(w, n, mark, b) && rounds > 0 && Passed(w.root, n, answers) < |operands|
    requires answers != [] ==>
               answers[|answers| - 1] != Some(Const(mark)) && !Inside(w.root, n, answers[|answers| - 1])
    ensures var answer := Eval(w, operands[Passed(w.root, n, answers)], depth);
            Play(w, symbol, operands, answers, rounds, depth) ==
            Play(w, symbol, operands, answers + [answer], rounds - 1, depth)
  {
    hide Eval, Inside;
    assert w.strategy(symbol, answers) == AskOperand(Passed(w.root, n, answers), false);
  }

  /** The operators come to operand `i`, which leads to the mark, unless they find the mark before. */
  lemma {:induction false} PlayFinds(w: World, n: Name, mark: Constant, b: nat, symbol: string, operands: seq<Expr>,
        answers: seq<Result>, i: nat, rounds: nat, d: nat, depth: nat)
    requires Ready(w, n, mark, b) && depth > d && w.rounds > b + d
    requires forall k :: 0 <= k < |operands| ==> Within(operands[k], b) && Walk(w.root, operands[k], d).Some?
    requires i < |operands| && Reaches(w.root, operands[i], n, true)
    requires answers != [] ==>
               answers[|answers| - 1] != Some(Const(mark)) && !Inside(w.root, n, answers[|answers| - 1])
    requires var p := Passed(w.root, n, answers); p <= i && rounds > i - p + d
    ensures Play(w, symbol, operands, answers, rounds, depth) == Some(Const(mark))
    decreases d, operands, rounds
  {
    hide Reaches, Within, Walk, Eval, Inside, Play, Ready, Seeker, Seek;
    var p := Passed(w.root, n, answers);
    var answer := Eval(w, operands[p], depth);
    var more := answers + [answer];
    assert more[..|answers|] == answers;
    AsksOperand(w, n, mark, b, symbol, operands, answers, rounds, depth);
    if answer == Some(Const(mark)) {
      YieldsMark(w, n, mark, b, symbol, operands, answers, rounds - 1, depth);
    } else if Inside(w.root, n, answer) {
      EvalWalked(w, n, mark, b, operands[p], d, depth);
      InsideIsList(w.root, n, answer, d, b);
      DescentFinds(w, n, mark, b, symbol, operands, more, rounds - 1, d - 1, depth);
    } else {
      if p == i {
        EvalFinds(w, n, mark, b, operands[i], d, depth);
      }
      PlayFinds(w, n, mark, b, symbol, operands, more, i, rounds - 1, d, depth);
    }
  }

  lemma InsideIsList(root: map<Name, Expr>, n: Name, r: Result, d: nat, b: nat)
    requires Inside(root, n, r) && Walked(root, r, d, b)
    ensures d > 0 && r.Some? && r.value.ListOf?
  {
  }

  /** Once in a list that leads to the mark, the operators find it. */
  lemma {:induction false} DescentFinds(w: World, n: Name, mark: Constant, b: nat, symbol: string,
        operands: seq<Expr>, answers: seq<Result>, rounds: nat, d: nat, depth: nat)
    requires Ready(w, n, mark, b) && depth > d + 1 && w.rounds > b + d && rounds > d
    requires answers != [] && answers[|answers| - 1].Some? && answers[|answers| - 1].value.ListOf?
    requires Inside(w.root, n, answers[|answers| - 1]) && Walked(w.root, answers[|answers| - 1], d + 1, b)
    ensures Play(w, symbol, operands, answers, rounds, depth) == Some(Const(mark))
    decreases d, answers[|answers| - 1].value.elems, 0
  {
    hide Reaches, Within, Walk, Eval, Inside;
    var last := answers[|answers| - 1];
    var j := Entry(w.root, n, last);
    assert w.strategy(symbol, answers) == AskElement(|answers| - 1, j);
    var element := last.value.elems[j];
    var answer := Eval(w, element, depth - 1);
    var more := answers + [answer];
    assert Play(w, symbol, operands, answers, rounds, depth) == Play(w, symbol, operands, more, rounds - 1, depth);
    EvalFinds(w, n, mark, b, element, d, depth - 1);
    if answer == Some(Const(mark)) {
      YieldsMark(w, n, mark, b, symbol, operands, answers, rounds - 1, depth);
    } else {
      EvalWalked(w, n, mark, b, element, d, depth - 1);
      InsideIsList(w.root, n, answer, d, b);
      DescentFinds(w, n, mark, b, symbol, operands, more, rounds - 1, d - 1, depth);
    }
  }

  // ---------------------------------------------------------------- which names matter

  /** Two worlds over the same ad, with the same operators, whose alternate scopes differ at most on `n`. */
  ghost predicate DifferAt(w: World, v: World, root: map<Name, Expr>, n: Name)
  {
    && w.root == root && v == w.(alternate := v.alternate)
    && w.alternate - {n} == v.alternate - {n}
  }

  /** Some operator, looking at `e` in two such worlds, sees a difference. */
  ghost predicate Matters(root: map<Name, Expr>, e: Expr, n: Name)
  {
    exists w, v, depth: nat ::
      DifferAt(w, v, root, n) && Eval(w, Operation("", [e]), depth) != Eval(v, Operation("", [e]), depth)
  }

  lemma WrappedReaches(root: map<Name, Expr>, e: Expr, n: Name)
    ensures Reaches(root, Operation("", [e]), n, true) <==> Reaches(root, e, n, true)
  {
    var o := Operation("", [e]);
    if Reaches(root, e, n, true) {
      var hops: nat :| Mentions(root, e, n, hops, true);
      assert o.operands[0] == e;
      assert Mentions(root, o, n, hops, true);
    }
    if Reaches(root, o, n, true) {
      var hops: nat :| Mentions(root, o, n, hops, true);
      assert Mentions(root, e, n, hops, true);
    }
  }

  lemma MattersOnlyIfReached(root: map<Name, Expr>, e: Expr, n: Name)
    requires Matters(root, e, n)
    ensures Reaches(root, e, n, true)
  {
    var w, v, depth: nat :|
      DifferAt(w, v, root, n) && Eval(w, Operation("", [e]), depth) != Eval(v, Operation("", [e]), depth);
    hide Eval;
    WrappedReaches(root, e, n);
    if !Reaches(root, e, n, true) {
      forall x | Reaches(root, Operation("", [e]), x, true)
        ensures x in w.alternate <==> x in v.alternate
        ensures x in w.alternate && x in v.alternate ==> w.alternate[x] == v.alternate[x]
      {
        assert x in w.alternate <==> x in w.alternate - {n};
        assert x in v.alternate <==> x in v.alternate - {n};
        assert x in w.alternate ==> (w.alternate - {n})[x] == w.alternate[x];
        assert x in v.alternate ==> (v.alternate - {n})[x] == v.alternate[x];
      }
      OnlyReachedMatter(w, v, Operation("", [e]), depth);
    }
  }

  lemma ReachedMatters(root: map<Name, Expr>, e: Expr, d: nat, n: Name)
    requires Walk(root, e, d).Some? && Reaches(root, e, n, true)
    ensures Matters(root, e, n)
  {
    var o := Operation("", [e]);
    var b0 := RootBound(root);
    var b1 := SomeBound(o);
    var b := b0 + b1;
    WithinMore(o, b1, b);
    forall k | k in root
      ensures Within(root[k], b)
    {
      WithinMore(root[k], b0, b);
    }
    assert WalkAll(root, [e][1..], d) == Some({});
    assert Walk(root, o, d).Some?;
    WrappedReaches(root, e, n);
    hide Walk, Within, Reaches, Eval;
    var w := Seeker(root, n, Integer(b), b + d + 1);
    var v := w.(alternate := map[]);
    EvalFinds(w, n, Integer(b), b, o, d, d + 1);
    EvalClean(v, n, b, o, d + 1);
    assert w.alternate - {n} == v.alternate - {n};
    assert DifferAt(w, v, root, n) && Eval(w, o, d + 1) != Eval(v, o, d + 1);
  }

  /**
   * Of the names that a successful walk returns, those matter that a relative reference reaches, and
   * no others; and every name that matters is returned.
   */
  lemma MattersIff(root: map<Name, Expr>, e: Expr, d: nat, n: Name)
    requires Walk(root, e, d).Some?
    ensures Matters(root, e, n) <==> Reaches(root, e, n, true)
    ensures Matters(root, e, n) ==> n in Walk(root, e, d).value
  {
    hide Matters;
    if Matters(root, e, n) {
      MattersOnlyIfReached(root, e, n);
      var hops: nat :| Mentions(root, e, n, hops, true);
      MentionsWalked(root, e, d, n, hops, true);
    }
    if Reaches(root, e, n, true) {
      ReachedMatters(root, e, d, n);
    }
  }

  /** The walk also returns names that absolute references alone mention, and those never matter. */
  lemma AbsoluteNamesDoNotMatter(root: map<Name, Expr>, n: Name, d: nat)
    requires n !in root
    ensures Walk(root, Reference(n, true), d) == Some({n}) && !Matters(root, Reference(n, true), n)
  {
    MattersIff(root, Reference(n, true), d, n);
  }
}
