/**
 * External references of a ClassAd expression: the bounded walk that collects the names an
 * expression takes from outside its ad, against what its evaluation can depend on.
 */
module ClassAdReferences {
  import opened Common

  // ---------------------------------------------------------------- expressions and evaluation

  /** Names with a meaning of their own, folded to one case. */
  const SPECIAL: set<string> := {"toplevel", "root", "self", "my", "parent", "currenttime"}

  type Name = s: string | s !in SPECIAL witness "a"

  datatype Constant = Undefined | Error | Boolean(b: bool) | Integer(i: int) | Real(r: real) | Text(s: string)

  datatype Expr =
    | Literal(c: Constant)
    | Reference(name: Name, absolute: bool)
    | Operation(op: string, operands: seq<Expr>)
    | Call(fn: string, args: seq<Expr>)
    | List(elems: seq<Expr>)

  /** A list is a value as it stands: its elements are evaluated by whoever looks at them. */
  datatype Value = Const(c: Constant) | ListOf(elems: seq<Expr>)

  /** None is an evaluation that fails. */
  type Result = Option<Value>

  /** What an operator or function does next, given the answers so far. */
  datatype Move =
    | Yield(c: Constant)
    | YieldAnswer(answer: nat)
    | YieldList(pieces: seq<Piece>)
    | Fail
    | AskOperand(index: nat, deeper: bool)
    | AskElement(answer: nat, index: nat) // an element of a list answered earlier

  datatype Piece = Fixed(c: Constant) | Part(answer: nat, index: nat)

  /**
   * A root ad (what it shows, name by name), an alternate scope of literals, and the operators
   * and functions: any deterministic strategy of at most `rounds` questions.
   */
  datatype World = World(
    root: map<Name, Expr>,
    alternate: map<Name, Constant>,
    strategy: (string, seq<Result>) -> Move,
    rounds: nat)

  function Eval(w: World, e: Expr, depth: nat): Result
    decreases depth, e, 0
  {
    match e
    case Literal(c) => Some(Const(c))
    case Reference(name, absolute) =>
      if name in w.root then if depth == 0 then None else Eval(w, w.root[name], depth - 1)
      else if !absolute && name in w.alternate then if depth == 0 then None else Some(Const(w.alternate[name]))
      else Some(Const(Undefined))
    case Operation(op, operands) => Play(w, op, operands, [], w.rounds, depth)
    case Call(fn, args) => Play(w, fn, args, [], w.rounds, depth)
    case List(elems) => Some(ListOf(elems))
  }

  function Play(w: World, symbol: string, operands: seq<Expr>, answers: seq<Result>, rounds: nat, depth: nat): Result
    decreases depth, operands, rounds
  {
    match w.strategy(symbol, answers)
    case Yield(c) => Some(Const(c))
    case YieldAnswer(k) => if k < |answers| then answers[k] else None
    case YieldList(pieces) => if Available(pieces, answers) then Some(ListOf(Assembled(pieces, answers))) else None
    case Fail => None
    case AskOperand(i, deeper) =>
      if rounds == 0 || i >= |operands| || (deeper && depth == 0) then None else
      var answer := if deeper then Eval(w, operands[i], depth - 1) else Eval(w, operands[i], depth);
      Play(w, symbol, operands, answers + [answer], rounds - 1, depth)
    case AskElement(k, j) =>
      if rounds == 0 || depth == 0 || !HasElement(answers, k, j) then None else
      Play(w, symbol, operands, answers + [Eval(w, answers[k].value.elems[j], depth - 1)], rounds - 1, depth)
  }

  predicate HasElement(answers: seq<Result>, k: nat, j: nat)
  {
    k < |answers| && answers[k].Some? && answers[k].value.ListOf? && j < |answers[k].value.elems|
  }

  predicate Available(pieces: seq<Piece>, answers: seq<Result>)
  {
    forall i :: 0 <= i < |pieces| && pieces[i].Part? ==> HasElement(answers, pieces[i].answer, pieces[i].index)
  }

  function Assembled(pieces: seq<Piece>, answers: seq<Result>): seq<Expr>
    requires Available(pieces, answers)
  {
    seq(|pieces|, i requires 0 <= i < |pieces| =>
      if pieces[i].Fixed? then Literal(pieces[i].c) else answers[pieces[i].answer].value.elems[pieces[i].index])
  }

  // ---------------------------------------------------------------- the walk

  /** The names found, or None where the walk gives up for depth. */
  function Walk(root: map<Name, Expr>, e: Expr, depth: nat): Option<set<Name>>
    decreases depth, e
  {
    match e
    case Literal(_) => Some({})
    case Reference(name, _) =>
      if name !in root then Some({name})
      else if depth == 0 then None
      else Walk(root, root[name], depth - 1)
    case Operation(_, operands) => WalkAll(root, operands, depth)
    case Call(_, args) => WalkDeeper(root, args, depth)
    case List(elems) => WalkDeeper(root, elems, depth)
  }

  function WalkAll(root: map<Name, Expr>, es: seq<Expr>, depth: nat): Option<set<Name>>
    decreases depth, es
  {
    if es == [] then Some({}) else
    var first := Walk(root, es[0], depth);
    var rest := WalkAll(root, es[1..], depth);
    if first.None? || rest.None? then None else Some(first.value + rest.value)
  }

  /** Arguments and list elements each take one unit of depth. */
  function WalkDeeper(root: map<Name, Expr>, es: seq<Expr>, depth: nat): Option<set<Name>>
    decreases depth, es
  {
    if es == [] then Some({}) else if depth == 0 then None else WalkAll(root, es, depth - 1)
  }

  // ---------------------------------------------------------------- soundness

  /**
   * `e` mentions `n` outside the ad, through at most `hops` attributes of the ad; an absolute reference
   * counts unless `relative` asks for one that looks into the alternate scope.
   */
  predicate Mentions(root: map<Name, Expr>, e: Expr, n: Name, hops: nat, relative: bool)
    decreases hops, e
  {
    match e
    case Literal(_) => false
    case Reference(name, absolute) =>
      if name in root then hops > 0 && Mentions(root, root[name], n, hops - 1, relative)
      else name == n && !(relative && absolute)
    case Operation(_, operands) => exists i :: 0 <= i < |operands| && Mentions(root, operands[i], n, hops, relative)
    case Call(_, args) => exists i :: 0 <= i < |args| && Mentions(root, args[i], n, hops, relative)
    case List(elems) => exists i :: 0 <= i < |elems| && Mentions(root, elems[i], n, hops, relative)
  }

  /** Everything that `e` can look up in the alternate scope is among `refs`. */
  ghost predicate Covered(root: map<Name, Expr>, refs: iset<Name>, e: Expr)
  {
    forall n, hops: nat :: Mentions(root, e, n, hops, true) ==> n in refs
  }

  ghost predicate CoveredResult(root: map<Name, Expr>, refs: iset<Name>, r: Result)
  {
    r.Some? && r.value.ListOf? ==> forall i :: 0 <= i < |r.value.elems| ==> Covered(root, refs, r.value.elems[i])
  }

  /** The operands of an operator, the arguments of a function or the elements of a list. */
  function Parts(e: Expr): seq<Expr>
  {
    match e
    case Operation(_, operands) => operands
    case Call(_, args) => args
    case List(elems) => elems
    case _ => []
  }

  lemma PartsCovered(root: map<Name, Expr>, refs: iset<Name>, e: Expr, i: nat)
    requires Covered(root, refs, e) && i < |Parts(e)|
    ensures Covered(root, refs, Parts(e)[i])
  {
    forall n, hops: nat | Mentions(root, Parts(e)[i], n, hops, true)
      ensures n in refs
    {
      assert Mentions(root, e, n, hops, true);
    }
  }

  lemma TargetCovered(root: map<Name, Expr>, refs: iset<Name>, e: Expr)
    requires Covered(root, refs, e) && e.Reference?
    ensures if e.name in root then Covered(root, refs, root[e.name]) else e.absolute || e.name in refs
  {
    if e.name in root {
      forall n, hops: nat | Mentions(root, root[e.name], n, hops, true)
        ensures n in refs
      {
        assert Mentions(root, e, n, hops + 1, true);
      }
    } else if !e.absolute {
      assert Mentions(root, e, e.name, 0, true);
    }
  }

  lemma LiteralCovered(root: map<Name, Expr>, refs: iset<Name>, c: Constant)
    ensures Covered(root, refs, Literal(c))
  {
  }

  /** Two worlds that differ only in their alternate scopes, and there not on `refs`. */
  ghost predicate Alike(w: World, v: World, refs: iset<Name>)
  {
    && w.root == v.root && w.strategy == v.strategy && w.rounds == v.rounds
    && forall n :: n in refs ==> (n in w.alternate <==> n in v.alternate)
                                 && (n in w.alternate && n in v.alternate ==> w.alternate[n] == v.alternate[n])
  }

  lemma {:induction false} EvalAgrees(w: World, v: World, refs: iset<Name>, e: Expr, depth: nat)
    requires Alike(w, v, refs) && Covered(w.root, refs, e)
    ensures Eval(w, e, depth) == Eval(v, e, depth)
    ensures CoveredResult(w.root, refs, Eval(w, e, depth))
    decreases depth, e, 0
  {
    hide Mentions, Play;
    match e
    case Literal(c) =>
    case Reference(name, absolute) =>
      TargetCovered(w.root, refs, e);
      if name in w.root && depth > 0 {
        EvalAgrees(w, v, refs, w.root[name], depth - 1);
      }
    case Operation(op, operands) =>
      AllPartsCovered(w.root, refs, e);
      assert Parts(e) == operands;
      PlayAgrees(w, v, refs, op, operands, [], w.rounds, depth);
    case Call(fn, args) =>
      AllPartsCovered(w.root, refs, e);
      assert Parts(e) == args;
      PlayAgrees(w, v, refs, fn, args, [], w.rounds, depth);
    case List(elems) =>
      AllPartsCovered(w.root, refs, e);
      assert Parts(e) == elems;
  }

  lemma AllPartsCovered(root: map<Name, Expr>, refs: iset<Name>, e: Expr)
    requires Covered(root, refs, e)
    ensures forall i :: 0 <= i < |Parts(e)| ==> Covered(root, refs, Parts(e)[i])
  {
    forall i | 0 <= i < |Parts(e)|
      ensures Covered(root, refs, Parts(e)[i])
    {
      PartsCovered(root, refs, e, i);
    }
  }

  lemma AssembledCovered(root: map<Name, Expr>, refs: iset<Name>, pieces: seq<Piece>, answers: seq<Result>)
    requires Available(pieces, answers)
    requires forall k :: 0 <= k < |answers| ==> CoveredResult(root, refs, answers[k])
    ensures CoveredResult(root, refs, Some(ListOf(Assembled(pieces, answers))))
  {
    forall i | 0 <= i < |pieces|
      ensures Covered(root, refs, Assembled(pieces, answers)[i])
    {
      if pieces[i].Fixed? {
        LiteralCovered(root, refs, pieces[i].c);
      }
    }
  }

  lemma {:induction false} PlayAgrees(
      w: World, v: World, refs: iset<Name>, symbol: string, operands: seq<Expr>, answers: seq<Result>,
      rounds: nat, depth: nat)
    requires Alike(w, v, refs)
    requires forall i :: 0 <= i < |operands| ==> Covered(w.root, refs, operands[i])
    requires forall k :: 0 <= k < |answers| ==> CoveredResult(w.root, refs, answers[k])
    ensures Play(w, symbol, operands, answers, rounds, depth) == Play(v, symbol, operands, answers, rounds, depth)
    ensures CoveredResult(w.root, refs, Play(w, symbol, operands, answers, rounds, depth))
    decreases depth, operands, rounds
  {
    hide Mentions, Eval, Covered;
    match w.strategy(symbol, answers)
    case YieldList(pieces) =>
      if Available(pieces, answers) {
        AssembledCovered(w.root, refs, pieces, answers);
      }
    case AskOperand(i, deeper) =>
      if rounds > 0 && i < |operands| && !(deeper && depth == 0) {
        var d := if deeper then depth - 1 else depth;
        EvalAgrees(w, v, refs, operands[i], d);
        PlayAgrees(w, v, refs, symbol, operands, answers + [Eval(w, operands[i], d)], rounds - 1, depth);
      }
    case AskElement(k, j) =>
      if rounds > 0 && depth > 0 && HasElement(answers, k, j) {
        var element := answers[k].value.elems[j];
        assert CoveredResult(w.root, refs, answers[k]);
        EvalAgrees(w, v, refs, element, depth - 1);
        PlayAgrees(w, v, refs, symbol, operands, answers + [Eval(w, element, depth - 1)], rounds - 1, depth);
      }
    case _ =>
  }

  /** `e` mentions `n` outside the ad, through any number of its attributes. */
  ghost predicate Reaches(root: map<Name, Expr>, e: Expr, n: Name, relative: bool)
  {
    exists hops: nat :: Mentions(root, e, n, hops, relative)
  }

  /** Evaluation depends only on names that relative references reach, whatever the operators do. */
  lemma OnlyReachedMatter(w: World, v: World, e: Expr, depth: nat)
    requires Alike(w, v, iset n | Reaches(w.root, e, n, true))
    ensures Eval(w, e, depth) == Eval(v, e, depth)
  {
    var refs := iset n | Reaches(w.root, e, n, true);
    forall n, hops: nat | Mentions(w.root, e, n, hops, true)
      ensures n in refs
    {
      assert Reaches(w.root, e, n, true);
    }
    EvalAgrees(w, v, refs, e, depth);
  }

  // ---------------------------------------------------------------- exactness

  lemma {:induction false} WalkAllIff(root: map<Name, Expr>, es: seq<Expr>, depth: nat, n: Name)
    requires WalkAll(root, es, depth).Some?
    ensures forall i :: 0 <= i < |es| ==> Walk(root, es[i], depth).Some?
    ensures n in WalkAll(root, es, depth).value <==> exists i :: 0 <= i < |es| && n in Walk(root, es[i], depth).value
    decreases |es|
  {
    if es != [] {
      var rest := es[1..];
      WalkAllIff(root, rest, depth, n);
      forall i | 0 <= i < |es|
        ensures Walk(root, es[i], depth).Some?
      {
        if i > 0 {
          assert es[i] == rest[i - 1];
        }
      }
      if exists i :: 0 <= i < |rest| && n in Walk(root, rest[i], depth).value {
        var i :| 0 <= i < |rest| && n in Walk(root, rest[i], depth).value;
        assert es[i + 1] == rest[i];
      }
      if exists i :: 0 <= i < |es| && n in Walk(root, es[i], depth).value {
        var i :| 0 <= i < |es| && n in Walk(root, es[i], depth).value;
        if i > 0 {
          assert rest[i - 1] == es[i];
        }
      }
    }
  }

  /** What the walk returns is mentioned. */
  lemma {:induction false} WalkMentions(root: map<Name, Expr>, e: Expr, depth: nat, n: Name)
    requires Walk(root, e, depth).Some? && n in Walk(root, e, depth).value
    ensures Mentions(root, e, n, depth, false)
    decreases depth, e
  {
    match e
    case Reference(name, _) =>
      if name in root {
        WalkMentions(root, root[name], depth - 1, n);
      }
    case Operation(_, operands) =>
      WalkAllIff(root, operands, depth, n);
      var i :| 0 <= i < |operands| && n in Walk(root, operands[i], depth).value;
      WalkMentions(root, operands[i], depth, n);
    case Call(_, args) =>
      WalkAllIff(root, args, depth - 1, n);
      var i :| 0 <= i < |args| && n in Walk(root, args[i], depth - 1).value;
      WalkMentions(root, args[i], depth - 1, n);
      MoreHops(root, args[i], n, depth - 1);
    case List(elems) =>
      WalkAllIff(root, elems, depth - 1, n);
      var i :| 0 <= i < |elems| && n in Walk(root, elems[i], depth - 1).value;
      WalkMentions(root, elems[i], depth - 1, n);
      MoreHops(root, elems[i], n, depth - 1);
  }

  lemma {:induction false} MoreHops(root: map<Name, Expr>, e: Expr, n: Name, hops: nat)
    requires Mentions(root, e, n, hops, false)
    ensures Mentions(root, e, n, hops + 1, false)
    decreases hops, e
  {
    match e
    case Reference(name, _) =>
      if name in root {
        MoreHops(root, root[name], n, hops - 1);
      }
    case Operation(_, operands) =>
      var i :| 0 <= i < |operands| && Mentions(root, operands[i], n, hops, false);
      MoreHops(root, operands[i], n, hops);
    case Call(_, args) =>
      var i :| 0 <= i < |args| && Mentions(root, args[i], n, hops, false);
      MoreHops(root, args[i], n, hops);
    case List(elems) =>
      var i :| 0 <= i < |elems| && Mentions(root, elems[i], n, hops, false);
      MoreHops(root, elems[i], n, hops);
  }

  /** What is mentioned, through however many attributes, a successful walk returns. */
  lemma {:induction false} MentionsWalked(root: map<Name, Expr>, e: Expr, depth: nat, n: Name, hops: nat,
        relative: bool)
    requires Walk(root, e, depth).Some? && Mentions(root, e, n, hops, relative)
    ensures n in Walk(root, e, depth).value
    decreases hops, e
  {
    match e
    case Reference(name, _) =>
      if name in root {
        MentionsWalked(root, root[name], depth - 1, n, hops - 1, relative);
      }
    case Operation(_, operands) =>
      var i :| 0 <= i < |operands| && Mentions(root, operands[i], n, hops, relative);
      WalkAllIff(root, operands, depth, n);
      MentionsWalked(root, operands[i], depth, n, hops, relative);
    case Call(_, args) =>
      var i :| 0 <= i < |args| && Mentions(root, args[i], n, hops, relative);
      WalkAllIff(root, args, depth - 1, n);
      MentionsWalked(root, args[i], depth - 1, n, hops, relative);
    case List(elems) =>
      var i :| 0 <= i < |elems| && Mentions(root, elems[i], n, hops, relative);
      WalkAllIff(root, elems, depth - 1, n);
      MentionsWalked(root, elems[i], depth - 1, n, hops, relative);
  }

  /** A successful walk returns exactly the names that the expression can reach outside the ad. */
  lemma ReferencesExact(root: map<Name, Expr>, e: Expr, depth: nat, n: Name)
    requires Walk(root, e, depth).Some?
    ensures n in Walk(root, e, depth).value <==> Reaches(root, e, n, false)
  {
    if n in Walk(root, e, depth).value {
      WalkMentions(root, e, depth, n);
    }
    if Reaches(root, e, n, false) {
      var hops: nat :| Mentions(root, e, n, hops, false);
      MentionsWalked(root, e, depth, n, hops, false);
    }
  }

  /**
   * If the walk succeeds, alternate scopes that agree on the names it returned give the same
   * evaluation, whatever the operators and functions do and whatever depth is left.
   */
  lemma ReferencesSound(w: World, v: World, e: Expr, walked: nat, depth: nat)
    requires Walk(w.root, e, walked).Some? && Alike(w, v, iset n | n in Walk(w.root, e, walked).value)
    ensures Eval(w, e, depth) == Eval(v, e, depth)
  {
    var refs := iset n | n in Walk(w.root, e, walked).value;
    forall n, hops: nat | Mentions(w.root, e, n, hops, true)
      ensures n in refs
    {
      MentionsWalked(w.root, e, walked, n, hops, true);
    }
    EvalAgrees(w, v, refs, e, depth);
  }

  // ---------------------------------------------------------------- when the walk gives up

  /** Some path into `e` spends `cost` units of depth. */
  predicate Spends(root: map<Name, Expr>, e: Expr, cost: nat)
    decreases cost, e
  {
    if cost == 0 then true else
    match e
    case Literal(_) => false
    case Reference(name, _) => name in root && Spends(root, root[name], cost - 1)
    case Operation(_, operands) => exists i :: 0 <= i < |operands| && Spends(root, operands[i], cost)
    case Call(_, args) => exists i :: 0 <= i < |args| && Spends(root, args[i], cost - 1)
    case List(elems) => exists i :: 0 <= i < |elems| && Spends(root, elems[i], cost - 1)
  }

  lemma {:induction false} WalkAllFailsIff(root: map<Name, Expr>, es: seq<Expr>, depth: nat)
    ensures WalkAll(root, es, depth).None? <==> exists i :: 0 <= i < |es| && Walk(root, es[i], depth).None?
    decreases |es|
  {
    if es != [] {
      var rest := es[1..];
      WalkAllFailsIff(root, rest, depth);
      if exists i :: 0 <= i < |rest| && Walk(root, rest[i], depth).None? {
        var i :| 0 <= i < |rest| && Walk(root, rest[i], depth).None?;
        assert es[i + 1] == rest[i];
      }
      if exists i :: 0 <= i < |es| && Walk(root, es[i], depth).None? {
        var i :| 0 <= i < |es| && Walk(root, es[i], depth).None?;
        if i > 0 {
          assert rest[i - 1] == es[i];
        }
      }
    }
  }

  /** The walk gives up exactly if some path spends more depth than there is. */
  lemma {:induction false} WalkFailsIff(root: map<Name, Expr>, e: Expr, depth: nat)
    ensures Walk(root, e, depth).None? <==> Spends(root, e, depth + 1)
    decreases depth, e
  {
    match e
    case Literal(_) =>
    case Reference(name, _) =>
      if name in root && depth > 0 {
        WalkFailsIff(root, root[name], depth - 1);
      }
    case Operation(_, operands) =>
      WalkAllFailsIff(root, operands, depth);
      forall i | 0 <= i < |operands|
        ensures Walk(root, operands[i], depth).None? <==> Spends(root, operands[i], depth + 1)
      {
        WalkFailsIff(root, operands[i], depth);
      }
    case Call(_, args) =>
      DeeperFailsIff(root, args, depth);
    case List(elems) =>
      DeeperFailsIff(root, elems, depth);
  }

  lemma {:induction false} DeeperFailsIff(root: map<Name, Expr>, es: seq<Expr>, depth: nat)
    ensures WalkDeeper(root, es, depth).None? <==> exists i :: 0 <= i < |es| && Spends(root, es[i], depth)
    decreases depth, es
  {
    if depth == 0 {
      if es != [] {
        assert Spends(root, es[0], 0);
      }
    } else {
      WalkAllFailsIff(root, es, depth - 1);
      forall i | 0 <= i < |es|
        ensures Walk(root, es[i], depth - 1).None? <==> Spends(root, es[i], depth)
      {
        WalkFailsIff(root, es[i], depth - 1);
      }
    }
  }

  /** `e` holds a reference to `n`. */
  predicate Refers(e: Expr, n: Name)
  {
    match e
    case Literal(_) => false
    case Reference(name, _) => name == n
    case Operation(_, operands) => exists i :: 0 <= i < |operands| && Refers(operands[i], n)
    case Call(_, args) => exists i :: 0 <= i < |args| && Refers(args[i], n)
    case List(elems) => exists i :: 0 <= i < |elems| && Refers(elems[i], n)
  }

  ghost predicate Cycle(root: map<Name, Expr>, ns: seq<Name>)
  {
    ns != [] && forall i :: 0 <= i < |ns| ==> ns[i] in root && Refers(root[ns[i]], ns[(i + 1) % |ns|])
  }

  /** A path that spends `cost` from an attribute spends it from any expression that refers to it. */
  lemma {:induction false} SpendsThrough(root: map<Name, Expr>, e: Expr, n: Name, cost: nat)
    requires Refers(e, n) && n in root && Spends(root, root[n], cost)
    ensures Spends(root, e, cost + 1)
    decreases e
  {
    match e
    case Reference(name, _) =>
    case Operation(_, operands) =>
      var i :| 0 <= i < |operands| && Refers(operands[i], n);
      SpendsThrough(root, operands[i], n, cost);
    case Call(_, args) =>
      var i :| 0 <= i < |args| && Refers(args[i], n);
      SpendsThrough(root, args[i], n, cost);
      SpendsLess(root, args[i], cost);
    case List(elems) =>
      var i :| 0 <= i < |elems| && Refers(elems[i], n);
      SpendsThrough(root, elems[i], n, cost);
      SpendsLess(root, elems[i], cost);
  }

  lemma {:induction false} SpendsLess(root: map<Name, Expr>, e: Expr, cost: nat)
    requires Spends(root, e, cost + 1)
    ensures Spends(root, e, cost)
    decreases cost, e
  {
    if cost > 0 {
      match e
      case Reference(name, _) =>
        SpendsLess(root, root[name], cost - 1);
      case Operation(_, operands) =>
        var i :| 0 <= i < |operands| && Spends(root, operands[i], cost + 1);
        SpendsLess(root, operands[i], cost);
      case Call(_, args) =>
        var i :| 0 <= i < |args| && Spends(root, args[i], cost);
        SpendsLess(root, args[i], cost - 1);
      case List(elems) =>
        var i :| 0 <= i < |elems| && Spends(root, elems[i], cost);
        SpendsLess(root, elems[i], cost - 1);
    }
  }

  lemma {:induction false} CycleSpends(root: map<Name, Expr>, ns: seq<Name>, i: nat, cost: nat)
    requires Cycle(root, ns) && i < |ns|
    ensures Spends(root, root[ns[i]], cost)
    decreases cost
  {
    if cost > 0 {
      var next := (i + 1) % |ns|;
      CycleSpends(root, ns, next, cost - 1);
      SpendsThrough(root, root[ns[i]], ns[next], cost - 1);
    }
  }

  /** On a cycle of attributes the walk ends, and gives up, at every depth. */
  lemma CyclesAreRefused(root: map<Name, Expr>, ns: seq<Name>, i: nat, absolute: bool, depth: nat)
    requires Cycle(root, ns) && i < |ns|
    ensures Walk(root, Reference(ns[i], absolute), depth).None?
  {
    CycleSpends(root, ns, i, depth);
    WalkFailsIff(root, Reference(ns[i], absolute), depth);
  }

  // ---------------------------------------------------------------- the walk as it runs

  const MAX_CLASSAD_RECURSION := 400

  class EvalState {
    const root: map<Name, Expr>
    var depthRemaining: int
    var refs: set<Name>

    constructor (root: map<Name, Expr>)
      ensures this.root == root && depthRemaining == MAX_CLASSAD_RECURSION && refs == {}
    {
      this.root := root;
      depthRemaining, refs := MAX_CLASSAD_RECURSION, {};
    }

    /** Collects names, and leaves the depth as it found it. */
    method GetExternalReferences(e: Expr) returns (ok: bool)
      requires depthRemaining >= 0
      modifies this
      ensures depthRemaining == old(depthRemaining) && old(refs) <= refs
      ensures ok <==> Walk(root, e, depthRemaining).Some?
      ensures ok ==> refs == old(refs) + Walk(root, e, depthRemaining).value
      decreases depthRemaining, e, 0
    {
      match e
      case Literal(_) =>
        return true;
      case Reference(name, _) =>
        if name !in root {
          refs := refs + {name};
          return true;
        }
        if depthRemaining <= 0 {
          return false;
        }
        depthRemaining := depthRemaining - 1;
        ok := GetExternalReferences(root[name]);
        depthRemaining := depthRemaining + 1;
      case Operation(_, operands) =>
        ok := WalkOperands(operands);
      case Call(_, args) =>
        ok := WalkArguments(args);
      case List(elems) =>
        ok := WalkArguments(elems);
    }

    method WalkOperands(es: seq<Expr>) returns (ok: bool)
      requires depthRemaining >= 0
      modifies this
      ensures depthRemaining == old(depthRemaining) && old(refs) <= refs
      ensures ok <==> WalkAll(root, es, depthRemaining).Some?
      ensures ok ==> refs == old(refs) + WalkAll(root, es, depthRemaining).value
      decreases depthRemaining, es, |es|
    {
      for i := 0 to |es|
        invariant depthRemaining == old(depthRemaining) && old(refs) <= refs
        invariant WalkAll(root, es[..i], depthRemaining).Some?
        invariant refs == old(refs) + WalkAll(root, es[..i], depthRemaining).value
      {
        ok := GetExternalReferences(es[i]);
        WalkAllSplits(root, es[..i], es[i..], depthRemaining);
        WalkAllSplits(root, es[..i], [es[i]], depthRemaining);
        assert es[..i] + es[i..] == es && es[..i] + [es[i]] == es[..i + 1];
        if !ok {
          return;
        }
      }
      assert es[..|es|] == es;
      return true;
    }

    method WalkArguments(es: seq<Expr>) returns (ok: bool)
      requires depthRemaining >= 0
      modifies this
      ensures depthRemaining == old(depthRemaining) && old(refs) <= refs
      ensures ok <==> WalkDeeper(root, es, depthRemaining).Some?
      ensures ok ==> refs == old(refs) + WalkDeeper(root, es, depthRemaining).value
      decreases depthRemaining, es, |es|
    {
      for i := 0 to |es|
        invariant depthRemaining == old(depthRemaining) && old(refs) <= refs
        invariant i > 0 ==> depthRemaining > 0
        invariant WalkDeeper(root, es[..i], depthRemaining).Some?
        invariant refs == old(refs) + WalkDeeper(root, es[..i], depthRemaining).value
      {
        if depthRemaining <= 0 {
          return false;
        }
        depthRemaining := depthRemaining - 1;
        ok := GetExternalReferences(es[i]);
        WalkAllSplits(root, es[..i], es[i..], depthRemaining);
        WalkAllSplits(root, es[..i], [es[i]], depthRemaining);
        assert es[..i] + es[i..] == es && es[..i] + [es[i]] == es[..i + 1];
        depthRemaining := depthRemaining + 1;
        if !ok {
          return;
        }
      }
      assert es[..|es|] == es;
      return true;
    }
  }

  lemma {:induction false} WalkAllSplits(root: map<Name, Expr>, a: seq<Expr>, b: seq<Expr>, depth: nat)
    ensures WalkAll(root, a + b, depth).Some? <==> WalkAll(root, a, depth).Some? && WalkAll(root, b, depth).Some?
    ensures WalkAll(root, a + b, depth).Some? ==>
              WalkAll(root, a + b, depth).value == WalkAll(root, a, depth).value + WalkAll(root, b, depth).value
    decreases |a|
  {
    if a == [] {
      assert a + b == b;
    } else {
      assert (a + b)[0] == a[0] && (a + b)[1..] == a[1..] + b;
      WalkAllSplits(root, a[1..], b, depth);
    }
  }
}
