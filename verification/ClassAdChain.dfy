/**
 * Chained ClassAds: a child ad that shows its parents' attributes where it has none of its
 * own, compared with a flat copy of the whole chain under the same operations.
 */
module ClassAdChain {
  import opened Common

  // ---------------------------------------------------------------- expressions

  /** Expression trees.  Attribute names are taken folded to one case, as the attribute lists compare them. */
  datatype Expr =
    | Undefined
    | Error
    | Boolean(b: bool)
    | Integer(i: int)
    | Real(r: real)
    | RelTime(t: real)
    | AbsTime(secs: int, offset: int)
    | Text(s: string)
    | Reference(scope: Option<Expr>, name: string, absolute: bool)
    | Operation(op: int, operands: seq<Expr>)
    | Call(function_: string, args: seq<Expr>)
    | List(elems: seq<Expr>)
    | Ad(attrs: map<string, Expr>)

  /** The distance between 1.0 and the next double. */
  const EPSILON: real := 1.0 / 4503599627370496.0

  predicate Near(x: real, y: real)
  {
    -EPSILON <= x - y <= EPSILON
  }

  predicate SameAs(a: Expr, b: Expr)
    decreases a
  {
    match a
    case Real(r) => b.Real? && Near(b.r, r)
    case RelTime(t) => b.RelTime? && Near(b.t, t)
    case Reference(None, name, absolute) => b == a
    case Reference(Some(scope), name, absolute) =>
      b.Reference? && b.name == name && b.absolute == absolute && b.scope.Some? && SameAs(scope, b.scope.value)
    case Operation(op, operands) => b.Operation? && b.op == op && SameAll(operands, b.operands)
    case Call(fn, args) => b.Call? && b.function_ == fn && SameAll(args, b.args)
    case List(elems) => b.List? && SameAll(elems, b.elems)
    case Ad(attrs) =>
      b.Ad? && |attrs| == |b.attrs| && forall n :: n in attrs ==> n in b.attrs && SameAs(attrs[n], b.attrs[n])
    case _ => b == a
  }

  predicate SameAll(a: seq<Expr>, b: seq<Expr>)
    decreases a
  {
    |a| == |b| && forall i :: 0 <= i < |a| ==> SameAs(a[i], b[i])
  }

  lemma {:induction false} SameAsItself(a: Expr)
    ensures SameAs(a, a)
    decreases a
  {
    match a
    case Reference(Some(scope), _, _) => SameAsItself(scope);
    case Operation(_, operands) => SameAllItself(operands);
    case Call(_, args) => SameAllItself(args);
    case List(elems) => SameAllItself(elems);
    case Ad(attrs) =>
      forall n | n in attrs
        ensures SameAs(attrs[n], attrs[n])
      {
        SameAsItself(attrs[n]);
      }
    case _ =>
  }

  lemma {:induction false} SameAllItself(a: seq<Expr>)
    ensures SameAll(a, a)
    decreases a
  {
    forall i | 0 <= i < |a|
      ensures SameAs(a[i], a[i])
    {
      SameAsItself(a[i]);
    }
  }

  // ---------------------------------------------------------------- what the comparison says

  /** Where a tree has its subtrees. */
  datatype Place = Scope | Part(i: nat) | Attr(name: string)

  function Child(e: Expr, place: Place): (c: Option<Expr>)
    ensures c.Some? ==> c.value < e
  {
    match place
    case Scope => if e.Reference? then e.scope else None
    case Part(i) =>
      if e.Operation? && i < |e.operands| then Some(e.operands[i])
      else if e.Call? && i < |e.args| then Some(e.args[i])
      else if e.List? && i < |e.elems| then Some(e.elems[i])
      else None
    case Attr(name) => if e.Ad? && name in e.attrs then Some(e.attrs[name]) else None
  }

  /** The subtree at the end of a path. */
  function At(e: Expr, path: seq<Place>): Option<Expr>
    decreases |path|
  {
    if path == [] then Some(e) else
    var c := Child(e, path[0]);
    if c.Some? then At(c.value, path[1..]) else None
  }

  /** A node without its subtrees. */
  function Head(e: Expr): Expr
  {
    match e
    case Reference(_, name, absolute) => Reference(None, name, absolute)
    case Operation(op, _) => Operation(op, [])
    case Call(fn, _) => Call(fn, [])
    case List(_) => List([])
    case Ad(_) => Ad(map[])
    case _ => e
  }

  /** Two nodes, or none: equal, but for reals and relative times, which may be EPSILON apart. */
  predicate SameNode(x: Option<Expr>, y: Option<Expr>)
  {
    && (x.Some? <==> y.Some?)
    && (x.Some? && y.Some? ==>
        if x.value.Real? && y.value.Real? then -EPSILON <= x.value.r - y.value.r <= EPSILON
        else if x.value.RelTime? && y.value.RelTime? then -EPSILON <= x.value.t - y.value.t <= EPSILON
        else Head(x.value) == Head(y.value))
  }

  ghost predicate SameChild(a: Expr, b: Expr, place: Place)
  {
    var x, y := Child(a, place), Child(b, place);
    (x.Some? <==> y.Some?) && (x.Some? && y.Some? ==> SameAs(x.value, y.value))
  }

  lemma SameKeys(a: map<string, Expr>, b: map<string, Expr>)
    requires |a| == |b| && forall n :: n in a ==> n in b
    ensures a.Keys == b.Keys
  {
    assert |a.Keys| == |b.Keys| && a.Keys <= b.Keys;
    Full(a.Keys, b.Keys);
  }

  lemma Full(a: set<string>, b: set<string>)
    requires a <= b && |a| == |b|
    ensures a == b
  {
    assert b == a + (b - a);
  }

  lemma ChildrenSame(a: Expr, b: Expr)
    requires SameAs(a, b)
    ensures SameNode(Some(a), Some(b)) && forall place :: SameChild(a, b, place)
  {
    forall place
      ensures SameChild(a, b, place)
    {
      ChildSame(a, b, place);
    }
    hide SameChild;
  }

  lemma ChildSame(a: Expr, b: Expr, place: Place)
    requires SameAs(a, b)
    ensures SameChild(a, b, place)
  {
    hide SameAs, SameChild;
    match place
    case Scope => ScopeSame(a, b);
    case Part(i) => PartSame(a, b, i);
    case Attr(name) => AttrSame(a, b, name);
  }

  lemma ScopeSame(a: Expr, b: Expr)
    requires SameAs(a, b)
    ensures SameChild(a, b, Scope)
  {
    hide Near;
    if !a.Reference? {
      assert !b.Reference?;
    }
  }

  lemma PartSame(a: Expr, b: Expr, i: nat)
    requires SameAs(a, b)
    ensures SameChild(a, b, Part(i))
  {
    hide Near;
    if a.Operation? {
      assert SameAll(a.operands, b.operands);
    } else if a.Call? {
      assert SameAll(a.args, b.args);
    } else if a.List? {
      assert SameAll(a.elems, b.elems);
    } else {
      assert !b.Operation? && !b.Call? && !b.List?;
    }
  }

  lemma AttrSame(a: Expr, b: Expr, name: string)
    requires SameAs(a, b)
    ensures SameChild(a, b, Attr(name))
  {
    hide Near;
    if a.Ad? {
      SameKeys(a.attrs, b.attrs);
    } else {
      assert !b.Ad?;
    }
  }

  lemma SameByChildren(a: Expr, b: Expr)
    requires SameNode(Some(a), Some(b)) && forall place :: SameChild(a, b, place)
    ensures SameAs(a, b)
  {
    match a
    case Reference(_, _, _) => assert SameChild(a, b, Scope);
    case Operation(_, operands) => SameParts(a, b, operands, b.operands);
    case Call(_, args) => SameParts(a, b, args, b.args);
    case List(elems) => SameParts(a, b, elems, b.elems);
    case Ad(attrs) =>
      forall n
        ensures n in attrs <==> n in b.attrs
        ensures n in attrs && n in b.attrs ==> SameAs(attrs[n], b.attrs[n])
      {
        assert SameChild(a, b, Attr(n));
      }
      assert attrs.Keys == b.attrs.Keys;
      assert |attrs| == |attrs.Keys| && |b.attrs| == |b.attrs.Keys|;
    case _ =>
  }

  lemma SameParts(a: Expr, b: Expr, x: seq<Expr>, y: seq<Expr>)
    requires forall place :: SameChild(a, b, place)
    requires forall i: nat :: Child(a, Part(i)) == if i < |x| then Some(x[i]) else None
    requires forall i: nat :: Child(b, Part(i)) == if i < |y| then Some(y[i]) else None
    ensures SameAll(x, y)
  {
    assert SameChild(a, b, Part(|x|)) && SameChild(a, b, Part(|y|));
    forall i | 0 <= i < |x| && i < |y|
      ensures SameAs(x[i], y[i])
    {
      assert SameChild(a, b, Part(i));
    }
  }

  lemma {:induction false} SameEverywhere(a: Expr, b: Expr, path: seq<Place>)
    requires SameAs(a, b)
    ensures SameNode(At(a, path), At(b, path))
    decreases |path|
  {
    hide SameAs, Child;
    ChildrenSame(a, b);
    if path != [] {
      assert SameChild(a, b, path[0]);
      if Child(a, path[0]).Some? {
        SameEverywhere(Child(a, path[0]).value, Child(b, path[0]).value, path[1..]);
      }
    }
  }

  lemma {:induction false} SameIfEverywhere(a: Expr, b: Expr)
    requires forall path :: SameNode(At(a, path), At(b, path))
    ensures SameAs(a, b)
    decreases a
  {
    hide SameAs, SameNode;
    forall place
      ensures SameChild(a, b, place)
    {
      ChildAt(a, b, place);
      if Child(a, place).Some? {
        var x, y := Child(a, place).value, Child(b, place).value;
        forall path
          ensures SameNode(At(x, path), At(y, path))
        {
          Deeper(a, place, path);
          Deeper(b, place, path);
          assert SameNode(At(a, [place] + path), At(b, [place] + path));
        }
        SameIfEverywhere(x, y);
      }
    }
    assert SameNode(At(a, []), At(b, []));
    SameByChildren(a, b);
  }

  lemma ChildAt(a: Expr, b: Expr, place: Place)
    requires forall path :: SameNode(At(a, path), At(b, path))
    ensures Child(a, place).Some? <==> Child(b, place).Some?
  {
    Deeper(a, place, []);
    Deeper(b, place, []);
    assert SameNode(At(a, [place] + []), At(b, [place] + []));
  }

  lemma Deeper(e: Expr, place: Place, path: seq<Place>)
    ensures At(e, [place] + path) == if Child(e, place).Some? then At(Child(e, place).value, path) else None
  {
    hide Child;
    assert ([place] + path)[0] == place && ([place] + path)[1..] == path;
  }

  /** The same nodes at the same places, but for reals and relative times, which may be EPSILON apart. */
  ghost predicate SameNodes(a: Expr, b: Expr)
  {
    forall path :: SameNode(At(a, path), At(b, path))
  }

  lemma SameAsIff(a: Expr, b: Expr)
    ensures SameAs(a, b) <==> SameNodes(a, b)
  {
    hide SameAs, SameNode, At;
    if SameAs(a, b) {
      forall path
        ensures SameNode(At(a, path), At(b, path))
      {
        SameEverywhere(a, b, path);
      }
    }
    if SameNodes(a, b) {
      SameIfEverywhere(a, b);
    }
  }

  /** No real and no relative time anywhere. */
  ghost predicate Exact(e: Expr)
  {
    forall path :: At(e, path).Some? ==> !At(e, path).value.Real? && !At(e, path).value.RelTime?
  }

  lemma ExactParts(e: Expr, place: Place)
    requires Exact(e) && Child(e, place).Some?
    ensures Exact(Child(e, place).value)
  {
    forall path | At(Child(e, place).value, path).Some?
      ensures var x := At(Child(e, place).value, path).value; !x.Real? && !x.RelTime?
    {
      Deeper(e, place, path);
      assert At(e, [place] + path).Some?;
    }
  }

  lemma {:induction false} SameIsEqual(a: Expr, b: Expr)
    requires Exact(a) && SameAs(a, b)
    ensures a == b
    decreases a
  {
    forall place | Child(a, place).Some?
      ensures Child(a, place) == Child(b, place)
    {
      ChildrenSame(a, b);
      assert SameChild(a, b, place);
      ExactParts(a, place);
      SameIsEqual(Child(a, place).value, Child(b, place).value);
    }
    assert At(a, []) == Some(a);
    EqualByChildren(a, b);
  }

  lemma EqualByChildren(a: Expr, b: Expr)
    requires SameAs(a, b) && !a.Real? && !a.RelTime?
    requires forall place :: Child(a, place).Some? ==> Child(a, place) == Child(b, place)
    ensures a == b
  {
    match a
    case Reference(Some(_), _, _) => assert Child(a, Scope) == Child(b, Scope);
    case Operation(_, operands) => EqualParts(a, b, operands, b.operands);
    case Call(_, args) => EqualParts(a, b, args, b.args);
    case List(elems) => EqualParts(a, b, elems, b.elems);
    case Ad(attrs) => EqualAttrs(a, b);
    case _ =>
  }

  lemma EqualAttrs(a: Expr, b: Expr)
    requires SameAs(a, b) && a.Ad?
    requires forall place :: Child(a, place).Some? ==> Child(a, place) == Child(b, place)
    ensures a == b
  {
    SameKeys(a.attrs, b.attrs);
    hide SameAs;
    forall n | n in a.attrs
      ensures a.attrs[n] == b.attrs[n]
    {
      assert Child(a, Attr(n)) == Child(b, Attr(n));
    }
    assert a.attrs == b.attrs;
  }

  lemma EqualParts(a: Expr, b: Expr, x: seq<Expr>, y: seq<Expr>)
    requires |x| == |y|
    requires forall place :: Child(a, place).Some? ==> Child(a, place) == Child(b, place)
    requires forall i: nat :: i < |x| ==> Child(a, Part(i)) == Some(x[i]) && Child(b, Part(i)) == Some(y[i])
    ensures x == y
  {
    forall i: nat | i < |x|
      ensures x[i] == y[i]
    {
      assert Child(a, Part(i)) == Child(b, Part(i));
    }
  }

  /** Without reals and relative times the comparison is equality. */
  lemma SameAsIsEquality(a: Expr, b: Expr)
    requires Exact(a)
    ensures SameAs(a, b) <==> a == b
  {
    SameAsItself(a);
    if SameAs(a, b) {
      SameIsEqual(a, b);
    }
  }

  /** The comparison of reals is too lenient to be transitive. */
  lemma SameAsIsNotTransitive()
    ensures exists a, b, c :: SameAs(a, b) && SameAs(b, c) && !SameAs(a, c)
  {
    var a, b, c := Real(0.0), Real(EPSILON), Real(2.0 * EPSILON);
    assert SameAs(a, b) && SameAs(b, c) && !SameAs(a, c);
  }

  // ---------------------------------------------------------------- a child over its parents

  type Attrs = map<string, Expr>

  /** What a chain shows: the nearest ad that has the attribute decides. */
  function Flat(chain: seq<Attrs>): Attrs
  {
    if chain == [] then map[] else Flat(chain[1..]) + chain[0]
  }

  function Get(m: Attrs, name: string): Option<Expr>
  {
    if name in m then Some(m[name]) else None
  }

  datatype Op =
    | Insert(name: string, tree: Option<Expr>)
    | Delete(name: string)
    | Remove(name: string)
    | Prune

  /** The child's own attributes after an operation, where `base` is what its parents show. */
  function Apply(own: Attrs, base: Attrs, op: Op): Attrs
  {
    match op
    case Insert(name, tree) => if name == "" || tree.None? then own else own[name := tree.value]
    case Delete(name) => if name in base then Masked(own - {name}, name) else own - {name}
    case Remove(name) => if name in base then Masked(own - {name}, name) else own - {name}
    case Prune => own - Prunable(own, base)
  }

  /** The parents' attribute is hidden behind an explicit UNDEFINED; no attribute has an empty name. */
  function Masked(own: Attrs, name: string): Attrs
  {
    if name == "" then own else own[name := Undefined]
  }

  function Prunable(own: Attrs, base: Attrs): set<string>
  {
    set n | n in own && n in base && SameAs(base[n], own[n])
  }

  function ApplyAll(own: Attrs, base: Attrs, ops: seq<Op>): Attrs
    decreases |ops|
  {
    if ops == [] then own else ApplyAll(Apply(own, base, ops[0]), base, ops[1..])
  }

  /** An explicit UNDEFINED reads as no attribute. */
  function Read(value: Option<Expr>): Option<Expr>
  {
    if value == Some(Undefined) then None else value
  }

  predicate Agree(chained: Option<Expr>, flat: Option<Expr>)
  {
    if Read(chained).None? then Read(flat).None? else Read(flat).Some? && SameAs(chained.value, flat.value)
  }

  ghost predicate Named(m: Attrs)
  {
    "" !in m
  }

  /**
   * Own attributes are the flat copy's, or masks of attributes it lacks; the parents' attributes
   * that show are the flat copy's up to one comparison.
   */
  ghost predicate Mirrors(own: Attrs, base: Attrs, flat: Attrs)
  {
    && (forall n :: n in own ==> Get(flat, n) == Some(own[n]) || (own[n] == Undefined && n !in flat))
    && (forall n :: n in base && n !in own ==> Agree(Some(base[n]), Get(flat, n)))
    && (forall n :: n in flat ==> n in own || n in base)
  }

  /** A chain shows what its flat copy holds, name by name. */
  lemma MirrorsAgree(own: Attrs, base: Attrs, flat: Attrs, name: string)
    requires Mirrors(own, base, flat)
    ensures Agree(Get(base + own, name), Get(flat, name))
  {
    if name in own {
      SameAsItself(own[name]);
    }
  }

  lemma CopyMirrors(own: Attrs, base: Attrs)
    ensures Mirrors(own, base, base + own)
  {
    forall n | n in base && n !in own
      ensures Agree(Some(base[n]), Get(base + own, n))
    {
      SameAsItself(base[n]);
    }
  }

  lemma PruneMirrors(own: Attrs, base: Attrs, flat: Attrs)
    requires Mirrors(own, base, flat)
    ensures Mirrors(Apply(own, base, Prune), base, flat)
  {
    var now := Apply(own, base, Prune);
    forall n | n in base && n !in now
      ensures Agree(Some(base[n]), Get(flat, n))
    {
      if n in own {
        assert SameAs(base[n], own[n]);
      }
    }
  }

  /** The same operation on the chained ad and on the flat copy. */
  lemma ApplyMirrors(own: Attrs, base: Attrs, flat: Attrs, op: Op)
    requires Mirrors(own, base, flat) && Named(base)
    ensures Mirrors(Apply(own, base, op), base, Apply(flat, map[], op))
  {
    if op.Prune? {
      PruneMirrors(own, base, flat);
      assert Apply(flat, map[], op) == flat;
    }
  }

  lemma {:induction false} RunMirrors(own: Attrs, base: Attrs, flat: Attrs, ops: seq<Op>)
    requires Mirrors(own, base, flat) && Named(base)
    ensures Mirrors(ApplyAll(own, base, ops), base, ApplyAll(flat, map[], ops))
    decreases |ops|
  {
    if ops != [] {
      ApplyMirrors(own, base, flat, ops[0]);
      RunMirrors(Apply(own, base, ops[0]), base, Apply(flat, map[], ops[0]), ops[1..]);
    }
  }

  /**
   * After any operations on the child, every name shows what the same operations leave in the
   * flat copy, reading UNDEFINED as absent and up to SameAs.
   */
  lemma ChainRefinesFlat(chain: seq<Attrs>, ops: seq<Op>, name: string)
    requires chain != [] && Named(Flat(chain[1..]))
    ensures var base := Flat(chain[1..]);
            Agree(Get(base + ApplyAll(chain[0], base, ops), name), Get(ApplyAll(Flat(chain), map[], ops), name))
  {
    var base := Flat(chain[1..]);
    CopyMirrors(chain[0], base);
    RunMirrors(chain[0], base, Flat(chain), ops);
    MirrorsAgree(ApplyAll(chain[0], base, ops), base, ApplyAll(Flat(chain), map[], ops), name);
  }

  // ---------------------------------------------------------------- what the operations do

  /** What a name shows of a child over what its parents show. */
  function Visible(own: Attrs, base: Attrs, name: string): Option<Expr>
  {
    if name in own then Some(own[name]) else Get(base, name)
  }

  lemma InsertShows(own: Attrs, base: Attrs, name: string, tree: Option<Expr>, other: string)
    ensures var now := Apply(own, base, Insert(name, tree));
            Visible(now, base, other) ==
            if other == name && name != "" && tree.Some? then tree else Visible(own, base, other)
  {
  }

  /** A deleted name shows nothing, or an UNDEFINED over the parents' attribute; no other name is touched. */
  lemma DeleteHides(own: Attrs, base: Attrs, name: string, op: Op, other: string)
    requires op in {Delete(name), Remove(name)} && Named(base)
    ensures var now := Apply(own, base, op);
            && Read(Visible(now, base, name)).None?
            && (name in now ==> name in base)
            && (other != name ==> Visible(now, base, other) == Visible(own, base, other))
  {
  }

  /** Pruning drops exactly the own attributes that the parents show just so; every name still shows the same. */
  lemma PruneDropsExactly(own: Attrs, base: Attrs, name: string)
    ensures var now := Apply(own, base, Prune);
            && (name in now <==> name in own && !(name in base && SameNodes(base[name], own[name])))
            && (name in now ==> now[name] == own[name])
            && Agree(Visible(now, base, name), Visible(own, base, name))
  {
    hide SameNodes;
    if name in own {
      SameAsItself(own[name]);
      if name in base {
        SameAsIff(base[name], own[name]);
      }
    } else if name in base {
      SameAsItself(base[name]);
    }
  }

  // ---------------------------------------------------------------- what the operations return

  /** Remove hands out what was visible. */
  lemma RemoveAgrees(own: Attrs, base: Attrs, flat: Attrs, name: string)
    requires Mirrors(own, base, flat)
    ensures Agree(Visible(own, base, name), Visible(flat, map[], name))
  {
    MirrorsAgree(own, base, flat, name);
  }

  /** What Delete reports. */
  predicate Deleted(own: Attrs, base: Attrs, name: string)
  {
    name in own || name in base
  }

  /** The two reports differ exactly if the chain shows an UNDEFINED that stands for no attribute. */
  lemma DeleteAgreesIff(own: Attrs, base: Attrs, flat: Attrs, name: string)
    requires Mirrors(own, base, flat)
    ensures Deleted(own, base, name) == Deleted(flat, map[], name)
            <==> !(Get(base + own, name) == Some(Undefined) && name !in flat)
  {
    MirrorsAgree(own, base, flat, name);
  }

  /** Deleting twice: the chain reports success again, and the flat copy does not. */
  lemma DeleteTwice(base: Attrs, name: string)
    requires name in base && name != ""
    ensures Deleted(Apply(map[], base, Delete(name)), base, name)
    ensures !Deleted(Apply(base, map[], Delete(name)), map[], name)
  {
  }

  // ---------------------------------------------------------------- the objects

  class ClassAd {
    var attrs: Attrs
    var parent: ClassAd?
    ghost var ancestors: seq<ClassAd>

    /** The chain of parents ends, and does not come back to this ad. */
    ghost predicate Linked()
      reads this`parent, this`ancestors, ancestors
      decreases |ancestors|, 0
    {
      && this !in ancestors
      && (parent == null ==> ancestors == [])
      && (parent != null ==>
          ancestors != [] && ancestors[0] == parent && parent.ancestors == ancestors[1..] && parent.Valid())
    }

    /** No attribute has an empty name. */
    ghost predicate Valid()
      reads this, ancestors
      decreases |ancestors|, 1
    {
      Linked() && Named(attrs)
    }

    ghost function Chain(): seq<Attrs>
      requires Valid()
      reads this, ancestors
      decreases |ancestors|
    {
      assert Linked();
      [attrs] + if parent == null then [] else parent.Chain()
    }

    /** What the parents show. */
    ghost function Base(): Attrs
      requires Linked()
      reads this`parent, this`ancestors, ancestors
    {
      if parent == null then map[] else Flat(parent.Chain())
    }

    lemma Shown()
      requires Valid()
      ensures Base() == Flat(Chain()[1..]) && Flat(Chain()) == Base() + attrs
    {
    }

    constructor ()
      ensures Valid() && attrs == map[] && parent == null
    {
      attrs, parent, ancestors := map[], null, [];
    }

    method Lookup(name: string) returns (tree: Option<Expr>)
      requires Valid()
      ensures tree == Get(Flat(Chain()), name)
      decreases |ancestors|
    {
      if name in attrs {
        tree := Some(attrs[name]);
      } else if parent != null {
        tree := parent.Lookup(name);
      } else {
        tree := None;
      }
    }

    method InsertTree(name: string, tree: Option<Expr>) returns (ok: bool)
      requires Valid()
      modifies this`attrs
      ensures Valid() && Base() == old(Base())
      ensures ok <==> name != "" && tree.Some?
      ensures attrs == Apply(old(attrs), Base(), Insert(name, tree))
    {
      if name == "" || tree.None? {
        return false;
      }
      attrs := attrs[name := tree.value];
      return true;
    }

    method DeleteName(name: string) returns (deleted: bool)
      requires Valid()
      modifies this`attrs
      ensures Valid() && Base() == old(Base())
      ensures attrs == Apply(old(attrs), Base(), Delete(name))
      ensures deleted == Deleted(old(attrs), Base(), name)
    {
      deleted := false;
      if name in attrs {
        attrs := attrs - {name};
        deleted := true;
      } else {
        assert attrs - {name} == attrs;
      }
      if parent != null {
        var shown := parent.Lookup(name);
        if shown.Some? {
          deleted := true;
          var ok := InsertTree(name, Some(Undefined));
        }
      }
    }

    method RemoveName(name: string) returns (tree: Option<Expr>)
      requires Valid()
      modifies this`attrs
      ensures Valid() && Base() == old(Base())
      ensures attrs == Apply(old(attrs), Base(), Remove(name))
      ensures tree == Visible(old(attrs), Base(), name)
    {
      tree := None;
      if name in attrs {
        tree := Some(attrs[name]);
        attrs := attrs - {name};
      } else {
        assert attrs - {name} == attrs;
      }
      if parent != null {
        var shown := parent.Lookup(name);
        if shown.Some? {
          if tree.None? {
            tree := shown;
          }
          var ok := InsertTree(name, Some(Undefined));
        }
      }
    }

    /** The attributes that the parent shows with the same value. */
    method FindPrunable() returns (victims: set<string>, count: nat)
      requires Valid() && parent != null
      ensures victims == Prunable(attrs, Base()) && count == |victims|
    {
      ghost var base := Base();
      hide Linked, Base, Chain, Flat, Named, SameAs;
      var todo := attrs.Keys;
      victims, count := {}, 0;
      while todo != {}
        invariant todo <= attrs.Keys && victims !! todo && count == |victims|
        invariant forall n :: n in victims <==> n in Prunable(attrs, base) && n !in todo
        decreases todo
      {
        var n :| n in todo;
        var shown := parent.Lookup(n);
        if shown.Some? && SameAs(shown.value, attrs[n]) {
          victims := victims + {n};
          count := count + 1;
        }
        todo := todo - {n};
      }
    }

    method PruneChildAd() returns (count: nat)
      requires Valid()
      modifies this`attrs
      ensures Valid() && Base() == old(Base())
      ensures attrs == Apply(old(attrs), Base(), Prune)
      ensures count == |Prunable(old(attrs), Base())|
    {
      if parent == null {
        assert Prunable(attrs, Base()) == {};
        assert attrs - {} == attrs;
        return 0;
      }
      var victims;
      victims, count := FindPrunable();
      attrs := attrs - victims;
    }

    /** Copies every attribute of an ad, which may be this one, into this one. */
    method Update(ad: ClassAd) returns (ok: bool)
      requires Valid() && Named(ad.attrs)
      modifies this`attrs
      ensures Valid() && ok && attrs == old(attrs) + old(ad.attrs)
    {
      var source := ad.attrs;
      var todo := source.Keys;
      while todo != {}
        invariant todo <= source.Keys && Valid()
        invariant attrs == old(attrs) + (source - todo)
        decreases todo
      {
        var n :| n in todo;
        ok := InsertTree(n, Some(source[n]));
        todo := todo - {n};
      }
      ok := true;
      assert source - {} == source;
    }

    /** Copies a whole chain into this ad, the farthest parent first. */
    method UpdateFromChain(ad: ClassAd) returns (ok: bool)
      requires Valid() && ad.Valid() && ad != this && this !in ad.ancestors
      modifies this`attrs
      ensures Valid() && ok && attrs == old(attrs) + Flat(ad.Chain())
      decreases |ad.ancestors|
    {
      hide Flat;
      ghost var base := ad.Base();
      ad.Shown();
      if ad.parent != null {
        ok := UpdateFromChain(ad.parent);
      }
      assert attrs == old(attrs) + base;
      ok := Update(ad);
    }

    /** Makes this ad a flat copy of a chain. */
    method CopyFromChain(ad: ClassAd) returns (ok: bool)
      requires Valid() && ad.Valid() && this !in ad.ancestors
      modifies this`attrs
      ensures Valid() && (ok <==> this != ad)
      ensures attrs == if this == ad then old(attrs) else Flat(ad.Chain())
    {
      if this == ad {
        return false;
      }
      attrs := map[];
      ok := UpdateFromChain(ad);
    }
  }
}
