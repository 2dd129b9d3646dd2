/** The `extends` relation between credential types and the list of parent types
    that `CredentialTypes.getParentTypes` builds from it. */
module CredentialTypes {

  type TypeName = string

  /** `recognized` is the domain of `recognizes`; `parents` holds the `extends`
      array of every type that declares one. */
  datatype Registry = Registry(recognized: set<TypeName>, parents: map<TypeName, seq<TypeName>>)

  /** `knownCredentials[t]?.extends ?? []` */
  function Extends(reg: Registry, t: TypeName): seq<TypeName> {
    if t in reg.parents then reg.parents[t] else []
  }

  // ---------------------------------------------------------------------------
  // Ancestors, defined by paths and independently of any traversal
  // ---------------------------------------------------------------------------

  ghost predicate IsPath(reg: Registry, path: seq<TypeName>) {
    && |path| >= 2
    && forall i :: 0 <= i < |path| - 1 ==> path[i + 1] in Extends(reg, path[i])
  }

  ghost predicate Connects(reg: Registry, path: seq<TypeName>, t: TypeName, a: TypeName) {
    IsPath(reg, path) && path[0] == t && path[|path| - 1] == a
  }

  ghost predicate IsAncestor(reg: Registry, t: TypeName, a: TypeName) {
    exists path :: Connects(reg, path, t, a)
  }

  ghost predicate Acyclic(reg: Registry) {
    forall t :: !IsAncestor(reg, t, t)
  }

  ghost function Ancestors(reg: Registry, t: TypeName): set<TypeName> {
    set c, p | c in reg.parents && p in reg.parents[c] && IsAncestor(reg, t, p) :: p
  }

  lemma ParentIsAncestor(reg: Registry, t: TypeName, p: TypeName)
    requires p in Extends(reg, t)
    ensures IsAncestor(reg, t, p)
  {
    assert Connects(reg, [t, p], t, p);
  }

  lemma AncestorTransitive(reg: Registry, t: TypeName, a: TypeName, b: TypeName)
    requires IsAncestor(reg, t, a) && IsAncestor(reg, a, b)
    ensures IsAncestor(reg, t, b)
  {
    var p :| Connects(reg, p, t, a);
    var q :| Connects(reg, q, a, b);
    var r := p + q[1..];
    forall i | 0 <= i < |r| - 1
      ensures r[i + 1] in Extends(reg, r[i])
    {
      if i >= |p| - 1 {
        assert r[i] == q[i - (|p| - 1)] && r[i + 1] == q[i - (|p| - 1) + 1];
      }
    }
    assert Connects(reg, r, t, b);
  }

  /** An ancestor is a parent or an ancestor of a parent. */
  lemma AncestorViaParent(reg: Registry, t: TypeName, a: TypeName)
    requires IsAncestor(reg, t, a)
    ensures exists p :: p in Extends(reg, t) && (p == a || IsAncestor(reg, p, a))
  {
    var path :| Connects(reg, path, t, a);
    var p := path[1];
    assert path[0 + 1] in Extends(reg, path[0]);
    if |path| > 2 {
      assert Connects(reg, path[1..], p, a);
    }
  }

  lemma InAncestors(reg: Registry, t: TypeName, a: TypeName)
    ensures a in Ancestors(reg, t) <==> IsAncestor(reg, t, a)
  {
    if IsAncestor(reg, t, a) {
      var path :| Connects(reg, path, t, a);
      var i := |path| - 2;
      assert path[i + 1] in Extends(reg, path[i]);
      assert path[i] in reg.parents && a in reg.parents[path[i]];
    }
  }

  lemma AncestorsShrink(reg: Registry, t: TypeName, a: TypeName)
    requires Acyclic(reg) && IsAncestor(reg, t, a)
    ensures Ancestors(reg, a) < Ancestors(reg, t)
  {
    forall x | x in Ancestors(reg, a)
      ensures x in Ancestors(reg, t)
    {
      InAncestors(reg, a, x);
      AncestorTransitive(reg, t, a, x);
      InAncestors(reg, t, x);
    }
    InAncestors(reg, t, a);
    InAncestors(reg, a, a);
  }

  // ---------------------------------------------------------------------------
  // How often the loop of getParentTypes visits what: the termination measure
  // ---------------------------------------------------------------------------

  /** The names in `q` and all their ancestors. */
  ghost function DownSet(reg: Registry, q: seq<TypeName>): set<TypeName> {
    (set x | x in q) + (set x, a | x in q && a in Ancestors(reg, x) :: a)
  }

  lemma DownSetOfAncestors(reg: Registry, t: TypeName, q: seq<TypeName>)
    requires Acyclic(reg)
    requires forall x :: x in q ==> IsAncestor(reg, t, x)
    ensures DownSet(reg, q) <= Ancestors(reg, t)
  {
    forall y | y in DownSet(reg, q)
      ensures y in Ancestors(reg, t)
    {
      if y in q {
        InAncestors(reg, t, y);
      } else {
        var x :| x in q && y in Ancestors(reg, x);
        AncestorsShrink(reg, t, x);
      }
    }
  }

  lemma DownSetShrinks(reg: Registry, q: seq<TypeName>, r: seq<TypeName>)
    requires Acyclic(reg) && |q| > 0
    requires forall x :: x in r ==> IsAncestor(reg, q[0], x)
    ensures DownSet(reg, r) < DownSet(reg, q)
  {
    DownSetOfAncestors(reg, q[0], r);
    InAncestors(reg, q[0], q[0]);
    assert q[0] in q && q[0] !in Ancestors(reg, q[0]);
    assert Ancestors(reg, q[0]) <= DownSet(reg, q);
  }

  lemma ParentsAreAncestors(reg: Registry, t: TypeName)
    ensures forall p :: p in Extends(reg, t) ==> IsAncestor(reg, t, p)
  {
    forall p | p in Extends(reg, t) { ParentIsAncestor(reg, t, p); }
  }

  /** A queue made of ancestors of the front of `q` stays strictly below `q`. */
  lemma DownSetOfParents(reg: Registry, q: seq<TypeName>)
    requires Acyclic(reg) && |q| > 0
    ensures DownSet(reg, Extends(reg, q[0])) < DownSet(reg, q)
    ensures DownSet(reg, Extends(reg, q[0])) <= Ancestors(reg, q[0])
  {
    ParentsAreAncestors(reg, q[0]);
    DownSetShrinks(reg, q, Extends(reg, q[0]));
    DownSetOfAncestors(reg, q[0], Extends(reg, q[0]));
  }

  lemma DownSetOfVisits(reg: Registry, q: seq<TypeName>, up: seq<TypeName>)
    requires Acyclic(reg) && |q| > 0
    requires forall x :: x in up ==> x in DownSet(reg, Extends(reg, q[0]))
    ensures DownSet(reg, up) < DownSet(reg, q)
    ensures DownSet(reg, up) <= Ancestors(reg, q[0])
  {
    DownSetOfParents(reg, q);
    forall x | x in up ensures IsAncestor(reg, q[0], x) { InAncestors(reg, q[0], x); }
    DownSetShrinks(reg, q, up);
    DownSetOfAncestors(reg, q[0], up);
  }

  lemma DownSetTail(reg: Registry, q: seq<TypeName>)
    requires |q| > 0
    ensures DownSet(reg, q[1..]) <= DownSet(reg, q)
    ensures Ancestors(reg, q[0]) <= DownSet(reg, q) && q[0] in DownSet(reg, q)
  {
  }

  /** Every visit that a queue `q` causes, in depth-first order: visiting `t`
      appends the parent types of `t`, each of which is visited in turn. */
  ghost function Visits(reg: Registry, q: seq<TypeName>): (r: seq<TypeName>)
    requires Acyclic(reg)
    ensures forall x :: x in r ==> x in DownSet(reg, q)
    decreases DownSet(reg, q), |q|
  {
    if q == [] then [] else
      DownSetOfParents(reg, q);
      var up := Visits(reg, Extends(reg, q[0]));
      DownSetOfVisits(reg, q, up);
      DownSetTail(reg, q);
      [q[0]] + Visits(reg, up) + Visits(reg, q[1..])
  }

  lemma {:induction false} VisitsConcat(reg: Registry, a: seq<TypeName>, b: seq<TypeName>)
    requires Acyclic(reg)
    ensures Visits(reg, a + b) == Visits(reg, a) + Visits(reg, b)
    decreases |a|
  {
    if a == [] {
      assert a + b == b;
    } else {
      assert (a + b)[0] == a[0] && (a + b)[1..] == a[1..] + b;
      VisitsConcat(reg, a[1..], b);
    }
  }

  lemma VisitsInsert(reg: Registry, l: seq<TypeName>, x: TypeName, r: seq<TypeName>)
    requires Acyclic(reg)
    ensures multiset(Visits(reg, l + [x] + r)) == multiset(Visits(reg, [x])) + multiset(Visits(reg, l + r))
  {
    VisitsConcat(reg, l + [x], r);
    VisitsConcat(reg, l, [x]);
    VisitsConcat(reg, l, r);
  }

  lemma Without<T>(a: seq<T>, b: seq<T>, i: nat)
    requires a != [] && i < |b| && b[i] == a[0] && multiset(a) == multiset(b)
    ensures a == [] + [a[0]] + a[1..] && a[1..] == [] + a[1..]
    ensures b == b[..i] + [a[0]] + b[i + 1..]
    ensures multiset(a[1..]) == multiset(b[..i] + b[i + 1..])
  {
    WithoutAt(a, 0);
    WithoutAt(b, i);
    assert a[..0] + a[1..] == a[1..];
  }

  lemma WithoutAt<T>(s: seq<T>, i: nat)
    requires i < |s|
    ensures s == s[..i] + [s[i]] + s[i + 1..]
    ensures multiset(s[..i] + s[i + 1..]) == multiset(s) - multiset{s[i]}
  {
    assert s == s[..i] + [s[i]] + s[i + 1..];
    assert multiset(s) == multiset(s[..i]) + multiset{s[i]} + multiset(s[i + 1..]);
  }

  /** The visits depend on the queue only up to order. */
  lemma {:induction false} VisitsPermutation(reg: Registry, a: seq<TypeName>, b: seq<TypeName>)
    requires Acyclic(reg) && multiset(a) == multiset(b)
    ensures multiset(Visits(reg, a)) == multiset(Visits(reg, b))
    decreases |a|
  {
    if a == [] {
      assert |multiset(b)| == 0;
      assert b == [];
    } else {
      assert a[0] in multiset(b);
      var i :| 0 <= i < |b| && b[i] == a[0];
      Without(a, b, i);
      VisitsPermutation(reg, a[1..], b[..i] + b[i + 1..]);
      VisitsInsert(reg, b[..i], a[0], b[i + 1..]);
      VisitsInsert(reg, [], a[0], a[1..]);
    }
  }

  lemma {:induction false} VisitsComplete(reg: Registry, q: seq<TypeName>, y: TypeName, x: TypeName)
    requires Acyclic(reg)
    requires y in q && (x == y || IsAncestor(reg, y, x))
    ensures x in Visits(reg, q)
    decreases DownSet(reg, q), |q|
  {
    DownSetOfParents(reg, q);
    DownSetTail(reg, q);
    var up := Visits(reg, Extends(reg, q[0]));
    DownSetOfVisits(reg, q, up);
    if y != q[0] {
      VisitsComplete(reg, q[1..], y, x);
    } else if x != y {
      AncestorViaParent(reg, y, x);
      var p :| p in Extends(reg, y) && (p == x || IsAncestor(reg, p, x));
      VisitsComplete(reg, Extends(reg, y), p, x);
      VisitsComplete(reg, up, x, x);
    }
  }

  // ---------------------------------------------------------------------------
  // The list itself
  // ---------------------------------------------------------------------------

  /** The array that the loop leaves when it still has `q` to visit. */
  function Drain(reg: Registry, q: seq<TypeName>): seq<TypeName>
    requires Acyclic(reg)
    decreases |Visits(reg, q)|, 0
  {
    if q == [] then [] else
      VisitsOfParents(reg, q);
      DrainVisits(reg, Extends(reg, q[0]));
      VisitsAfterStep(reg, q, Drain(reg, Extends(reg, q[0])));
      [q[0]] + Drain(reg, q[1..] + Drain(reg, Extends(reg, q[0])))
  }

  lemma VisitsOfParents(reg: Registry, q: seq<TypeName>)
    requires Acyclic(reg) && q != []
    ensures |Visits(reg, Extends(reg, q[0]))| < |Visits(reg, q)|
  {
    VisitsAtLeast(reg, Visits(reg, Extends(reg, q[0])));
  }

  /** Every visit takes one name off and adds as many visits, less one, as it costs. */
  lemma VisitsAfterStep(reg: Registry, q: seq<TypeName>, added: seq<TypeName>)
    requires Acyclic(reg) && q != []
    requires multiset(added) == multiset(Visits(reg, Extends(reg, q[0])))
    ensures multiset{q[0]} + multiset(Visits(reg, q[1..] + added)) == multiset(Visits(reg, q))
    ensures |Visits(reg, q[1..] + added)| == |Visits(reg, q)| - 1
  {
    VisitsConcat(reg, q[1..], added);
    VisitsPermutation(reg, added, Visits(reg, Extends(reg, q[0])));
    assert |multiset(Visits(reg, added))| == |Visits(reg, added)|;
  }

  lemma {:induction false} DrainVisits(reg: Registry, q: seq<TypeName>)
    requires Acyclic(reg)
    ensures multiset(Drain(reg, q)) == multiset(Visits(reg, q))
    decreases |Visits(reg, q)|, 1
  {
    if q != [] {
      VisitsOfParents(reg, q);
      DrainVisits(reg, Extends(reg, q[0]));
      var added := Drain(reg, Extends(reg, q[0]));
      VisitsAfterStep(reg, q, added);
      DrainVisits(reg, q[1..] + added);
    }
  }

  lemma {:induction false} VisitsAtLeast(reg: Registry, q: seq<TypeName>)
    requires Acyclic(reg)
    ensures |q| <= |Visits(reg, q)|
    decreases |q|
  {
    if q != [] {
      VisitsAtLeast(reg, q[1..]);
    }
  }

  function ParentTypes(reg: Registry, t: TypeName): seq<TypeName>
    requires Acyclic(reg)
  {
    Drain(reg, Extends(reg, t))
  }

  /** One pass of the loop: a name leaves the unvisited part, its parent types join it. */
  lemma DrainStep(reg: Registry, q: seq<TypeName>)
    requires Acyclic(reg) && q != []
    ensures Drain(reg, q) == [q[0]] + Drain(reg, q[1..] + ParentTypes(reg, q[0]))
    ensures |Visits(reg, q[1..] + ParentTypes(reg, q[0]))| == |Visits(reg, q)| - 1
    ensures |Visits(reg, Extends(reg, q[0]))| < |Visits(reg, q)|
  {
    VisitsOfParents(reg, q);
    DrainVisits(reg, Extends(reg, q[0]));
    VisitsAfterStep(reg, q, Drain(reg, Extends(reg, q[0])));
  }

  lemma VisitOne<T>(types: seq<T>, i: nat, more: seq<T>, rest: seq<T>)
    requires i < |types|
    ensures types[i..][1..] == types[i + 1..]
    ensures (types + more)[i + 1..] == types[i + 1..] + more
    ensures (types + more)[..i + 1] + rest == types[..i] + ([types[i]] + rest)
  {
    assert (types + more)[..i + 1] == types[..i] + [types[i]];
  }

  /** The loop of `getParentTypes` walks an array that its own body extends. It
      ends because each pass lowers the number of visits still to come by one. */
  method GetParentTypes(reg: Registry, typeName: TypeName) returns (types: seq<TypeName>)
    requires Acyclic(reg)
    ensures types == ParentTypes(reg, typeName)
    decreases |Visits(reg, Extends(reg, typeName))|
  {
    var extendsArr := Extends(reg, typeName);
    if |extendsArr| == 0 {
      return [];
    }
    types := extendsArr;
    var i := 0;
    assert types[..i] == [] && types[i..] == extendsArr;
    while i < |types|
      invariant 0 <= i <= |types|
      invariant types[..i] + Drain(reg, types[i..]) == Drain(reg, extendsArr)
      invariant |Visits(reg, types[i..])| <= |Visits(reg, extendsArr)|
      decreases |Visits(reg, types[i..])|
    {
      DrainStep(reg, types[i..]);
      var more := GetParentTypes(reg, types[i]);
      VisitOne(types, i, more, Drain(reg, types[i + 1..] + more));
      types := types + more;
      i := i + 1;
    }
    assert types[i..] == [] && types[..i] == types;
    assert types + [] == types;
  }

  /** The elements are exactly the strict ancestors. */
  lemma ParentTypesAreAncestors(reg: Registry, t: TypeName, a: TypeName)
    requires Acyclic(reg)
    ensures a in ParentTypes(reg, t) <==> IsAncestor(reg, t, a)
  {
    DrainVisits(reg, Extends(reg, t));
    assert a in ParentTypes(reg, t) <==> a in multiset(ParentTypes(reg, t));
    assert a in Visits(reg, Extends(reg, t)) <==> a in multiset(Visits(reg, Extends(reg, t)));
    if a in Visits(reg, Extends(reg, t)) {
      ParentsAreAncestors(reg, t);
      DownSetOfAncestors(reg, t, Extends(reg, t));
      InAncestors(reg, t, a);
    } else if IsAncestor(reg, t, a) {
      AncestorViaParent(reg, t, a);
      var p :| p in Extends(reg, t) && (p == a || IsAncestor(reg, p, a));
      VisitsComplete(reg, Extends(reg, t), p, a);
    }
  }

  // ---------------------------------------------------------------------------
  // Order
  // ---------------------------------------------------------------------------

  function AllParentTypes(reg: Registry, q: seq<TypeName>): seq<TypeName>
    requires Acyclic(reg)
  {
    if q == [] then [] else ParentTypes(reg, q[0]) + AllParentTypes(reg, q[1..])
  }

  lemma AppendAssociative<T>(a: seq<T>, b: seq<T>, c: seq<T>)
    ensures a + b + c == a + (b + c)
  {
  }

  lemma HeadAndTail<T>(q: seq<T>, rest: seq<T>)
    requires q != []
    ensures [q[0]] + (q[1..] + rest) == q + rest
  {
  }

  lemma TailOfAppend<T>(q: seq<T>, a: seq<T>, b: seq<T>)
    requires q != []
    ensures (q + a)[0] == q[0] && (q + a)[1..] + b == q[1..] + (a + b)
  {
  }

  lemma {:induction false} DrainFront(reg: Registry, q: seq<TypeName>, later: seq<TypeName>)
    requires Acyclic(reg)
    ensures Drain(reg, q + later) == q + Drain(reg, later + AllParentTypes(reg, q))
    decreases |q|
  {
    if q == [] {
      assert q + later == later && later + [] == later;
    } else {
      var q1, up := q[1..], ParentTypes(reg, q[0]);
      DrainStep(reg, q + later);
      TailOfAppend(q, later, up);
      DrainFront(reg, q1, later + up);
      AppendAssociative(later, up, AllParentTypes(reg, q1));
      HeadAndTail(q, Drain(reg, later + AllParentTypes(reg, q)));
    }
  }

  /** For any hierarchy, with any number of parents: first the direct parents,
      then the whole list of the first parent, of the second parent, and so on. */
  lemma ParentTypesOrder(reg: Registry, t: TypeName)
    requires Acyclic(reg)
    ensures Extends(reg, t) + AllParentTypes(reg, Extends(reg, t)) <= ParentTypes(reg, t)
  {
    var q := Extends(reg, t);
    var all := AllParentTypes(reg, q);
    assert q + [] == q && [] + all == all && all + [] == all;
    DrainFront(reg, q, []);
    DrainFront(reg, all, []);
    assert ParentTypes(reg, t) == q + (all + Drain(reg, [] + AllParentTypes(reg, all)));
  }

  ghost predicate SingleInheritance(reg: Registry) {
    forall t :: |Extends(reg, t)| <= 1
  }

  /** The chain of ancestors, nearest first. */
  ghost function Chain(reg: Registry, t: TypeName): seq<TypeName>
    requires Acyclic(reg) && SingleInheritance(reg)
    decreases Ancestors(reg, t)
  {
    if Extends(reg, t) == [] then [] else
      var p := Extends(reg, t)[0];
      assert Ancestors(reg, p) < Ancestors(reg, t) by {
        ParentIsAncestor(reg, t, p);
        AncestorsShrink(reg, t, p);
      }
      [p] + Chain(reg, p)
  }

  /** On a chain the list starts with the ancestors, nearest first, each once. */
  lemma {:induction false} ChainComesFirst(reg: Registry, t: TypeName)
    requires Acyclic(reg) && SingleInheritance(reg)
    ensures Chain(reg, t) <= ParentTypes(reg, t)
    ensures forall a :: a in Chain(reg, t) <==> a in ParentTypes(reg, t)
    ensures forall i, j :: 0 <= i < j < |Chain(reg, t)| ==> IsAncestor(reg, Chain(reg, t)[i], Chain(reg, t)[j])
    decreases Ancestors(reg, t)
  {
    ParentTypesOrder(reg, t);
    if Extends(reg, t) == [] {
      forall a ensures a !in ParentTypes(reg, t) {
        ParentTypesAreAncestors(reg, t, a);
        if IsAncestor(reg, t, a) { AncestorViaParent(reg, t, a); }
      }
    } else {
      var p := Extends(reg, t)[0];
      assert Extends(reg, t) == [p];
      ParentIsAncestor(reg, t, p);
      AncestorsShrink(reg, t, p);
      ChainComesFirst(reg, p);
      assert AllParentTypes(reg, [p]) == ParentTypes(reg, p) + [] == ParentTypes(reg, p);
      assert Chain(reg, t) <= [p] + ParentTypes(reg, p);
      forall a
        ensures a in Chain(reg, t) <==> a in ParentTypes(reg, t)
      {
        ParentTypesAreAncestors(reg, t, a);
        ParentTypesAreAncestors(reg, p, a);
        if IsAncestor(reg, t, a) { AncestorViaParent(reg, t, a); }
        if IsAncestor(reg, p, a) { AncestorTransitive(reg, t, p, a); }
      }
      forall j | 0 <= j < |Chain(reg, p)|
        ensures IsAncestor(reg, p, Chain(reg, p)[j])
      {
        ParentTypesAreAncestors(reg, p, Chain(reg, p)[j]);
        assert Chain(reg, p)[j] in Chain(reg, p);
      }
    }
  }
}
