/** Overwrites of credential fields, inherited along `extends`: the memoised
    resolver that rewrites the overwrite data in place, and the fold over the
    ancestor list that reads it. */
module CredentialsOverwrites {
  import opened Wrappers
  import opened CredentialTypes

  datatype Value = Null | Undefined | Text(text: string) | Other(n: int)
  type Fields = map<string, Value>
  type OverwriteData = map<TypeName, Fields>

  // ---------------------------------------------------------------------------
  // getOverwrites and setData
  // ---------------------------------------------------------------------------

  /** `getOverwrites`: what it returns, and `resolvedTypes` afterwards. */
  function Resolve(reg: Registry, data: OverwriteData, resolved: seq<TypeName>, t: TypeName)
    : (Option<Fields>, seq<TypeName>)
    requires Acyclic(reg)
    decreases Ancestors(reg, t), |Extends(reg, t)| + 1
  {
    if t in resolved then (Lookup(data, t), resolved)
    else if t !in reg.recognized then (None, resolved)
    else if t !in reg.parents then (Lookup(data, t), resolved + [t])
    else
      var (merged, marked) := MergeParents(reg, data, resolved, t, Extends(reg, t), map[]);
      (Some(merged + Own(data, t)), marked + [t])
  }

  /** The loop over `extends`: a later parent overrides an earlier one. */
  function MergeParents(reg: Registry, data: OverwriteData, resolved: seq<TypeName>,
                        t: TypeName, ps: seq<TypeName>, acc: Fields)
    : (Fields, seq<TypeName>)
    requires Acyclic(reg)
    requires forall p :: p in ps ==> p in Extends(reg, t)
    decreases Ancestors(reg, t), |ps|
  {
    if ps == [] then (acc, resolved) else
      ParentIsAncestor(reg, t, ps[0]);
      AncestorsShrink(reg, t, ps[0]);
      var (parent, marked) := Resolve(reg, data, resolved, ps[0]);
      MergeParents(reg, data, marked, t, ps[1..], Assign(acc, parent))
  }

  /** `Object.assign`, to which `undefined` contributes nothing. */
  function Assign(acc: Fields, more: Option<Fields>): Fields {
    if more.Some? then acc + more.value else acc
  }

  function Own(data: OverwriteData, t: TypeName): Fields {
    if t in data then data[t] else map[]
  }

  /** The loop of `setData` over the keys still to come. */
  function StoreAll(reg: Registry, data: OverwriteData, resolved: seq<TypeName>, order: seq<TypeName>): OverwriteData
    requires Acyclic(reg)
    decreases |order|
  {
    if order == [] then data else
      var (o, marked) := Resolve(reg, data, resolved, order[0]);
      StoreAll(reg, Store(data, order[0], o), marked, order[1..])
  }

  function Store(data: OverwriteData, t: TypeName, o: Option<Fields>): OverwriteData {
    if o.Some? && o.value != map[] then data[t := o.value] else data
  }

  function Stored(reg: Registry, data: OverwriteData, order: seq<TypeName>): OverwriteData
    requires Acyclic(reg)
  {
    StoreAll(reg, data, [], order)
  }

  // ---------------------------------------------------------------------------
  // get and applyOverwrite
  // ---------------------------------------------------------------------------

  function Reverse<T>(s: seq<T>): seq<T> {
    if s == [] then [] else Reverse(s[1..]) + [s[0]]
  }

  /** `.map(type => overwriteData[type]).filter(type => !!type)` */
  function Present(data: OverwriteData, types: seq<TypeName>): seq<Fields> {
    if types == [] then []
    else (if types[0] in data then [data[types[0]]] else []) + Present(data, types[1..])
  }

  function Reduce(acc: Fields, overwrites: seq<Fields>): Fields
    decreases |overwrites|
  {
    if overwrites == [] then acc else Reduce(acc + overwrites[0], overwrites[1..])
  }

  /** `get` */
  function Effective(reg: Registry, data: OverwriteData, name: TypeName): Fields
    requires Acyclic(reg)
  {
    Reduce(map[], Present(data, Reverse([name] + ParentTypes(reg, name))))
  }

  /** `[null, undefined, ''].includes(data[key])` */
  predicate IsEmpty(data: Fields, key: string) {
    key !in data || data[key] in [Null, Undefined, Text("")]
  }

  function Applied(overwrites: Fields, data: Fields): Fields {
    map k | k in overwrites.Keys + data.Keys ::
      if k in overwrites && IsEmpty(data, k) then overwrites[k] else data[k]
  }

  class CredentialsOverwrites {
    const reg: Registry
    var overwriteData: OverwriteData
    var resolvedTypes: seq<TypeName>

    /** `order` is the order in which `for ... in` enumerates the keys of `data`. */
    constructor (reg: Registry, data: OverwriteData, order: seq<TypeName>)
      requires Acyclic(reg)
      ensures this.reg == reg
      ensures overwriteData == Stored(reg, data, order)
    {
      this.reg := reg;
      overwriteData := map[];
      resolvedTypes := [];
      new;
      SetData(data, order);
    }

    method SetData(data: OverwriteData, order: seq<TypeName>)
      requires Acyclic(reg)
      modifies this
      ensures overwriteData == Stored(reg, data, order)
    {
      resolvedTypes := [];
      overwriteData := data;
      var i := 0;
      while i < |order|
        invariant 0 <= i <= |order|
        invariant StoreAll(reg, overwriteData, resolvedTypes, order[i..]) == Stored(reg, data, order)
      {
        var typeName := order[i];
        var overwrites := GetOverwrites(typeName);
        if overwrites.Some? && overwrites.value != map[] {
          overwriteData := overwriteData[typeName := overwrites.value];
        }
        assert order[i..][1..] == order[i + 1..];
        i := i + 1;
      }
    }

    method GetOverwrites(t: TypeName) returns (r: Option<Fields>)
      requires Acyclic(reg)
      modifies this`resolvedTypes
      ensures (r, resolvedTypes) == Resolve(reg, overwriteData, old(resolvedTypes), t)
      decreases Ancestors(reg, t)
    {
      if t in resolvedTypes {
        return Lookup(overwriteData, t);
      }
      if t !in reg.recognized {
        return None;
      }
      if t !in reg.parents {
        resolvedTypes := resolvedTypes + [t];
        return Lookup(overwriteData, t);
      }
      var ps := reg.parents[t];
      var overwrites: Fields := map[];
      var i := 0;
      while i < |ps|
        invariant 0 <= i <= |ps|
        invariant MergeParents(reg, overwriteData, resolvedTypes, t, ps[i..], overwrites)
               == MergeParents(reg, overwriteData, old(resolvedTypes), t, ps, map[])
      {
        ParentIsAncestor(reg, t, ps[i]);
        AncestorsShrink(reg, t, ps[i]);
        var parent := GetOverwrites(ps[i]);
        overwrites := Assign(overwrites, parent);
        assert ps[i..][1..] == ps[i + 1..];
        i := i + 1;
      }
      assert ps[i..] == [];
      assert overwrites + map[] == overwrites;
      if t in overwriteData {
        overwrites := overwrites + overwriteData[t];
      }
      resolvedTypes := resolvedTypes + [t];
      return Some(overwrites);
    }

    method ApplyOverwrite(t: TypeName, data: Fields) returns (returnData: Fields)
      requires Acyclic(reg)
      ensures returnData == Applied(Effective(reg, overwriteData, t), data)
    {
      var overwrites := Effective(reg, overwriteData, t);
      returnData := data;
      var keys := overwrites.Keys;
      while keys != {}
        invariant keys <= overwrites.Keys
        invariant returnData == Applied(map k | k in overwrites && k !in keys :: overwrites[k], data)
        decreases keys
      {
        var key :| key in keys;
        if IsEmpty(returnData, key) {
          returnData := returnData[key := overwrites[key]];
        }
        keys := keys - {key};
      }
      assert (map k | k in overwrites && k !in keys :: overwrites[k]) == overwrites;
    }
  }

  // ---------------------------------------------------------------------------
  // get takes every field from the first type of the list that has it
  // ---------------------------------------------------------------------------

  ghost function FirstWins(data: OverwriteData, types: seq<TypeName>): Fields {
    if types == [] then map[] else FirstWins(data, types[1..]) + Own(data, types[0])
  }

  lemma {:induction false} PresentConcat(data: OverwriteData, a: seq<TypeName>, b: seq<TypeName>)
    ensures Present(data, a + b) == Present(data, a) + Present(data, b)
  {
    if a == [] {
      assert a + b == b;
    } else {
      assert (a + b)[0] == a[0] && (a + b)[1..] == a[1..] + b;
      PresentConcat(data, a[1..], b);
    }
  }

  lemma {:induction false} ReduceConcat(acc: Fields, a: seq<Fields>, b: seq<Fields>)
    ensures Reduce(acc, a + b) == Reduce(Reduce(acc, a), b)
    decreases |a|
  {
    if a == [] {
      assert a + b == b;
    } else {
      assert (a + b)[0] == a[0] && (a + b)[1..] == a[1..] + b;
      ReduceConcat(acc + a[0], a[1..], b);
    }
  }

  lemma {:induction false} ReduceReversed(data: OverwriteData, types: seq<TypeName>)
    ensures Reduce(map[], Present(data, Reverse(types))) == FirstWins(data, types)
  {
    if types != [] {
      ReduceReversed(data, types[1..]);
      PresentConcat(data, Reverse(types[1..]), [types[0]]);
      assert Present(data, []) == [];
      assert Present(data, [types[0]]) == if types[0] in data then [data[types[0]]] else [];
      ReduceConcat(map[], Present(data, Reverse(types[1..])), Present(data, [types[0]]));
      var rest := FirstWins(data, types[1..]);
      assert Reduce(rest, Present(data, [types[0]])) == rest + Own(data, types[0]);
    }
  }

  /** `i` is the first place in `types` that has an overwrite for `key`. */
  ghost predicate FirstWith(data: OverwriteData, types: seq<TypeName>, key: string, i: nat) {
    && i < |types| && key in Own(data, types[i])
    && forall j :: 0 <= j < i ==> key !in Own(data, types[j])
  }

  lemma {:induction false} FirstWinsPointwise(data: OverwriteData, types: seq<TypeName>, key: string)
    ensures key in FirstWins(data, types) <==> exists i: nat :: FirstWith(data, types, key, i)
    ensures forall i: nat :: FirstWith(data, types, key, i) ==> FirstWins(data, types)[key] == Own(data, types[i])[key]
  {
    if types != [] {
      var rest := types[1..];
      FirstWinsPointwise(data, rest, key);
      if key in Own(data, types[0]) {
        assert FirstWith(data, types, key, 0);
      } else {
        forall i: nat | FirstWith(data, types, key, i)
          ensures FirstWith(data, rest, key, i - 1)
        {
          forall j | 0 <= j < i - 1 ensures key !in Own(data, rest[j]) { assert rest[j] == types[j + 1]; }
        }
        if key in FirstWins(data, rest) {
          var i: nat :| FirstWith(data, rest, key, i);
          forall j | 0 <= j < i + 1 ensures key !in Own(data, types[j]) {
            if j > 0 { assert rest[j - 1] == types[j]; }
          }
          assert FirstWith(data, types, key, i + 1);
        }
      }
    }
  }

  /** For every hierarchy: a field comes from the first type of
      `[name, ...getParentTypes(name)]` that has it. */
  lemma EffectiveIsFirst(reg: Registry, data: OverwriteData, name: TypeName, key: string)
    requires Acyclic(reg)
    ensures var types := [name] + ParentTypes(reg, name);
            && (key in Effective(reg, data, name) <==> exists i: nat :: FirstWith(data, types, key, i))
            && forall i: nat :: FirstWith(data, types, key, i) ==>
              Effective(reg, data, name)[key] == data[types[i]][key]
  {
    var types := [name] + ParentTypes(reg, name);
    ReduceReversed(data, types);
    FirstWinsPointwise(data, types, key);
  }

  // ---------------------------------------------------------------------------
  // Single inheritance: storing resolved overwrites changes nothing observable
  // ---------------------------------------------------------------------------

  /** The reference definition: own overwrites on top of the parent's. */
  ghost function Nearest(reg: Registry, data: OverwriteData, t: TypeName): Fields
    requires Acyclic(reg) && SingleInheritance(reg)
    decreases Ancestors(reg, t)
  {
    if Extends(reg, t) == [] then Own(data, t) else
      var p := Extends(reg, t)[0];
      ParentIsAncestor(reg, t, p);
      AncestorsShrink(reg, t, p);
      Nearest(reg, data, p) + Own(data, t)
  }

  lemma {:induction false} NearestOnChain(reg: Registry, data: OverwriteData, t: TypeName)
    requires Acyclic(reg) && SingleInheritance(reg)
    ensures FirstWins(data, [t] + Chain(reg, t)) == Nearest(reg, data, t)
    decreases Ancestors(reg, t)
  {
    var types := [t] + Chain(reg, t);
    assert types[0] == t && types[1..] == Chain(reg, t);
    if Extends(reg, t) == [] {
      assert FirstWins(data, []) == map[];
    } else {
      var p := Extends(reg, t)[0];
      ParentIsAncestor(reg, t, p);
      AncestorsShrink(reg, t, p);
      NearestOnChain(reg, data, p);
    }
  }

  lemma {:induction false} FirstWinsConcat(data: OverwriteData, a: seq<TypeName>, b: seq<TypeName>)
    ensures FirstWins(data, a + b) == FirstWins(data, b) + FirstWins(data, a)
  {
    if a == [] {
      assert a + b == b;
    } else {
      assert (a + b)[0] == a[0] && (a + b)[1..] == a[1..] + b;
      FirstWinsConcat(data, a[1..], b);
      MergeAssociative(FirstWins(data, b), FirstWins(data, a[1..]), Own(data, a[0]));
    }
  }

  lemma MergeAssociative(a: Fields, b: Fields, c: Fields)
    ensures (a + b) + c == a + (b + c)
  {
  }

  lemma {:induction false} FirstWinsHas(data: OverwriteData, types: seq<TypeName>, key: string)
    ensures key in FirstWins(data, types) <==> exists t :: t in types && key in Own(data, t)
  {
    if types != [] {
      FirstWinsHas(data, types[1..], key);
      if t :| t in types && key in Own(data, t) {
        assert t == types[0] || t in types[1..];
      }
    }
  }

  lemma EffectiveIsNearest(reg: Registry, data: OverwriteData, t: TypeName)
    requires Acyclic(reg) && SingleInheritance(reg)
    ensures Effective(reg, data, t) == Nearest(reg, data, t)
  {
    var chain, all := [t] + Chain(reg, t), [t] + ParentTypes(reg, t);
    ChainComesFirst(reg, t);
    ReduceReversed(data, all);
    NearestOnChain(reg, data, t);
    var more := all[|chain|..];
    assert all == chain + more;
    assert forall y :: y in more ==> y in all && y in chain;
    RepeatsAddNothing(data, chain, more);
  }

  /** Types that come again after their first place decide nothing. */
  lemma RepeatsAddNothing(data: OverwriteData, chain: seq<TypeName>, more: seq<TypeName>)
    requires forall y :: y in more ==> y in chain
    ensures FirstWins(data, chain + more) == FirstWins(data, chain)
  {
    FirstWinsConcat(data, chain, more);
    forall key | key in FirstWins(data, more)
      ensures key in FirstWins(data, chain)
    {
      FirstWinsHas(data, more, key);
      FirstWinsHas(data, chain, key);
    }
  }

  /** `a` agrees with `b` wherever `a` has a field. */
  ghost predicate Within(a: Fields, b: Fields) {
    forall k :: k in a ==> k in b && b[k] == a[k]
  }

  /** Whatever the memo says, a resolved type keeps its own overwrites and adds
      nothing that its ancestors do not supply. */
  lemma {:induction false} ResolveWithin(reg: Registry, data: OverwriteData, resolved: seq<TypeName>, t: TypeName)
    requires Acyclic(reg) && SingleInheritance(reg)
    ensures var o := Resolve(reg, data, resolved, t).0;
            o.Some? ==> Within(Own(data, t), o.value) && Within(o.value, Nearest(reg, data, t))
    decreases Ancestors(reg, t)
  {
    if t !in resolved && t in reg.recognized && t in reg.parents && Extends(reg, t) != [] {
      var p := Extends(reg, t)[0];
      ParentIsAncestor(reg, t, p);
      AncestorsShrink(reg, t, p);
      ResolveWithin(reg, data, resolved, p);
      var (parent, marked) := Resolve(reg, data, resolved, p);
      assert Extends(reg, t)[1..] == [];
      assert MergeParents(reg, data, marked, t, [], Assign(map[], parent)).0 == Assign(map[], parent);
      assert MergeParents(reg, data, resolved, t, Extends(reg, t), map[]).0 == Assign(map[], parent);
    } else if t !in resolved && t in reg.recognized && t in reg.parents {
      assert MergeParents(reg, data, resolved, t, [], map[]).0 == map[];
    }
  }

  lemma {:induction false} StoreKeepsNearest(reg: Registry, data: OverwriteData, t: TypeName, o: Fields, u: TypeName)
    requires Acyclic(reg) && SingleInheritance(reg)
    requires Within(Own(data, t), o) && Within(o, Nearest(reg, data, t))
    ensures Nearest(reg, data[t := o], u) == Nearest(reg, data, u)
    decreases Ancestors(reg, u)
  {
    if Extends(reg, u) != [] {
      var p := Extends(reg, u)[0];
      ParentIsAncestor(reg, u, p);
      AncestorsShrink(reg, u, p);
      StoreKeepsNearest(reg, data, t, o, p);
    }
  }

  lemma {:induction false} StoreAllKeepsNearest(reg: Registry, data: OverwriteData, resolved: seq<TypeName>,
                                                order: seq<TypeName>, u: TypeName)
    requires Acyclic(reg) && SingleInheritance(reg)
    ensures Nearest(reg, StoreAll(reg, data, resolved, order), u) == Nearest(reg, data, u)
    decreases |order|
  {
    if order != [] {
      var (o, marked) := Resolve(reg, data, resolved, order[0]);
      ResolveWithin(reg, data, resolved, order[0]);
      if o.Some? {
        StoreKeepsNearest(reg, data, order[0], o.value, u);
      }
      StoreAllKeepsNearest(reg, Store(data, order[0], o), marked, order[1..], u);
    }
  }

  /** With single inheritance, for every key order and every memo: what `get`
      returns after the in-place resolution is what it returned before. */
  lemma ResolutionIsInvisible(reg: Registry, data: OverwriteData, resolved: seq<TypeName>, order: seq<TypeName>,
                              t: TypeName)
    requires Acyclic(reg) && SingleInheritance(reg)
    ensures Effective(reg, StoreAll(reg, data, resolved, order), t) == Effective(reg, data, t)
  {
    StoreAllKeepsNearest(reg, data, resolved, order, t);
    EffectiveIsNearest(reg, StoreAll(reg, data, resolved, order), t);
    EffectiveIsNearest(reg, data, t);
  }

  /** The law of overwrites: after `setData`, an empty field of `type` is filled
      from the nearest of the type and its ancestors that has an overwrite for it;
      every other field is left alone. */
  lemma OverwriteLaw(reg: Registry, data: OverwriteData, order: seq<TypeName>, t: TypeName, fields: Fields, key: string)
    requires Acyclic(reg) && SingleInheritance(reg)
    ensures var r := Applied(Effective(reg, Stored(reg, data, order), t), fields);
            var chain := [t] + Chain(reg, t);
            && (!IsEmpty(fields, key) ==> key in r && r[key] == fields[key])
            && (IsEmpty(fields, key) ==>
                  forall i: nat :: FirstWith(data, chain, key, i) ==> key in r && r[key] == data[chain[i]][key])
            && ((forall i: nat :: !FirstWith(data, chain, key, i)) ==> Lookup(r, key) == Lookup(fields, key))
  {
    ResolutionIsInvisible(reg, data, [], order, t);
    EffectiveIsNearest(reg, data, t);
    NearestOnChain(reg, data, t);
    FirstWinsPointwise(data, [t] + Chain(reg, t), key);
  }

  /** Feeding `setData` its own output changes nothing that `get` can see. */
  lemma SetDataIdempotent(reg: Registry, data: OverwriteData, order: seq<TypeName>, order': seq<TypeName>, t: TypeName)
    requires Acyclic(reg) && SingleInheritance(reg)
    ensures Effective(reg, Stored(reg, Stored(reg, data, order), order'), t)
         == Effective(reg, Stored(reg, data, order), t)
  {
    ResolutionIsInvisible(reg, Stored(reg, data, order), [], order', t);
  }

  // ---------------------------------------------------------------------------
  // ... and exactly then: two parents are merged in opposite orders
  // ---------------------------------------------------------------------------

  /** Every named type is recognised and no type lists a parent twice. */
  ghost predicate WellFormed(reg: Registry) {
    && Acyclic(reg)
    && (forall t :: t in reg.parents ==> t in reg.recognized)
    && (forall t, p :: t in reg.parents && p in reg.parents[t] ==> p in reg.recognized)
    && (forall t, i, j :: t in reg.parents && 0 <= i < j < |reg.parents[t]| ==> reg.parents[t][i] != reg.parents[t][j])
  }

  ghost predicate Enumerates(order: seq<TypeName>, keys: set<TypeName>) {
    && (forall t :: t in order <==> t in keys)
    && (forall i, j :: 0 <= i < j < |order| ==> order[i] != order[j])
  }

  ghost predicate ResolutionNeverVisible(reg: Registry)
    requires Acyclic(reg)
  {
    forall data: OverwriteData, order: seq<TypeName>, t: TypeName ::
      Enumerates(order, data.Keys) ==> Effective(reg, Stored(reg, data, order), t) == Effective(reg, data, t)
  }

  lemma ResolveKeepsOwn(reg: Registry, data: OverwriteData, resolved: seq<TypeName>, t: TypeName)
    requires Acyclic(reg) && t in data && t in reg.recognized
    ensures var o := Resolve(reg, data, resolved, t).0; o.Some? && Within(data[t], o.value)
  {
  }

  lemma {:induction false} LastParentWins(reg: Registry, data: OverwriteData, resolved: seq<TypeName>,
                                          t: TypeName, ps: seq<TypeName>, acc: Fields)
    requires Acyclic(reg) && ps != []
    requires forall p :: p in ps ==> p in Extends(reg, t)
    requires ps[|ps| - 1] in data && ps[|ps| - 1] in reg.recognized
    ensures Within(data[ps[|ps| - 1]], MergeParents(reg, data, resolved, t, ps, acc).0)
    decreases |ps|
  {
    var (parent, marked) := Resolve(reg, data, resolved, ps[0]);
    if |ps| == 1 {
      ResolveKeepsOwn(reg, data, resolved, ps[0]);
      assert ps[1..] == [];
      assert MergeParents(reg, data, marked, t, ps[1..], Assign(acc, parent)).0 == Assign(acc, parent);
    } else {
      LastParentWins(reg, data, marked, t, ps[1..], Assign(acc, parent));
    }
  }

  lemma {:induction false} StoreAllFrame(reg: Registry, data: OverwriteData, resolved: seq<TypeName>,
                                         order: seq<TypeName>, t: TypeName)
    requires Acyclic(reg) && t in data && t !in order
    ensures t in StoreAll(reg, data, resolved, order) && StoreAll(reg, data, resolved, order)[t] == data[t]
    decreases |order|
  {
    if order != [] {
      var (o, marked) := Resolve(reg, data, resolved, order[0]);
      StoreAllFrame(reg, Store(data, order[0], o), marked, order[1..], t);
    }
  }

  /** The first and the last parent overwrite one field, and the type another. */
  ghost function Conflict(reg: Registry, t: TypeName): OverwriteData
    requires |Extends(reg, t)| >= 2
  {
    map[t := map["g" := Null]]
    + map[First(reg, t) := map["f" := Text("a")]]
    + map[Last(reg, t) := map["f" := Text("b")]]
  }

  function First(reg: Registry, t: TypeName): TypeName
    requires |Extends(reg, t)| >= 2
  {
    Extends(reg, t)[0]
  }

  function Last(reg: Registry, t: TypeName): TypeName
    requires |Extends(reg, t)| >= 2
  {
    Extends(reg, t)[|Extends(reg, t)| - 1]
  }

  function Involved(reg: Registry, t: TypeName): seq<TypeName>
    requires |Extends(reg, t)| >= 2
  {
    [t, First(reg, t), Last(reg, t)]
  }

  lemma DistinctParents(reg: Registry, t: TypeName)
    requires WellFormed(reg) && |Extends(reg, t)| >= 2
    ensures t != First(reg, t) && t != Last(reg, t) && First(reg, t) != Last(reg, t)
    ensures t in reg.recognized && t in reg.parents && Last(reg, t) in reg.recognized
  {
    assert First(reg, t) in Extends(reg, t) && Last(reg, t) in Extends(reg, t);
    ParentsAreAncestors(reg, t);
  }

  lemma ConflictFields(reg: Registry, t: TypeName)
    requires WellFormed(reg) && |Extends(reg, t)| >= 2
    ensures var data := Conflict(reg, t);
            && Enumerates(Involved(reg, t), data.Keys)
            && data[t] == map["g" := Null]
            && data[First(reg, t)] == map["f" := Text("a")] && data[Last(reg, t)] == map["f" := Text("b")]
  {
    DistinctParents(reg, t);
  }

  lemma ConflictResolved(reg: Registry, t: TypeName)
    requires WellFormed(reg) && |Extends(reg, t)| >= 2
    ensures var o := Resolve(reg, Conflict(reg, t), [], t).0;
            o.Some? && "f" in o.value && o.value["f"] == Text("b")
  {
    DistinctParents(reg, t);
    ConflictFields(reg, t);
    LastParentWins(reg, Conflict(reg, t), [], t, Extends(reg, t), map[]);
  }

  lemma ConflictStored(reg: Registry, t: TypeName)
    requires WellFormed(reg) && |Extends(reg, t)| >= 2
    ensures var after := Stored(reg, Conflict(reg, t), Involved(reg, t));
            t in after && "f" in after[t] && after[t]["f"] == Text("b")
  {
    var data := Conflict(reg, t);
    DistinctParents(reg, t);
    ConflictResolved(reg, t);
    var (o, marked) := Resolve(reg, data, [], t);
    var rest := Involved(reg, t)[1..];
    assert rest == [First(reg, t), Last(reg, t)];
    StoreAllFrame(reg, Store(data, t, o), marked, rest, t);
  }

  lemma ConflictRead(reg: Registry, t: TypeName, data: OverwriteData, key: string)
    requires Acyclic(reg) && |Extends(reg, t)| >= 1
    ensures key in Own(data, t) ==> key in Effective(reg, data, t) && Effective(reg, data, t)[key] == data[t][key]
    ensures var a := Extends(reg, t)[0];
            key !in Own(data, t) && key in Own(data, a) ==>
              key in Effective(reg, data, t) && Effective(reg, data, t)[key] == data[a][key]
  {
    var types := [t] + ParentTypes(reg, t);
    ParentTypesOrder(reg, t);
    assert types[0] == t && types[1] == Extends(reg, t)[0];
    EffectiveIsFirst(reg, data, t, key);
    if key in Own(data, t) {
      assert FirstWith(data, types, key, 0);
    } else if key in Own(data, types[1]) {
      assert FirstWith(data, types, key, 1);
    }
  }

  /** Two parents that overwrite one field: `getOverwrites` prefers the last,
      `get` the first, so an unrelated overwrite of the child decides. */
  lemma TwoParentsDisagree(reg: Registry, t: TypeName)
    requires WellFormed(reg) && |Extends(reg, t)| >= 2
    ensures var data, order := Conflict(reg, t), Involved(reg, t);
            && Enumerates(order, data.Keys)
            && Effective(reg, Stored(reg, data, order), t) != Effective(reg, data, t)
  {
    ConflictFields(reg, t);
    ConflictStored(reg, t);
    ConflictReadAs(reg, t, Conflict(reg, t), "a");
    ConflictReadAs(reg, t, Stored(reg, Conflict(reg, t), Involved(reg, t)), "b");
  }

  /** A value of the type itself is read first, then one of its first parent. */
  lemma ConflictReadAs(reg: Registry, t: TypeName, data: OverwriteData, text: string)
    requires Acyclic(reg) && |Extends(reg, t)| >= 1
    requires var own, first := Own(data, t), Own(data, Extends(reg, t)[0]);
             if "f" in own then own["f"] == Text(text) else "f" in first && first["f"] == Text(text)
    ensures "f" in Effective(reg, data, t) && Effective(reg, data, t)["f"] == Text(text)
  {
    ConflictRead(reg, t, data, "f");
  }

  lemma ResolutionInvisibleIff(reg: Registry)
    requires WellFormed(reg)
    ensures ResolutionNeverVisible(reg) <==> SingleInheritance(reg)
  {
    if SingleInheritance(reg) {
      forall data: OverwriteData, order: seq<TypeName>, t: TypeName
        ensures Effective(reg, Stored(reg, data, order), t) == Effective(reg, data, t)
      {
        ResolutionIsInvisible(reg, data, [], order, t);
      }
    } else {
      var t :| |Extends(reg, t)| >= 2;
      TwoParentsDisagree(reg, t);
      ResolutionVisible(reg, Conflict(reg, t), Involved(reg, t), t);
    }
  }

  lemma ResolutionVisible(reg: Registry, data: OverwriteData, order: seq<TypeName>, t: TypeName)
    requires Acyclic(reg) && Enumerates(order, data.Keys)
    requires Effective(reg, Stored(reg, data, order), t) != Effective(reg, data, t)
    ensures !ResolutionNeverVisible(reg)
  {
  }
}
