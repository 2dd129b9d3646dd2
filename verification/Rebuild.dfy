/** Rebuilding the tables from loaders whose objects an earlier rebuild has changed in
    place: what comes out the same, and exactly when the tools do. */
module Rebuild {
  import opened Wrappers
  import opened NodeLoading

  // ---------------------------------------------------------------------------
  // Credentials
  // ---------------------------------------------------------------------------

  lemma RestrictedTwice(c: CredentialType)
    ensures Restricted(Restricted(c)) == Restricted(c)
    ensures Restricted(c).supportedNodes == c.supportedNodes
  {
    if ShouldAddDomainRestrictions(c) {
      var fields := if c.properties.Some? then c.properties.value else [];
      var injected := InjectDomainRestrictionFields(fields);
      if injected != fields {
        assert injected[|fields|].name == "allowedHttpRequestDomains";
      }
    }
  }

  /** The same objects up to restrictions that are already in place. */
  ghost predicate SameRestricted(a: Credentials, b: Credentials) {
    |a| == |b| && forall r :: 0 <= r < |a| ==> Restricted(a[r]) == Restricted(b[r])
  }

  lemma {:induction false} RestrictInPlaceSame(refs: seq<Ref>, a: Credentials, b: Credentials)
    requires InRange(refs, |b|) && SameRestricted(a, b)
    ensures SameRestricted(a, RestrictInPlace(refs, b))
    decreases |refs|
  {
    if refs != [] {
      RestrictedTwice(b[refs[0]]);
      RestrictInPlaceSame(refs[1..], a, b[refs[0] := Restricted(b[refs[0]])]);
    }
  }

  lemma ProcessedAllSame(loader: Loader, a: Credentials, b: Credentials)
    requires InRange(loader.credentials, |a|) && SameRestricted(a, b)
    ensures ProcessedAll(loader, a) == ProcessedAll(loader, b)
  {
    forall k | 0 <= k < |loader.credentials|
      ensures Processed(loader, a[loader.credentials[k]]) == Processed(loader, b[loader.credentials[k]])
    {
      RestrictedTwice(a[loader.credentials[k]]);
      RestrictedTwice(b[loader.credentials[k]]);
    }
  }

  lemma {:induction false} CollectAllSame(loaders: seq<Loader>, tables: Tables<Ref>, a: Heap, b: Heap)
    requires WellFormed(loaders, a) && WellFormed(loaders, b) && SameRestricted(a.credentials, b.credentials)
    ensures CollectAll(loaders, tables, a).0 == CollectAll(loaders, tables, b).0
    ensures SameRestricted(b.credentials, CollectAll(loaders, tables, a).1.credentials)
    decreases |loaders|
  {
    if loaders != [] {
      var loader := loaders[0];
      assert LoaderBounded(loader, a) && LoaderBounded(loader, b);
      ProcessedAllSame(loader, a.credentials, b.credentials);
      RestrictInPlaceLength(loader.credentialTypes, a.credentials);
      RestrictInPlaceLength(loader.credentialTypes, b.credentials);
      RestrictInPlaceSame(loader.credentialTypes, b.credentials, a.credentials);
      RestrictInPlaceSame(loader.credentialTypes, b.credentials, b.credentials);
      var a1 := a.(credentials := RestrictInPlace(loader.credentialTypes, a.credentials));
      var b1 := b.(credentials := RestrictInPlace(loader.credentialTypes, b.credentials));
      CollectAllSame(loaders[1..], Collect(loader, tables, a.credentials), a1, b1);
    }
  }

  // ---------------------------------------------------------------------------
  // What a description shows
  // ---------------------------------------------------------------------------

  predicate Within(properties: seq<Property<Ref>>, n: nat) {
    forall k :: 0 <= k < |properties| && properties[k].options.Some? ==> properties[k].options.value < n
  }

  function ShownProperty(p: Property<Ref>, lists: Lists): Property<seq<Item>>
    requires p.options.Some? ==> p.options.value < |lists|
  {
    Property(p.name, p.kind, p.defaultValue, p.onlyManual, p.rest,
             if p.options.Some? then Some(lists[p.options.value]) else None)
  }

  function ShownProperties(properties: seq<Property<Ref>>, lists: Lists): seq<Property<seq<Item>>>
    requires Within(properties, |lists|)
  {
    seq(|properties|, k requires 0 <= k < |properties| => ShownProperty(properties[k], lists))
  }

  /** A description with the contents of its options arrays in place of the arrays. */
  function Shown(d: Description<Ref>, lists: Lists): Description<seq<Item>>
    requires Bounded(d, |lists|)
  {
    Description(d.name, d.displayName, d.description, d.inputs, d.outputs, d.usableAsTool, d.version, d.defaultVersion,
                d.credentials, d.codex, ShownProperties(d.properties, lists))
  }

  lemma BoundedTail(nodes: Nodes, n: nat)
    requires nodes != [] && AllBounded(nodes, n)
    ensures Bounded(nodes[0], n) && AllBounded(nodes[1..], n)
  {
    assert forall i :: 0 <= i < |nodes[1..]| ==> nodes[1..][i] == nodes[i + 1];
  }

  function ShownAll(nodes: Nodes, lists: Lists): seq<Description<seq<Item>>>
    requires AllBounded(nodes, |lists|)
  {
    if nodes == [] then []
    else
      BoundedTail(nodes, |lists|);
      [Shown(nodes[0], lists)] + ShownAll(nodes[1..], lists)
  }

  function ExtendedProperty(p: Property<seq<Item>>): Property<seq<Item>> {
    if Selected(p) then p.(options := Some(WithOption(p.options.value))) else p
  }

  function ExtendedProperties(properties: seq<Property<seq<Item>>>): (extended: seq<Property<seq<Item>>>)
    ensures |extended| == |properties|
  {
    seq(|properties|, k requires 0 <= k < |properties| => ExtendedProperty(properties[k]))
  }

  /** A description extended on its own, without any sharing. */
  function Extended(d: Description<seq<Item>>, credentials: Credentials): Description<seq<Item>> {
    if Injects(d, credentials) then d.(properties := ExtendedProperties(d.properties)) else d
  }

  /** The tool of a description with these options: itself extended if all goes well. */
  function ToolOf(d: Description<Ref>, lists: Lists, credentials: Credentials, ok: bool): Description<seq<Item>>
    requires Bounded(d, |lists|)
  {
    Convert(if ok then Extended(Shown(d, lists), credentials) else Shown(d, lists), TYPE_OPTIONS)
  }

  function ToolsOf(usable: Nodes, lists: Lists, credentials: Credentials, ok: bool)
    : (tools: seq<Description<seq<Item>>>)
    requires AllBounded(usable, |lists|)
    ensures |tools| == |usable|
  {
    if usable == [] then []
    else
      BoundedTail(usable, |lists|);
      [ToolOf(usable[0], lists, credentials, ok)] + ToolsOf(usable[1..], lists, credentials, ok)
  }

  // ---------------------------------------------------------------------------
  // Injection, list by list
  // ---------------------------------------------------------------------------

  lemma InjectLength(refs: seq<Ref>, lists: Lists)
    requires InRange(refs, |lists|)
    ensures |InjectLists(refs, lists).0| == |lists|
  {
    InjectConcat(refs, [], lists);
  }

  /** A list is either left alone or gets the option, and nobody but a target gets it. */
  lemma {:induction false} InjectPointwise(refs: seq<Ref>, lists: Lists, r: Ref)
    requires InRange(refs, |lists|) && r < |lists|
    ensures |InjectLists(refs, lists).0| == |lists|
    ensures var after := InjectLists(refs, lists).0[r];
            && (after == lists[r] || after == WithOption(lists[r]))
            && (r !in refs ==> after == lists[r])
            && (InjectLists(refs, lists).1 && r in refs ==> after == WithOption(lists[r]))
    decreases |refs|
  {
    if refs != [] && lists[refs[0]] != [] {
      InjectPointwise(refs[1..], lists[refs[0] := WithOption(lists[refs[0]])], r);
    }
  }

  /** It goes through if and only if no target is empty. */
  lemma {:induction false} InjectOkIff(refs: seq<Ref>, lists: Lists)
    requires InRange(refs, |lists|)
    ensures InjectLists(refs, lists).1 <==> forall k :: 0 <= k < |refs| ==> lists[refs[k]] != []
    decreases |refs|
  {
    if refs != [] && lists[refs[0]] != [] {
      var lists1 := lists[refs[0] := WithOption(lists[refs[0]])];
      InjectOkIff(refs[1..], lists1);
      assert forall r :: 0 <= r < |lists| ==> (lists1[r] == [] <==> lists[r] == []);
      assert forall k :: 0 < k < |refs| ==> refs[k] == refs[1..][k - 1];
    }
  }

  lemma {:induction false} InjectFrame(refs: seq<Ref>, lists: Lists, extra: Lists)
    requires InRange(refs, |lists|)
    ensures InjectLists(refs, lists + extra) == (InjectLists(refs, lists).0 + extra, InjectLists(refs, lists).1)
    decreases |refs|
  {
    if refs != [] && lists[refs[0]] != [] {
      var list := WithOption(lists[refs[0]]);
      assert (lists + extra)[refs[0] := list] == lists[refs[0] := list] + extra;
      InjectFrame(refs[1..], lists[refs[0] := list], extra);
    }
  }

  /** Injecting once more changes nothing and stops, or does not, at the same place. */
  lemma {:induction false} InjectTwice(refs: seq<Ref>, lists: Lists)
    requires InRange(refs, |lists|)
    ensures |InjectLists(refs, lists).0| == |lists|
    ensures InjectLists(refs, InjectLists(refs, lists).0) == InjectLists(refs, lists)
    decreases |refs|
  {
    InjectLength(refs, lists);
    if refs != [] && lists[refs[0]] != [] {
      var lists1 := lists[refs[0] := WithOption(lists[refs[0]])];
      var after := InjectLists(refs[1..], lists1).0;
      InjectTwice(refs[1..], lists1);
      InjectPointwise(refs[1..], lists1, refs[0]);
      assert after[refs[0] := WithOption(after[refs[0]])] == after;
    }
  }

  // ---------------------------------------------------------------------------
  // A tool owns its lists
  // ---------------------------------------------------------------------------

  ghost predicate OwnLists(properties: seq<Property<Ref>>) {
    forall j, k :: 0 <= j < k < |properties| && properties[j].options.Some? && properties[k].options.Some? ==>
      properties[j].options.value != properties[k].options.value
  }

  lemma {:induction false} InPropertyTargetsIff(properties: seq<Property<Ref>>, r: Ref)
    ensures r in PropertyTargets(properties) <==>
              exists k :: 0 <= k < |properties| && Selected(properties[k]) && properties[k].options.value == r
  {
    if properties != [] {
      InPropertyTargetsIff(properties[1..], r);
      assert forall k :: 0 < k < |properties| ==> properties[k] == properties[1..][k - 1];
    }
  }

  lemma InjectOwnProperty(properties: seq<Property<Ref>>, lists: Lists, k: nat)
    requires Within(properties, |lists|)
    requires OwnLists(properties) && InRange(PropertyTargets(properties), |lists|) && k < |properties|
    requires InjectLists(PropertyTargets(properties), lists).1
    ensures var after := InjectLists(PropertyTargets(properties), lists).0;
            |after| == |lists| && ShownProperty(properties[k],
                                                after) == ExtendedProperty(ShownProperty(properties[k], lists))
  {
    InjectLength(PropertyTargets(properties), lists);
    if properties[k].options.Some? {
      InjectPointwise(PropertyTargets(properties), lists, properties[k].options.value);
      InPropertyTargetsIff(properties, properties[k].options.value);
    }
  }

  lemma InjectsShown(d: Description<Ref>, lists: Lists, credentials: Credentials)
    requires Bounded(d, |lists|)
    ensures Injects(Shown(d, lists), credentials) <==> Injects(d, credentials)
  {
  }

  lemma InsertedAt<L>(properties: seq<Property<L>>, at: nat, extra: seq<Property<L>>, k: nat)
    requires at <= |properties| && k < |properties| + |extra|
    ensures |Inserted(properties, at, extra)| == |properties| + |extra|
    ensures Inserted(properties, at, extra)[k]
         == if k < at then properties[k] else if k < at + |extra| then extra[k - at] else properties[k - |extra|]
  {
  }

  ghost predicate ListsFrom(properties: seq<Property<Ref>>, base: nat) {
    forall k :: 0 <= k < |properties| && properties[k].options.Some? ==> properties[k].options.value == base + k
  }

  lemma InsertedOwns(properties: seq<Property<Ref>>, at: nat, extra: seq<Property<Ref>>, base: nat)
    requires at <= |properties| && |extra| <= 2 && ListsFrom(properties, base)
    requires forall k :: 0 <= k < |extra| && extra[k].options.Some? ==>
               k == 0 && extra[k].options.value == base + |properties|
    ensures OwnLists(Inserted(properties, at, extra))
    ensures ListsWithin(Inserted(properties, at, extra), base, base + |properties|)
  {
    var all := Inserted(properties, at, extra);
    forall k: nat | k < |all| && all[k].options.Some?
      ensures all[k].options.value == if k < at then base + k else if k < at + |extra| then base + |properties|
              else base + k - |extra|
      ensures at <= k < at + |extra| ==> k == at
    {
      InsertedAt(properties, at, extra, k);
    }
  }

  ghost predicate ListsWithin(properties: seq<Property<Ref>>, low: nat, high: nat) {
    forall k :: 0 <= k < |properties| && properties[k].options.Some? ==> low <= properties[k].options.value <= high
  }

  lemma DescribingLists(properties: seq<Property<Ref>>, description: string, typeOptions: Ref)
    ensures var extra := DescribingProperties(properties, description, typeOptions);
            |extra| <= 2
            && forall k :: 0 <= k < |extra| && extra[k].options.Some? ==>
                 k == 0 && extra[k].options.value == typeOptions
  {
  }

  /** The properties of the tool at `base`. */
  function ToolPropertiesAt(properties: seq<Property<Ref>>, description: string, base: nat): seq<Property<Ref>> {
    ToolProperties(CopiedProperties(properties, base), description, base + |properties|)
  }

  lemma ToolAtProperties(d: Description<Ref>, base: nat)
    ensures ToolAt(d, base).properties == ToolPropertiesAt(d.properties, d.description, base)
  {
  }

  lemma CopiedFrom(properties: seq<Property<Ref>>, base: nat)
    ensures ListsFrom(CopiedProperties(properties, base), base)
  {
  }

  lemma ToolOwnsLists(properties: seq<Property<Ref>>, description: string, base: nat)
    ensures OwnLists(ToolPropertiesAt(properties, description, base))
    ensures ListsWithin(ToolPropertiesAt(properties, description, base), base, base + |properties|)
  {
    CopiedFrom(properties, base);
    CopyOwnsLists(CopiedProperties(properties, base), description, base, base + |properties|,
                  ToolPropertiesAt(properties, description, base));
  }

  lemma CopyOwnsLists(copied: seq<Property<Ref>>, description: string, base: nat, typeOptions: Ref,
                      tool: seq<Property<Ref>>)
    requires ListsFrom(copied, base) && typeOptions == base + |copied|
    requires tool == ToolProperties(copied, description, typeOptions)
    ensures OwnLists(tool) && ListsWithin(tool, base, typeOptions)
  {
    DescribingLists(copied, description, typeOptions);
    InsertedOwns(copied, LastCallout(copied) + 1, DescribingProperties(copied, description, typeOptions), base);
  }

  // ---------------------------------------------------------------------------
  // What a tool shows
  // ---------------------------------------------------------------------------

  lemma {:induction false} LastCalloutShown(properties: seq<Property<Ref>>, lists: Lists)
    requires Within(properties, |lists|)
    ensures LastCallout(ShownProperties(properties, lists)) == LastCallout(properties)
  {
    if properties != [] {
      var n := |properties| - 1;
      assert ShownProperties(properties, lists)[..n] == ShownProperties(properties[..n], lists);
      LastCalloutShown(properties[..n], lists);
    }
  }

  lemma NamedShown(properties: seq<Property<Ref>>, lists: Lists, name: PropertyName)
    requires Within(properties, |lists|)
    ensures HasNamed(ShownProperties(properties, lists), name) <==> HasNamed(properties, name)
  {
    var shown := ShownProperties(properties, lists);
    assert forall k :: 0 <= k < |properties| ==> shown[k].name == properties[k].name;
  }

  /** The lists of a tool hold what was copied, and its own two choices. */
  ghost predicate Holds(properties: seq<Property<Ref>>, base: nat, lists: Lists, after: Lists)
    requires Within(properties, |lists|)
  {
    && base + |properties| < |after|
    && after[base + |properties|] == TYPE_OPTIONS
    && forall k :: 0 <= k < |properties| && properties[k].options.Some? ==>
         after[base + k] == lists[properties[k].options.value]
  }

  lemma ShownCopy(properties: seq<Property<Ref>>, base: nat, lists: Lists, after: Lists)
    requires Within(properties, |lists|) && Holds(properties, base, lists, after)
    ensures Within(CopiedProperties(properties, base), |after|)
    ensures ShownProperties(CopiedProperties(properties, base), after) == ShownProperties(properties, lists)
  {
    assert forall k :: 0 <= k < |properties| ==>
      ShownProperty(CopiedProperties(properties, base)[k], after) == ShownProperty(properties[k], lists);
  }

  lemma ShownInserted(properties: seq<Property<Ref>>, at: nat, extra: seq<Property<Ref>>, lists: Lists)
    requires at <= |properties|
    requires Within(properties, |lists|)
    requires Within(extra, |lists|)
    ensures Within(Inserted(properties, at, extra), |lists|)
    ensures ShownProperties(Inserted(properties, at, extra), lists)
         == Inserted(ShownProperties(properties, lists), at, ShownProperties(extra, lists))
  {
    forall k: nat | k < |properties| + |extra|
      ensures Inserted(properties, at, extra)[k].options.Some? ==>
              Inserted(properties, at, extra)[k].options.value < |lists|
    {
      InsertedAt(properties, at, extra, k);
    }
    var shown := ShownProperties(Inserted(properties, at, extra), lists);
    forall k: nat | k < |properties| + |extra|
      ensures shown[k] == Inserted(ShownProperties(properties, lists), at, ShownProperties(extra, lists))[k]
    {
      InsertedAt(properties, at, extra, k);
      InsertedAt(ShownProperties(properties, lists), at, ShownProperties(extra, lists), k);
    }
  }

  lemma ShownDescribing(properties: seq<Property<Ref>>, description: string, typeOptions: Ref, lists: Lists)
    requires Within(properties, |lists|)
    requires typeOptions < |lists|
    ensures ShownProperties(DescribingProperties(properties, description, typeOptions), lists)
         == DescribingProperties(ShownProperties(properties, lists), description, lists[typeOptions])
  {
    NamedShown(properties, lists, ToolDescription);
    NamedShown(properties, lists, Resource);
    NamedShown(properties, lists, Operation);
  }

  lemma ShownToolProperties(properties: seq<Property<Ref>>, description: string, typeOptions: Ref, lists: Lists)
    requires Within(properties, |lists|)
    requires typeOptions < |lists|
    ensures Within(ToolProperties(properties, description, typeOptions), |lists|)
    ensures ShownProperties(ToolProperties(properties, description, typeOptions), lists)
         == ToolProperties(ShownProperties(properties, lists), description, lists[typeOptions])
  {
    LastCalloutShown(properties, lists);
    ShownDescribing(properties, description, typeOptions, lists);
    ShownInserted(properties, LastCallout(properties) + 1, DescribingProperties(properties, description, typeOptions),
                  lists);
  }

  // ---------------------------------------------------------------------------
  // Extending and converting commute
  // ---------------------------------------------------------------------------

  lemma {:induction false} LastCalloutExtended(properties: seq<Property<seq<Item>>>)
    ensures LastCallout(ExtendedProperties(properties)) == LastCallout(properties)
  {
    if properties != [] {
      var n := |properties| - 1;
      assert ExtendedProperties(properties)[..n] == ExtendedProperties(properties[..n]);
      LastCalloutExtended(properties[..n]);
    }
  }

  lemma NamedExtended(properties: seq<Property<seq<Item>>>, name: PropertyName)
    ensures HasNamed(ExtendedProperties(properties), name) <==> HasNamed(properties, name)
  {
    assert forall k :: 0 <= k < |properties| ==> ExtendedProperties(properties)[k].name == properties[k].name;
  }

  lemma DescribingExtended(properties: seq<Property<seq<Item>>>, description: string, typeOptions: seq<Item>)
    ensures var extra := DescribingProperties(properties, description, typeOptions);
            && ExtendedProperties(extra) == extra
            && DescribingProperties(ExtendedProperties(properties), description, typeOptions) == extra
  {
    NamedExtended(properties, ToolDescription);
    NamedExtended(properties, Resource);
    NamedExtended(properties, Operation);
    var extra := DescribingProperties(properties, description, typeOptions);
    assert forall k :: 0 <= k < |extra| ==> !Selected(extra[k]);
  }

  lemma InsertedExtended(properties: seq<Property<seq<Item>>>, at: nat, extra: seq<Property<seq<Item>>>)
    requires at <= |properties|
    ensures ExtendedProperties(Inserted(properties, at, extra))
         == Inserted(ExtendedProperties(properties), at, ExtendedProperties(extra))
  {
    forall k: nat | k < |properties| + |extra|
      ensures ExtendedProperties(Inserted(properties, at, extra))[k]
           == Inserted(ExtendedProperties(properties), at, ExtendedProperties(extra))[k]
    {
      InsertedAt(properties, at, extra, k);
      InsertedAt(ExtendedProperties(properties), at, ExtendedProperties(extra), k);
    }
  }

  lemma InjectsConverted(d: Description<seq<Item>>, credentials: Credentials)
    ensures Injects(Convert(d, TYPE_OPTIONS), credentials) <==> Injects(d, credentials)
  {
  }

  lemma ExtendedToolProperties(properties: seq<Property<seq<Item>>>, description: string, typeOptions: seq<Item>)
    ensures ExtendedProperties(ToolProperties(properties, description, typeOptions))
         == ToolProperties(ExtendedProperties(properties), description, typeOptions)
  {
    LastCalloutExtended(properties);
    DescribingExtended(properties, description, typeOptions);
    InsertedExtended(properties, LastCallout(properties) + 1,
                     DescribingProperties(properties, description, typeOptions));
  }

  lemma ExtendedConvert(d: Description<seq<Item>>, credentials: Credentials)
    ensures Extended(Convert(d, TYPE_OPTIONS), credentials) == Convert(Extended(d, credentials), TYPE_OPTIONS)
  {
    InjectsConverted(d, credentials);
    ExtendedToolProperties(d.properties, d.description, TYPE_OPTIONS);
  }

  // ---------------------------------------------------------------------------
  // The tools of a run
  // ---------------------------------------------------------------------------

  /** No list that the description would extend is empty. */
  ghost predicate Extendable(d: Description<Ref>, credentials: Credentials, lists: Lists)
    requires Bounded(d, |lists|)
  {
    Injects(d, credentials) ==>
      forall k :: 0 <= k < |d.properties| && Selected(d.properties[k]) ==> lists[d.properties[k].options.value] != []
  }

  lemma CopyShown(copied: seq<Property<Ref>>, description: string, typeOptions: Ref, current: Lists,
                  shown: seq<Property<seq<Item>>>)
    requires Within(copied, |current|) && ShownProperties(copied, current) == shown
    requires typeOptions < |current| && current[typeOptions] == TYPE_OPTIONS
    ensures Within(ToolProperties(copied, description, typeOptions), |current|)
    ensures ShownProperties(ToolProperties(copied, description, typeOptions), current)
         == ToolProperties(shown, description, TYPE_OPTIONS)
  {
    ShownToolProperties(copied, description, typeOptions, current);
  }

  lemma ToolPropertiesShown(properties: seq<Property<Ref>>, description: string, base: nat,
                            lists: Lists, current: Lists)
    requires Within(properties, |lists|) && Holds(properties, base, lists, current)
    ensures Within(ToolPropertiesAt(properties, description, base), |current|)
    ensures ShownProperties(ToolPropertiesAt(properties, description, base), current)
         == ToolProperties(ShownProperties(properties, lists), description, TYPE_OPTIONS)
  {
    ShownCopy(properties, base, lists, current);
    CopyShown(CopiedProperties(properties, base), description, base + |properties|, current,
              ShownProperties(properties, lists));
  }

  /** What a tool shows is what its original shows, converted. */
  lemma ToolShown(d: Description<Ref>, base: nat, lists: Lists, current: Lists)
    requires Bounded(d, |lists|) && Holds(d.properties, base, lists, current)
    ensures Bounded(ToolAt(d, base), |current|)
    ensures Shown(ToolAt(d, base), current) == Convert(Shown(d, lists), TYPE_OPTIONS)
  {
    ToolAtProperties(d, base);
    ToolPropertiesShown(d.properties, d.description, base, lists, current);
  }

  lemma ToolExtendable(properties: seq<Property<Ref>>, description: string, base: nat,
                       lists: Lists, current: Lists, k: nat)
    requires Within(properties, |lists|) && Holds(properties, base, lists, current)
    requires forall j :: 0 <= j < |properties| && Selected(properties[j]) ==> lists[properties[j].options.value] != []
    requires k < |ToolPropertiesAt(properties, description, base)|
    requires Selected(ToolPropertiesAt(properties, description, base)[k])
    ensures var r := ToolPropertiesAt(properties, description, base)[k].options.value;
            r < |current| && current[r] != []
  {
    var copied := CopiedProperties(properties, base);
    var extra := DescribingProperties(copied, description, base + |properties|);
    var at := LastCallout(copied) + 1;
    InsertedAt(copied, at, extra, k);
    assert forall j :: 0 <= j < |extra| ==> !Selected(extra[j]);
    var j := if k < at then k else k - |extra|;
    assert Selected(properties[j]);
  }

  /** None of the arrays that the tool selects is empty. */
  lemma ToolTargetsExtendable(properties: seq<Property<Ref>>, description: string, base: nat,
                              lists: Lists, current: Lists)
    requires Within(properties, |lists|) && Holds(properties, base, lists, current)
    requires forall j :: 0 <= j < |properties| && Selected(properties[j]) ==> lists[properties[j].options.value] != []
    ensures var refs := PropertyTargets(ToolPropertiesAt(properties, description, base));
            InRange(refs, |current|) && forall i :: 0 <= i < |refs| ==> current[refs[i]] != []
  {
    var tool := ToolPropertiesAt(properties, description, base);
    var refs := PropertyTargets(tool);
    ToolPropertiesShown(properties, description, base, lists, current);
    PropertyTargetsBounded(tool, |current|);
    forall i | 0 <= i < |refs|
      ensures current[refs[i]] != []
    {
      InPropertyTargetsIff(tool, refs[i]);
      var k: nat :| k < |tool| && Selected(tool[k]) && tool[k].options.value == refs[i];
      ToolExtendable(properties, description, base, lists, current, k);
    }
  }

  lemma ToolPropertiesInjected(properties: seq<Property<Ref>>, description: string, base: nat,
                               lists: Lists, current: Lists)
    requires Within(properties, |lists|) && Holds(properties, base, lists, current)
    requires forall j :: 0 <= j < |properties| && Selected(properties[j]) ==> lists[properties[j].options.value] != []
    ensures var tool := ToolPropertiesAt(properties, description, base);
            && Within(tool, |current|) && InRange(PropertyTargets(tool), |current|)
            && var (after, ok) := InjectLists(PropertyTargets(tool), current);
               && ok && |after| == |current|
               && (forall r :: 0 <= r < |current| && !(base <= r <= base + |properties|) ==> after[r] == current[r])
               && ShownProperties(tool, after)
               == ExtendedProperties(ToolProperties(ShownProperties(properties, lists), description, TYPE_OPTIONS))
  {
    var tool := ToolPropertiesAt(properties, description, base);
    var refs := PropertyTargets(tool);
    ToolPropertiesShown(properties, description, base, lists, current);
    ToolOwnsLists(properties, description, base);
    ToolTargetsExtendable(properties, description, base, lists, current);
    InjectLength(refs, current);
    InjectOkIff(refs, current);
    var after := InjectLists(refs, current).0;
    forall k | 0 <= k < |tool|
      ensures ShownProperty(tool[k], after) == ExtendedProperty(ShownProperty(tool[k], current))
    {
      InjectOwnProperty(tool, current, k);
    }
    forall r | 0 <= r < |current| && !(base <= r <= base + |properties|)
      ensures after[r] == current[r]
    {
      InjectPointwise(refs, current, r);
      InPropertyTargetsIff(tool, r);
    }
  }

  lemma ToolInjected(d: Description<Ref>, base: nat, credentials: Credentials, lists: Lists, current: Lists)
    requires Bounded(d, |lists|) && Holds(d.properties, base, lists, current) && Extendable(d, credentials, lists)
    ensures var t := ToolAt(d, base);
            && Bounded(t, |current|) && InRange(OwnTargets(t, credentials), |current|)
            && var (after, ok) := InjectLists(OwnTargets(t, credentials), current);
               && ok && |after| == |current|
               && (forall r :: 0 <= r < |current| && !(base <= r <= base + |d.properties|) ==> after[r] == current[r])
               && Shown(t, after) == ToolOf(d, lists, credentials, true)
  {
    var t := ToolAt(d, base);
    ToolAtProperties(d, base);
    ToolShown(d, base, lists, current);
    InjectsShown(d, lists, credentials);
    InjectsShown(t, current, credentials);
    ExtendedConvert(Shown(d, lists), credentials);
    InjectsConverted(Shown(d, lists), credentials);
    if Injects(t, credentials) {
      ToolPropertiesInjected(d.properties, d.description, base, lists, current);
    }
  }

  lemma ShownAllCons(t: Description<Ref>, rest: Nodes, lists: Lists)
    requires Bounded(t, |lists|) && AllBounded(rest, |lists|)
    ensures AllBounded([t] + rest, |lists|)
    ensures ShownAll([t] + rest, lists) == [Shown(t, lists)] + ShownAll(rest, lists)
  {
    assert ([t] + rest)[1..] == rest;
  }

  /** `current` ends in the lists that the tools bring. */
  predicate HoldsTools(usable: Nodes, lists: Lists, current: Lists)
    requires AllBounded(usable, |lists|)
  {
    var all := Tools(usable, lists).1;
    |current| == |all| && |all| >= |lists| && current[|lists|..] == all[|lists|..]
  }

  /** Every tool of a run shows what its original showed when it was copied. */
  lemma {:induction false} ToolsShown(usable: Nodes, orig: Lists, lists: Lists,
                                      current: Lists, credentials: Credentials)
    requires AllBounded(usable, |orig|) && orig <= lists && AllBounded(usable, |lists|)
    requires HoldsTools(usable, lists, current)
    ensures AllBounded(Tools(usable, lists).0, |current|)
    ensures ShownAll(Tools(usable, lists).0, current) == ToolsOf(usable, orig, credentials, false)
    decreases |usable|
  {
    if usable != [] {
      var d := usable[0];
      var base := |lists|;
      NextTool(usable, orig, lists, current);
      ToolShown(d, base, orig, current);
      var lists1 := lists + NewLists(d, lists);
      ToolsShown(usable[1..], orig, lists1, current, credentials);
      ShownAllCons(ToolAt(d, base), Tools(usable[1..], lists1).0, current);
      assert Tools(usable, lists).0 == [ToolAt(d, base)] + Tools(usable[1..], lists1).0;
    }
  }

  /** The first tool finds its lists in place, and leaves the same to say of the rest. */
  lemma NextTool(usable: Nodes, orig: Lists, lists: Lists, current: Lists)
    requires usable != [] && AllBounded(usable, |orig|) && orig <= lists && AllBounded(usable, |lists|)
    requires HoldsTools(usable, lists, current)
    ensures Bounded(usable[0], |orig|) && Bounded(usable[0], |lists|)
    ensures AllBounded(usable[1..], |orig|) && AllBounded(usable[1..], |lists + NewLists(usable[0], lists)|)
    ensures orig <= lists + NewLists(usable[0], lists)
    ensures Holds(usable[0].properties, |lists|, orig, current)
    ensures var lists1 := lists + NewLists(usable[0], lists);
            && Tools(usable[1..], lists1).1 == Tools(usable, lists).1
            && |lists1| == |lists| + |usable[0].properties| + 1 <= |current|
            && current[|lists1|..] == Tools(usable[1..], lists1).1[|lists1|..]
  {
    var d := usable[0];
    BoundedTail(usable, |orig|);
    BoundedTail(usable, |lists|);
    var lists1 := lists + NewLists(d, lists);
    AllBoundedMonotone(usable[1..], |orig|, |lists1|);
    ToolsKeepLists(usable[1..], lists1);
    SameTail(current, Tools(usable, lists).1, |lists|, |lists1|);
    NewListsHold(d, orig, lists, current);
  }

  lemma SameTail<T>(a: seq<T>, b: seq<T>, low: nat, high: nat)
    requires |a| == |b| && low <= high <= |a| && a[low..] == b[low..]
    ensures a[high..] == b[high..]
    ensures forall r :: low <= r < |a| ==> a[r] == b[r]
  {
    assert a[high..] == a[low..][high - low..] && b[high..] == b[low..][high - low..];
    forall r | low <= r < |a|
      ensures a[r] == b[r]
    {
      assert a[r] == a[low..][r - low] && b[r] == b[low..][r - low];
    }
  }

  lemma NewListsHold(d: Description<Ref>, orig: Lists, lists: Lists, current: Lists)
    requires Bounded(d, |orig|) && orig <= lists && |lists + NewLists(d, lists)| <= |current|
    requires forall r :: |lists| <= r < |lists + NewLists(d, lists)| ==> current[r] == (lists + NewLists(d, lists))[r]
    ensures Holds(d.properties, |lists|, orig, current)
  {
    var n := |lists|;
    assert current[n + |d.properties|] == NewLists(d, lists)[|d.properties|];
    forall k | 0 <= k < |d.properties| && d.properties[k].options.Some?
      ensures current[n + k] == orig[d.properties[k].options.value]
    {
      assert current[n + k] == NewLists(d, lists)[k];
    }
  }

  lemma {:induction false} ToolsKeepLists(usable: Nodes, lists: Lists)
    requires AllBounded(usable, |lists|)
    ensures lists <= Tools(usable, lists).1
    decreases |usable|
  {
    if usable != [] {
      BoundedTail(usable, |lists|);
      AllBoundedMonotone(usable[1..], |lists|, |lists + NewLists(usable[0], lists)|);
      ToolsKeepLists(usable[1..], lists + NewLists(usable[0], lists));
    }
  }

  ghost predicate AllExtendable(nodes: Nodes, credentials: Credentials, lists: Lists)
    requires AllBounded(nodes, |lists|)
  {
    forall i :: 0 <= i < |nodes| ==> Extendable(nodes[i], credentials, lists)
  }

  lemma AllExtendableRest(nodes: Nodes, credentials: Credentials, lists: Lists)
    requires nodes != [] && AllBounded(nodes, |lists|) && AllExtendable(nodes, credentials, lists)
    ensures AllBounded(nodes[1..], |lists|) && AllExtendable(nodes[1..], credentials, lists)
  {
    assert forall i :: 0 <= i < |nodes[1..]| ==> nodes[1..][i] == nodes[i + 1];
  }

  lemma TargetsCons(t: Description<Ref>, rest: Nodes, credentials: Credentials)
    ensures Targets([t] + rest, credentials) == OwnTargets(t, credentials) + Targets(rest, credentials)
  {
    assert ([t] + rest)[1..] == rest;
  }

  lemma SameSlices<T>(a: seq<T>, b: seq<T>, low: nat, high: nat)
    requires |a| == |b| && low <= high <= |a|
    requires forall r :: 0 <= r < |a| && !(low <= r <= high - 1) ==> b[r] == a[r]
    ensures b[..low] == a[..low] && b[high..] == a[high..]
  {
  }

  lemma ShorterSlice<T>(a: seq<T>, b: seq<T>, low: nat, high: nat)
    requires low <= high <= |a| && high <= |b| && a[..high] == b[..high]
    ensures a[..low] == b[..low]
  {
    assert a[..low] == a[..high][..low] && b[..low] == b[..high][..low];
  }

  /** Injecting into the tools of a run extends each of them on its own. */
  lemma {:induction false} ToolsInjected(usable: Nodes, orig: Lists, lists: Lists,
                                         current: Lists, credentials: Credentials)
    requires AllBounded(usable, |orig|) && orig <= lists && AllBounded(usable, |lists|)
    requires AllExtendable(usable, credentials, orig)
    requires HoldsTools(usable, lists, current)
    ensures var (tools, all) := Tools(usable, lists);
            && InRange(Targets(tools, credentials), |current|)
            && var (after, ok) := InjectLists(Targets(tools, credentials), current);
               && ok && |after| == |current| && after[..|lists|] == current[..|lists|]
               && AllBounded(tools, |after|)
               && ShownAll(tools, after) == ToolsOf(usable, orig, credentials, true)
    decreases |usable|
  {
    if usable != [] {
      var d, base := usable[0], |lists|;
      var lists1 := lists + NewLists(d, lists);
      NextTool(usable, orig, lists, current);
      assert Extendable(d, credentials, orig);
      ToolInjected(d, base, credentials, orig, current);
      var t := ToolAt(d, base);
      var current1 := InjectLists(OwnTargets(t, credentials), current).0;
      SameSlices(current, current1, base, |lists1|);
      AllExtendableRest(usable, credentials, orig);
      ToolsInjected(usable[1..], orig, lists1, current1, credentials);
      var rest := Tools(usable[1..], lists1).0;
      InjectConcat(OwnTargets(t, credentials), Targets(rest, credentials), current);
      TargetsCons(t, rest, credentials);
      assert Tools(usable, lists).0 == [t] + rest;
      var after := InjectLists(Targets(rest, credentials), current1).0;
      ShorterSlice(after, current1, base, |lists1|);
      ToolAtBounded(d, base);
      SameShown(t, |lists1|, current1, after);
      ShownAllCons(t, rest, after);
    }
  }

  /** A description shows the same while the lists below its bound are the same. */
  lemma SameShown(d: Description<Ref>, n: nat, a: Lists, b: Lists)
    requires n <= |a| && n <= |b| && a[..n] == b[..n] && Bounded(d, n)
    ensures Shown(d, a) == Shown(d, b)
  {
    forall k | 0 <= k < |d.properties|
      ensures ShownProperty(d.properties[k], a) == ShownProperty(d.properties[k], b)
    {
      if d.properties[k].options.Some? {
        var r := d.properties[k].options.value;
        assert a[r] == a[..n][r] && b[r] == b[..n][r];
      }
    }
    assert ShownProperties(d.properties, a) == ShownProperties(d.properties, b);
  }

  // ---------------------------------------------------------------------------
  // A whole run
  // ---------------------------------------------------------------------------

  lemma HeadOfConcat<T>(a: seq<T>, b: seq<T>)
    requires a != []
    ensures (a + b)[0] == a[0] && (a + b)[1..] == a[1..] + b
  {
  }

  lemma {:induction false} TargetsConcat(a: Nodes, b: Nodes, credentials: Credentials)
    ensures Targets(a + b, credentials) == Targets(a, credentials) + Targets(b, credentials)
    decreases |a|
  {
    if a == [] {
      assert a + b == b;
    } else {
      HeadOfConcat(a, b);
      TargetsConcat(a[1..], b, credentials);
      Associative(OwnTargets(a[0], credentials), Targets(a[1..], credentials), Targets(b, credentials));
    }
  }

  /** Some description that gets the option selects this list for it. */
  ghost predicate IsTarget(nodes: Nodes, credentials: Credentials, r: Ref) {
    exists i :: 0 <= i < |nodes| && Injects(nodes[i], credentials) && r in PropertyTargets(nodes[i].properties)
  }

  lemma {:induction false} InTargetsIff(nodes: Nodes, credentials: Credentials, r: Ref)
    ensures r in Targets(nodes, credentials) <==> IsTarget(nodes, credentials, r)
  {
    if nodes != [] {
      InTargetsIff(nodes[1..], credentials, r);
      IsTargetCons(nodes, credentials, r);
    }
  }

  lemma IsTargetCons(nodes: Nodes, credentials: Credentials, r: Ref)
    requires nodes != []
    ensures IsTarget(nodes, credentials, r)
       <==> r in OwnTargets(nodes[0], credentials) || IsTarget(nodes[1..], credentials, r)
  {
    if IsTarget(nodes[1..], credentials, r) {
      var i :| 0 <= i < |nodes[1..]| && Injects(nodes[1..][i], credentials) &&
        r in PropertyTargets(nodes[1..][i].properties);
      assert nodes[i + 1] == nodes[1..][i];
    }
    if IsTarget(nodes, credentials, r) && r !in OwnTargets(nodes[0], credentials) {
      var i :| 0 <= i < |nodes| && Injects(nodes[i], credentials) && r in PropertyTargets(nodes[i].properties);
      assert nodes[i] == nodes[1..][i - 1];
    }
  }

  lemma {:induction false} UsableIff(nodes: Nodes, d: Description<Ref>)
    ensures d in Usable(nodes) <==> d in nodes && d.usableAsTool
  {
    if nodes != [] {
      UsableIff(nodes[1..], d);
      assert nodes == [nodes[0]] + nodes[1..];
    }
  }

  lemma UsableExtendable(nodes: Nodes, credentials: Credentials, lists: Lists)
    requires AllBounded(nodes, |lists|) && AllBounded(Usable(nodes), |lists|)
    requires InRange(Targets(nodes, credentials), |lists|) && InjectLists(Targets(nodes, credentials), lists).1
    ensures AllExtendable(Usable(nodes), credentials, lists)
  {
    var usable := Usable(nodes);
    InjectOkIff(Targets(nodes, credentials), lists);
    forall i | 0 <= i < |usable|
      ensures Extendable(usable[i], credentials, lists)
    {
      UsableIff(nodes, usable[i]);
      assert Bounded(usable[i], |lists|);
      if Injects(usable[i], credentials) {
        forall k | 0 <= k < |usable[i].properties| && Selected(usable[i].properties[k])
          ensures lists[usable[i].properties[k].options.value] != []
        {
          InPropertyTargetsIff(usable[i].properties, usable[i].properties[k].options.value);
          InTargetsIff(nodes, credentials, usable[i].properties[k].options.value);
        }
      }
    }
  }

  lemma {:induction false} SameShownAll(nodes: Nodes, a: Lists, b: Lists)
    requires AllBounded(nodes, |a|) && |a| <= |b| && a == b[..|a|]
    ensures AllBounded(nodes, |b|) && ShownAll(nodes, a) == ShownAll(nodes, b)
    decreases |nodes|
  {
    AllBoundedMonotone(nodes, |a|, |b|);
    if nodes != [] {
      BoundedTail(nodes, |a|);
      SameShown(nodes[0], |a|, a, b);
      SameShownAll(nodes[1..], a, b);
    }
  }

  lemma {:induction false} ShownAllConcat(a: Nodes, b: Nodes, lists: Lists)
    requires AllBounded(a, |lists|) && AllBounded(b, |lists|)
    ensures AllBounded(a + b, |lists|) && ShownAll(a + b, lists) == ShownAll(a, lists) + ShownAll(b, lists)
    decreases |a|
  {
    if a == [] {
      assert a + b == b;
    } else {
      BoundedTail(a, |lists|);
      ShownAllConcat(a[1..], b, lists);
      ShownAllCons(a[0], a[1..] + b, lists);
      HeadOfConcat(a, b);
      assert a + b == [a[0]] + (a[1..] + b);
      Associative([Shown(a[0], lists)], ShownAll(a[1..], lists), ShownAll(b, lists));
    }
  }

  /** Injection reaches the tools' lists, which come last, if it gets that far. */
  lemma InjectBoth(a: seq<Ref>, b: seq<Ref>, lists: Lists, extra: Lists)
    requires InRange(a, |lists|) && InRange(b, |lists| + |extra|)
    ensures InRange(a + b, |lists| + |extra|) && |InjectLists(a, lists).0| == |lists|
    ensures InjectLists(a + b, lists + extra)
         == if InjectLists(a, lists).1 then InjectLists(b, InjectLists(a, lists).0 + extra)
            else (InjectLists(a, lists).0 + extra, false)
  {
    InjectFrame(a, lists, extra);
    InjectLength(a, lists);
    InjectConcat(a, b, lists + extra);
  }

  /** The lists after a run whose tools brought `extra`. */
  function Ended(a: seq<Ref>, b: seq<Ref>, lists: Lists, extra: Lists): (Lists, bool)
    requires InRange(a, |lists|) && InRange(b, |lists| + |extra|)
  {
    InjectLength(a, lists);
    if InjectLists(a, lists).1 then InjectLists(b, InjectLists(a, lists).0 + extra)
    else (InjectLists(a, lists).0 + extra, false)
  }

  lemma RunShowsTools(nodes: Nodes, credentials: Credentials, lists: Lists,
                      tools: Nodes, extra: Lists)
    requires AllBounded(nodes, |lists|) && AllBounded(Usable(nodes), |lists|)
    requires Tools(Usable(nodes), lists) == (tools, lists + extra)
    requires InRange(Targets(nodes, credentials), |lists|) && InRange(Targets(tools, credentials), |lists| + |extra|)
    ensures var plain := InjectLists(Targets(nodes, credentials), lists);
            var after := Ended(Targets(nodes, credentials), Targets(tools, credentials), lists, extra);
            && after.1 == plain.1 && |plain.0| == |lists| <= |after.0| && after.0[..|lists|] == plain.0
            && AllBounded(tools, |after.0|)
            && ShownAll(tools, after.0) == ToolsOf(Usable(nodes), lists, credentials, plain.1)
  {
    InjectLength(Targets(nodes, credentials), lists);
    var (plain, ok) := InjectLists(Targets(nodes, credentials), lists);
    var middle := plain + extra;
    assert (lists + extra)[|lists|..] == extra && middle[|lists|..] == extra && middle[..|lists|] == plain;
    if ok {
      UsableExtendable(nodes, credentials, lists);
      ToolsInjected(Usable(nodes), lists, lists, middle, credentials);
    } else {
      ToolsShown(Usable(nodes), lists, lists, middle, credentials);
    }
  }

  lemma RunShowsAll(nodes: Nodes, tools: Nodes, plain: Lists, after: Lists)
    requires AllBounded(nodes, |plain|) && |plain| <= |after| && after[..|plain|] == plain && AllBounded(tools, |after|)
    ensures AllBounded(nodes + tools, |after|)
    ensures ShownAll(nodes + tools, after) == ShownAll(nodes, plain) + ShownAll(tools, after)
  {
    SameShownAll(nodes, plain, after);
    ShownAllConcat(nodes, tools, after);
  }

  /** What a run makes of the collected nodes: the lists of the loaders as if there were
      no tools, and tools as if each had been derived on its own. */
  lemma RunShows(nodes: Nodes, credentials: Credentials, lists: Lists,
                 tools: Nodes, lists1: Lists, after: Lists, ok: bool)
    requires AllBounded(nodes, |lists|) && AllBounded(Usable(nodes), |lists|)
    requires Tools(Usable(nodes), lists) == (tools, lists1)
    requires InRange(Targets(nodes, credentials), |lists|) && InRange(Targets(nodes + tools, credentials), |lists1|)
    requires InjectLists(Targets(nodes + tools, credentials), lists1) == (after, ok)
    ensures var plain := InjectLists(Targets(nodes, credentials), lists);
            && ok == plain.1 && |plain.0| == |lists| <= |after| && after[..|lists|] == plain.0
            && AllBounded(nodes + tools, |after|)
            && ShownAll(nodes + tools, after)
            == ShownAll(nodes, plain.0) + ToolsOf(Usable(nodes), lists, credentials, ok)
  {
    ToolsKeepLists(Usable(nodes), lists);
    ToolsBounded(Usable(nodes), lists);
    var extra := lists1[|lists|..];
    assert lists1 == lists + extra;
    TargetsBounded(tools, credentials, |lists1|);
    TargetsConcat(nodes, tools, credentials);
    InjectBoth(Targets(nodes, credentials), Targets(tools, credentials), lists, extra);
    RunShowsTools(nodes, credentials, lists, tools, extra);
    RunShowsAll(nodes, tools, InjectLists(Targets(nodes, credentials), lists).0, after);
  }

  // ---------------------------------------------------------------------------
  // The second run
  // ---------------------------------------------------------------------------

  /** Tools show the same with other lists exactly if their properties do. */
  lemma ToolPropertiesInjective(a: seq<Property<seq<Item>>>, b: seq<Property<seq<Item>>>, description: string)
    requires |a| == |b| && LastCallout(a) == LastCallout(b)
    requires DescribingProperties(a, description, TYPE_OPTIONS) == DescribingProperties(b, description, TYPE_OPTIONS)
    ensures ToolProperties(a, description, TYPE_OPTIONS) == ToolProperties(b, description, TYPE_OPTIONS) <==> a == b
  {
    var extra := DescribingProperties(a, description, TYPE_OPTIONS);
    var at := LastCallout(a) + 1;
    if Inserted(a, at, extra) == Inserted(b, at, extra) {
      forall k | 0 <= k < |a|
        ensures a[k] == b[k]
      {
        InsertedAt(a, at, extra, if k < at then k else k + |extra|);
        InsertedAt(b, at, extra, if k < at then k else k + |extra|);
      }
    }
  }

  /** The property shows the same in both lists, or is extended in both. */
  predicate Settled(p: Property<Ref>, before: Lists, after: Lists, extended: bool)
    requires p.options.Some? ==> p.options.value < |before| && p.options.value < |after|
  {
    p.options.Some? ==> after[p.options.value] == before[p.options.value] || (extended && Selected(p))
  }

  /** `after` differs from `before` by options pushed. */
  ghost predicate Pushed(before: Lists, after: Lists) {
    |before| == |after|
    && forall r :: 0 <= r < |before| ==> after[r] == before[r] || after[r] == WithOption(before[r])
  }

  lemma PropertySettledIff(p: Property<Ref>, before: Lists, after: Lists, extended: bool)
    requires Pushed(before, after) && (p.options.Some? ==> p.options.value < |before|)
    ensures var x, y := ShownProperty(p, before), ShownProperty(p, after);
            (if extended then ExtendedProperty(x) == ExtendedProperty(y) else x == y) <==>
              Settled(p, before, after, extended)
  {
  }

  /** What a tool shows of its properties. */
  function ToolPropertiesOf(properties: seq<Property<Ref>>, description: string, lists: Lists, extended: bool)
    : seq<Property<seq<Item>>>
    requires Within(properties, |lists|)
  {
    var shown := ShownProperties(properties, lists);
    ToolProperties(if extended then ExtendedProperties(shown) else shown, description, TYPE_OPTIONS)
  }

  /** The contents of the lists decide neither where nor which properties are added. */
  lemma SameFrame(properties: seq<Property<Ref>>, description: string, before: Lists, after: Lists)
    requires Within(properties, |before|) && Within(properties, |after|)
    ensures LastCallout(ShownProperties(properties, before)) == LastCallout(ShownProperties(properties, after))
    ensures DescribingProperties(ShownProperties(properties, before), description, TYPE_OPTIONS)
         == DescribingProperties(ShownProperties(properties, after), description, TYPE_OPTIONS)
  {
    LastCalloutShown(properties, before);
    LastCalloutShown(properties, after);
    DescribingSame(properties, description, before, after);
  }

  lemma PlainSettledIff(properties: seq<Property<Ref>>, description: string, before: Lists, after: Lists)
    requires Within(properties, |before|) && Pushed(before, after)
    ensures ToolPropertiesOf(properties, description, before, false)
         == ToolPropertiesOf(properties, description, after, false)
       <==> forall k :: 0 <= k < |properties| ==> Settled(properties[k], before, after, false)
  {
    var x, y := ShownProperties(properties, before), ShownProperties(properties, after);
    SameFrame(properties, description, before, after);
    ToolPropertiesInjective(x, y, description);
    assert x == y <==> forall k :: 0 <= k < |properties| ==> Settled(properties[k], before, after, false) by {
      forall k | 0 <= k < |properties| {
        PropertySettledIff(properties[k], before, after, false);
      }
      SameProperties(properties, before, after, x, y, false);
    }
  }

  lemma ExtendedSettledIff(properties: seq<Property<Ref>>, description: string, before: Lists, after: Lists)
    requires Within(properties, |before|) && Pushed(before, after)
    ensures ToolPropertiesOf(properties, description, before, true)
         == ToolPropertiesOf(properties, description, after, true)
       <==> forall k :: 0 <= k < |properties| ==> Settled(properties[k], before, after, true)
  {
    var x, y := ShownProperties(properties, before), ShownProperties(properties, after);
    SameFrame(properties, description, before, after);
    LastCalloutExtended(x);
    LastCalloutExtended(y);
    DescribingExtended(x, description, TYPE_OPTIONS);
    DescribingExtended(y, description, TYPE_OPTIONS);
    ToolPropertiesInjective(ExtendedProperties(x), ExtendedProperties(y), description);
    ExtendedSameIff(properties, before, after);
  }

  lemma ExtendedSameIff(properties: seq<Property<Ref>>, before: Lists, after: Lists)
    requires Within(properties, |before|) && Pushed(before, after)
    ensures ExtendedProperties(ShownProperties(properties, before))
         == ExtendedProperties(ShownProperties(properties, after))
       <==> forall k :: 0 <= k < |properties| ==> Settled(properties[k], before, after, true)
  {
    forall k | 0 <= k < |properties| {
      PropertySettledIff(properties[k], before, after, true);
    }
    SameProperties(properties, before, after, ExtendedProperties(ShownProperties(properties, before)),
                   ExtendedProperties(ShownProperties(properties, after)), true);
  }

  lemma ToolOfProperties(d: Description<Ref>, lists: Lists, credentials: Credentials, ok: bool)
    requires Bounded(d, |lists|)
    ensures ToolOf(d, lists, credentials, ok)
         == Convert(Shown(d, lists), TYPE_OPTIONS).(properties :=
              ToolPropertiesOf(d.properties, d.description, lists, ok && Injects(d, credentials)))
  {
    InjectsShown(d, lists, credentials);
  }

  lemma ToolSettledIff(d: Description<Ref>, before: Lists, after: Lists,
                       credentials: Credentials, ok: bool)
    requires Bounded(d, |before|) && Pushed(before, after)
    ensures ToolOf(d, before, credentials, ok) == ToolOf(d, after, credentials, ok) <==>
              forall k :: 0 <= k < |d.properties| ==>
                Settled(d.properties[k], before, after, ok && Injects(d, credentials))
  {
    ToolOfProperties(d, before, credentials, ok);
    ToolOfProperties(d, after, credentials, ok);
    if ok && Injects(d, credentials) {
      ExtendedSettledIff(d.properties, d.description, before, after);
    } else {
      PlainSettledIff(d.properties, d.description, before, after);
    }
  }

  lemma SameProperties(properties: seq<Property<Ref>>, before: Lists, after: Lists,
                       a: seq<Property<seq<Item>>>, b: seq<Property<seq<Item>>>, extended: bool)
    requires |a| == |b| == |properties| && Within(properties, |before|) && |before| == |after|
    requires forall k :: 0 <= k < |a| ==> (a[k] == b[k] <==> Settled(properties[k], before, after, extended))
    ensures a == b <==> forall k :: 0 <= k < |properties| ==> Settled(properties[k], before, after, extended)
  {
  }

  lemma DescribingSame(properties: seq<Property<Ref>>, description: string, before: Lists, after: Lists)
    requires Within(properties, |before|) && Within(properties, |after|)
    ensures DescribingProperties(ShownProperties(properties, before), description, TYPE_OPTIONS)
         == DescribingProperties(ShownProperties(properties, after), description, TYPE_OPTIONS)
  {
    NamedShown(properties, before, ToolDescription);
    NamedShown(properties, before, Resource);
    NamedShown(properties, before, Operation);
    NamedShown(properties, after, ToolDescription);
    NamedShown(properties, after, Resource);
    NamedShown(properties, after, Operation);
  }

  // ---------------------------------------------------------------------------
  // The condition, on what is there before the rebuild
  // ---------------------------------------------------------------------------

  predicate LacksOption(items: seq<Item>) {
    items != [] && items[|items| - 1].name != CustomApiCall
  }

  /** No array that is to get the option is empty, so that nothing throws. */
  ghost predicate GoesThrough(nodes: Nodes, credentials: Credentials, lists: Lists)
    requires AllBounded(nodes, |lists|)
  {
    forall i, k ::
      0 <= i < |nodes| && 0 <= k < |nodes[i].properties| && Injects(nodes[i], credentials) &&
        Selected(nodes[i].properties[k])
      ==> NonEmpty(nodes[i], k, lists)
  }

  predicate NonEmpty(d: Description<Ref>, k: nat, lists: Lists)
    requires Bounded(d, |lists|) && k < |d.properties| && d.properties[k].options.Some?
  {
    lists[d.properties[k].options.value] != []
  }

  /** The targets before the first empty one. */
  function Reached(refs: seq<Ref>, lists: Lists): seq<Ref>
    requires InRange(refs, |lists|)
  {
    if refs == [] || lists[refs[0]] == [] then [] else [refs[0]] + Reached(refs[1..], lists)
  }

  /** The property holds an array without the option, which it is about to get through
      another property, while the tool of this description is not extended there. */
  ghost predicate LateOption(nodes: Nodes, credentials: Credentials, lists: Lists,
                             d: Description<Ref>, p: Property<Ref>)
    requires AllBounded(nodes, |lists|) && InRange(Targets(nodes, credentials), |lists|)
    requires p.options.Some? ==> p.options.value < |lists|
  {
    && p.options.Some? && LacksOption(lists[p.options.value])
    && p.options.value in Reached(Targets(nodes, credentials), lists)
    && !(GoesThrough(nodes, credentials, lists) && Injects(d, credentials) && Selected(p))
  }

  ghost predicate LateIn(nodes: Nodes, credentials: Credentials, lists: Lists, d: Description<Ref>)
    requires AllBounded(nodes, |lists|) && InRange(Targets(nodes, credentials), |lists|) && Bounded(d, |lists|)
  {
    exists k :: 0 <= k < |d.properties| && LateOption(nodes, credentials, lists, d, d.properties[k])
  }

  /** No usable description has a late option. */
  ghost predicate NoLateOption(nodes: Nodes, credentials: Credentials, lists: Lists)
    requires AllBounded(nodes, |lists|) && InRange(Targets(nodes, credentials), |lists|)
  {
    forall i :: 0 <= i < |nodes| && nodes[i].usableAsTool ==> !LateIn(nodes, credentials, lists, nodes[i])
  }

  lemma InjectOkIffGoesThrough(nodes: Nodes, credentials: Credentials, lists: Lists)
    requires AllBounded(nodes, |lists|) && InRange(Targets(nodes, credentials), |lists|)
    ensures InjectLists(Targets(nodes, credentials), lists).1 <==> GoesThrough(nodes, credentials, lists)
  {
    var refs := Targets(nodes, credentials);
    InjectOkIff(refs, lists);
    if InjectLists(refs, lists).1 {
      forall i, k | 0 <= i < |nodes| && 0 <= k < |nodes[i].properties|
                    && Injects(nodes[i], credentials) && Selected(nodes[i].properties[k])
        ensures NonEmpty(nodes[i], k, lists)
      {
        assert Bounded(nodes[i], |lists|);
        InPropertyTargetsIff(nodes[i].properties, nodes[i].properties[k].options.value);
        InTargetsIff(nodes, credentials, nodes[i].properties[k].options.value);
      }
    }
    if GoesThrough(nodes, credentials, lists) {
      forall j | 0 <= j < |refs|
        ensures lists[refs[j]] != []
      {
        InTargetsIff(nodes, credentials, refs[j]);
        TargetNonEmpty(nodes, credentials, lists, refs[j]);
      }
    }
  }

  lemma TargetNonEmpty(nodes: Nodes, credentials: Credentials, lists: Lists, r: Ref)
    requires AllBounded(nodes, |lists|) && GoesThrough(nodes, credentials, lists) && IsTarget(nodes, credentials, r)
    ensures r < |lists| && lists[r] != []
  {
    var i :| 0 <= i < |nodes| && Injects(nodes[i], credentials) && r in PropertyTargets(nodes[i].properties);
    InPropertyTargetsIff(nodes[i].properties, r);
    var k :| 0 <= k < |nodes[i].properties| && Selected(nodes[i].properties[k]) &&
      nodes[i].properties[k].options.value == r;
    assert Bounded(nodes[i], |lists|) && NonEmpty(nodes[i], k, lists);
  }

  lemma {:induction false} ReachedSame(refs: seq<Ref>, a: Lists, b: Lists)
    requires |a| == |b| && InRange(refs, |a|) && forall r :: 0 <= r < |a| ==> (a[r] == [] <==> b[r] == [])
    ensures Reached(refs, a) == Reached(refs, b)
  {
    if refs != [] {
      ReachedSame(refs[1..], a, b);
    }
  }

  /** A list is extended exactly if it is reached and lacks the option. */
  lemma {:induction false} InjectReaches(refs: seq<Ref>, lists: Lists, r: Ref)
    requires InRange(refs, |lists|) && r < |lists|
    ensures |InjectLists(refs, lists).0| == |lists|
    ensures InjectLists(refs, lists).0[r] != lists[r] <==> r in Reached(refs, lists) && LacksOption(lists[r])
    decreases |refs|
  {
    if refs != [] && lists[refs[0]] != [] {
      var lists1 := lists[refs[0] := WithOption(lists[refs[0]])];
      InjectReaches(refs[1..], lists1, r);
      ReachedSame(refs[1..], lists, lists1);
    }
  }

  lemma {:induction false} AllReached(refs: seq<Ref>, lists: Lists)
    requires InRange(refs, |lists|) && forall k :: 0 <= k < |refs| ==> lists[refs[k]] != []
    ensures Reached(refs, lists) == refs
  {
    if refs != [] {
      assert forall k :: 0 < k < |refs| ==> refs[k] == refs[1..][k - 1];
      AllReached(refs[1..], lists);
    }
  }

  /** If nothing throws, what is reached are the arrays of the selected properties of latest
      versions with proxy authentication. */
  lemma ReachedIff(nodes: Nodes, credentials: Credentials, lists: Lists, r: Ref)
    requires AllBounded(nodes, |lists|) && InRange(Targets(nodes, credentials), |lists|)
    requires GoesThrough(nodes, credentials, lists)
    ensures r in Reached(Targets(nodes, credentials), lists) <==>
              exists i, k :: 0 <= i < |nodes| && 0 <= k < |nodes[i].properties| && Injects(nodes[i], credentials)
                          && Selected(nodes[i].properties[k]) && nodes[i].properties[k].options.value == r
  {
    InjectOkIffGoesThrough(nodes, credentials, lists);
    InjectOkIff(Targets(nodes, credentials), lists);
    AllReached(Targets(nodes, credentials), lists);
    InTargetsIff(nodes, credentials, r);
    forall i | 0 <= i < |nodes| {
      InPropertyTargetsIff(nodes[i].properties, r);
    }
  }

  lemma SettledIffNotLate(nodes: Nodes, credentials: Credentials, lists: Lists, d: Description<Ref>)
    requires AllBounded(nodes, |lists|) && InRange(Targets(nodes, credentials), |lists|) && Bounded(d, |lists|)
    ensures var (plain, ok) := InjectLists(Targets(nodes, credentials), lists);
            SettledIn(d, lists, plain, ok && Injects(d, credentials)) <==> !LateIn(nodes, credentials, lists, d)
  {
    var refs := Targets(nodes, credentials);
    var (plain, ok) := InjectLists(refs, lists);
    InjectLength(refs, lists);
    InjectOkIffGoesThrough(nodes, credentials, lists);
    forall k | 0 <= k < |d.properties|
      ensures Settled(d.properties[k], lists, plain, ok && Injects(d, credentials)) <==>
              !LateOption(nodes, credentials, lists, d, d.properties[k])
    {
      if d.properties[k].options.Some? {
        InjectReaches(refs, lists, d.properties[k].options.value);
      }
    }
  }

  ghost predicate AllSettled(usable: Nodes, before: Lists, after: Lists,
                             credentials: Credentials, ok: bool)
  {
    forall d :: d in usable ==> SettledIn(d, before, after, ok && Injects(d, credentials))
  }

  ghost predicate SettledIn(d: Description<Ref>, before: Lists, after: Lists, extended: bool) {
    Bounded(d, |before|) && |before| == |after|
    && forall k :: 0 <= k < |d.properties| ==> Settled(d.properties[k], before, after, extended)
  }

  lemma InjectPushes(refs: seq<Ref>, lists: Lists)
    requires InRange(refs, |lists|)
    ensures Pushed(lists, InjectLists(refs, lists).0)
  {
    InjectLength(refs, lists);
    forall r | 0 <= r < |lists| {
      InjectPointwise(refs, lists, r);
    }
  }

  lemma ToolSettledInIff(d: Description<Ref>, before: Lists, after: Lists, credentials: Credentials, ok: bool)
    requires Bounded(d, |before|) && Pushed(before, after)
    ensures ToolOf(d, before, credentials, ok) == ToolOf(d, after, credentials, ok)
       <==> SettledIn(d, before, after, ok && Injects(d, credentials))
  {
    ToolSettledIff(d, before, after, credentials, ok);
  }

  lemma {:induction false} ToolsSettledIff(usable: Nodes, before: Lists, after: Lists,
                                           credentials: Credentials, ok: bool)
    requires AllBounded(usable, |before|) && Pushed(before, after)
    ensures ToolsOf(usable, before, credentials, ok) == ToolsOf(usable, after, credentials, ok)
       <==> AllSettled(usable, before, after, credentials, ok)
    decreases |usable|
  {
    if usable != [] {
      BoundedTail(usable, |before|);
      ToolSettledInIff(usable[0], before, after, credentials, ok);
      ToolsSettledIff(usable[1..], before, after, credentials, ok);
      SameCons(ToolOf(usable[0], before, credentials, ok), ToolsOf(usable[1..], before, credentials, ok),
               ToolOf(usable[0], after, credentials, ok), ToolsOf(usable[1..], after, credentials, ok));
      AllSettledCons(usable, before, after, credentials, ok);
    }
  }

  lemma AllSettledCons(usable: Nodes, before: Lists, after: Lists,
                       credentials: Credentials, ok: bool)
    requires usable != []
    ensures AllSettled(usable, before, after, credentials, ok) <==>
              && SettledIn(usable[0], before, after, ok && Injects(usable[0], credentials))
              && AllSettled(usable[1..], before, after, credentials, ok)
  {
    assert usable == [usable[0]] + usable[1..];
    if AllSettled(usable, before, after, credentials, ok) {
      assert usable[0] in usable;
      assert forall d :: d in usable[1..] ==> d in usable;
    } else if SettledIn(usable[0], before, after, ok && Injects(usable[0], credentials))
       && AllSettled(usable[1..], before, after, credentials, ok) {
      forall d | d in usable
        ensures SettledIn(d, before, after, ok && Injects(d, credentials))
      {
        assert d == usable[0] || d in usable[1..];
      }
    }
  }

  lemma SameCons<T>(x: T, a: seq<T>, y: T, b: seq<T>)
    ensures [x] + a == [y] + b <==> x == y && a == b
  {
    if [x] + a == [y] + b {
      assert ([x] + a)[0] == x && ([x] + a)[1..] == a;
      assert ([y] + b)[0] == y && ([y] + b)[1..] == b;
    }
  }

  lemma {:induction false} SameToolsOf(usable: Nodes, a: Lists, b: Lists,
                                       credentials: Credentials, ok: bool)
    requires AllBounded(usable, |a|) && |a| <= |b| && a == b[..|a|]
    ensures AllBounded(usable, |b|) && ToolsOf(usable, a, credentials, ok) == ToolsOf(usable, b, credentials, ok)
    decreases |usable|
  {
    AllBoundedMonotone(usable, |a|, |b|);
    if usable != [] {
      BoundedTail(usable, |a|);
      SameShown(usable[0], |a|, a, b);
      InjectsShown(usable[0], a, credentials);
      SameToolsOf(usable[1..], a, b, credentials, ok);
    }
  }

  lemma NoLateOptionIff(nodes: Nodes, credentials: Credentials, lists: Lists)
    requires AllBounded(nodes, |lists|) && InRange(Targets(nodes, credentials), |lists|)
    requires AllBounded(Usable(nodes), |lists|)
    ensures var (plain, ok) := InjectLists(Targets(nodes, credentials), lists);
            |plain| == |lists|
            && (ToolsOf(Usable(nodes), lists, credentials, ok) == ToolsOf(Usable(nodes), plain, credentials, ok)
                <==> NoLateOption(nodes, credentials, lists))
  {
    InjectLength(Targets(nodes, credentials), lists);
    InjectPushes(Targets(nodes, credentials), lists);
    var (plain, ok) := InjectLists(Targets(nodes, credentials), lists);
    ToolsSettledIff(Usable(nodes), lists, plain, credentials, ok);
    AllSettledIff(nodes, credentials, lists);
  }

  lemma AllSettledIff(nodes: Nodes, credentials: Credentials, lists: Lists)
    requires AllBounded(nodes, |lists|) && InRange(Targets(nodes, credentials), |lists|)
    ensures var (plain, ok) := InjectLists(Targets(nodes, credentials), lists);
            AllSettled(Usable(nodes), lists, plain, credentials, ok) <==> NoLateOption(nodes, credentials, lists)
  {
    var (plain, ok) := InjectLists(Targets(nodes, credentials), lists);
    forall i | 0 <= i < |nodes|
      ensures SettledIn(nodes[i], lists, plain, ok && Injects(nodes[i], credentials)) <==>
              !LateIn(nodes, credentials, lists, nodes[i])
    {
      assert Bounded(nodes[i], |lists|);
      SettledIffNotLate(nodes, credentials, lists, nodes[i]);
    }
    forall d {
      UsableIff(nodes, d);
    }
    if AllSettled(Usable(nodes), lists, plain, credentials, ok) {
      forall i | 0 <= i < |nodes| && nodes[i].usableAsTool
        ensures !LateIn(nodes, credentials, lists, nodes[i])
      {
        assert nodes[i] in Usable(nodes);
      }
    }
    if NoLateOption(nodes, credentials, lists) {
      forall d | d in Usable(nodes)
        ensures SettledIn(d, lists, plain, ok && Injects(d, credentials))
      {
        var i :| 0 <= i < |nodes| && nodes[i] == d;
      }
    }
  }

  /** Lists that begin as an injection left them are left as they are by another. */
  lemma InjectAgain(refs: seq<Ref>, lists: Lists, once: Lists)
    requires InRange(refs, |lists|) && |lists| <= |once|
    requires |InjectLists(refs, lists).0| == |lists| && once[..|lists|] == InjectLists(refs, lists).0
    ensures InjectLists(refs, once) == (once, InjectLists(refs, lists).1)
  {
    var plain := InjectLists(refs, lists).0;
    assert once == plain + once[|lists|..];
    InjectFrame(refs, plain, once[|lists|..]);
    InjectTwice(refs, lists);
  }

  /** What the lists after one run make the next run show. */
  lemma NextRun(nodes: Nodes, credentials: Credentials, lists: Lists, once: Lists, ok: bool)
    requires AllBounded(nodes, |lists|) && InRange(Targets(nodes, credentials), |lists|)
    requires AllBounded(Usable(nodes), |lists|)
    requires var plain := InjectLists(Targets(nodes, credentials), lists);
             ok == plain.1 && |plain.0| == |lists| <= |once| && once[..|lists|] == plain.0
    ensures AllBounded(nodes, |once|) && AllBounded(Usable(nodes), |once|)
    ensures var plain := InjectLists(Targets(nodes, credentials), lists).0;
            && InjectLists(Targets(nodes, credentials), once) == (once, ok)
            && ShownAll(nodes, once) == ShownAll(nodes, plain)
            && ToolsOf(Usable(nodes), once, credentials, ok) == ToolsOf(Usable(nodes), plain, credentials, ok)
  {
    var plain := InjectLists(Targets(nodes, credentials), lists).0;
    InjectAgain(Targets(nodes, credentials), lists, once);
    SameShownAll(nodes, plain, once);
    SameToolsOf(Usable(nodes), plain, once, credentials, ok);
  }

  /** A rebuild from objects that an earlier one has changed: known tables, credentials
      and the outcome are always the same, and the node table shows the same if and only
      if there is no late option. */
  lemma RebuildIff(loaders: seq<Loader>, heap: Heap)
    requires WellFormed(loaders, heap)
    ensures var (tables, once, ok) := PostProcess(loaders, heap);
            && WellFormed(loaders, once)
            && var (tables', twice, ok') := PostProcess(loaders, once);
               && ok' == ok
               && tables'.credentials == tables.credentials
               && tables'.knownNodes == tables.knownNodes
               && tables'.knownCredentials == tables.knownCredentials
               && AllBounded(tables.nodes, |once.lists|) && AllBounded(tables'.nodes, |twice.lists|)
               && (ShownAll(tables'.nodes, twice.lists) == ShownAll(tables.nodes, once.lists)
                   <==> NoLateOptionIn(loaders, heap))
  {
    var (collected, heap1) := CollectAll(loaders, NO_TABLES, heap);
    var (tables, once, ok) := PostProcess(loaders, heap);
    OneRun(loaders, heap);
    var (tables', twice, ok') := PostProcess(loaders, once);
    OneRun(loaders, once);
    CollectAllSame(loaders, NO_TABLES, once, heap);
    NextRun(collected.nodes, collected.credentials, heap.lists, once.lists, ok);
    RunsCompared(collected.nodes, collected.credentials, heap.lists, once.lists, ok,
                 ShownAll(tables.nodes, once.lists), ShownAll(tables'.nodes, twice.lists));
  }

  /** Two runs show the same exactly if there is no late option. */
  lemma RunsCompared(nodes: Nodes, credentials: Credentials, lists: Lists, once: Lists,
                     ok: bool, first: seq<Description<seq<Item>>>, second: seq<Description<seq<Item>>>)
    requires AllBounded(nodes, |lists|) && InRange(Targets(nodes, credentials), |lists|)
    requires AllBounded(Usable(nodes), |lists|)
    requires var plain := InjectLists(Targets(nodes, credentials), lists);
             && ok == plain.1 && |plain.0| == |lists| <= |once| && once[..|lists|] == plain.0
             && first == ShownAll(nodes, plain.0) + ToolsOf(Usable(nodes), lists, credentials, ok)
    requires AllBounded(nodes, |once|) && AllBounded(Usable(nodes), |once|)
    requires second == ShownAll(nodes, once) + ToolsOf(Usable(nodes), once, credentials, ok)
    ensures second == first <==> NoLateOption(nodes, credentials, lists)
  {
    NextRun(nodes, credentials, lists, once, ok);
    NoLateOptionIff(nodes, credentials, lists);
    var plain := InjectLists(Targets(nodes, credentials), lists).0;
    SameSuffix(ShownAll(nodes, plain), ToolsOf(Usable(nodes), lists, credentials, ok),
               ToolsOf(Usable(nodes), plain, credentials, ok));
  }

  ghost predicate NoLateOptionIn(loaders: seq<Loader>, heap: Heap)
    requires WellFormed(loaders, heap)
  {
    CollectAllBounded(loaders, NO_TABLES, heap);
    var collected := CollectAll(loaders, NO_TABLES, heap).0;
    TargetsBounded(collected.nodes, collected.credentials, |heap.lists|);
    NoLateOption(collected.nodes, collected.credentials, heap.lists)
  }

  lemma OneRun(loaders: seq<Loader>, heap: Heap)
    requires WellFormed(loaders, heap)
    ensures var (collected, heap1) := CollectAll(loaders, NO_TABLES, heap);
            var (tables, once, ok) := PostProcess(loaders, heap);
            && AllBounded(collected.nodes, |heap.lists|) && AllBounded(Usable(collected.nodes), |heap.lists|)
            && InRange(Targets(collected.nodes, collected.credentials), |heap.lists|)
            && WellFormed(loaders, once) && SameRestricted(once.credentials, heap.credentials)
            && tables.credentials == collected.credentials
            && tables.knownNodes == ToolKnownNodes(Usable(collected.nodes), collected.knownNodes)
            && tables.knownCredentials == ToolKnownCredentials(Usable(collected.nodes), collected.knownCredentials)
            && AllBounded(tables.nodes, |once.lists|)
            && var plain := InjectLists(Targets(collected.nodes, collected.credentials), heap.lists);
               && ok == plain.1 && |plain.0| == |heap.lists| <= |once.lists| && once.lists[..|heap.lists|] == plain.0
               && ShownAll(tables.nodes, once.lists)
               == ShownAll(collected.nodes, plain.0)
                  + ToolsOf(Usable(collected.nodes), heap.lists, collected.credentials, ok)
  {
    var (collected, heap1) := CollectAll(loaders, NO_TABLES, heap);
    var (tables, once, ok) := PostProcess(loaders, heap);
    CollectAllBounded(loaders, NO_TABLES, heap);
    CollectAllSame(loaders, NO_TABLES, heap, heap);
    UsableBounded(collected.nodes, |heap.lists|);
    ToolsBounded(Usable(collected.nodes), heap.lists);
    var (tools, lists1) := Tools(Usable(collected.nodes), heap.lists);
    assert tables.nodes == collected.nodes + tools;
    AllBoundedMonotone(collected.nodes, |heap.lists|, |lists1|);
    TargetsBounded(collected.nodes, collected.credentials, |heap.lists|);
    TargetsBounded(tables.nodes, tables.credentials, |lists1|);
    RunShows(collected.nodes, collected.credentials, heap.lists, tools, lists1, once.lists, ok);
    WellFormedGrown(loaders, heap, once);
  }

  lemma WellFormedGrown(loaders: seq<Loader>, a: Heap, b: Heap)
    requires WellFormed(loaders, a) && |a.credentials| == |b.credentials| && |a.lists| <= |b.lists|
    ensures WellFormed(loaders, b)
  {
    forall i | 0 <= i < |loaders|
      ensures LoaderBounded(loaders[i], b)
    {
      assert LoaderBounded(loaders[i], a);
      AllBoundedMonotone(loaders[i].nodes, |a.lists|, |b.lists|);
    }
  }

  /** From the second rebuild on nothing changes any more, whatever the first left open. */
  lemma RebuildSettles(loaders: seq<Loader>, heap: Heap)
    requires WellFormed(loaders, heap)
    ensures WellFormed(loaders, PostProcess(loaders, heap).1)
    ensures var (tables, once, ok) := PostProcess(loaders, PostProcess(loaders, heap).1);
            && WellFormed(loaders, once)
            && var (tables', twice, ok') := PostProcess(loaders, once);
               && ok' == ok
               && tables'.credentials == tables.credentials
               && tables'.knownNodes == tables.knownNodes
               && tables'.knownCredentials == tables.knownCredentials
               && AllBounded(tables.nodes, |once.lists|) && AllBounded(tables'.nodes, |twice.lists|)
               && ShownAll(tables'.nodes, twice.lists) == ShownAll(tables.nodes, once.lists)
  {
    OneRun(loaders, heap);
    var collected := CollectAll(loaders, NO_TABLES, heap).0;
    var once := PostProcess(loaders, heap).1;
    CollectAllSame(loaders, NO_TABLES, once, heap);
    OneRun(loaders, once);
    NextRun(collected.nodes, collected.credentials, heap.lists, once.lists, PostProcess(loaders, heap).2);
    RebuildIff(loaders, once);
    NothingLate(collected.nodes, collected.credentials, once.lists);
  }

  /** If injection changes nothing, no option can be late. */
  lemma NothingLate(nodes: Nodes, credentials: Credentials, lists: Lists)
    requires AllBounded(nodes, |lists|) && InRange(Targets(nodes, credentials), |lists|)
    requires InjectLists(Targets(nodes, credentials), lists).0 == lists
    ensures NoLateOption(nodes, credentials, lists)
  {
    forall i | 0 <= i < |nodes| && nodes[i].usableAsTool
      ensures !LateIn(nodes, credentials, lists, nodes[i])
    {
      assert Bounded(nodes[i], |lists|);
      SettledIffNotLate(nodes, credentials, lists, nodes[i]);
    }
  }

  lemma SameSuffix<T>(a: seq<T>, b: seq<T>, c: seq<T>)
    requires |b| == |c|
    ensures a + c == a + b <==> b == c
  {
    if a + c == a + b {
      assert b == (a + b)[|a|..] && c == (a + c)[|a|..];
    }
  }

  // ---------------------------------------------------------------------------
  // Loaders that share nothing, and two that do
  // ---------------------------------------------------------------------------

  /** All descriptions of the loaders, as the tables name them. */
  function AllNodes(loaders: seq<Loader>): Nodes {
    if loaders == [] then [] else Renamed(loaders[0]) + AllNodes(loaders[1..])
  }

  lemma {:induction false} CollectedNodes(loaders: seq<Loader>, tables: Tables<Ref>, heap: Heap)
    requires WellFormed(loaders, heap)
    ensures CollectAll(loaders, tables, heap).0.nodes == tables.nodes + AllNodes(loaders)
    decreases |loaders|
  {
    if loaders != [] {
      var loader := loaders[0];
      assert LoaderBounded(loader, heap);
      RestrictInPlaceLength(loader.credentialTypes, heap.credentials);
      var objects := RestrictInPlace(loader.credentialTypes, heap.credentials);
      CollectedNodes(loaders[1..], Collect(loader, tables, heap.credentials), heap.(credentials := objects));
      Associative(tables.nodes, Renamed(loader), AllNodes(loaders[1..]));
    }
  }

  /** No two properties hold the same options array. */
  ghost predicate Unshared(nodes: Nodes) {
    forall i, j, k, l :: 0 <= i < |nodes| && 0 <= j < |nodes| && 0 <= k < |nodes[i].properties| &&
      0 <= l < |nodes[j].properties|
      && nodes[i].properties[k].options.Some? && nodes[i].properties[k].options == nodes[j].properties[l].options
      ==> i == j && k == l
  }

  lemma UnsharedHasNoLateOption(nodes: Nodes, credentials: Credentials, lists: Lists)
    requires AllBounded(nodes, |lists|) && InRange(Targets(nodes, credentials), |lists|)
    requires Unshared(nodes) && GoesThrough(nodes, credentials, lists)
    ensures NoLateOption(nodes, credentials, lists)
  {
    forall j, l | 0 <= j < |nodes| && 0 <= l < |nodes[j].properties|
      ensures Bounded(nodes[j], |lists|) && !LateOption(nodes, credentials, lists, nodes[j], nodes[j].properties[l])
    {
      assert Bounded(nodes[j], |lists|);
      if nodes[j].properties[l].options.Some? {
        ReachedIff(nodes, credentials, lists, nodes[j].properties[l].options.value);
      }
    }
  }

  /** No array that is to get the option is empty, in what the loaders bring. */
  ghost predicate GoesThroughIn(loaders: seq<Loader>, heap: Heap)
    requires WellFormed(loaders, heap)
  {
    CollectAllBounded(loaders, NO_TABLES, heap);
    var collected := CollectAll(loaders, NO_TABLES, heap).0;
    GoesThrough(collected.nodes, collected.credentials, heap.lists)
  }

  lemma UnsharedIsNotLate(loaders: seq<Loader>, heap: Heap)
    requires WellFormed(loaders, heap) && Unshared(AllNodes(loaders)) && GoesThroughIn(loaders, heap)
    ensures NoLateOptionIn(loaders, heap) && PostProcess(loaders, heap).2
  {
    OneRun(loaders, heap);
    var collected := CollectAll(loaders, NO_TABLES, heap).0;
    CollectedNodes(loaders, NO_TABLES, heap);
    assert collected.nodes == AllNodes(loaders);
    InjectOkIffGoesThrough(collected.nodes, collected.credentials, heap.lists);
    UnsharedHasNoLateOption(collected.nodes, collected.credentials, heap.lists);
  }

  /** Loaders whose descriptions share no options array give the same tables twice, if no
      array that is to get the option is empty. */
  lemma UnsharedRebuild(loaders: seq<Loader>, heap: Heap)
    requires WellFormed(loaders, heap) && Unshared(AllNodes(loaders)) && GoesThroughIn(loaders, heap)
    ensures WellFormed(loaders, PostProcess(loaders, heap).1)
    ensures var (tables, once, ok) := PostProcess(loaders, heap);
            var (tables', twice, ok') := PostProcess(loaders, once);
            && ok && ok' && tables'.credentials == tables.credentials
            && tables'.knownNodes == tables.knownNodes && tables'.knownCredentials == tables.knownCredentials
            && AllBounded(tables.nodes, |once.lists|) && AllBounded(tables'.nodes, |twice.lists|)
            && ShownAll(tables'.nodes, twice.lists) == ShownAll(tables.nodes, once.lists)
  {
    UnsharedIsNotLate(loaders, heap);
    RebuildIff(loaders, heap);
  }

  // Two versions of a node share the array of their operations. The older one is usable as
  // a tool, the latest one gets the option.

  function Operations(version: real, usable: bool): Description<Ref> {
    Description("http", "Http", "", ["main"], ["main"], usable, Number(version), Some(2.0), Some(["api"]), None,
                [Property(Operation, Options, "", false, "", Some(0))])
  }

  const API := CredentialType("api", true, false, None, None, None)

  const SHARING := Loader("base", "/base", true, [Operations(1.0, true), Operations(2.0, false)], [0], [], [], [])

  const SHARED_HEAP := Heap([API], [[Item(OtherItem("Get"), "get")]])

  lemma SharingCollected()
    ensures WellFormed([SHARING], SHARED_HEAP)
    ensures CollectAll([SHARING], NO_TABLES, SHARED_HEAP).0.nodes == Renamed(SHARING)
    ensures CollectAll([SHARING], NO_TABLES, SHARED_HEAP).0.credentials == ProcessedAll(SHARING, [API])
  {
    assert forall i :: 0 <= i < 2 ==> Bounded(SHARING.nodes[i], 1);
    assert [SHARING][1..] == [];
    var tables := Collect(SHARING, NO_TABLES, [API]);
    assert tables.nodes == Renamed(SHARING) && tables.credentials == ProcessedAll(SHARING, [API]);
    assert CollectAll([], tables, SHARED_HEAP).0 == tables;
  }

  lemma SharingInjects(version: real, usable: bool, name: string)
    ensures Injects(Operations(version, usable).(name := name), ProcessedAll(SHARING, [API])) <==> version == 2.0
  {
    var credentials := ProcessedAll(SHARING, [API]);
    assert credentials[0].name == "api" && credentials[0].authenticate;
    assert FindCredential(credentials, "api") == Some(credentials[0]);
    assert MayCall(credentials, Operations(version, usable).credentials.value[0]);
  }

  lemma SharingIsLate()
    ensures WellFormed([SHARING], SHARED_HEAP) && !NoLateOptionIn([SHARING], SHARED_HEAP)
  {
    SharingCollected();
    var nodes, credentials, lists := Renamed(SHARING), ProcessedAll(SHARING, [API]), SHARED_HEAP.lists;
    SharingInjects(1.0, true, nodes[0].name);
    SharingInjects(2.0, false, nodes[1].name);
    assert nodes == [nodes[0], nodes[1]] && nodes[1..] == [nodes[1]] && [nodes[1]][1..] == [];
    assert PropertyTargets(nodes[1].properties) == [0] by { assert nodes[1].properties[1..] == []; }
    assert Targets([nodes[1]], credentials) == [0];
    assert Targets(nodes, credentials) == [0];
    assert Reached([0], lists) == [0] by { assert [0][1..] == []; }
    assert AllBounded(nodes, 1) by { assert Bounded(nodes[0], 1) && Bounded(nodes[1], 1); }
    assert LateOption(nodes, credentials, lists, nodes[0], nodes[0].properties[0]);
    assert LateIn(nodes, credentials, lists, nodes[0]);
  }

  /** The second rebuild shows another node table than the first. */
  lemma SharedListExample()
    ensures WellFormed([SHARING], SHARED_HEAP) && WellFormed([SHARING], PostProcess([SHARING], SHARED_HEAP).1)
    ensures var (tables, once, ok) := PostProcess([SHARING], SHARED_HEAP);
            var (tables', twice, ok') := PostProcess([SHARING], once);
            && AllBounded(tables.nodes, |once.lists|) && AllBounded(tables'.nodes, |twice.lists|)
            && ShownAll(tables'.nodes, twice.lists) != ShownAll(tables.nodes, once.lists)
  {
    SharingIsLate();
    RebuildIff([SHARING], SHARED_HEAP);
  }

  // ---------------------------------------------------------------------------
  // What tools are known to support
  // ---------------------------------------------------------------------------

  predicate Supports(known: map<string, KnownCredential>, credential: string, node: string) {
    credential in known && known[credential].supportedNodes.Some? && node in known[credential].supportedNodes.value
  }

  /** Every usable node hands its credentials on to its tool, and nothing else becomes
      supported. */
  lemma {:induction false} ToolsSupport(usable: Nodes, known: map<string, KnownCredential>,
                                        credential: string, node: string)
    ensures var known' := ToolKnownCredentials(usable, known);
            && (Supports(known, credential, node) ==> Supports(known', credential, node))
            && (Supports(known', credential, node) ==>
                  Supports(known, credential, node)
                  || exists i :: 0 <= i < |usable| && node == usable[i].name + "Tool"
                                 && Supports(known', credential, usable[i].name))
            && (forall i :: 0 <= i < |usable| && Supports(known, credential, usable[i].name) ==>
                  Supports(known', credential, usable[i].name + "Tool"))
    decreases |usable|
  {
    if usable != [] {
      var known1 := map name | name in known :: Supporting(known[name], usable[0].name);
      ToolsSupport(usable[1..], known1, credential, node);
      ToolsSupport(usable[1..], known1, credential, usable[0].name);
      ToolsSupport(usable[1..], known1, credential, usable[0].name + "Tool");
      assert forall i :: 0 < i < |usable| ==> usable[i] == usable[1..][i - 1];
      assert forall other :: Supports(known, credential, other) ==> Supports(known1, credential, other);
      assert Supports(known, credential, usable[0].name) ==> Supports(known1, credential, usable[0].name + "Tool");
    }
  }
}
