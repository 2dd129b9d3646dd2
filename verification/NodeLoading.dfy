/** Post-processing of the loaders: node and credential tables are rebuilt from what the
    loaders hold, tools are derived, and option lists shared with the loaders are extended
    in place. Objects that are shared and mutated have an identity, a `Ref`. */
module NodeLoading {
  import opened Wrappers

  type Ref = nat

  // The strings that the code compares with are constructors of their own; `Other` is any
  // other string.

  datatype ItemName = CustomApiCall | SetAutomatically | SetManually | OtherItem(string)

  /** An element of an `options` array. */
  datatype Item = Item(name: ItemName, value: string)

  datatype PropertyName = Resource | Operation | ToolDescription | DescriptionType | OtherName(string)

  datatype PropertyKind = Callout | Options | String | OtherKind(string)

  /** `INodeProperties`; `L` is what stands for the `options` array, its identity or its
      contents, `onlyManual` the display condition that tools get, and `rest` all else. */
  datatype Property<L> = Property(name: PropertyName, kind: PropertyKind, defaultValue: string, onlyManual: bool,
                                  rest: string, options: Option<L>)

  datatype Version = Number(n: real) | Numbers(ns: seq<real>)

  datatype Codex = Codex(categories: seq<string>, subcategories: map<string, seq<string>>,
                         resources: map<string, string>)

  /** `INodeTypeDescription` */
  datatype Description<L> = Description(
    name: string, displayName: string, description: string, inputs: seq<string>, outputs: seq<string>,
    usableAsTool: bool, version: Version, defaultVersion: Option<real>, credentials: Option<seq<string>>,
    codex: Option<Codex>, properties: seq<Property<L>>)

  datatype Field = Field(name: string, rest: string)

  /** `ICredentialType`; of `authenticate` only whether it is there. */
  datatype CredentialType = CredentialType(
    name: string, authenticate: bool, genericAuth: bool, parents: Option<seq<string>>,
    supportedNodes: Option<seq<string>>, properties: Option<seq<Field>>)

  datatype KnownNode = KnownNode(className: string, sourcePath: string)

  datatype KnownCredential = KnownCredential(className: string, sourcePath: string,
                                             supportedNodes: Option<seq<string>>, parents: Option<seq<string>>)

  /** `credentials` are the loader's `types.credentials`, `credentialTypes` its loaded
      credential objects; the two often are the same objects. */
  datatype Loader = Loader(
    packageName: string, directory: string, isPackage: bool,
    nodes: Nodes, credentials: seq<Ref>, credentialTypes: seq<Ref>,
    knownNodes: seq<(string, KnownNode)>, knownCredentials: seq<(string, KnownCredential)>)

  /** The contents of the options arrays, by identity. */
  type Lists = seq<seq<Item>>

  type Nodes = seq<Description<Ref>>

  type Credentials = seq<CredentialType>

  /** The shared objects. */
  datatype Heap = Heap(credentials: Credentials, lists: Lists)

  datatype Tables<L> = Tables(nodes: seq<Description<L>>, credentials: Credentials,
                              knownNodes: map<string, Option<KnownNode>>,
                              knownCredentials: map<string, KnownCredential>)

  predicate Bounded(d: Description<Ref>, n: nat) {
    forall k :: 0 <= k < |d.properties| && d.properties[k].options.Some? ==> d.properties[k].options.value < n
  }

  predicate InRange(refs: seq<Ref>, n: nat) {
    forall k :: 0 <= k < |refs| ==> refs[k] < n
  }

  predicate AllBounded(nodes: Nodes, n: nat) {
    forall i :: 0 <= i < |nodes| ==> Bounded(nodes[i], n)
  }

  predicate LoaderBounded(loader: Loader, heap: Heap) {
    && AllBounded(loader.nodes, |heap.lists|)
    && InRange(loader.credentials, |heap.credentials|)
    && InRange(loader.credentialTypes, |heap.credentials|)
  }

  predicate WellFormed(loaders: seq<Loader>, heap: Heap) {
    forall i :: 0 <= i < |loaders| ==> LoaderBounded(loaders[i], heap)
  }

  // ---------------------------------------------------------------------------
  // Domain restrictions of credentials
  // ---------------------------------------------------------------------------

  const OAUTH_TYPES := ["oAuth2Api", "oAuth1Api", "googleOAuth2Api"]

  predicate ExtendsOAuth(c: CredentialType) {
    c.parents.Some? && exists k :: 0 <= k < |c.parents.value| && c.parents.value[k] in OAUTH_TYPES
  }

  predicate ShouldAddDomainRestrictions(c: CredentialType) {
    c.authenticate || c.genericAuth || ExtendsOAuth(c)
  }

  const DOMAIN_FIELDS := [Field("allowedHttpRequestDomains", "Allowed HTTP Request Domains"),
                          Field("allowedDomains", "Allowed Domains")]

  function InjectDomainRestrictionFields(fields: seq<Field>): seq<Field> {
    if exists k :: 0 <= k < |fields| && fields[k].name == "allowedHttpRequestDomains" then fields
    else fields + DOMAIN_FIELDS
  }

  function Restricted(c: CredentialType): CredentialType {
    if ShouldAddDomainRestrictions(c) then
      c.(properties := Some(InjectDomainRestrictionFields(if c.properties.Some? then c.properties.value else [])))
    else c
  }

  function Qualified(loader: Loader, names: Option<seq<string>>): Option<seq<string>> {
    if loader.isPackage && names.Some? then
      Some(seq(|names.value|, k requires 0 <= k < |names.value| => loader.packageName + "." + names.value[k]))
    else None
  }

  function Processed(loader: Loader, c: CredentialType): CredentialType {
    Restricted(c).(supportedNodes := Qualified(loader, c.supportedNodes))
  }

  /** The loop over `loader.credentialTypes`, which reassigns `properties` in place. */
  function RestrictInPlace(refs: seq<Ref>, objects: Credentials): Credentials
    requires InRange(refs, |objects|)
    decreases |refs|
  {
    if refs == [] then objects
    else RestrictInPlace(refs[1..], objects[refs[0] := Restricted(objects[refs[0]])])
  }

  lemma {:induction false} RestrictInPlaceLength(refs: seq<Ref>, objects: Credentials)
    requires InRange(refs, |objects|)
    ensures |RestrictInPlace(refs, objects)| == |objects|
    decreases |refs|
  {
    if refs != [] {
      RestrictInPlaceLength(refs[1..], objects[refs[0] := Restricted(objects[refs[0]])]);
    }
  }

  // ---------------------------------------------------------------------------
  // Collecting what the loaders hold
  // ---------------------------------------------------------------------------

  function Renamed(loader: Loader): Nodes {
    seq(|loader.nodes|, k requires 0 <= k < |loader.nodes| =>
          loader.nodes[k].(name := loader.packageName + "." + loader.nodes[k].name))
  }

  function ProcessedAll(loader: Loader, objects: Credentials): Credentials
    requires InRange(loader.credentials, |objects|)
  {
    seq(|loader.credentials|,
        k requires 0 <= k < |loader.credentials| => Processed(loader, objects[loader.credentials[k]]))
  }

  function CollectKnownNodes(loader: Loader, entries: seq<(string, KnownNode)>,
                             known: map<string, Option<KnownNode>>)
    : map<string, Option<KnownNode>>
    decreases |entries|
  {
    if entries == [] then known
    else
      var (nodeType, node) := entries[0];
      var joined := node.(sourcePath := loader.directory + "/" + node.sourcePath);
      CollectKnownNodes(loader, entries[1..], known[loader.packageName + "." + nodeType := Some(joined)])
  }

  function CollectKnownCredentials(loader: Loader, entries: seq<(string, KnownCredential)>,
                                   known: map<string, KnownCredential>)
    : map<string, KnownCredential>
    decreases |entries|
  {
    if entries == [] then known
    else
      var (credentialType, c) := entries[0];
      var joined := c.(sourcePath := loader.directory + "/" + c.sourcePath,
                       supportedNodes := Qualified(loader, c.supportedNodes));
      CollectKnownCredentials(loader, entries[1..], known[credentialType := joined])
  }

  /** One pass of the loop over the loaders. */
  function Collect(loader: Loader, tables: Tables<Ref>, objects: Credentials): Tables<Ref>
    requires InRange(loader.credentials, |objects|)
  {
    Tables(tables.nodes + Renamed(loader), tables.credentials + ProcessedAll(loader, objects),
           CollectKnownNodes(loader, loader.knownNodes, tables.knownNodes),
           CollectKnownCredentials(loader, loader.knownCredentials, tables.knownCredentials))
  }

  function CollectAll(loaders: seq<Loader>, tables: Tables<Ref>, heap: Heap): (Tables<Ref>, Heap)
    requires WellFormed(loaders, heap)
    decreases |loaders|
  {
    if loaders == [] then (tables, heap)
    else
      var objects := RestrictInPlace(loaders[0].credentialTypes, heap.credentials);
      RestrictInPlaceLength(loaders[0].credentialTypes, heap.credentials);
      CollectAll(loaders[1..], Collect(loaders[0], tables, heap.credentials), heap.(credentials := objects))
  }

  const NO_TABLES: Tables<Ref> := Tables([], [], map[], map[])

  // ---------------------------------------------------------------------------
  // Tools
  // ---------------------------------------------------------------------------

  const TYPE_OPTIONS := [Item(SetAutomatically, "auto"), Item(SetManually, "manual")]

  predicate HasNamed<L>(properties: seq<Property<L>>, name: PropertyName) {
    exists k :: 0 <= k < |properties| && properties[k].name == name
  }

  /** Index of the last callout, -1 if there is none. */
  function LastCallout<L>(properties: seq<Property<L>>): (i: int)
    ensures -1 <= i < |properties|
  {
    if properties == [] then -1
    else if properties[|properties| - 1].kind.Callout? then |properties| - 1
    else LastCallout(properties[..|properties| - 1])
  }

  /** The properties that make a tool describe itself. */
  function DescribingProperties<L>(properties: seq<Property<L>>, description: string,
                                   typeOptions: L): seq<Property<L>> {
    if HasNamed(properties, ToolDescription) then []
    else
      var chosen := HasNamed(properties, Resource) || HasNamed(properties, Operation);
      var descProp := Property(ToolDescription, String, description, chosen, "", None);
      if chosen
      then [Property(DescriptionType, Options, "auto", false, "", Some(typeOptions)), descProp]
      else [descProp]
  }

  function ToolCodex(codex: Option<Codex>): Codex {
    Codex(["AI"],
          map["AI" := ["Tools"],
              "Tools" := if codex.Some? && "Tools" in codex.value.subcategories then codex.value.subcategories["Tools"]
                         else ["Other Tools"]],
          if codex.Some? then codex.value.resources else map[])
  }

  function Inserted<L>(properties: seq<Property<L>>, at: nat, extra: seq<Property<L>>): seq<Property<L>>
    requires at <= |properties|
  {
    properties[..at] + extra + properties[at..]
  }

  lemma InsertedNone<L>(properties: seq<Property<L>>, at: nat)
    requires at <= |properties|
    ensures Inserted(properties, at, []) == properties
  {
  }

  /** A second `splice` at the same place puts its element first. */
  lemma InsertedTwice<L>(properties: seq<Property<L>>, at: nat, p: Property<L>, q: Property<L>)
    requires at <= |properties|
    ensures Inserted(Inserted(properties, at, [p]), at, [q]) == Inserted(properties, at, [q, p])
  {
    var once := Inserted(properties, at, [p]);
    assert once[..at] == properties[..at];
    assert once[at..] == [p] + properties[at..];
  }

  function ToolProperties<L>(properties: seq<Property<L>>, description: string, typeOptions: L): seq<Property<L>> {
    Inserted(properties, LastCallout(properties) + 1, DescribingProperties(properties, description, typeOptions))
  }

  /** `convertNodeToAiTool` on a full description; `typeOptions` is the options array
      that it creates. */
  function Convert<L>(d: Description<L>, typeOptions: L): Description<L> {
    d.(name := d.name + "Tool", displayName := d.displayName + " Tool", inputs := [], outputs := ["ai_tool"],
       usableAsTool := false, codex := Some(ToolCodex(d.codex)),
       properties := ToolProperties(d.properties, d.description, typeOptions))
  }

  lemma InsertedParts<L>(properties: seq<Property<L>>, at: nat, extra: seq<Property<L>>)
    requires at <= |properties|
    ensures var all := Inserted(properties, at, extra);
            && |all| == |properties| + |extra|
            && all[..at] == properties[..at] && all[at + |extra|..] == properties[at..]
            && forall k :: 0 <= k < |extra| ==> all[at + k] == extra[k]
  {
  }

  lemma DescribingNames<L>(properties: seq<Property<L>>, description: string, typeOptions: L)
    ensures var extra := DescribingProperties(properties, description, typeOptions);
            && |extra| <= 2 && (extra == [] <==> HasNamed(properties, ToolDescription))
            && (|extra| == 1 ==> extra[0].name == ToolDescription)
            && (|extra| == 2 ==> extra[0].name == DescriptionType && extra[1].name == ToolDescription)
  {
  }

  /** What a tool is: not usable as one again, with one output and no input, and with the
      properties of its node in their order, after the last callout of which come the ones
      that describe it, unless the node brings its own description. */
  lemma ConvertedIsTool<L>(d: Description<L>, typeOptions: L)
    ensures var tool := Convert(d, typeOptions);
            var at, n := LastCallout(d.properties) + 1, |tool.properties| - |d.properties|;
            && !tool.usableAsTool && tool.inputs == [] && |tool.outputs| == 1
            && tool.version == d.version && tool.defaultVersion == d.defaultVersion && tool.credentials == d.credentials
            && 0 <= n <= 2 && (n == 0 <==> HasNamed(d.properties, ToolDescription))
            && tool.properties[..at] == d.properties[..at] && tool.properties[at + n..] == d.properties[at..]
            && (n > 0 ==> tool.properties[at + n - 1].name == ToolDescription)
            && (n == 2 ==> tool.properties[at].name == DescriptionType)
  {
    var extra := DescribingProperties(d.properties, d.description, typeOptions);
    DescribingNames(d.properties, d.description, typeOptions);
    InsertedParts(d.properties, LastCallout(d.properties) + 1, extra);
  }

  /** A deep copy, whose options arrays are new: the `k`th property gets array `base + k`. */
  function CopyAt(d: Description<Ref>, base: nat): Description<Ref> {
    d.(properties := CopiedProperties(d.properties, base))
  }

  function CopiedProperties(properties: seq<Property<Ref>>, base: nat): (copied: seq<Property<Ref>>)
    ensures |copied| == |properties|
  {
    seq(|properties|, k requires 0 <= k < |properties| =>
          properties[k].(options := if properties[k].options.Some? then Some(base + k) else None))
  }

  /** The arrays that come with the tool of `d`: those of the copy, and one of its own. */
  function NewLists(d: Description<Ref>, lists: Lists): Lists
    requires Bounded(d, |lists|)
  {
    seq(|d.properties|, k requires 0 <= k < |d.properties| =>
          if d.properties[k].options.Some? then lists[d.properties[k].options.value] else [])
    + [TYPE_OPTIONS]
  }

  function ToolAt(d: Description<Ref>, base: nat): Description<Ref> {
    Convert(CopyAt(d, base), base + |d.properties|)
  }

  function Usable(nodes: Nodes): Nodes {
    if nodes == [] then []
    else (if nodes[0].usableAsTool then [nodes[0]] else []) + Usable(nodes[1..])
  }

  function Tools(usable: Nodes, lists: Lists): (Nodes, Lists)
    requires AllBounded(usable, |lists|)
    decreases |usable|
  {
    if usable == [] then ([], lists)
    else
      var (rest, lists1) := Tools(usable[1..], lists + NewLists(usable[0], lists));
      ([ToolAt(usable[0], |lists|)] + rest, lists1)
  }

  function ToolKnownNodes(usable: Nodes, known: map<string, Option<KnownNode>>): map<string, Option<KnownNode>> {
    if usable == [] then known
    else
      var name := usable[0].name;
      ToolKnownNodes(usable[1..], known[name + "Tool" := if name in known then known[name] else None])
  }

  function Supporting(c: KnownCredential, name: string): KnownCredential {
    if c.supportedNodes.Some? && name in c.supportedNodes.value
    then c.(supportedNodes := Some(c.supportedNodes.value + [name + "Tool"]))
    else c
  }

  function ToolKnownCredentials(usable: Nodes, known: map<string, KnownCredential>): map<string, KnownCredential> {
    if usable == [] then known
    else ToolKnownCredentials(usable[1..], map name | name in known :: Supporting(known[name], usable[0].name))
  }

  function WithTools(usable: Nodes, tables: Tables<Ref>, lists: Lists): (Tables<Ref>, Lists)
    requires AllBounded(usable, |lists|)
  {
    var (tools, lists1) := Tools(usable, lists);
    (Tables(tables.nodes + tools, tables.credentials, ToolKnownNodes(usable, tables.knownNodes),
            ToolKnownCredentials(usable, tables.knownCredentials)), lists1)
  }

  function WithTool(d: Description<Ref>, tables: Tables<Ref>, base: nat): Tables<Ref> {
    Tables(tables.nodes + [ToolAt(d, base)], tables.credentials,
           tables.knownNodes[d.name + "Tool" :=
             if d.name in tables.knownNodes then tables.knownNodes[d.name] else None],
           map name | name in tables.knownCredentials :: Supporting(tables.knownCredentials[name], d.name))
  }

  /** `createAiTools` table by table and tool by tool. */
  function CreateTools(usable: Nodes, tables: Tables<Ref>, lists: Lists): (Tables<Ref>, Lists)
    requires AllBounded(usable, |lists|)
    decreases |usable|
  {
    if usable == [] then (tables, lists)
    else CreateTools(usable[1..], WithTool(usable[0], tables, |lists|), lists + NewLists(usable[0], lists))
  }

  lemma Associative<T>(a: seq<T>, b: seq<T>, c: seq<T>)
    ensures (a + b) + c == a + (b + c)
    ensures a + [] == a
  {
  }

  lemma {:induction false} WithToolsLoop(usable: Nodes, tables: Tables<Ref>, lists: Lists)
    requires AllBounded(usable, |lists|)
    ensures CreateTools(usable, tables, lists) == WithTools(usable, tables, lists)
    decreases |usable|
  {
    if usable == [] {
      Associative(tables.nodes, [], []);
    } else {
      var tables1 := WithTool(usable[0], tables, |lists|);
      var lists1 := lists + NewLists(usable[0], lists);
      WithToolsLoop(usable[1..], tables1, lists1);
      Associative(tables.nodes, [ToolAt(usable[0], |lists|)], Tools(usable[1..], lists1).0);
    }
  }

  // ---------------------------------------------------------------------------
  // Custom API Call options
  // ---------------------------------------------------------------------------

  predicate IsLatest<L>(d: Description<L>) {
    d.defaultVersion.None? || d.version == Number(d.defaultVersion.value)
  }

  function FindCredential(credentials: Credentials, name: string): Option<CredentialType> {
    if credentials == [] then None
    else if credentials[0].name == name then Some(credentials[0])
    else FindCredential(credentials[1..], name)
  }

  predicate MayCall(credentials: Credentials, name: string) {
    var c := FindCredential(credentials, name);
    c.Some? && (c.value.authenticate || ExtendsOAuth(c.value))
  }

  predicate SupportsProxyAuth<L>(d: Description<L>, credentials: Credentials) {
    d.credentials.Some? && exists k :: 0 <= k < |d.credentials.value| && MayCall(credentials, d.credentials.value[k])
  }

  predicate Injects<L>(d: Description<L>, credentials: Credentials) {
    IsLatest(d) && SupportsProxyAuth(d, credentials)
  }

  predicate Selected<L>(p: Property<L>) {
    (p.name.Resource? || p.name.Operation?) && p.options.Some?
  }

  function WithOption(items: seq<Item>): seq<Item> {
    if items != [] && items[|items| - 1].name != CustomApiCall
    then items + [Item(CustomApiCall, "__CUSTOM_API_CALL__")]
    else items
  }

  /** The arrays that are to get the option, in the order in which they are met. */
  function PropertyTargets(properties: seq<Property<Ref>>): seq<Ref> {
    if properties == [] then []
    else (if Selected(properties[0]) then [properties[0].options.value] else []) + PropertyTargets(properties[1..])
  }

  function Targets(nodes: Nodes, credentials: Credentials): seq<Ref> {
    if nodes == [] then []
    else OwnTargets(nodes[0], credentials) + Targets(nodes[1..], credentials)
  }

  /** The arrays of one description that are to get the option. */
  function OwnTargets(d: Description<Ref>, credentials: Credentials): seq<Ref> {
    if Injects(d, credentials) then PropertyTargets(d.properties) else []
  }

  /** Pushing the option; an empty array makes the access to its last element throw. */
  function InjectLists(refs: seq<Ref>, lists: Lists): (Lists, bool)
    requires InRange(refs, |lists|)
    decreases |refs|
  {
    if refs == [] then (lists, true)
    else if lists[refs[0]] == [] then (lists, false)
    else InjectLists(refs[1..], lists[refs[0] := WithOption(lists[refs[0]])])
  }

  // ---------------------------------------------------------------------------
  // The whole of it
  // ---------------------------------------------------------------------------

  lemma {:induction false} UsableBounded(nodes: Nodes, n: nat)
    requires AllBounded(nodes, n)
    ensures AllBounded(Usable(nodes), n)
  {
    if nodes != [] {
      assert Bounded(nodes[0], n);
      assert forall i :: 0 <= i < |nodes[1..]| ==> nodes[1..][i] == nodes[i + 1];
      UsableBounded(nodes[1..], n);
    }
  }

  lemma ToolAtBounded(d: Description<Ref>, base: nat)
    ensures Bounded(ToolAt(d, base), base + |d.properties| + 1)
  {
  }

  lemma {:induction false} ToolsBounded(usable: Nodes, lists: Lists)
    requires AllBounded(usable, |lists|)
    ensures AllBounded(Tools(usable, lists).0, |Tools(usable, lists).1|)
    ensures |lists| <= |Tools(usable, lists).1|
    decreases |usable|
  {
    if usable != [] {
      ToolAtBounded(usable[0], |lists|);
      ToolsBounded(usable[1..], lists + NewLists(usable[0], lists));
    }
  }

  lemma {:induction false} PropertyTargetsBounded(properties: seq<Property<Ref>>, n: nat)
    requires forall k :: 0 <= k < |properties| && properties[k].options.Some? ==> properties[k].options.value < n
    ensures InRange(PropertyTargets(properties), n)
  {
    if properties != [] {
      PropertyTargetsBounded(properties[1..], n);
    }
  }

  lemma {:induction false} TargetsBounded(nodes: Nodes, credentials: Credentials, n: nat)
    requires AllBounded(nodes, n)
    ensures InRange(Targets(nodes, credentials), n)
  {
    if nodes != [] {
      assert Bounded(nodes[0], n);
      PropertyTargetsBounded(nodes[0].properties, n);
      TargetsBounded(nodes[1..], credentials, n);
    }
  }

  lemma {:induction false} CollectAllBounded(loaders: seq<Loader>, tables: Tables<Ref>, heap: Heap)
    requires WellFormed(loaders, heap) && AllBounded(tables.nodes, |heap.lists|)
    ensures AllBounded(CollectAll(loaders, tables, heap).0.nodes, |heap.lists|)
    ensures CollectAll(loaders, tables, heap).1.lists == heap.lists
    ensures |CollectAll(loaders, tables, heap).1.credentials| == |heap.credentials|
    decreases |loaders|
  {
    if loaders != [] {
      var loader := loaders[0];
      assert LoaderBounded(loader, heap);
      RestrictInPlaceLength(loader.credentialTypes, heap.credentials);
      forall i | 0 <= i < |loader.nodes|
        ensures Bounded(Renamed(loader)[i], |heap.lists|)
      {
        assert Bounded(loader.nodes[i], |heap.lists|);
      }
      CollectAllBounded(loaders[1..], Collect(loader, tables, heap.credentials),
                        heap.(credentials := RestrictInPlace(loader.credentialTypes, heap.credentials)));
    }
  }

  lemma AllBoundedMonotone(nodes: Nodes, m: nat, n: nat)
    requires AllBounded(nodes, m) && m <= n
    ensures AllBounded(nodes, n)
  {
    assert forall i :: 0 <= i < |nodes| ==> Bounded(nodes[i], m);
  }

  /** The tables and the shared objects before the last step. */
  function Prepare(loaders: seq<Loader>, heap: Heap): (r: (Tables<Ref>, Heap))
    requires WellFormed(loaders, heap)
    ensures AllBounded(r.0.nodes, |r.1.lists|) && InRange(Targets(r.0.nodes, r.0.credentials), |r.1.lists|)
  {
    var (collected, heap1) := CollectAll(loaders, NO_TABLES, heap);
    CollectAllBounded(loaders, NO_TABLES, heap);
    UsableBounded(collected.nodes, |heap.lists|);
    var usable := Usable(collected.nodes);
    ToolsBounded(usable, heap1.lists);
    var (tables, lists1) := WithTools(usable, collected, heap1.lists);
    AllBoundedMonotone(collected.nodes, |heap1.lists|, |lists1|);
    TargetsBounded(tables.nodes, tables.credentials, |lists1|);
    (tables, heap1.(lists := lists1))
  }

  /** `postProcessLoaders` without post-processors. */
  function PostProcess(loaders: seq<Loader>, heap: Heap): (Tables<Ref>, Heap, bool)
    requires WellFormed(loaders, heap)
  {
    var (tables, heap1) := Prepare(loaders, heap);
    var (lists2, ok) := InjectLists(Targets(tables.nodes, tables.credentials), heap1.lists);
    (tables, heap1.(lists := lists2), ok)
  }

  datatype Result = Done | TypeError

  class LoadNodesAndCredentials {
    var loaders: seq<Loader>
    /** `types` and `known` */
    var nodes: Nodes
    var credentials: Credentials
    var knownNodes: map<string, Option<KnownNode>>
    var knownCredentials: map<string, KnownCredential>
    /** The objects that others share, by identity. */
    var credentialObjects: Credentials
    var optionLists: Lists

    function View(): Tables<Ref>
      reads this
    {
      Tables(nodes, credentials, knownNodes, knownCredentials)
    }

    function Shared(): Heap
      reads this
    {
      Heap(credentialObjects, optionLists)
    }

    constructor (loaders: seq<Loader>, heap: Heap)
      ensures this.loaders == loaders && View() == NO_TABLES && Shared() == heap
    {
      this.loaders := loaders;
      nodes, credentials, knownNodes, knownCredentials := [], [], map[], map[];
      credentialObjects, optionLists := heap.credentials, heap.lists;
    }

    method PostProcessLoaders() returns (r: Result)
      requires WellFormed(loaders, Shared())
      modifies `nodes, `credentials, `knownNodes, `knownCredentials, `credentialObjects, `optionLists
      ensures (View(), Shared(), r.Done?) == PostProcess(loaders, old(Shared()))
    {
      PrepareTables();
      r := InjectCustomApiCallOptions();
    }

    method PrepareTables()
      requires WellFormed(loaders, Shared())
      modifies `nodes, `credentials, `knownNodes, `knownCredentials, `credentialObjects, `optionLists
      ensures (View(), Shared()) == Prepare(loaders, old(Shared()))
    {
      nodes, credentials, knownNodes, knownCredentials := [], [], map[], map[];
      CollectAllBounded(loaders, NO_TABLES, Shared());
      CollectFromLoaders();
      CreateAiTools();
    }

    method CollectFromLoaders()
      requires WellFormed(loaders, Shared())
      modifies `nodes, `credentials, `knownNodes, `knownCredentials, `credentialObjects
      ensures (View(), Shared()) == CollectAll(loaders, old(View()), old(Shared()))
    {
      var j := 0;
      while j < |loaders|
        invariant 0 <= j <= |loaders|
        invariant optionLists == old(optionLists) && |credentialObjects| == old(|credentialObjects|)
        invariant WellFormed(loaders[j..], Shared())
        invariant CollectAll(loaders[j..], View(), Shared()) == CollectAll(loaders, old(View()), old(Shared()))
      {
        var loader := loaders[j];
        assert loaders[j..][0] == loader && loaders[j..][1..] == loaders[j + 1..];
        assert LoaderBounded(loader, Shared());
        RestrictInPlaceLength(loader.credentialTypes, credentialObjects);
        assert forall i :: 0 < i < |loaders[j..]| ==> loaders[j..][i] == loaders[j + 1..][i - 1];
        nodes := nodes + Renamed(loader);
        credentials := credentials + ProcessedAll(loader, credentialObjects);
        knownNodes := CollectKnownNodes(loader, loader.knownNodes, knownNodes);
        knownCredentials := CollectKnownCredentials(loader, loader.knownCredentials, knownCredentials);
        RestrictLoaded(loader.credentialTypes);
        j := j + 1;
      }
    }

    /** Reassigns the properties of loaded credential objects in place. */
    method RestrictLoaded(refs: seq<Ref>)
      requires InRange(refs, |credentialObjects|)
      modifies `credentialObjects
      ensures credentialObjects == RestrictInPlace(refs, old(credentialObjects))
    {
      var j := 0;
      while j < |refs|
        invariant 0 <= j <= |refs|
        invariant |credentialObjects| == old(|credentialObjects|)
        invariant RestrictInPlace(refs[j..], credentialObjects) == RestrictInPlace(refs, old(credentialObjects))
      {
        assert refs[j..][0] == refs[j] && refs[j..][1..] == refs[j + 1..];
        credentialObjects := credentialObjects[refs[j] := Restricted(credentialObjects[refs[j]])];
        j := j + 1;
      }
    }

    /** The loop starts at the end and stops at the first callout it meets. */
    static method FindLastCalloutIndex<L>(properties: seq<Property<L>>) returns (i: int)
      ensures i == LastCallout(properties)
      ensures i >= 0 ==> properties[i].kind.Callout?
      ensures forall k :: i < k < |properties| ==> properties[k].kind != Callout
    {
      i := |properties| - 1;
      assert properties[..|properties|] == properties;
      while i >= 0
        invariant -1 <= i < |properties|
        invariant LastCallout(properties[..i + 1]) == LastCallout(properties)
        invariant forall k :: i < k < |properties| ==> properties[k].kind != Callout
        decreases i
      {
        assert properties[..i + 1][..i] == properties[..i];
        if properties[i].kind.Callout? {
          return;
        }
        i := i - 1;
      }
      assert properties[..0] == [];
    }

    static method ConvertNodeToAiTool(item: Description<Ref>, typeOptions: Ref) returns (tool: Description<Ref>)
      ensures tool == Convert(item, typeOptions)
    {
      var properties := AddDescribingProperties(item, typeOptions);
      tool := item.(name := item.name + "Tool", displayName := item.displayName + " Tool", inputs := [],
                    outputs := ["ai_tool"], usableAsTool := false, codex := Some(ToolCodex(item.codex)),
                    properties := properties);
    }

    /** The part of `convertNodeToAiTool` on the properties: two are spliced in, one after
        the other. */
    static method AddDescribingProperties(item: Description<Ref>, typeOptions: Ref)
      returns (properties: seq<Property<Ref>>)
      ensures properties == ToolProperties(item.properties, item.description, typeOptions)
    {
      if HasNamed(item.properties, ToolDescription) {
        InsertedNone(item.properties, LastCallout(item.properties) + 1);
        return item.properties;
      }
      var hasResource, hasOperation := HasNamed(item.properties, Resource), HasNamed(item.properties, Operation);
      var descProp: Property<Ref> :=
        Property(ToolDescription, String, item.description, hasResource || hasOperation, "", None);
      var at := FindLastCalloutIndex(item.properties);
      at := at + 1;
      properties := Inserted(item.properties, at, [descProp]);
      if hasResource || hasOperation {
        var descriptionType := Property(DescriptionType, Options, "auto", false, "", Some(typeOptions));
        InsertedTwice(item.properties, at, descProp, descriptionType);
        properties := Inserted(properties, at, [descriptionType]);
      }
    }

    method CreateAiTools()
      requires AllBounded(nodes, |optionLists|)
      modifies `nodes, `knownNodes, `knownCredentials, `optionLists
      ensures AllBounded(Usable(old(nodes)), old(|optionLists|))
      ensures (View(), optionLists) == WithTools(Usable(old(nodes)), old(View()), old(optionLists))
    {
      UsableBounded(nodes, |optionLists|);
      var usable := Usable(nodes);
      WithToolsLoop(usable, View(), optionLists);
      var j := 0;
      while j < |usable|
        invariant 0 <= j <= |usable|
        invariant AllBounded(usable[j..], |optionLists|)
        invariant CreateTools(usable[j..], View(), optionLists) == CreateTools(usable, old(View()), old(optionLists))
      {
        assert usable[j..][0] == usable[j] && usable[j..][1..] == usable[j + 1..];
        assert Bounded(usable[j], |optionLists|);
        CreateAiTool(usable[j]);
        j := j + 1;
      }
    }

    method CreateAiTool(usableNode: Description<Ref>)
      requires Bounded(usableNode, |optionLists|)
      modifies `nodes, `knownNodes, `knownCredentials, `optionLists
      ensures View() == WithTool(usableNode, old(View()), old(|optionLists|))
      ensures optionLists == old(optionLists) + NewLists(usableNode, old(optionLists))
    {
      var base := |optionLists|;
      optionLists := optionLists + NewLists(usableNode, optionLists);
      var wrapped := ConvertNodeToAiTool(CopyAt(usableNode, base), base + |usableNode.properties|);
      nodes := nodes + [wrapped];
      var known := if usableNode.name in knownNodes then knownNodes[usableNode.name] else None;
      knownNodes := knownNodes[wrapped.name := known];
      knownCredentials := map name | name in knownCredentials :: Supporting(knownCredentials[name], usableNode.name);
    }

    method InjectCustomApiCallOptions() returns (r: Result)
      requires AllBounded(nodes, |optionLists|)
      modifies `optionLists
      ensures InRange(Targets(nodes, credentials), old(|optionLists|))
      ensures (optionLists, r.Done?) == InjectLists(Targets(nodes, credentials), old(optionLists))
    {
      ghost var rest := nodes;
      TargetsBounded(nodes, credentials, |optionLists|);
      r := Done;
      var j := 0;
      while j < |nodes| && r.Done?
        invariant 0 <= j <= |nodes| && |optionLists| == old(|optionLists|)
        invariant r.Done? ==> rest == nodes[j..] && AllBounded(rest, |optionLists|)
        invariant r.Done? ==> InRange(Targets(rest, credentials), |optionLists|)
        invariant InjectLists(Targets(nodes, credentials), old(optionLists))
               == if r.Done? then InjectLists(Targets(rest, credentials), optionLists) else (optionLists, false)
      {
        InjectStep(rest, credentials, optionLists);
        r := InjectNode(nodes[j]);
        rest := rest[1..];
        j := j + 1;
      }
    }

    method InjectNode(node: Description<Ref>) returns (r: Result)
      requires Bounded(node, |optionLists|)
      modifies `optionLists
      ensures InRange(OwnTargets(node, credentials), old(|optionLists|))
      ensures (optionLists, r.Done?) == InjectLists(OwnTargets(node, credentials), old(optionLists))
    {
      if !Injects(node, credentials) {
        return Done;
      }
      r := InjectInto(node.properties);
    }

    method InjectInto(properties: seq<Property<Ref>>) returns (r: Result)
      requires forall k :: 0 <= k < |properties| && properties[k].options.Some? ==>
               properties[k].options.value < |optionLists|
      modifies `optionLists
      ensures InRange(PropertyTargets(properties), old(|optionLists|))
      ensures (optionLists, r.Done?) == InjectLists(PropertyTargets(properties), old(optionLists))
    {
      ghost var all := PropertyTargets(properties);
      PropertyTargetsBounded(properties, |optionLists|);
      var j := 0;
      while j < |properties|
        invariant 0 <= j <= |properties|
        invariant |optionLists| == old(|optionLists|)
        invariant InRange(PropertyTargets(properties[j..]), |optionLists|)
        invariant InjectLists(PropertyTargets(properties[j..]), optionLists) == InjectLists(all, old(optionLists))
      {
        var p := properties[j];
        assert properties[j..][0] == p && properties[j..][1..] == properties[j + 1..];
        PropertyTargetsBounded(properties[j + 1..], |optionLists|);
        if (p.name.Resource? || p.name.Operation?) && p.options.Some? {
          var options := optionLists[p.options.value];
          assert PropertyTargets(properties[j..])[1..] == PropertyTargets(properties[j + 1..]);
          if options == [] {
            return TypeError;
          }
          if options[|options| - 1].name != CustomApiCall {
            optionLists := optionLists[p.options.value := options + [Item(CustomApiCall, "__CUSTOM_API_CALL__")]];
          } else {
            assert optionLists[p.options.value := options] == optionLists;
          }
        } else {
          assert PropertyTargets(properties[j..]) == PropertyTargets(properties[j + 1..]);
        }
        j := j + 1;
      }
      return Done;
    }
  }

  lemma InjectStep(nodes: Nodes, credentials: Credentials, lists: Lists)
    requires nodes != [] && AllBounded(nodes, |lists|)
    ensures Bounded(nodes[0], |lists|) && AllBounded(nodes[1..], |lists|)
    ensures InRange(OwnTargets(nodes[0], credentials), |lists|) && InRange(Targets(nodes[1..], credentials), |lists|)
    ensures InRange(Targets(nodes, credentials), |lists|)
    ensures var (lists1, ok) := InjectLists(OwnTargets(nodes[0], credentials), lists);
            && |lists1| == |lists|
            && InjectLists(Targets(nodes, credentials), lists)
            == if ok then InjectLists(Targets(nodes[1..], credentials), lists1) else (lists1, false)
  {
    assert Bounded(nodes[0], |lists|);
    assert forall i :: 0 <= i < |nodes[1..]| ==> nodes[1..][i] == nodes[i + 1];
    PropertyTargetsBounded(nodes[0].properties, |lists|);
    TargetsBounded(nodes[1..], credentials, |lists|);
    TargetsBounded(nodes, credentials, |lists|);
    InjectConcat(OwnTargets(nodes[0], credentials), Targets(nodes[1..], credentials), lists);
  }

  lemma {:induction false} InjectConcat(a: seq<Ref>, b: seq<Ref>, lists: Lists)
    requires InRange(a, |lists|) && InRange(b, |lists|)
    ensures |InjectLists(a, lists).0| == |lists|
    ensures var (lists1, ok) := InjectLists(a, lists);
            InjectLists(a + b, lists) == if ok then InjectLists(b, lists1) else (lists1, false)
    decreases |a|
  {
    if a == [] {
      assert a + b == b;
    } else {
      assert (a + b)[0] == a[0] && (a + b)[1..] == a[1..] + b;
      if lists[a[0]] != [] {
        InjectConcat(a[1..], b, lists[a[0] := WithOption(lists[a[0]])]);
      }
    }
  }
}
