/** Repair of credential references in a workflow: one pass over the nodes with two
    caches in front of the credentials table, compared with a lookup per reference. */
module CredentialRepair {
  import opened Wrappers

  /** A row of the credentials table; `kind` is the credential type. */
  datatype Row = Row(id: string, name: string, kind: string)
  type Database = seq<Row>

  datatype Details = Details(id: Option<string>, name: string)

  /** A reference is a bare name (the old format) or an `{ id, name }` object. */
  datatype Reference = Named(name: string) | Detailed(details: Details)

  /** One property of `node.credentials`. */
  datatype Entry = Entry(kind: string, ref: Reference)

  datatype NodeData = NodeData(disabled: bool, credentials: Option<seq<Entry>>)

  function FindBy(db: Database, name: string, kind: string): seq<Row> {
    if db == [] then []
    else (if db[0].name == name && db[0].kind == kind then [db[0]] else []) + FindBy(db[1..], name, kind)
  }

  function FindOneBy(db: Database, id: string, kind: string): Option<Row> {
    if db == [] then None
    else if db[0].id == id && db[0].kind == kind then Some(db[0])
    else FindOneBy(db[1..], id, kind)
  }

  function FromRow(row: Row): Details {
    Details(Some(row.id), row.name)
  }

  // ---------------------------------------------------------------------------
  // The pass
  // ---------------------------------------------------------------------------

  datatype Caches = Caches(byName: map<(string, string), Details>, byId: map<(string, string), Details>)

  const NO_CACHE := Caches(map[], map[])

  predicate ByName(ref: Reference) {
    ref.Named? || ref.details.id.None?
  }

  function NameOf(ref: Reference): string {
    if ref.Named? then ref.name else ref.details.name
  }

  /** One reference of an enabled node. */
  function Repair(db: Database, caches: Caches, kind: string, ref: Reference): (Reference, Caches) {
    if ByName(ref) then
      var key := (kind, NameOf(ref));
      if key in caches.byName then (Detailed(caches.byName[key]), caches)
      else
        var rows := FindBy(db, NameOf(ref), kind);
        if |rows| == 1 then
          (Detailed(FromRow(rows[0])), caches.(byName := caches.byName[key := FromRow(rows[0])]))
        else
          (ref, caches.(byName := caches.byName[key := Details(None, NameOf(ref))]))
    else
      var key := (kind, ref.details.id.value);
      if key in caches.byId then (Detailed(caches.byId[key]), caches)
      else
        var row := FindOneBy(db, ref.details.id.value, kind);
        if row.Some? then
          (Detailed(FromRow(row.value)), caches.(byId := caches.byId[key := FromRow(row.value)]))
        else
          var rows := FindBy(db, ref.details.name, kind);
          if |rows| == 1 then
            (Detailed(FromRow(rows[0])), caches.(byId := caches.byId[(kind, rows[0].id) := FromRow(rows[0])]))
          else
            (ref, caches.(byId := caches.byId[key := ref.details]))
  }

  function RepairAll(db: Database, caches: Caches, entries: seq<Entry>): (seq<Entry>, Caches)
    decreases |entries|
  {
    if entries == [] then ([], caches) else
      var (ref, caches1) := Repair(db, caches, entries[0].kind, entries[0].ref);
      var (rest, caches2) := RepairAll(db, caches1, entries[1..]);
      ([Entry(entries[0].kind, ref)] + rest, caches2)
  }

  predicate Skipped(node: NodeData) {
    node.credentials.None? || node.disabled
  }

  function RepairNodes(db: Database, caches: Caches, nodes: seq<NodeData>): seq<NodeData>
    decreases |nodes|
  {
    if nodes == [] then []
    else if Skipped(nodes[0]) then [nodes[0]] + RepairNodes(db, caches, nodes[1..])
    else
      var (entries, caches1) := RepairAll(db, caches, nodes[0].credentials.value);
      [nodes[0].(credentials := Some(entries))] + RepairNodes(db, caches1, nodes[1..])
  }

  class WorkflowNode {
    const disabled: bool
    var credentials: Option<seq<Entry>>

    constructor (disabled: bool, credentials: Option<seq<Entry>>)
      ensures this.disabled == disabled && this.credentials == credentials
    {
      this.disabled := disabled;
      this.credentials := credentials;
    }

    function Data(): NodeData
      reads this
    {
      NodeData(disabled, credentials)
    }
  }

  function Snapshot(nodes: seq<WorkflowNode>): (r: seq<NodeData>)
    reads nodes
    ensures |r| == |nodes|
    ensures forall i :: 0 <= i < |nodes| ==> r[i] == nodes[i].Data()
  {
    seq(|nodes|, i requires 0 <= i < |nodes| reads nodes => nodes[i].Data())
  }

  /** `replaceInvalidCredentials`, which rewrites the nodes in place. */
  method ReplaceInvalidCredentials(nodes: seq<WorkflowNode>, db: Database)
    requires forall i, j :: 0 <= i < j < |nodes| ==> nodes[i] != nodes[j]
    modifies nodes
    ensures Snapshot(nodes) == RepairNodes(db, NO_CACHE, old(Snapshot(nodes)))
  {
    var caches := NO_CACHE;
    ghost var before := Snapshot(nodes);
    ghost var target := RepairNodes(db, NO_CACHE, before);
    RepairNodesLength(db, NO_CACHE, before);
    var i := 0;
    while i < |nodes|
      invariant 0 <= i <= |nodes|
      invariant forall k :: i <= k < |nodes| ==> nodes[k].Data() == before[k]
      invariant forall k :: 0 <= k < i ==> nodes[k].Data() == target[k]
      invariant RepairNodes(db, caches, before[i..]) == target[i..]
    {
      var node := nodes[i];
      RepairNodesStep(db, caches, before, target, i);
      if node.credentials.Some? && !node.disabled {
        caches := RepairNode(node, db, caches);
      }
      i := i + 1;
    }
    assert Snapshot(nodes) == target;
  }

  lemma RepairNodesStep(db: Database, caches: Caches, nodes: seq<NodeData>, target: seq<NodeData>, i: nat)
    requires i < |nodes| == |target| && RepairNodes(db, caches, nodes[i..]) == target[i..]
    ensures if Skipped(nodes[i]) then
              target[i] == nodes[i] && RepairNodes(db, caches, nodes[i + 1..]) == target[i + 1..]
            else
              var (entries, caches1) := RepairAll(db, caches, nodes[i].credentials.value);
              && target[i] == nodes[i].(credentials := Some(entries))
              && RepairNodes(db, caches1, nodes[i + 1..]) == target[i + 1..]
  {
    assert nodes[i..][0] == nodes[i] && nodes[i..][1..] == nodes[i + 1..];
    assert target[i..][0] == target[i] && target[i..][1..] == target[i + 1..];
  }

  /** The inner loop, over the entries the node had at the start. */
  method RepairNode(node: WorkflowNode, db: Database, caches0: Caches) returns (caches: Caches)
    requires node.credentials.Some?
    modifies node
    ensures node.credentials == Some(RepairAll(db, caches0, old(node.credentials.value)).0)
    ensures caches == RepairAll(db, caches0, old(node.credentials.value)).1
  {
    caches := caches0;
    var entries := node.credentials.value;
    ghost var (target, last) := RepairAll(db, caches0, entries);
    RepairAllKinds(db, caches0, entries);
    var j := 0;
    while j < |entries|
      invariant 0 <= j <= |entries|
      invariant node.credentials.Some? && |node.credentials.value| == |entries|
      invariant forall k :: j <= k < |entries| ==> node.credentials.value[k] == entries[k]
      invariant forall k :: 0 <= k < j ==> node.credentials.value[k] == target[k]
      invariant RepairAll(db, caches, entries[j..]) == (target[j..], last)
    {
      assert entries[j..][0] == entries[j] && entries[j..][1..] == entries[j + 1..];
      assert target[j..][0] == target[j] && target[j..][1..] == target[j + 1..];
      caches := RepairEntry(node, j, db, caches);
      j := j + 1;
    }
    assert node.credentials.value == target;
  }

  /** The body of the inner loop. */
  method RepairEntry(node: WorkflowNode, j: nat, db: Database, caches0: Caches) returns (caches: Caches)
    requires node.credentials.Some? && j < |node.credentials.value|
    modifies node
    ensures var e := old(node.credentials.value[j]);
            var (ref, caches1) := Repair(db, caches0, e.kind, e.ref);
            && node.credentials == Some(old(node.credentials.value)[j := Entry(e.kind, ref)])
            && caches == caches1
  {
    caches := caches0;
    var kind, ref := node.credentials.value[j].kind, node.credentials.value[j].ref;
    assert node.credentials.value == node.credentials.value[j := Entry(kind, ref)];
    if ByName(ref) {
      var name := NameOf(ref);
      if (kind, name) !in caches.byName {
        var rows := FindBy(db, name, kind);
        if |rows| == 1 {
          caches := caches.(byName := caches.byName[(kind, name) := FromRow(rows[0])]);
          SetCredential(node, j, Detailed(caches.byName[(kind, name)]));
          return;
        }
        caches := caches.(byName := caches.byName[(kind, name) := Details(None, name)]);
      } else {
        SetCredential(node, j, Detailed(caches.byName[(kind, name)]));
      }
      return;
    }
    var id := ref.details.id.value;
    if (kind, id) !in caches.byId {
      var row := FindOneBy(db, id, kind);
      if row.Some? {
        caches := caches.(byId := caches.byId[(kind, id) := FromRow(row.value)]);
        SetCredential(node, j, Detailed(caches.byId[(kind, id)]));
        return;
      }
      var rows := FindBy(db, ref.details.name, kind);
      if |rows| == 1 {
        caches := caches.(byId := caches.byId[(kind, rows[0].id) := FromRow(rows[0])]);
        SetCredential(node, j, Detailed(caches.byId[(kind, rows[0].id)]));
        return;
      }
      caches := caches.(byId := caches.byId[(kind, id) := ref.details]);
      return;
    }
    SetCredential(node, j, Detailed(caches.byId[(kind, id)]));
  }

  /** `node.credentials[type] = details` for the `j`th property. */
  method SetCredential(node: WorkflowNode, j: nat, ref: Reference)
    requires node.credentials.Some? && j < |node.credentials.value|
    modifies node
    ensures node.credentials == Some(old(node.credentials.value)[j := Entry(old(node.credentials.value)[j].kind, ref)])
  {
    var entries := node.credentials.value;
    node.credentials := Some(entries[j := Entry(entries[j].kind, ref)]);
  }

  // ---------------------------------------------------------------------------
  // The reference: one lookup per reference, no cache
  // ---------------------------------------------------------------------------

  function Uncached(db: Database, kind: string, ref: Reference): Reference {
    var rows := FindBy(db, NameOf(ref), kind);
    var row := if ByName(ref) then None else FindOneBy(db, ref.details.id.value, kind);
    if row.Some? then Detailed(FromRow(row.value))
    else if |rows| == 1 then Detailed(FromRow(rows[0]))
    else ref
  }

  /** A bare name and `{ id: null, name }` mean the same. */
  function Canonical(ref: Reference): Reference {
    if ref.Named? then Detailed(Details(None, ref.name)) else ref
  }

  /** `id` is a primary key. */
  ghost predicate UniqueIds(db: Database) {
    forall i, j :: 0 <= i < j < |db| ==> db[i].id != db[j].id
  }

  /** The references of the nodes that are repaired, in the order of the pass. */
  function Work(nodes: seq<NodeData>): seq<Entry> {
    if nodes == [] then []
    else (if Skipped(nodes[0]) then [] else nodes[0].credentials.value) + Work(nodes[1..])
  }

  ghost predicate Unresolvable(db: Database, e: Entry) {
    && !ByName(e.ref)
    && FindOneBy(db, e.ref.details.id.value, e.kind).None?
    && |FindBy(db, e.ref.details.name, e.kind)| != 1
  }

  /** An earlier reference that could not be resolved stands for the same missing
      type and id under another name. */
  ghost predicate Stale(db: Database, work: seq<Entry>, i: nat, j: nat) {
    && i < j < |work|
    && Unresolvable(db, work[i])
    && !ByName(work[j].ref)
    && work[i].kind == work[j].kind && work[i].ref.details.id == work[j].ref.details.id
    && work[i].ref.details.name != work[j].ref.details.name
  }

  ghost predicate NoStale(db: Database, work: seq<Entry>) {
    forall i: nat, j: nat :: !Stale(db, work, i, j)
  }

  ghost predicate Agrees(db: Database, e: Entry, repaired: Entry) {
    repaired.kind == e.kind && Canonical(repaired.ref) == Canonical(Uncached(db, e.kind, e.ref))
  }

  ghost predicate AllAgree(db: Database, work: seq<Entry>, repaired: seq<Entry>) {
    && |repaired| == |work|
    && forall k :: 0 <= k < |work| ==> Agrees(db, work[k], repaired[k])
  }

  // ---------------------------------------------------------------------------
  // Facts about the table
  // ---------------------------------------------------------------------------

  lemma {:induction false} FindByInTable(db: Database, name: string, kind: string, row: Row)
    ensures row in FindBy(db, name, kind) <==> row in db && row.name == name && row.kind == kind
  {
    if db != [] {
      FindByInTable(db[1..], name, kind, row);
      assert row in db <==> row == db[0] || row in db[1..];
    }
  }

  lemma {:induction false} FindOneByInTable(db: Database, id: string, kind: string)
    ensures var r := FindOneBy(db, id, kind);
            && (r.Some? ==> r.value in db && r.value.id == id && r.value.kind == kind)
            && (r.None? ==> forall row :: row in db ==> !(row.id == id && row.kind == kind))
  {
    if db != [] {
      FindOneByInTable(db[1..], id, kind);
    }
  }

  lemma FoundByNameIsFoundById(db: Database, name: string, kind: string)
    requires UniqueIds(db) && |FindBy(db, name, kind)| == 1
    ensures var row := FindBy(db, name, kind)[0];
            FindOneBy(db, row.id, kind) == Some(row) && row.name == name
  {
    var row := FindBy(db, name, kind)[0];
    FindByInTable(db, name, kind, row);
    FindOneByInTable(db, row.id, kind);
    var found := FindOneBy(db, row.id, kind).value;
    var i :| 0 <= i < |db| && db[i] == row;
    var j :| 0 <= j < |db| && db[j] == found;
  }

  // ---------------------------------------------------------------------------
  // What the caches hold after the references `done`
  // ---------------------------------------------------------------------------

  function ResolvedName(db: Database, kind: string, name: string): Details {
    var rows := FindBy(db, name, kind);
    if |rows| == 1 then FromRow(rows[0]) else Details(None, name)
  }

  ghost predicate NamesCached(db: Database, caches: Caches) {
    forall kind, name :: (kind, name) in caches.byName ==> caches.byName[(kind, name)] == ResolvedName(db, kind, name)
  }

  ghost predicate Blames(db: Database, done: seq<Entry>, kind: string, id: string, details: Details, i: nat) {
    i < |done| && Unresolvable(db, done[i]) && done[i].kind == kind && done[i].ref.details.id == Some(id)
    && done[i].ref.details == details
  }

  ghost predicate IdsCached(db: Database, caches: Caches, done: seq<Entry>) {
    && (forall kind, id :: (kind, id) in caches.byId ==>
          var row := FindOneBy(db, id, kind);
          if row.Some? then caches.byId[(kind, id)] == FromRow(row.value)
          else exists i: nat :: Blames(db, done, kind, id, caches.byId[(kind, id)], i))
    && (forall i :: 0 <= i < |done| && Unresolvable(db, done[i]) ==>
          (done[i].kind, done[i].ref.details.id.value) in caches.byId)
  }

  ghost predicate CachesHold(db: Database, caches: Caches, done: seq<Entry>) {
    NamesCached(db, caches) && IdsCached(db, caches, done)
  }

  lemma StaleInPrefix(db: Database, done: seq<Entry>, e: Entry, i: nat, j: nat)
    requires j < |done|
    ensures Stale(db, done + [e], i, j) <==> Stale(db, done, i, j)
  {
  }

  /** One reference: the caches stay right, and the answer is the uncached one
      unless the reference is stale. */
  lemma RepairStep(db: Database, caches: Caches, done: seq<Entry>, e: Entry)
    requires UniqueIds(db) && CachesHold(db, caches, done)
    ensures CachesHold(db, Repair(db, caches, e.kind, e.ref).1, done + [e])
  {
    if ByName(e.ref) {
      KeepIds(db, caches, caches, done, e);
    } else {
      var id := e.ref.details.id.value;
      if (e.kind, id) in caches.byId || FindOneBy(db, id, e.kind).Some? {
        KeepIds(db, caches, Repair(db, caches, e.kind, e.ref).1, done, e);
      } else if |FindBy(db, e.ref.details.name, e.kind)| == 1 {
        FoundByNameIsFoundById(db, e.ref.details.name, e.kind);
        KeepIds(db, caches, Repair(db, caches, e.kind, e.ref).1, done, e);
      } else {
        var all := done + [e];
        assert Blames(db, all, e.kind, id, e.ref.details, |done|);
        KeepIds(db, caches, Repair(db, caches, e.kind, e.ref).1, done, e);
      }
    }
  }

  /** Growing the cache by right entries keeps it right. */
  lemma KeepIds(db: Database, caches: Caches, caches1: Caches, done: seq<Entry>, e: Entry)
    requires IdsCached(db, caches, done)
    requires forall k :: k in caches.byId && k in caches1.byId && caches1.byId[k] != caches.byId[k] ==>
             FindOneBy(db, k.1, k.0).Some?
    requires caches.byId.Keys <= caches1.byId.Keys
    requires forall k :: k in caches1.byId && (k !in caches.byId || caches1.byId[k] != caches.byId[k]) ==>
               var row := FindOneBy(db, k.1, k.0);
               if row.Some? then caches1.byId[k] == FromRow(row.value)
               else Blames(db, done + [e], k.0, k.1, caches1.byId[k], |done|)
    requires Unresolvable(db, e) ==> (e.kind, e.ref.details.id.value) in caches1.byId
    ensures IdsCached(db, caches1, done + [e])
  {
    var all := done + [e];
    forall kind, id | (kind, id) in caches1.byId && FindOneBy(db, id, kind).None?
      ensures exists i: nat :: Blames(db, all, kind, id, caches1.byId[(kind, id)], i)
    {
      if (kind, id) in caches.byId && caches1.byId[(kind, id)] == caches.byId[(kind, id)] {
        var i: nat :| Blames(db, done, kind, id, caches.byId[(kind, id)], i);
        assert all[i] == done[i];
        assert Blames(db, all, kind, id, caches1.byId[(kind, id)], i);
      } else {
        assert Blames(db, all, kind, id, caches1.byId[(kind, id)], |done|);
      }
    }
  }

  lemma AgreesUnlessStale(db: Database, caches: Caches, done: seq<Entry>, e: Entry)
    requires UniqueIds(db) && CachesHold(db, caches, done) && NoStale(db, done)
    ensures Canonical(Repair(db, caches, e.kind, e.ref).0) == Canonical(Uncached(db, e.kind, e.ref))
            <==> NoStale(db, done + [e])
  {
    var all := done + [e];
    forall i: nat, j: nat | j < |done|
      ensures !Stale(db, all, i, j)
    {
      StaleInPrefix(db, done, e, i, j);
    }
    if ByName(e.ref) {
      var name := NameOf(e.ref);
      assert (e.kind, name) in caches.byName ==> caches.byName[(e.kind, name)] == ResolvedName(db, e.kind, name);
    } else {
      var id := e.ref.details.id.value;
      FindOneByInTable(db, id, e.kind);
      if FindOneBy(db, id, e.kind).None? {
        if (e.kind, id) in caches.byId {
          CachedMissingId(db, caches, done, e);
        } else {
          forall i: nat | i < |done|
            ensures !Stale(db, all, i, |done|)
          {
          }
        }
      }
    }
  }

  /** The cache answers with the name of the unresolved reference it blames. */
  lemma CachedMissingId(db: Database, caches: Caches, done: seq<Entry>, e: Entry)
    requires UniqueIds(db) && CachesHold(db, caches, done) && NoStale(db, done)
    requires !ByName(e.ref) && FindOneBy(db, e.ref.details.id.value, e.kind).None?
    requires (e.kind, e.ref.details.id.value) in caches.byId
    ensures var cached := Detailed(caches.byId[(e.kind, e.ref.details.id.value)]);
            cached == Uncached(db, e.kind, e.ref) <==> forall i: nat :: !Stale(db, done + [e], i, |done|)
  {
    var all, id := done + [e], e.ref.details.id.value;
    var cached := caches.byId[(e.kind, id)];
    var i: nat :| Blames(db, done, e.kind, id, cached, i);
    assert all[i] == done[i] && all[|done|] == e;
    if cached.name == e.ref.details.name {
      forall k: nat
        ensures !Stale(db, all, k, |done|)
      {
        if k < |done| {
          assert all[k] == done[k];
          assert !Stale(db, done, k, i) && !Stale(db, done, i, k);
        }
      }
    } else {
      assert Stale(db, all, i, |done|);
      var rows := FindBy(db, e.ref.details.name, e.kind);
      if |rows| == 1 {
        FoundByNameIsFoundById(db, e.ref.details.name, e.kind);
      }
    }
  }

  lemma StaleExtends(db: Database, done: seq<Entry>, rest: seq<Entry>)
    requires NoStale(db, done + rest)
    ensures NoStale(db, done)
  {
    var all := done + rest;
    forall i: nat, j: nat ensures !Stale(db, done, i, j) {
      assert !Stale(db, all, i, j);
      assert i < j < |done| ==> all[i] == done[i] && all[j] == done[j];
    }
  }

  lemma {:induction false} PassAgreesIff(db: Database, caches: Caches, done: seq<Entry>, rest: seq<Entry>)
    requires UniqueIds(db) && CachesHold(db, caches, done) && NoStale(db, done)
    ensures AllAgree(db, rest, RepairAll(db, caches, rest).0) <==> NoStale(db, done + rest)
    decreases |rest|
  {
    if rest == [] {
      assert done + rest == done;
    } else {
      var e := rest[0];
      var (ref, caches1) := Repair(db, caches, e.kind, e.ref);
      AgreesUnlessStale(db, caches, done, e);
      assert done + [e] + rest[1..] == done + rest;
      var out, out1 := RepairAll(db, caches, rest).0, RepairAll(db, caches1, rest[1..]).0;
      assert out == [Entry(e.kind, ref)] + out1;
      if NoStale(db, done + [e]) {
        RepairStep(db, caches, done, e);
        PassAgreesIff(db, caches1, done + [e], rest[1..]);
        AllAgreeCons(db, rest, Entry(e.kind, ref), out1);
      } else {
        if NoStale(db, done + rest) {
          StaleExtends(db, done + [e], rest[1..]);
        }
        assert !Agrees(db, rest[0], out[0]);
      }
    }
  }

  lemma AllAgreeCons(db: Database, work: seq<Entry>, first: Entry, others: seq<Entry>)
    requires work != []
    ensures AllAgree(db, work, [first] + others) <==> Agrees(db, work[0], first) && AllAgree(db, work[1..], others)
  {
    var out := [first] + others;
    if AllAgree(db, work, out) {
      assert Agrees(db, work[0], out[0]);
      forall k | 0 <= k < |others| ensures Agrees(db, work[1..][k], others[k]) {
        assert Agrees(db, work[k + 1], out[k + 1]);
      }
    }
  }

  // ---------------------------------------------------------------------------
  // The whole workflow
  // ---------------------------------------------------------------------------

  lemma {:induction false} RepairAllConcat(db: Database, caches: Caches, a: seq<Entry>, b: seq<Entry>)
    ensures var (ra, caches1) := RepairAll(db, caches, a);
            var (rb, caches2) := RepairAll(db, caches1, b);
            RepairAll(db, caches, a + b) == (ra + rb, caches2)
    decreases |a|
  {
    if a == [] {
      assert a + b == b;
      var rb := RepairAll(db, caches, b).0;
      assert [] + rb == rb;
    } else {
      var (ref, caches1) := Repair(db, caches, a[0].kind, a[0].ref);
      assert (a + b)[0] == a[0] && (a + b)[1..] == a[1..] + b;
      RepairAllConcat(db, caches1, a[1..], b);
      var (ra, caches2) := RepairAll(db, caches1, a[1..]);
      var rb := RepairAll(db, caches2, b).0;
      var first := Entry(a[0].kind, ref);
      assert RepairAll(db, caches, a) == ([first] + ra, caches2);
      assert [first] + (ra + rb) == [first] + ra + rb;
    }
  }

  /** The nodes' references after the pass are the pass over the nodes' references. */
  lemma {:induction false} WorkOfRepaired(db: Database, caches: Caches, nodes: seq<NodeData>)
    ensures Work(RepairNodes(db, caches, nodes)) == RepairAll(db, caches, Work(nodes)).0
    decreases |nodes|
  {
    if nodes != [] {
      var out := RepairNodes(db, caches, nodes);
      if Skipped(nodes[0]) {
        assert out[0] == nodes[0] && out[1..] == RepairNodes(db, caches, nodes[1..]);
        WorkOfRepaired(db, caches, nodes[1..]);
        assert Work(nodes) == Work(nodes[1..]);
      } else {
        var (entries, caches1) := RepairAll(db, caches, nodes[0].credentials.value);
        assert out[0].credentials == Some(entries) && out[1..] == RepairNodes(db, caches1, nodes[1..]);
        WorkOfRepaired(db, caches1, nodes[1..]);
        RepairAllConcat(db, caches, nodes[0].credentials.value, Work(nodes[1..]));
      }
    }
  }

  lemma {:induction false} RepairNodesLength(db: Database, caches: Caches, nodes: seq<NodeData>)
    ensures |RepairNodes(db, caches, nodes)| == |nodes|
    decreases |nodes|
  {
    if nodes != [] {
      var caches1 := if Skipped(nodes[0]) then caches else RepairAll(db, caches, nodes[0].credentials.value).1;
      RepairNodesLength(db, caches1, nodes[1..]);
    }
  }

  /** Reference by reference the same credential types. */
  predicate SameKinds(a: seq<Entry>, b: seq<Entry>) {
    |a| == |b| && forall j :: 0 <= j < |a| ==> a[j].kind == b[j].kind
  }

  lemma {:induction false} RepairAllKinds(db: Database, caches: Caches, entries: seq<Entry>)
    ensures SameKinds(RepairAll(db, caches, entries).0, entries)
    decreases |entries|
  {
    if entries != [] {
      RepairAllKinds(db, Repair(db, caches, entries[0].kind, entries[0].ref).1, entries[1..]);
    }
  }

  /** Skipped nodes are unchanged, and no reference of another node is added, dropped or
      given another credential type. */
  lemma {:induction false} RepairKeepsShape(db: Database, caches: Caches, nodes: seq<NodeData>, k: nat)
    requires k < |nodes|
    ensures var out := RepairNodes(db, caches, nodes);
            && |out| == |nodes|
            && out[k].disabled == nodes[k].disabled
            && (Skipped(nodes[k]) ==> out[k] == nodes[k])
            && (!Skipped(nodes[k]) ==>
                  out[k].credentials.Some? && SameKinds(out[k].credentials.value, nodes[k].credentials.value))
    decreases |nodes|
  {
    var caches1 := if Skipped(nodes[0]) then caches else RepairAll(db, caches, nodes[0].credentials.value).1;
    if !Skipped(nodes[0]) {
      RepairAllKinds(db, caches, nodes[0].credentials.value);
    }
    RepairNodesLength(db, caches1, nodes[1..]);
    if k > 0 {
      RepairKeepsShape(db, caches1, nodes[1..], k - 1);
    }
  }

  /** The cached pass gives every reference of every enabled node what its own
      database lookup would give, up to the format of a bare name, if and only if
      no unresolvable reference shares its missing type and id with a later
      reference of another name. */
  lemma RepairAgreesIff(db: Database, nodes: seq<NodeData>)
    requires UniqueIds(db)
    ensures AllAgree(db, Work(nodes), Work(RepairNodes(db, NO_CACHE, nodes))) <==> NoStale(db, Work(nodes))
  {
    WorkOfRepaired(db, NO_CACHE, nodes);
    PassAgreesIff(db, NO_CACHE, [], Work(nodes));
    assert [] + Work(nodes) == Work(nodes);
  }

  /** Two references to a deleted credential under different names: the second is
      given the name of the first. */
  lemma StaleExample()
    ensures var one := Entry("smtp", Detailed(Details(Some("7"), "old")));
            var two := Entry("smtp", Detailed(Details(Some("7"), "new")));
            && RepairAll([], NO_CACHE, [one, two]).0 == [one, one]
            && Uncached([], "smtp", two.ref) == two.ref
            && Stale([], [one, two], 0, 1)
  {
    var one := Entry("smtp", Detailed(Details(Some("7"), "old")));
    var two := Entry("smtp", Detailed(Details(Some("7"), "new")));
    var caches := Caches(map[], map[("smtp", "7") := one.ref.details]);
    assert Repair([], NO_CACHE, "smtp", one.ref) == (one.ref, caches);
    assert Repair([], caches, "smtp", two.ref) == (one.ref, caches);
    assert [one, two][1..] == [two] && [two][1..] == [];
    assert RepairAll([], caches, []) == ([], caches);
    assert RepairAll([], caches, [two]) == ([one] + [], caches);
    assert RepairAll([], NO_CACHE, [one, two]).0 == [one] + ([one] + []);
  }
}
