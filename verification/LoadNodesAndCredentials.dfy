/**
 * Rebuilding the registry of nodes and credentials from the loaders: merge what every loader knows,
 * derive the tools, push the custom option to the lists that the loaders still own.
 */
module LoadNodesAndCredentials {
  import opened Options
  import opened NodeDescriptions
  import opened AiTools

  datatype LoaderNode = LoaderNode(className: string, path: string)

  datatype LoaderCredential = LoaderCredential(className: string, path: string, supportedNodes: Option<seq<string>>, parents: Option<seq<string>>)

  datatype KnownCredential = KnownCredential(source: Source, supportedNodes: Option<seq<string>>, parents: Option<seq<string>>)

  /** The identity of a loaded class instance. */
  type Loaded = nat

  type KnownCredentials = map<string, KnownCredential>

  datatype Loader = Loader(
    packageName: string, directory: string, isPackage: bool,
    nodes: seq<Node>, credentials: seq<CredentialType>,
    nodeTypes: map<string, Loaded>, credentialTypes: map<string, Loaded>,
    knownNodes: map<string, LoaderNode>, knownCredentials: map<string, LoaderCredential>)

  datatype Registry = Registry(
    knownNodes: KnownNodes, knownCredentials: KnownCredentials,
    loadedNodes: map<string, Loaded>, loadedCredentials: map<string, Loaded>,
    nodes: seq<Node>, credentials: seq<CredentialType>)

  const EMPTY := Registry(map[], map[], map[], map[], [], [])

  // ---------------------------------------------------------------- merging the loaders

  function NodeFrom(loader: Loader, node: LoaderNode): Option<Source> {
    Some(Source(node.className, loader.directory, node.path))
  }

  function Prefixed(packageName: string, names: seq<string>): seq<string> {
    seq(|names|, i requires 0 <= i < |names| => packageName + "." + names[i])
  }

  /** Only a package's credentials list supported nodes, under the names the package gives them. */
  function CredentialFrom(loader: Loader, c: LoaderCredential): KnownCredential {
    KnownCredential(
      Source(c.className, loader.directory, c.path),
      if loader.isPackage && c.supportedNodes.Some? then Some(Prefixed(loader.packageName, c.supportedNodes.value)) else None,
      c.parents)
  }

  function NodesFrom(loader: Loader): KnownNodes {
    map t | t in loader.knownNodes :: NodeFrom(loader, loader.knownNodes[t])
  }

  function CredentialsFrom(loader: Loader): KnownCredentials {
    map t | t in loader.knownCredentials :: CredentialFrom(loader, loader.knownCredentials[t])
  }

  function Merged(r: Registry, loader: Loader): Registry {
    Registry(
      r.knownNodes + NodesFrom(loader), r.knownCredentials + CredentialsFrom(loader),
      r.loadedNodes + loader.nodeTypes, r.loadedCredentials + loader.credentialTypes,
      r.nodes + loader.nodes, r.credentials + loader.credentials)
  }

  function MergedAll(r: Registry, loaders: seq<Loader>): Registry
    decreases |loaders|
  {
    if loaders == [] then r else MergedAll(Merged(r, loaders[0]), loaders[1..])
  }

  /** Tables laid over each other, later ones on top. */
  function Overlaid<V>(base: map<string, V>, tables: seq<map<string, V>>): map<string, V>
    decreases |tables|
  {
    if tables == [] then base else Overlaid(base + tables[0], tables[1..])
  }

  ghost predicate LastWith<V>(tables: seq<map<string, V>>, i: nat, t: string) {
    && i < |tables|
    && t in tables[i]
    && forall j :: i < j < |tables| ==> t !in tables[j]
  }

  lemma {:induction false} NoTableKeepsBase<V>(base: map<string, V>, tables: seq<map<string, V>>, t: string)
    requires forall j :: 0 <= j < |tables| ==> t !in tables[j]
    ensures t in Overlaid(base, tables) <==> t in base
    ensures t in base ==> Overlaid(base, tables)[t] == base[t]
    decreases |tables|
  {
    if tables != [] {
      NoTableKeepsBase(base + tables[0], tables[1..], t);
    }
  }

  lemma {:induction false} LastTableWins<V>(base: map<string, V>, tables: seq<map<string, V>>, i: nat, t: string)
    requires LastWith(tables, i, t)
    ensures t in Overlaid(base, tables) && Overlaid(base, tables)[t] == tables[i][t]
    decreases |tables|
  {
    if i == 0 {
      NoTableKeepsBase(base + tables[0], tables[1..], t);
    } else {
      LastTableWins(base + tables[0], tables[1..], i - 1, t);
    }
  }

  function NodeTables(loaders: seq<Loader>): seq<KnownNodes> {
    seq(|loaders|, i requires 0 <= i < |loaders| => NodesFrom(loaders[i]))
  }

  function CredentialTables(loaders: seq<Loader>): seq<KnownCredentials> {
    seq(|loaders|, i requires 0 <= i < |loaders| => CredentialsFrom(loaders[i]))
  }

  function LoadedNodeTables(loaders: seq<Loader>): seq<map<string, Loaded>> {
    seq(|loaders|, i requires 0 <= i < |loaders| => loaders[i].nodeTypes)
  }

  function LoadedCredentialTables(loaders: seq<Loader>): seq<map<string, Loaded>> {
    seq(|loaders|, i requires 0 <= i < |loaders| => loaders[i].credentialTypes)
  }

  lemma {:induction false} MergingOverlays(r: Registry, loaders: seq<Loader>)
    ensures MergedAll(r, loaders).knownNodes == Overlaid(r.knownNodes, NodeTables(loaders))
    ensures MergedAll(r, loaders).knownCredentials == Overlaid(r.knownCredentials, CredentialTables(loaders))
    ensures MergedAll(r, loaders).loadedNodes == Overlaid(r.loadedNodes, LoadedNodeTables(loaders))
    ensures MergedAll(r, loaders).loadedCredentials == Overlaid(r.loadedCredentials, LoadedCredentialTables(loaders))
    decreases |loaders|
  {
    if loaders != [] {
      var rest := loaders[1..];
      MergingOverlays(Merged(r, loaders[0]), rest);
      assert NodeTables(loaders)[1..] == NodeTables(rest);
      assert CredentialTables(loaders)[1..] == CredentialTables(rest);
      assert LoadedNodeTables(loaders)[1..] == LoadedNodeTables(rest);
      assert LoadedCredentialTables(loaders)[1..] == LoadedCredentialTables(rest);
    }
  }

  /** The lists one after the other. */
  function Flat<T>(lists: seq<seq<T>>): seq<T> {
    if lists == [] then [] else lists[0] + Flat(lists[1..])
  }

  /** How many elements the lists before the one at `i` have. */
  function Offset<T>(lists: seq<seq<T>>, i: nat): nat
    requires i <= |lists|
  {
    if i == 0 then 0 else Offset(lists, i - 1) + |lists[i - 1]|
  }

  lemma {:induction false} OffsetRest<T>(lists: seq<seq<T>>, i: nat)
    requires 0 < i <= |lists|
    ensures Offset(lists, i) == |lists[0]| + Offset(lists[1..], i - 1)
  {
    if i > 1 {
      OffsetRest(lists, i - 1);
    }
  }

  lemma {:induction false} FlatLength<T>(lists: seq<seq<T>>)
    ensures |Flat(lists)| == Offset(lists, |lists|)
  {
    if lists != [] {
      FlatLength(lists[1..]);
      OffsetRest(lists, |lists|);
    }
  }

  lemma {:induction false} FlatAt<T>(lists: seq<seq<T>>, i: nat, k: nat)
    requires i < |lists| && k < |lists[i]|
    ensures Offset(lists, i) + k < |Flat(lists)| && Flat(lists)[Offset(lists, i) + k] == lists[i][k]
  {
    if i > 0 {
      FlatAt(lists[1..], i - 1, k);
      OffsetRest(lists, i);
    }
  }

  function NodeLists(loaders: seq<Loader>): seq<seq<Node>> {
    seq(|loaders|, i requires 0 <= i < |loaders| => loaders[i].nodes)
  }

  function CredentialLists(loaders: seq<Loader>): seq<seq<CredentialType>> {
    seq(|loaders|, i requires 0 <= i < |loaders| => loaders[i].credentials)
  }

  /** The nodes of all loaders, in the order of the loaders. */
  function NodesOf(loaders: seq<Loader>): seq<Node> {
    Flat(NodeLists(loaders))
  }

  function CredentialsOf(loaders: seq<Loader>): seq<CredentialType> {
    Flat(CredentialLists(loaders))
  }

  lemma {:induction false} MergingConcatenates(r: Registry, loaders: seq<Loader>)
    ensures MergedAll(r, loaders).nodes == r.nodes + NodesOf(loaders)
    ensures MergedAll(r, loaders).credentials == r.credentials + CredentialsOf(loaders)
    decreases |loaders|
  {
    if loaders != [] {
      MergingConcatenates(Merged(r, loaders[0]), loaders[1..]);
      assert NodeLists(loaders)[1..] == NodeLists(loaders[1..]);
      assert CredentialLists(loaders)[1..] == CredentialLists(loaders[1..]);
    }
  }

  /** Merging keeps all nodes and credential types of all loaders, in the order of the loaders. */
  lemma MergedInOrder(loaders: seq<Loader>)
    ensures MergedAll(EMPTY, loaders).nodes == NodesOf(loaders)
    ensures MergedAll(EMPTY, loaders).credentials == CredentialsOf(loaders)
  {
    MergingConcatenates(EMPTY, loaders);
  }

  /** The `k`-th node and the `k`-th credential type of a loader come behind all those of the loaders before it. */
  lemma EveryLoaderShows(loaders: seq<Loader>, i: nat, k: nat)
    requires i < |loaders|
    ensures var nodes, all := NodeLists(loaders), MergedAll(EMPTY, loaders).nodes;
            && |all| == Offset(nodes, |loaders|)
            && (k < |loaders[i].nodes| ==> Offset(nodes, i) + k < |all| && all[Offset(nodes, i) + k] == loaders[i].nodes[k])
    ensures var types, all := CredentialLists(loaders), MergedAll(EMPTY, loaders).credentials;
            && |all| == Offset(types, |loaders|)
            && (k < |loaders[i].credentials| ==> Offset(types, i) + k < |all| && all[Offset(types, i) + k] == loaders[i].credentials[k])
  {
    MergedInOrder(loaders);
    FlatLength(NodeLists(loaders));
    FlatLength(CredentialLists(loaders));
    if k < |loaders[i].nodes| { FlatAt(NodeLists(loaders), i, k); }
    if k < |loaders[i].credentials| { FlatAt(CredentialLists(loaders), i, k); }
  }

  /** What is known of a credential when it comes from the loader. */
  ghost predicate CredentialOf(loader: Loader, c: LoaderCredential, known: KnownCredential) {
    && known.source.className == c.className && known.source.directory == loader.directory && known.source.path == c.path
    && known.parents == c.parents
    && (known.supportedNodes.Some? <==> loader.isPackage && c.supportedNodes.Some?)
    && (known.supportedNodes.Some? ==>
          && |known.supportedNodes.value| == |c.supportedNodes.value|
          && forall j :: 0 <= j < |c.supportedNodes.value| ==>
               known.supportedNodes.value[j] == loader.packageName + "." + c.supportedNodes.value[j])
  }

  /** A node or credential that several loaders know is taken from the last of them, under that loader's directory and package name. */
  lemma LastLoaderWins(loaders: seq<Loader>, i: nat, t: string)
    ensures LastWith(NodeTables(loaders), i, t)
        ==> t in loaders[i].knownNodes && t in MergedAll(EMPTY, loaders).knownNodes
            && MergedAll(EMPTY, loaders).knownNodes[t]
            == Some(Source(loaders[i].knownNodes[t].className, loaders[i].directory, loaders[i].knownNodes[t].path))
    ensures LastWith(CredentialTables(loaders), i, t)
        ==> t in loaders[i].knownCredentials && t in MergedAll(EMPTY, loaders).knownCredentials
            && CredentialOf(loaders[i], loaders[i].knownCredentials[t], MergedAll(EMPTY, loaders).knownCredentials[t])
    ensures LastWith(LoadedNodeTables(loaders), i, t)
        ==> t in MergedAll(EMPTY, loaders).loadedNodes
            && MergedAll(EMPTY, loaders).loadedNodes[t] == loaders[i].nodeTypes[t]
    ensures LastWith(LoadedCredentialTables(loaders), i, t)
        ==> t in MergedAll(EMPTY, loaders).loadedCredentials
            && MergedAll(EMPTY, loaders).loadedCredentials[t] == loaders[i].credentialTypes[t]
  {
    MergingOverlays(EMPTY, loaders);
    if LastWith(NodeTables(loaders), i, t) { LastTableWins(EMPTY.knownNodes, NodeTables(loaders), i, t); }
    if LastWith(CredentialTables(loaders), i, t) { LastTableWins(EMPTY.knownCredentials, CredentialTables(loaders), i, t); }
    if LastWith(LoadedNodeTables(loaders), i, t) { LastTableWins(EMPTY.loadedNodes, LoadedNodeTables(loaders), i, t); }
    if LastWith(LoadedCredentialTables(loaders), i, t) { LastTableWins(EMPTY.loadedCredentials, LoadedCredentialTables(loaders), i, t); }
  }

  /** What no loader knows is not known: nothing of an unloaded package remains after a rebuild. */
  lemma UnknownToAllIsUnknown(loaders: seq<Loader>, t: string)
    ensures (forall l :: l in loaders ==> t !in l.knownNodes) ==> t !in MergedAll(EMPTY, loaders).knownNodes
    ensures (forall l :: l in loaders ==> t !in l.knownCredentials) ==> t !in MergedAll(EMPTY, loaders).knownCredentials
  {
    MergingOverlays(EMPTY, loaders);
    if forall l :: l in loaders ==> t !in l.knownNodes { NoTableKeepsBase(EMPTY.knownNodes, NodeTables(loaders), t); }
    if forall l :: l in loaders ==> t !in l.knownCredentials { NoTableKeepsBase(EMPTY.knownCredentials, CredentialTables(loaders), t); }
  }

  // ---------------------------------------------------------------- the whole rebuild

  function Usables(nodes: seq<Node>): seq<Node> {
    if nodes == [] then []
    else (if nodes[0].info.usableAsTool then [nodes[0]] else []) + Usables(nodes[1..])
  }

  function NamesOf(nodes: seq<Node>): seq<string> {
    seq(|nodes|, i requires 0 <= i < |nodes| => nodes[i].info.name)
  }

  function CredentialAfter(c: KnownCredential, names: seq<string>): KnownCredential {
    if c.supportedNodes.Some? then c.(supportedNodes := Some(SupportAfter(c.supportedNodes.value, names))) else c
  }

  function CredentialsAfter(known: KnownCredentials, names: seq<string>): KnownCredentials {
    map c | c in known :: CredentialAfter(known[c], names)
  }

  function WithToolsOf(r: Registry, m: Memory, usables: seq<Node>): Registry {
    r.(
      knownNodes := KnownAfter(r.knownNodes, NamesOf(usables)),
      knownCredentials := CredentialsAfter(r.knownCredentials, NamesOf(usables)),
      nodes := r.nodes + Tools(m, usables))
  }

  function WithTools(r: Registry, m: Memory): Registry {
    WithToolsOf(r, m, Usables(r.nodes))
  }

  datatype Processed = Processed(registry: Registry, memory: Memory, thrown: bool)

  function PostProcess(loaders: seq<Loader>, m: Memory): Processed {
    var merged := MergedAll(EMPTY, loaders);
    var registry := WithTools(merged, m);
    var after := AfterTools(m, Usables(merged.nodes));
    var injection := Inject(after.lists, AllTargets(registry.credentials, registry.nodes));
    Processed(registry, Memory(injection.lists, after.next), injection.Thrown?)
  }

  predicate AllClosed(lists: Lists, nodes: seq<Node>) {
    forall i :: 0 <= i < |nodes| ==> Closed(lists, nodes[i])
  }

  lemma {:induction false} UsablesAre(nodes: seq<Node>, u: Node)
    ensures u in Usables(nodes) <==> u in nodes && u.info.usableAsTool
  {
    if nodes != [] {
      assert nodes == [nodes[0]] + nodes[1..];
      UsablesAre(nodes[1..], u);
    }
  }

  /** How many of the first `i` nodes are usable as tools. */
  function UsablesBefore(nodes: seq<Node>, i: nat): nat
    requires i <= |nodes|
  {
    if i == 0 then 0 else UsablesBefore(nodes, i - 1) + if nodes[i - 1].info.usableAsTool then 1 else 0
  }

  lemma {:induction false} UsablesBeforeRest(nodes: seq<Node>, i: nat)
    requires 0 < i <= |nodes|
    ensures UsablesBefore(nodes, i) == UsablesBefore(nodes[1..], i - 1) + if nodes[0].info.usableAsTool then 1 else 0
  {
    if i > 1 {
      UsablesBeforeRest(nodes, i - 1);
    }
  }

  /** Every usable node is taken once, behind the usable nodes before it. */
  lemma {:induction false} UsablesInOrder(nodes: seq<Node>, i: nat)
    requires i <= |nodes|
    ensures |Usables(nodes)| == UsablesBefore(nodes, |nodes|)
    ensures i < |nodes| && nodes[i].info.usableAsTool ==>
              UsablesBefore(nodes, i) < |Usables(nodes)| && Usables(nodes)[UsablesBefore(nodes, i)] == nodes[i]
  {
    if nodes != [] {
      UsablesInOrder(nodes[1..], if i == 0 then 0 else i - 1);
      UsablesBeforeRest(nodes, |nodes|);
      if i > 0 { UsablesBeforeRest(nodes, i); }
    }
  }

  // ---------------------------------------------------------------- which lists the injection reaches

  lemma {:induction false} AllTargetsConcat(types: seq<CredentialType>, first: seq<Node>, second: seq<Node>)
    ensures AllTargets(types, first + second) == AllTargets(types, first) + AllTargets(types, second)
  {
    if first == [] {
      assert first + second == second;
    } else {
      assert (first + second)[1..] == first[1..] + second;
      AllTargetsConcat(types, first[1..], second);
    }
  }

  lemma TargetsBelow(types: seq<CredentialType>, nodes: seq<Node>, m: Memory, r: nat)
    requires m.Valid() && AllClosed(m.lists, nodes) && r in AllTargets(types, nodes)
    ensures r in m.lists && r < m.next
  {
    AllTargetsAre(types, nodes, r);
    var i :| 0 <= i < |nodes| && r in NodeTargets(types, nodes[i]);
    TargetsArePresent(types, m.lists, nodes[i], r);
  }

  /** `q` is the copy of a target of the `j`-th usable node. */
  predicate CopiedTarget(types: seq<CredentialType>, usables: seq<Node>, base: nat, q: nat, j: nat) {
    j < |usables| && base <= q < 2 * base && q - base in NodeTargets(types, usables[j])
  }

  lemma ToolTargetIsCopiedTarget(types: seq<CredentialType>, usables: seq<Node>, m: Memory, q: nat, j: nat)
    requires m.Valid() && AllClosed(m.lists, usables) && j < |usables|
    ensures q in NodeTargets(types, ToolAt(usables[j], Base(m.next, j)))
       <==> CopiedTarget(types, usables, Base(m.next, j), q, j)
  {
    var base := Base(m.next, j);
    ToolTargets(types, usables[j], base, q);
    if base <= q && q - base in NodeTargets(types, usables[j]) {
      TargetsArePresent(types, m.lists, usables[j], q - base);
      BaseAbove(m.next, j);
    }
  }

  lemma TargetOfSomeTool(types: seq<CredentialType>, usables: seq<Node>, m: Memory, q: nat) returns (j: nat)
    requires m.Valid() && AllClosed(m.lists, usables) && q in AllTargets(types, Tools(m, usables))
    ensures CopiedTarget(types, usables, Base(m.next, j), q, j)
  {
    AllTargetsAre(types, Tools(m, usables), q);
    ToolsAre(m, usables);
    j :| j < |usables| && q in NodeTargets(types, Tools(m, usables)[j]);
    ToolTargetIsCopiedTarget(types, usables, m, q, j);
  }

  lemma CopiedTargetIsReached(types: seq<CredentialType>, usables: seq<Node>, m: Memory, q: nat, j: nat)
    requires m.Valid() && AllClosed(m.lists, usables) && CopiedTarget(types, usables, Base(m.next, j), q, j)
    ensures q in AllTargets(types, Tools(m, usables))
  {
    AllTargetsAre(types, Tools(m, usables), q);
    ToolsAre(m, usables);
    ToolTargetIsCopiedTarget(types, usables, m, q, j);
    assert q in NodeTargets(types, Tools(m, usables)[j]);
  }

  lemma BasesApart(next: nat, i: nat, j: nat, q: nat)
    requires Base(next, i) <= q <= 2 * Base(next, i) && Base(next, j) <= q <= 2 * Base(next, j)
    ensures i == j
  {
    if i < j { BaseGrows(next, i, j); } else if j < i { BaseGrows(next, j, i); }
  }

  lemma CopyBelongsToItsTool(types: seq<CredentialType>, usables: seq<Node>, next: nat, i: nat, j: nat, r: nat)
    requires r < next && CopiedTarget(types, usables, Base(next, j), Copy(Base(next, i), r), j)
    ensures i == j
  {
    BaseAbove(next, i);
    BasesApart(next, i, j, Copy(Base(next, i), r));
  }

  lemma CopiedTargetIsTarget(types: seq<CredentialType>, usables: seq<Node>, base: nat, r: nat, i: nat)
    requires CopiedTarget(types, usables, base, Copy(base, r), i)
    ensures i < |usables| && r in NodeTargets(types, usables[i])
  {
    assert Copy(base, r) - base == r;
  }

  lemma ReachedCopyIsTarget(types: seq<CredentialType>, usables: seq<Node>, m: Memory, i: nat, r: nat)
    requires m.Valid() && AllClosed(m.lists, usables) && i < |usables| && r < m.next
    requires Copy(Base(m.next, i), r) in AllTargets(types, Tools(m, usables))
    ensures r in NodeTargets(types, usables[i])
  {
    var j := TargetOfSomeTool(types, usables, m, Copy(Base(m.next, i), r));
    CopyBelongsToItsTool(types, usables, m.next, i, j, r);
    CopiedTargetIsTarget(types, usables, Base(m.next, i), r, i);
  }

  lemma TargetCopyIsReached(types: seq<CredentialType>, usables: seq<Node>, m: Memory, i: nat, r: nat)
    requires m.Valid() && AllClosed(m.lists, usables) && i < |usables| && r < m.next
    requires r in NodeTargets(types, usables[i])
    ensures Copy(Base(m.next, i), r) in AllTargets(types, Tools(m, usables))
  {
    var q := Copy(Base(m.next, i), r);
    BaseAbove(m.next, i);
    assert q - Base(m.next, i) == r;
    CopiedTargetIsReached(types, usables, m, q, i);
  }

  lemma SparesLoaderLists(types: seq<CredentialType>, usables: seq<Node>, m: Memory, r: nat)
    requires m.Valid() && AllClosed(m.lists, usables) && r < m.next
    ensures r !in AllTargets(types, Tools(m, usables))
  {
    if r in AllTargets(types, Tools(m, usables)) {
      var j := TargetOfSomeTool(types, usables, m, r);
      BaseAbove(m.next, j);
    }
  }

  lemma SparesDescriptionLists(types: seq<CredentialType>, usables: seq<Node>, m: Memory, i: nat)
    requires m.Valid() && AllClosed(m.lists, usables) && i < |usables|
    ensures 2 * Base(m.next, i) !in AllTargets(types, Tools(m, usables))
    ensures m.next <= 2 * Base(m.next, i)
  {
    var q := 2 * Base(m.next, i);
    BaseAbove(m.next, i);
    if q in AllTargets(types, Tools(m, usables)) {
      var j := TargetOfSomeTool(types, usables, m, q);
      BasesApart(m.next, i, j, q);
    }
  }

  // ---------------------------------------------------------------- what a reader sees after a rebuild

  /** A list held by a loader's node, `targets` being the lists that get the custom option. */
  function SeenNames(lists: Lists, targets: seq<nat>, list: Option<nat>): Option<seq<string>> {
    if list.None? || list.value !in lists then None
    else Some(if list.value in targets then WithCustom(lists[list.value]) else lists[list.value])
  }

  function SeenProperties(lists: Lists, targets: seq<nat>, properties: seq<Property>): seq<PropertyView> {
    seq(|properties|, k requires 0 <= k < |properties| => PropertyView(properties[k].name, SeenNames(lists, targets, properties[k].list)))
  }

  /** A loader's node shows the option in every list that any node of the loaders makes a target. */
  function SeenNode(types: seq<CredentialType>, nodes: seq<Node>, lists: Lists, n: Node): NodeView {
    NodeView(n.info, SeenProperties(lists, AllTargets(types, nodes), n.properties))
  }

  /** A tool shows it only in the copies of lists that its own base makes a target. */
  function SeenTool(types: seq<CredentialType>, lists: Lists, u: Node): NodeView {
    ToolView(NodeView(u.info, SeenProperties(lists, NodeTargets(types, u), u.properties)))
  }

  function SeenNodes(types: seq<CredentialType>, nodes: seq<Node>, lists: Lists): seq<NodeView> {
    seq(|nodes|, i requires 0 <= i < |nodes| => SeenNode(types, nodes, lists, nodes[i]))
  }

  function SeenTools(types: seq<CredentialType>, lists: Lists, usables: seq<Node>): seq<NodeView> {
    seq(|usables|, i requires 0 <= i < |usables| => SeenTool(types, lists, usables[i]))
  }

  datatype Contents = Contents(
    knownNodes: KnownNodes, knownCredentials: KnownCredentials,
    loadedNodes: map<string, Loaded>, loadedCredentials: map<string, Loaded>,
    nodes: seq<NodeView>, credentials: seq<CredentialType>)

  function ContentsOf(p: Processed): Contents {
    var r := p.registry;
    Contents(r.knownNodes, r.knownCredentials, r.loadedNodes, r.loadedCredentials, ViewNodes(p.memory.lists, r.nodes), r.credentials)
  }

  lemma InjectedPerNode(types: seq<CredentialType>, nodes: seq<Node>, usables: seq<Node>, m: Memory, r: nat)
    requires m.Valid() && AllClosed(m.lists, nodes) && AllClosed(m.lists, usables) && r < m.next
    ensures r in AllTargets(types, nodes + Tools(m, usables)) <==> r in AllTargets(types, nodes)
  {
    AllTargetsConcat(types, nodes, Tools(m, usables));
    SparesLoaderLists(types, usables, m, r);
  }

  lemma InjectedPerCopy(types: seq<CredentialType>, nodes: seq<Node>, usables: seq<Node>, m: Memory, i: nat, r: nat)
    requires m.Valid() && AllClosed(m.lists, nodes) && AllClosed(m.lists, usables) && i < |usables| && r < m.next
    ensures Copy(Base(m.next, i), r) in AllTargets(types, nodes + Tools(m, usables)) <==> r in NodeTargets(types, usables[i])
  {
    var q := Copy(Base(m.next, i), r);
    AllTargetsConcat(types, nodes, Tools(m, usables));
    BaseAbove(m.next, i);
    if q in AllTargets(types, nodes) { TargetsBelow(types, nodes, m, q); }
    if q in AllTargets(types, Tools(m, usables)) { ReachedCopyIsTarget(types, usables, m, i, r); }
    if r in NodeTargets(types, usables[i]) { TargetCopyIsReached(types, usables, m, i, r); }
  }

  lemma DescriptionListNotInjected(types: seq<CredentialType>, nodes: seq<Node>, usables: seq<Node>, m: Memory, i: nat)
    requires m.Valid() && AllClosed(m.lists, nodes) && AllClosed(m.lists, usables) && i < |usables|
    ensures 2 * Base(m.next, i) !in AllTargets(types, nodes + Tools(m, usables))
  {
    AllTargetsConcat(types, nodes, Tools(m, usables));
    SparesDescriptionLists(types, usables, m, i);
    if 2 * Base(m.next, i) in AllTargets(types, nodes) { TargetsBelow(types, nodes, m, 2 * Base(m.next, i)); }
  }

  lemma LoaderNodeShows(types: seq<CredentialType>, nodes: seq<Node>, usables: seq<Node>, m: Memory, n: Node)
    requires m.Valid() && AllClosed(m.lists, nodes) && AllClosed(m.lists, usables) && Closed(m.lists, n)
    ensures ViewNode(Injected(AfterTools(m, usables).lists, AllTargets(types, nodes + Tools(m, usables))), n)
         == SeenNode(types, nodes, m.lists, n)
  {
    var after, all := AfterTools(m, usables).lists, AllTargets(types, nodes + Tools(m, usables));
    AfterToolsKeeps(m, usables);
    var shown, seen := ViewNode(Injected(after, all), n), SeenNode(types, nodes, m.lists, n);
    forall k | 0 <= k < |n.properties|
      ensures shown.properties[k] == seen.properties[k]
    {
      var list := n.properties[k].list;
      if list.Some? {
        InjectedPerNode(types, nodes, usables, m, list.value);
      }
    }
    assert shown.properties == seen.properties;
  }

  lemma ToolPropertyShows(types: seq<CredentialType>, nodes: seq<Node>, usables: seq<Node>, m: Memory, i: nat, k: nat)
    requires m.Valid() && AllClosed(m.lists, nodes) && AllClosed(m.lists, usables)
    requires i < |usables| && k < |usables[i].properties|
    ensures Names(Injected(AfterTools(m, usables).lists, AllTargets(types, nodes + Tools(m, usables))),
                  Shifted(usables[i].properties[k].list, Base(m.next, i)))
         == SeenNames(m.lists, NodeTargets(types, usables[i]), usables[i].properties[k].list)
  {
    var list := usables[i].properties[k].list;
    assert Closed(m.lists, usables[i]);
    if list.Some? {
      ToolListsAreCopies(m, usables, i, k, list.value);
      InjectedPerCopy(types, nodes, usables, m, i, list.value);
    }
  }

  lemma ToolShows(types: seq<CredentialType>, nodes: seq<Node>, usables: seq<Node>, m: Memory, i: nat)
    requires m.Valid() && AllClosed(m.lists, nodes) && AllClosed(m.lists, usables) && i < |usables|
    ensures ViewNode(Injected(AfterTools(m, usables).lists, AllTargets(types, nodes + Tools(m, usables))), ToolAt(usables[i], Base(m.next, i)))
         == SeenTool(types, m.lists, usables[i])
  {
    var u, base := usables[i], Base(m.next, i);
    var lists := Injected(AfterTools(m, usables).lists, AllTargets(types, nodes + Tools(m, usables)));
    DescriptionListIs(m, usables, i);
    DescriptionListNotInjected(types, nodes, usables, m, i);
    var plain := NodeView(u.info, SeenProperties(m.lists, NodeTargets(types, u), u.properties));
    AddedSameAs(lists, u, plain, base);
    var shown, seen := ViewNode(lists, ToolAt(u, base)), SeenTool(types, m.lists, u);
    var added := |Added(u.properties, 2 * base)|;
    forall k | added <= k < |shown.properties|
      ensures shown.properties[k] == seen.properties[k]
    {
      ToolPropertyShows(types, nodes, usables, m, i, k - added);
    }
    assert shown.properties == seen.properties;
  }

  function ListsAfter(types: seq<CredentialType>, nodes: seq<Node>, usables: seq<Node>, m: Memory): Lists {
    Injected(AfterTools(m, usables).lists, AllTargets(types, nodes + Tools(m, usables)))
  }

  lemma LoaderNodesShow(types: seq<CredentialType>, nodes: seq<Node>, usables: seq<Node>, m: Memory)
    requires m.Valid() && AllClosed(m.lists, nodes) && AllClosed(m.lists, usables)
    ensures ViewNodes(ListsAfter(types, nodes, usables, m), nodes) == SeenNodes(types, nodes, m.lists)
  {
    forall i | 0 <= i < |nodes|
      ensures ViewNode(ListsAfter(types, nodes, usables, m), nodes[i]) == SeenNode(types, nodes, m.lists, nodes[i])
    {
      LoaderNodeShows(types, nodes, usables, m, nodes[i]);
    }
  }

  lemma ToolsShow(types: seq<CredentialType>, nodes: seq<Node>, usables: seq<Node>, m: Memory)
    requires m.Valid() && AllClosed(m.lists, nodes) && AllClosed(m.lists, usables)
    ensures ViewNodes(ListsAfter(types, nodes, usables, m), Tools(m, usables)) == SeenTools(types, m.lists, usables)
  {
    ToolsAre(m, usables);
    forall i | 0 <= i < |usables|
      ensures ViewNode(ListsAfter(types, nodes, usables, m), Tools(m, usables)[i]) == SeenTool(types, m.lists, usables[i])
    {
      ToolShows(types, nodes, usables, m, i);
    }
  }

  lemma ViewNodesConcat(lists: Lists, first: seq<Node>, second: seq<Node>)
    ensures ViewNodes(lists, first + second) == ViewNodes(lists, first) + ViewNodes(lists, second)
  {
  }

  lemma NodesShow(types: seq<CredentialType>, nodes: seq<Node>, usables: seq<Node>, m: Memory)
    requires m.Valid() && AllClosed(m.lists, nodes) && AllClosed(m.lists, usables)
    ensures ViewNodes(ListsAfter(types, nodes, usables, m), nodes + Tools(m, usables))
         == SeenNodes(types, nodes, m.lists) + SeenTools(types, m.lists, usables)
  {
    LoaderNodesShow(types, nodes, usables, m);
    ToolsShow(types, nodes, usables, m);
    ViewNodesConcat(ListsAfter(types, nodes, usables, m), nodes, Tools(m, usables));
  }

  lemma UsablesClosed(lists: Lists, nodes: seq<Node>)
    requires AllClosed(lists, nodes)
    ensures AllClosed(lists, Usables(nodes))
  {
    forall i | 0 <= i < |Usables(nodes)|
      ensures Closed(lists, Usables(nodes)[i])
    {
      UsablesAre(nodes, Usables(nodes)[i]);
    }
  }

  predicate Loadable(loaders: seq<Loader>, m: Memory) {
    m.Valid() && AllClosed(m.lists, NodesOf(loaders))
  }

  /**
   * What is visible after a rebuild that does not throw: the loaders' nodes in order, each list with
   * the custom option if some loader's node makes it a target, then one tool for each usable node, in
   * order, with the option where the base itself has a target.
   */
  lemma RebuildShows(loaders: seq<Loader>, m: Memory)
    requires Loadable(loaders, m) && !PostProcess(loaders, m).thrown
    ensures ContentsOf(PostProcess(loaders, m)).nodes
      == SeenNodes(CredentialsOf(loaders), NodesOf(loaders), m.lists) + SeenTools(CredentialsOf(loaders), m.lists, Usables(NodesOf(loaders)))
  {
    MergedInOrder(loaders);
    var nodes, types, usables := NodesOf(loaders), CredentialsOf(loaders), Usables(NodesOf(loaders));
    UsablesClosed(m.lists, nodes);
    NodesShow(types, nodes, usables, m);
    InjectionIsOnceEach(AfterTools(m, usables).lists, AllTargets(types, nodes + Tools(m, usables)));
  }

  // ---------------------------------------------------------------- what is known after a rebuild

  lemma NameOfUsable(nodes: seq<Node>, name: string)
    ensures name in NamesOf(nodes) <==> exists u :: u in nodes && u.info.name == name
  {
    if name in NamesOf(nodes) {
      var i :| 0 <= i < |nodes| && NamesOf(nodes)[i] == name;
      assert nodes[i] in nodes;
    }
    if u :| u in nodes && u.info.name == name {
      var i :| 0 <= i < |nodes| && nodes[i] == u;
      assert NamesOf(nodes)[i] == name;
    }
  }

  /**
   * A rebuild lets a credential support, beside the nodes that it supports already, the tools of usable ones among
   * them, and nothing but tools of usable nodes; and it changes nothing else of a credential.
   */
  lemma RebuildSupports(loaders: seq<Loader>, m: Memory, c: string)
    ensures PostProcess(loaders, m).registry.knownCredentials.Keys == MergedAll(EMPTY, loaders).knownCredentials.Keys
    ensures c in MergedAll(EMPTY, loaders).knownCredentials ==>
              var before, after := MergedAll(EMPTY, loaders).knownCredentials[c], PostProcess(loaders, m).registry.knownCredentials[c];
              && after.source == before.source && after.parents == before.parents
              && (after.supportedNodes.Some? <==> before.supportedNodes.Some?)
              && (before.supportedNodes.Some? ==>
                    && before.supportedNodes.value <= after.supportedNodes.value
                    && (forall u :: u in Usables(NodesOf(loaders)) && u.info.name in before.supportedNodes.value ==>
                          u.info.name + "Tool" in after.supportedNodes.value)
                    && (forall t :: t in after.supportedNodes.value && t !in before.supportedNodes.value ==>
                          exists u :: u in Usables(NodesOf(loaders)) && t == u.info.name + "Tool"))
  {
    MergedInOrder(loaders);
    var known, usables := MergedAll(EMPTY, loaders).knownCredentials, Usables(NodesOf(loaders));
    if c in known && known[c].supportedNodes.Some? {
      SupportOfUsables(known[c].supportedNodes.value, usables);
    }
  }

  lemma SupportOfUsables(supported: seq<string>, usables: seq<Node>)
    ensures var after := SupportAfter(supported, NamesOf(usables));
            && supported <= after
            && (forall u :: u in usables && u.info.name in supported ==> u.info.name + "Tool" in after)
            && (forall t :: t in after && t !in supported ==> exists u :: u in usables && t == u.info.name + "Tool")
  {
    var names := NamesOf(usables);
    var after := SupportAfter(supported, names);
    EarlierSupportKept(supported, names);
    forall u | u in usables && u.info.name in supported
      ensures u.info.name + "Tool" in after
    {
      NameOfUsable(usables, u.info.name);
      BaseGivesTool(supported, names, u.info.name);
    }
    forall t | t in after && t !in supported
      ensures exists u :: u in usables && t == u.info.name + "Tool"
    {
      OnlyToolsAdded(supported, names, t);
      var n :| n in names && t == ToolName(n);
      NameOfUsable(usables, n);
    }
  }

  /** Unless a usable node bears the name of an earlier one's tool, every tool is known as its base is, and the rest as before. */
  lemma RebuildKnows(loaders: seq<Loader>, m: Memory, name: string)
    requires !AnyToolNamedLater(NamesOf(Usables(NodesOf(loaders))))
    ensures var before, after := MergedAll(EMPTY, loaders).knownNodes, PostProcess(loaders, m).registry.knownNodes;
            && ((exists u :: u in Usables(NodesOf(loaders)) && u.info.name == name) ==>
                  && name + "Tool" in after
                  && after[name + "Tool"] == if name in before then before[name] else None)
            && ((forall u :: u in Usables(NodesOf(loaders)) ==> name != u.info.name + "Tool") ==>
                  (name in after <==> name in before) && (name in before ==> after[name] == before[name]))
  {
    MergedInOrder(loaders);
    var names := NamesOf(Usables(NodesOf(loaders)));
    KnownDerivedIfDistinct(MergedAll(EMPTY, loaders).knownNodes, names);
    NameOfUsable(Usables(NodesOf(loaders)), name);
    if IsToolOf(names, name) {
      var n :| n in names && name == ToolName(n);
      NameOfUsable(Usables(NodesOf(loaders)), n);
    }
  }

  // ---------------------------------------------------------------- when a rebuild throws

  lemma TargetIsCopiedFrom(types: seq<CredentialType>, usables: seq<Node>, m: Memory, j: nat, r: nat)
    requires m.Valid() && AllClosed(m.lists, usables) && j < |usables| && r in NodeTargets(types, usables[j])
    ensures r in m.lists && Copy(Base(m.next, j), r) in AfterTools(m, usables).lists
    ensures AfterTools(m, usables).lists[Copy(Base(m.next, j), r)] == m.lists[r]
  {
    var u := usables[j];
    TargetsArePresent(types, m.lists, u, r);
    TargetsAre(u.properties, r);
    var k: nat :| k < |u.properties| && IsTarget(u.properties[k], r);
    ToolListsAreCopies(m, usables, j, k, r);
  }

  lemma EmptyTargetOfBase(types: seq<CredentialType>, nodes: seq<Node>, usables: seq<Node>, m: Memory, q: nat)
    requires m.Valid() && AllClosed(m.lists, usables) && (forall u :: u in usables ==> u in nodes)
    requires q in AllTargets(types, Tools(m, usables))
    requires q in AfterTools(m, usables).lists && AfterTools(m, usables).lists[q] == []
    ensures !NoneEmpty(m.lists, AllTargets(types, nodes))
  {
    var j := TargetOfSomeTool(types, usables, m, q);
    var r := q - Base(m.next, j);
    TargetIsCopiedFrom(types, usables, m, j, r);
    assert q == Copy(Base(m.next, j), r);
    OwnTargetIsTarget(types, nodes, usables[j], r);
  }

  lemma EmptyTargetsOfTools(types: seq<CredentialType>, nodes: seq<Node>, usables: seq<Node>, m: Memory)
    requires m.Valid() && AllClosed(m.lists, nodes) && AllClosed(m.lists, usables)
    requires forall u :: u in usables ==> u in nodes
    ensures NoneEmpty(AfterTools(m, usables).lists, AllTargets(types, nodes + Tools(m, usables)))
       <==> NoneEmpty(m.lists, AllTargets(types, nodes))
  {
    var after, all := AfterTools(m, usables).lists, AllTargets(types, nodes + Tools(m, usables));
    AllTargetsConcat(types, nodes, Tools(m, usables));
    AfterToolsKeeps(m, usables);
    if !NoneEmpty(after, all) {
      var q :| q in all && q in after && after[q] == [];
      if q in AllTargets(types, nodes) {
        TargetsBelow(types, nodes, m, q);
      } else {
        EmptyTargetOfBase(types, nodes, usables, m, q);
      }
    }
    if !NoneEmpty(m.lists, AllTargets(types, nodes)) {
      var r :| r in AllTargets(types, nodes) && r in m.lists && m.lists[r] == [];
      assert r in all && r in after && after[r] == [];
    }
  }

  /** A rebuild throws exactly when some list that gets the option is empty at the start. */
  lemma ThrowsExactlyOnEmptyTarget(loaders: seq<Loader>, m: Memory)
    requires Loadable(loaders, m)
    ensures PostProcess(loaders, m).thrown
       <==> !NoneEmpty(m.lists, AllTargets(CredentialsOf(loaders), NodesOf(loaders)))
  {
    MergedInOrder(loaders);
    var nodes, types, usables := NodesOf(loaders), CredentialsOf(loaders), Usables(NodesOf(loaders));
    UsablesClosed(m.lists, nodes);
    InjectionIsOnceEach(AfterTools(m, usables).lists, AllTargets(types, nodes + Tools(m, usables)));
    forall u | u in usables
      ensures u in nodes
    {
      UsablesAre(nodes, u);
    }
    EmptyTargetsOfTools(types, nodes, usables, m);
  }

  // ---------------------------------------------------------------- rebuilding twice

  /** A list of the base that only other nodes make a target, and that lacks the option so far. */
  predicate Foreign(types: seq<CredentialType>, nodes: seq<Node>, lists: Lists, u: Node, list: Option<nat>) {
    && list.Some? && list.value in lists
    && list.value in AllTargets(types, nodes)
    && list.value !in NodeTargets(types, u)
    && !EndsWithCustom(lists[list.value])
  }

  predicate AnyForeign(types: seq<CredentialType>, nodes: seq<Node>, lists: Lists, u: Node) {
    exists p :: p in u.properties && Foreign(types, nodes, lists, u, p.list)
  }

  /** What a rebuild leaves in the lists of the loaders. */
  predicate OptionAdded(types: seq<CredentialType>, nodes: seq<Node>, before: Lists, lists: Lists) {
    forall r :: r in before ==>
      r in lists && lists[r] == if r in AllTargets(types, nodes) then WithCustom(before[r]) else before[r]
  }

  lemma OwnTargetIsTarget(types: seq<CredentialType>, nodes: seq<Node>, u: Node, r: nat)
    requires u in nodes && r in NodeTargets(types, u)
    ensures r in AllTargets(types, nodes)
  {
    var i :| 0 <= i < |nodes| && nodes[i] == u;
    AllTargetsAre(types, nodes, r);
  }

  /** A target for the second list of credential types only, which lacks the option so far. */
  predicate NewTarget(types: seq<CredentialType>, types': seq<CredentialType>, nodes: seq<Node>, lists: Lists, r: nat) {
    && r in AllTargets(types', nodes) && r !in AllTargets(types, nodes)
    && r in lists && !EndsWithCustom(lists[r])
  }

  predicate NoNewTarget(types: seq<CredentialType>, types': seq<CredentialType>, nodes: seq<Node>, lists: Lists) {
    forall r :: r in AllTargets(types', nodes) ==> !NewTarget(types, types', nodes, lists, r)
  }

  lemma SameSeenNames(types: seq<CredentialType>, types': seq<CredentialType>, nodes: seq<Node>, before: Lists, lists: Lists, u: Node, list: Option<nat>)
    requires OptionAdded(types, nodes, before, lists) && Present(before, list) && u in nodes
    ensures SeenNames(lists, AllTargets(types', nodes), list) == SeenNames(before, AllTargets(types, nodes), list)
       <==> !(list.Some? && NewTarget(types, types', nodes, before, list.value))
    ensures !(list.Some? && NewTarget(types, types', nodes, before, list.value)) ==>
              (SeenNames(lists, NodeTargets(types', u), list) == SeenNames(before, NodeTargets(types, u), list)
               <==> !Foreign(types, nodes, before, u, list))
  {
    if list.Some? && list.value in NodeTargets(types, u) {
      OwnTargetIsTarget(types, nodes, u, list.value);
    }
    if list.Some? && list.value in NodeTargets(types', u) {
      OwnTargetIsTarget(types', nodes, u, list.value);
    }
  }

  lemma SameSeenTool(types: seq<CredentialType>, types': seq<CredentialType>, nodes: seq<Node>, before: Lists, lists: Lists, u: Node)
    requires OptionAdded(types, nodes, before, lists) && Closed(before, u) && u in nodes && NoNewTarget(types, types', nodes, before)
    ensures SeenTool(types', lists, u) == SeenTool(types, before, u) <==> !AnyForeign(types, nodes, before, u)
  {
    var first, again := SeenProperties(before, NodeTargets(types, u), u.properties), SeenProperties(lists, NodeTargets(types', u), u.properties);
    ToolViewInjective(NodeView(u.info, first), NodeView(u.info, again));
    forall k | 0 <= k < |u.properties|
      ensures first[k] == again[k] <==> !Foreign(types, nodes, before, u, u.properties[k].list)
    {
      SameSeenNames(types, types', nodes, before, lists, u, u.properties[k].list);
    }
    if AnyForeign(types, nodes, before, u) {
      var p :| p in u.properties && Foreign(types, nodes, before, u, p.list);
      var k :| 0 <= k < |u.properties| && u.properties[k] == p;
      assert first[k] != again[k];
    } else {
      assert forall k :: 0 <= k < |u.properties| ==> u.properties[k] in u.properties;
      assert first == again;
    }
  }

  lemma ToolViewInjective(v: NodeView, w: NodeView)
    requires v.info == w.info && |v.properties| == |w.properties|
    requires forall k :: 0 <= k < |v.properties| ==> v.properties[k].name == w.properties[k].name
    ensures ToolView(v) == ToolView(w) <==> v.properties == w.properties
  {
    forall name
      ensures ViewHas(v, name) <==> ViewHas(w, name)
    {
      SameViewHas(v, w, name);
      SameViewHas(w, v, name);
    }
    assert AddedView(v) == AddedView(w);
    var a := AddedView(v);
    if ToolView(v) == ToolView(w) {
      assert v.properties == (a + v.properties)[|a|..] == (a + w.properties)[|a|..] == w.properties;
    }
  }

  lemma SameViewHas(v: NodeView, w: NodeView, name: string)
    requires |v.properties| == |w.properties|
    requires forall k :: 0 <= k < |v.properties| ==> v.properties[k].name == w.properties[k].name
    ensures ViewHas(v, name) ==> ViewHas(w, name)
  {
    if ViewHas(v, name) {
      var k :| 0 <= k < |v.properties| && v.properties[k].name == name;
      assert w.properties[k] in w.properties;
    }
  }

  lemma SameSeenNode(types: seq<CredentialType>, types': seq<CredentialType>, nodes: seq<Node>, before: Lists, lists: Lists, n: Node)
    requires OptionAdded(types, nodes, before, lists) && Closed(before, n) && n in nodes && NoNewTarget(types, types', nodes, before)
    ensures SeenNode(types', nodes, lists, n) == SeenNode(types, nodes, before, n)
  {
    var first := SeenProperties(before, AllTargets(types, nodes), n.properties);
    var again := SeenProperties(lists, AllTargets(types', nodes), n.properties);
    forall k | 0 <= k < |n.properties|
      ensures again[k] == first[k]
    {
      SameSeenNames(types, types', nodes, before, lists, n, n.properties[k].list);
    }
    assert again == first;
  }

  /** A new target shows in a node that holds it. */
  lemma NewTargetShows(types: seq<CredentialType>, types': seq<CredentialType>, nodes: seq<Node>, before: Lists, lists: Lists, r: nat)
    requires OptionAdded(types, nodes, before, lists) && AllClosed(before, nodes) && NewTarget(types, types', nodes, before, r)
    ensures SeenNodes(types', nodes, lists) != SeenNodes(types, nodes, before)
  {
    AllTargetsAre(types', nodes, r);
    var i :| 0 <= i < |nodes| && r in NodeTargets(types', nodes[i]);
    TargetsAre(nodes[i].properties, r);
    var k :| 0 <= k < |nodes[i].properties| && IsTarget(nodes[i].properties[k], r);
    assert Closed(before, nodes[i]);
    SameSeenNames(types, types', nodes, before, lists, nodes[i], nodes[i].properties[k].list);
    assert SeenNode(types', nodes, lists, nodes[i]).properties[k] != SeenNode(types, nodes, before, nodes[i]).properties[k];
    assert SeenNodes(types', nodes, lists)[i] != SeenNodes(types, nodes, before)[i];
  }

  lemma SameSeen(types: seq<CredentialType>, types': seq<CredentialType>, nodes: seq<Node>, before: Lists, lists: Lists)
    requires OptionAdded(types, nodes, before, lists) && AllClosed(before, nodes)
    ensures SeenNodes(types', nodes, lists) == SeenNodes(types, nodes, before) <==> NoNewTarget(types, types', nodes, before)
  {
    if NoNewTarget(types, types', nodes, before) {
      forall i | 0 <= i < |nodes|
        ensures SeenNode(types', nodes, lists, nodes[i]) == SeenNode(types, nodes, before, nodes[i])
      {
        SameSeenNode(types, types', nodes, before, lists, nodes[i]);
      }
    } else {
      var r :| NewTarget(types, types', nodes, before, r);
      NewTargetShows(types, types', nodes, before, lists, r);
    }
  }

  lemma SameSeenTools(types: seq<CredentialType>, types': seq<CredentialType>, nodes: seq<Node>, usables: seq<Node>, before: Lists, lists: Lists)
    requires OptionAdded(types, nodes, before, lists) && AllClosed(before, usables) && NoNewTarget(types, types', nodes, before)
    requires forall u :: u in usables ==> u in nodes
    ensures SeenTools(types', lists, usables) == SeenTools(types, before, usables)
       <==> forall u :: u in usables ==> !AnyForeign(types, nodes, before, u)
  {
    var first, again := SeenTools(types, before, usables), SeenTools(types', lists, usables);
    forall i | 0 <= i < |usables|
      ensures first[i] == again[i] <==> !AnyForeign(types, nodes, before, usables[i])
    {
      SameSeenTool(types, types', nodes, before, lists, usables[i]);
    }
    if first == again {
      forall u | u in usables
        ensures !AnyForeign(types, nodes, before, u)
      {
        var i :| 0 <= i < |usables| && usables[i] == u;
        assert first[i] == again[i];
      }
    }
  }

  /** After a rebuild that does not throw, another one, perhaps with other credential types, finds its loaders' lists in order. */
  lemma ReadyForAnother(loaders: seq<Loader>, loaders': seq<Loader>, m: Memory)
    requires Loadable(loaders, m) && !PostProcess(loaders, m).thrown
    requires NodesOf(loaders') == NodesOf(loaders)
    ensures Loadable(loaders', PostProcess(loaders, m).memory)
    ensures OptionAdded(CredentialsOf(loaders), NodesOf(loaders), m.lists, PostProcess(loaders, m).memory.lists)
  {
    MergedInOrder(loaders);
    var nodes, types, usables := NodesOf(loaders), CredentialsOf(loaders), Usables(NodesOf(loaders));
    var lists := PostProcess(loaders, m).memory.lists;
    UsablesClosed(m.lists, nodes);
    AfterToolsKeeps(m, usables);
    InjectionIsOnceEach(AfterTools(m, usables).lists, AllTargets(types, nodes + Tools(m, usables)));
    forall r | r in m.lists
      ensures r in lists && lists[r] == if r in AllTargets(types, nodes) then WithCustom(m.lists[r]) else m.lists[r]
    {
      InjectedPerNode(types, nodes, usables, m, r);
    }
  }

  /** The second rebuild throws exactly when a list that gets the option was empty before the first one. */
  lemma ThrowsAgainExactly(loaders: seq<Loader>, loaders': seq<Loader>, m: Memory)
    requires Loadable(loaders, m) && !PostProcess(loaders, m).thrown
    requires NodesOf(loaders') == NodesOf(loaders)
    ensures PostProcess(loaders', PostProcess(loaders, m).memory).thrown
       <==> !NoneEmpty(m.lists, AllTargets(CredentialsOf(loaders'), NodesOf(loaders)))
  {
    var nodes, types := NodesOf(loaders), CredentialsOf(loaders);
    var all' := AllTargets(CredentialsOf(loaders'), nodes);
    var lists := PostProcess(loaders, m).memory.lists;
    ReadyForAnother(loaders, loaders', m);
    ThrowsExactlyOnEmptyTarget(loaders, m);
    ThrowsExactlyOnEmptyTarget(loaders', PostProcess(loaders, m).memory);
    forall r | r in all'
      ensures r in m.lists && r in lists && (lists[r] == [] <==> m.lists[r] == [])
    {
      TargetsBelow(CredentialsOf(loaders'), nodes, m, r);
      if r in AllTargets(types, nodes) { assert EndsWithCustom(lists[r]); }
    }
  }

  /**
   * Rebuilding again, after the credential types have changed in any way, shows the same nodes if and only if
   * no list has become a target that was none before, and no usable node holds a list that only other nodes
   * made a target. The tool of such a node is copied before the option is pushed to that list the first
   * time, and after it the second time.
   */
  lemma RebuildingAgain(loaders: seq<Loader>, loaders': seq<Loader>, m: Memory)
    requires Loadable(loaders, m) && !PostProcess(loaders, m).thrown
    requires NodesOf(loaders') == NodesOf(loaders)
    requires !PostProcess(loaders', PostProcess(loaders, m).memory).thrown
    ensures var types' := CredentialsOf(loaders'); var once := PostProcess(loaders, m);
      ContentsOf(PostProcess(loaders', once.memory)).nodes == ContentsOf(once).nodes
      <==> && NoNewTarget(CredentialsOf(loaders), types', NodesOf(loaders), m.lists)
           && forall u :: u in Usables(NodesOf(loaders)) ==> !AnyForeign(CredentialsOf(loaders), NodesOf(loaders), m.lists, u)
  {
    var once := PostProcess(loaders, m);
    MergedInOrder(loaders);
    var nodes, types, usables := NodesOf(loaders), CredentialsOf(loaders), Usables(NodesOf(loaders));
    var types', lists := CredentialsOf(loaders'), once.memory.lists;
    ReadyForAnother(loaders, loaders', m);
    RebuildShows(loaders, m);
    RebuildShows(loaders', once.memory);
    UsablesClosed(m.lists, nodes);
    forall u | u in usables
      ensures u in nodes
    {
      UsablesAre(nodes, u);
    }
    SameSeen(types, types', nodes, m.lists, lists);
    if NoNewTarget(types, types', nodes, m.lists) {
      SameSeenTools(types, types', nodes, usables, m.lists, lists);
    }
    SameParts(SeenNodes(types', nodes, lists), SeenNodes(types, nodes, m.lists),
              SeenTools(types', lists, usables), SeenTools(types, m.lists, usables));
  }

  lemma SameParts<T>(a: seq<T>, a': seq<T>, b: seq<T>, b': seq<T>)
    requires |a| == |a'|
    ensures a + b == a' + b' <==> a == a' && b == b'
  {
    assert (a + b)[..|a|] == a && (a' + b')[..|a'|] == a';
    assert (a + b)[|a|..] == b && (a' + b')[|a'|..] == b';
  }

  /** With unchanged loaders the second rebuild does not throw, and all its contents are the same if and only if no tool differs. */
  lemma RebuildingTwice(loaders: seq<Loader>, m: Memory)
    requires Loadable(loaders, m) && !PostProcess(loaders, m).thrown
    ensures !PostProcess(loaders, PostProcess(loaders, m).memory).thrown
    ensures var once := PostProcess(loaders, m);
      ContentsOf(PostProcess(loaders, once.memory)) == ContentsOf(once)
      <==> forall u :: u in Usables(NodesOf(loaders)) ==> !AnyForeign(CredentialsOf(loaders), NodesOf(loaders), m.lists, u)
  {
    ThrowsExactlyOnEmptyTarget(loaders, m);
    ThrowsAgainExactly(loaders, loaders, m);
    RebuildingAgain(loaders, loaders, m);
  }

  /** From the second rebuild on nothing changes any more. */
  lemma SettledFromSecondRebuild(loaders: seq<Loader>, m: Memory)
    requires Loadable(loaders, m) && !PostProcess(loaders, m).thrown
    ensures var twice := PostProcess(loaders, PostProcess(loaders, m).memory);
      !twice.thrown && ContentsOf(PostProcess(loaders, twice.memory)) == ContentsOf(twice)
  {
    var once := PostProcess(loaders, m);
    MergedInOrder(loaders);
    ReadyForAnother(loaders, loaders, m);
    RebuildingTwice(loaders, m);
    RebuildingTwice(loaders, once.memory);
    forall u | u in Usables(NodesOf(loaders))
      ensures !AnyForeign(CredentialsOf(loaders), NodesOf(loaders), once.memory.lists, u)
    {
      forall p | p in u.properties && Foreign(CredentialsOf(loaders), NodesOf(loaders), once.memory.lists, u, p.list)
        ensures false
      {
        TargetsBelow(CredentialsOf(loaders), NodesOf(loaders), m, p.list.value);
      }
    }
  }

  const ELIGIBLE := Node(Info("eligible", false, One(1.0), None, Some(["key"])), [Property("resource", Some(0))])
  const USABLE := Node(Info("usable", true, One(1.0), None, None), [Property("mode", Some(0))])
  const KEY := CredentialType("key", true, None)
  const SHARING := Loader("package", "", true, [ELIGIBLE, USABLE], [KEY], map[], map[], map[], map[])

  lemma SharingTargets()
    ensures NodeTargets([KEY], ELIGIBLE) == [0] && NodeTargets([KEY], USABLE) == []
    ensures AllTargets([KEY], SHARING.nodes) == [0]
  {
    assert ProxyCapable([KEY], "key") && "key" in ELIGIBLE.info.credentials.value;
    assert ELIGIBLE.properties[1..] == [];
    assert AllTargets([KEY], [USABLE]) == [] by { assert [USABLE][1..] == []; }
    assert SHARING.nodes[1..] == [USABLE];
  }

  lemma SharingMerged()
    ensures NodesOf([SHARING]) == [ELIGIBLE, USABLE] && CredentialsOf([SHARING]) == [KEY]
  {
    MergedInOrder([SHARING]);
    assert [SHARING][1..] == [];
  }

  /**
   * A second rebuild that differs: a list shared by a node that makes it a target and a usable node
   * that does not.
   */
  lemma SharedListShowsSecondRebuild()
    ensures var m := Memory(map[0 := ["One"]], 1); var once := PostProcess([SHARING], m);
      && Loadable([SHARING], m) && !once.thrown
      && ContentsOf(PostProcess([SHARING], once.memory)) != ContentsOf(once)
  {
    var m := Memory(map[0 := ["One"]], 1);
    SharingTargets();
    SharingMerged();
    assert AllClosed(m.lists, [ELIGIBLE, USABLE]);
    ThrowsExactlyOnEmptyTarget([SHARING], m);
    RebuildingTwice([SHARING], m);
    UsablesAre([ELIGIBLE, USABLE], USABLE);
    assert AnyForeign([KEY], [ELIGIBLE, USABLE], m.lists, USABLE) by {
      assert USABLE.properties[0] in USABLE.properties;
      assert Foreign([KEY], [ELIGIBLE, USABLE], m.lists, USABLE, USABLE.properties[0].list);
    }
  }

  // ---------------------------------------------------------------- the service

  function Unloaded(loaders: seq<Loader>, packageName: string): seq<Loader> {
    if loaders == [] then []
    else (if loaders[0].packageName == packageName then [] else [loaders[0]]) + Unloaded(loaders[1..], packageName)
  }

  lemma {:induction false} UnloadedAre(loaders: seq<Loader>, packageName: string, l: Loader)
    ensures l in Unloaded(loaders, packageName) <==> l in loaders && l.packageName != packageName
  {
    if loaders != [] {
      assert loaders == [loaders[0]] + loaders[1..];
      UnloadedAre(loaders[1..], packageName, l);
    }
  }

  /** After unloading a package, the merge no longer knows what only that package knew. */
  lemma UnloadedIsForgotten(loaders: seq<Loader>, packageName: string, t: string)
    requires forall l :: l in loaders && l.packageName != packageName ==> t !in l.knownNodes && t !in l.knownCredentials
    ensures t !in MergedAll(EMPTY, Unloaded(loaders, packageName)).knownNodes
    ensures t !in MergedAll(EMPTY, Unloaded(loaders, packageName)).knownCredentials
  {
    forall l | l in Unloaded(loaders, packageName)
      ensures t !in l.knownNodes && t !in l.knownCredentials
    {
      UnloadedAre(loaders, packageName, l);
    }
    UnknownToAllIsUnknown(Unloaded(loaders, packageName), t);
  }

  lemma SupportAfterOne(supported: seq<string>, base: string)
    ensures SupportAfter(supported, [base]) == if base in supported then supported + [ToolName(base)] else supported
  {
    assert [base][1..] == [];
  }

  lemma CredentialsAfterSteps(known: KnownCredentials, names: seq<string>)
    requires names != []
    ensures CredentialsAfter(known, names) == CredentialsAfter(CredentialsAfter(known, [names[0]]), names[1..])
  {
    forall c | c in known && known[c].supportedNodes.Some?
      ensures SupportAfter(known[c].supportedNodes.value, names)
           == SupportAfter(SupportAfter(known[c].supportedNodes.value, [names[0]]), names[1..])
    {
      SupportAfterOne(known[c].supportedNodes.value, names[0]);
    }
  }

  function WithTool(r: Registry, m: Memory, usable: Node): Registry {
    r.(
      knownNodes := r.knownNodes[ToolName(usable.info.name) := Entry(r.knownNodes, usable.info.name)],
      knownCredentials := CredentialsAfter(r.knownCredentials, [usable.info.name]),
      nodes := r.nodes + [ToolAt(usable, m.next)])
  }

  lemma ToolsStep(m: Memory, usables: seq<Node>)
    requires usables != []
    ensures Tools(m, usables) == [ToolAt(usables[0], m.next)] + Tools(AfterTool(m, usables[0]), usables[1..])
  {
  }

  lemma KnownStep(known: KnownNodes, names: seq<string>)
    requires names != []
    ensures KnownAfter(known, names) == KnownAfter(known[ToolName(names[0]) := Entry(known, names[0])], names[1..])
  {
  }

  lemma WithToolsSteps(r: Registry, m: Memory, usables: seq<Node>)
    requires usables != []
    ensures WithToolsOf(r, m, usables) == WithToolsOf(WithTool(r, m, usables[0]), AfterTool(m, usables[0]), usables[1..])
  {
    var names := NamesOf(usables);
    assert names[1..] == NamesOf(usables[1..]) && names[0] == usables[0].info.name;
    CredentialsAfterSteps(r.knownCredentials, names);
    KnownStep(r.knownNodes, names);
    ToolsStep(m, usables);
    var tool, rest := [ToolAt(usables[0], m.next)], Tools(AfterTool(m, usables[0]), usables[1..]);
    assert r.nodes + (tool + rest) == r.nodes + tool + rest;
  }

  lemma NoToolsLeft(r: Registry, m: Memory)
    ensures WithToolsOf(r, m, []) == r
  {
    assert CredentialsAfter(r.knownCredentials, []) == r.knownCredentials;
  }

  class LoadNodesAndCredentials {
    var loaders: seq<Loader>
    var knownNodes: KnownNodes
    var knownCredentials: KnownCredentials
    var loadedNodes: map<string, Loaded>
    var loadedCredentials: map<string, Loaded>
    var nodes: seq<Node>
    var credentials: seq<CredentialType>
    var memory: Memory

    ghost function Current(): Registry
      reads this
    {
      Registry(knownNodes, knownCredentials, loadedNodes, loadedCredentials, nodes, credentials)
    }

    constructor (memory: Memory)
      ensures loaders == [] && Current() == EMPTY && this.memory == memory
    {
      loaders := [];
      knownNodes, knownCredentials, loadedNodes, loadedCredentials, nodes, credentials := map[], map[], map[], map[], [], [];
      this.memory := memory;
    }

    method UnloadPackage(packageName: string)
      modifies this`loaders
      ensures loaders == Unloaded(old(loaders), packageName)
    {
      loaders := Unloaded(loaders, packageName);
    }

    /** Assigns the entries of a table one by one. */
    static method Assign<V>(base: map<string, V>, table: map<string, V>) returns (result: map<string, V>)
      ensures result == base + table
    {
      result := base;
      var left := table.Keys;
      while left != {}
        invariant left <= table.Keys
        invariant result == base + map t | t in table && t !in left :: table[t]
        decreases |left|
      {
        var t :| t in left;
        result := result[t := table[t]];
        left := left - {t};
      }
    }

    method MergeLoader(loader: Loader)
      modifies this`knownNodes, this`knownCredentials, this`loadedNodes, this`loadedCredentials, this`nodes, this`credentials
      ensures Current() == Merged(old(Current()), loader)
    {
      nodes := nodes + loader.nodes;
      credentials := credentials + loader.credentials;
      loadedNodes := Assign(loadedNodes, loader.nodeTypes);
      loadedCredentials := Assign(loadedCredentials, loader.credentialTypes);
      knownNodes := Assign(knownNodes, NodesFrom(loader));
      knownCredentials := Assign(knownCredentials, CredentialsFrom(loader));
    }

    /** Pushes the tool's name to the supported nodes of every credential that supports the base. */
    method SupportTool(base: string)
      modifies this`knownCredentials
      ensures knownCredentials == CredentialsAfter(old(knownCredentials), [base])
    {
      var before := knownCredentials;
      var left := knownCredentials.Keys;
      while left != {}
        invariant left <= before.Keys && knownCredentials.Keys == before.Keys
        invariant forall c :: c in left ==> knownCredentials[c] == before[c]
        invariant forall c :: c in before && c !in left ==> knownCredentials[c] == CredentialAfter(before[c], [base])
        decreases |left|
      {
        var c :| c in left;
        var supported := knownCredentials[c].supportedNodes;
        if supported.Some? { SupportAfterOne(supported.value, base); }
        if supported.Some? && base in supported.value {
          knownCredentials := knownCredentials[c := knownCredentials[c].(supportedNodes := Some(supported.value + [ToolName(base)]))];
        }
        left := left - {c};
      }
    }

    method AddTool(usable: Node)
      modifies this`knownNodes, this`knownCredentials, this`nodes, this`memory
      ensures Current() == WithTool(old(Current()), old(memory), usable)
      ensures memory == AfterTool(old(memory), usable)
    {
      var tool := ToolAt(usable, memory.next);
      memory := AfterTool(memory, usable);
      nodes := nodes + [tool];
      knownNodes := knownNodes[tool.info.name := Entry(knownNodes, usable.info.name)];
      SupportTool(usable.info.name);
    }

    method CreateAiTools()
      modifies this`knownNodes, this`knownCredentials, this`nodes, this`memory
      ensures Current() == WithTools(old(Current()), old(memory))
      ensures memory == AfterTools(old(memory), Usables(old(nodes)))
    {
      var usables := Usables(nodes);
      var i := 0;
      while i < |usables|
        invariant 0 <= i <= |usables|
        invariant WithToolsOf(Current(), memory, usables[i..]) == WithToolsOf(old(Current()), old(memory), usables)
        invariant AfterTools(memory, usables[i..]) == AfterTools(old(memory), usables)
      {
        assert usables[i..][1..] == usables[i + 1..];
        WithToolsSteps(Current(), memory, usables[i..]);
        AddTool(usables[i]);
        i := i + 1;
      }
      NoToolsLeft(Current(), memory);
    }

    /** The callback for one node; throws, with what was pushed before still in place, at an empty list. */
    method InjectCustomApiCallOption(node: Node) returns (thrown: bool)
      modifies this`memory
      ensures memory.next == old(memory.next)
      ensures var injection := Inject(old(memory.lists), NodeTargets(credentials, node));
        memory.lists == injection.lists && thrown == injection.Thrown?
    {
      if !Eligible(credentials, node.info) { return false; }
      var k := 0;
      while k < |node.properties|
        invariant 0 <= k <= |node.properties| && memory.next == old(memory.next)
        invariant Inject(memory.lists, Targets(node.properties[k..])) == Inject(old(memory.lists), Targets(node.properties))
      {
        var p := node.properties[k];
        assert node.properties[k..][1..] == node.properties[k + 1..];
        InjectConcat(memory.lists, PropertyTargets(p), Targets(node.properties[k + 1..]));
        if IsTargetName(p.name) && p.list.Some? && p.list.value in memory.lists {
          if memory.lists[p.list.value] == [] { return true; }
          memory := memory.(lists := memory.lists[p.list.value := WithCustom(memory.lists[p.list.value])]);
        }
        k := k + 1;
      }
      thrown := false;
    }

    method InjectCustomApiCallOptions() returns (thrown: bool)
      modifies this`memory
      ensures memory.next == old(memory.next)
      ensures var injection := Inject(old(memory.lists), AllTargets(credentials, nodes));
        memory.lists == injection.lists && thrown == injection.Thrown?
    {
      thrown := false;
      var i := 0;
      while i < |nodes|
        invariant 0 <= i <= |nodes| && memory.next == old(memory.next)
        invariant Inject(memory.lists, AllTargets(credentials, nodes[i..])) == Inject(old(memory.lists), AllTargets(credentials, nodes))
      {
        assert nodes[i..][1..] == nodes[i + 1..];
        InjectConcat(memory.lists, NodeTargets(credentials, nodes[i]), AllTargets(credentials, nodes[i + 1..]));
        thrown := InjectCustomApiCallOption(nodes[i]);
        if thrown { return; }
        i := i + 1;
      }
    }

    /** The registry is rebuilt from nothing but the loaders; the loaders stay, their lists may grow. */
    method PostProcessLoaders() returns (thrown: bool)
      modifies this
      ensures loaders == old(loaders)
      ensures Processed(Current(), memory, thrown) == PostProcess(loaders, old(memory))
    {
      knownNodes, knownCredentials, loadedNodes, loadedCredentials, nodes, credentials := map[], map[], map[], map[], [], [];
      var i := 0;
      while i < |loaders|
        invariant 0 <= i <= |loaders| && loaders == old(loaders) && memory == old(memory)
        invariant MergedAll(Current(), loaders[i..]) == MergedAll(EMPTY, loaders)
      {
        assert loaders[i..][1..] == loaders[i + 1..];
        MergeLoader(loaders[i]);
        i := i + 1;
      }
      assert Current() == MergedAll(EMPTY, loaders);
      CreateAiTools();
      assert Current() == WithTools(MergedAll(EMPTY, loaders), old(memory));
      thrown := InjectCustomApiCallOptions();
    }
  }
}
