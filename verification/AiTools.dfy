/**
 * Deriving a tool from every node that is usable as one: the description is copied with its option
 * lists, converted, and entered in the registry under a new name that every credential of the base
 * node supports too.
 */
module AiTools {
  import opened Options
  import opened NodeDescriptions

  const DESCRIPTION_OPTIONS := ["Set Automatically", "Set Manually"]

  /** Lists and the first reference that is not in use. */
  datatype Memory = Memory(lists: Lists, next: nat) {
    predicate Valid() {
      forall r :: r in lists ==> r < next
    }
  }

  function ToolName(name: string): string {
    name + "Tool"
  }

  lemma ToolNamesDiffer(a: string, b: string)
    ensures ToolName(a) != a
    ensures ToolName(a) == ToolName(b) ==> a == b
  {
    assert |ToolName(a)| == |a| + 4;
    if ToolName(a) == ToolName(b) {
      assert a == ToolName(a)[..|a|] && b == ToolName(b)[..|b|];
    }
  }

  function ToolInfo(info: Info): Info {
    info.(name := ToolName(info.name), usableAsTool := false)
  }

  // ---------------------------------------------------------------- conversion of one node

  predicate HasProperty(properties: seq<Property>, name: string) {
    exists p :: p in properties && p.name == name
  }

  predicate Described(properties: seq<Property>) {
    HasProperty(properties, "toolDescription")
  }

  predicate ByOperation(properties: seq<Property>) {
    HasProperty(properties, "resource") || HasProperty(properties, "operation")
  }

  /** The properties put in front, the list of `descriptionType` at reference `listed`. */
  function Added(properties: seq<Property>, listed: nat): seq<Property> {
    if Described(properties) then []
    else if ByOperation(properties) then
      [Property("notice", None), Property("descriptionType", Some(listed)), Property("toolDescription", None)]
    else
      [Property("notice", None), Property("toolDescription", None)]
  }

  /** Where the copy of a list goes. */
  function Copy(base: nat, r: nat): nat {
    base + r
  }

  function Shifted(list: Option<nat>, base: nat): Option<nat> {
    if list.Some? then Some(Copy(base, list.value)) else None
  }

  function CopyProperties(properties: seq<Property>, base: nat): seq<Property> {
    seq(|properties|, i requires 0 <= i < |properties| => properties[i].(list := Shifted(properties[i].list, base)))
  }

  /** The tool of `u`, its lists being those of `u` moved up by `base`, where `base` is above them all. */
  function ToolAt(u: Node, base: nat): Node {
    Node(ToolInfo(u.info), Added(u.properties, 2 * base) + CopyProperties(u.properties, base))
  }

  /** Copying keeps what was shared within the node shared, and shares nothing with the original. */
  function CopyLists(lists: Lists, properties: seq<Property>, base: nat): Lists {
    if properties == [] then lists
    else
      var rest, list := CopyLists(lists, properties[1..], base), properties[0].list;
      if list.Some? && list.value in lists then rest[Copy(base, list.value) := lists[list.value]] else rest
  }

  function AfterTool(m: Memory, u: Node): Memory {
    Memory(CopyLists(m.lists, u.properties, m.next)[2 * m.next := DESCRIPTION_OPTIONS], 2 * m.next + 1)
  }

  lemma {:induction false} CopyListsKeeps(m: Memory, properties: seq<Property>)
    requires m.Valid()
    ensures forall r :: r in m.lists ==> r in CopyLists(m.lists, properties, m.next) && CopyLists(m.lists, properties, m.next)[r] == m.lists[r]
    ensures forall k :: k in CopyLists(m.lists, properties, m.next) && k !in m.lists ==> m.next <= k < 2 * m.next
  {
    if properties != [] {
      CopyListsKeeps(m, properties[1..]);
    }
  }

  lemma {:induction false} CopyListsCopies(m: Memory, properties: seq<Property>, k: nat, r: nat)
    requires m.Valid()
    requires k < |properties| && properties[k].list == Some(r) && r in m.lists
    ensures Copy(m.next, r) in CopyLists(m.lists, properties, m.next)
    ensures CopyLists(m.lists, properties, m.next)[Copy(m.next, r)] == m.lists[r]
  {
    if k > 0 {
      CopyListsCopies(m, properties[1..], k - 1, r);
    }
  }

  lemma AfterToolKeeps(m: Memory, u: Node)
    requires m.Valid()
    ensures AfterTool(m, u).Valid()
    ensures forall r :: r in m.lists ==> r in AfterTool(m, u).lists && AfterTool(m, u).lists[r] == m.lists[r]
  {
    CopyListsKeeps(m, u.properties);
  }

  // ---------------------------------------------------------------- conversion of a list of nodes

  function Tools(m: Memory, usables: seq<Node>): seq<Node>
    decreases |usables|
  {
    if usables == [] then [] else [ToolAt(usables[0], m.next)] + Tools(AfterTool(m, usables[0]), usables[1..])
  }

  function AfterTools(m: Memory, usables: seq<Node>): Memory
    decreases |usables|
  {
    if usables == [] then m else AfterTools(AfterTool(m, usables[0]), usables[1..])
  }

  /** The base of the `i`-th tool. */
  function Base(next: nat, i: nat): nat
    decreases i
  {
    if i == 0 then next else Base(2 * next + 1, i - 1)
  }

  lemma {:induction false} BaseGrows(next: nat, i: nat, j: nat)
    requires i < j
    ensures next <= Base(next, i)
    ensures 2 * Base(next, i) < Base(next, j)
    decreases i
  {
    if i == 0 {
      BaseAbove(2 * next + 1, j - 1);
    } else {
      BaseGrows(2 * next + 1, i - 1, j - 1);
    }
  }

  lemma {:induction false} BaseAbove(next: nat, i: nat)
    ensures next <= Base(next, i)
    decreases i
  {
    if i > 0 { BaseAbove(2 * next + 1, i - 1); }
  }

  lemma {:induction false} ToolsAre(m: Memory, usables: seq<Node>)
    ensures |Tools(m, usables)| == |usables|
    ensures forall i :: 0 <= i < |usables| ==> Tools(m, usables)[i] == ToolAt(usables[i], Base(m.next, i))
    decreases |usables|
  {
    if usables != [] {
      var m', rest := AfterTool(m, usables[0]), usables[1..];
      ToolsAre(m', rest);
      forall i | 0 <= i < |usables|
        ensures Tools(m, usables)[i] == ToolAt(usables[i], Base(m.next, i))
      {
        if i > 0 { assert Tools(m, usables)[i] == Tools(m', rest)[i - 1] && rest[i - 1] == usables[i]; }
      }
    }
  }

  lemma {:induction false} AfterToolsKeeps(m: Memory, usables: seq<Node>)
    requires m.Valid()
    ensures AfterTools(m, usables).Valid()
    ensures forall r :: r in m.lists ==> r in AfterTools(m, usables).lists && AfterTools(m, usables).lists[r] == m.lists[r]
    decreases |usables|
  {
    if usables != [] {
      AfterToolKeeps(m, usables[0]);
      AfterToolsKeeps(AfterTool(m, usables[0]), usables[1..]);
    }
  }

  /** Every tool holds its own copies of the lists of its base, with the same options. */
  lemma {:induction false} ToolListsAreCopies(m: Memory, usables: seq<Node>, i: nat, k: nat, r: nat)
    requires m.Valid() && i < |usables| && k < |usables[i].properties|
    requires usables[i].properties[k].list == Some(r) && r in m.lists
    ensures Copy(Base(m.next, i), r) in AfterTools(m, usables).lists
    ensures AfterTools(m, usables).lists[Copy(Base(m.next, i), r)] == m.lists[r]
    decreases |usables|
  {
    var m' := AfterTool(m, usables[0]);
    AfterToolKeeps(m, usables[0]);
    if i == 0 {
      CopyListsCopies(m, usables[0].properties, k, r);
      assert Copy(m.next, r) in m'.lists && m'.lists[Copy(m.next, r)] == m.lists[r];
      AfterToolsKeeps(m', usables[1..]);
    } else {
      ToolListsAreCopies(m', usables[1..], i - 1, k, r);
    }
  }

  /** The list of a tool's `descriptionType` property. */
  lemma {:induction false} DescriptionListIs(m: Memory, usables: seq<Node>, i: nat)
    requires m.Valid() && i < |usables|
    ensures 2 * Base(m.next, i) in AfterTools(m, usables).lists
    ensures AfterTools(m, usables).lists[2 * Base(m.next, i)] == DESCRIPTION_OPTIONS
    decreases |usables|
  {
    var m' := AfterTool(m, usables[0]);
    AfterToolKeeps(m, usables[0]);
    if i == 0 {
      assert 2 * m.next in m'.lists;
      AfterToolsKeeps(m', usables[1..]);
    } else {
      DescriptionListIs(m', usables[1..], i - 1);
    }
  }

  // ---------------------------------------------------------------- what a reader sees of a tool

  predicate ViewHas(v: NodeView, name: string) {
    exists p :: p in v.properties && p.name == name
  }

  function AddedView(v: NodeView): seq<PropertyView> {
    if ViewHas(v, "toolDescription") then []
    else if ViewHas(v, "resource") || ViewHas(v, "operation") then
      [PropertyView("notice", None), PropertyView("descriptionType", Some(DESCRIPTION_OPTIONS)), PropertyView("toolDescription", None)]
    else
      [PropertyView("notice", None), PropertyView("toolDescription", None)]
  }

  /** The conversion, free of references. */
  function ToolView(v: NodeView): NodeView {
    NodeView(ToolInfo(v.info), AddedView(v) + v.properties)
  }

  ghost predicate Shows(v: NodeView, k: nat, name: string, options: Option<seq<string>>) {
    k < |v.properties| && v.properties[k].name == name && v.properties[k].options == options
  }

  ghost predicate HasNamed(v: NodeView, name: string) {
    exists k :: 0 <= k < |v.properties| && v.properties[k].name == name
  }

  /**
   * What the conversion of a node shows: its name with "Tool" behind it, no longer usable as a tool, and its properties
   * behind a notice and a description, with the choice of how to describe it if it has resources or operations;
   * a node that describes itself as a tool gets none of these.
   */
  ghost predicate Converts(v: NodeView, t: NodeView) {
    && t.info.name == v.info.name + "Tool" && !t.info.usableAsTool
    && t.info.version == v.info.version && t.info.defaultVersion == v.info.defaultVersion && t.info.credentials == v.info.credentials
    && (HasNamed(v, "toolDescription") ==> t.properties == v.properties)
    && (!HasNamed(v, "toolDescription") && (HasNamed(v, "resource") || HasNamed(v, "operation")) ==>
          && Shows(t, 0, "notice", None)
          && Shows(t, 1, "descriptionType", Some(["Set Automatically", "Set Manually"]))
          && Shows(t, 2, "toolDescription", None)
          && t.properties[3..] == v.properties)
    && (!HasNamed(v, "toolDescription") && !HasNamed(v, "resource") && !HasNamed(v, "operation") ==>
          && Shows(t, 0, "notice", None) && Shows(t, 1, "toolDescription", None)
          && t.properties[2..] == v.properties)
  }

  lemma NamedAsViewed(v: NodeView, name: string)
    ensures HasNamed(v, name) <==> ViewHas(v, name)
  {
    if ViewHas(v, name) {
      var p :| p in v.properties && p.name == name;
      var k :| 0 <= k < |v.properties| && v.properties[k] == p;
    }
    if HasNamed(v, name) {
      var k :| 0 <= k < |v.properties| && v.properties[k].name == name;
      assert v.properties[k] in v.properties;
    }
  }

  lemma ToolViewConverts(v: NodeView)
    ensures Converts(v, ToolView(v))
  {
    NamedAsViewed(v, "toolDescription");
    NamedAsViewed(v, "resource");
    NamedAsViewed(v, "operation");
    assert ToolView(v).properties[|AddedView(v)|..] == v.properties;
  }

  /** The names of the properties are what `v` shows of them. */
  predicate SameNames(v: NodeView, properties: seq<Property>) {
    |v.properties| == |properties| && forall i :: 0 <= i < |properties| ==> v.properties[i].name == properties[i].name
  }

  lemma ViewHasSame(v: NodeView, properties: seq<Property>, name: string)
    requires SameNames(v, properties)
    ensures ViewHas(v, name) <==> HasProperty(properties, name)
  {
    forall p | p in properties && p.name == name
      ensures ViewHas(v, name)
    {
      var i :| 0 <= i < |properties| && properties[i] == p;
      assert v.properties[i] in v.properties;
    }
    forall p | p in v.properties && p.name == name
      ensures HasProperty(properties, name)
    {
      var i :| 0 <= i < |properties| && v.properties[i] == p;
      assert properties[i] in properties;
    }
  }

  lemma AddedSameAs(lists: Lists, u: Node, v: NodeView, base: nat)
    requires SameNames(v, u.properties)
    requires 2 * base in lists && lists[2 * base] == DESCRIPTION_OPTIONS
    ensures |Added(u.properties, 2 * base)| == |AddedView(v)|
    ensures forall k :: 0 <= k < |Added(u.properties, 2 * base)| ==>
      ViewProperty(lists, Added(u.properties, 2 * base)[k]) == AddedView(v)[k]
  {
    ViewHasSame(v, u.properties, "toolDescription");
    ViewHasSame(v, u.properties, "resource");
    ViewHasSame(v, u.properties, "operation");
  }

  /**
   * What a reader sees of the `i`-th tool is the conversion of what a reader sees of its base.
   */
  lemma ToolIsConvertedView(m: Memory, usables: seq<Node>, i: nat)
    requires m.Valid() && i < |usables| && Closed(m.lists, usables[i])
    ensures |Tools(m, usables)| == |usables|
    ensures ViewNode(AfterTools(m, usables).lists, Tools(m, usables)[i]) == ToolView(ViewNode(m.lists, usables[i]))
    ensures forall p :: p in Tools(m, usables)[i].properties && p.list.Some? ==> p.list.value !in m.lists
  {
    var u, base, after := usables[i], Base(m.next, i), AfterTools(m, usables).lists;
    ToolsAre(m, usables);
    DescriptionListIs(m, usables, i);
    AddedSameAs(after, u, ViewNode(m.lists, u), base);
    var shown, tool := ViewNode(after, ToolAt(u, base)), ToolView(ViewNode(m.lists, u));
    var added := |Added(u.properties, 2 * base)|;
    forall k | added <= k < |shown.properties|
      ensures shown.properties[k] == tool.properties[k]
    {
      var p := u.properties[k - added];
      if p.list.Some? {
        ToolListsAreCopies(m, usables, i, k - added, p.list.value);
      }
    }
    assert shown.properties == tool.properties;
    ToolListsAreNew(m, u, base, i);
  }

  /** In plain terms: what a reader sees of the `i`-th tool against what was seen of its base. */
  lemma ToolConverts(m: Memory, usables: seq<Node>, i: nat)
    requires m.Valid() && i < |usables| && Closed(m.lists, usables[i])
    ensures |Tools(m, usables)| == |usables|
    ensures Converts(ViewNode(m.lists, usables[i]), ViewNode(AfterTools(m, usables).lists, Tools(m, usables)[i]))
  {
    ToolIsConvertedView(m, usables, i);
    ToolViewConverts(ViewNode(m.lists, usables[i]));
  }

  /** A tool holds no list that was there before. */
  lemma ToolListsAreNew(m: Memory, u: Node, base: nat, i: nat)
    requires m.Valid() && base == Base(m.next, i)
    ensures forall p :: p in ToolAt(u, base).properties && p.list.Some? ==> p.list.value !in m.lists
  {
    BaseAbove(m.next, i);
  }

  // ---------------------------------------------------------------- which lists of a tool are injected

  lemma AddedNotTargets(properties: seq<Property>, listed: nat, k: nat, r: nat)
    requires k < |Added(properties, listed)|
    ensures !IsTarget(Added(properties, listed)[k], r)
  {
  }

  lemma ToolTargetIsCopy(u: Node, base: nat, k: nat, r: nat)
    requires k < |ToolAt(u, base).properties| && IsTarget(ToolAt(u, base).properties[k], r)
    ensures base <= r && r - base in Targets(u.properties)
  {
    var added := |Added(u.properties, 2 * base)|;
    if k < added {
      AddedNotTargets(u.properties, 2 * base, k, r);
    } else {
      assert IsTarget(u.properties[k - added], r - base);
      TargetsAre(u.properties, r - base);
    }
  }

  lemma TargetIsCopied(u: Node, base: nat, k: nat, r: nat)
    requires k < |u.properties| && IsTarget(u.properties[k], r)
    ensures Copy(base, r) in Targets(ToolAt(u, base).properties)
  {
    var tool := ToolAt(u, base);
    assert IsTarget(tool.properties[|Added(u.properties, 2 * base)| + k], Copy(base, r));
    TargetsAre(tool.properties, Copy(base, r));
  }

  lemma ToolEligible(types: seq<CredentialType>, u: Node, base: nat)
    ensures Eligible(types, ToolAt(u, base).info) <==> Eligible(types, u.info)
  {
  }

  /** A tool's own targets are the copies of its base's own targets. */
  lemma ToolTargets(types: seq<CredentialType>, u: Node, base: nat, r: nat)
    ensures r in NodeTargets(types, ToolAt(u, base)) <==> base <= r && r - base in NodeTargets(types, u)
  {
    var tool := ToolAt(u, base);
    ToolEligible(types, u, base);
    if r in Targets(tool.properties) {
      TargetsAre(tool.properties, r);
      var k :| 0 <= k < |tool.properties| && IsTarget(tool.properties[k], r);
      ToolTargetIsCopy(u, base, k, r);
    }
    if base <= r && r - base in Targets(u.properties) {
      TargetsAre(u.properties, r - base);
      var k :| 0 <= k < |u.properties| && IsTarget(u.properties[k], r - base);
      TargetIsCopied(u, base, k, r - base);
    }
  }

  /** Targets of a node whose lists are all known are known. */
  lemma TargetsArePresent(types: seq<CredentialType>, lists: Lists, n: Node, r: nat)
    requires Closed(lists, n) && r in NodeTargets(types, n)
    ensures r in lists
  {
    TargetsAre(n.properties, r);
    var k :| 0 <= k < |n.properties| && IsTarget(n.properties[k], r);
  }

  // ---------------------------------------------------------------- derived support and known entries

  /** `supportedNodes` of one credential, or any list it might hold, after the tools of `names`. */
  function SupportAfter(supported: seq<string>, names: seq<string>): seq<string>
    decreases |names|
  {
    if names == [] then supported
    else SupportAfter(if names[0] in supported then supported + [ToolName(names[0])] else supported, names[1..])
  }

  /** The tools of those among `names` that are in `supported`, in order. */
  function ToolsOfSupported(supported: seq<string>, names: seq<string>): seq<string> {
    if names == [] then []
    else (if names[0] in supported then [ToolName(names[0])] else []) + ToolsOfSupported(supported, names[1..])
  }

  /** An earlier name's tool is itself a name later in the list. */
  predicate ToolNamedLater(names: seq<string>, i: nat, j: nat) {
    i < j < |names| && ToolName(names[i]) == names[j]
  }

  /** ... and supporting the former would make a credential support the latter's tool. */
  ghost predicate SupportLeaks(supported: seq<string>, names: seq<string>) {
    exists i: nat, j: nat :: ToolNamedLater(names, i, j) && names[i] in supported && names[j] !in supported
  }

  /** Entries are kept, in order, and what follows can only be tools. */
  lemma {:induction false} EarlierSupportKept(supported: seq<string>, names: seq<string>)
    ensures |supported| <= |SupportAfter(supported, names)|
    ensures SupportAfter(supported, names)[..|supported|] == supported
    decreases |names|
  {
    if names != [] {
      var supported' := if names[0] in supported then supported + [ToolName(names[0])] else supported;
      EarlierSupportKept(supported', names[1..]);
      var after := SupportAfter(supported, names);
      assert after[..|supported|] == after[..|supported'|][..|supported|];
    }
  }

  /** The condition of `SupportLeaks`, when the tools in `extra` have been appended already. */
  ghost predicate LeaksAt(supported: seq<string>, extra: seq<string>, names: seq<string>, j: nat) {
    && j < |names|
    && names[j] !in supported
    && (names[j] in extra || exists i: nat :: ToolNamedLater(names, i, j) && names[i] in supported)
  }

  ghost predicate Leaks(supported: seq<string>, extra: seq<string>, names: seq<string>) {
    exists j: nat :: LeaksAt(supported, extra, names, j)
  }

  lemma {:induction false} AtLeastTheDerived(supported: seq<string>, extra: seq<string>, names: seq<string>)
    ensures |SupportAfter(supported + extra, names)| >= |supported + extra| + |ToolsOfSupported(supported, names)|
    decreases |names|
  {
    if names != [] {
      var tool := [ToolName(names[0])];
      if names[0] in supported + extra {
        assert supported + extra + tool == supported + (extra + tool);
        AtLeastTheDerived(supported, extra + tool, names[1..]);
      } else {
        AtLeastTheDerived(supported, extra, names[1..]);
      }
    }
  }

  lemma LeaksLater(supported: seq<string>, extra: seq<string>, names: seq<string>)
    requires names != [] && (names[0] in supported || names[0] !in extra)
    ensures Leaks(supported, extra, names)
       <==> Leaks(supported, if names[0] in supported then extra + [ToolName(names[0])] else extra, names[1..])
  {
    var n, rest := names[0], names[1..];
    var extra' := if n in supported then extra + [ToolName(n)] else extra;
    forall j: nat | LeaksAt(supported, extra, names, j)
      ensures LeaksAt(supported, extra', rest, j - 1)
    {
      if names[j] !in extra {
        var i: nat :| ToolNamedLater(names, i, j) && names[i] in supported;
        if i > 0 { assert ToolNamedLater(rest, i - 1, j - 1); }
      }
    }
    forall j: nat | LeaksAt(supported, extra', rest, j)
      ensures LeaksAt(supported, extra, names, j + 1)
    {
      if rest[j] in extra' {
        if rest[j] !in extra { assert ToolNamedLater(names, 0, j + 1); }
      } else {
        var i: nat :| ToolNamedLater(rest, i, j) && rest[i] in supported;
        assert ToolNamedLater(names, i + 1, j + 1);
      }
    }
    if Leaks(supported, extra, names) {
      var j: nat :| LeaksAt(supported, extra, names, j);
      assert LeaksAt(supported, extra', rest, j - 1);
    }
  }

  /** A leak makes the list longer than the derived one; without one they are the same. */
  ghost predicate DerivedUnlessLeaks(supported: seq<string>, extra: seq<string>, names: seq<string>) {
    if Leaks(supported, extra, names)
    then |SupportAfter(supported + extra, names)| > |supported + extra| + |ToolsOfSupported(supported, names)|
    else SupportAfter(supported + extra, names) == supported + extra + ToolsOfSupported(supported, names)
  }

  lemma DerivedIfSupported(supported: seq<string>, extra: seq<string>, names: seq<string>)
    requires names != [] && names[0] in supported
    requires DerivedUnlessLeaks(supported, extra + [ToolName(names[0])], names[1..])
    ensures DerivedUnlessLeaks(supported, extra, names)
  {
    var tool := [ToolName(names[0])];
    assert supported + extra + tool == supported + (extra + tool);
    LeaksLater(supported, extra, names);
    var later := ToolsOfSupported(supported, names[1..]);
    assert supported + (extra + tool) + later == supported + extra + (tool + later);
  }

  lemma LeakedAtOnce(supported: seq<string>, extra: seq<string>, names: seq<string>)
    requires names != [] && names[0] !in supported && names[0] in extra
    ensures DerivedUnlessLeaks(supported, extra, names)
  {
    var tool := [ToolName(names[0])];
    assert supported + extra + tool == supported + (extra + tool);
    assert LeaksAt(supported, extra, names, 0);
    AtLeastTheDerived(supported, extra + tool, names[1..]);
  }

  lemma DerivedIfNeither(supported: seq<string>, extra: seq<string>, names: seq<string>)
    requires names != [] && names[0] !in supported && names[0] !in extra
    requires DerivedUnlessLeaks(supported, extra, names[1..])
    ensures DerivedUnlessLeaks(supported, extra, names)
  {
    LeaksLater(supported, extra, names);
  }

  lemma {:induction false} SupportUnlessLeaks(supported: seq<string>, extra: seq<string>, names: seq<string>)
    ensures DerivedUnlessLeaks(supported, extra, names)
    decreases |names|
  {
    if names == [] {
      assert !Leaks(supported, extra, names);
    } else if names[0] in supported {
      SupportUnlessLeaks(supported, extra + [ToolName(names[0])], names[1..]);
      DerivedIfSupported(supported, extra, names);
    } else if names[0] in extra {
      LeakedAtOnce(supported, extra, names);
    } else {
      SupportUnlessLeaks(supported, extra, names[1..]);
      DerivedIfNeither(supported, extra, names);
    }
  }

  /**
   * Every earlier entry is kept and exactly the tools of supported nodes are appended, one for each
   * usable node and in their order, if and only if no support leaks through a tool's name.
   */
  lemma SupportIsDerivedUnlessLeaks(supported: seq<string>, names: seq<string>)
    ensures SupportAfter(supported, names) == supported + ToolsOfSupported(supported, names)
       <==> !SupportLeaks(supported, names)
  {
    assert supported + [] == supported;
    SupportUnlessLeaks(supported, [], names);
    if SupportLeaks(supported, names) {
      var i: nat, j: nat :| ToolNamedLater(names, i, j) && names[i] in supported && names[j] !in supported;
      assert LeaksAt(supported, [], names, j);
    }
    if Leaks(supported, [], names) {
      var j: nat :| LeaksAt(supported, [], names, j);
      var i: nat :| ToolNamedLater(names, i, j) && names[i] in supported;
    }
  }

  lemma {:induction false} ToolsOfSupportedAre(supported: seq<string>, names: seq<string>, tool: string)
    ensures tool in ToolsOfSupported(supported, names)
       <==> exists n :: n in names && n in supported && tool == ToolName(n)
  {
    if names != [] {
      assert names == [names[0]] + names[1..];
      ToolsOfSupportedAre(supported, names[1..], tool);
    }
  }

  /** A credential that did not list a usable node's tool before lists it exactly when it lists the node. */
  lemma ToolSupportedLikeBase(supported: seq<string>, names: seq<string>, n: string)
    requires !SupportLeaks(supported, names)
    requires n in names && ToolName(n) !in supported
    ensures ToolName(n) in SupportAfter(supported, names) <==> n in supported
  {
    SupportIsDerivedUnlessLeaks(supported, names);
    ToolsOfSupportedAre(supported, names, ToolName(n));
    forall other | ToolName(other) == ToolName(n)
      ensures other == n
    {
      ToolNamesDiffer(other, n);
    }
  }

  // ---------------------------------------------------------------- the known entries

  /** The tool of a supported node is supported. */
  lemma {:induction false} BaseGivesTool(supported: seq<string>, names: seq<string>, n: string)
    requires n in names && n in supported
    ensures ToolName(n) in SupportAfter(supported, names)
    decreases |names|
  {
    var supported' := if names[0] in supported then supported + [ToolName(names[0])] else supported;
    if names[0] == n {
      EarlierSupportKept(supported', names[1..]);
      assert SupportAfter(supported', names[1..])[..|supported'|][|supported|] == ToolName(n);
    } else {
      BaseGivesTool(supported', names[1..], n);
    }
  }

  /** Nothing but tools of usable nodes is added. */
  lemma {:induction false} OnlyToolsAdded(supported: seq<string>, names: seq<string>, t: string)
    requires t in SupportAfter(supported, names) && t !in supported
    ensures exists n :: n in names && t == ToolName(n)
    decreases |names|
  {
    if names != [] && t != ToolName(names[0]) {
      var supported' := if names[0] in supported then supported + [ToolName(names[0])] else supported;
      OnlyToolsAdded(supported', names[1..], t);
    } else if names != [] {
      assert names[0] in names;
    }
  }

  /** What a loader knows of a node; the directory and the path in it are joined by `path.join`. */
  datatype Source = Source(className: string, directory: string, path: string)

  type KnownNodes = map<string, Option<Source>>

  function Entry(known: KnownNodes, name: string): Option<Source> {
    if name in known then known[name] else None
  }

  function KnownAfter(known: KnownNodes, names: seq<string>): KnownNodes
    decreases |names|
  {
    if names == [] then known
    else KnownAfter(known[ToolName(names[0]) := Entry(known, names[0])], names[1..])
  }

  predicate IsToolOf(names: seq<string>, tool: string) {
    exists n :: n in names && tool == ToolName(n)
  }

  /** Every tool has the entry its base had, and the other entries are as they were. */
  ghost predicate KnownDerived(known: KnownNodes, names: seq<string>) {
    var after := KnownAfter(known, names);
    && (forall n :: n in names ==> ToolName(n) in after && after[ToolName(n)] == Entry(known, n))
    && (forall k :: !IsToolOf(names, k) ==> (k in after <==> k in known) && Entry(after, k) == Entry(known, k))
  }

  ghost predicate AnyToolNamedLater(names: seq<string>) {
    exists i: nat, j: nat :: ToolNamedLater(names, i, j)
  }

  /** Without such a name, there is none among the later ones, and the first tool's entry serves no later node. */
  lemma FirstToolServesNobody(known: KnownNodes, names: seq<string>)
    requires names != [] && !AnyToolNamedLater(names)
    ensures !AnyToolNamedLater(names[1..])
    ensures forall other :: other in names[1..] ==> Entry(known[ToolName(names[0]) := Entry(known, names[0])], other) == Entry(known, other)
  {
    var rest := names[1..];
    forall i: nat, j: nat | ToolNamedLater(rest, i, j)
      ensures false
    {
      assert ToolNamedLater(names, i + 1, j + 1);
    }
    forall other | other in rest
      ensures other != ToolName(names[0])
    {
      var j :| 0 <= j < |rest| && rest[j] == other;
      assert !ToolNamedLater(names, 0, j + 1);
    }
  }

  lemma IsToolOfCons(n: string, rest: seq<string>, k: string)
    ensures IsToolOf([n] + rest, k) <==> k == ToolName(n) || IsToolOf(rest, k)
  {
    assert n in [n] + rest;
  }

  lemma {:induction false} KnownDerivedIfDistinct(known: KnownNodes, names: seq<string>)
    requires !AnyToolNamedLater(names)
    ensures KnownDerived(known, names)
    decreases |names|
  {
    if names != [] {
      var n, rest := names[0], names[1..];
      var known', after := known[ToolName(n) := Entry(known, n)], KnownAfter(known, names);
      assert names == [n] + rest;
      FirstToolServesNobody(known, names);
      KnownDerivedIfDistinct(known', rest);
      forall k ensures IsToolOf(names, k) <==> k == ToolName(n) || IsToolOf(rest, k) {
        IsToolOfCons(n, rest, k);
      }
      if IsToolOf(rest, ToolName(n)) {
        var other :| other in rest && ToolName(n) == ToolName(other);
        ToolNamesDiffer(n, other);
      }
      assert ToolName(n) in after && after[ToolName(n)] == Entry(known, n);
    }
  }

  /** Each entry carries a class name no longer than its key. */
  ghost predicate Labelled(known: KnownNodes) {
    forall k :: k in known ==> known[k].Some? && |known[k].value.className| <= |k|
  }

  ghost predicate Shorter(known: KnownNodes, k: string, bound: nat) {
    k in known && known[k].Some? && |known[k].value.className| < bound
  }

  lemma {:induction false} ShorterStays(known: KnownNodes, names: seq<string>, n: string)
    requires Labelled(known) && (forall m :: m in names ==> m in known)
    requires Shorter(known, n, |n|) && Shorter(known, ToolName(n), |n|)
    ensures Shorter(KnownAfter(known, names), ToolName(n), |n|)
    decreases |names|
  {
    if names != [] {
      var known' := known[ToolName(names[0]) := Entry(known, names[0])];
      assert |ToolName(names[0])| == |names[0]| + 4;
      if ToolName(names[0]) == ToolName(n) { ToolNamesDiffer(names[0], n); }
      ShorterStays(known', names[1..], n);
    }
  }

  lemma {:induction false} ShorterReachesTool(known: KnownNodes, names: seq<string>, j: nat)
    requires j < |names|
    requires Labelled(known) && (forall m :: m in names ==> m in known)
    requires Shorter(known, names[j], |names[j]|)
    ensures Shorter(KnownAfter(known, names), ToolName(names[j]), |names[j]|)
    decreases |names|
  {
    var known' := known[ToolName(names[0]) := Entry(known, names[0])];
    assert |ToolName(names[0])| == |names[0]| + 4;
    if j == 0 {
      ToolNamesDiffer(names[0], names[0]);
      ShorterStays(known', names[1..], names[0]);
    } else {
      ShorterReachesTool(known', names[1..], j - 1);
    }
  }

  lemma {:induction false} ToolNamedLaterMisleads(known: KnownNodes, names: seq<string>, i: nat, j: nat)
    requires ToolNamedLater(names, i, j)
    requires Labelled(known) && (forall m :: m in names ==> m in known)
    ensures Shorter(KnownAfter(known, names), ToolName(names[j]), |names[j]|)
    decreases |names|
  {
    var known' := known[ToolName(names[0]) := Entry(known, names[0])];
    assert |ToolName(names[0])| == |names[0]| + 4;
    if i == 0 {
      ShorterReachesTool(known', names[1..], j - 1);
    } else {
      assert ToolNamedLater(names[1..], i - 1, j - 1);
      ToolNamedLaterMisleads(known', names[1..], i - 1, j - 1);
    }
  }

  /**
   * Whatever was known, every tool's entry is its base's, if and only if no usable node bears the
   * name of an earlier usable node's tool.
   */
  lemma KnownIsDerivedUnlessToolNamedLater(names: seq<string>)
    ensures (forall known: KnownNodes :: KnownDerived(known, names)) <==> !AnyToolNamedLater(names)
  {
    if AnyToolNamedLater(names) {
      var i: nat, j: nat :| ToolNamedLater(names, i, j);
      var known: KnownNodes := map n | n in names :: Some(Source(n, "", ""));
      ToolNamedLaterMisleads(known, names, i, j);
      assert known[names[j]].value.className == names[j];
      assert names[j] in names;
      assert !KnownDerived(known, names);
    } else {
      forall known: KnownNodes
        ensures KnownDerived(known, names)
      {
        KnownDerivedIfDistinct(known, names);
      }
    }
  }
}
