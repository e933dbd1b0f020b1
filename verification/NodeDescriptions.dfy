/**
 * Node descriptions and the option lists of their properties. The lists are objects of the loaders:
 * several properties, and several nodes, may hold the same list, and `injectCustomApiCallOptions`
 * pushes to them in place. A property therefore holds a reference, and the contents live in `Lists`.
 */
module NodeDescriptions {
  import opened Options

  const CUSTOM_API_CALL_NAME := "Custom API Call"

  /** The names of the options in each list. */
  type Lists = map<nat, seq<string>>

  datatype Version = One(number: real) | Many(numbers: seq<real>)

  datatype Info = Info(name: string, usableAsTool: bool, version: Version, defaultVersion: Option<real>, credentials: Option<seq<string>>)

  datatype Property = Property(name: string, list: Option<nat>)

  datatype Node = Node(info: Info, properties: seq<Property>)

  datatype CredentialType = CredentialType(name: string, authenticates: bool, parents: Option<seq<string>>)

  // ---------------------------------------------------------------- what a reader of a node sees

  datatype PropertyView = PropertyView(name: string, options: Option<seq<string>>)

  datatype NodeView = NodeView(info: Info, properties: seq<PropertyView>)

  function Names(lists: Lists, list: Option<nat>): Option<seq<string>> {
    if list.Some? && list.value in lists then Some(lists[list.value]) else None
  }

  function ViewProperty(lists: Lists, p: Property): PropertyView {
    PropertyView(p.name, Names(lists, p.list))
  }

  function ViewNode(lists: Lists, n: Node): NodeView {
    NodeView(n.info, seq(|n.properties|, i requires 0 <= i < |n.properties| => ViewProperty(lists, n.properties[i])))
  }

  function ViewNodes(lists: Lists, nodes: seq<Node>): seq<NodeView> {
    seq(|nodes|, i requires 0 <= i < |nodes| => ViewNode(lists, nodes[i]))
  }

  /** The list at `list`, if there is one, is known. */
  predicate Present(lists: Lists, list: Option<nat>) {
    list.Some? ==> list.value in lists
  }

  predicate Closed(lists: Lists, n: Node) {
    forall i :: 0 <= i < |n.properties| ==> Present(lists, n.properties[i].list)
  }

  // ---------------------------------------------------------------- proxy authentication

  const OAUTH: set<string> := {"oAuth2Api", "googleOAuth2Api", "oAuth1Api"}

  predicate ExtendsOAuth(c: CredentialType) {
    c.parents.Some? && exists p :: p in c.parents.value && p in OAUTH
  }

  /** The first credential type of that name. */
  function FindCredential(types: seq<CredentialType>, name: string): Option<CredentialType> {
    if types == [] then None
    else if types[0].name == name then Some(types[0])
    else FindCredential(types[1..], name)
  }

  predicate ProxyCapable(types: seq<CredentialType>, name: string) {
    var c := FindCredential(types, name);
    c.Some? && (c.value.authenticates || ExtendsOAuth(c.value))
  }

  predicate SupportsProxyAuth(types: seq<CredentialType>, info: Info) {
    info.credentials.Some? && exists name :: name in info.credentials.value && ProxyCapable(types, name)
  }

  /** A node that lists several versions is never its own default version. */
  predicate IsLatest(info: Info) {
    info.defaultVersion.None? || info.version == One(info.defaultVersion.value)
  }

  predicate Eligible(types: seq<CredentialType>, info: Info) {
    IsLatest(info) && SupportsProxyAuth(types, info)
  }

  // ---------------------------------------------------------------- the lists that get the custom option

  predicate IsTargetName(name: string) {
    name == "resource" || name == "operation"
  }

  predicate IsTarget(p: Property, r: nat) {
    IsTargetName(p.name) && p.list == Some(r)
  }

  function PropertyTargets(p: Property): seq<nat> {
    if IsTargetName(p.name) && p.list.Some? then [p.list.value] else []
  }

  function Targets(properties: seq<Property>): seq<nat> {
    if properties == [] then [] else PropertyTargets(properties[0]) + Targets(properties[1..])
  }

  function NodeTargets(types: seq<CredentialType>, n: Node): seq<nat> {
    if Eligible(types, n.info) then Targets(n.properties) else []
  }

  /** The lists in the order in which the injection visits them. */
  function AllTargets(types: seq<CredentialType>, nodes: seq<Node>): seq<nat> {
    if nodes == [] then [] else NodeTargets(types, nodes[0]) + AllTargets(types, nodes[1..])
  }

  lemma {:induction false} TargetsAre(properties: seq<Property>, r: nat)
    ensures r in Targets(properties) <==> exists i :: 0 <= i < |properties| && IsTarget(properties[i], r)
  {
    if properties != [] {
      var rest := properties[1..];
      TargetsAre(rest, r);
      forall i | 0 <= i < |rest| && IsTarget(rest[i], r)
        ensures IsTarget(properties[i + 1], r)
      {
      }
      forall i | 0 <= i < |properties| && IsTarget(properties[i], r)
        ensures r in Targets(properties)
      {
        if i > 0 { assert rest[i - 1] == properties[i]; }
      }
    }
  }

  lemma {:induction false} AllTargetsAre(types: seq<CredentialType>, nodes: seq<Node>, r: nat)
    ensures r in AllTargets(types, nodes) <==> exists i :: 0 <= i < |nodes| && r in NodeTargets(types, nodes[i])
  {
    if nodes != [] {
      var rest := nodes[1..];
      AllTargetsAre(types, rest, r);
      forall i | 0 <= i < |rest| && r in NodeTargets(types, rest[i])
        ensures r in NodeTargets(types, nodes[i + 1])
      {
      }
      forall i | 0 <= i < |nodes| && r in NodeTargets(types, nodes[i])
        ensures r in AllTargets(types, nodes)
      {
        if i > 0 { assert rest[i - 1] == nodes[i]; }
      }
    }
  }

  // ---------------------------------------------------------------- who gets the option, in plain terms

  /** The credential type at `i` is the first of its name. */
  ghost predicate FirstNamed(types: seq<CredentialType>, i: nat, name: string) {
    i < |types| && types[i].name == name && forall j :: 0 <= j < i ==> types[j].name != name
  }

  /** The credential type authenticates itself or directly extends one of the three OAuth types. */
  ghost predicate Lends(c: CredentialType) {
    || c.authenticates
    || (c.parents.Some? && ("oAuth2Api" in c.parents.value || "googleOAuth2Api" in c.parents.value || "oAuth1Api" in c.parents.value))
  }

  lemma {:induction false} FindsFirst(types: seq<CredentialType>, name: string)
    ensures FindCredential(types, name).None? <==> forall i :: 0 <= i < |types| ==> types[i].name != name
    ensures forall i: nat :: FirstNamed(types, i, name) ==> FindCredential(types, name) == Some(types[i])
    ensures FindCredential(types, name).Some? ==> exists i: nat :: FirstNamed(types, i, name)
  {
    if types != [] && types[0].name != name {
      var rest := types[1..];
      FindsFirst(rest, name);
      assert forall i :: 0 <= i < |rest| ==> rest[i] == types[i + 1];
      forall i: nat | FirstNamed(types, i, name)
        ensures FindCredential(types, name) == Some(types[i])
      {
        assert forall j :: 0 <= j < i - 1 ==> rest[j] == types[j + 1];
        assert FirstNamed(rest, i - 1, name);
      }
      if FindCredential(rest, name).Some? {
        var i: nat :| FirstNamed(rest, i, name);
        assert forall j :: 0 < j < i + 1 ==> types[j] == rest[j - 1];
        assert FirstNamed(types, i + 1, name);
      }
    } else if types != [] {
      assert FirstNamed(types, 0, name);
    }
  }

  /** Of several credential types of one name the first decides. */
  ghost predicate LendsByName(types: seq<CredentialType>, name: string) {
    exists i: nat :: FirstNamed(types, i, name) && Lends(types[i])
  }

  lemma ProxyCapableIsLent(types: seq<CredentialType>, name: string)
    ensures ProxyCapable(types, name) <==> LendsByName(types, name)
  {
    FindsFirst(types, name);
    if ProxyCapable(types, name) {
      var i: nat :| FirstNamed(types, i, name);
      assert Lends(types[i]);
    }
  }

  /** The node has no default version or is a single version that is the default one, and one of its credentials lends its authentication. */
  ghost predicate IsEligible(types: seq<CredentialType>, info: Info) {
    && (info.defaultVersion.None? || (info.version.One? && info.version.number == info.defaultVersion.value))
    && info.credentials.Some? && exists k :: 0 <= k < |info.credentials.value| && LendsByName(types, info.credentials.value[k])
  }

  lemma EligibleInPlainTerms(types: seq<CredentialType>, info: Info)
    ensures Eligible(types, info) <==> IsEligible(types, info)
  {
    if info.credentials.Some? {
      var names := info.credentials.value;
      forall k | 0 <= k < |names|
        ensures ProxyCapable(types, names[k]) <==> LendsByName(types, names[k])
      {
        ProxyCapableIsLent(types, names[k]);
      }
      if SupportsProxyAuth(types, info) {
        var name :| name in names && ProxyCapable(types, name);
        var k :| 0 <= k < |names| && names[k] == name;
        assert LendsByName(types, names[k]);
      }
    }
  }

  /** A list gets the option exactly if it is the list of a property "resource" or "operation" of an eligible node. */
  lemma TargetsExactly(types: seq<CredentialType>, nodes: seq<Node>, r: nat)
    ensures r in AllTargets(types, nodes)
       <==> exists i, k :: 0 <= i < |nodes| && 0 <= k < |nodes[i].properties| && IsEligible(types, nodes[i].info)
                           && IsOptionList(nodes[i].properties[k], r)
  {
    AllTargetsAre(types, nodes, r);
    forall i | 0 <= i < |nodes|
      ensures r in NodeTargets(types, nodes[i])
         <==> IsEligible(types, nodes[i].info) && exists k :: 0 <= k < |nodes[i].properties| && IsOptionList(nodes[i].properties[k], r)
    {
      EligibleInPlainTerms(types, nodes[i].info);
      TargetsAre(nodes[i].properties, r);
      assert forall k :: 0 <= k < |nodes[i].properties| ==>
        (IsTarget(nodes[i].properties[k], r) <==> IsOptionList(nodes[i].properties[k], r));
    }
  }

  ghost predicate IsOptionList(p: Property, r: nat) {
    p.name in {"resource", "operation"} && p.list == Some(r)
  }

  // ---------------------------------------------------------------- injection

  predicate EndsWithCustom(names: seq<string>) {
    names != [] && names[|names| - 1] == CUSTOM_API_CALL_NAME
  }

  function WithCustom(names: seq<string>): (with: seq<string>)
    ensures EndsWithCustom(with)
    ensures with == names <==> EndsWithCustom(names)
  {
    if EndsWithCustom(names) then names else names + [CUSTOM_API_CALL_NAME]
  }

  /** All options stay, and the last one is the custom call; a list that ends with it stays as it is. */
  lemma CustomIsLast(names: seq<string>)
    ensures var with := WithCustom(names);
            && with != [] && with[|with| - 1] == "Custom API Call" && names <= with
            && |with| == |names| + if names != [] && names[|names| - 1] == "Custom API Call" then 0 else 1
  {
  }

  /** Reading the last option of an empty list throws, and leaves what was pushed before. */
  datatype Injection = Done(lists: Lists) | Thrown(lists: Lists)

  function Inject(lists: Lists, refs: seq<nat>): Injection
    decreases |refs|
  {
    if refs == [] then Done(lists)
    else if refs[0] !in lists then Inject(lists, refs[1..])
    else if lists[refs[0]] == [] then Thrown(lists)
    else Inject(lists[refs[0] := WithCustom(lists[refs[0]])], refs[1..])
  }

  function Injected(lists: Lists, refs: seq<nat>): Lists {
    map r | r in lists :: if r in refs then WithCustom(lists[r]) else lists[r]
  }

  predicate NoneEmpty(lists: Lists, refs: seq<nat>) {
    forall r :: r in refs && r in lists ==> lists[r] != []
  }

  lemma InjectedFirst(lists: Lists, refs: seq<nat>)
    requires refs != [] && refs[0] in lists && lists[refs[0]] != []
    ensures var lists' := lists[refs[0] := WithCustom(lists[refs[0]])];
      Injected(lists', refs[1..]) == Injected(lists, refs) && (NoneEmpty(lists', refs[1..]) <==> NoneEmpty(lists, refs))
  {
    assert refs == [refs[0]] + refs[1..];
  }

  lemma InjectedAbsent(lists: Lists, refs: seq<nat>)
    requires refs != [] && refs[0] !in lists
    ensures Injected(lists, refs[1..]) == Injected(lists, refs) && (NoneEmpty(lists, refs[1..]) <==> NoneEmpty(lists, refs))
  {
    assert refs == [refs[0]] + refs[1..];
  }

  /**
   * However often a list is visited, and through however many nodes, it gets the option once;
   * and the injection throws exactly when one of the lists was empty to begin with.
   */
  lemma {:induction false} InjectionIsOnceEach(lists: Lists, refs: seq<nat>)
    ensures Inject(lists, refs).Done? <==> NoneEmpty(lists, refs)
    ensures NoneEmpty(lists, refs) ==> Inject(lists, refs).lists == Injected(lists, refs)
    decreases |refs|
  {
    if refs == [] {
      assert Injected(lists, refs) == lists;
    } else if refs[0] !in lists {
      InjectedAbsent(lists, refs);
      InjectionIsOnceEach(lists, refs[1..]);
    } else if lists[refs[0]] == [] {
      assert refs[0] in refs;
    } else {
      InjectedFirst(lists, refs);
      InjectionIsOnceEach(lists[refs[0] := WithCustom(lists[refs[0]])], refs[1..]);
    }
  }

  lemma {:induction false} InjectConcat(lists: Lists, first: seq<nat>, second: seq<nat>)
    ensures Inject(lists, first + second)
         == if Inject(lists, first).Thrown? then Inject(lists, first) else Inject(Inject(lists, first).lists, second)
    decreases |first|
  {
    if first == [] {
      assert first + second == second;
    } else {
      assert (first + second)[1..] == first[1..] + second;
      if first[0] !in lists {
        InjectConcat(lists, first[1..], second);
      } else if lists[first[0]] != [] {
        InjectConcat(lists[first[0] := WithCustom(lists[first[0]])], first[1..], second);
      }
    }
  }
}
