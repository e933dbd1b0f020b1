/**
 * Loaders that load their files eagerly hand out the array that `getParentTypes` lengthens as the `extends` of the
 * credential type itself. Asking for ancestors therefore changes which nodes get the custom option on the next rebuild.
 */
module SharedExtends {
  import opened Options
  import opened NodeDescriptions
  import CT = CredentialTypes
  import CO = CredentialOrder
  import AiTools
  import LN = LoadNodesAndCredentials

  /** The credential types as they are read when the stored arrays are `arrays`. */
  function Grown(types: seq<CredentialType>, shared: set<string>, arrays: CT.Arrays): seq<CredentialType> {
    seq(|types|, i requires 0 <= i < |types| => GrownType(types[i], shared, arrays))
  }

  function GrownType(c: CredentialType, shared: set<string>, arrays: CT.Arrays): CredentialType {
    if c.name in shared && c.name in arrays then c.(parents := Some(arrays[c.name])) else c
  }

  /** `declared` are the `extends` fields of the credential types. */
  predicate Declares(types: seq<CredentialType>, declared: CT.Arrays) {
    forall c :: c in types ==> c.parents == if c.name in declared then Some(declared[c.name]) else None
  }

  lemma {:induction false} FindGrown(types: seq<CredentialType>, shared: set<string>, arrays: CT.Arrays, name: string)
    ensures var c := FindCredential(types, name);
            && FindCredential(Grown(types, shared, arrays), name) == (if c.Some? then Some(GrownType(c.value, shared, arrays)) else None)
            && (c.Some? ==> c.value in types && c.value.name == name)
  {
    if types != [] {
      FindGrown(types[1..], shared, arrays, name);
      assert Grown(types, shared, arrays)[1..] == Grown(types[1..], shared, arrays);
    }
  }

  /** A shared list that has been reached shows an ancestor with OAuth that is no parent. */
  ghost predicate Gains(types: seq<CredentialType>, shared: set<string>, declared: CT.Arrays, rank: CT.Rank, uses: seq<CT.Use>, name: string)
    requires CT.Ranked(declared, rank)
  {
    && name in shared && name in declared && FindCredential(types, name).Some?
    && CO.Reached(declared, rank, uses, |uses|, name)
    && exists a :: a in OAUTH && CT.StrictAncestor(declared, name, a)
  }

  /** With single inheritance: a credential type lends its authentication after a history exactly if it did before, or gains it. */
  lemma ProxyCapableExactly(types: seq<CredentialType>, shared: set<string>, declared: CT.Arrays, rank: CT.Rank, uses: seq<CT.Use>, name: string)
    requires CT.Ranked(declared, rank) && CT.SingleInheritance(declared) && Declares(types, declared)
    ensures ProxyCapable(Grown(types, shared, CT.History(declared, rank, uses)), name)
       <==> ProxyCapable(types, name) || Gains(types, shared, declared, rank, uses, name)
  {
    FindGrown(types, shared, CT.History(declared, rank, uses), name);
    if name in shared && name in declared {
      CO.MembersExactly(declared, rank, uses, name);
      CT.LineIsAncestors(declared, rank, name);
    }
  }

  /** Every type that gains is capable already. */
  ghost predicate NothingGained(types: seq<CredentialType>, shared: set<string>, declared: CT.Arrays, rank: CT.Rank, uses: seq<CT.Use>)
    requires CT.Ranked(declared, rank)
  {
    forall name :: Gains(types, shared, declared, rank, uses, name) ==> ProxyCapable(types, name)
  }

  ghost predicate SameCapable(types: seq<CredentialType>, types': seq<CredentialType>) {
    forall name :: ProxyCapable(types', name) <==> ProxyCapable(types, name)
  }

  ghost predicate SameEligible(types: seq<CredentialType>, types': seq<CredentialType>) {
    forall info :: Eligible(types', info) <==> Eligible(types, info)
  }

  lemma NodeTells(types: seq<CredentialType>, name: string)
    ensures Eligible(types, Info("node", false, One(1.0), None, Some([name]))) <==> ProxyCapable(types, name)
  {
    var info := Info("node", false, One(1.0), None, Some([name]));
    assert name in info.credentials.value;
  }

  lemma EligibleFollowsCapable(types: seq<CredentialType>, types': seq<CredentialType>)
    ensures SameEligible(types, types') <==> SameCapable(types, types')
  {
    if SameEligible(types, types') {
      forall name
        ensures ProxyCapable(types', name) <==> ProxyCapable(types, name)
      {
        NodeTells(types, name);
        NodeTells(types', name);
      }
    }
    if SameCapable(types, types') {
      forall info
        ensures Eligible(types', info) <==> Eligible(types, info)
      {
        SameSupport(types, types', info);
      }
    }
  }

  lemma SameSupport(types: seq<CredentialType>, types': seq<CredentialType>, info: Info)
    requires SameCapable(types, types')
    ensures SupportsProxyAuth(types', info) <==> SupportsProxyAuth(types, info)
  {
  }

  /** Nodes are eligible as before, whatever their credentials, exactly if nothing is gained. */
  lemma EligibleExactly(types: seq<CredentialType>, shared: set<string>, declared: CT.Arrays, rank: CT.Rank, uses: seq<CT.Use>)
    requires CT.Ranked(declared, rank) && CT.SingleInheritance(declared) && Declares(types, declared)
    ensures SameEligible(types, Grown(types, shared, CT.History(declared, rank, uses))) <==> NothingGained(types, shared, declared, rank, uses)
  {
    var types' := Grown(types, shared, CT.History(declared, rank, uses));
    EligibleFollowsCapable(types, types');
    forall name
      ensures (ProxyCapable(types', name) <==> ProxyCapable(types, name))
         <==> (Gains(types, shared, declared, rank, uses, name) ==> ProxyCapable(types, name))
    {
      ProxyCapableExactly(types, shared, declared, rank, uses, name);
    }
  }

  lemma {:induction false} SameTargets(types: seq<CredentialType>, types': seq<CredentialType>, nodes: seq<Node>)
    requires SameEligible(types, types')
    ensures AllTargets(types', nodes) == AllTargets(types, nodes)
  {
    if nodes != [] {
      assert Eligible(types', nodes[0].info) <==> Eligible(types, nodes[0].info);
      SameTargets(types, types', nodes[1..]);
    }
  }

  /**
   * A rebuild after a history of calls and reversals, from the same nodes: as long as nothing is gained it does not
   * throw, and the nodes are the same if and only if no usable node holds a list that only others made a target.
   */
  lemma RebuildingAfterHistory(loaders: seq<LN.Loader>, loaders': seq<LN.Loader>, m: AiTools.Memory, shared: set<string>,
                               declared: CT.Arrays, rank: CT.Rank, uses: seq<CT.Use>)
    requires LN.Loadable(loaders, m) && !LN.PostProcess(loaders, m).thrown
    requires CT.Ranked(declared, rank) && CT.SingleInheritance(declared) && Declares(LN.CredentialsOf(loaders), declared)
    requires LN.NodesOf(loaders') == LN.NodesOf(loaders)
    requires LN.CredentialsOf(loaders') == Grown(LN.CredentialsOf(loaders), shared, CT.History(declared, rank, uses))
    requires NothingGained(LN.CredentialsOf(loaders), shared, declared, rank, uses)
    ensures var nodes, types, once := LN.NodesOf(loaders), LN.CredentialsOf(loaders), LN.PostProcess(loaders, m);
            var twice := LN.PostProcess(loaders', once.memory);
            && !twice.thrown
            && (LN.ContentsOf(twice).nodes == LN.ContentsOf(once).nodes
                <==> forall u :: u in LN.Usables(nodes) ==> !LN.AnyForeign(types, nodes, m.lists, u))
  {
    EligibleExactly(LN.CredentialsOf(loaders), shared, declared, rank, uses);
    SameTargets(LN.CredentialsOf(loaders), LN.CredentialsOf(loaders'), LN.NodesOf(loaders));
    LN.ThrowsExactlyOnEmptyTarget(loaders, m);
    LN.ThrowsAgainExactly(loaders, loaders', m);
    LN.RebuildingAgain(loaders, loaders', m);
  }
}
