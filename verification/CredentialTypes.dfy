/**
 * Inheritance between credential types. The stored `extends` array of a type is
 * lengthened in place by every call that asks for its parent types, so an answer is a
 * function of the stored arrays and not of the declarations alone.
 */
module CredentialTypes {
  import opened FirstOccurrence
  import opened Options

  /** The stored `extends` array of every known type that has one. */
  type Arrays = map<string, seq<string>>

  /** A height for every type; a parent lies strictly below its child. */
  type Rank = string -> nat

  /** `knownCredentials[t]?.extends ?? []`. */
  function ListOf(arrays: Arrays, t: string): seq<string> {
    if t in arrays then arrays[t] else []
  }

  /** The `extends` relation has no cycle, and `rank` shows it. */
  ghost predicate Ranked(arrays: Arrays, rank: Rank) {
    forall t, p :: t in arrays && p in arrays[t] ==> rank(p) < rank(t)
  }

  ghost predicate AllBelow(types: seq<string>, rank: Rank, bound: nat) {
    forall p :: p in types ==> rank(p) < bound
  }

  ghost predicate SingleInheritance(declared: Arrays) {
    forall t :: t in declared ==> |declared[t]| <= 1
  }

  // ---------------------------------------------------------------- ancestors

  /** A non-empty chain in which every type is a declared parent of the one before it. */
  ghost predicate IsChain(declared: Arrays, chain: seq<string>) {
    && chain != []
    && forall i :: 0 <= i < |chain| - 1 ==> chain[i + 1] in ListOf(declared, chain[i])
  }

  /** `chain` leads from `t` up to `a`. */
  ghost predicate LeadsTo(declared: Arrays, chain: seq<string>, t: string, a: string) {
    IsChain(declared, chain) && chain[0] == t && chain[|chain| - 1] == a
  }

  ghost predicate StrictAncestor(declared: Arrays, t: string, a: string) {
    exists chain: seq<string> :: |chain| >= 2 && LeadsTo(declared, chain, t, a)
  }

  /** The declared parents of `t`, then the line of each of them. Depends on the declarations only. */
  ghost function Line(declared: Arrays, rank: Rank, t: string): seq<string>
    requires Ranked(declared, rank)
    decreases rank(t), 1, 0
  {
    var parents := ListOf(declared, t);
    parents + Lines(declared, rank, parents, rank(t))
  }

  ghost function Lines(declared: Arrays, rank: Rank, types: seq<string>, bound: nat): seq<string>
    requires Ranked(declared, rank) && AllBelow(types, rank, bound)
    decreases bound, 0, |types|
  {
    if types == [] then []
    else Line(declared, rank, types[0]) + Lines(declared, rank, types[1..], bound)
  }

  lemma {:induction false} LinesMembers(declared: Arrays, rank: Rank, types: seq<string>, bound: nat)
    requires Ranked(declared, rank) && AllBelow(types, rank, bound)
    ensures forall a :: a in Lines(declared, rank, types, bound) <==>
                        exists p :: p in types && a in Line(declared, rank, p)
  {
    if types != [] {
      var rest := types[1..];
      LinesMembers(declared, rank, rest, bound);
      forall a ensures a in Lines(declared, rank, types, bound) <==>
                       exists p :: p in types && a in Line(declared, rank, p)
      {
        var first := types[0];
        assert first in types && forall p :: p in types <==> p == first || p in rest;
        assert a in Lines(declared, rank, types, bound) <==>
               a in Line(declared, rank, first) || a in Lines(declared, rank, rest, bound);
      }
    }
  }

  lemma {:induction false} LinesConcat(declared: Arrays, rank: Rank, xs: seq<string>, ys: seq<string>, bound: nat)
    requires Ranked(declared, rank) && AllBelow(xs, rank, bound) && AllBelow(ys, rank, bound)
    ensures AllBelow(xs + ys, rank, bound)
    ensures Lines(declared, rank, xs + ys, bound) == Lines(declared, rank, xs, bound) + Lines(declared, rank, ys, bound)
  {
    if xs == [] {
      assert xs + ys == ys;
    } else {
      LinesConcat(declared, rank, xs[1..], ys, bound);
      assert (xs + ys)[1..] == xs[1..] + ys;
    }
  }

  lemma {:induction false} LineLeads(declared: Arrays, rank: Rank, t: string, a: string)
    requires Ranked(declared, rank)
    requires a in Line(declared, rank, t)
    ensures StrictAncestor(declared, t, a)
    decreases rank(t)
  {
    var parents := ListOf(declared, t);
    if a in parents {
      assert LeadsTo(declared, [t, a], t, a);
    } else {
      LinesMembers(declared, rank, parents, rank(t));
      var p :| p in parents && a in Line(declared, rank, p);
      LineLeads(declared, rank, p, a);
      var chain: seq<string> :| |chain| >= 2 && LeadsTo(declared, chain, p, a);
      assert LeadsTo(declared, [t] + chain, t, a);
    }
  }

  lemma {:induction false} ChainInLine(declared: Arrays, rank: Rank, t: string, chain: seq<string>, a: string)
    requires Ranked(declared, rank)
    requires |chain| >= 2 && LeadsTo(declared, chain, t, a)
    ensures a in Line(declared, rank, t)
    decreases |chain|
  {
    var parents := ListOf(declared, t);
    if |chain| > 2 {
      var p := chain[1];
      ChainInLine(declared, rank, p, chain[1..], a);
      LinesMembers(declared, rank, parents, rank(t));
    }
  }

  /** A line holds exactly the strict ancestors. */
  lemma LineIsAncestors(declared: Arrays, rank: Rank, t: string)
    requires Ranked(declared, rank)
    ensures forall a :: a in Line(declared, rank, t) <==> StrictAncestor(declared, t, a)
  {
    forall a ensures a in Line(declared, rank, t) <==> StrictAncestor(declared, t, a) {
      if a in Line(declared, rank, t) {
        LineLeads(declared, rank, t, a);
      }
      if StrictAncestor(declared, t, a) {
        var chain: seq<string> :| |chain| >= 2 && LeadsTo(declared, chain, t, a);
        ChainInLine(declared, rank, t, chain, a);
      }
    }
  }

  /** The ancestors of an ancestor are already in the line. */
  lemma {:induction false} LineClosed(declared: Arrays, rank: Rank, t: string, a: string, b: string)
    requires Ranked(declared, rank)
    requires a in Line(declared, rank, t) && b in Line(declared, rank, a)
    ensures b in Line(declared, rank, t)
    decreases rank(t)
  {
    var parents := ListOf(declared, t);
    LinesMembers(declared, rank, parents, rank(t));
    if a !in parents {
      var p :| p in parents && a in Line(declared, rank, p);
      LineClosed(declared, rank, p, a, b);
    }
  }

  lemma {:induction false} LineBelow(declared: Arrays, rank: Rank, t: string)
    requires Ranked(declared, rank)
    ensures AllBelow(Line(declared, rank, t), rank, rank(t))
    decreases rank(t)
  {
    var parents := ListOf(declared, t);
    LinesMembers(declared, rank, parents, rank(t));
    forall p | p in parents {
      LineBelow(declared, rank, p);
    }
  }

  // ---------------------------------------------------------------- the call

  datatype Answer = Answer(arrays: Arrays, list: seq<string>)

  /** `getParentTypes`: the arrays it leaves behind and the list it returns. */
  function ParentTypes(arrays: Arrays, ghost rank: Rank, t: string): (r: Answer)
    requires Ranked(arrays, rank)
    ensures Touches(arrays, rank, t, r.arrays)
    ensures r.list == ListOf(r.arrays, t)
    decreases rank(t), 1, 0
  {
    if t in arrays then PushParents(arrays, rank, t, 0, |arrays[t]|) else Answer(arrays, [])
  }

  /** The `forEach` over the first `n` elements of the array of `t`, from element `i` on. */
  function PushParents(arrays: Arrays, ghost rank: Rank, t: string, i: nat, n: nat): (r: Answer)
    requires Ranked(arrays, rank) && t in arrays && i <= n <= |arrays[t]|
    ensures Touches(arrays, rank, t, r.arrays)
    ensures r.list == r.arrays[t]
    decreases rank(t), 0, n - i
  {
    if i == n then
      Answer(arrays, arrays[t])
    else
      var parent := arrays[t][i];
      assert parent in arrays[t];
      var up := ParentTypes(arrays, rank, parent);
      assert Ranked(arrays, rank);
      PushKeepsRank(arrays, rank, t, parent, up);
      PushParents(up.arrays[t := up.arrays[t] + up.list], rank, t, i + 1, n)
  }

  /** A call for `t` only lengthens arrays: its own and those of types below it. */
  ghost predicate Touches(arrays: Arrays, rank: Rank, t: string, arrays': Arrays) {
    && Ranked(arrays', rank)
    && arrays'.Keys == arrays.Keys
    && (forall u :: u in arrays ==> arrays[u] <= arrays'[u])
    && (forall u :: u in arrays && u != t && rank(u) >= rank(t) ==> arrays'[u] == arrays[u])
  }

  lemma PushKeepsRank(arrays: Arrays, rank: Rank, t: string, parent: string, up: Answer)
    requires Ranked(arrays, rank) && t in arrays && rank(parent) < rank(t)
    requires Touches(arrays, rank, parent, up.arrays) && up.list == ListOf(up.arrays, parent)
    ensures Touches(arrays, rank, t, up.arrays[t := up.arrays[t] + up.list])
    ensures up.arrays[t] == arrays[t]
  {
    var arrays' := up.arrays[t := up.arrays[t] + up.list];
    forall u, p | u in arrays' && p in arrays'[u] ensures rank(p) < rank(u) {
      if u == t && p !in up.arrays[t] {
        assert parent in up.arrays && p in up.arrays[parent];
      }
    }
  }

  // ---------------------------------------------------------------- history independence

  /** Completing the list `l` of type `t` by the lines of its elements gives the line of `t`. */
  ghost predicate Completes(declared: Arrays, rank: Rank, t: string, l: seq<string>)
    requires Ranked(declared, rank)
  {
    && AllBelow(l, rank, rank(t))
    && Dedup(l + Lines(declared, rank, l, rank(t))) == Dedup(Line(declared, rank, t))
  }

  /** What every stored array keeps, however often it has been lengthened. */
  ghost predicate Consistent(declared: Arrays, rank: Rank, arrays: Arrays) {
    && Ranked(declared, rank) && Ranked(arrays, rank)
    && arrays.Keys == declared.Keys
    && forall u :: u in arrays ==> Completes(declared, rank, u, arrays[u])
  }

  /** Consistency of the arrays strictly below height `bound`. */
  ghost predicate ConsistentBelow(declared: Arrays, rank: Rank, arrays: Arrays, bound: nat) {
    && Ranked(declared, rank) && Ranked(arrays, rank)
    && arrays.Keys == declared.Keys
    && forall u :: u in arrays && rank(u) < bound ==> Completes(declared, rank, u, arrays[u])
  }

  lemma DeclaredConsistent(declared: Arrays, rank: Rank)
    requires Ranked(declared, rank)
    ensures Consistent(declared, rank, declared)
  {
  }

  /** A list with the first occurrences of the line is complete. */
  lemma FullListCompletes(declared: Arrays, rank: Rank, t: string, l: seq<string>)
    requires Ranked(declared, rank)
    requires Dedup(l) == Dedup(Line(declared, rank, t))
    ensures Completes(declared, rank, t, l)
  {
    var line := Line(declared, rank, t);
    LineBelow(declared, rank, t);
    DedupSameMembers(l, line);
    var more := Lines(declared, rank, l, rank(t));
    LinesMembers(declared, rank, l, rank(t));
    forall b | b in more ensures b in l {
      var a :| a in l && b in Line(declared, rank, a);
      LineClosed(declared, rank, t, a, b);
    }
    DedupAbsorbs(l, more);
  }

  /** Replacing the first pending element by its list, read by first occurrence, changes no answer. */
  lemma PushedListCompletes(declared: Arrays, rank: Rank, t: string, l: seq<string>, pending: seq<string>, list: seq<string>)
    requires Ranked(declared, rank) && pending != [] && AllBelow(pending, rank, rank(t))
    requires Dedup(list) == Dedup(Line(declared, rank, pending[0]))
    ensures AllBelow(pending[1..], rank, rank(t))
    ensures Dedup((l + list) + Lines(declared, rank, pending[1..], rank(t)))
         == Dedup(l + Lines(declared, rank, pending, rank(t)))
  {
    var line := Line(declared, rank, pending[0]);
    assert AllBelow(pending[1..], rank, rank(t));
    var rest := Lines(declared, rank, pending[1..], rank(t));
    SwapMiddle(l, list, line, rest);
  }

  lemma SwapMiddle(l: seq<string>, a: seq<string>, b: seq<string>, rest: seq<string>)
    requires Dedup(a) == Dedup(b)
    ensures Dedup((l + a) + rest) == Dedup(l + (b + rest))
  {
    DedupCongruence(l, l, a, b);
    DedupCongruence(l + a, l + b, rest, rest);
    ConcatAssociative(l, b, rest);
  }

  lemma ConcatAssociative(a: seq<string>, b: seq<string>, c: seq<string>)
    ensures (a + b) + c == a + (b + c)
  {
  }

  /** One call answers with the line, read by first occurrence, and leaves the arrays it touched consistent. */
  lemma {:induction false} ParentTypesAnswer(declared: Arrays, rank: Rank, arrays: Arrays, t: string)
    requires ConsistentBelow(declared, rank, arrays, rank(t))
    requires t in arrays ==> Completes(declared, rank, t, arrays[t])
    ensures var r := ParentTypes(arrays, rank, t);
            && ConsistentBelow(declared, rank, r.arrays, rank(t))
            && (t in arrays ==> Completes(declared, rank, t, r.arrays[t]))
            && Dedup(r.list) == Dedup(Line(declared, rank, t))
    decreases rank(t), 1, 0
  {
    if t in arrays {
      var l := arrays[t];
      assert l[0..|l|] == l;
      PushParentsAnswer(declared, rank, arrays, t, 0, |l|);
      FullListCompletes(declared, rank, t, ParentTypes(arrays, rank, t).list);
    } else {
      assert ListOf(declared, t) == [];
    }
  }

  /** Elements `i..n` of the array of `t` are still to be visited, and complete it. */
  ghost predicate Pending(declared: Arrays, rank: Rank, arrays: Arrays, t: string, i: nat, n: nat) {
    && ConsistentBelow(declared, rank, arrays, rank(t))
    && t in arrays && i <= n <= |arrays[t]|
    && AllBelow(arrays[t][i..n], rank, rank(t))
    && Dedup(arrays[t] + Lines(declared, rank, arrays[t][i..n], rank(t))) == Dedup(Line(declared, rank, t))
  }

  lemma {:induction false} PushParentsAnswer(declared: Arrays, rank: Rank, arrays: Arrays, t: string, i: nat, n: nat)
    requires Pending(declared, rank, arrays, t, i, n)
    ensures var r := PushParents(arrays, rank, t, i, n);
            && ConsistentBelow(declared, rank, r.arrays, rank(t))
            && Dedup(r.list) == Dedup(Line(declared, rank, t))
    decreases rank(t), 0, n - i
  {
    if i == n {
      assert arrays[t] + [] == arrays[t];
    } else {
      var parent := arrays[t][i];
      assert parent in arrays[t];
      ParentTypesAnswer(declared, rank, arrays, parent);
      var up := ParentTypes(arrays, rank, parent);
      PushKeepsRank(arrays, rank, t, parent, up);
      StepPending(declared, rank, arrays, t, i, n, up);
      PushParentsAnswer(declared, rank, up.arrays[t := up.arrays[t] + up.list], t, i + 1, n);
    }
  }

  lemma StepPending(declared: Arrays, rank: Rank, arrays: Arrays, t: string, i: nat, n: nat, up: Answer)
    requires Pending(declared, rank, arrays, t, i, n) && i < n
    requires var parent := arrays[t][i];
             && rank(parent) < rank(t)
             && Touches(arrays, rank, parent, up.arrays) && up.list == ListOf(up.arrays, parent)
             && ConsistentBelow(declared, rank, up.arrays, rank(parent))
             && (parent in arrays ==> Completes(declared, rank, parent, up.arrays[parent]))
             && Dedup(up.list) == Dedup(Line(declared, rank, parent))
    ensures t in up.arrays && up.arrays[t] == arrays[t]
    ensures Pending(declared, rank, up.arrays[t := arrays[t] + up.list], t, i + 1, n)
  {
    var l := arrays[t];
    var arrays' := up.arrays[t := l + up.list];
    PushKeepsRank(arrays, rank, t, l[i], up);
    PushedBelow(declared, rank, arrays, t, l[i], up);
    var pending := l[i..n];
    assert pending[0] == l[i] && arrays'[t][i + 1..n] == pending[1..];
    PushedListCompletes(declared, rank, t, l, pending, up.list);
  }

  lemma PushedBelow(declared: Arrays, rank: Rank, arrays: Arrays, t: string, parent: string, up: Answer)
    requires ConsistentBelow(declared, rank, arrays, rank(t)) && t in arrays && rank(parent) < rank(t)
    requires Touches(arrays, rank, parent, up.arrays) && up.list == ListOf(up.arrays, parent)
    requires ConsistentBelow(declared, rank, up.arrays, rank(parent))
    requires parent in arrays ==> Completes(declared, rank, parent, up.arrays[parent])
    ensures ConsistentBelow(declared, rank, up.arrays[t := arrays[t] + up.list], rank(t))
  {
    PushKeepsRank(arrays, rank, t, parent, up);
    var arrays' := up.arrays[t := arrays[t] + up.list];
    forall u | u in arrays' && rank(u) < rank(t) ensures Completes(declared, rank, u, arrays'[u]) {
      if rank(u) >= rank(parent) && u != parent {
        assert up.arrays[u] == arrays[u];
      }
    }
  }

  // ---------------------------------------------------------------- histories

  /** What is done with the stored arrays: the answer is read, or reversed in place by the caller. */
  datatype Use = Asks(t: string) | Reverses(t: string)

  function Reversed(s: seq<string>): seq<string> {
    if s == [] then [] else Reversed(s[1..]) + [s[0]]
  }

  lemma {:induction false} ReversedMembers(s: seq<string>)
    ensures |Reversed(s)| == |s| && forall x :: x in Reversed(s) <==> x in s
  {
    if s != [] {
      ReversedMembers(s[1..]);
      assert s == [s[0]] + s[1..];
    }
  }

  /** The answer is the stored array itself, so that reversing the answer reverses what is stored. */
  function After(arrays: Arrays, ghost rank: Rank, use: Use): (r: Arrays)
    requires Ranked(arrays, rank)
    ensures Ranked(r, rank) && r.Keys == arrays.Keys
  {
    var asked := ParentTypes(arrays, rank, use.t).arrays;
    if use.Reverses? && use.t in asked then
      ReversedMembers(asked[use.t]);
      asked[use.t := Reversed(asked[use.t])]
    else asked
  }

  /** A whole history. */
  function History(arrays: Arrays, ghost rank: Rank, uses: seq<Use>): (r: Arrays)
    requires Ranked(arrays, rank)
    ensures Ranked(r, rank) && r.Keys == arrays.Keys
  {
    if uses == [] then arrays else After(History(arrays, rank, uses[..|uses| - 1]), rank, uses[|uses| - 1])
  }

  // ---------------------------------------------------------------- what every history keeps

  /** Every stored array holds the declared parents, and nothing but ancestors. */
  ghost predicate Covers(declared: Arrays, rank: Rank, arrays: Arrays) {
    && Ranked(declared, rank) && Ranked(arrays, rank)
    && arrays.Keys == declared.Keys
    && forall u :: u in arrays ==> CoversType(declared, rank, u, arrays[u])
  }

  ghost predicate CoversType(declared: Arrays, rank: Rank, u: string, l: seq<string>)
    requires Ranked(declared, rank)
  {
    && (forall p :: p in ListOf(declared, u) ==> p in l)
    && (forall a :: a in l ==> a in Line(declared, rank, u))
  }

  lemma DeclaredCovers(declared: Arrays, rank: Rank)
    requires Ranked(declared, rank)
    ensures Covers(declared, rank, declared)
  {
  }

  /** The members of the answer are the line, and the arrays go on covering. */
  lemma {:induction false} AnswerMembers(declared: Arrays, rank: Rank, arrays: Arrays, t: string)
    requires Covers(declared, rank, arrays)
    ensures var r := ParentTypes(arrays, rank, t);
            && Covers(declared, rank, r.arrays)
            && forall a :: a in r.list <==> a in Line(declared, rank, t)
    decreases rank(t), 1, 0
  {
    if t in arrays {
      PushedMembers(declared, rank, arrays, t, 0, |arrays[t]|, arrays[t]);
      LineFromList(declared, rank, arrays[t], ParentTypes(arrays, rank, t).list, t);
    } else {
      assert ListOf(declared, t) == [];
    }
  }

  ghost predicate LineIn(declared: Arrays, rank: Rank, x: string, l: seq<string>)
    requires Ranked(declared, rank)
  {
    forall a :: a in Line(declared, rank, x) ==> a in l
  }

  ghost predicate LinesIn(declared: Arrays, rank: Rank, types: seq<string>, l: seq<string>)
    requires Ranked(declared, rank)
  {
    forall j :: 0 <= j < |types| ==> LineIn(declared, rank, types[j], l)
  }

  /** A list that holds the parents and the lines of its first elements holds the line. */
  lemma LineFromList(declared: Arrays, rank: Rank, first: seq<string>, list: seq<string>, t: string)
    requires Ranked(declared, rank) && forall p :: p in ListOf(declared, t) ==> p in first
    requires first <= list && LinesIn(declared, rank, first, list)
    requires forall a :: a in list ==> a in Line(declared, rank, t)
    ensures forall a :: a in list <==> a in Line(declared, rank, t)
  {
    var parents := ListOf(declared, t);
    LinesMembers(declared, rank, parents, rank(t));
    forall a | a in Line(declared, rank, t)
      ensures a in list
    {
      if a in parents {
        assert a in first && forall j :: 0 <= j < |first| ==> first[j] in list;
      } else {
        assert a in Lines(declared, rank, parents, rank(t));
        var p :| p in parents && a in Line(declared, rank, p);
        var j :| 0 <= j < |first| && first[j] == p;
        assert LineIn(declared, rank, first[j], list);
      }
    }
  }

  lemma LinesInOneMore(declared: Arrays, rank: Rank, first: seq<string>, i: nat, l: seq<string>, more: seq<string>)
    requires Ranked(declared, rank) && i < |first| && LinesIn(declared, rank, first[..i], l)
    requires forall a :: a in more <==> a in Line(declared, rank, first[i])
    ensures LinesIn(declared, rank, first[..i + 1], l + more)
  {
    var visited := first[..i + 1];
    forall j | 0 <= j < |visited|
      ensures LineIn(declared, rank, visited[j], l + more)
    {
      if j < i { assert LineIn(declared, rank, first[..i][j], l); }
    }
  }

  /** The loop from element `i` on adds the lines of the elements it visits, and nothing but ancestors. */
  lemma {:induction false} PushedMembers(declared: Arrays, rank: Rank, arrays: Arrays, t: string, i: nat, n: nat, first: seq<string>)
    requires Covers(declared, rank, arrays) && t in arrays && i <= n == |first| && first <= arrays[t]
    requires LinesIn(declared, rank, first[..i], arrays[t])
    ensures var r := PushParents(arrays, rank, t, i, n);
            Covers(declared, rank, r.arrays) && first <= r.list && LinesIn(declared, rank, first, r.list)
    decreases rank(t), 0, n - i
  {
    if i == n {
      assert first[..i] == first;
    } else {
      var l, parent := arrays[t], arrays[t][i];
      assert parent in l && parent == first[i];
      AnswerMembers(declared, rank, arrays, parent);
      var up := ParentTypes(arrays, rank, parent);
      PushKeepsRank(arrays, rank, t, parent, up);
      PushCovers(declared, rank, t, parent, up, l);
      LinesInOneMore(declared, rank, first, i, l, up.list);
      PushedMembers(declared, rank, up.arrays[t := l + up.list], t, i + 1, n, first);
    }
  }

  lemma PushCovers(declared: Arrays, rank: Rank, t: string, parent: string, up: Answer, l: seq<string>)
    requires Covers(declared, rank, up.arrays) && t in up.arrays && up.arrays[t] == l && parent in l
    requires forall a :: a in up.list <==> a in Line(declared, rank, parent)
    requires Ranked(up.arrays[t := l + up.list], rank)
    ensures Covers(declared, rank, up.arrays[t := l + up.list])
  {
    forall a | a in up.list
      ensures a in Line(declared, rank, t)
    {
      LineClosed(declared, rank, t, parent, a);
    }
    assert CoversType(declared, rank, t, l);
    assert CoversType(declared, rank, t, l + up.list);
  }

  lemma UseCovers(declared: Arrays, rank: Rank, arrays: Arrays, use: Use)
    requires Covers(declared, rank, arrays)
    ensures Covers(declared, rank, After(arrays, rank, use))
  {
    AnswerMembers(declared, rank, arrays, use.t);
    var asked := ParentTypes(arrays, rank, use.t).arrays;
    if use.t in asked {
      ReversedMembers(asked[use.t]);
      assert CoversType(declared, rank, use.t, asked[use.t]);
      assert CoversType(declared, rank, use.t, Reversed(asked[use.t]));
    }
  }

  lemma {:induction false} HistoryCovers(declared: Arrays, rank: Rank, uses: seq<Use>)
    requires Ranked(declared, rank)
    ensures Covers(declared, rank, History(declared, rank, uses))
  {
    if uses == [] {
      DeclaredCovers(declared, rank);
    } else {
      HistoryCovers(declared, rank, uses[..|uses| - 1]);
      UseCovers(declared, rank, History(declared, rank, uses[..|uses| - 1]), uses[|uses| - 1]);
    }
  }

  /**
   * For every acyclic relation and every history of calls, in-place reversals included, the answer for `t`
   * holds exactly the strict ancestors of `t`.
   */
  lemma MembersAreHistoryIndependent(declared: Arrays, rank: Rank, uses: seq<Use>, t: string)
    requires Ranked(declared, rank)
    ensures forall a :: a in ParentTypes(History(declared, rank, uses), rank, t).list <==> StrictAncestor(declared, t, a)
  {
    HistoryCovers(declared, rank, uses);
    AnswerMembers(declared, rank, History(declared, rank, uses), t);
    LineIsAncestors(declared, rank, t);
  }

  // ---------------------------------------------------------------- what histories without reversals keep

  predicate NothingReversed(uses: seq<Use>) {
    forall u :: u in uses ==> u.Asks?
  }

  lemma CallKeepsConsistent(declared: Arrays, rank: Rank, arrays: Arrays, t: string)
    requires Consistent(declared, rank, arrays)
    ensures Consistent(declared, rank, ParentTypes(arrays, rank, t).arrays)
    ensures Dedup(ParentTypes(arrays, rank, t).list) == Dedup(Line(declared, rank, t))
  {
    ParentTypesAnswer(declared, rank, arrays, t);
    var r := ParentTypes(arrays, rank, t);
    forall u | u in r.arrays ensures Completes(declared, rank, u, r.arrays[u]) {
      if rank(u) >= rank(t) && u != t {
        assert r.arrays[u] == arrays[u];
      }
    }
  }

  lemma {:induction false} HistoryKeepsConsistent(declared: Arrays, rank: Rank, arrays: Arrays, uses: seq<Use>)
    requires Consistent(declared, rank, arrays) && NothingReversed(uses)
    ensures Consistent(declared, rank, History(arrays, rank, uses))
    ensures forall u :: u in arrays ==> arrays[u] <= History(arrays, rank, uses)[u]
  {
    if uses != [] {
      var before, use := uses[..|uses| - 1], uses[|uses| - 1];
      assert use in uses && forall u :: u in before ==> u in uses;
      HistoryKeepsConsistent(declared, rank, arrays, before);
      CallKeepsConsistent(declared, rank, History(arrays, rank, before), use.t);
    }
  }

  /**
   * After any history of calls whose answers nobody reverses, the answer for `t` holds the strict ancestors
   * of `t` in an order of first occurrence fixed by the declarations.
   */
  lemma {:induction false} AnswerIsHistoryIndependent(declared: Arrays, rank: Rank, uses: seq<Use>, t: string)
    requires Ranked(declared, rank) && NothingReversed(uses)
    ensures var list := ParentTypes(History(declared, rank, uses), rank, t).list;
            && Dedup(list) == Dedup(Line(declared, rank, t))
            && forall a :: a in list <==> StrictAncestor(declared, t, a)
  {
    DeclaredConsistent(declared, rank);
    HistoryKeepsConsistent(declared, rank, declared, uses);
    CallKeepsConsistent(declared, rank, History(declared, rank, uses), t);
    MembersAreHistoryIndependent(declared, rank, uses, t);
  }

  /** The registry part of `CredentialTypes`: who is recognised, and the stored `extends` arrays. */
  class CredentialTypes {
    /** `getByName(t).extends` of every recognised type, as declared; `None` where the field is undefined. */
    const types: Types
    /** The types for which `getByName(t).extends` is the stored array itself. */
    const shared: set<string>
    /** `knownCredentials[t].extends`, lengthened in place. */
    var knownExtends: Arrays
    ghost const rank: Rank

    constructor (types: Types, shared: set<string>, ghost rank: Rank)
      requires Ranked(Declared(types), rank)
      ensures this.types == types && this.shared == shared && this.rank == rank
      ensures knownExtends == Declared(types) && Valid()
    {
      this.types := types;
      this.shared := shared;
      this.rank := rank;
      this.knownExtends := Declared(types);
      new;
      DeclaredCovers(Declared(types), rank);
    }

    ghost predicate Valid()
      reads this
    {
      Covers(Declared(types), rank, knownExtends)
    }

    predicate Recognizes(t: string) {
      t in types
    }

    /** `getByName(t).extends` as it is read now. */
    function Extends(): (read: Types)
      requires Valid()
      reads this
      ensures read.Keys == types.Keys && Ranked(Declared(read), rank)
    {
      TypesReadRanked(types, shared, rank, knownExtends);
      TypesRead(types, shared, knownExtends)
    }

    method GetParentTypes(typeName: string) returns (list: seq<string>)
      requires Ranked(knownExtends, rank)
      modifies this`knownExtends
      ensures Answer(knownExtends, list) == ParentTypes(old(knownExtends), rank, typeName)
      ensures old(Valid()) ==> Valid() && forall a :: a in list <==> a in Line(Declared(types), rank, typeName)
      decreases rank(typeName)
    {
      ghost var before := knownExtends;
      if typeName in knownExtends {
        var n := |knownExtends[typeName]|;
        var i := 0;
        while i < n
          invariant Ranked(knownExtends, rank)
          invariant typeName in knownExtends && i <= n <= |knownExtends[typeName]|
          invariant PushParents(knownExtends, rank, typeName, i, n) == PushParents(before, rank, typeName, 0, n)
        {
          ghost var arrays := knownExtends;
          var parent := knownExtends[typeName][i];
          assert parent in knownExtends[typeName];
          var more := GetParentTypes(parent);
          PushKeepsRank(arrays, rank, typeName, parent, Answer(knownExtends, more));
          knownExtends := knownExtends[typeName := knownExtends[typeName] + more];
          i := i + 1;
        }
        list := knownExtends[typeName];
      } else {
        list := [];
      }
      if Covers(Declared(types), rank, before) {
        AnswerMembers(Declared(types), rank, before, typeName);
      }
    }

    /** A caller that reverses the answer in place. */
    method ReverseParentTypes(typeName: string) returns (list: seq<string>)
      requires Valid()
      modifies this`knownExtends
      ensures Valid() && knownExtends == After(old(knownExtends), rank, Reverses(typeName))
      ensures list == Reversed(ParentTypes(old(knownExtends), rank, typeName).list)
    {
      UseCovers(Declared(types), rank, knownExtends, Reverses(typeName));
      list := GetParentTypes(typeName);
      list := Reversed(list);
      if typeName in knownExtends {
        knownExtends := knownExtends[typeName := list];
      }
    }

    /** The part of `FrontendService.overwriteCredentialsProperties` that touches the stored arrays. */
    method Sweep(names: seq<string>)
      requires Valid()
      modifies this`knownExtends
      ensures Valid() && knownExtends == History(old(knownExtends), rank, Sweeps(names))
    {
      var i := 0;
      while i < |names|
        invariant 0 <= i <= |names| && Valid()
        invariant knownExtends == History(old(knownExtends), rank, Sweeps(names[..i]))
      {
        var _ := ReverseParentTypes(names[i]);
        assert Sweeps(names[..i + 1])[..i] == Sweeps(names[..i]);
        i := i + 1;
      }
      assert names[..i] == names;
    }
  }

  /** Asking for the ancestors of each type and reversing the answer. */
  function Sweeps(names: seq<string>): (uses: seq<Use>)
    ensures |uses| == |names|
  {
    seq(|names|, i requires 0 <= i < |names| => Reverses(names[i]))
  }

  /** `extends` of every recognised type, `None` where it is undefined. */
  type Types = map<string, Option<seq<string>>>

  /** What is read of the types when the arrays of the shared ones have grown. */
  function TypesRead(types: Types, shared: set<string>, arrays: Arrays): Types {
    map t | t in types :: if t in shared && t in arrays then Some(arrays[t]) else types[t]
  }

  lemma TypesReadRanked(types: Types, shared: set<string>, rank: Rank, arrays: Arrays)
    requires Ranked(Declared(types), rank) && Ranked(arrays, rank)
    ensures Ranked(Declared(TypesRead(types, shared, arrays)), rank)
  {
    forall t, p | t in Declared(TypesRead(types, shared, arrays)) && p in Declared(TypesRead(types, shared, arrays))[t]
      ensures rank(p) < rank(t)
    {
      assert t in Declared(types) || t in arrays;
    }
  }

  /** The declared arrays: the types whose `extends` field is defined. */
  function Declared(types: Types): Arrays {
    map t | t in types && types[t].Some? :: types[t].value
  }

  /** One turn of the loop: the array of `t` gains at least what the visited element stores. */
  lemma PushStep(arrays: Arrays, rank: Rank, t: string, i: nat, n: nat) returns (arrays': Arrays)
    requires Ranked(arrays, rank) && t in arrays && i < n <= |arrays[t]|
    ensures Touches(arrays, rank, t, arrays')
    ensures |arrays'[t]| >= |arrays[t]| + |ListOf(arrays, arrays[t][i])|
    ensures PushParents(arrays, rank, t, i, n) == PushParents(arrays', rank, t, i + 1, n)
  {
    var parent := arrays[t][i];
    assert parent in arrays[t];
    var up := ParentTypes(arrays, rank, parent);
    PushKeepsRank(arrays, rank, t, parent, up);
    arrays' := up.arrays[t := up.arrays[t] + up.list];
  }

  /**
   * The stored arrays really grow: as long as the first parent has parents itself, every call returns
   * a strictly longer list than the one stored before it.
   */
  lemma AnswersGrow(arrays: Arrays, rank: Rank, t: string)
    requires Ranked(arrays, rank)
    requires t in arrays && arrays[t] != [] && ListOf(arrays, arrays[t][0]) != []
    ensures |ParentTypes(arrays, rank, t).list| > |arrays[t]|
  {
    var after := PushStep(arrays, rank, t, 0, |arrays[t]|);
    assert after[t] <= PushParents(after, rank, t, 1, |arrays[t]|).list;
  }
}
