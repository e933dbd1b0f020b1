/**
 * The order in which `getParentTypes` lists ancestors, under single inheritance and under every history of
 * calls and in-place reversals. A type keeps the order of its first call; whether that is the order of its
 * line can be told from the history alone.
 */
module CredentialOrder {
  import opened FirstOccurrence
  import opened CredentialTypes

  // ---------------------------------------------------------------- lines that are chains

  lemma LineOfOne(declared: Arrays, rank: Rank, t: string)
    requires Ranked(declared, rank) && SingleInheritance(declared) && ListOf(declared, t) != []
    ensures var p := ListOf(declared, t)[0];
            && rank(p) < rank(t) && p !in Line(declared, rank, p)
            && Line(declared, rank, t) == [p] + Line(declared, rank, p)
  {
    var p := ListOf(declared, t)[0];
    assert declared[t] == [p];
    assert [p][1..] == [];
    assert Lines(declared, rank, [p], rank(t)) == Line(declared, rank, p) + Lines(declared, rank, [], rank(t));
    LineBelow(declared, rank, p);
  }

  lemma {:induction false} LineDistinct(declared: Arrays, rank: Rank, t: string)
    requires Ranked(declared, rank) && SingleInheritance(declared)
    ensures Dedup(Line(declared, rank, t)) == Line(declared, rank, t)
    decreases rank(t)
  {
    if ListOf(declared, t) != [] {
      var p := ListOf(declared, t)[0];
      LineOfOne(declared, rank, t);
      LineDistinct(declared, rank, p);
      DedupCons(p, Line(declared, rank, p));
    }
  }

  /** Nobody on the line of `t` has the parent of `t` as an ancestor. */
  lemma ParentNotAbove(declared: Arrays, rank: Rank, t: string, x: string)
    requires Ranked(declared, rank) && SingleInheritance(declared) && ListOf(declared, t) != []
    requires x in Line(declared, rank, t)
    ensures forall a :: a in Line(declared, rank, x) ==> a in Line(declared, rank, ListOf(declared, t)[0])
    ensures ListOf(declared, t)[0] !in Line(declared, rank, x)
  {
    var p := ListOf(declared, t)[0];
    LineOfOne(declared, rank, t);
    if x != p {
      forall a | a in Line(declared, rank, x)
        ensures a in Line(declared, rank, p)
      {
        LineClosed(declared, rank, p, x, a);
      }
    }
  }

  // ---------------------------------------------------------------- marks

  /** The types with a parent that have been asked for, and those of them that list their ancestors in another order. */
  datatype Marks = Marks(asked: set<string>, wrong: set<string>)

  /** A first call for a type takes over the order of its parent. */
  ghost function Touched(declared: Arrays, rank: Rank, m: Marks, t: string): Marks
    requires Ranked(declared, rank)
    decreases rank(t)
  {
    if t in m.asked || ListOf(declared, t) == [] then m
    else
      var p := ListOf(declared, t)[0];
      var m' := Touched(declared, rank, m, p);
      Marks(m'.asked + {t}, if p in m'.wrong then m'.wrong + {t} else m'.wrong)
  }

  /** Reversing the list of a type with two or more ancestors puts it in another order for good. */
  ghost function MarksAfter(declared: Arrays, rank: Rank, m: Marks, use: Use): Marks
    requires Ranked(declared, rank)
  {
    var m' := Touched(declared, rank, m, use.t);
    if use.Reverses? && |Line(declared, rank, use.t)| >= 2 then m'.(wrong := m'.wrong + {use.t}) else m'
  }

  ghost function MarksOf(declared: Arrays, rank: Rank, uses: seq<Use>): Marks
    requires Ranked(declared, rank)
  {
    if uses == [] then Marks({}, {})
    else MarksAfter(declared, rank, MarksOf(declared, rank, uses[..|uses| - 1]), uses[|uses| - 1])
  }

  lemma {:induction false} TouchedFrame(declared: Arrays, rank: Rank, m: Marks, t: string)
    requires Ranked(declared, rank) && m.wrong <= m.asked
    ensures var m' := Touched(declared, rank, m, t);
            && m.asked <= m'.asked && m.wrong <= m'.wrong <= m'.asked
            && (forall u :: u in m.asked ==> (u in m'.wrong <==> u in m.wrong))
            && (forall u :: u in m'.asked && u !in m.asked ==> u == t || rank(u) < rank(t))
            && (m.wrong == {} ==> m'.wrong == {})
            && (ListOf(declared, t) != [] ==> t in m'.asked)
    decreases rank(t)
  {
    if t !in m.asked && ListOf(declared, t) != [] {
      TouchedFrame(declared, rank, m, ListOf(declared, t)[0]);
    }
  }

  // ---------------------------------------------------------------- what the marks say of the arrays

  /** What the marks of a type say of its list `l`, its line and its declared parents. */
  predicate Says(line: seq<string>, parents: seq<string>, asked: bool, wrong: bool, l: seq<string>) {
    if parents == [] then !asked
    else if !asked then l == parents
    else
      && (forall a :: a in line ==> a in l)
      && (|line| == 1 ==> l == parents)
      && (if wrong then |line| >= 2 && Dedup(l) != line
          else Dedup(l) == line && (|line| >= 2 ==> EndsAbove(l, parents[0])))
  }

  /** The stored array `l` of `u` is as the marks say; whoever is above an asked type is asked too. */
  ghost predicate Marked(declared: Arrays, rank: Rank, m: Marks, u: string, l: seq<string>)
    requires Ranked(declared, rank)
  {
    && Says(Line(declared, rank, u), ListOf(declared, u), u in m.asked, u in m.wrong, l)
    && (u in m.asked ==> ParentAsked(declared, m, ListOf(declared, u)))
  }

  predicate ParentAsked(declared: Arrays, m: Marks, parents: seq<string>) {
    parents != [] ==> Settled(declared, m, parents[0])
  }

  /** Asking for `x` marks nothing new. */
  predicate Settled(declared: Arrays, m: Marks, x: string) {
    x in m.asked || ListOf(declared, x) == []
  }

  /** The list does not end with the parent. */
  predicate EndsAbove(l: seq<string>, p: string) {
    l != [] && l[|l| - 1] != p
  }

  ghost predicate AnswersAbove(declared: Arrays, rank: Rank, t: string, list: seq<string>)
    requires Ranked(declared, rank)
  {
    |Line(declared, rank, t)| >= 2 && ListOf(declared, t) != [] ==> EndsAbove(list, ListOf(declared, t)[0])
  }

  /** Only types with a parent are marked. */
  ghost predicate WellMarked(declared: Arrays, m: Marks) {
    m.wrong <= m.asked && forall u :: u in m.asked ==> ListOf(declared, u) != []
  }

  ghost predicate MarkedBut(declared: Arrays, rank: Rank, arrays: Arrays, m: Marks, busy: set<string>) {
    && Covers(declared, rank, arrays) && SingleInheritance(declared) && WellMarked(declared, m)
    && forall u :: u in declared && u !in busy ==> Marked(declared, rank, m, u, arrays[u])
  }

  /** Marks of other types do not matter. */
  lemma MarkedSame(declared: Arrays, rank: Rank, m: Marks, m': Marks, u: string, l: seq<string>)
    requires Ranked(declared, rank) && Marked(declared, rank, m, u, l)
    requires m.asked <= m'.asked && (u in m'.asked <==> u in m.asked) && (u in m'.wrong <==> u in m.wrong)
    ensures Marked(declared, rank, m', u, l)
  {
  }

  /** A call leaves the arrays as the marks after it say, and its answer does not end with the parent. */
  lemma {:induction false} AskMarks(declared: Arrays, rank: Rank, arrays: Arrays, m: Marks, t: string, busy: set<string>)
    requires MarkedBut(declared, rank, arrays, m, busy) && forall z :: z in busy ==> rank(t) < rank(z)
    ensures var r := ParentTypes(arrays, rank, t);
            && MarkedBut(declared, rank, r.arrays, Touched(declared, rank, m, t), busy)
            && AnswersAbove(declared, rank, t, r.list)
    decreases rank(t), 1, 0
  {
    AnswerMembers(declared, rank, arrays, t);
    if ListOf(declared, t) == [] {
      NothingAsked(declared, rank, arrays, t);
    } else if t !in m.asked {
      FirstAsk(declared, rank, arrays, m, t, busy);
    } else {
      AskAgain(declared, rank, arrays, m, t, busy);
    }
  }

  lemma NothingAsked(declared: Arrays, rank: Rank, arrays: Arrays, t: string)
    requires Covers(declared, rank, arrays) && ListOf(declared, t) == []
    ensures ParentTypes(arrays, rank, t) == Answer(arrays, []) && Line(declared, rank, t) == []
  {
    if t in arrays {
      assert CoversType(declared, rank, t, arrays[t]);
      if arrays[t] != [] { assert arrays[t][0] in Line(declared, rank, t); }
    }
  }

  /** One turn of the loop. */
  lemma {:induction false} PushOne(arrays: Arrays, rank: Rank, t: string, i: nat, n: nat)
    requires Ranked(arrays, rank) && t in arrays && i < n <= |arrays[t]|
    ensures var up := ParentTypes(arrays, rank, arrays[t][i]); var arrays' := up.arrays[t := arrays[t] + up.list];
            && rank(arrays[t][i]) < rank(t)
            && Touches(arrays, rank, t, arrays')
            && PushParents(arrays, rank, t, i, n) == PushParents(arrays', rank, t, i + 1, n)
  {
    assert arrays[t][i] in arrays[t];
    PushKeepsRank(arrays, rank, t, arrays[t][i], ParentTypes(arrays, rank, arrays[t][i]));
  }

  /** The list of a first call: the parent, then the answer of the parent. */
  lemma {:induction false} FirstList(arrays: Arrays, rank: Rank, t: string, p: string)
    requires Ranked(arrays, rank) && t in arrays && arrays[t] == [p]
    ensures var up := ParentTypes(arrays, rank, p);
            ParentTypes(arrays, rank, t) == Answer(up.arrays[t := [p] + up.list], [p] + up.list)
  {
    PushOne(arrays, rank, t, 0, 1);
    var up := ParentTypes(arrays, rank, p);
    var arrays' := up.arrays[t := [p] + up.list];
    assert PushParents(arrays', rank, t, 1, 1) == Answer(arrays', arrays'[t]);
  }

  lemma {:induction false} FirstAsk(declared: Arrays, rank: Rank, arrays: Arrays, m: Marks, t: string, busy: set<string>)
    requires MarkedBut(declared, rank, arrays, m, busy) && forall z :: z in busy ==> rank(t) < rank(z)
    requires ListOf(declared, t) != [] && t !in m.asked
    ensures var r := ParentTypes(arrays, rank, t);
            && MarkedBut(declared, rank, r.arrays, Touched(declared, rank, m, t), busy)
            && AnswersAbove(declared, rank, t, r.list)
    decreases rank(t), 0, 1
  {
    var p := ListOf(declared, t)[0];
    LineOfOne(declared, rank, t);
    assert Marked(declared, rank, m, t, arrays[t]);
    assert arrays[t] == [p];
    FirstList(arrays, rank, t, p);
    AnswerMembers(declared, rank, arrays, t);
    AnswerMembers(declared, rank, arrays, p);
    AskMarks(declared, rank, arrays, m, p, busy);
    TouchedFrame(declared, rank, m, p);
    ParentMarks(declared, rank, m, p, busy, ParentTypes(arrays, rank, p));
    var wrong := p in Touched(declared, rank, m, p).wrong;
    FirstOrder(Line(declared, rank, t), Line(declared, rank, p), p, ParentTypes(arrays, rank, p).list, wrong);
    OneMoreMarked(declared, rank, Touched(declared, rank, m, p), t, p, busy, ParentTypes(arrays, rank, p).arrays, ParentTypes(arrays, rank, t).list);
  }

  /** After a call for the parent its mark says whether its answer is in the order of its line. */
  lemma ParentMarks(declared: Arrays, rank: Rank, m: Marks, p: string, busy: set<string>, up: Answer)
    requires Ranked(declared, rank)
    requires MarkedBut(declared, rank, up.arrays, Touched(declared, rank, m, p), busy) && p !in busy
    requires ListOf(declared, p) != [] ==> p in Touched(declared, rank, m, p).asked
    requires up.list == ListOf(up.arrays, p) && forall a :: a in up.list <==> a in Line(declared, rank, p)
    ensures p in Touched(declared, rank, m, p).wrong <==> Dedup(up.list) != Line(declared, rank, p)
  {
    if ListOf(declared, p) == [] {
      NothingAbove(declared, rank, p);
      SomeMember(up.list);
      assert Dedup([]) == [];
    } else {
      assert Marked(declared, rank, Touched(declared, rank, m, p), p, up.arrays[p]);
    }
  }

  lemma OneMoreMarked(declared: Arrays, rank: Rank, above: Marks, t: string, p: string, busy: set<string>, arrays: Arrays, l: seq<string>)
    requires MarkedBut(declared, rank, arrays, above, busy) && t !in above.asked && ListOf(declared, t) == [p]
    requires Covers(declared, rank, arrays[t := l]) && Settled(declared, above, p)
    requires Says(Line(declared, rank, t), [p], true, p in above.wrong, l)
    ensures MarkedBut(declared, rank, arrays[t := l], Marks(above.asked + {t}, if p in above.wrong then above.wrong + {t} else above.wrong), busy)
  {
    var m' := Marks(above.asked + {t}, if p in above.wrong then above.wrong + {t} else above.wrong);
    forall u | u in declared && u !in busy
      ensures Marked(declared, rank, m', u, arrays[t := l][u])
    {
      if u != t {
        MarkedSame(declared, rank, above, m', u, arrays[u]);
      }
    }
  }

  lemma SomeMember(l: seq<string>)
    ensures l != [] ==> exists a :: a in l
  {
    if l != [] { assert l[0] in l; }
  }

  /** A first call takes over the order of the parent, right or wrong. */
  lemma FirstOrder(line: seq<string>, above: seq<string>, p: string, up: seq<string>, wrong: bool)
    requires line == [p] + above && p !in above && forall a :: a in up <==> a in above
    requires wrong <==> Dedup(up) != above
    ensures Says(line, [p], true, wrong, [p] + up) && (|line| >= 2 ==> EndsAbove([p] + up, p))
  {
    DedupCons(p, up);
    assert (Dedup([p] + up))[1..] == Dedup(up) && line[1..] == above;
    if above == [] {
      SomeMember(up);
      assert up == [] && Dedup([]) == [];
    } else {
      assert above[0] in up;
      assert up[|up| - 1] in up;
    }
  }

  /** Whoever is above a type that has been asked for has been asked for too, or has no parent. */
  lemma {:induction false} AboveAsked(declared: Arrays, rank: Rank, arrays: Arrays, m: Marks, busy: set<string>, t: string, x: string)
    requires MarkedBut(declared, rank, arrays, m, busy) && t in m.asked && t in declared && t !in busy
    requires forall z :: z in busy ==> rank(t) < rank(z)
    requires x in Line(declared, rank, t)
    ensures Settled(declared, m, x)
    decreases rank(t)
  {
    assert Marked(declared, rank, m, t, arrays[t]);
    LineOfOne(declared, rank, t);
    var p := ListOf(declared, t)[0];
    if x != p {
      assert p in declared && p in m.asked by {
        assert x in Line(declared, rank, p);
        if ListOf(declared, p) == [] { NothingAbove(declared, rank, p); }
      }
      AboveAsked(declared, rank, arrays, m, busy, p, x);
    }
  }

  lemma NothingAbove(declared: Arrays, rank: Rank, t: string)
    requires Ranked(declared, rank) && ListOf(declared, t) == []
    ensures Line(declared, rank, t) == []
  {
  }

  /** The elements visited from `i` on are settled, and the tail pushed so far lies above the parent. */
  ghost predicate Visiting(declared: Arrays, rank: Rank, m: Marks, t: string, l: seq<string>, first: seq<string>)
    requires Ranked(declared, rank) && ListOf(declared, t) != []
  {
    && first <= l
    && (forall x :: x in first ==> x in Line(declared, rank, t) && Settled(declared, m, x))
    && (forall a :: a in l[|first|..] ==> a in Line(declared, rank, ListOf(declared, t)[0]))
  }

  lemma VisitingOneMore(declared: Arrays, rank: Rank, m: Marks, t: string, l: seq<string>, first: seq<string>, x: string, more: seq<string>)
    requires Ranked(declared, rank) && SingleInheritance(declared) && ListOf(declared, t) != []
    requires Visiting(declared, rank, m, t, l, first) && x in first
    requires forall a :: a in more ==> a in Line(declared, rank, x)
    ensures Visiting(declared, rank, m, t, l + more, first)
  {
    ParentNotAbove(declared, rank, t, x);
    assert (l + more)[|first|..] == l[|first|..] + more;
  }

  /** Pushing behind the list of a busy type leaves the others as they are. */
  lemma PushKeepsMarks(declared: Arrays, rank: Rank, m: Marks, t: string, busy: set<string>, arrays: Arrays, l: seq<string>)
    requires MarkedBut(declared, rank, arrays, m, busy) && t in busy
    requires Covers(declared, rank, arrays[t := l])
    ensures MarkedBut(declared, rank, arrays[t := l], m, busy)
  {
  }

  lemma SettledMarks(declared: Arrays, rank: Rank, m: Marks, x: string)
    requires Ranked(declared, rank) && Settled(declared, m, x)
    ensures Touched(declared, rank, m, x) == m
  {
  }

  /** What holds while a later call for `t` visits `first`, the list it found. */
  ghost predicate Underway(declared: Arrays, rank: Rank, arrays: Arrays, m: Marks, t: string, busy: set<string>, first: seq<string>) {
    && MarkedBut(declared, rank, arrays, m, busy)
    && t in busy && (forall z :: z in busy ==> rank(t) <= rank(z))
    && t in arrays && ListOf(declared, t) != []
    && Visiting(declared, rank, m, t, arrays[t], first)
  }

  lemma {:induction false} PushOneAgain(declared: Arrays, rank: Rank, arrays: Arrays, m: Marks, t: string, busy: set<string>, x: string, first: seq<string>)
    requires Underway(declared, rank, arrays, m, t, busy, first) && x in first && rank(x) < rank(t)
    ensures var up := ParentTypes(arrays, rank, x);
            && Ranked(up.arrays[t := arrays[t] + up.list], rank)
            && Underway(declared, rank, up.arrays[t := arrays[t] + up.list], m, t, busy, first)
    decreases rank(t), 0, 0
  {
    var l, up := arrays[t], ParentTypes(arrays, rank, x);
    AskMarks(declared, rank, arrays, m, x, busy);
    SettledMarks(declared, rank, m, x);
    AnswerMembers(declared, rank, arrays, x);
    assert up.arrays[t] == l;
    PushKeepsRank(arrays, rank, t, x, up);
    PushCovers(declared, rank, t, x, up, l);
    PushKeepsMarks(declared, rank, m, t, busy, up.arrays, l + up.list);
    VisitingOneMore(declared, rank, m, t, l, first, x, up.list);
  }

  /** The loop of a later call pushes ancestors of the parent only. */
  lemma {:induction false} PushAgain(declared: Arrays, rank: Rank, arrays: Arrays, m: Marks, t: string, busy: set<string>, i: nat, first: seq<string>)
    requires Underway(declared, rank, arrays, m, t, busy, first) && i <= |first|
    ensures Underway(declared, rank, PushParents(arrays, rank, t, i, |first|).arrays, m, t, busy, first)
    decreases rank(t), 0, |first| - i + 1
  {
    if i < |first| {
      var x := first[i];
      assert arrays[t][i] == x && x in first;
      PushOne(arrays, rank, t, i, |first|);
      PushOneAgain(declared, rank, arrays, m, t, busy, x, first);
      var up := ParentTypes(arrays, rank, x);
      PushAgain(declared, rank, up.arrays[t := arrays[t] + up.list], m, t, busy, i + 1, first);
    }
  }

  /** The loop pushes at least one, if it visits somebody who has ancestors. */
  lemma {:induction false} PushGrows(declared: Arrays, rank: Rank, arrays: Arrays, t: string, i: nat, j: nat, n: nat)
    requires Covers(declared, rank, arrays) && t in arrays && i <= j < n <= |arrays[t]|
    requires Line(declared, rank, arrays[t][j]) != []
    ensures |PushParents(arrays, rank, t, i, n).list| > |arrays[t]|
    decreases n - i
  {
    var x := arrays[t][i];
    assert x in arrays[t];
    PushOne(arrays, rank, t, i, n);
    AnswerMembers(declared, rank, arrays, x);
    var up := ParentTypes(arrays, rank, x);
    var arrays' := up.arrays[t := arrays[t] + up.list];
    if i == j {
      assert Line(declared, rank, x)[0] in up.list;
      assert arrays'[t] <= PushParents(arrays', rank, t, i + 1, n).list;
    } else {
      PushCovers(declared, rank, t, x, up, arrays[t]);
      PushGrows(declared, rank, arrays', t, i + 1, j, n);
    }
  }

  /** What was complete keeps its order, and what was pushed behind it does not end with the parent. */
  lemma PushedKeepsOrder(declared: Arrays, rank: Rank, m: Marks, t: string, l: seq<string>, l': seq<string>)
    requires Ranked(declared, rank) && SingleInheritance(declared) && ListOf(declared, t) != [] && t in m.asked
    requires Marked(declared, rank, m, t, l) && Visiting(declared, rank, m, t, l', l)
    requires |Line(declared, rank, t)| >= 2 ==> |l'| > |l|
    ensures Marked(declared, rank, m, t, l') && AnswersAbove(declared, rank, t, l')
  {
    var p := ListOf(declared, t)[0];
    var rest := l'[|l|..];
    assert l' == l + rest;
    LineOfOne(declared, rank, t);
    DedupAbsorbs(l, rest);
    if |l'| > |l| {
      assert rest[|rest| - 1] in rest && l'[|l'| - 1] == rest[|rest| - 1];
    }
  }

  lemma {:induction false} AskAgain(declared: Arrays, rank: Rank, arrays: Arrays, m: Marks, t: string, busy: set<string>)
    requires MarkedBut(declared, rank, arrays, m, busy) && forall z :: z in busy ==> rank(t) < rank(z)
    requires t in m.asked
    ensures var r := ParentTypes(arrays, rank, t);
            && MarkedBut(declared, rank, r.arrays, m, busy)
            && AnswersAbove(declared, rank, t, r.list)
    decreases rank(t), 0, |ListOf(arrays, t)| + 2
  {
    var l := arrays[t];
    var j := StartVisiting(declared, rank, arrays, m, t, busy);
    PushAgain(declared, rank, arrays, m, t, busy + {t}, 0, l);
    var r := PushParents(arrays, rank, t, 0, |l|);
    if |Line(declared, rank, t)| >= 2 { PushGrows(declared, rank, arrays, t, 0, j, |l|); }
    PushedKeepsOrder(declared, rank, m, t, l, r.list);
    NoLongerBusy(declared, rank, m, t, busy, r.arrays);
    AskIsPush(arrays, rank, t);
  }

  lemma {:induction false} AskIsPush(arrays: Arrays, rank: Rank, t: string)
    requires Ranked(arrays, rank) && t in arrays
    ensures ParentTypes(arrays, rank, t) == PushParents(arrays, rank, t, 0, |arrays[t]|)
  {
  }

  lemma NoLongerBusy(declared: Arrays, rank: Rank, m: Marks, t: string, busy: set<string>, arrays: Arrays)
    requires MarkedBut(declared, rank, arrays, m, busy + {t})
    requires t in arrays && Marked(declared, rank, m, t, arrays[t])
    ensures MarkedBut(declared, rank, arrays, m, busy)
  {
    assert forall u :: u in declared && u !in busy ==> u == t || u !in busy + {t};
  }

  lemma StartVisiting(declared: Arrays, rank: Rank, arrays: Arrays, m: Marks, t: string, busy: set<string>) returns (j: nat)
    requires MarkedBut(declared, rank, arrays, m, busy) && forall z :: z in busy ==> rank(t) < rank(z)
    requires t in m.asked
    ensures Visiting(declared, rank, m, t, arrays[t], arrays[t]) && Marked(declared, rank, m, t, arrays[t])
    ensures j < |arrays[t]| && (|Line(declared, rank, t)| >= 2 ==> Line(declared, rank, arrays[t][j]) != [])
  {
    var l, p := arrays[t], ListOf(declared, t)[0];
    LineOfOne(declared, rank, t);
    assert CoversType(declared, rank, t, l) && Marked(declared, rank, m, t, l);
    forall x | x in l
      ensures x in Line(declared, rank, t) && Settled(declared, m, x)
    {
      AboveAsked(declared, rank, arrays, m, busy, t, x);
    }
    assert l[|l|..] == [];
    assert p in l;
    j :| 0 <= j < |l| && l[j] == p;
  }

  // ---------------------------------------------------------------- reversals

  lemma {:induction false} ReversedFirst(l: seq<string>)
    requires l != []
    ensures Reversed(l) != [] && Reversed(l)[0] == l[|l| - 1]
  {
    if |l| > 1 {
      ReversedFirst(l[1..]);
    }
  }

  /** A list that does not end with the parent begins with another type when it is reversed. */
  lemma ReversedSays(line: seq<string>, p: string, wrong: bool, l: seq<string>)
    requires Says(line, [p], true, wrong, l) && line != [] && line[0] == p
    requires |line| >= 2 ==> EndsAbove(l, p)
    ensures Says(line, [p], true, wrong || |line| >= 2, Reversed(l))
  {
    ReversedMembers(l);
    if |line| >= 2 {
      ReversedFirst(l);
      DedupFirst(Reversed(l));
    } else {
      assert l[1..] == [];
      assert Reversed(l) == Reversed([]) + [p] == [p];
    }
  }

  lemma {:induction false} UseMarks(declared: Arrays, rank: Rank, arrays: Arrays, m: Marks, use: Use)
    requires MarkedBut(declared, rank, arrays, m, {})
    ensures MarkedBut(declared, rank, After(arrays, rank, use), MarksAfter(declared, rank, m, use), {})
  {
    AskMarks(declared, rank, arrays, m, use.t, {});
    TouchedFrame(declared, rank, m, use.t);
    if use.Reverses? && use.t in arrays {
      UseCovers(declared, rank, arrays, use);
      ReverseMarks(declared, rank, Touched(declared, rank, m, use.t), use.t, ParentTypes(arrays, rank, use.t).arrays);
    } else if use.Reverses? {
      NothingAbove(declared, rank, use.t);
    }
  }

  lemma {:induction false} ReverseMarks(declared: Arrays, rank: Rank, m: Marks, t: string, arrays: Arrays)
    requires MarkedBut(declared, rank, arrays, m, {}) && t in arrays
    requires AnswersAbove(declared, rank, t, arrays[t]) && (ListOf(declared, t) != [] ==> t in m.asked)
    requires Covers(declared, rank, arrays[t := Reversed(arrays[t])])
    ensures var m' := if |Line(declared, rank, t)| >= 2 then m.(wrong := m.wrong + {t}) else m;
            MarkedBut(declared, rank, arrays[t := Reversed(arrays[t])], m', {})
  {
    if ListOf(declared, t) == [] {
      NothingAbove(declared, rank, t);
      assert CoversType(declared, rank, t, arrays[t]);
      SomeMember(arrays[t]);
      assert arrays[t := Reversed(arrays[t])] == arrays;
    } else {
      LineOfOne(declared, rank, t);
      var l := arrays[t];
      var m' := if |Line(declared, rank, t)| >= 2 then m.(wrong := m.wrong + {t}) else m;
      assert Marked(declared, rank, m, t, l);
      ReversedSays(Line(declared, rank, t), ListOf(declared, t)[0], t in m.wrong, l);
      ReplacedMarks(declared, rank, m, m', t, arrays, Reversed(l));
    }
  }

  lemma ReplacedMarks(declared: Arrays, rank: Rank, m: Marks, m': Marks, t: string, arrays: Arrays, l: seq<string>)
    requires MarkedBut(declared, rank, arrays, m, {}) && t in m.asked
    requires Covers(declared, rank, arrays[t := l])
    requires m'.asked == m.asked && m.wrong <= m'.wrong <= m.wrong + {t}
    requires Says(Line(declared, rank, t), ListOf(declared, t), true, t in m'.wrong, l)
    ensures MarkedBut(declared, rank, arrays[t := l], m', {})
  {
    forall u | u in declared
      ensures Marked(declared, rank, m', u, arrays[t := l][u])
    {
      assert Marked(declared, rank, m, u, arrays[u]);
      if u != t {
        MarkedSame(declared, rank, m, m', u, arrays[u]);
      }
    }
  }

  /** After every history the stored arrays are as the marks of the history say. */
  lemma {:induction false} HistoryMarks(declared: Arrays, rank: Rank, uses: seq<Use>)
    requires Ranked(declared, rank) && SingleInheritance(declared)
    ensures MarkedBut(declared, rank, History(declared, rank, uses), MarksOf(declared, rank, uses), {})
  {
    if uses == [] {
      DeclaredCovers(declared, rank);
      forall u | u in declared
        ensures Marked(declared, rank, Marks({}, {}), u, declared[u])
      {
      }
    } else {
      var before := uses[..|uses| - 1];
      HistoryMarks(declared, rank, before);
      UseMarks(declared, rank, History(declared, rank, before), MarksOf(declared, rank, before), uses[|uses| - 1]);
    }
  }

  // ---------------------------------------------------------------- the exact condition

  /** The type and its ancestors, nearest first. */
  ghost function Chain(declared: Arrays, rank: Rank, t: string): seq<string>
    requires Ranked(declared, rank)
  {
    [t] + Line(declared, rank, t)
  }

  /** One of the first `n` uses asks for `x` or for a descendant of `x`. */
  ghost predicate Reached(declared: Arrays, rank: Rank, uses: seq<Use>, n: nat, x: string)
    requires Ranked(declared, rank) && n <= |uses|
  {
    exists j :: 0 <= j < n && x in Chain(declared, rank, uses[j].t)
  }

  /** Use `i` reverses the `n`-th type of the chain of `t` before anybody has asked for the type below it. */
  ghost predicate SpoiltBy(declared: Arrays, rank: Rank, uses: seq<Use>, t: string, i: nat, n: nat)
    requires Ranked(declared, rank) && i < |uses|
  {
    var chain := Chain(declared, rank, t);
    && n < |chain| && uses[i] == Reverses(chain[n]) && |Line(declared, rank, chain[n])| >= 2
    && (n > 0 ==> !Reached(declared, rank, uses, i, chain[n - 1]))
  }

  ghost predicate Spoilt(declared: Arrays, rank: Rank, uses: seq<Use>, t: string)
    requires Ranked(declared, rank)
  {
    exists i, n :: 0 <= i < |uses| && 0 <= n && SpoiltBy(declared, rank, uses, t, i, n)
  }

  /** The next call for `t` answers in another order than the line. */
  ghost predicate Wrong(declared: Arrays, rank: Rank, uses: seq<Use>, t: string)
    requires Ranked(declared, rank)
  {
    t in Touched(declared, rank, MarksOf(declared, rank, uses), t).wrong
  }

  /** Whoever is above an asked type is asked, too. */
  ghost predicate ClosedMarks(declared: Arrays, m: Marks) {
    WellMarked(declared, m) && forall u :: u in m.asked ==> ParentAsked(declared, m, ListOf(declared, u))
  }

  lemma {:induction false} ClosedAbove(declared: Arrays, rank: Rank, m: Marks, t: string, x: string)
    requires Ranked(declared, rank) && SingleInheritance(declared) && ClosedMarks(declared, m)
    requires t in m.asked && x in Line(declared, rank, t)
    ensures Settled(declared, m, x)
    decreases rank(t)
  {
    LineOfOne(declared, rank, t);
    var p := ListOf(declared, t)[0];
    if x != p && ListOf(declared, p) != [] {
      ClosedAbove(declared, rank, m, p, x);
    } else if x != p {
      NothingAbove(declared, rank, p);
    }
  }

  /** A call marks the type and its ancestors, each as a call for itself would. */
  lemma {:induction false} TouchedExactly(declared: Arrays, rank: Rank, m: Marks, x: string, t: string)
    requires Ranked(declared, rank) && SingleInheritance(declared) && ClosedMarks(declared, m)
    ensures var m' := Touched(declared, rank, m, x);
            && ClosedMarks(declared, m')
            && (t in m'.asked <==> t in m.asked || (ListOf(declared, t) != [] && t in Chain(declared, rank, x)))
            && (t in m'.asked ==> (t in m'.wrong <==> t in Touched(declared, rank, m, t).wrong))
    decreases rank(x)
  {
    if x in m.asked {
      if t in Line(declared, rank, x) { ClosedAbove(declared, rank, m, x, t); }
    } else if ListOf(declared, x) == [] {
      NothingAbove(declared, rank, x);
    } else {
      var p := ListOf(declared, x)[0];
      LineOfOne(declared, rank, x);
      TouchedExactly(declared, rank, m, p, t);
      TouchedExactly(declared, rank, m, p, p);
      TouchedFrame(declared, rank, m, p);
    }
  }

  lemma {:induction false} MarksAreClosed(declared: Arrays, rank: Rank, uses: seq<Use>)
    requires Ranked(declared, rank) && SingleInheritance(declared)
    ensures ClosedMarks(declared, MarksOf(declared, rank, uses))
  {
    if uses != [] {
      var before, use := uses[..|uses| - 1], uses[|uses| - 1];
      MarksAreClosed(declared, rank, before);
      TouchedExactly(declared, rank, MarksOf(declared, rank, before), use.t, use.t);
      if |Line(declared, rank, use.t)| >= 2 && ListOf(declared, use.t) == [] {
        NothingAbove(declared, rank, use.t);
      }
    }
  }

  /** The last use changes the mark of `t` if it reaches `t`, and spoils it if it reverses `t`. */
  lemma {:induction false} LastUseMarks(declared: Arrays, rank: Rank, uses: seq<Use>, t: string)
    requires Ranked(declared, rank) && SingleInheritance(declared) && uses != []
    ensures var before, use := uses[..|uses| - 1], uses[|uses| - 1];
            var m, m' := MarksOf(declared, rank, before), MarksOf(declared, rank, uses);
            && (t in m'.asked <==> t in m.asked || (ListOf(declared, t) != [] && t in Chain(declared, rank, use.t)))
            && (t in m'.asked ==> (Wrong(declared, rank, uses, t) <==> Wrong(declared, rank, before, t)
                                                                       || (use == Reverses(t) && |Line(declared, rank, t)| >= 2)))
  {
    var before, use := uses[..|uses| - 1], uses[|uses| - 1];
    MarksAreClosed(declared, rank, before);
    TouchedExactly(declared, rank, MarksOf(declared, rank, before), use.t, t);
  }

  /** A type that was never asked for takes over the order of its parent. */
  lemma WrongLikeParent(declared: Arrays, rank: Rank, uses: seq<Use>, t: string)
    requires Ranked(declared, rank) && SingleInheritance(declared) && ListOf(declared, t) != []
    requires t !in MarksOf(declared, rank, uses).asked
    ensures Wrong(declared, rank, uses, t) <==> Wrong(declared, rank, uses, ListOf(declared, t)[0])
  {
    MarksAreClosed(declared, rank, uses);
    LineOfOne(declared, rank, t);
    TouchedFrame(declared, rank, MarksOf(declared, rank, uses), ListOf(declared, t)[0]);
  }

  /** The marked types are those reached. */
  lemma {:induction false} AskedExactly(declared: Arrays, rank: Rank, uses: seq<Use>, t: string)
    requires Ranked(declared, rank) && SingleInheritance(declared)
    ensures t in MarksOf(declared, rank, uses).asked <==> ListOf(declared, t) != [] && Reached(declared, rank, uses, |uses|, t)
  {
    if uses != [] {
      var before := uses[..|uses| - 1];
      AskedExactly(declared, rank, before, t);
      LastUseMarks(declared, rank, uses, t);
      ReachedBefore(declared, rank, uses, |uses| - 1, t);
      ReachedOneMore(declared, rank, uses, t);
    }
  }

  lemma ReachedBefore(declared: Arrays, rank: Rank, uses: seq<Use>, n: nat, x: string)
    requires Ranked(declared, rank) && n < |uses|
    ensures Reached(declared, rank, uses[..|uses| - 1], n, x) <==> Reached(declared, rank, uses, n, x)
  {
    var before := uses[..|uses| - 1];
    assert forall j :: 0 <= j < n ==> before[j] == uses[j];
  }

  lemma ReachedOneMore(declared: Arrays, rank: Rank, uses: seq<Use>, x: string)
    requires Ranked(declared, rank) && uses != []
    ensures Reached(declared, rank, uses, |uses|, x)
       <==> Reached(declared, rank, uses, |uses| - 1, x) || x in Chain(declared, rank, uses[|uses| - 1].t)
  {
    if x in Chain(declared, rank, uses[|uses| - 1].t) {
      assert Reached(declared, rank, uses, |uses|, x);
    }
  }

  /** Whoever reaches `t` reaches the chain of `t`. */
  lemma ReachedUp(declared: Arrays, rank: Rank, uses: seq<Use>, n: nat, t: string, x: string)
    requires Ranked(declared, rank) && n <= |uses|
    requires Reached(declared, rank, uses, n, t) && x in Chain(declared, rank, t)
    ensures Reached(declared, rank, uses, n, x)
  {
    var j :| 0 <= j < n && t in Chain(declared, rank, uses[j].t);
    if x != t && t != uses[j].t {
      LineClosed(declared, rank, uses[j].t, t, x);
    }
    assert x in Chain(declared, rank, uses[j].t);
  }

  /** A type that has been reached is spoilt from then on by its own reversals only. */
  lemma SpoiltLast(declared: Arrays, rank: Rank, uses: seq<Use>, t: string)
    requires Ranked(declared, rank) && uses != [] && Reached(declared, rank, uses, |uses|, t)
    ensures var before, use := uses[..|uses| - 1], uses[|uses| - 1];
            Spoilt(declared, rank, uses, t) <==> Spoilt(declared, rank, before, t)
                                                 || (use == Reverses(t) && |Line(declared, rank, t)| >= 2)
  {
    var last := |uses| - 1;
    var before, use, chain := uses[..last], uses[last], Chain(declared, rank, t);
    forall i: nat, n: nat | i < last
      ensures SpoiltBy(declared, rank, before, t, i, n) <==> SpoiltBy(declared, rank, uses, t, i, n)
    {
      if 0 < n < |chain| { ReachedBefore(declared, rank, uses, i, chain[n - 1]); }
    }
    if Spoilt(declared, rank, uses, t) {
      var i, n :| 0 <= i < |uses| && 0 <= n && SpoiltBy(declared, rank, uses, t, i, n);
      if i == last && n > 0 {
        NotTheLast(declared, rank, uses, t, n);
      }
      assert i < last ==> SpoiltBy(declared, rank, before, t, i, n);
    }
    if use == Reverses(t) && |Line(declared, rank, t)| >= 2 {
      assert SpoiltBy(declared, rank, uses, t, last, 0);
    }
    if Spoilt(declared, rank, before, t) {
      var i, n :| 0 <= i < |before| && 0 <= n && SpoiltBy(declared, rank, before, t, i, n);
      assert SpoiltBy(declared, rank, uses, t, i, n);
    }
  }

  lemma NotTheLast(declared: Arrays, rank: Rank, uses: seq<Use>, t: string, n: nat)
    requires Ranked(declared, rank) && uses != [] && Reached(declared, rank, uses, |uses|, t) && n > 0
    ensures !SpoiltBy(declared, rank, uses, t, |uses| - 1, n)
  {
    var last, chain := |uses| - 1, Chain(declared, rank, t);
    if n < |chain| && uses[last] == Reverses(chain[n]) {
      LineBelow(declared, rank, t);
      LineBelow(declared, rank, chain[n]);
      assert chain[n] in Line(declared, rank, t);
      assert t !in Chain(declared, rank, uses[last].t);
      ReachedOneMore(declared, rank, uses, t);
      ReachedUp(declared, rank, uses, last, t, chain[n - 1]);
    }
  }

  /** A type that has not been reached is spoilt as its parent is. */
  lemma SpoiltLikeParent(declared: Arrays, rank: Rank, uses: seq<Use>, t: string)
    requires Ranked(declared, rank) && SingleInheritance(declared) && ListOf(declared, t) != []
    requires !Reached(declared, rank, uses, |uses|, t)
    ensures Spoilt(declared, rank, uses, t) <==> Spoilt(declared, rank, uses, ListOf(declared, t)[0])
  {
    var p := ListOf(declared, t)[0];
    LineOfOne(declared, rank, t);
    var chain, above := Chain(declared, rank, t), Chain(declared, rank, p);
    assert chain == [t] + above;
    assert forall j :: 0 <= j < |uses| ==> t !in Chain(declared, rank, uses[j].t);
    forall i: nat, n: nat | i < |uses|
      ensures !SpoiltBy(declared, rank, uses, t, i, 0)
      ensures SpoiltBy(declared, rank, uses, t, i, n + 1) <==> SpoiltBy(declared, rank, uses, p, i, n)
    {
      assert n < |above| ==> chain[n + 1] == above[n];
    }
    if Spoilt(declared, rank, uses, t) {
      var i, n :| 0 <= i < |uses| && 0 <= n && SpoiltBy(declared, rank, uses, t, i, n);
      assert SpoiltBy(declared, rank, uses, p, i, n - 1);
    }
    if Spoilt(declared, rank, uses, p) {
      var i, n :| 0 <= i < |uses| && 0 <= n && SpoiltBy(declared, rank, uses, p, i, n);
      assert SpoiltBy(declared, rank, uses, t, i, n + 1);
    }
  }

  lemma {:induction false} WrongExactly(declared: Arrays, rank: Rank, uses: seq<Use>, t: string)
    requires Ranked(declared, rank) && SingleInheritance(declared)
    ensures Wrong(declared, rank, uses, t) <==> Spoilt(declared, rank, uses, t)
    decreases |uses|, rank(t)
  {
    AskedExactly(declared, rank, uses, t);
    if ListOf(declared, t) == [] {
      NothingAbove(declared, rank, t);
      MarksAreClosed(declared, rank, uses);
    } else if t in MarksOf(declared, rank, uses).asked {
      WrongExactly(declared, rank, uses[..|uses| - 1], t);
      LastUseMarks(declared, rank, uses, t);
      SpoiltLast(declared, rank, uses, t);
    } else {
      var p := ListOf(declared, t)[0];
      LineOfOne(declared, rank, t);
      WrongLikeParent(declared, rank, uses, t);
      SpoiltLikeParent(declared, rank, uses, t);
      WrongExactly(declared, rank, uses, p);
    }
  }

  /**
   * With single inheritance and after any history of calls and in-place reversals, the next answer for `t` lists
   * the ancestors nearest first if and only if nobody has reversed a list of two or more on the chain of `t`
   * before the type below it on the chain was first reached.
   */
  lemma OrderExactly(declared: Arrays, rank: Rank, uses: seq<Use>, t: string)
    requires Ranked(declared, rank) && SingleInheritance(declared)
    ensures Dedup(ParentTypes(History(declared, rank, uses), rank, t).list) == Line(declared, rank, t)
       <==> !Spoilt(declared, rank, uses, t)
  {
    var arrays, m := History(declared, rank, uses), MarksOf(declared, rank, uses);
    HistoryMarks(declared, rank, uses);
    AskMarks(declared, rank, arrays, m, t, {});
    TouchedFrame(declared, rank, m, t);
    WrongExactly(declared, rank, uses, t);
    if ListOf(declared, t) == [] {
      NothingAsked(declared, rank, arrays, t);
      NothingAbove(declared, rank, t);
      MarksAreClosed(declared, rank, uses);
      assert Dedup([]) == [];
    } else {
      assert Marked(declared, rank, Touched(declared, rank, m, t), t, ParentTypes(arrays, rank, t).list);
    }
  }

  /** Nobody has reversed a list of two or more. */
  ghost predicate NoLongReversal(declared: Arrays, rank: Rank, uses: seq<Use>)
    requires Ranked(declared, rank)
  {
    forall u :: u in uses && u.Reverses? ==> |Line(declared, rank, u.t)| <= 1
  }

  /** Every type is answered in the order of its line exactly as long as nobody has reversed a list of two or more. */
  lemma AllInOrderExactly(declared: Arrays, rank: Rank, uses: seq<Use>)
    requires Ranked(declared, rank) && SingleInheritance(declared)
    ensures (forall t :: Dedup(ParentTypes(History(declared, rank, uses), rank, t).list) == Line(declared, rank, t))
       <==> NoLongReversal(declared, rank, uses)
  {
    forall t
      ensures Dedup(ParentTypes(History(declared, rank, uses), rank, t).list) == Line(declared, rank, t)
         <==> !Spoilt(declared, rank, uses, t)
    {
      OrderExactly(declared, rank, uses, t);
    }
    if !NoLongReversal(declared, rank, uses) {
      var u :| u in uses && u.Reverses? && |Line(declared, rank, u.t)| >= 2;
      ReversalSpoils(declared, rank, uses, u.t);
    }
    if NoLongReversal(declared, rank, uses) {
      forall t { NeverSpoilt(declared, rank, uses, t); }
    }
  }

  lemma NeverSpoilt(declared: Arrays, rank: Rank, uses: seq<Use>, t: string)
    requires Ranked(declared, rank) && NoLongReversal(declared, rank, uses)
    ensures !Spoilt(declared, rank, uses, t)
  {
    forall i: nat, n: nat | i < |uses|
      ensures !SpoiltBy(declared, rank, uses, t, i, n)
    {
      assert uses[i] in uses;
    }
  }

  lemma ReversalSpoils(declared: Arrays, rank: Rank, uses: seq<Use>, t: string)
    requires Ranked(declared, rank) && Reverses(t) in uses && |Line(declared, rank, t)| >= 2
    ensures Spoilt(declared, rank, uses, t)
  {
    var i :| 0 <= i < |uses| && uses[i] == Reverses(t);
    assert SpoiltBy(declared, rank, uses, t, i, 0);
  }

  lemma {:induction false} LinesShorten(declared: Arrays, rank: Rank, t: string, x: string)
    requires Ranked(declared, rank) && SingleInheritance(declared) && x in Line(declared, rank, t)
    ensures |Line(declared, rank, x)| < |Line(declared, rank, t)|
    decreases rank(t)
  {
    if ListOf(declared, t) == [] {
      NothingAbove(declared, rank, t);
    } else {
      LineOfOne(declared, rank, t);
      if x != ListOf(declared, t)[0] {
        LinesShorten(declared, rank, ListOf(declared, t)[0], x);
      }
    }
  }

  /** After the list of every type in `names` has been reversed, only those with at most one ancestor are in order. */
  lemma SweepLeavesInOrder(declared: Arrays, rank: Rank, uses: seq<Use>, names: seq<string>, t: string)
    requires Ranked(declared, rank) && SingleInheritance(declared) && t in names
    ensures Dedup(ParentTypes(History(declared, rank, uses + Sweeps(names)), rank, t).list) == Line(declared, rank, t)
       <==> |Line(declared, rank, t)| <= 1
  {
    var all := uses + Sweeps(names);
    OrderExactly(declared, rank, all, t);
    if |Line(declared, rank, t)| >= 2 {
      var i :| 0 <= i < |names| && names[i] == t;
      assert all[|uses| + i] == Reverses(t);
      ReversalSpoils(declared, rank, all, t);
    } else {
      ShortNeverSpoilt(declared, rank, all, t);
    }
  }

  lemma ShortNeverSpoilt(declared: Arrays, rank: Rank, uses: seq<Use>, t: string)
    requires Ranked(declared, rank) && SingleInheritance(declared) && |Line(declared, rank, t)| <= 1
    ensures !Spoilt(declared, rank, uses, t)
  {
    var chain := Chain(declared, rank, t);
    forall i: nat, n: nat | i < |uses|
      ensures !SpoiltBy(declared, rank, uses, t, i, n)
    {
      if 0 < n < |chain| { LinesShorten(declared, rank, t, chain[n]); }
    }
  }

  /**
   * As long as nobody reverses a list of two or more, the stored list of a type grows exactly if the type
   * has two or more ancestors and is reached, and from then on it ends with an ancestor other than the parent.
   */
  lemma GrownExactly(declared: Arrays, rank: Rank, uses: seq<Use>, t: string)
    requires Ranked(declared, rank) && SingleInheritance(declared) && t in declared
    requires NoLongReversal(declared, rank, uses)
    ensures var l := History(declared, rank, uses)[t];
            && (l != declared[t] <==> |Line(declared, rank, t)| >= 2 && Reached(declared, rank, uses, |uses|, t))
            && (l != declared[t] ==> declared[t] != [] && EndsAbove(l, declared[t][0]))
            && forall a :: a in l ==> a in Line(declared, rank, t)
  {
    var arrays, m := History(declared, rank, uses), MarksOf(declared, rank, uses);
    HistoryMarks(declared, rank, uses);
    AskedExactly(declared, rank, uses, t);
    NotWrong(declared, rank, uses, t);
    assert CoversType(declared, rank, t, arrays[t]) && Marked(declared, rank, m, t, arrays[t]);
    if declared[t] == [] {
      NothingAbove(declared, rank, t);
      SomeMember(arrays[t]);
    } else {
      LineOfOne(declared, rank, t);
      NotWrongAsked(declared, rank, m, t);
      GrownSays(Line(declared, rank, t), declared[t][0], t in m.asked, arrays[t]);
    }
  }

  lemma NotWrongAsked(declared: Arrays, rank: Rank, m: Marks, t: string)
    requires Ranked(declared, rank) && m.wrong <= m.asked && t !in Touched(declared, rank, m, t).wrong
    ensures t !in m.wrong
  {
    TouchedFrame(declared, rank, m, t);
  }

  lemma GrownSays(line: seq<string>, p: string, asked: bool, l: seq<string>)
    requires line != [] && Says(line, [p], asked, false, l)
    ensures l != [p] <==> |line| >= 2 && asked
    ensures l != [p] ==> EndsAbove(l, p)
  {
  }

  lemma NotWrong(declared: Arrays, rank: Rank, uses: seq<Use>, t: string)
    requires Ranked(declared, rank) && SingleInheritance(declared) && NoLongReversal(declared, rank, uses)
    ensures !Wrong(declared, rank, uses, t)
  {
    NeverSpoilt(declared, rank, uses, t);
    WrongExactly(declared, rank, uses, t);
  }

  /** The stored list of a type holds the declared parents until the type is reached, and all its ancestors from then on. */
  lemma MembersExactly(declared: Arrays, rank: Rank, uses: seq<Use>, t: string)
    requires Ranked(declared, rank) && SingleInheritance(declared) && t in declared
    ensures forall a :: a in History(declared, rank, uses)[t]
                   <==> if Reached(declared, rank, uses, |uses|, t) then StrictAncestor(declared, t, a) else a in declared[t]
  {
    var arrays, m := History(declared, rank, uses), MarksOf(declared, rank, uses);
    HistoryMarks(declared, rank, uses);
    AskedExactly(declared, rank, uses, t);
    LineIsAncestors(declared, rank, t);
    assert CoversType(declared, rank, t, arrays[t]) && Marked(declared, rank, m, t, arrays[t]);
    if declared[t] == [] {
      NothingAbove(declared, rank, t);
    }
  }
}
