/** Lists read by first occurrence: only the first copy of an element matters. */
module FirstOccurrence {

  /** The elements of `s` in order of first occurrence, later copies dropped. */
  function Dedup(s: seq<string>): seq<string> {
    if s == [] then []
    else
      var last := s[|s| - 1];
      var front := s[..|s| - 1];
      if last in front then Dedup(front) else Dedup(front) + [last]
  }

  lemma {:induction false} DedupMembers(s: seq<string>)
    ensures forall x :: x in Dedup(s) <==> x in s
  {
    if s != [] {
      var front := s[..|s| - 1];
      assert s == front + [s[|s| - 1]];
      DedupMembers(front);
    }
  }

  lemma DedupSameMembers(a: seq<string>, b: seq<string>)
    requires Dedup(a) == Dedup(b)
    ensures forall x :: x in a <==> x in b
  {
    DedupMembers(a);
    DedupMembers(b);
  }

  /** The elements of `s` that do not occur in `seen`. */
  function Without(s: seq<string>, seen: seq<string>): seq<string> {
    if s == [] then []
    else
      var last := s[|s| - 1];
      Without(s[..|s| - 1], seen) + if last in seen then [] else [last]
  }

  lemma {:induction false} WithoutSameMembers(s: seq<string>, a: seq<string>, b: seq<string>)
    requires forall x :: x in a <==> x in b
    ensures Without(s, a) == Without(s, b)
  {
    if s != [] {
      WithoutSameMembers(s[..|s| - 1], a, b);
    }
  }

  lemma {:induction false} WithoutNothing(s: seq<string>, seen: seq<string>)
    requires forall x :: x in s ==> x in seen
    ensures Without(s, seen) == []
  {
    if s != [] {
      assert s[|s| - 1] in seen;
      WithoutNothing(s[..|s| - 1], seen);
    }
  }

  /** De-duplicating a concatenation keeps the first part and what is new in the second. */
  lemma {:induction false} DedupConcat(a: seq<string>, b: seq<string>)
    ensures Dedup(a + b) == Dedup(a) + Without(Dedup(b), a)
  {
    if b == [] {
      assert a + b == a;
    } else {
      var last := b[|b| - 1];
      var front := b[..|b| - 1];
      assert b == front + [last];
      assert (a + b)[..|a + b| - 1] == a + front;
      DedupConcat(a, front);
      if last !in front {
        assert Dedup(b) == Dedup(front) + [last];
        assert Dedup(b)[..|Dedup(b)| - 1] == Dedup(front);
      }
    }
  }

  /** Replacing either part of a concatenation by a list with the same first occurrences changes nothing. */
  lemma DedupCongruence(a: seq<string>, a': seq<string>, b: seq<string>, b': seq<string>)
    requires Dedup(a) == Dedup(a') && Dedup(b) == Dedup(b')
    ensures Dedup(a + b) == Dedup(a' + b')
  {
    DedupConcat(a, b);
    DedupConcat(a', b');
    DedupSameMembers(a, a');
    WithoutSameMembers(Dedup(b), a, a');
  }

  /** Appending elements that already occur changes no first occurrence. */
  lemma DedupAbsorbs(a: seq<string>, b: seq<string>)
    requires forall x :: x in b ==> x in a
    ensures Dedup(a + b) == Dedup(a)
  {
    DedupConcat(a, b);
    DedupMembers(b);
    WithoutNothing(Dedup(b), a);
  }

  lemma {:induction false} WithoutAbsent(s: seq<string>, seen: seq<string>)
    requires forall x :: x in s ==> x !in seen
    ensures Without(s, seen) == s
  {
    if s != [] {
      assert s[|s| - 1] in s;
      WithoutAbsent(s[..|s| - 1], seen);
      assert s == s[..|s| - 1] + [s[|s| - 1]];
    }
  }

  /** A new element in front stays in front. */
  lemma DedupCons(x: string, s: seq<string>)
    requires x !in s
    ensures Dedup([x] + s) == [x] + Dedup(s)
  {
    DedupConcat([x], s);
    DedupMembers(s);
    WithoutAbsent(Dedup(s), [x]);
    assert [x][..0] == [] && Dedup([x]) == [x];
  }

  lemma {:induction false} DedupFirst(s: seq<string>)
    requires s != []
    ensures Dedup(s) != [] && Dedup(s)[0] == s[0]
  {
    if |s| > 1 {
      DedupFirst(s[..|s| - 1]);
    }
  }

  lemma {:induction false} DedupDistinct(s: seq<string>)
    ensures forall i, j :: 0 <= i < j < |Dedup(s)| ==> Dedup(s)[i] != Dedup(s)[j]
  {
    if s != [] {
      DedupDistinct(s[..|s| - 1]);
      DedupMembers(s[..|s| - 1]);
    }
  }
}
