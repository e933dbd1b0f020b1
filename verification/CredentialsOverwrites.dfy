/**
 * Overwrites of credential data. Every type may carry a raw record; a record is inherited along
 * `extends`. `setData` caches merged records for some types and leaves others raw, and `get` merges
 * the cached records of a type and its ancestors once more.
 */
module CredentialsOverwrites {
  import opened Options
  import opened FirstOccurrence
  import CT = CredentialTypes
  import CO = CredentialOrder

  datatype Value = Undefined | Null | Text(text: string) | Other(token: int)

  type Record = map<string, Value>
  type Overwrites = map<string, Record>
  type Types = CT.Types

  function RecordOf(data: Overwrites, t: string): Record {
    if t in data then data[t] else map[]
  }

  function Lookup(data: Overwrites, t: string): Option<Record> {
    if t in data then Some(data[t]) else None
  }

  /** `a` says nothing that `b` does not say. */
  ghost predicate Within(a: Record, b: Record) {
    forall k :: k in a ==> k in b && a[k] == b[k]
  }

  // ---------------------------------------------------------------- merging a list of types

  /** Records assigned from the last type of the list to the first: an earlier type wins. */
  function Merge(types: seq<string>, data: Overwrites): Record {
    if types == [] then map[] else Merge(types[1..], data) + RecordOf(data, types[0])
  }

  lemma {:induction false} MergeConcat(a: seq<string>, b: seq<string>, data: Overwrites)
    ensures Merge(a + b, data) == Merge(b, data) + Merge(a, data)
  {
    if a == [] {
      assert a + b == b;
    } else {
      MergeConcat(a[1..], b, data);
      assert (a + b)[1..] == a[1..] + b;
      OverlayAssociative(Merge(b, data), Merge(a[1..], data), RecordOf(data, a[0]));
    }
  }

  lemma OverlayAssociative(a: Record, b: Record, c: Record)
    ensures (a + b) + c == a + (b + c)
  {
  }

  /** The first type of the list that has a key decides its value. */
  lemma {:induction false} MergeFirst(types: seq<string>, data: Overwrites, i: nat, k: string)
    requires i < |types| && k in RecordOf(data, types[i])
    requires forall j :: 0 <= j < i ==> k !in RecordOf(data, types[j])
    ensures k in Merge(types, data) && Merge(types, data)[k] == RecordOf(data, types[i])[k]
  {
    if i > 0 {
      assert k !in RecordOf(data, types[0]);
      MergeFirst(types[1..], data, i - 1, k);
    }
  }

  /** A merged key has a first type in the list that holds it. */
  lemma {:induction false} MergeHolder(types: seq<string>, data: Overwrites, k: string) returns (i: nat)
    requires k in Merge(types, data)
    ensures i < |types| && k in RecordOf(data, types[i])
    ensures forall j :: 0 <= j < i ==> k !in RecordOf(data, types[j])
    ensures Merge(types, data)[k] == RecordOf(data, types[i])[k]
  {
    if k in RecordOf(data, types[0]) {
      i := 0;
    } else {
      var n := MergeHolder(types[1..], data, k);
      i := n + 1;
    }
  }

  lemma MergeHas(types: seq<string>, data: Overwrites, t: string, k: string)
    requires t in types && k in RecordOf(data, t)
    ensures k in Merge(types, data)
  {
    if types[0] != t {
      MergeHas(types[1..], data, t, k);
    }
  }

  lemma MergeAppend(front: seq<string>, last: string, data: Overwrites)
    ensures Merge(front + [last], data) == RecordOf(data, last) + Merge(front, data)
  {
    MergeConcat(front, [last], data);
    assert [last][1..] == [];
    assert Merge([last], data) == Merge([], data) + RecordOf(data, last) == RecordOf(data, last);
  }

  /** A later copy of a type adds nothing to a merge. */
  lemma MergeCopy(front: seq<string>, last: string, data: Overwrites)
    requires last in front
    ensures Merge(front + [last], data) == Merge(front, data)
  {
    MergeAppend(front, last, data);
    forall k | k in RecordOf(data, last) ensures k in Merge(front, data) {
      MergeHas(front, data, last, k);
    }
  }

  /** Only first occurrences matter to a merge. */
  lemma {:induction false} MergeDedup(types: seq<string>, data: Overwrites)
    ensures Merge(types, data) == Merge(Dedup(types), data)
  {
    if types != [] {
      var front, last := types[..|types| - 1], types[|types| - 1];
      assert types == front + [last];
      MergeDedup(front, data);
      if last in front {
        MergeCopy(front, last, data);
      } else {
        MergeAppend(front, last, data);
        MergeAppend(Dedup(front), last, data);
      }
    }
  }

  // ---------------------------------------------------------------- full resolution

  /** The record a type should answer with: its own over those of its parents. */
  ghost function Full(declared: CT.Arrays, rank: CT.Rank, raw: Overwrites, t: string): Record
    requires CT.Ranked(declared, rank)
    decreases rank(t), 1, 0
  {
    FullOf(declared, rank, raw, CT.ListOf(declared, t), rank(t)) + RecordOf(raw, t)
  }

  ghost function FullOf(declared: CT.Arrays, rank: CT.Rank, raw: Overwrites, parents: seq<string>, bound: nat): Record
    requires CT.Ranked(declared, rank) && CT.AllBelow(parents, rank, bound)
    decreases bound, 0, |parents|
  {
    if parents == [] then map[]
    else FullOf(declared, rank, raw, parents[1..], bound) + Full(declared, rank, raw, parents[0])
  }

  lemma {:induction false} FullOfHas(declared: CT.Arrays, rank: CT.Rank, raw: Overwrites, parents: seq<string>, bound: nat, p: string, k: string)
    requires CT.Ranked(declared, rank) && CT.AllBelow(parents, rank, bound)
    requires p in parents && k in Full(declared, rank, raw, p)
    ensures k in FullOf(declared, rank, raw, parents, bound)
  {
    if parents[0] != p {
      FullOfHas(declared, rank, raw, parents[1..], bound, p, k);
    }
  }

  lemma {:induction false} FullOfHolder(declared: CT.Arrays, rank: CT.Rank, raw: Overwrites, parents: seq<string>, bound: nat, k: string)
    returns (p: string)
    requires CT.Ranked(declared, rank) && CT.AllBelow(parents, rank, bound)
    requires k in FullOf(declared, rank, raw, parents, bound)
    ensures p in parents && k in Full(declared, rank, raw, p)
    ensures FullOf(declared, rank, raw, parents, bound)[k] == Full(declared, rank, raw, p)[k]
  {
    if k in Full(declared, rank, raw, parents[0]) {
      p := parents[0];
    } else {
      p := FullOfHolder(declared, rank, raw, parents[1..], bound, k);
    }
  }

  /** Wherever two parents of a type both resolve a key that the type does not set itself, they agree. */
  ghost predicate Coherent(declared: CT.Arrays, rank: CT.Rank, raw: Overwrites) {
    && CT.Ranked(declared, rank)
    && forall t, p, q, k ::
         && p in CT.ListOf(declared, t) && q in CT.ListOf(declared, t)
         && k in Full(declared, rank, raw, p) && k in Full(declared, rank, raw, q)
         && k !in RecordOf(raw, t)
         ==> Full(declared, rank, raw, p)[k] == Full(declared, rank, raw, q)[k]
  }

  lemma SingleInheritanceIsCoherent(declared: CT.Arrays, rank: CT.Rank, raw: Overwrites)
    requires CT.Ranked(declared, rank) && CT.SingleInheritance(declared)
    ensures Coherent(declared, rank, raw)
  {
    forall t, p, q | p in CT.ListOf(declared, t) && q in CT.ListOf(declared, t) ensures p == q {
      assert |declared[t]| <= 1;
    }
  }

  /** What a parent resolves, a child inherits unless it sets the key itself. */
  lemma FullFromParent(declared: CT.Arrays, rank: CT.Rank, raw: Overwrites, t: string, p: string, k: string)
    requires Coherent(declared, rank, raw)
    requires p in CT.ListOf(declared, t) && k in Full(declared, rank, raw, p) && k !in RecordOf(raw, t)
    ensures k in Full(declared, rank, raw, t)
    ensures Full(declared, rank, raw, t)[k] == Full(declared, rank, raw, p)[k]
  {
    var parents := CT.ListOf(declared, t);
    FullOfHas(declared, rank, raw, parents, rank(t), p, k);
    var q := FullOfHolder(declared, rank, raw, parents, rank(t), k);
  }

  /** Every fully resolved key comes from the type or one of its ancestors. */
  lemma {:induction false} FullOrigin(declared: CT.Arrays, rank: CT.Rank, raw: Overwrites, t: string, k: string)
    returns (a: string)
    requires CT.Ranked(declared, rank) && k in Full(declared, rank, raw, t)
    ensures a == t || a in CT.Line(declared, rank, t)
    ensures k in RecordOf(raw, a) && RecordOf(raw, a)[k] == Full(declared, rank, raw, t)[k]
    decreases rank(t)
  {
    if k in RecordOf(raw, t) {
      a := t;
    } else {
      var parents := CT.ListOf(declared, t);
      var p := FullOfHolder(declared, rank, raw, parents, rank(t), k);
      a := FullOrigin(declared, rank, raw, p, k);
      CT.LinesMembers(declared, rank, parents, rank(t));
    }
  }

  // ---------------------------------------------------------------- the line decides

  /** The elements of `s` before the first `x`. */
  ghost function Before(s: seq<string>, x: string): seq<string> {
    if s == [] || s[0] == x then [] else [s[0]] + Before(s[1..], x)
  }

  lemma {:induction false} BeforeConcat(a: seq<string>, b: seq<string>, x: string)
    ensures Before(a + b, x) == if x in a then Before(a, x) else a + Before(b, x)
  {
    if a == [] {
      assert a + b == b;
    } else {
      BeforeConcat(a[1..], b, x);
      assert (a + b)[1..] == a[1..] + b;
    }
  }

  lemma {:induction false} BeforeIndex(s: seq<string>, x: string, i: nat, y: string)
    requires i < |s| && s[i] == x && y in Before(s, x)
    ensures exists j :: 0 <= j < i && s[j] == y
  {
    if s[0] != x && y != s[0] {
      BeforeIndex(s[1..], x, i - 1, y);
      var j :| 0 <= j < i - 1 && s[1..][j] == y;
      assert s[j + 1] == y;
    } else {
      assert s[0] == y;
    }
  }

  /** The first parent whose line holds `x`: what precedes `x` in that line precedes it in all lines. */
  lemma {:induction false} FirstLine(declared: CT.Arrays, rank: CT.Rank, types: seq<string>, bound: nat, x: string)
    returns (p: string)
    requires CT.Ranked(declared, rank) && CT.AllBelow(types, rank, bound)
    requires x in CT.Lines(declared, rank, types, bound)
    ensures p in types && x in CT.Line(declared, rank, p)
    ensures forall y :: y in Before(CT.Line(declared, rank, p), x) ==> y in Before(CT.Lines(declared, rank, types, bound), x)
  {
    var first := CT.Line(declared, rank, types[0]);
    BeforeConcat(first, CT.Lines(declared, rank, types[1..], bound), x);
    if x in first {
      p := types[0];
    } else {
      p := FirstLine(declared, rank, types[1..], bound, x);
    }
  }

  /** If nobody before `x` in the line of `t` sets `k`, then `t` resolves `k` as `x` does. */
  lemma {:induction false} UpTheLine(declared: CT.Arrays, rank: CT.Rank, raw: Overwrites, t: string, x: string, k: string)
    requires Coherent(declared, rank, raw)
    requires x in CT.Line(declared, rank, t) && k in Full(declared, rank, raw, x)
    requires k !in RecordOf(raw, t)
    requires forall y :: y in Before(CT.Line(declared, rank, t), x) ==> k !in RecordOf(raw, y)
    ensures k in Full(declared, rank, raw, t)
    ensures Full(declared, rank, raw, t)[k] == Full(declared, rank, raw, x)[k]
    decreases rank(t)
  {
    var parents := CT.ListOf(declared, t);
    if x in parents {
      FullFromParent(declared, rank, raw, t, x, k);
    } else {
      var lines := CT.Lines(declared, rank, parents, rank(t));
      BeforeConcat(parents, lines, x);
      var p := FirstLine(declared, rank, parents, rank(t), x);
      assert p in parents + Before(lines, x);
      UpTheLine(declared, rank, raw, p, x, k);
      FullFromParent(declared, rank, raw, t, p, k);
    }
  }

  // ---------------------------------------------------------------- what the cache keeps

  /** Every cached record holds its raw record and nothing beyond the full resolution. */
  ghost predicate Between(declared: CT.Arrays, rank: CT.Rank, raw: Overwrites, data: Overwrites)
    requires CT.Ranked(declared, rank)
  {
    && data.Keys == raw.Keys
    && forall t :: t in raw ==> Within(raw[t], data[t]) && Within(data[t], Full(declared, rank, raw, t))
  }

  lemma RawBetween(declared: CT.Arrays, rank: CT.Rank, raw: Overwrites)
    requires CT.Ranked(declared, rank)
    ensures Between(declared, rank, raw, raw)
  {
  }

  /** A merged key is resolved, with the merged value. */
  lemma MergedIsFull(declared: CT.Arrays, rank: CT.Rank, raw: Overwrites, data: Overwrites, t: string, k: string)
    requires Coherent(declared, rank, raw) && Between(declared, rank, raw, data)
    requires k in Merge([t] + CT.Line(declared, rank, t), data)
    ensures k in Full(declared, rank, raw, t)
    ensures Full(declared, rank, raw, t)[k] == Merge([t] + CT.Line(declared, rank, t), data)[k]
  {
    var line := CT.Line(declared, rank, t);
    var list := [t] + line;
    var i := MergeHolder(list, data, k);
    var x := list[i];
    assert Within(data[x], Full(declared, rank, raw, x));
    if i > 0 {
      assert list[0] == t && x == line[i - 1];
      NobodyBefore(list, line, data, raw, i, k);
      UpTheLine(declared, rank, raw, t, x, k);
    }
  }

  lemma NobodyBefore(list: seq<string>, line: seq<string>, data: Overwrites, raw: Overwrites, i: nat, k: string)
    requires 0 < i < |list| && list == [list[0]] + line
    requires forall j :: 0 <= j < i ==> k !in RecordOf(data, list[j])
    requires data.Keys == raw.Keys && forall t :: t in raw ==> Within(raw[t], data[t])
    ensures k !in RecordOf(raw, list[0])
    ensures forall y :: y in Before(line, list[i]) ==> k !in RecordOf(raw, y)
  {
    forall y | y in Before(line, list[i]) ensures k !in RecordOf(raw, y) {
      BeforeIndex(line, list[i], i - 1, y);
      var j :| 0 <= j < i - 1 && line[j] == y;
      assert list[j + 1] == y;
    }
  }

  /** Merging any cache over the line of a type gives its full resolution. */
  lemma MergeIsFull(declared: CT.Arrays, rank: CT.Rank, raw: Overwrites, data: Overwrites, t: string)
    requires Coherent(declared, rank, raw) && Between(declared, rank, raw, data)
    ensures Merge([t] + CT.Line(declared, rank, t), data) == Full(declared, rank, raw, t)
  {
    var list := [t] + CT.Line(declared, rank, t);
    var merged, full := Merge(list, data), Full(declared, rank, raw, t);
    forall k | k in merged ensures k in full && merged[k] == full[k] {
      MergedIsFull(declared, rank, raw, data, t, k);
    }
    forall k | k in full ensures k in merged {
      var a := FullOrigin(declared, rank, raw, t, k);
      MergeHas(list, data, a, k);
    }
  }

  // ---------------------------------------------------------------- getOverwrites

  datatype Resolution = Resolution(resolved: seq<string>, overwrites: Option<Record>)

  /** `getOverwrites`: which types it marks as resolved, and the record it returns. It stores nothing. */
  function Resolve(types: Types, ghost rank: CT.Rank, data: Overwrites, resolved: seq<string>, t: string): Resolution
    requires CT.Ranked(CT.Declared(types), rank)
    decreases rank(t), 1, 0
  {
    if t in resolved then Resolution(resolved, Lookup(data, t))
    else if t !in types then Resolution(resolved, None)
    else if types[t].None? then Resolution(resolved + [t], Lookup(data, t))
    else
      assert CT.ListOf(CT.Declared(types), t) == types[t].value;
      var up := ResolveAll(types, rank, data, resolved, types[t].value, rank(t), map[]);
      Resolution(up.resolved + [t], Some(up.overwrites.GetOr(map[]) + RecordOf(data, t)))
  }

  /** The loop over the parents, assigning each record to those before it. */
  function ResolveAll(types: Types, ghost rank: CT.Rank, data: Overwrites, resolved: seq<string>,
                      parents: seq<string>, ghost bound: nat, merged: Record): Resolution
    requires CT.Ranked(CT.Declared(types), rank) && CT.AllBelow(parents, rank, bound)
    decreases bound, 0, |parents|
  {
    if parents == [] then Resolution(resolved, Some(merged))
    else
      var r := Resolve(types, rank, data, resolved, parents[0]);
      ResolveAll(types, rank, data, r.resolved, parents[1..], bound, merged + r.overwrites.GetOr(map[]))
  }

  lemma ResolveAllStep(types: Types, rank: CT.Rank, data: Overwrites, resolved: seq<string>,
                       parents: seq<string>, i: nat, bound: nat, merged: Record)
    requires CT.Ranked(CT.Declared(types), rank) && CT.AllBelow(parents, rank, bound) && i < |parents|
    ensures var r := Resolve(types, rank, data, resolved, parents[i]);
            (ResolveAll(types, rank, data, resolved, parents[i..], bound, merged)
             == ResolveAll(types, rank, data, r.resolved, parents[i + 1..], bound, merged + r.overwrites.GetOr(map[])))
  {
    assert parents[i..][1..] == parents[i + 1..];
  }

  /** A record put together from what some of `parents` resolve. */
  ghost predicate FromParents(declared: CT.Arrays, rank: CT.Rank, raw: Overwrites, parents: seq<string>, merged: Record)
    requires CT.Ranked(declared, rank)
  {
    forall k :: k in merged ==>
      exists p :: p in parents && k in Full(declared, rank, raw, p) && Full(declared, rank, raw, p)[k] == merged[k]
  }

  /** A resolved record lies between the cached record and the full resolution. */
  lemma {:induction false} ResolveBetween(types: Types, rank: CT.Rank, raw: Overwrites, data: Overwrites, resolved: seq<string>, t: string)
    requires var declared := CT.Declared(types); Coherent(declared, rank, raw) && Between(declared, rank, raw, data)
    ensures var r := Resolve(types, rank, data, resolved, t);
            r.overwrites.Some? ==>
              && Within(RecordOf(data, t), r.overwrites.value)
              && Within(r.overwrites.value, Full(CT.Declared(types), rank, raw, t))
    decreases rank(t), 1, 0
  {
    if t !in resolved && t in types && types[t].Some? {
      var declared, parents := CT.Declared(types), types[t].value;
      assert CT.ListOf(declared, t) == parents;
      ResolveAllBetween(types, rank, raw, data, resolved, parents, rank(t), parents, map[]);
      var merged := ResolveAll(types, rank, data, resolved, parents, rank(t), map[]).overwrites.value;
      var full := Full(declared, rank, raw, t);
      forall k | k in merged + RecordOf(data, t) ensures k in full && (merged + RecordOf(data, t))[k] == full[k] {
        if k !in RecordOf(data, t) {
          var p :| p in parents && k in Full(declared, rank, raw, p) && Full(declared, rank, raw, p)[k] == merged[k];
          FullFromParent(declared, rank, raw, t, p, k);
        }
      }
    }
  }

  lemma {:induction false} ResolveAllBetween(types: Types, rank: CT.Rank, raw: Overwrites, data: Overwrites, resolved: seq<string>,
                                             parents: seq<string>, bound: nat, all: seq<string>, merged: Record)
    requires var declared := CT.Declared(types); Coherent(declared, rank, raw) && Between(declared, rank, raw, data)
    requires CT.AllBelow(parents, rank, bound) && forall p :: p in parents ==> p in all
    requires FromParents(CT.Declared(types), rank, raw, all, merged)
    ensures var r := ResolveAll(types, rank, data, resolved, parents, bound, merged);
            r.overwrites.Some? && FromParents(CT.Declared(types), rank, raw, all, r.overwrites.value)
    decreases bound, 0, |parents|
  {
    if parents != [] {
      var p := parents[0];
      ResolveBetween(types, rank, raw, data, resolved, p);
      var r := Resolve(types, rank, data, resolved, p);
      AssignFromParent(CT.Declared(types), rank, raw, all, merged, p, r.overwrites.GetOr(map[]));
      ResolveAllBetween(types, rank, raw, data, r.resolved, parents[1..], bound, all, merged + r.overwrites.GetOr(map[]));
    }
  }

  lemma AssignFromParent(declared: CT.Arrays, rank: CT.Rank, raw: Overwrites, all: seq<string>, merged: Record, p: string, more: Record)
    requires CT.Ranked(declared, rank) && FromParents(declared, rank, raw, all, merged)
    requires p in all && Within(more, Full(declared, rank, raw, p))
    ensures FromParents(declared, rank, raw, all, merged + more)
  {
    forall k | k in merged + more
      ensures exists q :: q in all && k in Full(declared, rank, raw, q) && Full(declared, rank, raw, q)[k] == (merged + more)[k]
    {
      if k in more {
        assert p in all && k in Full(declared, rank, raw, p) && Full(declared, rank, raw, p)[k] == (merged + more)[k];
      }
    }
  }

  // ---------------------------------------------------------------- setData

  datatype Cache = Cache(data: Overwrites, resolved: seq<string>)

  /** One turn of the loop in `setData`: a non-empty resolved record replaces the stored one. */
  function Visit(types: Types, ghost rank: CT.Rank, cache: Cache, t: string): Cache
    requires CT.Ranked(CT.Declared(types), rank)
  {
    var r := Resolve(types, rank, cache.data, cache.resolved, t);
    Cache(if r.overwrites.Some? && r.overwrites.value != map[] then cache.data[t := r.overwrites.value] else cache.data,
          r.resolved)
  }

  /** The loop in `setData` over the types in the order given. */
  function VisitAll(types: Types, ghost rank: CT.Rank, cache: Cache, order: seq<string>): Cache
    requires CT.Ranked(CT.Declared(types), rank)
    decreases |order|
  {
    if order == [] then cache else VisitAll(types, rank, Visit(types, rank, cache, order[0]), order[1..])
  }

  lemma VisitBetween(types: Types, rank: CT.Rank, raw: Overwrites, cache: Cache, t: string)
    requires var declared := CT.Declared(types); Coherent(declared, rank, raw) && Between(declared, rank, raw, cache.data)
    requires t in raw
    ensures Between(CT.Declared(types), rank, raw, Visit(types, rank, cache, t).data)
  {
    ResolveBetween(types, rank, raw, cache.data, cache.resolved, t);
    var data' := Visit(types, rank, cache, t).data;
    forall u | u in raw ensures Within(raw[u], data'[u]) && Within(data'[u], Full(CT.Declared(types), rank, raw, u)) {
      assert Within(raw[u], cache.data[u]);
    }
  }

  lemma {:induction false} VisitAllBetween(types: Types, rank: CT.Rank, raw: Overwrites, cache: Cache, order: seq<string>)
    requires var declared := CT.Declared(types); Coherent(declared, rank, raw) && Between(declared, rank, raw, cache.data)
    requires forall t :: t in order ==> t in raw
    ensures Between(CT.Declared(types), rank, raw, VisitAll(types, rank, cache, order).data)
    decreases |order|
  {
    if order != [] {
      VisitBetween(types, rank, raw, cache, order[0]);
      VisitAllBetween(types, rank, raw, Visit(types, rank, cache, order[0]), order[1..]);
    }
  }

  /** What `setData` stores for the raw overwrites, visiting the types in the order given. */
  function Stored(types: Types, ghost rank: CT.Rank, raw: Overwrites, order: seq<string>): Overwrites
    requires CT.Ranked(CT.Declared(types), rank)
  {
    VisitAll(types, rank, Cache(raw, []), order).data
  }

  // ---------------------------------------------------------------- the answers

  /** `get`: the merge over the type and the list `getParentTypes` returns for it. */
  function AnswerFor(arrays: CT.Arrays, ghost rank: CT.Rank, data: Overwrites, name: string): Record
    requires CT.Ranked(arrays, rank)
  {
    Merge([name] + CT.ParentTypes(arrays, rank, name).list, data)
  }

  /** The next call for `name` lists the ancestors in the order of the line, as far as first occurrences go. */
  ghost predicate InOrder(declared: CT.Arrays, rank: CT.Rank, arrays: CT.Arrays, name: string)
    requires CT.Ranked(declared, rank) && CT.Ranked(arrays, rank)
  {
    Dedup(CT.ParentTypes(arrays, rank, name).list) == Dedup(CT.Line(declared, rank, name))
  }

  /**
   * What a history has to look like for that: nobody reverses an answer, or, with single inheritance,
   * nobody reverses a list on the chain of `name` before the type below it is first reached.
   */
  ghost predicate Undisturbed(declared: CT.Arrays, rank: CT.Rank, uses: seq<CT.Use>, name: string)
    requires CT.Ranked(declared, rank)
  {
    CT.NothingReversed(uses) || (CT.SingleInheritance(declared) && !CO.Spoilt(declared, rank, uses, name))
  }

  lemma UndisturbedIsInOrder(declared: CT.Arrays, rank: CT.Rank, uses: seq<CT.Use>, name: string)
    requires CT.Ranked(declared, rank) && Undisturbed(declared, rank, uses, name)
    ensures InOrder(declared, rank, CT.History(declared, rank, uses), name)
  {
    if CT.NothingReversed(uses) {
      CT.AnswerIsHistoryIndependent(declared, rank, uses, name);
    } else {
      CO.OrderExactly(declared, rank, uses, name);
      CO.LineDistinct(declared, rank, name);
    }
  }

  /** An answer depends on the first occurrences in the list only. */
  lemma {:induction false} GetInOrder(declared: CT.Arrays, rank: CT.Rank, arrays: CT.Arrays, data: Overwrites, name: string)
    requires CT.Ranked(declared, rank) && CT.Ranked(arrays, rank) && InOrder(declared, rank, arrays, name)
    ensures AnswerFor(arrays, rank, data, name) == Merge([name] + CT.Line(declared, rank, name), data)
  {
    var list, line := CT.ParentTypes(arrays, rank, name).list, CT.Line(declared, rank, name);
    DedupCongruence([name], [name], list, line);
    MergeDedup([name] + list, data);
    MergeDedup([name] + line, data);
  }

  /** Earlier calls whose answers nobody reverses do not show in an answer. */
  lemma {:induction false} GetIgnoresHistory(declared: CT.Arrays, rank: CT.Rank, arrays: CT.Arrays, data: Overwrites, name: string)
    requires CT.Consistent(declared, rank, arrays)
    ensures AnswerFor(arrays, rank, data, name) == Merge([name] + CT.Line(declared, rank, name), data)
  {
    CT.CallKeepsConsistent(declared, rank, arrays, name);
    GetInOrder(declared, rank, arrays, data, name);
  }

  /**
   * The main result. When parents agree, the answer for a type is the merge of the raw records
   * along its line, whatever order `setData` visited the types in, although that order decides which
   * records are cached, and whatever undisturbed history has changed the stored arrays.
   */
  lemma CacheIsInvisible(types: Types, rank: CT.Rank, raw: Overwrites, order: seq<string>, uses: seq<CT.Use>, name: string)
    requires Coherent(CT.Declared(types), rank, raw)
    requires Undisturbed(CT.Declared(types), rank, uses, name)
    requires forall t :: t in order ==> t in raw
    ensures var declared := CT.Declared(types);
            var answer := AnswerFor(CT.History(declared, rank, uses), rank, Stored(types, rank, raw, order), name);
            answer == Merge([name] + CT.Line(declared, rank, name), raw) == Full(declared, rank, raw, name)
  {
    var declared := CT.Declared(types);
    UndisturbedIsInOrder(declared, rank, uses, name);
    CacheInOrder(types, rank, raw, order, CT.History(declared, rank, uses), name);
  }

  lemma CacheInOrder(types: Types, rank: CT.Rank, raw: Overwrites, order: seq<string>, arrays: CT.Arrays, name: string)
    requires Coherent(CT.Declared(types), rank, raw)
    requires CT.Ranked(arrays, rank) && InOrder(CT.Declared(types), rank, arrays, name)
    requires forall t :: t in order ==> t in raw
    ensures var declared := CT.Declared(types);
            var answer := AnswerFor(arrays, rank, Stored(types, rank, raw, order), name);
            answer == Merge([name] + CT.Line(declared, rank, name), raw) == Full(declared, rank, raw, name)
  {
    var declared := CT.Declared(types);
    var data := Stored(types, rank, raw, order);
    RawBetween(declared, rank, raw);
    VisitAllBetween(types, rank, raw, Cache(raw, []), order);
    GetInOrder(declared, rank, arrays, data, name);
    MergeIsFull(declared, rank, raw, data, name);
    MergeIsFull(declared, rank, raw, raw, name);
  }

  /**
   * With single inheritance the answer maps a key to the raw overwrite of the nearest type on the chain that has it,
   * unless the history has spoilt the order of the chain.
   */
  lemma NearestAncestorWins(types: Types, rank: CT.Rank, raw: Overwrites, order: seq<string>, uses: seq<CT.Use>, name: string, k: string)
    requires CT.Ranked(CT.Declared(types), rank) && CT.SingleInheritance(CT.Declared(types))
    requires !CO.Spoilt(CT.Declared(types), rank, uses, name)
    requires forall t :: t in order ==> t in raw
    ensures var chain := [name] + CT.Line(CT.Declared(types), rank, name);
            var arrays := CT.History(CT.Declared(types), rank, uses);
            var answer := AnswerFor(arrays, rank, Stored(types, rank, raw, order), name);
            && (k in answer <==> exists i :: 0 <= i < |chain| && k in RecordOf(raw, chain[i]))
            && (forall i :: 0 <= i < |chain| && k in RecordOf(raw, chain[i])
                            && (forall j :: 0 <= j < i ==> k !in RecordOf(raw, chain[j]))
                            ==> k in answer && answer[k] == RecordOf(raw, chain[i])[k])
  {
    var declared := CT.Declared(types);
    SingleInheritanceIsCoherent(declared, rank, raw);
    CacheIsInvisible(types, rank, raw, order, uses, name);
    var chain := [name] + CT.Line(declared, rank, name);
    forall i | 0 <= i < |chain| && k in RecordOf(raw, chain[i]) ensures k in Merge(chain, raw) {
      MergeHas(chain, raw, chain[i], k);
    }
    if k in Merge(chain, raw) {
      var i := MergeHolder(chain, raw, k);
    }
    forall i | 0 <= i < |chain| && k in RecordOf(raw, chain[i]) && (forall j :: 0 <= j < i ==> k !in RecordOf(raw, chain[j]))
      ensures Merge(chain, raw)[k] == RecordOf(raw, chain[i])[k]
    {
      MergeFirst(chain, raw, i, k);
    }
  }

  // ---------------------------------------------------------------- any acyclic relation

  /** Every value of `r` is the raw value of `t` or of one of its ancestors. */
  ghost predicate FromLine(declared: CT.Arrays, rank: CT.Rank, raw: Overwrites, t: string, r: Record)
    requires CT.Ranked(declared, rank)
  {
    forall k :: k in r ==>
      exists a :: a in [t] + CT.Line(declared, rank, t) && k in RecordOf(raw, a) && RecordOf(raw, a)[k] == r[k]
  }

  ghost predicate Sourced(declared: CT.Arrays, rank: CT.Rank, raw: Overwrites, data: Overwrites)
    requires CT.Ranked(declared, rank)
  {
    && data.Keys == raw.Keys
    && forall t :: t in raw ==> Within(raw[t], data[t]) && FromLine(declared, rank, raw, t, data[t])
  }

  lemma FromLineUp(declared: CT.Arrays, rank: CT.Rank, raw: Overwrites, t: string, x: string, r: Record)
    requires CT.Ranked(declared, rank) && x in [t] + CT.Line(declared, rank, t)
    requires FromLine(declared, rank, raw, x, r)
    ensures FromLine(declared, rank, raw, t, r)
  {
    forall k | k in r
      ensures exists a :: a in [t] + CT.Line(declared, rank, t) && k in RecordOf(raw, a) && RecordOf(raw, a)[k] == r[k]
    {
      var a :| a in [x] + CT.Line(declared, rank, x) && k in RecordOf(raw, a) && RecordOf(raw, a)[k] == r[k];
      if x != t && a != x {
        CT.LineClosed(declared, rank, t, x, a);
      }
    }
  }

  lemma FromLineOverlay(declared: CT.Arrays, rank: CT.Rank, raw: Overwrites, t: string, r: Record, r': Record)
    requires CT.Ranked(declared, rank)
    requires FromLine(declared, rank, raw, t, r) && FromLine(declared, rank, raw, t, r')
    ensures FromLine(declared, rank, raw, t, r + r')
  {
    forall k | k in r + r'
      ensures exists a :: a in [t] + CT.Line(declared, rank, t) && k in RecordOf(raw, a) && RecordOf(raw, a)[k] == (r + r')[k]
    {
      assert k in r' || k in r;
    }
  }

  /** The lists that are read hold ancestors only. */
  ghost predicate Ascends(declared: CT.Arrays, rank: CT.Rank, types: Types) {
    && CT.Ranked(declared, rank) && CT.Ranked(CT.Declared(types), rank)
    && forall t :: t in types && types[t].Some? ==> forall p :: p in types[t].value ==> p in CT.Line(declared, rank, t)
  }

  lemma {:induction false} ResolveSourced(declared: CT.Arrays, types: Types, rank: CT.Rank, raw: Overwrites, data: Overwrites, resolved: seq<string>, t: string)
    requires Ascends(declared, rank, types) && Sourced(declared, rank, raw, data)
    ensures var r := Resolve(types, rank, data, resolved, t);
            r.overwrites.Some? ==>
              && Within(RecordOf(data, t), r.overwrites.value)
              && FromLine(declared, rank, raw, t, r.overwrites.value)
    decreases rank(t), 1, 0
  {
    if t !in resolved && t in types && types[t].Some? {
      var parents := types[t].value;
      assert CT.ListOf(CT.Declared(types), t) == parents;
      ResolveAllSourced(declared, types, rank, raw, data, resolved, parents, t, map[]);
      var merged := ResolveAll(types, rank, data, resolved, parents, rank(t), map[]).overwrites.value;
      FromLineOverlay(declared, rank, raw, t, merged, RecordOf(data, t));
    }
  }

  lemma {:induction false} ResolveAllSourced(declared: CT.Arrays, types: Types, rank: CT.Rank, raw: Overwrites, data: Overwrites,
                                             resolved: seq<string>, parents: seq<string>, t: string, merged: Record)
    requires Ascends(declared, rank, types) && Sourced(declared, rank, raw, data)
    requires CT.AllBelow(parents, rank, rank(t)) && forall p :: p in parents ==> p in CT.Line(declared, rank, t)
    requires FromLine(declared, rank, raw, t, merged)
    ensures var r := ResolveAll(types, rank, data, resolved, parents, rank(t), merged);
            r.overwrites.Some? && FromLine(declared, rank, raw, t, r.overwrites.value)
    decreases rank(t), 0, |parents|
  {
    if parents != [] {
      var p := parents[0];
      ResolveSourced(declared, types, rank, raw, data, resolved, p);
      var r := Resolve(types, rank, data, resolved, p);
      FromLineUp(declared, rank, raw, t, p, r.overwrites.GetOr(map[]));
      FromLineOverlay(declared, rank, raw, t, merged, r.overwrites.GetOr(map[]));
      ResolveAllSourced(declared, types, rank, raw, data, r.resolved, parents[1..], t, merged + r.overwrites.GetOr(map[]));
    }
  }

  lemma {:induction false} VisitAllSourced(declared: CT.Arrays, types: Types, rank: CT.Rank, raw: Overwrites, cache: Cache, order: seq<string>)
    requires Ascends(declared, rank, types) && Sourced(declared, rank, raw, cache.data)
    requires forall t :: t in order ==> t in raw
    ensures Sourced(declared, rank, raw, VisitAll(types, rank, cache, order).data)
    decreases |order|
  {
    if order != [] {
      VisitSourced(declared, types, rank, raw, cache, order[0]);
      VisitAllSourced(declared, types, rank, raw, Visit(types, rank, cache, order[0]), order[1..]);
    }
  }

  lemma VisitSourced(declared: CT.Arrays, types: Types, rank: CT.Rank, raw: Overwrites, cache: Cache, t: string)
    requires Ascends(declared, rank, types) && Sourced(declared, rank, raw, cache.data)
    requires t in raw
    ensures Sourced(declared, rank, raw, Visit(types, rank, cache, t).data)
  {
    ResolveSourced(declared, types, rank, raw, cache.data, cache.resolved, t);
    var r := Resolve(types, rank, cache.data, cache.resolved, t).overwrites;
    if r.Some? && r.value != map[] {
      ReplaceSourced(declared, rank, raw, cache.data, t, r.value);
    }
  }

  lemma ReplaceSourced(declared: CT.Arrays, rank: CT.Rank, raw: Overwrites, data: Overwrites, t: string, r: Record)
    requires CT.Ranked(declared, rank) && Sourced(declared, rank, raw, data) && t in raw
    requires Within(data[t], r) && FromLine(declared, rank, raw, t, r)
    ensures Sourced(declared, rank, raw, data[t := r])
  {
    var data' := data[t := r];
    forall u | u in raw ensures Within(raw[u], data'[u]) && FromLine(declared, rank, raw, u, data'[u]) {
      if u != t {
        assert data'[u] == data[u];
      }
    }
  }

  lemma RawSourced(declared: CT.Arrays, rank: CT.Rank, raw: Overwrites)
    requires CT.Ranked(declared, rank)
    ensures Sourced(declared, rank, raw, raw)
  {
    forall t, k | t in raw && k in raw[t]
      ensures exists a :: a in [t] + CT.Line(declared, rank, t) && k in RecordOf(raw, a) && RecordOf(raw, a)[k] == raw[t][k]
    {
      assert t in [t] + CT.Line(declared, rank, t) && k in RecordOf(raw, t);
    }
  }

  /** What is read as `extends` after a history: the shared lists have grown, or have been reversed. */
  ghost function ReadAfter(types: Types, shared: set<string>, rank: CT.Rank, uses: seq<CT.Use>): (r: Types)
    requires CT.Ranked(CT.Declared(types), rank)
    ensures CT.Ranked(CT.Declared(r), rank)
  {
    var arrays := CT.History(CT.Declared(types), rank, uses);
    CT.TypesReadRanked(types, shared, rank, arrays);
    CT.TypesRead(types, shared, arrays)
  }

  lemma ReadAscends(types: Types, shared: set<string>, rank: CT.Rank, uses: seq<CT.Use>)
    requires CT.Ranked(CT.Declared(types), rank)
    ensures Ascends(CT.Declared(types), rank, ReadAfter(types, shared, rank, uses))
  {
    var declared := CT.Declared(types);
    CT.HistoryCovers(declared, rank, uses);
    var arrays, read := CT.History(declared, rank, uses), ReadAfter(types, shared, rank, uses);
    forall t, p | t in read && read[t].Some? && p in read[t].value
      ensures p in CT.Line(declared, rank, t)
    {
      if t in shared && t in arrays {
        assert CT.CoversType(declared, rank, t, arrays[t]);
      } else {
        assert CT.ListOf(declared, t) == types[t].value;
      }
    }
  }

  /** What `setData` caches after the history `uses`. */
  ghost function StoredAfter(types: Types, shared: set<string>, rank: CT.Rank, uses: seq<CT.Use>, raw: Overwrites, order: seq<string>): Overwrites
    requires CT.Ranked(CT.Declared(types), rank)
  {
    Stored(ReadAfter(types, shared, rank, uses), rank, raw, order)
  }

  /** What `get` answers after the history `uses`. */
  ghost function AnswerAfter(types: Types, rank: CT.Rank, uses: seq<CT.Use>, data: Overwrites, name: string): Record
    requires CT.Ranked(CT.Declared(types), rank)
  {
    AnswerFor(CT.History(CT.Declared(types), rank, uses), rank, data, name)
  }

  lemma StoredIsSourced(types: Types, shared: set<string>, rank: CT.Rank, uses: seq<CT.Use>, raw: Overwrites, order: seq<string>)
    requires CT.Ranked(CT.Declared(types), rank) && forall t :: t in order ==> t in raw
    ensures Sourced(CT.Declared(types), rank, raw, StoredAfter(types, shared, rank, uses, raw, order))
  {
    RawSourced(CT.Declared(types), rank, raw);
    ReadAscends(types, shared, rank, uses);
    VisitAllSourced(CT.Declared(types), ReadAfter(types, shared, rank, uses), rank, raw, Cache(raw, []), order);
  }

  /**
   * Without any assumption on how parents agree, on who reverses answers or on who shares its list: the answered
   * keys are those set along the line, a key set by the type itself keeps its raw value, and every value is the
   * raw value of the type or of an ancestor.
   */
  lemma AnswersAreSourced(types: Types, shared: set<string>, rank: CT.Rank, before: seq<CT.Use>, after: seq<CT.Use>,
                          raw: Overwrites, order: seq<string>, name: string)
    requires CT.Ranked(CT.Declared(types), rank)
    requires forall t :: t in order ==> t in raw
    ensures var line := [name] + CT.Line(CT.Declared(types), rank, name);
            var answer := AnswerAfter(types, rank, before + after, StoredAfter(types, shared, rank, before, raw, order), name);
            && (forall a, k :: a in line && k in RecordOf(raw, a) ==> k in answer)
            && (forall k :: k in RecordOf(raw, name) ==> k in answer && answer[k] == RecordOf(raw, name)[k])
            && FromLine(CT.Declared(types), rank, raw, name, answer)
  {
    var declared := CT.Declared(types);
    var data := StoredAfter(types, shared, rank, before, raw, order);
    StoredIsSourced(types, shared, rank, before, raw, order);
    var arrays := CT.History(declared, rank, before + after);
    CT.HistoryCovers(declared, rank, before + after);
    CT.AnswerMembers(declared, rank, arrays, name);
    MergeIsSourced(declared, rank, raw, data, name, CT.ParentTypes(arrays, rank, name).list);
  }

  lemma MergeIsSourced(declared: CT.Arrays, rank: CT.Rank, raw: Overwrites, data: Overwrites, name: string, list: seq<string>)
    requires CT.Ranked(declared, rank) && Sourced(declared, rank, raw, data)
    requires forall a :: a in list <==> a in CT.Line(declared, rank, name)
    ensures var line, answer := [name] + CT.Line(declared, rank, name), Merge([name] + list, data);
            && (forall a, k :: a in line && k in RecordOf(raw, a) ==> k in answer)
            && (forall k :: k in RecordOf(raw, name) ==> k in answer && answer[k] == RecordOf(raw, name)[k])
            && FromLine(declared, rank, raw, name, answer)
  {
    var line := [name] + CT.Line(declared, rank, name);
    var types, answer := [name] + list, Merge([name] + list, data);
    forall a, k | a in line && k in RecordOf(raw, a) ensures k in answer {
      assert a in types;
      MergeHas(types, data, a, k);
    }
    forall k | k in RecordOf(raw, name) ensures answer[k] == RecordOf(raw, name)[k] {
      assert Within(raw[name], data[name]);
      MergeFirst(types, data, 0, k);
    }
    forall k | k in answer
      ensures exists a :: a in line && k in RecordOf(raw, a) && RecordOf(raw, a)[k] == answer[k]
    {
      var i := MergeHolder(types, data, k);
      assert types[i] in types && types[i] in line;
      FromLineUp(declared, rank, raw, name, types[i], data[types[i]]);
      assert k in data[types[i]];
    }
  }

  // ---------------------------------------------------------------- disagreeing parents

  /** `t` extends two types without parents, which both set `k`, differently; `t` does not set it; `c` extends `t`. */
  ghost predicate Disagree(types: Types, raw: Overwrites, c: string, t: string, a: string, b: string, k: string) {
    && |{c, t, a, b}| == 4 && {c, t, a, b} <= types.Keys
    && types[a].None? && types[b].None? && types[t] == Some([a, b]) && types[c] == Some([t])
    && k in RecordOf(raw, a) && k in RecordOf(raw, b) && RecordOf(raw, a)[k] != RecordOf(raw, b)[k]
    && t in raw && k !in raw[t]
  }

  lemma ResolveChildOfTwo(types: Types, rank: CT.Rank, data: Overwrites, t: string, a: string, b: string)
    requires CT.Ranked(CT.Declared(types), rank)
    requires a != b && {t, a, b} <= types.Keys
    requires types[a].None? && types[b].None? && types[t] == Some([a, b])
    ensures var r := Resolve(types, rank, data, [], t);
            t in r.resolved && r.overwrites == Some(RecordOf(data, a) + RecordOf(data, b) + RecordOf(data, t))
  {
    var parents := [a, b];
    assert CT.ListOf(CT.Declared(types), t) == parents && parents[1..] == [b];
    var fromA := map[] + RecordOf(data, a);
    assert fromA == RecordOf(data, a);
    assert Resolve(types, rank, data, [], a) == Resolution([a], Lookup(data, a));
    assert ResolveAll(types, rank, data, [], parents, rank(t), map[])
        == ResolveAll(types, rank, data, [a], [b], rank(t), fromA);
    ResolveLast(types, rank, data, [a], b, rank(t), fromA);
  }

  lemma ResolveLast(types: Types, rank: CT.Rank, data: Overwrites, resolved: seq<string>, b: string, bound: nat, merged: Record)
    requires CT.Ranked(CT.Declared(types), rank) && rank(b) < bound
    requires b in types && types[b].None? && b !in resolved
    ensures ResolveAll(types, rank, data, resolved, [b], bound, merged) == Resolution(resolved + [b], Some(merged + RecordOf(data, b)))
  {
    assert [b][1..] == [];
    assert Resolve(types, rank, data, resolved, b) == Resolution(resolved + [b], Lookup(data, b));
  }

  /** Resolving a type with one parent marks that parent as resolved, and stores nothing for it. */
  lemma ResolveMarksParent(types: Types, rank: CT.Rank, data: Overwrites, c: string, t: string)
    requires CT.Ranked(CT.Declared(types), rank)
    requires {c, t} <= types.Keys && types[c] == Some([t])
    requires t in Resolve(types, rank, data, [], t).resolved
    ensures t in Resolve(types, rank, data, [], c).resolved
  {
    assert CT.ListOf(CT.Declared(types), c) == [t] && [t][1..] == [];
    var r := Resolve(types, rank, data, [], t);
    assert ResolveAll(types, rank, data, [], [t], rank(c), map[]).resolved == r.resolved;
  }

  /** Visiting types other than `t` leaves the record of `t` alone. */
  lemma {:induction false} VisitOthers(types: Types, rank: CT.Rank, cache: Cache, order: seq<string>, t: string)
    requires CT.Ranked(CT.Declared(types), rank) && t !in order
    ensures Lookup(VisitAll(types, rank, cache, order).data, t) == Lookup(cache.data, t)
    decreases |order|
  {
    if order != [] {
      VisitOthers(types, rank, Visit(types, rank, cache, order[0]), order[1..], t);
    }
  }

  lemma DisagreeLine(types: Types, rank: CT.Rank, t: string, a: string, b: string)
    requires CT.Ranked(CT.Declared(types), rank)
    requires {t, a, b} <= types.Keys && types[a].None? && types[b].None? && types[t] == Some([a, b])
    ensures CT.Line(CT.Declared(types), rank, t) == [a, b]
  {
    var declared := CT.Declared(types);
    assert CT.ListOf(declared, a) == [] && CT.ListOf(declared, b) == [];
    assert CT.Line(declared, rank, a) == [];
    assert CT.Line(declared, rank, b) == [];
    assert [a, b][1..] == [b] && [b][1..] == [];
    assert CT.Lines(declared, rank, [b], rank(t)) == [];
  }

  /** Where parents disagree the order of `setData` shows: visiting the child first leaves another answer than visiting the type first. */
  lemma {:induction false} OrderShowsWhereParentsDisagree(types: Types, rank: CT.Rank, raw: Overwrites, arrays: CT.Arrays,
                                       c: string, t: string, a: string, b: string, k: string)
    requires CT.Consistent(CT.Declared(types), rank, arrays) && Disagree(types, raw, c, t, a, b, k)
    ensures var typeFirst := AnswerFor(arrays, rank, Stored(types, rank, raw, [t, c]), t);
            var childFirst := AnswerFor(arrays, rank, Stored(types, rank, raw, [c, t]), t);
            && k in typeFirst && typeFirst[k] == RecordOf(raw, b)[k]
            && k in childFirst && childFirst[k] == RecordOf(raw, a)[k]
            && !Coherent(CT.Declared(types), rank, raw)
  {
    TypeFirstAnswer(types, rank, raw, arrays, c, t, a, b, k);
    ChildFirstAnswer(types, rank, raw, arrays, c, t, a, b, k);
    NotCoherent(types, rank, raw, t, a, b, k);
  }

  lemma TypeFirstAnswer(types: Types, rank: CT.Rank, raw: Overwrites, arrays: CT.Arrays,
                        c: string, t: string, a: string, b: string, k: string)
    requires CT.Consistent(CT.Declared(types), rank, arrays) && Disagree(types, raw, c, t, a, b, k)
    ensures var answer := AnswerFor(arrays, rank, Stored(types, rank, raw, [t, c]), t);
            k in answer && answer[k] == RecordOf(raw, b)[k]
  {
    ResolveChildOfTwo(types, rank, raw, t, a, b);
    TypeFirst(types, rank, raw, c, t, a, b);
    var data := Stored(types, rank, raw, [t, c]);
    GetIgnoresHistory(CT.Declared(types), rank, arrays, data, t);
    MergeFirst([t] + CT.Line(CT.Declared(types), rank, t), data, 0, k);
  }

  lemma ChildFirstAnswer(types: Types, rank: CT.Rank, raw: Overwrites, arrays: CT.Arrays,
                         c: string, t: string, a: string, b: string, k: string)
    requires CT.Consistent(CT.Declared(types), rank, arrays) && Disagree(types, raw, c, t, a, b, k)
    ensures var answer := AnswerFor(arrays, rank, Stored(types, rank, raw, [c, t]), t);
            k in answer && answer[k] == RecordOf(raw, a)[k]
  {
    var data := Stored(types, rank, raw, [c, t]);
    ChildFirstRecords(types, rank, raw, c, t, a, b);
    DisagreeLine(types, rank, t, a, b);
    GetSecond(CT.Declared(types), rank, arrays, data, t, a, b, k);
  }

  lemma ChildFirstRecords(types: Types, rank: CT.Rank, raw: Overwrites, c: string, t: string, a: string, b: string)
    requires CT.Ranked(CT.Declared(types), rank) && |{c, t, a, b}| == 4 && {c, t, a, b} <= types.Keys && t in raw
    requires types[a].None? && types[b].None? && types[t] == Some([a, b]) && types[c] == Some([t])
    ensures var data := Stored(types, rank, raw, [c, t]);
            RecordOf(data, t) == raw[t] && RecordOf(data, a) == RecordOf(raw, a)
  {
    ResolveChildOfTwo(types, rank, raw, t, a, b);
    ResolveMarksParent(types, rank, raw, c, t);
    ChildFirst(types, rank, raw, c, t);
    VisitOthers(types, rank, Cache(raw, []), [c, t], a);
  }

  lemma GetSecond(declared: CT.Arrays, rank: CT.Rank, arrays: CT.Arrays, data: Overwrites, t: string, a: string, b: string, k: string)
    requires CT.Consistent(declared, rank, arrays) && CT.Line(declared, rank, t) == [a, b]
    requires k !in RecordOf(data, t) && k in RecordOf(data, a)
    ensures var answer := AnswerFor(arrays, rank, data, t); k in answer && answer[k] == RecordOf(data, a)[k]
  {
    GetIgnoresHistory(declared, rank, arrays, data, t);
    MergeSecond(t, a, b, data, k);
  }

  lemma MergeSecond(t: string, a: string, b: string, data: Overwrites, k: string)
    requires k !in RecordOf(data, t) && k in RecordOf(data, a)
    ensures var merged := Merge([t] + [a, b], data); k in merged && merged[k] == RecordOf(data, a)[k]
  {
    var line := [t] + [a, b];
    assert line[0] == t && line[1] == a;
    MergeFirst(line, data, 1, k);
  }

  lemma TypeFirst(types: Types, rank: CT.Rank, raw: Overwrites, c: string, t: string, a: string, b: string)
    requires CT.Ranked(CT.Declared(types), rank) && c != t && t in raw && b in raw && raw[b] != map[]
    requires Resolve(types, rank, raw, [], t).overwrites == Some(RecordOf(raw, a) + RecordOf(raw, b) + RecordOf(raw, t))
    ensures Lookup(Stored(types, rank, raw, [t, c]), t) == Some(RecordOf(raw, a) + RecordOf(raw, b) + RecordOf(raw, t))
  {
    var merged := RecordOf(raw, a) + RecordOf(raw, b) + RecordOf(raw, t);
    var k :| k in raw[b];
    assert k in merged;
    assert [t, c][1..] == [c];
    VisitOthers(types, rank, Visit(types, rank, Cache(raw, []), t), [c], t);
  }

  lemma ChildFirst(types: Types, rank: CT.Rank, raw: Overwrites, c: string, t: string)
    requires CT.Ranked(CT.Declared(types), rank) && c != t && t in raw
    requires t in Resolve(types, rank, raw, [], c).resolved
    ensures Lookup(Stored(types, rank, raw, [c, t]), t) == Some(raw[t])
  {
    var cache := Visit(types, rank, Cache(raw, []), c);
    assert Lookup(cache.data, t) == Some(raw[t]);
    assert [c, t][1..] == [t] && [t][1..] == [];
    assert VisitAll(types, rank, cache, [t]) == Visit(types, rank, cache, t);
  }

  lemma NotCoherent(types: Types, rank: CT.Rank, raw: Overwrites, t: string, a: string, b: string, k: string)
    requires CT.Ranked(CT.Declared(types), rank)
    requires {t, a, b} <= types.Keys && types[a].None? && types[b].None? && types[t] == Some([a, b])
    requires k in RecordOf(raw, a) && k in RecordOf(raw, b) && RecordOf(raw, a)[k] != RecordOf(raw, b)[k]
    requires k !in RecordOf(raw, t)
    ensures !Coherent(CT.Declared(types), rank, raw)
  {
    var declared := CT.Declared(types);
    assert a in CT.ListOf(declared, t) && b in CT.ListOf(declared, t);
    assert Full(declared, rank, raw, a) == RecordOf(raw, a) && Full(declared, rank, raw, b) == RecordOf(raw, b);
  }

  // ---------------------------------------------------------------- when the cache is invisible

  /** An order in which `setData` may visit the types of `raw`: each of them once. */
  ghost predicate IsOrder(order: seq<string>, raw: Overwrites) {
    && (forall t :: t in order <==> t in raw)
    && (forall i, j :: 0 <= i < j < |order| ==> order[i] != order[j])
  }

  /** `setData` after the history `before`, then `get` for `name` after `after`: the answer is the merge of the raw records. */
  ghost predicate Invisible(types: Types, shared: set<string>, rank: CT.Rank, before: seq<CT.Use>, after: seq<CT.Use>,
                            raw: Overwrites, order: seq<string>, name: string)
    requires CT.Ranked(CT.Declared(types), rank)
  {
    AnswerAfter(types, rank, before + after, StoredAfter(types, shared, rank, before, raw, order), name)
    == Merge([name] + CT.Line(CT.Declared(types), rank, name), raw)
  }

  /** Whatever the overwrites and the order in which they are visited. */
  ghost predicate InvisibleFor(types: Types, shared: set<string>, rank: CT.Rank, before: seq<CT.Use>, after: seq<CT.Use>, name: string)
    requires CT.Ranked(CT.Declared(types), rank)
  {
    forall raw: Overwrites, order: seq<string> :: IsOrder(order, raw) ==> Invisible(types, shared, rank, before, after, raw, order, name)
  }

  ghost predicate AlwaysInvisible(types: Types, shared: set<string>, rank: CT.Rank, before: seq<CT.Use>, after: seq<CT.Use>)
    requires CT.Ranked(CT.Declared(types), rank)
  {
    forall name :: InvisibleFor(types, shared, rank, before, after, name)
  }

  /** Extended types are recognised, and no type extends another one twice. */
  ghost predicate WellDeclared(types: Types) {
    forall t :: t in types && types[t].Some? ==>
      && (forall p :: p in types[t].value ==> p in types)
      && (forall i, j :: 0 <= i < j < |types[t].value| ==> types[t].value[i] != types[t].value[j])
  }

  /** A recognised type keeps its own keys when it is resolved. */
  lemma OwnKeyResolved(types: Types, rank: CT.Rank, data: Overwrites, resolved: seq<string>, t: string, k: string)
    requires CT.Ranked(CT.Declared(types), rank) && t in types && k in RecordOf(data, t)
    ensures var r := Resolve(types, rank, data, resolved, t);
            r.overwrites.Some? && k in r.overwrites.value && r.overwrites.value[k] == RecordOf(data, t)[k]
  {
  }

  /** In `getOverwrites` the last parent decides: what it sets itself overwrites what the others resolve. */
  lemma {:induction false} LastParentWins(types: Types, rank: CT.Rank, data: Overwrites, resolved: seq<string>,
                                          parents: seq<string>, bound: nat, merged: Record, k: string)
    requires CT.Ranked(CT.Declared(types), rank) && CT.AllBelow(parents, rank, bound) && parents != []
    requires var last := parents[|parents| - 1]; last in types && k in RecordOf(data, last)
    ensures var r := ResolveAll(types, rank, data, resolved, parents, bound, merged).overwrites;
            r.Some? && k in r.value && r.value[k] == RecordOf(data, parents[|parents| - 1])[k]
    decreases |parents|
  {
    var r := Resolve(types, rank, data, resolved, parents[0]);
    var more := merged + r.overwrites.GetOr(map[]);
    if |parents| == 1 {
      OwnKeyResolved(types, rank, data, resolved, parents[0], k);
      assert parents[1..] == [];
      assert ResolveAll(types, rank, data, r.resolved, [], bound, more) == Resolution(r.resolved, Some(more));
    } else {
      LastParentWins(types, rank, data, r.resolved, parents[1..], bound, more, k);
    }
  }

  /** In `get` the first parent decides. */
  lemma FirstParentWins(declared: CT.Arrays, rank: CT.Rank, raw: Overwrites, t: string, k: string)
    requires CT.Ranked(declared, rank) && CT.ListOf(declared, t) != []
    requires k !in RecordOf(raw, t) && k in RecordOf(raw, CT.ListOf(declared, t)[0])
    ensures var merged := Merge([t] + CT.Line(declared, rank, t), raw);
            k in merged && merged[k] == RecordOf(raw, CT.ListOf(declared, t)[0])[k]
  {
    var list := [t] + CT.Line(declared, rank, t);
    assert list[1] == CT.ListOf(declared, t)[0];
    MergeFirst(list, raw, 1, k);
  }

  /** The record of the type that `setData` visits first. */
  lemma VisitedFirst(types: Types, rank: CT.Rank, raw: Overwrites, order: seq<string>, t: string, k: string)
    requires CT.Ranked(CT.Declared(types), rank) && IsOrder(order, raw) && order != [] && order[0] == t
    requires var r := Resolve(types, rank, raw, [], t).overwrites; r.Some? && k in r.value
    ensures Lookup(Stored(types, rank, raw, order), t) == Resolve(types, rank, raw, [], t).overwrites
  {
    var r := Resolve(types, rank, raw, [], t).overwrites.value;
    assert r != map[];
    var cache := Visit(types, rank, Cache(raw, []), t);
    assert t !in order[1..];
    VisitOthers(types, rank, cache, order[1..], t);
  }

  /** The overwrites that tell `first` from `last` below `t`. */
  function Telling(t: string, first: string, last: string): Overwrites {
    map[t := map[], first := map["key" := Other(1)], last := map["key" := Other(2)]]
  }

  /** A type visited first caches what the last type of its list sets. */
  lemma LastIsCached(read: Types, rank: CT.Rank, t: string, first: string, last: string)
    requires CT.Ranked(CT.Declared(read), rank) && t in read && read[t].Some? && last in read
    requires read[t].value != [] && read[t].value[|read[t].value| - 1] == last
    requires t != first && first != last && t != last
    ensures IsOrder([t, first, last], Telling(t, first, last))
    ensures var data := Stored(read, rank, Telling(t, first, last), [t, first, last]);
            "key" in RecordOf(data, t) && RecordOf(data, t)["key"] == Other(2)
  {
    var list, raw, order := read[t].value, Telling(t, first, last), [t, first, last];
    assert CT.ListOf(CT.Declared(read), t) == list;
    assert IsOrder(order, raw);
    LastParentWins(read, rank, raw, [], list, rank(t), map[], "key");
    VisitedFirst(read, rank, raw, order, t, "key");
  }

  /** A list that ends with another type than the first declared parent shows: its last type decides. */
  lemma LastShows(types: Types, shared: set<string>, rank: CT.Rank, before: seq<CT.Use>, after: seq<CT.Use>, t: string, last: string)
    requires CT.Ranked(CT.Declared(types), rank)
    requires t in CT.Declared(types) && CT.Declared(types)[t] != [] && last != CT.Declared(types)[t][0] && last in types
    requires var read := ReadAfter(types, shared, rank, before);
             t in read && read[t].Some? && read[t].value != [] && read[t].value[|read[t].value| - 1] == last
    ensures !InvisibleFor(types, shared, rank, before, after, t)
  {
    var declared, read := CT.Declared(types), ReadAfter(types, shared, rank, before);
    var first := declared[t][0];
    LastBelow(declared, read, rank, t, first, last);
    LastIsCached(read, rank, t, first, last);
    var raw := Telling(t, first, last);
    var data := StoredAfter(types, shared, rank, before, raw, [t, first, last]);
    assert RecordOf(data, t)["key"] == Other(2);
    MergeFirst([t] + CT.ParentTypes(CT.History(declared, rank, before + after), rank, t).list, data, 0, "key");
    FirstParentWins(declared, rank, raw, t, "key");
    assert !Invisible(types, shared, rank, before, after, raw, [t, first, last], t);
  }

  lemma LastBelow(declared: CT.Arrays, read: Types, rank: CT.Rank, t: string, first: string, last: string)
    requires CT.Ranked(declared, rank) && CT.Ranked(CT.Declared(read), rank)
    requires t in declared && first in declared[t]
    requires t in read && read[t].Some? && last in read[t].value
    ensures t != first && t != last
  {
    assert rank(first) < rank(t);
    assert last in CT.Declared(read)[t] && rank(last) < rank(t);
  }

  /** The first of two holders in a list of first occurrences decides. */
  lemma HolderDecides(name: string, a: seq<string>, i: nat, x: string, y: string, data: Overwrites)
    requires name !in a && i < |Dedup(a)| && Dedup(a)[i] == x
    requires (forall j :: 0 <= j < i ==> Dedup(a)[j] != x && Dedup(a)[j] != y)
    requires (forall u :: u in a && u != x && u != y ==> u !in data) && name !in data && "key" in RecordOf(data, x)
    ensures var merged := Merge([name] + a, data); "key" in merged && merged["key"] == RecordOf(data, x)["key"]
  {
    DedupCons(name, a);
    DedupMembers(a);
    MergeDedup([name] + a, data);
    var types := [name] + Dedup(a);
    forall j | 0 <= j < i + 1
      ensures types[j] !in data
    {
      if j > 0 { assert types[j] == Dedup(a)[j - 1] && Dedup(a)[j - 1] in Dedup(a); }
    }
    MergeFirst(types, data, i + 1, "key");
  }

  /** Where two lists with the same members first differ, read by first occurrence. */
  lemma FirstDifference(c: seq<string>, d: seq<string>) returns (i: nat)
    requires Dedup(c) != Dedup(d) && forall u :: u in c <==> u in d
    ensures var a, b := Dedup(c), Dedup(d);
            && i < |a| && i < |b| && a[i] != b[i]
            && (forall j :: 0 <= j < i ==> a[j] != a[i] && a[j] != b[i])
            && (forall j :: 0 <= j < i ==> b[j] != a[i] && b[j] != b[i])
  {
    var a, b := Dedup(c), Dedup(d);
    DedupMembers(c);
    DedupMembers(d);
    DedupDistinct(c);
    DedupDistinct(d);
    i := 0;
    while i < |a| && i < |b| && a[i] == b[i]
      invariant i <= |a| && i <= |b| && forall j :: 0 <= j < i ==> a[j] == b[j]
      invariant (i < |a| ==> a[i] in b) && (i < |b| ==> b[i] in a)
    {
      i := i + 1;
    }
  }

  /** The list of a spoilt order: it has the members of the line, in another order. */
  lemma SpoiltList(declared: CT.Arrays, rank: CT.Rank, uses: seq<CT.Use>, name: string)
    requires CT.Ranked(declared, rank) && CT.SingleInheritance(declared) && CO.Spoilt(declared, rank, uses, name)
    ensures var list, line := CT.ParentTypes(CT.History(declared, rank, uses), rank, name).list, CT.Line(declared, rank, name);
            name !in list && (forall u :: u in list <==> u in line) && Dedup(list) != Dedup(line)
  {
    CO.OrderExactly(declared, rank, uses, name);
    CO.LineDistinct(declared, rank, name);
    CT.HistoryCovers(declared, rank, uses);
    CT.AnswerMembers(declared, rank, CT.History(declared, rank, uses), name);
    CT.LineBelow(declared, rank, name);
  }

  function Two(x: string, y: string): Overwrites {
    map[x := map["key" := Other(1)], y := map["key" := Other(2)]]
  }

  ghost predicate HoldsTwo(data: Overwrites, x: string, y: string) {
    && data.Keys == {x, y}
    && "key" in data[x] && data[x]["key"] == Other(1)
    && "key" in data[y] && data[y]["key"] == Other(2)
  }

  /** Caching adds no type and keeps the raw keys. */
  lemma TwoCached(types: Types, shared: set<string>, rank: CT.Rank, before: seq<CT.Use>, x: string, y: string)
    requires CT.Ranked(CT.Declared(types), rank) && x != y
    ensures IsOrder([x, y], Two(x, y))
    ensures HoldsTwo(StoredAfter(types, shared, rank, before, Two(x, y), [x, y]), x, y)
  {
    StoredIsSourced(types, shared, rank, before, Two(x, y), [x, y]);
    var raw, data := Two(x, y), StoredAfter(types, shared, rank, before, Two(x, y), [x, y]);
    assert Within(raw[x], data[x]) && Within(raw[y], data[y]);
  }

  /** Two lists of the same members in different orders merge two records differently. */
  lemma MergesDiffer(name: string, a: seq<string>, b: seq<string>) returns (x: string, y: string)
    requires name !in a && (forall u :: u in a <==> u in b) && Dedup(a) != Dedup(b)
    ensures x != y
    ensures forall data: Overwrites :: HoldsTwo(data, x, y) ==> Merge([name] + a, data) != Merge([name] + b, Two(x, y))
  {
    var i := FirstDifference(a, b);
    x, y := Dedup(a)[i], Dedup(b)[i];
    DedupMembers(a);
    DedupMembers(b);
    HolderDecides(name, b, i, y, x, Two(x, y));
    forall data: Overwrites | HoldsTwo(data, x, y)
      ensures Merge([name] + a, data) != Merge([name] + b, Two(x, y))
    {
      HolderDecides(name, a, i, x, y, data);
    }
  }

  /** A spoilt order shows, whatever is cached. */
  lemma SpoiltShows(types: Types, shared: set<string>, rank: CT.Rank, before: seq<CT.Use>, after: seq<CT.Use>, name: string)
    requires CT.Ranked(CT.Declared(types), rank) && CT.SingleInheritance(CT.Declared(types))
    requires CO.Spoilt(CT.Declared(types), rank, before + after, name)
    ensures !InvisibleFor(types, shared, rank, before, after, name)
  {
    var declared := CT.Declared(types);
    var list := CT.ParentTypes(CT.History(declared, rank, before + after), rank, name).list;
    SpoiltList(declared, rank, before + after, name);
    var x, y := MergesDiffer(name, list, CT.Line(declared, rank, name));
    TwoCached(types, shared, rank, before, x, y);
    assert !Invisible(types, shared, rank, before, after, Two(x, y), [x, y], name);
  }

  /** Lists that read as declared keep the cache invisible for every type whose order is not spoilt. */
  lemma InvisibleIfUnspoilt(types: Types, shared: set<string>, rank: CT.Rank, before: seq<CT.Use>, after: seq<CT.Use>, name: string)
    requires CT.Ranked(CT.Declared(types), rank) && CT.SingleInheritance(CT.Declared(types))
    requires ReadAfter(types, shared, rank, before) == types
    requires !CO.Spoilt(CT.Declared(types), rank, before + after, name)
    ensures InvisibleFor(types, shared, rank, before, after, name)
  {
    forall raw: Overwrites, order: seq<string> | IsOrder(order, raw)
      ensures Invisible(types, shared, rank, before, after, raw, order, name)
    {
      SingleInheritanceIsCoherent(CT.Declared(types), rank, raw);
      CacheIsInvisible(types, rank, raw, order, before + after, name);
    }
  }

  /**
   * One type. With single inheritance and lists of its own for every type, `get` answers for `name` with the merge
   * of the raw records along the line, for all overwrites and all orders of `setData`, if and only if nobody has
   * reversed a list of two or more on the chain of `name` before the type below it was first reached.
   */
  lemma InvisibleForExactly(types: Types, rank: CT.Rank, before: seq<CT.Use>, after: seq<CT.Use>, name: string)
    requires CT.Ranked(CT.Declared(types), rank) && CT.SingleInheritance(CT.Declared(types))
    ensures InvisibleFor(types, {}, rank, before, after, name) <==> !CO.Spoilt(CT.Declared(types), rank, before + after, name)
  {
    assert ReadAfter(types, {}, rank, before) == types;
    if CO.Spoilt(CT.Declared(types), rank, before + after, name) {
      SpoiltShows(types, {}, rank, before, after, name);
    } else {
      InvisibleIfUnspoilt(types, {}, rank, before, after, name);
    }
  }

  /** Once a sweep has reversed the list of every type in `names`, only types with at most one ancestor are answered right. */
  lemma AfterSweepExactly(types: Types, rank: CT.Rank, before: seq<CT.Use>, after: seq<CT.Use>, names: seq<string>, name: string)
    requires CT.Ranked(CT.Declared(types), rank) && CT.SingleInheritance(CT.Declared(types)) && name in names
    ensures InvisibleFor(types, {}, rank, before, after + CT.Sweeps(names), name) <==> |CT.Line(CT.Declared(types), rank, name)| <= 1
  {
    var declared := CT.Declared(types);
    InvisibleForExactly(types, rank, before, after + CT.Sweeps(names), name);
    assert before + (after + CT.Sweeps(names)) == (before + after) + CT.Sweeps(names);
    CO.SweepLeavesInOrder(declared, rank, before + after, names, name);
    CO.OrderExactly(declared, rank, (before + after) + CT.Sweeps(names), name);
  }

  /** Three types in a row are enough: after one reversal the grandparent's value is answered instead of the parent's. */
  lemma ReversedGrandparentWins(types: Types, rank: CT.Rank, data: Overwrites, c: string, p: string, g: string, k: string)
    requires var declared := CT.Declared(types); CT.Ranked(declared, rank) && CT.ListOf(declared, c) == [p] && CT.ListOf(declared, p) == [g]
    requires CT.ListOf(CT.Declared(types), g) == [] && k !in RecordOf(data, c) && k in RecordOf(data, g)
    ensures var answer := AnswerAfter(types, rank, [CT.Reverses(c)], data, c);
            k in answer && answer[k] == RecordOf(data, g)[k]
  {
    GrandparentFirst(CT.Declared(types), rank, c, p, g);
    var arrays := CT.History(CT.Declared(types), rank, [CT.Reverses(c)]);
    var list := CT.ParentTypes(arrays, rank, c).list;
    MergeFirst([c] + list, data, 1, k);
  }

  lemma GrandparentFirst(declared: CT.Arrays, rank: CT.Rank, c: string, p: string, g: string)
    requires CT.Ranked(declared, rank) && CT.ListOf(declared, c) == [p] && CT.ListOf(declared, p) == [g] && CT.ListOf(declared, g) == []
    ensures var list := CT.ParentTypes(CT.History(declared, rank, [CT.Reverses(c)]), rank, c).list;
            list != [] && list[0] == g
  {
    GrandparentLast(declared, rank, c, p, g);
    OneUse(declared, rank, CT.Reverses(c));
    LastComesFirst(declared, rank, c);
  }

  lemma GrandparentLast(declared: CT.Arrays, rank: CT.Rank, c: string, p: string, g: string)
    requires CT.Ranked(declared, rank) && CT.ListOf(declared, c) == [p] && CT.ListOf(declared, p) == [g] && CT.ListOf(declared, g) == []
    ensures CT.ParentTypes(declared, rank, c).list == [p, g]
  {
    CO.FirstList(declared, rank, p, g);
    CO.FirstList(declared, rank, c, p);
  }

  lemma OneUse(declared: CT.Arrays, rank: CT.Rank, use: CT.Use)
    requires CT.Ranked(declared, rank)
    ensures CT.History(declared, rank, [use]) == CT.After(declared, rank, use)
  {
    assert [use][..0] == [];
  }

  lemma {:induction false} LastComesFirst(arrays: CT.Arrays, rank: CT.Rank, c: string)
    requires CT.Ranked(arrays, rank) && c in arrays && CT.ParentTypes(arrays, rank, c).list != []
    ensures var l, list := CT.ParentTypes(arrays, rank, c).list, CT.ParentTypes(CT.After(arrays, rank, CT.Reverses(c)), rank, c).list;
            list != [] && list[0] == l[|l| - 1]
  {
    CO.ReversedFirst(CT.ParentTypes(arrays, rank, c).list);
    ReversedIsStored(arrays, rank, c);
    StartsAsStored(CT.After(arrays, rank, CT.Reverses(c)), rank, c);
  }

  lemma {:induction false} ReversedIsStored(arrays: CT.Arrays, rank: CT.Rank, c: string)
    requires CT.Ranked(arrays, rank) && c in arrays
    ensures CT.After(arrays, rank, CT.Reverses(c))[c] == CT.Reversed(CT.ParentTypes(arrays, rank, c).list)
  {
    var asked := CT.ParentTypes(arrays, rank, c);
    assert c in asked.arrays && asked.list == asked.arrays[c];
  }

  lemma {:induction false} StartsAsStored(arrays: CT.Arrays, rank: CT.Rank, c: string)
    requires CT.Ranked(arrays, rank) && c in arrays && arrays[c] != []
    ensures var list := CT.ParentTypes(arrays, rank, c).list; list != [] && list[0] == arrays[c][0]
  {
    var r := CT.ParentTypes(arrays, rank, c);
    assert arrays[c] <= r.arrays[c] && r.list == r.arrays[c];
  }

  /** No shared list of two or more ancestors has been reached, so that none has grown. */
  ghost predicate NoSharedGrowth(types: Types, shared: set<string>, rank: CT.Rank, uses: seq<CT.Use>)
    requires CT.Ranked(CT.Declared(types), rank)
  {
    forall t :: t in shared && t in CT.Declared(types) && |CT.Line(CT.Declared(types), rank, t)| >= 2
                ==> !CO.Reached(CT.Declared(types), rank, uses, |uses|, t)
  }

  lemma ReadAsDeclared(types: Types, shared: set<string>, rank: CT.Rank, uses: seq<CT.Use>)
    requires CT.Ranked(CT.Declared(types), rank) && CT.SingleInheritance(CT.Declared(types))
    requires CO.NoLongReversal(CT.Declared(types), rank, uses) && NoSharedGrowth(types, shared, rank, uses)
    ensures ReadAfter(types, shared, rank, uses) == types
  {
    var declared, read := CT.Declared(types), ReadAfter(types, shared, rank, uses);
    forall t | t in types
      ensures read[t] == types[t]
    {
      if t in shared && t in declared {
        CO.GrownExactly(declared, rank, uses, t);
      }
    }
  }

  lemma SharedGrowthShows(types: Types, shared: set<string>, rank: CT.Rank, before: seq<CT.Use>, after: seq<CT.Use>)
    requires CT.Ranked(CT.Declared(types), rank) && CT.SingleInheritance(CT.Declared(types)) && WellDeclared(types)
    requires CO.NoLongReversal(CT.Declared(types), rank, before) && !NoSharedGrowth(types, shared, rank, before)
    ensures !AlwaysInvisible(types, shared, rank, before, after)
  {
    var declared := CT.Declared(types);
    var t :| t in shared && t in declared && |CT.Line(declared, rank, t)| >= 2 && CO.Reached(declared, rank, before, |before|, t);
    var last := GrownList(types, shared, rank, before, t);
    LastShows(types, shared, rank, before, after, t, last);
  }

  /** The list of a shared type that has grown ends with an ancestor that is not the parent. */
  lemma GrownList(types: Types, shared: set<string>, rank: CT.Rank, before: seq<CT.Use>, t: string) returns (last: string)
    requires CT.Ranked(CT.Declared(types), rank) && CT.SingleInheritance(CT.Declared(types)) && WellDeclared(types)
    requires CO.NoLongReversal(CT.Declared(types), rank, before) && t in shared && t in CT.Declared(types)
    requires |CT.Line(CT.Declared(types), rank, t)| >= 2 && CO.Reached(CT.Declared(types), rank, before, |before|, t)
    ensures CT.Declared(types)[t] != [] && last != CT.Declared(types)[t][0] && last in types
    ensures var read := ReadAfter(types, shared, rank, before);
            t in read && read[t].Some? && read[t].value != [] && read[t].value[|read[t].value| - 1] == last
  {
    var l := CT.History(CT.Declared(types), rank, before)[t];
    CO.GrownExactly(CT.Declared(types), rank, before, t);
    LineRecognized(types, rank, t);
    last := l[|l| - 1];
    assert last in l;
  }

  lemma {:induction false} LineRecognized(types: Types, rank: CT.Rank, t: string)
    requires CT.Ranked(CT.Declared(types), rank) && WellDeclared(types)
    ensures forall a :: a in CT.Line(CT.Declared(types), rank, t) ==> a in types
    decreases rank(t)
  {
    var parents := CT.ListOf(CT.Declared(types), t);
    CT.LinesMembers(CT.Declared(types), rank, parents, rank(t));
    forall p | p in parents {
      LineRecognized(types, rank, p);
    }
  }

  /**
   * All types, every history before and after `setData`, where a type whose list is shared has at most one parent:
   * the cache and the history are invisible for all overwrites, all orders and all types if and only if every type
   * has at most one parent, nobody reverses a list of two or more, and no shared list has grown before `setData`.
   */
  lemma InvisibleExactly(types: Types, shared: set<string>, rank: CT.Rank, before: seq<CT.Use>, after: seq<CT.Use>)
    requires CT.Ranked(CT.Declared(types), rank) && WellDeclared(types)
    requires forall t :: t in shared && t in CT.Declared(types) ==> |CT.Declared(types)[t]| <= 1
    ensures AlwaysInvisible(types, shared, rank, before, after)
       <==> && CT.SingleInheritance(CT.Declared(types))
            && CO.NoLongReversal(CT.Declared(types), rank, before + after)
            && NoSharedGrowth(types, shared, rank, before)
  {
    var declared := CT.Declared(types);
    assert forall u :: u in before ==> u in before + after;
    if !CT.SingleInheritance(declared) {
      SeveralParentsShow(types, shared, rank, before, after);
    } else if !CO.NoLongReversal(declared, rank, before + after) {
      LongReversalShows(types, shared, rank, before, after);
    } else if !NoSharedGrowth(types, shared, rank, before) {
      SharedGrowthShows(types, shared, rank, before, after);
    } else {
      NothingShows(types, shared, rank, before, after);
    }
  }

  lemma SeveralParentsShow(types: Types, shared: set<string>, rank: CT.Rank, before: seq<CT.Use>, after: seq<CT.Use>)
    requires CT.Ranked(CT.Declared(types), rank) && WellDeclared(types) && !CT.SingleInheritance(CT.Declared(types))
    requires forall t :: t in shared && t in CT.Declared(types) ==> |CT.Declared(types)[t]| <= 1
    ensures !AlwaysInvisible(types, shared, rank, before, after)
  {
    var declared := CT.Declared(types);
    var t :| t in declared && |declared[t]| >= 2;
    var last := declared[t][|declared[t]| - 1];
    assert last in declared[t];
    LastShows(types, shared, rank, before, after, t, last);
  }

  lemma LongReversalShows(types: Types, shared: set<string>, rank: CT.Rank, before: seq<CT.Use>, after: seq<CT.Use>)
    requires CT.Ranked(CT.Declared(types), rank) && CT.SingleInheritance(CT.Declared(types))
    requires !CO.NoLongReversal(CT.Declared(types), rank, before + after)
    ensures !AlwaysInvisible(types, shared, rank, before, after)
  {
    var declared := CT.Declared(types);
    var u :| u in before + after && u.Reverses? && |CT.Line(declared, rank, u.t)| >= 2;
    CO.ReversalSpoils(declared, rank, before + after, u.t);
    SpoiltShows(types, shared, rank, before, after, u.t);
  }

  lemma NothingShows(types: Types, shared: set<string>, rank: CT.Rank, before: seq<CT.Use>, after: seq<CT.Use>)
    requires CT.Ranked(CT.Declared(types), rank) && CT.SingleInheritance(CT.Declared(types))
    requires CO.NoLongReversal(CT.Declared(types), rank, before) && CO.NoLongReversal(CT.Declared(types), rank, before + after)
    requires NoSharedGrowth(types, shared, rank, before)
    ensures AlwaysInvisible(types, shared, rank, before, after)
  {
    ReadAsDeclared(types, shared, rank, before);
    forall name
      ensures InvisibleFor(types, shared, rank, before, after, name)
    {
      CO.NeverSpoilt(CT.Declared(types), rank, before + after, name);
      InvisibleIfUnspoilt(types, shared, rank, before, after, name);
    }
  }

  // ---------------------------------------------------------------- setData(getAll())

  /** Resolving the cached records gives what resolving the raw records gives. */
  lemma {:induction false} FullOfCache(declared: CT.Arrays, rank: CT.Rank, raw: Overwrites, data: Overwrites, t: string)
    requires Coherent(declared, rank, raw) && Between(declared, rank, raw, data)
    ensures Full(declared, rank, data, t) == Full(declared, rank, raw, t)
    decreases rank(t), 1, 0
  {
    var parents := CT.ListOf(declared, t);
    FullOfParentsOfCache(declared, rank, raw, data, parents, rank(t));
    var above := FullOf(declared, rank, raw, parents, rank(t));
    assert Full(declared, rank, raw, t) == above + RecordOf(raw, t);
    OverlayBetween(above, RecordOf(raw, t), RecordOf(data, t));
  }

  lemma OverlayBetween(above: Record, a: Record, b: Record)
    requires Within(a, b) && Within(b, above + a)
    ensures above + b == above + a
  {
  }

  lemma {:induction false} FullOfParentsOfCache(declared: CT.Arrays, rank: CT.Rank, raw: Overwrites, data: Overwrites, parents: seq<string>, bound: nat)
    requires Coherent(declared, rank, raw) && Between(declared, rank, raw, data)
    requires CT.AllBelow(parents, rank, bound)
    ensures FullOf(declared, rank, data, parents, bound) == FullOf(declared, rank, raw, parents, bound)
    decreases bound, 0, |parents|
  {
    if parents != [] {
      FullOfCache(declared, rank, raw, data, parents[0]);
      FullOfParentsOfCache(declared, rank, raw, data, parents[1..], bound);
    }
  }

  lemma CacheIsCoherent(declared: CT.Arrays, rank: CT.Rank, raw: Overwrites, data: Overwrites)
    requires Coherent(declared, rank, raw) && Between(declared, rank, raw, data)
    ensures Coherent(declared, rank, data)
  {
    forall t, p, q, k |
      && p in CT.ListOf(declared, t) && q in CT.ListOf(declared, t)
      && k in Full(declared, rank, data, p) && k in Full(declared, rank, data, q)
      && k !in RecordOf(data, t)
      ensures Full(declared, rank, data, p)[k] == Full(declared, rank, data, q)[k]
    {
      FullOfCache(declared, rank, raw, data, p);
      FullOfCache(declared, rank, raw, data, q);
      assert k !in RecordOf(raw, t) by {
        if t in raw {
          assert Within(raw[t], data[t]);
        }
      }
    }
  }

  /** Feeding the cache back through `setData`, in any order, changes no answer. */
  lemma ReloadingKeepsAnswers(types: Types, rank: CT.Rank, raw: Overwrites, order: seq<string>, order': seq<string>,
                              uses: seq<CT.Use>, uses': seq<CT.Use>, name: string)
    requires Coherent(CT.Declared(types), rank, raw)
    requires Undisturbed(CT.Declared(types), rank, uses, name) && Undisturbed(CT.Declared(types), rank, uses', name)
    requires forall t :: t in order || t in order' ==> t in raw
    ensures var data := Stored(types, rank, raw, order);
            AnswerAfter(types, rank, uses', Stored(types, rank, data, order'), name) == AnswerAfter(types, rank, uses, data, name)
  {
    var declared := CT.Declared(types);
    var data := Stored(types, rank, raw, order);
    RawBetween(declared, rank, raw);
    VisitAllBetween(types, rank, raw, Cache(raw, []), order);
    CacheIsCoherent(declared, rank, raw, data);
    CacheIsInvisible(types, rank, raw, order, uses, name);
    CacheIsInvisible(types, rank, data, order', uses', name);
    FullOfCache(declared, rank, raw, data, name);
  }

  // ---------------------------------------------------------------- applyOverwrite

  /** The values that count as "no data set". */
  predicate Unset(v: Value) {
    v == Null || v == Undefined || v == Text("")
  }

  predicate Fillable(data: Record, k: string) {
    k !in data || Unset(data[k])
  }

  /** The data with every unset key that has an overwrite filled in. */
  function Filled(data: Record, overwrites: Record): Record {
    data + map k | k in overwrites && Fillable(data, k) :: overwrites[k]
  }

  /** The data with the keys outside `pending` treated. */
  function FilledBut(data: Record, overwrites: Record, pending: set<string>): Record {
    data + map k | k in overwrites && k !in pending && Fillable(data, k) :: overwrites[k]
  }

  lemma FillOne(data: Record, overwrites: Record, pending: set<string>, key: string)
    requires key in pending && key in overwrites
    ensures var filled := FilledBut(data, overwrites, pending);
            FilledBut(data, overwrites, pending - {key})
            == if Fillable(filled, key) then filled[key := overwrites[key]] else filled
  {
    var filled := FilledBut(data, overwrites, pending);
    assert Fillable(filled, key) == Fillable(data, key);
  }

  /**
   * What filling in comes to, key by key: an absent, null, undefined or empty value gives way to an overwrite, any
   * other value stays, and so does everything without an overwrite.
   */
  ghost predicate FillsUnset(data: Record, overwrites: Record, filled: Record) {
    && filled.Keys == data.Keys + overwrites.Keys
    && (forall k :: k in overwrites && k !in data ==> filled[k] == overwrites[k])
    && (forall k :: k in overwrites && k in data && data[k] in {Null, Undefined, Text("")} ==> filled[k] == overwrites[k])
    && (forall k :: k in data && (data[k].Other? || (data[k].Text? && data[k].text != "")) ==> filled[k] == data[k])
    && (forall k :: k in data && k !in overwrites ==> filled[k] == data[k])
  }

  /** Only the filled data is filled in so. */
  lemma FilledExactly(data: Record, overwrites: Record, filled: Record)
    ensures FillsUnset(data, overwrites, filled) <==> filled == Filled(data, overwrites)
  {
    var r := Filled(data, overwrites);
    assert r.Keys == data.Keys + overwrites.Keys;
    if FillsUnset(data, overwrites, filled) {
      forall k | k in r ensures filled[k] == r[k] {
        assert k in data ==> data[k] == Null || data[k] == Undefined || data[k].Text? || data[k].Other?;
      }
    }
  }

  /** Set values are kept, exactly the unset keys with an overwrite are filled, and filling twice is filling once. */
  lemma FilledIsIdempotent(data: Record, overwrites: Record)
    ensures var filled := Filled(data, overwrites);
            && Filled(filled, overwrites) == filled
            && filled.Keys == data.Keys + overwrites.Keys
            && (forall k :: k in data && !Unset(data[k]) ==> filled[k] == data[k])
            && (forall k :: k in overwrites && Fillable(data, k) ==> filled[k] == overwrites[k])
            && (forall k :: k in filled && Fillable(filled, k) ==> k !in overwrites || Unset(overwrites[k]))
  {
    var filled := Filled(data, overwrites);
    forall k | k in overwrites && Fillable(filled, k) ensures filled[k] == overwrites[k] {
    }
    assert Filled(filled, overwrites) == filled;
  }

  // ---------------------------------------------------------------- the service

  class CredentialsOverwrites {
    var overwriteData: Overwrites
    var resolvedTypes: seq<string>
    const credentialTypes: CT.CredentialTypes

    ghost predicate Valid()
      reads this, credentialTypes
    {
      credentialTypes.Valid()
    }

    /** The order in which the keys of the data are visited is an input. */
    constructor (credentialTypes: CT.CredentialTypes, data: Overwrites, order: seq<string>)
      requires credentialTypes.Valid()
      requires forall t :: t in order <==> t in data
      ensures Valid() && this.credentialTypes == credentialTypes
      ensures overwriteData == Stored(credentialTypes.Extends(), credentialTypes.rank, data, order)
    {
      this.credentialTypes := credentialTypes;
      overwriteData, resolvedTypes := map[], [];
      new;
      SetData(data, order);
    }

    /** The lists are read as they are at the time of the call. */
    method SetData(data: Overwrites, order: seq<string>)
      requires Valid()
      requires forall t :: t in order <==> t in data
      modifies this
      ensures Valid() && overwriteData == Stored(credentialTypes.Extends(), credentialTypes.rank, data, order)
    {
      ghost var types, rank := credentialTypes.Extends(), credentialTypes.rank;
      resolvedTypes := [];
      overwriteData := data;
      var i := 0;
      while i < |order|
        invariant 0 <= i <= |order|
        invariant VisitAll(types, rank, Cache(overwriteData, resolvedTypes), order[i..])
               == VisitAll(types, rank, Cache(data, []), order)
      {
        ghost var cache := Cache(overwriteData, resolvedTypes);
        var overwrites := GetOverwrites(order[i]);
        if overwrites.Some? && overwrites.value != map[] {
          overwriteData := overwriteData[order[i] := overwrites.value];
        }
        assert order[i..][1..] == order[i + 1..];
        assert Visit(types, rank, cache, order[i]) == Cache(overwriteData, resolvedTypes);
        i := i + 1;
      }
      assert order[i..] == [];
    }

    method GetOverwrites(t: string) returns (overwrites: Option<Record>)
      requires Valid()
      modifies this`resolvedTypes
      ensures Resolution(resolvedTypes, overwrites)
           == Resolve(credentialTypes.Extends(), credentialTypes.rank, overwriteData, old(resolvedTypes), t)
      decreases credentialTypes.rank(t)
    {
      if t in resolvedTypes {
        return if t in overwriteData then Some(overwriteData[t]) else None;
      }
      if !credentialTypes.Recognizes(t) {
        return None;
      }
      var types := credentialTypes.Extends();
      if types[t].None? {
        resolvedTypes := resolvedTypes + [t];
        return if t in overwriteData then Some(overwriteData[t]) else None;
      }
      ghost var rank := credentialTypes.rank;
      var parents := types[t].value;
      assert CT.ListOf(CT.Declared(types), t) == parents;
      ghost var all := ResolveAll(types, rank, overwriteData, resolvedTypes, parents, rank(t), map[]);
      assert parents[0..] == parents;
      var merged: Record := map[];
      var i := 0;
      while i < |parents|
        invariant 0 <= i <= |parents|
        invariant ResolveAll(types, rank, overwriteData, resolvedTypes, parents[i..], rank(t), merged) == all
      {
        ResolveAllStep(types, rank, overwriteData, resolvedTypes, parents, i, rank(t), merged);
        var inherited := GetOverwrites(parents[i]);
        merged := merged + inherited.GetOr(map[]);
        i := i + 1;
      }
      assert all == Resolution(resolvedTypes, Some(merged)) by {
        assert parents[i..] == [];
      }
      merged := merged + RecordOf(overwriteData, t);
      resolvedTypes := resolvedTypes + [t];
      overwrites := Some(merged);
    }

    /** The merge of the cached records in the order in which the ancestors are listed. */
    method Get(name: string) returns (merged: Record)
      requires Valid()
      modifies credentialTypes`knownExtends
      ensures Valid() && credentialTypes.knownExtends == CT.After(old(credentialTypes.knownExtends), credentialTypes.rank, CT.Asks(name))
      ensures merged == AnswerFor(old(credentialTypes.knownExtends), credentialTypes.rank, overwriteData, name)
      ensures InOrder(CT.Declared(credentialTypes.types), credentialTypes.rank, old(credentialTypes.knownExtends), name)
              ==> merged == Merge([name] + CT.Line(CT.Declared(credentialTypes.types), credentialTypes.rank, name), overwriteData)
    {
      ghost var declared, rank, arrays := CT.Declared(credentialTypes.types), credentialTypes.rank, credentialTypes.knownExtends;
      var parentTypes := credentialTypes.GetParentTypes(name);
      merged := Merge([name] + parentTypes, overwriteData);
      if InOrder(declared, rank, arrays, name) {
        GetInOrder(declared, rank, arrays, overwriteData, name);
      }
    }

    method ApplyOverwrite(name: string, data: Record) returns (filled: Record)
      requires Valid()
      modifies credentialTypes`knownExtends
      ensures Valid() && credentialTypes.knownExtends == CT.After(old(credentialTypes.knownExtends), credentialTypes.rank, CT.Asks(name))
      ensures FillsUnset(data, AnswerFor(old(credentialTypes.knownExtends), credentialTypes.rank, overwriteData, name), filled)
    {
      var overwrites := Get(name);
      filled := FillUnset(data, overwrites);
    }

    static method FillUnset(data: Record, overwrites: Record) returns (filled: Record)
      ensures filled == Filled(data, overwrites) && FillsUnset(data, overwrites, filled)
    {
      filled := data;
      var keys := overwrites.Keys;
      while keys != {}
        invariant keys <= overwrites.Keys
        invariant filled == FilledBut(data, overwrites, keys)
      {
        var key :| key in keys;
        FillOne(data, overwrites, keys, key);
        if Fillable(filled, key) {
          filled := filled[key := overwrites[key]];
        }
        keys := keys - {key};
      }
      FilledExactly(data, overwrites, filled);
    }
  }
}
