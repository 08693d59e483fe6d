/** Desired sets and managed scopes: deduplication by identity, with the
    attribution of all contributors merged. */
module ManagedSet {
  import opened Basics
  import opened Model

  function ModeRank(m: Mode): nat {
    match m
    case Enforce => 3
    case DetectOnly => 2
    case ObserveOnly => 1
    case Unattributed => 0
  }

  /** The more enforcing mode; the first on a tie. */
  function MergeMode(x: Mode, y: Mode): Mode { if ModeRank(y) > ModeRank(x) then y else x }

  /** The incoming contributor changes mode and consent, never the owner. */
  function Merge<I>(x: Item<I>, y: Item<I>): Item<I> {
    x.(mode := MergeMode(x.mode, y.mode), prune := x.prune && y.prune)
  }

  function InfoOf<I>(it: Item<I>): ScopeInfo { ScopeInfo(it.mode, it.prune, it.source) }

  function MergeInfo(x: ScopeInfo, y: ScopeInfo): ScopeInfo {
    x.(mode := MergeMode(x.mode, y.mode), prune := x.prune && y.prune)
  }

  // ---- the desired set ---------------------------------------------------

  /** The accepted items, the refused ones, and the reject hook's own state. */
  datatype Built<I, S> = Built(out: seq<Item<I>>, refused: seq<Item<I>>, state: S)

  /** The position of an identity in a list, or the length. */
  function Position<I(==)>(xs: seq<Item<I>>, id: I): (i: nat)
    ensures i <= |xs|
    ensures i < |xs| ==> xs[i].id == id
    ensures forall j :: 0 <= j < i ==> xs[j].id != id
  {
    if xs == [] then 0
    else
      var i := Position(xs[..|xs| - 1], id);
      if i < |xs| - 1 then i else if xs[i].id == id then i else i + 1
  }

  function Take<I(==), S>(b: Built<I, S>, it: Item<I>, reject: (S, Item<I>) -> Option<S>,
                          conflict: (Item<I>, Item<I>) -> bool): Built<I, S> {
    var s := reject(b.state, it);
    if s.None? then b.(refused := b.refused + [it])
    else
      var i := Position(b.out, it.id);
      if i == |b.out| then Built(b.out + [it], b.refused, s.value)
      else if conflict(b.out[i], it) then Built(b.out, b.refused + [it], s.value)
      else Built(b.out[i := Merge(b.out[i], it)], b.refused, s.value)
  }

  function Build<I(==), S>(items: seq<Item<I>>, reject: (S, Item<I>) -> Option<S>,
                           conflict: (Item<I>, Item<I>) -> bool, s0: S): Built<I, S> {
    if items == [] then Built([], [], s0)
    else Take(Build(items[..|items| - 1], reject, conflict, s0), items[|items| - 1], reject, conflict)
  }

  /** The index maps each accepted identity to its output position. */
  ghost predicate Indexes<I(!new)>(index: map<I, nat>, out: seq<Item<I>>) {
    forall id :: if id in index then index[id] == Position(out, id) < |out| else Position(out, id) == |out|
  }

  lemma IndexesAppend<I(!new)>(index: map<I, nat>, out: seq<Item<I>>, it: Item<I>)
    requires Indexes(index, out) && it.id !in index
    ensures Indexes(index[it.id := |out|], out + [it])
  {
    PositionAfterAppend(out, it);
  }

  lemma IndexesMerge<I(!new)>(index: map<I, nat>, out: seq<Item<I>>, it: Item<I>)
    requires Indexes(index, out) && it.id in index
    ensures Indexes(index, out[index[it.id] := Merge(out[index[it.id]], it)])
  {
    PositionAfterMerge(out, index[it.id], it);
  }

  /** The walk with its index from identity to output position. */
  method BuildDesiredSet<I(==, !new), S>(items: seq<Item<I>>, reject: (S, Item<I>) -> Option<S>,
                                         conflict: (Item<I>, Item<I>) -> bool, s0: S)
    returns (out: seq<Item<I>>, refused: seq<Item<I>>)
    ensures out == Build(items, reject, conflict, s0).out
    ensures refused == Build(items, reject, conflict, s0).refused
  {
    var index: map<I, nat> := map[];
    var state := s0;
    out, refused := [], [];
    for n := 0 to |items|
      invariant Built(out, refused, state) == Build(items[..n], reject, conflict, s0)
      invariant Indexes(index, out)
    {
      assert items[..n + 1][..n] == items[..n];
      var it := items[n];
      var s := reject(state, it);
      if s.None? {
        refused := refused + [it];
      } else {
        state := s.value;
        if it.id in index {
          var i := index[it.id];
          if conflict(out[i], it) {
            refused := refused + [it];
          } else {
            IndexesMerge(index, out, it);
            out := out[i := Merge(out[i], it)];
          }
        } else {
          IndexesAppend(index, out, it);
          index := index[it.id := |out|];
          out := out + [it];
        }
      }
    }
    assert items[..|items|] == items;
  }

  lemma PositionIs<I>(xs: seq<Item<I>>, id: I, i: nat)
    requires i <= |xs| && (i < |xs| ==> xs[i].id == id) && forall j :: 0 <= j < i ==> xs[j].id != id
    ensures Position(xs, id) == i
  {
  }

  lemma PositionAfterMerge<I>(out: seq<Item<I>>, i: nat, it: Item<I>)
    requires i < |out|
    ensures forall id :: Position(out[i := Merge(out[i], it)], id) == Position(out, id)
  {
    forall id ensures Position(out[i := Merge(out[i], it)], id) == Position(out, id) {
      PositionIs(out[i := Merge(out[i], it)], id, Position(out, id));
    }
  }

  lemma PositionAfterAppend<I>(out: seq<Item<I>>, it: Item<I>)
    requires Position(out, it.id) == |out|
    ensures Position(out + [it], it.id) == |out|
    ensures forall id :: id != it.id ==>
      Position(out + [it], id) == if Position(out, id) < |out| then Position(out, id) else |out| + 1
  {
    PositionIs(out + [it], it.id, |out|);
    forall id | id != it.id
      ensures Position(out + [it], id) == if Position(out, id) < |out| then Position(out, id) else |out| + 1
    {
      PositionIs(out + [it], id, if Position(out, id) < |out| then Position(out, id) else |out| + 1);
    }
  }

  // ---- plain merging, without hooks --------------------------------------

  function DedupAdd<I(==)>(out: seq<Item<I>>, it: Item<I>): seq<Item<I>> {
    var i := Position(out, it.id);
    if i == |out| then out + [it] else out[i := Merge(out[i], it)]
  }

  function Dedup<I(==)>(items: seq<Item<I>>): seq<Item<I>> {
    if items == [] then [] else DedupAdd(Dedup(items[..|items| - 1]), items[|items| - 1])
  }

  /** Some item under the key has the mode. */
  ghost predicate Contributes<I, K>(items: seq<Item<I>>, key: I -> K, k: K, m: Mode) {
    exists it :: it in items && key(it.id) == k && it.mode == m
  }

  /** Enforce goes before detecting, detecting before observing, and any of them
      before no mode at all. */
  ghost predicate MostEnforcing<I, K>(items: seq<Item<I>>, key: I -> K, k: K, m: Mode) {
    var enforces, detects, observes :=
      Contributes(items, key, k, Enforce), Contributes(items, key, k, DetectOnly), Contributes(items, key, k, ObserveOnly);
    && (m == Enforce <==> enforces)
    && (m == DetectOnly <==> !enforces && detects)
    && (m == ObserveOnly <==> !enforces && !detects && observes)
  }

  lemma ContributesSnoc<I, K>(items: seq<Item<I>>, it: Item<I>, key: I -> K, k: K, m: Mode)
    ensures Contributes(items + [it], key, k, m) <==> Contributes(items, key, k, m) || (key(it.id) == k && it.mode == m)
  {
    if x :| x in items && key(x.id) == k && x.mode == m { assert x in items + [it]; }
    assert it in items + [it];
  }

  /** One more contributor, under the key or not. */
  lemma MostEnforcingStep<I, K>(items: seq<Item<I>>, it: Item<I>, key: I -> K, k: K, m: Mode)
    requires MostEnforcing(items, key, k, m)
    ensures MostEnforcing(items + [it], key, k, if key(it.id) == k then MergeMode(m, it.mode) else m)
  {
    ContributesSnoc(items, it, key, k, Enforce);
    ContributesSnoc(items, it, key, k, DetectOnly);
    ContributesSnoc(items, it, key, k, ObserveOnly);
  }

  lemma OnlyContributor<I, K>(items: seq<Item<I>>, it: Item<I>, key: I -> K, k: K)
    requires key(it.id) == k && forall x :: x in items ==> key(x.id) != k
    ensures MostEnforcing(items + [it], key, k, it.mode)
  {
    ContributesSnoc(items, it, key, k, Enforce);
    ContributesSnoc(items, it, key, k, DetectOnly);
    ContributesSnoc(items, it, key, k, ObserveOnly);
  }

  /** One output element against all its contributors. */
  ghost predicate MergedFrom<I>(items: seq<Item<I>>, e: Item<I>) {
    && Position(items, e.id) < |items|
    && e.source == items[Position(items, e.id)].source
    && MostEnforcing(items, Same(), e.id, e.mode)
    && (exists it :: it in items && it.id == e.id && it.mode == e.mode)
    && (e.prune <==> forall it :: it in items && it.id == e.id ==> it.prune)
  }

  lemma MergedFromStep<I>(items: seq<Item<I>>, it: Item<I>, e: Item<I>)
    requires MergedFrom(items, e)
    ensures e.id != it.id ==> MergedFrom(items + [it], e)
    ensures e.id == it.id ==> MergedFrom(items + [it], Merge(e, it))
  {
    PositionIs(items + [it], e.id, Position(items, e.id));
    MostEnforcingStep(items, it, Same(), e.id, e.mode);
    var w :| w in items && w.id == e.id && w.mode == e.mode;
    assert w in items + [it] && it in items + [it];
  }

  /** `out` holds one element per identity of `items`, in first-seen order, each
      with the most enforcing mode, the conjunction of the consents and the first owner. */
  ghost predicate Lawful<I>(items: seq<Item<I>>, out: seq<Item<I>>) {
    AllMerged(items, out) && Covers(items, out) && FirstSeenOrder(items, out)
  }

  ghost predicate AllMerged<I>(items: seq<Item<I>>, out: seq<Item<I>>) {
    forall i :: 0 <= i < |out| ==> MergedFrom(items, out[i])
  }

  ghost predicate Covers<I>(items: seq<Item<I>>, out: seq<Item<I>>) {
    forall it :: it in items ==> Position(out, it.id) < |out|
  }

  ghost predicate FirstSeenOrder<I>(items: seq<Item<I>>, out: seq<Item<I>>) {
    forall a, b :: 0 <= a < b < |out| ==> Position(items, out[a].id) < Position(items, out[b].id)
  }

  lemma SamePositions<I>(front: seq<Item<I>>, it: Item<I>, id: I)
    requires Position(front, id) < |front|
    ensures Position(front + [it], id) == Position(front, id)
  {
    PositionIs(front + [it], id, Position(front, id));
  }

  lemma FreshMerged<I>(front: seq<Item<I>>, it: Item<I>)
    requires forall x :: x in front ==> x.id != it.id
    ensures Position(front + [it], it.id) == |front| && MergedFrom(front + [it], it)
  {
    PositionIs(front + [it], it.id, |front|);
    OnlyContributor(front, it, Same(), it.id);
    assert it in front + [it];
    assert forall x :: x in front + [it] && x.id == it.id ==> x == it;
  }

  lemma NotSeen<I>(front: seq<Item<I>>, it: Item<I>, out: seq<Item<I>>)
    requires Lawful(front, out) && Position(out, it.id) == |out|
    ensures forall x :: x in front ==> x.id != it.id
    ensures forall i :: 0 <= i < |out| ==> out[i].id != it.id
  {
    forall x | x in front ensures x.id != it.id { assert Position(out, x.id) < |out|; }
  }

  lemma LawAppendOrder<I>(front: seq<Item<I>>, it: Item<I>, out: seq<Item<I>>, a: nat, b: nat)
    requires Lawful(front, out) && Position(out, it.id) == |out|
    requires a < b <= |out|
    ensures Position(front + [it], (out + [it])[a].id) < Position(front + [it], (out + [it])[b].id)
  {
    NotSeen(front, it, out);
    assert MergedFrom(front, out[a]);
    SamePositions(front, it, out[a].id);
    if b < |out| {
      assert MergedFrom(front, out[b]);
      SamePositions(front, it, out[b].id);
    } else {
      FreshMerged(front, it);
    }
  }

  lemma MergedAfterAppend<I>(front: seq<Item<I>>, it: Item<I>, e: Item<I>)
    requires MergedFrom(front, e) && e.id != it.id
    ensures MergedFrom(front + [it], e)
  {
    MergedFromStep(front, it, e);
  }

  lemma LawAppendMerged<I>(front: seq<Item<I>>, it: Item<I>, out: seq<Item<I>>)
    requires AllMerged(front, out) && forall i :: 0 <= i < |out| ==> out[i].id != it.id
    requires forall x :: x in front ==> x.id != it.id
    ensures AllMerged(front + [it], out + [it])
  {
    FreshMerged(front, it);
    forall i | 0 <= i < |out| ensures MergedFrom(front + [it], out[i]) {
      MergedAfterAppend(front, it, out[i]);
    }
  }

  lemma LawAppendCovers<I>(front: seq<Item<I>>, it: Item<I>, out: seq<Item<I>>)
    requires Covers(front, out) && Position(out, it.id) == |out|
    ensures Covers(front + [it], out + [it])
  {
    PositionAfterAppend(out, it);
    forall x | x in front + [it] ensures Position(out + [it], x.id) < |out| + 1 {
      if x.id != it.id { assert x in front; }
    }
  }

  lemma LawAppend<I>(front: seq<Item<I>>, it: Item<I>, out: seq<Item<I>>)
    requires Lawful(front, out) && Position(out, it.id) == |out|
    ensures Lawful(front + [it], out + [it])
  {
    NotSeen(front, it, out);
    LawAppendMerged(front, it, out);
    LawAppendCovers(front, it, out);
    assert FirstSeenOrder(front + [it], out + [it]) by {
      forall a, b | 0 <= a < b < |out + [it]| { LawAppendOrder(front, it, out, a, b); }
    }
  }

  lemma LawMergeMerged<I>(front: seq<Item<I>>, it: Item<I>, out: seq<Item<I>>, i: nat)
    requires Lawful(front, out) && i == Position(out, it.id) < |out|
    ensures AllMerged(front + [it], out[i := Merge(out[i], it)])
  {
    var out' := out[i := Merge(out[i], it)];
    forall k | 0 <= k < |out'| ensures MergedFrom(front + [it], out'[k]) {
      OnlyHere(front, out, i, k);
      MergedFromStep(front, it, out[k]);
    }
  }

  lemma OnlyHere<I>(front: seq<Item<I>>, out: seq<Item<I>>, i: nat, k: nat)
    requires FirstSeenOrder(front, out) && i < |out| && k < |out|
    ensures k != i ==> out[k].id != out[i].id
  {
    if k < i {
      assert Position(front, out[k].id) < Position(front, out[i].id);
    } else if i < k {
      assert Position(front, out[i].id) < Position(front, out[k].id);
    }
  }

  lemma LawMergeCovers<I>(front: seq<Item<I>>, it: Item<I>, out: seq<Item<I>>, i: nat)
    requires Covers(front, out) && i == Position(out, it.id) < |out|
    ensures Covers(front + [it], out[i := Merge(out[i], it)])
  {
    PositionAfterMerge(out, i, it);
  }

  lemma LawMergeOrder<I>(front: seq<Item<I>>, it: Item<I>, out: seq<Item<I>>, i: nat)
    requires Lawful(front, out) && i == Position(out, it.id) < |out|
    ensures FirstSeenOrder(front + [it], out[i := Merge(out[i], it)])
  {
    var items, out' := front + [it], out[i := Merge(out[i], it)];
    forall a, b | 0 <= a < b < |out'| ensures Position(items, out'[a].id) < Position(items, out'[b].id) {
      assert out'[a].id == out[a].id && out'[b].id == out[b].id;
      assert MergedFrom(front, out[a]) && MergedFrom(front, out[b]);
      SamePositions(front, it, out[a].id);
      SamePositions(front, it, out[b].id);
    }
  }

  lemma LawMerge<I>(front: seq<Item<I>>, it: Item<I>, out: seq<Item<I>>, i: nat)
    requires Lawful(front, out) && i == Position(out, it.id) < |out|
    ensures Lawful(front + [it], out[i := Merge(out[i], it)])
  {
    LawMergeMerged(front, it, out, i);
    LawMergeCovers(front, it, out, i);
    LawMergeOrder(front, it, out, i);
  }

  /** The merge law. */
  lemma {:induction false} MergeLaw<I>(items: seq<Item<I>>)
    ensures Lawful(items, Dedup(items))
  {
    if items != [] {
      var front, it := items[..|items| - 1], items[|items| - 1];
      assert items == front + [it];
      MergeLaw(front);
      var out := Dedup(front);
      var i := Position(out, it.id);
      if i == |out| { LawAppend(front, it, out); } else { LawMerge(front, it, out, i); }
    }
  }

  lemma DedupUnique<I>(items: seq<Item<I>>)
    ensures Unique(Dedup(items), IdOf)
  {
    MergeLaw(items);
    var out := Dedup(items);
    forall i, j | 0 <= i < j < |out| ensures IdOf(out[i]) != IdOf(out[j]) {
      assert Position(items, out[i].id) < Position(items, out[j].id);
    }
  }

  /** Deduplication keeps exactly the identities. */
  lemma DedupIds<I>(items: seq<Item<I>>, id: I)
    ensures (exists e :: e in Dedup(items) && e.id == id) <==> (exists it :: it in items && it.id == id)
  {
    MergeLaw(items);
    if it :| it in items && it.id == id {
      var i := Position(Dedup(items), id);
      assert Dedup(items)[i] in Dedup(items);
    }
    if e :| e in Dedup(items) && e.id == id {
      assert items[Position(items, id)] in items;
    }
  }

  // ---- the managed scope -------------------------------------------------

  function AddInfo<K(==)>(m: map<K, ScopeInfo>, k: K, info: ScopeInfo): map<K, ScopeInfo> {
    m[k := if k in m then MergeInfo(m[k], info) else info]
  }

  function Scope<I, K(==)>(items: seq<Item<I>>, key: I -> K): map<K, ScopeInfo> {
    if items == [] then map[]
    else AddInfo(Scope(items[..|items| - 1], key), key(items[|items| - 1].id), InfoOf(items[|items| - 1]))
  }

  method BuildScope<I, K(==)>(items: seq<Item<I>>, key: I -> K) returns (s: map<K, ScopeInfo>)
    ensures s == Scope(items, key)
  {
    s := map[];
    for n := 0 to |items|
      invariant s == Scope(items[..n], key)
    {
      assert items[..n + 1][..n] == items[..n];
      var k, info := key(items[n].id), InfoOf(items[n]);
      if k in s { s := s[k := MergeInfo(s[k], info)]; } else { s := s[k := info]; }
    }
    assert items[..|items|] == items;
  }

  predicate FirstUnder<I, K(==)>(items: seq<Item<I>>, key: I -> K, k: K, i: int) {
    0 <= i < |items| && key(items[i].id) == k && forall j :: 0 <= j < i ==> key(items[j].id) != k
  }

  /** An entry belongs to the first contributor under its key. */
  lemma {:induction false} ScopeOwner<I, K>(items: seq<Item<I>>, key: I -> K, k: K)
    requires k in Scope(items, key)
    ensures exists i :: FirstUnder(items, key, k, i) && Scope(items, key)[k].source == items[i].source
  {
    var front := items[..|items| - 1];
    if k in Scope(front, key) {
      ScopeOwner(front, key, k);
      var i :| FirstUnder(front, key, k, i) && Scope(front, key)[k].source == front[i].source;
      assert FirstUnder(items, key, k, i);
    } else {
      forall j | 0 <= j < |front| ensures key(items[j].id) != k {
        if key(front[j].id) == k { ScopeKeys(front, key, j); }
      }
      assert FirstUnder(items, key, k, |front|);
    }
  }

  /** An entry carries the most enforcing mode of its contributors. */
  lemma {:induction false} ScopeMode<I, K>(items: seq<Item<I>>, key: I -> K, k: K)
    requires k in Scope(items, key)
    ensures MostEnforcing(items, key, k, Scope(items, key)[k].mode)
  {
    var front, last := items[..|items| - 1], items[|items| - 1];
    assert items == front + [last];
    if k in Scope(front, key) {
      ScopeMode(front, key, k);
      MostEnforcingStep(front, last, key, k, Scope(front, key)[k].mode);
    } else {
      forall x | x in front ensures key(x.id) != k {
        var i :| 0 <= i < |front| && front[i] == x;
        ScopeKeys(front, key, i);
      }
      OnlyContributor(front, last, key, k);
    }
  }

  /** A scope entry exists exactly for the keys of the items; it consents
      exactly when every contributor does, carries the most enforcing mode, and
      the first contributor owns it. */
  lemma {:induction false} ScopeEntry<I, K>(items: seq<Item<I>>, key: I -> K, k: K)
    ensures k in Scope(items, key) <==> exists it :: it in items && key(it.id) == k
    ensures k in Scope(items, key) ==>
      && (Scope(items, key)[k].prune <==> forall it :: it in items && key(it.id) == k ==> it.prune)
      && MostEnforcing(items, key, k, Scope(items, key)[k].mode)
      && (exists it :: it in items && key(it.id) == k && it.mode == Scope(items, key)[k].mode)
      && (exists i :: FirstUnder(items, key, k, i) && Scope(items, key)[k].source == items[i].source)
  {
    if k in Scope(items, key) {
      ScopeOwner(items, key, k);
      ScopeMode(items, key, k);
    }
    if items != [] {
      var front, last := items[..|items| - 1], items[|items| - 1];
      assert items == front + [last];
      ScopeEntry(front, key, k);
      assert last in items && forall it :: it in front ==> it in items;
      assert forall it :: it in items ==> it in front || it == last;
    }
  }

  lemma {:induction false} ScopeKeys<I, K>(items: seq<Item<I>>, key: I -> K, i: nat)
    requires i < |items|
    ensures key(items[i].id) in Scope(items, key)
  {
    if i < |items| - 1 { ScopeKeys(items[..|items| - 1], key, i); }
  }

  lemma AddInfoCommutes<K>(m: map<K, ScopeInfo>, k1: K, x: ScopeInfo, k2: K, y: ScopeInfo)
    requires k1 in m
    ensures AddInfo(AddInfo(m, k1, x), k2, y) == AddInfo(AddInfo(m, k2, y), k1, x)
  {
  }

  lemma AddInfoMerges<I, K>(m: map<K, ScopeInfo>, k: K, x: Item<I>, y: Item<I>)
    ensures AddInfo(m, k, InfoOf(Merge(x, y))) == AddInfo(AddInfo(m, k, InfoOf(x)), k, InfoOf(y))
  {
  }

  /** Merging a contributor into one element is merging it into its entry. */
  lemma {:induction false} ScopeUpdate<I, K>(out: seq<Item<I>>, key: I -> K, i: nat, x: Item<I>)
    requires i < |out| && x.id == out[i].id
    ensures Scope(out[i := Merge(out[i], x)], key) == AddInfo(Scope(out, key), key(x.id), InfoOf(x))
  {
    var out', front, last := out[i := Merge(out[i], x)], out[..|out| - 1], out[|out| - 1];
    if i == |out| - 1 {
      assert out'[..|out| - 1] == front;
      AddInfoMerges(Scope(front, key), key(x.id), out[i], x);
    } else {
      assert out'[..|out| - 1] == front[i := Merge(front[i], x)];
      ScopeUpdate(front, key, i, x);
      ScopeKeys(front, key, i);
      AddInfoCommutes(Scope(front, key), key(x.id), InfoOf(x), key(last.id), InfoOf(last));
    }
  }

  lemma ScopeDedupAdd<I, K>(out: seq<Item<I>>, key: I -> K, it: Item<I>)
    ensures Scope(DedupAdd(out, it), key) == AddInfo(Scope(out, key), key(it.id), InfoOf(it))
  {
    var i := Position(out, it.id);
    if i == |out| {
      assert (out + [it])[..|out|] == out;
    } else {
      ScopeUpdate(out, key, i, it);
    }
  }

  /** The scope of a deduplicated list is the scope of the raw list: mode,
      consent and owner of every entry. */
  lemma {:induction false} ScopeOfDedup<I, K>(items: seq<Item<I>>, key: I -> K)
    ensures Scope(Dedup(items), key) == Scope(items, key)
  {
    if items != [] {
      ScopeOfDedup(items[..|items| - 1], key);
      ScopeDedupAdd(Dedup(items[..|items| - 1]), key, items[|items| - 1]);
    }
  }
}
