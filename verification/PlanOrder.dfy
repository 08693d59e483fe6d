/** The display order of a plan: by action, target, field and schema subject. */
module PlanOrder {
  import opened Basics
  import opened Model
  import opened Operations
  import opened Diff

  /** The four keys, compared one after the other. */
  predicate KeysBefore(x: seq<string>, y: seq<string>)
    requires |x| == |y|
  {
    x != [] && (StrLess(x[0], y[0]) || (x[0] == y[0] && KeysBefore(x[1..], y[1..])))
  }

  function OrderKeys(op: Operation): seq<string> { [ActionName(op.action), op.target, op.field, SubjectKey(op)] }

  lemma OpLessIs(a: Operation, b: Operation)
    ensures OpLess(a, b) <==> KeysBefore(OrderKeys(a), OrderKeys(b))
  {
    var x, y := OrderKeys(a), OrderKeys(b);
    StrLessTotal(x[0], y[0]);
    StrLessTotal(x[1], y[1]);
    StrLessTotal(x[2], y[2]);
    assert x[1..][0] == x[1] && y[1..][0] == y[1];
    assert x[1..][1..] == x[2..] && y[1..][1..] == y[2..];
    assert x[2..][1..] == x[3..] && y[2..][1..] == y[3..];
    assert x[3..][1..] == [] && y[3..][1..] == [];
    Unfold(x, y);
    Unfold(x[1..], y[1..]);
    Unfold(x[2..], y[2..]);
    Unfold(x[3..], y[3..]);
  }

  lemma Unfold(x: seq<string>, y: seq<string>)
    requires |x| == |y| && x != []
    ensures KeysBefore(x, y) <==> StrLess(x[0], y[0]) || (x[0] == y[0] && KeysBefore(x[1..], y[1..]))
  {
  }

  /** Neither before the other two ways round: the order is a strict weak one. */
  lemma {:induction false} KeysChain(x: seq<string>, y: seq<string>, z: seq<string>)
    requires |x| == |y| == |z| && !KeysBefore(y, x) && !KeysBefore(z, y)
    ensures !KeysBefore(z, x)
  {
    if x != [] {
      StrLessTotal(x[0], y[0]);
      StrLessTotal(y[0], z[0]);
      StrLessTotal(x[0], z[0]);
      if x[0] == y[0] == z[0] {
        KeysChain(x[1..], y[1..], z[1..]);
      } else if x[0] != y[0] && y[0] != z[0] {
        StrLessTransitive(x[0], y[0], z[0]);
      }
    }
  }

  lemma {:induction false} KeysOneWay(x: seq<string>, y: seq<string>)
    requires |x| == |y| && KeysBefore(x, y)
    ensures !KeysBefore(y, x)
  {
    StrLessTotal(x[0], y[0]);
    if x[0] == y[0] { KeysOneWay(x[1..], y[1..]); }
  }

  predicate Sorted<T>(xs: seq<T>, before: (T, T) -> bool) {
    forall i, j :: 0 <= i < j < |xs| ==> !before(xs[j], xs[i])
  }

  predicate NoneBefore<T>(x: T, xs: seq<T>, before: (T, T) -> bool) { forall i :: 0 <= i < |xs| ==> !before(xs[i], x) }

  lemma SortedCons<T>(x: T, xs: seq<T>, before: (T, T) -> bool)
    ensures Sorted([x] + xs, before) <==> NoneBefore(x, xs, before) && Sorted(xs, before)
  {
    var all := [x] + xs;
    assert forall i :: 0 <= i < |xs| ==> all[i + 1] == xs[i];
    if Sorted(all, before) {
      forall i | 0 <= i < |xs| ensures !before(xs[i], x) { assert !before(all[i + 1], all[0]); }
      forall i, j | 0 <= i < j < |xs| ensures !before(xs[j], xs[i]) { assert !before(all[j + 1], all[i + 1]); }
    }
  }

  lemma NoneBeforeInsert(first: Operation, op: Operation, rest: seq<Operation>)
    requires NoneBefore(first, rest, OpLess) && OpLess(first, op)
    ensures NoneBefore(first, Insert(op, rest, OpLess), OpLess)
  {
    OpLessIs(first, op);
    OpLessIs(op, first);
    KeysOneWay(OrderKeys(first), OrderKeys(op));
    InsertPermutes(op, rest, OpLess);
    var tail := Insert(op, rest, OpLess);
    forall i | 0 <= i < |tail| ensures !OpLess(tail[i], first) {
      assert tail[i] in multiset(tail);
    }
  }

  lemma NoneBeforeChain(op: Operation, first: Operation, rest: seq<Operation>)
    requires NoneBefore(first, rest, OpLess) && !OpLess(first, op)
    ensures NoneBefore(op, [first] + rest, OpLess)
  {
    OpLessIs(first, op);
    forall i | 0 <= i < |rest| ensures !OpLess(rest[i], op) {
      OpLessIs(rest[i], first);
      OpLessIs(rest[i], op);
      KeysChain(OrderKeys(op), OrderKeys(first), OrderKeys(rest[i]));
    }
  }

  lemma {:induction false} InsertSorted(op: Operation, ops: seq<Operation>)
    requires Sorted(ops, OpLess)
    ensures Sorted(Insert(op, ops, OpLess), OpLess)
  {
    if ops == [] { return; }
    var first, rest := ops[0], ops[1..];
    assert ops == [first] + rest;
    SortedCons(first, rest, OpLess);
    if OpLess(first, op) {
      InsertSorted(op, rest);
      NoneBeforeInsert(first, op, rest);
      SortedCons(first, Insert(op, rest, OpLess), OpLess);
    } else {
      NoneBeforeChain(op, first, rest);
      SortedCons(op, ops, OpLess);
    }
  }

  lemma {:induction false} SortSorted(ops: seq<Operation>)
    ensures Sorted(SortBy(ops, OpLess), OpLess)
  {
    if ops != [] {
      SortSorted(ops[1..]);
      InsertSorted(ops[0], SortBy(ops[1..], OpLess));
    }
  }

  /** No operation of a plan comes after one that it precedes in action name,
      target, field and subject. */
  lemma PlanInOrder(d: Desired, live: Live, i: nat, j: nat)
    requires i < j < |Compute(d, live)|
    ensures var a, b := Compute(d, live)[i], Compute(d, live)[j];
      !KeysBefore([ActionName(b.action), b.target, b.field, SubjectKey(b)], [ActionName(a.action), a.target, a.field, SubjectKey(a)])
  {
    SortSorted(Planned(d, live));
    OpLessIs(Compute(d, live)[j], Compute(d, live)[i]);
  }
}
