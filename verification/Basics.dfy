/** Option, string order, stable sorting, filtering and flattening: the parts of
    Go's standard library that the engine leans on. */
module Basics {

  datatype Option<+T> = None | Some(value: T)

  /** Go compares strings byte by byte; on valid UTF-8 that is code point order. */
  predicate StrLess(a: string, b: string) {
    if b == [] then false
    else if a == [] then true
    else a[0] < b[0] || (a[0] == b[0] && StrLess(a[1..], b[1..]))
  }

  lemma {:induction false} StrLessTotal(a: string, b: string)
    ensures a == b <==> !StrLess(a, b) && !StrLess(b, a)
    ensures !(StrLess(a, b) && StrLess(b, a))
  {
    if a != [] && b != [] {
      StrLessTotal(a[1..], b[1..]);
      assert a == [a[0]] + a[1..] && b == [b[0]] + b[1..];
    }
  }

  lemma {:induction false} StrLessTransitive(a: string, b: string, c: string)
    requires StrLess(a, b) && StrLess(b, c)
    ensures StrLess(a, c)
  {
    if a != [] && b != [] && c != [] && a[0] == b[0] == c[0] {
      StrLessTransitive(a[1..], b[1..], c[1..]);
    }
  }

  lemma {:induction false} StrLessPrefix(p: string, a: string, b: string)
    ensures StrLess(p + a, p + b) == StrLess(a, b)
  {
    if p == [] {
      assert p + a == a && p + b == b;
    } else {
      StrLessPrefix(p[1..], a, b);
      assert (p + a)[1..] == p[1..] + a && (p + b)[1..] == p[1..] + b;
    }
  }

  // ---- lists -------------------------------------------------------------

  function FlatMap<T, U>(xs: seq<T>, f: T -> seq<U>): seq<U> {
    if xs == [] then [] else FlatMap(xs[..|xs| - 1], f) + f(xs[|xs| - 1])
  }

  lemma {:induction false} FlatMapMember<T, U>(xs: seq<T>, f: T -> seq<U>, u: U)
    ensures u in FlatMap(xs, f) <==> exists x :: x in xs && u in f(x)
  {
    if xs != [] {
      var front, last := xs[..|xs| - 1], xs[|xs| - 1];
      FlatMapMember(front, f, u);
      assert xs == front + [last];
    }
  }

  /** One more element in a loop that fills a flattened list. */
  lemma FlatMapStep<T, U>(xs: seq<T>, i: nat, f: T -> seq<U>)
    requires i < |xs|
    ensures FlatMap(xs[..i + 1], f) == FlatMap(xs[..i], f) + f(xs[i])
  {
    assert xs[..i + 1][..i] == xs[..i];
  }

  function Filter<T>(xs: seq<T>, p: T -> bool): seq<T> {
    if xs == [] then []
    else Filter(xs[..|xs| - 1], p) + if p(xs[|xs| - 1]) then [xs[|xs| - 1]] else []
  }

  lemma {:induction false} FilterMember<T>(xs: seq<T>, p: T -> bool, x: T)
    ensures x in Filter(xs, p) <==> x in xs && p(x)
  {
    if xs != [] {
      FilterMember(xs[..|xs| - 1], p, x);
      assert xs == xs[..|xs| - 1] + [xs[|xs| - 1]];
    }
  }

  lemma {:induction false} FilterConcat<T>(xs: seq<T>, ys: seq<T>, p: T -> bool)
    ensures Filter(xs + ys, p) == Filter(xs, p) + Filter(ys, p)
  {
    if ys == [] {
      assert xs + ys == xs;
    } else {
      FilterConcat(xs, ys[..|ys| - 1], p);
      assert (xs + ys)[..|xs + ys| - 1] == xs + ys[..|ys| - 1];
    }
  }

  lemma {:induction false} FilterCongruent<T>(xs: seq<T>, p: T -> bool, q: T -> bool)
    requires forall x :: x in xs ==> p(x) == q(x)
    ensures Filter(xs, p) == Filter(xs, q)
  {
    if xs != [] {
      assert xs[|xs| - 1] in xs && forall x :: x in xs[..|xs| - 1] ==> x in xs;
      FilterCongruent(xs[..|xs| - 1], p, q);
    }
  }

  lemma {:induction false} FilterEverything<T>(xs: seq<T>, p: T -> bool)
    requires forall x :: x in xs ==> p(x)
    ensures Filter(xs, p) == xs
  {
    if xs != [] {
      var front, last := xs[..|xs| - 1], xs[|xs| - 1];
      assert xs == front + [last];
      assert p(last) && forall x :: x in front ==> x in xs;
      FilterEverything(front, p);
    }
  }

  function Members<T>(xs: seq<T>): set<T> { set x | x in xs }

  predicate Unique<T, K(==)>(xs: seq<T>, key: T -> K) {
    forall i, j :: 0 <= i < j < |xs| ==> key(xs[i]) != key(xs[j])
  }

  predicate Once<T(==)>(xs: seq<T>) { forall i, j :: 0 <= i < j < |xs| ==> xs[i] != xs[j] }

  /** The last element with the given key, as a Go map filled in a loop keeps it. */
  function Lookup<T, K(==)>(xs: seq<T>, key: T -> K, k: K): (r: Option<T>)
    ensures r.Some? ==> r.value in xs && key(r.value) == k
    ensures r.None? ==> forall x :: x in xs ==> key(x) != k
  {
    if xs == [] then None
    else if key(xs[|xs| - 1]) == k then Some(xs[|xs| - 1])
    else
      assert xs == xs[..|xs| - 1] + [xs[|xs| - 1]];
      Lookup(xs[..|xs| - 1], key, k)
  }

  lemma LookupUnique<T, K>(xs: seq<T>, key: T -> K, x: T)
    requires Unique(xs, key) && x in xs
    ensures Lookup(xs, key, key(x)) == Some(x)
  {
    var y := Lookup(xs, key, key(x)).value;
    var i :| 0 <= i < |xs| && xs[i] == x;
    var j :| 0 <= j < |xs| && xs[j] == y;
  }

  lemma MultisetSplit<T>(xs: seq<T>, i: nat)
    requires i < |xs|
    ensures multiset(xs) == multiset(xs[..i] + xs[i + 1..]) + multiset([xs[i]])
  {
    assert xs == xs[..i] + [xs[i]] + xs[i + 1..];
  }

  lemma TwoIndices<T>(xs: seq<T>, x: T)
    ensures multiset(xs)[x] >= 2 <==> exists i, j :: 0 <= i < j < |xs| && xs[i] == x && xs[j] == x
  {
    if x in xs {
      var i :| 0 <= i < |xs| && xs[i] == x;
      MultisetSplit(xs, i);
      var rest := xs[..i] + xs[i + 1..];
      assert multiset(rest)[x] >= 1 <==> x in rest;
      if x in rest {
        var k :| 0 <= k < |rest| && rest[k] == x;
        if k < i { assert xs[k] == x; } else { assert xs[k + 1] == x; }
      }
      forall j | 0 <= j < |xs| && j != i && xs[j] == x ensures x in rest {
        assert x == if j < i then rest[j] else rest[j - 1];
      }
    } else {
      assert x !in multiset(xs);
    }
  }

  /** Uniqueness of keys survives reordering. */
  lemma UniquePermutation<T, K>(xs: seq<T>, ys: seq<T>, key: T -> K)
    requires Unique(xs, key) && multiset(xs) == multiset(ys)
    ensures Unique(ys, key)
  {
    forall i, j | 0 <= i < j < |ys| ensures key(ys[i]) != key(ys[j]) {
      assert ys[i] in multiset(xs) && ys[j] in multiset(xs);
      if ys[i] == ys[j] {
        TwoIndices(ys, ys[i]);
        TwoIndices(xs, ys[i]);
        assert false;
      }
      var p :| 0 <= p < |xs| && xs[p] == ys[i];
      var q :| 0 <= q < |xs| && xs[q] == ys[j];
    }
  }

  lemma SameMembers<T>(xs: seq<T>, ys: seq<T>, x: T)
    requires multiset(xs) == multiset(ys)
    ensures x in xs <==> x in ys
  {
    assert x in xs <==> x in multiset(xs);
  }

  lemma LookupPermutation<T, K>(xs: seq<T>, ys: seq<T>, key: T -> K, k: K)
    requires Unique(xs, key) && multiset(xs) == multiset(ys)
    ensures Lookup(xs, key, k) == Lookup(ys, key, k)
  {
    UniquePermutation(xs, ys, key);
    var a, b := Lookup(xs, key, k), Lookup(ys, key, k);
    if a.Some? {
      SameMembers(xs, ys, a.value);
      LookupUnique(ys, key, a.value);
    } else if b.Some? {
      SameMembers(xs, ys, b.value);
    }
  }

  // ---- sorting -----------------------------------------------------------

  /** Inserts before the first element that is not smaller, which makes
      insertion from the right end stable. */
  function Insert<T>(x: T, xs: seq<T>, less: (T, T) -> bool): seq<T> {
    if xs == [] then [x]
    else if less(xs[0], x) then [xs[0]] + Insert(x, xs[1..], less)
    else [x] + xs
  }

  function SortBy<T>(xs: seq<T>, less: (T, T) -> bool): seq<T> {
    if xs == [] then [] else Insert(xs[0], SortBy(xs[1..], less), less)
  }

  lemma {:induction false} InsertPermutes<T>(x: T, xs: seq<T>, less: (T, T) -> bool)
    ensures multiset(Insert(x, xs, less)) == multiset([x]) + multiset(xs)
  {
    if xs != [] {
      assert xs == [xs[0]] + xs[1..];
      if less(xs[0], x) { InsertPermutes(x, xs[1..], less); }
    }
  }

  lemma {:induction false} SortPermutes<T>(xs: seq<T>, less: (T, T) -> bool)
    ensures multiset(SortBy(xs, less)) == multiset(xs)
    ensures |SortBy(xs, less)| == |xs|
    ensures forall x :: x in SortBy(xs, less) <==> x in xs
  {
    if xs != [] {
      SortPermutes(xs[1..], less);
      InsertPermutes(xs[0], SortBy(xs[1..], less), less);
      assert xs == [xs[0]] + xs[1..];
    }
    assert |multiset(SortBy(xs, less))| == |multiset(xs)|;
    forall x ensures x in SortBy(xs, less) <==> x in xs {
      SameMembers(SortBy(xs, less), xs, x);
    }
  }

  predicate KeyLess<T>(key: T -> string, a: T, b: T) { StrLess(key(a), key(b)) }

  function OnKey<T>(key: T -> string): (T, T) -> bool { (a, b) => KeyLess(key, a, b) }

  /** `sort.Slice` by a string key. */
  function SortOn<T>(xs: seq<T>, key: T -> string): seq<T> { SortBy(xs, OnKey(key)) }

  predicate Ascending<T>(xs: seq<T>, key: T -> string) {
    forall i, j :: 0 <= i < j < |xs| ==> !StrLess(key(xs[j]), key(xs[i]))
  }

  lemma {:induction false} InsertAscending<T>(x: T, xs: seq<T>, key: T -> string)
    requires Ascending(xs, key)
    ensures Ascending(Insert(x, xs, OnKey(key)), key)
  {
    var less := OnKey(key);
    if xs != [] && less(xs[0], x) {
      InsertAscending(x, xs[1..], key);
      var tail := Insert(x, xs[1..], less);
      InsertPermutes(x, xs[1..], less);
      forall y | y in tail ensures !StrLess(key(y), key(xs[0])) {
        assert y in multiset(tail);
        if y != x {
          assert y in xs[1..];
        } else {
          StrLessTotal(key(xs[0]), key(x));
        }
      }
    } else if xs != [] {
      forall y | y in xs ensures !StrLess(key(y), key(x)) {
        if StrLess(key(y), key(x)) {
          var j :| 0 <= j < |xs| && xs[j] == y;
          StrLessTotal(key(xs[0]), key(y));
          if key(xs[0]) != key(y) {
            StrLessTransitive(key(xs[0]), key(y), key(x));
          }
        }
      }
    }
  }

  lemma {:induction false} SortAscending<T>(xs: seq<T>, key: T -> string)
    ensures Ascending(SortOn(xs, key), key)
  {
    if xs != [] {
      SortAscending(xs[1..], key);
      InsertAscending(xs[0], SortOn(xs[1..], key), key);
    }
  }

  lemma SameFirst<T>(xs: seq<T>, ys: seq<T>, key: T -> string)
    requires Ascending(xs, key) && Ascending(ys, key) && xs != [] && ys != []
    requires Unique(xs, key) && multiset(xs) == multiset(ys)
    ensures xs[0] == ys[0]
  {
    assert xs[0] in multiset(ys) && ys[0] in multiset(xs);
    var i :| 0 <= i < |ys| && ys[i] == xs[0];
    var j :| 0 <= j < |xs| && xs[j] == ys[0];
    StrLessTotal(key(xs[0]), key(ys[0]));
  }

  lemma TailMultiset<T>(xs: seq<T>)
    requires xs != []
    ensures multiset(xs[1..]) == multiset(xs) - multiset{xs[0]}
  {
    assert xs == [xs[0]] + xs[1..];
  }

  lemma TailOrdered<T>(xs: seq<T>, key: T -> string)
    requires xs != [] && Ascending(xs, key)
    ensures Ascending(xs[1..], key) && (Unique(xs, key) ==> Unique(xs[1..], key))
  {
  }

  lemma HeadAndTail<T>(xs: seq<T>, ys: seq<T>)
    requires xs != [] && ys != [] && xs[0] == ys[0] && xs[1..] == ys[1..]
    ensures xs == ys
  {
    assert xs == [xs[0]] + xs[1..] && ys == [ys[0]] + ys[1..];
  }

  lemma SameLength<T>(xs: seq<T>, ys: seq<T>)
    requires multiset(xs) == multiset(ys)
    ensures |xs| == |ys|
  {
    assert |multiset(xs)| == |multiset(ys)|;
  }

  lemma {:induction false} AscendingUnique<T>(xs: seq<T>, ys: seq<T>, key: T -> string)
    requires Ascending(xs, key) && Ascending(ys, key)
    requires Unique(xs, key) && multiset(xs) == multiset(ys)
    ensures xs == ys
  {
    SameLength(xs, ys);
    if xs != [] {
      SameFirst(xs, ys, key);
      TailMultiset(xs);
      TailMultiset(ys);
      TailOrdered(xs, key);
      TailOrdered(ys, key);
      AscendingUnique(xs[1..], ys[1..], key);
      HeadAndTail(xs, ys);
    }
  }

  /** Sorting by a key that is unique in the list erases the input order. */
  lemma SortCanonical<T>(xs: seq<T>, ys: seq<T>, key: T -> string)
    requires Unique(xs, key) && multiset(xs) == multiset(ys)
    ensures SortOn(xs, key) == SortOn(ys, key)
  {
    SortPermutes(xs, OnKey(key));
    SortPermutes(ys, OnKey(key));
    SortAscending(xs, key);
    SortAscending(ys, key);
    UniquePermutation(xs, SortOn(xs, key), key);
    AscendingUnique(SortOn(xs, key), SortOn(ys, key), key);
  }

  lemma SortUnique<T, K>(xs: seq<T>, less: (T, T) -> bool, key: T -> K)
    requires Unique(xs, key)
    ensures Unique(SortBy(xs, less), key)
  {
    SortPermutes(xs, less);
    UniquePermutation(xs, SortBy(xs, less), key);
  }

  function Same<T>(): T -> T { (x: T) => x }

  lemma OnceSorted(xs: seq<string>)
    ensures Once(xs) ==> Once(SortOn(xs, Same()))
    ensures |SortOn(xs, Same())| == |xs| && forall x :: x in SortOn(xs, Same()) <==> x in xs
  {
    SortPermutes(xs, OnKey(Same()));
    if Once(xs) { UniquePermutation(xs, SortOn(xs, Same()), Same()); }
  }

  lemma OnlyOne(xs: seq<string>, s: set<string>, g: string)
    requires Once(xs) && forall x :: x in xs <==> x in s
    ensures s == {g} <==> xs == [g]
  {
    if |xs| >= 2 {
      assert xs[0] != xs[1] && xs[0] in s && xs[1] in s;
    } else if |xs| == 1 {
      assert xs == [xs[0]] && s == {xs[0]};
    }
  }

  lemma Grow<T>(start: set<T>, done: set<T>, mid: set<T>, more: set<T>, end: set<T>)
    requires mid == start + done && end == mid + more
    ensures end == start + (done + more)
  {
  }

  // ---- ordered enumeration of a set of strings ---------------------------

  predicate AtMost(x: string, y: string) { x == y || StrLess(x, y) }

  lemma AtMostTransitive(x: string, y: string, z: string)
    requires AtMost(x, y) && AtMost(y, z)
    ensures AtMost(x, z)
  {
    if x != y && y != z { StrLessTransitive(x, y, z); }
  }

  predicate IsLeast(x: string, s: set<string>) {
    x in s && forall y {:trigger AtMost(x, y)} :: y in s ==> AtMost(x, y)
  }

  lemma {:induction false} LeastExists(s: set<string>)
    requires s != {}
    ensures exists x :: IsLeast(x, s)
  {
    var x :| x in s;
    var rest := s - {x};
    if rest == {} {
      forall y | y in s ensures AtMost(x, y) { assert y == x || y in rest; }
      assert IsLeast(x, s);
    } else {
      LeastExists(rest);
      var m :| IsLeast(m, rest);
      StrLessTotal(x, m);
      if AtMost(x, m) {
        forall y | y in s ensures AtMost(x, y) {
          if y in rest { AtMostTransitive(x, m, y); }
        }
        assert IsLeast(x, s);
      } else {
        assert IsLeast(m, s);
      }
    }
  }

  lemma LeastUnique(s: set<string>, x: string, y: string)
    requires IsLeast(x, s) && IsLeast(y, s)
    ensures x == y
  {
    assert AtMost(x, y) && AtMost(y, x);
    StrLessTotal(x, y);
  }

  function Least(s: set<string>): (r: string)
    requires s != {}
    ensures r in s
  {
    LeastExists(s);
    assert forall x, y :: IsLeast(x, s) && IsLeast(y, s) ==> x == y by {
      forall x, y | IsLeast(x, s) && IsLeast(y, s) { LeastUnique(s, x, y); }
    }
    var r :| r in s && IsLeast(r, s);
    r
  }

  /** `sort.Strings` over the keys of a map. */
  function SortedKeys(s: set<string>): seq<string>
    decreases |s|
  {
    if s == {} then [] else var m := Least(s); [m] + SortedKeys(s - {m})
  }

  lemma {:induction false} SortedKeysMembers(s: set<string>)
    ensures forall x :: x in SortedKeys(s) <==> x in s
    decreases |s|
  {
    if s != {} {
      SortedKeysMembers(s - {Least(s)});
    }
  }

  lemma {:induction false} SortedKeysOnce(s: set<string>)
    ensures |SortedKeys(s)| == |s|
    ensures forall i, j :: 0 <= i < j < |s| ==> SortedKeys(s)[i] != SortedKeys(s)[j]
    decreases |s|
  {
    if s != {} {
      SortedKeysOnce(s - {Least(s)});
      SortedKeysMembers(s - {Least(s)});
    }
  }

  // ---- trimming and splitting ----------------------------------------------

  /** `strings.Trim` with a set of characters. */
  function TrimLeft(s: string, cut: char -> bool): string {
    if s != [] && cut(s[0]) then TrimLeft(s[1..], cut) else s
  }
  function TrimRight(s: string, cut: char -> bool): string {
    if s != [] && cut(s[|s| - 1]) then TrimRight(s[..|s| - 1], cut) else s
  }
  function Trim(s: string, cut: char -> bool): string { TrimRight(TrimLeft(s, cut), cut) }

  function IndexOf(s: string, c: char): (i: nat)
    ensures i <= |s| && (i < |s| ==> s[i] == c) && forall j :: 0 <= j < i ==> s[j] != c
  {
    if s == [] || s[0] == c then 0 else 1 + IndexOf(s[1..], c)
  }

  /** `strings.Split` on one character. */
  function Split(s: string, sep: char): seq<string>
    decreases |s|
  {
    var i := IndexOf(s, sep);
    if i == |s| then [s] else [s[..i]] + Split(s[i + 1..], sep)
  }

  // ---- decimal numerals --------------------------------------------------

  function Digit(d: nat): char requires d < 10 { ['0', '1', '2', '3', '4', '5', '6', '7', '8', '9'][d] }

  /** strconv.Itoa */
  function Itoa(n: int): string
    decreases n < 0, if n < 0 then -n else n
  {
    if n < 0 then "-" + Itoa(-n)
    else if n < 10 then [Digit(n)]
    else Itoa(n / 10) + [Digit(n % 10)]
  }

  lemma SameLast(x: string, c: char, y: string, d: char)
    requires x + [c] == y + [d]
    ensures x == y && c == d
  {
    assert |x + [c]| == |y + [d]|;
    assert x == (x + [c])[..|x|] && y == (y + [d])[..|y|];
    assert c == (x + [c])[|x|] && d == (y + [d])[|y|];
  }

  lemma {:induction false} ItoaInjective(a: nat, b: nat)
    requires Itoa(a) == Itoa(b)
    ensures a == b
  {
    if a >= 10 && b >= 10 {
      SameLast(Itoa(a / 10), Digit(a % 10), Itoa(b / 10), Digit(b % 10));
      ItoaInjective(a / 10, b / 10);
    } else if a >= 10 {
      ItoaNonEmpty(a / 10);
    } else if b >= 10 {
      ItoaNonEmpty(b / 10);
    }
  }

  lemma {:induction false} ItoaNonEmpty(n: nat)
    ensures |Itoa(n)| >= 1
    ensures forall c :: c in Itoa(n) ==> '0' <= c <= '9'
  {
    if n >= 10 { ItoaNonEmpty(n / 10); }
  }

  lemma ItoaLength(n: nat)
    requires n <= 99999
    ensures |Itoa(n)| <= 5
  {
    if n >= 10 {
      ItoaShort(n / 10, 4);
    }
  }

  lemma {:induction false} ItoaShort(n: nat, d: nat)
    requires (d == 1 && n < 10) || (d == 2 && n < 100) || (d == 3 && n < 1000) || (d == 4 && n < 10000)
    ensures |Itoa(n)| <= d
  {
    if n >= 10 { ItoaShort(n / 10, d - 1); }
  }

  // ---- separated identity keys -------------------------------------------

  function Join(parts: seq<string>, sep: char): string {
    if parts == [] then []
    else if |parts| == 1 then parts[0]
    else parts[0] + [sep] + Join(parts[1..], sep)
  }

  lemma {:induction false} JoinSnoc(parts: seq<string>, last: string, sep: char)
    requires parts != []
    ensures Join(parts + [last], sep) == Join(parts, sep) + [sep] + last
  {
    if |parts| > 1 {
      JoinSnoc(parts[1..], last, sep);
      assert (parts + [last])[1..] == parts[1..] + [last];
    } else {
      assert (parts + [last])[1..] == [last];
    }
  }

  predicate FreeOf(parts: seq<string>, sep: char) {
    forall p :: p in parts ==> sep !in p
  }

  lemma {:induction false} SplitAtSeparator(a: string, b: string, x: string, y: string, sep: char)
    requires sep !in a && sep !in b && a + [sep] + x == b + [sep] + y
    ensures a == b && x == y
  {
    var l, r := a + [sep] + x, b + [sep] + y;
    assert forall i :: 0 <= i < |a| ==> l[i] == a[i] && l[i] != sep;
    assert forall i :: 0 <= i < |b| ==> r[i] == b[i] && r[i] != sep;
    assert l[|a|] == sep && r[|b|] == sep;
    assert l[..|a|] == a && r[..|b|] == b;
    assert l[|a| + 1..] == x && r[|b| + 1..] == y;
  }

  /** Joining separator-free fields loses nothing, whatever their number. */
  lemma {:induction false} JoinInjective(a: seq<string>, b: seq<string>, sep: char)
    requires a != [] && b != [] && FreeOf(a, sep) && FreeOf(b, sep)
    requires Join(a, sep) == Join(b, sep)
    ensures a == b
  {
    assert a[0] in a && b[0] in b;
    assert |a| > 1 ==> Join(a, sep)[|a[0]|] == sep;
    assert |b| > 1 ==> Join(b, sep)[|b[0]|] == sep;
    if |a| > 1 && |b| > 1 {
      SplitAtSeparator(a[0], b[0], Join(a[1..], sep), Join(b[1..], sep), sep);
      JoinInjective(a[1..], b[1..], sep);
      assert a == [a[0]] + a[1..] && b == [b[0]] + b[1..];
    } else {
      assert |a| == 1 && |b| == 1;
      assert a == [a[0]] && b == [b[0]];
    }
  }
}
