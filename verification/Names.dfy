/** Kubernetes object names derived from live names: sanitising, truncating and
    telling colliding names apart. */
module Names {
  import opened Basics

  // ---- characters --------------------------------------------------------

  predicate Alnum(c: char) { 'a' <= c <= 'z' || '0' <= c <= '9' }
  predicate Sep(c: char) { c == '-' || c == '.' }

  /** `strings.ToLower` as far as it can yield an ASCII letter or digit: besides
      A-Z only the Kelvin sign and the dotted capital I do. */
  function Lower(c: char): char {
    if 'A' <= c <= 'Z' then c - 'A' + 'a'
    else if c == '\U{212A}' then 'k'
    else if c == '\U{0130}' then 'i'
    else c
  }

  function Dash(): char -> bool { (c: char) => c == '-' }
  function DotOrDash(): char -> bool { (c: char) => Sep(c) }

  /** Letters, digits and separators, with no two separators in a row. */
  predicate Spaced(s: string) {
    && (forall i :: 0 <= i < |s| ==> Alnum(s[i]) || Sep(s[i]))
    && (forall i :: 0 < i < |s| ==> !(Sep(s[i - 1]) && Sep(s[i])))
  }

  /** A name made of non-empty labels that start and end with a letter or digit. */
  predicate Clean(s: string) { s != [] && Spaced(s) && Alnum(s[0]) && Alnum(s[|s| - 1]) }

  predicate CleanLabel(s: string) { Clean(s) && '.' !in s }

  const MAX_NAME: nat := 253
  const SUFFIX_RESERVE: nat := 6

  /** A DNS subdomain as Kubernetes validates it (section 2.1 of RFC 1123). */
  predicate ValidName(s: string) {
    && 0 < |s| <= 253 && Alnum(s[0]) && Alnum(s[|s| - 1])
    && (forall i :: 0 <= i < |s| ==> Alnum(s[i]) || Sep(s[i]))
    && (forall i :: 0 < i < |s| && (s[i - 1] == '.' || s[i] == '.') ==> Alnum(s[i - 1]) || Alnum(s[i]))
  }

  // ---- slug --------------------------------------------------------------

  datatype Slugging = Slugging(out: string, prevDash: bool)

  function SlugStep(z: Slugging, c: char): Slugging {
    if Alnum(Lower(c)) then Slugging(z.out + [Lower(c)], false)
    else if z.prevDash then z
    else Slugging(z.out + ['-'], true)
  }

  function SlugFold(s: string): Slugging {
    if s == [] then Slugging([], false) else SlugStep(SlugFold(s[..|s| - 1]), s[|s| - 1])
  }

  function Slugged(s: string): string { Trim(SlugFold(s).out, Dash()) }

  method Slug(s: string) returns (r: string)
    ensures r == Slugged(s)
  {
    var b, prevDash := "", false;
    for i := 0 to |s|
      invariant Slugging(b, prevDash) == SlugFold(s[..i])
    {
      assert s[..i + 1][..i] == s[..i];
      var c := Lower(s[i]);
      if Alnum(c) {
        b, prevDash := b + [c], false;
      } else if !prevDash {
        b, prevDash := b + ['-'], true;
      }
    }
    assert s[..|s|] == s;
    r := Trim(b, Dash());
  }

  lemma {:induction false} SlugSpaced(s: string)
    ensures Spaced(SlugFold(s).out) && '.' !in SlugFold(s).out
    ensures SlugFold(s).prevDash <==> SlugFold(s).out != [] && Sep(SlugFold(s).out[|SlugFold(s).out| - 1])
  {
    if s != [] { SlugSpaced(s[..|s| - 1]); }
  }

  lemma {:induction false} TrimLeftSpaced(s: string, cut: char -> bool)
    requires Spaced(s)
    ensures Spaced(TrimLeft(s, cut)) && (TrimLeft(s, cut) != [] ==> !cut(TrimLeft(s, cut)[0]))
    ensures forall c :: c in TrimLeft(s, cut) ==> c in s
  {
    if s != [] && cut(s[0]) {
      assert forall i :: 0 <= i < |s[1..]| ==> s[1..][i] == s[i + 1];
      TrimLeftSpaced(s[1..], cut);
    }
  }

  lemma {:induction false} TrimRightSpaced(s: string, cut: char -> bool)
    requires Spaced(s)
    ensures Spaced(TrimRight(s, cut)) && TrimRight(s, cut) <= s
    ensures TrimRight(s, cut) != [] ==> !cut(TrimRight(s, cut)[|TrimRight(s, cut)| - 1])
  {
    if s != [] && cut(s[|s| - 1]) { TrimRightSpaced(s[..|s| - 1], cut); }
  }

  lemma TrimClean(s: string, cut: char -> bool)
    requires Spaced(s) && forall c :: c in s && Sep(c) ==> cut(c)
    ensures Trim(s, cut) == [] || Clean(Trim(s, cut))
    ensures |Trim(s, cut)| <= |s| && forall c :: c in Trim(s, cut) ==> c in s
  {
    var t := TrimLeft(s, cut);
    TrimLeftSpaced(s, cut);
    TrimRightSpaced(t, cut);
    var r := TrimRight(t, cut);
    TrimLeftShorter(s, cut);
    assert forall c :: c in r ==> c in t;
    if r != [] { assert r[0] in t && r[|r| - 1] in t && r[0] == t[0]; }
  }

  lemma {:induction false} TrimLeftShorter(s: string, cut: char -> bool)
    ensures |TrimLeft(s, cut)| <= |s|
  {
    if s != [] && cut(s[0]) { TrimLeftShorter(s[1..], cut); }
  }

  /** A slug is empty or one clean label. */
  lemma SlugIsClean(s: string)
    ensures Slugged(s) == [] || CleanLabel(Slugged(s))
  {
    SlugSpaced(s);
    TrimClean(SlugFold(s).out, Dash());
  }

  lemma SlugStepFixed(front: string, dashed: bool, c: char)
    requires (Alnum(c) || c == '-') && !(dashed && c == '-')
    ensures SlugStep(Slugging(front, dashed), c) == Slugging(front + [c], c == '-')
  {
  }

  lemma SpacedFront(s: string)
    requires Spaced(s) && '.' !in s && s != []
    ensures var front, last := s[..|s| - 1], s[|s| - 1];
      && Spaced(front) && '.' !in front && (Alnum(last) || last == '-')
      && !(front != [] && Sep(front[|front| - 1]) && last == '-')
  {
    SpacedSlice(s, 0, |s| - 1);
    assert s[|s| - 1] in s;
  }

  lemma {:induction false} SlugFoldFixed(s: string)
    requires Spaced(s) && '.' !in s
    ensures SlugFold(s) == Slugging(s, s != [] && Sep(s[|s| - 1]))
  {
    if s != [] {
      var front, last := s[..|s| - 1], s[|s| - 1];
      SpacedFront(s);
      SlugFoldFixed(front);
      SlugStepFixed(front, front != [] && Sep(front[|front| - 1]), last);
      assert s == front + [last];
    }
  }

  lemma SlugFixed(s: string)
    requires CleanLabel(s)
    ensures Slugged(s) == s
  {
    SlugFoldFixed(s);
  }

  // ---- topicMetaName -----------------------------------------------------

  function SlugLabel(): string -> seq<string> { (l: string) => if Slugged(l) == "" then [] else [Slugged(l)] }

  const PLACEHOLDER: string := "topic"

  function Truncated(s: string): string {
    if |s| > MAX_NAME - SUFFIX_RESERVE then Trim(s[..MAX_NAME - SUFFIX_RESERVE], DotOrDash()) else s
  }

  function MetaName(topicName: string): string {
    var s := Join(FlatMap(Split(topicName, '.'), SlugLabel()), '.');
    Truncated(if s == "" then PLACEHOLDER else s)
  }

  method TopicMetaName(topicName: string) returns (s: string)
    ensures s == MetaName(topicName)
  {
    var labels, out := Split(topicName, '.'), [];
    for i := 0 to |labels|
      invariant out == FlatMap(labels[..i], SlugLabel())
    {
      FlatMapStep(labels, i, SlugLabel());
      var l := Slug(labels[i]);
      if l != "" { out := out + [l]; }
    }
    assert labels[..|labels|] == labels;
    s := Join(out, '.');
    if s == "" { s := PLACEHOLDER; }
    var limit := MAX_NAME - SUFFIX_RESERVE;
    if |s| > limit { s := Trim(s[..limit], DotOrDash()); }
  }

  predicate AllLabels(labels: seq<string>) { forall l :: l in labels ==> CleanLabel(l) }

  lemma {:induction false} SluggedLabels(labels: seq<string>)
    ensures AllLabels(FlatMap(labels, SlugLabel()))
  {
    forall l | l in FlatMap(labels, SlugLabel()) ensures CleanLabel(l) {
      FlatMapMember(labels, SlugLabel(), l);
      var x :| x in labels && l in SlugLabel()(x);
      SlugIsClean(x);
    }
  }

  lemma CleanConcat(a: string, b: string)
    requires Clean(a) && Clean(b)
    ensures Clean(a + "." + b)
  {
    var s := a + "." + b;
    forall i | 0 < i < |s| ensures !(Sep(s[i - 1]) && Sep(s[i])) {
      if i < |a| { assert s[i] == a[i] && s[i - 1] == a[i - 1]; }
      else if i > |a| + 1 { assert s[i] == b[i - |a| - 1] && s[i - 1] == b[i - |a| - 2]; }
    }
  }

  lemma {:induction false} JoinClean(labels: seq<string>)
    requires AllLabels(labels) && labels != []
    ensures Clean(Join(labels, '.'))
  {
    assert labels[0] in labels;
    if |labels| > 1 {
      assert forall l :: l in labels[1..] ==> l in labels;
      JoinClean(labels[1..]);
      CleanConcat(labels[0], Join(labels[1..], '.'));
    }
  }

  lemma TruncatedClean(s: string)
    requires Clean(s)
    ensures Clean(Truncated(s)) && |Truncated(s)| <= MAX_NAME - SUFFIX_RESERVE
  {
    var limit := MAX_NAME - SUFFIX_RESERVE;
    if |s| > limit {
      var p := s[..limit];
      TrimClean(p, DotOrDash());
      assert !DotOrDash()(p[0]);
      assert TrimLeft(p, DotOrDash()) == p;
      KeepsFirst(p, DotOrDash());
    }
  }

  lemma {:induction false} KeepsFirst(s: string, cut: char -> bool)
    requires s != [] && !cut(s[0])
    ensures TrimRight(s, cut) != []
  {
    if cut(s[|s| - 1]) { KeepsFirst(s[..|s| - 1], cut); }
  }

  /** Every derived name is clean and leaves room for a suffix. */
  lemma MetaNameClean(t: string)
    ensures Clean(MetaName(t)) && |MetaName(t)| <= MAX_NAME - SUFFIX_RESERVE
  {
    var labels := FlatMap(Split(t, '.'), SlugLabel());
    SluggedLabels(Split(t, '.'));
    if labels != [] { JoinClean(labels); }
    TruncatedClean(if Join(labels, '.') == "" then PLACEHOLDER else Join(labels, '.'));
  }

  lemma CleanIsValid(s: string)
    requires Clean(s) && |s| <= MAX_NAME
    ensures ValidName(s)
  {
  }

  lemma JoinCons(first: string, rest: seq<string>, sep: char)
    requires rest != []
    ensures Join([first] + rest, sep) == first + [sep] + Join(rest, sep)
  {
    assert ([first] + rest)[1..] == rest;
  }

  lemma Rejoined(s: string, i: nat, rest: seq<string>, sep: char)
    requires i < |s| && s[i] == sep && rest != [] && Join(rest, sep) == s[i + 1..]
    ensures Join([s[..i]] + rest, sep) == s
  {
    JoinCons(s[..i], rest, sep);
    assert s[..i] + [sep] + s[i + 1..] == s;
  }

  lemma {:induction false} LabelsRejoin(s: string)
    ensures Split(s, '.') != [] && Join(Split(s, '.'), '.') == s
    decreases |s|
  {
    var i := IndexOf(s, '.');
    if i < |s| {
      var rest := Split(s[i + 1..], '.');
      LabelsRejoin(s[i + 1..]);
      Rejoined(s, i, rest, '.');
    }
  }

  lemma {:induction false} CleanLabels(s: string)
    requires Clean(s)
    ensures AllLabels(Split(s, '.'))
    decreases |s|
  {
    var i := IndexOf(s, '.');
    if i < |s| {
      assert 0 < i < |s| - 1;
      assert !Sep(s[i + 1]) && !Sep(s[i - 1]);
      SpacedSlice(s, 0, i);
      SpacedSlice(s, i + 1, |s|);
      CleanLabels(s[i + 1..]);
    }
  }

  lemma SpacedSlice(s: string, i: nat, j: nat)
    requires Spaced(s) && i <= j <= |s|
    ensures Spaced(s[i..j])
  {
    forall k | 0 < k < |s[i..j]| ensures !(Sep(s[i..j][k - 1]) && Sep(s[i..j][k])) {
      assert s[i..j][k - 1] == s[i + k - 1] && s[i..j][k] == s[i + k];
    }
  }

  lemma LabelFixed(l: string)
    requires CleanLabel(l)
    ensures SlugLabel()(l) == [l]
  {
    SlugFixed(l);
  }

  lemma AllLabelsSplit(labels: seq<string>)
    requires AllLabels(labels) && labels != []
    ensures AllLabels(labels[..|labels| - 1]) && CleanLabel(labels[|labels| - 1])
  {
    assert labels[|labels| - 1] in labels && forall l :: l in labels[..|labels| - 1] ==> l in labels;
  }

  lemma {:induction false} SlugLabelsFixed(labels: seq<string>)
    requires AllLabels(labels)
    ensures FlatMap(labels, SlugLabel()) == labels
  {
    if labels != [] {
      var front, last := labels[..|labels| - 1], labels[|labels| - 1];
      assert labels == front + [last];
      AllLabelsSplit(labels);
      SlugLabelsFixed(front);
      LabelFixed(last);
      assert FlatMap(labels, SlugLabel()) == FlatMap(front, SlugLabel()) + SlugLabel()(last);
    }
  }

  /** A clean name that leaves room for a suffix is its own metadata name. */
  lemma CleanNameFixed(s: string)
    requires Clean(s) && |s| <= MAX_NAME - SUFFIX_RESERVE
    ensures MetaName(s) == s
  {
    CleanLabels(s);
    SlugLabelsFixed(Split(s, '.'));
    LabelsRejoin(s);
  }

  /** Exactly the clean names that leave room for a suffix are left as they are. */
  lemma UnchangedIff(s: string)
    ensures MetaName(s) == s <==> Clean(s) && |s| <= 247
  {
    MetaNameClean(s);
    if Clean(s) && |s| <= MAX_NAME - SUFFIX_RESERVE { CleanNameFixed(s); }
  }

  /** A valid name with two dashes in a row is renamed all the same. */
  lemma ValidNameRenamed()
    ensures ValidName("a--b") && MetaName("a--b") != "a--b"
  {
    UnchangedIff("a--b");
    assert Sep("a--b"[1]) && Sep("a--b"[2]);
  }

  /** Deriving a name twice changes nothing, and the result is always valid. */
  lemma MetaNameIdempotent(t: string)
    ensures MetaName(MetaName(t)) == MetaName(t) && ValidName(MetaName(t))
  {
    MetaNameClean(t);
    CleanNameFixed(MetaName(t));
    CleanIsValid(MetaName(t));
  }

  // ---- disambiguation ----------------------------------------------------

  /** The base itself, or the base with a number from 2 on. */
  ghost predicate Numbered(base: string, name: string) {
    name == base || exists n: nat :: n >= 2 && name == base + "-" + Itoa(n)
  }

  function Candidate(base: string, n: nat): string { base + "-" + Itoa(n) }

  lemma CandidateInjective(base: string, m: nat, n: nat)
    requires Candidate(base, m) == Candidate(base, n)
    ensures m == n
  {
    assert Candidate(base, m)[|base| + 1..] == Itoa(m) && Candidate(base, n)[|base| + 1..] == Itoa(n);
    ItoaInjective(m, n);
  }

  function Tried(base: string, n: nat): set<string> { set m | 2 <= m < n :: Candidate(base, m) }

  lemma {:induction false} TriedCount(base: string, n: nat)
    requires n >= 2
    ensures |Tried(base, n)| == n - 2
  {
    if n > 2 {
      TriedCount(base, n - 1);
      if Candidate(base, n - 1) in Tried(base, n - 1) {
        var m :| 2 <= m < n - 1 && Candidate(base, n - 1) == Candidate(base, m);
        CandidateInjective(base, n - 1, m);
      }
      assert Tried(base, n) == Tried(base, n - 1) + {Candidate(base, n - 1)};
    } else {
      assert Tried(base, n) == {};
    }
  }

  lemma Pigeonhole(base: string, n: nat, taken: set<string>)
    requires n >= 2 && base in taken && forall m :: 2 <= m < n ==> Candidate(base, m) in taken
    ensures n <= |taken| + 1
  {
    TriedCount(base, n);
    assert base !in Tried(base, n);
    Subset(Tried(base, n) + {base}, taken);
  }

  lemma {:induction false} Subset<T>(a: set<T>, b: set<T>)
    requires a <= b
    ensures |a| <= |b|
  {
    if a != {} {
      var x :| x in a;
      Subset(a - {x}, b - {x});
    }
  }

  /** The base when it is free, else the first free numbered candidate; the
      search ends within one try more than there are names taken. */
  method DisambiguateName(base: string, taken: set<string>) returns (name: string, taken': set<string>)
    ensures name !in taken && taken' == taken + {name}
    ensures base !in taken ==> name == base
    ensures base in taken ==> exists n: nat :: FirstFree(base, taken, n) && n <= |taken| + 1 && name == base + "-" + Itoa(n)
  {
    if base !in taken { return base, taken + {base}; }
    var n := 2;
    while Candidate(base, n) in taken
      invariant n >= 2 && forall m :: 2 <= m < n ==> Candidate(base, m) in taken
      decreases |taken| + 2 - n
    {
      Pigeonhole(base, n + 1, taken);
      n := n + 1;
    }
    Pigeonhole(base, n, taken);
    assert FirstFree(base, taken, n);
    name := Candidate(base, n);
    taken' := taken + {name};
  }

  predicate FirstFree(base: string, taken: set<string>, n: nat) {
    n >= 2 && Candidate(base, n) !in taken && forall m :: 2 <= m < n ==> Candidate(base, m) in taken
  }

  /** With fewer than 99,999 names taken, a suffixed name is still valid. */
  lemma SuffixedNameValid(base: string, n: nat)
    requires Clean(base) && |base| <= MAX_NAME - SUFFIX_RESERVE && n <= 99999
    ensures ValidName(Candidate(base, n))
  {
    ItoaNonEmpty(n);
    ItoaLength(n);
    var s, d := Candidate(base, n), Itoa(n);
    assert forall i :: 0 <= i < |d| ==> d[i] in d;
    assert forall i :: |base| < i < |s| ==> s[i] == d[i - |base| - 1];
    assert forall i :: 0 <= i < |base| ==> s[i] == base[i];
  }

  /** The metadata name of one live name: free, and valid while fewer than
      99,999 names are taken. */
  method NextName(live: string, taken: set<string>) returns (name: string, taken': set<string>)
    ensures name !in taken && taken' == taken + {name}
    ensures MetaName(live) !in taken ==> name == MetaName(live)
    ensures Numbered(MetaName(live), name)
    ensures |taken| <= 99998 ==> ValidName(name)
  {
    var base := TopicMetaName(live);
    MetaNameClean(live);
    CleanIsValid(base);
    name, taken' := DisambiguateName(base, taken);
    if base in taken {
      var n: nat :| FirstFree(base, taken, n) && n <= |taken| + 1 && name == Candidate(base, n);
      if |taken| <= 99998 { SuffixedNameValid(base, n); }
    }
  }

  ghost predicate AllNumbered(live: seq<string>, names: seq<string>) {
    |names| <= |live| && forall i :: 0 <= i < |names| ==> Numbered(MetaName(live[i]), names[i])
  }

  lemma NumberedSnoc(live: seq<string>, names: seq<string>, name: string)
    requires AllNumbered(live, names) && |names| < |live| && Numbered(MetaName(live[|names|]), name)
    ensures AllNumbered(live, names + [name])
  {
  }

  /** The names of a list of live names, in order, apart from each other and
      from those already taken. Topics and mirrors draw on one pool. */
  method AssignNames(live: seq<string>, taken: set<string>) returns (names: seq<string>, taken': set<string>)
    ensures |names| == |live| && Once(names) && forall i :: 0 <= i < |names| ==> names[i] !in taken
    ensures AllNumbered(live, names)
    ensures forall x :: x in taken' <==> x in taken || x in names
    ensures |taken| + |live| <= 99999 ==> forall i :: 0 <= i < |names| ==> ValidName(names[i])
  {
    names, taken' := [], taken;
    for i := 0 to |live|
      invariant |names| == i && Once(names) && forall j :: 0 <= j < i ==> names[j] !in taken
      invariant AllNumbered(live, names)
      invariant forall x :: x in taken' <==> x in taken || x in names
      invariant |taken'| <= |taken| + i
      invariant |taken| + |live| <= 99999 ==> forall j :: 0 <= j < i ==> ValidName(names[j])
    {
      var name;
      name, taken' := NextName(live[i], taken');
      assert forall x :: x in names + [name] <==> x in names || x == name;
      NumberedSnoc(live, names, name);
      names := names + [name];
    }
  }
}
