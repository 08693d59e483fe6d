/** Importing ACLs: folding live tuples into topic access, grouping the rest
    into policies, and checking that the result compiles back. */
module ImportAcl {
  import opened Basics
  import opened Model
  import opened Access
  import opened Manifests

  /** What compiling a manifest makes of a tuple written to it. */
  function Defaulted(a: Acl): Acl {
    a.(host := HostOrStar(a.host), permission := OrElse(a.permission, "Allow"), patternType := OrElse(a.patternType, "literal"))
  }

  function Compiled(acls: set<Acl>): set<Acl> { set a | a in acls :: Defaulted(a) }

  lemma CompiledUnion(x: set<Acl>, y: set<Acl>)
    ensures Compiled(x + y) == Compiled(x) + Compiled(y)
  {
    forall a | a in Compiled(x) + Compiled(y) ensures a in Compiled(x + y) {
      var b :| b in x + y && Defaulted(b) == a;
    }
  }

  // ---- classification ----------------------------------------------------

  datatype Holder = Holder(principal: string, host: string)

  function HolderOf(a: Acl): Holder { Holder(a.principal, a.host) }

  predicate FoldEligible(a: Acl) { a.permission == "Allow" && a.patternType == "literal" }

  predicate HolderLess(x: Holder, y: Holder) {
    if x.principal != y.principal then StrLess(x.principal, y.principal) else StrLess(x.host, y.host)
  }

  function OpSet(acls: seq<Acl>): set<string> { set a | a in acls :: a.operation }

  /** The host written to a manifest: none for the wildcard. */
  function ShownHost(h: string): string { if h == "*" then "" else h }

  type Buckets = map<string, seq<Acl>>

  ghost predicate Filed(b: Buckets, a: Acl) { a.resourceName in b && a in b[a.resourceName] }

  /** Every bucket holds tuples of one holder on one resource. */
  ghost predicate Bucketed(b: Buckets, h: Holder, resourceType: string) {
    forall n, a :: n in b && a in b[n] ==>
      FoldEligible(a) && HolderOf(a) == h && a.resourceType == resourceType && a.resourceName == n
  }

  function Into(b: Buckets, a: Acl): Buckets {
    b[a.resourceName := (if a.resourceName in b then b[a.resourceName] else []) + [a]]
  }

  /** On neither an imported topic nor a group. */
  predicate Unfiled(a: Acl, names: set<string>) {
    a.resourceType != "group" && !(a.resourceType == "topic" && a.resourceName in names)
  }

  method BucketByResource(h: Holder, acls: seq<Acl>, names: set<string>) returns (onTopic: Buckets, onGroup: Buckets, raw: seq<Acl>)
    requires forall a :: a in acls ==> FoldEligible(a) && HolderOf(a) == h
    ensures Bucketed(onTopic, h, "topic") && Bucketed(onGroup, h, "group") && onTopic.Keys <= names
    ensures forall a :: a in acls <==> Filed(onTopic, a) || Filed(onGroup, a) || a in raw
    ensures forall a :: a in raw ==> Unfiled(a, names)
  {
    onTopic, onGroup, raw := map[], map[], [];
    for i := 0 to |acls|
      invariant Bucketed(onTopic, h, "topic") && Bucketed(onGroup, h, "group") && onTopic.Keys <= names
      invariant forall a :: a in acls[..i] <==> Filed(onTopic, a) || Filed(onGroup, a) || a in raw
      invariant forall a :: a in raw ==> Unfiled(a, names)
    {
      var a := acls[i];
      assert acls[..i + 1] == acls[..i] + [a];
      if a.resourceType == "topic" && a.resourceName in names {
        FiledInto(onTopic, a);
        onTopic := Into(onTopic, a);
      } else if a.resourceType == "group" {
        FiledInto(onGroup, a);
        onGroup := Into(onGroup, a);
      } else {
        raw := raw + [a];
      }
    }
    assert acls[..|acls|] == acls;
  }

  lemma FiledInto(b: Buckets, a: Acl)
    ensures forall x :: Filed(Into(b, a), x) <==> Filed(b, x) || x == a
    ensures forall n, x :: n in Into(b, a) && x in Into(b, a)[n] ==> (n in b && x in b[n]) || (n == a.resourceName && x == a)
  {
  }

  const PRODUCER_OPS: set<string> := {"Write", "Describe"}
  const CONSUMER_OPS: set<string> := {"Read", "Describe"}
  const GROUP_OPS: set<string> := {"Read"}

  /** Everything filed under the given names. */
  function Under(b: Buckets, names: seq<string>): set<Acl> { set n, a | n in names && n in b && a in b[n] :: a }

  lemma UnderSnoc(b: Buckets, names: seq<string>, n: string)
    requires n in b
    ensures Under(b, names + [n]) == Under(b, names) + Members(b[n])
  {
  }

  lemma MembersConcat(xs: seq<Acl>, ys: seq<Acl>)
    ensures Members(xs + ys) == Members(xs) + Members(ys)
  {
  }

  lemma CompiledUnderSnoc(b: Buckets, names: seq<string>, n: string)
    requires n in b
    ensures Compiled(Under(b, names + [n])) == Compiled(Under(b, names)) + Compiled(Members(b[n]))
  {
    UnderSnoc(b, names, n);
    CompiledUnion(Under(b, names), Members(b[n]));
  }

  lemma CompiledConcat(xs: seq<Acl>, ys: seq<Acl>)
    ensures Compiled(Members(xs + ys)) == Compiled(Members(xs)) + Compiled(Members(ys))
  {
    MembersConcat(xs, ys);
    CompiledUnion(Members(xs), Members(ys));
  }

  /** Two conserving steps make one: what is granted and what is raw together
      grow by what was live. */
  lemma Conserving<T>(start: set<T>, live: set<T>, mid: set<T>, raw: set<T>, more: set<T>, end: set<T>, moreRaw: set<T>)
    requires mid + raw == start + live && end + moreRaw == mid + more
    ensures end + (raw + moreRaw) == start + (live + more)
  {
    forall x ensures x in end + (raw + moreRaw) <==> x in start + (live + more) {
      assert x in mid + raw <==> x in start + live;
      assert x in end + moreRaw <==> x in mid + more;
    }
  }

  ghost predicate Holding(b: Buckets, names: seq<string>, ops: set<string>) {
    forall n :: n in names ==> n in b && OpSet(b[n]) == ops
  }

  /** None of the given names is missing from the list. */
  ghost predicate AllHolding(b: Buckets, names: set<string>, listed: seq<string>, ops: set<string>) {
    forall n :: n in names && n in b && OpSet(b[n]) == ops ==> n in listed
  }

  method ClassifyTopics(b: Buckets) returns (producers: seq<string>, consumers: seq<string>, raw: seq<Acl>)
    ensures Holding(b, producers, PRODUCER_OPS) && Holding(b, consumers, CONSUMER_OPS)
    ensures AllHolding(b, b.Keys, producers, PRODUCER_OPS) && AllHolding(b, b.Keys, consumers, CONSUMER_OPS)
    ensures forall n, a :: n in b && a in b[n] ==> a in Under(b, producers) + Under(b, consumers) + Members(raw)
    ensures forall a :: a in raw ==> exists n :: n in b && a in b[n]
  {
    producers, consumers, raw := [], [], [];
    var left := b.Keys;
    while left != {}
      invariant left <= b.Keys && Holding(b, producers, PRODUCER_OPS) && Holding(b, consumers, CONSUMER_OPS)
      invariant AllHolding(b, b.Keys - left, producers, PRODUCER_OPS) && AllHolding(b, b.Keys - left, consumers, CONSUMER_OPS)
      invariant forall n, a :: n in b && n !in left && a in b[n] ==> n in producers || n in consumers || a in raw
      invariant forall a :: a in raw ==> exists n :: n in b && a in b[n]
      decreases |left|
    {
      var n :| n in left;
      left := left - {n};
      if OpSet(b[n]) == PRODUCER_OPS { producers := producers + [n]; }
      else if OpSet(b[n]) == CONSUMER_OPS { consumers := consumers + [n]; }
      else { raw := raw + b[n]; }
    }
  }

  method ClassifyGroups(b: Buckets) returns (readers: seq<string>, raw: seq<Acl>)
    ensures Holding(b, readers, GROUP_OPS) && AllHolding(b, b.Keys, readers, GROUP_OPS) && Once(readers)
    ensures forall n, a :: n in b && a in b[n] ==> a in Under(b, readers) + Members(raw)
    ensures forall a :: a in raw ==> exists n :: n in b && a in b[n]
  {
    readers, raw := [], [];
    var left := b.Keys;
    while left != {}
      invariant left <= b.Keys && Holding(b, readers, GROUP_OPS)
      invariant AllHolding(b, b.Keys - left, readers, GROUP_OPS) && Once(readers) && forall n :: n in readers ==> n !in left
      invariant forall n, a :: n in b && n !in left && a in b[n] ==> n in readers || a in raw
      invariant forall a :: a in raw ==> exists n :: n in b && a in b[n]
      decreases |left|
    {
      var n :| n in left;
      left := left - {n};
      if OpSet(b[n]) == GROUP_OPS { readers := readers + [n]; } else { raw := raw + b[n]; }
    }
  }

  lemma SortedUnder(b: Buckets, names: seq<string>, ops: set<string>)
    requires Holding(b, names, ops)
    ensures Under(b, SortOn(names, Same())) == Under(b, names) && Holding(b, SortOn(names, Same()), ops)
    ensures |SortOn(names, Same())| == |names|
  {
    SortPermutes(names, OnKey(Same()));
  }

  // ---- folding -----------------------------------------------------------

  function FoldedProducer(h: Holder): Producer { Producer(h.principal, ShownHost(h.host), []) }
  function FoldedConsumer(h: Holder, g: string): Consumer { Consumer(h.principal, ShownHost(h.host), g, [], []) }

  function ProducerLines(h: Holder, ts: seq<string>): set<Entry> { set t | t in ts :: Produces(t, FoldedProducer(h)) }
  function ConsumerLines(h: Holder, ts: seq<string>, g: string): set<Entry> {
    set t | t in ts :: Consumes(t, FoldedConsumer(h, g))
  }

  /** Consumer topics pair with a group read only when there is exactly one. */
  function PairedLines(h: Holder, ts: seq<string>, groupReads: seq<string>): set<Entry> {
    if |groupReads| == 1 then ConsumerLines(h, ts, groupReads[0]) else {}
  }

  lemma ProducerLinesSnoc(h: Holder, ts: seq<string>, t: string)
    ensures ProducerLines(h, ts + [t]) == ProducerLines(h, ts) + {Produces(t, FoldedProducer(h))}
  {
  }

  lemma ConsumerLinesSnoc(h: Holder, ts: seq<string>, t: string, g: string)
    ensures ConsumerLines(h, ts + [t], g) == ConsumerLines(h, ts, g) + {Consumes(t, FoldedConsumer(h, g))}
  {
  }

  /** A bucket is determined by its operations. */
  lemma BucketExact(b: Buckets, h: Holder, resourceType: string, n: string, ops: seq<string>, a: Acl)
    requires Bucketed(b, h, resourceType) && n in b
    requires OpSet(b[n]) == set op | op in ops
    ensures a in Compiled(Members(b[n])) <==> a in Expand(Grant(h.principal, ShownHost(h.host), resourceType, n), ops)
  {
    if a in Compiled(Members(b[n])) {
      var x :| x in b[n] && Defaulted(x) == a;
      assert x.operation in OpSet(b[n]);
    }
    if a in Expand(Grant(h.principal, ShownHost(h.host), resourceType, n), ops) {
      assert a.operation in OpSet(b[n]);
      var x :| x in b[n] && x.operation == a.operation;
      assert Defaulted(x) == a && x in Members(b[n]);
    }
  }

  lemma ProducerExact(b: Buckets, h: Holder, n: string)
    requires Bucketed(b, h, "topic") && n in b && OpSet(b[n]) == PRODUCER_OPS
    ensures ProducerSet(n, FoldedProducer(h)) == Compiled(Members(b[n]))
  {
    forall a ensures a in ProducerSet(n, FoldedProducer(h)) <==> a in Compiled(Members(b[n])) {
      BucketExact(b, h, "topic", n, ["Write", "Describe"], a);
    }
  }

  lemma ConsumerExact(onTopic: Buckets, onGroup: Buckets, h: Holder, n: string, g: string)
    requires Bucketed(onTopic, h, "topic") && n in onTopic && OpSet(onTopic[n]) == CONSUMER_OPS
    requires Bucketed(onGroup, h, "group") && g in onGroup && OpSet(onGroup[g]) == GROUP_OPS
    ensures ConsumerSet(n, FoldedConsumer(h, g)) == Compiled(Members(onTopic[n])) + Compiled(Members(onGroup[g]))
  {
    forall a ensures a in ConsumerSet(n, FoldedConsumer(h, g)) <==> a in Compiled(Members(onTopic[n])) || a in Compiled(Members(onGroup[g])) {
      BucketExact(onTopic, h, "topic", n, ["Read", "Describe"], a);
      BucketExact(onGroup, h, "group", g, ["Read"], a);
    }
  }

  method FoldProducers(index: TopicIndex, h: Holder, b: Buckets, producers: seq<string>)
    requires Keyed(index) && b.Keys <= index.Keys
    requires Bucketed(b, h, "topic") && Holding(b, producers, PRODUCER_OPS)
    modifies index.Values
    ensures Granted(index.Values) == old(Granted(index.Values)) + Compiled(Under(b, producers))
    ensures Entries(index) == old(Entries(index)) + ProducerLines(h, producers)
  {
    ghost var start, lines := Granted(index.Values), Entries(index);
    for i := 0 to |producers|
      invariant Granted(index.Values) == start + Compiled(Under(b, producers[..i]))
      invariant Entries(index) == lines + ProducerLines(h, producers[..i])
    {
      assert producers[..i + 1] == producers[..i] + [producers[i]];
      CompiledUnderSnoc(b, producers[..i], producers[i]);
      ProducerLinesSnoc(h, producers[..i], producers[i]);
      ProducerExact(b, h, producers[i]);
      ghost var mid, midLines := Granted(index.Values), Entries(index);
      AppendProducer(index, producers[i], FoldedProducer(h));
      Grow(start, Compiled(Under(b, producers[..i])), mid, Compiled(Members(b[producers[i]])), Granted(index.Values));
      Grow(lines, ProducerLines(h, producers[..i]), midLines, {Produces(producers[i], FoldedProducer(h))}, Entries(index));
    }
    assert producers[..|producers|] == producers;
  }

  method FoldConsumer(index: TopicIndex, h: Holder, onTopic: Buckets, t: string, onGroup: Buckets, g: string)
    requires Keyed(index) && t in index
    requires Bucketed(onTopic, h, "topic") && t in onTopic && OpSet(onTopic[t]) == CONSUMER_OPS
    requires Bucketed(onGroup, h, "group") && g in onGroup && OpSet(onGroup[g]) == GROUP_OPS
    modifies index.Values
    ensures Granted(index.Values) == old(Granted(index.Values)) + (Compiled(Members(onTopic[t])) + Compiled(Members(onGroup[g])))
    ensures Entries(index) == old(Entries(index)) + {Consumes(t, FoldedConsumer(h, g))}
  {
    ConsumerExact(onTopic, onGroup, h, t, g);
    AppendConsumer(index, t, FoldedConsumer(h, g));
  }

  method FoldConsumers(index: TopicIndex, h: Holder, onTopic: Buckets, consumers: seq<string>, onGroup: Buckets, g: string)
    requires Keyed(index) && onTopic.Keys <= index.Keys
    requires Bucketed(onTopic, h, "topic") && Holding(onTopic, consumers, CONSUMER_OPS) && consumers != []
    requires Bucketed(onGroup, h, "group") && Holding(onGroup, [g], GROUP_OPS)
    modifies index.Values
    ensures Granted(index.Values) == old(Granted(index.Values)) + Compiled(Under(onTopic, consumers)) + Compiled(Under(onGroup, [g]))
    ensures Entries(index) == old(Entries(index)) + ConsumerLines(h, consumers, g)
  {
    assert g in [g];
    ghost var start, shared, lines := Granted(index.Values), Compiled(Members(onGroup[g])), Entries(index);
    GroupAlone(onGroup, g);
    for i := 0 to |consumers|
      invariant Granted(index.Values) == start + Compiled(Under(onTopic, consumers[..i])) + if i == 0 then {} else shared
      invariant Entries(index) == lines + ConsumerLines(h, consumers[..i], g)
    {
      assert consumers[..i + 1] == consumers[..i] + [consumers[i]];
      ConsumerLinesSnoc(h, consumers[..i], consumers[i], g);
      CompiledUnderSnoc(onTopic, consumers[..i], consumers[i]);
      ghost var mid, midLines := Granted(index.Values), Entries(index);
      FoldConsumer(index, h, onTopic, consumers[i], onGroup, g);
      Grow(lines, ConsumerLines(h, consumers[..i], g), midLines, {Consumes(consumers[i], FoldedConsumer(h, g))}, Entries(index));
      ConsumerStepSets(start, Compiled(Under(onTopic, consumers[..i])), shared, mid, Compiled(Members(onTopic[consumers[i]])), i == 0);
    }
    assert consumers[..|consumers|] == consumers;
  }

  lemma GroupAlone(b: Buckets, g: string)
    requires g in b
    ensures Compiled(Under(b, [g])) == Compiled(Members(b[g]))
  {
    assert Under(b, [g]) == Members(b[g]);
  }

  lemma ConsumerStepSets<T>(start: set<T>, done: set<T>, shared: set<T>, mid: set<T>, more: set<T>, first: bool)
    requires mid == start + done + if first then {} else shared
    ensures mid + (more + shared) == start + (done + more) + shared
  {
  }

  /** The tuples under the given names, as raw rules. */
  method Demote(b: Buckets, names: seq<string>) returns (raw: seq<Acl>)
    requires forall n :: n in names ==> n in b
    ensures Members(raw) == Under(b, names)
  {
    raw := [];
    for i := 0 to |names|
      invariant Members(raw) == Under(b, names[..i])
    {
      assert names[..i + 1] == names[..i] + [names[i]];
      UnderSnoc(b, names[..i], names[i]);
      MembersConcat(raw, b[names[i]]);
      raw := raw + b[names[i]];
    }
    assert names[..|names|] == names;
  }

  /** A holder's tuples, sorted out: what may fold into producers and
      consumers, the group reads to pair with, and the rest. */
  datatype Sorted = Sorted(onTopic: Buckets, onGroup: Buckets, producers: seq<string>, consumers: seq<string>,
                           groupReads: seq<string>, rest: seq<Acl>)

  ghost predicate SortedOut(z: Sorted, h: Holder, acls: seq<Acl>, names: set<string>) {
    && z.onTopic.Keys <= names
    && Bucketed(z.onTopic, h, "topic") && Holding(z.onTopic, z.producers, PRODUCER_OPS) && Holding(z.onTopic, z.consumers, CONSUMER_OPS)
    && Bucketed(z.onGroup, h, "group") && Holding(z.onGroup, z.groupReads, GROUP_OPS)
    && Members(acls) == Under(z.onTopic, z.producers) + (Under(z.onTopic, z.consumers) + Under(z.onGroup, z.groupReads)) + Members(z.rest)
  }

  // ---- what folds, in terms of the live tuples ---------------------------

  /** The operations a holder is allowed on one literal resource. */
  function OpsOn(acls: set<Acl>, h: Holder, resourceType: string, name: string): set<string> {
    set a | a in acls && FoldEligible(a) && HolderOf(a) == h && a.resourceType == resourceType && a.resourceName == name :: a.operation
  }

  /** The groups a holder may read and nothing else. */
  function GroupsRead(acls: set<Acl>, h: Holder): set<string> {
    set a | a in acls && OpsOn(acls, h, "group", a.resourceName) == GROUP_OPS :: a.resourceName
  }

  /** The access lines one holder's tuples fold into. */
  function HolderLines(acls: set<Acl>, names: set<string>, h: Holder): set<Entry> {
    (set t | t in names && OpsOn(acls, h, "topic", t) == PRODUCER_OPS :: Produces(t, FoldedProducer(h)))
    + (set t, g | t in names && OpsOn(acls, h, "topic", t) == CONSUMER_OPS && g in GroupsRead(acls, h) && GroupsRead(acls, h) == {g}
         :: Consumes(t, FoldedConsumer(h, g)))
  }

  /** The access lines that live tuples fold into on the named topics. */
  function FoldedLines(acls: set<Acl>, names: set<string>): set<Entry> {
    set a, e | a in acls && e in HolderLines(acls, names, HolderOf(a)) :: e
  }

  ghost predicate Exact(z: Sorted, h: Holder, acls: set<Acl>, names: set<string>) {
    && (forall t :: t in z.producers <==> t in names && OpsOn(acls, h, "topic", t) == PRODUCER_OPS)
    && (forall t :: t in z.consumers <==> t in names && OpsOn(acls, h, "topic", t) == CONSUMER_OPS)
    && (forall g :: g in z.groupReads <==> g in GroupsRead(acls, h)) && Once(z.groupReads)
  }

  function OpsIn(b: Buckets, n: string): set<string> { if n in b then OpSet(b[n]) else {} }

  lemma TopicOpsExact(acls: seq<Acl>, h: Holder, onTopic: Buckets, onGroup: Buckets, other: seq<Acl>, names: set<string>, t: string)
    requires forall a :: a in acls ==> FoldEligible(a) && HolderOf(a) == h
    requires Bucketed(onTopic, h, "topic") && Bucketed(onGroup, h, "group")
    requires forall a :: a in acls <==> Filed(onTopic, a) || Filed(onGroup, a) || a in other
    requires (forall a :: a in other ==> Unfiled(a, names)) && t in names
    ensures OpsOn(Members(acls), h, "topic", t) == OpsIn(onTopic, t)
  {
    forall op | op in OpsOn(Members(acls), h, "topic", t) ensures op in OpsIn(onTopic, t) {
      var a :| a in acls && a.resourceType == "topic" && a.resourceName == t && a.operation == op;
      assert !Unfiled(a, names) && !Filed(onGroup, a);
      assert Filed(onTopic, a);
    }
    forall op | op in OpsIn(onTopic, t) ensures op in OpsOn(Members(acls), h, "topic", t) {
      var a :| a in onTopic[t] && a.operation == op;
      assert Filed(onTopic, a) && a in Members(acls);
    }
  }

  lemma GroupOpsExact(acls: seq<Acl>, h: Holder, onTopic: Buckets, onGroup: Buckets, other: seq<Acl>, names: set<string>, g: string)
    requires forall a :: a in acls ==> FoldEligible(a) && HolderOf(a) == h
    requires Bucketed(onTopic, h, "topic") && Bucketed(onGroup, h, "group")
    requires forall a :: a in acls <==> Filed(onTopic, a) || Filed(onGroup, a) || a in other
    requires forall a :: a in other ==> Unfiled(a, names)
    ensures OpsOn(Members(acls), h, "group", g) == OpsIn(onGroup, g)
  {
    forall op | op in OpsOn(Members(acls), h, "group", g) ensures op in OpsIn(onGroup, g) {
      var a :| a in acls && a.resourceType == "group" && a.resourceName == g && a.operation == op;
      assert !Unfiled(a, names) && !Filed(onTopic, a);
      assert Filed(onGroup, a);
    }
    forall op | op in OpsIn(onGroup, g) ensures op in OpsOn(Members(acls), h, "group", g) {
      var a :| a in onGroup[g] && a.operation == op;
      assert Filed(onGroup, a) && a in Members(acls);
    }
  }

  lemma GroupsReadExact(acls: set<Acl>, h: Holder, g: string)
    ensures g in GroupsRead(acls, h) <==> OpsOn(acls, h, "group", g) == GROUP_OPS
  {
    if OpsOn(acls, h, "group", g) == GROUP_OPS {
      assert "Read" in OpsOn(acls, h, "group", g);
      var a :| a in acls && a.resourceName == g && a.operation == "Read";
    }
  }

  /** Topics and groups are listed under the operations they hold. */
  lemma ListedExact(b: Buckets, listed: seq<string>, ops: set<string>, n: string)
    requires Holding(b, listed, ops) && AllHolding(b, b.Keys, listed, ops) && ops != {}
    ensures n in listed <==> OpsIn(b, n) == ops
  {
  }

  /** The lines folded for a sorted holder are the ones its tuples call for. */
  lemma LinesExact(z: Sorted, h: Holder, acls: set<Acl>, names: set<string>)
    requires Exact(z, h, acls, names)
    ensures ProducerLines(h, z.producers) + PairedLines(h, z.consumers, z.groupReads) == HolderLines(acls, names, h)
  {
    forall g ensures GroupsRead(acls, h) == {g} <==> z.groupReads == [g] { OnlyOne(z.groupReads, GroupsRead(acls, h), g); }
    if |z.groupReads| == 1 { assert z.groupReads == [z.groupReads[0]]; }
  }

  ghost predicate SplitByResource(z: Sorted, h: Holder, acls: seq<Acl>, other: seq<Acl>, names: set<string>) {
    && (forall a :: a in acls ==> FoldEligible(a) && HolderOf(a) == h)
    && Bucketed(z.onTopic, h, "topic") && Bucketed(z.onGroup, h, "group") && z.onTopic.Keys <= names
    && (forall a :: a in acls <==> Filed(z.onTopic, a) || Filed(z.onGroup, a) || a in other)
    && (forall a :: a in other ==> Unfiled(a, names))
  }

  ghost predicate Listed(z: Sorted) {
    && Holding(z.onTopic, z.producers, PRODUCER_OPS) && AllHolding(z.onTopic, z.onTopic.Keys, z.producers, PRODUCER_OPS)
    && Holding(z.onTopic, z.consumers, CONSUMER_OPS) && AllHolding(z.onTopic, z.onTopic.Keys, z.consumers, CONSUMER_OPS)
    && Holding(z.onGroup, z.groupReads, GROUP_OPS) && AllHolding(z.onGroup, z.onGroup.Keys, z.groupReads, GROUP_OPS)
    && Once(z.groupReads)
  }

  lemma TopicListed(z: Sorted, h: Holder, acls: seq<Acl>, other: seq<Acl>, names: set<string>, t: string)
    requires SplitByResource(z, h, acls, other, names) && Listed(z)
    ensures t in z.producers <==> t in names && OpsOn(Members(acls), h, "topic", t) == PRODUCER_OPS
    ensures t in z.consumers <==> t in names && OpsOn(Members(acls), h, "topic", t) == CONSUMER_OPS
  {
    ListedExact(z.onTopic, z.producers, PRODUCER_OPS, t);
    ListedExact(z.onTopic, z.consumers, CONSUMER_OPS, t);
    if t in names { TopicOpsExact(acls, h, z.onTopic, z.onGroup, other, names, t); }
  }

  lemma GroupListed(z: Sorted, h: Holder, acls: seq<Acl>, other: seq<Acl>, names: set<string>, g: string)
    requires SplitByResource(z, h, acls, other, names) && Listed(z)
    ensures g in z.groupReads <==> g in GroupsRead(Members(acls), h)
  {
    ListedExact(z.onGroup, z.groupReads, GROUP_OPS, g);
    GroupOpsExact(acls, h, z.onTopic, z.onGroup, other, names, g);
    GroupsReadExact(Members(acls), h, g);
  }

  lemma SortedExactly(z: Sorted, h: Holder, acls: seq<Acl>, other: seq<Acl>, names: set<string>)
    requires SplitByResource(z, h, acls, other, names) && Listed(z)
    ensures Exact(z, h, Members(acls), names)
  {
    forall t
      ensures t in z.producers <==> t in names && OpsOn(Members(acls), h, "topic", t) == PRODUCER_OPS
      ensures t in z.consumers <==> t in names && OpsOn(Members(acls), h, "topic", t) == CONSUMER_OPS
    {
      TopicListed(z, h, acls, other, names, t);
    }
    forall g ensures g in z.groupReads <==> g in GroupsRead(Members(acls), h) { GroupListed(z, h, acls, other, names, g); }
  }

  method SortOut(h: Holder, acls: seq<Acl>, names: set<string>) returns (z: Sorted)
    requires forall a :: a in acls ==> FoldEligible(a) && HolderOf(a) == h
    ensures SortedOut(z, h, acls, names) && Exact(z, h, Members(acls), names)
  {
    var onTopic, onGroup, other := BucketByResource(h, acls, names);
    var producers, consumers, topicRaw := ClassifyTopics(onTopic);
    var groupReads, groupRaw := ClassifyGroups(onGroup);
    Conserved(acls, h, onTopic, onGroup, other, producers, consumers, topicRaw, groupReads, groupRaw);
    SortedUnder(onTopic, producers, PRODUCER_OPS);
    SortedUnder(onTopic, consumers, CONSUMER_OPS);
    SortedUnder(onGroup, groupReads, GROUP_OPS);
    z := Sorted(onTopic, onGroup, SortOn(producers, Same()), SortOn(consumers, Same()), SortOn(groupReads, Same()),
                other + topicRaw + groupRaw);
    OnceSorted(producers);
    OnceSorted(consumers);
    OnceSorted(groupReads);
    SortedExactly(z, h, acls, other, names);
  }

  /** One holder's eligible tuples: each ends up granted by a topic or raw. */
  method FoldHolder(index: TopicIndex, h: Holder, acls: seq<Acl>) returns (raw: seq<Acl>)
    requires Keyed(index)
    requires forall a :: a in acls ==> FoldEligible(a) && HolderOf(a) == h
    modifies index.Values
    ensures Granted(index.Values) + Compiled(Members(raw)) == old(Granted(index.Values)) + Compiled(Members(acls))
    ensures Entries(index) == old(Entries(index)) + HolderLines(Members(acls), index.Keys, h)
  {
    var z := SortOut(h, acls, index.Keys);
    ghost var start, lines := Granted(index.Values), Entries(index);
    FoldProducers(index, h, z.onTopic, z.producers);
    ghost var mid, midLines := Granted(index.Values), Entries(index);
    var unpaired := PairConsumers(index, h, z.onTopic, z.consumers, z.onGroup, z.groupReads);
    HolderLinesAdded(lines, midLines, Entries(index), z, h, Members(acls), index.Keys);
    raw := z.rest + unpaired;
    CompiledConcat(z.rest, unpaired);
    CompiledSorted(z, h, acls, index.Keys);
    HolderSets(start, Compiled(Under(z.onTopic, z.producers)), mid, Compiled(Under(z.onTopic, z.consumers) + Under(z.onGroup, z.groupReads)),
               Granted(index.Values), Compiled(Members(unpaired)), Compiled(Members(z.rest)));
  }

  lemma HolderLinesAdded(start: set<Entry>, mid: set<Entry>, end: set<Entry>, z: Sorted, h: Holder, acls: set<Acl>, names: set<string>)
    requires Exact(z, h, acls, names)
    requires mid == start + ProducerLines(h, z.producers) && end == mid + PairedLines(h, z.consumers, z.groupReads)
    ensures end == start + HolderLines(acls, names, h)
  {
    LinesExact(z, h, acls, names);
    Grow(start, ProducerLines(h, z.producers), mid, PairedLines(h, z.consumers, z.groupReads), end);
  }

  lemma CompiledSorted(z: Sorted, h: Holder, acls: seq<Acl>, names: set<string>)
    requires SortedOut(z, h, acls, names)
    ensures Compiled(Members(acls)) == Compiled(Under(z.onTopic, z.producers))
            + Compiled(Under(z.onTopic, z.consumers) + Under(z.onGroup, z.groupReads)) + Compiled(Members(z.rest))
  {
    var p, q := Under(z.onTopic, z.producers), Under(z.onTopic, z.consumers) + Under(z.onGroup, z.groupReads);
    CompiledUnion(p + q, Members(z.rest));
    CompiledUnion(p, q);
  }

  lemma HolderSets<T>(start: set<T>, produced: set<T>, mid: set<T>, pairing: set<T>, end: set<T>, unpaired: set<T>, rest: set<T>)
    requires mid == start + produced && end + unpaired == mid + pairing
    ensures end + (rest + unpaired) == start + (produced + pairing + rest)
  {
    forall x ensures x in end + (rest + unpaired) <==> x in start + (produced + pairing + rest) {
      assert x in end + unpaired <==> x in mid + pairing;
    }
  }

  lemma Conserved(acls: seq<Acl>, h: Holder, onTopic: Buckets, onGroup: Buckets, other: seq<Acl>, producers: seq<string>,
                  consumers: seq<string>, topicRaw: seq<Acl>, groupReads: seq<string>, groupRaw: seq<Acl>)
    requires forall a :: a in acls <==> Filed(onTopic, a) || Filed(onGroup, a) || a in other
    requires Bucketed(onTopic, h, "topic") && Bucketed(onGroup, h, "group")
    requires forall n, a :: n in onTopic && a in onTopic[n] ==> a in Under(onTopic, producers) + Under(onTopic, consumers) + Members(topicRaw)
    requires forall a :: a in topicRaw ==> exists n :: n in onTopic && a in onTopic[n]
    requires forall n, a :: n in onGroup && a in onGroup[n] ==> a in Under(onGroup, groupReads) + Members(groupRaw)
    requires forall a :: a in groupRaw ==> exists n :: n in onGroup && a in onGroup[n]
    ensures Members(acls) == Under(onTopic, producers) + (Under(onTopic, consumers) + Under(onGroup, groupReads))
                            + Members(other + topicRaw + groupRaw)
  {
    var all := Under(onTopic, producers) + (Under(onTopic, consumers) + Under(onGroup, groupReads))
               + Members(other + topicRaw + groupRaw);
    MembersConcat(other + topicRaw, groupRaw);
    MembersConcat(other, topicRaw);
    forall a | a in acls ensures a in all {
      if Filed(onTopic, a) {
        assert a.resourceName in onTopic && a in onTopic[a.resourceName];
        assert a in Under(onTopic, producers) + Under(onTopic, consumers) + Members(topicRaw);
      } else if Filed(onGroup, a) {
        assert a.resourceName in onGroup && a in onGroup[a.resourceName];
        assert a in Under(onGroup, groupReads) + Members(groupRaw);
      } else {
        assert a in Members(other);
      }
    }
    forall a | a in all ensures a in acls {
      if n :| n in onTopic && a in onTopic[n] { assert Filed(onTopic, a); }
      else if n :| n in onGroup && a in onGroup[n] { assert Filed(onGroup, a); }
      else { assert a in other; }
    }
  }

  /** Consumer topics pair with a group read only when there is exactly one. */
  method PairConsumers(index: TopicIndex, h: Holder, onTopic: Buckets, consumers: seq<string>, onGroup: Buckets,
                       groupReads: seq<string>) returns (raw: seq<Acl>)
    requires Keyed(index) && onTopic.Keys <= index.Keys
    requires Bucketed(onTopic, h, "topic") && Holding(onTopic, consumers, CONSUMER_OPS)
    requires Bucketed(onGroup, h, "group") && Holding(onGroup, groupReads, GROUP_OPS)
    modifies index.Values
    ensures Granted(index.Values) + Compiled(Members(raw))
         == old(Granted(index.Values)) + Compiled(Under(onTopic, consumers) + Under(onGroup, groupReads))
    ensures Entries(index) == old(Entries(index)) + PairedLines(h, consumers, groupReads)
  {
    if |consumers| > 0 && |groupReads| == 1 {
      assert groupReads == [groupReads[0]];
      CompiledUnion(Under(onTopic, consumers), Under(onGroup, groupReads));
      FoldConsumers(index, h, onTopic, consumers, onGroup, groupReads[0]);
      raw := [];
      NothingRaw(Granted(index.Values), old(Granted(index.Values)), Compiled(Under(onTopic, consumers)), Compiled(Under(onGroup, groupReads)));
    } else {
      raw := Unpaired(onTopic, consumers, onGroup, groupReads);
    }
  }

  method Unpaired(onTopic: Buckets, consumers: seq<string>, onGroup: Buckets, groupReads: seq<string>) returns (raw: seq<Acl>)
    requires Holding(onTopic, consumers, CONSUMER_OPS) && Holding(onGroup, groupReads, GROUP_OPS)
    ensures Members(raw) == Under(onTopic, consumers) + Under(onGroup, groupReads)
  {
    if |consumers| == 0 {
      raw := Demote(onGroup, groupReads);
    } else if |groupReads| == 0 {
      raw := Demote(onTopic, consumers);
    } else {
      var topicRaw := Demote(onTopic, consumers);
      var groupRaw := Demote(onGroup, groupReads);
      MembersConcat(topicRaw, groupRaw);
      raw := topicRaw + groupRaw;
    }
  }

  lemma NothingRaw(after: set<Acl>, start: set<Acl>, x: set<Acl>, y: set<Acl>)
    requires after == start + x + y
    ensures after + Compiled(Members([])) == start + (x + y)
  {
    assert Compiled(Members([])) == {};
  }

  type ByHolder = map<Holder, seq<Acl>>

  ghost predicate FiledByHolder(m: ByHolder, a: Acl) { HolderOf(a) in m && a in m[HolderOf(a)] }

  ghost predicate HolderBuckets(m: ByHolder) {
    forall h, a :: h in m && a in m[h] ==> FoldEligible(a) && HolderOf(a) == h
  }

  method GroupByHolder(acls: seq<Acl>) returns (byHolder: ByHolder, keys: seq<Holder>, raw: seq<Acl>)
    ensures HolderBuckets(byHolder) && forall h :: h in keys <==> h in byHolder
    ensures forall a :: a in acls <==> FiledByHolder(byHolder, a) || a in raw
    ensures forall a :: a in raw ==> !FoldEligible(a)
  {
    byHolder, keys, raw := map[], [], [];
    for i := 0 to |acls|
      invariant HolderBuckets(byHolder) && forall h :: h in keys <==> h in byHolder
      invariant forall a :: a in acls[..i] <==> FiledByHolder(byHolder, a) || a in raw
      invariant forall a :: a in raw ==> !FoldEligible(a)
    {
      var a := acls[i];
      assert acls[..i + 1] == acls[..i] + [a];
      if !FoldEligible(a) {
        raw := raw + [a];
      } else {
        var h := HolderOf(a);
        if h !in byHolder {
          keys := keys + [h];
          byHolder := byHolder[h := [a]];
        } else {
          byHolder := byHolder[h := byHolder[h] + [a]];
        }
      }
    }
    assert acls[..|acls|] == acls;
  }

  ghost function OfHolders(m: ByHolder, keys: seq<Holder>): set<Acl> { set h, a | h in keys && h in m && a in m[h] :: a }

  ghost function LinesOfHolders(m: ByHolder, names: set<string>, keys: seq<Holder>): set<Entry> {
    set h, e | h in keys && h in m && e in HolderLines(Members(m[h]), names, h) :: e
  }

  lemma NextLines(m: ByHolder, names: set<string>, done: seq<Holder>, h: Holder)
    requires h in m
    ensures LinesOfHolders(m, names, done + [h]) == LinesOfHolders(m, names, done) + HolderLines(Members(m[h]), names, h)
  {
  }

  lemma SameOps(x: set<Acl>, y: set<Acl>, h: Holder, resourceType: string, name: string)
    requires forall a :: FoldEligible(a) && HolderOf(a) == h ==> (a in x <==> a in y)
    ensures OpsOn(x, h, resourceType, name) == OpsOn(y, h, resourceType, name)
  {
  }

  lemma SameLines(x: set<Acl>, y: set<Acl>, names: set<string>, h: Holder)
    requires forall a :: FoldEligible(a) && HolderOf(a) == h ==> (a in x <==> a in y)
    ensures HolderLines(x, names, h) == HolderLines(y, names, h)
  {
    forall t, n ensures OpsOn(x, h, t, n) == OpsOn(y, h, t, n) { SameOps(x, y, h, t, n); }
    forall g ensures g in GroupsRead(x, h) <==> g in GroupsRead(y, h) {
      GroupsReadExact(x, h, g);
      GroupsReadExact(y, h, g);
    }
    assert GroupsRead(x, h) == GroupsRead(y, h);
  }

  lemma NoHolderNoLines(acls: set<Acl>, names: set<string>, h: Holder, e: Entry)
    requires e in HolderLines(acls, names, h)
    ensures exists a :: a in acls && FoldEligible(a) && HolderOf(a) == h
  {
    assert "Write" in PRODUCER_OPS && "Read" in CONSUMER_OPS;
    var op := if e.Produces? then "Write" else "Read";
    assert op in OpsOn(acls, h, "topic", e.topic);
  }

  /** The holders' lines are those of the live tuples. */
  lemma LinesGrouped(acls: seq<Acl>, m: ByHolder, keys: seq<Holder>, raw: seq<Acl>, names: set<string>)
    requires HolderBuckets(m) && (forall h :: h in keys <==> h in m)
    requires forall a :: a in acls <==> FiledByHolder(m, a) || a in raw
    requires forall a :: a in raw ==> !FoldEligible(a)
    ensures LinesOfHolders(m, names, keys) == FoldedLines(Members(acls), names)
  {
    forall h | h in m ensures HolderLines(Members(m[h]), names, h) == HolderLines(Members(acls), names, h) {
      forall a | FoldEligible(a) && HolderOf(a) == h ensures a in Members(m[h]) <==> a in Members(acls) {
        if a in m[h] { assert FiledByHolder(m, a); }
      }
      SameLines(Members(m[h]), Members(acls), names, h);
    }
    forall e | e in FoldedLines(Members(acls), names) ensures e in LinesOfHolders(m, names, keys) {
      var a :| a in acls && e in HolderLines(Members(acls), names, HolderOf(a));
      NoHolderNoLines(Members(acls), names, HolderOf(a), e);
      var b :| b in Members(acls) && FoldEligible(b) && HolderOf(b) == HolderOf(a);
      assert FiledByHolder(m, b);
    }
    forall e | e in LinesOfHolders(m, names, keys) ensures e in FoldedLines(Members(acls), names) {
      var h :| h in keys && h in m && e in HolderLines(Members(m[h]), names, h);
      NoHolderNoLines(Members(m[h]), names, h, e);
      var b :| b in Members(m[h]) && FoldEligible(b) && HolderOf(b) == h;
      assert FiledByHolder(m, b) && b in acls;
    }
  }

  /** The fold conserves access: what the topics grant afterwards together with
      the raw rest is what they granted before together with the live tuples.
      The lines it adds are determined by the live tuples. */
  method ClassifyAndFold(index: TopicIndex, acls: seq<Acl>) returns (raw: seq<Acl>)
    requires Keyed(index)
    modifies index.Values
    ensures Granted(index.Values) + Compiled(Members(raw)) == old(Granted(index.Values)) + Compiled(Members(acls))
    ensures Entries(index) == old(Entries(index)) + FoldedLines(Members(acls), index.Keys)
  {
    var byHolder, keys;
    byHolder, keys, raw := GroupByHolder(acls);
    SortPermutes(keys, HolderLess);
    keys := SortBy(keys, HolderLess);
    Grouped(acls, byHolder, keys, raw);
    LinesGrouped(acls, byHolder, keys, raw, index.Keys);
    ghost var start := Granted(index.Values);
    var folded := FoldHolders(index, byHolder, keys);
    AllGrouped(acls, byHolder, keys, raw, folded, start, Granted(index.Values));
    raw := raw + folded;
  }

  lemma AllGrouped(acls: seq<Acl>, m: ByHolder, keys: seq<Holder>, raw: seq<Acl>, folded: seq<Acl>, start: set<Acl>, end: set<Acl>)
    requires Members(acls) == Members(raw) + OfHolders(m, keys)
    requires end + Compiled(Members(folded)) == start + Compiled(OfHolders(m, keys))
    ensures end + Compiled(Members(raw + folded)) == start + Compiled(Members(acls))
  {
    CompiledUnion(Members(raw), OfHolders(m, keys));
    CompiledConcat(raw, folded);
  }

  method FoldHolders(index: TopicIndex, byHolder: ByHolder, keys: seq<Holder>) returns (raw: seq<Acl>)
    requires Keyed(index) && HolderBuckets(byHolder)
    requires forall h :: h in keys ==> h in byHolder
    modifies index.Values
    ensures Granted(index.Values) + Compiled(Members(raw)) == old(Granted(index.Values)) + Compiled(OfHolders(byHolder, keys))
    ensures Entries(index) == old(Entries(index)) + LinesOfHolders(byHolder, index.Keys, keys)
  {
    raw := [];
    for i := 0 to |keys|
      invariant Entries(index) == old(Entries(index)) + LinesOfHolders(byHolder, index.Keys, keys[..i])
      invariant Granted(index.Values) + Compiled(Members(raw)) == old(Granted(index.Values)) + Compiled(OfHolders(byHolder, keys[..i]))
    {
      var h := keys[i];
      assert keys[..i + 1] == keys[..i] + [h];
      NextHolder(byHolder, keys[..i], h);
      CompiledUnion(OfHolders(byHolder, keys[..i]), Members(byHolder[h]));
      NextLines(byHolder, index.Keys, keys[..i], h);
      ghost var mid, midLines := Granted(index.Values), Entries(index);
      var more := FoldHolder(index, h, byHolder[h]);
      Grow(old(Entries(index)), LinesOfHolders(byHolder, index.Keys, keys[..i]), midLines,
           HolderLines(Members(byHolder[h]), index.Keys, h), Entries(index));
      CompiledConcat(raw, more);
      Conserving(old(Granted(index.Values)), Compiled(OfHolders(byHolder, keys[..i])), mid, Compiled(Members(raw)),
                 Compiled(Members(byHolder[h])), Granted(index.Values), Compiled(Members(more)));
      raw := raw + more;
    }
    assert keys[..|keys|] == keys;
  }

  lemma Grouped(acls: seq<Acl>, m: ByHolder, keys: seq<Holder>, raw: seq<Acl>)
    requires HolderBuckets(m) && (forall h :: h in keys <==> h in m)
    requires forall a :: a in acls <==> FiledByHolder(m, a) || a in raw
    ensures Members(acls) == Members(raw) + OfHolders(m, keys)
  {
    forall a ensures a in acls <==> a in raw || a in OfHolders(m, keys) {
      if FiledByHolder(m, a) { assert HolderOf(a) in keys; }
    }
  }

  lemma NextHolder(m: ByHolder, done: seq<Holder>, h: Holder)
    requires h in m
    ensures OfHolders(m, done + [h]) == OfHolders(m, done) + Members(m[h])
  {
  }
}
