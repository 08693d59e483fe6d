/** What the replies of Kafka and REST say about topics and links: status names,
    listings and link configs, in place of the classifications of module Mirror. */
module MirrorReplies {
  import opened Basics
  import opened Store
  import opened Mirror

  // ---- replies -----------------------------------------------------------

  predicate Troubled(status: string) {
    status in {"PAUSED", "LINK_PAUSED", "FAILED", "LINK_FAILED", "SOURCE_UNAVAILABLE"}
  }

  predicate Converging(status: string) {
    status in {"PENDING_MIRROR", "PENDING_SYNCHRONIZE", "PENDING_SETUP_FOR_RESTORE", "PENDING_RESTORE",
               "PENDING_RESTORE_MIRROR"}
  }

  /** A mirror that still follows its source. */
  predicate Following(status: string) { status == "ACTIVE" || Troubled(status) || Converging(status) }

  predicate Recognised(status: string) { Following(status) || status == "PENDING_STOPPED" || status == "STOPPED" }

  /** Both listings show the topic. */
  predicate InBoth(s: Snapshot, t: string) { t in s.topics && t in s.mirrors }

  lemma StatusClasses(status: string)
    ensures ClassifyStatus(status).Healthy? <==> status == "ACTIVE"
    ensures ClassifyStatus(status).Unhealthy? <==> Troubled(status)
    ensures ClassifyStatus(status).Progressing? <==> Converging(status)
    ensures ClassifyStatus(status).Stopping? <==> status == "PENDING_STOPPED"
    ensures ClassifyStatus(status).Stopped? <==> status == "STOPPED"
    ensures ClassifyStatus(status).StatusUnknown? <==> !Recognised(status)
  {
  }

  /** What a topic is, from the two listings and the status name. */
  lemma Classes(s: Snapshot, t: string)
    ensures Classify(s, t) == UnknownTopic <==>
      !s.read || s.err || (t in s.mirrors && !(t in s.topics && Recognised(s.mirrors[t].status)))
    ensures Classify(s, t) == NormalTopic <==> s.read && !s.err && t in s.topics && t !in s.mirrors
    ensures Classify(s, t) == AbsentTopic <==> s.read && !s.err && t !in s.topics && t !in s.mirrors
    ensures Classify(s, t) == MirrorTopic <==> s.read && !s.err && InBoth(s, t) && Following(s.mirrors[t].status)
    ensures Classify(s, t) == StoppingMirror <==> s.read && !s.err && InBoth(s, t) && s.mirrors[t].status == "PENDING_STOPPED"
    ensures Classify(s, t) == StoppedFormerMirror <==> s.read && !s.err && InBoth(s, t) && s.mirrors[t].status == "STOPPED"
  {
    if t in s.mirrors { StatusClasses(s.mirrors[t].status); }
  }

  lemma {:induction false} MirrorMapLast(ms: seq<MirrorState>, i: nat)
    requires i < |ms| && Unique(ms, MirrorName)
    ensures ms[i].name in MirrorMap(ms) && MirrorMap(ms)[ms[i].name] == ms[i]
  {
    if i < |ms| - 1 {
      MirrorMapLast(ms[..|ms| - 1], i);
      assert MirrorName(ms[i]) != MirrorName(ms[|ms| - 1]);
    }
  }

  lemma {:induction false} MirrorMapFrom(ms: seq<MirrorState>, t: string)
    requires t in MirrorMap(ms)
    ensures MirrorMap(ms)[t] in ms && MirrorMap(ms)[t].name == t
  {
    if t != ms[|ms| - 1].name { MirrorMapFrom(ms[..|ms| - 1], t); }
  }

  /** Complete exactly when both identities were read and agree, all three
      listings were read, and no mirror or link is listed twice. */
  lemma ReadComplete(r: Replies, links: seq<string>)
    ensures var s := ReadSnapshot(r, links);
      s.read && !s.err <==>
      && r.adminId.Some? && r.restId.Some? && r.adminId.value == r.restId.value != ""
      && r.topics.Some? && r.mirrors.Some? && r.links.Some?
      && (forall i, j :: 0 <= i < j < |r.mirrors.value| ==> r.mirrors.value[i].name != r.mirrors.value[j].name)
      && (forall i, j :: 0 <= i < j < |r.links.value| ==> r.links.value[i].name != r.links.value[j].name)
  {
    if r.mirrors.Some? {
      assert Unique(r.mirrors.value, MirrorName) <==>
        forall i, j :: 0 <= i < j < |r.mirrors.value| ==> r.mirrors.value[i].name != r.mirrors.value[j].name by {
        assert forall m :: MirrorName(m) == m.name;
      }
    }
    if r.links.Some? {
      assert Unique(r.links.value, LinkName) <==>
        forall i, j :: 0 <= i < j < |r.links.value| ==> r.links.value[i].name != r.links.value[j].name by {
        assert forall l :: LinkName(l) == l.name;
      }
    }
  }

  /** A complete snapshot holds each listed mirror under its name, and nothing else. */
  lemma MirrorsAsListed(r: Replies, links: seq<string>, m: MirrorState)
    requires ReadSnapshot(r, links).read && !ReadSnapshot(r, links).err
    ensures r.mirrors.Some?
    ensures var s := ReadSnapshot(r, links);
      (m.name in s.mirrors && s.mirrors[m.name] == m <==> m in r.mirrors.value) && s.topics == TopicMap(r.topics.value)
  {
    var ms := r.mirrors.value;
    if m in ms {
      var i :| 0 <= i < |ms| && ms[i] == m;
      MirrorMapLast(ms, i);
    }
    if m.name in MirrorMap(ms) { MirrorMapFrom(ms, m.name); }
  }

  /** A link is known exactly when it was asked for and listed; its configs are
      unread exactly when the reply for them is missing. */
  lemma LinksAsListed(r: Replies, links: seq<string>, n: string)
    requires ReadSnapshot(r, links).read && !ReadSnapshot(r, links).err
    ensures r.links.Some?
    ensures var s := ReadSnapshot(r, links);
      && (n in s.links <==> n in links && exists l :: l in r.links.value && l.name == n)
      && (n in s.links ==> s.links[n].link in r.links.value && s.links[n].link.name == n
                           && (s.links[n].configErr <==> n !in r.linkConfigs)
                           && (n in r.linkConfigs ==> s.links[n].configs == r.linkConfigs[n]))
  {
    assert forall l :: LinkName(l) == l.name;
  }

  // ---- the link's rules ----------------------------------------------------

  /** The destination name is the link's prefix and the source name, and is
      spelled out when there is a prefix. */
  predicate NameFits(configs: map<string, string>, name: string, source: string, explicit: bool) {
    var p := if "cluster.link.prefix" in configs then configs["cluster.link.prefix"] else "";
    name == p + source && (p != "" ==> explicit)
  }

  lemma PrefixRule(l: LinkInfo, name: string, source: string, explicit: bool)
    ensures CheckPrefix(l, name, source, explicit) <==> NameFits(l.configs, name, source, explicit)
  {
    assert "" + source == source;
  }

  predicate Blank(s: string) { forall c :: c in s ==> IsSpace(c) }

  /** `t` is `s` without the white space around it. */
  ghost predicate Core(s: string, t: string) {
    exists l, r :: s == l + t + r && Blank(l) && Blank(r) && (t != "" ==> !IsSpace(t[0]) && !IsSpace(t[|t| - 1]))
  }

  lemma {:induction false} TrimLeftCore(s: string) returns (l: string)
    ensures s == l + TrimLeft(s, Space()) && Blank(l)
    ensures TrimLeft(s, Space()) != "" ==> !IsSpace(TrimLeft(s, Space())[0])
  {
    l := "";
    if s != "" && IsSpace(s[0]) {
      var rest := TrimLeftCore(s[1..]);
      l := [s[0]] + rest;
      assert s == [s[0]] + s[1..];
    }
  }

  lemma {:induction false} TrimRightCore(s: string) returns (r: string)
    ensures s == TrimRight(s, Space()) + r && Blank(r)
    ensures TrimRight(s, Space()) != "" ==>
      !IsSpace(TrimRight(s, Space())[|TrimRight(s, Space())| - 1]) && TrimRight(s, Space())[0] == s[0]
  {
    r := "";
    if s != "" && IsSpace(s[|s| - 1]) {
      var rest := TrimRightCore(s[..|s| - 1]);
      r := rest + [s[|s| - 1]];
      assert s == s[..|s| - 1] + [s[|s| - 1]];
    }
  }

  lemma TrimIsCore(s: string)
    ensures Core(s, TrimSpace(s))
  {
    var l := TrimLeftCore(s);
    var t := TrimLeft(s, Space());
    var r := TrimRightCore(t);
    assert s == l + TrimSpace(s) + r;
  }

  lemma SplitParts(v: string, sep: char)
    ensures Split(v, sep) != [] && FreeOf(Split(v, sep), sep) && Join(Split(v, sep), sep) == v
    decreases |v|
  {
    var i := IndexOf(v, sep);
    if i == |v| {
      assert sep !in v;
    } else {
      SplitParts(v[i + 1..], sep);
      var rest := Split(v[i + 1..], sep);
      assert sep !in v[..i];
      assert ([v[..i]] + rest)[1..] == rest;
      assert v == v[..i] + [sep] + v[i + 1..];
    }
  }

  /** An entry of the sync list names the key, or a stem of it before a `*`. */
  predicate Names(entry: string, key: string) {
    entry != "" && (entry == key || exists n :: 0 <= n <= |key| && entry == key[..n] + "*")
  }

  /** The link copies the key: one of the comma-separated entries, without the
      white space around it, names it. */
  ghost predicate Synced(list: string, key: string) {
    exists parts, i, e ::
      parts != [] && FreeOf(parts, ',') && Join(parts, ',') == list && 0 <= i < |parts| && Core(parts[i], e) && Names(e, key)
  }

  lemma LeftEdge(s: string, l: string, t: string, r: string, l': string, t': string, r': string)
    requires s == l + t + r && s == l' + t' + r' && t != "" && !IsSpace(t[0]) && Blank(l')
    ensures |l'| <= |l|
  {
    assert s[|l|] == t[0];
    assert forall i :: 0 <= i < |l'| ==> s[i] == l'[i] && l'[i] in l';
  }

  lemma RightEdge(s: string, l: string, t: string, r: string, l': string, t': string, r': string)
    requires s == l + t + r && s == l' + t' + r' && t != "" && !IsSpace(t[|t| - 1]) && Blank(r')
    ensures |r'| <= |r|
  {
    assert s[|s| - |r| - 1] == t[|t| - 1];
    var m := |l'| + |t'|;
    assert forall i :: m <= i < |s| ==> s[i] == r'[i - m] && r'[i - m] in r';
  }

  lemma SameSlice(s: string, l: string, t: string, r: string, l': string, t': string, r': string)
    requires s == l + t + r && s == l' + t' + r' && |l| == |l'| && |r| == |r'|
    ensures t == t'
  {
    assert t == s[|l|..|s| - |r|];
    assert t' == s[|l'|..|s| - |r'|];
  }

  lemma BlankCore(s: string, l: string, t: string, r: string)
    requires s == l + t + r && Blank(l) && Blank(r) && (t != "" ==> !IsSpace(t[0]))
    ensures Blank(s) <==> t == ""
  {
    assert forall c :: c in s <==> c in l || c in t || c in r;
    assert t == "" || t[0] in t;
  }

  lemma CoreUnique(s: string, t: string, t': string)
    requires Core(s, t) && Core(s, t')
    ensures t == t'
  {
    var l, r :| s == l + t + r && Blank(l) && Blank(r) && (t != "" ==> !IsSpace(t[0]) && !IsSpace(t[|t| - 1]));
    var l', r' :| s == l' + t' + r' && Blank(l') && Blank(r') && (t' != "" ==> !IsSpace(t'[0]) && !IsSpace(t'[|t'| - 1]));
    BlankCore(s, l, t, r);
    BlankCore(s, l', t', r');
    if t != "" {
      LeftEdge(s, l, t, r, l', t', r');
      LeftEdge(s, l', t', r', l, t, r);
      RightEdge(s, l, t, r, l', t', r');
      RightEdge(s, l', t', r', l, t, r);
      SameSlice(s, l, t, r, l', t', r');
    }
  }

  lemma EntryNames(entry: string, key: string)
    ensures EntryCovers(entry, key) <==> Names(TrimSpace(entry), key)
  {
    var e := TrimSpace(entry);
    if Names(e, key) && e != key {
      var n :| 0 <= n <= |key| && e == key[..n] + "*";
      assert e[..|e| - 1] == key[..n];
    }
    if EntryCovers(entry, key) && e != key {
      var n := |e| - 1;
      assert e == key[..n] + "*";
    }
  }

  lemma SyncedIff(list: string, key: string)
    ensures Synced(list, key) <==> exists e :: e in Split(list, ',') && EntryCovers(e, key)
  {
    var all := Split(list, ',');
    SplitParts(list, ',');
    if Synced(list, key) {
      var parts, i, e :| parts != [] && FreeOf(parts, ',') && Join(parts, ',') == list && 0 <= i < |parts|
                         && Core(parts[i], e) && Names(e, key);
      JoinInjective(parts, all, ',');
      TrimIsCore(parts[i]);
      CoreUnique(parts[i], e, TrimSpace(parts[i]));
      EntryNames(parts[i], key);
      assert parts[i] in all;
    }
    if p :| p in all && EntryCovers(p, key) {
      var i :| 0 <= i < |all| && all[i] == p;
      TrimIsCore(p);
      EntryNames(p, key);
      assert Core(all[i], TrimSpace(p)) && Names(TrimSpace(p), key);
    }
  }

  lemma BlankIff(s: string)
    ensures Blank(s) <==> TrimSpace(s) == ""
  {
    TrimIsCore(s);
    if Blank(s) {
      assert s == s + "" + "";
      assert Core(s, "");
      CoreUnique(s, "", TrimSpace(s));
    } else {
      var l, r :| s == l + TrimSpace(s) + r && Blank(l) && Blank(r);
      assert forall c :: c in s ==> c in l || c in TrimSpace(s) || c in r;
    }
  }

  function SyncList(l: LinkInfo): string {
    if "topic.config.sync.include" in l.configs then l.configs["topic.config.sync.include"] else ""
  }

  /** Who owns a topic config key, from the link's sync list: nobody can tell
      when the list is missing or blank. */
  lemma OwnershipRule(l: LinkInfo, key: string)
    ensures LinkManaged(l, key).OwnershipUnknown? <==> Blank(SyncList(l))
    ensures LinkManaged(l, key).LinkOwned? <==> !Blank(SyncList(l)) && Synced(SyncList(l), key)
    ensures LinkManaged(l, key).Local? <==> !Blank(SyncList(l)) && !Synced(SyncList(l), key)
  {
    BlankIff(SyncList(l));
    SyncedIff(SyncList(l), key);
  }

  /** The link leaves the key to the destination. */
  ghost predicate LeftTo(l: LinkInfo, key: string) { !Blank(SyncList(l)) && !Synced(SyncList(l), key) }

  /** White space and printable ASCII are told apart. */
  lemma SpaceRule(c: char)
    ensures c in " \t\n\r" ==> IsSpace(c)
    ensures '!' <= c <= '~' ==> !IsSpace(c)
  {
  }
}
