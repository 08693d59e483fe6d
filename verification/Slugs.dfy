/** What a derived name keeps of the live one: its letters and digits, lower-cased
    and in order, with one dash wherever anything else stood between them. */
module Slugs {
  import opened Basics
  import opened Names

  /** A letter or digit in its lower-case form; anything else leaves nothing. The
      Kelvin sign and the dotted capital I are the only other characters whose
      lower case is an ASCII letter. */
  function Letter(c: char): string {
    if 'a' <= c <= 'z' || '0' <= c <= '9' then [c]
    else if 'A' <= c <= 'Z' then [c - 'A' + 'a']
    else if c == '\U{212A}' then "k"
    else if c == '\U{0130}' then "i"
    else ""
  }

  function Letters(s: string): string {
    if s == [] then "" else Letters(s[..|s| - 1]) + Letter(s[|s| - 1])
  }

  predicate Extends(s: string) { s != [] && Letter(s[|s| - 1]) != "" }

  /** The maximal stretches of letters and digits. */
  function Words(s: string): seq<string> {
    if s == [] then []
    else
      var front, letter := s[..|s| - 1], Letter(s[|s| - 1]);
      if letter == "" then Words(front)
      else if Extends(front) && Words(front) != [] then
        Words(front)[..|Words(front)| - 1] + [Words(front)[|Words(front)| - 1] + letter]
      else Words(front) + [letter]
  }

  /** A word or dashed words, with letters at both ends. */
  predicate WordLike(s: string) { s == "" || (Alnum(s[0]) && Alnum(s[|s| - 1])) }

  lemma {:induction false} WordsExtend(s: string)
    ensures Extends(s) ==> Words(s) != []
  {
    if s != [] && Extends(s[..|s| - 1]) { WordsExtend(s[..|s| - 1]); }
  }

  lemma {:induction false} JoinLonger(ws: seq<string>, more: string, sep: char)
    requires ws != []
    ensures Join(ws[..|ws| - 1] + [ws[|ws| - 1] + more], sep) == Join(ws, sep) + more
  {
    var front, last := ws[..|ws| - 1], ws[|ws| - 1];
    assert ws == front + [last];
    if front == [] {
      assert [last + more] == front + [last + more];
    } else {
      JoinSnoc(front, last, sep);
      JoinSnoc(front, last + more, sep);
    }
  }

  lemma JoinAnother(ws: seq<string>, w: string, sep: char)
    ensures Join(ws + [w], sep) == if ws == [] then w else Join(ws, sep) + [sep] + w
  {
    if ws != [] { JoinSnoc(ws, w, sep); } else { assert ws + [w] == [w]; }
  }

  function Lead(s: string): string { if s != [] && Letter(s[0]) == "" then "-" else "" }
  function Trail(s: string): string { if Words(s) != [] && !Extends(s) then "-" else "" }
  function Core(s: string): string { Join(Words(s), '-') }

  /** The fold before trimming: the words, and a dash for what stands around them. */
  ghost predicate Folded(s: string) {
    && SlugFold(s) == Slugging(Lead(s) + Core(s) + Trail(s), s != [] && !Extends(s))
    && WordLike(Core(s)) && (Core(s) == "" <==> Words(s) == [])
  }

  lemma LetterIsLower(c: char)
    ensures Letter(c) == if Alnum(Lower(c)) then [Lower(c)] else ""
  {
  }

  lemma FoldSkips(s: string)
    requires s != [] && Letter(s[|s| - 1]) == "" && Folded(s[..|s| - 1])
    ensures Folded(s)
  {
    var front := s[..|s| - 1];
    LetterIsLower(s[|s| - 1]);
    WordsExtend(front);
    if front == [] { assert SlugFold(s).out == "-"; }
  }

  lemma KeepsStep(s: string)
    requires s != [] && Letter(s[|s| - 1]) != ""
    ensures var front := s[..|s| - 1];
      && SlugFold(s) == Slugging(SlugFold(front).out + Letter(s[|s| - 1]), false)
      && Trail(s) == "" && (front != [] ==> Lead(s) == Lead(front)) && (front == [] ==> Lead(s) == "")
  {
    LetterIsLower(s[|s| - 1]);
  }

  lemma KeepsCore(s: string)
    requires s != [] && Letter(s[|s| - 1]) != ""
    ensures var front, letter := s[..|s| - 1], Letter(s[|s| - 1]);
      && Words(s) != []
      && Core(s) == if Words(front) == [] then letter
                    else if Extends(front) then Core(front) + letter else Core(front) + "-" + letter
  {
    var front, letter := s[..|s| - 1], Letter(s[|s| - 1]);
    if Extends(front) && Words(front) != [] {
      JoinLonger(Words(front), letter, '-');
    } else {
      JoinAnother(Words(front), letter, '-');
    }
  }

  lemma LetterIsOne(c: char)
    ensures Letter(c) != "" ==> |Letter(c)| == 1 && Alnum(Letter(c)[0])
  {
  }

  lemma Regrouped(lead: string, core: string, trail: string, letter: string)
    ensures lead + core + trail + letter == lead + (core + trail + letter) + ""
  {
  }

  lemma FoldFirst(s: string)
    requires |s| == 1 && Letter(s[0]) != ""
    ensures Folded(s)
  {
    assert s[..0] == [];
    KeepsStep(s);
    KeepsCore(s);
    LetterIsOne(s[0]);
  }

  lemma FoldKeeps(s: string)
    requires |s| > 1 && Letter(s[|s| - 1]) != "" && Folded(s[..|s| - 1])
    ensures Folded(s)
  {
    var front, letter := s[..|s| - 1], Letter(s[|s| - 1]);
    KeepsStep(s);
    KeepsCore(s);
    LetterIsOne(s[|s| - 1]);
    WordsExtend(front);
    Regrouped(Lead(front), Core(front), Trail(front), letter);
    assert Core(s) == Core(front) + Trail(front) + letter;
  }

  lemma {:induction false} FoldWords(s: string)
    ensures Folded(s)
  {
    if s != [] {
      FoldWords(s[..|s| - 1]);
      if Letter(s[|s| - 1]) == "" { FoldSkips(s); } else if |s| == 1 { FoldFirst(s); } else { FoldKeeps(s); }
    }
  }

  lemma DropLeft(pre: string, t: string)
    requires (pre == "" || pre == "-") && (t == "" || t[0] != '-')
    ensures TrimLeft(pre + t, Dash()) == t
  {
    if pre == "" { assert pre + t == t; } else { assert (pre + t)[1..] == t; }
  }

  lemma DropRight(t: string, post: string)
    requires (post == "" || post == "-") && (t == "" || t[|t| - 1] != '-')
    ensures TrimRight(t + post, Dash()) == t
  {
    if post == "" { assert t + post == t; } else { assert (t + post)[..|t|] == t; }
  }

  lemma Untrimmed(lead: string, core: string, trail: string)
    requires WordLike(core) && (lead == "" || lead == "-") && (trail == "" || (core != "" && trail == "-"))
    ensures Trim(lead + core + trail, Dash()) == core
  {
    assert lead + core + trail == lead + (core + trail);
    DropLeft(lead, core + trail);
    DropRight(core, trail);
  }

  /** The slug is the words of the name, joined by dashes. */
  lemma SlugIsWords(s: string)
    ensures Slugged(s) == Join(Words(s), '-')
  {
    FoldWords(s);
    Untrimmed(Lead(s), Core(s), Trail(s));
  }

  // ---- nothing is lost -----------------------------------------------------

  function IsLetter(): char -> bool { (c: char) => 'a' <= c <= 'z' || '0' <= c <= '9' }

  lemma FilterLetter(w: string)
    requires |w| == 1 && Alnum(w[0])
    ensures Filter(w, IsLetter()) == w
  {
    assert w[..0] == [];
    assert w == [w[0]];
  }

  lemma FilterSeparator(sep: char)
    requires Sep(sep)
    ensures Filter([sep], IsLetter()) == []
  {
    assert [sep][..0] == [];
  }

  lemma FilterSeparated(a: string, sep: char, b: string)
    requires Sep(sep)
    ensures Filter(a + [sep] + b, IsLetter()) == Filter(a, IsLetter()) + Filter(b, IsLetter())
  {
    FilterConcat(a + [sep], b, IsLetter());
    FilterConcat(a, [sep], IsLetter());
    FilterSeparator(sep);
  }

  lemma {:induction false} CoreLetters(s: string)
    ensures Filter(Core(s), IsLetter()) == Letters(s)
  {
    if s != [] {
      var front, letter := s[..|s| - 1], Letter(s[|s| - 1]);
      CoreLetters(front);
      if letter != "" {
        KeepsCore(s);
        LetterIsOne(s[|s| - 1]);
        FilterLetter(letter);
        FilterSeparated(Core(front), '-', letter);
        FilterConcat(Core(front), letter, IsLetter());
      }
    }
  }

  /** Every letter and digit survives, lower-cased and in order. */
  lemma SlugKeepsLetters(s: string)
    ensures Filter(Slugged(s), IsLetter()) == Letters(s)
  {
    SlugIsWords(s);
    CoreLetters(s);
  }

  lemma LettersSnoc(s: string, c: char)
    ensures Letters(s + [c]) == Letters(s) + Letter(c)
  {
    assert (s + [c])[..|s|] == s;
  }

  lemma {:induction false} LettersConcat(a: string, b: string)
    ensures Letters(a + b) == Letters(a) + Letters(b)
  {
    if b == [] {
      assert a + b == a;
    } else {
      var front, c := b[..|b| - 1], b[|b| - 1];
      assert b == front + [c] && a + b == a + front + [c];
      LettersConcat(a, front);
      LettersSnoc(front, c);
      LettersSnoc(a + front, c);
    }
  }

  lemma LettersSeparated(a: string, sep: char, b: string)
    requires Letter(sep) == ""
    ensures Letters(a + [sep] + b) == Letters(a) + Letters(b)
  {
    var m := a + [sep];
    LettersSnoc(a, sep);
    assert Letters(m) == Letters(a);
    LettersConcat(m, b);
  }

  function Kept(): string -> string { (l: string) => Letters(l) }
  function Dotted(labels: seq<string>): string { Join(FlatMap(labels, SlugLabel()), '.') }

  lemma {:induction false} JoinLetters(labels: seq<string>)
    ensures Letters(Join(labels, '.')) == FlatMap(labels, Kept())
  {
    if labels != [] {
      var front, last := labels[..|labels| - 1], labels[|labels| - 1];
      assert labels == front + [last];
      JoinLetters(front);
      JoinAnother(front, last, '.');
      LettersSeparated(Join(front, '.'), '.', last);
    }
  }

  lemma {:induction false} DottedLetters(labels: seq<string>)
    ensures Filter(Dotted(labels), IsLetter()) == FlatMap(labels, Kept())
  {
    if labels != [] {
      var front, last := labels[..|labels| - 1], labels[|labels| - 1];
      var done := FlatMap(front, SlugLabel());
      DottedLetters(front);
      SlugKeepsLetters(last);
      if Slugged(last) == "" {
        assert FlatMap(labels, SlugLabel()) == done;
        assert Filter("", IsLetter()) == "";
      } else {
        assert FlatMap(labels, SlugLabel()) == done + [Slugged(last)];
        JoinAnother(done, Slugged(last), '.');
        FilterSeparated(Join(done, '.'), '.', Slugged(last));
      }
    }
  }

  lemma ShortenedKeeps(s: string)
    requires Clean(s)
    ensures Truncated(s) <= s
    ensures |s| > MAX_NAME - SUFFIX_RESERVE ==> |Truncated(s)| >= MAX_NAME - SUFFIX_RESERVE - 1
  {
    var limit := MAX_NAME - SUFFIX_RESERVE;
    if |s| > limit {
      var p := s[..limit];
      assert TrimLeft(p, DotOrDash()) == p;
      if Sep(p[limit - 1]) {
        assert !Sep(s[limit - 2]);
        assert p[..limit - 1][limit - 2] == s[limit - 2];
        assert TrimRight(p, DotOrDash()) == p[..limit - 1];
      }
    }
  }

  lemma FilterPrefix(p: string, s: string)
    requires p <= s
    ensures Filter(p, IsLetter()) <= Filter(s, IsLetter())
  {
    assert s == p + s[|p|..];
    FilterConcat(p, s[|p|..], IsLetter());
  }

  lemma CleanHasLetters(s: string)
    requires Clean(s)
    ensures Filter(s, IsLetter()) != []
  {
    FilterMember(s, IsLetter(), s[0]);
  }

  /** A metadata name starts with the letters and digits of the live name, all of
      them unless it had to be shortened; a name without any becomes "topic". */
  lemma MetaNameKeepsLetters(t: string)
    ensures |MetaName(t)| <= 247
    ensures Letters(t) == "" ==> MetaName(t) == "topic"
    ensures Letters(t) != "" ==> Filter(MetaName(t), IsLetter()) <= Letters(t)
    ensures Letters(t) != "" && |MetaName(t)| < 246 ==> Filter(MetaName(t), IsLetter()) == Letters(t)
  {
    var labels := Split(t, '.');
    var s := Dotted(labels);
    MetaNameClean(t);
    LabelsRejoin(t);
    JoinLetters(labels);
    DottedLetters(labels);
    SluggedLabels(labels);
    if FlatMap(labels, SlugLabel()) != [] {
      JoinClean(FlatMap(labels, SlugLabel()));
      CleanHasLetters(s);
      ShortenedKeeps(s);
      FilterPrefix(Truncated(s), s);
    }
  }
}
