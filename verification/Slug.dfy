/** Slugs: what `slugify` computes, the language its results belong to, and which columns they fit. */
module Slug {
  import opened Common

  predicate IsAlnum(c: char) {
    'a' <= c <= 'z' || '0' <= c <= '9'
  }

  // ----- The pipeline, step by step -----

  function SkipRun(s: string): (r: string)
    ensures |r| <= |s| && (r != [] ==> IsAlnum(r[0]))
  {
    if s == [] || IsAlnum(s[0]) then s else SkipRun(s[1..])
  }

  /** `.replace(/[^a-z0-9]+/g, '-')`. */
  function Collapse(s: string): string
    decreases |s|
  {
    if s == [] then []
    else if IsAlnum(s[0]) then [s[0]] + Collapse(s[1..])
    else "-" + Collapse(SkipRun(s[1..]))
  }

  function TrimStart(s: string): string {
    if s != [] && s[0] == '-' then TrimStart(s[1..]) else s
  }

  function TrimEnd(s: string): (r: string)
    ensures r <= s && (r == [] || r[|r| - 1] != '-')
    ensures forall i :: |r| <= i < |s| ==> s[i] == '-'
  {
    if s != [] && s[|s| - 1] == '-' then TrimEnd(s[..|s| - 1]) else s
  }

  const FALLBACK := "workflow"

  /**
   * `slugify`. `fold` stands for `normalize('NFKD')`, stripping combining marks, and `toLowerCase`: Unicode
   * tables this model does not contain.
   */
  function Slugify(fold: string -> string, value: string, maxLength: nat): string {
    var slug := TrimEnd(Take(TrimEnd(TrimStart(Collapse(fold(value)))), maxLength));
    if slug == [] then FALLBACK else slug
  }

  /** All that is asked of folding: text that is already a slug's stays as it is. */
  ghost predicate FixesSlugText(fold: string -> string) {
    forall s :: (forall i :: 0 <= i < |s| ==> IsAlnum(s[i]) || s[i] == '-') ==> fold(s) == s
  }

  // ----- An independent reading: the words, joined -----

  function FirstWord(s: string): (w: string)
    ensures w <= s && forall i :: 0 <= i < |w| ==> IsAlnum(w[i])
    ensures |w| < |s| ==> !IsAlnum(s[|w|])
  {
    if s == [] || !IsAlnum(s[0]) then [] else [s[0]] + FirstWord(s[1..])
  }

  /** The maximal runs of lower-case letters and digits. */
  function Words(s: string): (ws: seq<string>)
    ensures forall i :: 0 <= i < |ws| ==> IsWord(ws[i])
    decreases |s|
  {
    if s == [] then []
    else if !IsAlnum(s[0]) then Words(SkipRun(s))
    else var w := FirstWord(s); [w] + Words(s[|w|..])
  }

  predicate IsWord(w: string) {
    w != [] && forall i :: 0 <= i < |w| ==> IsAlnum(w[i])
  }

  function Join(ws: seq<string>): string {
    if ws == [] then [] else if |ws| == 1 then ws[0] else ws[0] + "-" + Join(ws[1..])
  }

  lemma {:induction false} TrimEndOfSum(a: string, b: string)
    requires TrimEnd(b) != []
    ensures TrimEnd(a + b) == a + TrimEnd(b)
    decreases |b|
  {
    if b[|b| - 1] == '-' {
      TrimEndOfSum(a, b[..|b| - 1]);
      assert (a + b)[..|a + b| - 1] == a + b[..|b| - 1];
    }
  }

  lemma TrimEndOfWord(w: string, b: string)
    requires IsWord(w) && (b == [] || b == "-")
    ensures TrimEnd(w + b) == w
  {
    if b == [] {
      assert w + b == w;
    } else {
      assert (w + b)[..|w + b| - 1] == w;
    }
  }

  lemma Regrouped(a: string, b: string, c: string)
    ensures (a + b) + c == a + (b + c)
  {
  }

  /** A letter or digit is passed on, and is the head of the first word. */
  lemma AlnumStep(s: string)
    requires s != [] && IsAlnum(s[0])
    ensures Collapse(s) == [s[0]] + Collapse(s[1..]) && FirstWord(s) == [s[0]] + FirstWord(s[1..])
  {
  }

  lemma {:induction false} CollapseKeepsWord(s: string)
    ensures Collapse(s) == FirstWord(s) + Collapse(s[|FirstWord(s)|..])
    decreases |s|
  {
    assert s[0..] == s && (s == [] || !IsAlnum(s[0]) ==> FirstWord(s) == []);
    hide Collapse, FirstWord, IsAlnum;
    if s != [] && IsAlnum(s[0]) {
      AlnumStep(s);
      CollapseKeepsWord(s[1..]);
      var tail := FirstWord(s[1..]);
      assert s[1..][|tail|..] == s[|tail| + 1..];
      Regrouped([s[0]], tail, Collapse(s[1..][|tail|..]));
    }
  }

  /** The text after the first word, up to the next one. */
  function NextWord(s: string): string {
    SkipRun(s[|FirstWord(s)|..])
  }

  lemma FirstWordIsWord(s: string)
    requires s != [] && IsAlnum(s[0])
    ensures IsWord(FirstWord(s)) && |NextWord(s)| < |s| && (|FirstWord(s)| == |s| ==> NextWord(s) == [])
  {
    assert FirstWord(s) != [];
    hide FirstWord;
  }

  lemma WordsStep(s: string)
    requires s != [] && IsAlnum(s[0])
    ensures Words(s) == [FirstWord(s)] + Words(NextWord(s))
  {
    FirstWordIsWord(s);
    var rest := s[|FirstWord(s)|..];
    assert Words(s) == [FirstWord(s)] + Words(rest);
    hide FirstWord;
    if rest != [] {
      assert rest[0] == s[|FirstWord(s)|] && !IsAlnum(rest[0]);
      assert Words(rest) == Words(SkipRun(rest));
    }
  }

  lemma RunStep(s: string)
    requires s != [] && !IsAlnum(s[0])
    ensures SkipRun(s) == SkipRun(s[1..]) && Collapse(s) == "-" + Collapse(SkipRun(s))
  {
    hide IsAlnum;
  }

  lemma CollapseStep(s: string)
    requires s != [] && IsAlnum(s[0])
    ensures var w := FirstWord(s);
            Collapse(s) == if |w| == |s| then w else (w + "-") + Collapse(NextWord(s))
  {
    assert Collapse([]) == [];
    hide Collapse, FirstWord, IsAlnum, SkipRun;
    var w := FirstWord(s);
    var rest := s[|w|..];
    CollapseKeepsWord(s);
    if |w| == |s| {
      assert w + [] == w;
    } else {
      assert rest[0] == s[|w|];
      RunStep(rest);
      Regrouped(w, "-", Collapse(NextWord(s)));
    }
  }

  lemma WordStep(s: string)
    requires s != [] && IsAlnum(s[0])
    ensures var w, t := FirstWord(s), NextWord(s);
            && IsWord(w) && |t| < |s| && Words(s) == [w] + Words(t)
            && Collapse(s) == (if |w| == |s| then w else (w + "-") + Collapse(t)) && (|w| == |s| ==> t == [])
  {
    hide FirstWord, NextWord, Words, Collapse;
    FirstWordIsWord(s);
    WordsStep(s);
    CollapseStep(s);
  }

  /** From a word onwards, collapsing and trimming the end is joining the words. */
  lemma {:induction false} CollapseJoinsWords(s: string)
    requires s == [] || IsAlnum(s[0])
    ensures TrimEnd(Collapse(s)) == Join(Words(s))
    decreases |s|
  {
    if s != [] {
      var w, t := FirstWord(s), NextWord(s);
      WordStep(s);
      assert t == [] ==> Collapse(t) == [] && Words(t) == [];
      assert t != [] ==> Words(t) != [];
      CollapseJoinsWords(t);
      hide Collapse, FirstWord, NextWord, SkipRun, TrimEnd, Words;
      if t == [] {
        TrimEndOfWord(w, if |w| == |s| then [] else "-");
        assert w + [] == w;
      } else {
        JoinIsLocal(Words(t));
        TrimEndOfSum(w + "-", Collapse(t));
      }
    }
  }

  /** The whole pipeline before truncation is the words of the text joined by single hyphens. */
  lemma TrimmedIsJoinedWords(s: string)
    ensures TrimEnd(TrimStart(Collapse(s))) == Join(Words(s))
  {
    var t := SkipRun(s);
    CollapseJoinsWords(t);
    if t != [] { assert Collapse(t)[0] == t[0]; }
    assert TrimStart(Collapse(t)) == Collapse(t);
    if s != [] && !IsAlnum(s[0]) {
      assert Collapse(s)[1..] == Collapse(t);
    }
  }

  // ----- The slug language -----

  /** `/^[a-z0-9]+(?:-[a-z0-9]+)*$/`, as the request validation spells it. */
  ghost predicate IsSlug(s: string) {
    exists ws: seq<string> :: ws != [] && (forall i :: 0 <= i < |ws| ==> IsWord(ws[i])) && s == Join(ws)
  }

  /** The same language, character by character. */
  predicate Local(s: string) {
    && s != [] && s[0] != '-' && s[|s| - 1] != '-'
    && (forall i :: 0 <= i < |s| ==> IsAlnum(s[i]) || s[i] == '-')
    && (forall i :: 0 < i < |s| && s[i] == '-' ==> s[i - 1] != '-')
  }

  lemma {:induction false} JoinIsLocal(ws: seq<string>)
    requires ws != [] && forall i :: 0 <= i < |ws| ==> IsWord(ws[i])
    ensures Local(Join(ws))
    decreases |ws|
  {
    if |ws| > 1 {
      JoinIsLocal(ws[1..]);
      var s, a := Join(ws), ws[0] + "-";
      assert s == a + Join(ws[1..]);
      forall i | 0 < i < |s| && s[i] == '-' ensures s[i - 1] != '-' {
        if i > |a| { assert s[i] == Join(ws[1..])[i - |a|] && s[i - 1] == Join(ws[1..])[i - 1 - |a|]; }
      }
    }
  }

  /** In a slug the character after a word is a lone dash. */
  lemma LocalDash(s: string)
    requires Local(s) && |FirstWord(s)| < |s|
    ensures var n := |FirstWord(s)|; s[n] == '-' && n + 1 < |s| && IsAlnum(s[n + 1])
  {
    hide SkipRun;
  }

  lemma SkipOne(rest: string)
    requires |rest| > 1 && rest[0] == '-' && IsAlnum(rest[1])
    ensures SkipRun(rest) == rest[1..]
  {
    assert SkipRun(rest[1..]) == rest[1..];
  }

  lemma SuffixIsLocal(s: string, n: nat)
    requires Local(s) && n < |s| && IsAlnum(s[n])
    ensures Local(s[n..])
  {
    var t := s[n..];
    assert forall i :: 0 <= i < |t| ==> t[i] == s[n + i];
  }

  lemma LocalTail(s: string)
    requires Local(s) && |FirstWord(s)| < |s|
    ensures var w, t := FirstWord(s), NextWord(s);
            s == w + "-" + t && Local(t)
  {
    var w := FirstWord(s);
    LocalDash(s);
    var rest, t := s[|w|..], s[|w| + 1..];
    hide FirstWord, SkipRun, Local, IsAlnum;
    assert rest[1..] == t;
    SkipOne(rest);
    SuffixIsLocal(s, |w| + 1);
  }

  lemma {:induction false} LocalIsJoin(s: string)
    requires Local(s)
    ensures Join(Words(s)) == s && Words(s) != []
    decreases |s|
  {
    var w, t := FirstWord(s), NextWord(s);
    WordStep(s);
    if |w| == |s| {
      assert w == s && Words(t) == [];
    } else {
      LocalTail(s);
      hide Local, Words, FirstWord, NextWord, Collapse;
      LocalIsJoin(t);
    }
  }

  /** The regular expression and the character-by-character reading accept the same strings. */
  lemma SlugLanguage(s: string)
    ensures IsSlug(s) <==> Local(s)
  {
    if IsSlug(s) {
      var ws: seq<string> :| ws != [] && (forall i :: 0 <= i < |ws| ==> IsWord(ws[i])) && s == Join(ws);
      JoinIsLocal(ws);
    }
    if Local(s) { LocalIsJoin(s); }
  }

  // ----- Results -----

  /** What is left of the joined words after the cut. */
  function Cut(joined: string, maxLength: nat): string {
    TrimEnd(Take(joined, maxLength))
  }

  /** `slugify` is: the words joined, cut to length, a dash left at the cut removed; or the fallback. */
  lemma SlugifyMeaning(fold: string -> string, value: string, maxLength: nat)
    ensures var cut := Cut(Join(Words(fold(value))), maxLength);
            Slugify(fold, value, maxLength) == if cut == [] then FALLBACK else cut
  {
    TrimmedIsJoinedWords(fold(value));
  }

  /** A cut loses at most one character more than it must, and stays in the language. */
  lemma CutFacts(joined: string, maxLength: nat)
    requires Local(joined)
    ensures var cut := Cut(joined, maxLength);
            && |cut| <= maxLength && (|joined| <= maxLength ==> cut == joined)
            && (maxLength < |joined| ==> maxLength - 1 <= |cut|)
            && (0 < maxLength ==> Local(cut))
  {
    var taken, cut := Take(joined, maxLength), Cut(joined, maxLength);
    assert cut <= taken <= joined;
    if |joined| <= maxLength {
      assert taken == joined && joined[|joined| - 1] != '-';
    } else if maxLength >= 2 {
      assert taken[maxLength - 1] == joined[maxLength - 1] && taken[maxLength - 2] == joined[maxLength - 2];
      assert |cut| >= maxLength - 1;
    } else if maxLength == 1 {
      assert taken[0] == joined[0] && |cut| == 1;
    }
    if 0 < maxLength {
      assert cut != [];
      assert forall i :: 0 <= i < |cut| ==> cut[i] == joined[i];
    }
  }

  lemma FallbackIsLocal()
    ensures Local(FALLBACK) && |FALLBACK| == 8
  {
  }

  lemma JoinedIsLocal(s: string)
    ensures Words(s) != [] ==> Local(Join(Words(s)))
  {
    if Words(s) != [] { JoinIsLocal(Words(s)); }
  }

  /** Every result is a slug the API would accept, for every text and every positive length. */
  lemma SlugifyIsSlug(fold: string -> string, value: string, maxLength: nat)
    ensures IsSlug(Slugify(fold, value, maxLength))
  {
    var ws := Words(fold(value));
    SlugifyMeaning(fold, value, maxLength);
    JoinedIsLocal(fold(value));
    FallbackIsLocal();
    if ws != [] { CutFacts(Join(ws), maxLength); }
    SlugLanguage(Slugify(fold, value, maxLength));
    hide Slugify, Local, Words, IsSlug;
  }

  /** The length limit is kept exactly when it leaves room for the fallback, or the fallback is not needed. */
  lemma SlugifyLength(fold: string -> string, value: string, maxLength: nat)
    ensures |Slugify(fold, value, maxLength)| <= maxLength <==>
              |FALLBACK| <= maxLength || (0 < maxLength && Words(fold(value)) != [])
  {
    var ws := Words(fold(value));
    SlugifyMeaning(fold, value, maxLength);
    JoinedIsLocal(fold(value));
    if ws != [] { CutFacts(Join(ws), maxLength); }
    hide Slugify, Local, Words;
  }

  /** The fixed points are the slugs that fit; so slugifying twice is slugifying once. */
  lemma SlugifyFixedPoints(fold: string -> string, x: string, maxLength: nat)
    requires FixesSlugText(fold) && |FALLBACK| <= maxLength
    ensures Slugify(fold, x, maxLength) == x <==> IsSlug(x) && |x| <= maxLength
  {
    SlugifyIsSlug(fold, x, maxLength);
    SlugifyLength(fold, x, maxLength);
    if IsSlug(x) && |x| <= maxLength {
      SlugLanguage(x);
      assert fold(x) == x;
      LocalIsJoin(x);
      SlugifyMeaning(fold, x, maxLength);
      CutFacts(x, maxLength);
    }
  }

  lemma SlugifyIsIdempotent(fold: string -> string, value: string, maxLength: nat)
    requires FixesSlugText(fold) && |FALLBACK| <= maxLength
    ensures Slugify(fold, Slugify(fold, value, maxLength), maxLength) == Slugify(fold, value, maxLength)
  {
    SlugifyIsSlug(fold, value, maxLength);
    SlugifyLength(fold, value, maxLength);
    SlugifyFixedPoints(fold, Slugify(fold, value, maxLength), maxLength);
  }

  // ----- Columns -----

  const DEFAULT_LENGTH := 150
  const WORKFLOW_COLUMN := 150
  const FOLDER_COLUMN := 200
  const WORKSPACE_COLUMN := 100

  /**
   * A derived slug always fits the workflow and folder columns. The workspace column is narrower than the
   * default cap, and fits exactly the names whose joined words do.
   */
  lemma DerivedSlugFits(fold: string -> string, name: string)
    ensures var slug := Slugify(fold, name, DEFAULT_LENGTH);
            && |slug| <= WORKFLOW_COLUMN && |slug| <= FOLDER_COLUMN
            && (|slug| <= WORKSPACE_COLUMN <==> |Join(Words(fold(name)))| <= WORKSPACE_COLUMN)
  {
    var ws := Words(fold(name));
    SlugifyMeaning(fold, name, DEFAULT_LENGTH);
    SlugifyLength(fold, name, DEFAULT_LENGTH);
    JoinedIsLocal(fold(name));
    FallbackIsLocal();
    if ws != [] { CutFacts(Join(ws), DEFAULT_LENGTH); }
    hide Slugify, Local, Words;
  }
}
