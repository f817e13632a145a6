/** Slugs from display names, and the search for a free one
    (backend/internal/handlers/tenants.go, backend/internal/handlers/projects.go). */
module Slugs {
  import opened Decimal
  import opened Text

  // ---- slugify ----------------------------------------------------------------------------

  predicate IsWordChar(c: char) {
    'a' <= c <= 'z' || IsDigit(c)
  }

  predicate IsWord(w: string) {
    w != "" && forall i | 0 <= i < |w| :: IsWordChar(w[i])
  }

  /** How many word characters s starts with. */
  function Run(s: string): (n: nat)
    ensures n <= |s| && (forall i | 0 <= i < n :: IsWordChar(s[i])) && (n < |s| ==> !IsWordChar(s[n]))
  {
    if s == [] || !IsWordChar(s[0]) then 0 else 1 + Run(s[1..])
  }

  /** How many other characters s starts with. */
  function Gap(s: string): (n: nat)
    ensures n <= |s| && (forall i | 0 <= i < n :: !IsWordChar(s[i])) && (n < |s| ==> IsWordChar(s[n]))
  {
    if s == [] || IsWordChar(s[0]) then 0 else 1 + Gap(s[1..])
  }

  /** The maximal stretches of word characters, in order. */
  function Words(s: string): (ws: seq<string>)
    ensures forall i | 0 <= i < |ws| :: IsWord(ws[i])
    decreases |s|
  {
    if s == [] then []
    else if IsWordChar(s[0]) then [s[..Run(s)]] + Words(s[Run(s)..])
    else Words(s[1..])
  }

  /** Each stretch of other characters becomes one hyphen. */
  function Hyphenate(s: string): string
    decreases |s|
  {
    if s == [] then []
    else if IsWordChar(s[0]) then [s[0]] + Hyphenate(s[1..])
    else ['-'] + Hyphenate(s[Gap(s)..])
  }

  /** strings.Trim(s, "-") */
  function TrimHyphens(s: string): string
    decreases |s|
  {
    if s == [] then s
    else if s[0] == '-' then TrimHyphens(s[1..])
    else if s[|s| - 1] == '-' then TrimHyphens(s[..|s| - 1])
    else s
  }

  function Lower(s: string, lower: char -> char): (t: string)
    ensures |t| == |s| && forall i | 0 <= i < |s| :: t[i] == lower(s[i])
  {
    seq(|s|, i requires 0 <= i < |s| => lower(s[i]))
  }

  /** What is used of unicode.ToLower: it keeps slug characters, and no space becomes a word character. */
  ghost predicate LowersWell(lower: char -> char) {
    && (forall c :: IsWordChar(c) || c == '-' ==> lower(c) == c)
    && (forall c :: IsSpace(c) ==> !IsWordChar(lower(c)))
  }

  function Slugify(name: string, lower: char -> char): string {
    var s := TrimHyphens(Hyphenate(Lower(TrimSpace(name), lower)));
    if s == "" then "x" else s
  }

  lemma {:induction false} HyphenateRun(s: string)
    ensures Hyphenate(s) == s[..Run(s)] + Hyphenate(s[Run(s)..])
  {
    if s != [] && IsWordChar(s[0]) {
      HyphenateRun(s[1..]);
      assert s[..Run(s)] == [s[0]] + s[1..][..Run(s[1..])];
      assert s[Run(s)..] == s[1..][Run(s[1..])..];
    }
  }

  lemma {:induction false} WordsAfterGap(s: string)
    ensures Words(s) == Words(s[Gap(s)..])
  {
    if s != [] && !IsWordChar(s[0]) {
      WordsAfterGap(s[1..]);
      assert s[Gap(s)..] == s[1..][Gap(s[1..])..];
    } else {
      assert s[0..] == s;
    }
  }

  function Trail(s: string): string {
    if s != [] && !IsWordChar(s[|s| - 1]) then "-" else ""
  }

  /** What follows the first word and the gap after it. */
  function Rest(s: string): (next: string)
    ensures s != [] ==> |next| < |s|
    ensures next == [] || IsWordChar(next[0])
  {
    var rest := s[Run(s)..];
    if s == [] then [] else rest[Gap(rest)..]
  }

  /** A first word, then something else, then the rest. */
  lemma FirstWord(s: string)
    requires s != [] && IsWordChar(s[0])
    ensures Words(s) == [s[..Run(s)]] + Words(Rest(s))
    ensures Hyphenate(s) == s[..Run(s)] + (if Run(s) == |s| then [] else ['-'] + Hyphenate(Rest(s)))
  {
    HyphenateRun(s);
    WordsAfterGap(s[Run(s)..]);
  }

  lemma RestIs(s: string) returns (r: nat, g: nat)
    requires s != []
    ensures r == Run(s) && r + g <= |s| && Rest(s) == s[r + g..]
    ensures forall i | 0 <= i < r :: IsWordChar(s[i])
    ensures forall i | r <= i < r + g :: !IsWordChar(s[i])
  {
    r := Run(s);
    var rest := s[r..];
    g := Gap(rest);
    assert forall i | r <= i < r + g :: s[i] == rest[i - r];
    assert rest[g..] == s[r + g..];
  }

  lemma RestOf(s: string)
    requires s != []
    ensures Rest(s) != [] ==> Trail(s) == Trail(Rest(s)) && Run(s) < |s|
    ensures Rest(s) == [] ==> Trail(s) == if Run(s) == |s| then "" else "-"
  {
    hide Run, Rest, Words, Hyphenate;
    var r, g := RestIs(s);
    if r + g < |s| {
      assert s[|s| - 1] == s[r + g..][|s| - r - g - 1];
    }
  }

  lemma StartsWithWords(s: string)
    requires s != [] && IsWordChar(s[0])
    ensures Words(s) != []
  {
  }

  /** A string that starts with a word hyphenates to its words, joined, and a last hyphen if it
      ends in something else. */
  lemma {:induction false} HyphenatedWords(s: string)
    requires s == [] || IsWordChar(s[0])
    ensures Hyphenate(s) == Join(Words(s), '-') + Trail(s)
    decreases |s|
  {
    hide Words, Hyphenate, Run, Rest, Trail, Join;
    NoWords();
    if s != [] {
      var w, next := s[..Run(s)], Rest(s);
      FirstWord(s);
      RestOf(s);
      HyphenatedWords(next);
      JoinFirst(w, Words(next));
      if next != [] {
        StartsWithWords(next);
        Reassociate(w, Join(Words(next), '-'), Trail(next));
      }
    }
  }

  lemma Reassociate(w: string, j: string, t: string)
    ensures w + (['-'] + (j + t)) == (w + ['-'] + j) + t
  {
  }

  lemma NoWords()
    ensures Words([]) == [] && Hyphenate([]) == [] && Trail([]) == [] && Join([], '-') == []
  {
  }

  lemma JoinFirst(w: string, ws: seq<string>)
    ensures Join([w] + ws, '-') == if ws == [] then w else w + ['-'] + Join(ws, '-')
  {
    assert ([w] + ws)[1..] == ws;
  }

  lemma JoinedEnds(ws: seq<string>)
    requires ws != [] && forall i | 0 <= i < |ws| :: IsWord(ws[i])
    ensures var j := Join(ws, '-'); j != "" && IsWordChar(j[0]) && IsWordChar(j[|j| - 1])
  {
    if |ws| > 1 {
      JoinedEnds(ws[1..]);
    }
  }

  lemma TrimCore(lead: string, core: string, trail: string)
    requires lead in {"", "-"} && trail in {"", "-"}
    requires core == "" || (core[0] != '-' && core[|core| - 1] != '-')
    ensures TrimHyphens(lead + core + trail) == core
  {
    var s := lead + core + trail;
    if lead == "-" {
      assert s[1..] == core + trail;
    } else {
      assert s == core + trail;
    }
    if trail == "-" && core != "" {
      assert (core + trail)[..|core|] == core;
    } else if trail == "" {
      assert core + trail == core;
    } else {
      assert core + trail == "-" && "-"[1..] == "";
    }
  }

  lemma HyphenForGap(s: string)
    requires s != [] && !IsWordChar(s[0])
    ensures Hyphenate(s) == "-" + Hyphenate(s[Gap(s)..])
  {
  }

  /** Hyphens at the ends, if any, and the hyphenated words between them. */
  lemma HyphenatedEnds(s: string)
    ensures var g := s[Gap(s)..];
      Hyphenate(s) == (if s == [] || IsWordChar(s[0]) then "" else "-") + Join(Words(g), '-') + Trail(g)
  {
    hide Words, Join, Hyphenate, Trail;
    var g := s[Gap(s)..];
    HyphenatedWords(g);
    if s == [] || IsWordChar(s[0]) {
      assert g == s;
      assert "" + Join(Words(g), '-') == Join(Words(g), '-');
    } else {
      HyphenForGap(s);
      assert "-" + (Join(Words(g), '-') + Trail(g)) == "-" + Join(Words(g), '-') + Trail(g);
    }
  }

  lemma HyphenateThenTrim(s: string)
    ensures TrimHyphens(Hyphenate(s)) == Join(Words(s), '-')
  {
    hide Hyphenate, Words, Join, TrimHyphens;
    var g := s[Gap(s)..];
    WordsAfterGap(s);
    HyphenatedEnds(s);
    if Words(g) == [] {
      JoinNone();
    } else {
      JoinedEnds(Words(g));
    }
    TrimCore(if s == [] || IsWordChar(s[0]) then "" else "-", Join(Words(g), '-'), Trail(g));
  }

  lemma JoinNone()
    ensures Join([], '-') == ""
  {
  }

  lemma {:induction false} WordsOfGapless(s: string, extra: string)
    requires forall i | 0 <= i < |extra| :: !IsWordChar(extra[i])
    ensures Words(s + extra) == Words(s) && Words(extra + s) == Words(s)
    decreases |s| + |extra|
  {
    if extra == [] {
      assert s + extra == s && extra + s == s;
    } else {
      assert (extra + s)[1..] == extra[1..] + s;
      WordsOfGapless(s, extra[1..]);
      WordsThenOthers(s, extra);
    }
  }

  lemma {:induction false} WordsThenOthers(s: string, extra: string)
    requires forall i | 0 <= i < |extra| :: !IsWordChar(extra[i])
    ensures Words(s + extra) == Words(s)
    decreases |s| + |extra|
  {
    if s == [] {
      assert s + extra == extra;
      if extra != [] {
        assert extra[1..] == [] + extra[1..];
        WordsThenOthers([], extra[1..]);
      }
    } else if IsWordChar(s[0]) {
      RunBeforeOthers(s, extra);
      var n := Run(s);
      assert (s + extra)[..n] == s[..n] && (s + extra)[n..] == s[n..] + extra;
      WordsThenOthers(s[n..], extra);
    } else {
      assert (s + extra)[1..] == s[1..] + extra;
      WordsThenOthers(s[1..], extra);
    }
  }

  lemma RunBeforeOthers(s: string, extra: string)
    requires s != [] && IsWordChar(s[0]) && forall i | 0 <= i < |extra| :: !IsWordChar(extra[i])
    ensures Run(s + extra) == Run(s) >= 1
  {
    RunIs(s + extra, Run(s));
  }

  lemma {:induction false} RunIs(s: string, n: nat)
    requires n <= |s| && (forall i | 0 <= i < n :: IsWordChar(s[i])) && (n < |s| ==> !IsWordChar(s[n]))
    ensures Run(s) == n
  {
    if n > 0 {
      RunIs(s[1..], n - 1);
    }
  }

  lemma TrimStep(s: string)
    requires s != []
    ensures TrimSpace(s) ==
      if IsSpace(s[0]) then TrimSpace(s[1..])
      else if IsSpace(s[|s| - 1]) then TrimSpace(s[..|s| - 1])
      else s
  {
    hide IsSpace;
  }

  lemma LowerParts(a: string, b: string, lower: char -> char)
    ensures Lower(a + b, lower) == Lower(a, lower) + Lower(b, lower)
  {
  }

  lemma {:induction false} TrimmingKeepsWords(s: string, lower: char -> char)
    requires LowersWell(lower)
    ensures Words(Lower(TrimSpace(s), lower)) == Words(Lower(s, lower))
    decreases |s|
  {
    hide Words, TrimSpace, Lower;
    if s != [] {
      TrimStep(s);
      var n := |s| - 1;
      if IsSpace(s[0]) {
        TrimmingKeepsWords(s[1..], lower);
        LosesASpace(s[1..], s[0], lower);
        assert s == [s[0]] + s[1..];
      } else if IsSpace(s[n]) {
        TrimmingKeepsWords(s[..n], lower);
        LosesASpace(s[..n], s[n], lower);
        assert s == s[..n] + [s[n]];
      }
    } else {
      EmptyIsTrimmed();
    }
  }

  lemma EmptyIsTrimmed()
    ensures TrimSpace("") == ""
  {
  }

  lemma LosesASpace(s: string, c: char, lower: char -> char)
    requires LowersWell(lower) && IsSpace(c)
    ensures Words(Lower([c] + s, lower)) == Words(Lower(s, lower)) == Words(Lower(s + [c], lower))
  {
    hide Words;
    LowerParts([c], s, lower);
    LowerParts(s, [c], lower);
    WordsOfGapless(Lower(s, lower), Lower([c], lower));
  }

  /** A slug is the lower-cased name's words, joined by single hyphens; "x" when there are none. */
  lemma SlugIsItsWords(name: string, lower: char -> char)
    requires LowersWell(lower)
    ensures var ws := Words(Lower(name, lower));
      && Slugify(name, lower) == (if ws == [] then "x" else Join(ws, '-'))
      && Split(Slugify(name, lower), '-') == (if ws == [] then ["x"] else ws)
      && Slugify(name, lower) != ""
  {
    hide LowersWell;
    var ws := Words(Lower(name, lower));
    TrimmingKeepsWords(name, lower);
    HyphenateThenTrim(Lower(TrimSpace(name), lower));
    forall i | 0 <= i < |ws|
      ensures !Has(ws[i], '-')
    {
      assert IsWord(ws[i]);
    }
    if ws == [] {
      assert Join(["x"], '-') == "x" && !Has("x", '-');
      SplitOfJoin(["x"], '-');
    } else {
      JoinedEnds(ws);
      SplitOfJoin(ws, '-');
    }
  }

  lemma {:induction false} WordsOfJoined(ws: seq<string>)
    requires forall i | 0 <= i < |ws| :: IsWord(ws[i])
    ensures Words(Join(ws, '-')) == ws
  {
    if ws != [] {
      var w := ws[0];
      var rest := if |ws| == 1 then [] else ['-'] + Join(ws[1..], '-');
      assert Join(ws, '-') == w + rest;
      OneRun(w, rest);
      if |ws| > 1 {
        WordsOfJoined(ws[1..]);
        assert rest[1..] == Join(ws[1..], '-');
      }
      assert ws == [w] + ws[1..];
    }
  }

  lemma OneRun(w: string, rest: string)
    requires IsWord(w) && (rest == [] || !IsWordChar(rest[0]))
    ensures Words(w + rest) == [w] + Words(rest)
  {
    var s := w + rest;
    RunIs(s, |w|);
    assert s[0] == w[0] && s[..|w|] == w && s[|w|..] == rest;
  }

  /** A slug is its own slug. */
  lemma SlugifyIsIdempotent(name: string, lower: char -> char)
    requires LowersWell(lower)
    ensures Slugify(Slugify(name, lower), lower) == Slugify(name, lower)
  {
    hide Slugify, Words, Split, LowersWell;
    var ws := Words(Lower(name, lower));
    var slug := Slugify(name, lower);
    SlugIsItsWords(name, lower);
    SlugIsItsWords(slug, lower);
    var words := if ws == [] then ["x"] else ws;
    assert slug == Join(words, '-');
    LowerKeepsSlug(words, lower);
    WordsOfJoined(words);
  }

  lemma LowerKeepsSlug(ws: seq<string>, lower: char -> char)
    requires LowersWell(lower) && forall i | 0 <= i < |ws| :: IsWord(ws[i])
    ensures Lower(Join(ws, '-'), lower) == Join(ws, '-')
  {
    JoinedHasSlugChars(ws);
  }

  lemma {:induction false} JoinedHasSlugChars(ws: seq<string>)
    requires forall i | 0 <= i < |ws| :: IsWord(ws[i])
    ensures forall i | 0 <= i < |Join(ws, '-')| :: IsWordChar(Join(ws, '-')[i]) || Join(ws, '-')[i] == '-'
  {
    if |ws| > 1 {
      JoinedHasSlugChars(ws[1..]);
    }
  }

  /** A slug is not empty, has nothing but lower-case letters, digits and hyphens in it, starts and
      ends in a letter or digit, and never has two hyphens in a row. */
  lemma SlugsAreClean(name: string, lower: char -> char)
    requires LowersWell(lower)
    ensures var s := Slugify(name, lower);
      && s != "" && (forall i | 0 <= i < |s| :: 'a' <= s[i] <= 'z' || '0' <= s[i] <= '9' || s[i] == '-')
      && s[0] != '-' && s[|s| - 1] != '-' && forall i | 0 < i < |s| :: !(s[i - 1] == '-' && s[i] == '-')
  {
    hide Slugify, Words, Split, LowersWell;
    var ws := Words(Lower(name, lower));
    SlugIsItsWords(name, lower);
    var words := if ws == [] then ["x"] else ws;
    JoinedEnds(words);
    JoinedHasSlugChars(words);
    JoinedHasNoGap(words);
  }

  lemma {:induction false} JoinedHasNoGap(ws: seq<string>)
    requires forall i | 0 <= i < |ws| :: IsWord(ws[i])
    ensures var s := Join(ws, '-'); forall i | 0 < i < |s| :: !(s[i - 1] == '-' && s[i] == '-')
  {
    if |ws| > 1 {
      JoinedHasNoGap(ws[1..]);
      JoinedEnds(ws[1..]);
    }
  }

  // ---- a free slug ----------------------------------------------------------------------------

  /** base, base-2, base-3, ... */
  function Candidate(base: string, k: nat): string {
    if k <= 1 then base else base + "-" + Itoa(k)
  }

  lemma CandidatesDiffer(base: string, j: nat, k: nat)
    requires 1 <= j < k
    ensures Candidate(base, j) != Candidate(base, k)
  {
    assert |Candidate(base, k)| > |base|;
    if j > 1 && Candidate(base, j) == Candidate(base, k) {
      assert Candidate(base, j)[|base| + 1..] == Itoa(j);
      assert Candidate(base, k)[|base| + 1..] == Itoa(k);
      ItoaIsInjective(j, k);
    }
  }

  /** The first n candidates. */
  ghost function Tried(base: string, n: nat): set<string> {
    if n == 0 then {} else Tried(base, n - 1) + {Candidate(base, n)}
  }

  lemma {:induction false} TriedCounts(base: string, n: nat, taken: set<string>)
    requires forall k | 1 <= k <= n :: Candidate(base, k) in taken
    ensures |Tried(base, n)| == n && Tried(base, n) <= taken
    ensures forall s | s in Tried(base, n) :: exists k :: 1 <= k <= n && s == Candidate(base, k)
  {
    if n > 0 {
      TriedCounts(base, n - 1, taken);
      forall k | 1 <= k < n
        ensures Candidate(base, k) != Candidate(base, n)
      {
        CandidatesDiffer(base, k, n);
      }
    }
  }

  /** When the first n candidates are all taken, n of the taken slugs are accounted for. */
  lemma Pigeonhole(base: string, n: nat, taken: set<string>)
    requires forall k | 1 <= k <= n :: Candidate(base, k) in taken
    ensures n <= |taken|
  {
    TriedCounts(base, n, taken);
    assert taken == Tried(base, n) + (taken - Tried(base, n));
  }

  /** uniqueSlug: the first free candidate, found after at most as many taken ones as there are. */
  method UniqueSlug(base: string, taken: set<string>) returns (slug: string)
    ensures slug !in taken
    ensures exists n :: 1 <= n <= |taken| + 1 && slug == Candidate(base, n)
                        && forall k | 1 <= k < n :: Candidate(base, k) in taken
    ensures base !in taken ==> slug == base
    ensures base in taken ==> exists n :: 2 <= n <= |taken| + 1 && slug == base + "-" + Itoa(n)
  {
    if base !in taken {
      assert base == Candidate(base, 1);
      return base;
    }
    var i := 2;
    while true
      invariant i >= 2 && forall k | 1 <= k < i :: Candidate(base, k) in taken
      decreases |taken| + 2 - i
    {
      Pigeonhole(base, i - 1, taken);
      var candidate := base + "-" + Itoa(i);
      assert candidate == Candidate(base, i);
      if candidate !in taken {
        assert 2 <= i <= |taken| + 1;
        return candidate;
      }
      i := i + 1;
    }
  }
}
