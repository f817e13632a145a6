/** Recovery codes as generated and as typed back (backend/internal/auth/totp.go). */
module RecoveryCodes {

  const HALF: nat := 5

  /** The thirty-two characters codes are made of. */
  predicate InAlphabet(c: char) {
    '0' <= c <= '9' || ('A' <= c <= 'Z' && c != 'I' && c != 'L' && c != 'O' && c != 'U')
  }

  predicate IsSeparator(c: char) {
    c == '-' || c == ' ' || c == '\t' || c == '\n' || c == '\r'
  }

  /** What normalisation makes of one upper-cased character. */
  function Fold(c: char): string {
    if IsSeparator(c) then ""
    else if c == 'I' || c == 'L' then "1"
    else if c == 'O' then "0"
    else [c]
  }

  function Normal(code: string, upper: char -> char): string {
    if code == [] then []
    else Normal(code[..|code| - 1], upper) + Fold(upper(code[|code| - 1]))
  }

  /** normalizeRecoveryCode; upper is unicode.ToUpper. */
  method NormalizeRecoveryCode(code: string, upper: char -> char) returns (r: string)
    ensures r == Normal(code, upper)
  {
    r := "";
    for i := 0 to |code|
      invariant r == Normal(code[..i], upper)
    {
      assert code[..i + 1][..i] == code[..i];
      var c := upper(code[i]);
      if IsSeparator(c) {
        continue;
      }
      if c == 'I' || c == 'L' {
        r := r + "1";
      } else if c == 'O' {
        r := r + "0";
      } else {
        r := r + [c];
      }
    }
    assert code[..|code|] == code;
  }

  /** What is used of unicode.ToUpper: it settles after one step, keeps digits and separators, and
      raises the ASCII letters. */
  ghost predicate UppersWell(upper: char -> char) {
    && (forall c :: upper(upper(c)) == upper(c))
    && (forall c | 'a' <= c <= 'z' :: upper(c) == (c as int - 32) as char)
    && (forall c | '0' <= c <= '9' || 'A' <= c <= 'Z' || IsSeparator(c) :: upper(c) == c)
  }

  lemma {:induction false} NormalOfConcat(a: string, b: string, upper: char -> char)
    ensures Normal(a + b, upper) == Normal(a, upper) + Normal(b, upper)
  {
    hide Fold;
    if b == [] {
      assert a + b == a;
    } else {
      NormalOfConcat(a, b[..|b| - 1], upper);
      assert (a + b)[..|a + b| - 1] == a + b[..|b| - 1];
    }
  }

  lemma FoldIsNormal(c: char, upper: char -> char)
    requires UppersWell(upper)
    ensures Normal(Fold(upper(c)), upper) == Fold(upper(c))
  {
    var f := Fold(upper(c));
    assert upper('0') == '0' && upper('1') == '1';
    if f != [] {
      assert f[..0] == [] && f == [f[0]];
    }
  }

  /** Normalising a normalised code changes nothing. */
  lemma {:induction false} NormalIsIdempotent(code: string, upper: char -> char)
    requires UppersWell(upper)
    ensures Normal(Normal(code, upper), upper) == Normal(code, upper)
  {
    if code != [] {
      var init, c := code[..|code| - 1], code[|code| - 1];
      NormalIsIdempotent(init, upper);
      FoldIsNormal(c, upper);
      NormalOfConcat(Normal(init, upper), Fold(upper(c)), upper);
    }
  }

  predicate FromAlphabet(s: string) {
    forall i | 0 <= i < |s| :: InAlphabet(s[i])
  }

  lemma AlphabetIsPlain(c: char, upper: char -> char)
    requires UppersWell(upper) && InAlphabet(c)
    ensures upper(c) == c && Fold(c) == [c]
  {
  }

  lemma {:induction false} AlphabetStays(s: string, upper: char -> char)
    requires UppersWell(upper) && FromAlphabet(s)
    ensures Normal(s, upper) == s
  {
    if s != [] {
      AlphabetStays(s[..|s| - 1], upper);
      AlphabetIsPlain(s[|s| - 1], upper);
    }
  }

  /** A generated code: two halves from the alphabet around a hyphen. */
  function Shown(a: string, b: string): string {
    a + "-" + b
  }

  /** However a code is typed (in any case, spaced or hyphenated, with look-alikes), what its
      hash covers is the ten characters generated; so two generated codes share a hash input
      only if they are the same code. */
  lemma TypedCodeMatchesOnlyItsOwn(a: string, b: string, c: string, d: string, typed: string, upper: char -> char)
    requires UppersWell(upper) && FromAlphabet(a) && FromAlphabet(b) && FromAlphabet(c) && FromAlphabet(d)
    requires |a| == |b| == |c| == |d| == HALF
    ensures Normal(Shown(a, b), upper) == a + b
    ensures Normal(typed, upper) == Normal(Shown(a, b), upper) && Normal(typed, upper) == Normal(Shown(c, d), upper)
      ==> Shown(a, b) == Shown(c, d)
  {
    ShownIsItsHalves(a, b, upper);
    ShownIsItsHalves(c, d, upper);
    assert (a + b)[..HALF] == a && (a + b)[HALF..] == b;
    assert (c + d)[..HALF] == c && (c + d)[HALF..] == d;
  }

  lemma ShownIsItsHalves(a: string, b: string, upper: char -> char)
    requires UppersWell(upper) && FromAlphabet(a) && FromAlphabet(b)
    ensures Normal(Shown(a, b), upper) == a + b
  {
    hide Fold, Normal, FromAlphabet;
    NormalOfConcat(a + "-", b, upper);
    NormalOfConcat(a, "-", upper);
    AlphabetStays(a, upper);
    AlphabetStays(b, upper);
    HyphenGoes(upper);
  }

  lemma HyphenGoes(upper: char -> char)
    requires UppersWell(upper)
    ensures Normal("-", upper) == []
  {
    assert "-"[..0] == [] && upper('-') == '-';
  }

  lemma NormalOfOne(c: char, upper: char -> char)
    ensures Normal([c], upper) == Fold(upper(c))
  {
    assert [c][..0] == [];
  }

  lemma FoldedAlike(s: string, t: string, x: char, y: char, upper: char -> char)
    requires Fold(upper(x)) == Fold(upper(y))
    ensures Normal(s + [x] + t, upper) == Normal(s + [y] + t, upper)
    ensures Fold(upper(x)) == "" ==> Normal(s + [x] + t, upper) == Normal(s + t, upper)
  {
    hide Fold, Normal;
    NormalOfOne(x, upper);
    NormalOfOne(y, upper);
    NormalOfConcat(s + [x], t, upper);
    NormalOfConcat(s + [y], t, upper);
    NormalOfConcat(s, [x], upper);
    NormalOfConcat(s, [y], upper);
    NormalOfConcat(s, t, upper);
  }

  /** Read alike: a letter in either case; i, l and 1; o and 0. */
  predicate LookAlike(x: char, y: char) {
    || x == y
    || ('a' <= x <= 'z' && y as int == x as int - 32)
    || (x in {'i', 'I', 'l', 'L', '1'} && y in {'i', 'I', 'l', 'L', '1'})
    || (x in {'o', 'O', '0'} && y in {'o', 'O', '0'})
  }

  /** Anywhere in a code, characters that look alike are read alike, and a space, a tab, a line break
      or a hyphen is ignored. */
  lemma TypingStyleDoesNotMatter(s: string, t: string, x: char, y: char, upper: char -> char)
    requires UppersWell(upper)
    ensures LookAlike(x, y) ==> Normal(s + [x] + t, upper) == Normal(s + [y] + t, upper)
    ensures x in {' ', '\t', '\n', '\r', '-'} ==> Normal(s + [x] + t, upper) == Normal(s + t, upper)
  {
    hide Normal;
    if x in {' ', '\t', '\n', '\r', '-'} {
      FoldedAlike(s, t, x, x, upper);
    }
    if LookAlike(x, y) {
      FoldedAlike(s, t, x, y, upper);
    }
  }
}
