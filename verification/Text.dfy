/** The parts of Go's strings package that the printers and parsers use. */
module Text {

  predicate Has(s: string, c: char) {
    exists i :: 0 <= i < |s| && s[i] == c
  }

  /** Where c first occurs, or the length. */
  function IndexOf(s: string, c: char): (i: nat)
    ensures i <= |s| && (i < |s| ==> s[i] == c) && forall j | 0 <= j < i :: s[j] != c
  {
    if s == [] || s[0] == c then 0 else IndexOf(s[1..], c) + 1
  }

  /** strings.Split on a one-character separator. */
  function Split(s: string, sep: char): (parts: seq<string>)
    ensures |parts| >= 1 && forall i | 0 <= i < |parts| :: !Has(parts[i], sep)
    decreases |s|
  {
    var i := IndexOf(s, sep);
    if i == |s| then [s] else [s[..i]] + Split(s[i + 1..], sep)
  }

  /** strings.Join with a one-character separator. */
  function Join(parts: seq<string>, sep: char): string {
    if parts == [] then ""
    else if |parts| == 1 then parts[0]
    else parts[0] + [sep] + Join(parts[1..], sep)
  }

  lemma IndexAfter(a: string, sep: char, rest: string)
    requires !Has(a, sep)
    ensures IndexOf(a + [sep] + rest, sep) == |a|
  {
    var s := a + [sep] + rest;
    assert s[|a|] == sep;
    assert forall j | 0 <= j < |a| :: s[j] == a[j];
  }

  lemma SplitAfter(a: string, sep: char, rest: string)
    requires !Has(a, sep)
    ensures Split(a + [sep] + rest, sep) == [a] + Split(rest, sep)
  {
    IndexAfter(a, sep, rest);
    var s := a + [sep] + rest;
    assert s[..|a|] == a && s[|a| + 1..] == rest;
  }

  /** Splitting what was joined gives the parts back, when none has the separator in it. */
  lemma {:induction false} SplitOfJoin(parts: seq<string>, sep: char)
    requires |parts| >= 1 && forall i | 0 <= i < |parts| :: !Has(parts[i], sep)
    ensures Split(Join(parts, sep), sep) == parts
  {
    if |parts| == 1 {
      assert IndexOf(parts[0], sep) == |parts[0]|;
    } else {
      var rest := Join(parts[1..], sep);
      SplitAfter(parts[0], sep, rest);
      SplitOfJoin(parts[1..], sep);
    }
  }

  lemma JoinMore(head: string, rest: seq<string>, sep: char)
    requires rest != []
    ensures Join([head] + rest, sep) == head + [sep] + Join(rest, sep)
  {
    assert ([head] + rest)[1..] == rest;
  }

  lemma SplitOnce(s: string, sep: char)
    ensures var i := IndexOf(s, sep);
      Split(s, sep) == if i == |s| then [s] else [s[..i]] + Split(s[i + 1..], sep)
  {
    hide Has, IndexOf;
  }

  /** Joining what was split gives the string back. */
  lemma {:induction false} JoinOfSplit(s: string, sep: char)
    ensures Join(Split(s, sep), sep) == s
    decreases |s|
  {
    hide Split, Join, Has, IndexOf;
    SplitOnce(s, sep);
    var i := IndexOf(s, sep);
    if i < |s| {
      JoinOfSplit(s[i + 1..], sep);
      JoinMore(s[..i], Split(s[i + 1..], sep), sep);
      assert s == s[..i] + [sep] + s[i + 1..];
    } else {
      JoinOne(s, sep);
    }
  }

  lemma JoinOne(s: string, sep: char)
    ensures Join([s], sep) == s
  {
  }

  lemma {:induction false} JoinedHasNo(parts: seq<string>, sep: char, c: char)
    requires c != sep && forall i | 0 <= i < |parts| :: !Has(parts[i], c)
    ensures !Has(Join(parts, sep), c)
  {
    if |parts| > 1 {
      JoinedHasNo(parts[1..], sep, c);
    }
  }

  datatype CutResult = CutResult(before: string, after: string, found: bool)

  /** strings.Cut around a one-character separator. */
  function Cut(s: string, sep: char): CutResult {
    var i := IndexOf(s, sep);
    if i == |s| then CutResult(s, "", false) else CutResult(s[..i], s[i + 1..], true)
  }

  lemma CutOfPair(k: string, sep: char, v: string)
    requires !Has(k, sep)
    ensures Cut(k + [sep] + v, sep) == CutResult(k, v, true)
  {
    IndexAfter(k, sep, v);
    var s := k + [sep] + v;
    assert s[..|k|] == k && s[|k| + 1..] == v;
  }

  lemma CutOfNone(s: string, sep: char)
    requires !Has(s, sep)
    ensures Cut(s, sep) == CutResult(s, "", false)
  {
    assert IndexOf(s, sep) == |s|;
  }

  /** unicode.IsSpace. */
  predicate IsSpace(c: char) {
    var n := c as int;
    || 0x9 <= n <= 0xD || n == 0x20 || n == 0x85 || n == 0xA0 || n == 0x1680
    || 0x2000 <= n <= 0x200A || n == 0x2028 || n == 0x2029 || n == 0x202F || n == 0x205F || n == 0x3000
  }

  /** strings.TrimSpace. */
  function TrimSpace(s: string): (t: string)
    ensures |t| <= |s|
    ensures t != [] ==> !IsSpace(t[0]) && !IsSpace(t[|t| - 1])
    decreases |s|
  {
    if s == [] then s
    else if IsSpace(s[0]) then TrimSpace(s[1..])
    else if IsSpace(s[|s| - 1]) then TrimSpace(s[..|s| - 1])
    else s
  }

  predicate NoSpaces(s: string) {
    forall i | 0 <= i < |s| :: !IsSpace(s[i])
  }

  lemma NothingToTrim(s: string)
    requires NoSpaces(s)
    ensures TrimSpace(s) == s
  {
  }
}
