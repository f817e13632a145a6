/** A client among others that fill a bounded map: the cast of the runs that break a limit. */
module Crowd {
  const CLIENT: string := "client"
  const NEWCOMER: string := "newcomer"

  function Name(i: nat): string {
    seq(i, _ => '.')
  }

  /** n other clients, each holding v. */
  function Others<V>(n: nat, v: V): map<string, V> {
    if n == 0 then map[] else Others(n - 1, v)[Name(n - 1) := v]
  }

  lemma {:induction false} OthersAreOthers<V>(n: nat, v: V)
    ensures |Others(n, v)| == n
    ensures forall k | k in Others(n, v) :: |k| < n && (k == "" || k[0] == '.')
    ensures CLIENT !in Others(n, v) && NEWCOMER !in Others(n, v) && Name(n) !in Others(n, v)
  {
    if n > 0 {
      OthersAreOthers(n - 1, v);
      OneMore(Others(n - 1, v), Name(n - 1), v);
    }
  }

  lemma OneMore<V>(m: map<string, V>, k: string, v: V)
    requires k !in m
    ensures |m[k := v]| == |m| + 1
  {
    assert m[k := v].Keys == m.Keys + {k};
  }

  /** CLIENT and n others; the next one to come is new. */
  lemma OneMoreOther<V>(n: nat, v: V, c: V)
    ensures var m := Others(n, v)[CLIENT := c];
      && |m| == n + 1 && Name(n) != CLIENT && Name(n) !in m
      && m[Name(n) := v] == Others(n + 1, v)[CLIENT := c]
  {
    OthersAreOthers(n, v);
    OneMore(Others(n, v), CLIENT, c);
    assert n > 0 ==> Name(n)[0] == '.';
  }
}
