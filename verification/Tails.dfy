/** The newest elements of a list, as a bounded buffer or a slice from the end keeps them. */
module Tails {
  function LastN<T>(s: seq<T>, n: nat): seq<T> {
    if |s| <= n then s else s[|s| - n..]
  }

  lemma {:induction false} LastNAt<T>(s: seq<T>, n: nat, i: nat)
    requires i < |LastN(s, n)|
    ensures |LastN(s, n)| <= |s| && LastN(s, n)[i] == s[|s| - |LastN(s, n)| + i]
  {
  }

  lemma {:induction false} LastNAppend<T>(a: seq<T>, b: seq<T>, n: nat)
    ensures LastN(LastN(a, n) + b, n) == LastN(a + b, n)
  {
    var kept := LastN(a, n);
    var x, y := LastN(kept + b, n), LastN(a + b, n);
    assert |x| == |y|;
    forall i | 0 <= i < |x| ensures x[i] == y[i] {
      LastNAt(kept + b, n, i);
      LastNAt(a + b, n, i);
      var at := |kept + b| - |x| + i;
      if at < |kept| {
        LastNAt(a, n, at);
      }
    }
  }

  /** Dropping the newest element of what is kept keeps one element fewer of the rest. */
  lemma {:induction false} LastNInit<T>(s: seq<T>, n: nat)
    requires 1 <= n <= |s|
    ensures |LastN(s, n)| == n && LastN(s, n)[n - 1] == s[|s| - 1]
    ensures LastN(s, n)[..n - 1] == LastN(s[..|s| - 1], n - 1)
  {
    var x, y := LastN(s, n), LastN(s[..|s| - 1], n - 1);
    assert |x| == n && |y| == n - 1;
    forall i | 0 <= i < n - 1 ensures x[..n - 1][i] == y[i] {
      LastNAt(s, n, i);
      LastNAt(s[..|s| - 1], n - 1, i);
    }
    LastNAt(s, n, n - 1);
  }

  /** What is kept ends with the newest element, and is empty only when there is none. */
  lemma {:induction false} LastNEnds<T>(s: seq<T>, n: nat)
    requires n >= 1
    ensures |LastN(s, n)| > 0 <==> |s| > 0
    ensures |s| > 0 ==> LastN(s, n)[|LastN(s, n)| - 1] == s[|s| - 1]
  {
  }

  /** A tabulated function, one value longer. */
  lemma {:induction false} OneMore<T>(f: int --> T, n: nat)
    requires forall i :: 0 <= i <= n ==> f.requires(i)
    ensures seq(n + 1, f) == seq(n, f) + [f(n)]
  {
  }

  lemma {:induction false} LastNOneMore<T>(s: seq<T>, i: nat, n: nat)
    requires i < |s|
    ensures LastN(LastN(s[..i], n) + [s[i]], n) == LastN(s[..i + 1], n)
  {
    LastNAppend(s[..i], [s[i]], n);
    assert s[..i] + [s[i]] == s[..i + 1];
  }
}
