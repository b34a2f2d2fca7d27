/** An optional value: a nullable column, or a lookup that may find nothing. */
module Options {
  datatype Option<+T> = None | Some(value: T)
}

/** Facts about sequences that are used in more than one module. */
module Sequences {
  predicate Distinct<T(==)>(s: seq<T>) {
    forall i, j :: 0 <= i < j < |s| ==> s[i] != s[j]
  }

  lemma TailOfAppend<T>(s: seq<T>, t: seq<T>)
    requires s != []
    ensures (s + t)[0] == s[0]
    ensures (s + t)[1..] == s[1..] + t
  {
  }

  lemma HeadFirst<T>(s: seq<T>, t: seq<T>)
    requires s != []
    ensures [s[0]] + (s[1..] + t) == s + t
  {
  }

  lemma AppendEmpty<T>(s: seq<T>)
    ensures [] + s == s && s + [] == s
  {
  }

  lemma InitOfSnoc<T>(s: seq<T>, x: T)
    ensures (s + [x])[..|s|] == s && (s + [x])[|s|] == x && |s + [x]| == |s| + 1
  {
  }

  lemma TakeTake<T>(s: seq<T>, k: nat, n: nat)
    requires k <= n <= |s|
    ensures s[..n][..k] == s[..k]
  {
  }
}

/** Facts about multisets that are used in more than one module. */
module Multisets {
  lemma Nothing<T>(a: multiset<T>)
    ensures multiset{} + a == a && a + multiset{} == a && a - multiset{} == a
  {
  }
}
