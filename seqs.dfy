/** Sequence helpers used by the buffer and index-list models. */
module Seqs {
  /** `n` copies of `v`, as `std::vector::insert(end, n, v)` appends them. */
  function Repeat<T>(v: T, n: nat): (r: seq<T>)
    ensures |r| == n
    ensures forall i :: 0 <= i < n ==> r[i] == v
  {
    if n == 0 then [] else Repeat(v, n - 1) + [v]
  }

  /** Concatenation is associative; stated once so that loops appending to a
    * list need not re-derive it element by element. */
  lemma AppendAssoc<T>(a: seq<T>, b: seq<T>, c: seq<T>)
    ensures (a + b) + c == a + (b + c)
  {
  }

  /** Every element of `s` lies in the half-open range [lo, hi). */
  predicate AllIn(s: seq<int>, lo: int, hi: int)
  {
    forall i :: 0 <= i < |s| ==> lo <= s[i] < hi
  }

  lemma AllInConcat(a: seq<int>, b: seq<int>, lo: int, hi: int)
    requires AllIn(a, lo, hi) && AllIn(b, lo, hi)
    ensures AllIn(a + b, lo, hi)
  {
    forall i | 0 <= i < |a + b| ensures lo <= (a + b)[i] < hi {
      if i >= |a| { assert (a + b)[i] == b[i - |a|]; }
    }
  }

  lemma AllInConcat6(a: seq<int>, b: seq<int>, c: seq<int>, d: seq<int>, e: seq<int>, f: seq<int>, lo: int, hi: int)
    requires AllIn(a, lo, hi) && AllIn(b, lo, hi) && AllIn(c, lo, hi)
    requires AllIn(d, lo, hi) && AllIn(e, lo, hi) && AllIn(f, lo, hi)
    ensures AllIn(a + b + c + d + e + f, lo, hi)
  {
    AllInConcat(a, b, lo, hi);
    AllInConcat(a + b, c, lo, hi);
    AllInConcat(a + b + c, d, lo, hi);
    AllInConcat(a + b + c + d, e, lo, hi);
    AllInConcat(a + b + c + d + e, f, lo, hi);
  }

  lemma AllInWiden(s: seq<int>, lo: int, hi: int, lo': int, hi': int)
    requires AllIn(s, lo, hi) && lo' <= lo && hi <= hi'
    ensures AllIn(s, lo', hi')
  {
  }

  /** A buffer whose front has been rewritten with `prefix` and whose
    * remaining cells still hold what `base` held. */
  function Overlay<T>(prefix: seq<T>, base: seq<T>): (r: seq<T>)
    requires |prefix| <= |base|
    ensures |r| == |base|
  {
    prefix + base[|prefix|..]
  }

  /** Overwriting the cells right after an already rewritten front extends
    * that front: the shape of a buffer filled front to back in place. */
  lemma SpliceAppend<T>(prefix: seq<T>, piece: seq<T>, base: seq<T>)
    requires |prefix| + |piece| <= |base|
    ensures var cur := Overlay(prefix, base);
      cur[..|prefix|] + piece + cur[|prefix| + |piece|..] == Overlay(prefix + piece, base)
  {
    var cur := Overlay(prefix, base);
    assert cur[..|prefix|] == prefix;
    assert cur[|prefix| + |piece|..] == base[|prefix| + |piece|..];
  }
}
