/** Facts about sequences shared by the filters of the services and of the client:
    which elements a filter keeps, in which order, and how positions are counted. */
module Secuencias {
  /** `r` is `s` with some elements left out, the rest kept in their order. */
  predicate Subsecuencia<T(==)>(r: seq<T>, s: seq<T>)
    decreases |s|
  {
    r == [] || (|s| > 0 && ((r[0] == s[0] && Subsecuencia(r[1..], s[1..])) || Subsecuencia(r, s[1..])))
  }

  /** Every sequence is a subsequence of itself. */
  lemma {:induction false} SubsecuenciaPropia<T>(s: seq<T>)
    ensures Subsecuencia(s, s)
    decreases |s|
  {
    if |s| > 0 {
      SubsecuenciaPropia(s[1..]);
    }
  }

  /** Appending an element to the sequence keeps a subsequence one, and appending it to
      both keeps one too. */
  lemma {:induction false} SubsecuenciaAgregar<T>(r: seq<T>, s: seq<T>, x: T)
    requires Subsecuencia(r, s)
    ensures Subsecuencia(r, s + [x]) && Subsecuencia(r + [x], s + [x])
    decreases |s|
  {
    if |s| == 0 {
      assert (r + [x])[1..] == [];
    } else {
      assert (s + [x])[1..] == s[1..] + [x];
      if r == [] {
        SubsecuenciaAgregar(r, s[1..], x);
        assert r + [x] == [x];
      } else if r[0] == s[0] && Subsecuencia(r[1..], s[1..]) {
        SubsecuenciaAgregar(r[1..], s[1..], x);
        assert (r + [x])[1..] == r[1..] + [x];
      } else {
        SubsecuenciaAgregar(r, s[1..], x);
      }
    }
  }

  /** The positions of `s` whose element satisfies `p`. */
  function Posiciones<T>(s: seq<T>, p: T -> bool): (r: set<int>)
    ensures forall i :: i in r <==> 0 <= i < |s| && p(s[i])
  {
    set i | 0 <= i < |s| && p(s[i])
  }

  /** Counting positions one element at a time: the positions of a prefix one longer
      are those of the shorter prefix, plus its last position when that element
      satisfies `p`. */
  lemma PosicionesPrefijo<T>(s: seq<T>, p: T -> bool, k: nat)
    requires k < |s|
    ensures |Posiciones(s[..k + 1], p)| == |Posiciones(s[..k], p)| + (if p(s[k]) then 1 else 0)
  {
    var antes := Posiciones(s[..k], p);
    assert Posiciones(s[..k + 1], p) == antes + (if p(s[k]) then {k} else {});
    assert k !in antes;
  }
}
