/** Python's sequence slicing and floor division, written out because Dafny's slices
    demand in-range bounds and Dafny's `/` is Euclidean. */
module PyOps {

  /** How Python clamps one slice bound against a sequence of length `n`. */
  function SliceBound(i: int, n: nat): (r: nat)
    ensures r <= n
    ensures 0 <= i <= n ==> r == i
    ensures i > n ==> r == n
    ensures i < 0 ==> r == (if i + n < 0 then 0 else i + n)
  {
    if i < 0 then (if i + n < 0 then 0 else i + n) else if i > n then n else i
  }

  /** Python `s[a:b]`. */
  function Slice<T>(s: seq<T>, a: int, b: int): (r: seq<T>)
    ensures |r| <= |s|
    ensures 0 <= a <= b <= |s| ==> r == s[a..b]
    ensures 0 <= a && |s| <= a ==> r == []
    ensures 0 <= b <= a ==> r == []
  {
    var i := SliceBound(a, |s|);
    var j := SliceBound(b, |s|);
    if i < j then s[i..j] else []
  }

  /** Python `a // b`: the quotient rounded towards minus infinity. */
  function FloorDiv(a: int, b: int): (q: int)
    requires b != 0
    ensures b > 0 ==> q * b <= a < q * b + b
    ensures b < 0 ==> q * b >= a > q * b + b
  {
    if b > 0 then a / b else (-a) / (-b)
  }
}
