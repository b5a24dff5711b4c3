/**
 * Python's sequence indexing and slicing with step 1, as lists, strings
 * and the leading axis of numpy arrays use them: a negative index counts
 * from the end, slice bounds are clamped into range and an empty slice
 * results when the upper bound is not above the lower one.
 */
module PySeq {
  import opened Results

  /** The position a slice bound `i` denotes in a sequence of length `n`. */
  function ClampBound(i: int, n: nat): (r: nat)
    ensures r <= n
    ensures 0 <= i <= n ==> r == i
    ensures i < 0 && -(n as int) <= i ==> r == i + n
  {
    if i < 0 then (if i + n < 0 then 0 else i + n)
    else if i > n then n
    else i
  }

  /** `s[a:b]` */
  function Slice<T>(s: seq<T>, a: int, b: int): (r: seq<T>)
    ensures |r| <= |s|
    ensures 0 <= a <= b <= |s| ==> r == s[a..b]
    ensures b <= a && (0 <= b || a < 0) ==> r == []
  {
    var lo, hi := ClampBound(a, |s|), ClampBound(b, |s|);
    if hi <= lo then [] else s[lo..hi]
  }

  /** `s[i]`, which raises IndexError outside `-len(s) <= i < len(s)`. */
  function Index<T>(s: seq<T>, i: int): (r: Result<T>)
    ensures r.Ok? <==> -|s| <= i < |s|
    ensures 0 <= i < |s| ==> r == Ok(s[i])
    ensures -|s| <= i < 0 ==> r == Ok(s[|s| + i])
  {
    if 0 <= i < |s| then Ok(s[i])
    else if -|s| <= i < 0 then Ok(s[|s| + i])
    else Err(IndexError)
  }

  /** `s[i] = v` on a list: the updated list, or IndexError. */
  function Store<T>(s: seq<T>, i: int, v: T): (r: Result<seq<T>>)
    ensures r.Ok? <==> -|s| <= i < |s|
    ensures 0 <= i < |s| ==> r == Ok(s[i := v])
    ensures -|s| <= i < 0 ==> r == Ok(s[|s| + i := v])
  {
    if 0 <= i < |s| then Ok(s[i := v])
    else if -|s| <= i < 0 then Ok(s[|s| + i := v])
    else Err(IndexError)
  }

  /** `s[::-1]` */
  function Reverse<T>(s: seq<T>): (r: seq<T>)
    ensures |r| == |s|
    ensures forall i :: 0 <= i < |s| ==> r[i] == s[|s| - 1 - i]
  {
    if s == [] then [] else Reverse(s[1..]) + [s[0]]
  }

  lemma {:induction false} ReverseReverse<T>(s: seq<T>)
    ensures Reverse(Reverse(s)) == s
  {
    var r := Reverse(Reverse(s));
    assert |r| == |s|;
    forall i | 0 <= i < |s| ensures r[i] == s[i] {
      assert r[i] == Reverse(s)[|s| - 1 - i];
    }
  }
}
