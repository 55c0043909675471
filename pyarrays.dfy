/**
 * The few Python and numpy primitives the recording converters rely on, with
 * their exact index semantics: int() on a float, slicing with negative and
 * out-of-range bounds, constant padding, element-wise arithmetic, argmax and
 * peak-to-peak.
 */
module PyArrays {

  /** Python's int() applied to a float: truncation toward zero. */
  function Trunc(x: real): (r: int)
    ensures 0.0 <= x ==> 0 <= r && r as real <= x < r as real + 1.0
    ensures x < 0.0 ==> r <= 0 && r as real - 1.0 < x <= r as real
  {
    if x >= 0.0 then x.Floor else -((-x).Floor)
  }

  lemma TruncMonotone(x: real, y: real)
    requires 0.0 <= x <= y
    ensures Trunc(x) <= Trunc(y)
  {
  }

  /**
   * Where a slice bound i lands in a sequence of length n: a negative bound
   * counts from the end, and the result is clamped into [0, n].
   */
  function SliceBound(i: int, n: nat): (r: nat)
    ensures r <= n
    ensures 0 <= i <= n ==> r == i
    ensures i < 0 ==> r == if i + n < 0 then 0 else i + n
    ensures i > n ==> r == n
  {
    if i < 0 then (if i + n < 0 then 0 else i + n)
    else if i > n then n
    else i
  }

  /** s[start:stop] on a Python list or a one-dimensional numpy array. */
  function Slice<T>(s: seq<T>, start: int, stop: int): (r: seq<T>)
    ensures var a, b := SliceBound(start, |s|), SliceBound(stop, |s|);
      |r| == (if a < b then b - a else 0)
  {
    var a, b := SliceBound(start, |s|), SliceBound(stop, |s|);
    if a < b then s[a..b] else []
  }

  /** A slice never yields more than stop - start elements. */
  lemma SliceLengthBound<T>(s: seq<T>, start: int, stop: int)
    requires start <= stop
    ensures |Slice(s, start, stop)| <= stop - start
  {
    var a, b := SliceBound(start, |s|), SliceBound(stop, |s|);
    if start < 0 && stop < 0 {
      assert b - a <= stop - start;
    }
  }

  /** Inside the bounds, a Python slice is Dafny's subsequence. */
  lemma SliceInBounds<T>(s: seq<T>, start: int, stop: int)
    requires 0 <= start <= stop <= |s|
    ensures Slice(s, start, stop) == s[start..stop]
  {
  }

  function Zeros(n: nat): (r: seq<real>)
    ensures |r| == n && forall i :: 0 <= i < n ==> r[i] == 0.0
  {
    seq(n, _ => 0.0)
  }

  /** np.pad(s, p, "constant"): p zeros, then s unchanged, then p zeros. */
  function ZeroPad(s: seq<real>, p: nat): (r: seq<real>)
    ensures |r| == |s| + 2 * p
    ensures r[..p] == Zeros(p) && r[p..p + |s|] == s && r[p + |s|..] == Zeros(p)
    ensures forall i :: 0 <= i < |r| ==> r[i] == if p <= i < p + |s| then s[i - p] else 0.0
  {
    Zeros(p) + s + Zeros(p)
  }

  /** Element-wise product of two equally long arrays. */
  function Product(x: seq<real>, y: seq<real>): (r: seq<real>)
    requires |x| == |y|
    ensures |r| == |x| && forall i :: 0 <= i < |r| ==> r[i] == x[i] * y[i]
  {
    seq(|x|, i requires 0 <= i < |x| => x[i] * y[i])
  }

  /** Element-wise difference of two equally long arrays. */
  function Difference(x: seq<real>, y: seq<real>): (r: seq<real>)
    requires |x| == |y|
    ensures |r| == |x| && forall i :: 0 <= i < |r| ==> r[i] == x[i] - y[i]
  {
    seq(|x|, i requires 0 <= i < |x| => x[i] - y[i])
  }

  /** np.argmax: scanning left to right, a later sample replaces the candidate only when strictly larger. */
  function ArgMax(xs: seq<real>): (k: nat)
    requires |xs| > 0
    ensures k < |xs|
  {
    if |xs| == 1 then 0
    else
      var k' := ArgMax(xs[..|xs| - 1]);
      if xs[|xs| - 1] > xs[k'] then |xs| - 1 else k'
  }

  /** The index argmax picks holds the largest value. */
  lemma {:induction false} ArgMaxIsMaximum(xs: seq<real>)
    requires |xs| > 0
    ensures forall j :: 0 <= j < |xs| ==> xs[j] <= xs[ArgMax(xs)]
  {
    if |xs| > 1 {
      var init := xs[..|xs| - 1];
      ArgMaxIsMaximum(init);
      assert forall j :: 0 <= j < |init| ==> xs[j] == init[j];
    }
  }

  /** The index argmax picks is the first occurrence of the maximum: every earlier sample is strictly smaller. */
  lemma {:induction false} ArgMaxFirst(xs: seq<real>)
    requires |xs| > 0
    ensures forall j :: 0 <= j < ArgMax(xs) ==> xs[j] < xs[ArgMax(xs)]
  {
    if |xs| > 1 {
      var init := xs[..|xs| - 1];
      ArgMaxFirst(init);
      ArgMaxIsMaximum(init);
      assert forall j :: 0 <= j < |init| ==> xs[j] == init[j];
    }
  }

  /** The largest element. */
  function Max(xs: seq<real>): real
    requires |xs| > 0
  {
    if |xs| == 1 then xs[0]
    else
      var m' := Max(xs[..|xs| - 1]);
      if xs[|xs| - 1] > m' then xs[|xs| - 1] else m'
  }

  /** Max is attained by some sample and bounds every sample from above. */
  lemma {:induction false} MaxIsMaximum(xs: seq<real>)
    requires |xs| > 0
    ensures exists i :: 0 <= i < |xs| && xs[i] == Max(xs)
    ensures forall i :: 0 <= i < |xs| ==> xs[i] <= Max(xs)
  {
    if |xs| > 1 {
      var init := xs[..|xs| - 1];
      MaxIsMaximum(init);
      var i :| 0 <= i < |init| && init[i] == Max(init);
      assert forall j :: 0 <= j < |init| ==> xs[j] == init[j];
      if Max(xs) != Max(init) {
        assert xs[|xs| - 1] == Max(xs);
      } else {
        assert xs[i] == Max(xs);
      }
    } else {
      assert xs[0] == Max(xs);
    }
  }

  /** The smallest element. */
  function Min(xs: seq<real>): real
    requires |xs| > 0
  {
    if |xs| == 1 then xs[0]
    else
      var m' := Min(xs[..|xs| - 1]);
      if xs[|xs| - 1] < m' then xs[|xs| - 1] else m'
  }

  /** Min is attained by some sample and bounds every sample from below. */
  lemma {:induction false} MinIsMinimum(xs: seq<real>)
    requires |xs| > 0
    ensures exists i :: 0 <= i < |xs| && xs[i] == Min(xs)
    ensures forall i :: 0 <= i < |xs| ==> Min(xs) <= xs[i]
  {
    if |xs| > 1 {
      var init := xs[..|xs| - 1];
      MinIsMinimum(init);
      var i :| 0 <= i < |init| && init[i] == Min(init);
      assert forall j :: 0 <= j < |init| ==> xs[j] == init[j];
      if Min(xs) != Min(init) {
        assert xs[|xs| - 1] == Min(xs);
      } else {
        assert xs[i] == Min(xs);
      }
    } else {
      assert xs[0] == Min(xs);
    }
  }

  /** np.ptp: peak-to-peak amplitude, max - min (numpy raises on an empty array). */
  function Ptp(xs: seq<real>): real
    requires |xs| > 0
  {
    Max(xs) - Min(xs)
  }

  /**
   * The peak-to-peak amplitude exceeds t exactly when some pair of samples
   * differs by more than t.
   */
  lemma PtpExceeds(xs: seq<real>, t: real)
    requires |xs| > 0
    ensures Ptp(xs) > t <==>
      exists i, j :: 0 <= i < |xs| && 0 <= j < |xs| && xs[i] - xs[j] > t
  {
    MaxIsMaximum(xs);
    MinIsMinimum(xs);
    if Ptp(xs) > t {
      var i :| 0 <= i < |xs| && xs[i] == Max(xs);
      var j :| 0 <= j < |xs| && xs[j] == Min(xs);
      assert xs[i] - xs[j] > t;
    }
  }
}
