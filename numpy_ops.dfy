/**
 * The two array operations the rolling buffer update is made of:
 * `np.roll(a, -k)`, which returns a NEW array whose slot i holds a[(i + k) mod len],
 * and the slice assignment `a[-n:] = values`, which overwrites the tail of `a` in place
 * and raises unless the slice and the values have the same length.
 */
module NumpyOps {

  /**
   * The contents of `np.roll(s, -k)`: every sample moves k slots to the left, cyclically,
   * so slot i holds the sample at (i + k) mod |s|.
   */
  function RollLeft(s: seq<real>, k: nat): seq<real>
  {
    if |s| == 0 then []
    else
      var d := k % |s|;
      seq(|s|, i requires 0 <= i < |s| => if i + d < |s| then s[i + d] else s[i + d - |s|])
  }

  /** A left roll by k <= |s| is the suffix from k followed by the k samples it pushed out. */
  lemma RollLeftSplit(s: seq<real>, k: nat)
    requires k <= |s|
    ensures RollLeft(s, k) == s[k..] + s[..k]
  {
    var n := |s|;
    if 0 < k < n {
      assert k % n == k;
    } else if k == n > 0 {
      assert k % n == 0;
      assert s[k..] + s[..k] == s;
    }
  }

  /**
   * Where the Python slice `a[-n:]` starts in a sequence of length `len`:
   * `-0` is `0`, so n == 0 selects the whole sequence, and a start before the
   * beginning is clamped to 0.
   */
  function TailSliceStart(len: nat, n: nat): (start: nat)
    ensures start <= len
    ensures len - start == n <==> (0 < n <= len || n == len == 0)
    ensures 0 < n <= len ==> start == len - n
  {
    if n == 0 || n > len then 0 else len - n
  }

  /** `np.roll(a, -shift)`: a fresh array holding the rolled contents. */
  method Roll(a: array<real>, shift: nat) returns (r: array<real>)
    ensures fresh(r)
    ensures r[..] == RollLeft(a[..], shift)
  {
    var len := a.Length;
    r := new real[len];
    var i := 0;
    while i < len
      invariant 0 <= i <= len
      invariant forall j :: 0 <= j < i ==> r[j] == RollLeft(a[..], shift)[j]
    {
      var d := shift % len;
      r[i] := if i + d < len then a[i + d] else a[i + d - len];
      i := i + 1;
    }
  }

  /**
   * `a[-|values|:] = values`. `audio_callback` does not check the frame length; numpy raises when
   * the slice and the values differ in length, which the requires rules out.
   */
  method AssignTail(a: array<real>, values: seq<real>)
    requires a.Length - TailSliceStart(a.Length, |values|) == |values|
    modifies a
    ensures a[..] == old(a[..])[..a.Length - |values|] + values
  {
    var start := TailSliceStart(a.Length, |values|);
    var j := 0;
    while j < |values|
      invariant 0 <= j <= |values|
      invariant forall i :: 0 <= i < start ==> a[i] == old(a[i])
      invariant forall i :: 0 <= i < j ==> a[start + i] == values[i]
    {
      a[start + j] := values[j];
      j := j + 1;
    }
    assert a[..] == old(a[..])[..start] + values;
  }
}
