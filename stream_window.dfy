/**
 * What the rolling buffer should hold: the last `cap` samples of the stream
 * "cap zeros, then every frame received so far, in arrival order".
 */
module StreamWindow {

  /** The initial buffer contents, `np.zeros(cap)`. */
  function Zeros(n: nat): seq<real>
  {
    seq(n, _ => 0.0)
  }

  /** All frames concatenated in arrival order. */
  function Concat(frames: seq<seq<real>>): seq<real>
  {
    if frames == [] then [] else frames[0] + Concat(frames[1..])
  }

  /** The last `cap` samples of the zero-prefixed stream `s`. */
  function Window(cap: nat, s: seq<real>): (w: seq<real>)
    ensures |w| == cap
  {
    (Zeros(cap) + s)[|s|..]
  }

  /** Appending one more frame keeps the concatenation in arrival order. */
  lemma {:induction false} ConcatAppend(frames: seq<seq<real>>, f: seq<real>)
    ensures Concat(frames + [f]) == Concat(frames) + f
  {
    if frames == [] {
      assert [f][1..] == [];
    } else {
      assert (frames + [f])[1..] == frames[1..] + [f];
      ConcatAppend(frames[1..], f);
    }
  }

  /** Before any frame arrives the window is all zeros. */
  lemma WindowEmpty(cap: nat)
    ensures Window(cap, []) == Zeros(cap)
  {
    assert Zeros(cap) + [] == Zeros(cap);
  }

  /**
   * Receiving a frame f of at most cap samples drops the oldest |f| samples of the
   * window and puts f at its end.
   */
  lemma WindowAppend(cap: nat, s: seq<real>, f: seq<real>)
    requires |f| <= cap
    ensures Window(cap, s + f) == Window(cap, s)[|f|..] + f
  {
    var a := Zeros(cap) + s;
    assert Zeros(cap) + (s + f) == a + f;
    assert (a + f)[|s| + |f|..] == a[|s| + |f|..] + f;
    assert a[|s|..][|f|..] == a[|s| + |f|..];
  }

  /** Once at least cap samples arrived, the window is exactly the most recent cap of them. */
  lemma WindowOfLongStream(cap: nat, s: seq<real>)
    requires |s| >= cap
    ensures Window(cap, s) == s[|s| - cap..]
  {
    var w := Window(cap, s);
    forall i | 0 <= i < cap
      ensures w[i] == s[|s| - cap + i]
    {
      assert w[i] == (Zeros(cap) + s)[|s| + i];
    }
  }

  /** Before cap samples arrived, the window is zero padding followed by the whole stream. */
  lemma WindowOfShortStream(cap: nat, s: seq<real>)
    requires |s| < cap
    ensures Window(cap, s) == Zeros(cap - |s|) + s
  {
    var w := Window(cap, s);
    forall i | 0 <= i < cap
      ensures w[i] == (Zeros(cap - |s|) + s)[i]
    {
      assert w[i] == (Zeros(cap) + s)[|s| + i];
    }
  }

  /** N frames of L samples each concatenate to a stream of N * L samples. */
  lemma {:induction false} ConcatLengthUniform(frames: seq<seq<real>>, len: nat)
    requires forall i :: 0 <= i < |frames| ==> |frames[i]| == len
    ensures |Concat(frames)| == |frames| * len
  {
    if frames != [] {
      ConcatLengthUniform(frames[1..], len);
      assert |frames| * len == len + (|frames| - 1) * len;
    }
  }

  /**
   * After N frames of L samples with N * L >= cap, the window holds exactly the most
   * recent cap samples of the stream, in arrival order.
   */
  lemma RecentSamples(cap: nat, frames: seq<seq<real>>, len: nat)
    requires forall i :: 0 <= i < |frames| ==> |frames[i]| == len
    requires |frames| * len >= cap
    ensures |Concat(frames)| == |frames| * len
    ensures Window(cap, Concat(frames)) == Concat(frames)[|frames| * len - cap..]
  {
    ConcatLengthUniform(frames, len);
    WindowOfLongStream(cap, Concat(frames));
  }
}
