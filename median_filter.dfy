/** The sliding window behind `MedianFilter3D`: the most recent samples of a
    3-vector stream, bounded by the window size. The median itself is kept
    opaque: it is a function of the window fixed at construction. */
module MedianFilter {
  import opened Vectors

  /** The window after `v` has been appended: the newest `size` samples. */
  function Slide(window: seq<Vec3>, v: Vec3, size: nat): (w: seq<Vec3>)
    ensures |w| == if |window| + 1 <= size then |window| + 1 else size
    ensures size > 0 ==> w[|w| - 1] == v
    ensures w == (window + [v])[|window| + 1 - |w|..]
  {
    var all := window + [v];
    if |all| > size then all[|all| - size..] else all
  }

  /** A sequence of `n` copies of `v`. */
  function Repeat(v: Vec3, n: nat): (s: seq<Vec3>)
    ensures |s| == n
    ensures forall i :: 0 <= i < n ==> s[i] == v
  {
    if n == 0 then [] else Repeat(v, n - 1) + [v]
  }

  /** Pushing the same sample `n` times, as repeated `update_data` calls do. */
  function PushRepeated(window: seq<Vec3>, v: Vec3, size: nat, n: nat): seq<Vec3> {
    if n == 0 then window else Slide(PushRepeated(window, v, size, n - 1), v, size)
  }

  /** Once a window of size `size` has received `n >= size` copies of `v`, it
      holds nothing else: the window is `size` copies of `v`, whatever it held
      before. */
  lemma {:induction false} FilledWithRepeated(window: seq<Vec3>, v: Vec3, size: nat, n: nat)
    requires |window| <= size <= n
    ensures PushRepeated(window, v, size, n) == Repeat(v, size)
  {
    var w := PushRepeated(window, v, size, n);
    if n == size {
      PushedSuffix(window, v, size, n);
    } else {
      FilledWithRepeated(window, v, size, n - 1);
      assert w == Slide(Repeat(v, size), v, size);
    }
    assert |w| == size;
    assert forall i :: 0 <= i < size ==> w[i] == v;
  }

  /** After `n <= size` pushes into a window with room, the last `n` entries
      are the pushed samples and the earlier entries survive as a suffix. */
  lemma {:induction false} PushedSuffix(window: seq<Vec3>, v: Vec3, size: nat, n: nat)
    requires |window| <= size && n <= size
    ensures var w := PushRepeated(window, v, size, n);
            |w| == (if |window| + n <= size then |window| + n else size) &&
            (forall i :: |w| - n <= i < |w| ==> w[i] == v)
  {
    if n > 0 {
      var prev := PushRepeated(window, v, size, n - 1);
      PushedSuffix(window, v, size, n - 1);
      var w := Slide(prev, v, size);
      var drop := |prev| + 1 - |w|;
      forall i | |w| - n <= i < |w|
        ensures w[i] == v
      {
        assert w[i] == (prev + [v])[drop + i];
      }
    }
  }

  class MedianFilter3D {
    /** The window length given to the constructor. */
    const size: nat
    /** The per-axis median of a window, left abstract. */
    const median: seq<Vec3> -> Vec3
    /** The samples currently held, oldest first. */
    var window: seq<Vec3>

    ghost predicate Valid()
      reads this
    {
      |window| <= size
    }

    constructor (size: nat, median: seq<Vec3> -> Vec3)
      ensures Valid()
      ensures this.size == size && this.median == median && window == []
    {
      this.size := size;
      this.median := median;
      window := [];
    }

    /** `update_data`: append a sample, evicting the oldest once full. */
    method UpdateData(v: Vec3)
      requires Valid()
      modifies this
      ensures Valid()
      ensures window == Slide(old(window), v, size)
    {
      window := Slide(window, v, size);
    }

    /** `output`: the per-axis median of the current window. */
    function Output(): Vec3
      reads this
    {
      median(window)
    }
  }
}
