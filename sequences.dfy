/**
 * Sequence helpers shared by the compiler and the field renderers: concatenating
 * a list of chunks (Swift's `flatMap`), interleaving a separator between chunks
 * (the divider loop of the compiler and Swift's `joined(separator:)`), and
 * counting occurrences of a token.
 *
 * Flatten and Interleave are defined from the back, the way the source's loops
 * grow their result: each step appends one chunk at the end.
 */
module Sequences {

  /** Sum of the lengths of the chunks. */
  function TotalLength<T>(chunks: seq<seq<T>>): nat
  {
    if |chunks| == 0 then 0 else TotalLength(chunks[..|chunks| - 1]) + |chunks[|chunks| - 1]|
  }

  /** The chunks concatenated in order, with nothing between them. */
  function Flatten<T>(chunks: seq<seq<T>>): (r: seq<T>)
    ensures |r| == TotalLength(chunks)
  {
    if |chunks| == 0 then [] else Flatten(chunks[..|chunks| - 1]) + chunks[|chunks| - 1]
  }

  /** The chunks concatenated in order, with `sep` between consecutive chunks. */
  function Interleave<T>(chunks: seq<seq<T>>, sep: seq<T>): seq<T>
  {
    if |chunks| == 0 then []
    else if |chunks| == 1 then chunks[0]
    else Interleave(chunks[..|chunks| - 1], sep) + sep + chunks[|chunks| - 1]
  }

  /** Where chunk `i` begins inside `Interleave(chunks, sep)`: every earlier chunk and one separator after each. */
  function Start<T>(chunks: seq<seq<T>>, sep: seq<T>, i: nat): nat
    requires i <= |chunks|
  {
    if i == 0 then 0 else Start(chunks, sep, i - 1) + |chunks[i - 1]| + |sep|
  }

  /** `f` applied to every element, in order (Swift's `map`). */
  function Apply<T, U>(f: T -> U, xs: seq<T>): (r: seq<U>)
    ensures |r| == |xs|
    ensures forall i :: 0 <= i < |xs| ==> r[i] == f(xs[i])
  {
    if |xs| == 0 then [] else Apply(f, xs[..|xs| - 1]) + [f(xs[|xs| - 1])]
  }

  /** `n` copies of `x`. */
  function Repeat<T>(x: T, n: nat): (r: seq<T>)
    ensures |r| == n
    ensures forall i :: 0 <= i < n ==> r[i] == x
  {
    if n == 0 then [] else Repeat(x, n - 1) + [x]
  }

  /** Number of occurrences of `x` in `s`. */
  function Count<T(==)>(s: seq<T>, x: T): nat
  {
    if |s| == 0 then 0 else Count(s[..|s| - 1], x) + (if s[|s| - 1] == x then 1 else 0)
  }

  /** Number of occurrences of `x` in all the chunks together. */
  function CountAll<T(==)>(chunks: seq<seq<T>>, x: T): nat
  {
    if |chunks| == 0 then 0 else CountAll(chunks[..|chunks| - 1], x) + Count(chunks[|chunks| - 1], x)
  }

  lemma {:induction false} TotalLengthRepeat<T>(x: seq<T>, n: nat)
    ensures TotalLength(Repeat(x, n)) == n * |x|
  {
    if n > 0 {
      var r := Repeat(x, n - 1);
      assert Repeat(x, n) == r + [x];
      assert (r + [x])[..n - 1] == r;
      TotalLengthRepeat(x, n - 1);
      assert n * |x| == (n - 1) * |x| + |x|;
    }
  }

  /** Flattening distributes over concatenation of chunk lists. */
  lemma {:induction false} FlattenConcat<T>(a: seq<seq<T>>, b: seq<seq<T>>)
    ensures Flatten(a + b) == Flatten(a) + Flatten(b)
    decreases |b|
  {
    if |b| == 0 {
      assert a + b == a;
    } else {
      var b' := b[..|b| - 1];
      assert (a + b)[..|a + b| - 1] == a + b';
      FlattenConcat(a, b');
    }
  }

  /** Start positions depend only on the chunks before them. */
  lemma {:induction false} StartPrefix<T>(chunks: seq<seq<T>>, sep: seq<T>, k: nat, i: nat)
    requires i <= k <= |chunks|
    ensures Start(chunks[..k], sep, i) == Start(chunks, sep, i)
  {
    if i > 0 {
      StartPrefix(chunks, sep, k, i - 1);
    }
  }

  /** An interleaving of n > 0 chunks ends right after the last chunk. */
  lemma {:induction false} InterleaveLength<T>(chunks: seq<seq<T>>, sep: seq<T>)
    requires |chunks| > 0
    ensures |Interleave(chunks, sep)| == Start(chunks, sep, |chunks| - 1) + |chunks[|chunks| - 1]|
    decreases |chunks|
  {
    var n := |chunks|;
    if n > 1 {
      var init := chunks[..n - 1];
      InterleaveLength(init, sep);
      StartPrefix(chunks, sep, n - 1, n - 2);
    }
  }

  /**
   * Positional form of Interleave, first half: chunk `i` occupies the
   * positions from `Start(chunks, sep, i)` on; the last chunk ends the output.
   */
  lemma {:induction false} InterleaveChunkAt<T>(chunks: seq<seq<T>>, sep: seq<T>, i: nat)
    requires i < |chunks|
    ensures Start(chunks, sep, i) + |chunks[i]| <= |Interleave(chunks, sep)|
    ensures Interleave(chunks, sep)[Start(chunks, sep, i)..Start(chunks, sep, i) + |chunks[i]|] == chunks[i]
    ensures i == |chunks| - 1 ==> Start(chunks, sep, i) + |chunks[i]| == |Interleave(chunks, sep)|
    decreases |chunks|
  {
    var n := |chunks|;
    InterleaveLength(chunks, sep);
    if n > 1 {
      var init := chunks[..n - 1];
      var left := Interleave(init, sep);
      var r := Interleave(chunks, sep);
      assert r == left + sep + chunks[n - 1];
      InterleaveLength(init, sep);
      StartPrefix(chunks, sep, n - 1, n - 2);
      if i < n - 1 {
        StartPrefix(chunks, sep, n - 1, i);
        InterleaveChunkAt(init, sep, i);
        var lo := Start(chunks, sep, i);
        assert r[lo..lo + |chunks[i]|] == left[lo..lo + |chunks[i]|];
      } else {
        assert r[|left| + |sep|..] == chunks[n - 1];
      }
    }
  }

  /**
   * Positional form of Interleave, second half: right after every chunk but
   * the last comes exactly one copy of the separator, up to where the next
   * chunk starts.
   */
  lemma {:induction false} InterleaveSeparatorAt<T>(chunks: seq<seq<T>>, sep: seq<T>, i: nat)
    requires i + 1 < |chunks|
    ensures Start(chunks, sep, i + 1) <= |Interleave(chunks, sep)|
    ensures Interleave(chunks, sep)[Start(chunks, sep, i) + |chunks[i]|..Start(chunks, sep, i + 1)] == sep
    decreases |chunks|
  {
    var n := |chunks|;
    var init := chunks[..n - 1];
    var left := Interleave(init, sep);
    var r := Interleave(chunks, sep);
    assert r == left + sep + chunks[n - 1];
    InterleaveLength(chunks, sep);
    InterleaveLength(init, sep);
    StartPrefix(chunks, sep, n - 1, n - 2);
    StartPrefix(chunks, sep, n - 1, i);
    if i + 1 < n - 1 {
      StartPrefix(chunks, sep, n - 1, i + 1);
      InterleaveSeparatorAt(init, sep, i);
      var lo := Start(chunks, sep, i) + |chunks[i]|;
      assert r[lo..Start(chunks, sep, i + 1)] == left[lo..Start(chunks, sep, i + 1)];
    } else {
      assert r[|left|..|left| + |sep|] == sep;
    }
  }

  lemma {:induction false} CountConcat<T>(a: seq<T>, b: seq<T>, x: T)
    ensures Count(a + b, x) == Count(a, x) + Count(b, x)
    decreases |b|
  {
    if |b| == 0 {
      assert a + b == a;
    } else {
      assert (a + b)[..|a + b| - 1] == a + b[..|b| - 1];
      CountConcat(a, b[..|b| - 1], x);
    }
  }

  /**
   * Occurrences in a list interleaved with the one-token divider `d`: those of
   * the chunks, plus one per gap between consecutive chunks when `x` is `d`.
   */
  lemma {:induction false} CountInterleave<T>(chunks: seq<seq<T>>, d: T, x: T)
    ensures Count(Interleave(chunks, [d]), x)
         == CountAll(chunks, x) + (if x == d && |chunks| > 0 then |chunks| - 1 else 0)
    decreases |chunks|
  {
    var n := |chunks|;
    if n == 1 {
      assert chunks[..0] == [];
    } else if n > 1 {
      var init := chunks[..n - 1];
      CountInterleave(init, d, x);
      CountConcat(Interleave(init, [d]) + [d], chunks[n - 1], x);
      CountConcat(Interleave(init, [d]), [d], x);
      assert Count([d], x) == (if d == x then 1 else 0) by {
        assert [d][..0] == [];
      }
    }
  }

  /** When no chunk contains the divider, an interleaved list of n > 0 chunks holds exactly n - 1 dividers. */
  lemma {:induction false} DividerCount<T>(chunks: seq<seq<T>>, d: T)
    requires forall i :: 0 <= i < |chunks| ==> Count(chunks[i], d) == 0
    ensures Count(Interleave(chunks, [d]), d) == if |chunks| == 0 then 0 else |chunks| - 1
  {
    CountAllZero(chunks, d);
    CountInterleave(chunks, d, d);
  }

  lemma {:induction false} CountAllZero<T>(chunks: seq<seq<T>>, x: T)
    requires forall i :: 0 <= i < |chunks| ==> Count(chunks[i], x) == 0
    ensures CountAll(chunks, x) == 0
    decreases |chunks|
  {
    if |chunks| > 0 {
      CountAllZero(chunks[..|chunks| - 1], x);
    }
  }
}
