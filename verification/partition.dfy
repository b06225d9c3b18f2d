/** The multi-CPU path's arithmetic: how many workers, how large a chunk, and which
    contiguous window of the input each worker gets. */
module Partition {

  /** Concatenation of a list of lists, in list order. */
  function Flatten<T>(xss: seq<seq<T>>): seq<T> {
    if |xss| == 0 then [] else Flatten(xss[..|xss| - 1]) + xss[|xss| - 1]
  }

  /** Worker count on the pool path (`cpu > 1`): one per CPU but never more than
      there are entries, and never fewer than one. The source omits the last clause;
      see `PartitionAsWritten`. */
  function Workers(cpu: nat, n: nat): (w: nat)
    requires cpu > 1
    ensures 1 <= w <= cpu
    ensures n > 0 ==> w <= n && (w == cpu || w == n)
    ensures n == 0 ==> w == 1
  {
    if cpu > n then (if n == 0 then 1 else n) else cpu
  }

  /** `(n + w - 1) / w`, the ceiling of `n / w`: the least chunk size with which `w`
      chunks hold `n` entries. */
  function ChunkSize(n: nat, w: nat): (c: nat)
    requires w >= 1
    ensures w * c >= n
    ensures c > 0 ==> w * (c - 1) < n
  {
    var c := (n + w - 1) / w;
    assert n + w - 1 == w * c + (n + w - 1) % w;
    c
  }

  /** First index of chunk `i`, clamped to the input length. */
  function ChunkStart(i: nat, c: nat, n: nat): (lo: nat)
    ensures lo <= n
  {
    if i * c > n then n else i * c
  }

  /** One past the last index of chunk `i`, clamped to the input length. */
  function ChunkEnd(i: nat, c: nat, n: nat): (hi: nat)
    ensures hi <= n
  {
    if i * c + c > n then n else i * c + c
  }

  /** Chunk `i` is a window of at most `c` entries, and chunk `i + 1` starts where
      chunk `i` ends. */
  lemma ChunkWindow(i: nat, c: nat, n: nat)
    ensures ChunkStart(i, c, n) <= ChunkEnd(i, c, n) <= ChunkStart(i, c, n) + c
    ensures ChunkEnd(i, c, n) == ChunkStart(i + 1, c, n)
  {
    assert (i + 1) * c == i * c + c;
  }

  /** Chunk starts never decrease. */
  lemma {:induction false} ChunkStartMonotone(i: nat, j: nat, c: nat, n: nat)
    requires i <= j
    ensures ChunkStart(i, c, n) <= ChunkStart(j, c, n)
  {
    if i < j {
      ChunkStartMonotone(i, j - 1, c, n);
      ChunkWindow(j - 1, c, n);
    }
  }

  /** Distinct chunks cover disjoint index ranges: chunk `i` ends before chunk `j`
      starts whenever `i < j`. */
  lemma ChunksDisjoint(i: nat, j: nat, c: nat, n: nat)
    requires i < j
    ensures ChunkEnd(i, c, n) <= ChunkStart(j, c, n)
  {
    ChunkWindow(i, c, n);
    ChunkStartMonotone(i + 1, j, c, n);
  }

  /** The `(start, end)` window of each of the `w` chunks. */
  function Windows(w: nat, c: nat, n: nat): (ws: seq<(nat, nat)>)
    ensures |ws| == w
  {
    seq(w, j requires 0 <= j < w => (ChunkStart(j, c, n), ChunkEnd(j, c, n)))
  }

  /** The `w` chunks of `xs`, chunk `i` being `xs[ChunkStart(i)..ChunkEnd(i)]`. */
  function Chunks<T>(xs: seq<T>, w: nat, c: nat): (cs: seq<seq<T>>)
    ensures |cs| == w
  {
    seq(w, i requires 0 <= i < w =>
      ChunkWindow(i, c, |xs|); xs[ChunkStart(i, c, |xs|)..ChunkEnd(i, c, |xs|)])
  }

  /** The first `k` chunks, concatenated, are the input up to chunk `k`'s start. */
  lemma {:induction false} ChunksPrefix<T>(xs: seq<T>, w: nat, c: nat, k: nat)
    requires k <= w
    ensures Flatten(Chunks(xs, w, c)[..k]) == xs[..ChunkStart(k, c, |xs|)]
  {
    var cs := Chunks(xs, w, c);
    if k == 0 {
      assert ChunkStart(0, c, |xs|) == 0;
    } else {
      ChunksPrefix(xs, w, c, k - 1);
      ChunkWindow(k - 1, c, |xs|);
      assert cs[..k][..k - 1] == cs[..k - 1];
      var lo, hi := ChunkStart(k - 1, c, |xs|), ChunkEnd(k - 1, c, |xs|);
      assert xs[..hi] == xs[..lo] + xs[lo..hi];
    }
  }

  /** Partition completeness: whenever `w` chunks of size `c` can hold the input, the
      chunks concatenated in index order give back the input exactly. */
  lemma ChunksCover<T>(xs: seq<T>, w: nat, c: nat)
    requires w * c >= |xs|
    ensures Flatten(Chunks(xs, w, c)) == xs
  {
    ChunksPrefix(xs, w, c, w);
    assert Chunks(xs, w, c)[..w] == Chunks(xs, w, c);
  }

  /** How the source's partition loop can end. */
  datatype Panic = IntegerDivideByZero | SliceBoundsOutOfRange(low: int, high: int)

  /** The `(start, end)` windows the source hands to its workers, or the run-time
      panic that stops it first. */
  datatype Plan = Planned(bounds: seq<(nat, nat)>) | Panicked(reason: Panic)

  /** The partition exactly as the source computes it on the pool path: the worker
      count is `min(cpu, n)` with no lower bound, and chunk starts are not clamped. */
  function PartitionAsWritten(cpu: nat, n: nat): (r: Plan)
    requires cpu > 1
    ensures (r.Panicked? && r.reason == IntegerDivideByZero) <==> n == 0
    ensures r.Planned? ==> |r.bounds| == (if cpu > n then n else cpu)
    ensures r.Panicked? && n > 0 ==>
      r.reason.SliceBoundsOutOfRange? && r.reason.high == n && r.reason.low > n
  {
    var w := if cpu > n then n else cpu;
    if w == 0 then Panicked(IntegerDivideByZero)
    else BoundsAsWritten(0, w, (n + w - 1) / w, n)
  }

  /** The source's loop from worker `i` on: `end` is clamped, `start` is not, and
      slicing with `start > end` panics. */
  function BoundsAsWritten(i: nat, w: nat, c: nat, n: nat): (r: Plan)
    ensures r.Planned? ==> |r.bounds| == (if i >= w then 0 else w - i)
    ensures r.Planned? ==> forall j :: 0 <= j < |r.bounds| ==> r.bounds[j].0 <= r.bounds[j].1 <= n
    ensures r.Panicked? ==> r.reason.SliceBoundsOutOfRange? && r.reason.high == n && r.reason.low > n
    decreases w - i
  {
    if i >= w then Planned([])
    else
      var start := i * c;
      var end := if start + c > n then n else start + c;
      if start > end then Panicked(SliceBoundsOutOfRange(start, end))
      else match BoundsAsWritten(i + 1, w, c, n)
        case Planned(rest) => Planned([(start, end)] + rest)
        case Panicked(p) => Panicked(p)
  }

  /** An empty catalog on a multi-CPU machine divides by zero. */
  lemma EmptyInputDividesByZero(cpu: nat)
    requires cpu > 1
    ensures PartitionAsWritten(cpu, 0) == Panicked(IntegerDivideByZero)
  {
  }

  /** Five entries on four CPUs: chunk size 2, and the fourth chunk starts at 6, past
      the end at 5. */
  lemma FiveOnFourSlicesOutOfRange()
    ensures PartitionAsWritten(4, 5) == Panicked(SliceBoundsOutOfRange(6, 5))
  {
    assert (5 + 4 - 1) / 4 == 2;
    assert BoundsAsWritten(3, 4, 2, 5) == Panicked(SliceBoundsOutOfRange(6, 5));
    assert BoundsAsWritten(2, 4, 2, 5) == Panicked(SliceBoundsOutOfRange(6, 5));
    assert BoundsAsWritten(1, 4, 2, 5) == Panicked(SliceBoundsOutOfRange(6, 5));
  }

  /** `i * c` grows with `i`. */
  lemma {:induction false} MulMonotone(i: nat, j: nat, c: nat)
    requires i <= j
    ensures i * c <= j * c
  {
    if i < j {
      MulMonotone(i, j - 1, c);
      assert j * c == (j - 1) * c + c;
    }
  }

  /** The source's loop from worker `i` on gets through exactly when the last chunk
      does not start past the end, and then it produces the corrected windows. */
  lemma {:induction false} BoundsAsWrittenAgree(i: nat, w: nat, c: nat, n: nat)
    requires i <= w
    ensures BoundsAsWritten(i, w, c, n).Planned? <==> i == w || (w - 1) * c <= n
    ensures BoundsAsWritten(i, w, c, n).Planned? ==>
      BoundsAsWritten(i, w, c, n).bounds == Windows(w, c, n)[i..]
    decreases w - i
  {
    if i < w {
      MulMonotone(i, w - 1, c);
      BoundsAsWrittenAgree(i + 1, w, c, n);
      if i * c <= n {
        assert ChunkStart(i, c, n) == i * c;
        assert Windows(w, c, n)[i..] == [Windows(w, c, n)[i]] + Windows(w, c, n)[i + 1..];
      }
    }
  }

  /** The source's partition succeeds exactly when the input is non-empty and the
      last of the `min(cpu, n)` chunks starts inside the input; then it agrees with
      the corrected partition window for window. */
  lemma PartitionAsWrittenSafeIff(cpu: nat, n: nat)
    requires cpu > 1
    ensures PartitionAsWritten(cpu, n).Planned? <==>
      n > 0 && (Workers(cpu, n) - 1) * ChunkSize(n, Workers(cpu, n)) <= n
    ensures PartitionAsWritten(cpu, n).Planned? ==>
      var w := Workers(cpu, n);
      PartitionAsWritten(cpu, n).bounds == Windows(w, ChunkSize(n, w), n)
  {
    if n > 0 {
      var w := Workers(cpu, n);
      BoundsAsWrittenAgree(0, w, ChunkSize(n, w), n);
      assert Windows(w, ChunkSize(n, w), n)[0..] == Windows(w, ChunkSize(n, w), n);
    }
  }
}
