/** The multi-CPU path: every worker filters its own chunk, and the partial results
    are joined in the order the workers hand them back. */
module WorkerPool {
  import opened Results
  import opened RegexStructs
  import opened Catalog
  import opened Compaction
  import opened Partition

  /** One worker: the matching entries of its chunk, in chunk order. */
  method WorkerFilter(part: seq<Entry>, re: Regexp) returns (filtered: seq<Entry>)
    ensures filtered == Filter(re, part)
  {
    filtered := [];
    var k := 0;
    while k < |part|
      invariant k <= |part|
      invariant filtered == Filter(re, part[..k])
    {
      assert part[..k + 1] == part[..k] + [part[k]];
      FilterConcat(re, part[..k], [part[k]]);
      if re.MatchString(part[k].name) {
        filtered := filtered + [part[k]];
      }
      k := k + 1;
    }
    assert part[..k] == part;
  }

  /** Every worker number in `p` names one of `w` workers. */
  predicate Within(p: seq<nat>, w: nat) {
    forall j :: 0 <= j < |p| ==> p[j] < w
  }

  /** The workers numbered `0 .. w - 1`, in order. */
  function Indices(w: nat): (p: seq<nat>)
    ensures |p| == w && Within(p, w)
  {
    seq(w, i requires 0 <= i < w => i)
  }

  /** Each worker reports exactly once, in some order: the order results leave the
      channel. */
  ghost predicate IsArrivalOrder(arrival: seq<nat>, w: nat) {
    multiset(arrival) == multiset(Indices(w))
  }

  /** The partial results `outs` concatenated in the order `p` lists the workers. */
  function Gather<T>(outs: seq<seq<T>>, p: seq<nat>): seq<T>
    requires Within(p, |outs|)
  {
    if |p| == 0 then [] else Gather(outs, p[..|p| - 1]) + outs[p[|p| - 1]]
  }

  /** Gathering along `p + q` is gathering along `p`, then along `q`. */
  lemma {:induction false} GatherConcat<T>(outs: seq<seq<T>>, p: seq<nat>, q: seq<nat>)
    requires Within(p, |outs|) && Within(q, |outs|)
    ensures Within(p + q, |outs|)
    ensures Gather(outs, p + q) == Gather(outs, p) + Gather(outs, q)
  {
    if |q| > 0 {
      GatherConcat(outs, p, q[..|q| - 1]);
      assert (p + q)[..|p + q| - 1] == p + q[..|q| - 1];
    } else {
      assert p + q == p;
    }
  }

  /** The join is blind to order: two arrival orders that are permutations of each
      other collect the same entries with the same multiplicities. */
  lemma {:induction false} GatherPermutation<T>(outs: seq<seq<T>>, p: seq<nat>, q: seq<nat>)
    requires Within(p, |outs|) && Within(q, |outs|)
    requires multiset(p) == multiset(q)
    ensures multiset(Gather(outs, p)) == multiset(Gather(outs, q))
    decreases |p|
  {
    if |p| > 0 {
      var x := p[|p| - 1];
      var i := FindLast(p, q);
      var q1, q2 := q[..i], q[i + 1..];
      WithinSplit(q, i, |outs|);
      GatherPermutation(outs, p[..|p| - 1], q1 + q2);
      GatherConcat(outs, q1, [x]);
      GatherConcat(outs, q1 + [x], q2);
      GatherConcat(outs, q1, q2);
      assert q == q1 + [x] + q2;
      assert Gather(outs, [x]) == outs[x] by {
        assert [x][..0] == [];
      }
    } else {
      assert q == [];
    }
  }

  /** Where the last of `p` sits in its permutation `q`, and what is left of `q`
      without it. */
  lemma FindLast(p: seq<nat>, q: seq<nat>) returns (i: nat)
    requires |p| > 0 && multiset(p) == multiset(q)
    ensures i < |q| && q[i] == p[|p| - 1]
    ensures multiset(p[..|p| - 1]) == multiset(q[..i] + q[i + 1..])
  {
    var x := p[|p| - 1];
    assert p == p[..|p| - 1] + [x];
    assert x in multiset(q);
    i :| 0 <= i < |q| && q[i] == x;
    assert q == q[..i] + [x] + q[i + 1..];
    var rest := multiset(q[..i] + q[i + 1..]);
    assert multiset(p[..|p| - 1]) + multiset{x} == rest + multiset{x};
    assert multiset(p[..|p| - 1]) == rest + multiset{x} - multiset{x} == rest;
  }

  /** `q` without its `i`-th element still names workers below `w`. */
  lemma WithinSplit(q: seq<nat>, i: nat, w: nat)
    requires i < |q| && Within(q, w)
    ensures Within(q[..i], w) && Within(q[..i] + q[i + 1..], w) && Within(q[..i] + [q[i]], w)
  {
  }

  /** Joining in worker-number order is plain concatenation. */
  lemma {:induction false} GatherInOrder<T>(outs: seq<seq<T>>, k: nat)
    requires k <= |outs|
    ensures Within(Indices(k), |outs|)
    ensures Gather(outs, Indices(k)) == Flatten(outs[..k])
  {
    if k > 0 {
      GatherInOrder(outs, k - 1);
      assert Indices(k)[..k - 1] == Indices(k - 1);
      assert outs[..k][..k - 1] == outs[..k - 1];
    }
  }

  /** Each chunk filtered separately. */
  function FilterEach(re: Regexp, xss: seq<seq<Entry>>): (fs: seq<seq<Entry>>)
    ensures |fs| == |xss|
  {
    seq(|xss|, i requires 0 <= i < |xss| => Filter(re, xss[i]))
  }

  /** Filtering chunk by chunk and concatenating is filtering the whole. */
  lemma {:induction false} FilterFlatten(re: Regexp, xss: seq<seq<Entry>>)
    ensures Flatten(FilterEach(re, xss)) == Filter(re, Flatten(xss))
  {
    if |xss| > 0 {
      var init := xss[..|xss| - 1];
      FilterFlatten(re, init);
      assert FilterEach(re, xss)[..|xss| - 1] == FilterEach(re, init);
      FilterConcat(re, Flatten(init), xss[|xss| - 1]);
    }
  }

  /** The join loop: appends each worker's result as it arrives. */
  method Join(outs: seq<seq<Entry>>, arrival: seq<nat>) returns (joined: seq<Entry>)
    requires Within(arrival, |outs|)
    ensures joined == Gather(outs, arrival)
  {
    joined := [];
    var k := 0;
    while k < |arrival|
      invariant k <= |arrival|
      invariant joined == Gather(outs, arrival[..k])
    {
      assert arrival[..k + 1][..k] == arrival[..k];
      joined := joined + outs[arrival[k]];
      k := k + 1;
    }
    assert arrival[..k] == arrival;
  }

  /** An arrival order of `w` workers names each of them. */
  lemma ArrivalWithin(arrival: seq<nat>, w: nat)
    requires IsArrivalOrder(arrival, w)
    ensures Within(arrival, w)
  {
    forall j | 0 <= j < |arrival|
      ensures arrival[j] < w
    {
      assert arrival[j] in multiset(Indices(w));
    }
  }

  /** The worker loop: worker `i` filters chunk `i` of `xs`. */
  method RunWorkers(xs: seq<Entry>, re: Regexp, w: nat, c: nat) returns (outs: seq<seq<Entry>>)
    ensures outs == FilterEach(re, Chunks(xs, w, c))
  {
    outs := [];
    var i := 0;
    while i < w
      invariant i <= w && |outs| == i
      invariant outs == FilterEach(re, Chunks(xs, w, c))[..i]
    {
      ChunkWindow(i, c, |xs|);
      var part := xs[ChunkStart(i, c, |xs|)..ChunkEnd(i, c, |xs|)];
      var filtered := WorkerFilter(part, re);
      outs := outs + [filtered];
      i := i + 1;
    }
    assert FilterEach(re, Chunks(xs, w, c))[..w] == FilterEach(re, Chunks(xs, w, c));
  }

  /** What the pool hands back: the filtered chunks of `xs`, joined in `arrival`
      order. */
  function PoolOutput(re: Regexp, xs: seq<Entry>, cpu: nat, arrival: seq<nat>): seq<Entry>
    requires cpu > 1 && Within(arrival, Workers(cpu, |xs|))
  {
    var w := Workers(cpu, |xs|);
    Gather(FilterEach(re, Chunks(xs, w, ChunkSize(|xs|, w))), arrival)
  }

  /** The multi-CPU filter (`filterCategory`, `filterStream`, `filterSeries` past the
      early return, with more than one CPU): the input is cut into chunks, each chunk
      is filtered by its own worker, and the results are joined in arrival order into
      a fresh slice with a nil error. The chunks are the corrected ones (`Workers`,
      `ChunkStart`); the source's own partition panics on an empty input and when a
      late chunk starts past the end, and `PartitionAsWrittenSafeIff` shows the two
      agree on every other input. The result is the per-chunk filters joined in
      arrival order; its survivors are exactly those of the reference filter, and
      when the workers report in chunk order, so is their order. */
  method FilterChunked(s: Slice<Entry>, re: Regexp, cpu: nat, arrival: seq<nat>) returns (out: Slice<Entry>, err': Option<Error>)
    requires cpu > 1 && s.Valid()
    requires IsArrivalOrder(arrival, Workers(cpu, s.len))
    ensures out.Valid() && out.len == |out.store|
    ensures err' == None
    ensures AllMatch(re, out.View())
    ensures multiset(out.View()) == multiset(Filter(re, s.View()))
    ensures arrival == Indices(Workers(cpu, s.len)) ==> out.View() == Filter(re, s.View())
    ensures Within(arrival, Workers(cpu, s.len))
    ensures out.View() == PoolOutput(re, s.View(), cpu, arrival)
  {
    var xs := s.View();
    var w := Workers(cpu, s.len);
    var c := ChunkSize(s.len, w);
    var outs := RunWorkers(xs, re, w, c);
    PoolJoin(re, xs, w, c, arrival);
    var joined := Join(outs, arrival);
    out, err' := Slice(joined, |joined|), None;
    assert out.View() == joined;
    ArrangementMatches(re, joined, xs);
  }

  /** Joining the filtered chunks in any arrival order yields the survivors of the
      whole input; joining them in chunk order yields the reference filter. */
  lemma PoolJoin(re: Regexp, xs: seq<Entry>, w: nat, c: nat, arrival: seq<nat>)
    requires w * c >= |xs| && IsArrivalOrder(arrival, w)
    ensures Within(arrival, w)
    ensures multiset(Gather(FilterEach(re, Chunks(xs, w, c)), arrival)) == multiset(Filter(re, xs))
    ensures arrival == Indices(w) ==> Gather(FilterEach(re, Chunks(xs, w, c)), arrival) == Filter(re, xs)
  {
    var outs := FilterEach(re, Chunks(xs, w, c));
    ArrivalWithin(arrival, w);
    ChunksCover(xs, w, c);
    FilterFlatten(re, Chunks(xs, w, c));
    GatherInOrder(outs, w);
    assert outs[..w] == outs;
    GatherPermutation(outs, arrival, Indices(w));
  }
}
