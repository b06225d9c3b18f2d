/** The single-CPU path: swap-and-truncate removal and the right-to-left scan that
    uses it to filter a slice in place. */
module Compaction {
  import opened Results
  import opened RegexStructs
  import opened Catalog

  /** A Go slice: a window of length `len` at the start of the backing array `store`
      (whose length is the slice's capacity). */
  datatype Slice<E> = Slice(store: seq<E>, len: nat) {
    ghost predicate Valid() {
      len <= |store|
    }

    /** The elements the slice shows. */
    function View(): seq<E>
      requires Valid()
    {
      store[..len]
    }
  }

  /** What `deleteUnmatched` leaves behind: the caller's backing array after the call,
      and the `(slice, error)` pair it returns (the slice is nil on error). */
  datatype Removal<E> = Removal(memory: seq<E>, slice: Slice<E>, err: Option<Error>)

  /** `deleteUnmatched`: overwrite slot `index` with the last element, zero the last
      slot and shorten the slice by one; an index outside the slice is reported before
      anything is written. */
  function DeleteUnmatched<E>(s: Slice<E>, index: int, zero: E): (r: Removal<E>)
    requires s.Valid()
    // out of range: error naming the index, nil slice, backing array untouched
    ensures (index < 0 || index > s.len - 1) <==> r.err.Some?
    ensures r.err.Some? ==> r.err == Some(IndexOutOfRange(index)) && r.memory == s.store && r.slice == Slice([], 0)
    // in range: the returned slice is one shorter and shares the updated backing array
    ensures r.err.None? ==>
      && r.slice == Slice(r.memory, s.len - 1)
      && |r.memory| == |s.store|
      && (index < s.len - 1 ==> r.memory[index] == s.store[s.len - 1])
      && (forall j :: 0 <= j < s.len - 1 && j != index ==> r.memory[j] == s.store[j])
      && r.memory[s.len - 1] == zero
      && (forall j :: s.len <= j < |s.store| ==> r.memory[j] == s.store[j])
  {
    if index < 0 || index > s.len - 1 then
      Removal(s.store, Slice([], 0), Some(IndexOutOfRange(index)))
    else
      var last := s.len - 1;
      var memory := s.store[index := s.store[last]][last := zero];
      Removal(memory, Slice(memory, last), None)
  }

  /** A successful removal takes exactly the element at `index` out of the slice's
      contents and keeps every other one. */
  lemma DeleteUnmatchedRemovesOne<E>(s: Slice<E>, index: int, zero: E)
    requires s.Valid() && 0 <= index < s.len
    ensures DeleteUnmatched(s, index, zero).slice.Valid()
    ensures multiset(DeleteUnmatched(s, index, zero).slice.View()) + multiset{s.store[index]}
            == multiset(s.View())
  {
    var r := DeleteUnmatched(s, index, zero);
    var v, w := s.View(), r.slice.View();
    var last := s.len - 1;
    if index == last {
      assert v == w + [v[last]];
    } else {
      assert w == v[..index] + [v[last]] + v[index + 1..last];
      assert v == v[..index] + [v[index]] + v[index + 1..last] + [v[last]];
    }
  }

  /** Every entry in slots `lo..hi` of `store` matches. */
  ghost predicate KeepsFrom(re: Regexp, store: seq<Entry>, lo: nat, hi: nat)
    requires hi <= |store|
  {
    forall j :: lo <= j < hi ==> Keeps(re, store[j])
  }

  /** The invariant of the right-to-left scan, with `k` entries still to visit (the
      source's loop index is `k - 1`): slots below `k` still hold the original prefix,
      the scanned part `k..len` of the current slice holds exactly the matching
      entries of the original `k..`, vacated slots are zero, and the error is nil as
      soon as anything was removed. */
  ghost predicate Scanned(re: Regexp, s: Slice<Entry>, err: Option<Error>, cur: Slice<Entry>, err': Option<Error>, k: nat) {
    && s.Valid()
    && k <= cur.len <= s.len
    && |cur.store| == |s.store|
    && cur.store[..k] == s.store[..k]
    && KeepsFrom(re, cur.store, k, cur.len)
    && SameSurvivors(re, cur.store[k..cur.len], s.store[k..s.len])
    && (forall j :: cur.len <= j < s.len ==> cur.store[j] == ZeroEntry)
    && (forall j :: s.len <= j < |s.store| ==> cur.store[j] == s.store[j])
    && (cur.len == s.len ==> cur == s && err' == err)
    && (cur.len < s.len ==> err' == None)
  }

  /** The inline filter (`filterCategoryInline` and its stream and series twins):
      scan from the last index down to 0 and swap-and-truncate every entry whose name
      does not match. The result lives in the input's backing array, keeps exactly the
      matching entries (in some order), and zeroes the slots it vacated. */
  method FilterInline(s: Slice<Entry>, err: Option<Error>, re: Regexp) returns (out: Slice<Entry>, err': Option<Error>)
    requires s.Valid()
    ensures out.Valid() && |out.store| == |s.store| && out.len <= s.len
    ensures AllMatch(re, out.View())
    ensures multiset(out.View()) == multiset(Filter(re, s.View()))
    ensures forall j :: out.len <= j < s.len ==> out.store[j] == ZeroEntry
    ensures forall j :: s.len <= j < |s.store| ==> out.store[j] == s.store[j]
    // nothing removed: the slice and the error come back as given; otherwise the last
    // (always successful) removal leaves the error nil
    ensures AllMatch(re, s.View()) ==> out == s && err' == err
    ensures !AllMatch(re, s.View()) ==> err' == None
  {
    var cur := s;
    err' := err;
    var k: nat := s.len;
    while k > 0
      invariant Scanned(re, s, err, cur, err', k)
      decreases k
    {
      var i := k - 1;
      var item := cur.store[i];
      if !re.MatchString(item.name) {
        RemoveStep(re, s, err, cur, err', k);
        var removal := DeleteUnmatched(cur, i, ZeroEntry);
        cur, err' := removal.slice, removal.err;
      } else {
        KeepStep(re, s, err, cur, err', k);
      }
      k := i;
    }
    out := cur;
    ScanDone(re, s, err, out, err');
  }

  /** Reading the scan invariant with nothing left to visit as the contract of
      `FilterInline`. */
  lemma ScanDone(re: Regexp, s: Slice<Entry>, err: Option<Error>, out: Slice<Entry>, err': Option<Error>)
    requires Scanned(re, s, err, out, err', 0)
    ensures out.Valid() && AllMatch(re, out.View())
    ensures multiset(out.View()) == multiset(Filter(re, s.View()))
    ensures AllMatch(re, s.View()) ==> out == s && err' == err
    ensures !AllMatch(re, s.View()) ==> err' == None
  {
    assert out.store[0..out.len] == out.View();
    assert s.store[0..s.len] == s.View();
    SurvivorsAreFiltered(re, out.View(), s.View());
    FilterLength(re, s.View());
    assert |multiset(out.View())| == out.len;
  }

  /** A visited entry that matches stays where it is. */
  lemma KeepStep(re: Regexp, s: Slice<Entry>, err: Option<Error>, cur: Slice<Entry>, err': Option<Error>, k: nat)
    requires Scanned(re, s, err, cur, err', k) && k > 0
    requires Keeps(re, cur.store[k - 1])
    ensures Scanned(re, s, err, cur, err', k - 1)
  {
    var i, n := k - 1, cur.len;
    PrefixShrink(cur.store, s.store, i);
    SliceCons(s.store, i, s.len);
    SliceCons(cur.store, i, n);
    SurvivorsKeep(re, cur.store[k..n], s.store[k..s.len], s.store[i]);
  }

  /** A visited entry that does not match is removed, in range and without error. */
  lemma RemoveStep(re: Regexp, s: Slice<Entry>, err: Option<Error>, cur: Slice<Entry>, err': Option<Error>, k: nat)
    requires Scanned(re, s, err, cur, err', k) && k > 0
    requires !Keeps(re, cur.store[k - 1])
    ensures DeleteUnmatched(cur, k - 1, ZeroEntry).err.None?
    ensures Scanned(re, s, err, DeleteUnmatched(cur, k - 1, ZeroEntry).slice, DeleteUnmatched(cur, k - 1, ZeroEntry).err, k - 1)
  {
    var removal := DeleteUnmatched(cur, k - 1, ZeroEntry);
    RemovedScanned(re, s, err, cur, err', k, removal.memory);
  }

  /** `RemoveStep` for any backing array with the effect `DeleteUnmatched` promises. */
  lemma RemovedScanned(re: Regexp, s: Slice<Entry>, err: Option<Error>, cur: Slice<Entry>, err': Option<Error>, k: nat,
                       memory: seq<Entry>)
    requires Scanned(re, s, err, cur, err', k) && k > 0
    requires !Keeps(re, cur.store[k - 1])
    requires |memory| == |cur.store|
    requires k - 1 < cur.len - 1 ==> memory[k - 1] == cur.store[cur.len - 1]
    requires forall j :: 0 <= j < cur.len - 1 && j != k - 1 ==> memory[j] == cur.store[j]
    requires memory[cur.len - 1] == ZeroEntry
    requires forall j :: cur.len <= j < |cur.store| ==> memory[j] == cur.store[j]
    ensures Scanned(re, s, err, Slice(memory, cur.len - 1), None, k - 1)
  {
    var i, n := k - 1, cur.len;
    VacatedStayZero(cur.store, memory, n, s.len);
    PrefixShrink(cur.store, s.store, i);
    CompactStep(re, cur.store, memory, n, i);
    SliceCons(s.store, i, s.len);
    SurvivorsSkip(re, memory[i..n - 1], cur.store[k..n], s.store[k..s.len], s.store[i]);
  }

  /** Skipping a non-matching entry leaves the survivors as they were. */
  lemma SurvivorsSkip(re: Regexp, kept': seq<Entry>, kept: seq<Entry>, xs: seq<Entry>, y: Entry)
    requires multiset(kept') == multiset(kept) && SameSurvivors(re, kept, xs) && !Keeps(re, y)
    ensures SameSurvivors(re, kept', [y] + xs)
  {
  }

  /** A matching entry joins the survivors. */
  lemma SurvivorsKeep(re: Regexp, kept: seq<Entry>, xs: seq<Entry>, y: Entry)
    requires SameSurvivors(re, kept, xs) && Keeps(re, y)
    ensures SameSurvivors(re, [y] + kept, [y] + xs)
  {
  }

  /** After a removal the vacated slots, one more than before, are all zero, and the
      slots past the original length are untouched. */
  lemma VacatedStayZero(cur: seq<Entry>, memory: seq<Entry>, n: nat, m: nat)
    requires 0 < n <= m <= |cur| == |memory|
    requires memory[n - 1] == ZeroEntry
    requires forall j :: n <= j < |cur| ==> memory[j] == cur[j]
    requires forall j :: n <= j < m ==> cur[j] == ZeroEntry
    ensures forall j :: n - 1 <= j < m ==> memory[j] == ZeroEntry
    ensures forall j :: m <= j < |cur| ==> memory[j] == cur[j]
  {
  }

  /** A window splits into its first element and the rest. */
  lemma SliceCons<T>(xs: seq<T>, i: nat, n: nat)
    requires i < n <= |xs|
    ensures xs[i..n] == [xs[i]] + xs[i + 1..n]
  {
  }

  /** Dropping the top slot of two equal prefixes. */
  lemma PrefixShrink(xs: seq<Entry>, ys: seq<Entry>, i: nat)
    requires i < |xs| && i < |ys| && xs[..i + 1] == ys[..i + 1]
    ensures xs[..i] == ys[..i] && xs[i] == ys[i]
  {
    assert xs[..i] == xs[..i + 1][..i];
    assert ys[..i] == ys[..i + 1][..i];
    assert xs[..i + 1][i] == ys[..i + 1][i];
  }

  /** The loop step of `FilterInline` when slot `i` of the first `n` is removed:
      the scanned suffix `i+1..n` reappears as `i..n-1`, its old last element moved
      to the front, and the prefix below `i` is untouched. */
  lemma CompactStep(re: Regexp, cur: seq<Entry>, next: seq<Entry>, n: nat, i: nat)
    requires i < n <= |cur| && n - 1 <= |next|
    requires forall j :: 0 <= j < n - 1 && j != i ==> next[j] == cur[j]
    requires i < n - 1 ==> next[i] == cur[n - 1]
    requires KeepsFrom(re, cur, i + 1, n)
    ensures next[..i] == cur[..i]
    ensures KeepsFrom(re, next, i, n - 1)
    ensures multiset(next[i..n - 1]) == multiset(cur[i + 1..n])
  {
    assert next[..i] == cur[..i] by {
      assert forall j :: 0 <= j < i ==> next[j] == cur[j];
    }
    if i < n - 1 {
      var tail := cur[i + 1..n];
      var moved := [cur[n - 1]] + cur[i + 1..n - 1];
      assert next[i..n - 1] == moved by {
        forall j | 0 <= j < |moved|
          ensures next[i + j] == moved[j]
        {
          if j > 0 {
            assert next[i + j] == cur[i + j];
          }
        }
      }
      assert tail == cur[i + 1..n - 1] + [cur[n - 1]];
      RotateKeepsMultiset(cur[n - 1], cur[i + 1..n - 1]);
    } else {
      assert next[i..n - 1] == [];
    }
    forall j | i <= j < n - 1
      ensures Keeps(re, next[j])
    {
      if j > i {
        assert next[j] == cur[j];
      }
    }
  }

  /** Moving the front element to the back keeps the multiset. */
  lemma RotateKeepsMultiset<T>(x: T, xs: seq<T>)
    ensures multiset([x] + xs) == multiset(xs + [x])
  {
  }
}
