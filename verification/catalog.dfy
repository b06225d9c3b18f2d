/** Catalog entries and the reference meaning of "filter a list by a matcher":
    the matching entries, in their original order. */
module Catalog {
  import opened RegexStructs

  /** A catalog entry (category, stream or series record). Only `name` is ever read;
      `fields` stands for every other attribute. */
  datatype Entry = Entry(name: string, fields: map<string, string>)

  /** Go's zero value of an entry. */
  const ZeroEntry: Entry := Entry("", map[])

  /** The entry survives filtering by `re`. */
  predicate Keeps(re: Regexp, x: Entry) {
    re.MatchString(x.name)
  }

  /** Every entry of `xs` survives. */
  predicate AllMatch(re: Regexp, xs: seq<Entry>) {
    forall j :: 0 <= j < |xs| ==> Keeps(re, xs[j])
  }

  /** The reference filter: the subsequence of matching entries, order kept. */
  function Filter(re: Regexp, xs: seq<Entry>): seq<Entry> {
    if xs == [] then []
    else (if Keeps(re, xs[0]) then [xs[0]] else []) + Filter(re, xs[1..])
  }

  /** An entry is in the filtered list iff it is in the input and matches, and the
      filtered list is never longer than the input. */
  lemma {:induction false} FilterMembers(re: Regexp, xs: seq<Entry>)
    ensures forall x :: x in Filter(re, xs) <==> x in xs && Keeps(re, x)
    ensures AllMatch(re, Filter(re, xs))
    ensures |Filter(re, xs)| <= |xs|
  {
    if xs != [] {
      FilterMembers(re, xs[1..]);
      assert xs == [xs[0]] + xs[1..];
    }
  }

  /** `kept` holds every matching entry of `xs` with its full multiplicity, and
      nothing else, in any order. */
  ghost predicate SameSurvivors(re: Regexp, kept: seq<Entry>, xs: seq<Entry>) {
    forall x {:trigger multiset(kept)[x]} :: multiset(kept)[x] == if Keeps(re, x) then multiset(xs)[x] else 0
  }

  /** The multiset of a filtered list: every matching entry with its full
      multiplicity, and nothing else. */
  lemma {:induction false} FilterMultiset(re: Regexp, xs: seq<Entry>)
    ensures SameSurvivors(re, Filter(re, xs), xs)
  {
    if xs != [] {
      FilterMultiset(re, xs[1..]);
      assert xs == [xs[0]] + xs[1..];
    }
  }

  /** Filtering commutes with concatenation. */
  lemma {:induction false} FilterConcat(re: Regexp, xs: seq<Entry>, ys: seq<Entry>)
    ensures Filter(re, xs + ys) == Filter(re, xs) + Filter(re, ys)
  {
    if xs == [] {
      assert xs + ys == ys;
    } else {
      assert (xs + ys)[1..] == xs[1..] + ys;
      FilterConcat(re, xs[1..], ys);
    }
  }

  /** A list whose entries all match is its own filter. */
  lemma {:induction false} FilterKeepsMatching(re: Regexp, xs: seq<Entry>)
    ensures AllMatch(re, xs) <==> Filter(re, xs) == xs
  {
    if xs != [] {
      FilterKeepsMatching(re, xs[1..]);
      FilterMembers(re, xs[1..]);
    }
  }

  /** Filtering drops something exactly when some entry does not match. */
  lemma {:induction false} FilterLength(re: Regexp, xs: seq<Entry>)
    ensures |Filter(re, xs)| == |xs| <==> AllMatch(re, xs)
  {
    FilterKeepsMatching(re, xs);
    if xs != [] {
      FilterLength(re, xs[1..]);
      FilterMembers(re, xs[1..]);
    }
  }

  /** Filtering twice with the same matcher is filtering once. */
  lemma FilterIdempotent(re: Regexp, xs: seq<Entry>)
    ensures Filter(re, Filter(re, xs)) == Filter(re, xs)
  {
    FilterMembers(re, xs);
    FilterKeepsMatching(re, Filter(re, xs));
  }

  /** Any list with the survivors of `xs` is an arrangement of `Filter(re, xs)`. */
  lemma SurvivorsAreFiltered(re: Regexp, kept: seq<Entry>, xs: seq<Entry>)
    requires SameSurvivors(re, kept, xs)
    ensures multiset(kept) == multiset(Filter(re, xs))
  {
    FilterMultiset(re, xs);
  }

  /** Filtering depends only on the multiset of its input. */
  lemma FilterRespectsMultiset(re: Regexp, xs: seq<Entry>, ys: seq<Entry>)
    requires multiset(xs) == multiset(ys)
    ensures multiset(Filter(re, xs)) == multiset(Filter(re, ys))
  {
    FilterMultiset(re, xs);
    FilterMultiset(re, ys);
  }

  /** Re-filtering any arrangement of a filtered list changes nothing: the order-blind
      form of idempotence that also covers the order-destroying in-place path. */
  lemma RefilterIsNoOp(re: Regexp, xs: seq<Entry>, ys: seq<Entry>)
    requires multiset(ys) == multiset(Filter(re, xs))
    ensures multiset(Filter(re, ys)) == multiset(ys)
  {
    FilterRespectsMultiset(re, ys, Filter(re, xs));
    FilterIdempotent(re, xs);
  }

  /** Any arrangement of a filtered list holds only matching entries. */
  lemma ArrangementMatches(re: Regexp, ys: seq<Entry>, xs: seq<Entry>)
    requires multiset(ys) == multiset(Filter(re, xs))
    ensures AllMatch(re, ys)
  {
    FilterMembers(re, xs);
    forall j | 0 <= j < |ys|
      ensures Keeps(re, ys[j])
    {
      assert ys[j] in multiset(ys);
    }
  }
}
