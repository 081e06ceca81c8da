/**
 * The event catalogue of the home page and the two values derived from it:
 * the events shown for a search term and a category, and the list of
 * categories offered in the category selector.
 */
module Events {
  import opened Text

  /** One listed event. */
  datatype Event = Event(
    id: int,
    title: string,
    date: string,
    time: string,
    location: string,
    host: string,
    tags: seq<string>,
    image: string,
    attendees: int)

  /** The category value that selects every event. */
  const AllCategory := "all"

  /** Title or location contains the search term, ignoring case. */
  predicate MatchesSearch(e: Event, searchTerm: string)
    ensures searchTerm == [] ==> MatchesSearch(e, searchTerm)
    ensures MatchesSearch(e, searchTerm) ==> |searchTerm| <= |e.title| || |searchTerm| <= |e.location|
  {
    ContainsEmpty(Lower(e.title));
    || Contains(Lower(e.title), Lower(searchTerm))
    || Contains(Lower(e.location), Lower(searchTerm))
  }

  /** The category is "all", or one of the event's tags equals it exactly. */
  predicate MatchesCategory(e: Event, category: string)
    ensures category == AllCategory ==> MatchesCategory(e, category)
    ensures category != AllCategory ==> (MatchesCategory(e, category) <==> exists i :: 0 <= i < |e.tags| && e.tags[i] == category)
  {
    category == AllCategory || category in e.tags
  }

  /** The test the filter applies to each event. */
  predicate Shown(e: Event, searchTerm: string, category: string)
    ensures searchTerm == [] && category == AllCategory ==> Shown(e, searchTerm, category)
    ensures Shown(e, searchTerm, category) && category != AllCategory ==> category in e.tags
  {
    MatchesSearch(e, searchTerm) && MatchesCategory(e, category)
  }

  /** `xs` is `ys` with some elements left out, the rest kept in order. */
  predicate IsSubsequence<T(==)>(xs: seq<T>, ys: seq<T>)
    decreases |ys|
  {
    if xs == [] then true
    else if ys == [] then false
    else (xs[0] == ys[0] && IsSubsequence(xs[1..], ys[1..])) || IsSubsequence(xs, ys[1..])
  }

  /** The events shown for `searchTerm` and `category`, in catalogue order. */
  function Filter(events: seq<Event>, searchTerm: string, category: string): (r: seq<Event>)
    ensures |r| <= |events|
    decreases |events|
  {
    if events == [] then []
    else if Shown(events[0], searchTerm, category) then
      [events[0]] + Filter(events[1..], searchTerm, category)
    else
      Filter(events[1..], searchTerm, category)
  }

  /** An event is shown iff it is in the catalogue and passes both tests. */
  lemma {:induction false} FilterMembership(events: seq<Event>, searchTerm: string, category: string, e: Event)
    ensures e in Filter(events, searchTerm, category) <==>
            e in events && MatchesSearch(e, searchTerm) && MatchesCategory(e, category)
    decreases |events|
  {
    if events != [] {
      FilterMembership(events[1..], searchTerm, category, e);
      assert events == [events[0]] + events[1..];
    }
  }

  /** The shown events are the catalogue with some events left out, in order. */
  lemma {:induction false} FilterIsSubsequence(events: seq<Event>, searchTerm: string, category: string)
    ensures IsSubsequence(Filter(events, searchTerm, category), events)
    decreases |events|
  {
    if events != [] {
      FilterIsSubsequence(events[1..], searchTerm, category);
      var r := Filter(events, searchTerm, category);
      if Shown(events[0], searchTerm, category) {
        assert r[0] == events[0] && r[1..] == Filter(events[1..], searchTerm, category);
      }
    }
  }

  /**
   * Each event is shown as many times as the catalogue lists it when it
   * passes both tests, and not at all otherwise.
   */
  lemma {:induction false} FilterCount(events: seq<Event>, searchTerm: string, category: string, e: Event)
    ensures multiset(Filter(events, searchTerm, category))[e] ==
            if Shown(e, searchTerm, category) then multiset(events)[e] else 0
    decreases |events|
  {
    if events != [] {
      FilterCount(events[1..], searchTerm, category, e);
      assert events == [events[0]] + events[1..];
      assert multiset(events) == multiset([events[0]]) + multiset(events[1..]);
    }
  }

  /** When every event passes, the filter keeps the whole catalogue. */
  lemma {:induction false} FilterKeepsAll(events: seq<Event>, searchTerm: string, category: string)
    requires forall i :: 0 <= i < |events| ==> Shown(events[i], searchTerm, category)
    ensures Filter(events, searchTerm, category) == events
    decreases |events|
  {
    if events != [] {
      FilterKeepsAll(events[1..], searchTerm, category);
    }
  }

  /** Filtering the shown events again with the same inputs changes nothing. */
  lemma FilterIdempotent(events: seq<Event>, searchTerm: string, category: string)
    ensures var r := Filter(events, searchTerm, category);
            Filter(r, searchTerm, category) == r
  {
    var r := Filter(events, searchTerm, category);
    forall i | 0 <= i < |r| ensures Shown(r[i], searchTerm, category) {
      FilterMembership(events, searchTerm, category, r[i]);
    }
    FilterKeepsAll(r, searchTerm, category);
  }

  /** The empty search term matches every event. */
  lemma EmptyTermMatches(e: Event)
    ensures MatchesSearch(e, "")
  {
    ContainsEmpty(Lower(e.title));
  }

  /** With the initial inputs, an empty term and "all", every event is shown. */
  lemma FilterShowsEverything(events: seq<Event>)
    ensures Filter(events, "", AllCategory) == events
  {
    forall i | 0 <= i < |events|
      ensures Shown(events[i], "", AllCategory)
    {
      EmptyTermMatches(events[i]);
    }
    FilterKeepsAll(events, "", AllCategory);
  }

  /** The search ignores the case of the term: lower-casing it first changes nothing. */
  lemma FilterIgnoresTermCase(events: seq<Event>, searchTerm: string, category: string)
    ensures Filter(events, Lower(searchTerm), category) == Filter(events, searchTerm, category)
  {
    LowerIdempotent(searchTerm);
  }

  /** With category "all", the shown events are exactly those matching the term. */
  lemma FilterAllCategory(events: seq<Event>, searchTerm: string, e: Event)
    ensures e in Filter(events, searchTerm, AllCategory) <==> e in events && MatchesSearch(e, searchTerm)
  {
    FilterMembership(events, searchTerm, AllCategory, e);
  }

  /** `events.flatMap(event => event.tags)`: every tag, event by event. */
  function AllTags(events: seq<Event>): (r: seq<string>)
    ensures forall t :: t in r <==> exists e :: e in events && t in e.tags
    decreases |events|
  {
    if events == [] then []
    else
      var rest := AllTags(events[1..]);
      assert forall e :: e in events <==> e == events[0] || e in events[1..];
      events[0].tags + rest
  }

  /** The tags of a list headed by `e` are `e`'s tags, then the rest's. */
  lemma AllTagsCons(e: Event, rest: seq<Event>)
    ensures AllTags([e] + rest) == e.tags + AllTags(rest)
  {
    assert ([e] + rest)[1..] == rest;
  }

  predicate NoDuplicates<T(==)>(xs: seq<T>) {
    forall i, j :: 0 <= i < j < |xs| ==> xs[i] != xs[j]
  }

  /** The position of the first occurrence of `x` in `xs`. */
  function FirstIndex<T(==)>(xs: seq<T>, x: T): (k: nat)
    requires x in xs
    ensures k < |xs| && xs[k] == x && x !in xs[..k]
    decreases |xs|
  {
    if xs[0] == x then 0
    else
      var k := FirstIndex(xs[1..], x);
      assert xs[..k + 1] == [xs[0]] + xs[1..][..k];
      k + 1
  }

  /** Appending to a sequence does not move the first occurrence of an element already in it. */
  lemma {:induction false} FirstIndexAppend<T>(xs: seq<T>, y: T, x: T)
    requires x in xs
    ensures FirstIndex(xs + [y], x) == FirstIndex(xs, x)
    decreases |xs|
  {
    if xs[0] != x {
      assert (xs + [y])[1..] == xs[1..] + [y];
      FirstIndexAppend(xs[1..], y, x);
    }
  }

  /**
   * The distinct elements of `xs` in order of first appearance: what
   * iterating a JavaScript `Set` built from `xs` gives.
   */
  function Distinct(xs: seq<string>): (r: seq<string>)
    ensures forall x :: x in r <==> x in xs
    ensures NoDuplicates(r)
    decreases |xs|
  {
    if xs == [] then []
    else
      var prefix := xs[..|xs| - 1];
      var d := Distinct(prefix);
      var last := xs[|xs| - 1];
      assert xs == prefix + [last];
      if last in d then d else d + [last]
  }

  /** Adding one element to the source list adds it to the distinct elements, unless it is already there. */
  lemma DistinctSnoc(xs: seq<string>, x: string)
    ensures Distinct(xs + [x]) == if x in Distinct(xs) then Distinct(xs) else Distinct(xs) + [x]
  {
    assert (xs + [x])[..|xs|] == xs;
  }

  /** A list without repetitions is its own list of distinct elements. */
  lemma {:induction false} DistinctNoDuplicates(xs: seq<string>)
    requires NoDuplicates(xs)
    ensures Distinct(xs) == xs
    decreases |xs|
  {
    if xs != [] {
      var prefix := xs[..|xs| - 1];
      assert xs == prefix + [xs[|xs| - 1]];
      DistinctNoDuplicates(prefix);
    }
  }

  /** Dropping the last element of a list without repetitions leaves one without it. */
  lemma NoDuplicatesInit(ys: seq<string>)
    requires ys != [] && NoDuplicates(ys)
    ensures NoDuplicates(ys[..|ys| - 1])
    ensures ys[|ys| - 1] !in ys[..|ys| - 1]
  {
    var init := ys[..|ys| - 1];
    forall i | 0 <= i < |init| ensures init[i] != ys[|ys| - 1] {
      assert init[i] == ys[i];
    }
  }

  /** Appending new, distinct elements appends them to the distinct elements. */
  lemma {:induction false} DistinctAppendFresh(xs: seq<string>, ys: seq<string>)
    requires NoDuplicates(ys)
    requires forall i :: 0 <= i < |ys| ==> ys[i] !in xs
    ensures Distinct(xs + ys) == Distinct(xs) + ys
    decreases |ys|
  {
    if ys == [] {
      assert xs + ys == xs;
    } else {
      var init, last := ys[..|ys| - 1], ys[|ys| - 1];
      assert ys == init + [last];
      NoDuplicatesInit(ys);
      assert forall i :: 0 <= i < |init| ==> init[i] == ys[i];
      DistinctAppendFresh(xs, init);
      assert last !in xs + init;
      DistinctSnoc(xs + init, last);
      var d := Distinct(xs);
      calc {
        Distinct(xs + ys);
        { assert xs + ys == (xs + init) + [last]; }
        Distinct((xs + init) + [last]);
        Distinct(xs + init) + [last];
        (d + init) + [last];
        { assert (d + init) + [last] == d + (init + [last]); }
        d + ys;
      }
    }
  }

  /** One repeated element between two runs of new elements is dropped. */
  lemma DistinctOneRepeat(first: seq<string>, x: string, rest: seq<string>)
    requires NoDuplicates(first) && x in first
    requires NoDuplicates(rest) && forall y :: y in rest ==> y !in first + [x]
    ensures Distinct(first + [x] + rest) == first + rest
  {
    DistinctNoDuplicates(first);
    DistinctSnoc(first, x);
    DistinctAppendFresh(first + [x], rest);
  }

  /** The distinct elements appear in the order in which `xs` first mentions them. */
  lemma {:induction false} DistinctFirstSeenOrder(xs: seq<string>)
    ensures forall i, j :: 0 <= i < j < |Distinct(xs)| ==>
              FirstIndex(xs, Distinct(xs)[i]) < FirstIndex(xs, Distinct(xs)[j])
    decreases |xs|
  {
    if xs != [] {
      var prefix, last := xs[..|xs| - 1], xs[|xs| - 1];
      assert xs == prefix + [last];
      var d := Distinct(prefix);
      DistinctFirstSeenOrder(prefix);
      forall x | x in prefix ensures FirstIndex(xs, x) == FirstIndex(prefix, x) {
        FirstIndexAppend(prefix, last, x);
      }
      if last !in d {
        assert last !in prefix;
        assert FirstIndex(xs, last) == |prefix|;
      }
    }
  }

  /** `ys` lists elements of `xs` in the order in which `xs` first mentions them. */
  predicate InFirstSeenOrder(ys: seq<string>, xs: seq<string>) {
    && (forall k :: 0 <= k < |ys| ==> ys[k] in xs)
    && (forall i, j :: 0 <= i < j < |ys| ==> FirstIndex(xs, ys[i]) < FirstIndex(xs, ys[j]))
  }

  /** Two non-empty lists of the same elements, both in first-seen order, start alike. */
  lemma FirstSeenOrderSameHead(a: seq<string>, b: seq<string>, xs: seq<string>)
    requires a != [] && forall x :: x in a <==> x in b
    requires InFirstSeenOrder(a, xs) && InFirstSeenOrder(b, xs)
    ensures b != [] && a[0] == b[0]
  {
    assert a[0] in b;
    var i :| 0 <= i < |b| && b[i] == a[0];
    assert b[0] in a;
    var j :| 0 <= j < |a| && a[j] == b[0];
  }

  /** A list without elements is empty. */
  lemma NoElementsEmpty(b: seq<string>)
    requires forall x :: x !in b
    ensures b == []
  {
    forall x ensures multiset(b)[x] == 0 {
      assert x !in b;
    }
    assert multiset(b) == multiset{};
  }

  /** Dropping the same first element from two repetition-free lists of the same elements leaves the same elements. */
  lemma SameElementsTail(a: seq<string>, b: seq<string>)
    requires NoDuplicates(a) && NoDuplicates(b)
    requires a != [] && b != [] && a[0] == b[0]
    requires forall x :: x in a <==> x in b
    ensures forall x :: x in a[1..] <==> x in b[1..]
  {
    forall x ensures x in a[1..] <==> x in b[1..] {
      if x in a[1..] {
        var k :| 0 <= k < |a[1..]| && a[1..][k] == x;
        assert x == a[k + 1] && x != a[0];
        assert x in b && b == [b[0]] + b[1..];
      }
      if x in b[1..] {
        var k :| 0 <= k < |b[1..]| && b[1..][k] == x;
        assert x == b[k + 1] && x != b[0];
        assert x in a && a == [a[0]] + a[1..];
      }
    }
  }

  /** Dropping the first element keeps a list repetition-free and in first-seen order. */
  lemma TailInFirstSeenOrder(a: seq<string>, xs: seq<string>)
    requires a != [] && NoDuplicates(a) && InFirstSeenOrder(a, xs)
    ensures NoDuplicates(a[1..]) && InFirstSeenOrder(a[1..], xs)
  {
    assert forall k :: 0 <= k < |a[1..]| ==> a[1..][k] == a[k + 1];
  }

  /**
   * Two repetition-free lists of the same elements, both in first-seen order
   * of `xs`, are the same list.
   */
  lemma {:induction false} FirstSeenOrderUnique(a: seq<string>, b: seq<string>, xs: seq<string>)
    requires NoDuplicates(a) && NoDuplicates(b)
    requires forall x :: x in a <==> x in b
    requires InFirstSeenOrder(a, xs) && InFirstSeenOrder(b, xs)
    ensures a == b
    decreases |a|
  {
    if a == [] {
      NoElementsEmpty(b);
    } else {
      FirstSeenOrderSameHead(a, b, xs);
      SameElementsTail(a, b);
      TailInFirstSeenOrder(a, xs);
      TailInFirstSeenOrder(b, xs);
      FirstSeenOrderUnique(a[1..], b[1..], xs);
      assert a == [a[0]] + a[1..] && b == [b[0]] + b[1..];
    }
  }

  /** The distinct elements are the only repetition-free list of the elements of `xs` in first-seen order. */
  lemma DistinctUnique(xs: seq<string>, ys: seq<string>)
    requires NoDuplicates(ys) && (forall x :: x in ys <==> x in xs) && InFirstSeenOrder(ys, xs)
    ensures ys == Distinct(xs)
  {
    DistinctFirstSeenOrder(xs);
    FirstSeenOrderUnique(ys, Distinct(xs), xs);
  }

  /**
   * The category selector's options: "all" followed by every tag of every
   * event once, in the order in which the catalogue first mentions it.
   */
  function Categories(events: seq<Event>): (r: seq<string>)
    ensures |r| > 0 && r[0] == AllCategory
    ensures forall t :: t in r[1..] <==> t in AllTags(events)
    ensures NoDuplicates(r[1..])
    ensures InFirstSeenOrder(r[1..], AllTags(events))
  {
    var tags := Distinct(AllTags(events));
    DistinctFirstSeenOrder(AllTags(events));
    var r := [AllCategory] + tags;
    assert r[1..] == tags;
    r
  }

  /** Those four properties fix the category list: any list that has them is it. */
  lemma CategoriesUnique(events: seq<Event>, options: seq<string>)
    requires |options| > 0 && options[0] == AllCategory
    requires forall t :: t in options[1..] <==> t in AllTags(events)
    requires NoDuplicates(options[1..])
    requires InFirstSeenOrder(options[1..], AllTags(events))
    ensures options == Categories(events)
  {
    var r := Categories(events);
    FirstSeenOrderUnique(options[1..], r[1..], AllTags(events));
    assert options == [options[0]] + options[1..] && r == [r[0]] + r[1..];
  }
}
