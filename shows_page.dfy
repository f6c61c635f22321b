/**
 * The catalogue page: the search filter over the fetched shows and the
 * sort applied to a copy of the filtered list.
 */
module ShowsPage {
  import opened Wrappers
  import opened Strings
  import opened DatabaseTypes

  datatype SortOption = NameAsc | NameDesc | PriceAsc | PriceDesc

  /** The sort the page starts with. */
  const INITIAL_SORT := NameAsc

  /** A show's price for sorting: a missing price counts as 0. */
  function Price(show: TheatreFunction): int {
    show.valorEntradaFuncion.GetOr(0)
  }

  /**
   * The filter's test: the lower-cased name contains the lower-cased term,
   * or there is a description and its lower-cased form does. `lower` stands
   * for `toLowerCase`.
   */
  predicate Matches(show: TheatreFunction, term: string, lower: string -> string): (r: bool)
    ensures lower(term) == [] ==> r
    ensures show.descripcionFuncion.None? ==> (r <==> Contains(lower(show.nombreFuncion), lower(term)))
  {
    assert lower(term) == [] ==> OccursAt(lower(show.nombreFuncion), lower(term), 0);
    || Contains(lower(show.nombreFuncion), lower(term))
    || (show.descripcionFuncion.Some? && Contains(lower(show.descripcionFuncion.value), lower(term)))
  }

  /** `shows.filter(...)`: the matching shows, each as often as in `shows`. */
  function Matching(shows: seq<TheatreFunction>, term: string, lower: string -> string): (r: seq<TheatreFunction>)
    ensures |r| <= |shows|
  {
    if shows == [] then []
    else
      var rest := Matching(shows[1..], term, lower);
      if Matches(shows[0], term, lower) then [shows[0]] + rest else rest
  }

  /** Filtering keeps exactly the matching shows, each as often as it occurs: it never adds or duplicates one. */
  lemma {:induction false} MatchingKeepsExactlyMatches(shows: seq<TheatreFunction>, term: string,
                                                       lower: string -> string)
    ensures var r := Matching(shows, term, lower);
      forall s :: multiset(r)[s] == if Matches(s, term, lower) then multiset(shows)[s] else 0
    ensures forall s :: s in Matching(shows, term, lower) <==> s in shows && Matches(s, term, lower)
  {
    if shows != [] {
      MatchingKeepsExactlyMatches(shows[1..], term, lower);
      assert shows == [shows[0]] + shows[1..];
      assert multiset(shows) == multiset{shows[0]} + multiset(shows[1..]);
    }
    var r := Matching(shows, term, lower);
    forall s ensures s in r <==> s in shows && Matches(s, term, lower) {
      assert s in r <==> s in multiset(r);
      assert s in shows <==> s in multiset(shows);
    }
  }

  /**
   * The list the search effect publishes: all shows when the search term is
   * missing or empty (or there are no shows), the matching ones otherwise.
   */
  function FilteredShows(shows: seq<TheatreFunction>, searchTerm: Option<string>, lower: string -> string)
    : (r: seq<TheatreFunction>)
    ensures searchTerm.None? || searchTerm.value == [] ==> r == shows
    ensures searchTerm.Some? && searchTerm.value != [] ==> r == Matching(shows, searchTerm.value, lower)
  {
    if searchTerm.Some? && searchTerm.value != [] && |shows| > 0 then Matching(shows, searchTerm.value, lower)
    else shows
  }

  /** Filtering keeps the shows' relative order: it distributes over concatenation. */
  lemma {:induction false} MatchingKeepsOrder(a: seq<TheatreFunction>, b: seq<TheatreFunction>, term: string,
                                              lower: string -> string)
    ensures Matching(a + b, term, lower) == Matching(a, term, lower) + Matching(b, term, lower)
  {
    if a != [] {
      var ab := a + b;
      assert ab[0] == a[0];
      assert ab[1..] == a[1..] + b;
      MatchingKeepsOrder(a[1..], b, term, lower);
      var tail := Matching(a[1..], term, lower) + Matching(b, term, lower);
      if Matches(a[0], term, lower) {
        assert Matching(ab, term, lower) == [a[0]] + tail;
        assert Matching(a, term, lower) == [a[0]] + Matching(a[1..], term, lower);
      } else {
        assert Matching(ab, term, lower) == tail;
        assert Matching(a, term, lower) == Matching(a[1..], term, lower);
      }
    } else {
      assert a + b == b;
    }
  }

  /** The comparator of `sortedShows`; `localeCompare` stands for `String.prototype.localeCompare`. */
  function Compare(opt: SortOption, a: TheatreFunction, b: TheatreFunction,
                   localeCompare: (string, string) -> int): (r: int)
    ensures opt == PriceAsc ==> (r <= 0 <==> Price(a) <= Price(b))
    ensures opt == PriceDesc ==> (r <= 0 <==> Price(a) >= Price(b))
    ensures opt == NameDesc ==> r == localeCompare(b.nombreFuncion, a.nombreFuncion)
  {
    match opt
    case NameAsc => localeCompare(a.nombreFuncion, b.nombreFuncion)
    case NameDesc => localeCompare(b.nombreFuncion, a.nombreFuncion)
    case PriceAsc => Price(a) - Price(b)
    case PriceDesc => Price(b) - Price(a)
  }

  /** Puts `x` before the first element it does not compare greater than. */
  function Insert(x: TheatreFunction, sorted: seq<TheatreFunction>, opt: SortOption,
                  localeCompare: (string, string) -> int): (r: seq<TheatreFunction>)
    ensures multiset(r) == multiset(sorted) + multiset{x}
  {
    if sorted == [] then [x]
    else if Compare(opt, x, sorted[0], localeCompare) <= 0 then [x] + sorted
    else
      assert sorted == [sorted[0]] + sorted[1..];
      [sorted[0]] + Insert(x, sorted[1..], opt, localeCompare)
  }

  /**
   * `[...filteredShows].sort(compare)`: the library's stable sort, written as
   * an insertion sort. The argument is a value, so the filtered list itself
   * is never reordered.
   */
  function SortedShows(shows: seq<TheatreFunction>, opt: SortOption,
                       localeCompare: (string, string) -> int): (r: seq<TheatreFunction>)
    ensures multiset(r) == multiset(shows)
    ensures |r| == |shows|
  {
    if shows == [] then []
    else
      assert shows == [shows[0]] + shows[1..];
      Insert(shows[0], SortedShows(shows[1..], opt, localeCompare), opt, localeCompare)
  }

  /** The number the price comparators compare: `Compare(opt, a, b)` is `Key(a) - Key(b)`. */
  function PriceKey(opt: SortOption, show: TheatreFunction): int
    requires opt == PriceAsc || opt == PriceDesc
  {
    if opt == PriceAsc then Price(show) else -Price(show)
  }

  ghost predicate KeySorted(s: seq<TheatreFunction>, opt: SortOption)
    requires opt == PriceAsc || opt == PriceDesc
  {
    forall i, j :: 0 <= i < j < |s| ==> PriceKey(opt, s[i]) <= PriceKey(opt, s[j])
  }

  /** 'name-desc' is 'name-asc' with the arguments swapped. */
  lemma NameDescIsSwappedNameAsc(a: TheatreFunction, b: TheatreFunction, localeCompare: (string, string) -> int)
    ensures Compare(NameDesc, a, b, localeCompare) == Compare(NameAsc, b, a, localeCompare)
  {
  }

  /** Inserting adds `x` and nothing else. */
  lemma InsertElements(x: TheatreFunction, s: seq<TheatreFunction>, opt: SortOption,
                       localeCompare: (string, string) -> int)
    ensures forall y :: y in Insert(x, s, opt, localeCompare) ==> y == x || y in s
  {
    var r := Insert(x, s, opt, localeCompare);
    forall y | y in r ensures y == x || y in s {
      assert y in multiset(r);
    }
  }

  /** A show whose key is at most every key of a key-sorted list can go in front of it. */
  lemma KeySortedCons(y: TheatreFunction, s: seq<TheatreFunction>, opt: SortOption)
    requires opt == PriceAsc || opt == PriceDesc
    requires KeySorted(s, opt)
    requires forall z :: z in s ==> PriceKey(opt, y) <= PriceKey(opt, z)
    ensures KeySorted([y] + s, opt)
  {
    var r := [y] + s;
    forall i, j | 0 <= i < j < |r| ensures PriceKey(opt, r[i]) <= PriceKey(opt, r[j]) {
      assert r[j] == s[j - 1];
      assert r[j] in s;
      if i > 0 {
        assert r[i] == s[i - 1];
      }
    }
  }

  lemma {:induction false} InsertKeepsKeySorted(x: TheatreFunction, s: seq<TheatreFunction>, opt: SortOption,
                                                localeCompare: (string, string) -> int)
    requires opt == PriceAsc || opt == PriceDesc
    requires KeySorted(s, opt)
    ensures KeySorted(Insert(x, s, opt, localeCompare), opt)
  {
    if s != [] {
      var s0 := s[0];
      if Compare(opt, x, s0, localeCompare) <= 0 {
        forall z | z in s ensures PriceKey(opt, x) <= PriceKey(opt, z) {
          var j :| 0 <= j < |s| && s[j] == z;
          assert PriceKey(opt, s0) <= PriceKey(opt, s[j]) || j == 0;
        }
        KeySortedCons(x, s, opt);
      } else {
        var tail := s[1..];
        assert KeySorted(tail, opt) by {
          forall i, j | 0 <= i < j < |tail| ensures PriceKey(opt, tail[i]) <= PriceKey(opt, tail[j]) {
            assert tail[i] == s[i + 1] && tail[j] == s[j + 1];
          }
        }
        InsertKeepsKeySorted(x, tail, opt, localeCompare);
        var rest := Insert(x, tail, opt, localeCompare);
        InsertElements(x, tail, opt, localeCompare);
        forall y | y in rest ensures PriceKey(opt, s0) <= PriceKey(opt, y) {
          if y != x {
            var j :| 0 <= j < |tail| && tail[j] == y;
            assert s[j + 1] == y;
          }
        }
        KeySortedCons(s0, rest, opt);
      }
    }
  }

  lemma {:induction false} SortedShowsKeySorted(shows: seq<TheatreFunction>, opt: SortOption,
                                                localeCompare: (string, string) -> int)
    requires opt == PriceAsc || opt == PriceDesc
    ensures KeySorted(SortedShows(shows, opt, localeCompare), opt)
  {
    if shows != [] {
      SortedShowsKeySorted(shows[1..], opt, localeCompare);
      InsertKeepsKeySorted(shows[0], SortedShows(shows[1..], opt, localeCompare), opt, localeCompare);
    }
  }

  /**
   * 'price-asc' gives non-decreasing prices and 'price-desc' non-increasing
   * ones, a missing price counting as 0.
   */
  lemma PriceSortOrders(shows: seq<TheatreFunction>, opt: SortOption, localeCompare: (string, string) -> int)
    requires opt == PriceAsc || opt == PriceDesc
    ensures var r := SortedShows(shows, opt, localeCompare);
      forall i, j :: 0 <= i < j < |r| ==>
        if opt == PriceAsc then Price(r[i]) <= Price(r[j]) else Price(r[i]) >= Price(r[j])
  {
    SortedShowsKeySorted(shows, opt, localeCompare);
  }
}
