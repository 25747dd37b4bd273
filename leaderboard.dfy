/**
 * The leaderboard page (src/pages/Leaderboard.tsx): the fixed list of
 * cities, the case-insensitive name filter, the in-place sort by score in
 * the chosen direction, the direction toggle and the empty-result branch.
 */
module Leaderboard {
  import opened Js

  datatype City = City(id: int, name: string, score: int, reports: int, rank: int)

  datatype SortOrder = Asc | Desc

  /** What the page renders. */
  datatype View = Redirect(to: string) | NoCitiesFound | Cards(cities: seq<City>)

  const InitialCities: seq<City> := [
    City(1, "Tokyo", 9876, 328, 1),
    City(2, "London", 8765, 287, 2),
    City(3, "New York", 7654, 254, 3),
    City(4, "Paris", 6543, 212, 4),
    City(5, "Berlin", 5432, 187, 5),
    City(6, "Sydney", 4321, 165, 6),
    City(7, "Toronto", 3210, 132, 7),
    City(8, "Singapore", 2109, 98, 8),
    City(9, "Barcelona", 1987, 87, 9),
    City(10, "Amsterdam", 1876, 76, 10),
    City(11, "Hong Kong", 1765, 65, 11),
    City(12, "Seoul", 1654, 54, 12)
  ]

  /** The filter's test: the lower-cased name contains the lower-cased search term. */
  predicate Matches(c: City, term: string) {
    Includes(ToLower(c.name), ToLower(term))
  }

  /**
   * `initialCities.filter(...)`: the matching cities in their original order.
   * Each city occurs in the result exactly as often as in the input if it
   * matches, and not at all otherwise.
   */
  function FilterByName(cities: seq<City>, term: string): (r: seq<City>)
    ensures forall i :: 0 <= i < |r| ==> Matches(r[i], term)
    ensures forall c :: multiset(r)[c] == if Matches(c, term) then multiset(cities)[c] else 0
    ensures |r| <= |cities|
  {
    if cities == [] then []
    else
      assert cities == [cities[0]] + cities[1..];
      if Matches(cities[0], term) then [cities[0]] + FilterByName(cities[1..], term)
      else FilterByName(cities[1..], term)
  }

  /** The filtered list is a sub-multiset of the input. */
  lemma FilterIsSubset(cities: seq<City>, term: string)
    ensures multiset(FilterByName(cities, term)) <= multiset(cities)
  {
  }

  /** An empty search term keeps every city, in the original order. */
  lemma {:induction false} FilterEmptyTerm(cities: seq<City>)
    ensures FilterByName(cities, "") == cities
  {
    if cities != [] {
      IncludesEmpty(ToLower(cities[0].name));
      assert ToLower("") == "";
      FilterEmptyTerm(cities[1..]);
    }
  }

  /** Two search terms that differ only in letter case give the same list. */
  lemma {:induction false} FilterIgnoresTermCase(cities: seq<City>, term1: string, term2: string)
    requires ToLower(term1) == ToLower(term2)
    ensures FilterByName(cities, term1) == FilterByName(cities, term2)
  {
    if cities != [] {
      FilterIgnoresTermCase(cities[1..], term1, term2);
    }
  }

  /** In particular, lower-casing the search term first changes nothing. */
  lemma FilterLowerTerm(cities: seq<City>, term: string)
    ensures FilterByName(cities, ToLower(term)) == FilterByName(cities, term)
  {
    ToLowerIdempotent(term);
    FilterIgnoresTermCase(cities, ToLower(term), term);
  }

  /** The comparator `b.score - a.score` (desc) or `a.score - b.score` (asc) does not put `x` after `y`. */
  predicate InOrder(order: SortOrder, x: City, y: City) {
    match order
    case Desc => x.score >= y.score
    case Asc => x.score <= y.score
  }

  ghost predicate SortedBy(order: SortOrder, s: seq<City>) {
    forall i, j :: 0 <= i < j < |s| ==> InOrder(order, s[i], s[j])
  }

  /** The comparator is a total preorder: any two cities can be put in order, and order chains. */
  lemma InOrderTotal(order: SortOrder, x: City, y: City, z: City)
    ensures InOrder(order, x, y) || InOrder(order, y, x)
    ensures InOrder(order, x, y) && InOrder(order, y, z) ==> InOrder(order, x, z)
  {
  }

  method Swap(a: array<City>, i: int, j: int)
    requires 0 <= i < j < a.Length
    modifies a
    ensures a[i] == old(a[j]) && a[j] == old(a[i])
    ensures forall k :: 0 <= k < a.Length && k != i && k != j ==> a[k] == old(a[k])
    ensures multiset(a[..]) == old(multiset(a[..]))
  {
    a[i], a[j] := a[j], a[i];
  }

  /** One pass of insertion sort: moves `a[i]` left until the prefix `a[..i+1]` is in order. */
  method InsertAt(a: array<City>, i: int, order: SortOrder)
    requires 0 <= i < a.Length
    requires SortedBy(order, a[..i])
    modifies a
    ensures SortedBy(order, a[..i + 1])
    ensures forall k :: i < k < a.Length ==> a[k] == old(a[k])
    ensures multiset(a[..]) == old(multiset(a[..]))
  {
    var j := i;
    while j > 0 && !InOrder(order, a[j - 1], a[j])
      invariant 0 <= j <= i
      invariant multiset(a[..]) == old(multiset(a[..]))
      invariant forall k :: i < k < a.Length ==> a[k] == old(a[k])
      invariant forall p, q :: 0 <= p < q <= i && q != j ==> InOrder(order, a[p], a[q])
      invariant 0 < j < i ==> InOrder(order, a[j - 1], a[j + 1])
    {
      Swap(a, j - 1, j);
      j := j - 1;
    }
    forall p, q | 0 <= p < q <= i
      ensures InOrder(order, a[p], a[q])
    {
      if q == j {
        InOrderTotal(order, a[p], a[j - 1], a[j]);
      }
    }
  }

  /** `.sort(...)` on the freshly filtered array: insertion sort by score, in place. */
  method SortByScore(a: array<City>, order: SortOrder)
    modifies a
    ensures SortedBy(order, a[..])
    ensures multiset(a[..]) == old(multiset(a[..]))
  {
    var i := 0;
    while i < a.Length
      invariant 0 <= i <= a.Length
      invariant SortedBy(order, a[..i])
      invariant multiset(a[..]) == old(multiset(a[..]))
    {
      InsertAt(a, i, order);
      i := i + 1;
    }
    assert a[..a.Length] == a[..];
  }

  /** `filteredCities`: filter into a new array, then sort that array; `cities` itself is a value and is left as it was. */
  method FilteredCities(cities: seq<City>, term: string, order: SortOrder) returns (r: seq<City>)
    ensures SortedBy(order, r)
    ensures multiset(r) == multiset(FilterByName(cities, term))
    ensures forall i :: 0 <= i < |r| ==> Matches(r[i], term)
  {
    var matching := FilterByName(cities, term);
    var a := new City[|matching|](i requires 0 <= i < |matching| => matching[i]);
    assert a[..] == matching;
    SortByScore(a, order);
    r := a[..];
    forall i | 0 <= i < |r|
      ensures Matches(r[i], term)
    {
      assert r[i] in multiset(matching);
    }
  }

  /** `sortOrder === "desc" ? "asc" : "desc"` */
  function Toggle(order: SortOrder): (flipped: SortOrder)
    ensures flipped != order
  {
    match order
    case Desc => Asc
    case Asc => Desc
  }

  lemma ToggleTwice(order: SortOrder)
    ensures Toggle(Toggle(order)) == order
  {
  }

  /** No two different cities of the collection share a score. */
  ghost predicate ScoreIsKey(m: multiset<City>) {
    forall x, y :: x in m && y in m && x.score == y.score ==> x == y
  }

  /** Each city scores strictly more than the next one. */
  ghost predicate StepsDescend(s: seq<City>) {
    forall i :: 0 <= i < |s| - 1 ==> s[i].score > s[i + 1].score
  }

  lemma {:induction false} StepsDescendStrictly(s: seq<City>)
    requires StepsDescend(s)
    ensures forall i, j :: 0 <= i < j < |s| ==> s[i].score > s[j].score
  {
    if |s| > 1 {
      var rest := s[1..];
      assert StepsDescend(rest) by {
        forall i | 0 <= i < |rest| - 1
          ensures rest[i].score > rest[i + 1].score
        {
          assert rest[i] == s[i + 1] && rest[i + 1] == s[i + 2];
        }
      }
      StepsDescendStrictly(rest);
      forall i, j | 0 <= i < j < |s|
        ensures s[i].score > s[j].score
      {
        if i == 0 {
          if j > 1 {
            assert rest[0] == s[1] && rest[j - 1] == s[j];
          }
        } else {
          assert rest[i - 1] == s[i] && rest[j - 1] == s[j];
        }
      }
    }
  }

  /** A list whose scores strictly descend is sorted descending and its scores tell its cities apart. */
  lemma StrictlyDescendingIsKeyed(s: seq<City>)
    requires StepsDescend(s)
    ensures SortedBy(Desc, s)
    ensures ScoreIsKey(multiset(s))
  {
    StepsDescendStrictly(s);
    forall x, y | x in multiset(s) && y in multiset(s) && x.score == y.score
      ensures x == y
    {
      var i :| 0 <= i < |s| && s[i] == x;
      var j :| 0 <= j < |s| && s[j] == y;
      assert i == j;
    }
  }

  lemma InitialStepsDescend()
    ensures StepsDescend(InitialCities)
  {
    forall i | 0 <= i < |InitialCities| - 1
      ensures InitialCities[i].score > InitialCities[i + 1].score
    {
    }
  }

  lemma InitialCitiesDescend()
    ensures SortedBy(Desc, InitialCities)
    ensures ScoreIsKey(multiset(InitialCities))
  {
    InitialStepsDescend();
    StrictlyDescendingIsKeyed(InitialCities);
  }

  /** Taking some of the cities keeps their scores telling them apart. */
  lemma KeyedSubset(m1: multiset<City>, m2: multiset<City>)
    requires m1 <= m2 && ScoreIsKey(m2)
    ensures ScoreIsKey(m1)
  {
  }

  /** Two sorted lists with the same contents start with the same city, when the score tells cities apart. */
  lemma SortedHeadsAgree(order: SortOrder, s: seq<City>, t: seq<City>)
    requires s != []
    requires SortedBy(order, s) && SortedBy(order, t)
    requires multiset(s) == multiset(t)
    requires ScoreIsKey(multiset(t))
    ensures t != [] && s[0] == t[0]
  {
    assert s[0] in multiset(t);
    var k :| 0 <= k < |t| && t[k] == s[0];
    assert t[0] in multiset(s);
    var m :| 0 <= m < |s| && s[m] == t[0];
    assert k == 0 || InOrder(order, t[0], t[k]);
    assert m == 0 || InOrder(order, s[0], s[m]);
    assert t[0].score == s[0].score;
  }

  lemma SortedTail(order: SortOrder, s: seq<City>)
    requires s != [] && SortedBy(order, s)
    ensures SortedBy(order, s[1..])
  {
    forall i, j | 0 <= i < j < |s| - 1
      ensures InOrder(order, s[1..][i], s[1..][j])
    {
      assert s[1..][i] == s[i + 1] && s[1..][j] == s[j + 1];
    }
  }

  /** Removing the same first city from two lists with the same contents leaves tails with the same contents. */
  lemma SameHeadSameTail(s: seq<City>, t: seq<City>)
    requires s != [] && t != [] && s[0] == t[0]
    requires multiset(s) == multiset(t)
    ensures multiset(s[1..]) == multiset(t[1..])
    ensures multiset(t[1..]) <= multiset(t)
  {
    assert s == [s[0]] + s[1..];
    assert t == [t[0]] + t[1..];
    var head := multiset{s[0]};
    assert multiset(s) == head + multiset(s[1..]);
    assert multiset(t) == head + multiset(t[1..]);
    assert multiset(s[1..]) == multiset(s) - head;
    assert multiset(t[1..]) == multiset(t) - head;
  }

  /**
   * Two lists sorted in the same direction with the same contents are equal,
   * when the score tells cities apart.
   */
  lemma {:induction false} SortedUnique(order: SortOrder, s: seq<City>, t: seq<City>)
    requires SortedBy(order, s) && SortedBy(order, t)
    requires multiset(s) == multiset(t)
    requires ScoreIsKey(multiset(t))
    ensures s == t
  {
    if s == [] {
      assert |t| == |multiset(t)| == 0;
    } else {
      SortedHeadsAgree(order, s, t);
      SameHeadSameTail(s, t);
      SortedTail(order, s);
      SortedTail(order, t);
      KeyedSubset(multiset(t[1..]), multiset(t));
      SortedUnique(order, s[1..], t[1..]);
    }
  }

  /**
   * The listed cities are fixed by the search term and the sort direction
   * alone: any two lists meeting `FilteredCities`' postcondition for the
   * same term and direction are the same list.
   */
  lemma ListingDetermined(term: string, order: SortOrder, r1: seq<City>, r2: seq<City>)
    requires SortedBy(order, r1) && multiset(r1) == multiset(FilterByName(InitialCities, term))
    requires SortedBy(order, r2) && multiset(r2) == multiset(FilterByName(InitialCities, term))
    ensures r1 == r2
  {
    var listed := FilterByName(InitialCities, term);
    InitialCitiesDescend();
    FilterIsSubset(InitialCities, term);
    KeyedSubset(multiset(listed), multiset(InitialCities));
    SortedUnique(order, r1, r2);
  }

  /** With the default state (empty term, descending) the page lists the cities exactly as declared. */
  lemma DefaultListingIsDeclaredOrder(r: seq<City>)
    requires SortedBy(Desc, r) && multiset(r) == multiset(FilterByName(InitialCities, ""))
    ensures r == InitialCities
  {
    FilterEmptyTerm(InitialCities);
    InitialCitiesDescend();
    SortedUnique(Desc, r, InitialCities);
  }

  /** The page's state: the search box, the sort direction and the time-frame selector. */
  class LeaderboardPage {
    var searchTerm: string
    var sortOrder: SortOrder
    var timeFrame: string

    constructor ()
      ensures searchTerm == "" && sortOrder == Desc && timeFrame == "all-time"
    {
      searchTerm := "";
      sortOrder := Desc;
      timeFrame := "all-time";
    }

    method SetSearchTerm(term: string)
      modifies this
      ensures searchTerm == term
      ensures sortOrder == old(sortOrder) && timeFrame == old(timeFrame)
    {
      searchTerm := term;
    }

    /** The arrow button. */
    method ToggleSortOrder()
      modifies this
      ensures sortOrder == Toggle(old(sortOrder))
      ensures searchTerm == old(searchTerm) && timeFrame == old(timeFrame)
    {
      sortOrder := Toggle(sortOrder);
    }

    /** The time-frame selector; the listing never reads it. */
    method SetTimeFrame(frame: string)
      modifies this
      ensures timeFrame == frame
      ensures searchTerm == old(searchTerm) && sortOrder == old(sortOrder)
    {
      timeFrame := frame;
    }

    /** The page body: a redirect when signed out, otherwise the "No cities found" text or one card per listed city. */
    method Render(isSignedIn: bool) returns (v: View)
      ensures !isSignedIn ==> v == Redirect("/")
      ensures isSignedIn ==> (v.NoCitiesFound? <==> FilterByName(InitialCities, searchTerm) == [])
      ensures isSignedIn ==> !v.Redirect?
      ensures v.Cards? ==>
        && v.cities != []
        && SortedBy(sortOrder, v.cities)
        && multiset(v.cities) == multiset(FilterByName(InitialCities, searchTerm))
    {
      if !isSignedIn {
        return Redirect("/");
      }
      var listed := FilteredCities(InitialCities, searchTerm, sortOrder);
      if |listed| == 0 {
        assert multiset(FilterByName(InitialCities, searchTerm)) == multiset{};
        v := NoCitiesFound;
      } else {
        v := Cards(listed);
      }
    }
  }
}
