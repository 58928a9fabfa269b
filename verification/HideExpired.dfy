/**
 * hideExpired=true against status=upcoming: the same events, but when in the same order?
 * The answer for every combination of parameters, over the listings that the two produce.
 */
module HideExpired {
  import opened Prelude
  import opened LocalTime
  import opened EventQuery
  import opened EventTheorems
  import opened EventOrdering
  import opened Paging

  /** The whole listing for some parameters. */
  ghost function ListingOf(env: Env, f: Filters, restrict: Option<seq<nat>>, now: int, table: set<Event>): seq<Event>
    requires DistinctIds(table)
  {
    OrderingEndsWithId(f);
    Listing(env, Ordering(f), Matches(env, f, restrict, now, table))
  }

  ghost predicate ListsLikeUpcoming(env: Env, f: Filters, restrict: Option<seq<nat>>, now: int) {
    forall table | DistinctIds(table) ::
      ListingOf(env, f, restrict, now, table) == ListingOf(env, AsUpcoming(f), restrict, now, table)
  }

  // ---- The condition ----

  /** The direction is given, and it places unknown starts alike. */
  predicate SameDirection(f: Filters) {
    f.orderDirection == Some(ASC) || (f.orderDirection == Some(DESC) && f.orderBy != ByStartTime)
  }

  /** Ordered by price, but all selected events tie: only free ones, or only one price. */
  predicate PricesTie(f: Filters) {
    f.orderBy == ByPrice && (f.free == Some(true) || (f.priceFrom.Some? && f.priceFrom == f.priceTo))
  }

  /** At most one id is allowed, or free events are asked for with bounds that exclude a zero price. */
  predicate SelectsAtMostOne(f: Filters, restrict: Option<seq<nat>>) {
    || (restrict.Some? && forall i, k | i in restrict.value && k in restrict.value :: i == k)
    || (f.free == Some(true) && ((f.priceFrom.Some? && f.priceFrom.value > 0.0)
                                 || (f.priceTo.Some? && f.priceTo.value < 0.0)))
  }

  /** Every search text and every place name occurs in some text. */
  ghost predicate Findable(env: Env) {
    forall needle: string :: OccursInPlace(env, needle) && OccursInTitle(env, needle)
  }

  ghost predicate OccursInPlace(env: Env, needle: string) {
    exists text :: env.contains(text, needle)
  }

  ghost predicate OccursInTitle(env: Env, needle: string) {
    exists text :: env.contains(env.unaccent(text), env.unaccent(needle))
  }

  // ---- Under the condition the listings agree ----

  lemma AgreeingTerms(env: Env, t1: seq<Term>, t2: seq<Term>, rows: set<Event>)
    requires EndsWithId(t1) && EndsWithId(t2) && DistinctIds(rows)
    requires forall a, b | a in rows && b in rows && a != b :: RowBefore(env, t1, a, b) <==> RowBefore(env, t2, a, b)
    ensures Listing(env, t1, rows) == Listing(env, t2, rows)
  {
    hide RowBefore;
    var l1, l2 := Listing(env, t1, rows), Listing(env, t2, rows);
    forall i, k | 0 <= i < k < |l2| ensures RowBefore(env, t1, l2[i], l2[k]) {
      assert RowBefore(env, t2, l2[i], l2[k]);
      if l2[i] == l2[k] { Irreflexive(env, t2, l2[i]); }
      assert l2[i] in rows && l2[k] in rows;
    }
    ListingIsUnique(env, t1, l1, l2);
  }

  lemma TiedPrices(env: Env, f: Filters, restrict: Option<seq<nat>>, now: int, a: Event, b: Event)
    requires Sensible(env) && f.status.None? && PricesTie(f)
    requires Wanted(env, f, restrict, now, a) && Wanted(env, f, restrict, now, b)
    ensures RowBefore(env, Ordering(f), a, b) <==> RowBefore(env, Ordering(AsUpcoming(f)), a, b)
  {
    hide RowBefore, Ordering;
    PriceOrder(env, f, a, b);
    PriceOrder(env, AsUpcoming(f), a, b);
  }

  lemma SelectedAgree(env: Env, f: Filters, restrict: Option<seq<nat>>, now: int, a: Event, b: Event)
    requires Sensible(env) && f.status.None? && a.id != b.id
    requires SameDirection(f) || PricesTie(f) || SelectsAtMostOne(f, restrict)
    requires Wanted(env, f, restrict, now, a) && Wanted(env, f, restrict, now, b)
    ensures RowBefore(env, Ordering(f), a, b) <==> RowBefore(env, Ordering(AsUpcoming(f)), a, b)
  {
    hide RowBefore;
    if SameDirection(f) {
      SameOrderAsUpcoming(env, f);
      assert Ordering(AsUpcoming(f)) == Ordering(f.(status := Some(Upcoming)));
    } else if PricesTie(f) {
      TiedPrices(env, f, restrict, now, a, b);
    }
  }

  lemma ListsAlike(env: Env, f: Filters, restrict: Option<seq<nat>>, now: int, table: set<Event>)
    requires Sensible(env) && f.status.None? && f.hideExpired == Some(true) && DistinctIds(table)
    requires SameDirection(f) || PricesTie(f) || SelectsAtMostOne(f, restrict)
    ensures ListingOf(env, f, restrict, now, table) == ListingOf(env, AsUpcoming(f), restrict, now, table)
  {
    hide RowBefore, Wanted, Listing, Ordering;
    HideExpiredIsUpcoming(env, f, restrict, now, table);
    OrderingEndsWithId(f);
    OrderingEndsWithId(AsUpcoming(f));
    var rows := Matches(env, f, restrict, now, table);
    forall a, b | a in rows && b in rows && a != b
      ensures RowBefore(env, Ordering(f), a, b) <==> RowBefore(env, Ordering(AsUpcoming(f)), a, b)
    {
      ClausesMeanWanted(env, f, restrict, now, a);
      ClausesMeanWanted(env, f, restrict, now, b);
      SelectedAgree(env, f, restrict, now, a, b);
    }
    AgreeingTerms(env, Ordering(f), Ordering(AsUpcoming(f)), rows);
  }

  /** Recorded prices that are not negative tie under an upper bound of zero too. */
  lemma ZeroBoundListsAlike(env: Env, f: Filters, restrict: Option<seq<nat>>, now: int, table: set<Event>)
    requires Sensible(env) && f.status.None? && f.hideExpired == Some(true) && DistinctIds(table)
    requires f.orderBy == ByPrice && f.priceTo == Some(0.0) && forall row | row in table :: PriceOf(row) >= 0.0
    ensures ListingOf(env, f, restrict, now, table) == ListingOf(env, AsUpcoming(f), restrict, now, table)
  {
    hide RowBefore, Listing, Ordering;
    HideExpiredIsUpcoming(env, f, restrict, now, table);
    OrderingEndsWithId(f);
    OrderingEndsWithId(AsUpcoming(f));
    var rows := Matches(env, f, restrict, now, table);
    forall a, b | a in rows && b in rows && a != b
      ensures RowBefore(env, Ordering(f), a, b) <==> RowBefore(env, Ordering(AsUpcoming(f)), a, b)
    {
      ClausesMeanWanted(env, f, restrict, now, a);
      ClausesMeanWanted(env, f, restrict, now, b);
      PriceOrder(env, f, a, b);
      PriceOrder(env, AsUpcoming(f), a, b);
    }
    AgreeingTerms(env, Ordering(f), Ordering(AsUpcoming(f)), rows);
  }

  // ---- Otherwise two events tell them apart ----

  lemma TwoEventsDiffer(env: Env, f: Filters, restrict: Option<seq<nat>>, now: int, a: Event, b: Event)
    requires Sensible(env) && f.status.None? && f.hideExpired == Some(true) && a.id != b.id
    requires Wanted(env, f, restrict, now, a) && Wanted(env, f, restrict, now, b)
    requires RowBefore(env, Ordering(f), a, b) && RowBefore(env, Ordering(AsUpcoming(f)), b, a)
    ensures !ListsLikeUpcoming(env, f, restrict, now)
  {
    hide RowBefore, Wanted, Listing, Ordering;
    var table := {a, b};
    assert DistinctIds(table);
    HideExpiredIsUpcoming(env, f, restrict, now, table);
    ClausesMeanWanted(env, f, restrict, now, a);
    ClausesMeanWanted(env, f, restrict, now, b);
    var one, two := ListingOf(env, f, restrict, now, table), ListingOf(env, AsUpcoming(f), restrict, now, table);
    assert a in one && b in one && a in two && b in two;
    if one == two {
      var i :| 0 <= i < |one| && one[i] == a;
      var k :| 0 <= k < |one| && one[k] == b;
      if i < k {
        Transitive(env, Ordering(AsUpcoming(f)), a, b, a);
        Irreflexive(env, Ordering(AsUpcoming(f)), a);
      } else {
        Transitive(env, Ordering(f), a, b, a);
        Irreflexive(env, Ordering(f), a);
      }
    }
  }

  function Larger(a: int, b: int): int { if a >= b then a else b }

  /** A start that the last-date bound admits. */
  function SampleStart(f: Filters): int { if f.endDate.Some? then EndOfDay(f.endDate.value) else 0 }

  /** An end after now, after that start and after the first-date bound. */
  function SampleEnd(f: Filters, now: int): int {
    Larger(now, Larger(SampleStart(f), if f.startDate.Some? then f.startDate.value else 0)) + 2 * DAY
  }

  function SamplePrice(f: Filters): real {
    if f.free == Some(true) then 0.0
    else if f.priceFrom.Some? then f.priceFrom.value
    else if f.priceTo.Some? then f.priceTo.value
    else 0.0
  }

  /** An event that is still going on and fits dates, category and place. */
  function Sample(f: Filters, now: int, id: nat, title: string, city: string, start: Option<int>, popularity: int,
                  price: real, ticket: Option<string>): Event
  {
    Event(id, title, start, Some(SampleEnd(f, now)), popularity, Some(price), None, f.category, Some(city), None,
          None, ticket, None)
  }

  ghost predicate Fits(env: Env, f: Filters, title: string, city: string) {
    && (GivenText(f.search) ==> env.contains(env.unaccent(title), env.unaccent(f.search.value)))
    && (f.location.Some? && f.location.value != [] ==> env.contains(city, f.location.value[0]))
  }

  lemma FittingTexts(env: Env, f: Filters) returns (title: string, city: string)
    requires Findable(env)
    ensures Fits(env, f, title, city)
  {
    title, city := "", "";
    if GivenText(f.search) {
      assert OccursInTitle(env, f.search.value);
      title :| env.contains(env.unaccent(title), env.unaccent(f.search.value));
    }
    if f.location.Some? && f.location.value != [] {
      assert OccursInPlace(env, f.location.value[0]);
      city :| env.contains(city, f.location.value[0]);
    }
  }

  lemma SampleGoesOn(env: Env, f: Filters, now: int)
    requires Sparse(env.zone)
    ensures Instant(env.zone, Naive(SampleEnd(f, now))) > now
  {
    hide Sparse, WallIndex, OffsetIn;
    var w := SampleEnd(f, now);
    OffsetsBounded(env.zone, WallIndex(env.zone, w, false));
    OffsetsBounded(env.zone, WallIndex(env.zone, w, true));
  }

  lemma SampleIsWanted(env: Env, f: Filters, restrict: Option<seq<nat>>, now: int, row: Event)
    requires Sparse(env.zone) && Sensible(env) && f.status.None?
    requires row == Sample(f, now, row.id, row.title, if row.city.Some? then row.city.value else "", row.startTime,
                           row.popularity, PriceOf(row), row.ticketUrl)
    requires restrict.Some? ==> row.id in restrict.value
    requires Fits(env, f, row.title, row.city.value)
    requires row.startTime == None || row.startTime == Some(SampleStart(f))
    requires f.priceFrom.Some? ==> PriceOf(row) >= f.priceFrom.value
    requires f.priceTo.Some? ==> PriceOf(row) <= f.priceTo.value
    requires f.free == Some(true) ==> PriceOf(row) == 0.0 && row.ticketUrl.None?
    ensures Wanted(env, f, restrict, now, row)
  {
    hide Sparse, Instant;
    SampleGoesOn(env, f, now);
    if f.location.Some? && f.location.value != [] {
      assert NearOne(env, f.location.value[0], row);
    }
  }

  lemma TwoIds(f: Filters, restrict: Option<seq<nat>>) returns (i: nat, k: nat)
    requires !SelectsAtMostOne(f, restrict)
    ensures i != k && (restrict.Some? ==> i in restrict.value && k in restrict.value)
  {
    if restrict.None? {
      i, k := 0, 1;
    } else {
      i, k :| i in restrict.value && k in restrict.value && i != k;
    }
  }

  /** Two prices inside the bounds. */
  lemma TwoPrices(f: Filters) returns (x: real, y: real)
    requires !f.Contradictory() && !(f.priceFrom.Some? && f.priceFrom == f.priceTo)
    ensures x < y
    ensures f.priceFrom.Some? ==> x >= f.priceFrom.value
    ensures f.priceTo.Some? ==> y <= f.priceTo.value
  {
    if f.priceFrom.Some? {
      x := f.priceFrom.value;
      y := if f.priceTo.Some? then f.priceTo.value else x + 1.0;
    } else {
      y := if f.priceTo.Some? then f.priceTo.value else 2.0;
      x := if y > 0.0 then y / 2.0 else y - 1.0;
    }
  }

  lemma PricesDiffer(env: Env, f: Filters, restrict: Option<seq<nat>>, now: int)
    requires Sensible(env) && Sparse(env.zone) && Findable(env) && !f.Contradictory()
    requires f.status.None? && f.hideExpired == Some(true) && f.orderBy == ByPrice
    requires f.orderDirection.None? && !PricesTie(f) && !SelectsAtMostOne(f, restrict)
    ensures !ListsLikeUpcoming(env, f, restrict, now)
  {
    hide RowBefore, Ordering, ListsLikeUpcoming, Wanted, Sparse;
    var title, city := FittingTexts(env, f);
    var i, k := TwoIds(f, restrict);
    var x, y := TwoPrices(f);
    var a := Sample(f, now, i, title, city, Some(SampleStart(f)), 0, y, Some("tickets"));
    var b := Sample(f, now, k, title, city, Some(SampleStart(f)), 0, x, Some("tickets"));
    SampleIsWanted(env, f, restrict, now, a);
    SampleIsWanted(env, f, restrict, now, b);
    PriceOrder(env, f, a, b);
    PriceOrder(env, AsUpcoming(f), b, a);
    TwoEventsDiffer(env, f, restrict, now, a, b);
  }

  lemma UnknownStartFirst(env: Env, f: Filters, a: Event, b: Event)
    requires f.orderBy == ByStartTime && f.SortDirection() == DESC && f.status.None?
    requires a.startTime.None? && b.startTime.Some?
    ensures RowBefore(env, Ordering(f), a, b)
  {
    StartTimeDescending(env, f, a, b);
  }

  lemma UnknownStartLast(env: Env, f: Filters, a: Event, b: Event)
    requires f.orderBy == ByStartTime && f.status.Some? && a.startTime.None? && b.startTime.Some?
    ensures RowBefore(env, Ordering(f), b, a)
  {
    if f.SortDirection() == DESC {
      StartTimeDescending(env, f, b, a);
    } else {
      StartTimeAscending(env, f, b, a);
    }
  }

  lemma OthersDiffer(env: Env, f: Filters, restrict: Option<seq<nat>>, now: int)
    requires Sensible(env) && Sparse(env.zone) && Findable(env) && !f.Contradictory()
    requires f.status.None? && f.hideExpired == Some(true) && f.orderBy != ByPrice
    requires !SameDirection(f) && !SelectsAtMostOne(f, restrict)
    ensures !ListsLikeUpcoming(env, f, restrict, now)
  {
    hide RowBefore, Ordering, ListsLikeUpcoming, Wanted, Sparse;
    var title, city := FittingTexts(env, f);
    var i, k := TwoIds(f, restrict);
    var start := if f.orderBy.ByStartTime? then None else Some(SampleStart(f));
    var a := Sample(f, now, i, title, city, start, 1, SamplePrice(f), None);
    var b := Sample(f, now, k, title, city, Some(SampleStart(f)), 0, SamplePrice(f), None);
    SampleIsWanted(env, f, restrict, now, a);
    SampleIsWanted(env, f, restrict, now, b);
    if f.orderBy.ByStartTime? {
      UnknownStartFirst(env, f, a, b);
      UnknownStartLast(env, AsUpcoming(f), a, b);
    } else {
      PopularityOrder(env, f, a, b);
      PopularityOrder(env, AsUpcoming(f), b, a);
    }
    TwoEventsDiffer(env, f, restrict, now, a, b);
  }

  lemma GivenDirection(f: Filters)
    requires f.orderBy == ByPrice
    ensures f.orderDirection.Some? <==> SameDirection(f)
  {
    if f.orderDirection.Some? {
      assert f.orderDirection.value.ASC? || f.orderDirection.value.DESC?;
    }
  }

  /**
   * For all parameters: hideExpired=true lists every table as status=upcoming does exactly if the
   * direction is given in a form that agrees, or the order is by price and all prices tie, or the
   * parameters cannot select two events.
   */
  lemma ListsLikeUpcomingIff(env: Env, f: Filters, restrict: Option<seq<nat>>, now: int)
    requires Sensible(env) && Sparse(env.zone) && Findable(env) && f.Valid()
    requires f.status.None? && f.hideExpired == Some(true)
    ensures ListsLikeUpcoming(env, f, restrict, now) <==>
              SameDirection(f) || PricesTie(f) || SelectsAtMostOne(f, restrict)
  {
    hide Listing, Sparse, Findable;
    if SameDirection(f) || PricesTie(f) || SelectsAtMostOne(f, restrict) {
      forall table | DistinctIds(table)
        ensures ListingOf(env, f, restrict, now, table) == ListingOf(env, AsUpcoming(f), restrict, now, table)
      {
        ListsAlike(env, f, restrict, now, table);
      }
    } else if f.orderBy.ByPrice? {
      GivenDirection(f);
      PricesDiffer(env, f, restrict, now);
    } else {
      OthersDiffer(env, f, restrict, now);
    }
  }

  /** With no other filter only the direction matters. */
  lemma PlainListingsAgreeIff(env: Env, f: Filters, now: int)
    requires Sensible(env) && Sparse(env.zone) && Findable(env) && f.Valid()
    requires f.status.None? && f.hideExpired == Some(true)
    requires f.free != Some(true) && f.priceFrom.None? && f.priceTo.None?
    ensures ListsLikeUpcoming(env, f, None, now) <==> SameDirection(f)
  {
    ListsLikeUpcomingIff(env, f, None, now);
  }
}
