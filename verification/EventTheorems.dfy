/** Classification and windowing of events: what the filters promise together. */
module EventTheorems {
  import opened Prelude
  import opened LocalTime
  import opened EventQuery

  // ---- Past ----

  /** An event that is past stays past, although the local clock goes back in autumn. */
  lemma PastIsPermanent(env: Env, row: Event, now: int, later: int)
    requires Sparse(env.zone) && KeepsDate(env.zone) && now <= later
    requires PastSql(env, row, now).Yes?
    ensures PastSql(env, row, later).Yes?
  {
    hide Sparse, KeepsDate, PastSql, Date, Instant;
    PastIsTwoValued(env, row, now);
    PastIsTwoValued(env, row, later);
    DateRises(env.zone, now, later);
  }

  /** Without an end, past means that the date filter's effective end is at or before the local clock. */
  lemma PastMeetsEffectiveEnd(env: Env, row: Event, now: int)
    requires row.startTime.Some? && row.endTime.None?
    ensures PastSql(env, row, now).Yes? <==> EffectiveEnd(row).value <= Local(env.zone, now)
  {
  }

  /** What past means, in terms of the end instant and of calendar days. */
  lemma PastMeans(env: Env, row: Event, now: int)
    ensures row.endTime.Some? ==>
              (PastSql(env, row, now).Yes? <==> Instant(env.zone, Naive(row.endTime.value)) <= now)
    ensures row.endTime.None? && row.startTime.Some? ==>
              (PastSql(env, row, now).Yes? <==> row.startTime.value / DAY < Local(env.zone, now) / DAY)
    ensures row.endTime.None? && row.startTime.None? ==> PastSql(env, row, now).No?
  {
    DayBounds(Local(env.zone, now));
    if row.startTime.Some? { DayBounds(row.startTime.value); }
  }

  // ---- Days and windows ----

  /** The midnights around a wall time. */
  lemma DayBounds(w: int)
    ensures DayOf(w) == w / DAY && DayStart(w) == w - w % DAY
    ensures DayStart(w) <= w <= EndOfDay(w) < DayStart(w) + DAY
    ensures EndOfDay(w) + 1 == (w / DAY + 1) * DAY
  {
  }

  /** An end date takes in its whole day: a known start passes iff its day is no later. */
  lemma EndDateIsInclusive(env: Env, row: Event, date: int)
    requires row.startTime.Some?
    ensures Eval(env, StartsBy(date), row).Yes? <==> row.startTime.value / DAY <= date / DAY
    ensures Eval(env, StartsBy(date), row).Yes? <==> row.startTime.value < (date / DAY + 1) * DAY
  {
    DayBounds(date);
    DayBounds(row.startTime.value);
  }

  /** The active period ends at the recorded end, or else at the midnight after the start. */
  lemma EffectiveEndMeans(row: Event)
    ensures row.endTime.Some? ==> EffectiveEnd(row) == row.endTime
    ensures row.endTime.None? && row.startTime.Some? ==>
              EffectiveEnd(row).Some? && EffectiveEnd(row).value % DAY == 0
              && row.startTime.value < EffectiveEnd(row).value <= row.startTime.value + DAY
    ensures row.endTime.None? && row.startTime.None? ==> EffectiveEnd(row).None?
  {
    if row.startTime.Some? {
      DayBounds(row.startTime.value);
      MultipleOfDay(row.startTime.value / DAY + 1);
    }
  }

  lemma MultipleOfDay(n: int)
    ensures (n * DAY) % DAY == 0
  {
  }

  /** The event is going on at t: it starts then, or it runs from its start to its end or the next midnight. */
  predicate ActiveAt(row: Event, t: int)
    requires row.startTime.Some?
  {
    var start := row.startTime.value;
    t == start || start <= t < (if row.endTime.Some? then row.endTime.value else (start / DAY + 1) * DAY)
  }

  /** Some moment from one time up to, and without, another. */
  ghost predicate MeetsWindow(row: Event, from: int, until: int)
    requires row.startTime.Some?
  {
    exists t :: from <= t < until && ActiveAt(row, t)
  }

  /** The midnight that ends the day of a date. */
  function NextMidnight(date: int): int { (date / DAY + 1) * DAY }

  predicate PassesDates(env: Env, row: Event, startDate: int, endDate: int) {
    Eval(env, ActiveFrom(startDate), row).Yes? && Eval(env, StartsBy(endDate), row).Yes?
  }

  lemma UnknownStartPasses(env: Env, row: Event, startDate: int, endDate: int)
    requires row.startTime.None?
    ensures PassesDates(env, row, startDate, endDate)
  {
  }

  /** The date clauses select the events active at some moment from the start date to the end of the end date's day. */
  lemma WindowOverlap(env: Env, row: Event, startDate: int, endDate: int)
    requires row.startTime.Some? && startDate < NextMidnight(endDate)
    ensures PassesDates(env, row, startDate, endDate) <==> MeetsWindow(row, startDate, NextMidnight(endDate))
  {
    var start := row.startTime.value;
    DayBounds(endDate);
    DayBounds(start);
    if PassesDates(env, row, startDate, endDate) {
      var t := if start >= startDate then start else startDate;
      assert startDate <= t < NextMidnight(endDate) && ActiveAt(row, t);
    }
  }

  function Lasting(start: int, end: int): Event {
    Event(0, "", Some(start), Some(end), 0, None, None, None, None, None, None, None, None)
  }

  /** That reading holds for all events exactly when the window is not inverted. */
  lemma OverlapNeedsOrderedWindow(env: Env, startDate: int, endDate: int)
    ensures (forall row: Event | row.startTime.Some? ::
               PassesDates(env, row, startDate, endDate) <==> MeetsWindow(row, startDate, NextMidnight(endDate)))
            <==> startDate < NextMidnight(endDate)
  {
    DayBounds(endDate);
    if startDate < NextMidnight(endDate) {
      forall row: Event | row.startTime.Some?
        ensures PassesDates(env, row, startDate, endDate) <==> MeetsWindow(row, startDate, NextMidnight(endDate))
      {
        WindowOverlap(env, row, startDate, endDate);
      }
    } else {
      var row := Lasting(NextMidnight(endDate) - 1, startDate + 1);
      assert PassesDates(env, row, startDate, endDate) && !MeetsWindow(row, startDate, NextMidnight(endDate));
    }
  }

  // ---- Prices ----

  /** An unrecorded price counts as zero: it passes every upper bound, but of the lower bounds only zero. */
  lemma UnknownPriceAndBounds(env: Env, row: Event, bound: real)
    requires row.priceFrom.None? && bound >= 0.0
    ensures Eval(env, PriceAtMost(bound), row).Yes?
    ensures Eval(env, PriceAtLeast(bound), row).Yes? <==> bound == 0.0
  {
  }

  /** A recorded price passes the bounds that it lies within. */
  lemma KnownPriceAndBounds(env: Env, row: Event, low: real, high: real)
    requires row.priceFrom.Some?
    ensures Eval(env, PriceAtLeast(low), row).Yes? && Eval(env, PriceAtMost(high), row).Yes? <==>
              low <= row.priceFrom.value <= high
  {
  }

  /** No evidence of costing money: in the database, and in Python where an empty text is no evidence. */
  lemma FreeMeans(env: Env, row: Event)
    requires Sensible(env)
    ensures var cheap := row.priceFrom in {None, Some(0.0)} && row.priceTo in {None, Some(0.0)}
                         && (row.description.Some? ==> !env.mentionsPrice(row.description.value));
            && (FreeSql(env, row).Yes? <==> cheap && row.ticketUrl.None? && row.ticketPurchaseNote.None?)
            && (FreePython(env, row) <==>
                  cheap && row.ticketUrl in {None, Some("")} && row.ticketPurchaseNote in {None, Some("")})
  {
  }

  // ---- Totals ----

  ghost predicate DistinctIds(table: set<Event>) {
    forall a, b | a in table && b in table && a.id == b.id :: a == b
  }

  function Matches(env: Env, f: Filters, restrict: Option<seq<nat>>, now: int, table: set<Event>): set<Event> {
    set row | row in table && Where(env, Clauses(f, restrict, now), row).Yes?
  }

  /** Past and upcoming split any listing: the two totals add up to the total of both. */
  lemma TotalsAddUp(env: Env, f: Filters, restrict: Option<seq<nat>>, now: int, table: set<Event>)
    requires Sensible(env) && f.status.None? && f.hideExpired != Some(true)
    ensures |Matches(env, f.(status := Some(Past)), restrict, now, table)|
            + |Matches(env, f.(status := Some(Upcoming)), restrict, now, table)|
            == |Matches(env, f, restrict, now, table)|
  {
    var past := Matches(env, f.(status := Some(Past)), restrict, now, table);
    var upcoming := Matches(env, f.(status := Some(Upcoming)), restrict, now, table);
    forall row | row in table
      ensures row in past <==> row in Matches(env, f, restrict, now, table) && Over(env, row, now)
      ensures row in upcoming <==> row in Matches(env, f, restrict, now, table) && !Over(env, row, now)
    {
      ClausesMeanWanted(env, f, restrict, now, row);
      ClausesMeanWanted(env, f.(status := Some(Past)), restrict, now, row);
      ClausesMeanWanted(env, f.(status := Some(Upcoming)), restrict, now, row);
    }
    assert past + upcoming == Matches(env, f, restrict, now, table);
    assert past !! upcoming;
  }

  /** The parameters with status=upcoming in place of hideExpired=true. */
  function AsUpcoming(f: Filters): Filters { f.(status := Some(Upcoming), hideExpired := None) }

  /** hideExpired=true selects the upcoming events. */
  lemma HideExpiredIsUpcoming(env: Env, f: Filters, restrict: Option<seq<nat>>, now: int, table: set<Event>)
    requires Sensible(env) && f.status.None? && f.hideExpired == Some(true)
    ensures Matches(env, f, restrict, now, table) == Matches(env, AsUpcoming(f), restrict, now, table)
  {
    forall row | row in table
      ensures row in Matches(env, f, restrict, now, table) <==> row in Matches(env, AsUpcoming(f), restrict, now, table)
    {
      ClausesMeanWanted(env, f, restrict, now, row);
      ClausesMeanWanted(env, AsUpcoming(f), restrict, now, row);
    }
  }

  /** Empty texts and lists, and flags that are off, select as if they were not given. */
  lemma EmptyParametersSelectAll(env: Env, f: Filters, restrict: Option<seq<nat>>, now: int, row: Event)
    ensures var w := Wanted(env, f, restrict, now, row);
            && (f.category.None? ==> Wanted(env, f.(category := Some("")), restrict, now, row) == w)
            && (f.location.None? ==> Wanted(env, f.(location := Some([])), restrict, now, row) == w)
            && (f.search.None? ==> Wanted(env, f.(search := Some("")), restrict, now, row) == w)
            && (f.hideExpired.None? ==> Wanted(env, f.(hideExpired := Some(false)), restrict, now, row) == w)
            && (f.free.None? ==> Wanted(env, f.(free := Some(false)), restrict, now, row) == w)
  {
  }

  /** free=true returns the rows flagged free, exactly if no such row carries an empty ticket text. */
  lemma FreeListsTheFlagged(env: Env, f: Filters, restrict: Option<seq<nat>>, now: int, table: set<Event>)
    requires Sensible(env) && f.free.None?
    ensures var all := Matches(env, f, restrict, now, table);
            Matches(env, f.(free := Some(true)), restrict, now, table) == (set row | row in all && FreePython(env, row))
            <==> forall row | row in all && FreePython(env, row) ::
                   row.ticketUrl != Some("") && row.ticketPurchaseNote != Some("")
  {
    var all := Matches(env, f, restrict, now, table);
    var free := Matches(env, f.(free := Some(true)), restrict, now, table);
    forall row | row in table ensures row in free <==> row in all && FreeInDatabase(env, row) {
      ClausesMeanWanted(env, f, restrict, now, row);
      ClausesMeanWanted(env, f.(free := Some(true)), restrict, now, row);
    }
    if forall row | row in all && FreePython(env, row) ::
         row.ticketUrl != Some("") && row.ticketPurchaseNote != Some("")
    {
      forall row ensures row in free <==> row in all && FreePython(env, row) {
        if row in all { FreeIsTwoValued(env, row); }
      }
    } else {
      var row :| row in all && FreePython(env, row)
                 && !(row.ticketUrl != Some("") && row.ticketPurchaseNote != Some(""));
      assert row !in free && row in (set r | r in all && FreePython(env, r));
    }
  }
}
