/** app/events/repository.py and app/events/schemas.py: which events a listing selects. */
module EventQuery {
  import opened Prelude
  import opened Sql
  import opened LocalTime

  datatype Event = Event(
    id: nat,
    title: string,
    startTime: Option<int>,
    endTime: Option<int>,
    popularity: int,
    priceFrom: Option<real>,
    priceTo: Option<real>,
    category: Option<string>,
    city: Option<string>,
    address: Option<string>,
    description: Option<string>,
    ticketUrl: Option<string>,
    ticketPurchaseNote: Option<string>)

  datatype Status = Upcoming | Past
  datatype Direction = ASC | DESC
  datatype OrderBy = ByStartTime | ByPopularity | ByPrice

  const MAX_PAGE_SIZE := 100

  /** Query parameters after field validation; dates are wall times. */
  datatype Filters = Filters(
    category: Option<string>,
    location: Option<seq<string>>,
    startDate: Option<int>,
    endDate: Option<int>,
    priceFrom: Option<real>,
    priceTo: Option<real>,
    free: Option<bool>,
    search: Option<string>,
    hideExpired: Option<bool>,
    status: Option<Status>,
    page: nat,
    pageSize: nat,
    orderBy: OrderBy,
    orderDirection: Option<Direction>)
  {
    function SortDirection(): Direction {
      if orderDirection.Some? then orderDirection.value
      else if status == Some(Upcoming) then ASC else DESC
    }

    function PageOffset(): int { (page - 1) * pageSize }

    /** The combinations that the model validator rejects. */
    predicate Contradictory() {
      || (status == Some(Past) && hideExpired == Some(true))
      || (priceFrom.Some? && priceTo.Some? && priceFrom.value > priceTo.value)
    }

    predicate Valid() {
      page >= 1 && 1 <= pageSize <= MAX_PAGE_SIZE && !Contradictory()
    }
  }

  /** Without a given direction only the upcoming listing ascends. */
  lemma DefaultDirection(f: Filters)
    ensures f.orderDirection.None? ==> (f.SortDirection() == ASC <==> f.status == Some(Upcoming))
    ensures f.orderDirection.Some? ==> f.orderDirection == Some(f.SortDirection())
  {
  }

  /** A price and a state of the event that the status, expiry and price parameters all admit. */
  predicate Admits(f: Filters, past: bool, price: real) {
    && (f.status == Some(Past) ==> past) && (f.status == Some(Upcoming) ==> !past)
    && (f.hideExpired == Some(true) ==> !past)
    && (f.priceFrom.Some? ==> price >= f.priceFrom.value) && (f.priceTo.Some? ==> price <= f.priceTo.value)
  }

  /** The validator rejects exactly the combinations that no event could meet. */
  lemma RejectsTheImpossible(f: Filters)
    ensures f.Contradictory() <==> forall past: bool, price: real :: !Admits(f, past, price)
    ensures f.Valid() <==> f.page >= 1 && 1 <= f.pageSize <= 100
                           && exists past: bool, price: real :: Admits(f, past, price)
  {
    var price := if f.priceFrom.Some? then f.priceFrom.value else if f.priceTo.Some? then f.priceTo.value else 0.0;
    if !f.Contradictory() {
      assert Admits(f, f.status == Some(Past), price);
    }
  }

  /** normalize_event_date: bring a query date to the wall clock of the event columns. */
  function NormalizedDate(z: Zone, value: Option<InputTime>): Option<int> {
    if value.None? then None else Some(EventTime(z, value.value).wall)
  }

  /**
   * Aware dates become what the local clock shows at their instant, and naive dates keep their
   * reading; the result is the reading at the denoted instant unless the naive time is skipped.
   */
  lemma NormalisedReading(z: Zone, value: InputTime)
    requires Sparse(z)
    ensures var date := NormalizedDate(z, Some(value));
            && date == Some(if value.Zoned? then Local(z, value.instant) else value.wall)
            && (date == Some(Local(z, Instant(z, value))) <==> value.Zoned? || Shown(z, value.wall))
  {
    if value.Naive? { RoundTrip(z, value.wall); }
  }

  /** What the database and the configuration bring: the zone, text operators and the long-event limit. */
  datatype Env = Env(
    zone: Zone,
    contains: (string, string) -> bool,
    unaccent: string -> string,
    mentionsPrice: string -> bool,
    longEventDays: nat)

  // ---- Expressions ----

  function DayStart(w: int): int { DayOf(w) * DAY }

  /** date_trunc('day', start) + INTERVAL '1 day' where the end is missing. */
  function EffectiveEnd(row: Event): Option<int> {
    Coalesce(row.endTime, if row.startTime.None? then None else Some(DayStart(row.startTime.value) + DAY))
  }

  function EndOfDay(w: int): int { DayStart(w) + DAY - 1 }

  /** The stored end as an instant: AT TIME ZONE reads the repeated hour as event_time does. */
  function EndInstant(env: Env, row: Event): Option<int> {
    if row.endTime.None? then None else Some(Instant(env.zone, Naive(row.endTime.value)))
  }

  function PastSql(env: Env, row: Event, now: int): Truth {
    Case(Is(row.endTime.Some?),
         AtMost(EndInstant(env, row), Some(now)),
         And(Is(row.startTime.Some?), Less(row.startTime, Some(Midnight(env.zone, now)))))
  }

  function Like(env: Env, text: Option<string>, needle: string): Truth {
    if text.None? then Null else Is(env.contains(text.value, needle))
  }

  function PriceOf(row: Event): real { if row.priceFrom.None? then 0.0 else row.priceFrom.value }

  function ZeroSql(p: Option<real>): Truth {
    Or(Is(p.None?), if p.None? then Null else Is(p.value == 0.0))
  }

  /** Event.is_free as a SQL expression. */
  function FreeSql(env: Env, row: Event): Truth {
    And(ZeroSql(row.priceFrom), And(ZeroSql(row.priceTo), And(Is(row.ticketUrl.None?),
      And(Is(row.ticketPurchaseNote.None?),
        Or(Is(row.description.None?),
           Not(if row.description.None? then Null else Is(env.mentionsPrice(row.description.value))))))))
  }

  predicate Blank(s: Option<string>) { s.None? || s.value == "" }
  predicate Zero(p: Option<real>) { p.None? || p.value == 0.0 }

  /** Event.is_free in Python: truthiness instead of IS NULL. */
  predicate FreePython(env: Env, row: Event) {
    && Zero(row.priceFrom) && Zero(row.priceTo)
    && Blank(row.ticketUrl) && Blank(row.ticketPurchaseNote)
    && !env.mentionsPrice(if row.description.None? then "" else row.description.value)
  }

  // ---- WHERE ----

  datatype Clause =
    | IdIn(ids: seq<nat>)
    | CategoryIs(category: string)
    | AnyLocation(names: seq<string>)
    | ActiveFrom(date: int)
    | StartsBy(date: int)
    | TitleLike(needle: string)
    | IsPast(now: int)
    | IsNotPast(now: int)
    | PriceAtLeast(price: real)
    | PriceAtMost(price: real)
    | IsFree

  function LocationSql(env: Env, names: seq<string>, row: Event): Truth
    decreases |names|
  {
    if names == [] then No
    else
      var n := |names| - 1;
      Or(LocationSql(env, names[..n], row),
         Or(Like(env, row.city, names[n]), Like(env, row.address, names[n])))
  }

  function Eval(env: Env, c: Clause, row: Event): Truth {
    match c
    case IdIn(ids) => Is(row.id in ids)
    case CategoryIs(category) => if row.category.None? then Null else Is(row.category.value == category)
    case AnyLocation(names) => LocationSql(env, names, row)
    case ActiveFrom(date) =>
      Or(AtMost(Some(date), row.startTime), Or(Less(Some(date), EffectiveEnd(row)), Is(row.startTime.None?)))
    case StartsBy(date) => Or(AtMost(row.startTime, Some(EndOfDay(date))), Is(row.startTime.None?))
    case TitleLike(needle) => Is(env.contains(env.unaccent(row.title), env.unaccent(needle)))
    case IsPast(now) => PastSql(env, row, now)
    case IsNotPast(now) => Not(PastSql(env, row, now))
    case PriceAtLeast(price) => Is(PriceOf(row) >= price)
    case PriceAtMost(price) => Is(PriceOf(row) <= price)
    case IsFree => FreeSql(env, row)
  }

  /** The conjunction of all clauses. */
  function Where(env: Env, clauses: seq<Clause>, row: Event): Truth
    decreases |clauses|
  {
    if clauses == [] then Yes
    else And(Where(env, clauses[..|clauses| - 1], row), Eval(env, clauses[|clauses| - 1], row))
  }

  lemma {:induction false} WhereIsAll(env: Env, clauses: seq<Clause>, row: Event)
    ensures Where(env, clauses, row).Yes? <==> forall c | c in clauses :: Eval(env, c, row).Yes?
    decreases |clauses|
  {
    if clauses != [] {
      var n := |clauses| - 1;
      WhereIsAll(env, clauses[..n], row);
      assert clauses == clauses[..n] + [clauses[n]];
    }
  }

  /** A text parameter is present and not empty. */
  predicate GivenText(s: Option<string>)
    ensures GivenText(s) ==> s.Some?
  {
    s.Some? && s.value != ""
  }

  const STEPS := 10

  /** The clause that the i-th parameter contributes, in the order in which they are appended. */
  function Contribution(f: Filters, restrict: Option<seq<nat>>, now: int, i: nat): Option<Clause>
    requires i < STEPS
  {
    match i
    case 0 => if restrict.Some? then Some(IdIn(restrict.value)) else None
    case 1 => if GivenText(f.category) then Some(CategoryIs(f.category.value)) else None
    case 2 => if f.location.Some? && f.location.value != [] then Some(AnyLocation(f.location.value)) else None
    case 3 => if f.startDate.Some? then Some(ActiveFrom(f.startDate.value)) else None
    case 4 => if f.endDate.Some? then Some(StartsBy(f.endDate.value)) else None
    case 5 => if GivenText(f.search) then Some(TitleLike(f.search.value)) else None
    case 6 =>
      if f.status.None? && f.hideExpired != Some(true) then None
      else if f.status == Some(Past) then Some(IsPast(now)) else Some(IsNotPast(now))
    case 7 => if f.priceFrom.Some? then Some(PriceAtLeast(f.priceFrom.value)) else None
    case 8 => if f.priceTo.Some? then Some(PriceAtMost(f.priceTo.value)) else None
    case _ => if f.free == Some(true) then Some(IsFree) else None
  }

  /** The clauses that the first k parameters contribute. */
  function ClausesUpTo(f: Filters, restrict: Option<seq<nat>>, now: int, k: nat): seq<Clause>
    requires k <= STEPS
  {
    if k == 0 then []
    else
      var c := Contribution(f, restrict, now, k - 1);
      var before := ClausesUpTo(f, restrict, now, k - 1);
      if c.Some? then before + [c.value] else before
  }

  function Clauses(f: Filters, restrict: Option<seq<nat>>, now: int): seq<Clause> {
    ClausesUpTo(f, restrict, now, STEPS)
  }

  /** _build_filters. */
  method BuildFilters(f: Filters, restrict: Option<seq<nat>>, now: int) returns (clauses: seq<Clause>)
    ensures clauses == Clauses(f, restrict, now)
  {
    hide ClausesUpTo;
    NothingYet(f, restrict, now);
    clauses := [];
    if restrict.Some? {
      Contributed(f, restrict, now, 0, IdIn(restrict.value));
      clauses := clauses + [IdIn(restrict.value)];
    } else {
      Skipped(f, restrict, now, 0);
    }
    assert clauses == ClausesUpTo(f, restrict, now, 1);
    if f.category.Some? && f.category.value != "" {
      Contributed(f, restrict, now, 1, CategoryIs(f.category.value));
      clauses := clauses + [CategoryIs(f.category.value)];
    } else {
      Skipped(f, restrict, now, 1);
    }
    assert clauses == ClausesUpTo(f, restrict, now, 2);
    if f.location.Some? && f.location.value != [] {
      Contributed(f, restrict, now, 2, AnyLocation(f.location.value));
      clauses := clauses + [AnyLocation(f.location.value)];
    } else {
      Skipped(f, restrict, now, 2);
    }
    assert clauses == ClausesUpTo(f, restrict, now, 3);
    if f.startDate.Some? {
      Contributed(f, restrict, now, 3, ActiveFrom(f.startDate.value));
      clauses := clauses + [ActiveFrom(f.startDate.value)];
    } else {
      Skipped(f, restrict, now, 3);
    }
    assert clauses == ClausesUpTo(f, restrict, now, 4);
    if f.endDate.Some? {
      Contributed(f, restrict, now, 4, StartsBy(f.endDate.value));
      clauses := clauses + [StartsBy(f.endDate.value)];
    } else {
      Skipped(f, restrict, now, 4);
    }
    assert clauses == ClausesUpTo(f, restrict, now, 5);
    clauses := AddTextTimeAndPrice(f, restrict, now, clauses);
  }

  /** The second half of _build_filters. */
  method AddTextTimeAndPrice(f: Filters, ghost restrict: Option<seq<nat>>, now: int, soFar: seq<Clause>)
    returns (clauses: seq<Clause>)
    requires soFar == ClausesUpTo(f, restrict, now, 5)
    ensures clauses == Clauses(f, restrict, now)
  {
    hide ClausesUpTo;
    clauses := soFar;
    if f.search.Some? && f.search.value != "" {
      Contributed(f, restrict, now, 5, TitleLike(f.search.value));
      clauses := clauses + [TitleLike(f.search.value)];
    } else {
      Skipped(f, restrict, now, 5);
    }
    assert clauses == ClausesUpTo(f, restrict, now, 6);
    if f.status.Some? || f.hideExpired == Some(true) {
      Contributed(f, restrict, now, 6, if f.status == Some(Past) then IsPast(now) else IsNotPast(now));
      clauses := clauses + [if f.status == Some(Past) then IsPast(now) else IsNotPast(now)];
    } else {
      Skipped(f, restrict, now, 6);
    }
    assert clauses == ClausesUpTo(f, restrict, now, 7);
    if f.priceFrom.Some? {
      Contributed(f, restrict, now, 7, PriceAtLeast(f.priceFrom.value));
      clauses := clauses + [PriceAtLeast(f.priceFrom.value)];
    } else {
      Skipped(f, restrict, now, 7);
    }
    assert clauses == ClausesUpTo(f, restrict, now, 8);
    if f.priceTo.Some? {
      Contributed(f, restrict, now, 8, PriceAtMost(f.priceTo.value));
      clauses := clauses + [PriceAtMost(f.priceTo.value)];
    } else {
      Skipped(f, restrict, now, 8);
    }
    assert clauses == ClausesUpTo(f, restrict, now, 9);
    if f.free == Some(true) {
      Contributed(f, restrict, now, 9, IsFree);
      clauses := clauses + [IsFree];
    } else {
      Skipped(f, restrict, now, 9);
    }
    assert clauses == ClausesUpTo(f, restrict, now, 10);
  }

  lemma NothingYet(f: Filters, restrict: Option<seq<nat>>, now: int)
    ensures ClausesUpTo(f, restrict, now, 0) == []
  {
  }

  lemma Contributed(f: Filters, restrict: Option<seq<nat>>, now: int, k: nat, c: Clause)
    requires k < STEPS && Contribution(f, restrict, now, k) == Some(c)
    ensures ClausesUpTo(f, restrict, now, k + 1) == ClausesUpTo(f, restrict, now, k) + [c]
  {
  }

  lemma Skipped(f: Filters, restrict: Option<seq<nat>>, now: int, k: nat)
    requires k < STEPS && Contribution(f, restrict, now, k).None?
    ensures ClausesUpTo(f, restrict, now, k + 1) == ClausesUpTo(f, restrict, now, k)
  {
  }

  // ---- What the parameters mean, without NULL logic ----

  /** The event is over: its end instant was reached, or without an end its start day has passed. */
  predicate Over(env: Env, row: Event, now: int) {
    if row.endTime.Some? then Instant(env.zone, Naive(row.endTime.value)) <= now
    else row.startTime.Some? && row.startTime.value < Midnight(env.zone, now)
  }

  predicate Near(env: Env, names: seq<string>, row: Event) {
    exists name | name in names :: NearOne(env, name, row)
  }

  predicate ReachesInto(row: Event, date: int) {
    row.startTime.None? || row.startTime.value >= date || EffectiveEnd(row).value > date
  }

  predicate FreeInDatabase(env: Env, row: Event) {
    FreePython(env, row) && row.ticketUrl.None? && row.ticketPurchaseNote.None?
  }

  /** The rows that a listing with these parameters is meant to show. */
  predicate Wanted(env: Env, f: Filters, restrict: Option<seq<nat>>, now: int, row: Event) {
    && (restrict.Some? ==> row.id in restrict.value)
    && (GivenText(f.category) ==> row.category == f.category)
    && (f.location.Some? && f.location.value != [] ==> Near(env, f.location.value, row))
    && (f.startDate.Some? ==> ReachesInto(row, f.startDate.value))
    && (f.endDate.Some? ==> row.startTime.None? || row.startTime.value <= EndOfDay(f.endDate.value))
    && (GivenText(f.search) ==> env.contains(env.unaccent(row.title), env.unaccent(f.search.value)))
    && (f.status == Some(Past) ==> Over(env, row, now))
    && (f.status == Some(Upcoming) || (f.status.None? && f.hideExpired == Some(true)) ==> !Over(env, row, now))
    && (f.priceFrom.Some? ==> PriceOf(row) >= f.priceFrom.value)
    && (f.priceTo.Some? ==> PriceOf(row) <= f.priceTo.value)
    && (f.free == Some(true) ==> FreeInDatabase(env, row))
  }

  /** The environment's price test finds nothing in an empty text. */
  predicate Sensible(env: Env) { !env.mentionsPrice("") }

  /** `past` is never NULL. */
  lemma PastIsTwoValued(env: Env, row: Event, now: int)
    ensures PastSql(env, row, now) == Is(Over(env, row, now))
  {
  }

  /** The SQL `is_free` is never NULL, and says when it differs from the Python flag. */
  lemma FreeIsTwoValued(env: Env, row: Event)
    requires Sensible(env)
    ensures FreeSql(env, row) == Is(FreeInDatabase(env, row))
    ensures (FreeSql(env, row).Yes? <==> FreePython(env, row)) <==>
              !(FreePython(env, row) && (row.ticketUrl == Some("") || row.ticketPurchaseNote == Some("")))
  {
  }

  predicate NearOne(env: Env, name: string, row: Event) {
    || (row.city.Some? && env.contains(row.city.value, name))
    || (row.address.Some? && env.contains(row.address.value, name))
  }

  lemma {:induction false} LocationIsNear(env: Env, names: seq<string>, row: Event)
    ensures LocationSql(env, names, row).Yes? <==> Near(env, names, row)
    ensures LocationSql(env, names, row).Yes? <==>
              exists i :: 0 <= i < |names| && ((row.city.Some? && env.contains(row.city.value, names[i]))
                                               || (row.address.Some? && env.contains(row.address.value, names[i])))
    decreases |names|
  {
    if names != [] {
      var n := |names| - 1;
      LocationIsNear(env, names[..n], row);
      assert names == names[..n] + [names[n]];
      assert Near(env, names, row) <==> Near(env, names[..n], row) || NearOne(env, names[n], row);
    }
  }

  /** A clause as two-valued logic. */
  predicate Meets(env: Env, c: Clause, row: Event) {
    match c
    case IdIn(ids) => row.id in ids
    case CategoryIs(category) => row.category == Some(category)
    case AnyLocation(names) => Near(env, names, row)
    case ActiveFrom(date) => ReachesInto(row, date)
    case StartsBy(date) => row.startTime.None? || row.startTime.value <= EndOfDay(date)
    case TitleLike(needle) => env.contains(env.unaccent(row.title), env.unaccent(needle))
    case IsPast(now) => Over(env, row, now)
    case IsNotPast(now) => !Over(env, row, now)
    case PriceAtLeast(price) => PriceOf(row) >= price
    case PriceAtMost(price) => PriceOf(row) <= price
    case IsFree => FreeInDatabase(env, row)
  }

  lemma ClauseMeans(env: Env, c: Clause, row: Event)
    requires Sensible(env)
    ensures Eval(env, c, row).Yes? <==> Meets(env, c, row)
  {
    match c
    case AnyLocation(names) => LocationIsNear(env, names, row);
    case IsFree => FreeIsTwoValued(env, row);
    case IsPast(now) => PastIsTwoValued(env, row, now);
    case IsNotPast(now) => PastIsTwoValued(env, row, now);
    case _ =>
  }

  lemma {:induction false} MembersUpTo(f: Filters, restrict: Option<seq<nat>>, now: int, k: nat, c: Clause)
    requires k <= STEPS
    ensures c in ClausesUpTo(f, restrict, now, k) <==>
              exists i :: 0 <= i < k && Contribution(f, restrict, now, i) == Some(c)
  {
    if k > 0 {
      MembersUpTo(f, restrict, now, k - 1, c);
    }
  }

  /** The i-th parameter's demand on a row. */
  predicate Demand(env: Env, f: Filters, restrict: Option<seq<nat>>, now: int, row: Event, i: nat)
    requires i < STEPS
  {
    var c := Contribution(f, restrict, now, i);
    c.Some? ==> Meets(env, c.value, row)
  }

  lemma DemandMeans(env: Env, f: Filters, restrict: Option<seq<nat>>, now: int, row: Event)
    ensures Demand(env, f, restrict, now, row, 0) <==> (restrict.Some? ==> row.id in restrict.value)
    ensures Demand(env, f, restrict, now, row, 1) <==> (GivenText(f.category) ==> row.category == f.category)
    ensures Demand(env, f, restrict, now, row, 2) <==>
             (f.location.Some? && f.location.value != [] ==> Near(env, f.location.value, row))
    ensures Demand(env, f, restrict, now, row, 3) <==> (f.startDate.Some? ==> ReachesInto(row, f.startDate.value))
    ensures Demand(env, f, restrict, now, row, 4) <==>
             (f.endDate.Some? ==> row.startTime.None? || row.startTime.value <= EndOfDay(f.endDate.value))
    ensures Demand(env, f, restrict, now, row, 5) <==>
             (GivenText(f.search) ==> env.contains(env.unaccent(row.title), env.unaccent(f.search.value)))
    ensures Demand(env, f, restrict, now, row, 6) <==>
             (f.status == Some(Past) ==> Over(env, row, now))
             && (f.status == Some(Upcoming) || (f.status.None? && f.hideExpired == Some(true)) ==> !Over(env, row, now))
    ensures Demand(env, f, restrict, now, row, 7) <==> (f.priceFrom.Some? ==> PriceOf(row) >= f.priceFrom.value)
    ensures Demand(env, f, restrict, now, row, 8) <==> (f.priceTo.Some? ==> PriceOf(row) <= f.priceTo.value)
    ensures Demand(env, f, restrict, now, row, 9) <==> (f.free == Some(true) ==> FreeInDatabase(env, row))
  {
    hide Over, Near, ReachesInto, FreeInDatabase;
    assert f.status.Some? ==> f.status.value.Past? || f.status.value.Upcoming?;
  }

  lemma WantedIsAllDemands(env: Env, f: Filters, restrict: Option<seq<nat>>, now: int, row: Event)
    ensures Wanted(env, f, restrict, now, row) <==> forall i | 0 <= i < STEPS :: Demand(env, f, restrict, now, row, i)
  {
    hide Over, Near, ReachesInto, FreeInDatabase, Contribution, Meets, Demand;
    DemandMeans(env, f, restrict, now, row);
  }

  /** The WHERE clause keeps exactly the wanted rows: NULL never lets one in or out by accident. */
  lemma ClausesMeanWanted(env: Env, f: Filters, restrict: Option<seq<nat>>, now: int, row: Event)
    requires Sensible(env)
    ensures Where(env, Clauses(f, restrict, now), row).Yes? <==> Wanted(env, f, restrict, now, row)
  {
    hide Where, ClausesUpTo, Contribution, Wanted, Eval, Meets;
    var clauses := Clauses(f, restrict, now);
    WhereIsAll(env, clauses, row);
    WantedIsAllDemands(env, f, restrict, now, row);
    forall c
      ensures c in clauses <==> exists i :: 0 <= i < STEPS && Contribution(f, restrict, now, i) == Some(c)
      ensures Eval(env, c, row).Yes? <==> Meets(env, c, row)
    {
      MembersUpTo(f, restrict, now, STEPS, c);
      ClauseMeans(env, c, row);
    }
    forall i | 0 <= i < STEPS
      ensures Contribution(f, restrict, now, i).Some? ==> Contribution(f, restrict, now, i).value in clauses
    {
      if Contribution(f, restrict, now, i).Some? {
        MembersUpTo(f, restrict, now, STEPS, Contribution(f, restrict, now, i).value);
      }
    }
    if forall i | 0 <= i < STEPS :: Demand(env, f, restrict, now, row, i) {
      forall c | c in clauses ensures Eval(env, c, row).Yes? {
        var i :| 0 <= i < STEPS && Contribution(f, restrict, now, i) == Some(c);
        assert Demand(env, f, restrict, now, row, i);
      }
    } else {
      var i :| 0 <= i < STEPS && !Demand(env, f, restrict, now, row, i);
      assert Contribution(f, restrict, now, i).value in clauses;
    }
  }
}
