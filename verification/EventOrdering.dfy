/** app/events/repository.py: the order of a listing, and why it is one order. */
module EventOrdering {
  import opened Prelude
  import opened Sql
  import opened EventQuery

  datatype SortKey = StartIsNull | LongEvent | StartTime | Popularity | FreeFlag | PriceIsUnknown | PriceOrZero | Id

  /** One ORDER BY term; PostgreSQL puts NULL last in ascending and first in descending order by default. */
  datatype Term = Term(key: SortKey, direction: Direction, nullsLast: bool)

  function Directed(key: SortKey, d: Direction): Term { Term(key, d, d.ASC?) }
  function NullsLast(t: Term): Term { t.(nullsLast := true) }

  function Flag(t: Truth): Option<real> { Some(Case(t, 1.0, 0.0)) }

  /** The value of a term; only times can be NULL. */
  function Value(env: Env, key: SortKey, row: Event): Option<real> {
    match key
    case StartIsNull => Flag(Is(row.startTime.None?))
    case LongEvent => Flag(Less(Plus(row.startTime, env.longEventDays * DAY), row.endTime))
    case StartTime => if row.startTime.None? then None else Some(row.startTime.value as real)
    case Popularity => Some(row.popularity as real)
    case FreeFlag => Flag(FreeSql(env, row))
    case PriceIsUnknown => Flag(And(Is(row.priceFrom.None?), Not(FreeSql(env, row))))
    case PriceOrZero => Some(PriceOf(row))
    case Id => Some(row.id as real)
  }

  predicate ValueBefore(t: Term, x: Option<real>, y: Option<real>) {
    if x.None? || y.None? then
      x != y && (if t.nullsLast then y.None? else x.None?)
    else if t.direction.ASC? then x.value < y.value else y.value < x.value
  }

  /** Lexicographic order over the terms. */
  predicate RowBefore(env: Env, terms: seq<Term>, a: Event, b: Event)
    decreases |terms|
  {
    terms != [] &&
    var x, y := Value(env, terms[0].key, a), Value(env, terms[0].key, b);
    (ValueBefore(terms[0], x, y) || (x == y && RowBefore(env, terms[1..], a, b)))
  }

  function Column(o: OrderBy): SortKey {
    match o
    case ByStartTime => StartTime
    case ByPopularity => Popularity
    case ByPrice => PriceOrZero
  }

  predicate GroupsLongEvents(f: Filters) {
    f.orderBy == ByStartTime && f.SortDirection() == ASC
  }

  function Ordering(f: Filters): seq<Term> {
    if f.orderBy != ByPrice then
      var order := Directed(Column(f.orderBy), f.SortDirection());
      (if GroupsLongEvents(f) then [Directed(StartIsNull, ASC), Directed(LongEvent, ASC)] else [])
      + [if f.status.Some? then NullsLast(order) else order, Directed(Id, ASC)]
    else
      var sinkFree := f.priceFrom.Some? || f.priceTo.Some? || f.SortDirection() == DESC;
      [Directed(FreeFlag, if sinkFree then ASC else DESC), Directed(PriceIsUnknown, ASC),
       Directed(PriceOrZero, f.SortDirection()), Directed(Id, ASC)]
  }

  /** _apply_ordering. */
  method ApplyOrdering(f: Filters) returns (terms: seq<Term>)
    ensures terms == Ordering(f)
    ensures terms != [] && terms[|terms| - 1] == Directed(Id, ASC)
  {
    terms := [];
    if f.orderBy != ByPrice {
      if f.orderBy == ByStartTime && f.SortDirection() == ASC {
        terms := terms + [Directed(StartIsNull, ASC), Directed(LongEvent, ASC)];
      }
      var order := Directed(Column(f.orderBy), f.SortDirection());
      if f.status.Some? {
        order := NullsLast(order);
      }
      return terms + [order, Directed(Id, ASC)];
    }
    var hasPriceBound := f.priceFrom.Some? || f.priceTo.Some?;
    var sinkFree := hasPriceBound || f.SortDirection() == DESC;
    var freeLast := if sinkFree then ASC else DESC;
    terms := [Directed(FreeFlag, freeLast), Directed(PriceIsUnknown, ASC),
              Directed(PriceOrZero, f.SortDirection()), Directed(Id, ASC)];
  }

  // ---- One strict total order for every combination ----

  lemma {:induction false} Irreflexive(env: Env, terms: seq<Term>, a: Event)
    ensures !RowBefore(env, terms, a, a)
    decreases |terms|
  {
    if terms != [] { Irreflexive(env, terms[1..], a); }
  }

  lemma {:induction false} Transitive(env: Env, terms: seq<Term>, a: Event, b: Event, c: Event)
    requires RowBefore(env, terms, a, b) && RowBefore(env, terms, b, c)
    ensures RowBefore(env, terms, a, c)
    decreases |terms|
  {
    var x, y := Value(env, terms[0].key, a), Value(env, terms[0].key, b);
    if x == y && y == Value(env, terms[0].key, c) { Transitive(env, terms[1..], a, b, c); }
  }

  lemma {:induction false} Connected(env: Env, terms: seq<Term>, a: Event, b: Event)
    requires terms != [] && terms[|terms| - 1] == Directed(Id, ASC) && a.id != b.id
    ensures RowBefore(env, terms, a, b) || RowBefore(env, terms, b, a)
    decreases |terms|
  {
    if |terms| > 1 && Value(env, terms[0].key, a) == Value(env, terms[0].key, b) {
      Connected(env, terms[1..], a, b);
    }
  }

  /** Every combination of parameters orders events with different ids strictly and totally. */
  lemma StrictTotalOrder(env: Env, f: Filters, a: Event, b: Event, c: Event)
    ensures !RowBefore(env, Ordering(f), a, a)
    ensures RowBefore(env, Ordering(f), a, b) && RowBefore(env, Ordering(f), b, c) ==> RowBefore(env, Ordering(f), a, c)
    ensures a.id != b.id ==> (RowBefore(env, Ordering(f), a, b) <==> !RowBefore(env, Ordering(f), b, a))
  {
    var terms := Ordering(f);
    Irreflexive(env, terms, a);
    if RowBefore(env, terms, a, b) && RowBefore(env, terms, b, c) { Transitive(env, terms, a, b, c); }
    if RowBefore(env, terms, a, b) && RowBefore(env, terms, b, a) { Transitive(env, terms, a, b, a); }
    if a.id != b.id { Connected(env, terms, a, b); }
  }

  // ---- startTime ASC ----

  /** Regular dated events, then events longer than the limit, then unknown starts. */
  function Block(env: Env, row: Event): nat {
    if row.startTime.None? then 2
    else if row.endTime.Some? && row.endTime.value > row.startTime.value + env.longEventDays * DAY then 1
    else 0
  }

  /** Inside a block: by start and id, or by id alone when the start is unknown. */
  predicate EarlierInBlock(a: Event, b: Event) {
    if a.startTime.None? || b.startTime.None? then a.id < b.id
    else a.startTime.value < b.startTime.value || (a.startTime.value == b.startTime.value && a.id < b.id)
  }

  lemma RealsKeepOrder(i: int, k: int)
    ensures (i as real) < (k as real) <==> i < k
    ensures (i as real) == (k as real) <==> i == k
  {
  }

  lemma StartTimeAscending(env: Env, f: Filters, a: Event, b: Event)
    requires GroupsLongEvents(f)
    ensures RowBefore(env, Ordering(f), a, b) <==>
              Block(env, a) < Block(env, b) || (Block(env, a) == Block(env, b) && EarlierInBlock(a, b))
  {
    var terms := Ordering(f);
    RealsKeepOrder(a.id, b.id);
    if a.startTime.Some? && b.startTime.Some? { RealsKeepOrder(a.startTime.value, b.startTime.value); }
    var t1, t2, t3 := terms[1..], terms[1..][1..], terms[1..][1..][1..];
    assert t3 == [Directed(Id, ASC)] && t2[0].key == StartTime && t2[0].direction == ASC && t2[0].nullsLast;
    assert t1[0] == Directed(LongEvent, ASC) && t3[1..] == [];
    assert RowBefore(env, t3, a, b) <==> a.id < b.id;
    assert RowBefore(env, t2, a, b) <==>
             if a.startTime.None? && b.startTime.None? then a.id < b.id
             else if a.startTime.None? || b.startTime.None? then b.startTime.None?
             else EarlierInBlock(a, b);
    assert RowBefore(env, terms, a, b) <==>
             ValueBefore(terms[0], Value(env, StartIsNull, a), Value(env, StartIsNull, b))
             || (Value(env, StartIsNull, a) == Value(env, StartIsNull, b) && RowBefore(env, t1, a, b));
  }

  // ---- startTime DESC and popularity ----

  /** startTime DESC is latest first, then by id; unknown starts lead, or trail where a status is given. */
  lemma StartTimeDescending(env: Env, f: Filters, a: Event, b: Event)
    requires f.orderBy == ByStartTime && f.SortDirection() == DESC
    ensures RowBefore(env, Ordering(f), a, b) <==>
              if a.startTime == b.startTime then a.id < b.id
              else if a.startTime.None? then f.status.None?
              else if b.startTime.None? then f.status.Some?
              else a.startTime.value > b.startTime.value
  {
    var terms := Ordering(f);
    RealsKeepOrder(a.id, b.id);
    if a.startTime.Some? && b.startTime.Some? { RealsKeepOrder(a.startTime.value, b.startTime.value); }
    assert terms[1..] == [Directed(Id, ASC)] && terms[1..][1..] == [];
    assert RowBefore(env, terms[1..], a, b) <==> a.id < b.id;
  }

  /** By popularity in the given direction, then by id. */
  lemma PopularityOrder(env: Env, f: Filters, a: Event, b: Event)
    requires f.orderBy == ByPopularity
    ensures RowBefore(env, Ordering(f), a, b) <==>
              if a.popularity == b.popularity then a.id < b.id
              else (a.popularity < b.popularity) == (f.SortDirection() == ASC)
  {
    var terms := Ordering(f);
    RealsKeepOrder(a.id, b.id);
    RealsKeepOrder(a.popularity, b.popularity);
    assert terms[1..] == [Directed(Id, ASC)] && terms[1..][1..] == [];
    assert RowBefore(env, terms[1..], a, b) <==> a.id < b.id;
  }

  // ---- hideExpired=true against status=upcoming ----

  function Priced(id: nat, start: Option<int>, popularity: int, price: real): Event {
    Event(id, "", start, None, popularity, Some(price), None, None, None, None, None, None, None)
  }

  /** Ties in a term are left to the terms after it. */
  lemma Tied(env: Env, terms: seq<Term>, a: Event, b: Event)
    requires terms != [] && Value(env, terms[0].key, a) == Value(env, terms[0].key, b)
    ensures RowBefore(env, terms, a, b) <==> RowBefore(env, terms[1..], a, b)
  {
  }

  ghost predicate SameOrder(env: Env, t1: seq<Term>, t2: seq<Term>) {
    forall a, b :: RowBefore(env, t1, a, b) <==> RowBefore(env, t2, a, b)
  }

  /** With no direction given, `upcoming` turns every order around. */
  lemma UpcomingTurnsAround(env: Env, f: Filters)
    requires f.status.None? && f.orderDirection.None?
    ensures !SameOrder(env, Ordering(f), Ordering(f.(status := Some(Upcoming))))
  {
    var a, b := Priced(0, Some(0), 0, 1.0), Priced(1, Some(1), 1, 2.0);
    var down, up := Ordering(f), Ordering(f.(status := Some(Upcoming)));
    if f.orderBy.ByPrice? {
      Tied(env, down, a, b);
      Tied(env, down[1..], a, b);
      Tied(env, up, a, b);
      Tied(env, up[1..], a, b);
    } else if f.orderBy.ByStartTime? {
      Tied(env, up, a, b);
      Tied(env, up[1..], a, b);
    }
    assert RowBefore(env, up, a, b) && !RowBefore(env, down, a, b);
  }

  /** Only `status` is read here: the terms with and without it order all events alike under this condition. */
  lemma SameOrderAsUpcoming(env: Env, f: Filters)
    requires f.status.None?
    ensures SameOrder(env, Ordering(f), Ordering(f.(status := Some(Upcoming)))) <==>
              f.orderDirection == Some(ASC) || (f.orderDirection == Some(DESC) && f.orderBy != ByStartTime)
  {
    var one, two := Ordering(f), Ordering(f.(status := Some(Upcoming)));
    if f.orderDirection.None? {
      UpcomingTurnsAround(env, f);
    } else if f.orderDirection == Some(ASC) || f.orderBy.ByPrice? {
      assert one == two;
    } else if f.orderBy.ByPopularity? {
      assert one[1..] == two[1..];
    } else {
      var a, b := Priced(0, None, 0, 1.0), Priced(1, Some(1), 1, 2.0);
      assert RowBefore(env, one, a, b) && !RowBefore(env, two, a, b);
    }
  }

  // ---- price ----

  predicate SinksFree(f: Filters) {
    f.priceFrom.Some? || f.priceTo.Some? || f.SortDirection() == DESC
  }

  predicate UnknownPrice(env: Env, row: Event) {
    row.priceFrom.None? && !FreeInDatabase(env, row)
  }

  /** Free events at one end, unknown prices after known ones, then the price, then the id. */
  predicate CheaperFirst(env: Env, f: Filters, a: Event, b: Event) {
    if FreeInDatabase(env, a) != FreeInDatabase(env, b) then FreeInDatabase(env, b) == SinksFree(f)
    else if UnknownPrice(env, a) != UnknownPrice(env, b) then UnknownPrice(env, b)
    else if PriceOf(a) != PriceOf(b) then (PriceOf(a) < PriceOf(b)) == (f.SortDirection() == ASC)
    else a.id < b.id
  }

  /** That is the order of price listings, both ways. */
  lemma PriceOrder(env: Env, f: Filters, a: Event, b: Event)
    requires Sensible(env) && f.orderBy == ByPrice
    ensures RowBefore(env, Ordering(f), a, b) <==> CheaperFirst(env, f, a, b)
  {
    FreeIsTwoValued(env, a);
    FreeIsTwoValued(env, b);
    RealsKeepOrder(a.id, b.id);
    var terms := Ordering(f);
    var t1, t2, t3 := terms[1..], terms[1..][1..], terms[1..][1..][1..];
    assert t1[0] == Directed(PriceIsUnknown, ASC) && t2[0] == Directed(PriceOrZero, f.SortDirection());
    assert t3 == [Directed(Id, ASC)] && t3[1..] == [];
    assert RowBefore(env, t3, a, b) <==> a.id < b.id;
    assert RowBefore(env, t2, a, b) <==>
             if PriceOf(a) != PriceOf(b) then (PriceOf(a) < PriceOf(b)) == (f.SortDirection() == ASC) else a.id < b.id;
    assert RowBefore(env, t1, a, b) <==>
             if UnknownPrice(env, a) != UnknownPrice(env, b) then UnknownPrice(env, b) else RowBefore(env, t2, a, b);
    assert Value(env, FreeFlag, a) == Value(env, FreeFlag, b) <==> FreeInDatabase(env, a) == FreeInDatabase(env, b);
  }

  /** Free events sink when a bound is set or the order descends; unknown prices trail the priced ones. */
  lemma PriceGroups(env: Env, f: Filters, a: Event, b: Event)
    requires Sensible(env) && f.orderBy == ByPrice && RowBefore(env, Ordering(f), a, b)
    ensures var sinkFree := f.priceFrom.Some? || f.priceTo.Some? || f.SortDirection() == DESC;
            FreeInDatabase(env, if sinkFree then a else b) ==> FreeInDatabase(env, if sinkFree then b else a)
    ensures !FreeInDatabase(env, a) && !FreeInDatabase(env, b) && a.priceFrom.None? ==> b.priceFrom.None?
    ensures !FreeInDatabase(env, a) && !FreeInDatabase(env, b) && (a.priceFrom.None? <==> b.priceFrom.None?) ==>
              if f.SortDirection() == ASC then PriceOf(a) <= PriceOf(b) else PriceOf(a) >= PriceOf(b)
  {
    PriceOrder(env, f, a, b);
  }
}
