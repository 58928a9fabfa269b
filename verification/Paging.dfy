/** app/events/repository.py: count_and_list, and how its pages make up the whole listing. */
module Paging {
  import opened Prelude
  import opened EventQuery
  import opened EventTheorems
  import opened EventOrdering

  // ---- The ordered listing ----

  ghost predicate Sorted(env: Env, terms: seq<Term>, rows: seq<Event>) {
    forall i, k | 0 <= i < k < |rows| :: RowBefore(env, terms, rows[i], rows[k])
  }

  ghost predicate IsFirst(env: Env, terms: seq<Term>, rows: set<Event>, first: Event) {
    first in rows && forall row | row in rows && row != first :: RowBefore(env, terms, first, row)
  }

  ghost predicate EndsWithId(terms: seq<Term>) {
    terms != [] && terms[|terms| - 1] == Directed(Id, ASC)
  }

  lemma {:induction false} FirstExists(env: Env, terms: seq<Term>, rows: set<Event>)
    requires EndsWithId(terms) && DistinctIds(rows) && rows != {}
    ensures exists first :: IsFirst(env, terms, rows, first)
  {
    var x :| x in rows;
    var rest := rows - {x};
    assert rows == rest + {x};
    if rest == {} {
      assert IsFirst(env, terms, rows, x);
    } else {
      FirstExists(env, terms, rest);
      var y :| IsFirst(env, terms, rest, y);
      Connected(env, terms, x, y);
      if RowBefore(env, terms, x, y) {
        forall row | row in rows && row != x ensures RowBefore(env, terms, x, row) {
          if row != y { Transitive(env, terms, x, y, row); }
        }
        assert IsFirst(env, terms, rows, x);
      } else {
        assert IsFirst(env, terms, rows, y);
      }
    }
  }

  /** The rows in the order of the terms. */
  ghost function Listing(env: Env, terms: seq<Term>, rows: set<Event>): (listing: seq<Event>)
    requires EndsWithId(terms) && DistinctIds(rows)
    ensures |listing| == |rows| && forall row :: row in listing <==> row in rows
    ensures Sorted(env, terms, listing)
    decreases |rows|
  {
    if rows == {} then []
    else
      FirstExists(env, terms, rows);
      var first :| IsFirst(env, terms, rows, first);
      var rest := Listing(env, terms, rows - {first});
      assert forall row | row in rest :: RowBefore(env, terms, first, row);
      [first] + rest
  }

  /** There is only one such order, so the database has no choice. */
  lemma {:induction false} ListingIsUnique(env: Env, terms: seq<Term>, l1: seq<Event>, l2: seq<Event>)
    requires Sorted(env, terms, l1) && Sorted(env, terms, l2)
    requires forall row :: row in l1 <==> row in l2
    ensures l1 == l2
    decreases |l1|
  {
    assert l2 == [] || l2[0] in l2;
    if l1 != [] {
      var x := l1[0];
      assert x in l2 && l2[0] in l1;
      if x != l2[0] {
        assert RowBefore(env, terms, x, l2[0]) && RowBefore(env, terms, l2[0], x);
        Transitive(env, terms, x, l2[0], x);
        Irreflexive(env, terms, x);
      }
      TailMembers(env, terms, l1);
      TailMembers(env, terms, l2);
      ListingIsUnique(env, terms, l1[1..], l2[1..]);
    }
  }

  lemma TailMembers(env: Env, terms: seq<Term>, l: seq<Event>)
    requires Sorted(env, terms, l) && l != []
    ensures forall row :: row in l[1..] <==> row in l && row != l[0]
    ensures Sorted(env, terms, l[1..])
  {
    forall k | 1 <= k < |l| ensures l[k] != l[0] { Irreflexive(env, terms, l[0]); }
    assert l == [l[0]] + l[1..];
  }

  // ---- count_and_list ----

  /** OFFSET and LIMIT. */
  function Page(listing: seq<Event>, offset: nat, limit: nat): seq<Event> {
    listing[Least(offset, |listing|)..Least(offset + limit, |listing|)]
  }

  datatype Counted = Counted(total: nat, rows: seq<Event>)

  ghost function CountAndList(env: Env, f: Filters, restrict: Option<seq<nat>>, now: int, table: set<Event>): Counted
    requires DistinctIds(table) && f.Valid()
  {
    if restrict == Some([]) then Counted(0, [])
    else
      OrderingEndsWithId(f);
      OffsetIsNatural(f);
      var matches := Matches(env, f, restrict, now, table);
      Counted(|matches|, Page(Listing(env, Ordering(f), matches), f.PageOffset(), f.pageSize))
  }

  lemma OrderingEndsWithId(f: Filters)
    ensures EndsWithId(Ordering(f))
  {
  }

  lemma OffsetIsNatural(f: Filters)
    requires f.Valid()
    ensures f.PageOffset() >= 0
  {
  }

  /** The first n pages of a listing, one after the other. */
  function FirstPages(listing: seq<Event>, size: nat, n: nat): seq<Event> {
    if n == 0 then [] else FirstPages(listing, size, n - 1) + Page(listing, (n - 1) * size, size)
  }

  lemma {:induction false} PagesArePrefix(listing: seq<Event>, size: nat, n: nat)
    ensures FirstPages(listing, size, n) == listing[..Least(n * size, |listing|)]
  {
    if n > 0 {
      PagesArePrefix(listing, size, n - 1);
      assert n * size == (n - 1) * size + size;
    }
  }

  /** How many pages a listing has: total / size, rounded up. */
  function PageCount(total: nat, size: nat): (n: nat)
    requires size > 0
  {
    (total + size - 1) / size
  }

  lemma PagesCover(total: nat, size: nat)
    requires size > 0
    ensures PageCount(total, size) * size >= total
    ensures total > 0 ==> (PageCount(total, size) - 1) * size < total
  {
  }

  /** What the clients collect by asking for pages 1 to n. */
  ghost function Collected(env: Env, f: Filters, restrict: Option<seq<nat>>, now: int, table: set<Event>,
                           n: nat): seq<Event>
    requires DistinctIds(table) && f.Valid()
  {
    if n == 0 then []
    else Collected(env, f, restrict, now, table, n - 1)
         + CountAndList(env, f.(page := n), restrict, now, table).rows
  }

  lemma {:induction false} CollectedArePages(env: Env, f: Filters, restrict: Option<seq<nat>>, now: int,
                                             table: set<Event>, n: nat)
    requires DistinctIds(table) && f.Valid() && restrict != Some([])
    ensures EndsWithId(Ordering(f))
    ensures Collected(env, f, restrict, now, table, n)
            == FirstPages(Listing(env, Ordering(f), Matches(env, f, restrict, now, table)), f.pageSize, n)
  {
    hide Listing, Matches, Ordering, Filters.Valid, Filters.PageOffset, RowBefore, Page;
    OrderingEndsWithId(f);
    if n > 0 {
      OffsetOfPage(f, n);
      CollectedArePages(env, f, restrict, now, table, n - 1);
      PageIgnored(env, f, restrict, now, table, n);
    }
  }

  lemma OffsetOfPage(f: Filters, n: nat)
    requires f.Valid() && n > 0
    ensures f.(page := n).Valid() && f.(page := n).PageOffset() == (n - 1) * f.pageSize
  {
  }

  /** The page number changes neither the matches nor their order. */
  lemma PageIgnored(env: Env, f: Filters, restrict: Option<seq<nat>>, now: int, table: set<Event>, n: nat)
    ensures Ordering(f.(page := n)) == Ordering(f)
    ensures Matches(env, f.(page := n), restrict, now, table) == Matches(env, f, restrict, now, table)
  {
    SameClauses(f, f.(page := n), restrict, now, STEPS);
  }

  lemma {:induction false} SameClauses(f: Filters, g: Filters, restrict: Option<seq<nat>>, now: int, k: nat)
    requires k <= STEPS && g == f.(page := g.page)
    ensures ClausesUpTo(f, restrict, now, k) == ClausesUpTo(g, restrict, now, k)
  {
    if k > 0 { SameClauses(f, g, restrict, now, k - 1); }
  }

  /**
   * The pages 1 to ceil(total / size) hold every wanted event once, in the order of the
   * listing, and `total` counts them.
   */
  lemma PagesMakeTheListing(env: Env, f: Filters, restrict: Option<seq<nat>>, now: int, table: set<Event>)
    requires DistinctIds(table) && f.Valid() && Sensible(env)
    ensures var total := CountAndList(env, f, restrict, now, table).total;
            var rows := Collected(env, f, restrict, now, table, PageCount(total, f.pageSize));
            && |rows| == total && Sorted(env, Ordering(f), rows)
            && forall row :: row in rows <==> row in table && Wanted(env, f, restrict, now, row)
  {
    hide Listing, Ordering, Wanted, Where, Clauses, RowBefore, Filters.PageOffset, FirstPages, PageCount, Collected,
         Page;
    var total := CountAndList(env, f, restrict, now, table).total;
    forall row ensures row in Matches(env, f, restrict, now, table)
                       <==> row in table && Wanted(env, f, restrict, now, row) {
      ClausesMeanWanted(env, f, restrict, now, row);
    }
    if restrict != Some([]) {
      var n := PageCount(total, f.pageSize);
      CollectedArePages(env, f, restrict, now, table, n);
      var listing := Listing(env, Ordering(f), Matches(env, f, restrict, now, table));
      PagesArePrefix(listing, f.pageSize, n);
      PagesCover(total, f.pageSize);
      assert listing[..|listing|] == listing;
    } else {
      NoPages(env, f, restrict, now, table);
      forall row | row in table ensures !Wanted(env, f, restrict, now, row) { NothingSelected(env, f, now, row); }
    }
  }

  lemma ZeroPages(size: nat)
    requires size > 0
    ensures PageCount(0, size) == 0
  {
  }

  lemma NoPages(env: Env, f: Filters, restrict: Option<seq<nat>>, now: int, table: set<Event>)
    requires DistinctIds(table) && f.Valid()
    ensures Collected(env, f, restrict, now, table, PageCount(0, f.pageSize)) == []
  {
    hide PageCount, CountAndList;
    ZeroPages(f.pageSize);
  }

  lemma NothingSelected(env: Env, f: Filters, now: int, row: Event)
    ensures !Wanted(env, f, Some([]), now, row)
  {
  }

  // ---- The blocks of startTime ASC ----

  ghost predicate AllInBlock(env: Env, rows: seq<Event>, block: nat) {
    forall i | 0 <= i < |rows| :: Block(env, rows[i]) == block
  }

  ghost predicate Ascending(rows: seq<Event>) {
    forall i, k | 0 <= i < k < |rows| :: EarlierInBlock(rows[i], rows[k])
  }

  lemma {:induction false} SplitAt(env: Env, rows: seq<Event>, block: nat) returns (p: nat)
    requires forall i, k | 0 <= i < k < |rows| :: Block(env, rows[i]) <= Block(env, rows[k])
    ensures p <= |rows| && (forall i | 0 <= i < p :: Block(env, rows[i]) <= block)
    ensures forall i | p <= i < |rows| :: Block(env, rows[i]) > block
    decreases |rows|
  {
    if rows == [] || Block(env, rows[|rows| - 1]) <= block {
      p := |rows|;
    } else {
      p := SplitAt(env, rows[..|rows| - 1], block);
      forall i | 0 <= i < p ensures Block(env, rows[i]) <= block {
        assert rows[..|rows| - 1][i] == rows[i];
      }
      forall i | p <= i < |rows| ensures Block(env, rows[i]) > block {
        if i < |rows| - 1 { assert rows[..|rows| - 1][i] == rows[i]; }
      }
    }
  }

  lemma BlockBound(env: Env, rows: seq<Event>)
    ensures forall i | 0 <= i < |rows| :: Block(env, rows[i]) <= 2
  {
  }

  lemma PartAscends(env: Env, rows: seq<Event>, part: seq<Event>, from: nat, block: nat)
    requires from + |part| <= |rows| && part == rows[from..from + |part|] && AllInBlock(env, part, block)
    requires forall i, k | 0 <= i < k < |rows| ::
               Block(env, rows[i]) < Block(env, rows[k])
               || (Block(env, rows[i]) == Block(env, rows[k]) && EarlierInBlock(rows[i], rows[k]))
    ensures Ascending(part)
  {
  }

  lemma BlocksRise(env: Env, f: Filters, rows: seq<Event>)
    requires GroupsLongEvents(f) && Sorted(env, Ordering(f), rows)
    ensures forall i, k | 0 <= i < k < |rows| ::
              Block(env, rows[i]) < Block(env, rows[k])
              || (Block(env, rows[i]) == Block(env, rows[k]) && EarlierInBlock(rows[i], rows[k]))
  {
    hide RowBefore, Ordering, Block, EarlierInBlock, GroupsLongEvents;
    forall i, k | 0 <= i < k < |rows|
      ensures Block(env, rows[i]) < Block(env, rows[k])
              || (Block(env, rows[i]) == Block(env, rows[k]) && EarlierInBlock(rows[i], rows[k]))
    {
      StartTimeAscending(env, f, rows[i], rows[k]);
    }
  }

  /** startTime ASC is regular dated events, long events and unknown starts, each part in its own order. */
  lemma StartTimeBlocks(env: Env, f: Filters, rows: seq<Event>)
    returns (regular: seq<Event>, long: seq<Event>, unknown: seq<Event>)
    requires GroupsLongEvents(f) && Sorted(env, Ordering(f), rows)
    ensures rows == regular + long + unknown
    ensures AllInBlock(env, regular, 0) && AllInBlock(env, long, 1) && AllInBlock(env, unknown, 2)
    ensures Ascending(regular) && Ascending(long) && Ascending(unknown)
  {
    hide RowBefore, Ordering, Block, EarlierInBlock, Sorted, GroupsLongEvents, Ascending;
    BlocksRise(env, f, rows);
    var p := SplitAt(env, rows, 0);
    var q := SplitAt(env, rows, 1);
    assert q < |rows| ==> Block(env, rows[q]) > 1;
    regular, long, unknown := rows[..p], rows[p..q], rows[q..];
    BlockBound(env, rows);
    PartAscends(env, rows, regular, 0, 0);
    PartAscends(env, rows, long, p, 1);
    PartAscends(env, rows, unknown, q, 2);
  }
}
