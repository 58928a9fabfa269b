/**
 * app/core/time.py: naive Lithuanian wall-clock times and the instants they denote.
 *
 * A zone is a table of transitions. Its reading of a naive time follows PEP 495
 * (sections "In the Fold" and "Mind the Gap"): with fold=0 a transition counts
 * from the later of the two wall times at which it happens, with fold=1 from the earlier.
 */
module LocalTime {
  import opened Prelude

  /** From the instant `at` on, the offset from UTC is `offset`. */
  datatype Transition = Transition(at: int, offset: int)
  datatype Zone = Zone(initial: int, transitions: seq<Transition>)

  /** The offset in force after the first k transitions. */
  function OffsetIn(z: Zone, k: nat): int
    requires k <= |z.transitions|
  {
    if k == 0 then z.initial else z.transitions[k - 1].offset
  }

  /** Offsets stay within a day and transitions are days apart, as in every real zone. */
  ghost predicate Sparse(z: Zone) {
    && (forall k | 0 <= k <= |z.transitions| :: -DAY < OffsetIn(z, k) < DAY)
    && (forall i, k | 0 <= i < k < |z.transitions| :: z.transitions[i].at + 4 * DAY <= z.transitions[k].at)
  }

  /** The number of the day on which a wall time falls. */
  function DayOf(w: int): int { w / DAY }

  /** No transition turns the local date back. */
  ghost predicate KeepsDate(z: Zone) {
    forall i | 0 <= i < |z.transitions| ::
      DayOf(z.transitions[i].at + OffsetIn(z, i) - 1) <= DayOf(z.transitions[i].at + OffsetIn(z, i + 1))
  }

  // ---- Reading the table ----

  /** bisect_right: how many keys are at most x. */
  function Bisect(keys: seq<int>, x: int): (k: nat)
    ensures k <= |keys|
    ensures k > 0 ==> keys[k - 1] <= x
    ensures forall i | k <= i < |keys| :: keys[i] > x
    decreases |keys|
  {
    if keys == [] then 0
    else if keys[|keys| - 1] <= x then |keys|
    else Bisect(keys[..|keys| - 1], x)
  }

  function UtcKeys(z: Zone): (keys: seq<int>)
    ensures |keys| == |z.transitions| && forall i | 0 <= i < |keys| :: keys[i] == z.transitions[i].at
  {
    seq(|z.transitions|, i requires 0 <= i < |z.transitions| => z.transitions[i].at)
  }

  function Early(z: Zone, i: nat): int
    requires i < |z.transitions|
  {
    z.transitions[i].at + if OffsetIn(z, i) < OffsetIn(z, i + 1) then OffsetIn(z, i) else OffsetIn(z, i + 1)
  }

  function Late(z: Zone, i: nat): int
    requires i < |z.transitions|
  {
    z.transitions[i].at + if OffsetIn(z, i) < OffsetIn(z, i + 1) then OffsetIn(z, i + 1) else OffsetIn(z, i)
  }

  function WallKeys(z: Zone, fold: bool): (keys: seq<int>)
    ensures |keys| == |z.transitions|
    ensures forall i | 0 <= i < |keys| :: keys[i] == if fold then Early(z, i) else Late(z, i)
  {
    seq(|z.transitions|, i requires 0 <= i < |z.transitions| => if fold then Early(z, i) else Late(z, i))
  }

  /** How many transitions have happened by the instant u. */
  function Segment(z: Zone, u: int): (s: nat)
    ensures s <= |z.transitions|
  {
    Bisect(UtcKeys(z), u)
  }

  /** How many transitions count as passed at the wall time w. */
  function WallIndex(z: Zone, w: int, fold: bool): (k: nat)
    ensures k <= |z.transitions|
  {
    Bisect(WallKeys(z, fold), w)
  }

  function Offset(z: Zone, u: int): int { OffsetIn(z, Segment(z, u)) }

  /** What the wall clock shows at an instant. */
  function Local(z: Zone, u: int): int { u + Offset(z, u) }

  /** utcoffset() of a naive wall time with the given fold. */
  function WallOffset(z: Zone, w: int, fold: bool): int { OffsetIn(z, WallIndex(z, w, fold)) }

  // ---- event_time ----

  datatype InputTime = Naive(wall: int) | Zoned(instant: int)

  /** An aware datetime in the zone. */
  datatype ZonedTime = ZonedTime(wall: int, offset: int)

  function EventTime(z: Zone, value: InputTime): ZonedTime {
    match value
    case Naive(w) =>
      var first, second := WallOffset(z, w, false), WallOffset(z, w, true);
      if second < first then ZonedTime(w, second) else ZonedTime(w, first)
    case Zoned(u) => ZonedTime(Local(z, u), Offset(z, u))
  }

  function Instant(z: Zone, value: InputTime): int {
    EventTime(z, value).wall - EventTime(z, value).offset
  }

  // ---- What it denotes ----

  ghost predicate Shown(z: Zone, w: int) {
    exists u :: Local(z, u) == w
  }

  /** A wall time skipped by the i-th transition. */
  predicate InGap(z: Zone, i: nat, w: int) {
    i < |z.transitions| && z.transitions[i].at + OffsetIn(z, i) <= w < z.transitions[i].at + OffsetIn(z, i + 1)
  }

  /** The segment between transitions whose offset event_time picks. */
  function Picked(z: Zone, w: int): (e: nat)
    ensures e <= |z.transitions|
  {
    var k0, k1 := WallIndex(z, w, false), WallIndex(z, w, true);
    if OffsetIn(z, k1) < OffsetIn(z, k0) then k1 else k0
  }

  function WallKey(z: Zone, i: nat, fold: bool): int
    requires i < |z.transitions|
  {
    if fold then Early(z, i) else Late(z, i)
  }

  lemma KeysApart(z: Zone, i: nat, k: nat)
    requires Sparse(z) && i < k < |z.transitions|
    ensures z.transitions[i].at + 4 * DAY <= z.transitions[k].at
    ensures Late(z, i) + 2 * DAY < Early(z, k)
  {
  }

  lemma OffsetsBounded(z: Zone, k: nat)
    requires Sparse(z) && k <= |z.transitions|
    ensures -DAY < OffsetIn(z, k) < DAY
  {
  }

  lemma WallBounds(z: Zone, w: int, fold: bool, i: nat)
    requires Sparse(z) && i < |z.transitions|
    ensures WallKey(z, i, fold) <= w <==> i < WallIndex(z, w, fold)
  {
    hide Sparse, OffsetIn, Bisect;
    var keys := WallKeys(z, fold);
    var k := WallIndex(z, w, fold);
    assert k == Bisect(keys, w);
    if i < k {
      assert keys[k - 1] <= w && keys[k - 1] == WallKey(z, k - 1, fold);
      if i < k - 1 { KeysApart(z, i, k - 1); }
    } else {
      assert keys[i] > w && keys[i] == WallKey(z, i, fold);
    }
  }

  lemma SegmentBounds(z: Zone, u: int, i: nat)
    requires Sparse(z) && i < |z.transitions|
    ensures z.transitions[i].at <= u <==> i < Segment(z, u)
  {
  }

  /** Being in segment s, spelled out. */
  lemma SegmentOf(z: Zone, u: int, s: nat)
    requires Sparse(z) && s <= |z.transitions|
    ensures Segment(z, u) == s <==>
              (s > 0 ==> z.transitions[s - 1].at <= u) && (s < |z.transitions| ==> u < z.transitions[s].at)
  {
  }

  lemma AtMostOneAmbiguous(z: Zone, w: int)
    requires Sparse(z)
    ensures WallIndex(z, w, false) <= WallIndex(z, w, true) <= WallIndex(z, w, false) + 1
  {
    hide Sparse, WallIndex;
    var k0, k1 := WallIndex(z, w, false), WallIndex(z, w, true);
    if k1 < k0 {
      WallBounds(z, w, false, k1);
      WallBounds(z, w, true, k1);
    }
    if k0 + 1 < k1 {
      WallBounds(z, w, false, k0);
      WallBounds(z, w, true, k0 + 1);
      KeysApart(z, k0, k0 + 1);
    }
  }

  lemma GapIndex(z: Zone, w: int, i: nat)
    requires Sparse(z) && i < |z.transitions| && Early(z, i) <= w < Late(z, i)
    ensures WallIndex(z, w, false) == i && WallIndex(z, w, true) == i + 1
  {
    hide Sparse, WallIndex, Early, Late;
    AtMostOneAmbiguous(z, w);
    WallBounds(z, w, false, i);
    WallBounds(z, w, true, i);
  }

  /** The segment of an instant showing w is one of the two that the folds pick. */
  lemma ShownSegment(z: Zone, w: int, u: int)
    requires Sparse(z) && Local(z, u) == w
    ensures WallIndex(z, w, false) <= Segment(z, u) <= WallIndex(z, w, true)
  {
    hide Sparse, WallIndex, Segment;
    var s := Segment(z, u);
    SegmentOf(z, u, s);
    if s > 0 {
      assert Early(z, s - 1) <= w;
      WallBounds(z, w, true, s - 1);
    }
    if s < |z.transitions| {
      assert w < Late(z, s);
      WallBounds(z, w, false, s);
    }
  }

  /** Every instant showing w is at most the picked one, and w is in no gap. */
  lemma ShownEarlier(z: Zone, w: int, u: int)
    requires Sparse(z) && Local(z, u) == w
    ensures u <= w - OffsetIn(z, Picked(z, w))
    ensures forall i: nat :: !InGap(z, i, w)
  {
    hide Sparse, WallIndex, Segment;
    var s := Segment(z, u);
    ShownSegment(z, w, u);
    AtMostOneAmbiguous(z, w);
    forall i: nat ensures !InGap(z, i, w) {
      if InGap(z, i, w) {
        GapIndex(z, w, i);
        SegmentOf(z, u, s);
      }
    }
    var k0 := WallIndex(z, w, false);
    if k0 < WallIndex(z, w, true) {
      WallBounds(z, w, false, k0);
      WallBounds(z, w, true, k0);
      assert !InGap(z, k0, w);
    }
  }

  /** Outside gaps the picked offset leads back to w. */
  lemma PickedShows(z: Zone, w: int)
    requires Sparse(z) && forall i: nat :: !InGap(z, i, w)
    ensures Segment(z, w - OffsetIn(z, Picked(z, w))) == Picked(z, w)
    ensures Local(z, w - OffsetIn(z, Picked(z, w))) == w
  {
    hide Sparse, WallIndex, Segment;
    AtMostOneAmbiguous(z, w);
    var k0, k1, e := WallIndex(z, w, false), WallIndex(z, w, true), Picked(z, w);
    if k0 < k1 {
      WallBounds(z, w, false, k0);
      WallBounds(z, w, true, k0);
      assert !InGap(z, k0, w);
    }
    assert e == k1;
    if e > 0 {
      WallBounds(z, w, false, e - 1);
      WallBounds(z, w, true, e - 1);
    }
    if e < |z.transitions| { WallBounds(z, w, true, e); }
    SegmentOf(z, w - OffsetIn(z, e), e);
  }

  /** A naive time denotes the latest instant at which the wall clock shows it. */
  lemma DenotesLatest(z: Zone, w: int)
    requires Sparse(z) && Shown(z, w)
    ensures Local(z, Instant(z, Naive(w))) == w
    ensures forall u | Local(z, u) == w :: u <= Instant(z, Naive(w))
  {
    hide Sparse, WallIndex, Segment;
    assert Instant(z, Naive(w)) == w - OffsetIn(z, Picked(z, w));
    var u :| Local(z, u) == w;
    ShownEarlier(z, w, u);
    PickedShows(z, w);
    forall v | Local(z, v) == w ensures v <= Instant(z, Naive(w)) { ShownEarlier(z, w, v); }
  }

  /** A skipped time takes the offset before the gap, and so lands past it by the width of the gap. */
  lemma GapUsesEarlierOffset(z: Zone, i: nat, w: int)
    requires Sparse(z) && InGap(z, i, w)
    ensures EventTime(z, Naive(w)).offset == OffsetIn(z, i)
    ensures Local(z, Instant(z, Naive(w))) == w + (OffsetIn(z, i + 1) - OffsetIn(z, i))
  {
    hide Sparse, WallIndex, Segment, OffsetIn;
    OffsetsBounded(z, i);
    OffsetsBounded(z, i + 1);
    if i + 1 < |z.transitions| { KeysApart(z, i, i + 1); }
    GapIndex(z, w, i);
    SegmentOf(z, w - OffsetIn(z, i), i + 1);
  }

  /** Wall times are either shown or skipped, and exactly the shown ones survive the round trip. */
  lemma RoundTrip(z: Zone, w: int)
    requires Sparse(z)
    ensures Shown(z, w) <==> forall i: nat :: !InGap(z, i, w)
    ensures Local(z, Instant(z, Naive(w))) == w <==> Shown(z, w)
  {
    hide Sparse, WallIndex, Segment;
    assert Instant(z, Naive(w)) == w - OffsetIn(z, Picked(z, w));
    if Shown(z, w) {
      var u :| Local(z, u) == w;
      ShownEarlier(z, w, u);
    }
    if forall i: nat :: !InGap(z, i, w) {
      PickedShows(z, w);
    }
  }

  lemma IndexRises(z: Zone, w1: int, w2: int, fold: bool)
    requires Sparse(z) && w1 < w2
    ensures WallIndex(z, w1, fold) <= WallIndex(z, w2, fold)
  {
  }

  lemma PickedRises(z: Zone, w1: int, w2: int)
    requires Sparse(z) && w1 < w2
    ensures Picked(z, w1) <= Picked(z, w2)
  {
    hide Sparse, WallIndex;
    AtMostOneAmbiguous(z, w1);
    AtMostOneAmbiguous(z, w2);
    IndexRises(z, w1, w2, false);
    IndexRises(z, w1, w2, true);
  }

  /** On times that the clock shows, denotation is strictly increasing. */
  lemma StrictlyIncreasing(z: Zone, w1: int, w2: int)
    requires Sparse(z) && w1 < w2 && Shown(z, w1) && Shown(z, w2)
    ensures Instant(z, Naive(w1)) < Instant(z, Naive(w2))
  {
    hide Sparse, WallIndex, Segment;
    assert Instant(z, Naive(w1)) == w1 - OffsetIn(z, Picked(z, w1));
    assert Instant(z, Naive(w2)) == w2 - OffsetIn(z, Picked(z, w2));
    RoundTrip(z, w1);
    RoundTrip(z, w2);
    PickedShows(z, w1);
    PickedShows(z, w2);
    PickedRises(z, w1, w2);
    var e1, e2 := Picked(z, w1), Picked(z, w2);
    if e1 < e2 {
      SegmentBounds(z, w1 - OffsetIn(z, e1), e1);
      SegmentBounds(z, w2 - OffsetIn(z, e2), e1);
    }
  }

  // ---- The local date ----

  function Date(z: Zone, u: int): int { DayOf(Local(z, u)) }

  /** The local midnight that began the day of an instant. */
  function Midnight(z: Zone, u: int): int { Date(z, u) * DAY }

  lemma LaterDay(a: int, b: int)
    requires a <= b
    ensures DayOf(a) <= DayOf(b)
  {
  }

  /** The last microsecond before a transition is not a day ahead of the transition. */
  lemma TurnKeepsDate(z: Zone, t: nat)
    requires Sparse(z) && KeepsDate(z) && 0 < t <= |z.transitions|
    ensures Segment(z, z.transitions[t - 1].at - 1) == t - 1
    ensures Date(z, z.transitions[t - 1].at - 1) <= DayOf(z.transitions[t - 1].at + OffsetIn(z, t))
  {
    hide Sparse, Segment, OffsetIn, DayOf;
    var turn := z.transitions[t - 1].at;
    if t >= 2 { KeysApart(z, t - 2, t - 1); }
    SegmentOf(z, turn - 1, t - 1);
    assert DayOf(turn + OffsetIn(z, t - 1) - 1) <= DayOf(turn + OffsetIn(z, t));
  }

  /** The date never goes back, although the clock does. */
  lemma {:induction false} DateRises(z: Zone, u: int, v: int)
    requires Sparse(z) && KeepsDate(z) && u <= v
    ensures Date(z, u) <= Date(z, v)
    decreases Segment(z, v)
  {
    hide Sparse, Segment, OffsetIn, KeepsDate, DayOf;
    var s, t := Segment(z, u), Segment(z, v);
    if s == t {
      LaterDay(Local(z, u), Local(z, v));
    } else if s < t {
      SegmentBounds(z, u, t - 1);
      SegmentBounds(z, v, t - 1);
      var turn := z.transitions[t - 1].at;
      TurnKeepsDate(z, t);
      DateRises(z, u, turn - 1);
      LaterDay(turn + OffsetIn(z, t), Local(z, v));
    } else if t < s {
      SegmentBounds(z, u, t);
      SegmentBounds(z, v, t);
    }
  }
}
