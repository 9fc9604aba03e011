/**
  Local time with daylight-saving transitions, as PEP 495 defines it and as
  `ScheduleService.local_candidates` uses it.

  Instants are integers (microseconds since the epoch, UTC).  A wall reading is
  the integer an instant becomes once the zone's offset has been added to it.
  */
module Zones {

  datatype Transition = Transition(at: int, offset: int)

  /** A zone: the offset before the first transition, then the transitions in order. */
  datatype Table = Table(initial: int, transitions: seq<Transition>) {

    /** The offset in force once the first k transitions have happened. */
    function OffsetAfter(k: nat): int
      requires k <= |transitions|
    {
      if k == 0 then initial else transitions[k - 1].offset
    }

    /** The wall reading from which transition i counts: the later of its two for fold 0, the earlier for fold 1. */
    function WallOf(i: nat, fold: bool): int
      requires i < |transitions|
    {
      var a, b := OffsetAfter(i), OffsetAfter(i + 1);
      transitions[i].at + if (a < b) == fold then a else b
    }

    /** How many of the first n transitions have happened at instant u (`bisect_right` over the instants). */
    function Happened(u: int, n: nat): (k: nat)
      requires n <= |transitions|
      ensures k <= n
      ensures 0 < k ==> transitions[k - 1].at <= u
      ensures k < n ==> u < transitions[k].at
    {
      if n == 0 then 0 else if transitions[n - 1].at <= u then n else Happened(u, n - 1)
    }

    /** How many of the first n transitions count for reading w with the given fold (`bisect_right` over the readings). */
    function Counted(w: int, fold: bool, n: nat): (k: nat)
      requires n <= |transitions|
      ensures k <= n
      ensures 0 < k ==> WallOf(k - 1, fold) <= w
      ensures k < n ==> w < WallOf(k, fold)
    {
      if n == 0 then 0 else if WallOf(n - 1, fold) <= w then n else Counted(w, fold, n - 1)
    }

    /** The first n transitions are in order, and the readings one skips or repeats end before those of the next begin. */
    ghost predicate Spaced(n: nat)
      requires n <= |transitions|
    {
      n <= 1 || (
        && transitions[n - 2].at < transitions[n - 1].at
        && WallOf(n - 2, false) <= WallOf(n - 1, true)
        && Spaced(n - 1))
    }

    /** `astimezone(zone)`: the wall reading of an instant. */
    function Local(u: int): int {
      u + OffsetAfter(Happened(u, |transitions|))
    }

    /** `replace(tzinfo=zone, fold=fold).astimezone(UTC)`: the instant PEP 495 assigns to a reading. */
    function ToUtc(w: int, fold: bool): int {
      w - OffsetAfter(Counted(w, fold, |transitions|))
    }

    /** The `fold` attribute `astimezone` sets: the reading also happened before the last transition. */
    predicate FoldOf(u: int) {
      var k := Happened(u, |transitions|);
      0 < k && u - transitions[k - 1].at < OffsetAfter(k - 1) - OffsetAfter(k)
    }

    /** The reading is skipped when the clock goes forward. */
    ghost predicate InGap(w: int) {
      exists i :: 0 <= i < |transitions| && OffsetAfter(i) < OffsetAfter(i + 1) && WallOf(i, true) <= w < WallOf(i, false)
    }

    /** The reading is repeated when the clock goes back. */
    ghost predicate InFold(w: int) {
      exists i :: 0 <= i < |transitions| && OffsetAfter(i + 1) < OffsetAfter(i) && WallOf(i, true) <= w < WallOf(i, false)
    }

    /** How many instants read w: none in a gap, two in a fold, one otherwise. */
    ghost function SourceCount(w: int): nat {
      if InGap(w) then 0 else if InFold(w) then 2 else 1
    }
  }

  type Zone = z: Table | z.Spaced(|z.transitions|) witness Table(0, [])

  lemma {:induction false} InstantsSorted(z: Table, i: nat, j: nat, n: nat)
    requires i < j < n <= |z.transitions| && z.Spaced(n)
    ensures z.transitions[i].at < z.transitions[j].at
  {
    if j + 1 < n { InstantsSorted(z, i, j, n - 1); } else if i + 1 < j { InstantsSorted(z, i, j - 1, n - 1); }
  }

  /** The skipped or repeated stretch of an earlier transition ends before that of a later one starts. */
  lemma {:induction false} WallsSorted(z: Table, i: nat, j: nat, n: nat)
    requires i < j < n <= |z.transitions| && z.Spaced(n)
    ensures z.WallOf(i, false) <= z.WallOf(j, true)
  {
    if j + 1 < n { WallsSorted(z, i, j, n - 1); } else if i + 1 < j { WallsSorted(z, i, j - 1, n - 1); }
  }

  /** The two lookups of a reading never cross and are at most one transition apart. */
  lemma IndicesAdjacent(z: Zone, w: int)
    ensures var n := |z.transitions|; z.Counted(w, false, n) <= z.Counted(w, true, n) <= z.Counted(w, false, n) + 1
  {
    var n := |z.transitions|;
    var late, early := z.Counted(w, false, n), z.Counted(w, true, n);
    if late + 1 < early { WallsSorted(z, late, early - 1, n); }
    if early + 1 < late { WallsSorted(z, early, late - 1, n); }
  }

  /** The late lookup of an instant's reading does not pass the transitions that have happened, */
  lemma LateLookup(z: Zone, u: int)
    ensures z.Counted(z.Local(u), false, |z.transitions|) <= z.Happened(u, |z.transitions|)
  {
    var n, k := |z.transitions|, z.Happened(u, |z.transitions|);
    var late := z.Counted(z.Local(u), false, n);
    if k + 1 < late { WallsSorted(z, k, late - 1, n); }
  }

  /** and the early one does not fall short of them. */
  lemma EarlyLookup(z: Zone, u: int)
    ensures z.Happened(u, |z.transitions|) <= z.Counted(z.Local(u), true, |z.transitions|)
  {
    var n, k := |z.transitions|, z.Happened(u, |z.transitions|);
    var early := z.Counted(z.Local(u), true, n);
    if early + 1 < k { WallsSorted(z, early, k - 1, n); }
  }

  /** An instant that reads w is one of the two instants PEP 495 assigns to w. */
  lemma ReadingHasNoOtherSource(z: Zone, u: int)
    ensures u == z.ToUtc(z.Local(u), false) || u == z.ToUtc(z.Local(u), true)
  {
    IndicesAdjacent(z, z.Local(u));
    LateLookup(z, u);
    EarlyLookup(z, u);
  }

  /** Where the lookup of an instant lands, given bounds on it. */
  lemma HappenedByBounds(z: Zone, u: int, k: nat)
    requires k <= |z.transitions|
    requires 0 < k ==> z.transitions[k - 1].at <= u
    requires k < |z.transitions| ==> u < z.transitions[k].at
    ensures z.Happened(u, |z.transitions|) == k
  {
    var n := |z.transitions|;
    var r := z.Happened(u, n);
    if r + 1 < k { InstantsSorted(z, r, k - 1, n); }
    if k + 1 < r { InstantsSorted(z, k, r - 1, n); }
  }

  /** Outside every skipped or repeated stretch a reading has exactly one source. */
  lemma PlainReading(z: Zone, w: int)
    requires z.Counted(w, false, |z.transitions|) == z.Counted(w, true, |z.transitions|)
    ensures z.ToUtc(w, false) == z.ToUtc(w, true) && z.Local(z.ToUtc(w, false)) == w
    ensures !z.InGap(w) && !z.InFold(w)
  {
    var n := |z.transitions|;
    var k := z.Counted(w, false, n);
    HappenedByBounds(z, w - z.OffsetAfter(k), k);
    forall i | 0 <= i < n ensures !(z.WallOf(i, true) <= w < z.WallOf(i, false)) {
      if i + 1 < k { WallsSorted(z, i, k - 1, n); }
      if k < i { WallsSorted(z, k, i, n); }
    }
  }

  /** A reading whose two lookups differ lies in the stretch of one transition and of no other. */
  lemma DisputedReading(z: Zone, w: int, i: nat)
    requires i < |z.transitions|
    requires z.Counted(w, false, |z.transitions|) == i && z.Counted(w, true, |z.transitions|) == i + 1
    ensures z.WallOf(i, true) <= w < z.WallOf(i, false)
    ensures z.InFold(w) <==> z.OffsetAfter(i + 1) < z.OffsetAfter(i)
    ensures z.InGap(w) <==> z.OffsetAfter(i) < z.OffsetAfter(i + 1)
  {
    var n := |z.transitions|;
    forall j | 0 <= j < n && z.WallOf(j, true) <= w < z.WallOf(j, false) ensures j == i {
      if j < i { WallsSorted(z, j, i, n); } else if i < j { WallsSorted(z, i, j, n); }
    }
  }

  lemma FirstReading(z: Zone, w: int, i: nat)
    requires i < |z.transitions| && z.OffsetAfter(i + 1) < z.OffsetAfter(i)
    requires z.Counted(w, false, |z.transitions|) == i && z.Counted(w, true, |z.transitions|) == i + 1
    ensures z.Local(z.ToUtc(w, false)) == w && !z.FoldOf(z.ToUtc(w, false))
  {
    if 0 < i { WallsSorted(z, i - 1, i, |z.transitions|); }
    HappenedByBounds(z, w - z.OffsetAfter(i), i);
  }

  lemma SecondReading(z: Zone, w: int, i: nat)
    requires i < |z.transitions| && z.OffsetAfter(i + 1) < z.OffsetAfter(i)
    requires z.Counted(w, false, |z.transitions|) == i && z.Counted(w, true, |z.transitions|) == i + 1
    ensures z.Local(z.ToUtc(w, true)) == w && z.FoldOf(z.ToUtc(w, true))
  {
    if i + 1 < |z.transitions| { WallsSorted(z, i, i + 1, |z.transitions|); }
    HappenedByBounds(z, w - z.OffsetAfter(i + 1), i + 1);
  }

  /** In the fold: both sources read w, in order, and only the second carries the fold mark. */
  lemma RepeatedReading(z: Zone, w: int, i: nat)
    requires i < |z.transitions| && z.OffsetAfter(i + 1) < z.OffsetAfter(i)
    requires z.Counted(w, false, |z.transitions|) == i && z.Counted(w, true, |z.transitions|) == i + 1
    ensures z.Local(z.ToUtc(w, false)) == w && z.Local(z.ToUtc(w, true)) == w
    ensures z.ToUtc(w, false) < z.ToUtc(w, true)
    ensures !z.FoldOf(z.ToUtc(w, false)) && z.FoldOf(z.ToUtc(w, true))
  {
    FirstReading(z, w, i);
    SecondReading(z, w, i);
  }

  /** Mind the gap: no instant has a skipped reading. */
  lemma SkippedReading(z: Zone, u: int, i: nat)
    requires i < |z.transitions| && z.OffsetAfter(i) <= z.OffsetAfter(i + 1)
    ensures !(z.WallOf(i, true) <= z.Local(u) < z.WallOf(i, false))
  {
    var n := |z.transitions|;
    var k := z.Happened(u, n);
    if k < i { WallsSorted(z, k, i, n); }
    if i + 1 < k { WallsSorted(z, i, k - 1, n); }
  }

  /** What the candidate list is: every instant that reads w, in order, the repeated one marked. */
  ghost predicate AllSources(z: Zone, w: int, us: seq<int>) {
    && (forall u :: u in us <==> z.Local(u) == w)
    && (forall i, j :: 0 <= i < j < |us| ==> us[i] < us[j])
    && |us| == z.SourceCount(w)
    && (|us| == 2 ==> !z.FoldOf(us[0]) && z.FoldOf(us[1]))
  }

  /** The candidate list once one more fold has been tried. */
  ghost function Keep(z: Zone, w: int, fold: bool, kept: seq<int>): seq<int> {
    var candidate := z.ToUtc(w, fold);
    if z.Local(candidate) != w || candidate in kept then kept else kept + [candidate]
  }

  /** `sorted` on the at most two candidates. */
  function Sorted2(xs: seq<int>): seq<int>
    requires |xs| <= 2
  {
    if |xs| == 2 && xs[1] < xs[0] then [xs[1], xs[0]] else xs
  }

  /** `ScheduleService.local_candidates`: the loop over both folds, the round-trip check, the duplicate check. */
  method LocalCandidates(z: Zone, w: int) returns (result: seq<int>)
    ensures AllSources(z, w, result)
  {
    var found: seq<int> := [];
    var folds := [false, true];
    for f := 0 to 2
      invariant found == if f == 0 then [] else if f == 1 then Keep(z, w, false, []) else Keep(z, w, true, Keep(z, w, false, []))
    {
      var candidate := z.ToUtc(w, folds[f]);
      if z.Local(candidate) != w {
        continue;
      }
      if candidate !in found {
        found := found + [candidate];
      }
    }
    CandidatesAreExact(z, w);
    result := Sorted2(found);
  }

  lemma CandidatesAreExact(z: Zone, w: int)
    ensures |Keep(z, w, true, Keep(z, w, false, []))| <= 2
    ensures AllSources(z, w, Sorted2(Keep(z, w, true, Keep(z, w, false, []))))
  {
    var first, second := z.ToUtc(w, false), z.ToUtc(w, true);
    SourcesByCase(z, w);
    forall u | z.Local(u) == w ensures u == first || u == second { ReadingHasNoOtherSource(z, u); }
    assert Keep(z, w, false, []) == if z.Local(first) == w then [first] else [];
    match z.SourceCount(w)
    case 0 =>
    case 1 => assert Keep(z, w, true, [first]) == [first];
    case _ => assert Keep(z, w, true, [first]) == [first, second];
  }

  /** Which of the two lookups read w, in the three cases. */
  lemma SourcesByCase(z: Zone, w: int)
    ensures var first, second := z.ToUtc(w, false), z.ToUtc(w, true);
      && (z.SourceCount(w) == 0 ==> z.Local(first) != w && z.Local(second) != w)
      && (z.SourceCount(w) == 1 ==> z.Local(first) == w && first == second)
      && (z.SourceCount(w) == 2 ==> z.Local(first) == z.Local(second) == w && first < second && !z.FoldOf(first) && z.FoldOf(second))
  {
    var k := z.Counted(w, false, |z.transitions|);
    IndicesAdjacent(z, w);
    if k == z.Counted(w, true, |z.transitions|) {
      PlainReading(z, w);
    } else {
      DisputedReading(z, w, k);
      if z.OffsetAfter(k + 1) < z.OffsetAfter(k) {
        RepeatedReading(z, w, k);
      } else {
        SkippedReading(z, z.ToUtc(w, false), k);
        SkippedReading(z, z.ToUtc(w, true), k);
      }
    }
  }
}
