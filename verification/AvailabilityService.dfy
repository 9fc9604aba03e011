/** The five nested loops of `AvailabilityService.slots`, one method a loop, and `_matching_slot`. */
module AvailabilityService {
  import opened Totals
  import opened Zones
  import opened Calendars
  import opened Catalogs
  import opened Occupancy
  import opened Availability
  import opened SlotRules
  import Ordering

  lemma AllocationIs(q: Query, reqs: seq<Requirement>, lo: int, hi: int, r: Option<seq<(int, nat)>>)
    requires r == Allocation(q, reqs, lo, hi)
    ensures r.None? <==> exists i :: 0 <= i < |reqs| && Unserved(q, reqs[i], lo, hi)
    ensures r.Some? ==> Allots(q, reqs, lo, hi, r.value)
  {
    AllocationFailsIff(q, reqs, lo, hi);
    if r.Some? { AllocationAllots(q, reqs, lo, hi, r.value); }
  }

  /** `_allocate_resources`: the loop over the requirements, leaving at the first that finds no resource. */
  method AllocateResources(q: Query, lo: int, hi: int) returns (r: Option<seq<(int, nat)>>)
    ensures r == Allocation(q, q.service.requirements, lo, hi)
    ensures r.None? <==> exists i :: 0 <= i < |q.service.requirements| && Unserved(q, q.service.requirements[i], lo, hi)
    ensures r.Some? ==> Allots(q, q.service.requirements, lo, hi, r.value)
  {
    var reqs := q.service.requirements;
    var allocations := [];
    for i := 0 to |reqs|
      invariant Allocation(q, reqs[..i], lo, hi) == Some(allocations)
    {
      assert reqs[..i + 1][..i] == reqs[..i];
      if !reqs[i].required {
        continue;
      }
      var selected := FirstFit(q, reqs[i], q.cat.resources, lo, hi);
      if selected.None? {
        AllocationPrefix(q, reqs, i + 1, lo, hi);
        AllocationIs(q, reqs, lo, hi, None);
        return None;
      }
      allocations := allocations + [(selected.value.id, reqs[i].quantity)];
    }
    assert reqs[..|reqs|] == reqs;
    r := Some(allocations);
    AllocationIs(q, reqs, lo, hi, r);
  }

  /** The body of the innermost loop: every gate in turn, then the slot. */
  method SlotIfOpen(q: Query, p: Staff, day: int, start: int) returns (slot: Option<Slot>)
    ensures slot == if Bookable(q, p, day, start) then Some(SlotAt(q, p, start)) else None
  {
    if !InNotice(q, p, start) || !BranchOpen(q, p, day, start) || !ScheduleOpen(q, p, day, start) || !SeatFree(q, p, start) {
      return None;
    }
    var allocations := AllocateResources(q, BusyStart(q, start), BusyEnd(q, p, start));
    if allocations.None? {
      return None;
    }
    var zone := q.branch.zone;
    slot := Some(Slot(start, EndsAt(q, p, start), zone.Local(start), zone.Local(EndsAt(q, p, start)),
                      zone.FoldOf(start), p.id, allocations.value));
  }

  /** The innermost loop: the instants that read w. */
  method SlotsAtReading(q: Query, p: Staff, day: int, w: int) returns (slots: seq<Slot>)
    ensures forall s :: s in slots <==> q.branch.zone.Local(s.startsAt) == w && OpenSlot(q, p, day, s)
  {
    var candidates := LocalCandidates(q.branch.zone, w);
    slots := [];
    for i := 0 to |candidates|
      invariant forall s :: s in slots <==> s.startsAt in candidates[..i] && OpenSlot(q, p, day, s)
    {
      assert candidates[..i + 1] == candidates[..i] + [candidates[i]];
      var slot := SlotIfOpen(q, p, day, candidates[i]);
      if slot.Some? {
        slots := slots + [slot.value];
      }
    }
    assert candidates[..|candidates|] == candidates;
  }

  ghost predicate SlotBefore(q: Query, p: Staff, day: int, per: Period, limit: int, s: Slot) {
    var w := q.branch.zone.Local(s.startsAt);
    w < limit && OnGrid(q, p, day, per, w) && OpenSlot(q, p, day, s)
  }

  /** One step of the cursor covers exactly the grid point it stands on. */
  lemma OneGridStep(q: Query, p: Staff, day: int, per: Period, k: nat, cursor: int, w: int)
    requires cursor == day * DAY + per.start + k * (q.Interval() * MINUTE)
    requires cursor + Minutes(q, p) * MINUTE <= day * DAY + per.end
    ensures w < cursor + q.Interval() * MINUTE && OnGrid(q, p, day, per, w) <==> (w < cursor && OnGrid(q, p, day, per, w)) || w == cursor
  {
    var step := q.Interval() * MINUTE;
    assert (k + 1) * step == k * step + step;
    GridCover(w - (day * DAY + per.start), step, k);
  }

  /** The loop that moves the cursor over one period in steps of the slot interval. */
  method SlotsInPeriod(q: Query, p: Staff, day: int, per: Period) returns (slots: seq<Slot>)
    ensures forall s :: s in slots <==> OnGrid(q, p, day, per, q.branch.zone.Local(s.startsAt)) && OpenSlot(q, p, day, s)
  {
    var first := day * DAY + per.start;
    var lastStart := day * DAY + per.end - Minutes(q, p) * MINUTE;
    var step := q.Interval() * MINUTE;
    var cursor := first;
    ghost var k := 0;
    slots := [];
    while cursor <= lastStart
      invariant 0 <= k && cursor == first + k * step
      invariant forall s :: s in slots <==> SlotBefore(q, p, day, per, cursor, s)
      decreases lastStart - cursor
    {
      var more := SlotsAtReading(q, p, day, cursor);
      forall s ensures SlotBefore(q, p, day, per, cursor + step, s) <==> s in slots || s in more {
        OneGridStep(q, p, day, per, k, cursor, q.branch.zone.Local(s.startsAt));
      }
      assert (k + 1) * step == k * step + step;
      slots := slots + more;
      cursor := cursor + step;
      k := k + 1;
    }
  }

  ghost predicate InPeriods(q: Query, p: Staff, day: int, periods: seq<Period>, s: Slot) {
    && (exists per :: per in periods && OnGrid(q, p, day, per, q.branch.zone.Local(s.startsAt)))
    && OpenSlot(q, p, day, s)
  }

  /** The loop over the branch's periods of the day. */
  method SlotsOfStaff(q: Query, p: Staff, day: int, periods: seq<Period>) returns (slots: seq<Slot>)
    ensures forall s :: s in slots <==> InPeriods(q, p, day, periods, s)
  {
    slots := [];
    for i := 0 to |periods|
      invariant forall s :: s in slots <==> InPeriods(q, p, day, periods[..i], s)
    {
      var more := SlotsInPeriod(q, p, day, periods[i]);
      assert periods[..i + 1] == periods[..i] + [periods[i]];
      slots := slots + more;
    }
    assert periods[..|periods|] == periods;
  }

  ghost predicate OfStaff(q: Query, only: Option<int>, staff: seq<Staff>, day: int, s: Slot) {
    exists p :: p in staff && StaffSlot(q, only, p, day, s)
  }

  /** The loop over the eligible staff, the branch periods having been computed once for the day. */
  method SlotsOfDay(q: Query, only: Option<int>, day: int) returns (slots: seq<Slot>)
    ensures forall s :: s in slots <==> OfStaff(q, only, q.cat.staff, day, s)
  {
    var periods := BranchPeriods(q.cal, q.branch.id, q.branch.hours, q.branch.zone, day);
    var staff := q.cat.staff;
    slots := [];
    for i := 0 to |staff|
      invariant forall s :: s in slots <==> OfStaff(q, only, staff[..i], day, s)
    {
      assert staff[..i + 1] == staff[..i] + [staff[i]];
      if !Eligible(q, only, staff[i]) {
        continue;
      }
      var more := SlotsOfStaff(q, staff[i], day, periods);
      assert forall s :: s in more <==> StaffSlot(q, only, staff[i], day, s);
      slots := slots + more;
    }
    assert staff[..|staff|] == staff;
  }

  /** A reading on the grid of a day is on that day. */
  lemma GridDay(q: Query, p: Staff, day: int, w: int)
    requires OnSomeGrid(q, p, day, w)
    ensures DayOf(w) == day
  {
  }

  /** A slot is a function of its key: the start and the staff member. */
  lemma SlotByKey(q: Query, only: Option<int>, from: int, to: int, s: Slot, t: Slot)
    requires q.cat.Valid() && IsSlot(q, only, from, to, s) && IsSlot(q, only, from, to, t)
    requires s.startsAt == t.startsAt && s.staff == t.staff
    ensures s == t
  {
  }

  /** `AvailabilityService.slots` after its lookups: the loop over the days, the dictionary, the sort. */
  method Slots(q: Query, only: Option<int>, from: int, to: int) returns (r: Result<seq<Slot>>)
    requires q.cat.Valid()
    ensures r.Ok? <==> 0 <= to - from < q.cat.maxAvailabilityDays
    ensures r.Ok? ==> IsListing(q, only, from, to, r.value)
    ensures r.Ok? ==> forall s :: s in r.value <==> OnOffer(q, only, from, to, s)
    ensures r.Err? ==> r.code == "availability_range_invalid"
  {
    if to - from < 0 || q.cat.maxAvailabilityDays <= to - from {
      return Err("availability_range_invalid");
    }
    var slots := [];
    var day := from;
    while day <= to
      invariant from <= day <= to + 1
      invariant forall s :: s in slots <==> IsSlot(q, only, from, day - 1, s)
    {
      var more := SlotsOfDay(q, only, day);
      forall s ensures IsSlot(q, only, from, day, s) <==> s in slots || s in more { OneDayMore(q, only, from, day, s); }
      slots := slots + more;
      day := day + 1;
    }
    forall s, t | s in slots && t in slots && SlotKey()(s) == SlotKey()(t) ensures s == t { SlotByKey(q, only, from, to, s, t); }
    Ordering.UniqueSortedSpec(SlotKey(), slots);
    forall s ensures IsSlot(q, only, from, to, s) <==> OnOffer(q, only, from, to, s) { SlotsAreOnOffer(q, only, from, to, s); }
    r := Ok(Ordering.UniqueSorted(SlotKey(), slots));
  }

  lemma OneDayMore(q: Query, only: Option<int>, from: int, day: int, s: Slot)
    requires from <= day
    ensures IsSlot(q, only, from, day, s) <==> IsSlot(q, only, from, day - 1, s) || OfStaff(q, only, q.cat.staff, day, s)
  {
    forall p | StaffSlot(q, only, p, day, s) ensures DayOf(q.branch.zone.Local(s.startsAt)) == day {
      GridDay(q, p, day, q.branch.zone.Local(s.startsAt));
    }
  }

  // ----- one slot by its start -----

  /** `next((slot for slot in slots if slot.starts_at == starts_at), None)`. */
  function FirstAt(slots: seq<Slot>, start: int): (r: Option<Slot>)
    ensures r.Some? ==> r.value in slots && r.value.startsAt == start
    ensures r.None? ==> forall s :: s in slots ==> s.startsAt != start
  {
    if slots == [] then None else if slots[0].startsAt == start then Some(slots[0]) else FirstAt(slots[1..], start)
  }

  /** Two answers to one request are equal: the listing is determined by what it must contain. */
  lemma ListingUnique(q: Query, only: Option<int>, from: int, to: int, a: seq<Slot>, b: seq<Slot>)
    requires IsListing(q, only, from, to, a) && IsListing(q, only, from, to, b)
    ensures a == b
  {
    Ordering.SortedListingUnique(SlotKey(), a, b);
  }

  /** r is what the search for a start must give: the slot with that start of the lowest staff id, or nothing. */
  ghost predicate IsMatch(q: Query, only: Option<int>, start: int, r: Option<Slot>) {
    var day := DayOf(q.branch.zone.Local(start));
    if r.None? then forall t :: IsSlot(q, only, day, day, t) ==> t.startsAt != start
    else
      && IsSlot(q, only, day, day, r.value) && r.value.startsAt == start
      && forall t :: IsSlot(q, only, day, day, t) && t.startsAt == start ==> r.value.staff <= t.staff
  }

  /** Whether a staff member offers the slot that starts at an instant. */
  ghost function Offers(q: Query, only: Option<int>, start: int): Staff -> bool {
    (p: Staff) => StaffSlot(q, only, p, DayOf(q.branch.zone.Local(start)), SlotAt(q, p, start))
  }

  function StaffId(): Staff -> int { (p: Staff) => p.id }

  /** The match, as a function of the request. */
  ghost function Match(q: Query, only: Option<int>, start: int): Option<Slot> {
    var p := Ordering.Lowest(Offers(q, only, start), StaffId(), q.cat.staff);
    if p.None? then None else Some(SlotAt(q, p.value, start))
  }

  lemma MatchIsMatch(q: Query, only: Option<int>, start: int)
    ensures IsMatch(q, only, start, Match(q, only, start))
  {
    Ordering.LowestSpec(Offers(q, only, start), StaffId(), q.cat.staff);
    var r, day := Match(q, only, start), DayOf(q.branch.zone.Local(start));
    forall t | IsSlot(q, only, day, day, t) && t.startsAt == start ensures r.Some? && r.value.staff <= t.staff {
      var p :| p in q.cat.staff && StaffSlot(q, only, p, day, t);
      assert Offers(q, only, start)(p);
    }
  }

  lemma MatchUnique(q: Query, only: Option<int>, start: int, r: Option<Slot>)
    requires q.cat.Valid() && IsMatch(q, only, start, r)
    ensures r == Match(q, only, start)
  {
    var m, day := Match(q, only, start), DayOf(q.branch.zone.Local(start));
    MatchIsMatch(q, only, start);
    if r.Some? && m.Some? { SlotByKey(q, only, day, day, r.value, m.value); }
  }

  lemma {:induction false} FirstAtIsLowest(slots: seq<Slot>, start: int, t: Slot)
    requires Ordering.StrictlySorted(SlotKey(), slots) && t in slots && t.startsAt == start
    ensures FirstAt(slots, start).Some? && FirstAt(slots, start).value.staff <= t.staff
  {
    if slots[0].startsAt != start { FirstAtIsLowest(slots[1..], start, t); }
  }

  /** `_matching_slot`: list the local day of the start, take the first slot that starts then. */
  method MatchingSlot(q: Query, only: Option<int>, start: int) returns (r: Result<Option<Slot>>)
    requires q.cat.Valid()
    ensures r.Ok? <==> 0 < q.cat.maxAvailabilityDays
    ensures r.Ok? ==> r.value == Match(q, only, start)
    ensures r.Err? ==> r.code == "availability_range_invalid"
  {
    var day := DayOf(q.branch.zone.Local(start));
    var slots := Slots(q, only, day, day);
    if slots.Err? {
      return Err(slots.code);
    }
    var first := FirstAt(slots.value, start);
    forall t | IsSlot(q, only, day, day, t) && t.startsAt == start ensures first.Some? && first.value.staff <= t.staff {
      FirstAtIsLowest(slots.value, start, t);
    }
    MatchUnique(q, only, start, first);
    r := Ok(first);
  }

  /** Every slot listed for a range is found again, identical, from its start and staff id alone. */
  lemma ListedSlotIsMatched(q: Query, only: Option<int>, from: int, to: int, wide: seq<Slot>, s: Slot)
    requires q.cat.Valid() && IsListing(q, only, from, to, wide) && s in wide
    ensures Match(q, Some(s.staff), s.startsAt) == Some(s)
  {
    var day := DayOf(q.branch.zone.Local(s.startsAt));
    var p :| p in q.cat.staff && StaffSlot(q, only, p, day, s);
    assert StaffSlot(q, Some(s.staff), p, day, s);
    assert IsMatch(q, Some(s.staff), s.startsAt, Some(s));
    MatchUnique(q, Some(s.staff), s.startsAt, Some(s));
  }

  /** Whatever the search finds is in the listing of every range that contains its local day. */
  lemma MatchedSlotIsListed(q: Query, only: Option<int>, start: int, from: int, to: int, wide: seq<Slot>)
    requires q.cat.Valid() && Match(q, only, start).Some?
    requires from <= DayOf(q.branch.zone.Local(start)) <= to && IsListing(q, only, from, to, wide)
    ensures Match(q, only, start).value in wide
  {
    var s := Match(q, only, start).value;
    var day := DayOf(q.branch.zone.Local(start));
    MatchIsMatch(q, only, start);
    assert IsSlot(q, only, day, day, s);
    assert IsSlot(q, only, from, to, s);
  }
}
