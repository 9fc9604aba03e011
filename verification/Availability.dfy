/** `AvailabilityService.slots`, the gates a slot passes, and the search for one slot by its start. */
module Availability {
  import opened Totals
  import opened Zones
  import opened Calendars
  import opened Catalogs
  import opened Occupancy
  import Ordering

  datatype Slot = Slot(
    startsAt: int, endsAt: int, localStart: int, localEnd: int, fold: bool, staff: int, allocations: seq<(int, nat)>)

  function SlotKey(): Slot -> Ordering.Key { (s: Slot) => Ordering.Key(s.startsAt, s.staff) }

  /** Everything one availability request reads: the catalog, the calendar, the tables and the clock. */
  datatype Query = Query(
    cat: Catalog, cal: Calendar, tables: Tables, branch: Branch, serviceId: int, service: Service, now: int)
  {
    function Interval(): Positive { ResolvePolicy(cat, branch.id, serviceId).slotInterval }
  }

  /** The staff queryset: who may be booked online for the service at the branch. */
  predicate Eligible(q: Query, only: Option<int>, p: Staff) {
    && p.active && p.acceptsOnline && p.memberActive
    && q.branch.id in p.branches
    && q.serviceId in p.services && p.services[q.serviceId].active
    && (only.None? || only.value == p.id)
  }

  /** `duration_override_minutes or duration_minutes`. */
  function Minutes(q: Query, p: Staff): nat {
    if q.serviceId in p.services && p.services[q.serviceId].durationOverride.Some? && p.services[q.serviceId].durationOverride.value != 0
    then p.services[q.serviceId].durationOverride.value
    else q.service.duration
  }

  function EndsAt(q: Query, p: Staff, start: int): int { start + Minutes(q, p) * MINUTE }

  function BusyStart(q: Query, start: int): int { start - q.service.bufferBefore * MINUTE }

  function BusyEnd(q: Query, p: Staff, start: int): int { EndsAt(q, p, start) + q.service.bufferAfter * MINUTE }

  predicate Blocked(cal: Calendar, owner: Owner, zone: Zone, day: int, lo: int, hi: int) {
    || BlockedByBreak(cal, owner, day, TimeOf(zone.Local(lo)), TimeOf(zone.Local(hi)))
    || BlockedByException(cal, owner, lo, hi)
  }

  // ----- resources -----

  /** The conditions of the generator in `_allocate_resources`. */
  predicate ResourceFits(q: Query, req: Requirement, r: Resource, lo: int, hi: int) {
    var owner := Owner(ResourceOwner, r.id);
    var zone := q.branch.zone;
    && r.branch == q.branch.id && r.active
    && (if req.specific.Some? then r.id == req.specific.value else r.resourceType == req.resourceType)
    && ScheduleAllows(q.cal, owner, lo, hi, zone)
    && !Blocked(q.cal, owner, zone, DayOf(zone.Local(lo)), lo, hi)
    && Load(q.tables, Unit(r.id), lo, hi, q.now) + req.quantity <= r.capacity
  }

  /** `next((resource for resource in candidates if ...), None)`. */
  function FirstFit(q: Query, req: Requirement, rs: seq<Resource>, lo: int, hi: int): (r: Option<Resource>)
    ensures r.Some? ==> r.value in rs && ResourceFits(q, req, r.value, lo, hi)
    ensures r.None? ==> forall x :: x in rs ==> !ResourceFits(q, req, x, lo, hi)
  {
    if rs == [] then None
    else if ResourceFits(q, req, rs[0], lo, hi) then Some(rs[0])
    else FirstFit(q, req, rs[1..], lo, hi)
  }

  /** What is allocated for the requirements; None when one of them cannot be met. */
  function Allocation(q: Query, reqs: seq<Requirement>, lo: int, hi: int): Option<seq<(int, nat)>> {
    if reqs == [] then Some([])
    else
      var n := |reqs| - 1;
      var before := Allocation(q, reqs[..n], lo, hi);
      if before.None? || !reqs[n].required then before
      else
        var pick := FirstFit(q, reqs[n], q.cat.resources, lo, hi);
        if pick.None? then None else Some(before.value + [(pick.value.id, reqs[n].quantity)])
  }

  lemma {:induction false} AllocationPrefix(q: Query, reqs: seq<Requirement>, i: nat, lo: int, hi: int)
    requires i <= |reqs| && Allocation(q, reqs[..i], lo, hi).None?
    ensures Allocation(q, reqs, lo, hi).None?
  {
    if i < |reqs| {
      assert reqs[..|reqs| - 1][..i] == reqs[..i];
      AllocationPrefix(q, reqs[..|reqs| - 1], i, lo, hi);
    } else {
      assert reqs[..i] == reqs;
    }
  }

  /** Every allocated pair names a listed resource that fits the demand, with room for that quantity in the window. */
  lemma {:induction false} AllocationHasRoom(q: Query, reqs: seq<Requirement>, lo: int, hi: int, i: nat)
    requires Allocation(q, reqs, lo, hi).Some? && i < |Allocation(q, reqs, lo, hi).value|
    ensures var (id, quantity) := Allocation(q, reqs, lo, hi).value[i];
      exists r :: r in q.cat.resources && r.id == id && r.branch == q.branch.id && r.active
        && Load(q.tables, Unit(id), lo, hi, q.now) + quantity <= r.capacity
  {
    if reqs != [] {
      var n := |reqs| - 1;
      var before := Allocation(q, reqs[..n], lo, hi);
      if i < |before.value| {
        AllocationHasRoom(q, reqs[..n], lo, hi, i);
      } else {
        var pick := FirstFit(q, reqs[n], q.cat.resources, lo, hi);
        assert pick.value in q.cat.resources;
      }
    }
  }

  // ----- the gates -----

  /** Not before the minimum notice, not past the maximum advance. */
  predicate InNotice(q: Query, p: Staff, start: int) {
    && q.now + q.service.minimumNotice * MINUTE <= start
    && EndsAt(q, p, start) <= q.now + q.service.maximumAdvanceDays * DAY
  }

  /** The busy interval, buffers included, stays on the local day and inside one branch period or one override. */
  predicate BranchOpen(q: Query, p: Staff, day: int, start: int) {
    var lo, hi := BusyStart(q, start), BusyEnd(q, p, start);
    var zone := q.branch.zone;
    && DayOf(zone.Local(lo)) == day && DayOf(zone.Local(hi)) == day
    && (|| Contains(BranchPeriods(q.cal, q.branch.id, q.branch.hours, zone, day), TimeOf(zone.Local(lo)), TimeOf(zone.Local(hi)))
        || OverrideCovers(q.cal, Owner(BranchOwner, q.branch.id), lo, hi))
  }

  function StaffZone(q: Query, p: Staff): Zone {
    if p.zoneOverride.Some? then p.zoneOverride.value else q.branch.zone
  }

  /** The staff member's schedule allows it and neither branch nor staff is blocked. */
  predicate ScheduleOpen(q: Query, p: Staff, day: int, start: int) {
    var lo, hi, zone := BusyStart(q, start), BusyEnd(q, p, start), StaffZone(q, p);
    && ScheduleAllows(q.cal, Owner(StaffOwner, p.id), lo, hi, zone)
    && !Blocked(q.cal, Owner(BranchOwner, q.branch.id), q.branch.zone, day, lo, hi)
    && !Blocked(q.cal, Owner(StaffOwner, p.id), zone, DayOf(zone.Local(lo)), lo, hi)
  }

  predicate SeatFree(q: Query, p: Staff, start: int) {
    Load(q.tables, Seat(p.id), BusyStart(q, start), BusyEnd(q, p, start), q.now) < p.maximumConcurrent
  }

  function SlotResources(q: Query, p: Staff, start: int): Option<seq<(int, nat)>> {
    Allocation(q, q.service.requirements, BusyStart(q, start), BusyEnd(q, p, start))
  }

  /** The five nested gates of the innermost loop. */
  predicate Bookable(q: Query, p: Staff, day: int, start: int) {
    && InNotice(q, p, start)
    && BranchOpen(q, p, day, start)
    && ScheduleOpen(q, p, day, start)
    && SeatFree(q, p, start)
    && SlotResources(q, p, start).Some?
  }

  /** The slot record is a function of the staff member and the start. */
  function SlotAt(q: Query, p: Staff, start: int): Slot {
    var resources := SlotResources(q, p, start);
    Slot(start, EndsAt(q, p, start), q.branch.zone.Local(start), q.branch.zone.Local(EndsAt(q, p, start)),
         q.branch.zone.FoldOf(start), p.id, if resources.Some? then resources.value else [])
  }

  // ----- multiples -----

  lemma SmallMultiple(a: int, step: int)
    requires -step < a * step < step
    ensures a == 0
  {
  }

  /** Between two neighbouring grid points lies no grid point. */
  lemma NextGridPoint(offset: int, step: int, k: nat)
    requires 0 < step && k * step <= offset < (k + 1) * step
    ensures offset % step == 0 <==> offset == k * step
  {
    var m := offset / step;
    assert offset == m * step + offset % step;
    assert (m - k) * step == offset - offset % step - k * step;
    assert (k + 1) * step == k * step + step;
    SmallMultiple(m - k, step);
  }

  lemma GridCover(since: int, step: nat, k: nat)
    requires 0 < step
    ensures 0 <= since < (k + 1) * step && since % step == 0 <==> (0 <= since < k * step && since % step == 0) || since == k * step
  {
    assert (k + 1) * step == k * step + step && 0 <= k * step;
    if k * step <= since < (k + 1) * step { NextGridPoint(since, step, k); }
  }

  // ----- what the listing means -----

  /** A wall reading lies on the slot grid of a period and leaves room for the service before the period ends. */
  predicate OnGrid(q: Query, p: Staff, day: int, per: Period, w: int) {
    var since := w - (day * DAY + per.start);
    && 0 <= since && since % (q.Interval() * MINUTE) == 0
    && w + Minutes(q, p) * MINUTE <= day * DAY + per.end
  }

  /** s is the slot of staff member p that starts at its own local reading, on its own local day. */
  predicate OpenSlot(q: Query, p: Staff, day: int, s: Slot) {
    && Bookable(q, p, day, s.startsAt)
    && s == SlotAt(q, p, s.startsAt)
  }

  ghost predicate OnSomeGrid(q: Query, p: Staff, day: int, w: int) {
    exists per :: per in BranchPeriods(q.cal, q.branch.id, q.branch.hours, q.branch.zone, day) && OnGrid(q, p, day, per, w)
  }

  /** s is a bookable slot of staff member p: a gate-passing start whose local reading is on the grid of its day. */
  ghost predicate StaffSlot(q: Query, only: Option<int>, p: Staff, day: int, s: Slot) {
    && Eligible(q, only, p)
    && OnSomeGrid(q, p, day, q.branch.zone.Local(s.startsAt))
    && OpenSlot(q, p, day, s)
  }

  /** s is offered on a local day of the range. */
  ghost predicate IsSlot(q: Query, only: Option<int>, from: int, to: int, s: Slot) {
    var day := DayOf(q.branch.zone.Local(s.startsAt));
    from <= day <= to && exists p :: p in q.cat.staff && StaffSlot(q, only, p, day, s)
  }

  /** The answer `slots` owes: exactly the offered slots, strictly by (start, staff). */
  ghost predicate IsListing(q: Query, only: Option<int>, from: int, to: int, slots: seq<Slot>) {
    && Ordering.StrictlySorted(SlotKey(), slots)
    && forall s :: s in slots <==> IsSlot(q, only, from, to, s)
  }
}
