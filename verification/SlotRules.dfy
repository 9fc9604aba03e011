/**
  What a bookable slot is, said of the stored rows alone: rules, breaks, exceptions, staff, resources, policies, holds and
  appointments. The search for slots is proved to find exactly these.
  */
module SlotRules {
  import opened Totals
  import opened Zones
  import opened Calendars
  import opened Catalogs
  import opened Occupancy
  import opened Availability
  import opened OpeningRules

  // ----- occupancy -----

  /** The hold reserves the interval: it is active, not run out, and the two intervals meet. */
  predicate HoldReserves(h: Hold, lo: int, hi: int, now: int) {
    h.status == HoldStatus.Active && now < h.expiresAt && h.place.startsAt < hi && lo < h.place.endsAt
  }

  /** So does the appointment: it is neither over nor called off, and the two intervals meet. */
  predicate AppointmentReserves(a: Appointment, lo: int, hi: int) {
    && a.status != Completed && a.status != Status.Cancelled && a.status != NoShow && a.status != Status.Rejected
    && a.place.startsAt < hi && lo < a.place.endsAt
  }

  /** The bookings of a staff member that meet an interval. */
  function HoldsOf(t: Tables, staff: int, lo: int, hi: int, now: int): set<nat> {
    set i | 0 <= i < |t.holds| && t.holds[i].place.staff == staff && HoldReserves(t.holds[i], lo, hi, now)
  }

  function AppointmentsOf(t: Tables, staff: int, lo: int, hi: int): set<nat> {
    set i | 0 <= i < |t.appointments| && t.appointments[i].place.staff == staff && AppointmentReserves(t.appointments[i], lo, hi)
  }

  /** The units of a resource that bookings meeting an interval have linked. */
  function UnitsHeld(holds: seq<Hold>, resource: int, lo: int, hi: int, now: int): nat {
    if holds == [] then 0
    else
      var h := holds[|holds| - 1];
      UnitsHeld(holds[..|holds| - 1], resource, lo, hi, now)
        + if HoldReserves(h, lo, hi, now) && resource in h.place.links then h.place.links[resource] else 0
  }

  function UnitsBooked(appointments: seq<Appointment>, resource: int, lo: int, hi: int): nat {
    if appointments == [] then 0
    else
      var a := appointments[|appointments| - 1];
      UnitsBooked(appointments[..|appointments| - 1], resource, lo, hi)
        + if AppointmentReserves(a, lo, hi) && resource in a.place.links then a.place.links[resource] else 0
  }

  /** The load on a seat is the number of bookings of the staff member that meet the interval. */
  lemma SeatLoadIsCount(t: Tables, staff: int, lo: int, hi: int, now: int)
    ensures Load(t, Seat(staff), lo, hi, now) == |HoldsOf(t, staff, lo, hi, now)| + |AppointmentsOf(t, staff, lo, hi)|
  {
    CountedRows(HoldUse(Seat(staff), lo, hi, now), t.holds, HoldsOf(t, staff, lo, hi, now));
    CountedRows(AppointmentUse(Seat(staff), lo, hi), t.appointments, AppointmentsOf(t, staff, lo, hi));
  }

  lemma {:induction false} UnitsHeldAre(holds: seq<Hold>, resource: int, lo: int, hi: int, now: int)
    ensures Total(HoldUse(Unit(resource), lo, hi, now), holds) == UnitsHeld(holds, resource, lo, hi, now)
  {
    if holds != [] { UnitsHeldAre(holds[..|holds| - 1], resource, lo, hi, now); }
  }

  lemma {:induction false} UnitsBookedAre(appointments: seq<Appointment>, resource: int, lo: int, hi: int)
    ensures Total(AppointmentUse(Unit(resource), lo, hi), appointments) == UnitsBooked(appointments, resource, lo, hi)
  {
    if appointments != [] { UnitsBookedAre(appointments[..|appointments| - 1], resource, lo, hi); }
  }

  // ----- resources -----

  /** The resource can serve the requirement over the interval: of the branch, of the kind asked for, open, and with room. */
  ghost predicate Serves(q: Query, req: Requirement, r: Resource, lo: int, hi: int) {
    var owner := Owner(ResourceOwner, r.id);
    && r.branch == q.branch.id && r.active
    && (req.specific == Some(r.id) || (req.specific == None && req.resourceType == r.resourceType))
    && OpenFor(q.cal, owner, q.branch.zone, lo, hi) && Unblocked(q.cal, owner, q.branch.zone, lo, hi)
    && UnitsBooked(q.tables.appointments, r.id, lo, hi) + UnitsHeld(q.tables.holds, r.id, lo, hi, q.now) + req.quantity <= r.capacity
  }

  ghost predicate FirstIn(q: Query, req: Requirement, rs: seq<Resource>, j: nat, lo: int, hi: int) {
    j < |rs| && Serves(q, req, rs[j], lo, hi) && forall i :: 0 <= i < j ==> !Serves(q, req, rs[i], lo, hi)
  }

  /** The resource with this id is the first listed one that can serve the requirement. */
  ghost predicate FirstToServe(q: Query, req: Requirement, id: int, lo: int, hi: int) {
    exists j: nat :: FirstIn(q, req, q.cat.resources, j, lo, hi) && q.cat.resources[j].id == id
  }

  /** The requirements the service insists on, in order. */
  function Insisted(reqs: seq<Requirement>): seq<Requirement> {
    if reqs == [] then []
    else Insisted(reqs[..|reqs| - 1]) + if reqs[|reqs| - 1].required then [reqs[|reqs| - 1]] else []
  }

  /** One pair for each of them: its quantity, of the first resource that can serve it. */
  ghost predicate Allots(q: Query, reqs: seq<Requirement>, lo: int, hi: int, pairs: seq<(int, nat)>) {
    && |pairs| == |Insisted(reqs)|
    && forall k :: 0 <= k < |pairs| ==> pairs[k].1 == Insisted(reqs)[k].quantity && FirstToServe(q, Insisted(reqs)[k], pairs[k].0, lo, hi)
  }

  lemma ServesIsFits(q: Query, req: Requirement, r: Resource, lo: int, hi: int)
    ensures Serves(q, req, r, lo, hi) <==> ResourceFits(q, req, r, lo, hi)
  {
    var owner := Owner(ResourceOwner, r.id);
    OpenForIsAllowed(q.cal, owner, q.branch.zone, lo, hi);
    UnblockedIs(q.cal, owner, q.branch.zone, lo, hi);
    UnitsHeldAre(q.tables.holds, r.id, lo, hi, q.now);
    UnitsBookedAre(q.tables.appointments, r.id, lo, hi);
  }

  lemma {:induction false} FirstFitIsFirst(q: Query, req: Requirement, rs: seq<Resource>, lo: int, hi: int)
    ensures FirstFit(q, req, rs, lo, hi).None? ==> forall i :: 0 <= i < |rs| ==> !Serves(q, req, rs[i], lo, hi)
    ensures FirstFit(q, req, rs, lo, hi).Some? ==> exists j: nat :: FirstIn(q, req, rs, j, lo, hi) && rs[j] == FirstFit(q, req, rs, lo, hi).value
  {
    if rs != [] {
      ServesIsFits(q, req, rs[0], lo, hi);
      if Serves(q, req, rs[0], lo, hi) {
        assert FirstIn(q, req, rs, 0, lo, hi);
      } else {
        FirstFitIsFirst(q, req, rs[1..], lo, hi);
        if FirstFit(q, req, rs, lo, hi).Some? {
          var j: nat :| FirstIn(q, req, rs[1..], j, lo, hi) && rs[1..][j] == FirstFit(q, req, rs[1..], lo, hi).value;
          assert FirstIn(q, req, rs, j + 1, lo, hi);
        }
      }
    }
  }

  lemma PickIsFirst(q: Query, req: Requirement, lo: int, hi: int)
    ensures var pick := FirstFit(q, req, q.cat.resources, lo, hi);
      forall id :: FirstToServe(q, req, id, lo, hi) <==> pick.Some? && pick.value.id == id
  {
    FirstFitIsFirst(q, req, q.cat.resources, lo, hi);
  }

  lemma LastAllotted(q: Query, reqs: seq<Requirement>, lo: int, hi: int, pairs: seq<(int, nat)>)
    requires reqs != [] && reqs[|reqs| - 1].required && pairs != []
    ensures var n, m := |reqs| - 1, |pairs| - 1;
      Allots(q, reqs, lo, hi, pairs) <==>
        (Allots(q, reqs[..n], lo, hi, pairs[..m]) && pairs[m].1 == reqs[n].quantity && FirstToServe(q, reqs[n], pairs[m].0, lo, hi))
  {
    var n, m := |reqs| - 1, |pairs| - 1;
    assert Insisted(reqs) == Insisted(reqs[..n]) + [reqs[n]];
    if Allots(q, reqs[..n], lo, hi, pairs[..m]) && pairs[m].1 == reqs[n].quantity && FirstToServe(q, reqs[n], pairs[m].0, lo, hi) {
      forall k | 0 <= k < |pairs| ensures pairs[k].1 == Insisted(reqs)[k].quantity && FirstToServe(q, Insisted(reqs)[k], pairs[k].0, lo, hi) {
        if k < m { assert pairs[k] == pairs[..m][k] && Insisted(reqs)[k] == Insisted(reqs[..n])[k]; }
      }
    } else if Allots(q, reqs, lo, hi, pairs) {
      forall k | 0 <= k < m ensures pairs[..m][k].1 == Insisted(reqs[..n])[k].quantity && FirstToServe(q, Insisted(reqs[..n])[k], pairs[..m][k].0, lo, hi) {
        assert pairs[k] == pairs[..m][k] && Insisted(reqs)[k] == Insisted(reqs[..n])[k];
      }
    }
  }

  /** A successful allocation, and no other list of pairs, is such an allotment; and it fails only when there is none. */
  lemma {:induction false} AllocationAllots(q: Query, reqs: seq<Requirement>, lo: int, hi: int, pairs: seq<(int, nat)>)
    ensures Allocation(q, reqs, lo, hi) == Some(pairs) <==> Allots(q, reqs, lo, hi, pairs)
  {
    if reqs != [] {
      var n := |reqs| - 1;
      if !reqs[n].required {
        AllocationAllots(q, reqs[..n], lo, hi, pairs);
        assert Insisted(reqs) == Insisted(reqs[..n]);
      } else if pairs == [] {
        assert Insisted(reqs) != [];
      } else {
        var m := |pairs| - 1;
        PickIsFirst(q, reqs[n], lo, hi);
        AllocationAllots(q, reqs[..n], lo, hi, pairs[..m]);
        LastAllotted(q, reqs, lo, hi, pairs);
        LastAllocated(q, reqs, lo, hi, pairs);
      }
    }
  }

  lemma LastAllocated(q: Query, reqs: seq<Requirement>, lo: int, hi: int, pairs: seq<(int, nat)>)
    requires reqs != [] && reqs[|reqs| - 1].required && pairs != []
    ensures var n, m := |reqs| - 1, |pairs| - 1;
      var pick := FirstFit(q, reqs[n], q.cat.resources, lo, hi);
      Allocation(q, reqs, lo, hi) == Some(pairs) <==>
        (Allocation(q, reqs[..n], lo, hi) == Some(pairs[..m]) && pick.Some? && pairs[m] == (pick.value.id, reqs[n].quantity))
  {
    assert pairs == pairs[..|pairs| - 1] + [pairs[|pairs| - 1]];
  }

  /** The service insists on it, and no resource there is can serve it. */
  ghost predicate Unserved(q: Query, req: Requirement, lo: int, hi: int) {
    req.required && forall r :: r in q.cat.resources ==> !Serves(q, req, r, lo, hi)
  }

  lemma UnservedIs(q: Query, req: Requirement, lo: int, hi: int)
    ensures Unserved(q, req, lo, hi) <==> req.required && FirstFit(q, req, q.cat.resources, lo, hi).None?
  {
    forall r ensures Serves(q, req, r, lo, hi) <==> ResourceFits(q, req, r, lo, hi) { ServesIsFits(q, req, r, lo, hi); }
  }

  /** Allocation gives up exactly when some required requirement has no resource that can serve it. */
  lemma {:induction false} AllocationFailsIff(q: Query, reqs: seq<Requirement>, lo: int, hi: int)
    ensures Allocation(q, reqs, lo, hi).None? <==> exists i :: 0 <= i < |reqs| && Unserved(q, reqs[i], lo, hi)
  {
    if reqs != [] {
      var n := |reqs| - 1;
      AllocationFailsIff(q, reqs[..n], lo, hi);
      UnservedIs(q, reqs[n], lo, hi);
      if Allocation(q, reqs[..n], lo, hi).None? {
        var i :| 0 <= i < n && Unserved(q, reqs[..n][i], lo, hi);
        assert Unserved(q, reqs[i], lo, hi);
      } else {
        forall i | 0 <= i < n ensures !Unserved(q, reqs[i], lo, hi) { assert !Unserved(q, reqs[..n][i], lo, hi); }
      }
    }
  }

  // ----- slots -----

  /** Who may be booked online for the service at the branch. */
  predicate MayServe(q: Query, p: Staff) {
    && p.active && p.acceptsOnline && p.memberActive && q.branch.id in p.branches
    && q.serviceId in p.services && p.services[q.serviceId].active
  }

  /** The staff member's own duration for the service when there is one and it is not zero, else the service's. */
  predicate Takes(q: Query, p: Staff, minutes: nat) {
    if q.serviceId in p.services && p.services[q.serviceId].durationOverride.Some? && p.services[q.serviceId].durationOverride.value > 0
    then p.services[q.serviceId].durationOverride == Some(minutes)
    else minutes == q.service.duration
  }

  /** The reading is k intervals after the period begins, and leaves time enough before it ends. */
  predicate GridPoint(day: int, per: Period, interval: int, wall: int, minutes: nat, k: nat) {
    wall == day * DAY + per.start + k * (interval * MINUTE) && wall + minutes * MINUTE <= day * DAY + per.end
  }

  /** A grid point of an opening period of the day, by the slot interval of the policy in force. */
  ghost predicate OnGridOfDay(q: Query, day: int, wall: int, minutes: nat) {
    exists per, policy, k: nat :: BranchPeriod(q, day, per) && PolicyInForce(q.cat, q.branch.id, q.serviceId, policy)
      && GridPoint(day, per, policy.slotInterval, wall, minutes, k)
  }

  /** The branch is open for the whole busy interval: on that one day in one opening period, or by one override. */
  ghost predicate BranchTakes(q: Query, day: int, lo: int, hi: int) {
    var from, to := q.branch.zone.Local(lo), q.branch.zone.Local(hi);
    && from / DAY == day && to / DAY == day
    && (|| (exists per :: BranchPeriod(q, day, per) && per.start <= from % DAY && to % DAY <= per.end)
        || SpannedByOverride(q.cal, Owner(BranchOwner, q.branch.id), lo, hi))
  }

  /** The staff member is open in their own time zone, neither branch nor staff member is blocked, and a seat is free. */
  ghost predicate StaffTakes(q: Query, p: Staff, lo: int, hi: int) {
    var zone := if p.zoneOverride.Some? then p.zoneOverride.value else q.branch.zone;
    && OpenFor(q.cal, Owner(StaffOwner, p.id), zone, lo, hi)
    && Unblocked(q.cal, Owner(BranchOwner, q.branch.id), q.branch.zone, lo, hi)
    && Unblocked(q.cal, Owner(StaffOwner, p.id), zone, lo, hi)
    && |HoldsOf(q.tables, p.id, lo, hi, q.now)| + |AppointmentsOf(q.tables, p.id, lo, hi)| < p.maximumConcurrent
  }

  /** The slot is so many minutes of the staff member's time, with its local readings. */
  predicate Describes(q: Query, p: Staff, minutes: nat, s: Slot) {
    && s.staff == p.id && s.endsAt == s.startsAt + minutes * MINUTE
    && s.localStart == q.branch.zone.Local(s.startsAt) && s.localEnd == q.branch.zone.Local(s.endsAt)
    && s.fold == q.branch.zone.FoldOf(s.startsAt)
  }

  /** Not at shorter notice than the service wants, and over before its booking horizon. */
  predicate InTime(q: Query, s: Slot) {
    s.startsAt - q.now >= q.service.minimumNotice * 60_000_000 && s.endsAt - q.now <= q.service.maximumAdvanceDays * 24 * 60 * 60_000_000
  }

  /** The slot with its buffers. */
  function BusyFrom(q: Query, s: Slot): int { s.startsAt - q.service.bufferBefore * 60_000_000 }

  function BusyTo(q: Query, s: Slot): int { s.endsAt + q.service.bufferAfter * 60_000_000 }

  /** Staff member p offers the slot, which takes so many minutes. */
  ghost predicate OffersFor(q: Query, p: Staff, minutes: nat, s: Slot) {
    && MayServe(q, p) && Takes(q, p, minutes) && Describes(q, p, minutes, s) && InTime(q, s)
    && OnGridOfDay(q, s.localStart / DAY, s.localStart, minutes)
    && BranchTakes(q, s.localStart / DAY, BusyFrom(q, s), BusyTo(q, s))
    && StaffTakes(q, p, BusyFrom(q, s), BusyTo(q, s))
    && Allots(q, q.service.requirements, BusyFrom(q, s), BusyTo(q, s), s.allocations)
  }

  /** The slot is on offer: by some staff member, by the one asked for when one is, and on a local day of the range. */
  ghost predicate OnOffer(q: Query, only: Option<int>, from: int, to: int, s: Slot) {
    && from <= s.localStart / DAY <= to && (only.Some? ==> s.staff == only.value)
    && exists p, minutes: nat :: p in q.cat.staff && OffersFor(q, p, minutes, s)
  }

  lemma TakesIs(q: Query, p: Staff, minutes: nat)
    ensures Takes(q, p, minutes) <==> minutes == Minutes(q, p)
  {
  }

  lemma GridPointIs(q: Query, p: Staff, day: int, per: Period, wall: int)
    ensures (exists k: nat :: GridPoint(day, per, q.Interval(), wall, Minutes(q, p), k)) <==> OnGrid(q, p, day, per, wall)
  {
    var step, since := q.Interval() * MINUTE, wall - (day * DAY + per.start);
    if OnGrid(q, p, day, per, wall) {
      var k: nat := since / step;
      assert since == k * step;
      assert GridPoint(day, per, q.Interval(), wall, Minutes(q, p), k);
    }
    forall k: nat | GridPoint(day, per, q.Interval(), wall, Minutes(q, p), k) ensures OnGrid(q, p, day, per, wall) {
      assert 0 <= k * step && (k + 1) * step == k * step + step;
      NextGridPoint(since, step, k);
    }
  }

  lemma OnGridOfDayIs(q: Query, p: Staff, day: int, wall: int)
    ensures OnGridOfDay(q, day, wall, Minutes(q, p)) <==> OnSomeGrid(q, p, day, wall)
  {
    var policy := ResolvePolicy(q.cat, q.branch.id, q.serviceId);
    forall other ensures PolicyInForce(q.cat, q.branch.id, q.serviceId, other) <==> other == policy {
      PolicyInForceIsResolved(q.cat, q.branch.id, q.serviceId, other);
    }
    forall per ensures per in BranchPeriods(q.cal, q.branch.id, q.branch.hours, q.branch.zone, day) <==> BranchPeriod(q, day, per) {
      BranchPeriodsAre(q, day, per);
    }
    forall per: Period
      ensures (exists k: nat :: GridPoint(day, per, policy.slotInterval, wall, Minutes(q, p), k)) <==> OnGrid(q, p, day, per, wall)
    {
      GridPointIs(q, p, day, per, wall);
    }
  }

  lemma BranchTakesIs(q: Query, p: Staff, day: int, start: int)
    ensures BranchTakes(q, day, BusyStart(q, start), BusyEnd(q, p, start)) <==> BranchOpen(q, p, day, start)
  {
    forall per ensures per in BranchPeriods(q.cal, q.branch.id, q.branch.hours, q.branch.zone, day) <==> BranchPeriod(q, day, per) {
      BranchPeriodsAre(q, day, per);
    }
  }

  lemma StaffTakesIs(q: Query, p: Staff, day: int, start: int)
    requires q.branch.zone.Local(BusyStart(q, start)) / DAY == day
    ensures StaffTakes(q, p, BusyStart(q, start), BusyEnd(q, p, start)) <==> ScheduleOpen(q, p, day, start) && SeatFree(q, p, start)
  {
    var lo, hi, zone := BusyStart(q, start), BusyEnd(q, p, start), StaffZone(q, p);
    OpenForIsAllowed(q.cal, Owner(StaffOwner, p.id), zone, lo, hi);
    UnblockedIs(q.cal, Owner(BranchOwner, q.branch.id), q.branch.zone, lo, hi);
    UnblockedIs(q.cal, Owner(StaffOwner, p.id), zone, lo, hi);
    SeatLoadIsCount(q.tables, p.id, lo, hi, q.now);
  }

  /** What the gates leave to say about a slot. */
  lemma GatesAre(q: Query, p: Staff, day: int, start: int)
    ensures (BranchTakes(q, day, BusyStart(q, start), BusyEnd(q, p, start)) && StaffTakes(q, p, BusyStart(q, start), BusyEnd(q, p, start)))
      <==> (BranchOpen(q, p, day, start) && ScheduleOpen(q, p, day, start) && SeatFree(q, p, start))
  {
    BranchTakesIs(q, p, day, start);
    if BranchOpen(q, p, day, start) { StaffTakesIs(q, p, day, start); }
  }

  /** Described with an allotment, the slot is the one the search records. */
  lemma DescribesIs(q: Query, p: Staff, s: Slot)
    ensures (Describes(q, p, Minutes(q, p), s) && Allots(q, q.service.requirements, BusyFrom(q, s), BusyTo(q, s), s.allocations))
      <==> (s == SlotAt(q, p, s.startsAt) && SlotResources(q, p, s.startsAt).Some?)
  {
    if s.endsAt == EndsAt(q, p, s.startsAt) {
      assert BusyFrom(q, s) == BusyStart(q, s.startsAt) && BusyTo(q, s) == BusyEnd(q, p, s.startsAt);
      AllocationAllots(q, q.service.requirements, BusyFrom(q, s), BusyTo(q, s), s.allocations);
    }
  }

  lemma MayServeIs(q: Query, p: Staff)
    ensures MayServe(q, p) <==> Eligible(q, None, p)
  {
  }

  lemma OfferedIsFound(q: Query, p: Staff, s: Slot)
    requires OffersFor(q, p, Minutes(q, p), s)
    ensures StaffSlot(q, None, p, DayOf(q.branch.zone.Local(s.startsAt)), s)
  {
    var day := DayOf(q.branch.zone.Local(s.startsAt));
    assert s.localStart / DAY == day && BusyFrom(q, s) == BusyStart(q, s.startsAt) && BusyTo(q, s) == BusyEnd(q, p, s.startsAt);
    MayServeIs(q, p);
    DescribesIs(q, p, s);
    OnGridOfDayIs(q, p, day, s.localStart);
    GatesAre(q, p, day, s.startsAt);
  }

  lemma FoundIsOffered(q: Query, p: Staff, s: Slot)
    requires StaffSlot(q, None, p, DayOf(q.branch.zone.Local(s.startsAt)), s)
    ensures OffersFor(q, p, Minutes(q, p), s)
  {
    var day := DayOf(q.branch.zone.Local(s.startsAt));
    MayServeIs(q, p);
    TakesIs(q, p, Minutes(q, p));
    DescribesIs(q, p, s);
    assert s.localStart / DAY == day && BusyFrom(q, s) == BusyStart(q, s.startsAt) && BusyTo(q, s) == BusyEnd(q, p, s.startsAt);
    OnGridOfDayIs(q, p, day, s.localStart);
    GatesAre(q, p, day, s.startsAt);
  }

  /** The slots of the search are exactly those on offer by the rows. */
  lemma SlotsAreOnOffer(q: Query, only: Option<int>, from: int, to: int, s: Slot)
    ensures IsSlot(q, only, from, to, s) <==> OnOffer(q, only, from, to, s)
  {
    var day := DayOf(q.branch.zone.Local(s.startsAt));
    forall p: Staff, minutes: nat | OffersFor(q, p, minutes, s) ensures minutes == Minutes(q, p) { TakesIs(q, p, minutes); }
    forall p: Staff | OffersFor(q, p, Minutes(q, p), s) ensures StaffSlot(q, None, p, day, s) { OfferedIsFound(q, p, s); }
    forall p: Staff | StaffSlot(q, None, p, day, s) ensures OffersFor(q, p, Minutes(q, p), s) { FoundIsOffered(q, p, s); }
  }
}
