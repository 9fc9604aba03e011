/** No overbooking: what every booking transaction keeps. */
module BookingSafety {
  import opened Totals
  import opened Calendars
  import opened Catalogs
  import opened Occupancy
  import opened Availability
  import opened Bookings
  import AvailabilityService

  /** The catalog grants `limit` to a claim: a staff member's maximum, or a resource's capacity. */
  ghost predicate Limit(cat: Catalog, c: Claim, limit: nat) {
    match c
    case Seat(staff) => exists p :: p in cat.staff && p.id == staff && p.maximumConcurrent == limit
    case Unit(resource) => exists r :: r in cat.resources && r.id == resource && r.capacity == limit
  }

  /** At no instant is any claim used beyond its limit. */
  ghost predicate WithinLimits(cat: Catalog, t: Tables, now: int) {
    forall c, limit, at :: Limit(cat, c, limit) ==> Usage(t, c, at, now) <= limit
  }

  /** The window check that guards a placement. */
  ghost predicate HasRoom(cat: Catalog, t: Tables, place: Reservation, lo: int, hi: int, now: int) {
    && lo <= place.startsAt && place.endsAt <= hi
    && forall c, limit :: Limit(cat, c, limit) && 0 < Demand(c, place) ==> Load(t, c, lo, hi, now) + Demand(c, place) <= limit
  }

  lemma LimitUnique(cat: Catalog, c: Claim, a: nat, b: nat)
    requires cat.Valid() && Limit(cat, c, a) && Limit(cat, c, b)
    ensures a == b
  {
  }

  // ----- what a found slot guarantees -----

  /** The staff member behind a found slot: the seat was free over the busy interval and the resources were allocated. */
  lemma FoundSlot(q: Query, only: Option<int>, start: int, slot: Slot) returns (p: Staff)
    requires AvailabilityService.Match(q, only, start) == Some(slot)
    ensures p in q.cat.staff && slot == SlotAt(q, p, start) && SeatFree(q, p, start) && SlotResources(q, p, start).Some?
    ensures only.Some? ==> slot.staff == only.value
  {
    var day := DayOf(q.branch.zone.Local(start));
    AvailabilityService.MatchIsMatch(q, only, start);
    assert IsSlot(q, only, day, day, slot);
    p :| p in q.cat.staff && StaffSlot(q, only, p, day, slot);
  }

  lemma SlotHasRoom(q: Query, only: Option<int>, start: int, slot: Slot, place: Reservation) returns (p: Staff)
    requires q.cat.Valid() && AvailabilityService.Match(q, only, start) == Some(slot)
    requires place.staff == slot.staff && place.startsAt == slot.startsAt && place.endsAt == slot.endsAt && place.links == Links(slot.allocations)
    ensures p in q.cat.staff && p.id == place.staff && slot == SlotAt(q, p, start) && SeatFree(q, p, start)
    ensures HasRoom(q.cat, q.tables, place, BusyStart(q, start), BusyEnd(q, p, start), q.now)
  {
    p := FoundSlot(q, only, start, slot);
    var lo, hi := BusyStart(q, start), BusyEnd(q, p, start);
    forall c, limit | Limit(q.cat, c, limit) && 0 < Demand(c, place) ensures Load(q.tables, c, lo, hi, q.now) + Demand(c, place) <= limit {
      match c
      case Seat(staff) => LimitUnique(q.cat, c, limit, p.maximumConcurrent);
      case Unit(resource) => UnitHasRoom(q, lo, hi, slot.allocations, resource, limit);
    }
  }

  lemma UnitHasRoom(q: Query, lo: int, hi: int, allocations: seq<(int, nat)>, resource: int, limit: nat)
    requires q.cat.Valid() && Limit(q.cat, Unit(resource), limit)
    requires Allocation(q, q.service.requirements, lo, hi) == Some(allocations) && resource in Links(allocations)
    ensures Load(q.tables, Unit(resource), lo, hi, q.now) + Links(allocations)[resource] <= limit
  {
    var i :| 0 <= i < |allocations| && allocations[i] == (resource, Links(allocations)[resource]);
    AllocationHasRoom(q, q.service.requirements, lo, hi, i);
    var r :| r in q.cat.resources && r.id == resource && Load(q.tables, Unit(resource), lo, hi, q.now) + allocations[i].1 <= r.capacity;
    LimitUnique(q.cat, Unit(resource), limit, r.capacity);
  }

  // ----- the steps -----

  /** A hold placed where the window check passed keeps every claim within its limit. */
  lemma PlacementWithinLimits(cat: Catalog, t: Tables, h: Hold, lo: int, hi: int, now: int)
    requires WithinLimits(cat, t, now) && HasRoom(cat, t, h.place, lo, hi, now)
    ensures WithinLimits(cat, t.(holds := t.holds + [h]), now)
  {
    forall c, limit, at | Limit(cat, c, limit) ensures Usage(t.(holds := t.holds + [h]), c, at, now) <= limit {
      LoadAfterHold(t, h, c, at, at + 1, now);
      assert Usage(t, c, at, now) <= limit;
      if lo <= at < hi { UsageWithinLoad(t, c, at, lo, hi, now); }
    }
  }

  /** Conversion conserves occupancy: at every instant every claim is used exactly as much as before. */
  lemma ConversionConserves(cat: Catalog, t: Tables, hold: nat, key: string, id: string, entitled: bool, now: int, c: Claim, at: int)
    ensures Usage(CreateFromHold(cat, t, hold, key, id, entitled, now).0, c, at, now) == Usage(t, c, at, now)
  {
    var (u, r) := CreateFromHold(cat, t, hold, key, id, entitled, now);
    if u != t {
      var converted := t.holds[hold].(status := Converted);
      var v := t.(holds := t.holds[hold := converted]);
      LoadAfterHoldUpdate(t, hold, converted, c, at, at + 1, now);
      LoadAfterAppointment(v, u.appointments[|t.appointments|], c, at, at + 1, now);
      assert u == v.(appointments := v.appointments + [u.appointments[|t.appointments|]]);
    }
  }

  /** What a move does to the use of a claim, for any hold and any appointment. */
  lemma MoveBalance(t: Tables, a: nat, hold: nat, c: Claim, at: int, now: int)
    requires a < |t.appointments| && hold < |t.holds|
    ensures Usage(Move(t, a, hold), c, at, now) + AppointmentUse(c, at, at + 1)(t.appointments[a]) + HoldUse(c, at, at + 1, now)(t.holds[hold])
         == Usage(t, c, at, now) + AppointmentUse(c, at, at + 1)(MovedTo(t.appointments[a], t.holds[hold]))
  {
    var moved, converted := MovedTo(t.appointments[a], t.holds[hold]), t.holds[hold].(status := Converted);
    var v := t.(holds := t.holds[hold := converted]);
    LoadAfterHoldUpdate(t, hold, converted, c, at, at + 1, now);
    LoadAfterAppointmentUpdate(v, a, moved, c, at, at + 1, now);
    assert Move(t, a, hold) == v.(appointments := v.appointments[a := moved]);
  }

  lemma ShrinkWithinLimits(cat: Catalog, t: Tables, u: Tables, now: int, later: int)
    requires WithinLimits(cat, t, now) && Shrinks(t, u) && now <= later
    ensures WithinLimits(cat, u, later)
  {
    forall c, limit, at | Limit(cat, c, limit) ensures Usage(u, c, at, later) <= limit { UsageShrinks(t, u, c, at, now, later); }
  }

  /** A request answered with a new hold: the slot found, and the row it became. */
  lemma CreatedHold(cat: Catalog, cal: Calendar, t: Tables, req: HoldRequest, now: int)
    returns (h: Hold, p: Staff, lo: int, hi: int)
    requires cat.Valid() && CreateHold(cat, cal, t, req, now).0 != t
    ensures CreateHold(cat, cal, t, req, now) == (t.(holds := t.holds + [h]), Ok(|t.holds|))
    ensures h.status == Active && h.place.branch == req.branch && h.place.service == req.service && h.place.startsAt < h.place.endsAt
    ensures h.key == req.key && (req.staff.Some? ==> h.place.staff == req.staff.value)
    ensures p in cat.staff && p.id == h.place.staff && req.service in cat.services
    ensures lo == h.place.startsAt - cat.services[req.service].bufferBefore * MINUTE
    ensures hi == h.place.endsAt + cat.services[req.service].bufferAfter * MINUTE
    ensures Load(t, Seat(p.id), lo, hi, now) < p.maximumConcurrent
    ensures HasRoom(cat, t, h.place, lo, hi, now)
  {
    var q := QueryFor(cat, cal, t, req.branch, req.service, now);
    var slot := AvailabilityService.Match(q, req.staff, req.startsAt).value;
    var _ := FoundSlot(q, req.staff, req.startsAt, slot);
    h := HoldFor(cat, req, slot, now);
    p := SlotHasRoom(q, req.staff, req.startsAt, slot, h.place);
    lo, hi := BusyStart(q, req.startsAt), BusyEnd(q, p, req.startsAt);
  }

  /** Confirming, cancelling, other status changes and expiry only release. */
  lemma OthersShrink(cat: Catalog, t: Tables, x: Entry)
    requires !x.event.HoldEvent? && !x.event.ConvertEvent? && !x.event.RescheduleEvent?
    ensures Shrinks(t, Step(cat, t, x))
  {
  }

  /** One transaction, other than a reschedule under a used key, keeps every claim within its limit. */
  lemma StepWithinLimits(cat: Catalog, t: Tables, x: Entry, now: int)
    requires cat.Valid() && WithinLimits(cat, t, now) && now <= x.now && FreshKey(t, x.event)
    ensures WithinLimits(cat, Step(cat, t, x), x.now)
  {
    ShrinkWithinLimits(cat, t, t, now, x.now);
    var u := Step(cat, t, x);
    match x.event
    case HoldEvent(req) => CreateWithinLimits(cat, x.cal, t, req, x.now);
    case ConvertEvent(hold, key, id, entitled) =>
      forall c, limit, at | Limit(cat, c, limit) ensures Usage(u, c, at, x.now) <= limit {
        ConversionConserves(cat, t, hold, key, id, entitled, x.now, c, at);
        assert Usage(t, c, at, x.now) <= limit;
      }
    case RescheduleEvent(row, startsAt, key, customer) => RescheduleWithinLimits(cat, x.cal, t, row, startsAt, key, customer, x.now);
    case _ =>
      OthersShrink(cat, t, x);
      ShrinkWithinLimits(cat, t, u, x.now, x.now);
  }

  lemma CreateWithinLimits(cat: Catalog, cal: Calendar, t: Tables, req: HoldRequest, now: int)
    requires cat.Valid() && WithinLimits(cat, t, now)
    ensures WithinLimits(cat, CreateHold(cat, cal, t, req, now).0, now)
  {
    if CreateHold(cat, cal, t, req, now).0 != t {
      var h, _, lo, hi := CreatedHold(cat, cal, t, req, now);
      PlacementWithinLimits(cat, t, h, lo, hi, now);
    }
  }

  /** The request a reschedule makes for its hold. */
  function MoveRequest(row: Appointment, startsAt: int, key: string): HoldRequest {
    HoldRequest(row.place.branch, row.place.service, Some(row.place.staff), startsAt, RescheduleKey(row, key))
  }

  lemma RescheduleWithinLimits(cat: Catalog, cal: Calendar, t: Tables, a: nat, startsAt: int, key: string, customer: bool, now: int)
    requires cat.Valid() && WithinLimits(cat, t, now) && FreshKey(t, RescheduleEvent(a, startsAt, key, customer))
    ensures WithinLimits(cat, Reschedule(cat, cal, t, a, startsAt, key, customer, now).0, now)
  {
    var v := Reschedule(cat, cal, t, a, startsAt, key, customer, now).0;
    if v != t {
      var req := MoveRequest(t.appointments[a], startsAt, key);
      FreshCreates(cat, cal, t, req, now);
      var h, _, lo, hi := CreatedHold(cat, cal, t, req, now);
      var live := h.(expiresAt := now + 1);
      PlacementWithinLimits(cat, t, live, lo, hi, now);
      forall c, limit, at | Limit(cat, c, limit) ensures Usage(v, c, at, now) <= limit {
        MoveAfterPlacement(t, h, a, c, at, now);
        assert Usage(t.(holds := t.holds + [live]), c, at, now) <= limit;
      }
    }
  }

  /** After placing a hold and moving onto it, no more is used than if the hold had simply been placed, live. */
  lemma MoveAfterPlacement(t: Tables, h: Hold, a: nat, c: Claim, at: int, now: int)
    requires a < |t.appointments| && h.place.staff == t.appointments[a].place.staff && h.status.Active?
    ensures Usage(Move(t.(holds := t.holds + [h]), a, |t.holds|), c, at, now)
         <= Usage(t.(holds := t.holds + [h.(expiresAt := now + 1)]), c, at, now)
  {
    LoadAfterHold(t, h, c, at, at + 1, now);
    LoadAfterHold(t, h.(expiresAt := now + 1), c, at, at + 1, now);
    MoveBalance(t.(holds := t.holds + [h]), a, |t.holds|, c, at, now);
  }

  /** Under an unused key a successful request writes a new row. */
  lemma FreshCreates(cat: Catalog, cal: Calendar, t: Tables, req: HoldRequest, now: int)
    requires HoldByKey(t.holds, req.key).None?
    ensures var (u, r) := CreateHold(cat, cal, t, req, now); r.Ok? <==> u != t
  {
    var (u, r) := CreateHold(cat, cal, t, req, now);
    assert r.Ok? ==> |u.holds| == |t.holds| + 1;
  }
}
