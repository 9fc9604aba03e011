/**
  The booking services as they run: each transaction updates the stored rows in place and does what `Bookings` says. Every
  service keeps `Valid`: the rows are those that follow from the transactions made so far, so what the other modules prove
  of every log holds of them.
  */
module BookingDesk {
  import opened Totals
  import opened Calendars
  import opened Catalogs
  import opened Occupancy
  import opened Availability
  import opened Text
  import opened Bookings
  import opened BookingSafety
  import opened BookingGaps
  import opened BookingRetries
  import opened BookingLogs
  import AvailabilityService

  /** A transaction that looks no slot up. */
  function At(e: Event, now: int): Entry { Entry(e, now, NO_CALENDAR) }

  /** Keys are unique; and whatever the clock says now, limits and gaps are kept if every replay so far has spared them. */
  ghost predicate Upheld(cat: Catalog, log: seq<Entry>, t: Tables) {
    && UniqueKeys(t)
    && (AlwaysSparesLimits(cat, log) ==> forall now :: Timely(log, now) ==> WithinLimits(cat, t, now))
    && (AlwaysSparesGaps(cat, log) ==> forall now :: Timely(log, now) ==> AllApart(cat, t, now))
  }

  lemma AlwaysUpheld(cat: Catalog, log: seq<Entry>)
    requires cat.Valid()
    ensures Upheld(cat, log, After(cat, log))
  {
    AlwaysUniqueKeys(cat, log);
    forall now | Timely(log, now)
      ensures AlwaysSparesLimits(cat, log) ==> WithinLimits(cat, After(cat, log), now)
      ensures AlwaysSparesGaps(cat, log) ==> AllApart(cat, After(cat, log), now)
    {
      LogSafeIff(cat, log, now);
      LogApartIff(cat, log, now);
    }
  }

  /** One transaction later the rows are those of the longer log. */
  lemma Noted(cat: Catalog, log: seq<Entry>, x: Entry)
    requires cat.Valid()
    ensures After(cat, log + [x]) == Step(cat, After(cat, log), x)
    ensures Upheld(cat, log + [x], After(cat, log + [x]))
  {
    assert (log + [x])[..|log|] == log;
    AlwaysUpheld(cat, log + [x]);
  }

  /** One link row an allocation; the unique constraint refuses a second row for one resource. */
  method StoreLinks(allocations: seq<(int, nat)>) returns (links: Option<map<int, nat>>)
    ensures links == if DistinctResources(allocations) then Some(Links(allocations)) else None
  {
    var stored: map<int, nat> := map[];
    StoredLinksSpec(allocations);
    for i := 0 to |allocations|
      invariant StoredLinks(allocations[..i]) == Some(stored)
    {
      assert allocations[..i + 1][..i] == allocations[..i];
      if allocations[i].0 in stored {
        StoredLinksPrefix(allocations, i + 1);
        return None;
      }
      stored := stored[allocations[i].0 := allocations[i].1];
    }
    assert allocations[..|allocations|] == allocations;
    links := Some(stored);
  }

  class Desk {
    const cat: Catalog
    var holds: seq<Hold>
    var appointments: seq<Appointment>
    ghost var log: seq<Entry>

    function State(): Tables
      reads this
    {
      Tables(holds, appointments)
    }

    /** The rows are what the transactions in `log` made of empty tables. */
    ghost predicate Valid()
      reads this
    {
      cat.Valid() && State() == After(cat, log) && Upheld(cat, log, State())
    }

    constructor (cat: Catalog)
      requires cat.Valid()
      ensures Valid() && log == []
      ensures this.cat == cat && State() == Tables([], [])
    {
      this.cat := cat;
      holds, appointments, log := [], [], [];
      new;
      AlwaysUpheld(cat, []);
    }

    /** The writing half of `create`. */
    method WriteHold(req: HoldRequest, slot: Option<Slot>, now: int) returns (r: Result<nat>)
      modifies `holds
      ensures (State(), r) == PlaceHold(cat, old(State()), req, slot, now)
    {
      if slot.None? {
        return Err("slot_unavailable");
      }
      if slot.value.endsAt <= slot.value.startsAt || MAX_KEY < |req.key| {
        return Err("validation_error");
      }
      var links := StoreLinks(slot.value.allocations);
      if links.None? {
        return Err("integrity_error");
      }
      var place := Reservation(req.branch, req.service, slot.value.staff, slot.value.startsAt, slot.value.endsAt, links.value);
      var expiresAt := now + ResolvePolicy(cat, req.branch, req.service).holdSeconds * 1_000_000;
      holds := holds + [Hold(place, expiresAt, req.key, Active)];
      r := Ok(|holds| - 1);
    }

    /** `AppointmentHoldService.create`, inside its transaction. */
    method MakeHold(cal: Calendar, req: HoldRequest, now: int) returns (r: Result<nat>)
      requires cat.Valid()
      modifies `holds
      ensures (State(), r) == Bookings.CreateHold(cat, cal, old(State()), req, now)
    {
      if Blank(req.key) {
        return Err("idempotency_key_required");
      }
      var existing := HoldByKey(holds, req.key);
      if existing.Some? {
        return Ok(existing.value);
      }
      if req.branch !in cat.branches || !cat.branches[req.branch].active {
        return Err("resource_not_found");
      }
      if req.service !in cat.services || !cat.services[req.service].active {
        return Err("resource_not_found");
      }
      var slot := AvailabilityService.MatchingSlot(
        QueryFor(cat, cal, State(), req.branch, req.service, now), req.staff, req.startsAt);
      if slot.Err? {
        return Err(slot.code);
      }
      r := WriteHold(req, slot.value, now);
    }

    /** `AppointmentHoldService.create`. */
    method CreateHold(cal: Calendar, req: HoldRequest, now: int) returns (r: Result<nat>)
      requires Valid()
      modifies this
      ensures Valid() && log == old(log) + [Entry(HoldEvent(req), now, cal)]
      ensures (State(), r) == Bookings.CreateHold(cat, cal, old(State()), req, now)
    {
      Noted(cat, log, Entry(HoldEvent(req), now, cal));
      log := log + [Entry(HoldEvent(req), now, cal)];
      r := MakeHold(cal, req, now);
    }

    /** `AppointmentService.create_from_hold`, inside its transaction. */
    method ConvertHold(hold: nat, key: string, id: string, entitled: bool, now: int) returns (r: Result<nat>)
      modifies `holds, `appointments
      ensures (State(), r) == Bookings.CreateFromHold(cat, old(State()), hold, key, id, entitled, now)
    {
      if Blank(key) {
        return Err("idempotency_key_required");
      }
      if !entitled {
        return Err("feature_not_entitled");
      }
      var existing := AppointmentByKey(appointments, key);
      if existing.Some? {
        return Ok(existing.value);
      }
      if |holds| <= hold {
        return Err("resource_not_found");
      }
      if !holds[hold].status.Active? || holds[hold].expiresAt <= now {
        return Err("hold_expired");
      }
      if MAX_KEY < |key| {
        return Err("validation_error");
      }
      var place := holds[hold].place;
      var pending := StartsPending(cat, place);
      appointments := appointments + [Appointment(id, place, if pending then PendingConfirmation else Confirmed, key)];
      holds := holds[hold := holds[hold].(status := Converted)];
      r := Ok(|appointments| - 1);
    }

    /** `AppointmentService.create_from_hold`. */
    method CreateFromHold(hold: nat, key: string, id: string, entitled: bool, now: int) returns (r: Result<nat>)
      requires Valid()
      modifies this
      ensures Valid() && log == old(log) + [At(ConvertEvent(hold, key, id, entitled), now)]
      ensures (State(), r) == Bookings.CreateFromHold(cat, old(State()), hold, key, id, entitled, now)
    {
      Noted(cat, log, At(ConvertEvent(hold, key, id, entitled), now));
      log := log + [At(ConvertEvent(hold, key, id, entitled), now)];
      r := ConvertHold(hold, key, id, entitled, now);
    }

    method SaveStatus(a: nat, status: Status)
      requires a < |appointments|
      modifies `appointments
      ensures State() == old(State()).(appointments := old(appointments)[a := old(appointments)[a].(status := status)])
    {
      appointments := appointments[a := appointments[a].(status := status)];
    }

    /** `AppointmentService.confirm`. */
    method Confirm(a: nat, byCustomer: bool, tokenError: Option<string>, ghost now: int) returns (r: Result<bool>)
      requires Valid()
      modifies this
      ensures Valid() && log == old(log) + [At(ConfirmEvent(a, byCustomer, tokenError), now)]
      ensures (State(), r) == Bookings.Confirm(cat, old(State()), a, byCustomer, tokenError)
    {
      Noted(cat, log, At(ConfirmEvent(a, byCustomer, tokenError), now));
      log := log + [At(ConfirmEvent(a, byCustomer, tokenError), now)];
      if |appointments| <= a {
        return Err("resource_not_found");
      }
      var row := appointments[a];
      if row.status.Confirmed? {
        return Ok(false);
      }
      if !row.status.PendingConfirmation? {
        return Err("invalid_status_transition");
      }
      if byCustomer && row.place.service in cat.services && cat.services[row.place.service].mode.ManualOnly? {
        return Err("manual_confirmation_required");
      }
      if tokenError.Some? {
        return Err(tokenError.value);
      }
      SaveStatus(a, Confirmed);
      r := Ok(true);
    }

    /** `AppointmentService.reschedule`, inside its transaction: whatever hold the key yields, the appointment is moved onto it. */
    method MoveAppointment(cal: Calendar, a: nat, startsAt: int, key: string, customer: bool, now: int) returns (r: Result<nat>)
      requires cat.Valid()
      modifies `holds, `appointments
      ensures (State(), r) == Bookings.Reschedule(cat, cal, old(State()), a, startsAt, key, customer, now)
    {
      if Blank(key) {
        return Err("idempotency_key_required");
      }
      if |appointments| <= a {
        return Err("resource_not_found");
      }
      var row := appointments[a];
      if !Blocking(row.status) {
        return Err("invalid_status_transition");
      }
      if customer && !ResolvePolicy(cat, row.place.branch, row.place.service).allowReschedule {
        return Err("reschedule_not_allowed");
      }
      var req := HoldRequest(row.place.branch, row.place.service, Some(row.place.staff), startsAt, RescheduleKey(row, key));
      var made := MakeHold(cal, req, now);
      if made.Err? {
        RefusedHoldChangesNothing(cat, cal, old(State()), req, now);
        return Err(made.code);
      }
      HoldIsStored(cat, cal, old(State()), req, now);
      var hold := holds[made.value];
      var place := row.place.(startsAt := hold.place.startsAt, endsAt := hold.place.endsAt, links := hold.place.links);
      appointments := appointments[a := row.(place := place)];
      holds := holds[made.value := hold.(status := Converted)];
      r := Ok(a);
    }

    /** `AppointmentService.reschedule`. */
    method Reschedule(cal: Calendar, a: nat, startsAt: int, key: string, customer: bool, now: int) returns (r: Result<nat>)
      requires Valid()
      modifies this
      ensures Valid() && log == old(log) + [Entry(RescheduleEvent(a, startsAt, key, customer), now, cal)]
      ensures (State(), r) == Bookings.Reschedule(cat, cal, old(State()), a, startsAt, key, customer, now)
    {
      Noted(cat, log, Entry(RescheduleEvent(a, startsAt, key, customer), now, cal));
      log := log + [Entry(RescheduleEvent(a, startsAt, key, customer), now, cal)];
      r := MoveAppointment(cal, a, startsAt, key, customer, now);
    }

    /** `AppointmentService.cancel`. */
    method Cancel(a: nat, customer: bool, now: int) returns (r: Result<bool>)
      requires Valid()
      modifies this
      ensures Valid() && log == old(log) + [At(CancelEvent(a, customer), now)]
      ensures (State(), r) == Bookings.Cancel(cat, old(State()), a, customer, now)
    {
      Noted(cat, log, At(CancelEvent(a, customer), now));
      log := log + [At(CancelEvent(a, customer), now)];
      if |appointments| <= a {
        return Err("resource_not_found");
      }
      var row := appointments[a];
      if row.status.Cancelled? {
        return Ok(false);
      }
      if !Blocking(row.status) {
        return Err("invalid_status_transition");
      }
      var policy := ResolvePolicy(cat, row.place.branch, row.place.service);
      var notice := CancellationNotice(cat, row.place);
      if customer && (!policy.allowCancel || row.place.startsAt - now < notice * MINUTE) {
        return Err("cancellation_window_closed");
      }
      SaveStatus(a, Cancelled);
      r := Ok(true);
    }

    /** `AppointmentService.set_status`. */
    method SetStatus(a: nat, to: Status, ghost now: int) returns (r: Result<bool>)
      requires Valid()
      modifies this
      ensures Valid() && log == old(log) + [At(StatusEvent(a, to), now)]
      ensures (State(), r) == Bookings.SetStatus(old(State()), a, to)
    {
      Noted(cat, log, At(StatusEvent(a, to), now));
      log := log + [At(StatusEvent(a, to), now)];
      if |appointments| <= a {
        return Err("resource_not_found");
      }
      if !AllowedTransition(appointments[a].status, to) {
        return Err("invalid_status_transition");
      }
      SaveStatus(a, to);
      r := Ok(true);
    }

    /** `expire_booking_holds`, with the number of holds it expired, inside its transaction. */
    method LapseHolds(now: int) returns (count: nat)
      modifies `holds
      ensures State() == Bookings.ExpireHolds(old(State()), now)
      ensures count == Total(DueForExpiry(now), old(holds))
    {
      ghost var was := holds;
      count := 0;
      for i := 0 to |holds|
        invariant |holds| == |was|
        invariant forall k :: 0 <= k < |was| ==> holds[k] == if k < i then Lapse(was[k], now) else was[k]
        invariant count == Total(DueForExpiry(now), was[..i])
      {
        assert was[..i + 1][..i] == was[..i];
        if holds[i].status.Active? && holds[i].expiresAt <= now {
          holds := holds[i := holds[i].(status := Expired)];
          count := count + 1;
        }
      }
      assert was[..|was|] == was;
    }

    /** `expire_booking_holds`, with the number of holds it expired. */
    method ExpireHolds(now: int) returns (count: nat)
      requires Valid()
      modifies this
      ensures Valid() && log == old(log) + [At(ExpireEvent, now)]
      ensures State() == Bookings.ExpireHolds(old(State()), now)
      ensures count == Total(DueForExpiry(now), old(holds))
    {
      Noted(cat, log, At(ExpireEvent, now));
      log := log + [At(ExpireEvent, now)];
      count := LapseHolds(now);
    }
  }
}
