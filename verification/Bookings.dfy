/** What each booking transaction does to the tables: `AppointmentHoldService`, `AppointmentService`, `expire_booking_holds`. */
module Bookings {
  import opened Totals
  import opened Calendars
  import opened Catalogs
  import opened Occupancy
  import opened Availability
  import opened Text
  import AvailabilityService

  /** The length of the key columns. */
  const MAX_KEY := 200

  datatype HoldRequest = HoldRequest(branch: int, service: int, staff: Option<int>, startsAt: int, key: string)

  function HasHoldKey(key: string): Hold -> bool { (h: Hold) => h.key == key }

  /** The hold stored under an idempotency key. */
  function HoldByKey(holds: seq<Hold>, key: string): (r: Option<nat>)
    ensures r.Some? ==> r.value < |holds| && holds[r.value].key == key
    ensures r.None? ==> forall h :: h in holds ==> h.key != key
  {
    FindSpec(HasHoldKey(key), holds);
    Find(HasHoldKey(key), holds)
  }

  function HasAppointmentKey(key: string): Appointment -> bool { (a: Appointment) => a.key == key }

  function AppointmentByKey(appointments: seq<Appointment>, key: string): (r: Option<nat>)
    ensures r.Some? ==> r.value < |appointments| && appointments[r.value].key == key
    ensures r.None? ==> forall a :: a in appointments ==> a.key != key
  {
    FindSpec(HasAppointmentKey(key), appointments);
    Find(HasAppointmentKey(key), appointments)
  }

  /** The `booking_unique_hold_resource` constraint on the rows about to be written. */
  predicate DistinctResources(allocations: seq<(int, nat)>) {
    forall i, j :: 0 <= i < j < |allocations| ==> allocations[i].0 != allocations[j].0
  }

  function Links(allocations: seq<(int, nat)>): (m: map<int, nat>)
    ensures forall r :: r in m ==> exists i :: 0 <= i < |allocations| && allocations[i] == (r, m[r])
  {
    if allocations == [] then map[]
    else Links(allocations[..|allocations| - 1])[allocations[|allocations| - 1].0 := allocations[|allocations| - 1].1]
  }

  /** Link rows written one by one under the constraint. */
  function StoredLinks(allocations: seq<(int, nat)>): Option<map<int, nat>> {
    if allocations == [] then Some(map[])
    else
      var before, last := StoredLinks(allocations[..|allocations| - 1]), allocations[|allocations| - 1];
      if before.None? || last.0 in before.value then None else Some(before.value[last.0 := last.1])
  }

  lemma {:induction false} LinkedResources(allocations: seq<(int, nat)>, i: nat)
    requires i < |allocations|
    ensures allocations[i].0 in Links(allocations)
  {
    var n := |allocations| - 1;
    if i < n { LinkedResources(allocations[..n], i); }
  }

  /** All rows are written exactly when no resource comes twice. */
  lemma {:induction false} StoredLinksSpec(allocations: seq<(int, nat)>)
    ensures StoredLinks(allocations) == if DistinctResources(allocations) then Some(Links(allocations)) else None
  {
    if allocations != [] {
      var n := |allocations| - 1;
      var front := allocations[..n];
      StoredLinksSpec(front);
      forall i | 0 <= i < n ensures allocations[i].0 in Links(front) && allocations[i] == front[i] { LinkedResources(front, i); }
      if DistinctResources(front) && allocations[n].0 !in Links(front) {
        assert DistinctResources(allocations);
      }
    }
  }

  lemma {:induction false} StoredLinksPrefix(allocations: seq<(int, nat)>, i: nat)
    requires i <= |allocations| && StoredLinks(allocations[..i]).None?
    ensures StoredLinks(allocations).None?
  {
    if i < |allocations| {
      assert allocations[..|allocations| - 1][..i] == allocations[..i];
      StoredLinksPrefix(allocations[..|allocations| - 1], i);
    } else {
      assert allocations[..i] == allocations;
    }
  }

  function QueryFor(cat: Catalog, cal: Calendar, t: Tables, branch: int, service: int, now: int): Query
    requires branch in cat.branches && service in cat.services
  {
    Query(cat, cal, t, cat.branches[branch], service, cat.services[service], now)
  }

  /** The row `AppointmentHoldService.create` writes for a slot. */
  function HoldFor(cat: Catalog, req: HoldRequest, slot: Slot, now: int): Hold {
    var place := Reservation(req.branch, req.service, slot.staff, slot.startsAt, slot.endsAt, Links(slot.allocations));
    Hold(place, now + ResolvePolicy(cat, req.branch, req.service).holdSeconds * 1_000_000, req.key, Active)
  }

  /** The writing half of `create`: the slot must exist, have a length and a storable key, and not use one resource twice. */
  function PlaceHold(cat: Catalog, t: Tables, req: HoldRequest, slot: Option<Slot>, now: int): (Tables, Result<nat>) {
    if slot.None? then (t, Err("slot_unavailable"))
    else if slot.value.endsAt <= slot.value.startsAt || MAX_KEY < |req.key| then (t, Err("validation_error"))
    else if !DistinctResources(slot.value.allocations) then (t, Err("integrity_error"))
    else (t.(holds := t.holds + [HoldFor(cat, req, slot.value, now)]), Ok(|t.holds|))
  }

  /** `AppointmentHoldService.create`: the tables afterwards, and the hold's position or the error. */
  ghost function CreateHold(cat: Catalog, cal: Calendar, t: Tables, req: HoldRequest, now: int): (Tables, Result<nat>) {
    if Blank(req.key) then (t, Err("idempotency_key_required"))
    else if HoldByKey(t.holds, req.key).Some? then (t, Ok(HoldByKey(t.holds, req.key).value))
    else if req.branch !in cat.branches || !cat.branches[req.branch].active then (t, Err("resource_not_found"))
    else if req.service !in cat.services || !cat.services[req.service].active then (t, Err("resource_not_found"))
    else if cat.maxAvailabilityDays <= 0 then (t, Err("availability_range_invalid"))
    else
      PlaceHold(cat, t, req, AvailabilityService.Match(QueryFor(cat, cal, t, req.branch, req.service, now), req.staff, req.startsAt), now)
  }

  lemma RefusedHoldChangesNothing(cat: Catalog, cal: Calendar, t: Tables, req: HoldRequest, now: int)
    requires CreateHold(cat, cal, t, req, now).1.Err?
    ensures CreateHold(cat, cal, t, req, now).0 == t
  {
  }

  /** A request that succeeds, anew or by its key, names a stored hold with that key, and leaves the appointments alone. */
  lemma HoldIsStored(cat: Catalog, cal: Calendar, t: Tables, req: HoldRequest, now: int)
    requires CreateHold(cat, cal, t, req, now).1.Ok?
    ensures CreateHold(cat, cal, t, req, now).0.appointments == t.appointments
    ensures CreateHold(cat, cal, t, req, now).1.value < |CreateHold(cat, cal, t, req, now).0.holds|
    ensures CreateHold(cat, cal, t, req, now).0.holds[CreateHold(cat, cal, t, req, now).1.value].key == req.key
  {
  }

  /** Whether a new appointment waits for confirmation. */
  predicate StartsPending(cat: Catalog, place: Reservation) {
    || (place.service in cat.services && !cat.services[place.service].mode.Instant?)
    || ResolvePolicy(cat, place.branch, place.service).requireConfirmation
  }

  /**
    `AppointmentService.create_from_hold`.  Nothing about availability is checked again.  The EXPIRED mark set before
    `hold_expired` is raised does not survive: the exception rolls the transaction back.
    */
  function CreateFromHold(cat: Catalog, t: Tables, hold: nat, key: string, id: string, entitled: bool, now: int): (Tables, Result<nat>) {
    if Blank(key) then (t, Err("idempotency_key_required"))
    else if !entitled then (t, Err("feature_not_entitled"))
    else if AppointmentByKey(t.appointments, key).Some? then (t, Ok(AppointmentByKey(t.appointments, key).value))
    else if |t.holds| <= hold then (t, Err("resource_not_found"))
    else if !HoldLive(t.holds[hold], now) then (t, Err("hold_expired"))
    else if MAX_KEY < |key| then (t, Err("validation_error"))
    else
      var place := t.holds[hold].place;
      var a := Appointment(id, place, if StartsPending(cat, place) then PendingConfirmation else Confirmed, key);
      (Tables(t.holds[hold := t.holds[hold].(status := Converted)], t.appointments + [a]), Ok(|t.appointments|))
  }

  /** `AppointmentService.confirm`; the error the token check raises, if any, is an input. */
  function Confirm(cat: Catalog, t: Tables, a: nat, byCustomer: bool, tokenError: Option<string>): (Tables, Result<bool>) {
    if |t.appointments| <= a then (t, Err("resource_not_found"))
    else
      var row := t.appointments[a];
      if row.status.Confirmed? then (t, Ok(false))
      else if !row.status.PendingConfirmation? then (t, Err("invalid_status_transition"))
      else if byCustomer && row.place.service in cat.services && cat.services[row.place.service].mode.ManualOnly?
      then (t, Err("manual_confirmation_required"))
      else if tokenError.Some? then (t, Err(tokenError.value))
      else (t.(appointments := t.appointments[a := row.(status := Confirmed)]), Ok(true))
  }

  function RescheduleKey(row: Appointment, key: string): string { "reschedule:" + row.id + ":" + key }

  /** The appointment once it has taken over a hold's interval and resources. */
  function MovedTo(row: Appointment, h: Hold): Appointment {
    row.(place := row.place.(startsAt := h.place.startsAt, endsAt := h.place.endsAt, links := h.place.links))
  }

  /** `AppointmentService.reschedule`: a hold for the new time, old or new, then the move. */
  ghost function Reschedule(cat: Catalog, cal: Calendar, t: Tables, a: nat, startsAt: int, key: string, customer: bool, now: int):
    (Tables, Result<nat>)
  {
    if Blank(key) then (t, Err("idempotency_key_required"))
    else if |t.appointments| <= a then (t, Err("resource_not_found"))
    else
      var row := t.appointments[a];
      if !Blocking(row.status) then (t, Err("invalid_status_transition"))
      else if customer && !ResolvePolicy(cat, row.place.branch, row.place.service).allowReschedule then (t, Err("reschedule_not_allowed"))
      else
        var req := HoldRequest(row.place.branch, row.place.service, Some(row.place.staff), startsAt, RescheduleKey(row, key));
        var (u, hold) := CreateHold(cat, cal, t, req, now);
        if hold.Err? then (t, hold) else (Move(u, a, hold.value), Ok(a))
  }

  function Move(t: Tables, a: nat, hold: nat): Tables {
    if |t.appointments| <= a || |t.holds| <= hold then t
    else Tables(t.holds[hold := t.holds[hold].(status := Converted)], t.appointments[a := MovedTo(t.appointments[a], t.holds[hold])])
  }

  /** `service.cancellation_notice_minutes or policy.default_cancellation_notice_minutes`. */
  function CancellationNotice(cat: Catalog, place: Reservation): nat {
    if place.service in cat.services && cat.services[place.service].cancellationNotice != 0
    then cat.services[place.service].cancellationNotice
    else ResolvePolicy(cat, place.branch, place.service).defaultCancellationNotice
  }

  /** `AppointmentService.cancel`. */
  function Cancel(cat: Catalog, t: Tables, a: nat, customer: bool, now: int): (Tables, Result<bool>) {
    if |t.appointments| <= a then (t, Err("resource_not_found"))
    else
      var row := t.appointments[a];
      if row.status.Cancelled? then (t, Ok(false))
      else if !Blocking(row.status) then (t, Err("invalid_status_transition"))
      else if customer && (!ResolvePolicy(cat, row.place.branch, row.place.service).allowCancel
                           || row.place.startsAt - now < CancellationNotice(cat, row.place) * MINUTE)
      then (t, Err("cancellation_window_closed"))
      else (t.(appointments := t.appointments[a := row.(status := Cancelled)]), Ok(true))
  }

  /** The transitions `set_status` allows. */
  predicate AllowedTransition(from: Status, to: Status) {
    match from
    case Confirmed => to.CheckedIn? || to.NoShow?
    case CheckedIn => to.InProgress? || to.NoShow?
    case InProgress => to.Completed?
    case PendingConfirmation => to.Rejected?
    case _ => false
  }

  /** `AppointmentService.set_status`. */
  function SetStatus(t: Tables, a: nat, to: Status): (Tables, Result<bool>) {
    if |t.appointments| <= a then (t, Err("resource_not_found"))
    else if !AllowedTransition(t.appointments[a].status, to) then (t, Err("invalid_status_transition"))
    else (t.(appointments := t.appointments[a := t.appointments[a].(status := to)]), Ok(true))
  }

  function Lapse(h: Hold, now: int): Hold {
    if h.status.Active? && h.expiresAt <= now then h.(status := Expired) else h
  }

  function DueForExpiry(now: int): Hold -> nat { (h: Hold) => if h.status.Active? && h.expiresAt <= now then 1 else 0 }

  /** `expire_booking_holds`. */
  function ExpireHolds(t: Tables, now: int): Tables {
    t.(holds := seq(|t.holds|, i requires 0 <= i < |t.holds| => Lapse(t.holds[i], now)))
  }

  // ----- runs -----

  datatype Event =
    | HoldEvent(req: HoldRequest)
    | ConvertEvent(hold: nat, key: string, id: string, entitled: bool)
    | ConfirmEvent(row: nat, byCustomer: bool, tokenError: Option<string>)
    | RescheduleEvent(row: nat, startsAt: int, key: string, customer: bool)
    | CancelEvent(row: nat, customer: bool)
    | StatusEvent(row: nat, to: Status)
    | ExpireEvent

  /** One transaction: what was asked, the clock it read, and the calendar at that moment. */
  datatype Entry = Entry(event: Event, now: int, cal: Calendar)

  /** For transactions that look no slot up. */
  const NO_CALENDAR := Calendar([], [], [])

  ghost function Step(cat: Catalog, t: Tables, x: Entry): Tables {
    match x.event
    case HoldEvent(req) => CreateHold(cat, x.cal, t, req, x.now).0
    case ConvertEvent(hold, key, id, entitled) => CreateFromHold(cat, t, hold, key, id, entitled, x.now).0
    case ConfirmEvent(row, byCustomer, tokenError) => Confirm(cat, t, row, byCustomer, tokenError).0
    case RescheduleEvent(row, startsAt, key, customer) => Reschedule(cat, x.cal, t, row, startsAt, key, customer, x.now).0
    case CancelEvent(row, customer) => Cancel(cat, t, row, customer, x.now).0
    case StatusEvent(row, to) => SetStatus(t, row, to).0
    case ExpireEvent => ExpireHolds(t, x.now)
  }

  /** The tables after a log, starting from empty ones. */
  ghost function After(cat: Catalog, log: seq<Entry>): Tables {
    if log == [] then Tables([], []) else Step(cat, After(cat, log[..|log| - 1]), log[|log| - 1])
  }

  /** The clock does not go back along the log, nor before `now`. */
  ghost predicate Timely(log: seq<Entry>, now: int) {
    log == [] || (log[|log| - 1].now <= now && Timely(log[..|log| - 1], log[|log| - 1].now))
  }

  /** The event is not a reschedule whose key already has a hold. */
  ghost predicate FreshKey(t: Tables, e: Event) {
    e.RescheduleEvent? && e.row < |t.appointments| ==> HoldByKey(t.holds, RescheduleKey(t.appointments[e.row], e.key)).None?
  }

  ghost predicate FreshKeys(cat: Catalog, log: seq<Entry>) {
    log == [] || (FreshKey(After(cat, log[..|log| - 1]), log[|log| - 1].event) && FreshKeys(cat, log[..|log| - 1]))
  }
}
