/** Requests delivered more than once, the life of holds and appointments, and what a listed slot is good for. */
module BookingRetries {
  import opened Totals
  import opened Calendars
  import opened Catalogs
  import opened Occupancy
  import opened Availability
  import opened Bookings
  import opened Text
  import AvailabilityService

  // ----- keys -----

  ghost predicate UniqueKeys(t: Tables) {
    && (forall i, j :: 0 <= i < j < |t.holds| ==> t.holds[i].key != t.holds[j].key)
    && (forall i, j :: 0 <= i < j < |t.appointments| ==> t.appointments[i].key != t.appointments[j].key)
  }

  lemma HoldFound(holds: seq<Hold>, i: nat)
    requires i < |holds| && forall j, k :: 0 <= j < k < |holds| ==> holds[j].key != holds[k].key
    ensures HoldByKey(holds, holds[i].key) == Some(i)
  {
    assert holds[i] in holds;
    var found := HoldByKey(holds, holds[i].key);
    assert found.Some? && holds[found.value].key == holds[i].key;
  }

  lemma AppointmentFound(appointments: seq<Appointment>, i: nat)
    requires i < |appointments| && forall j, k :: 0 <= j < k < |appointments| ==> appointments[j].key != appointments[k].key
    ensures AppointmentByKey(appointments, appointments[i].key) == Some(i)
  {
    assert appointments[i] in appointments;
    var found := AppointmentByKey(appointments, appointments[i].key);
    assert found.Some? && appointments[found.value].key == appointments[i].key;
  }

  // ----- what a step may do to a row -----

  /** A hold keeps everything but its status; it may expire, and it may be converted. */
  predicate HoldFollows(h: Hold, later: Hold) {
    && later == h.(status := later.status)
    && (later.status == h.status || later.status.Converted? || (h.status.Active? && later.status.Expired?))
  }

  /** The life of an appointment. */
  predicate StatusFollows(from: Status, to: Status) {
    || from == to
    || (from.PendingConfirmation? && (to.Confirmed? || to.Rejected?))
    || (from.Confirmed? && (to.CheckedIn? || to.NoShow?))
    || (from.CheckedIn? && (to.InProgress? || to.NoShow?))
    || (from.InProgress? && to.Completed?)
    || (Blocking(from) && to.Cancelled?)
  }

  /** An appointment keeps its id, key, branch, service and staff member. */
  predicate AppointmentFollows(a: Appointment, later: Appointment) {
    && later.id == a.id && later.key == a.key
    && later.place.branch == a.place.branch && later.place.service == a.place.service && later.place.staff == a.place.staff
    && StatusFollows(a.status, later.status)
    && (later.place != a.place ==> Blocking(a.status) && later.status == a.status)
  }

  /** Every row is still there and has followed its life; new rows have new keys. */
  ghost predicate Follows(t: Tables, u: Tables) {
    && |t.holds| <= |u.holds| && |t.appointments| <= |u.appointments|
    && (forall i :: 0 <= i < |t.holds| ==> HoldFollows(t.holds[i], u.holds[i]))
    && (forall i :: 0 <= i < |t.appointments| ==> AppointmentFollows(t.appointments[i], u.appointments[i]))
  }

  ghost predicate NewKeys(t: Tables, u: Tables) {
    && |t.holds| <= |u.holds| <= |t.holds| + 1 && |t.appointments| <= |u.appointments| <= |t.appointments| + 1
    && (|t.holds| < |u.holds| ==> HoldByKey(t.holds, u.holds[|t.holds|].key).None?)
    && (|t.appointments| < |u.appointments| ==> AppointmentByKey(t.appointments, u.appointments[|t.appointments|].key).None?)
  }

  lemma PlaceFollows(cat: Catalog, t: Tables, req: HoldRequest, slot: Option<Slot>, now: int)
    requires HoldByKey(t.holds, req.key).None?
    ensures Follows(t, PlaceHold(cat, t, req, slot, now).0) && NewKeys(t, PlaceHold(cat, t, req, slot, now).0)
  {
  }

  /** A request under a new key for an active branch and service is decided by the slot found. */
  lemma CreatePlaces(cat: Catalog, cal: Calendar, t: Tables, req: HoldRequest, now: int)
    requires !Blank(req.key) && HoldByKey(t.holds, req.key).None? && 0 < cat.maxAvailabilityDays
    requires req.branch in cat.branches && cat.branches[req.branch].active && req.service in cat.services && cat.services[req.service].active
    ensures CreateHold(cat, cal, t, req, now)
      == PlaceHold(cat, t, req, AvailabilityService.Match(QueryFor(cat, cal, t, req.branch, req.service, now), req.staff, req.startsAt), now)
  {
  }

  lemma CreateFollows(cat: Catalog, cal: Calendar, t: Tables, req: HoldRequest, now: int)
    ensures Follows(t, CreateHold(cat, cal, t, req, now).0) && NewKeys(t, CreateHold(cat, cal, t, req, now).0)
  {
    if CreateHold(cat, cal, t, req, now).0 != t {
      CreatePlaces(cat, cal, t, req, now);
      PlaceFollows(cat, t, req, AvailabilityService.Match(QueryFor(cat, cal, t, req.branch, req.service, now), req.staff, req.startsAt), now);
    }
  }

  lemma MoveFollows(t: Tables, a: nat, hold: nat)
    requires a < |t.appointments| && hold < |t.holds| && Blocking(t.appointments[a].status)
    ensures Follows(t, Move(t, a, hold)) && NewKeys(t, Move(t, a, hold))
  {
  }

  lemma RescheduleFollows(cat: Catalog, cal: Calendar, t: Tables, a: nat, startsAt: int, key: string, customer: bool, now: int)
    ensures Follows(t, Reschedule(cat, cal, t, a, startsAt, key, customer, now).0)
    ensures NewKeys(t, Reschedule(cat, cal, t, a, startsAt, key, customer, now).0)
  {
    var v := Reschedule(cat, cal, t, a, startsAt, key, customer, now).0;
    if v != t {
      var row := t.appointments[a];
      var req := HoldRequest(row.place.branch, row.place.service, Some(row.place.staff), startsAt, RescheduleKey(row, key));
      HoldIsStored(cat, cal, t, req, now);
      CreateFollows(cat, cal, t, req, now);
      var (u, hold) := CreateHold(cat, cal, t, req, now);
      MoveFollows(u, a, hold.value);
    }
  }

  lemma ConvertFollows(cat: Catalog, t: Tables, hold: nat, key: string, id: string, entitled: bool, now: int)
    ensures Follows(t, CreateFromHold(cat, t, hold, key, id, entitled, now).0)
    ensures NewKeys(t, CreateFromHold(cat, t, hold, key, id, entitled, now).0)
  {
  }

  lemma OthersFollow(cat: Catalog, t: Tables, x: Entry)
    requires !x.event.HoldEvent? && !x.event.ConvertEvent? && !x.event.RescheduleEvent?
    ensures Follows(t, Step(cat, t, x)) && NewKeys(t, Step(cat, t, x))
  {
  }

  lemma StepFollows(cat: Catalog, t: Tables, x: Entry)
    ensures Follows(t, Step(cat, t, x)) && NewKeys(t, Step(cat, t, x))
  {
    match x.event
    case HoldEvent(req) => CreateFollows(cat, x.cal, t, req, x.now);
    case ConvertEvent(hold, key, id, entitled) => ConvertFollows(cat, t, hold, key, id, entitled, x.now);
    case RescheduleEvent(row, startsAt, key, customer) => RescheduleFollows(cat, x.cal, t, row, startsAt, key, customer, x.now);
    case _ => OthersFollow(cat, t, x);
  }

  lemma UniqueFollows(t: Tables, u: Tables)
    requires UniqueKeys(t) && Follows(t, u) && NewKeys(t, u)
    ensures UniqueKeys(u)
  {
    forall i | 0 <= i < |t.holds| ensures u.holds[i].key == t.holds[i].key && t.holds[i] in t.holds {
      assert HoldFollows(t.holds[i], u.holds[i]);
    }
    forall i | 0 <= i < |t.appointments| ensures u.appointments[i].key == t.appointments[i].key && t.appointments[i] in t.appointments {
      assert AppointmentFollows(t.appointments[i], u.appointments[i]);
    }
  }

  /** In every reachable state no two holds and no two appointments share a key. */
  lemma {:induction false} AlwaysUniqueKeys(cat: Catalog, log: seq<Entry>)
    ensures UniqueKeys(After(cat, log))
  {
    if log != [] {
      var before := After(cat, log[..|log| - 1]);
      AlwaysUniqueKeys(cat, log[..|log| - 1]);
      StepFollows(cat, before, log[|log| - 1]);
      UniqueFollows(before, After(cat, log));
    }
  }

  // ----- over whole runs -----

  /** A hold row stays where it is, with the same key and the same reservation. */
  lemma {:induction false} HoldStays(cat: Catalog, log: seq<Entry>, n: nat, i: nat)
    requires n <= |log| && i < |After(cat, log[..n]).holds|
    ensures i < |After(cat, log).holds|
    ensures After(cat, log).holds[i].key == After(cat, log[..n]).holds[i].key && After(cat, log).holds[i].place == After(cat, log[..n]).holds[i].place
  {
    if n < |log| {
      var front := log[..|log| - 1];
      assert front[..n] == log[..n];
      HoldStays(cat, front, n, i);
      StepFollows(cat, After(cat, front), log[|log| - 1]);
      assert HoldFollows(After(cat, front).holds[i], After(cat, log).holds[i]);
    } else {
      assert log[..n] == log;
    }
  }

  predicate Final(s: Status) { !Blocking(s) }

  /** An appointment row stays where it is; once completed, cancelled, missed or rejected it never changes again. */
  lemma {:induction false} AppointmentStays(cat: Catalog, log: seq<Entry>, n: nat, i: nat)
    requires n <= |log| && i < |After(cat, log[..n]).appointments|
    ensures i < |After(cat, log).appointments|
    ensures After(cat, log).appointments[i].key == After(cat, log[..n]).appointments[i].key
    ensures Final(After(cat, log[..n]).appointments[i].status) ==> After(cat, log).appointments[i] == After(cat, log[..n]).appointments[i]
  {
    if n < |log| {
      var front := log[..|log| - 1];
      assert front[..n] == log[..n];
      AppointmentStays(cat, front, n, i);
      StepFollows(cat, After(cat, front), log[|log| - 1]);
      assert AppointmentFollows(After(cat, front).appointments[i], After(cat, log).appointments[i]);
    } else {
      assert log[..n] == log;
    }
  }

  /** An accepted hold request delivered again at any later time, whatever the clock or calendar, gets its hold and changes nothing. */
  lemma HoldRedelivered(cat: Catalog, log: seq<Entry>, n: nat, cal: Calendar, now: int)
    requires n < |log| && log[n].event.HoldEvent?
    requires CreateHold(cat, log[n].cal, After(cat, log[..n]), log[n].event.req, log[n].now).1.Ok?
    ensures CreateHold(cat, cal, After(cat, log), log[n].event.req, now)
      == (After(cat, log), CreateHold(cat, log[n].cal, After(cat, log[..n]), log[n].event.req, log[n].now).1)
  {
    var x, before := log[n], After(cat, log[..n]);
    var i := CreateHold(cat, x.cal, before, x.event.req, x.now).1.value;
    assert log[..n + 1][..n] == log[..n] && log[..n + 1][n] == log[n];
    HoldIsStored(cat, x.cal, before, x.event.req, x.now);
    HoldStays(cat, log, n + 1, i);
    AlwaysUniqueKeys(cat, log);
    HoldFound(After(cat, log).holds, i);
  }

  /** So does an accepted conversion while the entitlement lasts: one key never makes two appointments. */
  lemma ConversionRedelivered(cat: Catalog, log: seq<Entry>, n: nat, hold: nat, id: string, now: int)
    requires n < |log| && log[n].event.ConvertEvent?
    requires Step(cat, After(cat, log[..n]), log[n]) != After(cat, log[..n])
    ensures CreateFromHold(cat, After(cat, log), hold, log[n].event.key, id, true, now) == (After(cat, log), Ok(|After(cat, log[..n]).appointments|))
  {
    var before := After(cat, log[..n]);
    var i := |before.appointments|;
    assert log[..n + 1][..n] == log[..n] && log[..n + 1][n] == log[n];
    assert After(cat, log[..n + 1]).appointments[i].key == log[n].event.key;
    AppointmentStays(cat, log, n + 1, i);
    AlwaysUniqueKeys(cat, log);
    AppointmentFound(After(cat, log).appointments, i);
  }

  // ----- listed slots -----

  lemma PlacedIff(cat: Catalog, t: Tables, req: HoldRequest, s: Slot, now: int)
    requires |req.key| <= MAX_KEY
    ensures var (u, r) := PlaceHold(cat, t, req, Some(s), now);
      && (r.Ok? <==> s.startsAt < s.endsAt && DistinctResources(s.allocations))
      && (r.Ok? ==> |u.holds| == |t.holds| + 1)
      && (r.Ok? ==> u.holds[|t.holds|].place == Reservation(req.branch, req.service, s.staff, s.startsAt, s.endsAt, Links(s.allocations)))
  {
  }

  /**
    A slot listed for a range can be held at once, under a usable new key, exactly when it has a length and does not use
    one resource for two requirements; and the hold is for that very slot.
    */
  lemma ListedSlotCanBeHeldIff(cat: Catalog, cal: Calendar, t: Tables, branch: int, service: int, now: int,
                               only: Option<int>, from: int, to: int, listing: seq<Slot>, s: Slot, key: string)
    requires cat.Valid() && branch in cat.branches && cat.branches[branch].active && service in cat.services && cat.services[service].active
    requires 0 < cat.maxAvailabilityDays
    requires IsListing(QueryFor(cat, cal, t, branch, service, now), only, from, to, listing) && s in listing
    requires !Blank(key) && |key| <= MAX_KEY && HoldByKey(t.holds, key).None?
    ensures var (u, r) := CreateHold(cat, cal, t, HoldRequest(branch, service, Some(s.staff), s.startsAt, key), now);
      && (r.Ok? <==> s.startsAt < s.endsAt && DistinctResources(s.allocations))
      && (r.Ok? ==> |u.holds| == |t.holds| + 1)
      && (r.Ok? ==> u.holds[|t.holds|].place == Reservation(branch, service, s.staff, s.startsAt, s.endsAt, Links(s.allocations)))
  {
    var q := QueryFor(cat, cal, t, branch, service, now);
    CreatePlaces(cat, cal, t, HoldRequest(branch, service, Some(s.staff), s.startsAt, key), now);
    AvailabilityService.ListedSlotIsMatched(q, only, from, to, listing, s);
    PlacedIff(cat, t, HoldRequest(branch, service, Some(s.staff), s.startsAt, key), s, now);
  }
}
