/** How appointments come about, change and end, said of the stored rows alone, whatever transaction it is. */
module AppointmentRules {
  import opened Totals
  import opened Text
  import opened Calendars
  import opened Catalogs
  import opened Occupancy
  import opened OpeningRules
  import opened Bookings

  predicate OverOrOff(s: Status) { s in {Completed, Status.Cancelled, NoShow, Status.Rejected} }

  lemma OverOrOffIs(s: Status)
    ensures OverOrOff(s) <==> !Blocking(s)
  {
  }

  // ----- conversion -----

  predicate AppointmentKeyKnown(t: Tables, key: string) { exists i :: 0 <= i < |t.appointments| && t.appointments[i].key == key }

  lemma AppointmentKeyKnownIs(t: Tables, key: string)
    ensures AppointmentKeyKnown(t, key) <==> AppointmentByKey(t.appointments, key).Some?
  {
    forall i | 0 <= i < |t.appointments| ensures t.appointments[i] in t.appointments { }
  }

  /** The hold is there, neither used nor run out. */
  predicate Usable(t: Tables, hold: nat, now: int) {
    hold < |t.holds| && t.holds[hold].status == HoldStatus.Active && now < t.holds[hold].expiresAt
  }

  /** A conversion is accepted exactly with a key that is not blank, an entitlement, and a known key or else a usable hold. */
  lemma ConvertedIff(cat: Catalog, t: Tables, hold: nat, key: string, id: string, entitled: bool, now: int)
    ensures CreateFromHold(cat, t, hold, key, id, entitled, now).1.Ok? <==>
      (!AllSpace(key) && entitled && (AppointmentKeyKnown(t, key) || (Usable(t, hold, now) && |key| <= 200)))
    ensures CreateFromHold(cat, t, hold, key, id, entitled, now).1.Err? || AppointmentKeyKnown(t, key) ==>
      CreateFromHold(cat, t, hold, key, id, entitled, now).0 == t
  {
    BlankIff(key);
    AppointmentKeyKnownIs(t, key);
  }

  /** It waits for a confirmation: its service does not book instantly, or the policy in force wants one. */
  ghost predicate WantsConfirmation(cat: Catalog, place: Reservation) {
    || (place.service in cat.services && cat.services[place.service].mode in {RequireConfirmation, ManualOnly})
    || exists p :: PolicyInForce(cat, place.branch, place.service, p) && p.requireConfirmation
  }

  lemma WantsConfirmationIs(cat: Catalog, place: Reservation)
    ensures WantsConfirmation(cat, place) <==> StartsPending(cat, place)
  {
    PolicyInForceIsResolved(cat, place.branch, place.service, ResolvePolicy(cat, place.branch, place.service));
    forall p | PolicyInForce(cat, place.branch, place.service, p) ensures p == ResolvePolicy(cat, place.branch, place.service) {
      PolicyInForceIsResolved(cat, place.branch, place.service, p);
    }
  }

  /** Accepted under a new key, there is one more appointment, of the hold's time and resources, and the hold is used up. */
  lemma ConvertedAppointment(cat: Catalog, t: Tables, hold: nat, key: string, id: string, entitled: bool, now: int)
    requires CreateFromHold(cat, t, hold, key, id, entitled, now).1.Ok? && !AppointmentKeyKnown(t, key)
    ensures hold < |t.holds|
    ensures var u, n := CreateFromHold(cat, t, hold, key, id, entitled, now).0, |t.appointments|;
      && CreateFromHold(cat, t, hold, key, id, entitled, now).1.value == n && |u.appointments| == n + 1 && t.appointments <= u.appointments
      && u.appointments[n].id == id && u.appointments[n].key == key && u.appointments[n].place == t.holds[hold].place
      && (u.appointments[n].status == if WantsConfirmation(cat, t.holds[hold].place) then PendingConfirmation else Confirmed)
      && u.holds == t.holds[hold := u.holds[hold]] && u.holds[hold] == t.holds[hold].(status := Converted)
  {
    AppointmentKeyKnownIs(t, key);
    WantsConfirmationIs(cat, t.holds[hold].place);
  }

  // ----- status -----

  /** Customers may cancel where the policy lets them, and not later than the notice of the service, or else of the policy. */
  ghost predicate CustomerMayCancel(cat: Catalog, place: Reservation, now: int) {
    forall p :: PolicyInForce(cat, place.branch, place.service, p) ==>
      && p.allowCancel
      && place.startsAt - now >= 60_000_000 *
         (if place.service in cat.services && cat.services[place.service].cancellationNotice > 0
          then cat.services[place.service].cancellationNotice else p.defaultCancellationNotice)
  }

  /** What can follow what when staff set a status. */
  predicate NextStatus(from: Status, to: Status) {
    (from, to) in {
      (Confirmed, CheckedIn), (Confirmed, NoShow), (CheckedIn, InProgress), (CheckedIn, NoShow), (InProgress, Completed),
      (PendingConfirmation, Status.Rejected) }
  }

  /** The event takes appointment a from one status to another. */
  ghost predicate Takes(cat: Catalog, t: Tables, x: Entry, a: nat, to: Status)
    requires a < |t.appointments|
  {
    var row := t.appointments[a];
    match x.event
    case ConfirmEvent(i, byCustomer, tokenError) =>
      && i == a && row.status == PendingConfirmation && to == Confirmed && tokenError == None
      && !(byCustomer && row.place.service in cat.services && cat.services[row.place.service].mode == ManualOnly)
    case CancelEvent(i, customer) => i == a && !OverOrOff(row.status) && to == Status.Cancelled && (customer ==> CustomerMayCancel(cat, row.place, x.now))
    case StatusEvent(i, wanted) => i == a && to == wanted && NextStatus(row.status, to)
    case _ => false
  }

  lemma CustomerMayCancelIs(cat: Catalog, place: Reservation, now: int)
    ensures CustomerMayCancel(cat, place, now)
      <==> (ResolvePolicy(cat, place.branch, place.service).allowCancel && CancellationNotice(cat, place) * MINUTE <= place.startsAt - now)
  {
    forall p ensures PolicyInForce(cat, place.branch, place.service, p) <==> p == ResolvePolicy(cat, place.branch, place.service) {
      PolicyInForceIsResolved(cat, place.branch, place.service, p);
    }
  }

  lemma HoldLeavesAppointments(cat: Catalog, cal: Calendar, t: Tables, req: HoldRequest, now: int)
    ensures CreateHold(cat, cal, t, req, now).0.appointments == t.appointments
  {
  }

  lemma RescheduleLeavesStatus(cat: Catalog, cal: Calendar, t: Tables, i: nat, startsAt: int, key: string, customer: bool, now: int, a: nat)
    requires a < |t.appointments|
    ensures var u := Reschedule(cat, cal, t, i, startsAt, key, customer, now).0;
      a < |u.appointments| && u.appointments[a].status == t.appointments[a].status
  {
    if i < |t.appointments| {
      var row := t.appointments[i];
      HoldLeavesAppointments(cat, cal, t, HoldRequest(row.place.branch, row.place.service, Some(row.place.staff), startsAt, RescheduleKey(row, key)), now);
    }
  }

  lemma CancelledIff(cat: Catalog, t: Tables, i: nat, customer: bool, now: int, a: nat)
    requires a < |t.appointments|
    ensures var u := Cancel(cat, t, i, customer, now).0;
      && |u.appointments| == |t.appointments|
      && (u.appointments[a].status != t.appointments[a].status ==> u.appointments[a].status == Status.Cancelled)
      && (u.appointments[a].status != t.appointments[a].status <==>
           i == a && !OverOrOff(t.appointments[a].status) && (customer ==> CustomerMayCancel(cat, t.appointments[a].place, now)))
  {
    OverOrOffIs(t.appointments[a].status);
    CustomerMayCancelIs(cat, t.appointments[a].place, now);
  }

  /** An appointment has another status after a transaction exactly when the transaction takes it there; nothing else changes one. */
  lemma StatusChangesIff(cat: Catalog, t: Tables, x: Entry, a: nat, to: Status)
    requires a < |t.appointments|
    ensures a < |Step(cat, t, x).appointments|
    ensures (Step(cat, t, x).appointments[a].status == to && to != t.appointments[a].status) <==> Takes(cat, t, x, a, to)
  {
    match x.event
    case CancelEvent(i, customer) => CancelledIff(cat, t, i, customer, x.now, a);
    case StatusEvent(i, wanted) => assert AllowedTransition(t.appointments[a].status, wanted) <==> NextStatus(t.appointments[a].status, wanted);
    case RescheduleEvent(i, startsAt, key, customer) => RescheduleLeavesStatus(cat, x.cal, t, i, startsAt, key, customer, x.now, a);
    case HoldEvent(req) => HoldLeavesAppointments(cat, x.cal, t, req, x.now);
    case _ =>
  }

  /** The answer of a confirmation or cancellation: whether it changes the appointment, which already is what is wanted otherwise. */
  predicate Answered(t: Tables, u: Tables, a: nat, wanted: Status, r: Result<bool>) {
    var there := a < |t.appointments| && a < |u.appointments|;
    && (r.Ok? <==> there && u.appointments[a].status == wanted)
    && (r.Ok? ==> (r.value <==> t.appointments[a].status != wanted))
    && (r == Ok(true) || u == t)
  }

  /** Asking twice is not an error; what is refused changes nothing. */
  lemma ConfirmationAnswered(cat: Catalog, t: Tables, a: nat, byCustomer: bool, tokenError: Option<string>)
    ensures var (u, r) := Confirm(cat, t, a, byCustomer, tokenError); Answered(t, u, a, Confirmed, r)
  {
  }

  lemma CancellationAnswered(cat: Catalog, t: Tables, a: nat, customer: bool, now: int)
    ensures var (u, r) := Cancel(cat, t, a, customer, now); Answered(t, u, a, Status.Cancelled, r)
  {
  }

  lemma StatusAnswered(t: Tables, a: nat, to: Status)
    ensures var (u, r) := SetStatus(t, a, to);
      && (r.Ok? <==> a < |t.appointments| && NextStatus(t.appointments[a].status, to))
      && (r.Ok? ==> u == t.(appointments := t.appointments[a := t.appointments[a].(status := to)]))
      && (r.Err? ==> u == t)
  {
  }

  // ----- moving -----

  /** The request for the hold that a reschedule moves its appointment to. */
  function MoveRequest(row: Appointment, startsAt: int, key: string): HoldRequest {
    HoldRequest(row.place.branch, row.place.service, Some(row.place.staff), startsAt, "reschedule:" + row.id + ":" + key)
  }

  /** A reschedule is accepted exactly for a standing appointment, a customer the policy lets do it, and a hold that is granted. */
  lemma RescheduledIff(cat: Catalog, cal: Calendar, t: Tables, a: nat, startsAt: int, key: string, customer: bool, now: int)
    ensures Reschedule(cat, cal, t, a, startsAt, key, customer, now).1.Ok? <==>
      (&& !AllSpace(key) && a < |t.appointments| && !OverOrOff(t.appointments[a].status)
       && (customer ==> forall p :: PolicyInForce(cat, t.appointments[a].place.branch, t.appointments[a].place.service, p) ==> p.allowReschedule)
       && CreateHold(cat, cal, t, MoveRequest(t.appointments[a], startsAt, key), now).1.Ok?)
  {
    BlankIff(key);
    if a < |t.appointments| {
      var place := t.appointments[a].place;
      OverOrOffIs(t.appointments[a].status);
      forall p ensures PolicyInForce(cat, place.branch, place.service, p) <==> p == ResolvePolicy(cat, place.branch, place.service) {
        PolicyInForceIsResolved(cat, place.branch, place.service, p);
      }
    }
  }

  /** The appointment has the time and resources of the granted hold, which is used up; nothing else of it changes, and no other row. */
  lemma RescheduledAppointment(cat: Catalog, cal: Calendar, t: Tables, a: nat, startsAt: int, key: string, customer: bool, now: int)
    requires Reschedule(cat, cal, t, a, startsAt, key, customer, now).1.Ok?
    ensures a < |t.appointments|
    ensures var (v, i) := CreateHold(cat, cal, t, MoveRequest(t.appointments[a], startsAt, key), now);
      var u, row := Reschedule(cat, cal, t, a, startsAt, key, customer, now).0, t.appointments[a];
      && i.Ok? && i.value < |v.holds|
      && u.holds == v.holds[i.value := v.holds[i.value].(status := Converted)]
      && |u.appointments| == |t.appointments| && u.appointments == t.appointments[a := u.appointments[a]]
      && u.appointments[a].id == row.id && u.appointments[a].key == row.key && u.appointments[a].status == row.status
      && u.appointments[a].place.branch == row.place.branch && u.appointments[a].place.service == row.place.service
      && u.appointments[a].place.staff == row.place.staff
      && u.appointments[a].place.startsAt == v.holds[i.value].place.startsAt && u.appointments[a].place.endsAt == v.holds[i.value].place.endsAt
      && u.appointments[a].place.links == v.holds[i.value].place.links
  {
    HoldIsStored(cat, cal, t, MoveRequest(t.appointments[a], startsAt, key), now);
  }

  // ----- expiry -----

  lemma GrantExpiresNone(cat: Catalog, cal: Calendar, t: Tables, req: HoldRequest, now: int)
    ensures t.holds <= CreateHold(cat, cal, t, req, now).0.holds
  {
  }

  lemma RescheduleExpiresNone(cat: Catalog, cal: Calendar, t: Tables, a: nat, startsAt: int, key: string, customer: bool, now: int, i: nat)
    requires i < |t.holds|
    ensures var u := Reschedule(cat, cal, t, a, startsAt, key, customer, now).0;
      i < |u.holds| && (u.holds[i].status == t.holds[i].status || u.holds[i].status == Converted)
  {
    if a < |t.appointments| { GrantExpiresNone(cat, cal, t, MoveRequest(t.appointments[a], startsAt, key), now); }
  }

  /** A hold runs out exactly by the expiry task, when it is active and its time has come. */
  lemma ExpiresIff(cat: Catalog, t: Tables, x: Entry, i: nat)
    requires i < |t.holds|
    ensures i < |Step(cat, t, x).holds|
    ensures (Step(cat, t, x).holds[i].status == Expired && t.holds[i].status != Expired)
      <==> (x.event == ExpireEvent && t.holds[i].status == HoldStatus.Active && t.holds[i].expiresAt <= x.now)
  {
    match x.event
    case HoldEvent(req) => GrantExpiresNone(cat, x.cal, t, req, x.now);
    case RescheduleEvent(a, startsAt, key, customer) => RescheduleExpiresNone(cat, x.cal, t, a, startsAt, key, customer, x.now, i);
    case ExpireEvent => assert Step(cat, t, x).holds[i] == Lapse(t.holds[i], x.now);
    case _ =>
  }

  /** The positions of the holds that run out on the way from t to u. */
  function RunOut(t: Tables, u: Tables): set<nat> {
    set i | 0 <= i < |t.holds| && i < |u.holds| && u.holds[i].status == Expired && t.holds[i].status != Expired
  }

  /** The number the expiry task reports is the number of holds that have run out. */
  lemma ExpiredAreCounted(t: Tables, now: int)
    ensures Total(DueForExpiry(now), t.holds) == |RunOut(t, ExpireHolds(t, now))|
  {
    CountedRows(DueForExpiry(now), t.holds, RunOut(t, ExpireHolds(t, now)));
  }
}
