/** The holds and appointments of an organization, and how much of a staff member or resource they use. */
module Occupancy {
  import opened Totals

  datatype HoldStatus = Active | Converted | Expired | Released

  datatype Status = PendingConfirmation | Confirmed | CheckedIn | InProgress | Completed | Cancelled | NoShow | Rejected

  /** `BLOCKING_APPOINTMENT_STATUSES`. */
  predicate Blocking(s: Status) {
    s.PendingConfirmation? || s.Confirmed? || s.CheckedIn? || s.InProgress?
  }

  /** The staff member, the interval and the resource links (one quantity a resource) a row reserves. */
  datatype Reservation = Reservation(branch: int, service: int, staff: int, startsAt: int, endsAt: int, links: map<int, nat>)

  datatype Hold = Hold(place: Reservation, expiresAt: int, key: string, status: HoldStatus)

  datatype Appointment = Appointment(id: string, place: Reservation, status: Status, key: string)

  /** Rows are never removed and are addressed by position; an appointment's own id text goes into derived keys. */
  datatype Tables = Tables(holds: seq<Hold>, appointments: seq<Appointment>)

  predicate HoldLive(h: Hold, now: int) { h.status.Active? && now < h.expiresAt }

  /** One place with a staff member, or one unit of a resource. */
  datatype Claim = Seat(staff: int) | Unit(resource: int)

  function Demand(c: Claim, place: Reservation): nat {
    match c
    case Seat(staff) => if place.staff == staff then 1 else 0
    case Unit(resource) => if resource in place.links then place.links[resource] else 0
  }

  predicate Overlaps(place: Reservation, lo: int, hi: int) { place.startsAt < hi && lo < place.endsAt }

  /** What a hold counts for in `_hold_overlap` and in the hold half of `_resource_capacity_available`. */
  function HoldUse(c: Claim, lo: int, hi: int, now: int): Hold -> nat {
    (h: Hold) => if HoldLive(h, now) && Overlaps(h.place, lo, hi) then Demand(c, h.place) else 0
  }

  /** What an appointment counts for in `_appointment_overlap` and in the appointment half of `_resource_capacity_available`. */
  function AppointmentUse(c: Claim, lo: int, hi: int): Appointment -> nat {
    (a: Appointment) => if Blocking(a.status) && Overlaps(a.place, lo, hi) then Demand(c, a.place) else 0
  }

  /** Everything that counts against a claim in the window [lo, hi). */
  function Load(t: Tables, c: Claim, lo: int, hi: int, now: int): nat {
    Total(HoldUse(c, lo, hi, now), t.holds) + Total(AppointmentUse(c, lo, hi), t.appointments)
  }

  /** The load at one instant. */
  function Usage(t: Tables, c: Claim, at: int, now: int): nat {
    Load(t, c, at, at + 1, now)
  }

  /** Whatever covers an instant of a window overlaps the window. */
  lemma UsageWithinLoad(t: Tables, c: Claim, at: int, lo: int, hi: int, now: int)
    requires lo <= at < hi
    ensures Usage(t, c, at, now) <= Load(t, c, lo, hi, now)
  {
    TotalMono(HoldUse(c, at, at + 1, now), t.holds, HoldUse(c, lo, hi, now), t.holds);
    TotalMono(AppointmentUse(c, at, at + 1), t.appointments, AppointmentUse(c, lo, hi), t.appointments);
  }

  /** Every row is where it was, and nothing counts that did not count before. */
  ghost predicate Shrinks(t: Tables, u: Tables) {
    && |u.holds| == |t.holds| && |u.appointments| == |t.appointments|
    && (forall i :: 0 <= i < |t.holds| ==>
          u.holds[i].place == t.holds[i].place && u.holds[i].expiresAt == t.holds[i].expiresAt
          && (u.holds[i].status.Active? ==> t.holds[i].status.Active?))
    && (forall i :: 0 <= i < |t.appointments| ==>
          u.appointments[i].place == t.appointments[i].place
          && (Blocking(u.appointments[i].status) ==> Blocking(t.appointments[i].status)))
  }

  /** With rows released and the clock advanced, no claim is used more at any instant. */
  lemma UsageShrinks(t: Tables, u: Tables, c: Claim, at: int, now: int, later: int)
    requires now <= later && Shrinks(t, u)
    ensures Usage(u, c, at, later) <= Usage(t, c, at, now)
  {
    TotalMono(HoldUse(c, at, at + 1, later), u.holds, HoldUse(c, at, at + 1, now), t.holds);
    TotalMono(AppointmentUse(c, at, at + 1), u.appointments, AppointmentUse(c, at, at + 1), t.appointments);
  }

  lemma LoadAfterHold(t: Tables, h: Hold, c: Claim, lo: int, hi: int, now: int)
    ensures Load(t.(holds := t.holds + [h]), c, lo, hi, now) == Load(t, c, lo, hi, now) + HoldUse(c, lo, hi, now)(h)
  {
    TotalAppend(HoldUse(c, lo, hi, now), t.holds, h);
  }

  lemma LoadAfterAppointment(t: Tables, a: Appointment, c: Claim, lo: int, hi: int, now: int)
    ensures Load(t.(appointments := t.appointments + [a]), c, lo, hi, now) == Load(t, c, lo, hi, now) + AppointmentUse(c, lo, hi)(a)
  {
    TotalAppend(AppointmentUse(c, lo, hi), t.appointments, a);
  }

  lemma LoadAfterHoldUpdate(t: Tables, i: nat, h: Hold, c: Claim, lo: int, hi: int, now: int)
    requires i < |t.holds|
    ensures Load(t.(holds := t.holds[i := h]), c, lo, hi, now) + HoldUse(c, lo, hi, now)(t.holds[i])
         == Load(t, c, lo, hi, now) + HoldUse(c, lo, hi, now)(h)
  {
    TotalUpdate(HoldUse(c, lo, hi, now), t.holds, i, h);
  }

  lemma LoadAfterAppointmentUpdate(t: Tables, i: nat, a: Appointment, c: Claim, lo: int, hi: int, now: int)
    requires i < |t.appointments|
    ensures Load(t.(appointments := t.appointments[i := a]), c, lo, hi, now) + AppointmentUse(c, lo, hi)(t.appointments[i])
         == Load(t, c, lo, hi, now) + AppointmentUse(c, lo, hi)(a)
  {
    TotalUpdate(AppointmentUse(c, lo, hi), t.appointments, i, a);
  }
}
