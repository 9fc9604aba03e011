/** Buffers between the bookings of a staff member with a single place. */
module BookingGaps {
  import opened Totals
  import opened Calendars
  import opened Catalogs
  import opened Occupancy
  import opened Bookings
  import opened BookingSafety

  datatype Row = HoldRow(i: nat) | AppointmentRow(i: nat)

  predicate LiveRow(t: Tables, x: Row, now: int) {
    match x
    case HoldRow(i) => i < |t.holds| && HoldLive(t.holds[i], now)
    case AppointmentRow(i) => i < |t.appointments| && Blocking(t.appointments[i].status)
  }

  function PlaceOf(t: Tables, x: Row): Reservation
    requires if x.HoldRow? then x.i < |t.holds| else x.i < |t.appointments|
  {
    if x.HoldRow? then t.holds[x.i].place else t.appointments[x.i].place
  }

  function BufferBefore(cat: Catalog, place: Reservation): int {
    if place.service in cat.services then cat.services[place.service].bufferBefore * MINUTE else 0
  }

  function BufferAfter(cat: Catalog, place: Reservation): int {
    if place.service in cat.services then cat.services[place.service].bufferAfter * MINUTE else 0
  }

  /** Between a and the later b lies at least the smaller of a's after-buffer and b's before-buffer. */
  predicate GapThen(cat: Catalog, a: Reservation, b: Reservation) {
    a.endsAt + (if BufferAfter(cat, a) < BufferBefore(cat, b) then BufferAfter(cat, a) else BufferBefore(cat, b)) <= b.startsAt
  }

  predicate Apart(cat: Catalog, a: Reservation, b: Reservation) { GapThen(cat, a, b) || GapThen(cat, b, a) }

  /** Two live rows of one staff member with a single place are apart. */
  ghost predicate AllApart(cat: Catalog, t: Tables, now: int) {
    forall x, y :: LiveRow(t, x, now) && LiveRow(t, y, now) && x != y
      && PlaceOf(t, x).staff == PlaceOf(t, y).staff && Limit(cat, Seat(PlaceOf(t, x).staff), 1)
      ==> Apart(cat, PlaceOf(t, x), PlaceOf(t, y))
  }

  /** Every row takes some time. */
  ghost predicate TakeTime(t: Tables) {
    && (forall i :: 0 <= i < |t.holds| ==> t.holds[i].place.startsAt < t.holds[i].place.endsAt)
    && (forall i :: 0 <= i < |t.appointments| ==> t.appointments[i].place.startsAt < t.appointments[i].place.endsAt)
  }

  /** In a window with no load no live row of the staff member overlaps. */
  lemma FreeWindow(t: Tables, x: Row, lo: int, hi: int, now: int)
    requires LiveRow(t, x, now) && Load(t, Seat(PlaceOf(t, x).staff), lo, hi, now) == 0
    ensures !Overlaps(PlaceOf(t, x), lo, hi)
  {
    var c := Seat(PlaceOf(t, x).staff);
    match x
    case HoldRow(i) => TotalBoundsEach(HoldUse(c, lo, hi, now), t.holds, i);
    case AppointmentRow(i) => TotalBoundsEach(AppointmentUse(c, lo, hi), t.appointments, i);
  }

  /** The place takes some time, and a staff member with a single place is free over it, its own buffers included. */
  ghost predicate FreeFor(cat: Catalog, t: Tables, place: Reservation, now: int) {
    && place.startsAt < place.endsAt
    && (Limit(cat, Seat(place.staff), 1) ==>
          Load(t, Seat(place.staff), place.startsAt - BufferBefore(cat, place), place.endsAt + BufferAfter(cat, place), now) == 0)
  }

  /** A booking placed in a free busy window is apart from every live row of the staff member. */
  lemma PlacedApart(cat: Catalog, t: Tables, h: Hold, now: int)
    requires AllApart(cat, t, now) && FreeFor(cat, t, h.place, now)
    ensures AllApart(cat, t.(holds := t.holds + [h]), now)
  {
    var u, placed := t.(holds := t.holds + [h]), HoldRow(|t.holds|);
    forall x | LiveRow(u, x, now) && x != placed ensures LiveRow(t, x, now) && PlaceOf(u, x) == PlaceOf(t, x) { }
    forall x | LiveRow(u, x, now) && x != placed && PlaceOf(u, x).staff == h.place.staff && Limit(cat, Seat(h.place.staff), 1)
      ensures Apart(cat, PlaceOf(u, x), h.place)
    {
      FreeWindow(t, x, h.place.startsAt - BufferBefore(cat, h.place), h.place.endsAt + BufferAfter(cat, h.place), now);
    }
  }

  /** What apartness looks at. */
  predicate SameSpan(a: Reservation, b: Reservation) {
    a.service == b.service && a.staff == b.staff && a.startsAt == b.startsAt && a.endsAt == b.endsAt
  }

  /** Live row x of v stands where live row x0 of u stands. */
  predicate StandsFor(u: Tables, v: Tables, now: int, later: int, x0: Row, x: Row) {
    LiveRow(v, x, later) && LiveRow(u, x0, now) && SameSpan(PlaceOf(u, x0), PlaceOf(v, x))
  }

  lemma PairInherited(cat: Catalog, u: Tables, v: Tables, now: int, later: int, x0: Row, y0: Row, x: Row, y: Row)
    requires AllApart(cat, u, now) && x0 != y0
    requires StandsFor(u, v, now, later, x0, x) && StandsFor(u, v, now, later, y0, y)
    requires PlaceOf(v, x).staff == PlaceOf(v, y).staff && Limit(cat, Seat(PlaceOf(v, x).staff), 1)
    ensures Apart(cat, PlaceOf(v, x), PlaceOf(v, y))
  {
    assert Apart(cat, PlaceOf(u, x0), PlaceOf(u, y0));
  }

  /** If one live row of v at most is new, and it stands where a row of u stood that v no longer has, v inherits the gaps of u. */
  lemma ApartInherited(cat: Catalog, u: Tables, v: Tables, now: int, later: int, gone: Row, moved: Row)
    requires AllApart(cat, u, now)
    requires forall x :: LiveRow(v, x, later) && x != moved ==> x != gone && StandsFor(u, v, now, later, x, x)
    requires LiveRow(v, moved, later) ==> StandsFor(u, v, now, later, gone, moved)
    ensures AllApart(cat, v, later)
  {
    forall x, y | LiveRow(v, x, later) && LiveRow(v, y, later) && x != y
        && PlaceOf(v, x).staff == PlaceOf(v, y).staff && Limit(cat, Seat(PlaceOf(v, x).staff), 1)
      ensures Apart(cat, PlaceOf(v, x), PlaceOf(v, y))
    {
      PairInherited(cat, u, v, now, later, if x == moved then gone else x, if y == moved then gone else y, x, y);
    }
  }

  /** Rows released, clock advanced. */
  lemma ShrinkApart(cat: Catalog, t: Tables, u: Tables, now: int, later: int)
    requires AllApart(cat, t, now) && Shrinks(t, u) && now <= later
    ensures AllApart(cat, u, later)
  {
    ApartInherited(cat, t, u, now, later, HoldRow(|t.holds|), HoldRow(|t.holds|));
  }

  lemma ConvertApart(cat: Catalog, t: Tables, hold: nat, key: string, id: string, entitled: bool, now: int)
    requires AllApart(cat, t, now)
    ensures AllApart(cat, CreateFromHold(cat, t, hold, key, id, entitled, now).0, now)
  {
    var u := CreateFromHold(cat, t, hold, key, id, entitled, now).0;
    if u != t { ApartInherited(cat, t, u, now, now, HoldRow(hold), AppointmentRow(|t.appointments|)); }
  }

  lemma FreeSeat(cat: Catalog, t: Tables, place: Reservation, p: Staff, now: int)
    requires cat.Valid() && p in cat.staff && p.id == place.staff && place.startsAt < place.endsAt
    requires Load(t, Seat(p.id), place.startsAt - BufferBefore(cat, place), place.endsAt + BufferAfter(cat, place), now) < p.maximumConcurrent
    ensures FreeFor(cat, t, place, now)
  {
    if Limit(cat, Seat(p.id), 1) { LimitUnique(cat, Seat(p.id), 1, p.maximumConcurrent); }
  }

  /** A request answered with a new hold: the hold, free at its time. */
  lemma CreatedFree(cat: Catalog, cal: Calendar, t: Tables, req: HoldRequest, now: int) returns (h: Hold)
    requires cat.Valid() && CreateHold(cat, cal, t, req, now).0 != t
    ensures CreateHold(cat, cal, t, req, now) == (t.(holds := t.holds + [h]), Ok(|t.holds|))
    ensures h.place.service == req.service && h.status.Active? && (req.staff.Some? ==> h.place.staff == req.staff.value)
    ensures FreeFor(cat, t, h.place, now)
  {
    var made, p, lo, hi := CreatedHold(cat, cal, t, req, now);
    h := made;
    FreeSeat(cat, t, h.place, p, now);
  }

  lemma CreateApart(cat: Catalog, cal: Calendar, t: Tables, req: HoldRequest, now: int)
    requires cat.Valid() && AllApart(cat, t, now) && TakeTime(t)
    ensures AllApart(cat, CreateHold(cat, cal, t, req, now).0, now) && TakeTime(CreateHold(cat, cal, t, req, now).0)
  {
    if CreateHold(cat, cal, t, req, now).0 != t {
      var h := CreatedFree(cat, cal, t, req, now);
      PlacedApart(cat, t, h, now);
    }
  }

  /** Placing a hold at a free time and moving the appointment onto it. */
  lemma MovedApart(cat: Catalog, t: Tables, h: Hold, a: nat, now: int)
    requires AllApart(cat, t, now) && FreeFor(cat, t, h.place, now) && a < |t.appointments|
    requires h.place.service == t.appointments[a].place.service && h.place.staff == t.appointments[a].place.staff && h.status.Active?
    ensures AllApart(cat, Move(t.(holds := t.holds + [h]), a, |t.holds|), now)
  {
    var live := h.(expiresAt := now + 1);
    PlacedApart(cat, t, live, now);
    ApartInherited(cat, t.(holds := t.holds + [live]), Move(t.(holds := t.holds + [h]), a, |t.holds|), now, now,
                   HoldRow(|t.holds|), AppointmentRow(a));
  }

  lemma RescheduleApart(cat: Catalog, cal: Calendar, t: Tables, a: nat, startsAt: int, key: string, customer: bool, now: int)
    requires cat.Valid() && AllApart(cat, t, now) && TakeTime(t) && FreshKey(t, RescheduleEvent(a, startsAt, key, customer))
    ensures AllApart(cat, Reschedule(cat, cal, t, a, startsAt, key, customer, now).0, now)
    ensures TakeTime(Reschedule(cat, cal, t, a, startsAt, key, customer, now).0)
  {
    if Reschedule(cat, cal, t, a, startsAt, key, customer, now).0 != t {
      var req := MoveRequest(t.appointments[a], startsAt, key);
      FreshCreates(cat, cal, t, req, now);
      var h := CreatedFree(cat, cal, t, req, now);
      MovedApart(cat, t, h, a, now);
    }
  }

  lemma StepApart(cat: Catalog, t: Tables, x: Entry, now: int)
    requires cat.Valid() && AllApart(cat, t, now) && TakeTime(t) && now <= x.now && FreshKey(t, x.event)
    ensures AllApart(cat, Step(cat, t, x), x.now) && TakeTime(Step(cat, t, x))
  {
    ShrinkApart(cat, t, t, now, x.now);
    var u := Step(cat, t, x);
    match x.event
    case HoldEvent(req) => CreateApart(cat, x.cal, t, req, x.now);
    case ConvertEvent(hold, key, id, entitled) => ConvertApart(cat, t, hold, key, id, entitled, x.now);
    case RescheduleEvent(row, startsAt, key, customer) => RescheduleApart(cat, x.cal, t, row, startsAt, key, customer, x.now);
    case _ =>
      OthersShrink(cat, t, x);
      ShrinkApart(cat, t, u, x.now, x.now);
  }
}
