/**
  The one transaction that can overbook: a reschedule whose key already has a hold.  It skips the availability check
  and moves the appointment to wherever that old hold was.
  */
module BookingReplay {
  import opened Totals
  import opened Calendars
  import opened Catalogs
  import opened Occupancy
  import opened Bookings
  import opened BookingSafety
  import opened BookingGaps

  /** The hold a reschedule finds under its key. */
  function ReplayedHold(t: Tables, e: Event): (r: Option<nat>)
    ensures r.Some? ==> r.value < |t.holds| && e.RescheduleEvent? && e.row < |t.appointments|
    ensures r.None? <==> FreshKey(t, e)
  {
    if e.RescheduleEvent? && e.row < |t.appointments| then HoldByKey(t.holds, RescheduleKey(t.appointments[e.row], e.key)) else None
  }

  /** A reschedule under a used key is nothing but the move onto the old hold, whatever now stands there. */
  lemma ReplayIsMove(cat: Catalog, cal: Calendar, t: Tables, a: nat, startsAt: int, key: string, customer: bool, now: int)
    requires a < |t.appointments| && HoldByKey(t.holds, RescheduleKey(t.appointments[a], key)).Some?
    ensures var (u, r) := Reschedule(cat, cal, t, a, startsAt, key, customer, now);
      u == if r.Ok? then Move(t, a, HoldByKey(t.holds, RescheduleKey(t.appointments[a], key)).value) else t
    ensures Reschedule(cat, cal, t, a, startsAt, key, customer, now).1.Ok? ==> Blocking(t.appointments[a].status)
  {
  }

  /** The appointment stands where the hold stood. */
  predicate StandsOn(a: Appointment, h: Hold) {
    a.place.startsAt == h.place.startsAt && a.place.endsAt == h.place.endsAt && a.place.links == h.place.links
  }

  /** A replay onto a converted hold changes nothing exactly when the appointment still stands on it, however much later. */
  lemma ReplayIsNeutralIff(t: Tables, a: nat, hold: nat)
    requires a < |t.appointments| && hold < |t.holds| && t.holds[hold].status.Converted?
    ensures Move(t, a, hold) == t <==> StandsOn(t.appointments[a], t.holds[hold])
  {
    assert Move(t, a, hold) == t ==> t.appointments[a] == MovedTo(t.appointments[a], t.holds[hold]);
  }

  // ----- limits -----

  /** The tables without one appointment and one hold. */
  function Without(t: Tables, a: nat, hold: nat): Tables
    requires a < |t.appointments| && hold < |t.holds|
  {
    Tables(t.holds[hold := t.holds[hold].(status := Released)], t.appointments[a := t.appointments[a].(status := Cancelled)])
  }

  /** Beside the other bookings there is room for the appointment at every instant of the old hold. */
  ghost predicate RoomBesideOthers(cat: Catalog, t: Tables, a: nat, hold: nat, now: int)
    requires a < |t.appointments| && hold < |t.holds|
  {
    var place := MovedTo(t.appointments[a], t.holds[hold]).place;
    forall c, limit, at :: Limit(cat, c, limit) && place.startsAt <= at < place.endsAt && 0 < Demand(c, place) ==>
      Usage(Without(t, a, hold), c, at, now) + Demand(c, place) <= limit
  }

  lemma LoadWithout(t: Tables, a: nat, hold: nat, c: Claim, lo: int, hi: int, now: int)
    requires a < |t.appointments| && hold < |t.holds|
    ensures Load(Without(t, a, hold), c, lo, hi, now) + AppointmentUse(c, lo, hi)(t.appointments[a]) + HoldUse(c, lo, hi, now)(t.holds[hold])
         == Load(t, c, lo, hi, now)
  {
    var released, cancelled := t.holds[hold].(status := Released), t.appointments[a].(status := Cancelled);
    var v := t.(holds := t.holds[hold := released]);
    LoadAfterHoldUpdate(t, hold, released, c, lo, hi, now);
    LoadAfterAppointmentUpdate(v, a, cancelled, c, lo, hi, now);
    assert Without(t, a, hold) == v.(appointments := v.appointments[a := cancelled]);
  }

  /** A replay keeps every claim within its limit exactly when there is room beside the others at every instant of the old hold. */
  lemma ReplaySafeIff(cat: Catalog, t: Tables, a: nat, hold: nat, now: int)
    requires WithinLimits(cat, t, now) && a < |t.appointments| && hold < |t.holds| && Blocking(t.appointments[a].status)
    ensures WithinLimits(cat, Move(t, a, hold), now) <==> RoomBesideOthers(cat, t, a, hold, now)
  {
    var u, place := Move(t, a, hold), MovedTo(t.appointments[a], t.holds[hold]).place;
    forall c, at ensures Usage(u, c, at, now)
        == Usage(Without(t, a, hold), c, at, now) + if place.startsAt <= at < place.endsAt then Demand(c, place) else 0 {
      MoveBalance(t, a, hold, c, at, now);
      LoadWithout(t, a, hold, c, at, at + 1, now);
    }
    forall c, limit, at | Limit(cat, c, limit) ensures Usage(Without(t, a, hold), c, at, now) <= limit {
      LoadWithout(t, a, hold, c, at, at + 1, now);
      assert Usage(t, c, at, now) <= limit;
    }
  }

  // ----- gaps -----

  /** The moved place of a single-place staff member is apart from all the member's other live rows. */
  ghost predicate ApartFromOthers(cat: Catalog, t: Tables, a: nat, hold: nat, now: int)
    requires a < |t.appointments| && hold < |t.holds|
  {
    var place := MovedTo(t.appointments[a], t.holds[hold]).place;
    Limit(cat, Seat(place.staff), 1) ==>
      forall x :: LiveRow(t, x, now) && x != AppointmentRow(a) && x != HoldRow(hold) && PlaceOf(t, x).staff == place.staff ==>
        Apart(cat, PlaceOf(t, x), place)
  }

  /** Every live row but the moved appointment and the hold is as it was. */
  lemma OtherRowsStay(t: Tables, a: nat, hold: nat, x: Row, now: int)
    requires a < |t.appointments| && hold < |t.holds| && x != AppointmentRow(a)
    ensures LiveRow(Move(t, a, hold), x, now) <==> LiveRow(t, x, now) && x != HoldRow(hold)
    ensures LiveRow(Move(t, a, hold), x, now) ==> PlaceOf(Move(t, a, hold), x) == PlaceOf(t, x)
  {
  }

  /** A replay keeps the gaps exactly when the moved place is apart from the staff member's other live bookings. */
  lemma ReplayApartIff(cat: Catalog, t: Tables, a: nat, hold: nat, now: int)
    requires AllApart(cat, t, now) && a < |t.appointments| && hold < |t.holds| && Blocking(t.appointments[a].status)
    ensures AllApart(cat, Move(t, a, hold), now) <==> ApartFromOthers(cat, t, a, hold, now)
  {
    if AllApart(cat, Move(t, a, hold), now) { ApartAfterMove(cat, t, a, hold, now); }
    if ApartFromOthers(cat, t, a, hold, now) { MoveKeepsApart(cat, t, a, hold, now); }
  }

  lemma ApartAfterMove(cat: Catalog, t: Tables, a: nat, hold: nat, now: int)
    requires AllApart(cat, Move(t, a, hold), now) && a < |t.appointments| && hold < |t.holds| && Blocking(t.appointments[a].status)
    ensures ApartFromOthers(cat, t, a, hold, now)
  {
    var u, moved := Move(t, a, hold), AppointmentRow(a);
    forall x | LiveRow(t, x, now) && x != moved && x != HoldRow(hold) && PlaceOf(t, x).staff == t.appointments[a].place.staff
        && Limit(cat, Seat(t.appointments[a].place.staff), 1)
      ensures Apart(cat, PlaceOf(t, x), PlaceOf(u, moved))
    {
      OtherRowsStay(t, a, hold, x, now);
      assert LiveRow(u, moved, now) && Apart(cat, PlaceOf(u, x), PlaceOf(u, moved));
    }
  }

  lemma MoveKeepsApart(cat: Catalog, t: Tables, a: nat, hold: nat, now: int)
    requires AllApart(cat, t, now) && a < |t.appointments| && hold < |t.holds| && ApartFromOthers(cat, t, a, hold, now)
    ensures AllApart(cat, Move(t, a, hold), now)
  {
    var u, moved := Move(t, a, hold), AppointmentRow(a);
    forall x | x != moved ensures LiveRow(u, x, now) ==> LiveRow(t, x, now) && x != HoldRow(hold) && PlaceOf(u, x) == PlaceOf(t, x) {
      OtherRowsStay(t, a, hold, x, now);
    }
  }

  // ----- the check a replay leaves out -----

  /** The window check of a placement, for the moved place with its buffers, beside the other bookings. */
  ghost predicate WindowBesideOthers(cat: Catalog, t: Tables, a: nat, hold: nat, now: int)
    requires a < |t.appointments| && hold < |t.holds|
  {
    var place := MovedTo(t.appointments[a], t.holds[hold]).place;
    HasRoom(cat, Without(t, a, hold), place, place.startsAt - BufferBefore(cat, place), place.endsAt + BufferAfter(cat, place), now)
  }

  /** Where the window check would pass, a replay does no harm: there is room at every instant, and the gaps are kept. */
  lemma WindowCheckSuffices(cat: Catalog, t: Tables, a: nat, hold: nat, now: int)
    requires a < |t.appointments| && hold < |t.holds| && WindowBesideOthers(cat, t, a, hold, now)
    ensures RoomBesideOthers(cat, t, a, hold, now) && ApartFromOthers(cat, t, a, hold, now)
  {
    var v, place := Without(t, a, hold), MovedTo(t.appointments[a], t.holds[hold]).place;
    var lo, hi := place.startsAt - BufferBefore(cat, place), place.endsAt + BufferAfter(cat, place);
    forall c, limit, at | Limit(cat, c, limit) && place.startsAt <= at < place.endsAt && 0 < Demand(c, place)
      ensures Usage(v, c, at, now) + Demand(c, place) <= limit
    {
      UsageWithinLoad(v, c, at, lo, hi, now);
    }
    if Limit(cat, Seat(place.staff), 1) {
      assert Demand(Seat(place.staff), place) == 1;
      forall x | LiveRow(t, x, now) && x != AppointmentRow(a) && x != HoldRow(hold) && PlaceOf(t, x).staff == place.staff
        ensures Apart(cat, PlaceOf(t, x), place)
      {
        assert LiveRow(v, x, now) && PlaceOf(v, x) == PlaceOf(t, x);
        FreeWindow(v, x, lo, hi, now);
      }
    }
  }

  /** So is the check as the service makes it, the appointment's own old time and the hold included. */
  lemma ServiceCheckSuffices(cat: Catalog, t: Tables, a: nat, hold: nat, now: int)
    requires a < |t.appointments| && hold < |t.holds|
    requires var place := MovedTo(t.appointments[a], t.holds[hold]).place;
      HasRoom(cat, t, place, place.startsAt - BufferBefore(cat, place), place.endsAt + BufferAfter(cat, place), now)
    ensures WindowBesideOthers(cat, t, a, hold, now)
  {
    var place := MovedTo(t.appointments[a], t.holds[hold]).place;
    var lo, hi := place.startsAt - BufferBefore(cat, place), place.endsAt + BufferAfter(cat, place);
    forall c ensures Load(Without(t, a, hold), c, lo, hi, now) <= Load(t, c, lo, hi, now) { LoadWithout(t, a, hold, c, lo, hi, now); }
  }
}
