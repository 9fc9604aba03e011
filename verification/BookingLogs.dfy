/** No overbooking and no lost buffers over whole runs: exactly as long as every replayed reschedule spares the others. */
module BookingLogs {
  import opened Totals
  import opened Calendars
  import opened Catalogs
  import opened Occupancy
  import opened Bookings
  import opened BookingSafety
  import opened BookingGaps
  import opened BookingReplay

  /** The clocks of a timely log are in order, and not after now. */
  lemma {:induction false} TimelyIff(log: seq<Entry>, now: int)
    ensures Timely(log, now) <==>
      (forall i, j :: 0 <= i <= j < |log| ==> log[i].now <= log[j].now) && (forall i :: 0 <= i < |log| ==> log[i].now <= now)
  {
    if log != [] {
      var front := log[..|log| - 1];
      TimelyIff(front, log[|log| - 1].now);
      assert forall i :: 0 <= i < |front| ==> front[i] == log[i];
    }
  }

  ghost predicate FreshAt(cat: Catalog, log: seq<Entry>, n: nat)
    requires n < |log|
  {
    FreshKey(After(cat, log[..n]), log[n].event)
  }

  lemma FreshInFront(cat: Catalog, log: seq<Entry>, n: nat)
    requires n < |log| - 1
    ensures FreshAt(cat, log[..|log| - 1], n) == FreshAt(cat, log, n)
  {
    assert log[..|log| - 1][..n] == log[..n];
  }

  /** Every reschedule of the log comes under a key that has no hold at that moment. */
  lemma {:induction false} FreshKeysIff(cat: Catalog, log: seq<Entry>)
    ensures FreshKeys(cat, log) <==> forall n: nat :: n < |log| ==> FreshAt(cat, log, n)
  {
    if log != [] {
      var last := |log| - 1;
      FreshKeysIff(cat, log[..last]);
      forall n: nat | n < last ensures FreshAt(cat, log[..last], n) == FreshAt(cat, log, n) { FreshInFront(cat, log, n); }
      assert FreshKeys(cat, log) == (FreshAt(cat, log, last) && FreshKeys(cat, log[..last]));
    }
  }

  /** What the service answers to a reschedule. */
  ghost predicate Accepted(cat: Catalog, t: Tables, x: Entry)
    requires x.event.RescheduleEvent?
  {
    Reschedule(cat, x.cal, t, x.event.row, x.event.startsAt, x.event.key, x.event.customer, x.now).1.Ok?
  }

  /** A transaction is harmless to the limits unless it is an accepted replay without room beside the others. */
  ghost predicate SparesLimits(cat: Catalog, t: Tables, x: Entry) {
    var hold := ReplayedHold(t, x.event);
    hold.Some? && Accepted(cat, t, x) ==> RoomBesideOthers(cat, t, x.event.row, hold.value, x.now)
  }

  /** And to the gaps unless it is an accepted replay to a place not apart from the others. */
  ghost predicate SparesGaps(cat: Catalog, t: Tables, x: Entry) {
    var hold := ReplayedHold(t, x.event);
    hold.Some? && Accepted(cat, t, x) ==> ApartFromOthers(cat, t, x.event.row, hold.value, x.now)
  }

  /** A replay either moves the appointment onto the old hold or is refused without a change. */
  lemma ReplayStep(cat: Catalog, t: Tables, x: Entry)
    requires ReplayedHold(t, x.event).Some?
    ensures Step(cat, t, x) == if Accepted(cat, t, x) then Move(t, x.event.row, ReplayedHold(t, x.event).value) else t
    ensures Accepted(cat, t, x) ==> Blocking(t.appointments[x.event.row].status)
  {
    ReplayIsMove(cat, x.cal, t, x.event.row, x.event.startsAt, x.event.key, x.event.customer, x.now);
  }

  /** One transaction keeps every claim within its limit exactly when it is harmless. */
  lemma StepSafeIff(cat: Catalog, t: Tables, x: Entry, now: int)
    requires cat.Valid() && WithinLimits(cat, t, now) && now <= x.now
    ensures WithinLimits(cat, Step(cat, t, x), x.now) <==> SparesLimits(cat, t, x)
  {
    var hold := ReplayedHold(t, x.event);
    if hold.None? {
      StepWithinLimits(cat, t, x, now);
    } else {
      ShrinkWithinLimits(cat, t, t, now, x.now);
      ReplayStep(cat, t, x);
      if Accepted(cat, t, x) { ReplaySafeIff(cat, t, x.event.row, hold.value, x.now); }
    }
  }

  lemma StepTakesTime(cat: Catalog, t: Tables, x: Entry, now: int)
    requires cat.Valid() && AllApart(cat, t, now) && TakeTime(t) && now <= x.now
    ensures TakeTime(Step(cat, t, x))
  {
    if ReplayedHold(t, x.event).None? { StepApart(cat, t, x, now); } else { ReplayStep(cat, t, x); }
  }

  /** One transaction keeps the gaps of single-place staff exactly when it is harmless to them. */
  lemma StepApartIff(cat: Catalog, t: Tables, x: Entry, now: int)
    requires cat.Valid() && AllApart(cat, t, now) && TakeTime(t) && now <= x.now
    ensures AllApart(cat, Step(cat, t, x), x.now) <==> SparesGaps(cat, t, x)
  {
    var hold := ReplayedHold(t, x.event);
    if hold.None? {
      StepApart(cat, t, x, now);
    } else {
      ShrinkApart(cat, t, t, now, x.now);
      ReplayStep(cat, t, x);
      if Accepted(cat, t, x) { ReplayApartIff(cat, t, x.event.row, hold.value, x.now); }
    }
  }

  // ----- limits along a log -----

  /** After every transaction of the log, every claim is within its limit. */
  ghost predicate AlwaysWithinLimits(cat: Catalog, log: seq<Entry>) {
    log == [] || (AlwaysWithinLimits(cat, log[..|log| - 1]) && WithinLimits(cat, After(cat, log), log[|log| - 1].now))
  }

  ghost predicate AlwaysSparesLimits(cat: Catalog, log: seq<Entry>) {
    log == [] || (AlwaysSparesLimits(cat, log[..|log| - 1]) && SparesLimits(cat, After(cat, log[..|log| - 1]), log[|log| - 1]))
  }

  lemma EmptyWithinLimits(cat: Catalog, now: int)
    ensures WithinLimits(cat, After(cat, []), now)
  {
    forall c, limit, at | Limit(cat, c, limit) ensures Usage(After(cat, []), c, at, now) <= limit { }
  }

  /** Along a log whose clock does not go back no claim ever exceeds its limit exactly when every replay in it is harmless. */
  lemma {:induction false} LogSafeIff(cat: Catalog, log: seq<Entry>, now: int)
    requires cat.Valid() && Timely(log, now)
    ensures AlwaysWithinLimits(cat, log) <==> AlwaysSparesLimits(cat, log)
    ensures AlwaysSparesLimits(cat, log) ==> WithinLimits(cat, After(cat, log), now)
  {
    if log == [] {
      EmptyWithinLimits(cat, now);
    } else {
      var front, last := log[..|log| - 1], log[|log| - 1];
      LogSafeIff(cat, front, last.now);
      if AlwaysSparesLimits(cat, front) {
        StepSafeIff(cat, After(cat, front), last, last.now);
        if SparesLimits(cat, After(cat, front), last) { ShrinkWithinLimits(cat, After(cat, log), After(cat, log), last.now, now); }
      }
    }
  }

  /** No staff member ever has more blocking appointments and live holds at one instant than the profile's maximum. */
  lemma StaffNeverOverbooked(cat: Catalog, log: seq<Entry>, now: int, p: Staff, at: int)
    requires cat.Valid() && Timely(log, now) && AlwaysSparesLimits(cat, log) && p in cat.staff
    ensures Usage(After(cat, log), Seat(p.id), at, now) <= p.maximumConcurrent
  {
    LogSafeIff(cat, log, now);
    assert Limit(cat, Seat(p.id), p.maximumConcurrent);
  }

  /** The quantities linked to live holds and blocking appointments never exceed a resource's capacity. */
  lemma ResourceNeverOverused(cat: Catalog, log: seq<Entry>, now: int, r: Resource, at: int)
    requires cat.Valid() && Timely(log, now) && AlwaysSparesLimits(cat, log) && r in cat.resources
    ensures Usage(After(cat, log), Unit(r.id), at, now) <= r.capacity
  {
    LogSafeIff(cat, log, now);
    assert Limit(cat, Unit(r.id), r.capacity);
  }

  // ----- gaps along a log -----

  ghost predicate AlwaysApart(cat: Catalog, log: seq<Entry>) {
    log == [] || (AlwaysApart(cat, log[..|log| - 1]) && AllApart(cat, After(cat, log), log[|log| - 1].now))
  }

  ghost predicate AlwaysSparesGaps(cat: Catalog, log: seq<Entry>) {
    log == [] || (AlwaysSparesGaps(cat, log[..|log| - 1]) && SparesGaps(cat, After(cat, log[..|log| - 1]), log[|log| - 1]))
  }

  /** Along such a log the gaps of single-place staff are always kept exactly when every replay in it is harmless to them. */
  lemma {:induction false} LogApartIff(cat: Catalog, log: seq<Entry>, now: int)
    requires cat.Valid() && Timely(log, now)
    ensures AlwaysApart(cat, log) <==> AlwaysSparesGaps(cat, log)
    ensures AlwaysSparesGaps(cat, log) ==> AllApart(cat, After(cat, log), now) && TakeTime(After(cat, log))
  {
    if log != [] {
      var front, last := log[..|log| - 1], log[|log| - 1];
      LogApartIff(cat, front, last.now);
      if AlwaysSparesGaps(cat, front) {
        StepApartIff(cat, After(cat, front), last, last.now);
        StepTakesTime(cat, After(cat, front), last, last.now);
        if SparesGaps(cat, After(cat, front), last) { ShrinkApart(cat, After(cat, log), After(cat, log), last.now, now); }
      }
    }
  }

  /** Of two live bookings of a single-place staff member the later one starts at least the smaller buffer after the earlier one ends. */
  lemma BuffersKept(cat: Catalog, log: seq<Entry>, now: int, x: Row, y: Row)
    requires cat.Valid() && Timely(log, now) && AlwaysSparesGaps(cat, log)
    requires LiveRow(After(cat, log), x, now) && LiveRow(After(cat, log), y, now) && x != y
    requires PlaceOf(After(cat, log), x).staff == PlaceOf(After(cat, log), y).staff
    requires Limit(cat, Seat(PlaceOf(After(cat, log), x).staff), 1)
    requires PlaceOf(After(cat, log), x).startsAt <= PlaceOf(After(cat, log), y).startsAt
    ensures GapThen(cat, PlaceOf(After(cat, log), x), PlaceOf(After(cat, log), y))
  {
    LogApartIff(cat, log, now);
  }

  // ----- fresh keys -----

  /** A log in which no reschedule reuses a key has no replay at all. */
  lemma {:induction false} FreshKeysSpare(cat: Catalog, log: seq<Entry>)
    requires FreshKeys(cat, log)
    ensures AlwaysSparesLimits(cat, log) && AlwaysSparesGaps(cat, log)
  {
    if log != [] { FreshKeysSpare(cat, log[..|log| - 1]); }
  }
}
