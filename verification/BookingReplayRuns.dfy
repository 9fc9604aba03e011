/** Two short logs that replay a reschedule: one books a place twice, the other overruns a buffer the limits do not see. */
module BookingReplayRuns {
  import opened Totals
  import opened Zones
  import opened Calendars
  import opened Catalogs
  import opened Occupancy
  import opened Availability
  import opened Bookings
  import opened Text
  import opened BookingSafety
  import opened BookingGaps
  import opened BookingReplay
  import opened BookingLogs
  import AvailabilityService
  import Ordering

  const HOUR := 60 * MINUTE

  const BUFFER := 30 * MINUTE

  const DEMO_ZONE: Zone := Table(0, [])

  /** One branch open all day on day 0, one staff member with one place, one service of an hour with half an hour of buffer on both sides. */
  function DemoCatalog(): Catalog {
    var branch := Branch(1, DEMO_ZONE, map[Weekday(0) := [Period(0, DAY - 1)]], true);
    var service := Service(true, 60, 30, 30, 0, 30, 0, Instant, []);
    var staff := Staff(1, 1, None, true, true, true, {1}, map[1 := StaffService(true, None)]);
    Catalog(map[1 := branch], map[1 := service], [staff], [], map[], Policy(60, 300, 0, true, true, false), 31)
  }

  function DemoPlace(hour: int): Reservation { Reservation(1, 1, 1, hour * HOUR, (hour + 1) * HOUR, map[]) }

  function DemoHold(hour: int, key: string, status: HoldStatus): Hold { Hold(DemoPlace(hour), 300_000_000, key, status) }

  /** The busy window of the slot at an hour is free. */
  predicate FreeAt(t: Tables, hour: int) { Load(t, Seat(1), hour * HOUR - BUFFER, (hour + 1) * HOUR + BUFFER, 0) == 0 }

  function DemoQuery(t: Tables): Query { QueryFor(DemoCatalog(), NO_CALENDAR, t, 1, 1, 0) }

  function DemoSlot(hour: int): Slot { Slot(hour * HOUR, (hour + 1) * HOUR, hour * HOUR, (hour + 1) * HOUR, false, 1, []) }

  lemma DemoPeriods()
    ensures BranchPeriods(NO_CALENDAR, 1, DemoCatalog().branches[1].hours, DEMO_ZONE, 0) == [Period(0, DAY - 1)]
  {
    var owner := Owner(BranchOwner, 1);
    assert WeeklyPeriods(NO_CALENDAR, owner, 0, DemoCatalog().branches[1].hours) == [Period(0, DAY - 1)];
    assert OverridePeriods(NO_CALENDAR.exceptions, owner, DEMO_ZONE, 0) == [];
    var periods := [Period(0, DAY - 1)];
    assert periods + [] == periods && periods[..0] == [];
    assert Ordering.UniqueSorted(PeriodKey(), periods[..0]) == [];
  }

  lemma DemoBookable(t: Tables, hour: int)
    requires 1 <= hour <= 20 && FreeAt(t, hour)
    ensures Bookable(DemoQuery(t), DemoCatalog().staff[0], 0, hour * HOUR)
    ensures SlotAt(DemoQuery(t), DemoCatalog().staff[0], hour * HOUR) == DemoSlot(hour)
  {
    DemoPeriods();
    var q, p := DemoQuery(t), DemoCatalog().staff[0];
    assert EndsAt(q, p, hour * HOUR) == (hour + 1) * HOUR;
    assert InNotice(q, p, hour * HOUR);
    assert BranchOpen(q, p, 0, hour * HOUR);
    assert ScheduleOpen(q, p, 0, hour * HOUR);
    assert SeatFree(q, p, hour * HOUR);
  }

  lemma DemoOnGrid(t: Tables, hour: int)
    requires 1 <= hour <= 20
    ensures OnSomeGrid(DemoQuery(t), DemoCatalog().staff[0], 0, hour * HOUR)
  {
    DemoPeriods();
    assert OnGrid(DemoQuery(t), DemoCatalog().staff[0], 0, Period(0, DAY - 1), hour * HOUR);
  }

  lemma DemoIsSlot(t: Tables, only: Option<int>, hour: int)
    requires 1 <= hour <= 20 && FreeAt(t, hour)
    requires only.None? || only.value == 1
    ensures DayOf(DEMO_ZONE.Local(hour * HOUR)) == 0 && IsSlot(DemoQuery(t), only, 0, 0, DemoSlot(hour))
  {
    DemoBookable(t, hour);
    DemoOnGrid(t, hour);
    var q, p, s := DemoQuery(t), DemoCatalog().staff[0], DemoSlot(hour);
    assert StaffSlot(q, only, p, 0, s);
    assert p in q.cat.staff;
  }

  /** While the staff member is free, the demo's slot at a full hour is found. */
  lemma DemoMatch(t: Tables, only: Option<int>, hour: int)
    requires 1 <= hour <= 20 && FreeAt(t, hour)
    requires only.None? || only.value == 1
    ensures AvailabilityService.Match(DemoQuery(t), only, hour * HOUR) == Some(DemoSlot(hour))
  {
    var q, s := DemoQuery(t), DemoSlot(hour);
    DemoIsSlot(t, only, hour);
    forall other | IsSlot(q, only, 0, 0, other) ensures other.staff == 1 { }
    AvailabilityService.MatchUnique(q, only, hour * HOUR, Some(s));
  }

  lemma DemoPlacement(t: Tables, only: Option<int>, hour: int, key: string)
    requires |key| <= MAX_KEY
    ensures PlaceHold(DemoCatalog(), t, HoldRequest(1, 1, only, hour * HOUR, key), Some(DemoSlot(hour)), 0)
         == (t.(holds := t.holds + [DemoHold(hour, key, Active)]), Ok(|t.holds|))
  {
  }

  lemma DemoCreate(t: Tables, only: Option<int>, hour: int, key: string)
    requires 1 <= hour <= 20 && FreeAt(t, hour)
    requires only.None? || only.value == 1
    requires HoldByKey(t.holds, key).None? && !Blank(key) && |key| <= MAX_KEY
    ensures CreateHold(DemoCatalog(), NO_CALENDAR, t, HoldRequest(1, 1, only, hour * HOUR, key), 0)
         == (t.(holds := t.holds + [DemoHold(hour, key, Active)]), Ok(|t.holds|))
  {
    DemoMatch(t, only, hour);
    DemoPlacement(t, only, hour, key);
  }

  lemma TotalOfFew<T>(w: T -> nat, x: T, y: T, z: T)
    ensures Total(w, [x]) == w(x)
    ensures Total(w, [x, y]) == w(x) + w(y)
    ensures Total(w, [x, y, z]) == w(x) + w(y) + w(z)
  {
    assert [x][..0] == [];
    assert [x, y][..1] == [x];
    assert [x, y, z][..2] == [x, y];
  }

  function DemoAppointment(hour: int): Appointment { Appointment("A", DemoPlace(hour), Confirmed, "booking") }

  const HOLD_1: Hold := DemoHold(10, "first", Converted)
  const HOLD_2: Hold := DemoHold(13, "reschedule:A:k", Converted)
  const HOLD_3: Hold := DemoHold(16, "reschedule:A:m", Converted)

  /** The hold of another customer, at the hour of the old hold or right after it. */
  function Other(hour: int): Hold { DemoHold(hour, "other", Active) }

  lemma DemoLoads(hour: int)
    ensures FreeAt(Tables([], []), hour)
    ensures hour == 13 ==> FreeAt(Tables([HOLD_1], [DemoAppointment(10)]), hour)
    ensures hour == 16 ==> FreeAt(Tables([HOLD_1, HOLD_2], [DemoAppointment(13)]), hour)
    ensures 13 <= hour <= 14 ==> FreeAt(Tables([HOLD_1, HOLD_2, HOLD_3], [DemoAppointment(16)]), hour)
  {
    var lo, hi := hour * HOUR - BUFFER, (hour + 1) * HOUR + BUFFER;
    TotalOfFew(HoldUse(Seat(1), lo, hi, 0), HOLD_1, HOLD_2, HOLD_3);
    var a, b, c := DemoAppointment(10), DemoAppointment(13), DemoAppointment(16);
    TotalOfFew(AppointmentUse(Seat(1), lo, hi), a, b, c);
    TotalOfFew(AppointmentUse(Seat(1), lo, hi), b, b, c);
    TotalOfFew(AppointmentUse(Seat(1), lo, hi), c, b, c);
  }

  lemma NotBlank(s: string)
    requires s != [] && !IsSpace(s[0]) && !IsSpace(s[|s| - 1])
    ensures !Blank(s)
  {
  }

  /** The keys of the two moves, neither in use before; the first one is found again later. */
  lemma FirstMoveKey()
    ensures RescheduleKey(DemoAppointment(10), "k") == HOLD_2.key && HoldByKey([HOLD_1], HOLD_2.key).None?
    ensures !Blank("k") && !Blank(HOLD_2.key)
  {
    NotBlank("k");
    NotBlank(HOLD_2.key);
    assert HOLD_1.key[0] == 'f' && HOLD_2.key[0] == 'r';
  }

  lemma SecondMoveKey()
    ensures RescheduleKey(DemoAppointment(13), "m") == HOLD_3.key && HoldByKey([HOLD_1, HOLD_2], HOLD_3.key).None?
    ensures !Blank("m") && !Blank(HOLD_3.key)
  {
    NotBlank("m");
    NotBlank(HOLD_3.key);
    assert HOLD_1.key[0] == 'f' && HOLD_2.key[13] == 'k' && HOLD_3.key[0] == 'r' && HOLD_3.key[13] == 'm';
    assert forall h :: h in [HOLD_1, HOLD_2] ==> h == HOLD_1 || h == HOLD_2;
  }

  lemma OtherKey(other: int)
    ensures HoldByKey([HOLD_1, HOLD_2, HOLD_3], Other(other).key).None? && !Blank("other")
  {
    NotBlank("other");
    assert HOLD_1.key[0] == 'f' && Other(other).key[0] == 'o' && HOLD_2.key[0] == HOLD_3.key[0] == 'r';
    assert forall h :: h in [HOLD_1, HOLD_2, HOLD_3] ==> h.key[0] != 'o';
  }

  lemma ReplayedKey(other: int)
    ensures RescheduleKey(DemoAppointment(16), "k") == HOLD_2.key
    ensures HoldByKey([HOLD_1, HOLD_2, HOLD_3, Other(other)], HOLD_2.key) == Some(1)
    ensures !Blank("k") && !Blank(HOLD_2.key)
  {
    NotBlank("k");
    NotBlank(HOLD_2.key);
    assert Other(other).key[0] == 'o' && HOLD_2.key[0] == 'r' && HOLD_2.key[13] == 'k' && HOLD_3.key[13] == 'm';
    assert [HOLD_1, HOLD_2, HOLD_3, Other(other)][..3] == [HOLD_1, HOLD_2, HOLD_3];
    assert [HOLD_1, HOLD_2, HOLD_3][..2] == [HOLD_1, HOLD_2];
  }

  /** Book at 10, move to 13 under key k, move on to 16; another customer takes a free hour; key k is sent again. */
  function DemoLog(other: int): seq<Entry> {
    var at := (e: Event) => Entry(e, 0, NO_CALENDAR);
    [at(HoldEvent(HoldRequest(1, 1, Some(1), 10 * HOUR, "first"))),
     at(ConvertEvent(0, "booking", "A", true)),
     at(RescheduleEvent(0, 13 * HOUR, "k", false)),
     at(RescheduleEvent(0, 16 * HOUR, "m", false)),
     at(HoldEvent(HoldRequest(1, 1, Some(1), other * HOUR, "other"))),
     at(RescheduleEvent(0, 13 * HOUR, "k", false))]
  }

  lemma AfterStep(cat: Catalog, log: seq<Entry>, n: nat)
    requires n < |log|
    ensures After(cat, log[..n + 1]) == Step(cat, After(cat, log[..n]), log[n])
  {
    assert log[..n + 1][..n] == log[..n];
  }

  /** The tables along the log. */
  function Stage(n: nat, other: int): Tables
    requires n <= 6
  {
    match n
    case 0 => Tables([], [])
    case 1 => Tables([DemoHold(10, "first", Active)], [])
    case 2 => Tables([HOLD_1], [DemoAppointment(10)])
    case 3 => Tables([HOLD_1, HOLD_2], [DemoAppointment(13)])
    case 4 => Tables([HOLD_1, HOLD_2, HOLD_3], [DemoAppointment(16)])
    case 5 => Tables([HOLD_1, HOLD_2, HOLD_3, Other(other)], [DemoAppointment(16)])
    case 6 => Tables([HOLD_1, HOLD_2, HOLD_3, Other(other)], [DemoAppointment(13)])
  }

  lemma DemoReschedule(t: Tables, from: int, hour: int, key: string, full: string)
    requires 1 <= hour <= 20 && FreeAt(t, hour)
    requires t.appointments == [DemoAppointment(from)] && full == RescheduleKey(DemoAppointment(from), key)
    requires !Blank(key) && !Blank(full) && |key| <= 100 && HoldByKey(t.holds, full).None?
    ensures Reschedule(DemoCatalog(), NO_CALENDAR, t, 0, hour * HOUR, key, false, 0).0
         == Tables(t.holds + [DemoHold(hour, full, Converted)], [DemoAppointment(hour)])
  {
    DemoCreate(t, Some(1), hour, full);
    DemoMove(t, from, hour, full);
  }

  lemma DemoMove(t: Tables, from: int, hour: int, key: string)
    requires t.appointments == [DemoAppointment(from)]
    ensures Move(t.(holds := t.holds + [DemoHold(hour, key, Active)]), 0, |t.holds|)
         == Tables(t.holds + [DemoHold(hour, key, Converted)], [DemoAppointment(hour)])
  {
  }

  lemma DemoFirstHold(other: int)
    ensures Step(DemoCatalog(), Stage(0, other), DemoLog(other)[0]) == Stage(1, other)
  {
    DemoLoads(10);
    NotBlank("first");
    DemoCreate(Stage(0, other), Some(1), 10, "first");
    assert [] + [DemoHold(10, "first", Active)] == Stage(1, other).holds;
  }

  lemma DemoConvert(other: int)
    ensures Step(DemoCatalog(), Stage(1, other), DemoLog(other)[1]) == Stage(2, other)
  {
    NotBlank("booking");
    assert [] + [DemoAppointment(10)] == Stage(2, other).appointments;
  }

  lemma DemoFirstMove()
    ensures Reschedule(DemoCatalog(), NO_CALENDAR, Tables([HOLD_1], [DemoAppointment(10)]), 0, 13 * HOUR, "k", false, 0).0
         == Tables([HOLD_1, HOLD_2], [DemoAppointment(13)])
  {
    DemoLoads(13);
    FirstMoveKey();
    DemoReschedule(Tables([HOLD_1], [DemoAppointment(10)]), 10, 13, "k", HOLD_2.key);
    assert [HOLD_1] + [HOLD_2] == [HOLD_1, HOLD_2];
  }

  lemma SecondMoveReady(t: Tables)
    requires t == Tables([HOLD_1, HOLD_2], [DemoAppointment(13)])
    ensures FreeAt(t, 16)
    ensures HOLD_3.key == RescheduleKey(DemoAppointment(13), "m") && HoldByKey(t.holds, HOLD_3.key).None?
    ensures !Blank("m") && !Blank(HOLD_3.key) && t.holds + [HOLD_3] == [HOLD_1, HOLD_2, HOLD_3]
  {
    DemoLoads(16);
    SecondMoveKey();
  }

  lemma DemoSecondMove(t: Tables)
    requires t == Tables([HOLD_1, HOLD_2], [DemoAppointment(13)])
    ensures Reschedule(DemoCatalog(), NO_CALENDAR, t, 0, 16 * HOUR, "m", false, 0).0
         == Tables([HOLD_1, HOLD_2, HOLD_3], [DemoAppointment(16)])
  {
    SecondMoveReady(t);
    DemoReschedule(t, 13, 16, "m", HOLD_3.key);
  }

  lemma DemoOtherHold(other: int)
    requires 13 <= other <= 14
    ensures CreateHold(DemoCatalog(), NO_CALENDAR, Stage(4, other), HoldRequest(1, 1, Some(1), other * HOUR, "other"), 0).0 == Stage(5, other)
  {
    DemoLoads(other);
    OtherKey(other);
    DemoCreate(Stage(4, other), Some(1), other, "other");
    assert Stage(4, other).holds + [Other(other)] == Stage(5, other).holds;
  }

  lemma DemoReplay(other: int)
    ensures Reschedule(DemoCatalog(), NO_CALENDAR, Stage(5, other), 0, 13 * HOUR, "k", false, 0).0 == Stage(6, other)
  {
    ReplayedKey(other);
    ReplayIsMove(DemoCatalog(), NO_CALENDAR, Stage(5, other), 0, 13 * HOUR, "k", false, 0);
    assert Move(Stage(5, other), 0, 1) == Stage(6, other);
  }

  lemma DemoMoves(n: nat, other: int)
    requires 2 <= n < 4
    ensures Step(DemoCatalog(), Stage(n, other), DemoLog(other)[n]) == Stage(n + 1, other)
  {
    if n == 2 { DemoFirstMove(); } else { DemoSecondMove(Stage(3, other)); }
  }

  lemma DemoLastSteps(n: nat, other: int)
    requires 4 <= n < 6 && 13 <= other <= 14
    ensures Step(DemoCatalog(), Stage(n, other), DemoLog(other)[n]) == Stage(n + 1, other)
  {
    if n == 4 { DemoOtherHold(other); } else { DemoReplay(other); }
  }

  lemma DemoStep(n: nat, other: int)
    requires n < 6 && 13 <= other <= 14
    ensures Step(DemoCatalog(), Stage(n, other), DemoLog(other)[n]) == Stage(n + 1, other)
  {
    if n == 0 { DemoFirstHold(other); }
    else if n == 1 { DemoConvert(other); }
    else if n < 4 { DemoMoves(n, other); }
    else { DemoLastSteps(n, other); }
  }

  lemma {:induction false} DemoAfter(n: nat, other: int)
    requires n <= 6 && 13 <= other <= 14
    ensures After(DemoCatalog(), DemoLog(other)[..n]) == Stage(n, other)
  {
    if n == 0 {
      assert DemoLog(other)[..0] == [];
    } else {
      DemoAfter(n - 1, other);
      AfterStep(DemoCatalog(), DemoLog(other), n - 1);
      DemoStep(n - 1, other);
    }
  }

  lemma DemoEnd(other: int)
    requires 13 <= other <= 14
    ensures After(DemoCatalog(), DemoLog(other)) == Stage(6, other)
  {
    assert DemoLog(other)[..6] == DemoLog(other);
    DemoAfter(6, other);
  }

  lemma DemoCatalogIsValid()
    ensures DemoCatalog().Valid() && Limit(DemoCatalog(), Seat(1), 1)
  {
    assert DemoCatalog().staff[0] in DemoCatalog().staff;
  }

  lemma {:induction false} TimelyAtZero(log: seq<Entry>)
    requires forall x :: x in log ==> x.now == 0
    ensures Timely(log, 0)
  {
    if log != [] { TimelyAtZero(log[..|log| - 1]); }
  }

  // ----- one place taken twice -----

  lemma DemoUsage()
    ensures Usage(Stage(6, 13), Seat(1), 13 * HOUR, 0) == 2
  {
    var at := 13 * HOUR;
    TotalOfFew(HoldUse(Seat(1), at, at + 1, 0), HOLD_1, HOLD_2, HOLD_3);
    assert Stage(6, 13).holds[..3] == [HOLD_1, HOLD_2, HOLD_3];
    TotalOfFew(AppointmentUse(Seat(1), at, at + 1), DemoAppointment(13), DemoAppointment(13), DemoAppointment(13));
  }

  /** The other customer holds the hour of the old hold: after the replay one place is taken twice. */
  lemma ReplayOverbooks()
    ensures DemoCatalog().Valid() && Timely(DemoLog(13), 0) && Limit(DemoCatalog(), Seat(1), 1)
    ensures Usage(After(DemoCatalog(), DemoLog(13)), Seat(1), 13 * HOUR, 0) == 2
  {
    DemoEnd(13);
    DemoUsage();
    TimelyAtZero(DemoLog(13));
    DemoCatalogIsValid();
  }

  // ----- a buffer overrun -----

  lemma StageFiveIsApart()
    ensures AllApart(DemoCatalog(), Stage(5, 14), 0)
  {
    forall x | LiveRow(Stage(5, 14), x, 0) ensures x == AppointmentRow(0) || x == HoldRow(3) { }
  }

  lemma StageSixUsage(at: int)
    ensures Usage(Stage(6, 14), Seat(1), at, 0) <= 1 && Usage(Stage(5, 14), Seat(1), at, 0) <= 1
  {
    TotalOfFew(HoldUse(Seat(1), at, at + 1, 0), HOLD_1, HOLD_2, HOLD_3);
    assert Stage(6, 14).holds[..3] == [HOLD_1, HOLD_2, HOLD_3];
    TotalOfFew(AppointmentUse(Seat(1), at, at + 1), DemoAppointment(13), DemoAppointment(13), DemoAppointment(13));
    TotalOfFew(AppointmentUse(Seat(1), at, at + 1), DemoAppointment(16), DemoAppointment(16), DemoAppointment(16));
  }

  lemma DemoWithinLimits(t: Tables)
    requires t == Stage(5, 14) || t == Stage(6, 14)
    ensures WithinLimits(DemoCatalog(), t, 0)
  {
    forall c, limit, at | Limit(DemoCatalog(), c, limit) ensures Usage(t, c, at, 0) <= limit {
      StageSixUsage(at);
    }
  }

  /** The tables before the replay, and after it. */
  function BeforeReplay(): Tables { Stage(5, 14) }

  function AfterReplay(): Tables { Stage(6, 14) }

  /** The limits do not see what the replay does. */
  lemma ReplayWithinLimits()
    ensures Move(BeforeReplay(), 0, 1) == AfterReplay()
    ensures WithinLimits(DemoCatalog(), BeforeReplay(), 0) && WithinLimits(DemoCatalog(), AfterReplay(), 0)
    ensures RoomBesideOthers(DemoCatalog(), BeforeReplay(), 0, 1, 0)
  {
    DemoWithinLimits(BeforeReplay());
    DemoWithinLimits(AfterReplay());
    assert Move(BeforeReplay(), 0, 1) == AfterReplay();
    ReplaySafeIff(DemoCatalog(), BeforeReplay(), 0, 1, 0);
  }

  lemma NotApartFromOther()
    ensures !ApartFromOthers(DemoCatalog(), BeforeReplay(), 0, 1, 0)
  {
    DemoCatalogIsValid();
    assert LiveRow(BeforeReplay(), HoldRow(3), 0) && !Apart(DemoCatalog(), PlaceOf(BeforeReplay(), HoldRow(3)), DemoPlace(13));
  }

  /** The gaps and the window check do. */
  lemma ReplayLosesGap()
    ensures AllApart(DemoCatalog(), BeforeReplay(), 0) && !AllApart(DemoCatalog(), Move(BeforeReplay(), 0, 1), 0)
    ensures !WindowBesideOthers(DemoCatalog(), BeforeReplay(), 0, 1, 0)
  {
    StageFiveIsApart();
    NotApartFromOther();
    ReplayApartIff(DemoCatalog(), BeforeReplay(), 0, 1, 0);
    if WindowBesideOthers(DemoCatalog(), BeforeReplay(), 0, 1, 0) { WindowCheckSuffices(DemoCatalog(), BeforeReplay(), 0, 1, 0); }
  }

  /**
    The other customer holds the hour right after the old hold.  Before the replay limits and gaps are kept, there is room at
    every instant of the old hold, and the limits are kept after it too; but the window check would have refused, and the
    two bookings then stand without any gap where both sides ask for half an hour.
    */
  lemma ReplayOverrunsBuffer()
    ensures After(DemoCatalog(), DemoLog(14)) == AfterReplay() == Move(BeforeReplay(), 0, 1)
    ensures WithinLimits(DemoCatalog(), BeforeReplay(), 0) && AllApart(DemoCatalog(), BeforeReplay(), 0)
    ensures RoomBesideOthers(DemoCatalog(), BeforeReplay(), 0, 1, 0) && !WindowBesideOthers(DemoCatalog(), BeforeReplay(), 0, 1, 0)
    ensures WithinLimits(DemoCatalog(), AfterReplay(), 0) && !AllApart(DemoCatalog(), AfterReplay(), 0)
  {
    DemoEnd(14);
    ReplayWithinLimits();
    ReplayLosesGap();
  }
}
