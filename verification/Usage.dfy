/** Metered usage: the event log, the running aggregates, and what an invoice charges for them. */
module Usage {
  import opened Totals

  datatype UsageEvent = UsageEvent(meter: string, quantity: real, key: string, period: int)

  /** Aggregates are kept by meter and period start. */
  datatype Meters = Meters(events: seq<UsageEvent>, aggregates: map<(string, int), real>)

  /** A call of `record_usage`, with the current period of the subscription at that moment. */
  datatype Reading = Reading(meter: string, quantity: real, key: string, correction: bool, period: int)

  function CutKey(key: string): string { if 200 < |key| then key[..200] else key }

  predicate Recorded(events: seq<UsageEvent>, key: string) { exists e :: e in events && e.key == key }

  /** `record_usage`: the tables afterwards, and whether an event was created or the error. */
  function Recording(u: Meters, x: Reading): (Meters, Result<bool>) {
    if x.quantity < 0.0 && !x.correction then (u, Err("negative_usage"))
    else if Recorded(u.events, CutKey(x.key)) then (u, Ok(false))
    else
      var slot := (x.meter, x.period);
      var before := if slot in u.aggregates then u.aggregates[slot] else 0.0;
      (Meters(u.events + [UsageEvent(x.meter, x.quantity, CutKey(x.key), x.period)], u.aggregates[slot := before + x.quantity]), Ok(true))
  }

  /** `Sum("quantity")` over the events of one meter and period. */
  function EventSum(events: seq<UsageEvent>, slot: (string, int)): real {
    if events == [] then 0.0
    else
      var last := events[|events| - 1];
      EventSum(events[..|events| - 1], slot) + if (last.meter, last.period) == slot then last.quantity else 0.0
  }

  /** The meters with an event in a period. */
  function SeenMeters(events: seq<UsageEvent>, period: int): set<string> {
    set e | e in events && e.period == period :: e.meter
  }

  /** `reconcile_usage`: seen meters get the sum of their events, other aggregates of the period get zero. */
  function Reconciled(u: Meters, period: int): Meters {
    var seen := set m | m in SeenMeters(u.events, period) :: (m, period);
    u.(aggregates := map slot | slot in u.aggregates.Keys + seen ::
      if slot in seen then EventSum(u.events, slot) else if slot.1 == period then 0.0 else u.aggregates[slot])
  }

  function After(log: seq<Reading>): Meters {
    if log == [] then Meters([], map[]) else Recording(After(log[..|log| - 1]), log[|log| - 1]).0
  }

  /** An aggregate is kept for exactly the meters and periods with an event, and is the sum of its events. */
  ghost predicate Summed(u: Meters) {
    && (forall slot :: slot in u.aggregates <==> HasEvent(u.events, slot))
    && (forall slot :: slot in u.aggregates ==> u.aggregates[slot] == EventSum(u.events, slot))
  }

  predicate HasEvent(events: seq<UsageEvent>, slot: (string, int)) {
    events != [] && ((events[|events| - 1].meter, events[|events| - 1].period) == slot || HasEvent(events[..|events| - 1], slot))
  }

  lemma {:induction false} HasEventIff(events: seq<UsageEvent>, slot: (string, int))
    ensures HasEvent(events, slot) <==> exists e :: e in events && (e.meter, e.period) == slot
  {
    if events != [] {
      var last := |events| - 1;
      assert events == events[..last] + [events[last]];
      HasEventIff(events[..last], slot);
    }
  }

  lemma {:induction false} NoEventsNoSum(events: seq<UsageEvent>, slot: (string, int))
    requires !HasEvent(events, slot)
    ensures EventSum(events, slot) == 0.0
  {
    if events != [] { NoEventsNoSum(events[..|events| - 1], slot); }
  }

  lemma OneEventMore(events: seq<UsageEvent>, e: UsageEvent, slot: (string, int))
    ensures HasEvent(events + [e], slot) <==> HasEvent(events, slot) || (e.meter, e.period) == slot
    ensures EventSum(events + [e], slot) == EventSum(events, slot) + if (e.meter, e.period) == slot then e.quantity else 0.0
  {
    assert (events + [e])[..|events|] == events;
  }

  lemma RecordSummed(u: Meters, x: Reading)
    requires Summed(u)
    ensures Summed(Recording(u, x).0)
  {
    var v := Recording(u, x).0;
    if v != u {
      var e := UsageEvent(x.meter, x.quantity, CutKey(x.key), x.period);
      NoEventUnlessKept(u, (x.meter, x.period));
      forall slot ensures slot in v.aggregates <==> HasEvent(v.events, slot) { OneEventMore(u.events, e, slot); }
      forall slot | slot in v.aggregates ensures v.aggregates[slot] == EventSum(v.events, slot) { OneEventMore(u.events, e, slot); }
    }
  }

  lemma NoEventUnlessKept(u: Meters, slot: (string, int))
    requires Summed(u)
    ensures EventSum(u.events, slot) == if slot in u.aggregates then u.aggregates[slot] else 0.0
  {
    if slot !in u.aggregates { NoEventsNoSum(u.events, slot); }
  }

  /** In every reachable state each aggregate is the sum of its events. */
  lemma {:induction false} AlwaysSummed(log: seq<Reading>)
    ensures Summed(After(log))
  {
    if log != [] {
      AlwaysSummed(log[..|log| - 1]);
      RecordSummed(After(log[..|log| - 1]), log[|log| - 1]);
    }
  }

  /** Reconciling a period after any run changes nothing. */
  lemma ReconciliationIsIdentity(log: seq<Reading>, period: int)
    ensures Reconciled(After(log), period) == After(log)
  {
    var u := After(log);
    AlwaysSummed(log);
    var v := Reconciled(u, period).aggregates;
    forall slot ensures slot in v <==> slot in u.aggregates { HasEventIff(u.events, slot); }
    forall slot | slot in v ensures v[slot] == u.aggregates[slot] {
      if slot.1 == period {
        HasEventIff(u.events, slot);
        var e :| e in u.events && (e.meter, e.period) == slot;
        assert slot.0 in SeenMeters(u.events, period);
      }
    }
    assert v == u.aggregates;
  }

  // ----- one reading, and one reconciliation of any tables -----

  /** The stored key is the given one, of which only the first two hundred characters are stored. */
  predicate StoredAs(stored: string, given: string) {
    if |given| <= 200 then stored == given else |stored| == 200 && stored <= given
  }

  lemma StoredAsIsCut(stored: string, given: string)
    ensures StoredAs(stored, given) <==> stored == CutKey(given)
  {
    if StoredAs(stored, given) && 200 < |given| { assert stored == given[..200]; }
  }

  predicate KeyIsStored(u: Meters, key: string) {
    exists i :: 0 <= i < |u.events| && StoredAs(u.events[i].key, key)
  }

  lemma KeyIsStoredIs(u: Meters, key: string)
    ensures KeyIsStored(u, key) <==> Recorded(u.events, CutKey(key))
  {
    forall i | 0 <= i < |u.events| ensures StoredAs(u.events[i].key, key) <==> u.events[i].key == CutKey(key) {
      StoredAsIsCut(u.events[i].key, key);
    }
  }

  /** Refused exactly when negative without being a correction; counted exactly when not refused and its key is new. */
  lemma CountedIff(u: Meters, x: Reading)
    ensures Recording(u, x).1 == Err("negative_usage") <==> (x.quantity < 0.0 && !x.correction)
    ensures Recording(u, x).1 == Ok(true) <==> ((0.0 <= x.quantity || x.correction) && !KeyIsStored(u, x.key))
    ensures Recording(u, x).1 == Ok(false) <==> ((0.0 <= x.quantity || x.correction) && KeyIsStored(u, x.key))
    ensures Recording(u, x).1 != Ok(true) ==> Recording(u, x).0 == u
  {
    KeyIsStoredIs(u, x.key);
  }

  /** Counted, it is one more event, and its quantity is added to the aggregate of its meter and period and to no other. */
  lemma CountedReading(u: Meters, x: Reading)
    requires Recording(u, x).1 == Ok(true)
    ensures var v, slot := Recording(u, x).0, (x.meter, x.period);
      && |v.events| == |u.events| + 1 && u.events <= v.events
      && v.events[|u.events|].meter == x.meter && v.events[|u.events|].quantity == x.quantity && v.events[|u.events|].period == x.period
      && StoredAs(v.events[|u.events|].key, x.key)
      && v.aggregates.Keys == u.aggregates.Keys + {slot}
      && (forall other :: other in u.aggregates && other != slot ==> v.aggregates[other] == u.aggregates[other])
      && v.aggregates[slot] == (if slot in u.aggregates then u.aggregates[slot] + x.quantity else x.quantity)
  {
    StoredAsIsCut(CutKey(x.key), x.key);
  }

  /** Reconciling any tables whatever leaves the period's aggregates the sums of its events, and the rest as it was. */
  lemma ReconciliationRepairs(u: Meters, period: int, slot: (string, int))
    ensures var v := Reconciled(u, period);
      && v.events == u.events
      && (slot in v.aggregates <==> slot in u.aggregates || (slot.1 == period && HasEvent(u.events, slot)))
      && (slot in v.aggregates && slot.1 == period ==> v.aggregates[slot] == EventSum(u.events, slot))
      && (slot in v.aggregates && slot.1 != period ==> v.aggregates[slot] == u.aggregates[slot])
  {
    HasEventIff(u.events, slot);
    if exists e :: e in u.events && (e.meter, e.period) == slot && slot.1 == period {
      assert slot.0 in SeenMeters(u.events, period);
    } else if slot.1 == period {
      NoEventsNoSum(u.events, slot);
    }
  }

  // ----- events arriving more than once -----

  /** The readings without those whose key had been recorded when they arrived. */
  function WithoutDuplicates(log: seq<Reading>): seq<Reading> {
    if log == [] then []
    else
      var front, last := log[..|log| - 1], log[|log| - 1];
      if Recorded(After(front).events, CutKey(last.key)) then WithoutDuplicates(front) else WithoutDuplicates(front) + [last]
  }

  lemma {:induction false} DuplicatesChangeNothing(log: seq<Reading>)
    ensures After(WithoutDuplicates(log)) == After(log)
  {
    if log != [] {
      var front := log[..|log| - 1];
      DuplicatesChangeNothing(front);
      if !Recorded(After(front).events, CutKey(log[|log| - 1].key)) {
        assert WithoutDuplicates(log)[..|WithoutDuplicates(log)| - 1] == WithoutDuplicates(front);
      }
    }
  }

  /** None of the readings that are left repeats a key. */
  lemma {:induction false} NoDuplicateIsLeft(log: seq<Reading>, n: nat)
    requires n < |WithoutDuplicates(log)|
    ensures !KeyIsStored(After(WithoutDuplicates(log)[..n]), WithoutDuplicates(log)[n].key)
  {
    var front, last := log[..|log| - 1], log[|log| - 1];
    if n < |WithoutDuplicates(front)| {
      NoDuplicateIsLeft(front, n);
      assert WithoutDuplicates(log)[..n] == WithoutDuplicates(front)[..n];
    } else {
      DuplicatesChangeNothing(front);
      KeyIsStoredIs(After(front), last.key);
      assert WithoutDuplicates(log)[..n] == WithoutDuplicates(front);
    }
  }

  lemma {:induction false} RecordedLasts(log: seq<Reading>, n: nat, key: string)
    requires n <= |log| && Recorded(After(log[..n]).events, key)
    ensures Recorded(After(log).events, key)
  {
    if n < |log| {
      assert log[..|log| - 1][..n] == log[..n];
      RecordedLasts(log[..|log| - 1], n, key);
    } else {
      assert log[..n] == log;
    }
  }

  /** A reading accepted once is never counted again. */
  lemma CountedOnce(log: seq<Reading>, n: nat)
    requires n < |log| && Recording(After(log[..n]), log[n]).1.Ok?
    ensures Recording(After(log), log[n]) == (After(log), Ok(false))
  {
    assert log[..n + 1][..n] == log[..n];
    RecordAccepts(After(log[..n]), log[n]);
    RecordedLasts(log, n + 1, CutKey(log[n].key));
  }

  lemma RecordAccepts(u: Meters, x: Reading)
    requires Recording(u, x).1.Ok?
    ensures Recorded(Recording(u, x).0.events, CutKey(x.key))
  {
    var v := Recording(u, x).0;
    if v != u { assert v.events[|u.events|].key == CutKey(x.key); }
  }

  // ----- in place -----

  /** One reading later the tables are those of the longer log. */
  lemma Noted(log: seq<Reading>, x: Reading)
    ensures After(log + [x]) == Recording(After(log), x).0 && Summed(After(log + [x]))
  {
    assert (log + [x])[..|log|] == log;
    AlwaysSummed(log + [x]);
  }

  class Meter {
    var events: seq<UsageEvent>
    var aggregates: map<(string, int), real>
    ghost var log: seq<Reading>

    function State(): Meters
      reads this
    {
      Meters(events, aggregates)
    }

    /** The tables are what the readings in `log` made of empty ones, and each aggregate is the sum of its events. */
    ghost predicate Valid()
      reads this
    {
      State() == After(log) && Summed(State())
    }

    constructor ()
      ensures Valid() && log == []
      ensures State() == Meters([], map[])
    {
      events, aggregates, log := [], map[], [];
      new;
      AlwaysSummed([]);
    }

    /** `record_usage`. */
    method Record(x: Reading) returns (r: Result<bool>)
      requires Valid()
      modifies this
      ensures Valid() && log == old(log) + [x]
      ensures (State(), r) == Recording(old(State()), x)
    {
      Noted(log, x);
      log := log + [x];
      if x.quantity < 0.0 && !x.correction {
        return Err("negative_usage");
      }
      var key := if 200 < |x.key| then x.key[..200] else x.key;
      if Recorded(events, key) {
        return Ok(false);
      }
      events := events + [UsageEvent(x.meter, x.quantity, key, x.period)];
      var slot := (x.meter, x.period);
      if slot !in aggregates {
        aggregates := aggregates[slot := 0.0];
      }
      aggregates := aggregates[slot := aggregates[slot] + x.quantity];
      assert aggregates == Recording(old(State()), x).0.aggregates;
      r := Ok(true);
    }

    /** The loop of `reconcile_usage` over the totals by meter. */
    method StoreTotals(period: int) returns (seen: set<string>)
      modifies `aggregates
      ensures seen == SeenMeters(events, period)
      ensures forall slot :: slot in aggregates <==> slot in old(aggregates) || (slot.1 == period && slot.0 in seen)
      ensures forall slot :: slot in aggregates ==>
        aggregates[slot] == if slot.1 == period && slot.0 in seen then EventSum(events, slot) else old(aggregates)[slot]
    {
      var meters := SeenMeters(events, period);
      seen := {};
      while seen != meters
        invariant seen <= meters
        invariant forall slot :: slot in aggregates <==> slot in old(aggregates) || (slot.1 == period && slot.0 in seen)
        invariant forall slot :: slot in aggregates ==>
          aggregates[slot] == if slot.1 == period && slot.0 in seen then EventSum(events, slot) else old(aggregates)[slot]
        decreases |meters - seen|
      {
        var meter :| meter in meters && meter !in seen;
        assert meter in meters - seen && meter !in meters - (seen + {meter});
        seen := seen + {meter};
        aggregates := aggregates[(meter, period) := EventSum(events, (meter, period))];
      }
    }

    /** `reconcile_usage`: the totals, then zero for the rest of the period. On tables kept by `Record` it changes nothing. */
    method Reconcile(period: int)
      modifies `aggregates
      ensures State() == Reconciled(old(State()), period)
      ensures old(Valid()) ==> State() == old(State()) && Valid()
    {
      if Valid() { ReconciliationIsIdentity(log, period); }
      var seen := StoreTotals(period);
      aggregates := map slot | slot in aggregates :: if slot.1 == period && slot.0 !in seen then 0.0 else aggregates[slot];
      assert aggregates == Reconciled(old(State()), period).aggregates;
    }
  }
}
