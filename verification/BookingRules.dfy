/** What the booking transactions do, said of the stored rows alone: whom they accept, what they write, and what they leave. */
module BookingRules {
  import opened Totals
  import opened Text
  import opened Calendars
  import opened Catalogs
  import opened Occupancy
  import opened Availability
  import opened OpeningRules
  import opened SlotRules
  import opened Bookings
  import AvailabilityService

  // ----- holds -----

  /** The slot a request gets: on offer at the start asked for, by the staff member asked for or else the one of lowest id. */
  ghost predicate Chosen(q: Query, req: HoldRequest, s: Slot) {
    var day := s.localStart / DAY;
    && OnOffer(q, req.staff, day, day, s) && s.startsAt == req.startsAt
    && forall other :: OnOffer(q, req.staff, day, day, other) && other.startsAt == req.startsAt ==> s.staff <= other.staff
  }

  lemma ChosenIsMatch(q: Query, req: HoldRequest, s: Slot)
    requires q.cat.Valid()
    ensures Chosen(q, req, s) <==> AvailabilityService.Match(q, req.staff, req.startsAt) == Some(s)
  {
    var day := DayOf(q.branch.zone.Local(req.startsAt));
    forall t ensures IsSlot(q, req.staff, day, day, t) <==> OnOffer(q, req.staff, day, day, t) { SlotsAreOnOffer(q, req.staff, day, day, t); }
    AvailabilityService.MatchIsMatch(q, req.staff, req.startsAt);
    if Chosen(q, req, s) {
      assert s.localStart / DAY == day;
      assert AvailabilityService.IsMatch(q, req.staff, req.startsAt, Some(s));
      AvailabilityService.MatchUnique(q, req.staff, req.startsAt, Some(s));
    }
  }

  /** The hold written for a slot: its time and staff member, one link a pair, and the policy's seconds to live. */
  ghost predicate WrittenFor(cat: Catalog, req: HoldRequest, s: Slot, now: int, h: Hold) {
    && h.status == HoldStatus.Active && h.key == req.key
    && h.place.branch == req.branch && h.place.service == req.service
    && h.place.staff == s.staff && h.place.startsAt == s.startsAt && h.place.endsAt == s.endsAt
    && |h.place.links| == |s.allocations|
    && (forall k :: 0 <= k < |s.allocations| ==> s.allocations[k].0 in h.place.links && h.place.links[s.allocations[k].0] == s.allocations[k].1)
    && forall p :: PolicyInForce(cat, req.branch, req.service, p) ==> h.expiresAt - now == p.holdSeconds * 1_000_000
  }

  predicate NoResourceTwice(pairs: seq<(int, nat)>) { forall i, j :: 0 <= i < |pairs| && 0 <= j < |pairs| && pairs[i].0 == pairs[j].0 ==> i == j }

  lemma NewLink(pairs: seq<(int, nat)>)
    requires pairs != [] && NoResourceTwice(pairs)
    ensures pairs[|pairs| - 1].0 !in Links(pairs[..|pairs| - 1])
  {
    var n := |pairs| - 1;
    assert forall i :: 0 <= i < n ==> pairs[..n][i].0 != pairs[n].0;
  }

  lemma {:induction false} OneLinkAPair(pairs: seq<(int, nat)>, k: nat)
    requires NoResourceTwice(pairs)
    ensures |Links(pairs)| == |pairs|
    ensures k < |pairs| ==> pairs[k].0 in Links(pairs) && Links(pairs)[pairs[k].0] == pairs[k].1
  {
    if pairs != [] {
      var n := |pairs| - 1;
      OneLinkAPair(pairs[..n], k);
      NewLink(pairs);
      assert Links(pairs) == Links(pairs[..n])[pairs[n].0 := pairs[n].1];
      if k < n { assert pairs[k] == pairs[..n][k] && pairs[k].0 != pairs[n].0; }
    }
  }

  predicate KeyKnown(holds: seq<Hold>, key: string) { exists i :: 0 <= i < |holds| && holds[i].key == key }

  lemma KeyKnownIs(holds: seq<Hold>, key: string)
    ensures KeyKnown(holds, key) <==> HoldByKey(holds, key).Some?
  {
    forall i | 0 <= i < |holds| ensures holds[i] in holds { }
  }

  /** The request names a branch and a service that are offered, and its key can be stored. */
  predicate Admissible(cat: Catalog, req: HoldRequest) {
    && req.branch in cat.branches && cat.branches[req.branch].active && req.service in cat.services && cat.services[req.service].active
    && 1 <= cat.maxAvailabilityDays && |req.key| <= 200
  }

  /** There is a chosen slot, and it has a length and uses no resource twice. */
  ghost predicate CanBeHeld(cat: Catalog, cal: Calendar, t: Tables, req: HoldRequest, now: int)
    requires Admissible(cat, req)
  {
    exists s :: Chosen(QueryFor(cat, cal, t, req.branch, req.service, now), req, s) && s.startsAt < s.endsAt && NoResourceTwice(s.allocations)
  }

  lemma PlacedIff(cat: Catalog, t: Tables, req: HoldRequest, slot: Option<Slot>, now: int)
    ensures PlaceHold(cat, t, req, slot, now).1.Ok?
      <==> (|req.key| <= 200 && slot.Some? && slot.value.startsAt < slot.value.endsAt && NoResourceTwice(slot.value.allocations))
  {
  }

  /** A hold is granted exactly under a key that is not blank, and either known or for a slot that can be held. */
  lemma HoldGrantedIff(cat: Catalog, cal: Calendar, t: Tables, req: HoldRequest, now: int)
    requires cat.Valid()
    ensures CreateHold(cat, cal, t, req, now).1.Ok? <==>
      (!AllSpace(req.key) && (KeyKnown(t.holds, req.key) || (Admissible(cat, req) && CanBeHeld(cat, cal, t, req, now))))
  {
    BlankIff(req.key);
    KeyKnownIs(t.holds, req.key);
    if Admissible(cat, req) {
      var q := QueryFor(cat, cal, t, req.branch, req.service, now);
      var found := AvailabilityService.Match(q, req.staff, req.startsAt);
      PlacedIff(cat, t, req, found, now);
      forall s ensures Chosen(q, req, s) <==> found == Some(s) { ChosenIsMatch(q, req, s); }
    }
  }

  /** Under a known key the answer is the row of that key, and nothing changes. */
  lemma KnownKeyIsAnswered(cat: Catalog, cal: Calendar, t: Tables, req: HoldRequest, now: int)
    requires !AllSpace(req.key) && KeyKnown(t.holds, req.key)
    ensures var (u, r) := CreateHold(cat, cal, t, req, now);
      u == t && r.Ok? && r.value < |t.holds| && t.holds[r.value].key == req.key
  {
    BlankIff(req.key);
    KeyKnownIs(t.holds, req.key);
  }

  lemma HoldForIsWritten(cat: Catalog, req: HoldRequest, s: Slot, now: int)
    requires NoResourceTwice(s.allocations)
    ensures WrittenFor(cat, req, s, now, HoldFor(cat, req, s, now))
  {
    OneLinkAPair(s.allocations, 0);
    forall k | 0 <= k < |s.allocations|
      ensures s.allocations[k].0 in Links(s.allocations) && Links(s.allocations)[s.allocations[k].0] == s.allocations[k].1
    {
      OneLinkAPair(s.allocations, k);
    }
    forall p ensures PolicyInForce(cat, req.branch, req.service, p) <==> p == ResolvePolicy(cat, req.branch, req.service) {
      PolicyInForceIsResolved(cat, req.branch, req.service, p);
    }
  }

  /** The hold is the row written for the slot the request gets. */
  ghost predicate GrantedFor(cat: Catalog, cal: Calendar, t: Tables, req: HoldRequest, now: int, h: Hold) {
    Admissible(cat, req) &&
    exists s :: Chosen(QueryFor(cat, cal, t, req.branch, req.service, now), req, s) && WrittenFor(cat, req, s, now, h)
  }

  lemma PlacedRow(cat: Catalog, t: Tables, req: HoldRequest, slot: Option<Slot>, now: int)
    requires PlaceHold(cat, t, req, slot, now).1.Ok?
    ensures slot.Some? && |req.key| <= 200 && NoResourceTwice(slot.value.allocations)
    ensures PlaceHold(cat, t, req, slot, now) == (t.(holds := t.holds + [HoldFor(cat, req, slot.value, now)]), Ok(|t.holds|))
  {
  }

  /** Under a new key a granted hold is one more row, written for the chosen slot. */
  lemma GrantedHold(cat: Catalog, cal: Calendar, t: Tables, req: HoldRequest, now: int) returns (h: Hold)
    requires cat.Valid() && CreateHold(cat, cal, t, req, now).1.Ok? && !KeyKnown(t.holds, req.key)
    ensures CreateHold(cat, cal, t, req, now) == (t.(holds := t.holds + [h]), Ok(|t.holds|))
    ensures GrantedFor(cat, cal, t, req, now, h)
  {
    KeyKnownIs(t.holds, req.key);
    var q := QueryFor(cat, cal, t, req.branch, req.service, now);
    var found := AvailabilityService.Match(q, req.staff, req.startsAt);
    PlacedRow(cat, t, req, found, now);
    var s := found.value;
    h := HoldFor(cat, req, s, now);
    ChosenIsMatch(q, req, s);
    HoldForIsWritten(cat, req, s, now);
  }

  /** Some resource of the branch, of the kind asked for, is linked in exactly the quantity asked for. */
  ghost predicate LinkedFor(cat: Catalog, place: Reservation, req: Requirement) {
    exists r :: r in cat.resources && r.branch == place.branch && r.active && r.id in place.links && place.links[r.id] == req.quantity
      && (req.specific == Some(r.id) || (req.specific == None && r.resourceType == req.resourceType))
  }

  lemma ChosenLinksAll(cat: Catalog, q: Query, req: HoldRequest, s: Slot, h: Hold, now: int, k: nat)
    requires q.cat == cat && q.branch.id == req.branch && Chosen(q, req, s) && WrittenFor(cat, req, s, now, h)
    ensures |h.place.links| == |Insisted(q.service.requirements)|
    ensures k < |Insisted(q.service.requirements)| ==> LinkedFor(cat, h.place, Insisted(q.service.requirements)[k])
  {
    var p, minutes: nat :| p in q.cat.staff && OffersFor(q, p, minutes, s);
    var lo, hi, insisted := BusyFrom(q, s), BusyTo(q, s), Insisted(q.service.requirements);
    if k < |insisted| {
      assert FirstToServe(q, insisted[k], s.allocations[k].0, lo, hi);
      var j: nat :| FirstIn(q, insisted[k], q.cat.resources, j, lo, hi) && q.cat.resources[j].id == s.allocations[k].0;
      assert q.cat.resources[j] in cat.resources;
    }
  }

  /** Every hold placed links such a resource for every requirement its service insists on, and links nothing else. */
  lemma PlacedHoldLinksAll(cat: Catalog, cal: Calendar, t: Tables, req: HoldRequest, now: int)
    requires cat.Valid() && CreateHold(cat, cal, t, req, now).1.Ok? && !KeyKnown(t.holds, req.key)
    ensures |CreateHold(cat, cal, t, req, now).0.holds| == |t.holds| + 1 && req.service in cat.services
    ensures var place, insisted := CreateHold(cat, cal, t, req, now).0.holds[|t.holds|].place, Insisted(cat.services[req.service].requirements);
      |place.links| == |insisted| && forall k :: 0 <= k < |insisted| ==> LinkedFor(cat, place, insisted[k])
  {
    var h := GrantedHold(cat, cal, t, req, now);
    var q := QueryFor(cat, cal, t, req.branch, req.service, now);
    var s :| Chosen(q, req, s) && WrittenFor(cat, req, s, now, h);
    ChosenLinksAll(cat, q, req, s, h, now, 0);
    forall k | 0 <= k < |Insisted(q.service.requirements)| ensures LinkedFor(cat, h.place, Insisted(q.service.requirements)[k]) {
      ChosenLinksAll(cat, q, req, s, h, now, k);
    }
  }
}
