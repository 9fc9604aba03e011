/** When branches, staff and resources are open, and which policy is in force, said of the stored rows alone. */
module OpeningRules {
  import opened Totals
  import opened Zones
  import opened Calendars
  import opened Catalogs
  import opened Occupancy
  import opened Availability
  import Ordering

  // ----- opening periods -----

  /** Day 4 was a Monday, the weekday 0. */
  predicate OnWeekday(weekday: int, day: int) { 0 <= weekday < 7 && (day - 4 - weekday) % 7 == 0 }

  lemma WeekdayIs(weekday: int, day: int)
    ensures OnWeekday(weekday, day) <==> weekday == Weekday(day)
  {
  }

  /** The rule is the owner's, switched on, for this day of the week, and in force on the day. */
  predicate InForce(r: Rule, owner: Owner, day: int) {
    && r.owner == owner && r.active
    && OnWeekday(r.weekday, day)
    && !(r.from.Some? && day < r.from.value) && !(r.to.Some? && r.to.value < day)
  }

  ghost predicate SomeRuleInForce(cal: Calendar, owner: Owner, day: int) {
    exists r :: r in cal.rules && InForce(r, owner, day)
  }

  /** The owner is open for this period of the day: by a rule in force, or, when none is, by its usual hours. */
  ghost predicate OpenPeriod(cal: Calendar, owner: Owner, day: int, hours: map<int, seq<Period>>, per: Period) {
    || (exists r :: r in cal.rules && InForce(r, owner, day) && r.period == per)
    || (!SomeRuleInForce(cal, owner, day) && exists w :: w in hours && OnWeekday(w, day) && per in hours[w])
  }

  /** The part of the override that falls on the local day; one that lasts to the end of the day ends at its last instant. */
  predicate PieceOfDay(e: Exception, zone: Zone, day: int, per: Period) {
    var midnight, next := day * DAY, day * DAY + DAY;
    var opens := if zone.Local(e.startsAt) <= midnight then midnight else zone.Local(e.startsAt);
    var closes := if next <= zone.Local(e.endsAt) then next else zone.Local(e.endsAt);
    && e.startsAt < zone.ToUtc(next, false) && zone.ToUtc(midnight, false) < e.endsAt
    && opens < closes
    && per.start == opens - midnight && per.end == if closes == next then DAY - 1 else closes - midnight
  }

  /** The branch takes bookings in this period: one it is open for, or a piece of an override that opens it. */
  ghost predicate BranchPeriod(q: Query, day: int, per: Period) {
    var branch := Owner(BranchOwner, q.branch.id);
    || OpenPeriod(q.cal, branch, day, q.branch.hours, per)
    || exists e :: e in q.cal.exceptions && e.owner == branch && e.kind == AvailableOverride && PieceOfDay(e, q.branch.zone, day, per)
  }

  lemma InForceIsApplies(r: Rule, owner: Owner, day: int)
    ensures InForce(r, owner, day) <==> RuleApplies(r, owner, day)
  {
    WeekdayIs(r.weekday, day);
  }

  lemma {:induction false} RulePeriodsAreThoseInForce(rules: seq<Rule>, owner: Owner, day: int, per: Period)
    ensures per in RulePeriods(rules, owner, day) <==> exists r :: r in rules && InForce(r, owner, day) && r.period == per
  {
    if rules != [] {
      InForceIsApplies(rules[0], owner, day);
      RulePeriodsAreThoseInForce(rules[1..], owner, day, per);
      assert forall r :: r in rules <==> r == rules[0] || r in rules[1..];
    }
  }

  lemma {:induction false} NoRulePeriodsIff(rules: seq<Rule>, owner: Owner, day: int)
    ensures RulePeriods(rules, owner, day) == [] <==> forall r :: r in rules ==> !InForce(r, owner, day)
  {
    if rules != [] {
      InForceIsApplies(rules[0], owner, day);
      NoRulePeriodsIff(rules[1..], owner, day);
      assert forall r :: r in rules <==> r == rules[0] || r in rules[1..];
    }
  }

  /** The weekly periods of an owner are exactly the periods it is open for by its rows. */
  lemma WeeklyPeriodsAreOpen(cal: Calendar, owner: Owner, day: int, hours: map<int, seq<Period>>, per: Period)
    ensures per in WeeklyPeriods(cal, owner, day, hours) <==> OpenPeriod(cal, owner, day, hours, per)
  {
    RulePeriodsAreThoseInForce(cal.rules, owner, day, per);
    NoRulePeriodsIff(cal.rules, owner, day);
    forall w ensures OnWeekday(w, day) <==> w == Weekday(day) { WeekdayIs(w, day); }
  }

  lemma PieceIs(e: Exception, owner: Owner, zone: Zone, day: int, per: Period)
    ensures per in OverridePiece(e, owner, zone, day)
      <==> (e.owner == owner && e.kind == AvailableOverride && PieceOfDay(e, zone, day, per))
  {
    var midnight, next := day * DAY, day * DAY + DAY;
    assert next == (day + 1) * DAY;
    Clipped(zone.Local(e.startsAt), zone.Local(e.endsAt), day);
  }

  lemma Clipped(from: int, to: int, day: int)
    ensures var midnight, next := day * DAY, day * DAY + DAY;
      var opens, closes := if from < midnight then midnight else from, if next < to then next else to;
      opens < closes ==> DayOf(opens) == day && TimeOf(opens) == opens - midnight && (closes < next ==> TimeOf(closes) == closes - midnight)
  {
    var midnight, next := day * DAY, day * DAY + DAY;
    var opens, closes := if from < midnight then midnight else from, if next < to then next else to;
    if opens < closes {
      SameDay(opens, day);
      if closes < next { SameDay(closes, day); }
    }
  }

  lemma SameDay(w: int, day: int)
    requires day * DAY <= w < day * DAY + DAY
    ensures DayOf(w) == day && TimeOf(w) == w - day * DAY
  {
  }

  lemma {:induction false} OverridePeriodsArePieces(exceptions: seq<Exception>, owner: Owner, zone: Zone, day: int, per: Period)
    ensures per in OverridePeriods(exceptions, owner, zone, day)
      <==> exists e :: e in exceptions && e.owner == owner && e.kind == AvailableOverride && PieceOfDay(e, zone, day, per)
  {
    if exceptions != [] {
      PieceIs(exceptions[0], owner, zone, day, per);
      OverridePeriodsArePieces(exceptions[1..], owner, zone, day, per);
      assert forall e :: e in exceptions <==> e == exceptions[0] || e in exceptions[1..];
    }
  }

  lemma BranchPeriodsAre(q: Query, day: int, per: Period)
    ensures per in BranchPeriods(q.cal, q.branch.id, q.branch.hours, q.branch.zone, day) <==> BranchPeriod(q, day, per)
  {
    var owner := Owner(BranchOwner, q.branch.id);
    var all := WeeklyPeriods(q.cal, owner, day, q.branch.hours) + OverridePeriods(q.cal.exceptions, owner, q.branch.zone, day);
    WeeklyPeriodsAreOpen(q.cal, owner, day, q.branch.hours, per);
    OverridePeriodsArePieces(q.cal.exceptions, owner, q.branch.zone, day, per);
    Ordering.UniqueSortedSpec(PeriodKey(), all);
  }

  // ----- being open and not blocked -----

  /** An override of the owner's spans the interval. */
  ghost predicate SpannedByOverride(cal: Calendar, owner: Owner, lo: int, hi: int) {
    exists e :: e in cal.exceptions && e.owner == owner && e.kind == AvailableOverride && e.startsAt <= lo && hi <= e.endsAt
  }

  /** Staff and resources: open by an override, on one day by one rule in force, or always when no rule was ever set. */
  ghost predicate OpenFor(cal: Calendar, owner: Owner, zone: Zone, lo: int, hi: int) {
    var from, to := zone.Local(lo), zone.Local(hi);
    || SpannedByOverride(cal, owner, lo, hi)
    || (from / DAY == to / DAY &&
        (|| (exists r :: r in cal.rules && InForce(r, owner, from / DAY) && r.period.start <= from % DAY && to % DAY <= r.period.end)
         || forall r :: r in cal.rules && r.owner == owner ==> !r.active))
  }

  /** Every break of the owner's on the day is over before the times given or starts after them. */
  ghost predicate NoBreak(cal: Calendar, owner: Owner, day: int, from: int, to: int) {
    forall b :: b in cal.breaks && b.owner == owner
      && (if b.date.Some? then b.date.value == day else b.weekday.Some? && OnWeekday(b.weekday.value, day))
      ==> b.period.end <= from || to <= b.period.start
  }

  /** So is every closing exception: a holiday, time off, or unavailability. */
  ghost predicate NoClosure(cal: Calendar, owner: Owner, lo: int, hi: int) {
    forall e :: e in cal.exceptions && e.owner == owner && (e.kind == Unavailable || e.kind == Holiday || e.kind == TimeOff)
      ==> e.endsAt <= lo || hi <= e.startsAt
  }

  ghost predicate Unblocked(cal: Calendar, owner: Owner, zone: Zone, lo: int, hi: int) {
    NoBreak(cal, owner, zone.Local(lo) / DAY, zone.Local(lo) % DAY, zone.Local(hi) % DAY) && NoClosure(cal, owner, lo, hi)
  }

  lemma OpenForIsAllowed(cal: Calendar, owner: Owner, zone: Zone, lo: int, hi: int)
    ensures OpenFor(cal, owner, zone, lo, hi) <==> ScheduleAllows(cal, owner, lo, hi, zone)
  {
    var day := zone.Local(lo) / DAY;
    NoRulePeriodsIff(cal.rules, owner, day);
    forall per { RulePeriodsAreThoseInForce(cal.rules, owner, day, per); }
    forall r | r in cal.rules && InForce(r, owner, day) ensures r.period in RulePeriods(cal.rules, owner, day) {
      RulePeriodsAreThoseInForce(cal.rules, owner, day, r.period);
    }
  }

  lemma UnblockedIs(cal: Calendar, owner: Owner, zone: Zone, lo: int, hi: int)
    ensures Unblocked(cal, owner, zone, lo, hi) <==> !Blocked(cal, owner, zone, DayOf(zone.Local(lo)), lo, hi)
  {
    var day := DayOf(zone.Local(lo));
    forall w ensures OnWeekday(w, day) <==> w == Weekday(day) { WeekdayIs(w, day); }
  }

  // ----- policies -----

  /** A policy applies to its own scope: of one branch or of all, of one service or of all. */
  predicate Covers(scope: (Option<int>, Option<int>), branch: int, service: int) {
    (scope.0.Some? ==> scope.0.value == branch) && (scope.1.Some? ==> scope.1.value == service)
  }

  /** A branch counts for more than a service. */
  function Rank(scope: (Option<int>, Option<int>)): nat {
    (if scope.0.Some? then 2 else 0) + if scope.1.Some? then 1 else 0
  }

  /** The policy of the highest-ranking scope that applies; the default when none does. */
  ghost predicate PolicyInForce(cat: Catalog, branch: int, service: int, p: Policy) {
    if exists scope :: scope in cat.policies && Covers(scope, branch, service) then
      exists scope :: scope in cat.policies && Covers(scope, branch, service) && cat.policies[scope] == p
        && forall other :: other in cat.policies && Covers(other, branch, service) ==> Rank(other) <= Rank(scope)
    else p == cat.defaultPolicy
  }

  lemma ScopesThatCover(scope: (Option<int>, Option<int>), branch: int, service: int)
    requires Covers(scope, branch, service)
    ensures scope == (if Rank(scope) == 3 then (Some(branch), Some(service)) else if Rank(scope) == 2 then (Some(branch), None)
                      else if Rank(scope) == 1 then (None, Some(service)) else (None, None))
  {
  }

  /** `resolve_policy` finds the policy in force, and there is only one. */
  lemma PolicyInForceIsResolved(cat: Catalog, branch: int, service: int, p: Policy)
    ensures PolicyInForce(cat, branch, service, p) <==> p == ResolvePolicy(cat, branch, service)
  {
    forall scope | scope in cat.policies && Covers(scope, branch, service)
      ensures scope == (if Rank(scope) == 3 then (Some(branch), Some(service)) else if Rank(scope) == 2 then (Some(branch), None)
                        else if Rank(scope) == 1 then (None, Some(service)) else (None, None))
    {
      ScopesThatCover(scope, branch, service);
    }
    var best := if (Some(branch), Some(service)) in cat.policies then (Some(branch), Some(service))
                else if (Some(branch), None) in cat.policies then (Some(branch), None)
                else if (None, Some(service)) in cat.policies then (None, Some(service))
                else (None, None);
    assert Covers(best, branch, service);
  }
}
