/** Opening hours, breaks and exceptions of branches, staff and resources, and the questions asked of them. */
module Calendars {
  import opened Totals
  import opened Zones
  import Ordering

  const MINUTE := 60_000_000
  const DAY := 86_400_000_000

  /** A time of day; the last one is Python's `time.max`. */
  type Time = t: int | 0 <= t < DAY

  function DayOf(w: int): int { w / DAY }

  function TimeOf(w: int): Time { w % DAY }

  /** Monday is 0; day 0 is 1 January 1970, a Thursday. */
  function Weekday(day: int): int { (day + 3) % 7 }

  datatype Kind = BranchOwner | StaffOwner | ResourceOwner

  datatype Owner = Owner(kind: Kind, id: int)

  datatype Period = Period(start: Time, end: Time)

  datatype Rule = Rule(owner: Owner, weekday: int, period: Period, from: Option<int>, to: Option<int>, active: bool)

  datatype Break = Break(owner: Owner, weekday: Option<int>, date: Option<int>, period: Period)

  datatype ExceptionType = Unavailable | AvailableOverride | Holiday | TimeOff

  datatype Exception = Exception(owner: Owner, startsAt: int, endsAt: int, kind: ExceptionType)

  datatype Calendar = Calendar(rules: seq<Rule>, breaks: seq<Break>, exceptions: seq<Exception>)

  predicate RuleApplies(rule: Rule, owner: Owner, day: int) {
    && rule.owner == owner && rule.weekday == Weekday(day) && rule.active
    && (rule.from.None? || rule.from.value <= day)
    && (rule.to.None? || day <= rule.to.value)
  }

  function RulePeriods(rules: seq<Rule>, owner: Owner, day: int): seq<Period> {
    if rules == [] then []
    else (if RuleApplies(rules[0], owner, day) then [rules[0].period] else []) + RulePeriods(rules[1..], owner, day)
  }

  /** `_weekly_periods`; the fallback is a branch's own working hours by weekday. */
  function WeeklyPeriods(cal: Calendar, owner: Owner, day: int, fallback: map<int, seq<Period>>): seq<Period> {
    var periods := RulePeriods(cal.rules, owner, day);
    if periods != [] then periods
    else if Weekday(day) in fallback then fallback[Weekday(day)] else []
  }

  /** `_contains`: one single period holds the whole interval. */
  predicate Contains(periods: seq<Period>, start: Time, end: Time) {
    exists p :: p in periods && p.start <= start && end <= p.end
  }

  /** `_blocked_by_break`. */
  predicate BlockedByBreak(cal: Calendar, owner: Owner, day: int, start: Time, end: Time) {
    exists b :: b in cal.breaks && b.owner == owner
      && (b.date == Some(day) || (b.date.None? && b.weekday == Some(Weekday(day))))
      && b.period.start < end && start < b.period.end
  }

  /** `_blocked_by_exception`. */
  predicate BlockedByException(cal: Calendar, owner: Owner, startsAt: int, endsAt: int) {
    exists e :: e in cal.exceptions && e.owner == owner && !e.kind.AvailableOverride?
      && e.startsAt < endsAt && startsAt < e.endsAt
  }

  /** `_available_override_covers`. */
  predicate OverrideCovers(cal: Calendar, owner: Owner, startsAt: int, endsAt: int) {
    exists e :: e in cal.exceptions && e.owner == owner && e.kind.AvailableOverride?
      && e.startsAt <= startsAt && endsAt <= e.endsAt
  }

  /** `_has_weekly_rules`. */
  predicate HasWeeklyRules(cal: Calendar, owner: Owner) {
    exists r :: r in cal.rules && r.owner == owner && r.active
  }

  /** `_owner_schedule_allows`, for the callers' `inherit_when_empty=True`. */
  predicate ScheduleAllows(cal: Calendar, owner: Owner, startsAt: int, endsAt: int, zone: Zone) {
    var start, end := zone.Local(startsAt), zone.Local(endsAt);
    var periods := WeeklyPeriods(cal, owner, DayOf(start), map[]);
    || OverrideCovers(cal, owner, startsAt, endsAt)
    || (DayOf(start) == DayOf(end) &&
        if periods == [] then !HasWeeklyRules(cal, owner) else Contains(periods, TimeOf(start), TimeOf(end)))
  }

  /** The part of an override that falls on a local day, as `_branch_candidate_periods` cuts it. */
  function OverridePiece(e: Exception, owner: Owner, zone: Zone, day: int): seq<Period> {
    var dayStart, dayEnd := day * DAY, (day + 1) * DAY;
    var start := if zone.Local(e.startsAt) < dayStart then dayStart else zone.Local(e.startsAt);
    var end := if dayEnd < zone.Local(e.endsAt) then dayEnd else zone.Local(e.endsAt);
    if e.owner == owner && e.kind.AvailableOverride?
       && e.startsAt < zone.ToUtc(dayEnd, false) && zone.ToUtc(dayStart, false) < e.endsAt
       && DayOf(start) == day && start < end
    then [Period(TimeOf(start), if end == dayEnd then DAY - 1 else TimeOf(end))] else []
  }

  function OverridePeriods(exceptions: seq<Exception>, owner: Owner, zone: Zone, day: int): seq<Period> {
    if exceptions == [] then []
    else OverridePiece(exceptions[0], owner, zone, day) + OverridePeriods(exceptions[1..], owner, zone, day)
  }

  function PeriodKey(): Period -> Ordering.Key { (p: Period) => Ordering.Key(p.start, p.end) }

  /** `_branch_candidate_periods`: weekly periods and overrides, without repetition, in order. */
  function BranchPeriods(cal: Calendar, branch: int, hours: map<int, seq<Period>>, zone: Zone, day: int): seq<Period> {
    var owner := Owner(BranchOwner, branch);
    Ordering.UniqueSorted(PeriodKey(), WeeklyPeriods(cal, owner, day, hours) + OverridePeriods(cal.exceptions, owner, zone, day))
  }
}
