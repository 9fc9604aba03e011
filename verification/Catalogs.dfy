/** What an organization offers: branches, services, staff, resources and booking policies. */
module Catalogs {
  import opened Totals
  import opened Zones
  import opened Calendars

  datatype Branch = Branch(id: int, zone: Zone, hours: map<int, seq<Period>>, active: bool)

  /** A service needs some quantity of one given resource, or of any resource of a type. */
  datatype Requirement = Requirement(specific: Option<int>, resourceType: string, quantity: nat, required: bool)

  datatype BookingMode = Instant | RequireConfirmation | ManualOnly

  /** Durations, buffers and notices are in minutes. */
  datatype Service = Service(
    active: bool, duration: nat, bufferBefore: nat, bufferAfter: nat, minimumNotice: nat, maximumAdvanceDays: nat,
    cancellationNotice: nat, mode: BookingMode, requirements: seq<Requirement>)

  datatype StaffService = StaffService(active: bool, durationOverride: Option<nat>)

  datatype Staff = Staff(
    id: int, maximumConcurrent: nat, zoneOverride: Option<Zone>, active: bool, acceptsOnline: bool, memberActive: bool,
    branches: set<int>, services: map<int, StaffService>)

  datatype Resource = Resource(id: int, branch: int, resourceType: string, capacity: nat, active: bool)

  type Positive = n: int | 0 < n witness 30

  datatype Policy = Policy(
    slotInterval: Positive, holdSeconds: int, defaultCancellationNotice: nat,
    allowReschedule: bool, allowCancel: bool, requireConfirmation: bool)

  /** Staff and resources are listed in the order the queries return them. */
  datatype Catalog = Catalog(
    branches: map<int, Branch>, services: map<int, Service>, staff: seq<Staff>, resources: seq<Resource>,
    policies: map<(Option<int>, Option<int>), Policy>, defaultPolicy: Policy, maxAvailabilityDays: int)
  {
    /** Ids are primary keys. */
    ghost predicate Valid() {
      && (forall b :: b in branches ==> branches[b].id == b)
      && (forall p, q :: p in staff && q in staff && p.id == q.id ==> p == q)
      && (forall r, q :: r in resources && q in resources && r.id == q.id ==> r == q)
    }
  }

  /** `resolve_policy`: branch and service, then branch, then service, then organization, then the settings. */
  function ResolvePolicy(cat: Catalog, branch: int, service: int): Policy {
    var p := cat.policies;
    if (Some(branch), Some(service)) in p then p[(Some(branch), Some(service))]
    else if (Some(branch), None) in p then p[(Some(branch), None)]
    else if (None, Some(service)) in p then p[(None, Some(service))]
    else if (None, None) in p then p[(None, None)]
    else cat.defaultPolicy
  }
}
