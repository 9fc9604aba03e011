/** The daily task as transactions of the log: what holds after every log holds wherever the task stops. */
module BillingTicks {
  import opened Totals
  import opened Periods
  import opened Ledger
  import opened Invoices

  predicate RenewsActive(terms: Terms, sub: Subscription, now: Stamp) {
    sub.status.InForce? && NotAfter(sub.periodEnd, now) && terms.fromWallet
  }

  function TrialLog(terms: Terms, sub: Subscription, id: string, total: int, now: Stamp): seq<Booking> {
    if TrialOver(sub, now) then [Booking(if terms.fromWallet then RenewEvent(id, total) else FailureEvent, now)] else []
  }

  function RenewalLog(terms: Terms, sub: Subscription, id: string, total: int, now: Stamp): seq<Booking> {
    if RenewsActive(terms, sub, now) then [Booking(RenewEvent(id, total), now)] else []
  }

  function GraceLog(sub: Subscription, now: Stamp): seq<Booking> {
    if GraceOver(sub, now) then [Booking(GraceExpiryEvent, now)] else []
  }

  /** The transactions of the daily task's second and third loop. */
  function RestLog(terms: Terms, b: Books, id: string, total: int, counts: Counts, now: Stamp): seq<Booking> {
    var (c, r) := TickRenewal(terms, b, id, total, counts, now);
    RenewalLog(terms, b.sub, id, total, now) + if r.Err? then [] else GraceLog(c.sub, now)
  }

  /** The transactions the daily task makes. */
  function TickLog(terms: Terms, b: Books, first: (string, int), second: (string, int), now: Stamp): seq<Booking> {
    var (c, r) := TickTrial(terms, b, first.0, first.1, Counts(0, 0, 0, 0), now);
    TrialLog(terms, b.sub, first.0, first.1, now) + if r.Err? then [] else RestLog(terms, c, second.0, second.1, r.value, now)
  }

  lemma OneMore(terms: Terms, start: Subscription, log: seq<Booking>, x: Booking)
    ensures AfterLog(terms, start, log + [x]) == Step(terms, AfterLog(terms, start, log), x)
  {
    assert (log + [x])[..|log|] == log;
  }

  lemma TrialFollowsLog(terms: Terms, start: Subscription, log: seq<Booking>, b: Books, id: string, total: int, counts: Counts, now: Stamp)
    requires b == AfterLog(terms, start, log)
    ensures AfterLog(terms, start, log + TrialLog(terms, b.sub, id, total, now)) == TickTrial(terms, b, id, total, counts, now).0
  {
    if TrialOver(b.sub, now) {
      OneMore(terms, start, log, Booking(if terms.fromWallet then RenewEvent(id, total) else FailureEvent, now));
    } else {
      assert log + [] == log;
    }
  }

  lemma RenewalFollowsLog(terms: Terms, start: Subscription, log: seq<Booking>, b: Books, id: string, total: int, counts: Counts, now: Stamp)
    requires b == AfterLog(terms, start, log)
    ensures AfterLog(terms, start, log + RenewalLog(terms, b.sub, id, total, now)) == TickRenewal(terms, b, id, total, counts, now).0
  {
    if RenewsActive(terms, b.sub, now) {
      OneMore(terms, start, log, Booking(RenewEvent(id, total), now));
    } else {
      assert log + [] == log;
    }
  }

  lemma GraceFollowsLog(terms: Terms, start: Subscription, log: seq<Booking>, b: Books, now: Stamp)
    requires b == AfterLog(terms, start, log)
    ensures AfterLog(terms, start, log + GraceLog(b.sub, now)) == ExpireGrace(b, now)
  {
    if GraceOver(b.sub, now) { OneMore(terms, start, log, Booking(GraceExpiryEvent, now)); } else { assert log + [] == log; }
  }

  lemma RestFollowsLog(terms: Terms, start: Subscription, log: seq<Booking>, b: Books, id: string, total: int, counts: Counts, now: Stamp)
    requires b == AfterLog(terms, start, log)
    ensures var (c, r) := TickRenewal(terms, b, id, total, counts, now);
      AfterLog(terms, start, log + RestLog(terms, b, id, total, counts, now)) == if r.Err? then c else ExpireGrace(c, now)
  {
    var (c, r) := TickRenewal(terms, b, id, total, counts, now);
    var renewal := RenewalLog(terms, b.sub, id, total, now);
    RenewalFollowsLog(terms, start, log, b, id, total, counts, now);
    if r.Err? {
      assert log + (renewal + []) == log + renewal;
    } else {
      GraceFollowsLog(terms, start, log + renewal, c, now);
      assert log + renewal + GraceLog(c.sub, now) == log + (renewal + GraceLog(c.sub, now));
    }
  }

  lemma TickInTwo(terms: Terms, b: Books, first: (string, int), second: (string, int), now: Stamp)
    ensures var (c, r) := TickTrial(terms, b, first.0, first.1, Counts(0, 0, 0, 0), now);
      r.Err? ==> Tick(terms, b, first, second, now).0 == c
    ensures var (c, r) := TickTrial(terms, b, first.0, first.1, Counts(0, 0, 0, 0), now);
      r.Ok? ==>
        var (d, s) := TickRenewal(terms, c, second.0, second.1, r.value, now);
        Tick(terms, b, first, second, now).0 == if s.Err? then d else ExpireGrace(d, now)
  {
  }

  lemma FollowBoth(terms: Terms, start: Subscription, log: seq<Booking>, trial: seq<Booking>, rest: seq<Booking>, b: Books)
    requires AfterLog(terms, start, log + trial + rest) == b
    ensures AfterLog(terms, start, log + (trial + rest)) == b
  {
    assert log + trial + rest == log + (trial + rest);
  }

  /** The daily task is those transactions, one after another. */
  lemma TickFollowsLog(terms: Terms, start: Subscription, log: seq<Booking>, b: Books, first: (string, int), second: (string, int), now: Stamp)
    requires b == AfterLog(terms, start, log)
    ensures AfterLog(terms, start, log + TickLog(terms, b, first, second, now)) == Tick(terms, b, first, second, now).0
  {
    var (c, r) := TickTrial(terms, b, first.0, first.1, Counts(0, 0, 0, 0), now);
    var trial := TrialLog(terms, b.sub, first.0, first.1, now);
    TickInTwo(terms, b, first, second, now);
    TrialFollowsLog(terms, start, log, b, first.0, first.1, Counts(0, 0, 0, 0), now);
    if r.Err? {
      assert log + trial + [] == log + trial;
      FollowBoth(terms, start, log, trial, [], c);
    } else {
      var rest := RestLog(terms, c, second.0, second.1, r.value, now);
      RestFollowsLog(terms, start, log + trial, c, second.0, second.1, r.value, now);
      FollowBoth(terms, start, log, trial, rest, AfterLog(terms, start, log + trial + rest));
    }
  }

  // ----- what the tasks do, by the rows -----

  predicate TrialHasEnded(sub: Subscription, now: Stamp) {
    sub.status == Trialing && sub.trialEndsAt.Some? && !Before(now, sub.trialEndsAt.value)
  }

  predicate GraceHasEnded(sub: Subscription, now: Stamp) {
    sub.status == Grace && sub.graceEndsAt.Some? && !Before(now, sub.graceEndsAt.value)
  }

  predicate PeriodHasEnded(terms: Terms, sub: Subscription, now: Stamp) {
    sub.status == InForce && !Before(now, sub.periodEnd) && terms.fromWallet
  }

  /** With nothing over the daily task does nothing; a grace period that is over is what it ends by a pause. */
  lemma TickWithoutRenewal(terms: Terms, b: Books, first: (string, int), second: (string, int), now: Stamp)
    requires !TrialHasEnded(b.sub, now) && !PeriodHasEnded(terms, b.sub, now)
    ensures Tick(terms, b, first, second, now) ==
      if GraceHasEnded(b.sub, now) then (b.(sub := b.sub.(status := Paused)), Ok(Counts(0, 0, 0, 1))) else (b, Ok(Counts(0, 0, 0, 0)))
  {
  }

  lemma PayStaysInForce(terms: Terms, b: Books, i: nat, now: Stamp)
    requires b.sub.status == InForce && Pay(terms, b, i, now).1 == Ok(true)
    ensures Pay(terms, b, i, now).0.sub.status == InForce
  {
  }

  lemma RenewStaysInForce(terms: Terms, b: Books, id: string, total: int, now: Stamp)
    requires b.sub.status == InForce && Renew(terms, b, id, total, now).1 == Ok(true)
    ensures Renew(terms, b, id, total, now).0.sub.status == InForce
  {
    var (c, i) := CurrentInvoice(b, id, total, now);
    PayStaysInForce(terms, c, i.value, now);
  }

  /** A period that is over is renewed once, and counted as renewed or as due. */
  lemma TickRenews(terms: Terms, b: Books, first: (string, int), second: (string, int), now: Stamp)
    requires PeriodHasEnded(terms, b.sub, now)
    ensures var (c, r) := Tick(terms, b, first, second, now);
      match Renew(terms, b, second.0, second.1, now).1
      case Err(code) => r == Err(code) && c == Renew(terms, b, second.0, second.1, now).0
      case Ok(paid) =>
        if paid then r == Ok(Counts(0, 1, 0, 0)) && c == Renew(terms, b, second.0, second.1, now).0
        else r.Ok? && (r.value.trialExpired, r.value.renewed, r.value.walletDue) == (0, 0, 1)
  {
    if Renew(terms, b, second.0, second.1, now).1 == Ok(true) { RenewStaysInForce(terms, b, second.0, second.1, now); }
  }

  /** A trial that is over is counted; it is renewed from the wallet, and a renewal that raises ends the daily task. */
  lemma TickEndsTrial(terms: Terms, b: Books, first: (string, int), second: (string, int), now: Stamp)
    requires TrialHasEnded(b.sub, now)
    ensures var (c, r) := Tick(terms, b, first, second, now);
      && (r.Ok? ==> r.value.trialExpired == 1)
      && (terms.fromWallet ==>
           match Renew(terms, b, first.0, first.1, now).1
           case Err(code) => r == Err(code) && c == Renew(terms, b, first.0, first.1, now).0
           case Ok(paid) => r.Ok? ==> if paid then 1 <= r.value.renewed else r.value.renewed == 0 && r.value.walletDue == 1)
      && (!terms.fromWallet ==>
           && r.Ok? && r.value.renewed == 0 && r.value.walletDue == 0
           && c.sub.status in {Grace, Paused} && c == b.(sub := c.sub) && c.sub.graceEndsAt == AddDays(now, terms.graceDays))
  {
    if Renew(terms, b, first.0, first.1, now).1 == Ok(false) { TrialRenewal(terms, b, first.0, first.1, now); }
  }

  lemma TrialRenewal(terms: Terms, b: Books, id: string, total: int, now: Stamp)
    requires Renew(terms, b, id, total, now).1 == Ok(false) && b.sub.status == Trialing
    ensures Renew(terms, b, id, total, now).0.sub.status != InForce
  {
  }

  /** The states between the payments of a retry: each pays the next invoice, and only the last may fail to. */
  ghost predicate RetryChain(terms: Terms, states: seq<Books>, due: seq<nat>, now: Stamp, r: Result<nat>) {
    var m := |states| - 1;
    && 0 <= m <= |due|
    && (forall j :: 0 <= j < m ==> states[j + 1] == Pay(terms, states[j], due[j], now).0)
    && (forall j :: 0 <= j < m - 1 ==> Pay(terms, states[j], due[j], now).1 == Ok(true))
    && if m == 0 then due == [] && r == Ok(0)
       else match Pay(terms, states[m - 1], due[m - 1], now).1
         case Err(code) => r == Err(code)
         case Ok(paid) => r == Ok(m) && (paid ==> m == |due|)
  }

  lemma RetryOneEarlier(terms: Terms, b: Books, due: seq<nat>, now: Stamp, rest: seq<Books>, r: Result<nat>)
    requires due != [] && rest != [] && rest[0] == Pay(terms, b, due[0], now).0 && Pay(terms, b, due[0], now).1 == Ok(true)
    requires RetryChain(terms, rest, due[1..], now, r)
    ensures RetryChain(terms, [b] + rest, due, now, if r.Ok? then Ok(r.value + 1) else r)
  {
    var states, m := [b] + rest, |rest|;
    assert states[0] == b && states[1] == rest[0];
    forall j | 0 < j <= m ensures states[j] == rest[j - 1] && (j < m ==> due[j] == due[1..][j - 1]) {}
    forall j | 0 <= j < m ensures states[j + 1] == Pay(terms, states[j], due[j], now).0 { if 0 < j { assert states[j] == rest[j - 1]; } }
    forall j | 0 <= j < m - 1 ensures Pay(terms, states[j], due[j], now).1 == Ok(true) { if 0 < j { assert states[j] == rest[j - 1]; } }
  }

  /** A retry pays one invoice after another, up to the first that is not paid, and counts them. */
  lemma {:induction false} RetryStops(terms: Terms, b: Books, due: seq<nat>, now: Stamp) returns (states: seq<Books>)
    ensures states != [] && states[0] == b && states[|states| - 1] == RetryEach(terms, b, due, now).0
    ensures RetryChain(terms, states, due, now, RetryEach(terms, b, due, now).1)
    decreases |due|
  {
    if due == [] {
      states := [b];
    } else {
      var (c, r) := Pay(terms, b, due[0], now);
      if r == Ok(true) {
        var rest := RetryStops(terms, c, due[1..], now);
        RetryOneEarlier(terms, b, due, now, rest, RetryEach(terms, c, due[1..], now).1);
        states := [b] + rest;
      } else {
        states := [b, c];
      }
    }
  }

  /** A retry goes through the invoices to retry in that way. */
  lemma RetryPaysTheDue(terms: Terms, b: Books, now: Stamp) returns (due: seq<nat>, states: seq<Books>)
    ensures RetryList(terms, b, due, now)
    ensures states != [] && states[0] == b && states[|states| - 1] == RetryDue(terms, b, now).0
    ensures RetryChain(terms, states, due, now, RetryDue(terms, b, now).1)
  {
    due := DueList(terms, b, now);
    DueListSpec(terms, b, now);
    states := RetryStops(terms, b, due, now);
  }
}
