/** The billing periods of a subscription over whole runs: they abut, each has one invoice, and they only move forward. */
module RenewalChain {
  import opened Totals
  import opened Periods
  import opened Ledger
  import opened Invoices

  // ----- the invariant -----

  predicate PeriodOk(start: Stamp, end: Stamp) { Periods.Valid(start) && Periods.Valid(end) && Before(start, end) }

  /** The invoices' periods follow one another without gap or overlap. */
  ghost predicate Linked(invoices: seq<Invoice>) {
    invoices != [] ==>
      var front, last := invoices[..|invoices| - 1], invoices[|invoices| - 1];
      && Linked(front) && PeriodOk(last.periodStart, last.periodEnd)
      && (front != [] ==> front[|front| - 1].periodEnd == last.periodStart)
  }

  /** The newest invoice is for the subscription's current period. */
  predicate HasCurrent(b: Books) {
    b.invoices != [] && var last := b.invoices[|b.invoices| - 1]; last.periodStart == b.sub.periodStart && last.periodEnd == b.sub.periodEnd
  }

  /** The newest invoice is for the current period or for the one before it. */
  ghost predicate Chained(b: Books) {
    && PeriodOk(b.sub.periodStart, b.sub.periodEnd)
    && Linked(b.invoices)
    && (b.invoices == [] || HasCurrent(b) || b.invoices[|b.invoices| - 1].periodEnd == b.sub.periodStart)
  }

  predicate SamePeriod(a: Subscription, b: Subscription) { a.periodStart == b.periodStart && a.periodEnd == b.periodEnd }

  /** One period on: it starts where the old one ended, and ends where the interval says. */
  predicate MovedOn(terms: Terms, a: Subscription, b: Subscription) {
    b.periodStart == a.periodEnd && PeriodEnd(a.periodEnd, terms.interval) == Some(b.periodEnd) && Before(a.periodEnd, b.periodEnd)
  }

  lemma {:induction false} LinkedAt(invoices: seq<Invoice>, k: nat)
    requires Linked(invoices) && k < |invoices|
    ensures PeriodOk(invoices[k].periodStart, invoices[k].periodEnd)
    ensures k + 1 < |invoices| ==> invoices[k].periodEnd == invoices[k + 1].periodStart
  {
    if k + 1 < |invoices| {
      LinkedAt(invoices[..|invoices| - 1], k);
      assert k + 2 == |invoices| ==> invoices[..|invoices| - 1][|invoices| - 2] == invoices[k];
    }
  }

  /** Periods come in the order of their invoices. */
  lemma {:induction false} PeriodsOrdered(invoices: seq<Invoice>, i: nat, j: nat)
    requires Linked(invoices) && i < j < |invoices|
    ensures NotAfter(invoices[i].periodEnd, invoices[j].periodStart)
  {
    LinkedAt(invoices, j - 1);
    if i < j - 1 { PeriodsOrdered(invoices, i, j - 1); }
  }

  lemma {:induction false} LinkedUpdate(invoices: seq<Invoice>, i: nat, inv: Invoice)
    requires Linked(invoices) && i < |invoices|
    requires inv.periodStart == invoices[i].periodStart && inv.periodEnd == invoices[i].periodEnd
    ensures Linked(invoices[i := inv])
  {
    var n := |invoices| - 1;
    if i < n {
      assert invoices[i := inv][..n] == invoices[..n][i := inv];
      LinkedUpdate(invoices[..n], i, inv);
    } else {
      assert invoices[i := inv][..n] == invoices[..n];
    }
  }

  /** An invoice that reaches the end of the current period is the newest one, for the current period. */
  lemma OnlyCurrentReachesEnd(b: Books, i: nat)
    requires Chained(b) && i < |b.invoices| && NotAfter(b.sub.periodEnd, b.invoices[i].periodEnd)
    ensures i == |b.invoices| - 1 && HasCurrent(b)
  {
    var n := |b.invoices| - 1;
    LinkedAt(b.invoices, n);
    if i < n { PeriodsOrdered(b.invoices, i, n); }
  }

  // ----- the steps -----

  /** A step that changes one invoice but no period. */
  lemma InvoiceChangedChained(b: Books, i: nat, inv: Invoice, w: Wallet, sub: Subscription)
    requires Chained(b) && i < |b.invoices| && SamePeriod(b.sub, sub)
    requires inv.periodStart == b.invoices[i].periodStart && inv.periodEnd == b.invoices[i].periodEnd
    ensures Chained(Books(w, b.invoices[i := inv], sub))
  {
    LinkedUpdate(b.invoices, i, inv);
  }

  /** What a step may do to the period: nothing, or move it on by one when the newest invoice is for the current period. */
  ghost predicate Progress(terms: Terms, b: Books, c: Books) {
    && Chained(c)
    && (SamePeriod(b.sub, c.sub) || (HasCurrent(b) && !HasCurrent(c) && MovedOn(terms, b.sub, c.sub)))
    && (!HasCurrent(b) ==> !HasCurrent(c))
  }

  /** A payment booked: the period moves only when the paid invoice is the current one. */
  lemma PaymentProgress(terms: Terms, b: Books, i: nat, inv: Invoice, w: Wallet, sub: Subscription, now: Stamp)
    requires Chained(b) && i < |b.invoices| && AfterPayment(terms, b.sub, b.invoices[i].periodEnd, now) == Some(sub)
    requires inv.periodStart == b.invoices[i].periodStart && inv.periodEnd == b.invoices[i].periodEnd
    ensures Progress(terms, b, Books(w, b.invoices[i := inv], sub))
  {
    LinkedUpdate(b.invoices, i, inv);
    if Advances(b.sub, inv.periodEnd, now) {
      OnlyCurrentReachesEnd(b, i);
      PeriodEndIsLater(inv.periodEnd, terms.interval);
    }
  }

  lemma PayProgress(terms: Terms, b: Books, i: nat, now: Stamp)
    requires Chained(b)
    ensures Progress(terms, b, Pay(terms, b, i, now).0)
  {
    var c := Pay(terms, b, i, now).0;
    if c != b {
      if c.invoices[i].status.Paid? {
        PaymentProgress(terms, b, i, c.invoices[i], c.wallet, c.sub, now);
      } else {
        LinkedUpdate(b.invoices, i, c.invoices[i]);
      }
    }
  }

  lemma {:induction false} RetryProgress(terms: Terms, b: Books, due: seq<nat>, now: Stamp)
    requires Chained(b)
    ensures Progress(terms, b, RetryEach(terms, b, due, now).0)
    decreases |due|
  {
    if due != [] {
      PayProgress(terms, b, due[0], now);
      RetryProgress(terms, Pay(terms, b, due[0], now).0, due[1..], now);
    }
  }

  lemma GeneratedChained(b: Books, id: string, total: int, now: Stamp)
    requires Chained(b) && FindPeriod(b.invoices, b.sub.periodStart, b.sub.periodEnd).None? && Generate(b, id, total, now).1.Ok?
    ensures Chained(Generate(b, id, total, now).0) && HasCurrent(Generate(b, id, total, now).0)
    ensures Generate(b, id, total, now).0.sub == b.sub
  {
    assert b.invoices != [] ==> !HasCurrent(b);
    assert Generate(b, id, total, now).0.invoices[..|b.invoices|] == b.invoices;
  }

  /** The newest invoice issued if it is a draft. */
  lemma IssuedChained(b: Books, i: nat)
    requires Chained(b) && HasCurrent(b) && i + 1 == |b.invoices|
    ensures Chained(Issue(b, i).0) && HasCurrent(Issue(b, i).0)
    ensures |Issue(b, i).0.invoices| == |b.invoices| && Issue(b, i).0.sub == b.sub
  {
    InvoiceChangedChained(b, i, b.invoices[i].(status := Open), b.wallet, b.sub);
  }

  lemma CurrentChained(b: Books, id: string, total: int, now: Stamp)
    requires Chained(b)
    ensures Chained(CurrentInvoice(b, id, total, now).0) && CurrentInvoice(b, id, total, now).0.sub == b.sub
    ensures var (c, i) := CurrentInvoice(b, id, total, now); i.Ok? ==> HasCurrent(c) && i.value + 1 == |c.invoices|
  {
    var found := FindPeriod(b.invoices, b.sub.periodStart, b.sub.periodEnd);
    if found.Some? {
      OnlyCurrentReachesEnd(b, found.value);
      IssuedChained(b, found.value);
    } else if Generate(b, id, total, now).1.Ok? {
      GeneratedChained(b, id, total, now);
      IssuedChained(Generate(b, id, total, now).0, |b.invoices|);
    }
  }

  lemma RenewChained(terms: Terms, b: Books, id: string, total: int, now: Stamp)
    requires Chained(b)
    ensures Chained(Renew(terms, b, id, total, now).0)
    ensures SamePeriod(b.sub, Renew(terms, b, id, total, now).0.sub) || MovedOn(terms, b.sub, Renew(terms, b, id, total, now).0.sub)
  {
    CurrentChained(b, id, total, now);
    var (c, i) := CurrentInvoice(b, id, total, now);
    if i.Ok? { PayProgress(terms, c, i.value, now); }
  }

  lemma TrialTickChained(terms: Terms, b: Books, id: string, total: int, counts: Counts, now: Stamp)
    requires Chained(b)
    ensures Chained(TickTrial(terms, b, id, total, counts, now).0)
    ensures NotAfter(b.sub.periodEnd, TickTrial(terms, b, id, total, counts, now).0.sub.periodEnd)
  {
    RenewChained(terms, b, id, total, now);
  }

  lemma RenewalTickChained(terms: Terms, b: Books, id: string, total: int, counts: Counts, now: Stamp)
    requires Chained(b)
    ensures Chained(TickRenewal(terms, b, id, total, counts, now).0)
    ensures NotAfter(b.sub.periodEnd, TickRenewal(terms, b, id, total, counts, now).0.sub.periodEnd)
  {
    RenewChained(terms, b, id, total, now);
  }

  /** The daily task keeps the chain and never takes the period back, wherever it stops. */
  lemma TickChained(terms: Terms, b: Books, first: (string, int), second: (string, int), now: Stamp)
    requires Chained(b)
    ensures Chained(Tick(terms, b, first, second, now).0)
    ensures NotAfter(b.sub.periodEnd, Tick(terms, b, first, second, now).0.sub.periodEnd)
  {
    var (c, r) := TickTrial(terms, b, first.0, first.1, Counts(0, 0, 0, 0), now);
    TrialTickChained(terms, b, first.0, first.1, Counts(0, 0, 0, 0), now);
    if r.Ok? { RenewalTickChained(terms, c, second.0, second.1, r.value, now); }
  }

  /** Wallet requests, grace expiry and failed payments leave invoices and period alone. */
  lemma QuietStep(terms: Terms, b: Books, x: Booking)
    requires x.event.CreditEvent? || x.event.DebitEvent? || x.event.FreezeEvent? || x.event.GraceExpiryEvent? || x.event.FailureEvent?
    ensures Step(terms, b, x).invoices == b.invoices && SamePeriod(b.sub, Step(terms, b, x).sub)
  {
  }

  lemma StepChained(terms: Terms, b: Books, x: Booking)
    requires Chained(b)
    ensures Chained(Step(terms, b, x))
    ensures SamePeriod(b.sub, Step(terms, b, x).sub) || MovedOn(terms, b.sub, Step(terms, b, x).sub)
  {
    match x.event
    case RenewEvent(id, total) => RenewChained(terms, b, id, total, x.now);
    case RetryEvent => RetryProgress(terms, b, DueList(terms, b, x.now), x.now);
    case PayEvent(i) => PayProgress(terms, b, i, x.now);
    case ReverseEvent(row, key, refusal) => ReverseChained(terms, b, row, key, refusal, x.now);
    case IssueEvent(i) => OneInvoiceChained(terms, b, x, i);
    case MarkPaidEvent(i, _) => OneInvoiceChained(terms, b, x, i);
    case VoidEvent(i) => OneInvoiceChained(terms, b, x, i);
    case _ => QuietStep(terms, b, x);
  }

  lemma ReverseChained(terms: Terms, b: Books, row: nat, key: string, refusal: Option<string>, now: Stamp)
    requires Chained(b)
    ensures Chained(ReversePayment(terms, b, row, key, refusal, now).0)
    ensures SamePeriod(b.sub, ReversePayment(terms, b, row, key, refusal, now).0.sub)
  {
    var c := ReversePayment(terms, b, row, key, refusal, now).0;
    var i := PaidInvoice(b, row);
    if i.Some? { InvoiceChangedChained(b, i.value, Reopened(b.invoices[i.value]), c.wallet, c.sub); }
  }

  lemma OneInvoiceChained(terms: Terms, b: Books, x: Booking, i: nat)
    requires Chained(b) && (x.event.IssueEvent? || x.event.MarkPaidEvent? || x.event.VoidEvent?) && i == x.event.invoice
    ensures Chained(Step(terms, b, x)) && SamePeriod(b.sub, Step(terms, b, x).sub)
  {
    var c := Step(terms, b, x);
    if c != b { InvoiceChangedChained(b, i, c.invoices[i], c.wallet, c.sub); }
  }

  lemma {:induction false} AlwaysChained(terms: Terms, start: Subscription, log: seq<Booking>)
    requires PeriodOk(start.periodStart, start.periodEnd)
    ensures Chained(AfterLog(terms, start, log))
  {
    if log != [] {
      AlwaysChained(terms, start, log[..|log| - 1]);
      StepChained(terms, AfterLog(terms, start, log[..|log| - 1]), log[|log| - 1]);
    }
  }

  // ----- what follows -----

  /** In any run consecutive invoices are for abutting periods. */
  lemma PeriodsAbut(terms: Terms, start: Subscription, log: seq<Booking>, k: nat)
    requires PeriodOk(start.periodStart, start.periodEnd) && k + 1 < |AfterLog(terms, start, log).invoices|
    ensures var invoices := AfterLog(terms, start, log).invoices; invoices[k].periodEnd == invoices[k + 1].periodStart
  {
    AlwaysChained(terms, start, log);
    LinkedAt(AfterLog(terms, start, log).invoices, k);
  }

  /** No two invoices share any instant of their periods. */
  lemma OneInvoiceAPeriod(terms: Terms, start: Subscription, log: seq<Booking>, i: nat, j: nat, at: Stamp)
    requires PeriodOk(start.periodStart, start.periodEnd) && i < j < |AfterLog(terms, start, log).invoices|
    ensures var a, b := AfterLog(terms, start, log).invoices[i], AfterLog(terms, start, log).invoices[j];
      NotAfter(a.periodStart, at) && Before(at, a.periodEnd) ==> Before(at, b.periodStart)
  {
    AlwaysChained(terms, start, log);
    PeriodsOrdered(AfterLog(terms, start, log).invoices, i, j);
  }

  /** In any run a step leaves the period alone or moves it on by exactly one, to a strictly later end. */
  lemma PeriodOnlyMovesOn(terms: Terms, start: Subscription, log: seq<Booking>)
    requires PeriodOk(start.periodStart, start.periodEnd) && log != []
    ensures var before, after := AfterLog(terms, start, log[..|log| - 1]).sub, AfterLog(terms, start, log).sub;
      SamePeriod(before, after) || MovedOn(terms, before, after)
  {
    AlwaysChained(terms, start, log[..|log| - 1]);
    StepChained(terms, AfterLog(terms, start, log[..|log| - 1]), log[|log| - 1]);
  }

  /** Paying any invoice but the newest, or the newest when it is not for the current period, never moves the period. */
  lemma OlderInvoiceNeverAdvances(terms: Terms, b: Books, i: nat, now: Stamp)
    requires Chained(b) && (i + 1 < |b.invoices| || !HasCurrent(b))
    ensures SamePeriod(b.sub, Pay(terms, b, i, now).0.sub)
  {
    if i < |b.invoices| && NotAfter(b.sub.periodEnd, b.invoices[i].periodEnd) { OnlyCurrentReachesEnd(b, i); }
  }

  /** The current period already has a paid invoice. */
  predicate CurrentIsPaid(b: Books) { HasCurrent(b) && b.invoices[|b.invoices| - 1].status.Paid? }

  lemma PayAdvancesIff(terms: Terms, b: Books, i: nat, now: Stamp)
    requires Chained(b) && HasCurrent(b) && i + 1 == |b.invoices| && Pay(terms, b, i, now).1 == Ok(true)
    ensures MovedOn(terms, b.sub, Pay(terms, b, i, now).0.sub) <==> NotAfter(b.sub.periodEnd, now) && !CurrentIsPaid(b)
  {
    PayProgress(terms, b, i, now);
  }

  /** A renewal that reports success moves the period exactly when the period is over and its invoice was not paid before. */
  lemma RenewalAdvancesIff(terms: Terms, b: Books, id: string, total: int, now: Stamp)
    requires Chained(b) && Renew(terms, b, id, total, now).1 == Ok(true)
    ensures MovedOn(terms, b.sub, Renew(terms, b, id, total, now).0.sub) <==> NotAfter(b.sub.periodEnd, now) && !CurrentIsPaid(b)
  {
    var (c, i) := CurrentInvoice(b, id, total, now);
    CurrentChained(b, id, total, now);
    CurrentKeepsPaid(b, id, total, now);
    PayAdvancesIff(terms, c, i.value, now);
  }

  lemma CurrentKeepsPaid(b: Books, id: string, total: int, now: Stamp)
    requires Chained(b) && CurrentInvoice(b, id, total, now).1.Ok?
    ensures CurrentIsPaid(CurrentInvoice(b, id, total, now).0) <==> CurrentIsPaid(b)
    ensures CurrentIsPaid(b) ==> CurrentInvoice(b, id, total, now).0 == b
  {
    CurrentChained(b, id, total, now);
    var found := FindPeriod(b.invoices, b.sub.periodStart, b.sub.periodEnd);
    if found.Some? { OnlyCurrentReachesEnd(b, found.value); }
  }

  lemma PayKeepsPaid(terms: Terms, b: Books, i: nat, now: Stamp)
    requires Chained(b) && CurrentIsPaid(b)
    ensures CurrentIsPaid(Pay(terms, b, i, now).0) && SamePeriod(b.sub, Pay(terms, b, i, now).0.sub)
  {
    if i + 1 < |b.invoices| { OlderInvoiceNeverAdvances(terms, b, i, now); }
  }

  lemma {:induction false} RetryKeepsPaid(terms: Terms, b: Books, due: seq<nat>, now: Stamp)
    requires Chained(b) && CurrentIsPaid(b)
    ensures CurrentIsPaid(RetryEach(terms, b, due, now).0) && SamePeriod(b.sub, RetryEach(terms, b, due, now).0.sub)
    decreases |due|
  {
    if due != [] {
      PayProgress(terms, b, due[0], now);
      PayKeepsPaid(terms, b, due[0], now);
      RetryKeepsPaid(terms, Pay(terms, b, due[0], now).0, due[1..], now);
    }
  }

  /** Once the current period's invoice is paid without the period moving, only a reversal can ever move the subscription again. */
  lemma PaidPeriodIsStuck(terms: Terms, b: Books, x: Booking)
    requires Chained(b) && CurrentIsPaid(b) && !x.event.ReverseEvent?
    ensures CurrentIsPaid(Step(terms, b, x)) && SamePeriod(b.sub, Step(terms, b, x).sub)
  {
    match x.event
    case RenewEvent(id, total) =>
      var (c, i) := CurrentInvoice(b, id, total, x.now);
      if i.Ok? {
        CurrentKeepsPaid(b, id, total, x.now);
        PayKeepsPaid(terms, b, i.value, x.now);
      }
    case RetryEvent => RetryKeepsPaid(terms, b, DueList(terms, b, x.now), x.now);
    case PayEvent(i) => PayKeepsPaid(terms, b, i, x.now);
    case _ =>
  }
}
