/** The lives of invoices and of the subscription. */
module BillingLife {
  import opened Totals
  import opened Periods
  import opened Ledger
  import opened Invoices
  import opened InvoiceAccounts

  // ----- what an invoice keeps -----

  predicate SameInvoice(x: Invoice, y: Invoice) {
    y.id == x.id && y.periodStart == x.periodStart && y.periodEnd == x.periodEnd && y.dueAt == x.dueAt && y.total == x.total
  }

  /** Every event but a reversal only moves the status forward. */
  predicate StatusFollows(from: InvoiceStatus, to: InvoiceStatus) {
    || from == to
    || (from.Draft? && !to.Draft?)
    || (from.Open? && (to.Paid? || to.Void?))
  }

  /** Every invoice is still there with its id, period, due date and total. */
  ghost predicate Kept(b: Books, c: Books) {
    |b.invoices| <= |c.invoices| && forall k :: 0 <= k < |b.invoices| ==> SameInvoice(b.invoices[k], c.invoices[k])
  }

  ghost predicate Follows(b: Books, c: Books) {
    Kept(b, c) && forall k :: 0 <= k < |b.invoices| ==> StatusFollows(b.invoices[k].status, c.invoices[k].status)
  }

  lemma PayFollows(terms: Terms, b: Books, i: nat, now: Stamp)
    ensures Follows(b, Pay(terms, b, i, now).0)
  {
  }

  lemma FollowsOn(b: Books, c: Books, d: Books)
    requires Follows(b, c) && Follows(c, d)
    ensures Follows(b, d)
  {
  }

  lemma {:induction false} RetryFollows(terms: Terms, b: Books, due: seq<nat>, now: Stamp)
    ensures Follows(b, RetryEach(terms, b, due, now).0)
    decreases |due|
  {
    if due != [] {
      var c := Pay(terms, b, due[0], now).0;
      PayFollows(terms, b, due[0], now);
      RetryFollows(terms, c, due[1..], now);
      FollowsOn(b, c, RetryEach(terms, c, due[1..], now).0);
    }
  }

  lemma CurrentFollows(b: Books, id: string, total: int, now: Stamp)
    ensures Follows(b, CurrentInvoice(b, id, total, now).0)
  {
  }

  lemma RenewFollows(terms: Terms, b: Books, id: string, total: int, now: Stamp)
    ensures Follows(b, Renew(terms, b, id, total, now).0)
  {
    var (c, i) := CurrentInvoice(b, id, total, now);
    CurrentFollows(b, id, total, now);
    if i.Ok? {
      PayFollows(terms, c, i.value, now);
      FollowsOn(b, c, Pay(terms, c, i.value, now).0);
    }
  }

  lemma OthersFollow(terms: Terms, b: Books, x: Booking)
    requires !x.event.RenewEvent? && !x.event.RetryEvent? && !x.event.PayEvent? && !x.event.ReverseEvent?
    ensures Follows(b, Step(terms, b, x))
  {
  }

  /** Every event but a reversal keeps every invoice in place and only moves its status forward. */
  lemma StepFollows(terms: Terms, b: Books, x: Booking)
    requires !x.event.ReverseEvent?
    ensures Follows(b, Step(terms, b, x))
  {
    match x.event
    case RenewEvent(id, total) => RenewFollows(terms, b, id, total, x.now);
    case RetryEvent => RetryFollows(terms, b, DueList(terms, b, x.now), x.now);
    case PayEvent(i) => PayFollows(terms, b, i, x.now);
    case _ => OthersFollow(terms, b, x);
  }

  /** The reversal is accepted for a row, not reversed before, that paid invoice k. */
  predicate Reopens(b: Books, e: Event, k: nat)
    requires e.ReverseEvent?
  {
    && PaidInvoice(b, e.row) == Some(k) && FindReversal(b.wallet.entries, e.row).None?
    && Reverse(b.wallet, e.row, e.key, e.refusal).1.Ok?
  }

  /** A reversal opens exactly the invoice it reopens, whatever its status, and leaves every other one alone. */
  lemma ReverseFollows(terms: Terms, b: Books, x: Booking, k: nat)
    requires x.event.ReverseEvent? && k < |b.invoices|
    ensures |Step(terms, b, x).invoices| == |b.invoices| && SameInvoice(b.invoices[k], Step(terms, b, x).invoices[k])
    ensures Step(terms, b, x).invoices[k].status == if Reopens(b, x.event, k) then Open else b.invoices[k].status
  {
  }

  // ----- over whole runs -----

  lemma StepKeeps(terms: Terms, b: Books, x: Booking)
    ensures Kept(b, Step(terms, b, x))
  {
    if x.event.ReverseEvent? {
      forall k | 0 <= k < |b.invoices| ensures SameInvoice(b.invoices[k], Step(terms, b, x).invoices[k]) { ReverseFollows(terms, b, x, k); }
    } else {
      StepFollows(terms, b, x);
    }
  }

  /** In any run, re-used keys included, an invoice keeps its id, its period, its due date and its total. */
  lemma {:induction false} InvoiceStays(terms: Terms, start: Subscription, log: seq<Booking>, n: nat, k: nat)
    requires n <= |log| && k < |AfterLog(terms, start, log[..n]).invoices|
    ensures k < |AfterLog(terms, start, log).invoices|
    ensures SameInvoice(AfterLog(terms, start, log[..n]).invoices[k], AfterLog(terms, start, log).invoices[k])
  {
    if n < |log| {
      var front := log[..|log| - 1];
      assert front[..n] == log[..n];
      InvoiceStays(terms, start, front, n, k);
      StepKeeps(terms, AfterLog(terms, start, front), log[|log| - 1]);
    } else {
      assert log[..n] == log;
    }
  }

  // ----- void invoices -----

  /** A void invoice leaves that status exactly by a reversal that reopens it. */
  lemma VoidReopensIff(terms: Terms, b: Books, x: Booking, k: nat)
    requires k < |b.invoices| && b.invoices[k].status.Void?
    ensures k < |Step(terms, b, x).invoices|
    ensures !Step(terms, b, x).invoices[k].status.Void? <==> x.event.ReverseEvent? && Reopens(b, x.event, k)
  {
    if x.event.ReverseEvent? {
      ReverseFollows(terms, b, x, k);
    } else {
      StepFollows(terms, b, x);
      assert StatusFollows(b.invoices[k].status, Step(terms, b, x).invoices[k].status);
    }
  }

  /** While invoices and ledger agree, a reversal reopens paid invoices only. */
  lemma OnlyPaidReopens(b: Books, e: Event, k: nat)
    requires Consistent(b) && e.ReverseEvent? && k < |b.invoices| && Reopens(b, e, k)
    ensures b.invoices[k].status.Paid?
  {
    TheOnlyPayment(b.wallet.entries, e.row, b.invoices[k].id);
    assert Settled(b.wallet.entries, b.invoices[k]);
  }

  /** None of the events from position n on reopens invoice k. */
  ghost predicate NeverReopened(terms: Terms, start: Subscription, log: seq<Booking>, n: nat, k: nat) {
    forall m :: n <= m < |log| && log[m].event.ReverseEvent? ==> !Reopens(AfterLog(terms, start, log[..m]), log[m].event, k)
  }

  /** After every event from position n on invoice k is void. */
  ghost predicate AlwaysVoid(terms: Terms, start: Subscription, log: seq<Booking>, n: nat, k: nat) {
    forall m :: n <= m <= |log| ==>
      k < |AfterLog(terms, start, log[..m]).invoices| && AfterLog(terms, start, log[..m]).invoices[k].status.Void?
  }

  lemma {:induction false} VoidUntil(terms: Terms, start: Subscription, log: seq<Booking>, n: nat, m: nat, k: nat)
    requires n <= m <= |log| && NeverReopened(terms, start, log, n, k)
    requires k < |AfterLog(terms, start, log[..n]).invoices| && AfterLog(terms, start, log[..n]).invoices[k].status.Void?
    ensures k < |AfterLog(terms, start, log[..m]).invoices| && AfterLog(terms, start, log[..m]).invoices[k].status.Void?
    decreases m
  {
    if n < m {
      assert log[..m][..m - 1] == log[..m - 1];
      VoidUntil(terms, start, log, n, m - 1, k);
      VoidReopensIff(terms, AfterLog(terms, start, log[..m - 1]), log[m - 1], k);
    }
  }

  lemma VoidToTheNext(terms: Terms, start: Subscription, log: seq<Booking>, n: nat, m: nat, k: nat)
    requires n <= m < |log| && AlwaysVoid(terms, start, log, n, k) && log[m].event.ReverseEvent?
    ensures !Reopens(AfterLog(terms, start, log[..m]), log[m].event, k)
  {
    var b := AfterLog(terms, start, log[..m]);
    assert log[..m + 1][..m] == log[..m];
    assert b.invoices[k].status.Void? && AfterLog(terms, start, log[..m + 1]).invoices[k].status.Void?;
    VoidReopensIff(terms, b, log[m], k);
  }

  /** In any run an invoice void at some point is void ever after exactly when no later reversal reopens it. */
  lemma StaysVoidIff(terms: Terms, start: Subscription, log: seq<Booking>, n: nat, k: nat)
    requires n <= |log| && k < |AfterLog(terms, start, log[..n]).invoices| && AfterLog(terms, start, log[..n]).invoices[k].status.Void?
    ensures AlwaysVoid(terms, start, log, n, k) <==> NeverReopened(terms, start, log, n, k)
  {
    if NeverReopened(terms, start, log, n, k) {
      forall m | n <= m <= |log|
        ensures k < |AfterLog(terms, start, log[..m]).invoices| && AfterLog(terms, start, log[..m]).invoices[k].status.Void?
      {
        VoidUntil(terms, start, log, n, m, k);
      }
    }
    if AlwaysVoid(terms, start, log, n, k) {
      forall m | n <= m < |log| && log[m].event.ReverseEvent? ensures !Reopens(AfterLog(terms, start, log[..m]), log[m].event, k) {
        VoidToTheNext(terms, start, log, n, m, k);
      }
    }
  }

  lemma {:induction false} FreshPrefix(terms: Terms, start: Subscription, log: seq<Booking>, n: nat)
    requires FreshReversals(terms, start, log) && n <= |log|
    ensures FreshReversals(terms, start, log[..n])
  {
    if n < |log| {
      assert log[..|log| - 1][..n] == log[..n];
      FreshPrefix(terms, start, log[..|log| - 1], n);
    } else {
      assert log[..n] == log;
    }
  }

  /** With fresh reversal keys that is always so. */
  lemma FreshKeysKeepVoid(terms: Terms, start: Subscription, log: seq<Booking>, n: nat, k: nat)
    requires FreshReversals(terms, start, log) && n <= |log|
    requires k < |AfterLog(terms, start, log[..n]).invoices| && AfterLog(terms, start, log[..n]).invoices[k].status.Void?
    ensures AlwaysVoid(terms, start, log, n, k)
  {
    forall m | n <= m <= |log|
      ensures k < |AfterLog(terms, start, log[..m]).invoices| && AfterLog(terms, start, log[..m]).invoices[k].status.Void?
    {
      FreshVoidUntil(terms, start, log, n, m, k);
    }
  }

  lemma {:induction false} FreshVoidUntil(terms: Terms, start: Subscription, log: seq<Booking>, n: nat, m: nat, k: nat)
    requires FreshReversals(terms, start, log) && n <= m <= |log|
    requires k < |AfterLog(terms, start, log[..n]).invoices| && AfterLog(terms, start, log[..n]).invoices[k].status.Void?
    ensures k < |AfterLog(terms, start, log[..m]).invoices| && AfterLog(terms, start, log[..m]).invoices[k].status.Void?
    decreases m
  {
    if n < m {
      var b, x := AfterLog(terms, start, log[..m - 1]), log[m - 1];
      assert log[..m][..m - 1] == log[..m - 1];
      FreshVoidUntil(terms, start, log, n, m - 1, k);
      FreshPrefix(terms, start, log, m - 1);
      AlwaysConsistent(terms, start, log[..m - 1]);
      VoidReopensIff(terms, b, x, k);
      if x.event.ReverseEvent? && Reopens(b, x.event, k) { OnlyPaidReopens(b, x.event, k); }
    }
  }

  // ----- the subscription -----

  predicate Restricted(sub: Subscription) { sub.status.PastDue? || sub.status.Grace? || sub.status.Paused? }

  predicate Ended(sub: Subscription) { sub.status.Cancelled? || sub.status.Expired? }

  /** A payment that goes through ends trial and restriction, whatever they were. */
  lemma PaymentRestores(terms: Terms, b: Books, i: nat, now: Stamp)
    requires i < |b.invoices| && b.invoices[i].status.Open? && Pay(terms, b, i, now).1 == Ok(true)
    ensures !Restricted(Pay(terms, b, i, now).0.sub) && !Pay(terms, b, i, now).0.sub.status.Trialing?
  {
  }

  lemma PayKeepsEnded(terms: Terms, b: Books, i: nat, now: Stamp)
    requires Ended(b.sub)
    ensures Ended(Pay(terms, b, i, now).0.sub)
  {
  }

  lemma {:induction false} RetryKeepsEnded(terms: Terms, b: Books, due: seq<nat>, now: Stamp)
    requires Ended(b.sub)
    ensures Ended(RetryEach(terms, b, due, now).0.sub)
    decreases |due|
  {
    if due != [] {
      PayKeepsEnded(terms, b, due[0], now);
      RetryKeepsEnded(terms, Pay(terms, b, due[0], now).0, due[1..], now);
    }
  }

  lemma RenewKeepsEnded(terms: Terms, b: Books, id: string, total: int, now: Stamp)
    requires Ended(b.sub)
    ensures Ended(Renew(terms, b, id, total, now).0.sub)
  {
    var (c, i) := CurrentInvoice(b, id, total, now);
    if i.Ok? { PayKeepsEnded(terms, c, i.value, now); }
  }

  /** A cancelled or expired subscription stays so under every event but one: a reported payment failure puts it back into grace. */
  lemma EndedRevivesIff(terms: Terms, b: Books, x: Booking)
    requires Ended(b.sub)
    ensures !Ended(Step(terms, b, x).sub) <==> x.event.FailureEvent?
  {
    match x.event
    case RenewEvent(id, total) => RenewKeepsEnded(terms, b, id, total, x.now);
    case RetryEvent => RetryKeepsEnded(terms, b, DueList(terms, b, x.now), x.now);
    case PayEvent(i) => PayKeepsEnded(terms, b, i, x.now);
    case _ =>
  }
}
