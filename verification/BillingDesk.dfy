/**
  The billing services as they run: wallet, invoices and subscription are updated in place as `Invoices` says. Every service
  keeps `Valid`: the rows are those that follow from the transactions made so far, so what the other modules prove of every
  log holds of them.
  */
module BillingDesk {
  import opened Totals
  import opened Periods
  import opened Ledger
  import opened Invoices
  import opened InvoiceAccounts
  import opened InvoiceConservation
  import opened RenewalChain
  import opened BillingTicks
  import WalletAccount

  /** What every log leaves behind, and what it leaves behind when no reversal in it came under a used key. */
  ghost predicate Upheld(terms: Terms, start: Subscription, log: seq<Booking>, b: Books) {
    && Chained(b) && AllAddUp(b.invoices) && KeyedWallet(b.wallet)
    && (FreshReversals(terms, start, log) ==> Consistent(b))
  }

  /** One transaction later the books are those of the longer log. */
  lemma Recorded(terms: Terms, start: Subscription, log: seq<Booking>, x: Booking)
    requires PeriodOk(start.periodStart, start.periodEnd)
    ensures AfterLog(terms, start, log + [x]) == Step(terms, AfterLog(terms, start, log), x)
    ensures Upheld(terms, start, log + [x], AfterLog(terms, start, log + [x]))
  {
    OneMore(terms, start, log, x);
    AlwaysUpheld(terms, start, log + [x]);
  }

  lemma AlwaysUpheld(terms: Terms, start: Subscription, log: seq<Booking>)
    requires PeriodOk(start.periodStart, start.periodEnd)
    ensures Upheld(terms, start, log, AfterLog(terms, start, log))
  {
    AlwaysChained(terms, start, log);
    AlwaysAddsUp(terms, start, log);
    AlwaysKeyed(terms, start, log);
    if FreshReversals(terms, start, log) { AlwaysConsistent(terms, start, log); }
  }

  class Desk {
    const terms: Terms
    const account: WalletAccount.Account
    var invoices: seq<Invoice>
    var sub: Subscription
    ghost const start: Subscription
    ghost var log: seq<Booking>

    function State(): Books
      reads this, account
    {
      Books(account.State(), invoices, sub)
    }

    /** The rows are what the transactions in `log` made of the subscription as it began. */
    ghost predicate Valid()
      reads this, account
    {
      && account.Valid() && PeriodOk(start.periodStart, start.periodEnd)
      && State() == AfterLog(terms, start, log) && Upheld(terms, start, log, State())
    }

    constructor (terms: Terms, sub: Subscription)
      requires PeriodOk(sub.periodStart, sub.periodEnd)
      ensures Valid() && start == sub && log == []
      ensures this.terms == terms && fresh(account) && State() == Books(OPENED, [], sub)
    {
      this.terms := terms;
      account := new WalletAccount.Account();
      invoices := [];
      this.sub := sub;
      start, log := sub, [];
      new;
      AlwaysUpheld(terms, sub, []);
    }

    /** An error raised inside a transaction undoes what the transaction wrote. */
    method RollBack(b: Books, ghost past: seq<Request>)
      requires b.wallet == After(past)
      modifies `invoices, `sub, account
      ensures account.Valid() && State() == b
    {
      account.Restore(b.wallet, past);
      invoices, sub := b.invoices, b.sub;
    }

    /** `credit_wallet`. */
    method Credit(amount: int, key: string, kind: Kind, refusal: Option<string>, ghost now: Stamp) returns (r: Result<nat>)
      requires Valid()
      modifies this, account
      ensures Valid() && log == old(log) + [Booking(CreditEvent(amount, key, kind, refusal), now)]
      ensures State() == old(State()).(wallet := Ledger.CreditWallet(old(State()).wallet, amount, key, kind, refusal).0)
      ensures r == Ledger.CreditWallet(old(State()).wallet, amount, key, kind, refusal).1
    {
      Recorded(terms, start, log, Booking(CreditEvent(amount, key, kind, refusal), now));
      log := log + [Booking(CreditEvent(amount, key, kind, refusal), now)];
      r := account.CreditWallet(amount, key, kind, refusal);
    }

    /** `debit_adjustment`. */
    method Debit(amount: int, key: string, refusal: Option<string>, ghost now: Stamp) returns (r: Result<nat>)
      requires Valid()
      modifies this, account
      ensures Valid() && log == old(log) + [Booking(DebitEvent(amount, key, refusal), now)]
      ensures State() == old(State()).(wallet := Ledger.DebitAdjustment(old(State()).wallet, amount, key, refusal).0)
      ensures r == Ledger.DebitAdjustment(old(State()).wallet, amount, key, refusal).1
    {
      Recorded(terms, start, log, Booking(DebitEvent(amount, key, refusal), now));
      log := log + [Booking(DebitEvent(amount, key, refusal), now)];
      r := account.DebitAdjustment(amount, key, refusal);
    }

    /** `set_wallet_frozen`. */
    method Freeze(frozen: bool, refusal: Option<string>, ghost now: Stamp) returns (r: Result<nat>)
      requires Valid()
      modifies this, account
      ensures Valid() && log == old(log) + [Booking(FreezeEvent(frozen, refusal), now)]
      ensures State() == old(State()).(wallet := Ledger.SetFrozen(old(State()).wallet, frozen, refusal).0)
      ensures r == Ledger.SetFrozen(old(State()).wallet, frozen, refusal).1
    {
      Recorded(terms, start, log, Booking(FreezeEvent(frozen, refusal), now));
      log := log + [Booking(FreezeEvent(frozen, refusal), now)];
      r := account.SetFrozen(frozen, refusal);
    }

    /** `generate_invoice`. */
    method Generate(id: string, total: int, now: Stamp) returns (r: Result<nat>)
      modifies `invoices
      ensures (State(), r) == Invoices.Generate(old(State()), id, total, now)
    {
      if FindInvoice(invoices, id).Some? {
        return Err("integrity_error");
      }
      invoices := invoices + [Invoice(id, sub.periodStart, sub.periodEnd, total, 0, total, Draft, now, Untried)];
      r := Ok(|invoices| - 1);
    }

    /** `issue_invoice`, inside a transaction. */
    method IssueInvoice(i: nat) returns (r: Result<bool>)
      modifies `invoices
      ensures (State(), r) == Invoices.Issue(old(State()), i)
    {
      if |invoices| <= i {
        return Err("resource_not_found");
      }
      if invoices[i].status.Open? {
        return Ok(false);
      }
      if !invoices[i].status.Draft? {
        return Err("invoice_transition_invalid");
      }
      invoices := invoices[i := invoices[i].(status := Open)];
      r := Ok(true);
    }

    /** `issue_invoice`. */
    method Issue(i: nat, ghost now: Stamp) returns (r: Result<bool>)
      requires Valid()
      modifies this
      ensures Valid() && log == old(log) + [Booking(IssueEvent(i), now)]
      ensures (State(), r) == Invoices.Issue(old(State()), i)
    {
      Recorded(terms, start, log, Booking(IssueEvent(i), now));
      log := log + [Booking(IssueEvent(i), now)];
      r := IssueInvoice(i);
    }

    /** `mark_invoice_paid`. */
    method MarkPaid(i: nat, reviewed: bool, ghost now: Stamp) returns (r: Result<bool>)
      requires Valid()
      modifies this
      ensures Valid() && log == old(log) + [Booking(MarkPaidEvent(i, reviewed), now)]
      ensures (State(), r) == Invoices.MarkPaid(terms, old(State()), i, reviewed)
    {
      Recorded(terms, start, log, Booking(MarkPaidEvent(i, reviewed), now));
      log := log + [Booking(MarkPaidEvent(i, reviewed), now)];
      if |invoices| <= i {
        return Err("resource_not_found");
      }
      if invoices[i].status.Paid? {
        return Ok(false);
      }
      if !invoices[i].status.Open? {
        return Err("invoice_transition_invalid");
      }
      if terms.manualProvider && !reviewed {
        return Err("manual_review_required");
      }
      invoices := invoices[i := invoices[i].(status := Paid, paid := invoices[i].total, due := 0)];
      if sub.status.PastDue? || sub.status.Grace? || sub.status.Paused? {
        sub := sub.(status := InForce, graceEndsAt := None);
      }
      r := Ok(true);
    }

    /** `void_invoice`. */
    method VoidInvoice(i: nat, ghost now: Stamp) returns (r: Result<bool>)
      requires Valid()
      modifies this
      ensures Valid() && log == old(log) + [Booking(VoidEvent(i), now)]
      ensures (State(), r) == Invoices.VoidInvoice(old(State()), i)
    {
      Recorded(terms, start, log, Booking(VoidEvent(i), now));
      log := log + [Booking(VoidEvent(i), now)];
      if |invoices| <= i {
        return Err("resource_not_found");
      }
      if invoices[i].status.Void? {
        return Ok(false);
      }
      if !invoices[i].status.Draft? && !invoices[i].status.Open? {
        return Err("invoice_transition_invalid");
      }
      invoices := invoices[i := invoices[i].(status := Void, due := 0)];
      r := Ok(true);
    }

    /** `_insufficient_attempt`. */
    method RecordShortfall(i: nat, now: Stamp)
      requires i < |invoices|
      modifies `invoices, `sub
      ensures State() == old(State()).(
        invoices := old(invoices)[i := old(invoices)[i].(attempt := Failed)], sub := AfterShortfall(terms, old(sub), now))
    {
      invoices := invoices[i := invoices[i].(attempt := Failed)];
      if !sub.status.Grace? && !sub.status.Paused? && !sub.status.Cancelled? && !sub.status.Expired? {
        sub := sub.(status := Grace, graceEndsAt := AddDays(now, terms.graceDays));
      }
    }

    /** The subscription half of a payment; false when the next period end cannot be computed. */
    method MoveOn(end: Stamp, now: Stamp) returns (ok: bool)
      modifies `sub
      ensures invoices == old(invoices)
      ensures ok <==> AfterPayment(terms, old(sub), end, now).Some?
      ensures ok ==> sub == AfterPayment(terms, old(sub), end, now).value
    {
      var due := NotAfter(sub.periodEnd, end) && NotAfter(sub.periodEnd, now);
      if sub.status.Trialing? || sub.status.PastDue? || sub.status.Grace? || sub.status.Paused? {
        sub := sub.(status := InForce, graceEndsAt := None);
      }
      if due {
        var next := PeriodEnd(end, terms.interval);
        if next.None? {
          return false;
        }
        sub := sub.(periodStart := end, periodEnd := next.value);
      }
      ok := true;
    }

    /** `pay_invoice_from_wallet`, inside a transaction. */
    method PayInvoice(i: nat, now: Stamp) returns (r: Result<bool>)
      requires account.Valid()
      modifies `invoices, `sub, account
      ensures account.Valid()
      ensures (State(), r) == Invoices.Pay(terms, old(State()), i, now)
    {
      if |invoices| <= i {
        return Err("resource_not_found");
      }
      var inv := invoices[i];
      if inv.status.Paid? && FindPayment(account.entries, inv.id).Some? {
        return Ok(true);
      }
      if !inv.status.Open? {
        return Err("invoice_transition_invalid");
      }
      if !terms.fromWallet {
        return Err("wallet_payment_source_required");
      }
      var before := State();
      ghost var past := account.log;
      var charged := account.Charge(inv.id, inv.due);
      if charged.Err? {
        RollBack(before, past);
        return Err(charged.code);
      }
      if charged.value.None? {
        RecordShortfall(i, now);
        return Ok(false);
      }
      invoices := invoices[i := inv.(status := Paid, paid := inv.total, due := 0, attempt := Succeeded)];
      var ok := MoveOn(inv.periodEnd, now);
      if !ok {
        RollBack(before, past);
        return Err("value_error");
      }
      r := Ok(true);
    }

    /** `pay_invoice_from_wallet`. */
    method Pay(i: nat, now: Stamp) returns (r: Result<bool>)
      requires Valid()
      modifies this, account
      ensures Valid() && log == old(log) + [Booking(PayEvent(i), now)]
      ensures (State(), r) == Invoices.Pay(terms, old(State()), i, now)
    {
      Recorded(terms, start, log, Booking(PayEvent(i), now));
      log := log + [Booking(PayEvent(i), now)];
      r := PayInvoice(i, now);
    }

    /** `reverse_transaction`, inside a transaction. */
    method ReverseRow(row: nat, key: string, refusal: Option<string>, now: Stamp) returns (r: Result<nat>)
      requires account.Valid()
      modifies `invoices, `sub, account
      ensures account.Valid()
      ensures (State(), r) == Invoices.ReversePayment(terms, old(State()), row, key, refusal, now)
    {
      var reversed := FindReversal(account.entries, row).Some?;
      var paid := PaidInvoice(State(), row);
      r := account.Reverse(row, key, refusal);
      if r.Err? || reversed || paid.None? {
        return;
      }
      var inv := invoices[paid.value];
      invoices := invoices[paid.value := inv.(status := Open, paid := 0, due := inv.total, attempt := Refunded)];
      if !sub.status.Cancelled? && !sub.status.Expired? {
        sub := sub.(status := Grace, graceEndsAt := AddDays(now, terms.graceDays));
      }
    }

    /** `reverse_transaction`. */
    method ReversePayment(row: nat, key: string, refusal: Option<string>, now: Stamp) returns (r: Result<nat>)
      requires Valid()
      modifies this, account
      ensures Valid() && log == old(log) + [Booking(ReverseEvent(row, key, refusal), now)]
      ensures (State(), r) == Invoices.ReversePayment(terms, old(State()), row, key, refusal, now)
    {
      Recorded(terms, start, log, Booking(ReverseEvent(row, key, refusal), now));
      log := log + [Booking(ReverseEvent(row, key, refusal), now)];
      r := ReverseRow(row, key, refusal, now);
    }

    /** The invoice `process_wallet_renewal` pays: found or generated, then issued. */
    method CurrentInvoice(id: string, total: int, now: Stamp) returns (r: Result<nat>)
      modifies `invoices
      ensures (State(), r) == Invoices.CurrentInvoice(old(State()), id, total, now)
    {
      var found := FindPeriod(invoices, sub.periodStart, sub.periodEnd);
      if found.Some? {
        r := Ok(found.value);
      } else {
        r := Generate(id, total, now);
      }
      if r.Ok? && r.value < |invoices| && invoices[r.value].status.Draft? {
        var _ := IssueInvoice(r.value);
      }
    }

    /** `process_wallet_renewal`, inside a transaction. */
    method RenewPeriod(id: string, total: int, now: Stamp) returns (r: Result<bool>)
      requires account.Valid()
      modifies `invoices, `sub, account
      ensures account.Valid()
      ensures (State(), r) == Invoices.Renew(terms, old(State()), id, total, now)
    {
      if !terms.fromWallet {
        return Err("wallet_payment_source_required");
      }
      if !RenewalDue(sub, now) {
        return Err("subscription_not_due");
      }
      var before := State();
      ghost var past := account.log;
      var i := CurrentInvoice(id, total, now);
      if i.Err? {
        RollBack(before, past);
        return Err(i.code);
      }
      r := PayInvoice(i.value, now);
      if r.Err? {
        RollBack(before, past);
      }
    }

    /** `process_wallet_renewal`. */
    method Renew(id: string, total: int, now: Stamp) returns (r: Result<bool>)
      requires Valid()
      modifies this, account
      ensures Valid() && log == old(log) + [Booking(RenewEvent(id, total), now)]
      ensures (State(), r) == Invoices.Renew(terms, old(State()), id, total, now)
    {
      Recorded(terms, start, log, Booking(RenewEvent(id, total), now));
      log := log + [Booking(RenewEvent(id, total), now)];
      r := RenewPeriod(id, total, now);
    }

    /** The loop of `retry_due_invoices`; it ends at the first payment that is not made. */
    method RetryInvoices(now: Stamp) returns (r: Result<nat>)
      requires account.Valid()
      modifies `invoices, `sub, account
      ensures account.Valid()
      ensures (State(), r) == Invoices.RetryDue(terms, old(State()), now)
    {
      var due := DueList(terms, State(), now);
      var n := 0;
      while n < |due|
        invariant n <= |due| && account.Valid()
        invariant RetryEach(terms, old(State()), due, now) == Later(RetryEach(terms, State(), due[n..], now), n)
      {
        var paid := PayInvoice(due[n], now);
        if paid.Err? {
          return Err(paid.code);
        }
        n := n + 1;
        if !paid.value {
          break;
        }
      }
      r := Ok(n);
    }

    /** `retry_due_invoices`: each payment is its own transaction. */
    method RetryDue(now: Stamp) returns (r: Result<nat>)
      requires Valid()
      modifies this, account
      ensures Valid() && log == old(log) + [Booking(RetryEvent, now)]
      ensures (State(), r) == Invoices.RetryDue(terms, old(State()), now)
    {
      Recorded(terms, start, log, Booking(RetryEvent, now));
      log := log + [Booking(RetryEvent, now)];
      r := RetryInvoices(now);
    }

    /** The failure of a payment that is not made from the wallet. */
    method PaymentFailed(now: Stamp)
      requires Valid()
      modifies this
      ensures Valid() && log == old(log) + [Booking(FailureEvent, now)]
      ensures State() == Invoices.PaymentFailed(terms, old(State()), now)
    {
      Recorded(terms, start, log, Booking(FailureEvent, now));
      log := log + [Booking(FailureEvent, now)];
      sub := sub.(status := Grace, graceEndsAt := AddDays(now, terms.graceDays));
    }

    /** The end of a grace period. */
    method ExpireGrace(now: Stamp)
      requires Valid()
      modifies this
      ensures Valid() && log == old(log) + [Booking(GraceExpiryEvent, now)]
      ensures State() == Invoices.ExpireGrace(old(State()), now)
    {
      Recorded(terms, start, log, Booking(GraceExpiryEvent, now));
      log := log + [Booking(GraceExpiryEvent, now)];
      if GraceOver(sub, now) {
        sub := sub.(status := Paused);
      }
    }

    /** The loop of `process_billing_lifecycle` over trials that are over. */
    method EndTrial(id: string, total: int, counts: Counts, now: Stamp) returns (r: Result<Counts>)
      requires account.Valid()
      modifies `invoices, `sub, account
      ensures account.Valid()
      ensures (State(), r) == TickTrial(terms, old(State()), id, total, counts, now)
    {
      if !TrialOver(sub, now) {
        return Ok(counts);
      }
      var updated := counts;
      if terms.fromWallet {
        var paid := RenewPeriod(id, total, now);
        if paid.Err? {
          return Err(paid.code);
        }
        updated := CountRenewal(updated, paid.value);
      } else {
        sub := sub.(status := Grace, graceEndsAt := AddDays(now, terms.graceDays));
      }
      r := Ok(updated.(trialExpired := updated.trialExpired + 1));
    }

    /** The loop over active subscriptions past their period end. */
    method RenewActive(id: string, total: int, counts: Counts, now: Stamp) returns (r: Result<Counts>)
      requires account.Valid()
      modifies `invoices, `sub, account
      ensures account.Valid()
      ensures (State(), r) == TickRenewal(terms, old(State()), id, total, counts, now)
    {
      if !RenewsActive(terms, sub, now) {
        return Ok(counts);
      }
      var paid := RenewPeriod(id, total, now);
      r := if paid.Err? then Err(paid.code) else Ok(CountRenewal(counts, paid.value));
    }

    /** The three loops, for this subscription. */
    method RunLifecycle(first: (string, int), second: (string, int), now: Stamp) returns (r: Result<Counts>)
      requires account.Valid()
      modifies `invoices, `sub, account
      ensures account.Valid()
      ensures (State(), r) == Tick(terms, old(State()), first, second, now)
    {
      r := EndTrial(first.0, first.1, Counts(0, 0, 0, 0), now);
      if r.Err? {
        return;
      }
      r := RenewActive(second.0, second.1, r.value, now);
      if r.Ok? && GraceOver(sub, now) {
        sub := sub.(status := Paused);
        r := Ok(r.value.(graceExpired := r.value.graceExpired + 1));
      }
    }

    /** `process_billing_lifecycle` for this subscription: it makes the transactions of `TickLog`. */
    method Lifecycle(first: (string, int), second: (string, int), now: Stamp) returns (r: Result<Counts>)
      requires Valid()
      modifies this, account
      ensures Valid() && log == old(log) + TickLog(terms, old(State()), first, second, now)
      ensures (State(), r) == Tick(terms, old(State()), first, second, now)
    {
      TickFollowsLog(terms, start, log, State(), first, second, now);
      AlwaysUpheld(terms, start, log + TickLog(terms, State(), first, second, now));
      log := log + TickLog(terms, State(), first, second, now);
      r := RunLifecycle(first, second, now);
    }
  }

  /** The outcome of a retry that has n results behind it already. */
  function Later(outcome: (Books, Result<nat>), n: nat): (Books, Result<nat>) {
    (outcome.0, if outcome.1.Ok? then Ok(outcome.1.value + n) else outcome.1)
  }
}
