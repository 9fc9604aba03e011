/** What the invoices say was paid, against what the ledger took. */
module InvoiceAccounts {
  import opened Totals
  import opened Periods
  import opened Ledger
  import opened Invoices

  // ----- the invariant -----

  /** A row that names an invoice is its payment, under the invoice's own key. */
  predicate KeyedRow(e: Entry) {
    e.invoice.Some? ==> e.kind.SubscriptionPayment? && e.reverses.None? && CleanKey(PaymentKey(e.invoice.value)) == Ok(e.key)
  }

  ghost predicate Keyed(es: seq<Entry>) {
    es != [] ==> Keyed(es[..|es| - 1]) && KeyedRow(es[|es| - 1])
  }

  ghost predicate UniqueIds(invoices: seq<Invoice>) {
    invoices != [] ==> UniqueIds(invoices[..|invoices| - 1]) && FindInvoice(invoices[..|invoices| - 1], invoices[|invoices| - 1].id).None?
  }

  predicate WalletPaid(inv: Invoice) { inv.status.Paid? && inv.attempt.Succeeded? }

  /** While it is a draft, open or paid, what is paid and what is due add up to the total. */
  predicate AmountsAddUp(inv: Invoice) {
    && (inv.status.Draft? || inv.status.Open? ==> inv.paid == 0 && inv.due == inv.total)
    && (inv.status.Paid? ==> inv.paid == inv.total && inv.due == 0)
    && (inv.status.Void? ==> inv.due == 0)
  }

  /** The payment row stands. */
  predicate Stands(es: seq<Entry>, id: string) {
    FindPayment(es, id).Some? && FindReversal(es, FindPayment(es, id).value).None?
  }

  /** An invoice agrees with the ledger: a payment is over the total, and while it stands the invoice is paid. */
  predicate Settled(es: seq<Entry>, inv: Invoice) {
    && AmountsAddUp(inv)
    && (inv.attempt.Succeeded? ==> inv.status.Paid?)
    && (FindPayment(es, inv.id).Some? ==> es[FindPayment(es, inv.id).value].amount == inv.total)
    && (Stands(es, inv.id) ==> WalletPaid(inv))
    && (WalletPaid(inv) ==> FindPayment(es, inv.id).Some?)
  }

  ghost predicate AllSettled(es: seq<Entry>, invoices: seq<Invoice>) {
    forall k :: 0 <= k < |invoices| ==> Settled(es, invoices[k])
  }

  ghost predicate Known(es: seq<Entry>, invoices: seq<Invoice>) {
    forall i :: 0 <= i < |es| && es[i].invoice.Some? ==> FindInvoice(invoices, es[i].invoice.value).Some?
  }

  ghost predicate Consistent(b: Books) {
    && Sound(b.wallet) && Keyed(b.wallet.entries)
    && UniqueIds(b.invoices)
    && AllSettled(b.wallet.entries, b.invoices)
    && Known(b.wallet.entries, b.invoices)
  }

  // ----- rows and keys -----

  lemma {:induction false} KeyedAt(es: seq<Entry>, i: nat)
    requires Keyed(es) && i < |es|
    ensures KeyedRow(es[i])
  {
    if i < |es| - 1 { KeyedAt(es[..|es| - 1], i); }
  }

  /** The ledger never holds two payments of one invoice. */
  lemma OnePaymentRow(es: seq<Entry>, i: nat, j: nat)
    requires SoundEntries(es) && Keyed(es) && i < j < |es| && es[i].invoice.Some?
    ensures es[i].invoice != es[j].invoice
  {
    KeyedAt(es, i);
    KeyedAt(es, j);
    KeysUnique(es, i, j);
  }

  lemma {:induction false} PaymentFoundIffPresent(es: seq<Entry>, id: string)
    requires Keyed(es)
    ensures FindPayment(es, id).None? <==> forall i :: 0 <= i < |es| ==> es[i].invoice != Some(id)
  {
    if es != [] { PaymentFoundIffPresent(es[..|es| - 1], id); }
  }

  lemma PaidUnderKey(es: seq<Entry>, id: string)
    requires Keyed(es) && FindPayment(es, id).Some?
    ensures CleanKey(PaymentKey(id)).Ok? && FindKey(es, CleanKey(PaymentKey(id)).value).Some?
  {
    KeyedAt(es, FindPayment(es, id).value);
    FoundIffPresent(es, CleanKey(PaymentKey(id)).value);
    assert es[FindPayment(es, id).value].key == CleanKey(PaymentKey(id)).value;
  }

  /** What one more row does to the lookups. */
  lemma RowAdded(es: seq<Entry>, e: Entry, id: string, row: nat)
    requires KeyedRow(e)
    ensures FindPayment(es + [e], id) == if e.invoice == Some(id) then Some(|es|) else FindPayment(es, id)
    ensures FindReversal(es + [e], row) == if e.reverses == Some(row) then Some(|es|) else FindReversal(es, row)
  {
    assert (es + [e])[..|es|] == es;
  }

  lemma KeyedAppend(es: seq<Entry>, e: Entry)
    requires Keyed(es) && KeyedRow(e)
    ensures Keyed(es + [e])
  {
    assert (es + [e])[..|es|] == es;
  }

  // ----- invoices -----

  lemma {:induction false} IdKept(invoices: seq<Invoice>, i: nat, inv: Invoice, id: string)
    requires i < |invoices| && inv.id == invoices[i].id
    ensures FindInvoice(invoices[i := inv], id) == FindInvoice(invoices, id)
  {
    var n := |invoices| - 1;
    if i < n {
      assert invoices[i := inv][..n] == invoices[..n][i := inv];
      IdKept(invoices[..n], i, inv, id);
    } else {
      assert invoices[i := inv][..n] == invoices[..n];
    }
  }

  lemma {:induction false} UniqueKept(invoices: seq<Invoice>, i: nat, inv: Invoice)
    requires i < |invoices| && inv.id == invoices[i].id && UniqueIds(invoices)
    ensures UniqueIds(invoices[i := inv])
  {
    var n := |invoices| - 1;
    if i < n {
      assert invoices[i := inv][..n] == invoices[..n][i := inv];
      UniqueKept(invoices[..n], i, inv);
      IdKept(invoices[..n], i, inv, invoices[n].id);
    } else {
      assert invoices[i := inv][..n] == invoices[..n];
    }
  }

  lemma {:induction false} FoundInvoice(invoices: seq<Invoice>, k: nat)
    requires UniqueIds(invoices) && k < |invoices|
    ensures FindInvoice(invoices, invoices[k].id) == Some(k)
  {
    var n := |invoices| - 1;
    if k < n {
      FoundInvoice(invoices[..n], k);
      assert invoices[..n][k].id == invoices[k].id;
    }
  }

  // ----- the steps -----

  /** One invoice changed, the ledger as it was. */
  lemma InvoiceChanged(b: Books, i: nat, inv: Invoice, sub: Subscription)
    requires Consistent(b) && i < |b.invoices| && inv.id == b.invoices[i].id && Settled(b.wallet.entries, inv)
    ensures Consistent(b.(invoices := b.invoices[i := inv], sub := sub))
  {
    UniqueKept(b.invoices, i, inv);
    forall j | 0 <= j < |b.wallet.entries| && b.wallet.entries[j].invoice.Some?
      ensures FindInvoice(b.invoices[i := inv], b.wallet.entries[j].invoice.value).Some?
    {
      IdKept(b.invoices, i, inv, b.wallet.entries[j].invoice.value);
    }
  }

  /** One row booked that concerns no invoice. */
  lemma NeutralRow(b: Books, w: Wallet, e: Entry)
    requires Consistent(b) && Sound(w) && w.entries == b.wallet.entries + [e] && e.invoice.None? && e.reverses.None?
    ensures Consistent(b.(wallet := w))
  {
    KeyedAppend(b.wallet.entries, e);
    forall k | 0 <= k < |b.invoices| ensures Settled(w.entries, b.invoices[k]) {
      var p := FindPayment(b.wallet.entries, b.invoices[k].id);
      RowAdded(b.wallet.entries, e, b.invoices[k].id, if p.Some? then p.value else 0);
    }
  }

  /** A payment row booked and its invoice marked paid. */
  lemma PaymentBooked(b: Books, w: Wallet, e: Entry, i: nat, sub: Subscription)
    requires Consistent(b) && Sound(w) && w.entries == b.wallet.entries + [e] && KeyedRow(e) && e.reverses.None?
    requires i < |b.invoices| && e.invoice == Some(b.invoices[i].id) && e.amount == b.invoices[i].total
    requires FindPayment(b.wallet.entries, b.invoices[i].id).None?
    ensures Consistent(Books(w, b.invoices[i := MarkedPaid(b.invoices[i]).(attempt := Succeeded)], sub))
  {
    var es, inv := b.wallet.entries, MarkedPaid(b.invoices[i]).(attempt := Succeeded);
    var after := b.invoices[i := inv];
    KeyedAppend(es, e);
    UniqueKept(b.invoices, i, inv);
    forall k | 0 <= k < |after| ensures Settled(w.entries, after[k]) {
      var p := FindPayment(es, after[k].id);
      RowAdded(es, e, after[k].id, if p.Some? then p.value else |es|);
      FoundInvoice(b.invoices, k);
      FoundInvoice(b.invoices, i);
      if k == i { NoReversalYet(b.wallet, |es|); }
    }
    forall j | 0 <= j < |w.entries| && w.entries[j].invoice.Some? ensures FindInvoice(after, w.entries[j].invoice.value).Some? {
      IdKept(b.invoices, i, inv, w.entries[j].invoice.value);
      FoundInvoice(b.invoices, i);
    }
  }

  lemma {:induction false} NoReversalIn(es: seq<Entry>, row: nat)
    requires SoundEntries(es) && |es| <= row
    ensures FindReversal(es, row).None?
  {
    if es != [] { NoReversalIn(es[..|es| - 1], row); }
  }

  lemma NoReversalYet(w: Wallet, row: nat)
    requires Sound(w) && |w.entries| <= row
    ensures FindReversal(w.entries, row).None?
  {
    NoReversalIn(w.entries, row);
  }

  /** A reversal booked for a row that paid invoice i, and the invoice reopened. */
  lemma PaymentReversed(b: Books, w: Wallet, e: Entry, row: nat, i: nat, sub: Subscription)
    requires Consistent(b) && Sound(w) && w.entries == b.wallet.entries + [e] && e.invoice.None? && e.reverses == Some(row)
    requires row < |b.wallet.entries| && i < |b.invoices| && b.wallet.entries[row].invoice == Some(b.invoices[i].id)
    ensures Consistent(Books(w, b.invoices[i := Reopened(b.invoices[i])], sub))
  {
    var es, inv := b.wallet.entries, Reopened(b.invoices[i]);
    var after := b.invoices[i := inv];
    KeyedAppend(es, e);
    UniqueKept(b.invoices, i, inv);
    forall k | 0 <= k < |after| ensures Settled(w.entries, after[k]) {
      var p := FindPayment(es, after[k].id);
      RowAdded(es, e, after[k].id, if p.Some? then p.value else 0);
      FoundInvoice(b.invoices, k);
      FoundInvoice(b.invoices, i);
      if k == i { TheOnlyPayment(es, row, b.invoices[i].id); }
    }
    forall j | 0 <= j < |w.entries| && w.entries[j].invoice.Some? ensures FindInvoice(after, w.entries[j].invoice.value).Some? {
      IdKept(b.invoices, i, inv, w.entries[j].invoice.value);
    }
  }

  lemma TheOnlyPayment(es: seq<Entry>, row: nat, id: string)
    requires SoundEntries(es) && Keyed(es) && row < |es| && es[row].invoice == Some(id)
    ensures FindPayment(es, id) == Some(row)
  {
    PaymentFoundIffPresent(es, id);
    var p := FindPayment(es, id).value;
    if p < row { OnePaymentRow(es, p, row); }
    if row < p { OnePaymentRow(es, row, p); }
  }

  /** A reversal booked for a row that paid nothing. */
  lemma OtherReversed(b: Books, w: Wallet, e: Entry, row: nat)
    requires Consistent(b) && Sound(w) && w.entries == b.wallet.entries + [e] && e.invoice.None? && e.reverses == Some(row)
    requires row < |b.wallet.entries| && b.wallet.entries[row].invoice.None?
    ensures Consistent(b.(wallet := w))
  {
    KeyedAppend(b.wallet.entries, e);
    forall k | 0 <= k < |b.invoices| ensures Settled(w.entries, b.invoices[k]) {
      var p := FindPayment(b.wallet.entries, b.invoices[k].id);
      RowAdded(b.wallet.entries, e, b.invoices[k].id, if p.Some? then p.value else 0);
    }
  }

  /** Charging either finds the invoice's own row or books a new one. */
  lemma ChargeOutcome(w: Wallet, id: string, required: int) returns (e: Entry)
    requires Keyed(w.entries) && Charge(w, id, required).1.Ok? && Charge(w, id, required).1.value.Some?
    ensures FindPayment(w.entries, id).Some? ==> Charge(w, id, required).0 == w
    ensures FindPayment(w.entries, id).None? ==>
      Charge(w, id, required).0 == w.(balance := w.balance - required, version := w.version + 1, entries := w.entries + [e])
    ensures FindPayment(w.entries, id).None? ==> KeyedRow(e) && e.reverses.None? && e.invoice == Some(id) && e.amount == required
  {
    PaymentFoundIffPresent(w.entries, id);
    if FindPayment(w.entries, id).Some? { PaidUnderKey(w.entries, id); }
    e := Charge(w, id, required).0.entries[|Charge(w, id, required).0.entries| - 1];
  }

  lemma PayConsistent(terms: Terms, b: Books, i: nat, now: Stamp)
    requires Consistent(b)
    ensures Consistent(Pay(terms, b, i, now).0)
  {
    var c := Pay(terms, b, i, now).0;
    if c != b {
      var inv := b.invoices[i];
      var (w, charged) := Charge(b.wallet, inv.id, inv.due);
      if charged.value.None? {
        InvoiceChanged(b, i, inv.(attempt := Failed), c.sub);
      } else {
        var e := ChargeOutcome(b.wallet, inv.id, inv.due);
        if w == b.wallet {
          InvoiceChanged(b, i, MarkedPaid(inv).(attempt := Succeeded), c.sub);
        } else {
          DeliverSound(b.wallet, ChargeRequest(inv.id, inv.due));
          PaymentBooked(b, w, e, i, c.sub);
        }
      }
    }
  }

  /** The reversal is not asked for under a key that is already in the ledger. */
  predicate FreshReversal(b: Books, row: nat, key: string) {
    FindReversal(b.wallet.entries, row).None? && CleanKey(key).Ok? ==> FindKey(b.wallet.entries, CleanKey(key).value).None?
  }

  lemma ReverseConsistent(terms: Terms, b: Books, row: nat, key: string, refusal: Option<string>, now: Stamp)
    requires Consistent(b) && FreshReversal(b, row, key)
    ensures Consistent(ReversePayment(terms, b, row, key, refusal, now).0)
  {
    var c := ReversePayment(terms, b, row, key, refusal, now).0;
    if c != b {
      var es := b.wallet.entries;
      DeliverSound(b.wallet, ReverseRequest(row, key, refusal));
      KeyedAt(es, row);
      var e := c.wallet.entries[|es|];
      var i := PaidInvoice(b, row);
      if i.Some? { PaymentReversed(b, c.wallet, e, row, i.value, c.sub); } else { OtherReversed(b, c.wallet, e, row); }
    }
  }

  lemma GenerateConsistent(b: Books, id: string, total: int, now: Stamp)
    requires Consistent(b)
    ensures Consistent(Generate(b, id, total, now).0)
  {
    var c := Generate(b, id, total, now).0;
    if c != b {
      assert c.invoices[..|b.invoices|] == b.invoices;
      PaymentFoundIffPresent(b.wallet.entries, id);
    }
  }

  lemma IssueConsistent(b: Books, i: nat)
    requires Consistent(b)
    ensures Consistent(Issue(b, i).0)
  {
    if i < |b.invoices| && b.invoices[i].status.Draft? { InvoiceChanged(b, i, b.invoices[i].(status := Open), b.sub); }
  }

  lemma CurrentConsistent(b: Books, id: string, total: int, now: Stamp)
    requires Consistent(b)
    ensures Consistent(CurrentInvoice(b, id, total, now).0)
  {
    var found := FindPeriod(b.invoices, b.sub.periodStart, b.sub.periodEnd);
    GenerateConsistent(b, id, total, now);
    if found.Some? {
      IssueConsistent(b, found.value);
    } else {
      IssueConsistent(Generate(b, id, total, now).0, |b.invoices|);
    }
  }

  lemma RenewConsistent(terms: Terms, b: Books, id: string, total: int, now: Stamp)
    requires Consistent(b)
    ensures Consistent(Renew(terms, b, id, total, now).0)
  {
    CurrentConsistent(b, id, total, now);
    var (c, i) := CurrentInvoice(b, id, total, now);
    if i.Ok? { PayConsistent(terms, c, i.value, now); }
  }

  lemma {:induction false} RetryConsistent(terms: Terms, b: Books, due: seq<nat>, now: Stamp)
    requires Consistent(b)
    ensures Consistent(RetryEach(terms, b, due, now).0)
    decreases |due|
  {
    if due != [] {
      PayConsistent(terms, b, due[0], now);
      RetryConsistent(terms, Pay(terms, b, due[0], now).0, due[1..], now);
    }
  }

  lemma TrialTickConsistent(terms: Terms, b: Books, id: string, total: int, counts: Counts, now: Stamp)
    requires Consistent(b)
    ensures Consistent(TickTrial(terms, b, id, total, counts, now).0)
  {
    RenewConsistent(terms, b, id, total, now);
  }

  lemma RenewalTickConsistent(terms: Terms, b: Books, id: string, total: int, counts: Counts, now: Stamp)
    requires Consistent(b)
    ensures Consistent(TickRenewal(terms, b, id, total, counts, now).0)
  {
    RenewConsistent(terms, b, id, total, now);
  }

  /** The daily task keeps invoices and ledger in agreement, wherever it stops. */
  lemma TickConsistent(terms: Terms, b: Books, first: (string, int), second: (string, int), now: Stamp)
    requires Consistent(b)
    ensures Consistent(Tick(terms, b, first, second, now).0)
  {
    var (c, r) := TickTrial(terms, b, first.0, first.1, Counts(0, 0, 0, 0), now);
    TrialTickConsistent(terms, b, first.0, first.1, Counts(0, 0, 0, 0), now);
    if r.Ok? { RenewalTickConsistent(terms, c, second.0, second.1, r.value, now); }
  }

  /** Requests other than charges and reversals book at most a row that concerns no invoice. */
  lemma PlainRow(w: Wallet, x: Request)
    requires !x.ReverseRequest? && !x.ChargeRequest? && Deliver(w, x).0.entries != w.entries
    ensures |Deliver(w, x).0.entries| == |w.entries| + 1
    ensures Deliver(w, x).0.entries == w.entries + [Deliver(w, x).0.entries[|w.entries|]]
    ensures Deliver(w, x).0.entries[|w.entries|].invoice.None? && Deliver(w, x).0.entries[|w.entries|].reverses.None?
  {
  }

  lemma WalletStepConsistent(b: Books, x: Request)
    requires Consistent(b) && !x.ReverseRequest? && !x.ChargeRequest?
    ensures Consistent(b.(wallet := Deliver(b.wallet, x).0))
  {
    var w := Deliver(b.wallet, x).0;
    DeliverSound(b.wallet, x);
    if w.entries != b.wallet.entries {
      PlainRow(b.wallet, x);
      NeutralRow(b, w, w.entries[|b.wallet.entries|]);
    } else {
      WalletStatusChanged(b, w);
    }
  }

  lemma WalletStatusChanged(b: Books, w: Wallet)
    requires Consistent(b) && Sound(w) && w.entries == b.wallet.entries
    ensures Consistent(b.(wallet := w))
  {
  }

  lemma InvoiceStepConsistent(terms: Terms, b: Books, x: Booking)
    requires Consistent(b) && (x.event.IssueEvent? || x.event.MarkPaidEvent? || x.event.VoidEvent?)
    ensures Consistent(Step(terms, b, x))
  {
    var c, i := Step(terms, b, x), x.event.invoice;
    if c != b { InvoiceChanged(b, i, c.invoices[i], c.sub); }
  }

  predicate FreshReversalEvent(b: Books, e: Event) { e.ReverseEvent? ==> FreshReversal(b, e.row, e.key) }

  lemma SubscriptionChanged(b: Books, sub: Subscription)
    requires Consistent(b)
    ensures Consistent(b.(sub := sub))
  {
  }

  lemma StepConsistent(terms: Terms, b: Books, x: Booking)
    requires Consistent(b) && FreshReversalEvent(b, x.event)
    ensures Consistent(Step(terms, b, x))
  {
    match x.event
    case RenewEvent(id, total) => RenewConsistent(terms, b, id, total, x.now);
    case RetryEvent => RetryConsistent(terms, b, DueList(terms, b, x.now), x.now);
    case PayEvent(i) => PayConsistent(terms, b, i, x.now);
    case ReverseEvent(row, key, refusal) => ReverseConsistent(terms, b, row, key, refusal, x.now);
    case IssueEvent(_) => InvoiceStepConsistent(terms, b, x);
    case MarkPaidEvent(_, _) => InvoiceStepConsistent(terms, b, x);
    case VoidEvent(_) => InvoiceStepConsistent(terms, b, x);
    case CreditEvent(amount, key, kind, refusal) => WalletStepConsistent(b, CreditRequest(amount, key, kind, refusal));
    case DebitEvent(amount, key, refusal) => WalletStepConsistent(b, DebitRequest(amount, key, refusal));
    case FreezeEvent(frozen, refusal) => WalletStepConsistent(b, FreezeRequest(frozen, refusal));
    case GraceExpiryEvent => SubscriptionChanged(b, Step(terms, b, x).sub);
    case FailureEvent => SubscriptionChanged(b, Step(terms, b, x).sub);
  }

  ghost predicate FreshReversals(terms: Terms, start: Subscription, log: seq<Booking>) {
    log != [] ==>
      var front := log[..|log| - 1];
      FreshReversals(terms, start, front) && FreshReversalEvent(AfterLog(terms, start, front), log[|log| - 1].event)
  }

  lemma {:induction false} AlwaysConsistent(terms: Terms, start: Subscription, log: seq<Booking>)
    requires FreshReversals(terms, start, log)
    ensures Consistent(AfterLog(terms, start, log))
  {
    if log != [] {
      var front := log[..|log| - 1];
      AlwaysConsistent(terms, start, front);
      StepConsistent(terms, AfterLog(terms, start, front), log[|log| - 1]);
    }
  }
}
