/** What each billing transaction of one wallet-paid subscription does to its wallet, invoices and period. */
module Invoices {
  import opened Totals
  import opened Periods
  import opened Ledger
  import Ordering

  datatype InvoiceStatus = Draft | Open | Paid | Void

  /** The status of the invoice's wallet payment attempt. */
  datatype Attempt = Untried | Failed | Succeeded | Refunded

  datatype Invoice = Invoice(
    id: string, periodStart: Stamp, periodEnd: Stamp, total: int, paid: int, due: int,
    status: InvoiceStatus, dueAt: Stamp, attempt: Attempt)

  datatype SubscriptionStatus = Trialing | InForce | PastDue | Grace | Paused | Cancelled | Expired | ManuallyManaged

  datatype Subscription = Subscription(
    status: SubscriptionStatus, periodStart: Stamp, periodEnd: Stamp, trialEndsAt: Option<Stamp>, graceEndsAt: Option<Stamp>)

  /** What does not change during a run: billing interval, grace days, payment source and provider. */
  datatype Terms = Terms(interval: Interval, graceDays: nat, fromWallet: bool, manualProvider: bool)

  /** Invoices are never removed and are listed in order of creation. */
  datatype Books = Books(wallet: Wallet, invoices: seq<Invoice>, sub: Subscription)

  function HasId(id: string): Invoice -> bool { (x: Invoice) => x.id == id }

  function FindInvoice(invoices: seq<Invoice>, id: string): (r: Option<nat>)
    ensures r.Some? ==> r.value < |invoices| && invoices[r.value].id == id
    ensures r.None? ==> forall k :: 0 <= k < |invoices| ==> invoices[k].id != id
  {
    FindSpec(HasId(id), invoices);
    Find(HasId(id), invoices)
  }

  function HasPeriod(start: Stamp, end: Stamp): Invoice -> bool { (x: Invoice) => x.periodStart == start && x.periodEnd == end }

  /** The newest invoice for exactly the given period. */
  function FindPeriod(invoices: seq<Invoice>, start: Stamp, end: Stamp): (r: Option<nat>)
    ensures r.Some? ==> r.value < |invoices| && invoices[r.value].periodStart == start && invoices[r.value].periodEnd == end
    ensures r.None? ==> forall k :: 0 <= k < |invoices| ==> invoices[k].periodStart != start || invoices[k].periodEnd != end
  {
    FindSpec(HasPeriod(start, end), invoices);
    Find(HasPeriod(start, end), invoices)
  }

  function Pays(id: string): Entry -> bool { (e: Entry) => e.invoice == Some(id) && e.kind.SubscriptionPayment? }

  /** The completed subscription payment of an invoice. */
  function FindPayment(es: seq<Entry>, id: string): (r: Option<nat>)
    ensures r.Some? ==> r.value < |es| && es[r.value].invoice == Some(id) && es[r.value].kind.SubscriptionPayment?
  {
    Find(Pays(id), es)
  }

  // ----- subscriptions -----

  predicate TrialOver(sub: Subscription, now: Stamp) {
    sub.status.Trialing? && sub.trialEndsAt.Some? && NotAfter(sub.trialEndsAt.value, now)
  }

  predicate GraceOver(sub: Subscription, now: Stamp) {
    sub.status.Grace? && sub.graceEndsAt.Some? && NotAfter(sub.graceEndsAt.value, now)
  }

  /** `recover_payment`. */
  function Recovered(sub: Subscription): Subscription {
    if sub.status.PastDue? || sub.status.Grace? || sub.status.Paused? then sub.(status := InForce, graceEndsAt := None) else sub
  }

  function InGrace(terms: Terms, sub: Subscription, now: Stamp): Subscription {
    sub.(status := Grace, graceEndsAt := AddDays(now, terms.graceDays))
  }

  /** The subscription half of `_insufficient_attempt`. */
  function AfterShortfall(terms: Terms, sub: Subscription, now: Stamp): Subscription {
    if sub.status.Grace? || sub.status.Paused? || sub.status.Cancelled? || sub.status.Expired? then sub else InGrace(terms, sub, now)
  }

  /** The subscription half of a reversed payment. */
  function AfterReversal(terms: Terms, sub: Subscription, now: Stamp): Subscription {
    if sub.status.Cancelled? || sub.status.Expired? then sub else InGrace(terms, sub, now)
  }

  /** Whether paying an invoice whose period ends at `end` moves the subscription on. */
  predicate Advances(sub: Subscription, end: Stamp, now: Stamp) {
    NotAfter(sub.periodEnd, end) && NotAfter(sub.periodEnd, now)
  }

  /** The subscription half of a successful wallet payment; None where the next period end cannot be computed. */
  function AfterPayment(terms: Terms, sub: Subscription, end: Stamp, now: Stamp): Option<Subscription> {
    var kept := if sub.status.Trialing? then sub.(status := InForce, graceEndsAt := None) else Recovered(sub);
    if !Advances(sub, end, now) then Some(kept)
    else
      var next := PeriodEnd(end, terms.interval);
      if next.None? then None else Some(kept.(periodStart := end, periodEnd := next.value))
  }

  /** `expire_grace`. */
  function ExpireGrace(b: Books, now: Stamp): Books {
    if GraceOver(b.sub, now) then b.(sub := b.sub.(status := Paused)) else b
  }

  /** `payment_failed`. */
  function PaymentFailed(terms: Terms, b: Books, now: Stamp): Books { b.(sub := InGrace(terms, b.sub, now)) }

  // ----- invoices -----

  /** `generate_invoice` for the current period, due at once; ids are primary keys. */
  function Generate(b: Books, id: string, total: int, now: Stamp): (Books, Result<nat>) {
    if FindInvoice(b.invoices, id).Some? then (b, Err("integrity_error"))
    else
      var inv := Invoice(id, b.sub.periodStart, b.sub.periodEnd, total, 0, total, Draft, now, Untried);
      (b.(invoices := b.invoices + [inv]), Ok(|b.invoices|))
  }

  /** `issue_invoice`. */
  function Issue(b: Books, i: nat): (Books, Result<bool>) {
    if |b.invoices| <= i then (b, Err("resource_not_found"))
    else if b.invoices[i].status.Open? then (b, Ok(false))
    else if !b.invoices[i].status.Draft? then (b, Err("invoice_transition_invalid"))
    else (b.(invoices := b.invoices[i := b.invoices[i].(status := Open)]), Ok(true))
  }

  function MarkedPaid(inv: Invoice): Invoice { inv.(status := Paid, paid := inv.total, due := 0) }

  /** `mark_invoice_paid`. */
  function MarkPaid(terms: Terms, b: Books, i: nat, reviewed: bool): (Books, Result<bool>) {
    if |b.invoices| <= i then (b, Err("resource_not_found"))
    else if b.invoices[i].status.Paid? then (b, Ok(false))
    else if !b.invoices[i].status.Open? then (b, Err("invoice_transition_invalid"))
    else if terms.manualProvider && !reviewed then (b, Err("manual_review_required"))
    else (b.(invoices := b.invoices[i := MarkedPaid(b.invoices[i])], sub := Recovered(b.sub)), Ok(true))
  }

  /** `void_invoice`. */
  function VoidInvoice(b: Books, i: nat): (Books, Result<bool>) {
    if |b.invoices| <= i then (b, Err("resource_not_found"))
    else if b.invoices[i].status.Void? then (b, Ok(false))
    else if b.invoices[i].status.Paid? then (b, Err("invoice_transition_invalid"))
    else (b.(invoices := b.invoices[i := b.invoices[i].(status := Void, due := 0)]), Ok(true))
  }

  /** `pay_invoice_from_wallet`; Ok(false) when the balance did not suffice.  An error rolls everything back. */
  function Pay(terms: Terms, b: Books, i: nat, now: Stamp): (Books, Result<bool>) {
    if |b.invoices| <= i then (b, Err("resource_not_found"))
    else
      var inv := b.invoices[i];
      if inv.status.Paid? && FindPayment(b.wallet.entries, inv.id).Some? then (b, Ok(true))
      else if !inv.status.Open? then (b, Err("invoice_transition_invalid"))
      else if !terms.fromWallet then (b, Err("wallet_payment_source_required"))
      else
        var (wallet, charged) := Charge(b.wallet, inv.id, inv.due);
        if charged.Err? then (b, Err(charged.code))
        else if charged.value.None? then
          (b.(invoices := b.invoices[i := inv.(attempt := Failed)], sub := AfterShortfall(terms, b.sub, now)), Ok(false))
        else
          var sub := AfterPayment(terms, b.sub, inv.periodEnd, now);
          if sub.None? then (b, Err("value_error"))
          else (Books(wallet, b.invoices[i := MarkedPaid(inv).(attempt := Succeeded)], sub.value), Ok(true))
  }

  function Reopened(inv: Invoice): Invoice { inv.(status := Open, paid := 0, due := inv.total, attempt := Refunded) }

  /** The invoice a ledger row paid. */
  function PaidInvoice(b: Books, row: nat): Option<nat> {
    if row < |b.wallet.entries| && b.wallet.entries[row].invoice.Some? && b.wallet.entries[row].kind.SubscriptionPayment?
    then FindInvoice(b.invoices, b.wallet.entries[row].invoice.value) else None
  }

  /** `reverse_transaction`: the ledger half, then the paid invoice is reopened, whichever row answered the key. */
  function ReversePayment(terms: Terms, b: Books, row: nat, key: string, refusal: Option<string>, now: Stamp): (Books, Result<nat>) {
    var (wallet, r) := Reverse(b.wallet, row, key, refusal);
    if r.Err? || FindReversal(b.wallet.entries, row).Some? then (b, r)
    else
      var i := PaidInvoice(b, row);
      if i.None? then (b.(wallet := wallet), r)
      else (Books(wallet, b.invoices[i.value := Reopened(b.invoices[i.value])], AfterReversal(terms, b.sub, now)), r)
  }

  predicate RenewalDue(sub: Subscription, now: Stamp) {
    TrialOver(sub, now) || NotAfter(sub.periodEnd, now)
  }

  /** The invoice for the current period, generated and issued if need be. */
  function CurrentInvoice(b: Books, id: string, total: int, now: Stamp): (Books, Result<nat>) {
    var found := FindPeriod(b.invoices, b.sub.periodStart, b.sub.periodEnd);
    var (c, i) := if found.Some? then (b, Ok(found.value)) else Generate(b, id, total, now);
    if i.Err? then (b, i)
    else if i.value < |c.invoices| && c.invoices[i.value].status.Draft? then (Issue(c, i.value).0, i)
    else (c, i)
  }

  /** `process_wallet_renewal`; `id` and `total` are those of the invoice it may have to generate. */
  function Renew(terms: Terms, b: Books, id: string, total: int, now: Stamp): (Books, Result<bool>) {
    if !terms.fromWallet then (b, Err("wallet_payment_source_required"))
    else if !RenewalDue(b.sub, now) then (b, Err("subscription_not_due"))
    else
      var (c, i) := CurrentInvoice(b, id, total, now);
      if i.Err? then (b, Err(i.code))
      else
        var (d, r) := Pay(terms, c, i.value, now);
        if r.Err? then (b, r) else (d, r)
  }

  // ----- retrying -----

  function DueKey(invoices: seq<Invoice>): nat -> Ordering.Key {
    (i: nat) => Ordering.Key(if i < |invoices| then Ordinal(invoices[i].dueAt) else 0, i)
  }

  predicate IsDue(inv: Invoice, now: Stamp) { inv.status.Open? && 0 < inv.due && NotAfter(inv.dueAt, now) }

  /** The positions below n of the invoices due for a retry. */
  function DueBelow(invoices: seq<Invoice>, n: nat, now: Stamp): seq<nat>
    requires n <= |invoices|
  {
    if n == 0 then [] else DueBelow(invoices, n - 1, now) + if IsDue(invoices[n - 1], now) then [n - 1] else []
  }

  /** The first hundred due invoices by due date and creation. */
  function DueList(terms: Terms, b: Books, now: Stamp): seq<nat> {
    var all := Ordering.UniqueSorted(DueKey(b.invoices), if terms.fromWallet then DueBelow(b.invoices, |b.invoices|, now) else []);
    if 100 < |all| then all[..100] else all
  }

  lemma {:induction false} DueBelowMembers(invoices: seq<Invoice>, n: nat, now: Stamp)
    requires n <= |invoices|
    ensures forall i: nat :: i in DueBelow(invoices, n, now) <==> i < n && IsDue(invoices[i], now)
  {
    if 0 < n { DueBelowMembers(invoices, n - 1, now); }
  }

  /** Paid from a wallet, open, with something due whose date has come. */
  predicate ToRetry(terms: Terms, b: Books, i: nat, now: Stamp) {
    && terms.fromWallet && i < |b.invoices| && b.invoices[i].status == Open
    && 0 < b.invoices[i].due && !Before(now, b.invoices[i].dueAt)
  }

  /** Invoice i is due before j, or no later and made before it. */
  predicate DueEarlier(invoices: seq<Invoice>, i: nat, j: nat) {
    && i < |invoices| && j < |invoices|
    && (Before(invoices[i].dueAt, invoices[j].dueAt) || (i < j && !Before(invoices[j].dueAt, invoices[i].dueAt)))
  }

  lemma DueEarlierIsLess(invoices: seq<Invoice>, i: nat, j: nat)
    requires i < |invoices| && j < |invoices|
    ensures Ordering.Less(DueKey(invoices)(i), DueKey(invoices)(j)) <==> DueEarlier(invoices, i, j)
  {
  }

  lemma DueListIsSorted(terms: Terms, b: Books, now: Stamp)
    ensures var key, due := DueKey(b.invoices), DueList(terms, b, now);
      && Ordering.StrictlySorted(key, due) && |due| <= 100
      && (forall i: nat :: i in due ==> ToRetry(terms, b, i, now))
      && (forall i: nat :: ToRetry(terms, b, i, now) && i !in due ==> |due| == 100 && forall j: nat :: j in due ==> Ordering.Less(key(j), key(i)))
  {
    var key, rows := DueKey(b.invoices), if terms.fromWallet then DueBelow(b.invoices, |b.invoices|, now) else [];
    var all, due := Ordering.UniqueSorted(key, rows), DueList(terms, b, now);
    DueBelowMembers(b.invoices, |b.invoices|, now);
    Ordering.UniqueSortedSpec(key, rows);
    forall i: nat | i in all && i !in due ensures |due| == 100 && forall j: nat :: j in due ==> Ordering.Less(key(j), key(i)) {
      var k :| 0 <= k < |all| && all[k] == i;
      assert forall j :: 0 <= j < |due| ==> due[j] == all[j];
    }
  }

  /** The invoices to retry, the earliest due first, and at most a hundred; one left out comes after a hundred others. */
  ghost predicate RetryList(terms: Terms, b: Books, due: seq<nat>, now: Stamp) {
    && |due| <= 100
    && (forall i: nat :: i in due ==> ToRetry(terms, b, i, now))
    && (forall m, n :: 0 <= m < n < |due| ==> DueEarlier(b.invoices, due[m], due[n]))
    && (forall i: nat :: ToRetry(terms, b, i, now) && i !in due ==> |due| == 100 && forall j: nat :: j in due ==> DueEarlier(b.invoices, j, i))
  }

  lemma DueListSpec(terms: Terms, b: Books, now: Stamp)
    ensures RetryList(terms, b, DueList(terms, b, now), now)
  {
    var due := DueList(terms, b, now);
    DueListIsSorted(terms, b, now);
    forall m, n | 0 <= m < n < |due| ensures DueEarlier(b.invoices, due[m], due[n]) {
      assert due[m] in due && due[n] in due;
      DueEarlierIsLess(b.invoices, due[m], due[n]);
    }
    forall i: nat, j: nat | ToRetry(terms, b, i, now) && i !in due && j in due ensures DueEarlier(b.invoices, j, i) {
      DueEarlierIsLess(b.invoices, j, i);
    }
  }

  /** The loop of `retry_due_invoices`: up to the first that is not paid or raises; the payments before it stand. */
  function RetryEach(terms: Terms, b: Books, due: seq<nat>, now: Stamp): (Books, Result<nat>)
    decreases |due|
  {
    if due == [] then (b, Ok(0))
    else
      var (c, r) := Pay(terms, b, due[0], now);
      if r.Err? then (c, Err(r.code))
      else if !r.value then (c, Ok(1))
      else
        var (d, s) := RetryEach(terms, c, due[1..], now);
        (d, if s.Ok? then Ok(s.value + 1) else s)
  }

  /** `retry_due_invoices`, with the number of results. */
  function RetryDue(terms: Terms, b: Books, now: Stamp): (Books, Result<nat>) {
    RetryEach(terms, b, DueList(terms, b, now), now)
  }

  // ----- the daily task -----

  datatype Counts = Counts(trialExpired: nat, renewed: nat, walletDue: nat, graceExpired: nat)

  function CountRenewal(counts: Counts, paid: bool): Counts {
    if paid then counts.(renewed := counts.renewed + 1) else counts.(walletDue := counts.walletDue + 1)
  }

  /** The first loop of `process_billing_lifecycle`: a trial that is over is renewed, or failed when there is no wallet. */
  function TickTrial(terms: Terms, b: Books, id: string, total: int, counts: Counts, now: Stamp): (Books, Result<Counts>) {
    if !TrialOver(b.sub, now) then (b, Ok(counts))
    else if !terms.fromWallet then (PaymentFailed(terms, b, now), Ok(counts.(trialExpired := counts.trialExpired + 1)))
    else
      var (c, r) := Renew(terms, b, id, total, now);
      if r.Err? then (c, Err(r.code))
      else (c, Ok(CountRenewal(counts, r.value).(trialExpired := counts.trialExpired + 1)))
  }

  /** The second loop: an active wallet subscription past its period end is renewed. */
  function TickRenewal(terms: Terms, b: Books, id: string, total: int, counts: Counts, now: Stamp): (Books, Result<Counts>) {
    if !b.sub.status.InForce? || !NotAfter(b.sub.periodEnd, now) || !terms.fromWallet then (b, Ok(counts))
    else
      var (c, r) := Renew(terms, b, id, total, now);
      if r.Err? then (c, Err(r.code)) else (c, Ok(CountRenewal(counts, r.value)))
  }

  /** `process_billing_lifecycle` for one subscription; an error stops it, and what was done before stands. */
  function Tick(terms: Terms, b: Books, first: (string, int), second: (string, int), now: Stamp): (Books, Result<Counts>) {
    var (c, r) := TickTrial(terms, b, first.0, first.1, Counts(0, 0, 0, 0), now);
    if r.Err? then (c, r)
    else
      var (d, s) := TickRenewal(terms, c, second.0, second.1, r.value, now);
      if s.Err? || !GraceOver(d.sub, now) then (d, s)
      else (ExpireGrace(d, now), Ok(s.value.(graceExpired := s.value.graceExpired + 1)))
  }

  // ----- runs -----

  datatype Event =
    | RenewEvent(id: string, total: int)
    | RetryEvent
    | PayEvent(invoice: nat)
    | ReverseEvent(row: nat, key: string, refusal: Option<string>)
    | IssueEvent(invoice: nat)
    | MarkPaidEvent(invoice: nat, reviewed: bool)
    | VoidEvent(invoice: nat)
    | CreditEvent(amount: int, key: string, kind: Kind, refusal: Option<string>)
    | DebitEvent(amount: int, key: string, refusal: Option<string>)
    | FreezeEvent(frozen: bool, refusal: Option<string>)
    | GraceExpiryEvent
    | FailureEvent

  datatype Booking = Booking(event: Event, now: Stamp)

  function Step(terms: Terms, b: Books, x: Booking): Books {
    match x.event
    case RenewEvent(id, total) => Renew(terms, b, id, total, x.now).0
    case RetryEvent => RetryDue(terms, b, x.now).0
    case PayEvent(i) => Pay(terms, b, i, x.now).0
    case ReverseEvent(row, key, refusal) => ReversePayment(terms, b, row, key, refusal, x.now).0
    case IssueEvent(i) => Issue(b, i).0
    case MarkPaidEvent(i, reviewed) => MarkPaid(terms, b, i, reviewed).0
    case VoidEvent(i) => VoidInvoice(b, i).0
    case CreditEvent(amount, key, kind, refusal) => b.(wallet := CreditWallet(b.wallet, amount, key, kind, refusal).0)
    case DebitEvent(amount, key, refusal) => b.(wallet := DebitAdjustment(b.wallet, amount, key, refusal).0)
    case FreezeEvent(frozen, refusal) => b.(wallet := SetFrozen(b.wallet, frozen, refusal).0)
    case GraceExpiryEvent => ExpireGrace(b, x.now)
    case FailureEvent => PaymentFailed(terms, b, x.now)
  }

  /** The books after a log, for a subscription that starts without invoices and with an empty wallet. */
  function AfterLog(terms: Terms, start: Subscription, log: seq<Booking>): Books {
    if log == [] then Books(OPENED, [], start) else Step(terms, AfterLog(terms, start, log[..|log| - 1]), log[|log| - 1])
  }
}
