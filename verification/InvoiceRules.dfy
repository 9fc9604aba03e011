/** What each billing service accepts and what it then writes, said of invoices, subscription and wallet rows alone. */
module InvoiceRules {
  import opened Totals
  import opened Periods
  import opened Ledger
  import opened Invoices
  import opened WalletRules

  // ----- the subscription -----

  /** The subscription is in grace for the agreed days from now; nothing else of it changes. */
  predicate PutInGrace(terms: Terms, before: Subscription, after: Subscription, now: Stamp) {
    after == before.(status := Grace, graceEndsAt := after.graceEndsAt) && DaysLater(now, terms.graceDays, after.graceEndsAt)
  }

  lemma InGraceIs(terms: Terms, sub: Subscription, now: Stamp)
    requires Periods.Valid(now)
    ensures PutInGrace(terms, sub, InGrace(terms, sub, now), now)
  {
    AddDaysIs(now, terms.graceDays);
  }

  /** A restriction is lifted: arrears, grace or pause. */
  predicate Lifted(before: Subscription, after: Subscription) {
    after == if before.status in {PastDue, Grace, Paused} then before.(status := InForce, graceEndsAt := None) else before
  }

  /** A payment ends trial and restriction, and moves the period on when it is over and the invoice is not for an older one. */
  predicate PaidUp(terms: Terms, before: Subscription, after: Subscription, inv: Invoice, now: Stamp) {
    && after.status == (if before.status in {Trialing, PastDue, Grace, Paused} then InForce else before.status)
    && after.graceEndsAt == (if before.status in {Trialing, PastDue, Grace, Paused} then None else before.graceEndsAt)
    && after.trialEndsAt == before.trialEndsAt
    && (if NotAfter(before.periodEnd, now) && !Before(inv.periodEnd, before.periodEnd)
        then after.periodStart == inv.periodEnd && PeriodEnd(inv.periodEnd, terms.interval) == Some(after.periodEnd)
        else after.periodStart == before.periodStart && after.periodEnd == before.periodEnd)
  }

  // ----- one invoice -----

  /** Only invoice i has changed among the invoices. */
  predicate OnlyInvoice(b: Books, c: Books, i: nat) { i < |b.invoices| == |c.invoices| && c.invoices == b.invoices[i := c.invoices[i]] }

  predicate IdKnown(b: Books, id: string) { exists k :: 0 <= k < |b.invoices| && b.invoices[k].id == id }

  /** An invoice is generated exactly under a new id: one more draft, for the current period, due now, nothing paid and all due. */
  lemma GeneratedIff(b: Books, id: string, total: int, now: Stamp)
    ensures var (c, r) := Generate(b, id, total, now);
      && (r.Ok? <==> !IdKnown(b, id)) && (r.Err? ==> c == b)
      && (r.Ok? ==>
           && r.value == |b.invoices| && c == b.(invoices := b.invoices + [c.invoices[|b.invoices|]])
           && var inv := c.invoices[|b.invoices|];
              && inv.id == id && inv.periodStart == b.sub.periodStart && inv.periodEnd == b.sub.periodEnd
              && inv.total == total && inv.due == total && inv.paid == 0
              && inv.status == Draft && inv.dueAt == now && inv.attempt == Untried)
  {
  }

  /** Issuing: a draft becomes open, an open one stays; nothing else can be issued. */
  lemma IssuedIff(b: Books, i: nat)
    ensures var (c, r) := Issue(b, i);
      && (r.Ok? <==> i < |b.invoices| && b.invoices[i].status in {Draft, Open})
      && (r.Ok? ==> OnlyInvoice(b, c, i) && c.invoices[i] == b.invoices[i].(status := Open) && c.wallet == b.wallet && c.sub == b.sub)
      && (r.Err? ==> c == b)
  {
    if i < |b.invoices| && b.invoices[i].status == Open { assert b.invoices == b.invoices[i := b.invoices[i]]; }
  }

  /** Marking paid: an open one, reviewed where the provider is manual; a paid one stays. No money moves, nor does the period. */
  lemma MarkedPaidIff(terms: Terms, b: Books, i: nat, reviewed: bool)
    ensures var (c, r) := MarkPaid(terms, b, i, reviewed);
      && (r.Ok? <==> i < |b.invoices| && (b.invoices[i].status == Paid || (b.invoices[i].status == Open && (terms.manualProvider ==> reviewed))))
      && (r == Ok(true) ==>
           && OnlyInvoice(b, c, i) && c.wallet == b.wallet && Lifted(b.sub, c.sub)
           && c.invoices[i] == b.invoices[i].(status := Paid, paid := b.invoices[i].total, due := 0))
      && (r == Ok(true) <==> r.Ok? && b.invoices[i].status == Open)
      && (r != Ok(true) ==> c == b)
  {
  }

  /** Voiding: a draft or open one, on which nothing is due any more; a void one stays. */
  lemma VoidedIff(b: Books, i: nat)
    ensures var (c, r) := VoidInvoice(b, i);
      && (r.Ok? <==> i < |b.invoices| && b.invoices[i].status != Paid)
      && (r == Ok(true) <==> i < |b.invoices| && b.invoices[i].status in {Draft, Open})
      && (r == Ok(true) ==> OnlyInvoice(b, c, i) && c.invoices[i] == b.invoices[i].(status := Void, due := 0) && c.wallet == b.wallet && c.sub == b.sub)
      && (r != Ok(true) ==> c == b)
  {
  }

  // ----- payment -----

  predicate HasPaymentRow(b: Books, id: string) {
    exists k :: 0 <= k < |b.wallet.entries| && b.wallet.entries[k].kind == SubscriptionPayment && b.wallet.entries[k].invoice == Some(id)
  }

  /** The invoice is open, to be paid from an active wallet, and something is due. */
  predicate Payable(terms: Terms, b: Books, i: nat) {
    i < |b.invoices| && b.invoices[i].status == Open && terms.fromWallet && b.wallet.status == Active && 0 < b.invoices[i].due
  }

  function PaymentOf(id: string): string { "invoice:" + id + ":wallet-payment" }

  /** The balance covers it, and the next period can be computed if the period moves on. */
  ghost predicate Affordable(terms: Terms, b: Books, i: nat, now: Stamp)
    requires i < |b.invoices|
  {
    var inv := b.invoices[i];
    && inv.due <= b.wallet.balance && Accepts(b.wallet, Debit, SubscriptionPayment, inv.due, PaymentOf(inv.id), Some(inv.id))
    && (NotAfter(b.sub.periodEnd, now) && !Before(inv.periodEnd, b.sub.periodEnd) ==> PeriodEnd(inv.periodEnd, terms.interval) != None)
  }

  predicate PaidBefore(b: Books, i: nat) { i < |b.invoices| && b.invoices[i].status == Paid && HasPaymentRow(b, b.invoices[i].id) }

  lemma PaidBeforeIs(b: Books, i: nat)
    ensures PaidBefore(b, i) <==> i < |b.invoices| && b.invoices[i].status == Paid && FindPayment(b.wallet.entries, b.invoices[i].id).Some?
  {
    if i < |b.invoices| { FindSpec(Pays(b.invoices[i].id), b.wallet.entries); }
  }

  /** When payment succeeds, when it falls short, and when it is refused. */
  lemma PaidIff(terms: Terms, b: Books, i: nat, now: Stamp)
    requires Sound(b.wallet)
    ensures Pay(terms, b, i, now).1 == Ok(true) <==> (PaidBefore(b, i) || (Payable(terms, b, i) && Affordable(terms, b, i, now)))
    ensures Pay(terms, b, i, now).1 == Ok(false) <==> (Payable(terms, b, i) && b.wallet.balance < b.invoices[i].due)
    ensures Pay(terms, b, i, now).1.Err? || PaidBefore(b, i) ==> Pay(terms, b, i, now).0 == b
  {
    PaidBeforeIs(b, i);
    if i < |b.invoices| { ChargedIff(b.wallet, b.invoices[i].id, b.invoices[i].due); }
  }

  lemma AfterPaymentIs(terms: Terms, sub: Subscription, inv: Invoice, now: Stamp)
    requires AfterPayment(terms, sub, inv.periodEnd, now).Some?
    ensures PaidUp(terms, sub, AfterPayment(terms, sub, inv.periodEnd, now).value, inv, now)
  {
  }

  lemma PaymentIs(terms: Terms, b: Books, i: nat, now: Stamp)
    requires Payable(terms, b, i) && Pay(terms, b, i, now).1 == Ok(true)
    ensures var inv := b.invoices[i];
      && AfterPayment(terms, b.sub, inv.periodEnd, now).Some? && Charge(b.wallet, inv.id, inv.due).1.Ok? && Charge(b.wallet, inv.id, inv.due).1.value.Some?
      && Pay(terms, b, i, now).0 == Books(Charge(b.wallet, inv.id, inv.due).0, b.invoices[i := MarkedPaid(inv).(attempt := Succeeded)],
                                          AfterPayment(terms, b.sub, inv.periodEnd, now).value)
  {
  }

  /** A payment that goes through: the wallet books the amount due, the invoice is paid in full, the subscription paid up. */
  lemma PaymentWrites(terms: Terms, b: Books, i: nat, now: Stamp) returns (row: nat)
    requires Sound(b.wallet) && Payable(terms, b, i) && Pay(terms, b, i, now).1 == Ok(true)
    ensures var c, inv := Pay(terms, b, i, now).0, b.invoices[i];
      && OnlyInvoice(b, c, i) && c.invoices[i] == inv.(status := Paid, paid := inv.total, due := 0, attempt := Succeeded)
      && PaidUp(terms, b.sub, c.sub, inv, now)
      && WalletRules.Books(b.wallet, c.wallet, row, Debit, SubscriptionPayment, inv.due, PaymentOf(inv.id), Some(inv.id), None)
  {
    PaymentIs(terms, b, i, now);
    AfterPaymentIs(terms, b.sub, b.invoices[i], now);
    ChargedIff(b.wallet, b.invoices[i].id, b.invoices[i].due);
    row := Charge(b.wallet, b.invoices[i].id, b.invoices[i].due).1.value.value;
  }

  /** One that falls short: the attempt has failed, and the subscription goes into grace unless it is restricted or over already. */
  lemma ShortfallWrites(terms: Terms, b: Books, i: nat, now: Stamp)
    requires Sound(b.wallet) && Periods.Valid(now) && Pay(terms, b, i, now).1 == Ok(false)
    ensures i < |b.invoices|
    ensures var c, inv := Pay(terms, b, i, now).0, b.invoices[i];
      && OnlyInvoice(b, c, i) && c.invoices[i] == inv.(attempt := Failed) && c.wallet == b.wallet
      && (if b.sub.status in {Grace, Paused, Cancelled, Expired} then c.sub == b.sub else PutInGrace(terms, b.sub, c.sub, now))
  {
    InGraceIs(terms, b.sub, now);
  }

  /** One yearly payment buys one year: the period that follows ends on the same date a year after the paid one. */
  lemma PaidYear(terms: Terms, b: Books, i: nat, now: Stamp)
    requires Sound(b.wallet) && terms.interval == Year && Payable(terms, b, i) && Pay(terms, b, i, now).1 == Ok(true)
    requires Periods.Valid(b.invoices[i].periodEnd)
    requires NotAfter(b.sub.periodEnd, now) && !Before(b.invoices[i].periodEnd, b.sub.periodEnd)
    ensures var sub, end := Pay(terms, b, i, now).0.sub, b.invoices[i].periodEnd;
      && sub.periodStart == end
      && sub.periodEnd == Stamp(end.year + 1, end.month, if end.month == 2 && end.day == 29 then 28 else end.day, end.time)
  {
    var _ := PaymentWrites(terms, b, i, now);
    YearlyEnd(b.invoices[i].periodEnd);
  }

  // ----- reversal -----

  /** The row has paid invoice k, by the invoice's id. */
  predicate HasPaid(b: Books, row: nat, k: nat) {
    && row < |b.wallet.entries| && b.wallet.entries[row].kind == SubscriptionPayment
    && k < |b.invoices| && b.wallet.entries[row].invoice == Some(b.invoices[k].id)
  }

  /** Reversing a payment reopens its invoice in full, and puts a subscription that is not over into grace. */
  lemma ReversalWrites(terms: Terms, b: Books, row: nat, key: string, refusal: Option<string>, now: Stamp, k: nat)
    requires Periods.Valid(now) && HasPaid(b, row, k) && (forall j :: 0 <= j < |b.invoices| && b.invoices[j].id == b.invoices[k].id ==> j == k)
    requires Reverse(b.wallet, row, key, refusal).1.Ok? && FindReversal(b.wallet.entries, row).None?
    ensures var (c, r) := ReversePayment(terms, b, row, key, refusal, now);
      && (c.wallet, r) == Reverse(b.wallet, row, key, refusal)
      && OnlyInvoice(b, c, k)
      && c.invoices[k] == b.invoices[k].(status := Open, paid := 0, due := b.invoices[k].total, attempt := Refunded)
      && (if b.sub.status in {Cancelled, Expired} then c.sub == b.sub else PutInGrace(terms, b.sub, c.sub, now))
  {
    InGraceIs(terms, b.sub, now);
    assert FindInvoice(b.invoices, b.invoices[k].id).Some?;
  }

  /** A reversal that is refused changes nothing; any other row's, or one reversed before, is the wallet's alone. */
  lemma ReversalOfOther(terms: Terms, b: Books, row: nat, key: string, refusal: Option<string>, now: Stamp)
    requires Reverse(b.wallet, row, key, refusal).1.Err? || FindReversal(b.wallet.entries, row).Some? || forall k: nat :: !HasPaid(b, row, k)
    ensures var (c, r) := ReversePayment(terms, b, row, key, refusal, now);
      r == Reverse(b.wallet, row, key, refusal).1 && c == b.(wallet := Reverse(b.wallet, row, key, refusal).0)
  {
    var i := PaidInvoice(b, row);
    if i.Some? { assert HasPaid(b, row, i.value); }
  }

  // ----- failure and grace -----

  lemma FailureWrites(terms: Terms, b: Books, now: Stamp)
    requires Periods.Valid(now)
    ensures PaymentFailed(terms, b, now) == b.(sub := PaymentFailed(terms, b, now).sub)
    ensures PutInGrace(terms, b.sub, PaymentFailed(terms, b, now).sub, now)
  {
    InGraceIs(terms, b.sub, now);
  }

  /** A grace period that is over pauses the subscription. */
  lemma GraceExpiryWrites(b: Books, now: Stamp)
    ensures ExpireGrace(b, now) ==
      if b.sub.status == Grace && b.sub.graceEndsAt.Some? && !Before(now, b.sub.graceEndsAt.value) then b.(sub := b.sub.(status := Paused)) else b
  {
  }

  // ----- renewal -----

  /** The trial is over, or the period. */
  predicate Due(sub: Subscription, now: Stamp) {
    (sub.status == Trialing && sub.trialEndsAt.Some? && !Before(now, sub.trialEndsAt.value)) || !Before(now, sub.periodEnd)
  }

  predicate ForPeriod(b: Books, k: nat) {
    k < |b.invoices| && b.invoices[k].periodStart == b.sub.periodStart && b.invoices[k].periodEnd == b.sub.periodEnd
  }

  /** The books in which the current period's newest invoice k stands issued: it was there, or is generated. */
  ghost predicate Prepared(b: Books, c: Books, k: nat, id: string, total: int, now: Stamp) {
    && c.wallet == b.wallet && c.sub == b.sub && ForPeriod(c, k)
    && if ForPeriod(b, k) then
         && (forall j: nat :: k < j ==> !ForPeriod(b, j)) && OnlyInvoice(b, c, k)
         && c.invoices[k] == if b.invoices[k].status == Draft then b.invoices[k].(status := Open) else b.invoices[k]
       else
         && (forall j: nat :: !ForPeriod(b, j)) && !IdKnown(b, id) && k == |b.invoices|
         && c.invoices == b.invoices + [Invoice(id, b.sub.periodStart, b.sub.periodEnd, total, 0, total, Open, now, Untried)]
  }

  lemma {:induction false} NewestFound(invoices: seq<Invoice>, start: Stamp, end: Stamp)
    ensures var r := FindPeriod(invoices, start, end);
      r.Some? ==> forall j :: r.value < j < |invoices| ==> invoices[j].periodStart != start || invoices[j].periodEnd != end
  {
    if invoices != [] { NewestFound(invoices[..|invoices| - 1], start, end); }
  }

  /** A renewal that is due pays the prepared invoice; what the payment says is its answer, and an error undoes the preparation. */
  lemma RenewalWrites(terms: Terms, b: Books, id: string, total: int, now: Stamp)
    requires terms.fromWallet && Due(b.sub, now)
    ensures var (d, r) := Renew(terms, b, id, total, now);
      || (exists c, k: nat :: Prepared(b, c, k, id, total, now) && r == Pay(terms, c, k, now).1
            && d == if r.Ok? then Pay(terms, c, k, now).0 else b)
      || ((forall k: nat :: !ForPeriod(b, k)) && IdKnown(b, id) && r.Err? && d == b)
  {
    NewestFound(b.invoices, b.sub.periodStart, b.sub.periodEnd);
    var (c, i) := CurrentInvoice(b, id, total, now);
    if i.Ok? {
      var k := i.value;
      if ForPeriod(b, k) && b.invoices[k].status != Draft { assert b.invoices == b.invoices[k := b.invoices[k]]; }
      assert Prepared(b, c, k, id, total, now);
    }
  }

  lemma RenewalRefused(terms: Terms, b: Books, id: string, total: int, now: Stamp)
    requires !terms.fromWallet || !Due(b.sub, now)
    ensures Renew(terms, b, id, total, now).0 == b && Renew(terms, b, id, total, now).1.Err?
  {
  }

  /** A request of its own that reaches the wallet. */
  function WalletRequest(x: Booking): Option<Request> {
    match x.event
    case CreditEvent(amount, key, kind, refusal) => Some(CreditRequest(amount, key, kind, refusal))
    case DebitEvent(amount, key, refusal) => Some(DebitRequest(amount, key, refusal))
    case FreezeEvent(frozen, refusal) => Some(FreezeRequest(frozen, refusal))
    case _ => None
  }

  /** It does to the wallet what it would do to one without invoices, and touches nothing else. */
  lemma WalletRequestWrites(terms: Terms, b: Books, x: Booking)
    requires WalletRequest(x).Some?
    ensures Step(terms, b, x) == b.(wallet := Deliver(b.wallet, WalletRequest(x).value).0)
  {
  }
}
