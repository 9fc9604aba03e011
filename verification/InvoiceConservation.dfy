/** Invoices against the ledger over whole runs: one payment each, and what the payments that stand add up to. */
module InvoiceConservation {
  import opened Totals
  import opened Periods
  import opened Ledger
  import opened Invoices
  import opened InvoiceAccounts

  // ----- one payment an invoice, in any run -----

  ghost predicate KeyedWallet(w: Wallet) { Sound(w) && Keyed(w.entries) }

  lemma ChargeKeyed(w: Wallet, invoice: string, amount: int)
    requires KeyedWallet(w)
    ensures KeyedWallet(Charge(w, invoice, amount).0)
  {
    DeliverSound(w, ChargeRequest(invoice, amount));
    if Charge(w, invoice, amount).0 != w {
      var e := ChargeOutcome(w, invoice, amount);
      KeyedAppend(w.entries, e);
    }
  }

  lemma ReverseKeyed(w: Wallet, row: nat, key: string, refusal: Option<string>)
    requires KeyedWallet(w)
    ensures KeyedWallet(Reverse(w, row, key, refusal).0)
  {
    DeliverSound(w, ReverseRequest(row, key, refusal));
    var u := Reverse(w, row, key, refusal).0;
    if u != w { KeyedAppend(w.entries, u.entries[|w.entries|]); }
  }

  lemma DeliverKeyed(w: Wallet, x: Request)
    requires KeyedWallet(w)
    ensures KeyedWallet(Deliver(w, x).0)
  {
    DeliverSound(w, x);
    match x
    case ChargeRequest(invoice, amount) => ChargeKeyed(w, invoice, amount);
    case ReverseRequest(row, key, refusal) => ReverseKeyed(w, row, key, refusal);
    case _ =>
      var u := Deliver(w, x).0;
      if u.entries != w.entries {
        PlainRow(w, x);
        KeyedAppend(w.entries, u.entries[|w.entries|]);
      }
  }

  lemma PayKeyed(terms: Terms, b: Books, i: nat, now: Stamp)
    requires KeyedWallet(b.wallet)
    ensures KeyedWallet(Pay(terms, b, i, now).0.wallet)
  {
    if i < |b.invoices| { ChargeKeyed(b.wallet, b.invoices[i].id, b.invoices[i].due); }
  }

  lemma {:induction false} RetryKeyed(terms: Terms, b: Books, due: seq<nat>, now: Stamp)
    requires KeyedWallet(b.wallet)
    ensures KeyedWallet(RetryEach(terms, b, due, now).0.wallet)
    decreases |due|
  {
    if due != [] {
      PayKeyed(terms, b, due[0], now);
      RetryKeyed(terms, Pay(terms, b, due[0], now).0, due[1..], now);
    }
  }

  lemma RenewKeyed(terms: Terms, b: Books, id: string, total: int, now: Stamp)
    requires KeyedWallet(b.wallet)
    ensures KeyedWallet(Renew(terms, b, id, total, now).0.wallet)
  {
    var (c, i) := CurrentInvoice(b, id, total, now);
    if i.Ok? { PayKeyed(terms, c, i.value, now); }
  }

  lemma StepKeyed(terms: Terms, b: Books, x: Booking)
    requires KeyedWallet(b.wallet)
    ensures KeyedWallet(Step(terms, b, x).wallet)
  {
    match x.event
    case RenewEvent(id, total) => RenewKeyed(terms, b, id, total, x.now);
    case RetryEvent => RetryKeyed(terms, b, DueList(terms, b, x.now), x.now);
    case PayEvent(i) => PayKeyed(terms, b, i, x.now);
    case ReverseEvent(row, key, refusal) => ReverseKeyed(b.wallet, row, key, refusal);
    case CreditEvent(amount, key, kind, refusal) => DeliverKeyed(b.wallet, CreditRequest(amount, key, kind, refusal));
    case DebitEvent(amount, key, refusal) => DeliverKeyed(b.wallet, DebitRequest(amount, key, refusal));
    case FreezeEvent(frozen, refusal) => DeliverKeyed(b.wallet, FreezeRequest(frozen, refusal));
    case _ =>
  }

  lemma {:induction false} AlwaysKeyed(terms: Terms, start: Subscription, log: seq<Booking>)
    ensures KeyedWallet(AfterLog(terms, start, log).wallet)
  {
    if log != [] {
      AlwaysKeyed(terms, start, log[..|log| - 1]);
      StepKeyed(terms, AfterLog(terms, start, log[..|log| - 1]), log[|log| - 1]);
    }
  }

  /** In any run, re-used keys included, no invoice gets a second payment row. */
  lemma OnePaymentPerInvoice(terms: Terms, start: Subscription, log: seq<Booking>, i: nat, j: nat)
    requires i < j < |AfterLog(terms, start, log).wallet.entries| && AfterLog(terms, start, log).wallet.entries[i].invoice.Some?
    ensures AfterLog(terms, start, log).wallet.entries[i].invoice != AfterLog(terms, start, log).wallet.entries[j].invoice
  {
    AlwaysKeyed(terms, start, log);
    OnePaymentRow(AfterLog(terms, start, log).wallet.entries, i, j);
  }

  // ----- what stands -----

  /** The amounts of the first n rows that paid an invoice and have not been reversed. */
  function Kept(es: seq<Entry>, n: nat): int
    requires n <= |es|
  {
    if n == 0 then 0
    else Kept(es, n - 1) + if es[n - 1].invoice.Some? && FindReversal(es, n - 1).None? then es[n - 1].amount else 0
  }

  /** The same for one invoice. */
  function KeptFor(es: seq<Entry>, n: nat, id: string): int
    requires n <= |es|
  {
    if n == 0 then 0
    else KeptFor(es, n - 1, id) + if es[n - 1].invoice == Some(id) && FindReversal(es, n - 1).None? then es[n - 1].amount else 0
  }

  /** The same for the first m invoices. */
  function KeptBy(es: seq<Entry>, n: nat, invoices: seq<Invoice>, m: nat): int
    requires n <= |es| && m <= |invoices|
  {
    if m == 0 then 0 else KeptBy(es, n, invoices, m - 1) + KeptFor(es, n, invoices[m - 1].id)
  }

  /** The totals of the first m invoices that the wallet has paid. */
  function PaidTotal(invoices: seq<Invoice>, m: nat): int
    requires m <= |invoices|
  {
    if m == 0 then 0 else PaidTotal(invoices, m - 1) + if WalletPaid(invoices[m - 1]) then invoices[m - 1].total else 0
  }

  /** Paid, by the wallet, with a payment that has been reversed; a reversal of that reversal is not looked at. */
  predicate PaidYetReversed(es: seq<Entry>, inv: Invoice) { WalletPaid(inv) && !Stands(es, inv.id) }

  /** The totals of the first m invoices that are paid though their payment has been reversed. */
  function ReversedTotal(es: seq<Entry>, invoices: seq<Invoice>, m: nat): int
    requires m <= |invoices|
  {
    if m == 0 then 0
    else ReversedTotal(es, invoices, m - 1) + if PaidYetReversed(es, invoices[m - 1]) then invoices[m - 1].total else 0
  }

  lemma {:induction false} KeptForIsThePayment(es: seq<Entry>, n: nat, id: string)
    requires SoundEntries(es) && Keyed(es) && n <= |es|
    ensures KeptFor(es, n, id)
      == if Stands(es, id) && FindPayment(es, id).value < n then es[FindPayment(es, id).value].amount else 0
  {
    if 0 < n {
      KeptForIsThePayment(es, n - 1, id);
      if es[n - 1].invoice == Some(id) { TheOnlyPayment(es, n - 1, id); }
    }
  }

  lemma {:induction false} NothingKept(es: seq<Entry>, invoices: seq<Invoice>, m: nat)
    requires m <= |invoices|
    ensures KeptBy(es, 0, invoices, m) == 0
  {
    if 0 < m { NothingKept(es, invoices, m - 1); }
  }

  lemma {:induction false} RowForOneInvoice(es: seq<Entry>, n: nat, invoices: seq<Invoice>, m: nat)
    requires n < |es| && m <= |invoices| && UniqueIds(invoices)
    requires es[n].invoice.Some? ==> FindInvoice(invoices, es[n].invoice.value).Some?
    ensures KeptBy(es, n + 1, invoices, m) == KeptBy(es, n, invoices, m)
      + if es[n].invoice.Some? && FindReversal(es, n).None? && FindInvoice(invoices, es[n].invoice.value).value < m then es[n].amount else 0
  {
    if 0 < m {
      RowForOneInvoice(es, n, invoices, m - 1);
      FoundInvoice(invoices, m - 1);
    }
  }

  lemma {:induction false} RowsByInvoice(es: seq<Entry>, n: nat, invoices: seq<Invoice>)
    requires n <= |es| && UniqueIds(invoices) && Known(es, invoices)
    ensures Kept(es, n) == KeptBy(es, n, invoices, |invoices|)
  {
    if n == 0 {
      NothingKept(es, invoices, |invoices|);
    } else {
      RowsByInvoice(es, n - 1, invoices);
      RowForOneInvoice(es, n - 1, invoices, |invoices|);
    }
  }

  lemma {:induction false} PaidIsKeptOrReversed(es: seq<Entry>, invoices: seq<Invoice>, m: nat)
    requires SoundEntries(es) && Keyed(es) && AllSettled(es, invoices) && m <= |invoices|
    ensures PaidTotal(invoices, m) == KeptBy(es, |es|, invoices, m) + ReversedTotal(es, invoices, m)
  {
    if 0 < m {
      PaidIsKeptOrReversed(es, invoices, m - 1);
      KeptForIsThePayment(es, |es|, invoices[m - 1].id);
      assert Settled(es, invoices[m - 1]);
    }
  }

  /** With fresh reversal keys, what the wallet-paid invoices total is what the standing payments took plus those whose payment has been reversed. */
  lemma PaymentsCoverInvoices(terms: Terms, start: Subscription, log: seq<Booking>)
    requires FreshReversals(terms, start, log)
    ensures var b := AfterLog(terms, start, log); var es := b.wallet.entries;
      PaidTotal(b.invoices, |b.invoices|) == Kept(es, |es|) + ReversedTotal(es, b.invoices, |b.invoices|)
  {
    var b := AfterLog(terms, start, log);
    AlwaysConsistent(terms, start, log);
    RowsByInvoice(b.wallet.entries, |b.wallet.entries|, b.invoices);
    PaidIsKeptOrReversed(b.wallet.entries, b.invoices, |b.invoices|);
  }

  lemma {:induction false} AmountPositive(es: seq<Entry>, i: nat)
    requires SoundEntries(es) && i < |es|
    ensures 0 < es[i].amount
  {
    if i < |es| - 1 { AmountPositive(es[..|es| - 1], i); }
  }

  lemma {:induction false} ReversedTotalIsZeroIff(es: seq<Entry>, invoices: seq<Invoice>, m: nat)
    requires SoundEntries(es) && AllSettled(es, invoices) && m <= |invoices|
    ensures 0 <= ReversedTotal(es, invoices, m)
    ensures ReversedTotal(es, invoices, m) == 0 <==> forall k :: 0 <= k < m ==> !PaidYetReversed(es, invoices[k])
  {
    if 0 < m {
      ReversedTotalIsZeroIff(es, invoices, m - 1);
      assert Settled(es, invoices[m - 1]);
      if PaidYetReversed(es, invoices[m - 1]) { AmountPositive(es, FindPayment(es, invoices[m - 1].id).value); }
    }
  }

  /** The standing payments sum to the totals of the wallet-paid invoices exactly when no paid invoice has a reversed payment. */
  lemma ConservationIff(terms: Terms, start: Subscription, log: seq<Booking>)
    requires FreshReversals(terms, start, log)
    ensures var b := AfterLog(terms, start, log); var es := b.wallet.entries;
      Kept(es, |es|) == PaidTotal(b.invoices, |b.invoices|) <==> forall k :: 0 <= k < |b.invoices| ==> !PaidYetReversed(es, b.invoices[k])
  {
    var b := AfterLog(terms, start, log);
    AlwaysConsistent(terms, start, log);
    PaymentsCoverInvoices(terms, start, log);
    ReversedTotalIsZeroIff(b.wallet.entries, b.invoices, |b.invoices|);
  }

  // ----- paid plus due, in any run -----

  ghost predicate AllAddUp(invoices: seq<Invoice>) { forall k :: 0 <= k < |invoices| ==> AmountsAddUp(invoices[k]) }

  lemma {:induction false} RetryAddsUp(terms: Terms, b: Books, due: seq<nat>, now: Stamp)
    requires AllAddUp(b.invoices)
    ensures AllAddUp(RetryEach(terms, b, due, now).0.invoices)
    decreases |due|
  {
    if due != [] {
      PayAddsUp(terms, b, due[0], now);
      RetryAddsUp(terms, Pay(terms, b, due[0], now).0, due[1..], now);
    }
  }

  lemma PayAddsUp(terms: Terms, b: Books, i: nat, now: Stamp)
    requires AllAddUp(b.invoices)
    ensures AllAddUp(Pay(terms, b, i, now).0.invoices)
  {
  }

  lemma CurrentAddsUp(b: Books, id: string, total: int, now: Stamp)
    requires AllAddUp(b.invoices)
    ensures AllAddUp(CurrentInvoice(b, id, total, now).0.invoices)
  {
  }

  lemma RenewAddsUp(terms: Terms, b: Books, id: string, total: int, now: Stamp)
    requires AllAddUp(b.invoices)
    ensures AllAddUp(Renew(terms, b, id, total, now).0.invoices)
  {
    var (c, i) := CurrentInvoice(b, id, total, now);
    CurrentAddsUp(b, id, total, now);
    if i.Ok? { PayAddsUp(terms, c, i.value, now); }
  }

  /** Every event writes paid and due of an invoice together. */
  lemma StepAddsUp(terms: Terms, b: Books, x: Booking)
    requires AllAddUp(b.invoices)
    ensures AllAddUp(Step(terms, b, x).invoices)
  {
    match x.event
    case RenewEvent(id, total) => RenewAddsUp(terms, b, id, total, x.now);
    case RetryEvent => RetryAddsUp(terms, b, DueList(terms, b, x.now), x.now);
    case PayEvent(i) => PayAddsUp(terms, b, i, x.now);
    case _ =>
  }

  lemma {:induction false} AlwaysAddsUp(terms: Terms, start: Subscription, log: seq<Booking>)
    ensures AllAddUp(AfterLog(terms, start, log).invoices)
  {
    if log != [] {
      AlwaysAddsUp(terms, start, log[..|log| - 1]);
      StepAddsUp(terms, AfterLog(terms, start, log[..|log| - 1]), log[|log| - 1]);
    }
  }

  /** In any run, re-used keys included, paid plus due is the total of every draft, open or paid invoice. */
  lemma PaidPlusDue(terms: Terms, start: Subscription, log: seq<Booking>, k: nat)
    requires k < |AfterLog(terms, start, log).invoices| && !AfterLog(terms, start, log).invoices[k].status.Void?
    ensures var inv := AfterLog(terms, start, log).invoices[k]; inv.paid + inv.due == inv.total
  {
    AlwaysAddsUp(terms, start, log);
    assert AmountsAddUp(AfterLog(terms, start, log).invoices[k]);
  }

  // ----- where the books part -----

  /** Paying an open invoice charges the wallet exactly when the invoice was never paid before; otherwise it is paid though its payment stays reversed. */
  lemma RepaymentIsFree(terms: Terms, b: Books, i: nat, now: Stamp)
    requires Consistent(b) && i < |b.invoices| && b.invoices[i].status.Open? && Pay(terms, b, i, now).1 == Ok(true)
    ensures var c, before := Pay(terms, b, i, now).0, FindPayment(b.wallet.entries, b.invoices[i].id);
      && WalletPaid(c.invoices[i])
      && c.wallet.balance == b.wallet.balance - (if before.None? then b.invoices[i].total else 0)
      && (c.wallet == b.wallet <==> before.Some?)
      && (PaidYetReversed(c.wallet.entries, c.invoices[i]) <==> before.Some?)
  {
    var inv := b.invoices[i];
    var e := ChargeOutcome(b.wallet, inv.id, inv.due);
    assert Settled(b.wallet.entries, inv);
    if FindPayment(b.wallet.entries, inv.id).None? {
      RowAdded(b.wallet.entries, e, inv.id, |b.wallet.entries|);
      NoReversalYet(b.wallet, |b.wallet.entries|);
    }
  }

  /** An accepted reversal of a row not yet reversed books a new row exactly when its key is unused; either way the invoice reopens. */
  lemma ReversalBooksIff(terms: Terms, b: Books, row: nat, key: string, refusal: Option<string>, now: Stamp)
    requires ReversePayment(terms, b, row, key, refusal, now).1.Ok? && FindReversal(b.wallet.entries, row).None?
    ensures var c := ReversePayment(terms, b, row, key, refusal, now).0;
      && CleanKey(key).Ok?
      && (FindReversal(c.wallet.entries, row).Some? <==> FindKey(b.wallet.entries, CleanKey(key).value).None?)
      && (c.wallet == b.wallet <==> FindKey(b.wallet.entries, CleanKey(key).value).Some?)
      && (PaidInvoice(b, row).Some? ==> c.invoices[PaidInvoice(b, row).value].status.Open?)
  {
  }
}
