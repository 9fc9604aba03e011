/** Short runs that reach the states the billing theorems single out. */
module BillingRuns {
  import opened Totals
  import opened Periods
  import opened Text
  import opened Ledger
  import opened Invoices
  import opened InvoiceAccounts
  import opened InvoiceConservation
  import opened RenewalChain
  import opened BillingLife

  const MONTHLY := Terms(Month, 7, true, false)
  const NOW := Stamp(2026, 2, 1, 0)
  const BEGUN := Subscription(InForce, Stamp(2026, 1, 1, 0), NOW, None, None)
  const MOVED := Subscription(InForce, NOW, Stamp(2026, 3, 1, 0), None, None)

  const TOP_UP := Booking(CreditEvent(100, "top-up-01", TopUp, None), NOW)
  const RENEWAL := Booking(RenewEvent("a", 100), NOW)
  const REVERSAL := Booking(ReverseEvent(1, "reverse-01", None), NOW)
  const PAYMENT := Booking(PayEvent(0), NOW)
  const MARKED := Booking(MarkPaidEvent(0, true), NOW)

  function Row(d: Direction, kind: Kind, key: string, invoice: Option<string>, reverses: Option<nat>, balance: int, version: int): Entry {
    Entry(d, kind, 100, key, invoice, reverses, balance, version)
  }

  function Credited(): Wallet {
    Wallet(WalletStatus.Active, 100, 1, [Row(Credit, TopUp, "top-up-01", None, None, 100, 1)])
  }

  function Charged(): Wallet {
    Wallet(WalletStatus.Active, 0, 2, Credited().entries + [Row(Debit, SubscriptionPayment, PaymentKey("a"), Some("a"), None, 0, 2)])
  }

  function Returned(): Wallet {
    Wallet(WalletStatus.Active, 100, 3, Charged().entries + [Row(Credit, Reversal, "reverse-01", None, Some(1), 100, 3)])
  }

  function Bill(status: InvoiceStatus, attempt: Attempt): Invoice {
    Invoice("a", BEGUN.periodStart, BEGUN.periodEnd, 100, if status.Paid? then 100 else 0, if status.Paid? then 0 else 100, status, NOW, attempt)
  }

  lemma OneStepMore(terms: Terms, start: Subscription, log: seq<Booking>, x: Booking)
    ensures AfterLog(terms, start, log + [x]) == Step(terms, AfterLog(terms, start, log), x)
  {
    assert (log + [x])[..|log|] == log;
  }

  /** A key of ordinary length that neither starts nor ends in space is taken as it is. */
  lemma PlainKey(key: string)
    requires 8 <= |key| <= 200 && !IsSpace(key[0]) && !IsSpace(key[|key| - 1])
    ensures CleanKey(key) == Ok(key)
  {
  }

  lemma KeysAreClean()
    ensures CleanKey("top-up-01") == Ok("top-up-01") && CleanKey("reverse-01") == Ok("reverse-01")
    ensures CleanKey(PaymentKey("a")) == Ok(PaymentKey("a")) && |PaymentKey("a")| == 24
  {
    PlainKey("top-up-01");
    PlainKey("reverse-01");
    var key := PaymentKey("a");
    assert key[0] == 'i' && key[23] == 't';
    PlainKey(key);
  }

  lemma AfterTopUp()
    ensures AfterLog(MONTHLY, BEGUN, [TOP_UP]) == Books(Credited(), [], BEGUN)
  {
    KeysAreClean();
    OneStepMore(MONTHLY, BEGUN, [], TOP_UP);
    assert [] + [TOP_UP] == [TOP_UP];
  }

  lemma ChargeOnce()
    ensures Charge(Credited(), "a", 100) == (Charged(), Ok(Some(1)))
  {
    KeysAreClean();
    assert FindKey(Credited().entries, PaymentKey("a")).None?;
  }

  /** The first renewal generates the invoice for the current period and issues it. */
  lemma FirstInvoice(w: Wallet)
    ensures CurrentInvoice(Books(w, [], BEGUN), "a", 100, NOW) == (Books(w, [Bill(Open, Untried)], BEGUN), Ok(0))
  {
    var g := Generate(Books(w, [], BEGUN), "a", 100, NOW).0;
    assert g.invoices == [Bill(Draft, Untried)];
    assert Issue(g, 0).0.invoices == [Bill(Open, Untried)];
  }

  lemma RenewOnce()
    ensures Renew(MONTHLY, Books(Credited(), [], BEGUN), "a", 100, NOW).0 == Books(Charged(), [Bill(Paid, Succeeded)], MOVED)
  {
    ChargeOnce();
    FirstInvoice(Credited());
  }

  lemma ReverseOnce()
    ensures Reverse(Charged(), 1, "reverse-01", None) == (Returned(), Ok(2))
    ensures FindReversal(Charged().entries, 1).None? && FindKey(Charged().entries, "reverse-01").None?
  {
    KeysAreClean();
    assert Charged().entries[..1] == Credited().entries;
  }

  lemma ChargeAgain()
    ensures Charge(Returned(), "a", 100) == (Returned(), Ok(Some(1)))
  {
    KeysAreClean();
    assert Returned().entries[..2] == Charged().entries && Charged().entries[..1] == Credited().entries;
  }

  lemma FreshOneMore(log: seq<Booking>, x: Booking)
    requires FreshReversals(MONTHLY, BEGUN, log) && FreshReversalEvent(AfterLog(MONTHLY, BEGUN, log), x.event)
    ensures FreshReversals(MONTHLY, BEGUN, log + [x])
  {
    assert (log + [x])[..|log|] == log;
  }

  /** The wallet topped up, the renewal paid. */
  lemma AfterRenewal()
    ensures AfterLog(MONTHLY, BEGUN, [TOP_UP] + [RENEWAL]) == Books(Charged(), [Bill(Paid, Succeeded)], MOVED)
    ensures FreshReversals(MONTHLY, BEGUN, [TOP_UP] + [RENEWAL])
  {
    AfterTopUp();
    OneStepMore(MONTHLY, BEGUN, [TOP_UP], RENEWAL);
    RenewOnce();
    FreshOneMore([], TOP_UP);
    assert [] + [TOP_UP] == [TOP_UP];
    FreshOneMore([TOP_UP], RENEWAL);
  }

  /** Then the payment reversed under a new key. */
  lemma AfterReversal()
    ensures var b := AfterLog(MONTHLY, BEGUN, [TOP_UP] + [RENEWAL] + [REVERSAL]);
      && b.wallet == Returned() && b.invoices == [Bill(Open, Refunded)] && b.sub.periodEnd == MOVED.periodEnd
    ensures FreshReversals(MONTHLY, BEGUN, [TOP_UP] + [RENEWAL] + [REVERSAL])
  {
    AfterRenewal();
    OneStepMore(MONTHLY, BEGUN, [TOP_UP] + [RENEWAL], REVERSAL);
    ReverseOnce();
    KeysAreClean();
    FreshOneMore([TOP_UP] + [RENEWAL], REVERSAL);
  }

  /** Paid, reversed and paid again: the wallet keeps all its money and the invoice is paid. */
  lemma PaidReversedPaid()
    ensures var log := [TOP_UP] + [RENEWAL] + [REVERSAL] + [PAYMENT];
      && FreshReversals(MONTHLY, BEGUN, log)
      && AfterLog(MONTHLY, BEGUN, log).wallet == Returned()
      && AfterLog(MONTHLY, BEGUN, log).invoices == [Bill(Paid, Succeeded)]
      && PaidYetReversed(Returned().entries, Bill(Paid, Succeeded))
  {
    AfterReversal();
    OneStepMore(MONTHLY, BEGUN, [TOP_UP] + [RENEWAL] + [REVERSAL], PAYMENT);
    ChargeAgain();
    FreshOneMore([TOP_UP] + [RENEWAL] + [REVERSAL], PAYMENT);
    assert Returned().entries[..2] == Charged().entries;
  }

  /** A renewal the wallet cannot cover leaves the invoice open. */
  lemma AfterShortRenewal()
    ensures AfterLog(MONTHLY, BEGUN, [RENEWAL]) == Books(OPENED, [Bill(Open, Failed)], InGrace(MONTHLY, BEGUN, NOW))
  {
    OneStepMore(MONTHLY, BEGUN, [], RENEWAL);
    assert [] + [RENEWAL] == [RENEWAL];
    FirstInvoice(OPENED);
  }

  lemma AfterMarking()
    ensures AfterLog(MONTHLY, BEGUN, [RENEWAL] + [MARKED]) == Books(OPENED, [Bill(Paid, Failed)], BEGUN)
  {
    AfterShortRenewal();
    OneStepMore(MONTHLY, BEGUN, [RENEWAL], MARKED);
  }

  /** Then the invoice is marked paid by hand: the period is over, paid, and no renewal succeeds any more. */
  lemma MarkedPaidIsStuck(now: Stamp)
    requires NotAfter(NOW, now)
    ensures var b := AfterLog(MONTHLY, BEGUN, [RENEWAL] + [MARKED]);
      && Chained(b) && CurrentIsPaid(b) && b.sub == BEGUN
      && Renew(MONTHLY, b, "b", 100, now) == (b, Err("invoice_transition_invalid"))
  {
    AlwaysChained(MONTHLY, BEGUN, [RENEWAL] + [MARKED]);
    AfterMarking();
  }

  // ----- a void invoice reopened -----

  const DEBIT := Booking(DebitEvent(100, "debit-001", None), NOW)
  const VOIDING := Booking(VoidEvent(0), NOW)
  const STALE_REVERSAL := Booking(ReverseEvent(3, "reverse-01", None), NOW)
  const LATE_REVERSAL := Booking(ReverseEvent(3, "reverse-02", None), NOW)

  function Debited(): Wallet {
    Wallet(WalletStatus.Active, 0, 2, Credited().entries + [Row(Debit, Adjustment, "debit-001", None, None, 0, 2)])
  }

  function Restored(): Wallet {
    Wallet(WalletStatus.Active, 100, 3, Debited().entries + [Row(Credit, Reversal, "reverse-01", None, Some(1), 100, 3)])
  }

  function Paying(): Wallet {
    Wallet(WalletStatus.Active, 0, 4, Restored().entries + [Row(Debit, SubscriptionPayment, PaymentKey("a"), Some("a"), None, 0, 4)])
  }

  function Repaid(): Wallet {
    Wallet(WalletStatus.Active, 100, 5, Paying().entries + [Row(Credit, Reversal, "reverse-02", None, Some(3), 100, 5)])
  }

  lemma OtherKeysAreClean()
    ensures CleanKey("debit-001") == Ok("debit-001") && CleanKey("reverse-02") == Ok("reverse-02")
  {
    PlainKey("debit-001");
    PlainKey("reverse-02");
  }

  lemma DebitOnce()
    ensures DebitAdjustment(Credited(), 100, "debit-001", None) == (Debited(), Ok(1))
  {
    OtherKeysAreClean();
    assert "debit-001"[0] == 'd' && "top-up-01"[0] == 't';
  }

  lemma RestoreOnce()
    ensures Reverse(Debited(), 1, "reverse-01", None) == (Restored(), Ok(2)) && FindReversal(Debited().entries, 1).None?
  {
    KeysAreClean();
    assert Debited().entries[..1] == Credited().entries;
  }

  lemma ChargeRestored()
    ensures Charge(Restored(), "a", 100) == (Paying(), Ok(Some(3)))
  {
    KeysAreClean();
    assert Restored().entries[..2] == Debited().entries && Debited().entries[..1] == Credited().entries;
    assert FindKey(Restored().entries, PaymentKey("a")).None?;
  }

  /** The used key is answered with the other reversal: nothing is booked. */
  lemma ReverseStale()
    ensures Reverse(Paying(), 3, "reverse-01", None) == (Paying(), Ok(2)) && FindReversal(Paying().entries, 3).None?
  {
    KeysAreClean();
    assert Paying().entries[..3] == Restored().entries && Restored().entries[..2] == Debited().entries && Debited().entries[..1] == Credited().entries;
  }

  lemma ReverseLate()
    ensures Reverse(Paying(), 3, "reverse-02", None) == (Repaid(), Ok(4))
  {
    OtherKeysAreClean();
    ReverseStale();
    assert "reverse-02"[9] == '2' && "reverse-01"[9] == '1';
    assert Paying().entries[..3] == Restored().entries && Restored().entries[..2] == Debited().entries && Debited().entries[..1] == Credited().entries;
    assert FindKey(Paying().entries, "reverse-02").None?;
  }

  lemma Leads(log: seq<Booking>, b: Books, x: Booking, c: Books)
    requires AfterLog(MONTHLY, BEGUN, log) == b && Step(MONTHLY, b, x) == c
    ensures AfterLog(MONTHLY, BEGUN, log + [x]) == c
  {
    OneStepMore(MONTHLY, BEGUN, log, x);
  }

  function ReversedBooks(): Books { Books(Paying(), [Bill(Open, Refunded)], InGrace(MONTHLY, MOVED, NOW)) }

  function VoidedBooks(): Books { ReversedBooks().(invoices := [Bill(Open, Refunded).(status := Void, due := 0)]) }

  lemma RenewRestored()
    ensures Renew(MONTHLY, Books(Restored(), [], BEGUN), "a", 100, NOW).0 == Books(Paying(), [Bill(Paid, Succeeded)], MOVED)
  {
    ChargeRestored();
    FirstInvoice(Restored());
  }

  lemma StaleStep()
    ensures Step(MONTHLY, Books(Paying(), [Bill(Paid, Succeeded)], MOVED), STALE_REVERSAL) == ReversedBooks()
  {
    ReverseStale();
  }

  function StaleLog(): seq<Booking> { [TOP_UP] + [DEBIT] + [REVERSAL] + [RENEWAL] + [STALE_REVERSAL] }

  lemma AfterDebit()
    ensures AfterLog(MONTHLY, BEGUN, [TOP_UP] + [DEBIT]) == Books(Debited(), [], BEGUN)
  {
    AfterTopUp();
    DebitOnce();
    Leads([TOP_UP], Books(Credited(), [], BEGUN), DEBIT, Books(Debited(), [], BEGUN));
  }

  lemma RestoringStep()
    ensures Step(MONTHLY, Books(Debited(), [], BEGUN), REVERSAL) == Books(Restored(), [], BEGUN)
  {
    RestoreOnce();
  }

  /** A debit is taken and given back under a key. */
  lemma AfterRestoring()
    ensures AfterLog(MONTHLY, BEGUN, [TOP_UP] + [DEBIT] + [REVERSAL]) == Books(Restored(), [], BEGUN)
  {
    AfterDebit();
    RestoringStep();
    Leads([TOP_UP] + [DEBIT], Books(Debited(), [], BEGUN), REVERSAL, Books(Restored(), [], BEGUN));
  }

  /** The invoice is paid, and its payment reversed under the same key: it opens, and the payment stands. */
  lemma AfterStaleReversal()
    ensures AfterLog(MONTHLY, BEGUN, StaleLog()) == ReversedBooks()
  {
    var paid := Books(Paying(), [Bill(Paid, Succeeded)], MOVED);
    AfterRestoring();
    RenewRestored();
    Leads([TOP_UP] + [DEBIT] + [REVERSAL], Books(Restored(), [], BEGUN), RENEWAL, paid);
    StaleStep();
    Leads([TOP_UP] + [DEBIT] + [REVERSAL] + [RENEWAL], paid, STALE_REVERSAL, ReversedBooks());
  }

  lemma VoidedWasPaid()
    ensures PaidInvoice(VoidedBooks(), 3) == Some(0)
  {
  }

  lemma LateReopens()
    ensures Reopens(VoidedBooks(), LATE_REVERSAL.event, 0)
  {
    ReverseStale();
    ReverseLate();
    VoidedWasPaid();
  }

  lemma LateStep()
    ensures Step(MONTHLY, VoidedBooks(), LATE_REVERSAL).invoices == [Bill(Open, Refunded)]
  {
    ReverseStale();
    ReverseLate();
    VoidedWasPaid();
    assert VoidedBooks().invoices[0 := Reopened(VoidedBooks().invoices[0])] == [Bill(Open, Refunded)];
  }

  lemma AfterVoiding()
    ensures AfterLog(MONTHLY, BEGUN, StaleLog() + [VOIDING]) == VoidedBooks()
  {
    AfterStaleReversal();
    Leads(StaleLog(), ReversedBooks(), VOIDING, VoidedBooks());
  }

  /** Voided, the invoice is opened again by the late reversal of its payment. */
  lemma VoidInvoiceReopens(log: seq<Booking>)
    requires log == StaleLog() + [VOIDING]
    ensures AfterLog(MONTHLY, BEGUN, log).invoices == [Bill(Open, Refunded).(status := Void, due := 0)]
    ensures Reopens(AfterLog(MONTHLY, BEGUN, log), LATE_REVERSAL.event, 0)
    ensures AfterLog(MONTHLY, BEGUN, log + [LATE_REVERSAL]).invoices == [Bill(Open, Refunded)]
  {
    AfterVoiding();
    LateReopens();
    LateStep();
    Leads(log, VoidedBooks(), LATE_REVERSAL, Step(MONTHLY, VoidedBooks(), LATE_REVERSAL));
  }
}
