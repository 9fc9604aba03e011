/** An organization's wallet: the append-only ledger, its cached balance, and the requests that touch it. */
module Ledger {
  import opened Totals
  import opened Text

  datatype Direction = Credit | Debit

  datatype Kind = TopUp | SubscriptionPayment | Adjustment | Reversal | Refund | MigrationCredit

  datatype WalletStatus = Active | Frozen | Closed

  /** One ledger row; `reverses` is the position of the row it reverses, `invoice` the id of the invoice it pays. */
  datatype Entry = Entry(
    direction: Direction, kind: Kind, amount: int, key: string, invoice: Option<string>, reverses: Option<nat>,
    balanceAfter: int, version: int)

  datatype Wallet = Wallet(status: WalletStatus, balance: int, version: int, entries: seq<Entry>)

  const OPENED := Wallet(Active, 0, 0, [])

  function Signed(e: Entry): int { if e.direction.Credit? then e.amount else -e.amount }

  function Sum(es: seq<Entry>): int {
    if es == [] then 0 else Sum(es[..|es| - 1]) + Signed(es[|es| - 1])
  }

  /** `aggregate(Sum("amount_minor"))` over one direction. */
  function DirectionSum(es: seq<Entry>, d: Direction): int {
    if es == [] then 0 else DirectionSum(es[..|es| - 1], d) + if es[|es| - 1].direction == d then es[|es| - 1].amount else 0
  }

  function HasKey(key: string): Entry -> bool { (e: Entry) => e.key == key }

  function FindKey(es: seq<Entry>, key: string): (r: Option<nat>)
    ensures r.Some? ==> r.value < |es| && es[r.value].key == key
  {
    Find(HasKey(key), es)
  }

  function Reverses(row: nat): Entry -> bool { (e: Entry) => e.reverses == Some(row) }

  /** `original.reversal_transaction`: the row that reverses row i. */
  function FindReversal(es: seq<Entry>, i: nat): (r: Option<nat>)
    ensures r.Some? ==> r.value < |es| && es[r.value].reverses == Some(i)
  {
    Find(Reverses(i), es)
  }

  /** `_idempotency_key`. */
  function CleanKey(key: string): Result<string> {
    var clean := Strip(key);
    if |clean| < 8 then Err("idempotency_key_required") else Ok(if 200 < |clean| then clean[..200] else clean)
  }

  predicate SameOperation(e: Entry, d: Direction, kind: Kind, amount: int, invoice: Option<string>) {
    e.direction == d && e.kind == kind && e.amount == amount && e.invoice == invoice
  }

  /** `_append_locked`: the wallet afterwards, and the row's position or the error. */
  function Append(w: Wallet, d: Direction, kind: Kind, amount: int, key: string, invoice: Option<string>, reverses: Option<nat>):
    (Wallet, Result<nat>)
  {
    var clean := CleanKey(key);
    if amount <= 0 then (w, Err("wallet_amount_invalid"))
    else if clean.Err? then (w, Err(clean.code))
    else
      var existing := FindKey(w.entries, clean.value);
      if existing.Some? then
        if SameOperation(w.entries[existing.value], d, kind, amount, invoice) then (w, Ok(existing.value))
        else (w, Err("wallet_idempotency_conflict"))
      else
        var after := w.balance + if d.Credit? then amount else -amount;
        if after < 0 then (w, Err("wallet_insufficient_balance"))
        else
          var e := Entry(d, kind, amount, clean.value, invoice, reverses, after, w.version + 1);
          (w.(balance := after, version := w.version + 1, entries := w.entries + [e]), Ok(|w.entries|))
  }

  // ----- the requests -----

  /** `refusal` is the error the permission and two-person checks raise, if any. */
  datatype Request =
    | CreditRequest(amount: int, key: string, kind: Kind, refusal: Option<string>)
    | DebitRequest(amount: int, key: string, refusal: Option<string>)
    | ReverseRequest(row: nat, key: string, refusal: Option<string>)
    | ChargeRequest(invoice: string, amount: int)
    | FreezeRequest(frozen: bool, refusal: Option<string>)

  /** `credit_wallet`. */
  function CreditWallet(w: Wallet, amount: int, key: string, kind: Kind, refusal: Option<string>): (Wallet, Result<nat>) {
    if refusal.Some? then (w, Err(refusal.value))
    else if w.status.Closed? then (w, Err("wallet_closed"))
    else Append(w, Credit, kind, amount, key, None, None)
  }

  /** `debit_adjustment`. */
  function DebitAdjustment(w: Wallet, amount: int, key: string, refusal: Option<string>): (Wallet, Result<nat>) {
    if refusal.Some? then (w, Err(refusal.value))
    else if !w.status.Active? then (w, Err("wallet_not_active"))
    else Append(w, Debit, Adjustment, amount, key, None, None)
  }

  function Opposite(d: Direction): Direction { if d.Credit? then Debit else Credit }

  /** The ledger half of `reverse_transaction`. */
  function Reverse(w: Wallet, row: nat, key: string, refusal: Option<string>): (Wallet, Result<nat>) {
    if refusal.Some? then (w, Err(refusal.value))
    else if |w.entries| <= row then (w, Err("resource_not_found"))
    else
      var reversal := FindReversal(w.entries, row);
      if reversal.Some? then
        if CleanKey(key).Err? then (w, Err(CleanKey(key).code))
        else if w.entries[reversal.value].key == CleanKey(key).value then (w, Ok(reversal.value))
        else (w, Err("wallet_transaction_already_reversed"))
      else Append(w, Opposite(w.entries[row].direction), Reversal, w.entries[row].amount, key, None, Some(row))
  }

  function PaymentKey(invoice: string): string { "invoice:" + invoice + ":wallet-payment" }

  /** The ledger half of `pay_invoice_from_wallet`; Ok(None) when the balance does not cover the amount. */
  function Charge(w: Wallet, invoice: string, required: int): (Wallet, Result<Option<nat>>) {
    if !w.status.Active? then (w, Err("wallet_not_active"))
    else if required <= 0 then (w, Err("invoice_amount_invalid"))
    else if w.balance < required then (w, Ok(None))
    else
      var (u, r) := Append(w, Debit, SubscriptionPayment, required, PaymentKey(invoice), Some(invoice), None);
      (u, if r.Ok? then Ok(Some(r.value)) else Err(r.code))
  }

  /** `set_wallet_frozen`; the answer names no row. */
  function SetFrozen(w: Wallet, frozen: bool, refusal: Option<string>): (Wallet, Result<nat>) {
    if refusal.Some? then (w, Err(refusal.value))
    else if w.status.Closed? then (w, Err("wallet_closed"))
    else (w.(status := if frozen then Frozen else Active), Ok(0))
  }

  function Deliver(w: Wallet, x: Request): (Wallet, Result<nat>) {
    match x
    case CreditRequest(amount, key, kind, refusal) => CreditWallet(w, amount, key, kind, refusal)
    case DebitRequest(amount, key, refusal) => DebitAdjustment(w, amount, key, refusal)
    case ReverseRequest(row, key, refusal) => Reverse(w, row, key, refusal)
    case ChargeRequest(invoice, amount) =>
      var (u, r) := Charge(w, invoice, amount);
      (u, if r.Err? then Err(r.code) else if r.value.None? then Err("wallet_insufficient_balance") else Ok(r.value.value))
    case FreezeRequest(frozen, refusal) => SetFrozen(w, frozen, refusal)
  }

  /** The wallet after a log of requests. */
  function After(log: seq<Request>): Wallet {
    if log == [] then OPENED else Deliver(After(log[..|log| - 1]), log[|log| - 1]).0
  }

  // ----- the ledger invariant -----

  predicate SoundReversal(es: seq<Entry>, e: Entry) {
    e.reverses.Some? ==>
      && e.kind.Reversal? && e.reverses.value < |es| && FindReversal(es, e.reverses.value).None?
      && e.amount == es[e.reverses.value].amount && e.direction == Opposite(es[e.reverses.value].direction)
  }

  /** Row by row: the next version, the running sum, a positive amount, an unused key, a row not reversed before. */
  ghost predicate SoundEntries(es: seq<Entry>) {
    es != [] ==>
      var front, last := es[..|es| - 1], es[|es| - 1];
      && SoundEntries(front)
      && last.version == |es| && last.balanceAfter == Sum(es) && 0 <= Sum(es) && 0 < last.amount
      && FindKey(front, last.key).None? && SoundReversal(front, last)
  }

  ghost predicate Sound(w: Wallet) {
    SoundEntries(w.entries) && w.balance == Sum(w.entries) && w.version == |w.entries|
  }

  lemma SumAppend(es: seq<Entry>, e: Entry)
    ensures Sum(es + [e]) == Sum(es) + Signed(e)
  {
    assert (es + [e])[..|es|] == es;
  }

  lemma SumNonNegative(es: seq<Entry>)
    requires SoundEntries(es)
    ensures 0 <= Sum(es)
  {
  }

  lemma AppendSound(w: Wallet, d: Direction, kind: Kind, amount: int, key: string, invoice: Option<string>, reverses: Option<nat>)
    requires Sound(w)
    requires reverses.Some? ==>
               && kind.Reversal? && reverses.value < |w.entries| && FindReversal(w.entries, reverses.value).None?
               && amount == w.entries[reverses.value].amount && d == Opposite(w.entries[reverses.value].direction)
    ensures Sound(Append(w, d, kind, amount, key, invoice, reverses).0)
  {
    var u := Append(w, d, kind, amount, key, invoice, reverses).0;
    if u != w {
      SumAppend(w.entries, u.entries[|w.entries|]);
      assert u.entries[..|w.entries|] == w.entries;
    }
  }

  /** Every request keeps the ledger sound. */
  lemma DeliverSound(w: Wallet, x: Request)
    requires Sound(w)
    ensures Sound(Deliver(w, x).0)
  {
    match x
    case CreditRequest(amount, key, kind, refusal) => AppendSound(w, Credit, kind, amount, key, None, None);
    case DebitRequest(amount, key, refusal) => AppendSound(w, Debit, Adjustment, amount, key, None, None);
    case ReverseRequest(row, key, refusal) =>
      if row < |w.entries| && FindReversal(w.entries, row).None? {
        AppendSound(w, Opposite(w.entries[row].direction), Reversal, w.entries[row].amount, key, None, Some(row));
      }
    case ChargeRequest(invoice, amount) => AppendSound(w, Debit, SubscriptionPayment, amount, PaymentKey(invoice), Some(invoice), None);
    case FreezeRequest(frozen, refusal) =>
  }

  lemma {:induction false} AlwaysSound(log: seq<Request>)
    ensures Sound(After(log))
  {
    if log != [] {
      AlwaysSound(log[..|log| - 1]);
      DeliverSound(After(log[..|log| - 1]), log[|log| - 1]);
    }
  }

  lemma {:induction false} SumIsDifference(es: seq<Entry>)
    ensures Sum(es) == DirectionSum(es, Credit) - DirectionSum(es, Debit)
  {
    if es != [] { SumIsDifference(es[..|es| - 1]); }
  }

  /** `reconcile_wallet`: expected minus cached balance. */
  function Difference(w: Wallet): int {
    DirectionSum(w.entries, Credit) - DirectionSum(w.entries, Debit) - w.balance
  }

  /** Whatever was requested, reconciliation finds no difference and the balance is not negative. */
  lemma ReconciliationMatches(log: seq<Request>)
    ensures Difference(After(log)) == 0 && 0 <= After(log).balance
  {
    AlwaysSound(log);
    SumIsDifference(After(log).entries);
    SumNonNegative(After(log).entries);
  }

  lemma {:induction false} SoundPrefix(es: seq<Entry>, n: nat)
    requires SoundEntries(es) && n <= |es|
    ensures SoundEntries(es[..n])
  {
    if n < |es| {
      assert es[..|es| - 1][..n] == es[..n];
      SoundPrefix(es[..|es| - 1], n);
    } else {
      assert es[..n] == es;
    }
  }

  /** Versions run 1, 2, 3 ... without a gap, amounts are positive, and each stored balance is the running sum at its version. */
  lemma VersionsAndBalances(log: seq<Request>, i: nat)
    requires i < |After(log).entries|
    ensures 0 < After(log).entries[i].amount
    ensures After(log).entries[i].reverses.Some? ==> After(log).entries[i].kind == Reversal
    ensures var es := After(log).entries; es[i].version == i + 1 && es[i].balanceAfter == Sum(es[..i + 1]) && 0 <= es[i].balanceAfter
    ensures After(log).version == |After(log).entries|
  {
    AlwaysSound(log);
    SoundPrefix(After(log).entries, i + 1);
    assert After(log).entries[..i + 1][i] == After(log).entries[i];
  }

  // ----- keys -----

  lemma FoundIffPresent(es: seq<Entry>, key: string)
    ensures FindKey(es, key).None? <==> forall i :: 0 <= i < |es| ==> es[i].key != key
  {
    FindSpec(HasKey(key), es);
  }

  lemma {:induction false} KeysUnique(es: seq<Entry>, i: nat, j: nat)
    requires SoundEntries(es) && i < j < |es|
    ensures es[i].key != es[j].key
  {
    var last := |es| - 1;
    if j == last {
      FoundIffPresent(es[..last], es[last].key);
      assert es[i] == es[..last][i];
    } else {
      KeysUnique(es[..last], i, j);
    }
  }

  lemma {:induction false} FindKeyInLonger(es: seq<Entry>, more: seq<Entry>, key: string)
    requires SoundEntries(more) && es <= more && FindKey(es, key).Some?
    ensures FindKey(more, key) == FindKey(es, key)
  {
    var i := FindKey(es, key).value;
    FoundIffPresent(more, key);
    assert more[i].key == key;
    var j := FindKey(more, key).value;
    if i < j { KeysUnique(more, i, j); }
    if j < i { KeysUnique(more, j, i); }
  }

  // ----- at-least-once delivery -----

  /** The cleaned key a request carries, if it carries a usable one. */
  function RequestKey(x: Request): Option<string> {
    if x.FreezeRequest? then None
    else
      var clean := CleanKey(if x.ChargeRequest? then PaymentKey(x.invoice) else x.key);
      if clean.Ok? then Some(clean.value) else None
  }

  predicate Replay(w: Wallet, x: Request) {
    RequestKey(x).Some? && FindKey(w.entries, RequestKey(x).value).Some?
  }

  /** A request whose key is in the ledger changes nothing, whatever else it asks for. */
  lemma ReplayChangesNothing(w: Wallet, x: Request)
    requires Replay(w, x)
    ensures Deliver(w, x).0 == w
  {
  }

  /** A request that is refused changes nothing. */
  lemma RefusalChangesNothing(w: Wallet, x: Request)
    requires Deliver(w, x).1.Err?
    ensures Deliver(w, x).0 == w
  {
  }

  /** The log without the requests whose key had already been booked when they arrived. */
  function WithoutReplays(log: seq<Request>): seq<Request> {
    if log == [] then []
    else
      var front, last := log[..|log| - 1], log[|log| - 1];
      if Replay(After(front), last) then WithoutReplays(front) else WithoutReplays(front) + [last]
  }

  /** Delivering requests again makes no difference to the wallet. */
  lemma {:induction false} DeliveryIsIdempotent(log: seq<Request>)
    ensures After(WithoutReplays(log)) == After(log)
  {
    if log != [] {
      var front, last := log[..|log| - 1], log[|log| - 1];
      DeliveryIsIdempotent(front);
      if Replay(After(front), last) {
        ReplayChangesNothing(After(front), last);
      } else {
        assert WithoutReplays(log)[..|WithoutReplays(log)| - 1] == WithoutReplays(front);
      }
    }
  }

  /** None of the requests that are left repeats a key. */
  lemma {:induction false} NoReplayIsLeft(log: seq<Request>, n: nat)
    requires n < |WithoutReplays(log)|
    ensures !Replay(After(WithoutReplays(log)[..n]), WithoutReplays(log)[n])
  {
    var front, last := log[..|log| - 1], log[|log| - 1];
    if n < |WithoutReplays(front)| {
      NoReplayIsLeft(front, n);
      assert WithoutReplays(log)[..n] == WithoutReplays(front)[..n];
    } else {
      DeliveryIsIdempotent(front);
      assert WithoutReplays(log)[..n] == WithoutReplays(front);
    }
  }

  lemma DeliveryAppends(w: Wallet, x: Request)
    ensures w.entries <= Deliver(w, x).0.entries
  {
  }

  lemma {:induction false} LogGrows(log: seq<Request>, n: nat)
    requires n <= |log|
    ensures After(log[..n]).entries <= After(log).entries
  {
    if n < |log| {
      LogGrows(log[..|log| - 1], n);
      assert log[..|log| - 1][..n] == log[..n];
      DeliveryAppends(After(log[..|log| - 1]), log[|log| - 1]);
    } else {
      assert log[..n] == log;
    }
  }

  lemma AppendAnswersByKey(w: Wallet, d: Direction, kind: Kind, amount: int, key: string, invoice: Option<string>, reverses: Option<nat>)
    requires Append(w, d, kind, amount, key, invoice, reverses).1.Ok?
    ensures CleanKey(key).Ok?
    ensures FindKey(Append(w, d, kind, amount, key, invoice, reverses).0.entries, CleanKey(key).value)
         == Some(Append(w, d, kind, amount, key, invoice, reverses).1.value)
  {
  }

  lemma FoundAt(es: seq<Entry>, i: nat)
    requires SoundEntries(es) && i < |es|
    ensures FindKey(es, es[i].key) == Some(i)
  {
    FoundIffPresent(es, es[i].key);
    var j := FindKey(es, es[i].key).value;
    if i < j { KeysUnique(es, i, j); }
    if j < i { KeysUnique(es, j, i); }
  }

  /** An accepted request other than a freeze is answered with the row of its key. */
  lemma AcceptedUnderKey(w: Wallet, x: Request)
    requires Sound(w) && Deliver(w, x).1.Ok? && !x.FreezeRequest?
    ensures RequestKey(x).Some? && FindKey(Deliver(w, x).0.entries, RequestKey(x).value) == Some(Deliver(w, x).1.value)
  {
    match x
    case CreditRequest(amount, key, kind, refusal) => AppendAnswersByKey(w, Credit, kind, amount, key, None, None);
    case DebitRequest(amount, key, refusal) => AppendAnswersByKey(w, Debit, Adjustment, amount, key, None, None);
    case ReverseRequest(row, key, refusal) =>
      if FindReversal(w.entries, row).Some? {
        FoundAt(w.entries, FindReversal(w.entries, row).value);
      } else {
        AppendAnswersByKey(w, Opposite(w.entries[row].direction), Reversal, w.entries[row].amount, key, None, Some(row));
      }
    case ChargeRequest(invoice, amount) =>
      AppendAnswersByKey(w, Debit, SubscriptionPayment, amount, PaymentKey(invoice), Some(invoice), None);
  }

  lemma ReversalFoundIffPresent(es: seq<Entry>, row: nat)
    ensures FindReversal(es, row).None? <==> forall i :: 0 <= i < |es| ==> es[i].reverses != Some(row)
  {
    FindSpec(Reverses(row), es);
  }

  lemma ReversalLasts(es: seq<Entry>, more: seq<Entry>, row: nat)
    requires es <= more && FindReversal(es, row).Some?
    ensures FindReversal(more, row).Some?
  {
    ReversalFoundIffPresent(more, row);
    assert more[FindReversal(es, row).value].reverses == Some(row);
  }

  /** What the wallet's later state may still refuse: its status, its balance, or a row reversed under another key. */
  predicate Admits(w: Wallet, x: Request) {
    match x
    case CreditRequest(_, _, _, _) => !w.status.Closed?
    case DebitRequest(_, _, _) => w.status.Active?
    case ChargeRequest(_, amount) => w.status.Active? && amount <= w.balance
    case ReverseRequest(row, key, _) =>
      var r := FindReversal(w.entries, row);
      r.Some? ==> Ok(w.entries[r.value].key) == CleanKey(key)
    case FreezeRequest(_, _) => !w.status.Closed?
  }

  /** An append answered once is answered with the same row while that row is there. */
  lemma AppendAgain(w: Wallet, later: Wallet, d: Direction, kind: Kind, amount: int, key: string, invoice: Option<string>, a: Option<nat>, b: Option<nat>)
    requires Append(w, d, kind, amount, key, invoice, a).1.Ok? && CleanKey(key).Ok?
    requires Append(w, d, kind, amount, key, invoice, a).0.entries <= later.entries
    requires FindKey(later.entries, CleanKey(key).value) == Some(Append(w, d, kind, amount, key, invoice, a).1.value)
    ensures Append(later, d, kind, amount, key, invoice, b) == (later, Append(w, d, kind, amount, key, invoice, a).1)
  {
  }

  lemma ReversedAgain(w: Wallet, later: Wallet, row: nat, key: string)
    requires Reverse(w, row, key, None).1.Ok? && Reverse(w, row, key, None).0.entries <= later.entries && CleanKey(key).Ok?
    requires FindKey(later.entries, CleanKey(key).value) == Some(Reverse(w, row, key, None).1.value)
    ensures Reverse(later, row, key, None).1.Ok? <==> Admits(later, ReverseRequest(row, key, None))
  {
    DeliveryAppends(w, ReverseRequest(row, key, None));
    if FindReversal(w.entries, row).Some? {
      ReversalLasts(w.entries, later.entries, row);
    } else {
      var e := w.entries[row];
      assert later.entries[row] == e;
      AppendAgain(w, later, Opposite(e.direction), Reversal, e.amount, key, None, Some(row), Some(row));
    }
  }

  lemma AnsweredAgain(w: Wallet, later: Wallet, x: Request)
    requires Deliver(w, x).1.Ok? && !x.FreezeRequest? && Deliver(w, x).0.entries <= later.entries
    requires RequestKey(x).Some? && FindKey(later.entries, RequestKey(x).value) == Some(Deliver(w, x).1.value)
    ensures Deliver(later, x).1.Ok? <==> Admits(later, x)
  {
    match x
    case CreditRequest(amount, key, kind, _) => AppendAgain(w, later, Credit, kind, amount, key, None, None, None);
    case DebitRequest(amount, key, _) => AppendAgain(w, later, Debit, Adjustment, amount, key, None, None, None);
    case ReverseRequest(row, key, _) => ReversedAgain(w, later, row, key);
    case ChargeRequest(invoice, amount) =>
      AppendAgain(w, later, Debit, SubscriptionPayment, amount, PaymentKey(invoice), Some(invoice), None, None);
  }

  /**
    Delivered again after anything else has happened, an accepted request changes nothing, cannot get another answer,
    and gets its answer exactly when the wallet still admits it.
    */
  lemma Redelivery(log: seq<Request>, n: nat)
    requires n < |log| && Deliver(After(log[..n]), log[n]).1.Ok? && !log[n].FreezeRequest?
    ensures Deliver(After(log), log[n]).0 == After(log)
    ensures Deliver(After(log), log[n]).1.Ok? ==> Deliver(After(log), log[n]).1 == Deliver(After(log[..n]), log[n]).1
    ensures Deliver(After(log), log[n]).1.Ok? <==> Admits(After(log), log[n])
  {
    var before, x := After(log[..n]), log[n];
    AlwaysSound(log[..n]);
    AlwaysSound(log);
    AcceptedUnderKey(before, x);
    LogGrows(log, n + 1);
    assert log[..n + 1][..n] == log[..n];
    FindKeyInLonger(After(log[..n + 1]).entries, After(log).entries, RequestKey(x).value);
    ReplayChangesNothing(After(log), x);
    if Deliver(After(log), x).1.Ok? { AcceptedUnderKey(After(log), x); }
    AnsweredAgain(before, After(log), x);
  }
}
