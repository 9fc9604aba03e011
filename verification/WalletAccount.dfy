/**
  The wallet row as the services update it in place. Each operation does what `Ledger` says and keeps `Valid`: the rows are
  those that follow from the requests made so far, so what `Ledger` and `Reversals` prove of every log holds of the row.
  */
module WalletAccount {
  import opened Totals
  import opened Ledger

  /** One request later the wallet is the delivered one, and still sound. */
  lemma Recorded(log: seq<Request>, x: Request)
    ensures After(log + [x]) == Deliver(After(log), x).0 && Sound(After(log + [x]))
  {
    assert (log + [x])[..|log|] == log;
    AlwaysSound(log + [x]);
  }

  class Account {
    var status: WalletStatus
    var balance: int
    var version: int
    var entries: seq<Entry>
    ghost var log: seq<Request>

    function State(): Wallet
      reads this
    {
      Wallet(status, balance, version, entries)
    }

    /** The row is what the requests in `log` made of an opened wallet, and its ledger is sound. */
    ghost predicate Valid()
      reads this
    {
      State() == After(log) && Sound(State())
    }

    constructor ()
      ensures Valid() && log == []
      ensures State() == OPENED
    {
      status, balance, version, entries := Active, 0, 0, [];
      log := [];
    }

    /** What rolling a transaction back does: the row is again what it was, and so is its history. */
    method Restore(w: Wallet, ghost past: seq<Request>)
      requires w == After(past)
      modifies this
      ensures Valid() && log == past
      ensures State() == w
    {
      status, balance, version, entries := w.status, w.balance, w.version, w.entries;
      log := past;
      AlwaysSound(past);
    }

    /** `_append_locked`. */
    method AppendLocked(d: Direction, kind: Kind, amount: int, key: string, invoice: Option<string>, reverses: Option<nat>)
      returns (r: Result<nat>)
      modifies `balance, `version, `entries
      ensures (State(), r) == Append(old(State()), d, kind, amount, key, invoice, reverses)
    {
      if amount <= 0 {
        return Err("wallet_amount_invalid");
      }
      var clean := CleanKey(key);
      if clean.Err? {
        return Err(clean.code);
      }
      var existing := FindKey(entries, clean.value);
      if existing.Some? {
        if !SameOperation(entries[existing.value], d, kind, amount, invoice) {
          return Err("wallet_idempotency_conflict");
        }
        return Ok(existing.value);
      }
      var delta := if d == Credit then amount else -amount;
      var balanceAfter := balance + delta;
      if balanceAfter < 0 {
        return Err("wallet_insufficient_balance");
      }
      r := Book(Entry(d, kind, amount, clean.value, invoice, reverses, balanceAfter, version + 1));
    }

    /** The wallet row is saved with its new balance and version, then the ledger row is created. */
    method Book(e: Entry) returns (r: Result<nat>)
      modifies `balance, `version, `entries
      ensures State() == Wallet(old(status), e.balanceAfter, old(version) + 1, old(entries) + [e])
      ensures r == Ok(|old(entries)|)
    {
      balance := e.balanceAfter;
      version := version + 1;
      entries := entries + [e];
      r := Ok(|entries| - 1);
    }

    method CreditWallet(amount: int, key: string, kind: Kind, refusal: Option<string>) returns (r: Result<nat>)
      requires Valid()
      modifies this
      ensures Valid() && log == old(log) + [CreditRequest(amount, key, kind, refusal)]
      ensures (State(), r) == Ledger.CreditWallet(old(State()), amount, key, kind, refusal)
    {
      Recorded(log, CreditRequest(amount, key, kind, refusal));
      log := log + [CreditRequest(amount, key, kind, refusal)];
      if refusal.Some? {
        return Err(refusal.value);
      }
      if status == Closed {
        return Err("wallet_closed");
      }
      r := AppendLocked(Credit, kind, amount, key, None, None);
    }

    method DebitAdjustment(amount: int, key: string, refusal: Option<string>) returns (r: Result<nat>)
      requires Valid()
      modifies this
      ensures Valid() && log == old(log) + [DebitRequest(amount, key, refusal)]
      ensures (State(), r) == Ledger.DebitAdjustment(old(State()), amount, key, refusal)
    {
      Recorded(log, DebitRequest(amount, key, refusal));
      log := log + [DebitRequest(amount, key, refusal)];
      if refusal.Some? {
        return Err(refusal.value);
      }
      if status != Active {
        return Err("wallet_not_active");
      }
      r := AppendLocked(Debit, Adjustment, amount, key, None, None);
    }

    /** The ledger half of `reverse_transaction`. */
    method Reverse(row: nat, key: string, refusal: Option<string>) returns (r: Result<nat>)
      requires Valid()
      modifies this
      ensures Valid() && log == old(log) + [ReverseRequest(row, key, refusal)]
      ensures (State(), r) == Ledger.Reverse(old(State()), row, key, refusal)
    {
      Recorded(log, ReverseRequest(row, key, refusal));
      log := log + [ReverseRequest(row, key, refusal)];
      if refusal.Some? {
        return Err(refusal.value);
      }
      if |entries| <= row {
        return Err("resource_not_found");
      }
      var existing := FindReversal(entries, row);
      if existing.Some? {
        var clean := CleanKey(key);
        if clean.Err? {
          return Err(clean.code);
        }
        if entries[existing.value].key == clean.value {
          return Ok(existing.value);
        }
        return Err("wallet_transaction_already_reversed");
      }
      var direction := if entries[row].direction == Credit then Debit else Credit;
      r := AppendLocked(direction, Reversal, entries[row].amount, key, None, Some(row));
    }

    /** The ledger half of `pay_invoice_from_wallet`. */
    method Charge(invoice: string, required: int) returns (r: Result<Option<nat>>)
      requires Valid()
      modifies this
      ensures Valid() && log == old(log) + [ChargeRequest(invoice, required)]
      ensures (State(), r) == Ledger.Charge(old(State()), invoice, required)
    {
      Recorded(log, ChargeRequest(invoice, required));
      log := log + [ChargeRequest(invoice, required)];
      if status != Active {
        return Err("wallet_not_active");
      }
      if required <= 0 {
        return Err("invoice_amount_invalid");
      }
      if balance < required {
        return Ok(None);
      }
      var entry := AppendLocked(Debit, SubscriptionPayment, required, PaymentKey(invoice), Some(invoice), None);
      r := if entry.Ok? then Ok(Some(entry.value)) else Err(entry.code);
    }

    method SetFrozen(frozen: bool, refusal: Option<string>) returns (r: Result<nat>)
      requires Valid()
      modifies this
      ensures Valid() && log == old(log) + [FreezeRequest(frozen, refusal)]
      ensures (State(), r) == Ledger.SetFrozen(old(State()), frozen, refusal)
    {
      Recorded(log, FreezeRequest(frozen, refusal));
      log := log + [FreezeRequest(frozen, refusal)];
      if refusal.Some? {
        return Err(refusal.value);
      }
      if status == Closed {
        return Err("wallet_closed");
      }
      status := if frozen then Frozen else Active;
      r := Ok(0);
    }

    /** `reconcile_wallet`: the expected balance, the difference to the cached one, and the number of rows. */
    method Reconcile() returns (expected: int, difference: int, rows: nat)
      ensures expected == Sum(entries) && difference == Difference(State()) && rows == |entries|
      ensures Sound(State()) ==> difference == 0 && rows == version && 0 <= balance
    {
      SumIsDifference(entries);
      if Sound(State()) { SumNonNegative(entries); }
      var credits := DirectionSum(entries, Credit);
      var debits := DirectionSum(entries, Debit);
      expected := credits - debits;
      difference := expected - balance;
      rows := |entries|;
    }
  }
}
