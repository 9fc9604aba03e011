/** What the wallet accepts and what it then books, said of its rows alone. */
module WalletRules {
  import opened Totals
  import opened Text
  import opened Ledger

  // ----- keys -----

  /** The stored key is the text of the given one without the spaces around it, of at least 8 characters, the first 200 of them. */
  ghost predicate StoredUnder(given: string, stored: string) {
    exists before, core, after :: AllSpace(before) && AllSpace(after) && Bare(core) && given == before + core + after
      && 8 <= |core| && stored == if |core| <= 200 then core else core[..200]
  }

  lemma StoredUnderIs(given: string, stored: string)
    ensures StoredUnder(given, stored) <==> CleanKey(given) == Ok(stored)
  {
    if StoredUnder(given, stored) {
      var before, core, after :| AllSpace(before) && AllSpace(after) && Bare(core) && given == before + core + after
        && 8 <= |core| && stored == if |core| <= 200 then core else core[..200];
      StripOf(before, core, after);
    } else if CleanKey(given) == Ok(stored) {
      var before, after := StripIs(given);
      assert Bare(Strip(given));
    }
  }

  /** Row i has the key. */
  ghost predicate HasTheKey(w: Wallet, given: string, i: nat) { i < |w.entries| && StoredUnder(given, w.entries[i].key) }

  ghost predicate KeyIsKnown(w: Wallet, given: string) { exists i: nat :: HasTheKey(w, given, i) }

  lemma KeyIsKnownIs(w: Wallet, given: string)
    ensures KeyIsKnown(w, given) <==> CleanKey(given).Ok? && FindKey(w.entries, CleanKey(given).value).Some?
    ensures CleanKey(given).Ok? ==> forall i: nat :: HasTheKey(w, given, i) <==> i < |w.entries| && w.entries[i].key == CleanKey(given).value
    ensures CleanKey(given).Err? ==> forall i: nat :: !HasTheKey(w, given, i)
  {
    forall stored ensures StoredUnder(given, stored) <==> CleanKey(given) == Ok(stored) { StoredUnderIs(given, stored); }
    if CleanKey(given).Ok? {
      var found := FindKey(w.entries, CleanKey(given).value);
      FoundIffPresent(w.entries, CleanKey(given).value);
      if found.Some? { assert HasTheKey(w, given, found.value); }
    }
  }

  // ----- one row -----

  /** The row is of the operation asked for. */
  predicate Matches(e: Entry, d: Direction, kind: Kind, amount: int, invoice: Option<string>) {
    (e.direction, e.kind, e.amount, e.invoice) == (d, kind, amount, invoice)
  }

  /** A positive amount under a usable key: either the very same operation under a known one, or one the balance allows. */
  ghost predicate Accepts(w: Wallet, d: Direction, kind: Kind, amount: int, key: string, invoice: Option<string>) {
    && 0 < amount && (exists stored :: StoredUnder(key, stored))
    && if KeyIsKnown(w, key) then exists i: nat :: HasTheKey(w, key, i) && Matches(w.entries[i], d, kind, amount, invoice)
       else d == Debit ==> amount <= w.balance
  }

  /** Under a known key nothing; else one row with the new balance and the next version. */
  ghost predicate Books(w: Wallet, u: Wallet, r: nat, d: Direction, kind: Kind, amount: int, key: string, invoice: Option<string>, reverses: Option<nat>) {
    if KeyIsKnown(w, key) then u == w && HasTheKey(w, key, r)
    else
      && r == |w.entries| && |u.entries| == r + 1 && u.entries[..r] == w.entries && u.status == w.status
      && u.balance == (if d == Credit then w.balance + amount else w.balance - amount) && u.version == w.version + 1
      && var e := u.entries[r];
         && Matches(e, d, kind, amount, invoice) && StoredUnder(key, e.key) && e.reverses == reverses
         && e.balanceAfter == u.balance && e.version == u.version
  }

  lemma KnownAccepts(w: Wallet, d: Direction, kind: Kind, amount: int, key: string, invoice: Option<string>, found: nat)
    requires Sound(w) && CleanKey(key).Ok? && FindKey(w.entries, CleanKey(key).value) == Some(found)
    ensures Accepts(w, d, kind, amount, key, invoice) <==> 0 < amount && Matches(w.entries[found], d, kind, amount, invoice)
  {
    KeyIsKnownIs(w, key);
    StoredUnderIs(key, CleanKey(key).value);
    assert HasTheKey(w, key, found);
    forall i: nat | HasTheKey(w, key, i) ensures i == found { FoundAt(w.entries, i); }
  }

  lemma NewAccepts(w: Wallet, d: Direction, kind: Kind, amount: int, key: string, invoice: Option<string>)
    requires CleanKey(key).Err? || FindKey(w.entries, CleanKey(key).value).None?
    ensures Accepts(w, d, kind, amount, key, invoice) <==> 0 < amount && CleanKey(key).Ok? && (d == Debit ==> amount <= w.balance)
  {
    KeyIsKnownIs(w, key);
    if CleanKey(key).Ok? { StoredUnderIs(key, CleanKey(key).value); }
    forall stored ensures StoredUnder(key, stored) <==> CleanKey(key) == Ok(stored) { StoredUnderIs(key, stored); }
  }

  lemma AppendedIfAccepted(w: Wallet, d: Direction, kind: Kind, amount: int, key: string, invoice: Option<string>, reverses: Option<nat>)
    requires Sound(w)
    ensures Append(w, d, kind, amount, key, invoice, reverses).1.Ok? <==> Accepts(w, d, kind, amount, key, invoice)
  {
    var clean := CleanKey(key);
    if clean.Ok? && FindKey(w.entries, clean.value).Some? {
      KnownAccepts(w, d, kind, amount, key, invoice, FindKey(w.entries, clean.value).value);
    } else {
      NewAccepts(w, d, kind, amount, key, invoice);
    }
  }

  lemma AppendBooks(w: Wallet, d: Direction, kind: Kind, amount: int, key: string, invoice: Option<string>, reverses: Option<nat>)
    requires Append(w, d, kind, amount, key, invoice, reverses).1.Ok?
    ensures var (u, r) := Append(w, d, kind, amount, key, invoice, reverses); Books(w, u, r.value, d, kind, amount, key, invoice, reverses)
  {
    KeyIsKnownIs(w, key);
    StoredUnderIs(key, CleanKey(key).value);
  }

  /** In a sound wallet, as every reachable one is, an append is accepted exactly so, books exactly that, and else changes nothing. */
  lemma AppendedIff(w: Wallet, d: Direction, kind: Kind, amount: int, key: string, invoice: Option<string>, reverses: Option<nat>)
    requires Sound(w)
    ensures var (u, r) := Append(w, d, kind, amount, key, invoice, reverses);
      && (r.Ok? <==> Accepts(w, d, kind, amount, key, invoice))
      && (r.Ok? ==> Books(w, u, r.value, d, kind, amount, key, invoice, reverses))
      && (r.Err? ==> u == w)
  {
    AppendedIfAccepted(w, d, kind, amount, key, invoice, reverses);
    if Append(w, d, kind, amount, key, invoice, reverses).1.Ok? { AppendBooks(w, d, kind, amount, key, invoice, reverses); }
  }

  // ----- the requests -----

  /** A credit: not refused, the wallet not closed. */
  lemma CreditedIff(w: Wallet, amount: int, key: string, kind: Kind, refusal: Option<string>)
    requires Sound(w)
    ensures var (u, r) := CreditWallet(w, amount, key, kind, refusal);
      && (r.Ok? <==> refusal == None && w.status != Closed && Accepts(w, Credit, kind, amount, key, None))
      && (r.Ok? ==> Books(w, u, r.value, Credit, kind, amount, key, None, None))
      && (r.Err? ==> u == w)
  {
    AppendedIff(w, Credit, kind, amount, key, None, None);
  }

  /** A debit adjustment: not refused, the wallet active. */
  lemma DebitedIff(w: Wallet, amount: int, key: string, refusal: Option<string>)
    requires Sound(w)
    ensures var (u, r) := DebitAdjustment(w, amount, key, refusal);
      && (r.Ok? <==> refusal == None && w.status == Active && Accepts(w, Debit, Adjustment, amount, key, None))
      && (r.Ok? ==> Books(w, u, r.value, Debit, Adjustment, amount, key, None, None))
      && (r.Err? ==> u == w)
  {
    AppendedIff(w, Debit, Adjustment, amount, key, None, None);
  }

  /** Row j reverses row i. */
  predicate Undoes(w: Wallet, j: nat, i: nat) { j < |w.entries| && w.entries[j].reverses == Some(i) }

  /** A reversal of a row not reversed yet books the opposite of the row, for its amount, linked to it. */
  lemma ReversedIff(w: Wallet, row: nat, key: string, refusal: Option<string>)
    requires Sound(w) && forall j: nat :: !Undoes(w, j, row)
    ensures var (u, r) := Reverse(w, row, key, refusal);
      && (r.Ok? <==> (
            && refusal == None && row < |w.entries|
            && Accepts(w, if w.entries[row].direction == Credit then Debit else Credit, Reversal, w.entries[row].amount, key, None)))
      && (r.Ok? ==> Books(w, u, r.value, if w.entries[row].direction == Credit then Debit else Credit, Reversal, w.entries[row].amount, key, None, Some(row)))
      && (r.Err? ==> u == w)
  {
    ReversalFoundIffPresent(w.entries, row);
    forall j | 0 <= j < |w.entries| ensures w.entries[j].reverses != Some(row) { assert !Undoes(w, j, row); }
    if row < |w.entries| { AppendedIff(w, Opposite(w.entries[row].direction), Reversal, w.entries[row].amount, key, None, Some(row)); }
  }

  /** One of a reversed row books nothing, and is answered exactly under the key of the row that reversed it. */
  lemma ReversedAlready(w: Wallet, row: nat, key: string, refusal: Option<string>, j: nat)
    requires Sound(w) && row < |w.entries| && Undoes(w, j, row) && forall k: nat :: Undoes(w, k, row) ==> k == j
    ensures Reverse(w, row, key, refusal).0 == w
    ensures Reverse(w, row, key, refusal).1.Ok? <==> refusal == None && HasTheKey(w, key, j)
    ensures Reverse(w, row, key, refusal).1.Ok? ==> Reverse(w, row, key, refusal).1.value == j
  {
    ReversalFoundIffPresent(w.entries, row);
    var found := FindReversal(w.entries, row).value;
    assert Undoes(w, found, row);
    StoredUnderIs(key, w.entries[j].key);
  }

  /** A charge of an invoice: of an active wallet, a positive amount; booked when covered, left when not. */
  lemma ChargedIff(w: Wallet, invoice: string, required: int)
    requires Sound(w)
    ensures var (u, r) := Charge(w, invoice, required);
      var key := "invoice:" + invoice + ":wallet-payment";
      && (r == Ok(None) <==> w.status == Active && 0 < required && w.balance < required)
      && (r.Ok? && r.value.Some? <==>
           (w.status == Active && 0 < required <= w.balance && Accepts(w, Debit, SubscriptionPayment, required, key, Some(invoice))))
      && (r.Ok? && r.value.Some? ==> Books(w, u, r.value.value, Debit, SubscriptionPayment, required, key, Some(invoice), None))
      && (r.Err? || r == Ok(None) ==> u == w)
  {
    AppendedIff(w, Debit, SubscriptionPayment, required, PaymentKey(invoice), Some(invoice), None);
  }

  /** Freezing and thawing: not refused, the wallet not closed; the status is all that changes. */
  lemma FrozenIff(w: Wallet, frozen: bool, refusal: Option<string>)
    ensures SetFrozen(w, frozen, refusal).1.Ok? <==> refusal == None && w.status != Closed
    ensures SetFrozen(w, frozen, refusal).1.Ok? ==> SetFrozen(w, frozen, refusal).0 == w.(status := if frozen then Frozen else Active)
    ensures SetFrozen(w, frozen, refusal).1.Err? ==> SetFrozen(w, frozen, refusal).0 == w
  {
  }
}
