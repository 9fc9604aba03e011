/** What the contact services accept and what they then write, said of the rows alone, repeated keys included. */
module ContactRules {
  import opened Totals
  import opened Text
  import opened Identities
  import opened Contacts

  // ----- adding -----

  /** A row that is stored has the type, the value and the channel. */
  predicate IsStored(d: Directory, key: IdentityKey) {
    exists i :: 0 <= i < |d.identities| && !d.identities[i].deleted && d.identities[i].key == key
  }

  /** An identity is added exactly when something is left of its value, no stored row has it, and the contact is there. */
  lemma AddedIff(d: Directory, contact: nat, kind: IdentityType, raw: string, channel: Option<int>)
    ensures var (e, r) := AddIdentity(d, contact, kind, raw, channel);
      var key := IdentityKey(kind, Normalize(kind, raw), channel);
      && (r.Ok? <==> key.value != [] && !IsStored(d, key) && contact < |d.contacts|)
      && (r.Ok? ==> r.value == |d.identities| && e == d.(identities := d.identities + [Identity(key, contact, false)]))
      && (r.Err? ==> e == d)
  {
  }

  /** A record is added exactly for a contact there is. */
  lemma RecordAddedIff(d: Directory, record: Record)
    ensures AddRecord(d, record) == if record.contact < |d.contacts| then d.(records := d.records + [record]) else d
  {
  }

  // ----- merging -----

  /** Two different contacts, both there, neither merged before. */
  predicate MayMerge(d: Directory, source: nat, target: nat) {
    && source != target && source < |d.contacts| && target < |d.contacts|
    && d.contacts[source].mergedInto == None && d.contacts[target].mergedInto == None
  }

  /** A merge archives the source, names the target in it, gives the target its tags and records, and touches no other contact. */
  lemma MergedIff(d: Directory, source: nat, target: nat)
    ensures var (e, r) := Merge(d, source, target);
      && (r.Ok? <==> MayMerge(d, source, target)) && (r.Err? ==> e == d)
      && (r.Ok? ==>
           && r.value == target && |e.contacts| == |d.contacts| && |e.records| == |d.records|
           && e.contacts[source] == d.contacts[source].(mergedInto := Some(target), archived := true)
           && e.contacts[target] == d.contacts[target].(tags := e.contacts[target].tags)
           && (forall tag :: tag in e.contacts[target].tags <==> tag in d.contacts[target].tags || tag in d.contacts[source].tags)
           && (forall c :: 0 <= c < |d.contacts| && c != source && c != target ==> e.contacts[c] == d.contacts[c])
           && (forall i :: 0 <= i < |d.records| ==>
                e.records[i] == if d.records[i].contact == source then Record(d.records[i].table, target) else d.records[i]))
  {
  }

  // ----- the loop over the source's identities, whatever keys are stored -----

  predicate StoredRow(rows: seq<Identity>, i: nat) { i < |rows| && !rows[i].deleted }

  /** Some stored row other than i has the key. */
  ghost predicate OtherHas(rows: seq<Identity>, i: int, key: IdentityKey) {
    exists j: nat :: j != i && StoredRow(rows, j) && rows[j].key == key
  }

  /** Some stored row has the key. */
  ghost predicate SomeHas(rows: seq<Identity>, key: IdentityKey) { OtherHas(rows, -1, key) }

  /** Rows keep their keys, none comes back, and every key that was stored is. */
  ghost predicate NoKeyIsLost(rows: seq<Identity>, moved: seq<Identity>) {
    && |moved| == |rows| && (forall i: nat :: i < |rows| ==> moved[i].key == rows[i].key)
    && (forall i: nat :: StoredRow(moved, i) ==> StoredRow(rows, i))
    && forall key :: SomeHas(rows, key) ==> SomeHas(moved, key)
  }

  /** What the loop has made of row i. */
  ghost predicate RowLaw(rows: seq<Identity>, moved: seq<Identity>, source: nat, target: nat, i: nat)
    requires i < |rows| == |moved|
  {
    if !StoredRow(rows, i) || rows[i].contact != source then moved[i] == rows[i]
    else if StoredRow(moved, i) then moved[i] == rows[i].(contact := target) && !OtherHas(moved, i, rows[i].key)
    else moved[i] == rows[i].(deleted := true) && SomeHas(moved, rows[i].key)
  }

  lemma ConflictIs(rows: seq<Identity>, i: nat)
    requires i < |rows|
    ensures Conflict(rows, i) <==> OtherHas(rows, i, rows[i].key)
  {
    if OtherHas(rows, i, rows[i].key) {
      var j: nat :| j != i && StoredRow(rows, j) && rows[j].key == rows[i].key;
      assert !rows[j].deleted;
    }
    if Conflict(rows, i) {
      var j :| 0 <= j < |rows| && j != i && !rows[j].deleted && rows[j].key == rows[i].key;
      assert StoredRow(rows, j);
    }
  }

  lemma RoundKeepsKey(rows: seq<Identity>, i: nat, source: nat, target: nat, key: IdentityKey)
    requires i < |rows| && SomeHas(rows, key)
    ensures SomeHas(MoveOne(rows, i, source, target), key)
  {
    var moved := MoveOne(rows, i, source, target);
    ConflictIs(rows, i);
    var k: nat :| k != -1 && StoredRow(rows, k) && rows[k].key == key;
    if !StoredRow(moved, k) {
      k :| k != i && StoredRow(rows, k) && rows[k].key == key;
    }
    assert StoredRow(moved, k) && moved[k].key == key;
  }

  lemma OneRound(rows: seq<Identity>, i: nat, source: nat, target: nat)
    requires i < |rows|
    ensures NoKeyIsLost(rows, MoveOne(rows, i, source, target))
    ensures forall j: nat :: j < |rows| && j != i ==> MoveOne(rows, i, source, target)[j] == rows[j]
  {
    forall key | SomeHas(rows, key) ensures SomeHas(MoveOne(rows, i, source, target), key) { RoundKeepsKey(rows, i, source, target, key); }
  }

  lemma KeysKeptOn(rows: seq<Identity>, a: seq<Identity>, b: seq<Identity>)
    requires NoKeyIsLost(rows, a) && NoKeyIsLost(a, b)
    ensures NoKeyIsLost(rows, b)
  {
  }

  lemma {:induction false} LoopKeepsKeys(rows: seq<Identity>, n: nat, source: nat, target: nat)
    requires n <= |rows|
    ensures NoKeyIsLost(rows, MovedRows(rows, n, source, target))
    ensures forall i: nat :: n <= i < |rows| ==> MovedRows(rows, n, source, target)[i] == rows[i]
  {
    if 0 < n {
      var before := MovedRows(rows, n - 1, source, target);
      LoopKeepsKeys(rows, n - 1, source, target);
      OneRound(before, n - 1, source, target);
      KeysKeptOn(rows, before, MovedRows(rows, n, source, target));
    }
  }

  /** A row dealt with before the round obeys the law after it. */
  lemma LawStays(rows: seq<Identity>, before: seq<Identity>, n: nat, source: nat, target: nat, i: nat)
    requires n < |rows| == |before| && i < n && RowLaw(rows, before, source, target, i)
    ensures RowLaw(rows, MoveOne(before, n, source, target), source, target, i)
  {
    var moved := MoveOne(before, n, source, target);
    OneRound(before, n, source, target);
    assert moved[i] == before[i];
    if OtherHas(moved, i, rows[i].key) {
      var j: nat :| j != i && StoredRow(moved, j) && moved[j].key == rows[i].key;
      assert StoredRow(before, j) && before[j].key == rows[i].key;
    }
  }

  /** The row of the round obeys it. */
  lemma LawBegins(rows: seq<Identity>, before: seq<Identity>, n: nat, source: nat, target: nat)
    requires n < |rows| == |before| && before[n] == rows[n] && source != target
    ensures RowLaw(rows, MoveOne(before, n, source, target), source, target, n)
  {
    var moved := MoveOne(before, n, source, target);
    ConflictIs(before, n);
    if StoredRow(rows, n) && rows[n].contact == source {
      if OtherHas(before, n, rows[n].key) {
        var j: nat :| j != n && StoredRow(before, j) && before[j].key == rows[n].key;
        assert StoredRow(moved, j) && moved[j].key == rows[n].key;
      }
    }
  }

  /**
    The loop deletes a row of the source exactly when another stored row has its key, moves it to the target otherwise, and
    leaves every other row alone; no key is lost.
    */
  lemma {:induction false} LoopLaw(rows: seq<Identity>, n: nat, source: nat, target: nat, i: nat)
    requires i < n <= |rows| && source != target
    ensures NoKeyIsLost(rows, MovedRows(rows, n, source, target))
    ensures RowLaw(rows, MovedRows(rows, n, source, target), source, target, i)
  {
    var before := MovedRows(rows, n - 1, source, target);
    LoopKeepsKeys(rows, n, source, target);
    LoopKeepsKeys(rows, n - 1, source, target);
    if i < n - 1 {
      LoopLaw(rows, n - 1, source, target, i);
      LawStays(rows, before, n - 1, source, target, i);
    } else {
      LawBegins(rows, before, n - 1, source, target);
    }
  }

  // ----- values -----

  /** The same character, upper or lower case. */
  predicate SameLetter(c: char, d: char) {
    c == d || ('A' <= c <= 'Z' && d as int - c as int == 32) || ('A' <= d <= 'Z' && c as int - d as int == 32)
  }

  lemma SameLetterIs(c: char, d: char)
    ensures SameLetter(c, d) <==> FoldChar(c) == FoldChar(d)
  {
  }

  /** Two values other than phone numbers are one identity exactly when they read the same but for spaces around and case. */
  lemma SameTextIff(kind: IdentityType, a: string, b: string)
    requires kind != Phone
    ensures Normalize(kind, a) == Normalize(kind, b) <==>
      (|Strip(a)| == |Strip(b)| && forall i :: 0 <= i < |Strip(a)| ==> SameLetter(Strip(a)[i], Strip(b)[i]))
  {
    var x, y := Strip(a), Strip(b);
    forall i | 0 <= i < |x| && i < |y| ensures SameLetter(x[i], y[i]) <==> FoldChar(x[i]) == FoldChar(y[i]) { SameLetterIs(x[i], y[i]); }
    if CaseFold(x) == CaseFold(y) {
      forall i | 0 <= i < |x| ensures |x| == |y| && SameLetter(x[i], y[i]) { assert CaseFold(x)[i] == CaseFold(y)[i] && |CaseFold(y)| == |y|; }
    }
    if |x| == |y| && forall i :: 0 <= i < |x| ==> SameLetter(x[i], y[i]) {
      assert CaseFold(x) == CaseFold(y);
    }
  }

  lemma DigitAlone(c: char)
    ensures Digits([c]) == if c in "0123456789" then [c] else []
  {
  }

  /** The digits of a text are those of its parts, one after another; with `DigitAlone` that says what they are. */
  lemma {:induction false} DigitsOfParts(a: string, b: string)
    ensures Digits(a + b) == Digits(a) + Digits(b)
  {
    if a == [] {
      assert a + b == b;
    } else {
      assert (a + b)[1..] == a[1..] + b;
      DigitsOfParts(a[1..], b);
    }
  }

  /** A phone number is its digits, after a plus sign when it is written with one or has nine or more. */
  lemma PhoneIs(raw: string)
    ensures var digits := Digits(raw);
      Normalize(Phone, raw) == if 9 <= |digits| || (Strip(raw) != [] && Strip(raw)[0] == '+') then ['+'] + digits else digits
  {
    var before, after := StripIs(raw);
    SpacesHaveNoDigits(before);
    SpacesHaveNoDigits(after);
    DigitsOfParts(before + Strip(raw), after);
    DigitsOfParts(before, Strip(raw));
  }

  lemma {:induction false} SpacesHaveNoDigits(s: string)
    requires AllSpace(s)
    ensures Digits(s) == []
  {
    if s != [] {
      assert IsSpace(s[0]) && AllSpace(s[1..]);
      SpacesHaveNoDigits(s[1..]);
    }
  }
}
