/** Merging is union-find: who survives, who is connected, and where identities end up. */
module ContactMerging {
  import opened Totals
  import opened Identities
  import opened Contacts

  // ----- the surviving contact -----

  /** The event merges source into target when it is delivered after the log. */
  predicate Merges(log: seq<Event>, x: Event) {
    x.MergeEvent? && Merge(After(log), x.source, x.target).1.Ok?
  }

  /** The contact that a contact's record has ended up in. */
  function Survivor(log: seq<Event>, c: nat): nat {
    if log == [] then c
    else
      var front, last := log[..|log| - 1], log[|log| - 1];
      var before := Survivor(front, c);
      if Merges(front, last) && before == last.source then last.target else before
  }

  /** How many merges lie between a contact and its survivor. */
  function Depth(log: seq<Event>, c: nat): nat {
    if log == [] then 0
    else
      var front, last := log[..|log| - 1], log[|log| - 1];
      Depth(front, c) + if Merges(front, last) && Survivor(front, c) == last.source then 1 else 0
  }

  /** What `merged_into` says about contact c. */
  function MergedInto(log: seq<Event>, c: nat): Option<nat> {
    if c < |After(log).contacts| then After(log).contacts[c].mergedInto else None
  }

  lemma MergeOutcome(log: seq<Event>, x: Event, c: nat)
    ensures MergedInto(log + [x], c) == if Merges(log, x) && c == x.source then Some(x.target) else MergedInto(log, c)
    ensures Merges(log, x) ==> x.source != x.target && MergedInto(log, x.source).None? && MergedInto(log, x.target).None?
    ensures |After(log).contacts| <= |After(log + [x]).contacts|
  {
    assert (log + [x])[..|log|] == log;
  }

  /**
    The survivor is not merged; an unmerged contact survives itself; a merged one has the survivor of the contact it was
    merged into, and lies one merge deeper.
    */
  lemma {:induction false} SurvivorByLink(log: seq<Event>, c: nat)
    ensures MergedInto(log, Survivor(log, c)).None?
    ensures MergedInto(log, c).None? ==> Survivor(log, c) == c && Depth(log, c) == 0
    ensures MergedInto(log, c).Some? ==>
      Survivor(log, c) == Survivor(log, MergedInto(log, c).value) && Depth(log, c) == Depth(log, MergedInto(log, c).value) + 1
  {
    if log != [] {
      var front, last := log[..|log| - 1], log[|log| - 1];
      assert log == front + [last];
      SurvivorByLink(front, c);
      MergeOutcome(front, last, c);
      MergeOutcome(front, last, Survivor(log, c));
      if MergedInto(log, c).Some? {
        SurvivorByLink(front, MergedInto(log, c).value);
      }
    }
  }

  /** Following `merged_into` k times. */
  function Follow(log: seq<Event>, c: nat, k: nat): nat
    decreases k
  {
    if k == 0 || MergedInto(log, c).None? then c else Follow(log, MergedInto(log, c).value, k - 1)
  }

  /** Each link followed keeps the survivor and lies one merge less deep, until there is no link left. */
  lemma {:induction false} FollowDescends(log: seq<Event>, c: nat, k: nat)
    ensures Survivor(log, Follow(log, c, k)) == Survivor(log, c)
    ensures Depth(log, Follow(log, c, k)) == if Depth(log, c) <= k then 0 else Depth(log, c) - k
    decreases k
  {
    SurvivorByLink(log, c);
    if 0 < k && MergedInto(log, c).Some? { FollowDescends(log, MergedInto(log, c).value, k - 1); }
  }

  /** Followed k times `merged_into` has led to the survivor exactly when k is at least the depth; there it stops. */
  lemma LinksReachSurvivorIff(log: seq<Event>, c: nat, k: nat)
    ensures Follow(log, c, k) == Survivor(log, c) <==> Depth(log, c) <= k
  {
    FollowDescends(log, c, k);
    SurvivorByLink(log, Follow(log, c, k));
    SurvivorByLink(log, c);
    SurvivorByLink(log, Survivor(log, c));
  }

  /** No contact is merged into itself, directly or through others. */
  lemma {:induction false} NoCycle(log: seq<Event>, c: nat, k: nat)
    requires 0 < k && MergedInto(log, c).Some?
    ensures Depth(log, Follow(log, c, k)) < Depth(log, c) && Follow(log, c, k) != c
    decreases k
  {
    SurvivorByLink(log, c);
    var p := MergedInto(log, c).value;
    SurvivorByLink(log, p);
    if 1 < k && MergedInto(log, p).Some? { NoCycle(log, p, k - 1); }
  }

  // ----- who is connected -----

  /** The successful merges of a log. */
  function Pairs(log: seq<Event>): set<(nat, nat)> {
    if log == [] then {}
    else
      var front, last := log[..|log| - 1], log[|log| - 1];
      Pairs(front) + if Merges(front, last) then {(last.source, last.target)} else {}
  }

  predicate Neighbours(log: seq<Event>, a: nat, b: nat) { (a, b) in Pairs(log) || (b, a) in Pairs(log) }

  /** A walk along merges, in either direction. */
  ghost predicate Walk(log: seq<Event>, path: seq<nat>) {
    path != [] && forall i :: 0 <= i < |path| - 1 ==> Neighbours(log, path[i], path[i + 1])
  }

  ghost predicate Connected(log: seq<Event>, a: nat, b: nat) {
    exists path :: Walk(log, path) && path[0] == a && path[|path| - 1] == b
  }

  lemma {:induction false} PairHasOneSurvivor(log: seq<Event>, a: nat, b: nat)
    requires (a, b) in Pairs(log)
    ensures Survivor(log, a) == Survivor(log, b)
  {
    var front, last := log[..|log| - 1], log[|log| - 1];
    if (a, b) in Pairs(front) {
      PairHasOneSurvivor(front, a, b);
    } else {
      assert log == front + [last];
      MergeOutcome(front, last, a);
      SurvivorByLink(front, a);
      SurvivorByLink(front, b);
    }
  }

  lemma {:induction false} WalkHasOneSurvivor(log: seq<Event>, path: seq<nat>)
    requires Walk(log, path)
    ensures Survivor(log, path[0]) == Survivor(log, path[|path| - 1])
  {
    if 1 < |path| {
      var n := |path| - 1;
      assert Neighbours(log, path[n - 1], path[n]);
      if (path[n - 1], path[n]) in Pairs(log) { PairHasOneSurvivor(log, path[n - 1], path[n]); }
      else { PairHasOneSurvivor(log, path[n], path[n - 1]); }
      WalkHasOneSurvivor(log, path[..n]);
    }
  }

  lemma {:induction false} WalkToSurvivor(log: seq<Event>, c: nat) returns (path: seq<nat>)
    ensures Walk(log, path) && path[0] == c && path[|path| - 1] == Survivor(log, c)
  {
    if log == [] {
      path := [c];
    } else {
      var front, last := log[..|log| - 1], log[|log| - 1];
      path := WalkToSurvivor(front, c);
      assert Walk(log, path) by {
        forall i | 0 <= i < |path| - 1 ensures Neighbours(log, path[i], path[i + 1]) { assert Neighbours(front, path[i], path[i + 1]); }
      }
      if Merges(front, last) && Survivor(front, c) == last.source { path := WalkOn(log, path, last.target); }
    }
  }

  lemma WalkOn(log: seq<Event>, path: seq<nat>, next: nat) returns (longer: seq<nat>)
    requires Walk(log, path) && Neighbours(log, path[|path| - 1], next)
    ensures Walk(log, longer) && longer[0] == path[0] && longer[|longer| - 1] == next
  {
    longer := path + [next];
    forall i | 0 <= i < |longer| - 1 ensures Neighbours(log, longer[i], longer[i + 1]) {
      if i < |path| - 1 { assert Neighbours(log, path[i], path[i + 1]); }
    }
  }

  lemma {:induction false} WalkBack(log: seq<Event>, path: seq<nat>, start: seq<nat>) returns (joined: seq<nat>)
    requires Walk(log, path) && Walk(log, start) && start[|start| - 1] == path[|path| - 1]
    ensures Walk(log, joined) && joined[0] == start[0] && joined[|joined| - 1] == path[0]
    decreases |path|
  {
    if |path| == 1 {
      joined := start;
    } else {
      var n := |path| - 1;
      assert Neighbours(log, path[n - 1], path[n]);
      var longer := WalkOn(log, start, path[n - 1]);
      joined := WalkBack(log, path[..n], longer);
    }
  }

  /** Two contacts end up in one survivor exactly when a chain of merges connects them. */
  lemma OneSurvivorIffConnected(log: seq<Event>, a: nat, b: nat)
    ensures Survivor(log, a) == Survivor(log, b) <==> Connected(log, a, b)
  {
    if Survivor(log, a) == Survivor(log, b) {
      var fromA := WalkToSurvivor(log, a);
      var fromB := WalkToSurvivor(log, b);
      var joined := WalkBack(log, fromB, fromA);
      assert Connected(log, a, b);
    }
    if Connected(log, a, b) {
      var path :| Walk(log, path) && path[0] == a && path[|path| - 1] == b;
      WalkHasOneSurvivor(log, path);
    }
  }

  // ----- identities -----

  /** Stored, every row, and no key twice. */
  ghost predicate Unique(rows: seq<Identity>) {
    && (forall i :: 0 <= i < |rows| ==> !rows[i].deleted)
    && (forall i, j :: 0 <= i < j < |rows| ==> rows[i].key != rows[j].key)
  }

  /** Without a repeated key the loop moves each row of the source and deletes none. */
  lemma {:induction false} LoopMovesAll(rows: seq<Identity>, n: nat, source: nat, target: nat)
    requires Unique(rows) && n <= |rows|
    ensures forall i :: 0 <= i < |rows| ==>
      MovedRows(rows, n, source, target)[i] == if i < n && rows[i].contact == source then rows[i].(contact := target) else rows[i]
  {
    if 0 < n {
      LoopMovesAll(rows, n - 1, source, target);
      var moved := MovedRows(rows, n - 1, source, target);
      assert forall i :: 0 <= i < |rows| ==> moved[i].key == rows[i].key;
      assert !Conflict(moved, n - 1);
    }
  }

  lemma StepUnique(d: Directory, x: Event)
    requires Unique(d.identities)
    ensures Unique(Step(d, x).identities)
  {
    if x.MergeEvent? { LoopMovesAll(d.identities, |d.identities|, x.source, x.target); }
  }

  /** In every reachable state keys are unique, and no merge has ever deleted an identity. */
  lemma {:induction false} NoIdentityIsLost(log: seq<Event>)
    ensures Unique(After(log).identities)
  {
    if log != [] {
      NoIdentityIsLost(log[..|log| - 1]);
      StepUnique(After(log[..|log| - 1]), log[|log| - 1]);
    }
  }

  lemma {:induction false} StaysMerged(log: seq<Event>, n: nat, c: nat)
    requires n <= |log| && MergedInto(log[..n], c).Some?
    ensures MergedInto(log, c) == MergedInto(log[..n], c)
  {
    if n < |log| {
      var front, last := log[..|log| - 1], log[|log| - 1];
      assert front[..n] == log[..n] && log == front + [last];
      StaysMerged(front, n, c);
      MergeOutcome(front, last, c);
    } else {
      assert log[..n] == log;
    }
  }

  /** What one more event does to a stored row. */
  lemma RowStep(log: seq<Event>, x: Event, row: nat)
    requires row < |After(log).identities|
    ensures row < |After(log + [x]).identities|
    ensures After(log + [x]).identities[row]
      == if Merges(log, x) && After(log).identities[row].contact == x.source then After(log).identities[row].(contact := x.target)
         else After(log).identities[row]
  {
    assert (log + [x])[..|log|] == log;
    NoIdentityIsLost(log);
    if Merges(log, x) { LoopMovesAll(After(log).identities, |After(log).identities|, x.source, x.target); }
  }

  /** The event is an identity accepted as the given row. */
  predicate Accepted(log: seq<Event>, x: Event, row: nat) {
    x.IdentityEvent? && AddIdentity(After(log), x.contact, x.kind, x.raw, x.channel).1 == Ok(row)
  }

  /** The row an accepted identity got, and where it is after the rest of the log. */
  lemma {:induction false} RowFollows(log: seq<Event>, n: nat, row: nat)
    requires n < |log| && Accepted(log[..n], log[n], row)
    ensures row < |After(log).identities|
    ensures After(log).identities[row].key == IdentityKey(log[n].kind, Normalize(log[n].kind, log[n].raw), log[n].channel)
    ensures After(log).identities[row].contact
      == if MergedInto(log[..n], log[n].contact).None? then Survivor(log, log[n].contact) else log[n].contact
  {
    var front, last, c := log[..|log| - 1], log[|log| - 1], log[n].contact;
    assert log == front + [last];
    if n == |log| - 1 {
      SurvivorByLink(front, c);
    } else {
      assert front[..n] == log[..n] && front[n] == log[n];
      RowFollows(front, n, row);
      RowStep(front, last, row);
      MergeOutcome(front, last, c);
      if MergedInto(log[..n], c).Some? { StaysMerged(front, n, c); }
    }
  }

  lemma FoundByKey(rows: seq<Identity>, row: nat)
    requires Unique(rows) && row < |rows|
    ensures FindIdentity(rows, rows[row].key) == Some(row)
  {
    var found := FindIdentity(rows, rows[row].key);
    assert found.Some? && rows[found.value].key == rows[row].key;
  }

  /** An accepted identity always resolves, and it resolves to the survivor of its contact exactly when that contact was unmerged. */
  lemma ResolvesToSurvivorIff(log: seq<Event>, n: nat, row: nat)
    requires n < |log| && Accepted(log[..n], log[n], row)
    ensures Resolve(After(log), log[n].channel, log[n].kind, log[n].raw).Some?
    ensures Resolve(After(log), log[n].channel, log[n].kind, log[n].raw).value == Survivor(log, log[n].contact)
      <==> MergedInto(log[..n], log[n].contact).None?
  {
    var x := log[n];
    RowFollows(log, n, row);
    NoIdentityIsLost(log);
    FoundByKey(After(log).identities, row);
    if MergedInto(log[..n], x.contact).Some? {
      StaysMerged(log, n, x.contact);
      SurvivorByLink(log, x.contact);
    }
  }

  // ----- records -----

  /** The event is a record accepted as the given row. */
  predicate Recorded(log: seq<Event>, x: Event, row: nat) {
    x.RecordEvent? && x.record.contact < |After(log).contacts| && row == |After(log).records|
  }

  lemma RecordStep(log: seq<Event>, x: Event, row: nat)
    requires row < |After(log).records|
    ensures row < |After(log + [x]).records|
    ensures After(log + [x]).records[row]
      == if Merges(log, x) then Moved(After(log).records[row], x.source, x.target) else After(log).records[row]
  {
    assert (log + [x])[..|log|] == log;
  }

  /** A record stays where it is and names the survivor of its contact in every run, unless that contact was merged before it came. */
  lemma {:induction false} RecordFollows(log: seq<Event>, n: nat, row: nat)
    requires n < |log| && Recorded(log[..n], log[n], row)
    ensures row < |After(log).records| && After(log).records[row].table == log[n].record.table
    ensures var c := log[n].record.contact;
      After(log).records[row].contact == if MergedInto(log[..n], c).None? then Survivor(log, c) else c
  {
    var front, last, c := log[..|log| - 1], log[|log| - 1], log[n].record.contact;
    assert log == front + [last];
    if n == |log| - 1 {
      SurvivorByLink(front, c);
    } else {
      assert front[..n] == log[..n] && front[n] == log[n];
      RecordFollows(front, n, row);
      RecordStep(front, last, row);
      MergeOutcome(front, last, c);
      if MergedInto(log[..n], c).Some? { StaysMerged(front, n, c); }
    }
  }

  /** So the note, conversation, lead or task is with the surviving contact exactly when its contact was unmerged when it came. */
  lemma RecordWithSurvivorIff(log: seq<Event>, n: nat, row: nat)
    requires n < |log| && Recorded(log[..n], log[n], row)
    ensures row < |After(log).records|
    ensures After(log).records[row].contact == Survivor(log, log[n].record.contact) <==> MergedInto(log[..n], log[n].record.contact).None?
  {
    var c := log[n].record.contact;
    RecordFollows(log, n, row);
    if MergedInto(log[..n], c).Some? {
      StaysMerged(log, n, c);
      SurvivorByLink(log, c);
    }
  }

  // ----- a late identity -----

  const TWO_CONTACTS: seq<Event> := [ContactEvent({}), ContactEvent({})]
  const LATE_IDENTITY := IdentityEvent(0, External, "x", None)

  lemma AfterOneMore(log: seq<Event>, x: Event)
    ensures After(log + [x]) == Step(After(log), x)
    ensures forall c :: Survivor(log + [x], c) == if Merges(log, x) && Survivor(log, c) == x.source then x.target else Survivor(log, c)
  {
    assert (log + [x])[..|log|] == log;
  }

  lemma AfterTwoContacts()
    ensures After(TWO_CONTACTS) == Directory([Contact(None, false, {}), Contact(None, false, {})], [], [])
    ensures Survivor(TWO_CONTACTS, 0) == 0
  {
    AfterOneMore([], ContactEvent({}));
    assert [] + [ContactEvent({})] == [ContactEvent({})];
    AfterOneMore([ContactEvent({})], ContactEvent({}));
    assert [ContactEvent({})] + [ContactEvent({})] == TWO_CONTACTS;
  }

  /** A run in which a merged contact is given an identity: it resolves to that contact, not to the survivor. */
  lemma IdentityOnMergedContact()
    ensures var log := TWO_CONTACTS + [MergeEvent(0, 1)] + [LATE_IDENTITY];
      && Survivor(log, 0) == 1 && Resolve(After(log), None, External, "x") == Some(0)
  {
    var merged := TWO_CONTACTS + [MergeEvent(0, 1)];
    AfterTwoContacts();
    AfterOneMore(TWO_CONTACTS, MergeEvent(0, 1));
    AfterOneMore(merged, LATE_IDENTITY);
    assert After(merged).identities == [] && |After(merged).contacts| == 2;
    assert Normalize(External, "x") == "x";
    assert After(merged + [LATE_IDENTITY]).identities == [Identity(IdentityKey(External, "x", None), 0, false)];
  }

  // ----- tags -----

  /** No event takes a tag away, and a merge hands the source's tags on. */
  lemma TagsStep(log: seq<Event>, x: Event, c: nat)
    requires c < |After(log).contacts|
    ensures c < |After(log + [x]).contacts| && After(log).contacts[c].tags <= After(log + [x]).contacts[c].tags
    ensures Merges(log, x) ==>
      && x.target < |After(log).contacts| && x.source < |After(log).contacts|
      && After(log).contacts[x.source].tags <= After(log + [x]).contacts[x.target].tags
      && After(log + [x]).contacts[x.source].tags == After(log).contacts[x.source].tags
    ensures Merges(log, x) && c != x.target ==> After(log + [x]).contacts[c].tags == After(log).contacts[c].tags
  {
    assert (log + [x])[..|log|] == log;
  }

  /** The survivor has every tag that any contact merged into it was created with. */
  lemma {:induction false} TagsReachSurvivor(log: seq<Event>, c: nat)
    requires c < |After(log).contacts|
    ensures Survivor(log, c) < |After(log).contacts|
    ensures After(log).contacts[c].tags <= After(log).contacts[Survivor(log, c)].tags
  {
    var front, last := log[..|log| - 1], log[|log| - 1];
    assert log == front + [last];
    if c < |After(front).contacts| {
      TagsReachSurvivor(front, c);
      TagsStep(front, last, c);
      TagsStep(front, last, Survivor(front, c));
      SurvivorByLink(front, c);
      if Merges(front, last) && c == last.target { MergeOutcome(front, last, c); }
    } else {
      SurvivorByLink(front, c);
    }
  }
}
