/**
  The contact services as they run: rows are moved and contacts marked in place as `Contacts` says. Every service keeps
  `Valid`: the rows are those that follow from the events so far, so what `ContactMerging` proves of every log holds of them.
  */
module ContactDesk {
  import opened Totals
  import opened Identities
  import opened Contacts
  import ContactMerging

  /** One event later the rows are those of the longer log. */
  lemma Noted(log: seq<Event>, x: Event)
    ensures After(log + [x]) == Step(After(log), x) && ContactMerging.Unique(After(log + [x]).identities)
  {
    assert (log + [x])[..|log|] == log;
    ContactMerging.NoIdentityIsLost(log + [x]);
  }

  class Desk {
    var contacts: seq<Contact>
    var identities: seq<Identity>
    var records: seq<Record>
    ghost var log: seq<Event>

    function State(): Directory
      reads this
    {
      Directory(contacts, identities, records)
    }

    /** The rows are what the events in `log` made of empty tables; no identity is deleted and no key stored twice. */
    ghost predicate Valid()
      reads this
    {
      State() == After(log) && ContactMerging.Unique(identities)
    }

    constructor ()
      ensures Valid() && log == []
      ensures State() == Directory([], [], [])
    {
      contacts, identities, records, log := [], [], [], [];
    }

    /** `create_contact`. */
    method CreateContact(tags: set<int>)
      requires Valid()
      modifies this
      ensures Valid() && log == old(log) + [ContactEvent(tags)]
      ensures State() == Contacts.CreateContact(old(State()), tags)
    {
      Noted(log, ContactEvent(tags));
      log := log + [ContactEvent(tags)];
      contacts := contacts + [Contact(None, false, tags)];
    }

    /** A note, conversation, lead or task is created. */
    method AddRecord(record: Record)
      requires Valid()
      modifies this
      ensures Valid() && log == old(log) + [RecordEvent(record)]
      ensures State() == Contacts.AddRecord(old(State()), record)
    {
      Noted(log, RecordEvent(record));
      log := log + [RecordEvent(record)];
      if record.contact < |contacts| {
        records := records + [record];
      }
    }

    /** `add_identity`, inside its transaction. */
    method StoreIdentity(contact: nat, kind: IdentityType, raw: string, channel: Option<int>) returns (r: Result<nat>)
      modifies `identities
      ensures (State(), r) == Contacts.AddIdentity(old(State()), contact, kind, raw, channel)
    {
      var key := IdentityKey(kind, Normalize(kind, raw), channel);
      if key.value == [] {
        return Err("identity_value_required");
      }
      if FindIdentity(identities, key).Some? {
        return Err("crm_conflict");
      }
      if |contacts| <= contact {
        return Err("does_not_exist");
      }
      identities := identities + [Identity(key, contact, false)];
      r := Ok(|identities| - 1);
    }

    /** `add_identity`. */
    method AddIdentity(contact: nat, kind: IdentityType, raw: string, channel: Option<int>) returns (r: Result<nat>)
      requires Valid()
      modifies this
      ensures Valid() && log == old(log) + [IdentityEvent(contact, kind, raw, channel)]
      ensures (State(), r) == Contacts.AddIdentity(old(State()), contact, kind, raw, channel)
    {
      Noted(log, IdentityEvent(contact, kind, raw, channel));
      log := log + [IdentityEvent(contact, kind, raw, channel)];
      r := StoreIdentity(contact, kind, raw, channel);
    }

    /** The loop over the source's identities. */
    method MoveIdentities(source: nat, target: nat)
      modifies `identities
      ensures identities == MovedRows(old(identities), |old(identities)|, source, target)
    {
      for i := 0 to |identities|
        invariant |identities| == |old(identities)|
        invariant identities == MovedRows(old(identities), i, source, target)
      {
        if identities[i].deleted || identities[i].contact != source {
          continue;
        }
        if Conflict(identities, i) {
          identities := identities[i := identities[i].(deleted := true)];
        } else {
          identities := identities[i := identities[i].(contact := target)];
        }
      }
    }

    /** One bulk update, of the rows of one table. */
    method MoveTable(table: Table, source: nat, target: nat)
      modifies `records
      ensures |records| == |old(records)|
      ensures forall i :: 0 <= i < |records| ==>
        records[i] == if old(records)[i].table == table then Moved(old(records)[i], source, target) else old(records)[i]
    {
      records := seq(|records|, i requires 0 <= i < |records| reads this =>
        if records[i].table == table && records[i].contact == source then records[i].(contact := target) else records[i]);
    }

    method MoveRecords(source: nat, target: nat)
      modifies `records
      ensures records == MovedRecords(old(records), source, target)
    {
      MoveTable(Notes, source, target);
      MoveTable(Conversations, source, target);
      MoveTable(Leads, source, target);
      MoveTable(Tasks, source, target);
    }

    /** `merge_contacts`. */
    method Merge(source: nat, target: nat) returns (r: Result<nat>)
      requires Valid()
      modifies this
      ensures Valid() && log == old(log) + [MergeEvent(source, target)]
      ensures (State(), r) == Contacts.Merge(old(State()), source, target)
    {
      Noted(log, MergeEvent(source, target));
      log := log + [MergeEvent(source, target)];
      if source == target {
        return Err("crm_conflict");
      }
      if |contacts| <= source || |contacts| <= target {
        return Err("does_not_exist");
      }
      if contacts[source].mergedInto.Some? || contacts[target].mergedInto.Some? {
        return Err("crm_conflict");
      }
      MoveIdentities(source, target);
      var gathered := contacts[target].tags + contacts[source].tags;
      MoveRecords(source, target);
      contacts := contacts[source := contacts[source].(mergedInto := Some(target), archived := true)];
      contacts := contacts[target := contacts[target].(tags := gathered)];
      r := Ok(target);
    }
  }
}
