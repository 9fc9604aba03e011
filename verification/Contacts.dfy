/** Contacts, what belongs to them, and merging: `merge_contacts`, `add_identity`, `resolve_contact_identity`. */
module Contacts {
  import opened Totals
  import opened Identities

  datatype Contact = Contact(mergedInto: Option<nat>, archived: bool, tags: set<int>)

  datatype IdentityKey = IdentityKey(kind: IdentityType, value: string, channel: Option<int>)

  /** Rows are addressed by position; a deleted row stays as a mark. */
  datatype Identity = Identity(key: IdentityKey, contact: nat, deleted: bool)

  /** The tables whose rows name a contact and are moved in bulk by a merge. */
  datatype Table = Notes | Conversations | Leads | Tasks

  /** A note, conversation, lead or task, and the contact it names. */
  datatype Record = Record(table: Table, contact: nat)

  datatype Directory = Directory(contacts: seq<Contact>, identities: seq<Identity>, records: seq<Record>)

  function HasIdentityKey(key: IdentityKey): Identity -> bool { (x: Identity) => !x.deleted && x.key == key }

  /** The stored row with a key. */
  function FindIdentity(rows: seq<Identity>, key: IdentityKey): (r: Option<nat>)
    ensures r.Some? ==> r.value < |rows| && !rows[r.value].deleted && rows[r.value].key == key
    ensures r.None? ==> forall i :: 0 <= i < |rows| ==> rows[i].deleted || rows[i].key != key
  {
    FindSpec(HasIdentityKey(key), rows);
    Find(HasIdentityKey(key), rows)
  }

  /** Another stored row has the key of row i. */
  predicate Conflict(rows: seq<Identity>, i: nat)
    requires i < |rows|
  {
    exists j :: 0 <= j < |rows| && j != i && !rows[j].deleted && rows[j].key == rows[i].key
  }

  /** One round of the loop in `merge_contacts`: delete the row if another has its key, else move it. */
  function MoveOne(rows: seq<Identity>, i: nat, source: nat, target: nat): (r: seq<Identity>)
    requires i < |rows|
    ensures |r| == |rows|
  {
    if rows[i].deleted || rows[i].contact != source then rows
    else if Conflict(rows, i) then rows[i := rows[i].(deleted := true)]
    else rows[i := rows[i].(contact := target)]
  }

  /** The rows after the loop has dealt with the first n. */
  function MovedRows(rows: seq<Identity>, n: nat, source: nat, target: nat): (r: seq<Identity>)
    requires n <= |rows|
    ensures |r| == |rows|
  {
    if n == 0 then rows else MoveOne(MovedRows(rows, n - 1, source, target), n - 1, source, target)
  }

  function Moved(x: Record, source: nat, target: nat): Record { if x.contact == source then x.(contact := target) else x }

  /** The four bulk updates: every record of the source now names the target. */
  function MovedRecords(rows: seq<Record>, source: nat, target: nat): seq<Record> {
    seq(|rows|, i requires 0 <= i < |rows| => Moved(rows[i], source, target))
  }

  /** `merge_contacts`. */
  function Merge(d: Directory, source: nat, target: nat): (Directory, Result<nat>) {
    if source == target then (d, Err("crm_conflict"))
    else if |d.contacts| <= source || |d.contacts| <= target then (d, Err("does_not_exist"))
    else if d.contacts[source].mergedInto.Some? || d.contacts[target].mergedInto.Some? then (d, Err("crm_conflict"))
    else
      var s, t := d.contacts[source], d.contacts[target];
      var contacts := d.contacts[source := s.(mergedInto := Some(target), archived := true)][target := t.(tags := t.tags + s.tags)];
      (Directory(contacts, MovedRows(d.identities, |d.identities|, source, target), MovedRecords(d.records, source, target)), Ok(target))
  }

  /** `add_identity`; whether the contact has been merged is not looked at. */
  function AddIdentity(d: Directory, contact: nat, kind: IdentityType, raw: string, channel: Option<int>): (Directory, Result<nat>) {
    var key := IdentityKey(kind, Normalize(kind, raw), channel);
    if key.value == [] then (d, Err("identity_value_required"))
    else if FindIdentity(d.identities, key).Some? then (d, Err("crm_conflict"))
    else if |d.contacts| <= contact then (d, Err("does_not_exist"))
    else (d.(identities := d.identities + [Identity(key, contact, false)]), Ok(|d.identities|))
  }

  /** `create_contact`, with the tags it is given. */
  function CreateContact(d: Directory, tags: set<int>): Directory { d.(contacts := d.contacts + [Contact(None, false, tags)]) }

  /** A record is created for any contact there is, merged or not. */
  function AddRecord(d: Directory, record: Record): Directory {
    if record.contact < |d.contacts| then d.(records := d.records + [record]) else d
  }

  /** `resolve_contact_identity`: the contact of the row found. */
  function Resolve(d: Directory, channel: Option<int>, kind: IdentityType, raw: string): Option<nat> {
    var row := FindIdentity(d.identities, IdentityKey(kind, Normalize(kind, raw), channel));
    if row.None? then None else Some(d.identities[row.value].contact)
  }

  datatype Event =
    | ContactEvent(tags: set<int>)
    | IdentityEvent(contact: nat, kind: IdentityType, raw: string, channel: Option<int>)
    | RecordEvent(record: Record)
    | MergeEvent(source: nat, target: nat)

  function Step(d: Directory, x: Event): Directory {
    match x
    case ContactEvent(tags) => CreateContact(d, tags)
    case RecordEvent(record) => AddRecord(d, record)
    case IdentityEvent(contact, kind, raw, channel) => AddIdentity(d, contact, kind, raw, channel).0
    case MergeEvent(source, target) => Merge(d, source, target).0
  }

  function After(log: seq<Event>): Directory {
    if log == [] then Directory([], [], []) else Step(After(log[..|log| - 1]), log[|log| - 1])
  }
}
