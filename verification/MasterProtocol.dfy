/** The atomic master-UID protocol: duplicate adds, and removal requests of the form
    "uid;m1;m2;...". */
module MasterProtocol {
  import opened Text
  import opened Flags
  import opened ContactValues

  const WILDCARD := "*"
  const PRESERVE := "preserve"
  const IF_UNUSED := "if-unused"

  /** What one field of a request does to the contact. */
  function RemoveField(d: ContactData, field: string): ContactData {
    if field == PRESERVE || field == IF_UNUSED then d else RemoveMasterUid(d, field)
  }

  function RemoveFields(d: ContactData, suffix: seq<string>): ContactData
    decreases |suffix|
  {
    if suffix == [] then d else RemoveFields(RemoveField(d, suffix[0]), suffix[1..])
  }

  /** The contact after the fields that follow its uid in a request were carried out, and whether
      the contact itself is to be removed. */
  function ApplySuffix(d: ContactData, suffix: seq<string>): (ContactData, bool) {
    if suffix == [] then (d, true)
    else if suffix[0] == WILDCARD then (RemoveAllMasterUids(d), false)
    else
      var d' := RemoveFields(d, suffix);
      (d', PRESERVE !in suffix && d'.masterUids == [])
  }

  lemma {:induction false} RemoveFieldsIsDifference(d: ContactData, suffix: seq<string>)
    requires NoDuplicates(d.masterUids)
    ensures var d' := RemoveFields(d, suffix);
      && NoDuplicates(d'.masterUids)
      && ToSet(d'.masterUids) == ToSet(d.masterUids) - (ToSet(suffix) - {PRESERVE, IF_UNUSED})
      && d' == d.(masterUids := d'.masterUids, pendingFlags := d'.pendingFlags)
      && d.pendingFlags <= d'.pendingFlags <= d.pendingFlags + {SCHEDULE_UPDATE_MASTER_UID}
      && (SCHEDULE_UPDATE_MASTER_UID !in d'.pendingFlags ==> d' == d)
    decreases |suffix|
  {
    if suffix != [] {
      var next := RemoveField(d, suffix[0]);
      RemoveMasterIsDifference(d.masterUids, suffix[0]);
      RemoveFieldsIsDifference(next, suffix[1..]);
      assert suffix == [suffix[0]] + suffix[1..];
      assert ToSet(suffix) == {suffix[0]} + ToSet(suffix[1..]);
    }
  }

  /** When a request removes the contact: when it names no field, or when its first field is not
      "*", no field is "preserve", and no master UID outside the named ones is there. */
  lemma RequestRemovesContact(d: ContactData, suffix: seq<string>)
    requires NoDuplicates(d.masterUids)
    ensures ApplySuffix(d, suffix).1 <==>
      || suffix == []
      || (suffix[0] != WILDCARD && PRESERVE !in suffix
          && ToSet(d.masterUids) <= ToSet(suffix) - {PRESERVE, IF_UNUSED})
  {
    RemoveFieldsIsDifference(d, suffix);
    var d' := RemoveFields(d, suffix);
    var named := ToSet(suffix) - {PRESERVE, IF_UNUSED};
    if d'.masterUids == [] {
      assert ToSet(d'.masterUids) == {};
      assert forall u :: u in ToSet(d.masterUids) ==> u in named || u in ToSet(d.masterUids) - named;
    } else {
      assert d'.masterUids[0] in ToSet(d'.masterUids);
    }
  }

  /** The two words that the documentation does not mention: "*" clears the master UIDs and keeps the
      contact, and "if-unused" alone asks for the contact only if there are none. */
  lemma OtherWords(d: ContactData, suffix: seq<string>)
    ensures suffix != [] && suffix[0] == WILDCARD ==> ApplySuffix(d, suffix).0.masterUids == [] && !ApplySuffix(d, suffix).1
    ensures ApplySuffix(d, [IF_UNUSED]) == (d, d.masterUids == [])
  {
    assert [IF_UNUSED][1..] == [];
    assert RemoveFields(d, [IF_UNUSED]) == RemoveFields(d, []);
  }

  /** One edit of a contact's master UIDs: a vCard for an existing contact was added, or a removal
      request arrived that leaves the contact in place. */
  datatype Edit = AddDuplicate(uids: seq<string>) | RemoveRequest(suffix: seq<string>)

  function ApplyEdit(d: ContactData, e: Edit): ContactData {
    match e
    case AddDuplicate(uids) => UpdateMasterUids(d, uids)
    case RemoveRequest(suffix) => ApplySuffix(d, suffix).0
  }

  function ApplyEdits(d: ContactData, edits: seq<Edit>): ContactData
    decreases |edits|
  {
    if edits == [] then d else ApplyEdits(ApplyEdit(d, edits[0]), edits[1..])
  }

  /** The same edits on plain sets. */
  function EditSet(masters: set<string>, e: Edit): set<string> {
    match e
    case AddDuplicate(uids) => masters + ToSet(uids)
    case RemoveRequest(suffix) =>
      if suffix != [] && suffix[0] == WILDCARD then {}
      else masters - (ToSet(suffix) - {PRESERVE, IF_UNUSED})
  }

  function EditSets(masters: set<string>, edits: seq<Edit>): set<string>
    decreases |edits|
  {
    if edits == [] then masters else EditSets(EditSet(masters, edits[0]), edits[1..])
  }

  /** No update is lost: whatever the order of adds and removals, the list has no duplicate and
      holds exactly the uids that unions and differences leave. */
  lemma {:induction false} EditsCompose(d: ContactData, edits: seq<Edit>)
    requires NoDuplicates(d.masterUids)
    ensures NoDuplicates(ApplyEdits(d, edits).masterUids)
    ensures ToSet(ApplyEdits(d, edits).masterUids) == EditSets(ToSet(d.masterUids), edits)
    decreases |edits|
  {
    if edits != [] {
      match edits[0] {
        case AddDuplicate(uids) => AddMastersIsUnion(d.masterUids, uids);
        case RemoveRequest(suffix) => RemoveFieldsIsDifference(d, suffix);
      }
      var next := ApplyEdit(d, edits[0]);
      assert ToSet(next.masterUids) == EditSet(ToSet(d.masterUids), edits[0]);
      EditsCompose(next, edits[1..]);
    }
  }
}
