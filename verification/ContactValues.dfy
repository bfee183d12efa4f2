/** The values a contact holds, and what the operations of e-book-backend-tp-contact.c do to them. */
module ContactValues {
  import opened Text
  import opened Flags

  /** One vCard attribute. The values of a parameter come from a hash table, in no order. */
  datatype Attribute = Attribute(name: string, values: seq<string>, params: map<string, set<string>>)

  type Card = seq<Attribute>

  /** The fields of `struct _EBookBackendTpContact` except the avatar image itself. An empty `uid`
      stands for the NULL of a contact that has none yet. */
  datatype ContactData = ContactData(
    handle: nat,
    name: Option<string>,
    alias: Option<string>,
    genericStatus: string,
    status: Option<string>,
    statusMessage: Option<string>,
    avatarToken: Option<string>,
    contactInfo: Option<Card>,
    flags: FlagWord,
    pendingFlags: FlagWord,
    uid: string,
    masterUids: seq<string>,
    capabilities: FlagWord,
    variants: set<string>)

  /** `e_book_backend_tp_contact_new`. */
  const NEW_CONTACT: ContactData :=
    ContactData(0, None, None, "unknown", Some("unknown"), None, None, None, {}, {}, "", [], {}, {})

  function ToSet<T(!new)>(s: seq<T>): (r: set<T>)
    ensures forall x :: x in r <==> x in s
  {
    set x | x in s
  }

  predicate NoDuplicates<T(==)>(s: seq<T>) {
    forall i, j :: 0 <= i < j < |s| ==> s[i] != s[j]
  }

  // ---- Master UID lists ----

  /** The first position of `uid`, or -1: what `master_uids_find` promises. */
  ghost predicate FoundAt(masters: seq<string>, uid: string, i: int) {
    if i < 0 then uid !in masters
    else i < |masters| && masters[i] == uid && forall j :: 0 <= j < i ==> masters[j] != uid
  }

  /** `master_uids_find`. */
  method MasterUidsFind(masters: seq<string>, uid: string) returns (i: int)
    ensures FoundAt(masters, uid, i)
  {
    i := 0;
    while i < |masters|
      invariant 0 <= i <= |masters|
      invariant forall j :: 0 <= j < i ==> masters[j] != uid
    {
      if masters[i] == uid { return; }
      i := i + 1;
    }
    i := -1;
  }

  /** `master_uids_differ`: the lists differ in length or somewhere. */
  method MasterUidsDiffer(a: seq<string>, b: seq<string>) returns (differ: bool)
    ensures differ <==> a != b
  {
    if |a| != |b| { return true; }
    var i := 0;
    while i < |a|
      invariant 0 <= i <= |a|
      invariant a[..i] == b[..i]
    {
      if a[i] != b[i] { return true; }
      i := i + 1;
    }
    assert a == a[..i] && b == b[..i];
    return false;
  }

  /** Appends one uid unless the list has it. */
  function AddMaster(masters: seq<string>, uid: string): seq<string> {
    if uid in masters then masters else masters + [uid]
  }

  function AddMasters(masters: seq<string>, uids: seq<string>): seq<string>
    decreases |uids|
  {
    if uids == [] then masters else AddMasters(AddMaster(masters, uids[0]), uids[1..])
  }

  function IndexOf(masters: seq<string>, uid: string): (i: nat)
    requires uid in masters
    ensures i < |masters| && masters[i] == uid
    ensures forall j :: 0 <= j < i ==> masters[j] != uid
  {
    if masters[0] == uid then 0 else 1 + IndexOf(masters[1..], uid)
  }

  /** `g_ptr_array_remove_index_fast`: the last element takes the place of the removed one. */
  function RemoveIndexFast<T>(s: seq<T>, i: nat): seq<T>
    requires i < |s|
  {
    s[i := s[|s| - 1]][..|s| - 1]
  }

  function RemoveMaster(masters: seq<string>, uid: string): seq<string> {
    if uid in masters then RemoveIndexFast(masters, IndexOf(masters, uid)) else masters
  }

  lemma {:induction false} AddMastersIsUnion(masters: seq<string>, uids: seq<string>)
    ensures ToSet(AddMasters(masters, uids)) == ToSet(masters) + ToSet(uids)
    ensures NoDuplicates(masters) ==> NoDuplicates(AddMasters(masters, uids))
    ensures AddMasters(masters, uids) != masters <==> exists u :: u in uids && u !in masters
    ensures masters <= AddMasters(masters, uids)
    decreases |uids|
  {
    if uids != [] {
      var m := AddMaster(masters, uids[0]);
      AddMastersIsUnion(m, uids[1..]);
      assert ToSet(m) == ToSet(masters) + {uids[0]};
      assert uids == [uids[0]] + uids[1..];
      if uids[0] !in masters {
        assert |AddMasters(m, uids[1..])| > |masters|;
      } else {
        assert m == masters;
        if u :| u in uids && u !in masters { assert u in uids[1..]; }
      }
    }
  }

  lemma RemoveMasterIsDifference(masters: seq<string>, uid: string)
    requires NoDuplicates(masters)
    ensures ToSet(RemoveMaster(masters, uid)) == ToSet(masters) - {uid}
    ensures NoDuplicates(RemoveMaster(masters, uid))
  {
    if uid in masters {
      var i, last := IndexOf(masters, uid), |masters| - 1;
      var r := RemoveMaster(masters, uid);
      forall u | u in masters && u != uid ensures u in r {
        var j :| 0 <= j < |masters| && masters[j] == u;
        if j == last { assert r[i] == u; } else { assert r[j] == u; }
      }
    }
  }

  // ---- Names ----

  function NameSet(name: Option<string>): set<string> {
    if name.Some? then {name.value} else {}
  }

  /** Every name a contact is known under. */
  function AllNames(d: ContactData): set<string> {
    NameSet(d.name) + d.variants
  }

  /** `e_book_backend_tp_contact_update_name`: the old name becomes a variant. */
  function UpdateName(d: ContactData, newName: string): ContactData {
    if d.name == Some(newName) then d
    else if d.name.Some? then
      d.(variants := d.variants + {d.name.value}, name := Some(newName),
         pendingFlags := d.pendingFlags + {SCHEDULE_UPDATE_VARIANTS})
    else d.(name := Some(newName))
  }

  /** `e_book_backend_tp_contact_update_master_uids`. */
  function UpdateMasterUids(d: ContactData, uids: seq<string>): ContactData {
    var masters := AddMasters(d.masterUids, uids);
    d.(masterUids := masters,
       pendingFlags := if masters != d.masterUids then d.pendingFlags + {SCHEDULE_UPDATE_MASTER_UID} else d.pendingFlags)
  }

  /** `e_book_backend_tp_contact_remove_master_uid`. */
  function RemoveMasterUid(d: ContactData, uid: string): ContactData {
    if uid in d.masterUids then
      d.(masterUids := RemoveMaster(d.masterUids, uid),
         pendingFlags := d.pendingFlags + {SCHEDULE_UPDATE_MASTER_UID})
    else d
  }

  /** `e_book_backend_tp_contact_remove_all_master_uids`. */
  function RemoveAllMasterUids(d: ContactData): ContactData {
    if d.masterUids == [] then d
    else d.(masterUids := [], pendingFlags := d.pendingFlags + {SCHEDULE_UPDATE_MASTER_UID})
  }

  /** `e_book_backend_tp_contact_add_variants_from_contact`. */
  function AddVariants(dest: ContactData, variants: set<string>): ContactData {
    dest.(variants := dest.variants + variants,
          pendingFlags := if variants != {} then dest.pendingFlags + {SCHEDULE_UPDATE_VARIANTS} else dest.pendingFlags)
  }

  /** The fields `merge_contacts` carries from `src` to `dest`. */
  function MergeData(dest: ContactData, src: ContactData): ContactData {
    var merged := UpdateMasterUids(AddVariants(dest, src.variants), src.masterUids);
    if SCHEDULE_UNBLOCK in src.pendingFlags
    then merged.(pendingFlags := merged.pendingFlags + {SCHEDULE_UNBLOCK})
    else merged
  }

  /** `e_book_backend_tp_contact_is_visible`. */
  predicate Visible(d: ContactData) {
    SCHEDULE_DELETE !in d.pendingFlags && d.flags * ALL_LIST_FLAGS != {CL_PUBLISH}
  }

  /** `e_book_backend_tp_contact_dup` on the master UIDs: the new array is first resized, which
      fills it with NULL, and the copies are appended after that. */
  function DupMasterUids(masters: seq<string>): seq<Option<string>> {
    seq(|masters|, i => None) + seq(|masters|, i requires 0 <= i < |masters| => Some(masters[i]))
  }

  /** So a duplicate has the same master UIDs exactly when there are none. */
  lemma DupFaithful(masters: seq<string>)
    ensures DupMasterUids(masters) == seq(|masters|, i requires 0 <= i < |masters| => Some(masters[i])) <==> masters == []
  {
    if masters != [] { assert |DupMasterUids(masters)| == 2 * |masters|; }
  }
}
