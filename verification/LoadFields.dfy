/** What loading makes of each row: the contact's fields, and the lists it is put on. */
module LoadFields {
  import opened Text
  import opened Flags
  import opened ContactValues
  import opened Contacts
  import opened Store
  import opened Fetch
  import opened Worlds
  import opened Coherence
  import opened CoherentRequests
  import opened OfflineDelete
  import WriteBehind

  /** The three lists of pending work, as far as a uid is concerned. */
  datatype Work = Work(add: Option<Contact>, update: Option<Contact>, delete: Option<Contact>)

  function Entry(m: map<string, Contact>, u: string): Option<Contact> {
    if u in m then Some(m[u]) else None
  }

  function WorkOn(w: World, u: string): Work {
    Work(Entry(w.toAdd, u), Entry(w.toUpdate, u), Entry(w.toDelete, u))
  }

  /** A contact is unseen unless it waits to be added or was refused; nothing else of it changes. */
  ghost predicate AsLoaded(before: ContactData, after: ContactData) {
    && after == before.(flags := after.flags)
    && (CONTACT_UNSEEN in after.flags <==>
          CONTACT_UNSEEN in before.flags || !(SCHEDULE_ADD in before.pendingFlags || CONTACT_INVALID in before.flags))
    && (forall f :: f != CONTACT_UNSEEN ==> (f in after.flags <==> f in before.flags))
  }

  lemma MarkedIsLoaded(d: ContactData)
    ensures AsLoaded(d, Marked(d))
  {}

  /** What is pending according to the flags of a contact. */
  function Due(d: ContactData, c: Contact): Work {
    Work(if SCHEDULE_ADD in d.pendingFlags then Some(c) else None,
         if SCHEDULE_UPDATE_FLAGS in d.pendingFlags || SCHEDULE_UNBLOCK in d.pendingFlags then Some(c) else None,
         if SCHEDULE_DELETE in d.pendingFlags then Some(c) else None)
  }

  lemma LoadOneWork(w: World, a: Arrival, u: string)
    ensures WorkOn(w, u) == Work(None, None, None) && a.data.uid == u ==> WorkOn(LoadOne(w, a), u) == Due(a.data, a.id)
    ensures a.data.uid != u ==> WorkOn(LoadOne(w, a), u) == WorkOn(w, u)
  {
    hide Marked, NameOf;
  }

  lemma {:induction false} OthersWork(w: World, loaded: seq<Arrival>, u: string)
    requires forall i :: 0 <= i < |loaded| ==> loaded[i].data.uid != u
    ensures WorkOn(LoadAll(w, loaded), u) == WorkOn(w, u)
    decreases |loaded|
  {
    hide LoadOne, WorkOn;
    if loaded != [] {
      LoadOneWork(w, loaded[0], u);
      OthersWork(LoadOne(w, loaded[0]), loaded[1..], u);
    }
  }

  lemma {:induction false} OwnWork(w: World, loaded: seq<Arrival>, i: nat)
    requires i < |loaded| && forall j :: 0 <= j < |loaded| && j != i ==> loaded[j].data.uid != loaded[i].data.uid
    requires WorkOn(w, loaded[i].data.uid) == Work(None, None, None)
    ensures WorkOn(LoadAll(w, loaded), loaded[i].data.uid) == Due(loaded[i].data, loaded[i].id)
    decreases |loaded|
  {
    hide LoadOne, WorkOn, Due;
    var u := loaded[i].data.uid;
    LoadOneWork(w, loaded[0], u);
    if i == 0 {
      OthersWork(LoadOne(w, loaded[0]), loaded[1..], u);
    } else {
      OwnWork(LoadOne(w, loaded[0]), loaded[1..], i - 1);
    }
  }

  /** Loading: every contact under its uid with the fields of its row, unseen or not, and on exactly the
      lists that its pending flags ask for. */
  lemma LoadedFields(w: World, loaded: seq<Arrival>, i: nat)
    requires Loadable(loaded) && i < |loaded| && WorkOn(w, loaded[i].data.uid) == Work(None, None, None)
    ensures var a, l := loaded[i], Load(w, loaded);
      && a.data.uid in l.byUid && l.byUid[a.data.uid] == a.id && AsLoaded(a.data, At(l, a.id))
      && WorkOn(l, a.data.uid) == Due(a.data, a.id)
  {
    var a := loaded[i];
    OwnWork(w, loaded, i);
    LoadAllHolds(w, loaded, a.id, a.data.uid);
    assert Loaded(LoadAll(w, loaded), loaded[i]);
    MarkedIsLoaded(a.data);
    hide LoadAll, Loadable, Marked, AsLoaded, Due, Tell, VisibleOf;
  }

  /** A start from the cache, with nothing pending for the uid before. */
  ghost predicate Starts(w0: World, db: Tables, u: string, loaded: seq<Arrival>, contactRows: seq<ContactRow>,
                         masterRows: seq<(string, string)>, variantRows: seq<(string, string)>)
  {
    w0.db == db && WorkOn(w0, u) == Work(None, None, None) && Restored(db, loaded, contactRows, masterRows, variantRows)
  }

  /** The row of a uid, and what comes back from it at the next start. */
  lemma RowsReturn(w: World, loaded: seq<Arrival>, u: string, contactRows: seq<ContactRow>,
                   masterRows: seq<(string, string)>, variantRows: seq<(string, string)>)
    returns (a: Arrival)
    requires Restored(w.db, loaded, contactRows, masterRows, variantRows) && u in w.db.contacts
    requires WorkOn(w, u) == Work(None, None, None)
    ensures a.data.uid == u && a.data.name.Some? && RowOf(a.data) == w.db.contacts[u]
    ensures var l := Load(w, loaded);
      && u in l.byUid && l.byUid[u] == a.id && AsLoaded(a.data, At(l, a.id)) && WorkOn(l, u) == Due(a.data, a.id)
  {
    var i :| 0 <= i < |contactRows| && contactRows[i].0 == u;
    a := loaded[i];
    assert a.data == FetchedAll(contactRows, masterRows, variantRows)[i];
    LoadedFields(w, loaded, i);
    hide Load, WorkOn, AsLoaded, Due, Select;
  }

  /** A saved contact, read back: name, alias, avatar token, flags, pending flags and contact info, the
      master UIDs in some order and the variants; nothing is known of its handle, presence and capabilities. */
  ghost predicate ReadBack(saved: ContactData, d: ContactData) {
    && d.uid == saved.uid && d.name == saved.name && d.alias == saved.alias && d.avatarToken == saved.avatarToken
    && d.flags == saved.flags && d.pendingFlags == saved.pendingFlags && d.contactInfo == saved.contactInfo
    && ToSet(d.masterUids) == ToSet(saved.masterUids) && NoDuplicates(d.masterUids) && d.variants == saved.variants
    && d.handle == 0 && d.capabilities == {} && d.genericStatus == "unknown" && d.status == Some("unknown")
    && d.statusMessage == None
  }

  /** What is saved of a contact comes back at the next start. */
  lemma SavedFieldsReturn(t: Tables, saved: ContactData, contactRows: seq<ContactRow>, masterRows: seq<(string, string)>,
                          variantRows: seq<(string, string)>, i: nat)
    requires ContactListing(contactRows, t.contacts) && i < |contactRows| && contactRows[i].0 == saved.uid
    requires ChildListing(masterRows, t.masterUids) && ChildListing(variantRows, t.variants)
    requires saved.name.Some? && WriteBehind.RecordIn(t, saved.uid) == WriteBehind.Kept(saved)
    ensures ReadBack(saved, Fetched(contactRows[i], masterRows, variantRows))
  {
    FetchedIsRecord(t, contactRows, masterRows, variantRows, i);
    var d := Fetched(contactRows[i], masterRows, variantRows);
    assert Some(Records(t)[d.uid]) == WriteBehind.RecordIn(t, d.uid);
    hide ContactListing, ChildListing, Select, NoDuplicates, ToSet, ValuesOf;
  }
}
