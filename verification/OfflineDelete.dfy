/** Contacts that are deleted while offline: the deletion is in the cache, comes back after a
    restart, and the contact is not listed any more. */
module OfflineDelete {
  import opened Text
  import opened Flags
  import opened ContactValues
  import opened Contacts
  import opened VCards
  import opened MasterProtocol
  import opened Store
  import opened StoreBatches
  import opened Fetch
  import opened Uids
  import opened Worlds
  import opened Coherence
  import opened CoherentRuns
  import opened CoherentRequests
  import opened Runs
  import Exactness

  predicate IsMarked(d: ContactData) {
    SCHEDULE_DELETE in d.pendingFlags
  }

  predicate RowMarked(t: Tables, u: string) {
    u in t.contacts && SCHEDULE_DELETE in t.contacts[u].pendingFlags
  }

  /** A contact that waits for its deletion is marked, in the heap and, unless its uid is in `also`,
      in the cache. It may have been dropped as invalid in the meantime. */
  predicate DeletionKept(w: World, also: set<string>, u: string, c: Contact) {
    c in w.heap && (Live(w, c) ==> At(w, c).uid == u && IsMarked(At(w, c)) && (u in also || RowMarked(w.db, u)))
  }

  predicate Deletions(w: World, also: set<string>) {
    forall u :: u in w.toDelete ==> DeletionKept(w, also, u, w.toDelete[u])
  }

  predicate Queueing(w: World) {
    forall u :: u in w.dirty ==> u in w.byUid && w.dirty[u] == w.byUid[u]
  }

  predicate Kept(w: World, norm: Norm, also: set<string>) {
    Inv(w, norm) && w.byUid.Keys == w.db.contacts.Keys && Queueing(w) && Deletions(w, also)
  }

  lemma Named(w: World, norm: Norm, u: string)
    requires Inv(w, norm) && u in w.byUid
    ensures Live(w, w.byUid[u]) && At(w, w.byUid[u]).uid == u && At(w, w.byUid[u]).name.Some?
  {
    assert UidEntry(w, u, w.byUid[u]);
  }

  /** Nothing but queues, views and switches has changed. */
  predicate SameRows(w: World, w': World) {
    SameIndexes(w, w') && w'.toDelete == w.toDelete && w'.db == w.db && (w'.dirty == w.dirty || w'.dirty == map[])
  }

  lemma SameRowsKeep(w: World, norm: Norm, also: set<string>, w': World)
    requires Kept(w, norm, also) && SameRows(w, w')
    ensures Kept(w', norm, also)
  {
    OnlyIndexesMatter(w, w', norm);
    assert forall c :: At(w', c) == At(w, c);
    hide Inv, At;
    forall u | u in w'.toDelete ensures DeletionKept(w', also, u, w'.toDelete[u]) {
      assert DeletionKept(w, also, u, w.toDelete[u]);
    }
  }

  // ---- Flushing ----

  /** The flush writes the current value of each queued contact into its row. */
  lemma FlushRows(w: World, norm: Norm)
    requires Inv(w, norm) && w.byUid.Keys == w.db.contacts.Keys && Queueing(w)
    ensures var db' := Flush(w, true).db;
      && db'.contacts.Keys == w.db.contacts.Keys
      && forall u :: u in w.byUid ==>
           db'.contacts[u].pendingFlags == if u in w.dirty then At(w, w.byUid[u]).pendingFlags else w.db.contacts[u].pendingFlags
  {
    forall u | u in w.dirty ensures At(w, w.dirty[u]).name.Some? { Named(w, norm, u); }
    assert Storable(w.db, Values(w, w.dirty));
    hide Inv, At, MasterPairs, VariantPairs, Others;
  }

  lemma FlushKeeps(w: World, norm: Norm, also: set<string>)
    requires Kept(w, norm, also)
    ensures Kept(Flush(w, true), norm, also) && Flush(w, true).dirty == map[]
  {
    var w' := Flush(w, true);
    FlushRows(w, norm);
    FlushSame(w);
    OnlyIndexesMatter(w, w', norm);
    assert forall c :: At(w', c) == At(w, c);
    forall u | u in w.byUid ensures Live(w, w.byUid[u]) { Named(w, norm, u); }
    hide Inv, At, Flush;
    forall u | u in w'.toDelete ensures DeletionKept(w', also, u, w'.toDelete[u]) {
      assert DeletionKept(w, also, u, w.toDelete[u]);
    }
  }

  lemma FlushSame(w: World)
    ensures SameIndexes(w, Flush(w, true)) && Flush(w, true).toDelete == w.toDelete && Flush(w, true).dirty == map[]
  {
    hide Commit, Values;
  }

  // ---- One contact changes ----

  /** The rows of the others are as they were, and its own is too or has the mark of the contact. */
  predicate OneRow(t: Tables, t': Tables, d: ContactData) {
    && t'.contacts.Keys == t.contacts.Keys
    && forall u :: u in t.contacts ==>
         t'.contacts[u] == t.contacts[u] || (u == d.uid && (SCHEDULE_DELETE in t'.contacts[u].pendingFlags <==> IsMarked(d)))
  }

  lemma DeletionStays(w: World, also: set<string>, u: string, x: Contact, c: Contact, d: ContactData, w': World)
    requires DeletionKept(w, also, u, x) && Live(w, c) && d.uid == At(w, c).uid && (IsMarked(At(w, c)) ==> IsMarked(d))
    requires w'.heap == w.heap[c := d] && w'.byUid == w.byUid && OneRow(w.db, w'.db, d)
    ensures DeletionKept(w', also, u, x)
  {
    assert x != c ==> At(w', x) == At(w, x);
    assert At(w', c) == d;
    hide At;
  }

  lemma ChangeKeeps(w: World, norm: Norm, also: set<string>, c: Contact, d: ContactData, w': World)
    requires Kept(w, norm, also) && Live(w, c) && d.uid == At(w, c).uid && (IsMarked(At(w, c)) ==> IsMarked(d))
    requires Inv(w', norm) && w'.heap == w.heap[c := d] && w'.byUid == w.byUid && w'.toDelete == w.toDelete
    requires w'.dirty == w.dirty && OneRow(w.db, w'.db, d)
    ensures Kept(w', norm, also)
  {
    assert w'.db.contacts.Keys == w.db.contacts.Keys;
    hide Inv, At, DeletionKept, OneRow, Live, IsMarked;
    forall u | u in w'.toDelete ensures DeletionKept(w', also, u, w'.toDelete[u]) {
      DeletionStays(w, also, u, w.toDelete[u], c, d, w');
    }
  }

  lemma UpdatedRow(t: Tables, d: ContactData, stored: bool)
    ensures OneRow(t, Commit(t, RealUpdate(t, d), stored), d)
  {}

  lemma AnnounceRows(w: World, c: Contact)
    ensures SameRows(w, Announce(w, c)) && Announce(w, c).dirty == w.dirty
  {
    hide Tell, At;
  }

  lemma ChangedRows(w: World, changed: map<string, Contact>)
    ensures SameRows(w, w.(changed := changed)) && w.(changed := changed).dirty == w.dirty
  {}

  lemma NotifyUpdatedRows(w: World, c: Contact)
    ensures SameRows(w, NotifyUpdated(w, c))
  {
    var w1 := w.(changed := w.changed - {At(w, c).uid});
    ChangedRows(w, w.changed - {At(w, c).uid});
    NotifyRows(w1);
    AnnounceRows(Notify(w1), c);
    hide Notify, Announce, At;
  }

  lemma NotifyRows(w: World)
    ensures SameRows(w, Notify(w)) && Notify(w).dirty == w.dirty
  {
    hide Tell, VisibleOf;
  }

  // ---- Creating offline ----

  lemma CreateExistingKept(w: World, norm: Norm, c: Contact, news: ContactData, o: CreateAnswers)
    requires Kept(w, norm, {}) && Live(w, c)
    ensures Kept(CreateExisting(w, c, news, o), norm, {})
  {
    hide *;
    var d := Absorbed(At(w, c), news);
    var d' := RunUpdate(d, o.unblocked);
    var w1 := Put(w, c, d').(db := Commit(w.db, RealUpdate(w.db, d'), o.stored));
    KeptInv(w, norm);
    CreateExistingKeeps(w, norm, c, news, o);
    AbsorbedKeepsMark(At(w, c), news, o.unblocked);
    CreateExistingIs(w, c, news, o);
    if NeedsUpdate(d) {
      UpdatedRow(w.db, d', o.stored);
      UpdatedKeeps(w, norm, c, d', w1, NotifyUpdated(w1, c));
    } else {
      SameRow(w.db, d);
      PutShape(w, c, d);
      ChangeKeeps(w, norm, {}, c, d, Put(w, c, d));
    }
  }

  lemma CreateExistingIs(w: World, c: Contact, news: ContactData, o: CreateAnswers)
    ensures var d := Absorbed(At(w, c), news);
      var d' := RunUpdate(d, o.unblocked);
      CreateExisting(w, c, news, o) == if !NeedsUpdate(d) then Put(w, c, d)
        else NotifyUpdated(Put(w, c, d').(db := Commit(w.db, RealUpdate(w.db, d'), o.stored)), c)
  {}

  lemma PutShape(w: World, c: Contact, d: ContactData)
    ensures var w' := Put(w, c, d);
      && w'.heap == w.heap[c := d] && w'.byUid == w.byUid && w'.toDelete == w.toDelete && w'.dirty == w.dirty && w'.db == w.db
  {}

  lemma KeptInv(w: World, norm: Norm)
    requires Kept(w, norm, {})
    ensures Inv(w, norm)
  {}

  lemma SameRow(t: Tables, d: ContactData)
    ensures OneRow(t, t, d)
  {}

  lemma AbsorbedKeepsMark(d: ContactData, news: ContactData, unblocked: bool)
    ensures var d' := Absorbed(d, news);
      && d'.uid == d.uid && (IsMarked(d) ==> IsMarked(d'))
      && RunUpdate(d', unblocked).uid == d.uid && (IsMarked(d) ==> IsMarked(RunUpdate(d', unblocked)))
  {}

  /** A contact is written to its row, and the views hear of it. */
  lemma UpdatedKeeps(w: World, norm: Norm, c: Contact, d: ContactData, w1: World, w2: World)
    requires Kept(w, norm, {}) && Live(w, c) && d.uid == At(w, c).uid && (IsMarked(At(w, c)) ==> IsMarked(d))
    requires w1 == Put(w, c, d).(db := w1.db) && OneRow(w.db, w1.db, d) && w2 == NotifyUpdated(w1, c) && Inv(w2, norm)
    ensures Kept(w2, norm, {})
  {
    NotifyUpdatedRows(w1, c);
    OnlyIndexesBack(w1, w2, norm);
    hide Inv, NotifyUpdated, OneRow;
    ChangeKeeps(w, norm, {}, c, d, w1);
    SameRowsKeep(w1, norm, {}, w2);
  }

  lemma OnlyIndexesBack(w: World, w': World, norm: Norm)
    requires Inv(w', norm) && SameIndexes(w, w')
    ensures Inv(w, norm)
  {
    OnlyIndexesMatter(w', w, norm);
  }

  lemma CreateNewKept(w: World, norm: Norm, id: Contact, d: ContactData)
    requires Kept(w, norm, {}) && id !in w.heap && d.name.Some? && SCHEDULE_ADD in d.pendingFlags
    requires NameOf(d) !in w.byName && d.uid !in w.byUid && CONTACT_UNSEEN !in d.flags
    ensures Kept(CreateNew(w, id, d, true).0, norm, {})
  {
    hide *;
    var w' := CreateNew(w, id, d, true).0;
    KeptParts(w, norm, {});
    CreateNewKeeps(w, norm, id, d, true);
    CreateNewShape(w, id, d);
    NewQueueing(w, id, d, w');
    OldDeletions(w, id, d, w');
    KeptWhole(w', norm, {});
  }

  lemma NewQueueing(w: World, id: Contact, d: ContactData, w': World)
    requires Queueing(w) && d.uid !in w.byUid && w'.byUid == w.byUid[d.uid := id] && w'.dirty == w.dirty
    ensures Queueing(w')
  {}

  lemma KeptWhole(w: World, norm: Norm, also: set<string>)
    requires Inv(w, norm) && w.byUid.Keys == w.db.contacts.Keys && Queueing(w) && Deletions(w, also)
    ensures Kept(w, norm, also)
  {}

  /** A new contact does not disturb the deletions of others. */
  lemma OldDeletions(w: World, id: Contact, d: ContactData, w': World)
    requires Deletions(w, {}) && id !in w.heap && d.uid !in w.byUid
    requires w'.heap == w.heap[id := d] && w'.byUid == w.byUid[d.uid := id] && w'.toDelete == w.toDelete
    requires forall u :: u in w.db.contacts ==> u in w'.db.contacts && w'.db.contacts[u] == w.db.contacts[u]
    ensures Deletions(w', {})
  {
    forall x | x in w.heap ensures x in w'.heap && x != id && At(w', x) == At(w, x) && (Live(w', x) ==> Live(w, x)) {}
    hide At, Live, IsMarked;
    forall u | u in w'.toDelete ensures DeletionKept(w', {}, u, w'.toDelete[u]) {
      assert DeletionKept(w, {}, u, w.toDelete[u]);
    }
  }

  lemma CreateNewShape(w: World, id: Contact, d: ContactData)
    requires d.name.Some? && d.uid !in w.db.contacts && SCHEDULE_ADD in d.pendingFlags
    ensures var w' := CreateNew(w, id, d, true).0;
      && w'.byUid == w.byUid[d.uid := id] && w'.db.contacts == w.db.contacts[d.uid := RowOf(d)]
      && w'.heap == w.heap[id := d] && w'.toDelete == w.toDelete && w'.dirty == w.dirty
  {
    hide NameOf;
  }

  // ---- Removing offline ----

  lemma KeepContactKept(w: World, norm: Norm, c: Contact, d: ContactData, also: set<string>)
    requires Kept(w, norm, also) && Live(w, c) && Minor(norm, At(w, c), d) && (IsMarked(At(w, c)) ==> IsMarked(d))
    ensures Kept(KeepContact(w, c, d, true), norm, also)
  {
    hide *;
    KeptParts(w, norm, also);
    MinorUid(norm, At(w, c), d);
    KeepContactKeeps(w, norm, c, d, true);
    KeepContactIs(w, c, d);
    if SCHEDULE_UPDATE_MASTER_UID !in d.pendingFlags {
      SameRow(w.db, d);
      PutShape(w, c, d);
      ChangeKeeps(w, norm, also, c, d, Put(w, c, d));
    } else {
      var d' := Cleared(w, d);
      var w1 := Put(w, c, d').(db := Commit(w.db, RealUpdate(w.db, d), true));
      WrittenMark(w, d);
      PutShape(w, c, d');
      NotifyUpdatedRows(w1, c);
      SameRowsBack(w1, NotifyUpdated(w1, c), norm);
      ChangeKeeps(w, norm, also, c, d', w1);
      SameRowsKeep(w1, norm, also, NotifyUpdated(w1, c));
    }
  }

  lemma KeptParts(w: World, norm: Norm, also: set<string>)
    requires Kept(w, norm, also)
    ensures Inv(w, norm) && w.byUid.Keys == w.db.contacts.Keys && Queueing(w) && Deletions(w, also)
  {}

  lemma MinorUid(norm: Norm, d: ContactData, d': ContactData)
    requires Minor(norm, d, d')
    ensures d'.uid == d.uid
  {}

  /** The contact once its edited master UIDs are in the cache. */
  function Cleared(w: World, d: ContactData): ContactData {
    if RealUpdate(w.db, d).Some? then d.(pendingFlags := d.pendingFlags - {SCHEDULE_UPDATE_MASTER_UID}) else d
  }

  lemma KeepContactIs(w: World, c: Contact, d: ContactData)
    ensures KeepContact(w, c, d, true) ==
      if SCHEDULE_UPDATE_MASTER_UID !in d.pendingFlags then Put(w, c, d)
      else NotifyUpdated(Put(w, c, Cleared(w, d)).(db := Commit(w.db, RealUpdate(w.db, d), true)), c)
  {}

  lemma WrittenMark(w: World, d: ContactData)
    ensures OneRow(w.db, Commit(w.db, RealUpdate(w.db, d), true), Cleared(w, d))
    ensures Cleared(w, d).uid == d.uid && (IsMarked(d) ==> IsMarked(Cleared(w, d)))
  {}

  lemma SameRowsBack(w: World, w': World, norm: Norm)
    requires SameRows(w, w') && Inv(w', norm)
    ensures Inv(w, norm)
  {
    OnlyIndexesMatter(w', w, norm);
  }

  lemma MoreAlso(w: World, norm: Norm, also: set<string>, more: set<string>)
    requires Kept(w, norm, also)
    ensures Kept(w, norm, also + more)
  {
    hide Inv;
    forall u | u in w.toDelete ensures DeletionKept(w, also + more, u, w.toDelete[u]) {
      assert DeletionKept(w, also, u, w.toDelete[u]);
    }
  }

  /** Marking one contact leaves the other deletions as they were. */
  lemma MarkedApart(w: World, c: Contact, d: ContactData, also: set<string>, w': World, u: string, x: Contact)
    requires DeletionKept(w, also, u, x) && Live(w, c) && d.uid == At(w, c).uid && IsMarked(d)
    requires w'.heap == w.heap[c := d] && w'.byUid == w.byUid && w'.db == w.db
    ensures DeletionKept(w', also + {d.uid}, u, x)
  {
    hide RowMarked;
  }

  /** The contact is marked and waits for its deletion; its row will follow. */
  lemma MarkingKept(w: World, norm: Norm, c: Contact, d: ContactData, also: set<string>, w': World)
    requires Kept(w, norm, also) && Live(w, c) && d.uid == At(w, c).uid && IsMarked(d) && Inv(w', norm)
    requires w' == Put(w, c, d).(toDelete := w.toDelete[d.uid := c])
    ensures Kept(w', norm, also + {d.uid})
  {
    assert Queueing(w) ==> Queueing(w');
    assert DeletionKept(w', also + {d.uid}, d.uid, c);
    assert w'.heap == w.heap[c := d] && w'.byUid == w.byUid && w'.db == w.db;
    hide Inv, At, Live, IsMarked, DeletionKept, Queueing, Kept, Put, DeleteMany;
    KeptParts(w, norm, also);
    forall u | u in w'.toDelete ensures DeletionKept(w', also + {d.uid}, u, w'.toDelete[u]) {
      if u != d.uid { MarkedApart(w, c, d, also, w', u, w.toDelete[u]); }
    }
    KeptWhole(w', norm, also + {d.uid});
  }

  lemma DeleteInvalidShape(w: World, c: Contact)
    requires w.dirty == map[] && At(w, c).name.Some?
    ensures var w' := DeleteContacts(w, {c}, true, true);
      && w'.heap == w.heap && w'.byUid == w.byUid - {At(w, c).uid} && w'.toDelete == w.toDelete && w'.dirty == map[]
      && w'.db == DeleteMany(w.db, {At(w, c).uid})
  {
    DeleteShape(w, c, true, true);
    assert UidsOf(w, {c}) == {At(w, c).uid};
    assert Values(Unlink(w, {c}), map[]) == map[];
    UpdateNone(w.db);
    hide UpdateMany, DeleteMany, Tell, Forget, VisibleOf, At, UidsOf;
  }

  /** Dropping one contact leaves the other deletions as they were. */
  lemma DroppedApart(w: World, c: Contact, d: ContactData, also: set<string>, w': World, u: string, x: Contact)
    requires DeletionKept(w, also, u, x) && Live(w, c) && d.uid == At(w, c).uid
    requires w'.heap == w.heap[c := d] && w'.byUid == w.byUid - {d.uid} && w'.db == DeleteMany(w.db, {d.uid})
    ensures DeletionKept(w', also, u, x)
  {
    hide Others;
  }

  /** An invalid contact is dropped at once; the others are not touched. */
  lemma DroppingKept(w: World, norm: Norm, c: Contact, d: ContactData, also: set<string>, w': World)
    requires Kept(w, norm, also) && Live(w, c) && d.uid == At(w, c).uid && Inv(w', norm)
    requires w'.heap == w.heap[c := d] && w'.byUid == w.byUid - {d.uid} && w'.toDelete == w.toDelete && w'.dirty == map[]
    requires w'.db == DeleteMany(w.db, {d.uid})
    ensures Kept(w', norm, also)
  {
    assert Queueing(w');
    assert w'.db.contacts.Keys == w.db.contacts.Keys - {d.uid};
    hide Inv, At, Live, IsMarked, DeletionKept, Queueing, Kept, Put, DeleteMany;
    KeptParts(w, norm, also);
    forall u | u in w'.toDelete ensures DeletionKept(w', also, u, w'.toDelete[u]) {
      DroppedApart(w, c, d, also, w', u, w.toDelete[u]);
    }
    KeptWhole(w', norm, also);
  }

  /** What a batch of removals keeps: the contacts it collected are named, and each is still the one
      of its uid or has left the index. */
  predicate Removing(b: Batch, norm: Norm) {
    && Kept(b.world, norm, UidsOf(b.world, SetOf(b.contacts)))
    && forall x :: x in b.contacts ==> CollectedOk(b.world, x)
  }

  predicate CollectedOk(w: World, x: Contact) {
    var d := At(w, x);
    x in w.heap && d.name.Some? && (d.uid in w.byUid ==> w.byUid[d.uid] == x)
  }

  /** Everything of a batch but the contact that is dealt with now. */
  predicate StillCollected(w: World, w': World, c: Contact) {
    && (forall x :: x in w.heap && x != c ==> At(w', x) == At(w, x))
    && At(w', c).uid == At(w, c).uid && At(w', c).name == At(w, c).name && w.heap.Keys <= w'.heap.Keys
    && (w'.byUid == w.byUid || w'.byUid == w.byUid - {At(w, c).uid})
  }

  lemma CollectedMore(b: Batch, norm: Norm, c: Contact, w': World)
    requires Removing(b, norm) && Live(b.world, c) && At(b.world, c).name.Some? && StillCollected(b.world, w', c)
    requires Kept(w', norm, UidsOf(b.world, SetOf(b.contacts)) + {At(b.world, c).uid})
    ensures Removing(Batch(w', b.contacts + [c]), norm)
  {
    var w := b.world;
    forall x | x in b.contacts + [c] ensures At(w', x).uid == At(w, x).uid && At(w', x).name == At(w, x).name {
      assert x != c ==> CollectedOk(w, x);
    }
    UidsMore(w, b.contacts, c, w');
    hide Kept, At, UidsOf;
    forall x | x in b.contacts + [c] ensures CollectedOk(w', x) {
      if x in b.contacts { assert CollectedOk(w, x); }
    }
  }

  lemma UidsMore(w: World, cs: seq<Contact>, c: Contact, w': World)
    requires forall x :: x in cs + [c] ==> At(w', x).uid == At(w, x).uid
    ensures UidsOf(w', SetOf(cs + [c])) == UidsOf(w, SetOf(cs)) + {At(w, c).uid}
    ensures UidsOf(w', SetOf(cs)) == UidsOf(w, SetOf(cs))
  {
    hide At;
    assert SetOf(cs + [c]) == SetOf(cs) + {c};
  }

  lemma CollectedSame(b: Batch, norm: Norm, c: Contact, w': World)
    requires Removing(b, norm) && StillCollected(b.world, w', c)
    requires Kept(w', norm, UidsOf(b.world, SetOf(b.contacts)))
    ensures Removing(Batch(w', b.contacts), norm)
  {
    var w := b.world;
    forall x | x in b.contacts + [c] ensures At(w', x).uid == At(w, x).uid && At(w', x).name == At(w, x).name {
      assert x != c ==> CollectedOk(w, x);
    }
    UidsMore(w, b.contacts, c, w');
    hide Kept, At, UidsOf;
    forall x | x in b.contacts ensures CollectedOk(w', x) { assert CollectedOk(w, x); }
  }

  lemma DropContactKept(b: Batch, norm: Norm, c: Contact, d: ContactData, o: RemoveAnswers)
    requires Removing(b, norm) && Live(b.world, c) && At(b.world, c).name.Some? && b.world.dirty == map[]
    requires Minor(norm, At(b.world, c), d) && o.flushed && o.removed
    ensures Removing(Batch(DropContact(b.world, c, d, false, o), b.contacts + [c]), norm)
  {
    hide *;
    var w, w' := b.world, DropContact(b.world, c, d, false, o);
    var also := UidsOf(w, SetOf(b.contacts));
    RemovingParts(b, norm);
    KeptParts(w, norm, also);
    DropContactKeeps(w, norm, c, d, false, o);
    MinorKeys(norm, At(w, c), d);
    if CONTACT_INVALID in d.flags {
      var cleared := d.(pendingFlags := {});
      DropInvalidShape(w, c, d, o);
      DroppingKept(w, norm, c, cleared, also, w');
      DropStill(w, c, cleared, w');
    } else {
      var marked := d.(pendingFlags := {SCHEDULE_DELETE});
      DropMarkShape(w, c, d, o);
      MarkingKept(w, norm, c, marked, also, w');
      DropStill(w, c, marked, w');
    }
    MoreAlso2(w', norm, also, d.uid);
    CollectedMore(b, norm, c, w');
  }

  lemma RemovingParts(b: Batch, norm: Norm)
    requires Removing(b, norm)
    ensures Kept(b.world, norm, UidsOf(b.world, SetOf(b.contacts)))
  {}

  lemma MinorKeys(norm: Norm, d: ContactData, d': ContactData)
    requires Minor(norm, d, d')
    ensures d'.uid == d.uid && d'.name == d.name
  {}

  lemma MoreAlso2(w: World, norm: Norm, also: set<string>, u: string)
    requires Kept(w, norm, also) || Kept(w, norm, also + {u})
    ensures Kept(w, norm, also + {u})
  {
    hide Kept;
    if Kept(w, norm, also) { MoreAlso(w, norm, also, {u}); }
  }

  lemma DropStill(w: World, c: Contact, d: ContactData, w': World)
    requires c in w.heap && d.uid == At(w, c).uid && d.name == At(w, c).name && w'.heap == w.heap[c := d]
    requires w'.byUid == w.byUid || w'.byUid == w.byUid - {d.uid}
    ensures StillCollected(w, w', c)
  {}

  lemma DropInvalidShape(w: World, c: Contact, d: ContactData, o: RemoveAnswers)
    requires w.dirty == map[] && At(w, c).name.Some? && d.name == At(w, c).name && CONTACT_INVALID in d.flags
    requires o.flushed && o.removed && Live(w, c)
    ensures var w' := DropContact(w, c, d, false, o);
      && c in w.heap && w'.heap == w.heap[c := d.(pendingFlags := {})] && w'.byUid == w.byUid - {d.uid}
      && w'.toDelete == w.toDelete && w'.dirty == map[] && w'.db == DeleteMany(w.db, {d.uid})
  {
    var cleared := Put(w, c, d.(pendingFlags := {}));
    assert At(cleared, c) == d.(pendingFlags := {});
    hide DeleteMany, At, DeleteContacts;
    DeleteInvalidShape(cleared, c);
  }

  lemma DropMarkShape(w: World, c: Contact, d: ContactData, o: RemoveAnswers)
    requires CONTACT_INVALID !in d.flags && Live(w, c)
    ensures var w', marked := DropContact(w, c, d, false, o), d.(pendingFlags := {SCHEDULE_DELETE});
      && c in w.heap && w' == Put(w, c, marked).(toDelete := w.toDelete[d.uid := c]) && IsMarked(marked)
      && w'.heap == w.heap[c := marked] && w'.byUid == w.byUid
  {
    hide DeleteContacts;
  }

  /** Master UIDs are removed and nothing else: the mark stays. */
  lemma SuffixKeepsMark(d: ContactData, suffix: seq<string>)
    ensures IsMarked(d) ==> IsMarked(ApplySuffix(d, suffix).0)
  {
    FieldsKeepMark(d, suffix);
  }

  lemma {:induction false} FieldsKeepMark(d: ContactData, suffix: seq<string>)
    ensures IsMarked(d) ==> IsMarked(RemoveFields(d, suffix))
    decreases |suffix|
  {
    if suffix != [] { FieldsKeepMark(RemoveField(d, suffix[0]), suffix[1..]); }
  }

  predicate Carried(o: RemoveAnswers) {
    o.flushed && o.stored && o.removed
  }

  lemma FlushRemoving(b: Batch, norm: Norm)
    requires Removing(b, norm)
    ensures Removing(Batch(Flush(b.world, true), b.contacts), norm) && Flush(b.world, true).dirty == map[]
  {
    var w, w' := b.world, Flush(b.world, true);
    FlushKeeps(w, norm, UidsOf(w, SetOf(b.contacts)));
    FlushSame(w);
    assert forall x :: At(w', x) == At(w, x);
    hide Kept, At, Flush;
    assert UidsOf(w', SetOf(b.contacts)) == UidsOf(w, SetOf(b.contacts));
    forall x | x in b.contacts ensures CollectedOk(w', x) { assert CollectedOk(w, x); }
  }

  lemma KeepStill(w: World, c: Contact, d: ContactData)
    requires Live(w, c) && d.uid == At(w, c).uid && d.name == At(w, c).name
    ensures StillCollected(w, KeepContact(w, c, d, true), c)
  {
    hide *;
    var d' := Cleared(w, d);
    var w1 := Put(w, c, d').(db := Commit(w.db, RealUpdate(w.db, d), true));
    KeepContactIs(w, c, d);
    NotifyUpdatedTouches(w1, c);
    LiveIn(w, c);
    PutShape(w, c, d);
    PutShape(w, c, d');
    ClearedKeys(w, d);
    SameHeap(w1, NotifyUpdated(w1, c));
    if SCHEDULE_UPDATE_MASTER_UID !in d.pendingFlags { DropStill(w, c, d, Put(w, c, d)); }
    else { DropStill(w, c, d', NotifyUpdated(w1, c)); }
  }

  lemma ClearedKeys(w: World, d: ContactData)
    ensures Cleared(w, d).uid == d.uid && Cleared(w, d).name == d.name
  {}

  lemma LiveIn(w: World, c: Contact)
    requires Live(w, c)
    ensures c in w.heap
  {}

  lemma SameHeap(w: World, w': World)
    requires SameIndexes(w, w')
    ensures w'.heap == w.heap && w'.byUid == w.byUid
  {}

  lemma RemoveKept(b: Batch, norm: Norm, request: string, o: RemoveAnswers)
    requires Removing(b, norm) && Carried(o)
    ensures Removing(Remove(b, request, false, o), norm)
  {
    FlushRemoving(b, norm);
    var fb := Batch(Flush(b.world, true), b.contacts);
    var w, fields := fb.world, Split(request, ';');
    hide Flush, Split, ApplySuffix, Removing, KeepContact, DropContact;
    if fields != [] && fields[0] in w.byUid {
      var c := w.byUid[fields[0]];
      var (d, really) := ApplySuffix(At(w, c), fields[1..]);
      RemovingInv(fb, norm);
      Named(w, norm, fields[0]);
      SuffixMinor(w, norm, c, fields[1..]);
      if really {
        DropContactKept(fb, norm, c, d, o);
      } else {
        RemovingParts(fb, norm);
        KeepContactKept(w, norm, c, d, UidsOf(w, SetOf(b.contacts)));
        KeepStill(w, c, d);
        CollectedSame(fb, norm, c, KeepContact(w, c, d, true));
      }
    }
  }

  lemma RemovingInv(b: Batch, norm: Norm)
    requires Removing(b, norm)
    ensures Inv(b.world, norm)
  {}

  lemma SuffixMinor(w: World, norm: Norm, c: Contact, suffix: seq<string>)
    ensures var d := ApplySuffix(At(w, c), suffix).0;
      && Minor(norm, At(w, c), d) && (IsMarked(At(w, c)) ==> IsMarked(d))
      && d.uid == At(w, c).uid && d.name == At(w, c).name
  {
    ApplySuffixIsMinor(At(w, c), suffix);
    SuffixKeepsMark(At(w, c), suffix);
    hide ApplySuffix, At, IsMarked;
  }

  lemma {:induction false} RemoveAllKept(b: Batch, norm: Norm, requests: seq<Request>)
    requires Removing(b, norm) && forall r :: r in requests ==> Carried(r.answers)
    ensures Removing(RemoveAll(b, requests, false), norm)
    decreases |requests|
  {
    hide Removing, Remove, Carried;
    if requests != [] {
      assert requests[0] in requests;
      RemoveKept(b, norm, requests[0].text, requests[0].answers);
      RemoveAllKept(Remove(b, requests[0].text, false, requests[0].answers), norm, requests[1..]);
    }
  }

  // ---- The write at the end of a batch ----

  predicate AllNamed(ds: seq<ContactData>) {
    forall d :: d in ds ==> d.name.Some?
  }

  /** The row of a uid has the mark or gets it. */
  predicate MarkDue(t: Tables, ds: seq<ContactData>, u: string) {
    && u in t.contacts && (forall d :: d in ds && d.uid == u ==> IsMarked(d))
    && ((exists d :: d in ds && d.uid == u) || RowMarked(t, u))
  }

  lemma {:induction false} BatchMarks(t: Tables, ds: seq<ContactData>, u: string)
    requires AllNamed(ds)
    ensures UpdateAll(t, ds).Some? && UpdateAll(t, ds).value.contacts.Keys == t.contacts.Keys
    ensures MarkDue(t, ds, u) ==> RowMarked(UpdateAll(t, ds).value, u)
    decreases |ds|
  {
    if ds != [] {
      assert ds == [ds[0]] + ds[1..];
      assert ds[0] in ds;
      var t' := RealUpdate(t, ds[0]).value;
      assert t'.contacts.Keys == t.contacts.Keys;
      assert ds[0].uid != u && u in t.contacts ==> t'.contacts[u] == t.contacts[u];
      assert ds[0].uid == u && u in t.contacts && IsMarked(ds[0]) ==> RowMarked(t', u);
      assert forall d :: d in ds <==> d == ds[0] || d in ds[1..];
      hide RealUpdate, RowOf;
      BatchMarks(t', ds[1..], u);
    }
  }

  lemma StoredMarks(b: Batch, norm: Norm, u: string)
    requires Removing(b, norm) && u in b.world.toDelete && Live(b.world, b.world.toDelete[u])
    ensures var t' := UpdateAll(b.world.db, DataAt(b.world, b.contacts));
      t'.Some? && RowMarked(t'.value, u)
  {
    var w, ds := b.world, DataAt(b.world, b.contacts);
    var c := w.toDelete[u];
    assert DeletionKept(w, UidsOf(w, SetOf(b.contacts)), u, c);
    NamedAll(b, norm);
    BatchMarks(w.db, ds, u);
    forall d | d in ds && d.uid == u ensures IsMarked(d) {
      var i :| 0 <= i < |b.contacts| && ds[i] == d;
      assert b.contacts[i] in b.contacts && CollectedOk(w, b.contacts[i]);
    }
    if u in UidsOf(w, SetOf(b.contacts)) {
      var x :| x in SetOf(b.contacts) && At(w, x).uid == u;
      var i :| 0 <= i < |b.contacts| && b.contacts[i] == x;
      assert ds[i] in ds && ds[i].uid == u;
    }
    hide UpdateAll, Inv, At;
  }

  lemma NamedAll(b: Batch, norm: Norm)
    requires Removing(b, norm)
    ensures AllNamed(DataAt(b.world, b.contacts))
    ensures var t' := UpdateAll(b.world.db, DataAt(b.world, b.contacts));
      t'.Some? && t'.value.contacts.Keys == b.world.db.contacts.Keys
  {
    var ds := DataAt(b.world, b.contacts);
    forall d | d in ds ensures d.name.Some? {
      var i :| 0 <= i < |b.contacts| && ds[i] == d;
      assert b.contacts[i] in b.contacts && CollectedOk(b.world, b.contacts[i]);
    }
    BatchMarks(b.world.db, ds, "");
  }

  lemma StoreKept(b: Batch, norm: Norm)
    requires Removing(b, norm)
    ensures Kept(StoreChanged(b.world, b.contacts, true), norm, {})
  {
    var w, w' := b.world, StoreChanged(b.world, b.contacts, true);
    NamedAll(b, norm);
    assert SameIndexes(w, w') && w'.toDelete == w.toDelete && w'.dirty == w.dirty;
    assert w'.db == UpdateAll(w.db, DataAt(w, b.contacts)).value;
    RemovingParts(b, norm);
    OnlyIndexesMatter(w, w', norm);
    assert forall x :: At(w', x) == At(w, x);
    hide Inv, At, UpdateAll, StoreChanged, Removing, DataAt;
    forall u | u in w'.toDelete ensures DeletionKept(w', {}, u, w'.toDelete[u]) {
      assert DeletionKept(w, UidsOf(w, SetOf(b.contacts)), u, w.toDelete[u]);
      if Live(w, w.toDelete[u]) { StoredMarks(b, norm, u); }
    }
  }

  lemma RemovingKept(w: World, norm: Norm, requests: seq<Request>)
    requires Kept(w, norm, {}) && forall r :: r in requests ==> Carried(r.answers)
    ensures Kept(RemoveContacts(w, requests, false, true, true), norm, {})
  {
    NotifyRows(w);
    SameRowsKeep(w, norm, {}, Notify(w));
    FlushKeeps(Notify(w), norm, {});
    var start := Batch(Flush(Notify(w), true), []);
    NobodyYet(start.world);
    hide Kept, Notify, Flush, RemoveAll, StoreChanged, Carried;
    RemoveAllKept(start, norm, requests);
    StoreKept(RemoveAll(start, requests, false), norm);
  }

  lemma NobodyYet(w: World)
    ensures UidsOf(w, SetOf([])) == {}
  {
    assert SetOf([]) == {};
  }

  lemma SubmittedIs(w: World, path: string, d: ContactData)
    ensures var s := Submitted(w, path, d);
      && s.uid !in w.byUid && s.name == d.name && s.flags == d.flags && SCHEDULE_ADD in s.pendingFlags
  {
    hide FreshUid;
  }

  lemma CreatingKept(w: World, norm: Norm, setup: Setup, card: Card, id: Contact, o: CreateAnswers)
    requires Kept(w, norm, {}) && id !in w.heap && o.flushed && o.stored
    ensures Kept(Create(w, setup.path, setup.vcardField, card, id, false, o).0, norm, {})
  {
    hide *;
    FlushKeeps(w, norm, {});
    FlushSame(w);
    SameHeap(w, Flush(w, true));
    SubmittedIsPlain(card, setup.vcardField);
    CreateOfflineIs(w, setup, card, id, o);
    var w' := Flush(w, true);
    var (d, named) := UpdateFromEContact(NEW_CONTACT, card, setup.vcardField);
    if named {
      var s := Submitted(w', setup.path, d);
      SubmittedIs(w', setup.path, d);
      if NameOf(s) in w'.byName {
        NameIsLive(w', norm, NameOf(s));
        CreateExistingKept(w', norm, w'.byName[NameOf(s)], s, o);
      } else {
        CreateNewKept(w', norm, id, s);
      }
    }
  }

  lemma CreateOfflineIs(w: World, setup: Setup, card: Card, id: Contact, o: CreateAnswers)
    ensures var w' := Flush(w, o.flushed);
      var (d, named) := UpdateFromEContact(NEW_CONTACT, card, setup.vcardField);
      var s := Submitted(w', setup.path, d);
      Create(w, setup.path, setup.vcardField, card, id, false, o).0 ==
        if !named then w'
        else if NameOf(s) in w'.byName then CreateExisting(w', w'.byName[NameOf(s)], s, o)
        else CreateNew(w', id, s, o.stored).0
  {
    hide Flush, UpdateFromEContact, Submitted, NameOf, CreateExisting, CreateNew, RunAdd;
  }

  lemma NameIsLive(w: World, norm: Norm, n: string)
    requires Kept(w, norm, {}) && n in w.byName
    ensures Live(w, w.byName[n])
  {
    assert NameEntry(w, n, w.byName[n]);
  }

  /** What can happen while offline, with the storage carrying the writes out. */
  ghost predicate Offline(w: World, e: Event) {
    match e
    case Creating(_, id, online, answers) => id !in w.heap && !online && answers.flushed && answers.stored
    case Removing(requests, online, flushed, stored) =>
      !online && flushed && stored && forall r :: r in requests ==> Carried(r.answers)
    case Idling(flushed) => flushed
    case Notifying => true
    case Viewing => true
    case Resting(_) => true
    case _ => false
  }

  ghost predicate AllOffline(w: World, setup: Setup, events: seq<Event>)
    decreases |events|
  {
    events == [] || (Offline(w, events[0]) && AllOffline(Happen(w, setup, events[0]), setup, events[1..]))
  }

  lemma IdlingKept(w: World, norm: Norm)
    requires Kept(w, norm, {})
    ensures Kept(IdleUpdate(w, true), norm, {})
  {
    NotifyRows(w);
    SameRowsKeep(w, norm, {}, Notify(w));
    var told := if !w.inactive || |w.changed| > MAX_PENDING_CONTACTS then Notify(w) else w;
    hide Kept, Notify, Flush;
    FlushKeeps(told, norm, {});
    IdleOff(Flush(told, true));
    SameRowsKeep(Flush(told, true), norm, {}, Flush(told, true).(idle := false));
  }

  lemma IdleOff(w: World)
    ensures SameRows(w, w.(idle := false))
  {}

  lemma ViewRows(w: World)
    ensures SameRows(w, StartView(w))
  {
    NotifyRows(w);
    hide Notify, VisibleOf;
  }

  lemma InactivityRows(w: World, inactive: bool)
    ensures SameRows(w, SetInactivity(w, inactive))
  {
    NotifyRows(w.(inactive := inactive));
    hide Notify;
  }

  lemma OfflineKept(w: World, norm: Norm, setup: Setup, e: Event)
    requires Kept(w, norm, {}) && Offline(w, e)
    ensures Kept(Happen(w, setup, e), norm, {})
  {
    hide Kept, Create, RemoveContacts, IdleUpdate, Notify, StartView, SetInactivity, Carried;
    match e {
      case Creating(card, id, _, answers) => CreatingKept(w, norm, setup, card, id, answers);
      case Removing(requests, _, _, _) => RemovingKept(w, norm, requests);
      case Idling(_) => IdlingKept(w, norm);
      case Notifying =>
        NotifyRows(w);
        SameRowsKeep(w, norm, {}, Notify(w));
      case Viewing =>
        ViewRows(w);
        SameRowsKeep(w, norm, {}, StartView(w));
      case Resting(inactive) =>
        InactivityRows(w, inactive);
        SameRowsKeep(w, norm, {}, SetInactivity(w, inactive));
    }
  }

  lemma {:induction false} OfflineRunKept(w: World, norm: Norm, setup: Setup, events: seq<Event>)
    requires Kept(w, norm, {}) && AllOffline(w, setup, events)
    ensures Kept(Run(w, setup, events), norm, {})
    decreases |events|
  {
    hide Kept, Happen, Offline;
    if events != [] {
      OfflineKept(w, norm, setup, events[0]);
      OfflineRunKept(Happen(w, setup, events[0]), norm, setup, events[1..]);
    }
  }

  // ---- After a restart ----

  lemma {:induction false} LoadAllQueues(w: World, arrivals: seq<Arrival>, u: string)
    ensures u in w.toDelete || (exists a :: a in arrivals && a.data.uid == u && IsMarked(a.data)) ==> u in LoadAll(w, arrivals).toDelete
    decreases |arrivals|
  {
    if arrivals != [] {
      assert arrivals == [arrivals[0]] + arrivals[1..];
      LoadAllQueues(LoadOne(w, arrivals[0]), arrivals[1..], u);
    }
  }

  lemma MarkedIsHidden(d: ContactData)
    requires IsMarked(d)
    ensures !Visible(d)
  {}

  /** What a restart loads from the cache: one contact per row, each a new object. */
  ghost predicate Restored(t: Tables, loaded: seq<Arrival>, contactRows: seq<ContactRow>,
                           masterRows: seq<(string, string)>, variantRows: seq<(string, string)>)
  {
    && ContactListing(contactRows, t.contacts) && Loadable(loaded)
    && Exactness.Fetches(t, loaded, contactRows, masterRows, variantRows)
  }

  /** A contact of the uid index waits for its deletion. */
  predicate Waits(w: World, u: string) {
    u in w.toDelete && Live(w, w.toDelete[u])
  }

  /** The deletion of a uid is back, and the contact is not listed. */
  predicate Returned(l: World, u: string) {
    u in l.toDelete && u in l.byUid && u !in VisibleOf(l, l.byUid)
  }

  /** A marked row comes back as a deletion that waits, and no listing shows the contact. */
  lemma MarkedRowReturns(w: World, loaded: seq<Arrival>, u: string, contactRows: seq<ContactRow>,
                         masterRows: seq<(string, string)>, variantRows: seq<(string, string)>)
    requires Restored(w.db, loaded, contactRows, masterRows, variantRows) && RowMarked(w.db, u)
    ensures Returned(Load(w, loaded), u)
  {
    var i :| 0 <= i < |contactRows| && contactRows[i].0 == u;
    var a := loaded[i];
    assert a.data == FetchedAll(contactRows, masterRows, variantRows)[i];
    assert a.data.uid == u && IsMarked(a.data);
    LoadAllQueues(w, loaded, u);
    LoadAllHolds(w, loaded, a.id, u);
    assert a in loaded && Loaded(LoadAll(w, loaded), loaded[i]);
    MarkedIsHidden(Marked(a.data));
    hide LoadAll, Visible, Tell, ContactListing, FetchedAll, Loadable, Exactness.Fetches;
  }

  /** A contact that waits for its deletion at the end of an offline run is marked in the cache and
      not listed; and whenever that cache is loaded again, it waits for its deletion and is not
      listed. */
  lemma WaitingSurvives(w: World, norm: Norm, setup: Setup, events: seq<Event>, u: string)
    requires Kept(w, norm, {}) && AllOffline(w, setup, events) && Waits(Run(w, setup, events), u)
    ensures var w' := Run(w, setup, events);
      && RowMarked(w'.db, u) && u !in VisibleOf(w', w'.byUid)
      && forall w0: World, loaded, contactRows, masterRows, variantRows ::
           w0.db == w'.db && Restored(w'.db, loaded, contactRows, masterRows, variantRows) ==> Returned(Load(w0, loaded), u)
  {
    var w' := Run(w, setup, events);
    OfflineRunKept(w, norm, setup, events);
    var c := w'.toDelete[u];
    assert DeletionKept(w', {}, u, c);
    MarkedIsHidden(At(w', c));
    assert w'.byUid[u] == c;
    hide Visible, IsMarked, Run, Load, Inv, Restored, RowMarked;
    forall w0: World, loaded, contactRows, masterRows, variantRows
      | w0.db == w'.db && Restored(w'.db, loaded, contactRows, masterRows, variantRows)
      ensures Returned(Load(w0, loaded), u)
    {
      MarkedRowReturns(w0, loaded, u, contactRows, masterRows, variantRows);
    }
  }

  /** A removal that is accepted while offline makes the contact wait for its deletion. */
  lemma AcceptedWaits(b: Batch, norm: Norm, request: string, o: RemoveAnswers)
    requires Removing(b, norm) && Carried(o)
    ensures var w, fields := b.world, Split(request, ';');
      fields != [] && fields[0] in w.byUid
      && ApplySuffix(At(w, w.byUid[fields[0]]), fields[1..]).1 && CONTACT_INVALID !in At(w, w.byUid[fields[0]]).flags
      ==> var w' := Remove(b, request, false, o).world;
          fields[0] in w'.toDelete && w'.toDelete[fields[0]] == w.byUid[fields[0]] && Live(w', w.byUid[fields[0]])
  {
    var w, fields := b.world, Split(request, ';');
    if fields != [] && fields[0] in w.byUid {
      var c := w.byUid[fields[0]];
      FlushSame(w);
      RemovingInv(b, norm);
      Named(w, norm, fields[0]);
      ApplySuffixIsMinor(At(w, c), fields[1..]);
      assert At(Flush(w, true), c) == At(w, c);
    }
    hide Flush, Split, Inv, Removing, ApplySuffix, DeleteContacts;
  }
}
