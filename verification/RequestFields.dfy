/** The requests of the address book, field by field: a new contact waits to be added and comes back as
    such at every start; a removal request changes master UIDs or marks the contact; a removal the server
    tells of takes exactly the contacts under its handles. */
module RequestFields {
  import opened Text
  import opened Flags
  import opened ContactValues
  import opened Contacts
  import opened VCards
  import opened MasterProtocol
  import opened Store
  import opened StoreBatches
  import opened Fetch
  import opened Uids
  import opened Worlds
  import opened Coherence
  import opened CoherentRuns
  import opened CoherentRequests
  import opened Runs
  import opened RequestViews
  import opened OfflineDelete
  import opened LoadFields
  import StepFields
  import PhaseSteps
  import Soundness
  import Unblocking
  import WriteBehind

  // ---- A new contact ----

  /** What a submitted vCard makes: as it was parsed, under a uid, to be added and to be put on the lists;
      online the server has answered by then. */
  ghost predicate SubmittedAs(parsed: ContactData, online: bool, a: Answer, e: ContactData) {
    var s := parsed.(uid := e.uid, pendingFlags := parsed.pendingFlags + {SCHEDULE_ADD, CL_SUBSCRIBE, CL_PUBLISH, CL_STORED});
    if online then StepFields.Answered(s, a, true, e) else e == s
  }

  lemma CreatedAs(w: World, setup: Setup, card: Card, online: bool, o: CreateAnswers)
    requires Created(w, setup, card, online, o).1 && Possible(o.add)
    ensures var e := Created(w, setup, card, online, o).0;
      && SubmittedAs(UpdateFromEContact(NEW_CONTACT, card, setup.vcardField).0, online, o.add, e)
      && e.uid !in w.byUid && SCHEDULE_ADD in e.pendingFlags
  {
    var f := Flush(w, o.flushed);
    Soundness.FlushParts(w, o.flushed);
    var d := UpdateFromEContact(NEW_CONTACT, card, setup.vcardField).0;
    var s := Submitted(f, setup.path, d);
    Soundness.RunAddUid(s, o.add);
    if online { StepFields.TriedFields(s, o.add); }
    hide Flush, UpdateFromEContact, RunAdd, FreshUid, NameOf;
  }

  lemma NewForm(w: World, id: Contact, d: ContactData, stored: bool)
    requires SCHEDULE_ADD in d.pendingFlags
    ensures var (w', r) := CreateNew(w, id, d, stored);
      && At(w', id) == d && w'.heap == w.heap[id := d] && w'.byUid == w.byUid[d.uid := id]
      && w'.byName == w.byName[NameOf(d) := id] && w'.toAdd == w.toAdd[d.uid := id]
      && w'.toUpdate == w.toUpdate && w'.toDelete == w.toDelete
      && (r == Some(id) <==> stored && d.uid !in w.db.contacts && d.name.Some?)
      && (r == Some(id) ==> w'.db.contacts == w.db.contacts[d.uid := RowOf(d)])
  {
    hide NameOf;
  }

  lemma CreateResult(w: World, setup: Setup, card: Card, id: Contact, online: bool, o: CreateAnswers)
    requires EntersNew(w, setup, card, online, o)
    ensures Create(w, setup.path, setup.vcardField, card, id, online, o)
         == CreateNew(Flush(w, o.flushed), id, Created(w, setup, card, online, o).0, o.stored)
  {
    Soundness.FlushParts(w, o.flushed);
    hide Flush, UpdateFromEContact, Submitted, RunAdd, NameOf, CreateExisting, CreateNew;
  }

  /** A vCard with a name that nobody has: the new contact has the fields of the vCard, enters the indexes
      under a uid that nobody had, and waits to be added. */
  lemma CreationEnters(w: World, setup: Setup, card: Card, id: Contact, online: bool, o: CreateAnswers)
    requires EntersNew(w, setup, card, online, o) && Possible(o.add)
    ensures var w' := Create(w, setup.path, setup.vcardField, card, id, online, o).0;
      var e := At(w', id);
      && SubmittedAs(UpdateFromEContact(NEW_CONTACT, card, setup.vcardField).0, online, o.add, e)
      && e.uid !in w.byUid && w'.heap == w.heap[id := e] && w'.byUid == w.byUid[e.uid := id]
      && w'.byName == w.byName[NameOf(e) := id] && w'.toAdd == w.toAdd[e.uid := id]
      && w'.toUpdate == w.toUpdate && w'.toDelete == w.toDelete
  {
    CreateResult(w, setup, card, id, online, o);
    assert Created(w, setup, card, online, o).1;
    hide *;
    CreatedAs(w, setup, card, online, o);
    Soundness.FlushParts(w, o.flushed);
    NewForm(Flush(w, o.flushed), id, Created(w, setup, card, online, o).0, o.stored);
  }

  /** A start puts the contact among those to be added, with the flags it was saved with. */
  ghost predicate AddsAgain(l: World, e: ContactData) {
    && e.uid in l.byUid && e.uid in l.toAdd && l.toAdd[e.uid] == l.byUid[e.uid]
    && At(l, l.byUid[e.uid]).name == e.name && At(l, l.byUid[e.uid]).pendingFlags == e.pendingFlags
    && At(l, l.byUid[e.uid]).flags == e.flags
  }

  lemma RowAddsAgain(w0: World, db: Tables, e: ContactData, loaded: seq<Arrival>, contactRows: seq<ContactRow>,
                     masterRows: seq<(string, string)>, variantRows: seq<(string, string)>)
    requires Starts(w0, db, e.uid, loaded, contactRows, masterRows, variantRows)
    requires e.name.Some? && SCHEDULE_ADD in e.pendingFlags && e.uid in db.contacts && db.contacts[e.uid] == RowOf(e)
    ensures AddsAgain(Load(w0, loaded), e)
  {
    var a := RowsReturn(w0, loaded, e.uid, contactRows, masterRows, variantRows);
    var l := Load(w0, loaded);
    assert At(l, a.id).flags == a.data.flags by {
      forall f ensures f in At(l, a.id).flags <==> f in a.data.flags {}
    }
    hide Load, Restored, At;
  }

  /** A contact that was reported as created waits to be added after every later start, too. */
  lemma CreationComesBack(w: World, setup: Setup, card: Card, id: Contact, online: bool, o: CreateAnswers)
    requires EntersNew(w, setup, card, online, o) && Possible(o.add)
    requires Create(w, setup.path, setup.vcardField, card, id, online, o).1 == Some(id)
    ensures var w' := Create(w, setup.path, setup.vcardField, card, id, online, o).0;
      forall w0: World, loaded, contactRows, masterRows, variantRows ::
        Starts(w0, w'.db, At(w', id).uid, loaded, contactRows, masterRows, variantRows)
        ==> AddsAgain(Load(w0, loaded), At(w', id))
  {
    CreateResult(w, setup, card, id, online, o);
    assert Created(w, setup, card, online, o).1;
    hide *;
    var w' := Create(w, setup.path, setup.vcardField, card, id, online, o).0;
    CreatedAs(w, setup, card, online, o);
    NewForm(Flush(w, o.flushed), id, Created(w, setup, card, online, o).0, o.stored);
    var e := At(w', id);
    forall w0: World, loaded, contactRows, masterRows, variantRows
      | Starts(w0, w'.db, e.uid, loaded, contactRows, masterRows, variantRows)
      ensures AddsAgain(Load(w0, loaded), e)
    {
      RowAddsAgain(w0, w'.db, e, loaded, contactRows, masterRows, variantRows);
    }
  }

  // ---- A removal request ----

  /** The request asks for the contact itself: nothing is pending for it any more but, unless the server has
      accepted, its deletion; one that the server never accepted leaves at once. */
  ghost predicate Dropped(w: World, c: Contact, d: ContactData, online: bool, accepted: bool, w': World) {
    && w'.heap == w.heap[c := At(w', c)] && At(w', c) == d.(pendingFlags := At(w', c).pendingFlags)
    && if CONTACT_INVALID in d.flags then
         && At(w', c).pendingFlags == {} && w'.byUid == w.byUid - {d.uid} && w'.toDelete == w.toDelete
         && forall i :: 0 <= i < |w'.views| ==> d.uid !in w'.views[i]
       else
         && w'.byUid == w.byUid && w'.byName == w.byName && w'.byHandle == w.byHandle && w'.db == w.db
         && w'.views == w.views
         && if online && accepted then At(w', c).pendingFlags == {} && w'.toDelete == w.toDelete
            else At(w', c).pendingFlags == {SCHEDULE_DELETE} && w'.toDelete == w.toDelete[d.uid := c]
  }

  lemma DropsContact(w: World, c: Contact, d: ContactData, online: bool, o: RemoveAnswers)
    ensures Dropped(w, c, d, online, o.accepted, DropContact(w, c, d, online, o))
  {
    DropForm(w, c, d, online, o);
    if CONTACT_INVALID in d.flags {
      var p := Put(w, c, d.(pendingFlags := {}));
      hide DropContact, DeleteContacts, Put, At;
      assert At(p, c) == d.(pendingFlags := {}) && p.heap == w.heap[c := d.(pendingFlags := {})] && p.byUid == w.byUid
        && p.toDelete == w.toDelete by { PutHas(w, c, d.(pendingFlags := {})); }
      DeletesOne(p, c, o.flushed, o.removed);
    }
  }

  lemma PutHas(w: World, c: Contact, d: ContactData)
    ensures var p := Put(w, c, d); At(p, c) == d && p.heap == w.heap[c := d] && p.byUid == w.byUid && p.toDelete == w.toDelete
  {}

  lemma DeletesOne(p: World, c: Contact, flushed: bool, removed: bool)
    ensures var w', u := DeleteContacts(p, {c}, flushed, removed), At(p, c).uid;
      && w'.heap == p.heap && At(w', c) == At(p, c) && w'.byUid == p.byUid - {u} && w'.toDelete == p.toDelete
      && forall i :: 0 <= i < |w'.views| ==> u !in w'.views[i]
  {
    hide *;
    PhaseSteps.OnlyOne(p, c);
    Soundness.DeleteIs(p, {c}, flushed, removed);
    var u := Unlink(p, {c});
    Soundness.UnlinkParts(p, {c});
    Soundness.FlushParts(u, flushed);
    Soundness.NotifyParts(Flush(u, flushed));
    Soundness.ErasedParts(Notify(Flush(u, flushed)), UidsOf(p, {c}), removed);
    PhaseSteps.SameAt(p, DeleteContacts(p, {c}, flushed, removed), c);
    ForgetsAll(Notify(Flush(u, flushed)).views, UidsOf(p, {c}));
  }

  lemma ForgetsAll(views: seq<View>, uids: set<string>)
    ensures forall i, u :: 0 <= i < |views| && u in uids ==> u !in Forget(views, uids)[i]
  {}

  /** The request only edits master UIDs: the contact has them and nobody else changes; if there was
      something to save, its row has them, too, the edit is not pending any more once it is saved, and every
      view is told. */
  ghost predicate KeptWith(w: World, c: Contact, d: ContactData, stored: bool, w': World) {
    var e, saved := At(w', c), stored && (d.uid in w.db.contacts ==> d.name.Some?);
    && w'.heap == w.heap[c := e] && e == d.(pendingFlags := e.pendingFlags)
    && (forall f :: f in e.pendingFlags <==> f in d.pendingFlags && (f == SCHEDULE_UPDATE_MASTER_UID ==> !saved))
    && |w'.views| == |w.views|
    && if SCHEDULE_UPDATE_MASTER_UID in d.pendingFlags then
         && (saved && d.uid in w.db.contacts ==> WriteBehind.RecordIn(w'.db, d.uid) == WriteBehind.Kept(d))
         && (forall i :: 0 <= i < |w'.views| ==> d.uid in w'.views[i] && w'.views[i][d.uid] == e)
       else w'.db == w.db && w'.views == w.views
  }

  lemma Saves(t: Tables, d: ContactData)
    ensures RealUpdate(t, d).Some? <==> (d.uid in t.contacts ==> d.name.Some?)
  {}

  lemma KeptQuiet(w: World, c: Contact, d: ContactData, stored: bool)
    requires SCHEDULE_UPDATE_MASTER_UID !in d.pendingFlags
    ensures KeptWith(w, c, d, stored, Put(w, c, d))
  {
    assert At(Put(w, c, d), c) == d;
  }

  lemma KeptTold(w: World, c: Contact, d: ContactData, stored: bool, e: ContactData, db: Tables)
    requires SCHEDULE_UPDATE_MASTER_UID in d.pendingFlags
    requires var saved := stored && (d.uid in w.db.contacts ==> d.name.Some?);
      && e == (if saved then d.(pendingFlags := d.pendingFlags - {SCHEDULE_UPDATE_MASTER_UID}) else d)
      && (saved && d.uid in w.db.contacts ==> WriteBehind.RecordIn(db, d.uid) == WriteBehind.Kept(d))
    ensures KeptWith(w, c, d, stored, NotifyUpdated(Put(w, c, e).(db := db), c))
  {
    var q := Put(w, c, e).(db := db);
    Unblocking.ToldAbout(q, c);
    assert At(q, c) == e && At(NotifyUpdated(q, c), c) == e && |q.views| == |w.views|;
    hide NotifyUpdated, WriteBehind.RecordIn, WriteBehind.Kept;
  }

  lemma KeepsContact(w: World, c: Contact, d: ContactData, stored: bool)
    ensures KeptWith(w, c, d, stored, KeepContact(w, c, d, stored))
  {
    Saves(w.db, d);
    hide *;
    Soundness.KeepContactIs(w, c, d, stored);
    if SCHEDULE_UPDATE_MASTER_UID in d.pendingFlags {
      var saved := stored && (d.uid in w.db.contacts ==> d.name.Some?);
      var e := if saved then d.(pendingFlags := d.pendingFlags - {SCHEDULE_UPDATE_MASTER_UID}) else d;
      var db := Commit(w.db, RealUpdate(w.db, d), stored);
      if d.name.Some? { Unblocking.RowWritten(w.db, d, stored); }
      KeptTold(w, c, d, stored, e, db);
      WithDbIs(Put(w, c, e), db);
    } else {
      KeptQuiet(w, c, d, stored);
    }
  }

  lemma WithDbIs(w: World, db: Tables)
    ensures Soundness.WithDb(w, db) == w.(db := db)
  {}

  /** A removal request for a uid that is there, after what was queued was written. */
  lemma RequestEnds(b: Batch, request: string, online: bool, o: RemoveAnswers)
    requires var fields := Split(request, ';'); fields != [] && fields[0] in b.world.byUid
    ensures var w, b', fields := Flush(b.world, o.flushed), Remove(b, request, online, o), Split(request, ';');
      var c := b.world.byUid[fields[0]];
      var (d, really) := ApplySuffix(At(b.world, c), fields[1..]);
      && (really ==> Dropped(w, c, d, online, o.accepted, b'.world) && b'.contacts == b.contacts + [c])
      && (!really ==> KeptWith(w, c, d, o.stored, b'.world) && b'.contacts == b.contacts)
  {
    var w, fields := Flush(b.world, o.flushed), Split(request, ';');
    var c := b.world.byUid[fields[0]];
    var r := ApplySuffix(At(b.world, c), fields[1..]);
    hide *;
    Soundness.FlushParts(b.world, o.flushed);
    PhaseSteps.SameAt(b.world, w, c);
    Soundness.RemoveIs(b, request, online, o);
    DropsContact(w, c, r.0, online, o);
    KeepsContact(w, c, r.0, o.stored);
  }

  // ---- The server tells that contacts are gone ----

  /** The contact of one of the handles. */
  predicate Told(w: World, handles: seq<nat>, c: Contact) {
    exists h :: h in handles && h in w.byHandle && w.byHandle[h] == c
  }

  lemma LeaveShape(b: Batch, handle: nat)
    ensures var b' := Leave(b, handle);
      && b'.world == b.world.(heap := b'.world.heap) && (forall x :: At(b'.world, x).uid == At(b.world, x).uid)
      && b'.contacts == b.contacts + if handle in b.world.byHandle then [b.world.byHandle[handle]] else []
  {
    if handle !in b.world.byHandle { assert b.contacts + [] == b.contacts; }
  }

  lemma {:induction false} LeavesTold(b: Batch, handles: seq<nat>)
    ensures var b' := LeaveAll(b, handles);
      && b'.world == b.world.(heap := b'.world.heap) && (forall x :: At(b'.world, x).uid == At(b.world, x).uid)
      && forall c :: c in b'.contacts <==> c in b.contacts || Told(b.world, handles, c)
    decreases |handles|
  {
    if handles != [] {
      LeaveShape(b, handles[0]);
      var b1 := Leave(b, handles[0]);
      assert b1.world.byHandle == b.world.byHandle;
      hide Leave, At;
      LeavesTold(b1, handles[1..]);
      assert forall h :: h in handles <==> h == handles[0] || h in handles[1..];
    }
  }

  /** Exactly the contacts under the handles leave the uid index, the views and, if the storage carries it
      out, the cache. */
  lemma RemovedExactly(w: World, norm: Norm, handles: seq<nat>, flushed: bool, removed: bool, u: string)
    requires Inv(w, norm) && 0 !in handles && u in w.byUid
    ensures var w', gone := ContactsRemoved(w, handles, flushed, removed), Told(w, handles, w.byUid[u]);
      && (u in w'.byUid <==> !gone) && (!gone ==> w'.byUid[u] == w.byUid[u])
      && (gone ==> forall i :: 0 <= i < |w'.views| ==> u !in w'.views[i])
      && (removed ==> (u in w'.db.contacts <==> u in w.db.contacts && !gone))
  {
    var b := LeaveAll(Batch(w, []), handles);
    LeavesTold(Batch(w, []), handles);
    ToldUids(w, norm, handles, b, u);
    hide LeaveAll, Inv, Told, At;
    if b.contacts != [] { DeletesAll(b.world, SetOf(b.contacts), flushed, removed); }
  }

  lemma ToldUids(w: World, norm: Norm, handles: seq<nat>, b: Batch, u: string)
    requires Inv(w, norm) && 0 !in handles && u in w.byUid && (forall x :: At(b.world, x).uid == At(w, x).uid)
    requires forall c :: c in b.contacts <==> Told(w, handles, c)
    ensures u in UidsOf(b.world, SetOf(b.contacts)) <==> Told(w, handles, w.byUid[u])
    ensures b.contacts == [] ==> !Told(w, handles, w.byUid[u])
  {
    assert UidEntry(w, u, w.byUid[u]);
    if u in UidsOf(b.world, SetOf(b.contacts)) {
      var c :| c in b.contacts && At(b.world, c).uid == u;
      var h :| h in handles && h in w.byHandle && w.byHandle[h] == c;
      assert HandleEntry(w, norm, h, c);
    }
    if Told(w, handles, w.byUid[u]) { assert w.byUid[u] in b.contacts && w.byUid[u] in SetOf(b.contacts); }
  }

  lemma DeletesAll(p: World, cs: set<Contact>, flushed: bool, removed: bool)
    ensures var w', uids := DeleteContacts(p, cs, flushed, removed), UidsOf(p, cs);
      && w'.heap == p.heap && w'.byUid == p.byUid - uids
      && (forall i, u :: 0 <= i < |w'.views| && u in uids ==> u !in w'.views[i])
      && (removed ==> w'.db.contacts.Keys == p.db.contacts.Keys - uids)
  {
    hide *;
    Soundness.DeleteIs(p, cs, flushed, removed);
    var u := Unlink(p, cs);
    Soundness.UnlinkParts(p, cs);
    Soundness.FlushParts(u, flushed);
    WriteBehind.FlushKeys(u, flushed);
    Soundness.NotifyParts(Flush(u, flushed));
    Soundness.ErasedParts(Notify(Flush(u, flushed)), UidsOf(p, cs), removed);
    ForgetsAll(Notify(Flush(u, flushed)).views, UidsOf(p, cs));
    DeletedKeys(Flush(u, flushed).db, UidsOf(p, cs));
  }

  lemma DeletedKeys(t: Tables, uids: set<string>)
    ensures DeleteMany(t, uids).contacts.Keys == t.contacts.Keys - uids
  {}
}
