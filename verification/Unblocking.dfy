/** Blocked contacts: adding one again has it unblocked, an unblocking that fails is tried again after
    every restart, and one that was accepted is forgotten. */
module Unblocking {
  import opened Text
  import opened Flags
  import opened ContactValues
  import opened Contacts
  import opened VCards
  import opened Store
  import opened StoreBatches
  import opened Fetch
  import opened PendingEdits
  import opened Worlds
  import opened Coherence
  import opened CoherentRuns
  import opened CoherentRequests
  import opened Runs
  import opened RequestViews
  import opened OfflineDelete
  import opened LoadFields
  import PhaseRows
  import PhaseSteps
  import Soundness
  import Views
  import WriteBehind

  // ---- Fields ----

  lemma RunUpdateDone(d: ContactData, unblocked: bool)
    ensures EditsDone(d, unblocked, if NeedsUpdate(d) then RunUpdate(d, unblocked) else d)
  {}

  lemma AbsorbedTakesIn(d: ContactData, news: ContactData)
    ensures TookIn(d, news, Absorbed(d, news))
  {
    AddMastersIsUnion(d.masterUids, news.masterUids);
    var changed := AddMasters(d.masterUids, news.masterUids) != d.masterUids;
    assert changed <==> !(ToSet(news.masterUids) <= ToSet(d.masterUids));
    hide AddMasters, ToSet;
  }

  /** One contact of the update loop: exactly these flags of this contact change, and it is written at the
      end of the phase exactly if an edit was pending. */
  lemma UpdateStepDone(b: Batch, c: Contact, unblocked: bool)
    ensures var d, b' := At(b.world, c), SyncUpdate(b, c, unblocked);
      && EditsDone(d, unblocked, At(b'.world, c))
      && b'.world == b.world.(heap := b'.world.heap) && (forall x :: x != c ==> At(b'.world, x) == At(b.world, x))
      && b'.contacts == b.contacts + if d.pendingFlags !! EDITS then [] else [c]
  {
    var d := At(b.world, c);
    RunUpdateDone(d, unblocked);
    assert NeedsUpdate(d) <==> !(d.pendingFlags !! EDITS);
    assert b.contacts + [] == b.contacts;
    hide EditsDone, RunUpdate, NeedsUpdate;
  }

  // ---- Adding a known contact again ----

  /** Something is to be done for the contact once `news` were added to it. */
  predicate Edited(d: ContactData, news: ContactData) {
    || !(d.pendingFlags !! EDITS) || CL_DENY in d.flags || news.variants != {}
    || !(ToSet(news.masterUids) <= ToSet(d.masterUids))
  }

  lemma EditedNeeds(d: ContactData, news: ContactData, x: ContactData)
    requires TookIn(d, news, x)
    ensures NeedsUpdate(x) <==> Edited(d, news)
  {
    hide ToSet;
  }

  lemma ToldAbout(w: World, c: Contact)
    ensures var w' := NotifyUpdated(w, c);
      && w'.heap == w.heap && w'.db == w.db && |w'.views| == |w.views|
      && forall i :: 0 <= i < |w'.views| ==> At(w, c).uid in w'.views[i] && w'.views[i][At(w, c).uid] == At(w, c)
  {
    hide *;
    var told := w.(changed := w.changed - {At(w, c).uid});
    ToldForm(w, c);
    if w.views != [] {
      Views.NotifyParts(told);
      Views.SameIndexesParts(told, Notify(told));
      WriteBehind.NotifyKeepsDb(told);
      PhaseSteps.SameAt(w, Notify(told), c);
      ToldSize(told);
      AnnounceParts(Notify(told), c);
    }
  }

  lemma ToldForm(w: World, c: Contact)
    ensures NotifyUpdated(w, c) ==
      if w.views == [] then w else Announce(Notify(w.(changed := w.changed - {At(w, c).uid})), c)
  {
    hide Notify, Announce, At;
  }

  lemma ToldSize(w: World)
    ensures |Notify(w).views| == |w.views|
  {
    hide VisibleOf;
  }

  lemma AnnounceParts(w: World, c: Contact)
    ensures var w' := Announce(w, c);
      && w'.heap == w.heap && w'.db == w.db && |w'.views| == |w.views|
      && forall i :: 0 <= i < |w'.views| ==> At(w, c).uid in w'.views[i] && w'.views[i][At(w, c).uid] == At(w, c)
  {
    hide At;
  }

  /** The contact of a name that was added again: its fields; that nobody else changed; and if there was
      something to be done, its row and what views were told. */
  ghost predicate Absorbs(w: World, c: Contact, news: ContactData, o: CreateAnswers, w': World) {
    var d, e := At(w, c), At(w', c);
    && AddedAgain(d, news, o.unblocked, e)
    && w'.heap == w.heap[c := e]
    && |w'.views| == |w.views|
    && if Edited(d, news) then
         && (o.stored && d.uid in w.db.contacts && d.name.Some? ==> WriteBehind.RecordIn(w'.db, d.uid) == WriteBehind.Kept(e))
         && (forall i :: 0 <= i < |w'.views| ==> d.uid in w'.views[i] && w'.views[i][d.uid] == e)
       else w'.db == w.db && w'.views == w.views
  }

  lemma AbsorbsNothing(w: World, c: Contact, news: ContactData, o: CreateAnswers, e: ContactData)
    requires AddedAgain(At(w, c), news, o.unblocked, e) && !Edited(At(w, c), news)
    ensures Absorbs(w, c, news, o, Put(w, c, e))
  {
    hide AddedAgain, Edited;
  }

  lemma AbsorbsAndTells(w: World, c: Contact, news: ContactData, o: CreateAnswers, e: ContactData, db: Tables)
    requires AddedAgain(At(w, c), news, o.unblocked, e) && Edited(At(w, c), news) && e.uid == At(w, c).uid
    requires o.stored && e.uid in w.db.contacts && At(w, c).name.Some? ==>
      WriteBehind.RecordIn(db, e.uid) == WriteBehind.Kept(e)
    ensures Absorbs(w, c, news, o, NotifyUpdated(Put(w, c, e).(db := db), c))
  {
    var q := Put(w, c, e).(db := db);
    ToldAbout(q, c);
    var w' := NotifyUpdated(q, c);
    assert At(q, c) == e && At(w', c) == e;
    hide AddedAgain, Edited, NotifyUpdated, WriteBehind.RecordIn, WriteBehind.Kept;
  }

  lemma AddedAgainKeys(d: ContactData, news: ContactData, unblocked: bool, e: ContactData)
    requires AddedAgain(d, news, unblocked, e)
    ensures e.uid == d.uid && e.name == d.name
  {}

  lemma ExistingAbsorbs(w: World, c: Contact, news: ContactData, o: CreateAnswers)
    ensures Absorbs(w, c, news, o, CreateExisting(w, c, news, o))
  {
    hide *;
    var d, x := At(w, c), Absorbed(At(w, c), news);
    var e := if NeedsUpdate(x) then RunUpdate(x, o.unblocked) else x;
    AbsorbedTakesIn(d, news);
    RunUpdateDone(x, o.unblocked);
    TookInAndDone(d, news, x, o.unblocked, e);
    AddedAgainKeys(d, news, o.unblocked, e);
    EditedNeeds(d, news, x);
    OfflineDelete.CreateExistingIs(w, c, news, o);
    if NeedsUpdate(x) {
      var db := Commit(w.db, RealUpdate(w.db, e), o.stored);
      if e.name.Some? { RowWritten(w.db, e, o.stored); }
      AbsorbsAndTells(w, c, news, o, e, db);
    } else {
      AbsorbsNothing(w, c, news, o, e);
    }
  }

  lemma RowWritten(t: Tables, e: ContactData, stored: bool)
    requires e.name.Some?
    ensures stored && e.uid in t.contacts ==>
      WriteBehind.RecordIn(Commit(t, RealUpdate(t, e), stored), e.uid) == WriteBehind.Kept(e)
  {
    PhaseRows.UpdatedRecord(t, e, e.uid);
    hide RealUpdate, WriteBehind.RecordIn, WriteBehind.Kept;
  }

  /** A creation whose name is taken, from the vCard on. */
  lemma CreationAbsorbs(w: World, setup: Setup, card: Card, id: Contact, online: bool, o: CreateAnswers)
    requires var (d, goes) := Created(w, setup, card, online, o); goes && NameOf(d) in w.byName
    ensures var (d, goes) := Created(w, setup, card, online, o);
      Absorbs(Flush(w, o.flushed), w.byName[NameOf(d)], d, o, Create(w, setup.path, setup.vcardField, card, id, online, o).0)
  {
    var f := Flush(w, o.flushed);
    Soundness.FlushParts(w, o.flushed);
    var news := Created(w, setup, card, online, o).0;
    CreateForm(w, setup, card, id, online, o);
    hide Absorbs, Created, Flush, Create, CreateExisting, NameOf;
    ExistingAbsorbs(f, f.byName[NameOf(news)], news, o);
  }

  // ---- After a restart ----

  /** The contact of the uid is, or is not, among those to be updated, as the unblocking is pending. */
  predicate TriedAgain(l: World, u: string, pending: bool) {
    && u in l.byUid && (u in l.toUpdate <==> pending)
    && (SCHEDULE_UNBLOCK in At(l, l.byUid[u]).pendingFlags <==> pending)
    && (pending ==> l.toUpdate[u] == l.byUid[u] && CL_DENY !in At(l, l.byUid[u]).flags)
  }

  lemma RowComesBack(db: Tables, u: string, e: ContactData, pending: bool)
    requires u in db.contacts && e.name.Some? && db.contacts[u] == RowOf(e) && SCHEDULE_UPDATE_FLAGS !in e.pendingFlags
    requires (SCHEDULE_UNBLOCK in e.pendingFlags <==> pending) && (pending ==> CL_DENY !in e.flags)
    ensures forall w0: World, loaded, contactRows, masterRows, variantRows ::
      Starts(w0, db, u, loaded, contactRows, masterRows, variantRows) ==> TriedAgain(Load(w0, loaded), u, pending)
  {
    forall w0: World, loaded, contactRows, masterRows, variantRows
      | Starts(w0, db, u, loaded, contactRows, masterRows, variantRows)
      ensures TriedAgain(Load(w0, loaded), u, pending)
    {
      var a := RowsReturn(w0, loaded, u, contactRows, masterRows, variantRows);
      hide Load, Restored;
    }
  }

  /** The row holds what the cache can keep of the contact. */
  lemma RowHas(db: Tables, e: ContactData)
    requires e.name.Some? && WriteBehind.RecordIn(db, e.uid) == WriteBehind.Kept(e)
    ensures e.uid in db.contacts && db.contacts[e.uid] == RowOf(e)
  {}

  lemma BlockedIsTried(before: ContactData, news: ContactData, after: ContactData)
    requires AddedAgain(before, news, false, after) && CL_DENY in before.flags
    ensures SCHEDULE_UNBLOCK in after.pendingFlags && CL_DENY !in after.flags && SCHEDULE_UPDATE_FLAGS !in after.pendingFlags
    ensures Edited(before, news) && after.uid == before.uid && after.name == before.name
  {}

  /** A blocked contact is added again and the unblocking fails, as it does offline: the contact is taken
      for unblocked, every view is told, and at every later start it is among those to be unblocked. */
  lemma BlockedAddedAgain(w: World, setup: Setup, card: Card, id: Contact, online: bool, o: CreateAnswers)
    requires var (d, goes) := Created(w, setup, card, online, o);
      && goes && NameOf(d) in w.byName && !o.unblocked && o.flushed && o.stored
      && var b := At(w, w.byName[NameOf(d)]);
         CL_DENY in b.flags && b.name.Some? && b.uid in Flush(w, true).db.contacts
    ensures var c := w.byName[NameOf(Created(w, setup, card, online, o).0)];
      var w' := Create(w, setup.path, setup.vcardField, card, id, online, o).0;
      var u, e := At(w, c).uid, At(w', c);
      && SCHEDULE_UNBLOCK in e.pendingFlags && CL_DENY !in e.flags
      && (forall i :: 0 <= i < |w'.views| ==> u in w'.views[i] && CL_DENY !in w'.views[i][u].flags)
      && forall w0: World, loaded, contactRows, masterRows, variantRows ::
           Starts(w0, w'.db, u, loaded, contactRows, masterRows, variantRows) ==> TriedAgain(Load(w0, loaded), u, true)
  {
    hide *;
    var news := Created(w, setup, card, online, o).0;
    var c := w.byName[NameOf(news)];
    var w' := Create(w, setup.path, setup.vcardField, card, id, online, o).0;
    CreationAbsorbs(w, setup, card, id, online, o);
    Soundness.FlushParts(w, o.flushed);
    PhaseSteps.SameAt(w, Flush(w, o.flushed), c);
    AbsorbsParts(Flush(w, o.flushed), c, news, o, w');
    BlockedIsTried(At(w, c), news, At(w', c));
    RowHas(w'.db, At(w', c));
    RowComesBack(w'.db, At(w, c).uid, At(w', c), true);
  }

  lemma AbsorbsParts(w: World, c: Contact, news: ContactData, o: CreateAnswers, w': World)
    requires Absorbs(w, c, news, o, w')
    ensures var d, e := At(w, c), At(w', c);
      && AddedAgain(d, news, o.unblocked, e)
      && (Edited(d, news) && o.stored && d.uid in w.db.contacts && d.name.Some? ==>
            WriteBehind.RecordIn(w'.db, d.uid) == WriteBehind.Kept(e))
      && (Edited(d, news) ==> forall i :: 0 <= i < |w'.views| ==> d.uid in w'.views[i] && w'.views[i][d.uid] == e)
  {
    hide AddedAgain, Edited, WriteBehind.RecordIn, WriteBehind.Kept;
  }

  // ---- A whole phase 3 ----

  /** A step is about the contact: it works on it, or merges another one into it. */
  predicate Touches(w: World, s: SyncStep, c: Contact) {
    s.c == c || (s.StepAdd? && PhaseSteps.Merges(w, s.c, s.answer) && w.byName[s.answer.name.value] == c)
  }

  predicate Untouched(b: Batch, steps: seq<SyncStep>, c: Contact)
    decreases |steps|
  {
    steps == [] || (!Touches(b.world, steps[0], c) && Untouched(SyncOne(b, steps[0]), steps[1..], c))
  }

  /** Of all the steps of the phase, one is about the contact, and this is its turn in the update loop. */
  predicate EditedOnce(b: Batch, steps: seq<SyncStep>, c: Contact, unblocked: bool)
    decreases |steps|
  {
    steps != [] &&
    if steps[0] == StepUpdate(c, unblocked) then Untouched(SyncOne(b, steps[0]), steps[1..], c)
    else !Touches(b.world, steps[0], c) && EditedOnce(SyncOne(b, steps[0]), steps[1..], c, unblocked)
  }

  lemma AddElsewhere(b: Batch, norm: Norm, x: Contact, a: Answer, flushed: bool, removed: bool, c: Contact)
    requires Inv(b.world, norm) && Waiting(b.world, x) && Orderly(b.world, norm, x, a)
    requires !Touches(b.world, StepAdd(x, a, flushed, removed), c)
    ensures At(SyncAdd(b, x, a, flushed, removed).world, c) == At(b.world, c)
  {
    hide *;
    var w, w' := b.world, SyncAdd(b, x, a, flushed, removed).world;
    TouchesParts(w, x, a, flushed, removed, c);
    PhaseRows.OrderlyParts(w, norm, x, a);
    PhaseSteps.AddIs(b, x, a, flushed, removed);
    PhaseSteps.OneOutcome(w, x, a);
    if PhaseSteps.Merges(w, x, a) {
      PhaseRows.MergesParts(w, norm, x, a);
      var r, dest := PhaseSteps.Renamed(w, x, a), w.byName[a.name.value];
      PhaseRows.RenamedParts(w, x, a);
      PhaseSteps.MergeIs(r, dest, x, flushed, removed);
      PhaseSteps.FoldedParts(r, dest, x);
      var m := Merge(r, dest, x, flushed, removed);
      PhaseRows.AtOther(w, r, x, At(r, x), c);
      PhaseRows.AtOther(r, m, dest, MergeData(At(r, dest), At(r, x)), c);
      DroppedHeap(m, At(w, x).uid);
      PhaseSteps.SameAt(m, w', c);
    } else {
      PhaseRows.AddedPut(w, x, a);
      PhaseRows.PutHeaps(w, x, Normalised(At(w, x), a), w');
      PhaseRows.PutHeaps(w, x, PhaseSteps.AddedData(At(w, x), a), w');
      if PhaseSteps.Fails(w, x, a) {
        PhaseRows.AtOther(w, w', x, Normalised(At(w, x), a), c);
      } else {
        PhaseRows.AtOther(w, w', x, PhaseSteps.AddedData(At(w, x), a), c);
      }
    }
  }

  lemma TouchesParts(w: World, x: Contact, a: Answer, flushed: bool, removed: bool, c: Contact)
    requires !Touches(w, StepAdd(x, a, flushed, removed), c)
    ensures x != c && (PhaseSteps.Merges(w, x, a) ==> w.byName[a.name.value] != c)
  {
    hide PhaseSteps.Merges;
  }

  lemma DroppedHeap(w: World, uid: string)
    ensures PhaseSteps.DropAdd(w, uid).heap == w.heap
  {}

  /** A step that is not about the contact leaves it as it is. */
  lemma Elsewhere(b: Batch, norm: Norm, s: SyncStep, c: Contact)
    requires Inv(b.world, norm) && StepAllowed(b.world, norm, s) && !Touches(b.world, s, c)
    ensures At(SyncOne(b, s).world, c) == At(b.world, c)
  {
    match s {
      case StepUpdate(x, _) => hide Inv, NeedsUpdate, RunUpdate;
      case StepDelete(x, _) => hide Inv;
      case StepAdd(x, a, flushed, removed) =>
        hide Inv, Touches, SyncAdd, At, Orderly, Waiting;
        AddElsewhere(b, norm, x, a, flushed, removed, c);
    }
  }

  lemma {:induction false} StaysElsewhere(b: Batch, norm: Norm, steps: seq<SyncStep>, c: Contact)
    requires Inv(b.world, norm) && StepsAllowed(b, norm, steps) && Untouched(b, steps, c)
    ensures At(SyncAll(b, steps).world, c) == At(b.world, c) && PhaseRows.NeverMerged(b, steps, c)
    decreases |steps|
  {
    hide Inv, StepAllowed, Touches, SyncOne, At, PhaseRows.MergedAway;
    if steps != [] {
      Elsewhere(b, norm, steps[0], c);
      NotMerged(b.world, steps[0], c);
      SyncOneKeeps(b, norm, steps[0]);
      StaysElsewhere(SyncOne(b, steps[0]), norm, steps[1..], c);
    }
  }

  lemma NotMerged(w: World, s: SyncStep, c: Contact)
    requires !Touches(w, s, c) || s.StepUpdate?
    ensures !PhaseRows.MergedAway(w, s, c)
  {
    hide PhaseSteps.Merges;
  }

  /** The turn of the contact in the update loop decides its fields after all steps. */
  lemma {:induction false} OneTurn(b: Batch, norm: Norm, steps: seq<SyncStep>, c: Contact, unblocked: bool)
    requires Inv(b.world, norm) && StepsAllowed(b, norm, steps) && EditedOnce(b, steps, c, unblocked)
    ensures EditsDone(At(b.world, c), unblocked, At(SyncAll(b, steps).world, c)) && PhaseRows.NeverMerged(b, steps, c)
    ensures NeedsUpdate(At(b.world, c)) ==> PhaseRows.Collected(b, steps, c)
    decreases |steps|
  {
    hide Inv, StepAllowed, Touches, SyncOne, At, NeedsUpdate, PhaseRows.MergedAway, PhaseRows.Collects, EditsDone;
    var s := steps[0];
    NotMerged(b.world, s, c);
    SyncOneKeeps(b, norm, s);
    if s == StepUpdate(c, unblocked) {
      UpdateTurn(b, c, unblocked);
      StaysElsewhere(SyncOne(b, s), norm, steps[1..], c);
    } else {
      Elsewhere(b, norm, s, c);
      OneTurn(SyncOne(b, s), norm, steps[1..], c, unblocked);
    }
  }

  lemma UpdateTurn(b: Batch, c: Contact, unblocked: bool)
    ensures EditsDone(At(b.world, c), unblocked, At(SyncOne(b, StepUpdate(c, unblocked)).world, c))
    ensures NeedsUpdate(At(b.world, c)) ==> PhaseRows.Collects(b.world, StepUpdate(c, unblocked), c)
  {
    UpdateStepDone(b, c, unblocked);
    hide EditsDone, SyncUpdate, NeedsUpdate;
  }

  lemma TriedAtAll(d: ContactData, accepted: bool, e: ContactData)
    requires EditsDone(d, accepted, e) && SCHEDULE_UNBLOCK in d.pendingFlags
    ensures NeedsUpdate(d) && e.uid == d.uid && e.name == d.name && SCHEDULE_UPDATE_FLAGS !in e.pendingFlags
    ensures (SCHEDULE_UNBLOCK in e.pendingFlags <==> !accepted) && (!accepted ==> CL_DENY !in e.flags)
  {}

  /** Phase 3 tries a pending unblocking. If the server accepts, it is pending no more, neither in the
      contact nor in its row, and no later start unblocks the contact again; if not, every start does. The
      contact has its turn in the update loop, and the phase does nothing else about it. */
  lemma UnblockingIsTriedUntilAccepted(w: World, norm: Norm, steps: seq<SyncStep>, c: Contact, accepted: bool)
    requires PhaseRows.Tracked(w, norm, c) && StepsAllowed(Batch(w, []), norm, steps)
    requires EditedOnce(Batch(w, []), steps, c, accepted) && forall s :: s in steps ==> PhaseRows.Other(w, s.c, c)
    requires SCHEDULE_UNBLOCK in At(w, c).pendingFlags
    ensures var w', u := Phase3(w, steps, true), At(w, c).uid;
      && EditsDone(At(w, c), accepted, At(w', c))
      && forall w0: World, loaded, contactRows, masterRows, variantRows ::
           Starts(w0, w'.db, u, loaded, contactRows, masterRows, variantRows) ==> TriedAgain(Load(w0, loaded), u, !accepted)
  {
    var b := Batch(w, []);
    assert PhaseRows.OthersApart(b, steps, c);
    hide *;
    var b', w' := SyncAll(b, steps), Phase3(w, steps, true);
    PhaseRows.TrackedParts(w, norm, c);
    PhaseRows.LiveNamed(w, norm, c);
    OneTurn(b, norm, steps, c, accepted);
    TriedAtAll(At(w, c), accepted, At(b'.world, c));
    PhaseRows.CollectedIsThere(b, norm, steps, c);
    PhaseRows.BatchRow(b', norm, c);
    PhaseRows.PhaseIs(w, steps);
    StoredHeap(b'.world, b'.contacts);
    PhaseSteps.SameAt(b'.world, w', c);
    PhaseRows.RowIs(w', c);
    RowHas(w'.db, At(w', c));
    RowComesBack(w'.db, At(w, c).uid, At(w', c), !accepted);
  }

  lemma StoredHeap(w: World, cs: seq<Contact>)
    ensures StoreChanged(w, cs, true).heap == w.heap
  {}
}
