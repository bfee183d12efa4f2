/** Edits that get lost: what the code does not do although its comments, or the state it keeps, say
    that it would. */
module Gaps {
  import opened Text
  import opened Flags
  import opened ContactValues
  import opened Contacts
  import opened Store
  import opened StoreBatches
  import opened Worlds
  import opened Coherence
  import opened CoherentRuns
  import opened CoherentRequests
  import opened Soundness
  import PhaseRows

  /** The server has another name for a contact that waits to be added, nobody has that name, and the
      contact is kept, whether it was added or its handle was refused: it moves in the name index but
      is not among those that phase 3 writes. */
  lemma RenameIsNotSaved(b: Batch, c: Contact, a: Worlds.Answer, flushed: bool, removed: bool)
    requires Possible(a) && !a.verdict.OtherError? && CONTACT_INVALID !in At(b.world, c).flags
    requires Renames(b.world, c, a) && a.name.value !in b.world.byName
    ensures var b' := SyncAdd(b, c, a, flushed, removed);
      && b'.contacts == b.contacts && b'.world.db == b.world.db
      && At(b'.world, c).name == a.name && a.name.value in b'.world.byName
  {
    var d, d' := At(b.world, c), RunAdd(At(b.world, c), a).0;
    var settled := d'.(pendingFlags := d'.pendingFlags - {SCHEDULE_ADD});
    RunAddKeeps(d, a);
    SyncAddIs(b, c, a, flushed, removed);
    var w := Put(b.world, c, settled);
    PutParts(b.world, c, settled);
    AtPutIs(b.world, c, settled);
    RenameIs(Batch(w, b.contacts), c, NameOf(d), flushed, removed);
    hide SyncAdd, RunAdd, Rename, Put, At, Merge;
    var v := Requeued(w, w.byName - {NameOf(d)}, w.toAdd, w.toDelete);
    SameHeapAt(w, v, c);
    var v' := Requeued(v, v.byName[NameOf(settled) := c], v.toAdd, v.toDelete);
    SameHeapAt(w, v', c);
    SameHeapAt(w, Requeued(v', v'.byName, v'.toAdd - {d.uid}, v'.toDelete), c);
  }

  lemma AtPutIs(w: World, c: Contact, d: ContactData)
    ensures At(Put(w, c, d), c) == d
  {}

  lemma SameHeapAt(w: World, w': World, c: Contact)
    requires w'.heap == w.heap
    ensures At(w', c) == At(w, c)
  {}

  /** So if the contact has a row and this is the only step of the phase, the row keeps the old name
      and the mark of an addition that was carried out: after a restart the old name is added once
      more. `PhaseRows.RowAgreesIff` has the exact condition for all steps. */
  lemma StaleRow(w: World, c: Contact, a: Worlds.Answer, flushed: bool, removed: bool, stored: bool)
    requires Possible(a) && !a.verdict.OtherError? && CONTACT_INVALID !in At(w, c).flags
    requires Renames(w, c, a) && a.name.value !in w.byName && At(w, c).name.Some?
    requires At(w, c).uid in w.db.contacts && w.db.contacts[At(w, c).uid] == RowOf(At(w, c))
    ensures var w' := Phase3(w, [StepAdd(c, a, flushed, removed)], stored);
      && w'.db == w.db && At(w', c).name == a.name
      && w'.db.contacts[At(w, c).uid].name == At(w, c).name.value && a.name.value != At(w, c).name.value
  {
    RenameIsNotSaved(Batch(w, []), c, a, flushed, removed);
    var step := StepAdd(c, a, flushed, removed);
    var b := Batch(w, []);
    assert [step][1..] == [];
    assert SyncAll(b, [step]) == SyncOne(b, step);
    var b' := SyncAdd(b, c, a, flushed, removed);
    assert b'.contacts == [];
    StoreNothing(b'.world, stored);
    hide SyncAdd, At, StoreChanged;
  }

  /** Phase 3 may save the new name by accident: if the update loop had something to do for the contact,
      the contact is written at the end of the phase, as it is then. */
  lemma UpdatedFirstIsSaved(w: World, norm: Norm, unblocked: bool, rest: seq<SyncStep>, c: Contact)
    requires PhaseRows.Tracked(w, norm, c) && PhaseRows.RowAgrees(w, c) && NeedsUpdate(At(w, c))
    requires var steps := [StepUpdate(c, unblocked)] + rest;
      && StepsAllowed(Batch(w, []), norm, steps) && PhaseRows.NeverMerged(Batch(w, []), steps, c)
      && forall s :: s in steps ==> PhaseRows.Other(w, s.c, c)
    ensures PhaseRows.RowAgrees(Phase3(w, [StepUpdate(c, unblocked)] + rest, true), c)
  {
    var steps := [StepUpdate(c, unblocked)] + rest;
    assert PhaseRows.Collects(w, steps[0], c);
    assert PhaseRows.Collected(Batch(w, []), steps, c);
    hide *;
    PhaseRows.RowAgreesIff(w, norm, steps, c);
  }

  /** A change of list memberships waits for phase 3; adding the same contact again while offline
      clears the mark although nothing was sent. */
  lemma DuplicateDropsFlagUpdate(w: World, c: Contact, news: ContactData, o: CreateAnswers)
    requires SCHEDULE_UPDATE_FLAGS in At(w, c).pendingFlags
    ensures SCHEDULE_UPDATE_FLAGS !in At(CreateExisting(w, c, news, o), c).pendingFlags
  {
    var d := Absorbed(At(w, c), news);
    assert SCHEDULE_UPDATE_FLAGS in d.pendingFlags && NeedsUpdate(d);
    var d' := RunUpdate(d, o.unblocked);
    assert SCHEDULE_UPDATE_FLAGS !in d'.pendingFlags;
    var p := Put(w, c, d');
    var q := p.(db := Commit(w.db, RealUpdate(w.db, d'), o.stored));
    AtPutIs(w, c, d');
    SameHeapAt(p, q, c);
    NotifyUpdatedTouches(q, c);
    SameHeapAt(q, NotifyUpdated(q, c), c);
    hide At, Absorbed, RunUpdate, NotifyUpdated, NeedsUpdate;
  }

  /** A contact that waits for its deletion stays marked when it is added again, and no listing shows
      it. */
  lemma ReAddingKeepsDeletion(w: World, c: Contact, news: ContactData, o: CreateAnswers)
    requires SCHEDULE_DELETE in At(w, c).pendingFlags && Live(w, c)
    ensures var w' := CreateExisting(w, c, news, o);
      SCHEDULE_DELETE in At(w', c).pendingFlags && Live(w', c) && At(w, c).uid !in VisibleOf(w', w'.byUid)
  {
    hide *;
    var d := Absorbed(At(w, c), news);
    var d' := RunUpdate(d, o.unblocked);
    CreateExistingIs(w, c, news, o);
    AbsorbedStays(At(w, c), news, o.unblocked);
    HiddenStays(w, c, d, Put(w, c, d));
    var p := Put(w, c, d');
    var q := WithDb(p, Commit(w.db, RealUpdate(w.db, d'), o.stored));
    PutParts(w, c, d);
    PutParts(w, c, d');
    WithDbParts(p, Commit(w.db, RealUpdate(w.db, d'), o.stored));
    NotifyUpdatedTouches(q, c);
    IndexesAre(q, NotifyUpdated(q, c));
    HiddenStays(w, c, d', NotifyUpdated(q, c));
  }

  lemma IndexesAre(w: World, w': World)
    requires SameIndexes(w, w')
    ensures w'.heap == w.heap && w'.byUid == w.byUid
  {}

  lemma AbsorbedStays(d: ContactData, news: ContactData, unblocked: bool)
    ensures var e := Absorbed(d, news);
      && e.uid == d.uid && (SCHEDULE_DELETE in d.pendingFlags ==> SCHEDULE_DELETE in e.pendingFlags)
      && RunUpdate(e, unblocked).uid == d.uid
      && (SCHEDULE_DELETE in d.pendingFlags ==> SCHEDULE_DELETE in RunUpdate(e, unblocked).pendingFlags)
  {}

  lemma HiddenStays(w: World, c: Contact, e: ContactData, w': World)
    requires Live(w, c) && e.uid == At(w, c).uid && SCHEDULE_DELETE in e.pendingFlags
    ensures w'.heap == w.heap[c := e] && w'.byUid == w.byUid ==>
      SCHEDULE_DELETE in At(w', c).pendingFlags && Live(w', c) && At(w, c).uid !in VisibleOf(w', w'.byUid)
  {}

  // ---- Lists that are not kept short ----

  lemma DeleteKeepsLists(w: World, cs: set<Contact>, flushed: bool, removed: bool)
    ensures var w' := DeleteContacts(w, cs, flushed, removed);
      w'.toUpdate == w.toUpdate && w'.toAdd == w.toAdd && w'.byUid == w.byUid - UidsOf(w, cs) && w'.heap == w.heap
  {
    hide Commit, Values, VisibleOf, Tell, Forget, DeleteMany, UidsOf, NamesOf, Worlds.HandlesOf;
  }

  lemma MergeKeepsUpdates(w: World, dest: Contact, src: Contact, flushed: bool, removed: bool)
    ensures Merge(w, dest, src, flushed, removed).toUpdate == w.toUpdate
  {
    var merged := Put(w, dest, MergeData(At(w, dest), At(w, src)));
    DeleteKeepsLists(Announce(merged, dest), {src}, flushed, removed);
    hide DeleteContacts, At, MergeData, Tell, NameOf;
  }

  lemma RenameKeepsUpdates(b: Batch, c: Contact, was: string, flushed: bool, removed: bool)
    ensures Rename(b, c, was, flushed, removed).world.toUpdate == b.world.toUpdate
  {
    var w := b.world.(byName := b.world.byName - {was});
    var name := NameOf(At(w, c));
    if name in w.byName { MergeKeepsUpdates(w, w.byName[name], c, flushed, removed); }
    hide Merge, At, NameOf;
  }

  lemma AddKeepsUpdates(b: Batch, c: Contact, a: Answer, flushed: bool, removed: bool)
    ensures SyncAdd(b, c, a, flushed, removed).world.toUpdate == b.world.toUpdate
  {
    var d, d' := At(b.world, c), RunAdd(At(b.world, c), a).0;
    var w := Put(b.world, c, d'.(pendingFlags := d'.pendingFlags - {SCHEDULE_ADD}));
    RenameKeepsUpdates(Batch(w, b.contacts), c, NameOf(d), flushed, removed);
    hide RunAdd, Rename, At, NameOf;
  }

  lemma SyncOneKeepsUpdates(b: Batch, s: SyncStep)
    ensures SyncOne(b, s).world.toUpdate == b.world.toUpdate
  {
    hide SyncAdd, RunUpdate, NeedsUpdate, At;
    match s {
      case StepUpdate(c, unblocked) =>
      case StepDelete(c, removed) =>
      case StepAdd(c, a, flushed, removed) => AddKeepsUpdates(b, c, a, flushed, removed);
    }
  }

  lemma {:induction false} SyncAllKeepsUpdates(b: Batch, steps: seq<SyncStep>)
    ensures SyncAll(b, steps).world.toUpdate == b.world.toUpdate
    decreases |steps|
  {
    hide SyncOne;
    if steps != [] {
      SyncOneKeepsUpdates(b, steps[0]);
      SyncAllKeepsUpdates(SyncOne(b, steps[0]), steps[1..]);
    }
  }

  /** Phase 3 takes nobody off the list of those to update: each contact on it is gone through again
      at every reconnect. */
  lemma UpdatesAreKept(w: World, steps: seq<SyncStep>, stored: bool)
    ensures Phase3(w, steps, stored).toUpdate == w.toUpdate
  {
    SyncAllKeepsUpdates(Batch(w, []), steps);
    hide SyncAll, Commit, UpdateAll, DataAt;
  }

  /** A contact that is deleted while it waits to be added stays on the list of those to add. */
  lemma DeletedStillToBeAdded(w: World, c: Contact, flushed: bool, removed: bool)
    requires Live(w, c) && At(w, c).uid in w.toAdd && w.toAdd[At(w, c).uid] == c
    ensures var w' := DeleteContacts(w, {c}, flushed, removed); !Live(w', c) && w'.toAdd[At(w', c).uid] == c
  {
    DeleteKeepsLists(w, {c}, flushed, removed);
    assert At(w, c).uid in UidsOf(w, {c});
    hide DeleteContacts, UidsOf;
  }
}
