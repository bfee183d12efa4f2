/** The additions and deletions of phase 3, field by field: what the server's answers make of a contact,
    and which lists and indexes it leaves or enters. */
module StepFields {
  import opened Text
  import opened Flags
  import opened ContactValues
  import opened Contacts
  import opened Worlds
  import opened Coherence
  import opened CoherentRuns
  import opened PhaseSteps
  import PhaseRows

  /** A contact after adding it on the server came as far as the answer says. One that was refused before is
      not tried again. The server's handle and name are taken over, and the name it had becomes a variant; a
      refused handle marks the contact, and what was scheduled for its lists is dropped. Its addition is
      pending afterwards if it was and is to stay so. */
  ghost predicate Answered(before: ContactData, a: Answer, stays: bool, after: ContactData) {
    var tried := CONTACT_INVALID !in before.flags;
    var refused := tried && a.verdict.InvalidHandle?;
    var renamed := tried && a.name.Some? && before.name.Some? && a.name != before.name;
    && after == before.(handle := after.handle, name := after.name, variants := after.variants, flags := after.flags,
                        pendingFlags := after.pendingFlags)
    && after.handle == (if tried && a.handle.Some? then a.handle.value else before.handle)
    && after.name == (if tried && a.name.Some? then a.name else before.name)
    && after.variants == before.variants + (if renamed then {before.name.value} else {})
    && (forall f :: f in after.flags <==> f in before.flags || (refused && f == CONTACT_INVALID))
    && (forall f :: f in after.pendingFlags <==>
          && (f in before.pendingFlags || (renamed && f == SCHEDULE_UPDATE_VARIANTS))
          && (f == SCHEDULE_ADD ==> stays)
          && (refused ==> f != SCHEDULE_UPDATE_FLAGS && f !in ALL_LIST_FLAGS))
  }

  /** In phase 3 the addition stays pending exactly if it failed. */
  ghost predicate Added(before: ContactData, a: Answer, after: ContactData) {
    Answered(before, a, CONTACT_INVALID !in before.flags && a.verdict.OtherError?, after)
  }

  /** One try of `run_add_contact` that did not fail. */
  lemma TriedFields(d: ContactData, a: Answer)
    requires Possible(a) && RunAdd(d, a).1
    ensures Answered(d, a, true, RunAdd(d, a).0)
  {
    assert d.variants + {} == d.variants;
  }

  lemma FailedFields(d: ContactData, a: Answer)
    requires CONTACT_INVALID !in d.flags && a.verdict.OtherError? && SCHEDULE_ADD in d.pendingFlags
    ensures Added(d, a, Normalised(d, a))
  {
    assert d.variants + {} == d.variants;
  }

  lemma AddedFields(d: ContactData, a: Answer)
    requires Possible(a) && (CONTACT_INVALID in d.flags || !a.verdict.OtherError?)
    ensures Added(d, a, AddedData(d, a))
  {
    assert d.variants + {} == d.variants;
  }

  /** One contact is merged into another of its name: names, variants and master UIDs are united, and a
      pending unblocking is inherited. */
  ghost predicate MergedInto(before: ContactData, src: ContactData, after: ContactData) {
    && after == before.(masterUids := after.masterUids, variants := after.variants, pendingFlags := after.pendingFlags)
    && ToSet(after.masterUids) == ToSet(before.masterUids) + ToSet(src.masterUids) && before.masterUids <= after.masterUids
    && after.variants == before.variants + src.variants
    && (forall f :: f in after.pendingFlags <==>
          || f in before.pendingFlags
          || (f == SCHEDULE_UNBLOCK && SCHEDULE_UNBLOCK in src.pendingFlags)
          || (f == SCHEDULE_UPDATE_VARIANTS && src.variants != {})
          || (f == SCHEDULE_UPDATE_MASTER_UID && !(ToSet(src.masterUids) <= ToSet(before.masterUids))))
  }

  lemma MergedFields(d: ContactData, s: ContactData)
    ensures MergedInto(d, s, MergeData(d, s))
  {
    AddMastersIsUnion(d.masterUids, s.masterUids);
    var changed := AddMasters(d.masterUids, s.masterUids) != d.masterUids;
    assert changed <==> !(ToSet(s.masterUids) <= ToSet(d.masterUids));
    hide AddMasters, ToSet;
  }

  /** An addition that ends without a merge: the contact as the answer says and nobody else; unless it
      failed, the contact leaves the list; the name index has it under the name it then has, and it is
      written at the end of the phase if that is the name it had. */
  ghost predicate AdditionDone(b: Batch, c: Contact, a: Answer, b': Batch) {
    var w, w', d := b.world, b'.world, At(b.world, c);
    && Added(d, a, At(w', c)) && w'.heap == w.heap[c := At(w', c)]
    && w'.byUid == w.byUid && w'.byHandle == w.byHandle && w'.db == w.db && w'.dirty == w.dirty
    && w'.toUpdate == w.toUpdate && w'.toDelete == w.toDelete
    && if Fails(w, c, a) then w'.toAdd == w.toAdd && w'.byName == w.byName && b'.contacts == b.contacts
       else
         && w'.toAdd == w.toAdd - {d.uid}
         && (if KeepsName(w, c, a) then w'.byName == w.byName && b'.contacts == b.contacts + [c]
             else w'.byName == (w.byName - {NameOf(d)})[a.name.value := c] && b'.contacts == b.contacts)
  }

  lemma PutSame(w: World, c: Contact, e: ContactData)
    ensures var w' := Put(w, c, e);
      && At(w', c) == e && w'.heap == w.heap[c := e] && w'.byUid == w.byUid && w'.byHandle == w.byHandle && w'.db == w.db
      && w'.byName == w.byName && w'.dirty == w.dirty && w'.toUpdate == w.toUpdate && w'.toDelete == w.toDelete
      && w'.toAdd == w.toAdd
  {}

  lemma DroppedSame(w: World, uid: string)
    ensures DropAdd(w, uid) == w.(toAdd := w.toAdd - {uid})
  {}

  lemma RenamedSame(w: World, c: Contact, a: Answer)
    ensures Renamed(w, c, a) == Put(w, c, AddedData(At(w, c), a)).(byName := w.byName - {NameOf(At(w, c))})
  {
    hide AddedData, NameOf, At;
  }

  lemma AdditionIsDone(b: Batch, c: Contact, a: Answer, flushed: bool, removed: bool)
    requires Possible(a) && !Merges(b.world, c, a) && SCHEDULE_ADD in At(b.world, c).pendingFlags
    ensures AdditionDone(b, c, a, SyncAdd(b, c, a, flushed, removed))
  {
    var w, d := b.world, At(b.world, c);
    AddIs(b, c, a, flushed, removed);
    OneOutcome(w, c, a);
    if Fails(w, c, a) { FailedFields(d, a); } else { AddedFields(d, a); }
    PutSame(w, c, Normalised(d, a));
    PutSame(w, c, AddedData(d, a));
    DroppedSame(Put(w, c, AddedData(d, a)), d.uid);
    RenamedSame(w, c, a);
    hide Added, Normalised, AddedData, NameOf, Fails, KeepsName, Merges, RenamesFree, Renamed, Put, SyncAdd, Possible;
    if RenamesFree(w, c, a) {
      DroppedSame(Renamed(w, c, a).(byName := Renamed(w, c, a).byName[a.name.value := c]), d.uid);
    }
    hide At, DropAdd;
  }

  /** An addition that ends in a merge: the contact of the server's name takes in what the added one is. */
  lemma MergeIsDone(b: Batch, norm: Norm, c: Contact, a: Answer, flushed: bool, removed: bool)
    requires Inv(b.world, norm) && Waiting(b.world, c) && Orderly(b.world, norm, c, a) && Merges(b.world, c, a)
    ensures var w, w', dest := b.world, SyncAdd(b, c, a, flushed, removed).world, b.world.byName[a.name.value];
      && dest != c && Added(At(w, c), a, At(w', c)) && MergedInto(At(w, dest), At(w', c), At(w', dest))
      && w'.heap == w.heap[c := At(w', c)][dest := At(w', dest)]
      && At(w, c).uid !in w'.toAdd && At(w, c).uid !in w'.byUid
      && SyncAdd(b, c, a, flushed, removed).contacts == b.contacts + [dest]
  {
    hide *;
    var w, b' := b.world, SyncAdd(b, c, a, flushed, removed);
    PhaseRows.OrderlyParts(w, norm, c, a);
    PhaseRows.MergesParts(w, norm, c, a);
    var w', dest, r := b'.world, w.byName[a.name.value], Renamed(w, c, a);
    AddIs(b, c, a, flushed, removed);
    PhaseRows.RenamedParts(w, c, a);
    OneOutcome(w, c, a);
    NotFailed(w, c, a);
    AddedFields(At(w, c), a);
    var m := Merge(r, dest, c, flushed, removed);
    MergeIs(r, dest, c, flushed, removed);
    FoldedParts(r, dest, c);
    DroppedSame(m, At(w, c).uid);
    SameAt(m, w', c);
    SameAt(m, w', dest);
    SameAt(Folded(r, dest, c), m, c);
    SameAt(Folded(r, dest, c), m, dest);
    MergedFields(At(r, dest), At(r, c));
    PhaseRows.AtOther(w, r, c, At(r, c), dest);
    PhaseRows.LiveApart(w, dest, c);
  }

  lemma NotFailed(w: World, c: Contact, a: Answer)
    requires !Fails(w, c, a)
    ensures CONTACT_INVALID in At(w, c).flags || !a.verdict.OtherError?
  {}

  /** A deletion the server accepted is not pending any more and the contact leaves the list and is written
      at the end of the phase; one that failed changes nothing. */
  lemma DeletionIsDone(b: Batch, c: Contact, removed: bool)
    ensures var w, b', d := b.world, SyncDelete(b, c, removed), At(b.world, c);
      var w', e := b'.world, At(b'.world, c);
      && (!removed ==> b' == b)
      && (removed ==>
            && e == d.(pendingFlags := e.pendingFlags)
            && (forall f :: f in e.pendingFlags <==> f in d.pendingFlags && f != SCHEDULE_DELETE)
            && w' == w.(heap := w.heap[c := e], toDelete := w.toDelete - {d.uid}) && b'.contacts == b.contacts + [c])
  {
    hide Visible;
  }
}
