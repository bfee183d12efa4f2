/** The steps of phase 3, one by one: when an addition merges two contacts, and what each outcome of a
    step leaves. */
module PhaseSteps {
  import opened Text
  import opened Flags
  import opened ContactValues
  import opened Contacts
  import opened VCards
  import opened Store
  import opened StoreBatches
  import opened Worlds
  import opened Coherence
  import opened CoherentRuns

  /** The addition failed, and the contact stays among those to add. */
  predicate Fails(w: World, c: Contact, a: Answer) {
    CONTACT_INVALID !in At(w, c).flags && a.verdict.OtherError?
  }

  /** The contact is kept under the name it had. */
  predicate KeepsName(w: World, c: Contact, a: Answer) {
    CONTACT_INVALID in At(w, c).flags || (!a.verdict.OtherError? && !Renames(w, c, a))
  }

  /** The contact is kept under another name of the server, one that nobody has. */
  predicate RenamesFree(w: World, c: Contact, a: Answer) {
    !Fails(w, c, a) && !KeepsName(w, c, a) && a.name.value !in w.byName
  }

  /** Somebody has the server's name: the contact is merged into that one. */
  predicate Merges(w: World, c: Contact, a: Answer) {
    !Fails(w, c, a) && !KeepsName(w, c, a) && a.name.value in w.byName
  }

  /** The contact once it was added. */
  function AddedData(d: ContactData, a: Answer): ContactData {
    var d' := RunAdd(d, a).0;
    d'.(pendingFlags := d'.pendingFlags - {SCHEDULE_ADD})
  }

  /** The contact left the name index, and has the server's name. */
  function Renamed(w: World, c: Contact, a: Answer): World {
    Put(w, c, AddedData(At(w, c), a)).(byName := w.byName - {NameOf(At(w, c))})
  }

  function DropAdd(w: World, uid: string): World {
    w.(toAdd := w.toAdd - {uid})
  }

  lemma RunAddIs(d: ContactData, a: Answer)
    requires Possible(a)
    ensures var (d', added) := RunAdd(d, a);
      if CONTACT_INVALID in d.flags then d' == d && added
      else
        && (added <==> !a.verdict.OtherError?)
        && (a.verdict.OtherError? ==> d' == Normalised(d, a))
        && NameOf(d') == if a.name.Some? then a.name.value else NameOf(d)
  {}

  lemma AddForm(b: Batch, c: Contact, a: Answer, flushed: bool, removed: bool)
    requires Possible(a)
    ensures var w, d := b.world, At(b.world, c);
      SyncAdd(b, c, a, flushed, removed) ==
        if Fails(w, c, a) then Batch(Put(w, c, Normalised(d, a)), b.contacts)
        else
          var done := if KeepsName(w, c, a) then Batch(Put(w, c, AddedData(d, a)), b.contacts + [c])
                      else Rename(Batch(Put(w, c, AddedData(d, a)), b.contacts), c, NameOf(d), flushed, removed);
          Batch(DropAdd(done.world, d.uid), done.contacts)
  {
    var w, d := b.world, At(b.world, c);
    RunAddIs(d, a);
    assert NameOf(AddedData(d, a)) == NameOf(RunAdd(d, a).0);
    hide At, RunAdd, Rename, NameOf, Normalised;
  }

  lemma RenameForm(w: World, contacts: seq<Contact>, c: Contact, a: Answer, flushed: bool, removed: bool)
    requires Possible(a) && !Fails(w, c, a) && !KeepsName(w, c, a)
    ensures var d := At(w, c);
      Rename(Batch(Put(w, c, AddedData(d, a)), contacts), c, NameOf(d), flushed, removed) ==
        if a.name.value in w.byName then
          Batch(Merge(Renamed(w, c, a), w.byName[a.name.value], c, flushed, removed), contacts + [w.byName[a.name.value]])
        else Batch(Renamed(w, c, a).(byName := Renamed(w, c, a).byName[a.name.value := c]), contacts)
  {
    var d := At(w, c);
    RunAddIs(d, a);
    assert At(Put(w, c, AddedData(d, a)), c) == AddedData(d, a) == At(Renamed(w, c, a), c);
    assert NameOf(AddedData(d, a)) == a.name.value != NameOf(d);
    hide At, RunAdd, AddedData, Merge, NameOf, Put;
  }

  /** The four outcomes of an addition. */
  lemma AddIs(b: Batch, c: Contact, a: Answer, flushed: bool, removed: bool)
    requires Possible(a)
    ensures var w, d, b' := b.world, At(b.world, c), SyncAdd(b, c, a, flushed, removed);
      && (Fails(w, c, a) ==> b' == Batch(Put(w, c, Normalised(d, a)), b.contacts))
      && (KeepsName(w, c, a) ==> b' == Batch(DropAdd(Put(w, c, AddedData(d, a)), d.uid), b.contacts + [c]))
      && (RenamesFree(w, c, a) ==>
            b' == Batch(DropAdd(Renamed(w, c, a).(byName := Renamed(w, c, a).byName[a.name.value := c]), d.uid), b.contacts))
      && (Merges(w, c, a) ==>
            b' == Batch(DropAdd(Merge(Renamed(w, c, a), w.byName[a.name.value], c, flushed, removed), d.uid),
                        b.contacts + [w.byName[a.name.value]]))
  {
    AddForm(b, c, a, flushed, removed);
    OneOutcome(b.world, c, a);
    if RenamesFree(b.world, c, a) || Merges(b.world, c, a) {
      RenameForm(b.world, b.contacts, c, a, flushed, removed);
    }
    hide At, RunAdd, AddedData, Renamed, Rename, SyncAdd, Merge, NameOf, Put, DropAdd, Fails, KeepsName, Normalised;
  }

  lemma OneOutcome(w: World, c: Contact, a: Answer)
    ensures Fails(w, c, a) || KeepsName(w, c, a) || RenamesFree(w, c, a) || Merges(w, c, a)
    ensures Fails(w, c, a) ==> !KeepsName(w, c, a)
    ensures RenamesFree(w, c, a) || Merges(w, c, a) ==> !Fails(w, c, a) && !KeepsName(w, c, a) && a.name.Some?
    ensures RenamesFree(w, c, a) ==> !Merges(w, c, a)
  {
    hide At, NameOf;
  }

  /** What an addition may do to the fields of the contact. */
  lemma AddedKeys(w: World, c: Contact, a: Answer)
    requires Possible(a) && At(w, c).name.Some?
    ensures var d, n, e := At(w, c), Normalised(At(w, c), a), AddedData(At(w, c), a);
      && n.uid == d.uid && e.uid == d.uid && n.name.Some? && e.name.Some?
      && n.masterUids == d.masterUids && e.masterUids == d.masterUids
      && n.flags == d.flags && (e.flags == d.flags || e.flags == d.flags + {CONTACT_INVALID})
      && n.pendingFlags <= d.pendingFlags + {SCHEDULE_UPDATE_VARIANTS}
  {}

  // ---- What a merge does to queues, views and the cache ----

  /** The contact `src` is folded into `dest`, which was announced. */
  function Folded(w: World, dest: Contact, src: Contact): World {
    Announce(Put(w, dest, MergeData(At(w, dest), At(w, src))), dest)
  }

  lemma FoldedParts(w: World, dest: Contact, src: Contact)
    ensures var f, d := Folded(w, dest, src), MergeData(At(w, dest), At(w, src));
      && f.heap == w.heap[dest := d] && f.byUid == w.byUid && f.byName == w.byName && f.toAdd == w.toAdd
      && f.dirty == w.dirty && f.changed == w.changed && f.db == w.db && f.ready == w.ready && f.inactive == w.inactive
      && f.views == Tell(w.views, map[d.uid := d]) && At(f, dest) == d && d.uid == At(w, dest).uid
      && (src != dest ==> At(f, src) == At(w, src))
  {
    hide Tell, MergeData;
    MergeDataKeeps(At(w, dest), At(w, src));
  }

  lemma MergeForm(w: World, dest: Contact, src: Contact, flushed: bool, removed: bool)
    ensures var n := DeleteContacts(Folded(w, dest, src), {src}, flushed, removed);
      var d := At(n, dest);
      Merge(w, dest, src, flushed, removed) ==
        n.(byHandle := n.byHandle[d.handle := dest], byName := n.byName[NameOf(d) := dest], byUid := n.byUid[d.uid := dest])
  {
    hide At, Put, MergeData, Announce, DeleteContacts, NameOf;
  }

  /** What a merge leaves in the tables that are not indexes. */
  lemma MergeIs(w: World, dest: Contact, src: Contact, flushed: bool, removed: bool)
    requires dest != src
    ensures var f, w' := Folded(w, dest, src), Merge(w, dest, src, flushed, removed);
      var u := Unlink(f, {src});
      var db := Commit(u.db, UpdateMany(u.db, Values(u, u.dirty)), flushed);
      && w'.dirty == map[] && w'.changed == map[] && !w'.idle && w'.ready == w.ready && w'.inactive == w.inactive
      && w'.heap == f.heap && w'.toAdd == w.toAdd
      && w'.byUid == (w.byUid - {At(w, src).uid})[At(w, dest).uid := dest]
      && w'.db == (if removed then DeleteMany(db, {At(w, src).uid}) else db)
      && w'.views == Forget(Tell(f.views, VisibleOf(u, u.changed)), {At(w, src).uid})
  {
    hide *;
    var f := Folded(w, dest, src);
    var n := DeleteContacts(f, {src}, flushed, removed);
    FoldedParts(w, dest, src);
    MergeForm(w, dest, src, flushed, removed);
    OnlyOne(f, src);
    DeleteIs(f, {src}, flushed, removed);
    UnlinkSame(f, {src});
    SameAt(f, n, dest);
  }

  lemma SameAt(w: World, w': World, c: Contact)
    requires w'.heap == w.heap
    ensures At(w', c) == At(w, c)
  {}

  lemma OnlyOne(w: World, c: Contact)
    ensures UidsOf(w, {c}) == {At(w, c).uid}
  {}

  lemma DeleteIs(w: World, cs: set<Contact>, flushed: bool, removed: bool)
    ensures var u, w' := Unlink(w, cs), DeleteContacts(w, cs, flushed, removed);
      var db := Commit(u.db, UpdateMany(u.db, Values(u, u.dirty)), flushed);
      && w'.dirty == map[] && w'.changed == map[] && !w'.idle && w'.ready == w.ready && w'.inactive == w.inactive
      && w'.heap == w.heap && w'.toAdd == w.toAdd && w'.byUid == u.byUid
      && w'.db == (if removed then DeleteMany(db, UidsOf(w, cs)) else db)
      && w'.views == Forget(Tell(u.views, VisibleOf(u, u.changed)), UidsOf(w, cs))
  {
    var u := Unlink(w, cs);
    assert VisibleOf(Flush(u, flushed), u.changed) == VisibleOf(u, u.changed);
    hide Unlink, Commit, UpdateMany, Values, VisibleOf, UidsOf, Tell, Forget, DeleteMany;
    assert u.views == w.views && u.ready == w.ready by { UnlinkSame(w, cs); }
    UnlinkSame(w, cs);
  }

  lemma UnlinkSame(w: World, cs: set<Contact>)
    ensures var u := Unlink(w, cs);
      && u.heap == w.heap && u.views == w.views && u.ready == w.ready && u.inactive == w.inactive && u.db == w.db
      && u.toAdd == w.toAdd && u.idle == w.idle
      && u.dirty == w.dirty - UidsOf(w, cs) && u.changed == w.changed - UidsOf(w, cs) && u.byUid == w.byUid - UidsOf(w, cs)
  {
    hide UidsOf, NamesOf, HandlesOf;
  }
}
