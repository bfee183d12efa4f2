/** Whether phase 3 leaves the row of a contact in the cache as the contact is: exactly when it does not. */
module PhaseRows {
  import opened Text
  import opened Flags
  import opened ContactValues
  import opened Contacts
  import opened VCards
  import opened Store
  import opened StoreBatches
  import opened Worlds
  import opened Coherence
  import opened CoherentRuns
  import opened WriteBehind
  import opened PhaseSteps

  /** The contact has a row, and the row with its child rows is what would be written now. */
  predicate RowAgrees(w: World, c: Contact) {
    var d := At(w, c);
    d.uid in w.db.contacts && RecordIn(w.db, d.uid) == Kept(d)
  }

  // ---- What one step does for the row of a contact ----

  /** The step puts the contact among those that are written at the end of the phase. */
  predicate Collects(w: World, s: SyncStep, c: Contact) {
    match s
    case StepUpdate(x, _) => x == c && NeedsUpdate(At(w, c))
    case StepAdd(x, a, _, _) => (x == c && KeepsName(w, c, a)) || (Merges(w, x, a) && w.byName[a.name.value] == c)
    case StepDelete(x, removed) => x == c && removed
  }

  /** The server has another name for the contact, nobody has that name, and the contact is kept: it
      was added, or its handle was refused. */
  predicate GetsName(w: World, s: SyncStep, c: Contact) {
    s.StepAdd? && s.c == c && RenamesFree(w, c, s.answer)
  }

  /** The step merges two other contacts, which flushes the write queue, and the contact is in it. */
  predicate Flushes(w: World, s: SyncStep, c: Contact) {
    s.StepAdd? && Merges(w, s.c, s.answer) && s.flushed && At(w, c).uid in w.dirty
  }

  /** The contact itself is merged into another one. */
  predicate MergedAway(w: World, s: SyncStep, c: Contact) {
    s.StepAdd? && s.c == c && Merges(w, c, s.answer)
  }

  // ---- The same over the steps of a phase ----

  predicate Collected(b: Batch, steps: seq<SyncStep>, c: Contact)
    decreases |steps|
  {
    steps != [] && (Collects(b.world, steps[0], c) || Collected(SyncOne(b, steps[0]), steps[1..], c))
  }

  predicate FlushedLater(b: Batch, steps: seq<SyncStep>, c: Contact)
    decreases |steps|
  {
    steps != [] && (Flushes(b.world, steps[0], c) || FlushedLater(SyncOne(b, steps[0]), steps[1..], c))
  }

  /** Some step gives the contact another name, and no step after it flushes the contact. */
  predicate NameUnsaved(b: Batch, steps: seq<SyncStep>, c: Contact)
    decreases |steps|
  {
    steps != [] &&
    ((GetsName(b.world, steps[0], c) && !FlushedLater(SyncOne(b, steps[0]), steps[1..], c))
     || NameUnsaved(SyncOne(b, steps[0]), steps[1..], c))
  }

  predicate NeverMerged(b: Batch, steps: seq<SyncStep>, c: Contact)
    decreases |steps|
  {
    steps == [] || (!MergedAway(b.world, steps[0], c) && NeverMerged(SyncOne(b, steps[0]), steps[1..], c))
  }

  /** The contact is in the indexes and has a row, and whatever is queued is in the uid index. */
  predicate Tracked(w: World, norm: Norm, c: Contact) {
    Inv(w, norm) && QueueLive(w) && Live(w, c) && At(w, c).uid in w.db.contacts
  }

  /** A contact of the batch has a name and, unless it is `c`, another uid. */
  predicate Other(w: World, x: Contact, c: Contact) {
    x in w.heap && At(w, x).name.Some? && (x == c || At(w, x).uid != At(w, c).uid)
  }

  predicate OthersApart(b: Batch, steps: seq<SyncStep>, c: Contact) {
    (forall x :: x in b.contacts ==> Other(b.world, x, c)) && (forall s :: s in steps ==> Other(b.world, s.c, c))
  }

  // ---- One step ----

  lemma LiveNamed(w: World, norm: Norm, c: Contact)
    requires Inv(w, norm) && Live(w, c)
    ensures At(w, c).name.Some?
  {
    assert UidEntry(w, At(w, c).uid, c);
  }

  /** One contact is written in the heap, and neither the uid index nor the tables change. */
  predicate OnlyPut(w: World, x: Contact, e: ContactData, w': World) {
    && w'.heap == w.heap[x := e] && w'.byUid == w.byUid && w'.dirty == w.dirty && w'.db == w.db
    && w'.toAdd.Keys <= w.toAdd.Keys
  }

  lemma PutTracked(w: World, norm: Norm, c: Contact, x: Contact, e: ContactData, w': World)
    requires Tracked(w, norm, c) && Inv(w', norm) && OnlyPut(w, x, e, w') && e.uid == At(w, x).uid
    ensures Tracked(w', norm, c) && At(w', c).uid == At(w, c).uid
    ensures x != c ==> At(w', c) == At(w, c) && (RowAgrees(w', c) <==> RowAgrees(w, c))
    ensures x == c && Kept(e) == Kept(At(w, c)) ==> (RowAgrees(w', c) <==> RowAgrees(w, c))
    ensures x == c && e.name != At(w, c).name && e.name.Some? && RowAgrees(w, c) ==> !RowAgrees(w', c)
  {
    hide Inv, RecordIn;
    LiveNamed(w, norm, c);
  }

  /** What the flush of a merge writes for a contact that stays. */
  lemma FlushRecord(t: Tables, ds: map<string, ContactData>, u: string, done: bool)
    requires forall v :: v in ds ==> ds[v].name.Some?
    ensures var t' := Commit(t, UpdateMany(t, ds), done);
      && t'.contacts.Keys == t.contacts.Keys
      && (u in t.contacts ==> RecordIn(t', u) == if done && u in ds then Kept(ds[u]) else RecordIn(t, u))
  {
    if u in t.contacts && done { OneRecord(t, ds, u); }
    hide RecordIn, Kept, Others, MasterPairs, VariantPairs, RowOf;
  }

  lemma OneRecord(t: Tables, ds: map<string, ContactData>, u: string)
    requires UpdateMany(t, ds).Some? && u in t.contacts
    ensures RecordIn(UpdateMany(t, ds).value, u) == if u in ds then Kept(ds[u]) else RecordIn(t, u)
  {
    UpdateManyStores(t, ds);
    var t' := UpdateMany(t, ds).value;
    assert Some(Records(t')[u]) == RecordIn(t', u) && Some(Records(t)[u]) == RecordIn(t, u);
  }

  lemma DeletedOther(t: Tables, u: string, v: string)
    requires u != v
    ensures var t' := DeleteMany(t, {v}); RecordIn(t', u) == RecordIn(t, u) && (u in t'.contacts <==> u in t.contacts)
  {
    DeletedRecord(t, {v}, u);
    hide RecordIn;
  }

  /** The values a merge flushes. */
  lemma FoldedValues(w: World, norm: Norm, r: World, dest: Contact, src: Contact)
    requires Inv(w, norm) && QueueLive(w) && dest != src
    requires r.heap == w.heap[src := At(r, src)] && r.dirty == w.dirty && At(r, src).uid == At(w, src).uid
    requires At(r, src).name.Some?
    ensures var u := Unlink(Folded(r, dest, src), {src});
      && u.dirty == w.dirty - {At(w, src).uid}
      && (forall v :: v in u.dirty ==> At(u, u.dirty[v]).name.Some?)
      && (forall c :: c != src && c != dest ==> At(u, c) == At(w, c))
  {
    FoldedParts(r, dest, src);
    OnlyOne(Folded(r, dest, src), src);
    UnlinkSame(Folded(r, dest, src), {src});
    MergeDataKeeps(At(r, dest), At(r, src));
    forall v | v in w.dirty ensures At(w, w.dirty[v]).name.Some? { assert UidEntry(w, v, w.byUid[v]); }
    hide Folded, Unlink, MergeData, UidsOf, Inv;
  }

  lemma ValuesNamed(u: World)
    requires forall v :: v in u.dirty ==> At(u, u.dirty[v]).name.Some?
    ensures var ds := Values(u, u.dirty);
      && (forall v :: v in ds ==> ds[v].name.Some?) && ds.Keys == u.dirty.Keys
      && (forall v :: v in ds ==> ds[v] == At(u, u.dirty[v]))
  {}

  /** The row of a contact after two others were merged. */
  lemma MergeRow(w: World, norm: Norm, r: World, dest: Contact, src: Contact, flushed: bool, removed: bool, c: Contact)
    requires Tracked(w, norm, c) && Live(w, src) && dest != src && c != src
    requires r.heap == w.heap[src := At(r, src)] && r.dirty == w.dirty && At(r, src).uid == At(w, src).uid
    requires At(r, src).name.Some? && r.byUid == w.byUid && r.db == w.db && Live(w, dest)
    ensures var w' := Merge(r, dest, src, flushed, removed);
      && At(w', c).uid == At(w, c).uid && QueueLive(w') && Live(w', c) && At(w, c).uid in w'.db.contacts
      && (c != dest ==>
            if flushed && At(w, c).uid in w.dirty then RowAgrees(w', c) else RowAgrees(w', c) <==> RowAgrees(w, c))
  {
    hide *;
    var uid := At(w, c).uid;
    var f := Folded(r, dest, src);
    var u, w' := Unlink(f, {src}), Merge(r, dest, src, flushed, removed);
    TrackedParts(w, norm, c);
    LiveApart(w, c, src);
    if c != dest { LiveApart(w, c, dest); }
    MergeIs(r, dest, src, flushed, removed);
    FoldedParts(r, dest, src);
    FoldedValues(w, norm, r, dest, src);
    ValuesNamed(u);
    UnlinkSame(f, {src});
    FlushRecord(w.db, Values(u, u.dirty), uid, flushed);
    DeletedOther(Commit(u.db, UpdateMany(u.db, Values(u, u.dirty)), flushed), uid, At(w, src).uid);
    SameAt(u, w', c);
    SameAt(f, w', dest);
    AtOther(w, r, src, At(r, src), dest);
    EmptyQueue(w');
    StillLive(w, w', c);
    RowIs(w, c);
    RowIs(w', c);
    if uid in w.dirty { QueuedIs(w, c); }
  }

  lemma AtOther(w: World, w': World, x: Contact, e: ContactData, c: Contact)
    requires w'.heap == w.heap[x := e] && c != x
    ensures At(w', c) == At(w, c)
  {}

  lemma TrackedParts(w: World, norm: Norm, c: Contact)
    requires Tracked(w, norm, c)
    ensures Inv(w, norm) && QueueLive(w) && Live(w, c) && At(w, c).uid in w.db.contacts && c in w.heap
    ensures At(w, c).uid in w.byUid && w.byUid[At(w, c).uid] == c
  {
    hide Inv;
  }

  lemma LiveApart(w: World, a: Contact, b: Contact)
    requires Live(w, a) && Live(w, b) && a != b
    ensures At(w, a).uid != At(w, b).uid
  {}

  lemma EmptyQueue(w: World)
    requires w.dirty == map[]
    ensures QueueLive(w)
  {}

  lemma StillLive(w: World, w': World, c: Contact)
    requires c in w'.heap && At(w', c).uid == At(w, c).uid && At(w, c).uid in w'.byUid && w'.byUid[At(w, c).uid] == c
    ensures Live(w', c)
  {}

  lemma RowIs(w: World, c: Contact)
    ensures RowAgrees(w, c) <==> At(w, c).uid in w.db.contacts && RecordIn(w.db, At(w, c).uid) == Kept(At(w, c))
  {
    hide RecordIn, Kept;
  }

  lemma QueuedIs(w: World, c: Contact)
    requires QueueLive(w) && Live(w, c) && At(w, c).uid in w.dirty
    ensures w.dirty[At(w, c).uid] == c
  {}

  lemma SyncOneParts(b: Batch, norm: Norm, s: SyncStep, c: Contact)
    requires Tracked(b.world, norm, c) && StepAllowed(b.world, norm, s)
    ensures Inv(SyncOne(b, s).world, norm)
  {
    SyncOneKeeps(b, norm, s);
    hide Inv, StepAllowed, SyncOne;
  }

  /** What a step has to do for the row of a contact that it does not collect. */
  predicate RowFollows(w: World, s: SyncStep, c: Contact, w': World) {
    if Collects(w, s, c) then true
    else if GetsName(w, s, c) then RowAgrees(w, c) ==> !RowAgrees(w', c)
    else if Flushes(w, s, c) then RowAgrees(w', c)
    else RowAgrees(w', c) <==> RowAgrees(w, c)
  }

  lemma UpdateRow(b: Batch, norm: Norm, x: Contact, unblocked: bool, c: Contact)
    requires Tracked(b.world, norm, c) && Inv(SyncUpdate(b, x, unblocked).world, norm)
    ensures var w' := SyncUpdate(b, x, unblocked).world;
      && Tracked(w', norm, c) && At(w', c).uid == At(b.world, c).uid
      && RowFollows(b.world, StepUpdate(x, unblocked), c, w')
  {
    var w, e := b.world, RunUpdate(At(b.world, x), unblocked);
    assert e.uid == At(w, x).uid;
    if NeedsUpdate(At(w, x)) {
      assert OnlyPut(w, x, e, Put(w, x, e));
      hide Tracked, Inv, RunUpdate, RowAgrees, NeedsUpdate, At;
      PutTracked(w, norm, c, x, e, Put(w, x, e));
    }
  }

  lemma DeleteRow(b: Batch, norm: Norm, x: Contact, removed: bool, c: Contact)
    requires Tracked(b.world, norm, c) && Inv(SyncDelete(b, x, removed).world, norm)
    ensures var w' := SyncDelete(b, x, removed).world;
      && Tracked(w', norm, c) && At(w', c).uid == At(b.world, c).uid
      && RowFollows(b.world, StepDelete(x, removed), c, w')
  {
    var w, d := b.world, At(b.world, x);
    var e := d.(pendingFlags := d.pendingFlags - {SCHEDULE_DELETE});
    if removed {
      assert OnlyPut(w, x, e, SyncDelete(b, x, removed).world);
      hide Tracked, Inv, RowAgrees, At, SyncDelete;
      PutTracked(w, norm, c, x, e, SyncDelete(b, x, removed).world);
    }
  }

  /** An addition that failed before the server gave a name changes nothing that is written. */
  lemma FailedKept(w: World, norm: Norm, c: Contact, a: Answer)
    requires Fails(w, c, a) && Orderly(w, norm, c, a) && At(w, c).name.Some?
    ensures Kept(Normalised(At(w, c), a)) == Kept(At(w, c)) && Normalised(At(w, c), a).uid == At(w, c).uid
  {}

  lemma RenamedName(w: World, c: Contact, a: Answer)
    requires Possible(a) && At(w, c).name.Some? && !Fails(w, c, a) && !KeepsName(w, c, a)
    ensures var e := AddedData(At(w, c), a);
      e.name == a.name && e.name.Some? && e.name != At(w, c).name && e.uid == At(w, c).uid
  {}

  lemma AddedPut(w: World, c: Contact, a: Answer)
    requires Possible(a)
    ensures OnlyPut(w, c, Normalised(At(w, c), a), Put(w, c, Normalised(At(w, c), a)))
    ensures OnlyPut(w, c, AddedData(At(w, c), a), DropAdd(Put(w, c, AddedData(At(w, c), a)), At(w, c).uid))
    ensures a.name.Some? ==>
      OnlyPut(w, c, AddedData(At(w, c), a),
        DropAdd(Renamed(w, c, a).(byName := Renamed(w, c, a).byName[a.name.value := c]), At(w, c).uid))
    ensures AddedData(At(w, c), a).uid == At(w, c).uid
  {
    AddedUid(At(w, c), a);
    hide Normalised, NameOf, AddedData;
  }

  lemma AddedUid(d: ContactData, a: Answer)
    ensures AddedData(d, a).uid == d.uid
  {}

  lemma DropAddTracked(w: World, norm: Norm, uid: string, c: Contact)
    requires Inv(DropAdd(w, uid), norm) && QueueLive(w) && Live(w, c) && At(w, c).uid in w.db.contacts
    ensures var w' := DropAdd(w, uid); Tracked(w', norm, c) && At(w', c) == At(w, c) && (RowAgrees(w', c) <==> RowAgrees(w, c))
  {
    hide Inv, RecordIn;
  }

  /** A merge, as a step of the phase. */
  lemma MergeStepRow(w: World, norm: Norm, x: Contact, a: Answer, flushed: bool, removed: bool, w': World, c: Contact)
    requires Tracked(w, norm, c) && Inv(w', norm) && Merges(w, x, a) && x != c
    requires Waiting(w, x) && Orderly(w, norm, x, a)
    requires w' == DropAdd(Merge(Renamed(w, x, a), w.byName[a.name.value], x, flushed, removed), At(w, x).uid)
    ensures Tracked(w', norm, c) && At(w', c).uid == At(w, c).uid
    ensures RowFollows(w, StepAdd(x, a, flushed, removed), c, w')
  {
    hide *;
    TrackedParts(w, norm, c);
    MergesParts(w, norm, x, a);
    var dest, r := w.byName[a.name.value], Renamed(w, x, a);
    RenamedParts(w, x, a);
    MergeRow(w, norm, r, dest, x, flushed, removed, c);
    DropAddTracked(Merge(r, dest, x, flushed, removed), norm, At(w, x).uid, c);
    MergeFollows(w, x, a, flushed, removed, c, w');
  }

  lemma MergeFollows(w: World, x: Contact, a: Answer, flushed: bool, removed: bool, c: Contact, w': World)
    requires Merges(w, x, a) && x != c
    requires w.byName[a.name.value] != c ==>
      if flushed && At(w, c).uid in w.dirty then RowAgrees(w', c) else RowAgrees(w', c) <==> RowAgrees(w, c)
    ensures RowFollows(w, StepAdd(x, a, flushed, removed), c, w')
  {
    hide RowAgrees, At;
  }

  lemma MergesParts(w: World, norm: Norm, x: Contact, a: Answer)
    requires Inv(w, norm) && Merges(w, x, a) && Waiting(w, x) && Orderly(w, norm, x, a)
    ensures Possible(a) && a.name.Some? && a.name.value in w.byName && Live(w, x) && At(w, x).name.Some?
    ensures var dest := w.byName[a.name.value]; dest != x && Live(w, dest)
  {
    RenamedIsLive(w, norm, x, a);
    assert NameEntry(w, a.name.value, w.byName[a.name.value]);
    hide HandlesLive, AddsSettled;
  }

  lemma RenamedParts(w: World, x: Contact, a: Answer)
    requires Possible(a) && At(w, x).name.Some?
    ensures var r := Renamed(w, x, a);
      && r.heap == w.heap[x := At(r, x)] && At(r, x) == AddedData(At(w, x), a) && r.dirty == w.dirty
      && At(r, x).uid == At(w, x).uid && At(r, x).name.Some? && r.byUid == w.byUid && r.db == w.db
      && r.changed == w.changed && r.views == w.views && r.ready == w.ready && r.inactive == w.inactive
  {
    AddedKeys(w, x, a);
    hide AddedData, NameOf;
  }

  lemma AddRow(b: Batch, norm: Norm, x: Contact, a: Answer, flushed: bool, removed: bool, c: Contact)
    requires Tracked(b.world, norm, c) && Waiting(b.world, x) && Orderly(b.world, norm, x, a)
    requires !MergedAway(b.world, StepAdd(x, a, flushed, removed), c) && At(b.world, x).name.Some?
    requires Inv(SyncAdd(b, x, a, flushed, removed).world, norm)
    ensures var w' := SyncAdd(b, x, a, flushed, removed).world;
      && Tracked(w', norm, c) && At(w', c).uid == At(b.world, c).uid
      && RowFollows(b.world, StepAdd(x, a, flushed, removed), c, w')
  {
    hide *;
    var w, w' := b.world, SyncAdd(b, x, a, flushed, removed).world;
    OrderlyParts(w, norm, x, a);
    AddIs(b, x, a, flushed, removed);
    OneOutcome(w, x, a);
    AddedPut(w, x, a);
    MergedAwayIs(w, x, a, flushed, removed, c);
    if Fails(w, x, a) {
      FailedKept(w, norm, x, a);
      PutTracked(w, norm, c, x, Normalised(At(w, x), a), w');
      FailsFollows(w, x, a, flushed, removed, c, w');
    } else if KeepsName(w, x, a) {
      PutTracked(w, norm, c, x, AddedData(At(w, x), a), w');
      KeepsFollows(w, x, a, flushed, removed, c, w');
    } else {
      RenamedName(w, x, a);
      SomeName(w, x, a);
      if Merges(w, x, a) {
        MergeStepRow(w, norm, x, a, flushed, removed, w', c);
      } else {
        PutTracked(w, norm, c, x, AddedData(At(w, x), a), w');
        FreeFollows(w, x, a, flushed, removed, c, w');
      }
    }
  }

  lemma SomeName(w: World, x: Contact, a: Answer)
    requires !Fails(w, x, a) && !KeepsName(w, x, a)
    ensures a.name.Some? && (Merges(w, x, a) || RenamesFree(w, x, a))
  {
    hide At, NameOf;
  }

  lemma OrderlyParts(w: World, norm: Norm, x: Contact, a: Answer)
    requires Orderly(w, norm, x, a)
    ensures Possible(a)
  {}

  lemma MergedAwayIs(w: World, x: Contact, a: Answer, flushed: bool, removed: bool, c: Contact)
    requires !MergedAway(w, StepAdd(x, a, flushed, removed), c)
    ensures Merges(w, x, a) ==> x != c
  {
    hide Merges;
  }

  lemma FailsFollows(w: World, x: Contact, a: Answer, flushed: bool, removed: bool, c: Contact, w': World)
    requires Fails(w, x, a) && (RowAgrees(w', c) <==> RowAgrees(w, c))
    ensures RowFollows(w, StepAdd(x, a, flushed, removed), c, w')
  {
    hide RowAgrees, At;
  }

  lemma KeepsFollows(w: World, x: Contact, a: Answer, flushed: bool, removed: bool, c: Contact, w': World)
    requires KeepsName(w, x, a) && (x != c ==> (RowAgrees(w', c) <==> RowAgrees(w, c)))
    ensures RowFollows(w, StepAdd(x, a, flushed, removed), c, w')
  {
    hide RowAgrees, At;
  }

  lemma FreeFollows(w: World, x: Contact, a: Answer, flushed: bool, removed: bool, c: Contact, w': World)
    requires RenamesFree(w, x, a)
    requires if x == c then RowAgrees(w, c) ==> !RowAgrees(w', c) else RowAgrees(w', c) <==> RowAgrees(w, c)
    ensures RowFollows(w, StepAdd(x, a, flushed, removed), c, w')
  {
    hide RowAgrees, At;
  }

  /** One step and the row of a contact. */
  lemma StepRow(b: Batch, norm: Norm, s: SyncStep, c: Contact)
    requires Tracked(b.world, norm, c) && StepAllowed(b.world, norm, s)
    requires !MergedAway(b.world, s, c) && At(b.world, s.c).name.Some?
    ensures var w' := SyncOne(b, s).world;
      Tracked(w', norm, c) && At(w', c).uid == At(b.world, c).uid && RowFollows(b.world, s, c, w')
  {
    SyncOneParts(b, norm, s, c);
    hide Tracked, Inv, RowFollows, MergedAway, SyncUpdate, SyncAdd, SyncDelete, Orderly, At, Waiting;
    match s {
      case StepUpdate(x, unblocked) => UpdateRow(b, norm, x, unblocked, c);
      case StepAdd(x, a, flushed, removed) => AddRow(b, norm, x, a, flushed, removed, c);
      case StepDelete(x, removed) => DeleteRow(b, norm, x, removed, c);
    }
  }

  // ---- The batch ----

  /** Objects stay, with their uids, and a contact that has a name keeps having one. */
  predicate Evolves(w: World, w': World) {
    forall x :: x in w.heap ==>
      x in w'.heap && At(w', x).uid == At(w, x).uid && (At(w, x).name.Some? ==> At(w', x).name.Some?)
  }

  lemma PutEvolves(w: World, x: Contact, e: ContactData, w': World)
    requires w'.heap == w.heap[x := e] && e.uid == At(w, x).uid && (At(w, x).name.Some? ==> e.name.Some?)
    ensures Evolves(w, w')
  {}

  lemma MergeEvolves(w: World, x: Contact, a: Answer, dest: Contact, flushed: bool, removed: bool)
    requires Possible(a) && At(w, x).name.Some? && dest != x
    ensures Evolves(w, Merge(Renamed(w, x, a), dest, x, flushed, removed))
  {
    hide *;
    var r := Renamed(w, x, a);
    RenamedParts(w, x, a);
    PutEvolves(w, x, At(r, x), r);
    MergeIs(r, dest, x, flushed, removed);
    FoldedParts(r, dest, x);
    MergeNames(At(r, dest), At(r, x));
    PutEvolves(r, dest, MergeData(At(r, dest), At(r, x)), Merge(r, dest, x, flushed, removed));
    EvolvesTwice(w, r, Merge(r, dest, x, flushed, removed));
  }

  lemma MergeNames(d: ContactData, s: ContactData)
    ensures MergeData(d, s).uid == d.uid && MergeData(d, s).name == d.name
  {}

  lemma EvolvesTwice(w: World, w1: World, w2: World)
    requires Evolves(w, w1) && Evolves(w1, w2)
    ensures Evolves(w, w2)
  {
    hide At;
  }

  lemma AddEvolves(b: Batch, norm: Norm, x: Contact, a: Answer, flushed: bool, removed: bool)
    requires Inv(b.world, norm) && Waiting(b.world, x) && Orderly(b.world, norm, x, a) && At(b.world, x).name.Some?
    ensures Evolves(b.world, SyncAdd(b, x, a, flushed, removed).world)
  {
    hide *;
    var w, w' := b.world, SyncAdd(b, x, a, flushed, removed).world;
    OrderlyParts(w, norm, x, a);
    AddIs(b, x, a, flushed, removed);
    OneOutcome(w, x, a);
    AddedPut(w, x, a);
    AddedKeys(w, x, a);
    PutHeaps(w, x, Normalised(At(w, x), a), w');
    PutHeaps(w, x, AddedData(At(w, x), a), w');
    if Fails(w, x, a) {
      PutEvolves(w, x, Normalised(At(w, x), a), w');
    } else if KeepsName(w, x, a) {
      PutEvolves(w, x, AddedData(At(w, x), a), w');
    } else {
      SomeName(w, x, a);
      if Merges(w, x, a) {
        MergesParts(w, norm, x, a);
        var dest := w.byName[a.name.value];
        MergeEvolves(w, x, a, dest, flushed, removed);
        DropAddEvolves(w, Merge(Renamed(w, x, a), dest, x, flushed, removed), At(w, x).uid);
      } else {
        PutEvolves(w, x, AddedData(At(w, x), a), w');
      }
    }
  }

  lemma PutHeaps(w: World, x: Contact, e: ContactData, w': World)
    ensures OnlyPut(w, x, e, w') ==> w'.heap == w.heap[x := e]
  {}

  lemma DropAddEvolves(w: World, w': World, uid: string)
    requires Evolves(w, w')
    ensures Evolves(w, DropAdd(w', uid))
  {}

  lemma StepEvolves(b: Batch, norm: Norm, s: SyncStep)
    requires Inv(b.world, norm) && StepAllowed(b.world, norm, s) && At(b.world, s.c).name.Some?
    ensures Evolves(b.world, SyncOne(b, s).world)
  {
    var w := b.world;
    match s {
      case StepUpdate(x, unblocked) =>
        hide Inv, At, NeedsUpdate;
        PutEvolves(w, x, RunUpdate(At(w, x), unblocked), Put(w, x, RunUpdate(At(w, x), unblocked)));
      case StepAdd(x, a, flushed, removed) =>
        hide Inv, At, SyncAdd, Orderly, Waiting, Evolves;
        AddEvolves(b, norm, x, a, flushed, removed);
      case StepDelete(x, removed) =>
        var d := At(w, x);
        var e := d.(pendingFlags := d.pendingFlags - {SCHEDULE_DELETE});
        hide Inv, At;
        if removed { PutEvolves(w, x, e, SyncDelete(b, x, removed).world); }
    }
  }

  lemma AddCollects(b: Batch, norm: Norm, y: Contact, a: Answer, flushed: bool, removed: bool, x: Contact)
    requires Orderly(b.world, norm, y, a)
    ensures x in SyncAdd(b, y, a, flushed, removed).contacts <==>
      x in b.contacts || Collects(b.world, StepAdd(y, a, flushed, removed), x)
  {
    hide *;
    OrderlyParts(b.world, norm, y, a);
    AddIs(b, y, a, flushed, removed);
    OneOutcome(b.world, y, a);
    CollectsIs(b.world, y, a, flushed, removed, x);
  }

  lemma CollectsIs(w: World, y: Contact, a: Answer, flushed: bool, removed: bool, x: Contact)
    ensures Collects(w, StepAdd(y, a, flushed, removed), x) <==>
      (y == x && KeepsName(w, x, a)) || (Merges(w, y, a) && w.byName[a.name.value] == x)
  {
    hide KeepsName, Fails, At;
  }

  lemma UpdateCollects(b: Batch, y: Contact, unblocked: bool, x: Contact)
    ensures x in SyncUpdate(b, y, unblocked).contacts <==> x in b.contacts || Collects(b.world, StepUpdate(y, unblocked), x)
  {
    hide At, NeedsUpdate, RunUpdate;
  }

  lemma DeleteCollects(b: Batch, y: Contact, removed: bool, x: Contact)
    ensures x in SyncDelete(b, y, removed).contacts <==> x in b.contacts || Collects(b.world, StepDelete(y, removed), x)
  {
    hide At;
  }

  /** Who is in the batch after a step. */
  lemma StepCollects(b: Batch, norm: Norm, s: SyncStep, x: Contact)
    requires StepAllowed(b.world, norm, s)
    ensures x in SyncOne(b, s).contacts <==> x in b.contacts || Collects(b.world, s, x)
  {
    hide Collects, SyncUpdate, SyncAdd, SyncDelete, Waiting, Orderly;
    match s {
      case StepUpdate(y, unblocked) => UpdateCollects(b, y, unblocked, x);
      case StepAdd(y, a, flushed, removed) => AddCollects(b, norm, y, a, flushed, removed, x);
      case StepDelete(y, removed) => DeleteCollects(b, y, removed, x);
    }
  }

  /** Whoever a step collects is apart from the contact we look at. */
  lemma CollectedApart(w: World, norm: Norm, s: SyncStep, x: Contact, c: Contact)
    requires Tracked(w, norm, c) && StepAllowed(w, norm, s) && Collects(w, s, x) && Other(w, s.c, c)
    ensures Other(w, x, c)
  {
    if s.StepAdd? && Merges(w, s.c, s.answer) && w.byName[s.answer.name.value] == x {
      assert NameEntry(w, s.answer.name.value, x);
      hide Merges, KeepsName, HandlesLive, AddsSettled, Orderly;
    }
  }

  lemma OtherStays(w: World, w': World, x: Contact, c: Contact)
    requires Evolves(w, w') && Other(w, x, c) && c in w.heap
    ensures Other(w', x, c)
  {}

  lemma StepApart(b: Batch, norm: Norm, steps: seq<SyncStep>, c: Contact)
    requires steps != [] && Tracked(b.world, norm, c) && StepAllowed(b.world, norm, steps[0]) && OthersApart(b, steps, c)
    ensures OthersApart(SyncOne(b, steps[0]), steps[1..], c)
  {
    var s, b' := steps[0], SyncOne(b, steps[0]);
    assert s in steps && forall t :: t in steps[1..] ==> t in steps;
    assert Other(b.world, s.c, c);
    assert At(b.world, s.c).name.Some? && Inv(b.world, norm) && c in b.world.heap;
    StepEvolves(b, norm, s);
    hide Tracked, Inv, StepAllowed, Evolves, Other, SyncOne, Collects;
    forall x | x in b'.contacts ensures Other(b'.world, x, c) {
      StepCollects(b, norm, s, x);
      if x !in b.contacts { CollectedApart(b.world, norm, s, x, c); }
      OtherStays(b.world, b'.world, x, c);
    }
    forall t | t in steps[1..] ensures Other(b'.world, t.c, c) {
      OtherStays(b.world, b'.world, t.c, c);
    }
  }

  // ---- The steps of a phase ----

  lemma TrackedStep(b: Batch, norm: Norm, steps: seq<SyncStep>, c: Contact)
    requires steps != [] && Tracked(b.world, norm, c) && StepsAllowed(b, norm, steps) && NeverMerged(b, steps, c)
    requires OthersApart(b, steps, c)
    ensures var s, b' := steps[0], SyncOne(b, steps[0]);
      && Tracked(b'.world, norm, c) && StepsAllowed(b', norm, steps[1..]) && NeverMerged(b', steps[1..], c)
      && OthersApart(b', steps[1..], c) && RowFollows(b.world, s, c, b'.world)
      && At(b'.world, c).uid == At(b.world, c).uid && StepAllowed(b.world, norm, s)
  {
    assert steps[0] in steps && Other(b.world, steps[0].c, c);
    StepApart(b, norm, steps, c);
    hide Tracked, StepAllowed, MergedAway, RowFollows, OthersApart, SyncOne;
    StepRow(b, norm, steps[0], c);
  }

  /** Additions are taken off the list, and nobody enters it. */
  lemma StepAdds(b: Batch, norm: Norm, s: SyncStep, c: Contact)
    requires Tracked(b.world, norm, c) && StepAllowed(b.world, norm, s) && At(b.world, s.c).name.Some?
    ensures SyncOne(b, s).world.toAdd.Keys <= b.world.toAdd.Keys
    ensures GetsName(b.world, s, c) ==> At(b.world, c).uid !in SyncOne(b, s).world.toAdd
  {
    var w := b.world;
    match s {
      case StepUpdate(x, unblocked) => hide Tracked, At, NeedsUpdate, RunUpdate, RenamesFree;
      case StepDelete(x, removed) => hide Tracked, At, RenamesFree;
      case StepAdd(x, a, flushed, removed) =>
        hide *;
        AllowedAdd(w, norm, x, a, flushed, removed);
        TrackedParts(w, norm, c);
        AddAdds(b, norm, x, a, flushed, removed);
        GetsNameIs(w, x, a, flushed, removed, c);
        StepIs(b, x, a, flushed, removed);
    }
  }

  lemma AllowedAdd(w: World, norm: Norm, x: Contact, a: Answer, flushed: bool, removed: bool)
    requires StepAllowed(w, norm, StepAdd(x, a, flushed, removed))
    ensures Waiting(w, x) && Orderly(w, norm, x, a)
  {}

  lemma GetsNameIs(w: World, x: Contact, a: Answer, flushed: bool, removed: bool, c: Contact)
    ensures GetsName(w, StepAdd(x, a, flushed, removed), c) <==> x == c && RenamesFree(w, c, a)
  {}

  lemma StepIs(b: Batch, x: Contact, a: Answer, flushed: bool, removed: bool)
    ensures SyncOne(b, StepAdd(x, a, flushed, removed)) == SyncAdd(b, x, a, flushed, removed)
  {
    hide SyncAdd;
  }

  lemma AddAdds(b: Batch, norm: Norm, x: Contact, a: Answer, flushed: bool, removed: bool)
    requires Inv(b.world, norm) && Waiting(b.world, x) && Orderly(b.world, norm, x, a)
    ensures var w, w' := b.world, SyncAdd(b, x, a, flushed, removed).world;
      && (w'.toAdd == w.toAdd || w'.toAdd == w.toAdd - {At(w, x).uid})
      && (RenamesFree(w, x, a) ==> At(w, x).uid !in w'.toAdd)
  {
    hide *;
    var w := b.world;
    OrderlyParts(w, norm, x, a);
    AddIs(b, x, a, flushed, removed);
    OneOutcome(w, x, a);
    if Merges(w, x, a) {
      MergesParts(w, norm, x, a);
      RenamedAdds(w, x, a);
      MergeIs(Renamed(w, x, a), w.byName[a.name.value], x, flushed, removed);
      DropAddIs(Merge(Renamed(w, x, a), w.byName[a.name.value], x, flushed, removed), At(w, x).uid);
    }
    PlainAdds(w, x, a);
  }

  lemma RenamedAdds(w: World, x: Contact, a: Answer)
    ensures Renamed(w, x, a).toAdd == w.toAdd
  {
    hide AddedData, NameOf;
  }

  lemma DropAddIs(w: World, uid: string)
    ensures DropAdd(w, uid).toAdd == w.toAdd - {uid}
  {}

  lemma PlainAdds(w: World, x: Contact, a: Answer)
    ensures Put(w, x, Normalised(At(w, x), a)).toAdd == w.toAdd
    ensures DropAdd(Put(w, x, AddedData(At(w, x), a)), At(w, x).uid).toAdd == w.toAdd - {At(w, x).uid}
    ensures a.name.Some? ==>
      DropAdd(Renamed(w, x, a).(byName := Renamed(w, x, a).byName[a.name.value := x]), At(w, x).uid).toAdd
      == w.toAdd - {At(w, x).uid}
  {
    hide AddedData, Normalised, NameOf, At;
  }

  /** A contact that is not on the list any more is not added again. */
  lemma {:induction false} NotAddedAgain(b: Batch, norm: Norm, steps: seq<SyncStep>, c: Contact)
    requires Tracked(b.world, norm, c) && StepsAllowed(b, norm, steps) && NeverMerged(b, steps, c)
    requires OthersApart(b, steps, c) && At(b.world, c).uid !in b.world.toAdd
    ensures !NameUnsaved(b, steps, c)
    decreases |steps|
  {
    if steps != [] {
      assert steps[0] in steps && Other(b.world, steps[0].c, c);
      TrackedStep(b, norm, steps, c);
      NotWaiting(b.world, norm, steps[0], c);
      hide Tracked, StepAllowed, MergedAway, RowFollows, OthersApart, SyncOne, GetsName;
      StepAdds(b, norm, steps[0], c);
      NotAddedAgain(SyncOne(b, steps[0]), norm, steps[1..], c);
    }
  }

  lemma NotWaiting(w: World, norm: Norm, s: SyncStep, c: Contact)
    requires StepAllowed(w, norm, s) && At(w, c).uid !in w.toAdd
    ensures !GetsName(w, s, c)
  {
    hide RenamesFree, Orderly, At;
  }

  /** The row disagrees, and the contact gets no further name: only a flush helps. */
  lemma {:induction false} DisagreesUntilFlushed(b: Batch, norm: Norm, steps: seq<SyncStep>, c: Contact)
    requires Tracked(b.world, norm, c) && StepsAllowed(b, norm, steps) && NeverMerged(b, steps, c)
    requires OthersApart(b, steps, c) && At(b.world, c).uid !in b.world.toAdd && !Collected(b, steps, c)
    requires !RowAgrees(b.world, c)
    ensures RowAgrees(SyncAll(b, steps).world, c) <==> FlushedLater(b, steps, c)
    decreases |steps|
  {
    if steps != [] {
      assert steps[0] in steps && Other(b.world, steps[0].c, c);
      TrackedStep(b, norm, steps, c);
      NotWaiting(b.world, norm, steps[0], c);
      hide Tracked, StepAllowed, MergedAway, OthersApart, SyncOne, GetsName, Flushes, RowAgrees, Collects;
      StepAdds(b, norm, steps[0], c);
      var b' := SyncOne(b, steps[0]);
      if Flushes(b.world, steps[0], c) {
        NotAddedAgain(b', norm, steps[1..], c);
        AgreesUnlessRenamed(b', norm, steps[1..], c);
      } else {
        DisagreesUntilFlushed(b', norm, steps[1..], c);
      }
    }
  }

  /** The row agrees, and no step collects the contact: what the phase leaves. */
  lemma {:induction false} AgreesUnlessRenamed(b: Batch, norm: Norm, steps: seq<SyncStep>, c: Contact)
    requires Tracked(b.world, norm, c) && StepsAllowed(b, norm, steps) && NeverMerged(b, steps, c)
    requires OthersApart(b, steps, c) && !Collected(b, steps, c) && RowAgrees(b.world, c)
    ensures RowAgrees(SyncAll(b, steps).world, c) <==> !NameUnsaved(b, steps, c)
    decreases |steps|, 0
  {
    if steps != [] {
      assert steps[0] in steps && Other(b.world, steps[0].c, c);
      TrackedStep(b, norm, steps, c);
      hide Tracked, StepAllowed, MergedAway, OthersApart, SyncOne, GetsName, Flushes, RowAgrees, Collects;
      StepAdds(b, norm, steps[0], c);
      var b' := SyncOne(b, steps[0]);
      if GetsName(b.world, steps[0], c) {
        NotAddedAgain(b', norm, steps[1..], c);
        DisagreesUntilFlushed(b', norm, steps[1..], c);
      } else {
        AgreesUnlessRenamed(b', norm, steps[1..], c);
      }
    }
  }

  /** Who is written at the end of the phase. */
  lemma {:induction false} CollectedIsThere(b: Batch, norm: Norm, steps: seq<SyncStep>, c: Contact)
    requires Tracked(b.world, norm, c) && StepsAllowed(b, norm, steps) && NeverMerged(b, steps, c)
    requires OthersApart(b, steps, c)
    ensures var b' := SyncAll(b, steps);
      && (c in b'.contacts <==> c in b.contacts || Collected(b, steps, c))
      && Tracked(b'.world, norm, c) && OthersApart(b', [], c) && At(b'.world, c).uid == At(b.world, c).uid
    decreases |steps|
  {
    if steps == [] {
      assert OthersApart(b, [], c);
    } else {
      TrackedStep(b, norm, steps, c);
      StepCollects(b, norm, steps[0], c);
      hide Tracked, StepAllowed, MergedAway, OthersApart, SyncOne, RowFollows, Collects;
      CollectedIsThere(SyncOne(b, steps[0]), norm, steps[1..], c);
    }
  }

  // ---- The write at the end ----

  lemma UpdatedRecord(t: Tables, d: ContactData, u: string)
    requires d.name.Some?
    ensures RealUpdate(t, d).Some?
    ensures var t' := RealUpdate(t, d).value;
      && t'.contacts.Keys == t.contacts.Keys
      && RecordIn(t', u) == if u == d.uid && u in t.contacts then Kept(d) else RecordIn(t, u)
  {
    UpdateStores(t, d);
    var t' := RealUpdate(t, d).value;
    if u in t.contacts {
      assert Some(Records(t')[u]) == RecordIn(t', u) && Some(Records(t)[u]) == RecordIn(t, u);
    }
  }

  /** All entries of a uid that a batch writes are the same contact. */
  predicate OnlyEntry(ds: seq<ContactData>, u: string, e: ContactData) {
    forall d :: d in ds ==> d.name.Some? && (d.uid == u ==> d == e)
  }

  lemma {:induction false} WrittenRecord(t: Tables, ds: seq<ContactData>, u: string, e: ContactData)
    requires OnlyEntry(ds, u, e) && u in t.contacts
    ensures UpdateAll(t, ds).Some?
    ensures var t' := UpdateAll(t, ds).value;
      && u in t'.contacts
      && RecordIn(t', u) == (if exists d :: d in ds && d.uid == u then Kept(e) else RecordIn(t, u))
    decreases |ds|
  {
    if ds != [] {
      assert ds == [ds[0]] + ds[1..];
      assert ds[0] in ds && forall d :: d in ds <==> d == ds[0] || d in ds[1..];
      UpdatedRecord(t, ds[0], u);
      hide RealUpdate, RecordIn, Kept;
      WrittenRecord(RealUpdate(t, ds[0]).value, ds[1..], u, e);
    }
  }

  lemma BatchEntries(b: Batch, c: Contact)
    requires OthersApart(b, [], c)
    ensures var ds, d := DataAt(b.world, b.contacts), At(b.world, c);
      OnlyEntry(ds, d.uid, d) && ((exists e :: e in ds && e.uid == d.uid) <==> c in b.contacts)
  {
    var ds, u := DataAt(b.world, b.contacts), At(b.world, c).uid;
    forall d | d in ds ensures d.name.Some? && (d.uid == u ==> d == At(b.world, c)) {
      var i :| 0 <= i < |b.contacts| && ds[i] == d;
      assert b.contacts[i] in b.contacts && Other(b.world, b.contacts[i], c);
    }
    if c in b.contacts {
      var i :| 0 <= i < |b.contacts| && b.contacts[i] == c;
      assert ds[i] in ds && ds[i].uid == u;
    }
    if e :| e in ds && e.uid == u {
      var i :| 0 <= i < |b.contacts| && ds[i] == e;
      assert b.contacts[i] in b.contacts && Other(b.world, b.contacts[i], c);
    }
    hide At;
  }

  lemma BatchRow(b: Batch, norm: Norm, c: Contact)
    requires Tracked(b.world, norm, c) && OthersApart(b, [], c)
    ensures var w' := StoreChanged(b.world, b.contacts, true);
      RowAgrees(w', c) <==> c in b.contacts || RowAgrees(b.world, c)
  {
    hide *;
    var w, w', d := b.world, StoreChanged(b.world, b.contacts, true), At(b.world, c);
    TrackedParts(w, norm, c);
    BatchEntries(b, c);
    WrittenRecord(w.db, DataAt(w, b.contacts), d.uid, d);
    StoredIs(w, b.contacts);
    SameAt(w, w', c);
    RowIs(w, c);
    RowIs(w', c);
  }

  lemma StoredIs(w: World, contacts: seq<Contact>)
    requires UpdateAll(w.db, DataAt(w, contacts)).Some?
    ensures var w' := StoreChanged(w, contacts, true);
      w'.heap == w.heap && w'.db == UpdateAll(w.db, DataAt(w, contacts)).value
  {
    hide UpdateAll, DataAt;
  }

  /** Phase 3 and the row of a contact. Let the contact be in the indexes with a row that agrees, and
      let no other object of its uid take part and the contact not be merged away. Then its row agrees
      after the phase if and only if some step puts the contact among those that are written, or every
      step that keeps it under a new name nobody has is followed by a merge that flushes it. */
  lemma RowAgreesIff(w: World, norm: Norm, steps: seq<SyncStep>, c: Contact)
    requires Tracked(w, norm, c) && RowAgrees(w, c) && StepsAllowed(Batch(w, []), norm, steps)
    requires NeverMerged(Batch(w, []), steps, c) && forall s :: s in steps ==> Other(w, s.c, c)
    ensures var b := Batch(w, []);
      RowAgrees(Phase3(w, steps, true), c) <==> Collected(b, steps, c) || !NameUnsaved(b, steps, c)
  {
    var b := Batch(w, []);
    assert OthersApart(b, steps, c);
    hide *;
    var b' := SyncAll(b, steps);
    CollectedIsThere(b, norm, steps, c);
    BatchRow(b', norm, c);
    if !Collected(b, steps, c) { AgreesUnlessRenamed(b, norm, steps, c); }
    PhaseIs(w, steps);
  }

  lemma PhaseIs(w: World, steps: seq<SyncStep>)
    ensures var b := SyncAll(Batch(w, []), steps); Phase3(w, steps, true) == StoreChanged(b.world, b.contacts, true)
  {
    hide SyncAll, StoreChanged;
  }
}
