/** The write-behind queue: after a flush the cache is what it would be had every persistent change
    been written at once, and a deleted contact is never written back. */
module WriteBehind {
  import opened Text
  import opened Flags
  import opened ContactValues
  import opened Contacts
  import opened VCards
  import opened Store
  import opened StoreBatches
  import opened Worlds
  import opened Coherence
  import opened CoherentRuns
  import opened CoherentRequests
  import opened Runs

  /** What the cache can keep of a contact. */
  function Kept(d: ContactData): Option<Record> {
    if d.name.Some? then Some(RecordOf(d)) else None
  }

  function RecordIn(t: Tables, u: string): Option<Record> {
    if u in t.contacts then Some(Record(t.contacts[u], ValuesOf(t.masterUids, u), ValuesOf(t.variants, u))) else None
  }

  /** What the cache will hold for a uid once the queue is flushed and the contacts in `also` are
      queued too. */
  function Due(w: World, u: string, also: set<string>): Option<Record> {
    if u !in w.db.contacts || u !in w.byUid then None
    else if u in w.dirty || u in also then Kept(At(w, w.byUid[u]))
    else RecordIn(w.db, u)
  }

  /** Every known contact has a row, and what is queued is known. */
  predicate Rows(w: World) {
    && w.byUid.Keys == w.db.contacts.Keys && NoOrphans(w.db)
    && QueueLive(w)
  }

  /** `ideal` is the cache with everything written at once. */
  ghost predicate Agrees(w: World, ideal: Tables, also: set<string>) {
    NoOrphans(ideal) && forall u: string :: RecordIn(ideal, u) == Due(w, u, also)
  }

  ghost predicate Refines(w: World, norm: Norm, ideal: Tables, also: set<string>) {
    Inv(w, norm) && Rows(w) && Agrees(w, ideal, also)
  }

  // ---- The cache without a queue ----

  function WriteOne(w: World, ideal: Tables, kind: Kind, news: ContactData): Tables {
    if news.handle !in w.byHandle || !Persists(kind) then ideal
    else Commit(ideal, RealUpdate(ideal, Received(kind, At(w, w.byHandle[news.handle]), news)), true)
  }

  function WriteReceived(b: Batch, ideal: Tables, kind: Kind, news: seq<ContactData>): Tables
    decreases |news|
  {
    if news == [] then ideal
    else WriteReceived(Receive(b, kind, news[0]), WriteOne(b.world, ideal, kind, news[0]), kind, news[1..])
  }

  /** The events of the claim, with every write carried out. */
  predicate Queued(e: Event) {
    match e
    case Changing(_, news) => Handled(news)
    case Leaving(handles, flushed, removed) => 0 !in handles && flushed && removed
    case Idling(flushed) => flushed
    case Notifying => true
    case Viewing => true
    case Resting(_) => true
    case Disconnecting => true
    case _ => false
  }

  /** Each event as it would be without a queue: a persistent change is written when it happens. */
  function Written(w: World, ideal: Tables, e: Event): Tables {
    match e
    case Changing(kind, news) => WriteReceived(Batch(w, []), ideal, kind, news)
    case Leaving(handles, _, _) =>
      var b := LeaveAll(Batch(w, []), handles);
      DeleteMany(ideal, UidsOf(b.world, SetOf(b.contacts)))
    case _ => ideal
  }

  // ---- One signal ----

  /** The contacts a signal has reached so far, as far as they are to be written. */
  function Reached(b: Batch, kind: Kind): set<string> {
    if Persists(kind) then UidsOf(b.world, SetOf(b.contacts)) else {}
  }

  lemma ReceivedKeeps(kind: Kind, d: ContactData, news: ContactData)
    ensures var d' := Received(kind, d, news);
      && d'.uid == d.uid && d'.name == d.name
      && (!Persists(kind) ==> Kept(d') == Kept(d))
  {}

  lemma ReachedGrows(b: Batch, kind: Kind, news: ContactData)
    requires news.handle in b.world.byHandle
    ensures var c := b.world.byHandle[news.handle];
      Reached(Receive(b, kind, news), kind) == Reached(b, kind) + (if Persists(kind) then {At(b.world, c).uid} else {})
  {
    var c := b.world.byHandle[news.handle];
    var b' := Receive(b, kind, news);
    ReceivedKeeps(kind, At(b.world, c), news);
    hide Received;
    assert forall x :: At(b'.world, x).uid == At(b.world, x).uid;
    hide At, Receive;
    ReachedSnoc(b.world, b.contacts, c, b'.world);
  }

  lemma ReachedSnoc(w: World, cs: seq<Contact>, c: Contact, w': World)
    requires forall x :: At(w', x).uid == At(w, x).uid
    ensures UidsOf(w', SetOf(cs + [c])) == UidsOf(w, SetOf(cs)) + {At(w, c).uid}
  {
    hide At;
    assert SetOf(cs + [c]) == SetOf(cs) + {c};
  }

  lemma WrittenAtOnce(ideal: Tables, d: ContactData)
    requires d.uid in ideal.contacts && d.name.Some? && NoOrphans(ideal)
    ensures var ideal' := Commit(ideal, RealUpdate(ideal, d), true);
      && NoOrphans(ideal')
      && forall u: string :: RecordIn(ideal', u) == if u == d.uid then Kept(d) else RecordIn(ideal, u)
  {
    UpdateStores(ideal, d);
    var ideal' := RealUpdate(ideal, d).value;
    forall u: string ensures RecordIn(ideal', u) == if u == d.uid then Kept(d) else RecordIn(ideal, u) {
      if u in ideal.contacts {
        assert Records(ideal')[u] == if u == d.uid then RecordOf(d) else Records(ideal)[u];
      }
    }
  }

  /** What is due for the other contacts does not change. */
  lemma DueElsewhere(w: World, c: Contact, d: ContactData, u: string, also: set<string>)
    requires u in w.byUid ==> w.byUid[u] != c
    ensures Due(Put(w, c, d), u, also) == Due(w, u, also)
  {
    hide Kept, RecordIn;
  }

  lemma DueAlso(w: World, u: string, also: set<string>, v: string)
    requires u != v
    ensures Due(w, u, also + {v}) == Due(w, u, also)
  {
    hide Kept, RecordIn, At;
  }

  lemma DueHere(w: World, c: Contact, d: ContactData, u: string, also: set<string>)
    requires u in w.byUid && u in w.db.contacts && w.byUid[u] == c
    ensures u in also || Kept(d) != Kept(At(w, c)) || Due(Put(w, c, d), u, also) == Due(w, u, also)
    ensures u in also ==> Due(Put(w, c, d), u, also) == Kept(d)
  {
    hide Kept, RecordIn;
  }

  lemma DueSame(w: World, c: Contact, d: ContactData, u: string, also: set<string>)
    requires Kept(d) == Kept(At(w, c))
    ensures Due(Put(w, c, d), u, also) == Due(w, u, also)
  {
    hide Kept, RecordIn;
  }

  /** One contact changes, in the heap and in the ideal cache. */
  lemma ChangeAgrees(w: World, norm: Norm, ideal: Tables, also: set<string>, c: Contact, d: ContactData)
    requires Refines(w, norm, ideal, also) && Live(w, c) && d.uid == At(w, c).uid && d.name == At(w, c).name
    requires Inv(Put(w, c, d), norm)
    ensures Refines(Put(w, c, d), norm, Commit(ideal, RealUpdate(ideal, d), true), also + {d.uid})
    ensures Kept(d) == Kept(At(w, c)) ==> Refines(Put(w, c, d), norm, ideal, also)
  {
    OneUid(w, norm, d.uid, c);
    var w', ideal' := Put(w, c, d), Commit(ideal, RealUpdate(ideal, d), true);
    assert RecordIn(ideal, d.uid) == Due(w, d.uid, also);
    assert d.uid in ideal.contacts;
    WrittenAtOnce(ideal, d);
    forall u: string | u in w.byUid && w.byUid[u] == c ensures u == d.uid { OneUid(w, norm, u, c); }
    hide Due, RecordIn, Kept, At, Inv, RealUpdate, Commit;
    forall u: string ensures RecordIn(ideal', u) == Due(w', u, also + {d.uid}) {
      assert RecordIn(ideal, u) == Due(w, u, also);
      if u == d.uid {
        DueHere(w, c, d, u, also + {d.uid});
      } else {
        DueAlso(w, u, also, d.uid);
        DueElsewhere(w, c, d, u, also + {d.uid});
      }
    }
    if Kept(d) == Kept(At(w, c)) {
      forall u: string ensures RecordIn(ideal, u) == Due(w', u, also) { DueSame(w, c, d, u, also); }
    }
  }

  lemma OneUid(w: World, norm: Norm, u: string, c: Contact)
    requires Inv(w, norm) && u in w.byUid && w.byUid[u] == c
    ensures u == At(w, c).uid && At(w, c).name.Some?
  {
    assert UidEntry(w, u, c);
  }

  predicate AllLive(w: World, cs: seq<Contact>) {
    forall c :: c in cs ==> Live(w, c)
  }

  lemma ReceiveRefines(b: Batch, norm: Norm, ideal: Tables, kind: Kind, news: ContactData)
    requires Refines(b.world, norm, ideal, Reached(b, kind)) && AllLive(b.world, b.contacts) && news.handle > 0
    ensures var b' := Receive(b, kind, news);
      Refines(b'.world, norm, WriteOne(b.world, ideal, kind, news), Reached(b', kind)) && AllLive(b'.world, b'.contacts)
  {
    if news.handle in b.world.byHandle {
      var c := b.world.byHandle[news.handle];
      var d := Received(kind, At(b.world, c), news);
      assert HandleEntry(b.world, norm, news.handle, c);
      ReceivedKeeps(kind, At(b.world, c), news);
      PutKeeps(b.world, norm, c, d);
      StillLive(b.world, b.contacts, c, Put(b.world, c, d));
      hide Refines, Inv, Reached, Received, Kept, At, Live, AllLive;
      ReachedGrows(b, kind, news);
      ChangeAgrees(b.world, norm, ideal, Reached(b, kind), c, d);
      assert Reached(b, kind) + {} == Reached(b, kind);
    }
  }

  lemma StillLive(w: World, cs: seq<Contact>, c: Contact, w': World)
    requires AllLive(w, cs) && Live(w, c) && forall x :: Live(w, x) ==> Live(w', x)
    ensures AllLive(w', cs + [c])
  {
    hide Live;
  }

  lemma {:induction false} ReceiveAllRefines(b: Batch, norm: Norm, ideal: Tables, kind: Kind, news: seq<ContactData>)
    requires Refines(b.world, norm, ideal, Reached(b, kind)) && AllLive(b.world, b.contacts) && Handled(news)
    ensures var b' := ReceiveAll(b, kind, news);
      && Refines(b'.world, norm, WriteReceived(b, ideal, kind, news), Reached(b', kind))
      && AllLive(b'.world, b'.contacts)
    decreases |news|
  {
    hide Refines, Reached, AllLive, Receive, WriteOne;
    if news != [] {
      ReceiveRefines(b, norm, ideal, kind, news[0]);
      ReceiveAllRefines(Receive(b, kind, news[0]), norm, WriteOne(b.world, ideal, kind, news[0]), kind, news[1..]);
    }
  }

  predicate QueueLive(w: World) {
    forall u :: u in w.dirty ==> u in w.byUid && w.dirty[u] == w.byUid[u]
  }

  lemma QueueOne(w: World, c: Contact, persist: bool, cs: seq<Contact>)
    requires Live(w, c) && AllLive(w, cs) && QueueLive(w)
    ensures var w' := Queue(w, c, persist);
      && w'.dirty.Keys == w.dirty.Keys + (if persist then {At(w, c).uid} else {})
      && w'.byUid == w.byUid && QueueLive(w') && AllLive(w', cs) && UidsOf(w', SetOf(cs)) == UidsOf(w, SetOf(cs))
  {
    var w' := Queue(w, c, persist);
    assert forall x :: At(w', x) == At(w, x);
    hide At;
  }

  lemma UidsCons(w: World, cs: seq<Contact>)
    ensures cs == [] ==> UidsOf(w, SetOf(cs)) == {}
    ensures cs != [] ==> UidsOf(w, SetOf(cs)) == {At(w, cs[0]).uid} + UidsOf(w, SetOf(cs[1..]))
  {
    hide At;
    if cs == [] {
      assert SetOf(cs) == {};
    } else {
      assert forall c :: c in cs <==> c == cs[0] || c in cs[1..];
      assert SetOf(cs) == {cs[0]} + SetOf(cs[1..]);
    }
  }

  /** What queueing puts into the queue. */
  lemma {:induction false} QueueAllDirty(w: World, cs: seq<Contact>, persist: bool)
    requires AllLive(w, cs) && QueueLive(w)
    ensures var w' := QueueAll(w, cs, persist);
      && w'.dirty.Keys == w.dirty.Keys + (if persist then UidsOf(w, SetOf(cs)) else {})
      && w'.byUid == w.byUid && QueueLive(w')
    decreases |cs|
  {
    UidsCons(w, cs);
    if cs != [] {
      assert Live(w, cs[0]) && AllLive(w, cs[1..]);
      QueueOne(w, cs[0], persist, cs[1..]);
      hide AllLive, QueueLive, Queue, UidsOf, SetOf, Live, At;
      QueueAllDirty(Queue(w, cs[0], persist), cs[1..], persist);
    }
  }

  /** Only the queue differs, and it holds what was due anyway. */
  lemma QueuedIsDue(w: World, norm: Norm, ideal: Tables, also: set<string>, w': World)
    requires Refines(w, norm, ideal, also) && SameIndexes(w, w') && w'.db == w.db
    requires w'.dirty.Keys == w.dirty.Keys + also && QueueLive(w')
    ensures Refines(w', norm, ideal, {})
  {
    OnlyIndexesMatter(w, w', norm);
    assert forall c :: At(w', c) == At(w, c);
    forall u: string ensures RecordIn(ideal, u) == Due(w', u, {}) { assert RecordIn(ideal, u) == Due(w, u, also); }
    hide Inv, RecordIn, Kept, At;
  }

  lemma SignalledRefines(w: World, norm: Norm, ideal: Tables, kind: Kind, news: seq<ContactData>)
    requires Refines(w, norm, ideal, {}) && Handled(news)
    ensures Refines(Signalled(w, kind, news), norm, WriteReceived(Batch(w, []), ideal, kind, news), {})
  {
    var start := Batch(w, []);
    assert Reached(start, kind) == {} by { assert SetOf([]) == {}; }
    ReceiveAllRefines(start, norm, ideal, kind, news);
    var b, ideal' := ReceiveAll(start, kind, news), WriteReceived(start, ideal, kind, news);
    QueueAllTouches(b.world, b.contacts, Persists(kind));
    assert Rows(b.world);
    QueueAllDirty(b.world, b.contacts, Persists(kind));
    hide Inv, Agrees, ReceiveAll, WriteReceived, QueueAll, Rows, AllLive;
    QueuedIsDue(b.world, norm, ideal', Reached(b, kind), UpdateContacts(b.world, b.contacts, Persists(kind)));
    if b.contacts == [] {
      assert Reached(b, kind) == {};
    }
  }

  // ---- Flushing ----

  lemma BatchRecords(t: Tables, ds: map<string, ContactData>, u: string)
    requires UpdateMany(t, ds).Some? && (u in ds ==> u in t.contacts)
    ensures RecordIn(UpdateMany(t, ds).value, u) == if u in ds then Kept(ds[u]) else RecordIn(t, u)
  {
    UpdateManyStores(t, ds);
    var t' := UpdateMany(t, ds).value;
    if u in t.contacts {
      assert Some(Records(t')[u]) == RecordIn(t', u) && Some(Records(t)[u]) == RecordIn(t, u);
    }
  }

  /** What the flush writes: the value of each queued contact. */
  lemma FlushedValues(w: World, norm: Norm)
    requires Inv(w, norm) && Rows(w)
    ensures var ds := Values(w, w.dirty);
      && ds.Keys == w.dirty.Keys && UpdateMany(w.db, ds).Some? && Flush(w, true).db == UpdateMany(w.db, ds).value
      && (forall u :: u in w.dirty ==> u in w.byUid && u in w.db.contacts && ds[u] == At(w, w.byUid[u]))
      && NoOrphans(Flush(w, true).db) && Flush(w, true).db.contacts.Keys == w.db.contacts.Keys
  {
    var ds := Values(w, w.dirty);
    forall u | u in w.dirty ensures ds[u].name.Some? && ds[u] == At(w, w.byUid[u]) { OneUid(w, norm, u, w.byUid[u]); }
    assert ds.Keys == w.dirty.Keys;
    assert NoOrphans(w.db) && forall u :: u in w.dirty ==> u in w.byUid && u in w.db.contacts;
    hide *;
    FlushWrites(w);
    BatchStores(w.db, ds);
  }

  lemma FlushWrites(w: World)
    ensures Flush(w, true).db == Commit(w.db, UpdateMany(w.db, Values(w, w.dirty)), true)
  {
    hide UpdateMany, Values;
  }

  /** A batch of named contacts that have rows is written. */
  lemma BatchStores(t: Tables, ds: map<string, ContactData>)
    requires NoOrphans(t) && forall u :: u in ds ==> ds[u].name.Some? && u in t.contacts
    ensures UpdateMany(t, ds).Some? && Commit(t, UpdateMany(t, ds), true) == UpdateMany(t, ds).value
    ensures NoOrphans(UpdateMany(t, ds).value) && UpdateMany(t, ds).value.contacts.Keys == t.contacts.Keys
  {
    UpdateManyStores(t, ds);
  }

  lemma FlushedRecords(w: World, norm: Norm)
    requires Inv(w, norm) && Rows(w)
    ensures var db' := Flush(w, true).db;
      NoOrphans(db') && db'.contacts.Keys == w.db.contacts.Keys && forall u: string :: RecordIn(db', u) == Due(w, u, {})
  {
    FlushedValues(w, norm);
    hide Inv, At, UpdateMany, Flush, Values, Kept, NoOrphans;
    var ds := Values(w, w.dirty);
    forall u: string ensures RecordIn(Flush(w, true).db, u) == Due(w, u, {}) { BatchRecords(w.db, ds, u); }
  }

  /** A flush makes the cache the ideal one. */
  lemma FlushAgrees(w: World, norm: Norm, ideal: Tables)
    requires Refines(w, norm, ideal, {})
    ensures Refines(Flush(w, true), norm, ideal, {}) && Flush(w, true).db == ideal
  {
    var w' := Flush(w, true);
    FlushedRecords(w, norm);
    hide Inv, RecordIn, Due, NoOrphans;
    forall u: string ensures RecordIn(ideal, u) == RecordIn(w'.db, u) { assert RecordIn(ideal, u) == Due(w, u, {}); }
    SameRecords(ideal, w'.db);
    FlushTouches(w);
    OnlyIndexesMatter(w, w', norm);
    forall u: string ensures RecordIn(ideal, u) == Due(w', u, {}) { NothingDue(w', u); }
  }

  lemma FlushTouches(w: World)
    ensures SameIndexes(w, Flush(w, true)) && Flush(w, true).dirty == map[]
  {
    hide Commit, Values;
  }

  lemma NothingDue(w: World, u: string)
    requires w.dirty == map[] && w.byUid.Keys == w.db.contacts.Keys
    ensures Due(w, u, {}) == RecordIn(w.db, u)
  {}

  lemma SameRecords(t: Tables, t': Tables)
    requires NoOrphans(t) && NoOrphans(t') && forall u: string :: RecordIn(t, u) == RecordIn(t', u)
    ensures t == t'
  {
    forall u: string ensures u in t.contacts <==> u in t'.contacts { assert RecordIn(t, u) == RecordIn(t', u); }
    forall u | u in t.contacts ensures Records(t)[u] == Records(t')[u] {
      assert RecordIn(t, u) == RecordIn(t', u);
    }
    assert Records(t) == Records(t');
    RecordsDetermine(t, t');
  }

  // ---- Deleting ----

  lemma DeletedRecord(t: Tables, uids: set<string>, u: string)
    ensures RecordIn(DeleteMany(t, uids), u) == if u in uids then None else RecordIn(t, u)
    ensures NoOrphans(t) ==> NoOrphans(DeleteMany(t, uids))
  {
    DeleteManyStores(t, uids);
    if u in t.contacts && u !in uids {
      assert Some(Records(DeleteMany(t, uids))[u]) == RecordIn(DeleteMany(t, uids), u);
      assert Some(Records(t)[u]) == RecordIn(t, u);
    }
  }

  /** The value of each contact that is still queued once `uids` have left the queue. */
  function Left(w: World, uids: set<string>): map<string, ContactData> {
    map u | u in w.dirty && u !in uids :: At(w, w.dirty[u])
  }

  lemma LeftIs(w: World, cs: set<Contact>)
    ensures Values(Unlink(w, cs), Unlink(w, cs).dirty) == Left(w, UidsOf(w, cs))
  {
    var u := Unlink(w, cs);
    assert forall c :: At(u, c) == At(w, c);
    assert u.dirty == w.dirty - UidsOf(w, cs);
    hide At, UidsOf, Unlink;
  }

  lemma DeleteFlushes(w: World, cs: set<Contact>)
    ensures var w' := DeleteContacts(w, cs, true, true);
      && w'.db == DeleteMany(Commit(w.db, UpdateMany(w.db, Left(w, UidsOf(w, cs))), true), UidsOf(w, cs))
      && w'.dirty == map[] && w'.byUid == w.byUid - UidsOf(w, cs)
  {
    LeftIs(w, cs);
    hide At, Tell, Forget, VisibleOf, DeleteMany, UidsOf, Values, Left, Commit;
  }

  lemma DeleteWrites(w: World, norm: Norm, cs: set<Contact>)
    requires Inv(w, norm) && Rows(w)
    ensures var uids, w' := UidsOf(w, cs), DeleteContacts(w, cs, true, true);
      && UpdateMany(w.db, Left(w, uids)).Some? && w'.db == DeleteMany(UpdateMany(w.db, Left(w, uids)).value, uids)
      && w'.dirty == map[] && w'.byUid == w.byUid - uids
  {
    hide *;
    DeleteFlushes(w, cs);
    LeftStored(w, norm, UidsOf(w, cs));
    BatchStores(w.db, Left(w, UidsOf(w, cs)));
  }

  lemma LeftStored(w: World, norm: Norm, uids: set<string>)
    requires Inv(w, norm) && Rows(w)
    ensures NoOrphans(w.db) && forall u :: u in Left(w, uids) ==> Left(w, uids)[u].name.Some? && u in w.db.contacts
  {
    forall u | u in w.dirty ensures At(w, w.dirty[u]).name.Some? { OneUid(w, norm, u, w.byUid[u]); }
    hide Inv, At;
  }

  lemma DeletedRecords(w: World, norm: Norm, cs: set<Contact>)
    requires Inv(w, norm) && Rows(w)
    ensures var uids, w' := UidsOf(w, cs), DeleteContacts(w, cs, true, true);
      && NoOrphans(w'.db) && w'.db.contacts.Keys == w'.byUid.Keys && w'.dirty == map[]
      && forall u: string :: RecordIn(w'.db, u) == if u in uids then None else Due(w, u, {})
  {
    DeleteWrites(w, norm, cs);
    var uids := UidsOf(w, cs);
    var ds := Left(w, uids);
    var t := UpdateMany(w.db, ds).value;
    UpdateManyStores(w.db, ds);
    hide Inv, At, UpdateMany, DeleteContacts, Kept, UidsOf;
    assert DeleteMany(t, uids).contacts.Keys == w.db.contacts.Keys - uids;
    DeletedRecord(t, uids, "");
    forall u: string ensures RecordIn(DeleteMany(t, uids), u) == if u in uids then None else Due(w, u, {}) {
      BatchRecords(w.db, ds, u);
      DeletedRecord(t, uids, u);
    }
  }

  /** The ideal cache agrees on all uids that are not about to go. */
  ghost predicate AgreesBut(w: World, ideal: Tables, gone: set<string>) {
    NoOrphans(ideal) && forall u: string :: u !in gone ==> RecordIn(ideal, u) == Due(w, u, {})
  }

  ghost predicate Going(b: Batch, norm: Norm, ideal: Tables) {
    && Inv(b.world, norm) && Rows(b.world) && Collected(b, norm)
    && AgreesBut(b.world, ideal, UidsOf(b.world, SetOf(b.contacts)))
  }

  lemma LeaveGoing(b: Batch, norm: Norm, ideal: Tables, handle: nat)
    requires Going(b, norm, ideal) && handle > 0
    ensures Going(Leave(b, handle), norm, ideal)
  {
    LeaveKeeps(b, norm, handle);
    if handle in b.world.byHandle {
      var c := b.world.byHandle[handle];
      var d := At(b.world, c);
      var d' := d.(pendingFlags := d.pendingFlags - {SCHEDULE_DELETE});
      assert HandleEntry(b.world, norm, handle, c);
      var w' := Put(b.world, c, d');
      assert forall x :: At(w', x).uid == At(b.world, x).uid;
      ReachedSnoc(b.world, b.contacts, c, w');
      var gone := UidsOf(b.world, SetOf(b.contacts));
      forall u | u in b.world.byUid && b.world.byUid[u] == c ensures u == d.uid { OneUid(b.world, norm, u, c); }
      hide Inv, Collected, RecordIn, Due, At;
      forall u: string | u !in gone + {d.uid} ensures RecordIn(ideal, u) == Due(w', u, {}) {
        DueElsewhere(b.world, c, d', u, {});
      }
    }
  }

  lemma {:induction false} LeaveAllGoing(b: Batch, norm: Norm, ideal: Tables, handles: seq<nat>)
    requires Going(b, norm, ideal) && 0 !in handles
    ensures Going(LeaveAll(b, handles), norm, ideal)
    decreases |handles|
  {
    hide Going, Leave;
    if handles != [] {
      assert handles[0] in handles;
      LeaveGoing(b, norm, ideal, handles[0]);
      LeaveAllGoing(Leave(b, handles[0]), norm, ideal, handles[1..]);
    }
  }

  lemma DeleteRefines(b: Batch, norm: Norm, ideal: Tables)
    requires Going(b, norm, ideal)
    ensures var cs := SetOf(b.contacts);
      Refines(DeleteContacts(b.world, cs, true, true), norm, DeleteMany(ideal, UidsOf(b.world, cs)), {})
  {
    var cs := SetOf(b.contacts);
    var uids, w' := UidsOf(b.world, cs), DeleteContacts(b.world, cs, true, true);
    DeleteKeeps(b.world, norm, cs, true, true);
    assert Rows(b.world) && AgreesBut(b.world, ideal, uids);
    hide *;
    DeletedRecords(b.world, norm, cs);
    ButParts(b.world, ideal, uids);
    DeletedRecord(ideal, uids, "");
    forall u: string ensures RecordIn(DeleteMany(ideal, uids), u) == Due(w', u, {}) {
      DeletedRecord(ideal, uids, u);
      NothingDue(w', u);
    }
    RefinesEmpty(w', norm, DeleteMany(ideal, uids));
  }

  lemma ButParts(w: World, ideal: Tables, gone: set<string>)
    requires AgreesBut(w, ideal, gone)
    ensures NoOrphans(ideal) && forall u: string :: u !in gone ==> RecordIn(ideal, u) == Due(w, u, {})
  {
    hide NoOrphans, RecordIn, Due;
  }

  lemma RefinesEmpty(w: World, norm: Norm, ideal: Tables)
    requires Inv(w, norm) && w.dirty == map[] && NoOrphans(w.db) && w.db.contacts.Keys == w.byUid.Keys
    requires NoOrphans(ideal) && forall u: string :: RecordIn(ideal, u) == Due(w, u, {})
    ensures Refines(w, norm, ideal, {})
  {
    hide Inv, NoOrphans, RecordIn, Due;
  }

  lemma LeavingRefines(w: World, norm: Norm, ideal: Tables, handles: seq<nat>)
    requires Refines(w, norm, ideal, {}) && 0 !in handles
    ensures Refines(ContactsRemoved(w, handles, true, true), norm, Written(w, ideal, Leaving(handles, true, true)), {})
  {
    var start := Batch(w, []);
    LeaveAllGoing(start, norm, ideal, handles);
    var b := LeaveAll(start, handles);
    DeleteRefines(b, norm, ideal);
    if b.contacts == [] {
      UidsCons(b.world, b.contacts);
      var none: set<string> := {};
      forall u: string ensures RecordIn(DeleteMany(ideal, none), u) == RecordIn(ideal, u) { DeletedRecord(ideal, none, u); }
      DeletedRecord(ideal, none, "");
      hide LeaveAll, Inv, Due, RecordIn, DeleteMany;
    }
  }

  // ---- Everything else ----

  /** Neither the indexes nor the queue nor the tables have changed. */
  predicate SameStore(w: World, w': World) {
    && w'.heap == w.heap && w'.byUid == w.byUid && w'.dirty == w.dirty && w'.db == w.db
  }

  lemma SameStoreRefines(w: World, norm: Norm, ideal: Tables, w': World)
    requires Refines(w, norm, ideal, {}) && Inv(w', norm) && SameStore(w, w')
    ensures Refines(w', norm, ideal, {})
  {
    assert forall c :: At(w', c) == At(w, c);
    hide Inv, RecordIn, Kept, At;
    forall u: string ensures RecordIn(ideal, u) == Due(w', u, {}) { assert Due(w', u, {}) == Due(w, u, {}); }
  }

  lemma OthersStore(w: World, inactive: bool)
    ensures SameStore(w, Notify(w)) && SameStore(w, StartView(w)) && SameStore(w, SetInactivity(w, inactive))
    ensures SameStore(w, GoOffline(w))
  {
    NotifyStore(w);
    NotifyStore(w.(inactive := inactive));
    hide Notify, VisibleOf;
  }

  lemma NotifyStore(w: World)
    ensures SameStore(w, Notify(w))
  {
    hide Tell, VisibleOf;
  }

  lemma IdleRefines(w: World, norm: Norm, ideal: Tables)
    requires Refines(w, norm, ideal, {})
    ensures Refines(IdleUpdate(w, true), norm, ideal, {})
  {
    NotifyStore(w);
    OthersKeepCoherence(w, norm, false, true);
    assert Inv(w, norm);
    hide Refines, Inv, Notify, Flush, SameStore;
    SameStoreRefines(w, norm, ideal, Notify(w));
    var told := if !w.inactive || |w.changed| > MAX_PENDING_CONTACTS then Notify(w) else w;
    FlushAgrees(told, norm, ideal);
    IdleIsLast(Flush(told, true));
    SameStoreRefines(Flush(told, true), norm, ideal, IdleUpdate(w, true));
  }

  lemma IdleIsLast(w: World)
    ensures SameStore(w, w.(idle := false))
  {}

  lemma EventRefines(w: World, norm: Norm, setup: Setup, ideal: Tables, e: Event)
    requires Refines(w, norm, ideal, {}) && Queued(e)
    ensures Refines(Happen(w, setup, e), norm, Written(w, ideal, e), {})
  {
    hide Signalled, ContactsRemoved, IdleUpdate, Notify, StartView, SetInactivity, GoOffline, Inv, SameStore;
    hide WriteReceived, LeaveAll, DeleteMany, Rows, Agrees;
    match e {
      case Changing(kind, news) => SignalledRefines(w, norm, ideal, kind, news);
      case Leaving(handles, _, _) => LeavingRefines(w, norm, ideal, handles);
      case Idling(_) => IdleRefines(w, norm, ideal);
      case Resting(inactive) =>
        OthersStore(w, inactive);
        OthersKeepCoherence(w, norm, inactive, true);
        SameStoreRefines(w, norm, ideal, SetInactivity(w, inactive));
      case _ =>
        OthersStore(w, false);
        OthersKeepCoherence(w, norm, false, true);
        SameStoreRefines(w, norm, ideal, Happen(w, setup, e));
    }
  }

  /** The run without a queue. */
  function WrittenRun(w: World, setup: Setup, ideal: Tables, events: seq<Event>): Tables
    decreases |events|
  {
    if events == [] then ideal
    else WrittenRun(Happen(w, setup, events[0]), setup, Written(w, ideal, events[0]), events[1..])
  }

  lemma {:induction false} RunRefines(w: World, norm: Norm, setup: Setup, ideal: Tables, events: seq<Event>)
    requires Refines(w, norm, ideal, {}) && forall e :: e in events ==> Queued(e)
    ensures Refines(Run(w, setup, events), norm, WrittenRun(w, setup, ideal, events), {})
    decreases |events|
  {
    hide Refines, Happen, Written;
    if events != [] {
      EventRefines(w, norm, setup, ideal, events[0]);
      RunRefines(Happen(w, setup, events[0]), norm, setup, Written(w, ideal, events[0]), events[1..]);
    }
  }

  /** Over every interleaving of changes, deletions, flushes and notifications, the cache after a
      last flush is the one that writing each persistent change at once would have left. */
  lemma WriteBehindIsInvisible(w: World, norm: Norm, setup: Setup, events: seq<Event>)
    requires Inv(w, norm) && Rows(w) && w.dirty == map[] && forall e :: e in events ==> Queued(e)
    ensures Flush(Run(w, setup, events), true).db == WrittenRun(w, setup, w.db, events)
  {
    forall u: string ensures RecordIn(w.db, u) == Due(w, u, {}) { NothingDue(w, u); }
    hide Inv, RecordIn, Due, Flush, Run, WrittenRun, Queued;
    RunRefines(w, norm, setup, w.db, events);
    FlushAgrees(Run(w, setup, events), norm, WrittenRun(w, setup, w.db, events));
  }

  // ---- Deleted contacts ----

  /** The same events, whether or not the storage carries the writes out. */
  predicate Ordinary(e: Event) {
    e.Changing? || e.Leaving? || e.Idling? || e.Notifying? || e.Viewing? || e.Resting? || e.Disconnecting?
  }

  lemma ManyKeys(db: Tables, ds: map<string, ContactData>, done: bool)
    ensures Commit(db, UpdateMany(db, ds), done).contacts.Keys == db.contacts.Keys
  {}

  lemma FlushKeys(w: World, flushed: bool)
    ensures Flush(w, flushed).db.contacts.Keys == w.db.contacts.Keys
  {
    ManyKeys(w.db, Values(w, w.dirty), flushed);
    hide Commit, UpdateMany, Values;
  }

  lemma DeleteLosesRows(w: World, cs: set<Contact>, flushed: bool, removed: bool)
    ensures DeleteContacts(w, cs, flushed, removed).db.contacts.Keys
         == if removed then w.db.contacts.Keys - UidsOf(w, cs) else w.db.contacts.Keys
  {
    FlushKeys(Unlink(w, cs), flushed);
    hide Flush, Tell, Forget, VisibleOf, UidsOf;
  }

  lemma {:induction false} BatchesKeepRows(b: Batch, kind: Kind, news: seq<ContactData>, handles: seq<nat>)
    ensures ReceiveAll(b, kind, news).world.db == b.world.db
    ensures LeaveAll(b, handles).world.db == b.world.db
    decreases |news| + |handles|
  {
    if news != [] { BatchesKeepRows(Receive(b, kind, news[0]), kind, news[1..], []); }
    if handles != [] { BatchesKeepRows(Leave(b, handles[0]), kind, [], handles[1..]); }
  }

  lemma SignalsKeepRows(w: World, kind: Kind, news: seq<ContactData>)
    ensures Signalled(w, kind, news).db == w.db
  {
    var b := ReceiveAll(Batch(w, []), kind, news);
    BatchesKeepRows(Batch(w, []), kind, news, []);
    QueueAllTouches(b.world, b.contacts, Persists(kind));
    hide ReceiveAll, QueueAll;
  }

  lemma LeaversLoseRows(w: World, handles: seq<nat>, flushed: bool, removed: bool)
    ensures ContactsRemoved(w, handles, flushed, removed).db.contacts.Keys <= w.db.contacts.Keys
  {
    var b := LeaveAll(Batch(w, []), handles);
    BatchesKeepRows(Batch(w, []), AliasKind, [], handles);
    DeleteLosesRows(b.world, SetOf(b.contacts), flushed, removed);
    hide LeaveAll, DeleteContacts, UidsOf;
  }

  lemma IdleKeepsRows(w: World, flushed: bool)
    ensures IdleUpdate(w, flushed).db.contacts.Keys == w.db.contacts.Keys
  {
    NotifyKeepsDb(w);
    FlushKeys(w, flushed);
    FlushKeys(Notify(w), flushed);
    hide Notify, Flush;
  }

  lemma OrdinaryKeepsRowsAway(w: World, setup: Setup, e: Event)
    requires Ordinary(e)
    ensures Happen(w, setup, e).db.contacts.Keys <= w.db.contacts.Keys
  {
    hide Signalled, ContactsRemoved, IdleUpdate, Notify, Load, GetMembers, Phase2, Phase3, ContactsAdded, Create;
    hide RemoveContacts, VisibleOf;
    match e {
      case Changing(kind, news) => SignalsKeepRows(w, kind, news);
      case Leaving(handles, flushed, removed) => LeaversLoseRows(w, handles, flushed, removed);
      case Idling(flushed) => IdleKeepsRows(w, flushed);
      case Resting(inactive) => NotifyKeepsDb(w.(inactive := inactive));
      case _ => NotifyKeepsDb(w);
    }
  }

  lemma NotifyKeepsDb(w: World)
    ensures Notify(w).db == w.db
  {
    hide Tell, VisibleOf;
  }

  /** A uid that has no row never gets one back from these events, whatever is still queued and
      whatever the storage answers: a deleted contact is not written back. */
  lemma {:induction false} DeletedStaysDeleted(w: World, setup: Setup, events: seq<Event>)
    requires forall e :: e in events ==> Ordinary(e)
    ensures Run(w, setup, events).db.contacts.Keys <= w.db.contacts.Keys
    decreases |events|
  {
    hide Happen;
    if events != [] {
      OrdinaryKeepsRowsAway(w, setup, events[0]);
      DeletedStaysDeleted(Happen(w, setup, events[0]), setup, events[1..]);
    }
  }

  /** When contacts come in, their changes are queued and the idle that would flush them is
      cancelled by the notification that follows: the queue is left with nobody to flush it. */
  lemma ArrivalStrandsQueue(w: World, path: string, arrivals: seq<Arrival>, flushed: bool, stored: bool)
    requires arrivals != []
    ensures var w' := ContactsAdded(w, path, arrivals, flushed, stored); w'.dirty != map[] && !w'.idle
  {
    var s := TakeInAll(Intake(w, [], []), path, arrivals);
    TakenIn(Intake(w, [], []), path, arrivals);
    var kept := StoreNew(Flush(s.world, flushed), s.toAdd, stored);
    QueueAllGrows(kept, s.toUpdate);
    hide TakeInAll, QueueAll, Flush, Tell, VisibleOf;
  }

  lemma {:induction false} TakenIn(s: Intake, path: string, arrivals: seq<Arrival>)
    ensures |TakeInAll(s, path, arrivals).toUpdate| == |s.toUpdate| + |arrivals|
    decreases |arrivals|
  {
    if arrivals != [] { TakenIn(TakeIn(s, path, arrivals[0]), path, arrivals[1..]); }
  }

  lemma {:induction false} QueueAllGrows(w: World, cs: seq<Contact>)
    ensures w.dirty.Keys <= QueueAll(w, cs, true).dirty.Keys
    ensures cs != [] ==> At(w, cs[0]).uid in QueueAll(w, cs, true).dirty
    decreases |cs|
  {
    if cs != [] { QueueAllGrows(Queue(w, cs[0], true), cs[1..]); }
  }
}
