/** What every table of the backend keeps: it holds contact objects the backend has, and a table keyed
    by uid has each contact under its own uid. */
module Soundness {
  import opened Text
  import opened Flags
  import opened ContactValues
  import opened Contacts
  import opened VCards
  import opened MasterProtocol
  import opened Store
  import opened StoreBatches
  import opened Uids
  import opened Worlds

  predicate Keyed(w: World, m: map<string, Contact>) {
    forall u :: u in m ==> m[u] in w.heap && At(w, m[u]).uid == u
  }

  predicate Sound(w: World) {
    && Keyed(w, w.byUid) && Keyed(w, w.toAdd) && Keyed(w, w.toUpdate) && Keyed(w, w.toDelete)
    && Keyed(w, w.dirty) && Keyed(w, w.changed)
    && (forall n :: n in w.byName ==> w.byName[n] in w.heap)
    && (forall h :: h in w.byHandle ==> w.byHandle[h] in w.heap)
  }

  /** A contact may change as long as it keeps its uid; a new one may come. */
  predicate SameUids(w: World, w': World) {
    forall c :: c in w.heap ==> c in w'.heap && At(w', c).uid == At(w, c).uid
  }

  lemma KeyedStays(w: World, w': World, m: map<string, Contact>, m': map<string, Contact>)
    requires Keyed(w, m) && SameUids(w, w')
    requires forall u :: u in m' ==> (u in m && m'[u] == m[u]) || (m'[u] in w'.heap && At(w', m'[u]).uid == u)
    ensures Keyed(w', m')
  {
    hide At;
  }

  lemma PutSameUids(w: World, c: Contact, d: ContactData)
    requires c in w.heap ==> d.uid == At(w, c).uid
    ensures SameUids(w, Put(w, c, d))
  {}

  lemma PutSound(w: World, c: Contact, d: ContactData)
    requires Sound(w) && (c in w.heap ==> d.uid == At(w, c).uid)
    ensures Sound(Put(w, c, d))
  {
    PutSameUids(w, c, d);
    var w' := Put(w, c, d);
    KeyedStays(w, w', w.byUid, w.byUid);
    KeyedStays(w, w', w.toAdd, w.toAdd);
    KeyedStays(w, w', w.toUpdate, w.toUpdate);
    KeyedStays(w, w', w.toDelete, w.toDelete);
    KeyedStays(w, w', w.dirty, w.dirty);
    KeyedStays(w, w', w.changed, w.changed);
    hide Keyed, At;
  }

  predicate Sub<K(==), V(==)>(m': map<K, V>, m: map<K, V>) {
    forall k :: k in m' ==> k in m && m'[k] == m[k]
  }

  /** Tables may lose entries. */
  predicate Shrunk(w: World, w': World) {
    && w'.heap == w.heap
    && Sub(w'.byUid, w.byUid) && Sub(w'.byName, w.byName) && Sub(w'.byHandle, w.byHandle)
    && Sub(w'.toAdd, w.toAdd) && Sub(w'.toUpdate, w.toUpdate) && Sub(w'.toDelete, w.toDelete)
    && Sub(w'.dirty, w.dirty) && Sub(w'.changed, w.changed)
  }

  lemma ShrunkSound(w: World, w': World)
    requires Sound(w) && Shrunk(w, w')
    ensures Sound(w')
  {
    assert forall c :: At(w', c) == At(w, c);
    hide At;
  }

  // ---- Hash tables in the order in which they are gone through ----

  /** The keys of a table, each once. */
  ghost predicate Lists(keys: seq<string>, m: map<string, Contact>) {
    NoDuplicates(keys) && forall u :: u in keys <==> u in m
  }

  function Under(m: map<string, Contact>, keys: seq<string>): (cs: seq<Contact>)
    requires forall u :: u in keys ==> u in m
    ensures |cs| == |keys|
  {
    seq(|keys|, i requires 0 <= i < |keys| => m[keys[i]])
  }

  lemma UnderKnown(w: World, m: map<string, Contact>, keys: seq<string>)
    requires Keyed(w, m) && Lists(keys, m)
    ensures forall c :: c in Under(m, keys) ==> c in w.heap
  {}

  /** A batch in any order is the table by uid. */
  lemma BatchIsTable(w: World, m: map<string, Contact>, keys: seq<string>)
    requires Keyed(w, m) && Lists(keys, m)
    ensures DistinctUids(DataAt(w, Under(m, keys))) && ByUid(DataAt(w, Under(m, keys))) == Values(w, m)
  {
    var ds := DataAt(w, Under(m, keys));
    forall i | 0 <= i < |keys| ensures ds[i] == At(w, m[keys[i]]) && ds[i].uid == keys[i] {}
    assert DistinctUids(ds);
    hide At;
    forall u | u in m ensures u in ByUid(ds) && ByUid(ds)[u] == Values(w, m)[u] {
      var i :| 0 <= i < |keys| && keys[i] == u;
      ByUidHolds(ds, i);
    }
    forall u | u in ByUid(ds) ensures u in m {
      var i :| 0 <= i < |ds| && ds[i].uid == u;
      assert keys[i] in keys;
    }
  }

  lemma FlushNothing(w: World)
    requires w.dirty == map[]
    ensures Flush(w, true) == w
  {
    UpdateNone(w.db);
    assert Values(w, w.dirty) == map[];
  }

  lemma FlushParts(w: World, done: bool)
    ensures var w' := Flush(w, done);
      && w'.heap == w.heap && w'.byUid == w.byUid && w'.byName == w.byName && w'.byHandle == w.byHandle
      && w'.toAdd == w.toAdd && w'.toUpdate == w.toUpdate && w'.toDelete == w.toDelete
      && w'.dirty == map[] && w'.changed == w.changed && w'.idle == w.idle
      && w'.inactive == w.inactive && w'.ready == w.ready && w'.views == w.views
      && w'.db == Commit(w.db, UpdateMany(w.db, Values(w, w.dirty)), done)
  {
    hide Commit, Values;
  }

  lemma FlushSound(w: World, done: bool)
    requires Sound(w)
    ensures Sound(Flush(w, done))
  {
    hide Commit, Values, Sound;
    ShrunkSound(w, Flush(w, done));
  }

  // ---- Telling views ----

  /** What the views hear of the first keys of a table. */
  function NewsUnder(w: World, m: map<string, Contact>, keys: seq<string>): View {
    map u | u in keys && u in m && Visible(At(w, m[u])) :: At(w, m[u])
  }

  lemma TellNothing(views: seq<View>)
    ensures Tell(views, map[]) == views
  {
    forall i | 0 <= i < |views| ensures Tell(views, map[])[i] == views[i] { assert views[i] + map[] == views[i]; }
  }

  lemma TellNobody(views: seq<View>, news: View)
    ensures views == [] ==> Tell(views, news) == views
  {}

  lemma TellTwice(views: seq<View>, a: View, b: View)
    ensures Tell(Tell(views, a), b) == Tell(views, a + b)
  {
    forall i | 0 <= i < |views| ensures views[i] + a + b == views[i] + (a + b) {}
  }

  lemma NewsSnoc(w: World, m: map<string, Contact>, keys: seq<string>, i: nat)
    requires i < |keys| && keys[i] in m
    ensures NewsUnder(w, m, keys[..i + 1]) ==
      NewsUnder(w, m, keys[..i]) + (if Visible(At(w, m[keys[i]])) then map[keys[i] := At(w, m[keys[i]])] else map[])
  {
    assert keys[..i + 1] == keys[..i] + [keys[i]];
    hide At, Visible;
  }

  lemma NewsAll(w: World, m: map<string, Contact>, keys: seq<string>)
    requires Lists(keys, m)
    ensures NewsUnder(w, m, keys) == VisibleOf(w, m) && NewsUnder(w, m, []) == map[]
  {
    hide At, Visible;
  }

  lemma NotifyParts(w: World)
    ensures var w' := Notify(w);
      && w'.heap == w.heap && w'.byUid == w.byUid && w'.byName == w.byName && w'.byHandle == w.byHandle
      && w'.toAdd == w.toAdd && w'.toUpdate == w.toUpdate && w'.toDelete == w.toDelete
      && w'.dirty == w.dirty && w'.changed == map[] && !w'.idle
      && w'.inactive == w.inactive && w'.ready == w.ready && w'.views == Tell(w.views, VisibleOf(w, w.changed))
      && w'.db == w.db
  {
    hide Tell, VisibleOf;
  }

  lemma NotifySound(w: World)
    requires Sound(w)
    ensures Sound(Notify(w))
  {
    hide Tell, VisibleOf, Sound;
    ShrunkSound(w, Notify(w));
  }

  // ---- Queueing and deleting ----

  lemma QueueParts(w: World, c: Contact, persist: bool)
    ensures var w', uid := Queue(w, c, persist), At(w, c).uid;
      && w'.heap == w.heap && w'.byUid == w.byUid && w'.byName == w.byName && w'.byHandle == w.byHandle
      && w'.toAdd == w.toAdd && w'.toUpdate == w.toUpdate && w'.toDelete == w.toDelete
      && w'.dirty == (if !persist || uid in w.dirty then w.dirty else w.dirty[uid := c])
      && w'.changed == (if uid in w.changed then w.changed else w.changed[uid := c]) && w'.idle == w.idle
      && w'.inactive == w.inactive && w'.ready == w.ready && w'.views == w.views && w'.db == w.db
  {
    hide At;
  }

  lemma QueueSound(w: World, c: Contact, persist: bool)
    requires Sound(w) && c in w.heap
    ensures Sound(Queue(w, c, persist))
  {
    var w' := Queue(w, c, persist);
    QueueParts(w, c, persist);
    assert forall x :: At(w', x) == At(w, x);
    hide At, Queue;
  }

  lemma QueueAllStep(w: World, cs: seq<Contact>, persist: bool, i: nat)
    requires i <= |cs|
    ensures i < |cs| ==> QueueAll(w, cs[i..], persist) == QueueAll(Queue(w, cs[i], persist), cs[i + 1..], persist)
    ensures i == |cs| ==> QueueAll(w, cs[i..], persist) == w
  {
    if i < |cs| { assert cs[i..][0] == cs[i] && cs[i..][1..] == cs[i + 1..]; }
  }

  lemma AllOf<T>(s: seq<T>)
    ensures s[0..] == s && s[..|s|] == s && s[|s|..] == [] && s[..0] == []
  {}

  lemma UnlinkParts(w: World, cs: set<Contact>)
    ensures var w', uids := Unlink(w, cs), UidsOf(w, cs);
      && w'.heap == w.heap && w'.byUid == w.byUid - uids && w'.byName == w.byName - NamesOf(w, cs)
      && w'.byHandle == w.byHandle - HandlesOf(w, cs)
      && w'.toAdd == w.toAdd && w'.toUpdate == w.toUpdate && w'.toDelete == w.toDelete
      && w'.dirty == w.dirty - uids && w'.changed == w.changed - uids && w'.idle == w.idle
      && w'.inactive == w.inactive && w'.ready == w.ready && w'.views == w.views && w'.db == w.db
  {
    hide UidsOf, NamesOf, HandlesOf;
  }

  lemma UnlinkSound(w: World, cs: set<Contact>)
    requires Sound(w)
    ensures Sound(Unlink(w, cs))
  {
    UnlinkParts(w, cs);
    hide Sound, Unlink, UidsOf, NamesOf, HandlesOf;
    ShrunkSound(w, Unlink(w, cs));
  }

  function NameSetOf(d: ContactData): set<string> {
    if d.name.Some? then {d.name.value} else {}
  }

  function HandleSetOf(d: ContactData): set<nat> {
    if d.handle > 0 then {d.handle} else {}
  }

  /** The keys of the first contacts of a list, one contact more. */
  lemma KeysSnoc(w: World, cs: seq<Contact>, i: nat)
    requires i < |cs|
    ensures var s, s', d := SetOf(cs[..i]), SetOf(cs[..i + 1]), At(w, cs[i]);
      && UidsOf(w, s') == UidsOf(w, s) + {d.uid}
      && NamesOf(w, s') == NamesOf(w, s) + NameSetOf(d)
      && HandlesOf(w, s') == HandlesOf(w, s) + HandleSetOf(d)
  {
    assert cs[..i + 1] == cs[..i] + [cs[i]];
    assert SetOf(cs[..i + 1]) == SetOf(cs[..i]) + {cs[i]};
    hide At, SetOf;
  }

  lemma KeysNone(w: World)
    ensures UidsOf(w, SetOf([])) == {} && NamesOf(w, SetOf([])) == {} && HandlesOf(w, SetOf([])) == {}
  {
    assert SetOf([]) == {};
  }

  /** The end of a deletion, after the flush and the notification. */
  function Erased(w: World, uids: set<string>, removed: bool): World {
    w.(db := if removed then DeleteMany(w.db, uids) else w.db, views := Forget(w.views, uids))
  }

  lemma DeleteIs(w: World, cs: set<Contact>, flushed: bool, removed: bool)
    ensures DeleteContacts(w, cs, flushed, removed)
         == Erased(Notify(Flush(Unlink(w, cs), flushed)), UidsOf(w, cs), removed)
  {}

  lemma ErasedParts(w: World, uids: set<string>, removed: bool)
    ensures var w' := Erased(w, uids, removed);
      && w'.heap == w.heap && w'.byUid == w.byUid && w'.byName == w.byName && w'.byHandle == w.byHandle
      && w'.toAdd == w.toAdd && w'.toUpdate == w.toUpdate && w'.toDelete == w.toDelete
      && w'.dirty == w.dirty && w'.changed == w.changed && w'.idle == w.idle
      && w'.inactive == w.inactive && w'.ready == w.ready && w'.views == Forget(w.views, uids)
      && w'.db == if removed then DeleteMany(w.db, uids) else w.db
  {
    hide Forget, DeleteMany;
  }

  lemma ErasedSound(w: World, uids: set<string>, removed: bool)
    requires Sound(w)
    ensures Sound(Erased(w, uids, removed))
  {
    ErasedParts(w, uids, removed);
    hide Sound, Erased;
    ShrunkSound(w, Erased(w, uids, removed));
  }

  lemma ForgetNothing(views: seq<View>)
    ensures Forget(views, {}) == views
  {
    forall i | 0 <= i < |views| ensures Forget(views, {})[i] == views[i] { assert views[i] - {} == views[i]; }
  }

  lemma ForgetMore(views: seq<View>, uids: seq<string>, i: nat)
    requires i < |uids|
    ensures Forget(Forget(views, ToSet(uids[..i])), {uids[i]}) == Forget(views, ToSet(uids[..i + 1]))
  {
    assert uids[..i + 1] == uids[..i] + [uids[i]];
    assert ToSet(uids[..i + 1]) == ToSet(uids[..i]) + {uids[i]};
    forall k | 0 <= k < |views| ensures views[k] - ToSet(uids[..i]) - {uids[i]} == views[k] - ToSet(uids[..i + 1]) {}
  }

  lemma MinusTwice<K, V>(m: map<K, V>, a: set<K>, b: set<K>)
    ensures m - a - b == m - (a + b)
  {}

  lemma MinusNone<K, V>(m: map<K, V>, none: set<K>)
    requires none == {}
    ensures m - none == m
  {}

  // ---- Switches, views, signals ----

  /** A change of switches, views or the handle table. */
  function Switched(w: World, idle: bool, inactive: bool, ready: bool, views: seq<View>, byHandle: map<nat, Contact>): World {
    w.(idle := idle, inactive := inactive, ready := ready, views := views, byHandle := byHandle)
  }

  lemma SwitchedParts(w: World, idle: bool, inactive: bool, ready: bool, views: seq<View>, byHandle: map<nat, Contact>)
    ensures var w' := Switched(w, idle, inactive, ready, views, byHandle);
      && w'.heap == w.heap && w'.byUid == w.byUid && w'.byName == w.byName && w'.byHandle == byHandle
      && w'.toAdd == w.toAdd && w'.toUpdate == w.toUpdate && w'.toDelete == w.toDelete
      && w'.dirty == w.dirty && w'.changed == w.changed && w'.idle == idle
      && w'.inactive == inactive && w'.ready == ready && w'.views == views && w'.db == w.db
  {}

  lemma SwitchedSound(w: World, idle: bool, inactive: bool, ready: bool, views: seq<View>, byHandle: map<nat, Contact>)
    requires Sound(w) && Sub(byHandle, w.byHandle)
    ensures Sound(Switched(w, idle, inactive, ready, views, byHandle))
  {
    SwitchedParts(w, idle, inactive, ready, views, byHandle);
    hide Sound, Switched;
    ShrunkSound(w, Switched(w, idle, inactive, ready, views, byHandle));
  }

  lemma SubSelf<K, V>(m: map<K, V>)
    ensures Sub(m, m) && Sub(map[], m)
  {}

  lemma SwitchesAre(w: World, flushed: bool, inactive: bool)
    ensures IdleUpdate(w, flushed) ==
      var told := if !w.inactive || |w.changed| > MAX_PENDING_CONTACTS then Notify(w) else w;
      var f := Flush(told, flushed);
      Switched(f, false, f.inactive, f.ready, f.views, f.byHandle)
    ensures GoOffline(w) == Switched(w, w.idle, w.inactive, w.ready, w.views, map[])
    ensures SetInactivity(w, inactive) ==
      if inactive == w.inactive then w
      else
        var now := Switched(w, w.idle, inactive, w.ready, w.views, w.byHandle);
        if !inactive && |w.changed| > 0 then Notify(now) else now
    ensures StartView(w) ==
      var t := Notify(w);
      Switched(t, t.idle, t.inactive, t.ready, t.views + [if t.ready then VisibleOf(t, t.byUid) else map[]], t.byHandle)
  {
    hide Notify, Flush, VisibleOf;
  }

  lemma UpdateContactsIs(w: World, cs: seq<Contact>, persist: bool)
    ensures var q := QueueAll(w, cs, persist);
      Worlds.UpdateContacts(w, cs, persist) == Switched(q, true, q.inactive, q.ready, q.views, q.byHandle)
  {
    hide QueueAll;
  }


  lemma PutParts(w: World, c: Contact, d: ContactData)
    ensures var w' := Put(w, c, d);
      && w'.heap == w.heap[c := d] && w'.byUid == w.byUid && w'.byName == w.byName && w'.byHandle == w.byHandle
      && w'.toAdd == w.toAdd && w'.toUpdate == w.toUpdate && w'.toDelete == w.toDelete
      && w'.dirty == w.dirty && w'.changed == w.changed && w'.idle == w.idle
      && w'.inactive == w.inactive && w'.ready == w.ready && w'.views == w.views && w'.db == w.db
  {}

  lemma ReceiveIs(w: World, cs: seq<Contact>, kind: Kind, news: ContactData)
    requires Sound(w)
    ensures news.handle !in w.byHandle ==> Receive(Batch(w, cs), kind, news) == Batch(w, cs)
    ensures news.handle in w.byHandle ==>
      var c := w.byHandle[news.handle];
      var d := Received(kind, At(w, c), news);
      && c in w.heap && d.uid == At(w, c).uid
      && Receive(Batch(w, cs), kind, news) == Batch(Put(w, c, d), cs + [c])
  {
    hide At;
  }

  lemma ReceiveAllStep(b: Batch, kind: Kind, news: seq<ContactData>, i: nat)
    requires i <= |news|
    ensures i < |news| ==> ReceiveAll(b, kind, news[i..]) == ReceiveAll(Receive(b, kind, news[i]), kind, news[i + 1..])
    ensures i == |news| ==> ReceiveAll(b, kind, news[i..]) == b
  {
    if i < |news| { assert news[i..][0] == news[i] && news[i..][1..] == news[i + 1..]; }
  }

  lemma SignalledIs(w: World, kind: Kind, news: seq<ContactData>)
    ensures Signalled(w, kind, news) ==
      var b := ReceiveAll(Batch(w, []), kind, news);
      if b.contacts == [] then b.world else Worlds.UpdateContacts(b.world, b.contacts, Persists(kind))
  {}

  lemma LeaveIs(w: World, cs: seq<Contact>, handle: nat)
    requires Sound(w)
    ensures handle !in w.byHandle ==> Leave(Batch(w, cs), handle) == Batch(w, cs)
    ensures handle in w.byHandle ==>
      var c := w.byHandle[handle];
      var d := At(w, c);
      && c in w.heap
      && Leave(Batch(w, cs), handle) == Batch(Put(w, c, d.(pendingFlags := d.pendingFlags - {SCHEDULE_DELETE})), cs + [c])
  {
    hide At;
  }

  lemma LeaveAllStep(b: Batch, handles: seq<nat>, i: nat)
    requires i <= |handles|
    ensures i < |handles| ==> LeaveAll(b, handles[i..]) == LeaveAll(Leave(b, handles[i]), handles[i + 1..])
    ensures i == |handles| ==> LeaveAll(b, handles[i..]) == b
  {
    if i < |handles| { assert handles[i..][0] == handles[i] && handles[i..][1..] == handles[i + 1..]; }
  }

  lemma ContactsRemovedIs(w: World, handles: seq<nat>, flushed: bool, removed: bool)
    ensures ContactsRemoved(w, handles, flushed, removed) ==
      var b := LeaveAll(Batch(w, []), handles);
      if b.contacts == [] then b.world else Worlds.DeleteContacts(b.world, SetOf(b.contacts), flushed, removed)
  {}

  // ---- Arrivals ----

  /** A contact was put in, and some tables got an entry for it. */
  function Entered(w: World, c: Contact, d: ContactData, byName: map<string, Contact>, byHandle: map<nat, Contact>): World {
    Put(w, c, d).(byUid := w.byUid[d.uid := c], byName := byName, byHandle := byHandle)
  }

  lemma EnteredParts(w: World, c: Contact, d: ContactData, byName: map<string, Contact>, byHandle: map<nat, Contact>)
    ensures var w' := Entered(w, c, d, byName, byHandle);
      && w'.heap == w.heap[c := d] && w'.byUid == w.byUid[d.uid := c] && w'.byName == byName && w'.byHandle == byHandle
      && w'.toAdd == w.toAdd && w'.toUpdate == w.toUpdate && w'.toDelete == w.toDelete
      && w'.dirty == w.dirty && w'.changed == w.changed && w'.idle == w.idle
      && w'.inactive == w.inactive && w'.ready == w.ready && w'.views == w.views && w'.db == w.db
  {}

  /** Entries that are old or lead to the contact. */
  predicate With<K(==)>(m: map<K, Contact>, m': map<K, Contact>, c: Contact) {
    forall k :: k in m' ==> (k in m && m'[k] == m[k]) || m'[k] == c
  }

  lemma EnteredSound(w: World, c: Contact, d: ContactData, byName: map<string, Contact>, byHandle: map<nat, Contact>)
    requires Sound(w) && (c in w.heap ==> d.uid == At(w, c).uid)
    requires With(w.byName, byName, c) && With(w.byHandle, byHandle, c)
    ensures Sound(Entered(w, c, d, byName, byHandle))
  {
    var w' := Entered(w, c, d, byName, byHandle);
    EnteredParts(w, c, d, byName, byHandle);
    EnteredUids(w, c, d, w');
    hide Keyed, At, Entered, SameUids, With;
    KeyedStays(w, w', w.byUid, w'.byUid);
    KeyedStays(w, w', w.toAdd, w.toAdd);
    KeyedStays(w, w', w.toUpdate, w.toUpdate);
    KeyedStays(w, w', w.toDelete, w.toDelete);
    KeyedStays(w, w', w.dirty, w.dirty);
    KeyedStays(w, w', w.changed, w.changed);
    WithKnown(w.byName, byName, c, w'.heap.Keys);
    WithKnown(w.byHandle, byHandle, c, w'.heap.Keys);
  }

  lemma EnteredUids(w: World, c: Contact, d: ContactData, w': World)
    requires w'.heap == w.heap[c := d] && (c in w.heap ==> d.uid == At(w, c).uid)
    ensures SameUids(w, w') && At(w', c).uid == d.uid && c in w'.heap
  {}

  lemma WithKnown<K>(m: map<K, Contact>, m': map<K, Contact>, c: Contact, known: set<Contact>)
    requires With(m, m', c) && c in known && forall k :: k in m ==> m[k] in known
    ensures forall k :: k in m' ==> m'[k] in known
  {}

  lemma WithInsert<K>(m: map<K, Contact>, k: K, c: Contact)
    ensures With(m, m[k := c], c) && With(m, m, c)
  {}

  /** What one arrival does, by whether its name is known. */
  lemma TakeInIs(s: Intake, path: string, a: Arrival)
    requires Sound(s.world)
    ensures NameOf(a.data) in s.world.byName ==>
      var w, c := s.world, s.world.byName[NameOf(a.data)];
      var d := AddKnown(At(w, c), a.data);
      && c in w.heap && d.uid == At(w, c).uid && d.handle == a.data.handle
      && TakeIn(s, path, a) == Intake(Entered(w, c, d, w.byName, w.byHandle[d.handle := c]), s.toAdd, s.toUpdate + [c])
    ensures NameOf(a.data) !in s.world.byName ==>
      var w, d := s.world, WithUid(s.world, path, a.data);
      && d.handle == a.data.handle
      && TakeIn(s, path, a) == Intake(Entered(w, a.id, d, w.byName[NameOf(a.data) := a.id], w.byHandle[d.handle := a.id]),
                                      s.toAdd + [a.id], s.toUpdate + [a.id])
  {
    hide At, NameOf, FreshUid;
  }

  lemma TakeInAllStep(s: Intake, path: string, arrivals: seq<Arrival>, a: Arrival)
    ensures TakeInAll(s, path, arrivals + [a]) == TakeIn(TakeInAll(s, path, arrivals), path, a)
    decreases |arrivals|
  {
    hide TakeIn;
    if arrivals == [] {
      assert [] + [a] == [a] && [a][1..] == [];
    } else {
      assert (arrivals + [a])[1..] == arrivals[1..] + [a];
      TakeInAllStep(TakeIn(s, path, arrivals[0]), path, arrivals[1..], a);
    }
  }

  /** Names keep their objects, new names have objects of their own, and those of `arrivals` are known. */
  predicate Named(w0: World, arrivals: seq<Arrival>, w: World) {
    && (forall n :: n in w0.byName ==> n in w.byName && w.byName[n] == w0.byName[n])
    && (forall n :: n in w.byName && n !in w0.byName ==> w.byName[n] !in w0.heap)
    && (forall m, n :: m in w.byName && n in w.byName && n !in w0.byName && m != n ==> w.byName[m] != w.byName[n])
    && (forall a :: a in arrivals ==> NameOf(a.data) in w.byName && w.byName[NameOf(a.data)] == a.id)
  }

  lemma NamedNone(w: World)
    ensures Named(w, [], w)
  {}

  lemma NamedMore(w0: World, arrivals: seq<Arrival>, w: World, a: Arrival, w': World)
    requires Named(w0, arrivals, w) && Sound(w) && w0.heap.Keys <= w.heap.Keys && Placed(w, a)
    requires w'.byName == if NameOf(a.data) in w.byName then w.byName else w.byName[NameOf(a.data) := a.id]
    ensures Named(w0, arrivals + [a], w')
  {
    hide Keyed, NameOf;
    assert forall n :: n in w.byName ==> w.byName[n] in w.heap;
  }

  lemma NamedIdentified(w0: World, arrivals: seq<Arrival>, w: World)
    requires Named(w0, arrivals, w)
    ensures Identified(w0, arrivals)
  {
    hide NameOf;
    forall i | 0 <= i < |arrivals| ensures Placed(w0, arrivals[i]) { assert arrivals[i] in arrivals; }
    forall i, j | 0 <= i < j < |arrivals| ensures Together(w0, arrivals[i], arrivals[j]) {
      assert arrivals[i] in arrivals && arrivals[j] in arrivals;
    }
  }

  lemma NamedInHeap(w0: World, arrivals: seq<Arrival>, w: World)
    requires Named(w0, arrivals, w) && Sound(w)
    ensures forall a :: a in arrivals ==> a.id in w.heap
  {
    hide Keyed, NameOf;
  }

  lemma PlacedKnown(w: World, a: Arrival)
    requires NameOf(a.data) in w.byName && a.id == w.byName[NameOf(a.data)]
    ensures Placed(w, a)
  {}

  lemma PlacedNew(w: World, a: Arrival)
    requires NameOf(a.data) !in w.byName && a.id !in w.heap
    ensures Placed(w, a)
  {}

  /** An arrival gives a name to its object if nobody has it. */
  lemma TakeInNames(s: Intake, path: string, a: Arrival)
    ensures var before, after := s.world.byName, TakeIn(s, path, a).world.byName;
      after == if NameOf(a.data) in before then before else before[NameOf(a.data) := a.id]
  {
    hide At, NameOf, FreshUid;
  }

  lemma IndexHandleNames(w: World, handle: nat, c: Contact)
    ensures IndexHandle(w, handle, c).byName == w.byName
  {}

  lemma MeetNames(s: Intake, path: string, a: Arrival)
    requires Sound(s.world)
    ensures var before, after := s.world.byName, Meet(s, path, a).world.byName;
      after == if NameOf(a.data) in before then before else before[NameOf(a.data) := a.id]
  {
    hide *;
    var w, name := s.world, NameOf(a.data);
    MeetIs(s, path, a);
    if name in w.byName {
      var c := w.byName[name];
      PutParts(w, c, Refreshed(At(w, c), a.data));
      IndexHandleNames(Put(w, c, Refreshed(At(w, c), a.data)), a.data.handle, c);
    } else {
      var d := WithUid(w, path, a.data);
      EnteredParts(w, a.id, d, w.byName[name := a.id], w.byHandle);
      IndexHandleNames(Entered(w, a.id, d, w.byName[name := a.id], w.byHandle), a.data.handle, a.id);
    }
  }

  lemma ContactsAddedIs(w: World, path: string, arrivals: seq<Arrival>, flushed: bool, stored: bool)
    ensures ContactsAdded(w, path, arrivals, flushed, stored) ==
      var s := TakeInAll(Intake(w, [], []), path, arrivals);
      var kept := StoreNew(Flush(s.world, flushed), s.toAdd, stored);
      Notify(if s.toUpdate == [] then kept else Worlds.UpdateContacts(kept, s.toUpdate, true))
  {}

  /** Only the tables of the cache change. */
  function WithDb(w: World, db: Tables): World {
    w.(db := db)
  }

  lemma WithDbParts(w: World, db: Tables)
    ensures var w' := WithDb(w, db);
      && w'.heap == w.heap && w'.byUid == w.byUid && w'.byName == w.byName && w'.byHandle == w.byHandle
      && w'.toAdd == w.toAdd && w'.toUpdate == w.toUpdate && w'.toDelete == w.toDelete
      && w'.dirty == w.dirty && w'.changed == w.changed && w'.idle == w.idle
      && w'.inactive == w.inactive && w'.ready == w.ready && w'.views == w.views && w'.db == db
  {}

  lemma WithDbSound(w: World, db: Tables)
    requires Sound(w)
    ensures Sound(WithDb(w, db))
  {
    WithDbParts(w, db);
    hide Sound, WithDb;
    ShrunkSound(w, WithDb(w, db));
  }

  lemma StoresAre(w: World, cs: seq<Contact>, stored: bool)
    ensures StoreNew(w, cs, stored) == WithDb(w, Commit(w.db, AddAll(w.db, DataAt(w, cs)), stored))
    ensures StoreChanged(w, cs, stored) == WithDb(w, Commit(w.db, UpdateAll(w.db, DataAt(w, cs)), stored))
  {}

  lemma StoreNothing(w: World, stored: bool)
    ensures StoreNew(w, [], stored) == w && StoreChanged(w, [], stored) == w
  {}

  // ---- Members ----

  lemma RefreshedIs(d: ContactData, news: ContactData)
    ensures Refreshed(d, news).uid == d.uid
  {
    hide Newer;
  }

  lemma IndexHandleIs(w: World, handle: nat, c: Contact)
    ensures IndexHandle(w, handle, c) ==
      if handle in w.byHandle then w
      else Switched(w, w.idle, w.inactive, w.ready, w.views, w.byHandle[handle := c])
  {}

  lemma IndexHandleParts(w: World, handle: nat, c: Contact)
    ensures IndexHandle(w, handle, c).heap == w.heap
  {}

  lemma IndexedSound(w: World, handle: nat, c: Contact)
    requires Sound(w) && c in w.heap && handle !in w.byHandle
    ensures Sound(IndexHandle(w, handle, c))
  {
    var w' := IndexHandle(w, handle, c);
    assert forall x :: At(w', x) == At(w, x);
    assert w'.byHandle == w.byHandle[handle := c];
    hide At;
  }

  lemma MeetIs(s: Intake, path: string, a: Arrival)
    requires Sound(s.world)
    ensures NameOf(a.data) in s.world.byName ==>
      var w, c := s.world, s.world.byName[NameOf(a.data)];
      && c in w.heap
      && Meet(s, path, a) == Intake(IndexHandle(Put(w, c, Refreshed(At(w, c), a.data)), a.data.handle, c),
                                    s.toAdd, if AliasDiffers(At(w, c), a.data) then s.toUpdate + [c] else s.toUpdate)
    ensures NameOf(a.data) !in s.world.byName ==>
      var w, d := s.world, WithUid(s.world, path, a.data);
      Meet(s, path, a) == Intake(IndexHandle(Entered(w, a.id, d, w.byName[NameOf(a.data) := a.id], w.byHandle), a.data.handle, a.id),
                                 s.toAdd + [a.id], s.toUpdate)
  {
    hide At, NameOf, FreshUid, Refreshed, IndexHandle;
  }

  lemma MeetNone(s: Intake, path: string)
    ensures MeetAll(s, path, []) == s
  {}

  lemma MeetAllMore(s: Intake, path: string, arrivals: seq<Arrival>, a: Arrival)
    ensures MeetAll(s, path, arrivals + [a]) == Meet(MeetAll(s, path, arrivals), path, a)
    decreases |arrivals|
  {
    hide Meet;
    if arrivals == [] {
      assert [] + [a] == [a] && [a][1..] == [];
    } else {
      assert (arrivals + [a])[1..] == arrivals[1..] + [a];
      MeetAllMore(Meet(s, path, arrivals[0]), path, arrivals[1..], a);
    }
  }

  lemma GetMembersIs(w: World, path: string, arrivals: seq<Arrival>)
    ensures GetMembers(w, path, arrivals) == MeetAll(Intake(w, [], []), path, arrivals)
  {}

  // ---- Phase 2 and loading ----

  lemma Phase2Is(s: Intake, added: bool, updated: bool, flushed: bool, removed: bool)
    ensures Phase2(s, added, updated, flushed, removed) ==
      var w := StoreChanged(StoreNew(s.world, s.toAdd, added), s.toUpdate, updated);
      if Unseen(w) == {} then w else Worlds.DeleteContacts(w, Unseen(w), flushed, removed)
  {}

  /** The unseen contacts under the first names of the name index. */
  function UnseenUnder(w: World, keys: seq<string>): set<Contact> {
    set n | n in keys && n in w.byName && CONTACT_UNSEEN in At(w, w.byName[n]).flags :: w.byName[n]
  }

  lemma UnseenSnoc(w: World, keys: seq<string>, i: nat)
    requires i < |keys| && keys[i] in w.byName
    ensures UnseenUnder(w, keys[..i + 1]) == UnseenUnder(w, keys[..i]) +
      (if CONTACT_UNSEEN in At(w, w.byName[keys[i]]).flags then {w.byName[keys[i]]} else {})
  {
    assert keys[..i + 1] == keys[..i] + [keys[i]];
    hide At;
  }

  lemma UnseenAll(w: World, keys: seq<string>)
    requires Lists(keys, w.byName)
    ensures UnseenUnder(w, keys) == Unseen(w) && UnseenUnder(w, []) == {}
  {
    hide At;
  }

  lemma SetOfSnoc(cs: seq<Contact>, c: Contact)
    ensures SetOf(cs + [c]) == SetOf(cs) + {c} && SetOf([]) == {} && (cs == [] <==> SetOf(cs) == {})
  {
    if cs != [] { assert cs[0] in SetOf(cs); }
  }

  function Into(m: map<string, Contact>, u: string, c: Contact, yes: bool): map<string, Contact> {
    if yes then m[u := c] else m
  }

  lemma LoadOneParts(w: World, c: Contact, d: ContactData)
    ensures var w' := LoadOne(w, Arrival(d, c));
      && w'.heap == w.heap[c := Marked(d)] && w'.byUid == w.byUid[d.uid := c] && w'.byName == w.byName[NameOf(d) := c]
      && w'.byHandle == w.byHandle
      && w'.toAdd == Into(w.toAdd, d.uid, c, SCHEDULE_ADD in d.pendingFlags)
      && w'.toUpdate == Into(w.toUpdate, d.uid, c, SCHEDULE_UPDATE_FLAGS in d.pendingFlags || SCHEDULE_UNBLOCK in d.pendingFlags)
      && w'.toDelete == Into(w.toDelete, d.uid, c, SCHEDULE_DELETE in d.pendingFlags)
      && w'.dirty == w.dirty && w'.changed == w.changed && w'.idle == w.idle
      && w'.inactive == w.inactive && w'.ready == w.ready && w'.views == w.views && w'.db == w.db
  {
    hide NameOf, Marked;
  }

  lemma MarkedUid(d: ContactData)
    ensures Marked(d).uid == d.uid
  {}

  lemma KeyedInto(w: World, w': World, m: map<string, Contact>, c: Contact, u: string, yes: bool)
    requires Keyed(w, m) && SameUids(w, w') && c in w'.heap && At(w', c).uid == u
    ensures Keyed(w', Into(m, u, c, yes))
  {
    hide At;
  }

  lemma LoadOneSound(w: World, c: Contact, d: ContactData)
    requires Sound(w) && c !in w.heap
    ensures Sound(LoadOne(w, Arrival(d, c)))
  {
    var w' := LoadOne(w, Arrival(d, c));
    LoadOneParts(w, c, d);
    MarkedUid(d);
    EnteredUids(w, c, Marked(d), w');
    hide Keyed, At, LoadOne, SameUids, Marked, Into;
    IntoIs(w.byUid, d.uid, c);
    KeyedInto(w, w', w.byUid, c, d.uid, true);
    KeyedInto(w, w', w.toAdd, c, d.uid, SCHEDULE_ADD in d.pendingFlags);
    KeyedInto(w, w', w.toUpdate, c, d.uid, SCHEDULE_UPDATE_FLAGS in d.pendingFlags || SCHEDULE_UNBLOCK in d.pendingFlags);
    KeyedInto(w, w', w.toDelete, c, d.uid, SCHEDULE_DELETE in d.pendingFlags);
    KeyedStays(w, w', w.dirty, w.dirty);
    KeyedStays(w, w', w.changed, w.changed);
  }

  lemma IntoIs(m: map<string, Contact>, u: string, c: Contact)
    ensures Into(m, u, c, true) == m[u := c]
  {}

  lemma LoadAllMore(w: World, arrivals: seq<Arrival>, a: Arrival)
    ensures LoadAll(w, arrivals + [a]) == LoadOne(LoadAll(w, arrivals), a)
    decreases |arrivals|
  {
    hide LoadOne;
    if arrivals == [] {
      assert [] + [a] == [a] && [a][1..] == [];
    } else {
      assert (arrivals + [a])[1..] == arrivals[1..] + [a];
      LoadAllMore(LoadOne(w, arrivals[0]), arrivals[1..], a);
    }
  }

  lemma LoadIs(w: World, arrivals: seq<Arrival>)
    ensures var l := LoadAll(w, arrivals);
      Load(w, arrivals) == Switched(l, l.idle, l.inactive, true, Tell(l.views, VisibleOf(l, l.byUid)), l.byHandle)
    ensures LoadAll(w, []) == w
  {
    hide Tell, VisibleOf;
  }

  // ---- Phase 3 ----

  lemma RunUpdateUid(d: ContactData, unblocked: bool)
    ensures RunUpdate(d, unblocked).uid == d.uid
  {}

  lemma RunAddUid(d: ContactData, a: Worlds.Answer)
    ensures RunAdd(d, a).0.uid == d.uid
  {}

  lemma MergeDataUid(d: ContactData, s: ContactData)
    ensures MergeData(d, s).uid == d.uid
  {}

  /** The contact is put back under its own keys. */
  function Reindexed(w: World, c: Contact, d: ContactData): World {
    w.(byHandle := w.byHandle[d.handle := c], byName := w.byName[NameOf(d) := c], byUid := w.byUid[d.uid := c])
  }

  lemma ReindexedParts(w: World, c: Contact, d: ContactData)
    ensures var w' := Reindexed(w, c, d);
      && w'.heap == w.heap && w'.byUid == w.byUid[d.uid := c] && w'.byName == w.byName[NameOf(d) := c]
      && w'.byHandle == w.byHandle[d.handle := c]
      && w'.toAdd == w.toAdd && w'.toUpdate == w.toUpdate && w'.toDelete == w.toDelete
      && w'.dirty == w.dirty && w'.changed == w.changed && w'.idle == w.idle
      && w'.inactive == w.inactive && w'.ready == w.ready && w'.views == w.views && w'.db == w.db
  {
    hide NameOf;
  }

  lemma ReindexedSound(w: World, c: Contact)
    requires Sound(w) && c in w.heap
    ensures Sound(Reindexed(w, c, At(w, c)))
  {
    var w' := Reindexed(w, c, At(w, c));
    ReindexedParts(w, c, At(w, c));
    assert forall x :: At(w', x) == At(w, x);
    hide At, Reindexed;
  }

  lemma MergeIs(w: World, dest: Contact, src: Contact, flushed: bool, removed: bool)
    ensures Merge(w, dest, src, flushed, removed) ==
      var merged := Put(w, dest, MergeData(At(w, dest), At(w, src)));
      var left := Worlds.DeleteContacts(Announce(merged, dest), {src}, flushed, removed);
      Reindexed(left, dest, At(left, dest))
  {}

  lemma AnnounceParts(w: World, c: Contact)
    ensures Announce(w, c) ==
      Switched(w, w.idle, w.inactive, w.ready, Tell(w.views, map[At(w, c).uid := At(w, c)]), w.byHandle)
  {
    hide Tell, At;
  }

  lemma DeleteKeepsHeap(w: World, cs: set<Contact>, flushed: bool, removed: bool)
    ensures Worlds.DeleteContacts(w, cs, flushed, removed).heap == w.heap
  {
    hide Commit, VisibleOf, Tell, Forget, UidsOf;
  }

  /** The name index and the queues of pending edits are other ones. */
  function Requeued(w: World, byName: map<string, Contact>, toAdd: map<string, Contact>, toDelete: map<string, Contact>): World {
    w.(byName := byName, toAdd := toAdd, toDelete := toDelete)
  }

  lemma RequeuedParts(w: World, byName: map<string, Contact>, toAdd: map<string, Contact>, toDelete: map<string, Contact>)
    ensures var w' := Requeued(w, byName, toAdd, toDelete);
      && w'.heap == w.heap && w'.byUid == w.byUid && w'.byName == byName && w'.byHandle == w.byHandle
      && w'.toAdd == toAdd && w'.toUpdate == w.toUpdate && w'.toDelete == toDelete
      && w'.dirty == w.dirty && w'.changed == w.changed && w'.idle == w.idle
      && w'.inactive == w.inactive && w'.ready == w.ready && w'.views == w.views && w'.db == w.db
  {}

  lemma RequeuedSound(w: World, byName: map<string, Contact>, toAdd: map<string, Contact>, toDelete: map<string, Contact>)
    requires Sound(w) && Inhabited(w, byName) && Keyed(w, toAdd) && Keyed(w, toDelete)
    ensures Sound(Requeued(w, byName, toAdd, toDelete))
  {
    var w' := Requeued(w, byName, toAdd, toDelete);
    RequeuedParts(w, byName, toAdd, toDelete);
    assert forall x :: At(w', x) == At(w, x);
    hide At, Requeued;
  }

  predicate Inhabited(w: World, byName: map<string, Contact>) {
    forall n :: n in byName ==> byName[n] in w.heap
  }

  /** What fits in place of the name index or a queue. */
  lemma Fitting(w: World, c: Contact, name: string, u: string)
    requires Sound(w) && c in w.heap && At(w, c).uid == u
    ensures Keyed(w, w.toAdd) && Keyed(w, w.toDelete) && Keyed(w, w.toAdd - {u}) && Keyed(w, w.toDelete - {u})
    ensures Keyed(w, w.toAdd[u := c]) && Keyed(w, w.toDelete[u := c])
    ensures Inhabited(w, w.byName[name := c]) && Inhabited(w, w.byName - {name}) && Inhabited(w, w.byName)
  {
    hide At;
  }

  lemma RenameIs(b: Batch, c: Contact, was: string, flushed: bool, removed: bool)
    ensures var w := Requeued(b.world, b.world.byName - {was}, b.world.toAdd, b.world.toDelete);
      var name := NameOf(At(w, c));
      Rename(b, c, was, flushed, removed) ==
        if name in w.byName then Batch(Merge(w, w.byName[name], c, flushed, removed), b.contacts + [w.byName[name]])
        else Batch(Requeued(w, w.byName[name := c], w.toAdd, w.toDelete), b.contacts)
  {
    hide At, NameOf, Merge;
  }

  lemma SyncUpdateIs(b: Batch, c: Contact, unblocked: bool)
    ensures SyncUpdate(b, c, unblocked) ==
      var d := At(b.world, c);
      if NeedsUpdate(d) then Batch(Put(b.world, c, RunUpdate(d, unblocked)), b.contacts + [c]) else b
  {}

  lemma SyncAddIs(b: Batch, c: Contact, a: Worlds.Answer, flushed: bool, removed: bool)
    ensures var d := At(b.world, c);
      var (d', added) := RunAdd(d, a);
      var settled := d'.(pendingFlags := d'.pendingFlags - {SCHEDULE_ADD});
      SyncAdd(b, c, a, flushed, removed) ==
        if !added then Batch(Put(b.world, c, d'), b.contacts)
        else
          var w := Put(b.world, c, settled);
          var done := if NameOf(d) == NameOf(settled) then Batch(w, b.contacts + [c])
                      else Rename(Batch(w, b.contacts), c, NameOf(d), flushed, removed);
          Batch(Requeued(done.world, done.world.byName, done.world.toAdd - {d.uid}, done.world.toDelete), done.contacts)
  {
    hide At, RunAdd, Rename;
  }

  lemma SyncDeleteIs(b: Batch, c: Contact, removed: bool)
    ensures SyncDelete(b, c, removed) ==
      var d := At(b.world, c);
      if !removed then b
      else
        var w := Put(b.world, c, d.(pendingFlags := d.pendingFlags - {SCHEDULE_DELETE}));
        Batch(Requeued(w, w.byName, w.toAdd, w.toDelete - {d.uid}), b.contacts + [c])
  {
    hide At;
  }

  lemma PutTwice(w: World, c: Contact, d: ContactData, d': ContactData)
    ensures Put(Put(w, c, d), c, d') == Put(w, c, d') && At(Put(w, c, d), c) == d
  {
    assert w.heap[c := d][c := d'] == w.heap[c := d'];
  }

  lemma SyncAllMore(b: Batch, steps: seq<SyncStep>, s: SyncStep)
    ensures SyncAll(b, steps + [s]) == SyncOne(SyncAll(b, steps), s)
    ensures SyncAll(b, []) == b
    decreases |steps|
  {
    hide SyncOne;
    if steps == [] {
      assert [] + [s] == [s] && [s][1..] == [];
    } else {
      assert (steps + [s])[1..] == steps[1..] + [s];
      SyncAllMore(SyncOne(b, steps[0]), steps[1..], s);
    }
  }

  lemma Phase3Is(w: World, steps: seq<SyncStep>, stored: bool)
    ensures Phase3(w, steps, stored) ==
      var b := SyncAll(Batch(w, []), steps);
      StoreChanged(b.world, b.contacts, stored)
  {}

  // ---- Requests ----

  lemma NotifyUpdatedIs(w: World, c: Contact)
    requires Sound(w) && c in w.heap
    ensures NotifyUpdated(w, c) ==
      if w.views == [] then w
      else Announce(Notify(WithChanged(w, w.changed - {At(w, c).uid})), c)
  {
    hide At, Notify, Announce;
  }

  function WithChanged(w: World, changed: map<string, Contact>): World {
    w.(changed := changed)
  }

  lemma WithChangedParts(w: World, changed: map<string, Contact>)
    ensures var w' := WithChanged(w, changed);
      && w'.heap == w.heap && w'.byUid == w.byUid && w'.byName == w.byName && w'.byHandle == w.byHandle
      && w'.toAdd == w.toAdd && w'.toUpdate == w.toUpdate && w'.toDelete == w.toDelete
      && w'.dirty == w.dirty && w'.changed == changed && w'.idle == w.idle
      && w'.inactive == w.inactive && w'.ready == w.ready && w'.views == w.views && w'.db == w.db
  {}

  lemma WithChangedSound(w: World, uid: string)
    requires Sound(w)
    ensures Sound(WithChanged(w, w.changed - {uid}))
  {
    WithChangedParts(w, w.changed - {uid});
    hide Sound, WithChanged;
    ShrunkSound(w, WithChanged(w, w.changed - {uid}));
  }

  lemma AnnounceKeepsHeap(w: World, c: Contact)
    ensures Announce(w, c).heap == w.heap
  {
    hide Tell, At;
  }

  lemma CreateIs(w: World, path: string, vcardField: string, card: Card, id: Contact, online: bool, o: CreateAnswers)
    ensures var w' := Flush(w, o.flushed);
      var (d, named) := UpdateFromEContact(NEW_CONTACT, card, vcardField);
      var s := Submitted(w', path, d);
      var (d', added) := if online then RunAdd(s, o.add) else (s, true);
      Create(w, path, vcardField, card, id, online, o) ==
        if !named || !added then (w', Option.None)
        else if NameOf(d') in w'.byName then
          (CreateExisting(w', w'.byName[NameOf(d')], d', o), Option.Some(w'.byName[NameOf(d')]))
        else CreateNew(w', id, d', o.stored)
  {
    hide Flush, UpdateFromEContact, Submitted, RunAdd, NameOf, CreateExisting, CreateNew;
  }

  lemma AbsorbedUid(d: ContactData, news: ContactData, unblocked: bool)
    ensures Absorbed(d, news).uid == d.uid && RunUpdate(Absorbed(d, news), unblocked).uid == d.uid
  {}

  lemma CreateExistingIs(w: World, c: Contact, news: ContactData, o: CreateAnswers)
    ensures var d := Absorbed(At(w, c), news);
      var d' := RunUpdate(d, o.unblocked);
      CreateExisting(w, c, news, o) == if !NeedsUpdate(d) then Put(w, c, d)
        else NotifyUpdated(WithDb(Put(w, c, d'), Commit(w.db, RealUpdate(w.db, d'), o.stored)), c)
  {
    hide Absorbed, RunUpdate, NeedsUpdate, NotifyUpdated, At, RealUpdate;
  }

  lemma CreateNewIs(w: World, id: Contact, d: ContactData, stored: bool)
    ensures var known := Entered(w, id, d, w.byName[NameOf(d) := id], w.byHandle);
      var added := RealAdd(w.db, d);
      CreateNew(w, id, d, stored) ==
        if SCHEDULE_ADD !in d.pendingFlags then (known, Option.Some(id))
        else (WithDb(Requeued(known, known.byName, known.toAdd[d.uid := id], known.toDelete), Commit(w.db, added, stored)),
              if stored && added.Some? then Option.Some(id) else Option.None)
  {
    hide NameOf, RealAdd;
  }

  lemma KeepContactIs(w: World, c: Contact, d: ContactData, stored: bool)
    ensures var written := RealUpdate(w.db, d);
      var d' := if stored && written.Some? then d.(pendingFlags := d.pendingFlags - {SCHEDULE_UPDATE_MASTER_UID}) else d;
      KeepContact(w, c, d, stored) ==
        if SCHEDULE_UPDATE_MASTER_UID !in d.pendingFlags then Put(w, c, d)
        else NotifyUpdated(WithDb(Put(w, c, d'), Commit(w.db, written, stored)), c)
  {
    hide NotifyUpdated, RealUpdate;
  }

  lemma DropContactIs(w: World, c: Contact, d: ContactData, online: bool, o: RemoveAnswers)
    ensures var cleared := Put(w, c, d.(pendingFlags := {}));
      var marked := Put(w, c, d.(pendingFlags := {SCHEDULE_DELETE}));
      DropContact(w, c, d, online, o) ==
        if CONTACT_INVALID in d.flags then Worlds.DeleteContacts(cleared, {c}, o.flushed, o.removed)
        else if online && o.accepted then cleared
        else Requeued(marked, marked.byName, marked.toAdd, marked.toDelete[d.uid := c])
  {
    hide Worlds.DeleteContacts;
  }

  lemma RemoveIs(b: Batch, request: string, online: bool, o: RemoveAnswers)
    ensures var w := Flush(b.world, o.flushed);
      var fields := Split(request, ';');
      Remove(b, request, online, o) ==
        if fields == [] || fields[0] !in w.byUid then Batch(w, b.contacts)
        else
          var c := w.byUid[fields[0]];
          var (d, really) := ApplySuffix(At(w, c), fields[1..]);
          if really then Batch(DropContact(w, c, d, online, o), b.contacts + [c])
          else Batch(KeepContact(w, c, d, o.stored), b.contacts)
  {
    hide Flush, Split, ApplySuffix, DropContact, KeepContact, At;
  }

  lemma {:induction false} SuffixUid(d: ContactData, suffix: seq<string>)
    ensures RemoveFields(d, suffix).uid == d.uid
    decreases |suffix|
  {
    if suffix != [] { SuffixUid(RemoveField(d, suffix[0]), suffix[1..]); }
  }

  lemma ApplySuffixUid(d: ContactData, suffix: seq<string>)
    ensures ApplySuffix(d, suffix).0.uid == d.uid
  {
    SuffixUid(d, suffix);
  }

  // ---- The loops of phase 3 ----

  lemma SyncAllAppend(b: Batch, s: seq<SyncStep>, t: seq<SyncStep>)
    ensures SyncAll(b, s + t) == SyncAll(SyncAll(b, s), t)
    decreases |s|
  {
    hide SyncOne;
    if s == [] {
      assert [] + t == t;
    } else {
      assert (s + t)[1..] == s[1..] + t;
      SyncAllAppend(SyncOne(b, s[0]), s[1..], t);
    }
  }

  lemma SyncOneIs(b: Batch, c: Contact, yes: bool, a: Worlds.Answer, flushed: bool, removed: bool)
    ensures SyncOne(b, StepUpdate(c, yes)) == SyncUpdate(b, c, yes)
    ensures SyncOne(b, StepAdd(c, a, flushed, removed)) == SyncAdd(b, c, a, flushed, removed)
    ensures SyncOne(b, StepDelete(c, yes)) == SyncDelete(b, c, yes)
  {}

  /** A loop leaves the queues of the later loops alone. */
  lemma SyncUpdateQueues(b: Batch, c: Contact, unblocked: bool)
    ensures var w := SyncUpdate(b, c, unblocked).world; w.toAdd == b.world.toAdd && w.toDelete == b.world.toDelete
  {
    hide RunUpdate, NeedsUpdate, At;
  }

  lemma DeleteQueues(w: World, cs: set<Contact>, flushed: bool, removed: bool)
    ensures Worlds.DeleteContacts(w, cs, flushed, removed).toDelete == w.toDelete
  {
    hide Commit, VisibleOf, Tell, Forget, UidsOf;
  }

  lemma MergeQueues(w: World, dest: Contact, src: Contact, flushed: bool, removed: bool)
    ensures Merge(w, dest, src, flushed, removed).toDelete == w.toDelete
  {
    var merged := Put(w, dest, MergeData(At(w, dest), At(w, src)));
    hide MergeData, Tell, At, Worlds.DeleteContacts, NameOf;
    DeleteQueues(Announce(merged, dest), {src}, flushed, removed);
  }

  lemma RenameQueues(b: Batch, c: Contact, was: string, flushed: bool, removed: bool)
    ensures Rename(b, c, was, flushed, removed).world.toDelete == b.world.toDelete
  {
    var w := Requeued(b.world, b.world.byName - {was}, b.world.toAdd, b.world.toDelete);
    var name := NameOf(At(w, c));
    RenameIs(b, c, was, flushed, removed);
    RequeuedParts(b.world, b.world.byName - {was}, b.world.toAdd, b.world.toDelete);
    RequeuedParts(w, w.byName[name := c], w.toAdd, w.toDelete);
    hide Rename, Merge, Requeued, At, NameOf;
    if name in w.byName { MergeQueues(w, w.byName[name], c, flushed, removed); }
  }

  lemma SyncAddQueues(b: Batch, c: Contact, a: Worlds.Answer, flushed: bool, removed: bool)
    ensures SyncAdd(b, c, a, flushed, removed).world.toDelete == b.world.toDelete
  {
    var d := At(b.world, c);
    var d' := RunAdd(d, a).0;
    var settled := d'.(pendingFlags := d'.pendingFlags - {SCHEDULE_ADD});
    var w := Put(b.world, c, settled);
    SyncAddIs(b, c, a, flushed, removed);
    PutParts(b.world, c, d');
    PutParts(b.world, c, settled);
    RenameQueues(Batch(w, b.contacts), c, NameOf(d), flushed, removed);
    hide SyncAdd, Rename, Put, At, NameOf, RunAdd;
  }

  // ---- Removal ----

  /** With an empty queue it does not matter what the storage says to a flush. */
  lemma EmptyFlush(w: World, cs: set<Contact>, a: bool, b: bool, removed: bool)
    requires w.dirty == map[]
    ensures Worlds.DeleteContacts(w, cs, a, removed) == Worlds.DeleteContacts(w, cs, b, removed)
  {
    var u := Unlink(w, cs);
    UnlinkParts(w, cs);
    assert u.dirty == map[];
    NothingToFlush(u);
    DeleteIs(w, cs, a, removed);
    DeleteIs(w, cs, b, removed);
    hide Unlink, Flush, Notify, Erased, UidsOf;
  }

  lemma NothingToFlush(w: World)
    requires w.dirty == map[]
    ensures Flush(w, true) == w && Flush(w, false) == w
  {
    FlushNothing(w);
    hide UpdateMany, Values;
  }

  lemma {:induction false} FieldsStep(d: ContactData, suffix: seq<string>, i: nat)
    requires i <= |suffix|
    ensures i < |suffix| ==> RemoveFields(d, suffix[i..]) == RemoveFields(RemoveField(d, suffix[i]), suffix[i + 1..])
    ensures i == |suffix| ==> RemoveFields(d, suffix[i..]) == d
  {
    if i < |suffix| { assert suffix[i..][0] == suffix[i] && suffix[i..][1..] == suffix[i + 1..]; }
  }

  lemma DropFlush(w: World, c: Contact, d: ContactData, online: bool, a: RemoveAnswers, b: RemoveAnswers)
    requires w.dirty == map[] && a.accepted == b.accepted && a.removed == b.removed
    ensures DropContact(w, c, d, online, a) == DropContact(w, c, d, online, b)
  {
    EmptyFlush(Put(w, c, d.(pendingFlags := {})), {c}, a.flushed, b.flushed, a.removed);
    hide Worlds.DeleteContacts;
  }

  lemma RemoveContactsIs(w: World, requests: seq<Request>, online: bool, flushed: bool, stored: bool)
    ensures RemoveContacts(w, requests, online, flushed, stored) ==
      var b := RemoveAll(Batch(Flush(Notify(w), flushed), []), requests, online);
      StoreChanged(b.world, b.contacts, stored)
  {}

  lemma RemoveAllMore(b: Batch, requests: seq<Request>, online: bool, r: Request)
    ensures RemoveAll(b, requests + [r], online) == Remove(RemoveAll(b, requests, online), r.text, online, r.answers)
    ensures RemoveAll(b, [], online) == b
    decreases |requests|
  {
    hide Remove;
    if requests == [] {
      assert [] + [r] == [r] && [r][1..] == [];
    } else {
      assert (requests + [r])[1..] == requests[1..] + [r];
      RemoveAllMore(Remove(b, requests[0].text, online, requests[0].answers), requests[1..], online, r);
    }
  }

  lemma NoRequests(b: Batch, online: bool)
    ensures RemoveAll(b, [], online) == b
  {}
}
