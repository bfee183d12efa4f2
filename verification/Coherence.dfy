/** The uid index and the name index hold the same contacts under their own uid and name, over every
    run of callbacks. */
module Coherence {
  import opened Text
  import opened Flags
  import opened ContactValues
  import opened Contacts
  import opened VCards
  import opened MasterProtocol
  import opened Store
  import opened StoreBatches
  import opened Uids
  import opened Worlds

  /** The server's normalisation of contact names. */
  type Norm = string -> string

  predicate IsNormal(norm: Norm, d: ContactData) {
    norm(NameOf(d)) == NameOf(d)
  }

  /** The contact is in the uid index. */
  predicate Live(w: World, c: Contact) {
    c in w.heap && At(w, c).uid in w.byUid && w.byUid[At(w, c).uid] == c
  }

  /** Both indexes are keyed correctly and hold the same contacts. */
  predicate Coherent(w: World) {
    && (forall u :: u in w.byUid ==> UidEntry(w, u, w.byUid[u]))
    && (forall n :: n in w.byName ==> NameEntry(w, n, w.byName[n]))
  }

  predicate UidEntry(w: World, u: string, c: Contact) {
    var d := At(w, c);
    c in w.heap && d.uid == u && d.name.Some? && d.name.value in w.byName && w.byName[d.name.value] == c
  }

  predicate NameEntry(w: World, n: string, c: Contact) {
    var d := At(w, c);
    c in w.heap && d.name == Some(n) && d.uid in w.byUid && w.byUid[d.uid] == c
  }

  /** What a handle points to: a contact that has this handle and a name the server gave. */
  predicate HandleEntry(w: World, norm: Norm, h: nat, c: Contact) {
    Live(w, c) && At(w, c).handle == h && IsNormal(norm, At(w, c))
  }

  predicate HandlesLive(w: World, norm: Norm) {
    forall h :: h in w.byHandle && h > 0 ==> HandleEntry(w, norm, h, w.byHandle[h])
  }

  /** Adding the contact will not change its name any more. */
  predicate Settled(norm: Norm, d: ContactData) {
    IsNormal(norm, d) || CONTACT_INVALID in d.flags
  }

  /** A contact that waits to be added: it may be gone already, but then its name is final. */
  predicate AddEntry(w: World, norm: Norm, u: string, c: Contact) {
    var d := At(w, c);
    c in w.heap && d.uid == u && d.name.Some? && (Settled(norm, d) || (Live(w, c) && CONTACT_UNSEEN !in d.flags))
  }

  predicate AddsSettled(w: World, norm: Norm) {
    forall u :: u in w.toAdd ==> AddEntry(w, norm, u, w.toAdd[u])
  }

  predicate Inv(w: World, norm: Norm) {
    Coherent(w) && HandlesLive(w, norm) && AddsSettled(w, norm)
  }

  // ---- Changes that leave the keys alone ----

  /** Uid, name and handle stay, and a name that is not final does not become an orphan. */
  predicate Minor(norm: Norm, d: ContactData, d': ContactData) {
    && d'.uid == d.uid && d'.name == d.name && d'.handle == d.handle
    && (IsNormal(norm, d) || ((CONTACT_INVALID in d.flags ==> CONTACT_INVALID in d'.flags)
                              && (CONTACT_UNSEEN in d'.flags ==> CONTACT_UNSEEN in d.flags)))
  }

  lemma PutKeeps(w: World, norm: Norm, c: Contact, d: ContactData)
    requires Inv(w, norm) && Minor(norm, At(w, c), d)
    ensures Inv(Put(w, c, d), norm)
    ensures forall x :: Live(w, x) ==> Live(Put(w, c, d), x)
  {
    var w' := Put(w, c, d);
    assert forall x :: x in w.heap ==> x in w'.heap && Minor(norm, At(w, x), At(w', x));
    forall u | u in w'.byUid ensures UidEntry(w', u, w'.byUid[u]) { assert UidEntry(w, u, w.byUid[u]); }
    forall n | n in w'.byName ensures NameEntry(w', n, w'.byName[n]) { assert NameEntry(w, n, w.byName[n]); }
    forall h | h in w'.byHandle && h > 0 ensures HandleEntry(w', norm, h, w'.byHandle[h]) {
      assert HandleEntry(w, norm, h, w.byHandle[h]);
    }
    forall u | u in w'.toAdd ensures AddEntry(w', norm, u, w'.toAdd[u]) { assert AddEntry(w, norm, u, w.toAdd[u]); }
  }

  /** Nothing that the indexes are made of has changed. */
  predicate SameIndexes(w: World, w': World) {
    && w'.heap == w.heap && w'.byUid == w.byUid && w'.byName == w.byName
    && w'.byHandle == w.byHandle && w'.toAdd == w.toAdd
  }

  /** Queues, views, switches and tables do not matter to the indexes. */
  lemma OnlyIndexesMatter(w: World, w': World, norm: Norm)
    requires Inv(w, norm) && SameIndexes(w, w')
    ensures Inv(w', norm)
    ensures forall x :: Live(w', x) <==> Live(w, x)
  {
    forall u | u in w'.byUid ensures UidEntry(w', u, w'.byUid[u]) { assert UidEntry(w, u, w.byUid[u]); }
    forall n | n in w'.byName ensures NameEntry(w', n, w'.byName[n]) { assert NameEntry(w, n, w.byName[n]); }
    forall h | h in w'.byHandle && h > 0 ensures HandleEntry(w', norm, h, w'.byHandle[h]) {
      assert HandleEntry(w, norm, h, w.byHandle[h]);
    }
    forall u | u in w'.toAdd ensures AddEntry(w', norm, u, w'.toAdd[u]) { assert AddEntry(w, norm, u, w.toAdd[u]); }
  }

  // ---- Deleting ----

  lemma UnlinkKeeps(w: World, norm: Norm, cs: set<Contact>)
    requires Inv(w, norm)
    requires forall c :: c in cs ==> Live(w, c) && (Settled(norm, At(w, c)) || CONTACT_UNSEEN in At(w, c).flags)
    ensures Inv(Unlink(w, cs), norm)
    ensures forall x :: Live(w, x) && x !in cs ==> Live(Unlink(w, cs), x)
  {
    var w' := Unlink(w, cs);
    forall x | Live(w, x) && x !in cs
      ensures Live(w', x) && At(w, x).uid !in UidsOf(w, cs) && NameOf(At(w, x)) !in NamesOf(w, cs)
    {
      OthersStay(w, cs, x);
    }
    forall u | u in w'.byUid ensures UidEntry(w', u, w'.byUid[u]) {
      assert UidEntry(w, u, w.byUid[u]);
      assert w.byUid[u] !in cs;
    }
    forall n | n in w'.byName ensures NameEntry(w', n, w'.byName[n]) {
      assert NameEntry(w, n, w.byName[n]);
      assert w.byName[n] !in cs;
    }
    forall h | h in w'.byHandle && h > 0 ensures HandleEntry(w', norm, h, w'.byHandle[h]) {
      assert HandleEntry(w, norm, h, w.byHandle[h]);
      assert w.byHandle[h] !in cs;
    }
    forall u | u in w'.toAdd ensures AddEntry(w', norm, u, w'.toAdd[u]) { assert AddEntry(w, norm, u, w.toAdd[u]); }
  }

  lemma OthersStay(w: World, cs: set<Contact>, x: Contact)
    requires Coherent(w) && Live(w, x) && x !in cs && forall c :: c in cs ==> Live(w, c)
    ensures At(w, x).uid !in UidsOf(w, cs) && NameOf(At(w, x)) !in NamesOf(w, cs)
    ensures Live(Unlink(w, cs), x)
  {
    assert UidEntry(w, At(w, x).uid, x);
    forall c | c in cs ensures At(w, c).uid != At(w, x).uid && At(w, c).name != At(w, x).name {
      assert Live(w, c);
      assert UidEntry(w, At(w, c).uid, c);
    }
  }

  lemma DeleteKeeps(w: World, norm: Norm, cs: set<Contact>, flushed: bool, removed: bool)
    requires Inv(w, norm)
    requires forall c :: c in cs ==> Live(w, c) && (Settled(norm, At(w, c)) || CONTACT_UNSEEN in At(w, c).flags)
    ensures Inv(DeleteContacts(w, cs, flushed, removed), norm)
  {
    UnlinkKeeps(w, norm, cs);
    hide Inv, UpdateMany, DeleteMany, Tell, Forget, VisibleOf, Unlink;
    OnlyIndexesMatter(Unlink(w, cs), DeleteContacts(w, cs, flushed, removed), norm);
  }

  lemma QueueAllKeeps(w: World, norm: Norm, cs: seq<Contact>, persist: bool)
    requires Inv(w, norm)
    ensures Inv(UpdateContacts(w, cs, persist), norm)
  {
    QueueAllTouches(w, cs, persist);
    hide Inv;
    OnlyIndexesMatter(w, UpdateContacts(w, cs, persist), norm);
  }

  lemma {:induction false} QueueAllTouches(w: World, cs: seq<Contact>, persist: bool)
    ensures var w' := QueueAll(w, cs, persist);
      w' == w.(changed := w'.changed, dirty := w'.dirty)
    decreases |cs|
  {
    if cs != [] { QueueAllTouches(Queue(w, cs[0], persist), cs[1..], persist); }
  }

  // ---- Signals about known contacts ----

  predicate Handled(news: seq<ContactData>) {
    forall i :: 0 <= i < |news| ==> news[i].handle > 0
  }

  lemma {:induction false} ReceiveAllKeeps(b: Batch, norm: Norm, kind: Kind, news: seq<ContactData>)
    requires Inv(b.world, norm) && Handled(news)
    ensures Inv(ReceiveAll(b, kind, news).world, norm)
    decreases |news|
  {
    if news != [] {
      ReceiveKeeps(b, norm, kind, news[0]);
      ReceiveAllKeeps(Receive(b, kind, news[0]), norm, kind, news[1..]);
    }
  }

  lemma ReceiveKeeps(b: Batch, norm: Norm, kind: Kind, news: ContactData)
    requires Inv(b.world, norm) && news.handle > 0
    ensures Inv(Receive(b, kind, news).world, norm)
  {
    if news.handle in b.world.byHandle {
      var c := b.world.byHandle[news.handle];
      assert HandleEntry(b.world, norm, news.handle, c);
      PutKeeps(b.world, norm, c, Received(kind, At(b.world, c), news));
    }
  }

  lemma SignalledKeeps(w: World, norm: Norm, kind: Kind, news: seq<ContactData>)
    requires Inv(w, norm) && Handled(news)
    ensures Inv(Signalled(w, kind, news), norm)
  {
    ReceiveAllKeeps(Batch(w, []), norm, kind, news);
    var b := ReceiveAll(Batch(w, []), kind, news);
    QueueAllKeeps(b.world, norm, b.contacts, Persists(kind));
  }

  // ---- Contacts that come in ----

  /** Handles are stable: a name keeps its handle as long as the handle table is in use. */
  predicate SameHandle(w: World, d: ContactData) {
    forall h :: h in w.byHandle && h > 0 && At(w, w.byHandle[h]).name == d.name ==> h == d.handle
  }

  /** A name nobody has gets a new object. */
  predicate NewIfUnknown(w: World, a: Arrival) {
    NameOf(a.data) !in w.byName ==> a.id !in w.heap
  }

  predicate Acceptable(w: World, norm: Norm, a: Arrival) {
    a.data.name.Some? && IsNormal(norm, a.data) && NewIfUnknown(w, a) && SameHandle(w, a.data)
  }

  /** What the server may send: named, normalised, one handle per name. */
  predicate Consistent(w: World, norm: Norm, arrivals: seq<Arrival>) {
    && (forall i :: 0 <= i < |arrivals| ==> Acceptable(w, norm, arrivals[i]))
    && (forall i, j :: 0 <= i < j < |arrivals| ==> Compatible(arrivals[i], arrivals[j]))
  }

  predicate Compatible(a: Arrival, b: Arrival) {
    if a.data.name == b.data.name then a.data.handle == b.data.handle else a.id != b.id
  }

  /** Old entries survive when every contact keeps its uid and name and no index entry is lost. */
  lemma EntriesSurvive(w: World, w': World)
    requires Coherent(w)
    requires forall x :: x in w.heap ==> x in w'.heap && At(w', x).uid == At(w, x).uid && At(w', x).name == At(w, x).name
    requires forall u :: u in w.byUid ==> u in w'.byUid && w'.byUid[u] == w.byUid[u]
    requires forall n :: n in w.byName ==> n in w'.byName && w'.byName[n] == w.byName[n]
    ensures forall u :: u in w.byUid ==> UidEntry(w', u, w.byUid[u])
    ensures forall n :: n in w.byName ==> NameEntry(w', n, w.byName[n])
    ensures forall x :: Live(w, x) ==> Live(w', x)
  {
    forall u | u in w.byUid ensures UidEntry(w', u, w.byUid[u]) { assert UidEntry(w, u, w.byUid[u]); }
    forall n | n in w.byName ensures NameEntry(w', n, w.byName[n]) { assert NameEntry(w, n, w.byName[n]); }
  }

  /** The news about a known contact are in the heap, and it may be indexed under its handle. */
  predicate Known(w: World, a: Arrival, c: Contact, d: ContactData, w': World) {
    && NameOf(a.data) in w.byName && w.byName[NameOf(a.data)] == c
    && d.uid == At(w, c).uid && d.name == At(w, c).name && d.handle == a.data.handle
    && w'.heap == w.heap[c := d] && w'.byUid == w.byUid && w'.byName == w.byName && w'.toAdd == w.toAdd
    && (w'.byHandle == w.byHandle || w'.byHandle == w.byHandle[d.handle := c])
  }

  lemma KnownEntries(w: World, norm: Norm, a: Arrival, c: Contact, d: ContactData, w': World)
    requires Coherent(w) && Acceptable(w, norm, a) && Known(w, a, c, d, w')
    ensures Coherent(w') && At(w', c) == d && At(w, c).name == a.data.name && Live(w, c) && IsNormal(norm, d)
    ensures forall x :: x in w.heap && x != c ==> At(w', x) == At(w, x)
    ensures forall x :: Live(w, x) ==> Live(w', x)
  {
    assert NameEntry(w, NameOf(a.data), c);
    EntriesSurvive(w, w');
  }

  lemma KnownKeeps(w: World, norm: Norm, a: Arrival, c: Contact, d: ContactData, w': World)
    requires Inv(w, norm) && Acceptable(w, norm, a) && Known(w, a, c, d, w')
    ensures Inv(w', norm)
    ensures forall x :: Live(w, x) ==> Live(w', x)
  {
    KnownEntries(w, norm, a, c, d, w');
    hide Coherent, Live, At, NameOf;
    forall h | h in w'.byHandle && h > 0 ensures HandleEntry(w', norm, h, w'.byHandle[h]) {
      if h in w.byHandle { assert HandleEntry(w, norm, h, w.byHandle[h]); }
    }
    forall u | u in w'.toAdd ensures AddEntry(w', norm, u, w'.toAdd[u]) { assert AddEntry(w, norm, u, w.toAdd[u]); }
  }

  /** A new contact entered the indexes under a fresh uid and a name nobody has. */
  predicate Entered(w: World, id: Contact, d: ContactData, w': World) {
    && id !in w.heap && d.name.Some? && d.name.value !in w.byName && d.uid !in w.byUid
    && w'.heap == w.heap[id := d] && w'.byUid == w.byUid[d.uid := id] && w'.byName == w.byName[d.name.value := id]
  }

  predicate Grown(w: World, norm: Norm, id: Contact, d: ContactData, w': World) {
    && Entered(w, id, d, w')
    && (w'.toAdd == w.toAdd || (w'.toAdd == w.toAdd[d.uid := id] && CONTACT_UNSEEN !in d.flags))
    && (w'.byHandle == w.byHandle || (w'.byHandle == w.byHandle[d.handle := id] && IsNormal(norm, d)))
  }

  lemma NewEntries(w: World, id: Contact, d: ContactData, w': World)
    requires Coherent(w) && Entered(w, id, d, w')
    ensures Coherent(w') && Live(w', id) && At(w', id) == d
    ensures forall x :: x in w.heap ==> At(w', x) == At(w, x)
    ensures forall x :: Live(w, x) ==> Live(w', x)
  {
    assert forall x :: x in w.heap ==> At(w', x) == At(w, x);
    EntriesSurvive(w, w');
    assert UidEntry(w', d.uid, id) && NameEntry(w', d.name.value, id);
    hide UidEntry, NameEntry, Live;
  }

  lemma NewHandles(w: World, norm: Norm, id: Contact, d: ContactData, w': World)
    requires Inv(w, norm) && Grown(w, norm, id, d, w')
    ensures HandlesLive(w', norm)
  {
    NewEntries(w, id, d, w');
    assert forall x :: Live(w, x) ==> x in w.heap;
    hide Coherent, Live, At, NameOf, AddsSettled;
    forall h | h in w'.byHandle && h > 0 ensures HandleEntry(w', norm, h, w'.byHandle[h]) {
      if h in w.byHandle { assert HandleEntry(w, norm, h, w.byHandle[h]); }
    }
  }

  lemma NewAdds(w: World, norm: Norm, id: Contact, d: ContactData, w': World)
    requires Inv(w, norm) && Grown(w, norm, id, d, w')
    ensures AddsSettled(w', norm)
  {
    NewEntries(w, id, d, w');
    hide Coherent, Live, At, NameOf, HandlesLive;
    forall u | u in w'.toAdd ensures AddEntry(w', norm, u, w'.toAdd[u]) {
      if u in w.toAdd { assert AddEntry(w, norm, u, w.toAdd[u]); }
    }
  }

  lemma NewKeeps(w: World, norm: Norm, id: Contact, d: ContactData, w': World)
    requires Inv(w, norm) && Grown(w, norm, id, d, w')
    ensures Inv(w', norm)
    ensures forall x :: Live(w, x) ==> Live(w', x)
  {
    NewHandles(w, norm, id, d, w');
    NewAdds(w, norm, id, d, w');
    NewEntries(w, id, d, w');
    hide Coherent, Live, HandlesLive, AddsSettled;
  }
}
