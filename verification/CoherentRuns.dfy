/** Every callback keeps the indexes coherent, and so does every run of callbacks. */
module CoherentRuns {
  import opened Text
  import opened Flags
  import opened ContactValues
  import opened Contacts
  import opened VCards
  import opened MasterProtocol
  import opened Store
  import opened StoreBatches
  import opened Uids
  import opened Worlds
  import opened Coherence

  // ---- Contacts that come in ----

  /** The rest of the arrivals stays acceptable once the first was taken in. */
  lemma RestConsistent(w: World, norm: Norm, arrivals: seq<Arrival>, c: Contact, w': World)
    requires Coherent(w) && HandlesLive(w, norm) && arrivals != [] && Consistent(w, norm, arrivals)
    requires w'.heap.Keys == w.heap.Keys + {c} && (c in w.heap || c == arrivals[0].id)
    requires w'.byName.Keys == w.byName.Keys + {NameOf(arrivals[0].data)}
    requires forall x :: x in w.heap ==> At(w', x).name == At(w, x).name
    requires At(w', c).name == arrivals[0].data.name
    requires forall h :: h in w'.byHandle && h > 0 ==>
      (h in w.byHandle && w'.byHandle[h] == w.byHandle[h]) || (h == arrivals[0].data.handle && w'.byHandle[h] == c)
    ensures Consistent(w', norm, arrivals[1..])
  {
    var rest := arrivals[1..];
    forall i | 0 <= i < |rest| ensures Acceptable(w', norm, rest[i]) {
      assert rest[i] == arrivals[i + 1] && Acceptable(w, norm, arrivals[i + 1]);
      assert Compatible(arrivals[0], arrivals[i + 1]);
      assert NewIfUnknown(w', rest[i]) by {
        assert NewIfUnknown(w, arrivals[i + 1]) && Acceptable(w, norm, arrivals[0]);
      }
      forall h | h in w'.byHandle && h > 0 && At(w', w'.byHandle[h]).name == rest[i].data.name
        ensures h == rest[i].data.handle
      {
        if h in w.byHandle && w'.byHandle[h] == w.byHandle[h] {
          assert HandleEntry(w, norm, h, w.byHandle[h]);
        }
      }
    }
    forall i, j | 0 <= i < j < |rest| ensures Compatible(rest[i], rest[j]) {
      assert Compatible(arrivals[i + 1], arrivals[j + 1]);
    }
  }

  /** A known contact was taken in, and at most its own handle entry is new. */
  lemma KnownStep(w: World, norm: Norm, arrivals: seq<Arrival>, c: Contact, d: ContactData, w': World)
    requires Inv(w, norm) && arrivals != [] && Consistent(w, norm, arrivals) && Known(w, arrivals[0], c, d, w')
    ensures Inv(w', norm) && Consistent(w', norm, arrivals[1..])
  {
    var a := arrivals[0];
    assert Acceptable(w, norm, a);
    KnownKeeps(w, norm, a, c, d, w');
    KnownEntries(w, norm, a, c, d, w');
    assert forall x :: x in w.heap ==> At(w', x).name == At(w, x).name;
    hide Consistent, Acceptable, Coherent, HandlesLive, AddsSettled, At;
    RestConsistent(w, norm, arrivals, c, w');
  }

  lemma NewStep(w: World, norm: Norm, arrivals: seq<Arrival>, d: ContactData, w': World)
    requires Inv(w, norm) && arrivals != [] && Consistent(w, norm, arrivals)
    requires Grown(w, norm, arrivals[0].id, d, w') && w'.toAdd == w.toAdd
    requires d.name == arrivals[0].data.name && d.handle == arrivals[0].data.handle
    ensures Inv(w', norm) && Consistent(w', norm, arrivals[1..])
  {
    var id := arrivals[0].id;
    NewKeeps(w, norm, id, d, w');
    NewEntries(w, id, d, w');
    hide Consistent, Acceptable, Coherent, HandlesLive, AddsSettled, At;
    RestConsistent(w, norm, arrivals, id, w');
  }

  lemma TakeInCases(s: Intake, norm: Norm, path: string, a: Arrival)
    requires Coherent(s.world) && Acceptable(s.world, norm, a)
    ensures var w, w', name := s.world, TakeIn(s, path, a).world, NameOf(a.data);
      if name in w.byName then Known(w, a, w.byName[name], AddKnown(At(w, w.byName[name]), a.data), w')
      else Grown(w, norm, a.id, WithUid(w, path, a.data), w') && w'.toAdd == w.toAdd
  {
    var w, name := s.world, NameOf(a.data);
    if name in w.byName {
      assert NameEntry(w, name, w.byName[name]);
    }
    hide Coherent, SameHandle, FreshUid;
  }

  lemma TakeInKeeps(s: Intake, norm: Norm, path: string, arrivals: seq<Arrival>)
    requires Inv(s.world, norm) && arrivals != [] && Consistent(s.world, norm, arrivals)
    ensures Inv(TakeIn(s, path, arrivals[0]).world, norm)
    ensures Consistent(TakeIn(s, path, arrivals[0]).world, norm, arrivals[1..])
  {
    var w, a := s.world, arrivals[0];
    assert Acceptable(w, norm, a);
    assert Coherent(w);
    TakeInCases(s, norm, path, a);
    hide Inv, Consistent, Acceptable, Coherent, TakeIn, Known, Grown, At, NameOf, FreshUid;
    if NameOf(a.data) in w.byName {
      var c := w.byName[NameOf(a.data)];
      KnownStep(w, norm, arrivals, c, AddKnown(At(w, c), a.data), TakeIn(s, path, a).world);
    } else {
      NewStep(w, norm, arrivals, WithUid(w, path, a.data), TakeIn(s, path, a).world);
    }
  }

  lemma {:induction false} TakeInAllKeeps(s: Intake, norm: Norm, path: string, arrivals: seq<Arrival>)
    requires Inv(s.world, norm) && Consistent(s.world, norm, arrivals)
    ensures Inv(TakeInAll(s, path, arrivals).world, norm)
    decreases |arrivals|
  {
    hide Inv, Consistent, TakeIn;
    if arrivals != [] {
      TakeInKeeps(s, norm, path, arrivals);
      TakeInAllKeeps(TakeIn(s, path, arrivals[0]), norm, path, arrivals[1..]);
    }
  }

  lemma ContactsAddedKeeps(w: World, norm: Norm, path: string, arrivals: seq<Arrival>, flushed: bool, stored: bool)
    requires Inv(w, norm) && Consistent(w, norm, arrivals)
    ensures Inv(ContactsAdded(w, path, arrivals, flushed, stored), norm)
  {
    hide Inv, Consistent, TakeInAll, UpdateMany, AddAll, Tell, VisibleOf, QueueAll;
    TakeInAllKeeps(Intake(w, [], []), norm, path, arrivals);
    var s := TakeInAll(Intake(w, [], []), path, arrivals);
    var kept := StoreNew(Flush(s.world, flushed), s.toAdd, stored);
    OnlyIndexesMatter(s.world, kept, norm);
    QueueAllKeeps(kept, norm, s.toUpdate, true);
    var queued := if s.toUpdate == [] then kept else UpdateContacts(kept, s.toUpdate, true);
    OnlyIndexesMatter(queued, Notify(queued), norm);
  }

  lemma MeetCases(s: Intake, norm: Norm, path: string, a: Arrival)
    requires Coherent(s.world) && Acceptable(s.world, norm, a)
    ensures var w, w', name := s.world, Meet(s, path, a).world, NameOf(a.data);
      if name in w.byName then Known(w, a, w.byName[name], Refreshed(At(w, w.byName[name]), a.data), w')
      else Grown(w, norm, a.id, WithUid(w, path, a.data), w') && w'.toAdd == w.toAdd
  {
    hide Coherent, SameHandle, FreshUid, Newer;
  }

  lemma MeetKeeps(s: Intake, norm: Norm, path: string, arrivals: seq<Arrival>)
    requires Inv(s.world, norm) && arrivals != [] && Consistent(s.world, norm, arrivals)
    ensures Inv(Meet(s, path, arrivals[0]).world, norm)
    ensures Consistent(Meet(s, path, arrivals[0]).world, norm, arrivals[1..])
  {
    var w, a := s.world, arrivals[0];
    assert Acceptable(w, norm, a);
    assert Coherent(w);
    MeetCases(s, norm, path, a);
    hide Inv, Consistent, Acceptable, Coherent, Meet, Known, Grown, At, NameOf, FreshUid;
    if NameOf(a.data) in w.byName {
      var c := w.byName[NameOf(a.data)];
      KnownStep(w, norm, arrivals, c, Refreshed(At(w, c), a.data), Meet(s, path, a).world);
    } else {
      NewStep(w, norm, arrivals, WithUid(w, path, a.data), Meet(s, path, a).world);
    }
  }

  lemma {:induction false} MeetAllKeeps(s: Intake, norm: Norm, path: string, arrivals: seq<Arrival>)
    requires Inv(s.world, norm) && Consistent(s.world, norm, arrivals)
    ensures Inv(MeetAll(s, path, arrivals).world, norm)
    decreases |arrivals|
  {
    hide Inv, Consistent, Meet;
    if arrivals != [] {
      MeetKeeps(s, norm, path, arrivals);
      MeetAllKeeps(Meet(s, path, arrivals[0]), norm, path, arrivals[1..]);
    }
  }

  lemma GetMembersKeeps(w: World, norm: Norm, path: string, arrivals: seq<Arrival>)
    requires Inv(w, norm) && Consistent(w, norm, arrivals)
    ensures Inv(GetMembers(w, path, arrivals).world, norm)
  {
    MeetAllKeeps(Intake(w, [], []), norm, path, arrivals);
  }

  lemma UnseenLive(w: World, norm: Norm)
    requires Inv(w, norm)
    ensures forall c :: c in Unseen(w) ==> Live(w, c) && CONTACT_UNSEEN in At(w, c).flags
  {
    forall c | c in Unseen(w) ensures Live(w, c) && CONTACT_UNSEEN in At(w, c).flags {
      var n :| n in w.byName && CONTACT_UNSEEN in At(w, w.byName[n]).flags && c == w.byName[n];
      assert NameEntry(w, n, c);
    }
  }

  lemma Phase2Keeps(s: Intake, norm: Norm, added: bool, updated: bool, flushed: bool, removed: bool)
    requires Inv(s.world, norm)
    ensures Inv(Phase2(s, added, updated, flushed, removed), norm)
  {
    hide Inv, DeleteContacts, UpdateAll, AddAll;
    var w := StoreChanged(StoreNew(s.world, s.toAdd, added), s.toUpdate, updated);
    OnlyIndexesMatter(s.world, w, norm);
    UnseenLive(w, norm);
    DeleteKeeps(w, norm, Unseen(w), flushed, removed);
  }

  // ---- Contacts that go ----

  /** Everything collected for deletion is in the indexes under a final name. */
  predicate Collected(b: Batch, norm: Norm) {
    forall c :: c in b.contacts ==> Live(b.world, c) && IsNormal(norm, At(b.world, c))
  }

  lemma LeaveKeeps(b: Batch, norm: Norm, handle: nat)
    requires Inv(b.world, norm) && Collected(b, norm) && handle > 0
    ensures Inv(Leave(b, handle).world, norm) && Collected(Leave(b, handle), norm)
  {
    if handle in b.world.byHandle {
      var c := b.world.byHandle[handle];
      assert HandleEntry(b.world, norm, handle, c);
      var d := At(b.world, c);
      PutKeeps(b.world, norm, c, d.(pendingFlags := d.pendingFlags - {SCHEDULE_DELETE}));
    }
  }

  lemma {:induction false} LeaveAllKeeps(b: Batch, norm: Norm, handles: seq<nat>)
    requires Inv(b.world, norm) && Collected(b, norm) && 0 !in handles
    ensures Inv(LeaveAll(b, handles).world, norm) && Collected(LeaveAll(b, handles), norm)
    decreases |handles|
  {
    hide Inv, Collected, Leave;
    if handles != [] {
      assert handles[0] in handles;
      LeaveKeeps(b, norm, handles[0]);
      LeaveAllKeeps(Leave(b, handles[0]), norm, handles[1..]);
    }
  }

  lemma ContactsRemovedKeeps(w: World, norm: Norm, handles: seq<nat>, flushed: bool, removed: bool)
    requires Inv(w, norm) && 0 !in handles
    ensures Inv(ContactsRemoved(w, handles, flushed, removed), norm)
  {
    hide Inv, LeaveAll, DeleteContacts;
    LeaveAllKeeps(Batch(w, []), norm, handles);
    var b := LeaveAll(Batch(w, []), handles);
    DeleteKeeps(b.world, norm, SetOf(b.contacts), flushed, removed);
  }

  // ---- Phase 3 ----

  /** The handle the server gives to a contact that is added is the one it is indexed under. */
  predicate StableHandle(w: World, c: Contact, a: Answer) {
    a.handle.Some? ==> forall h :: h in w.byHandle && h > 0 && w.byHandle[h] == c ==> h == a.handle.value
  }

  /** A server that normalises names, and does not fail between that and the end. */
  predicate Orderly(w: World, norm: Norm, c: Contact, a: Answer) {
    && Possible(a) && StableHandle(w, c, a)
    && (a.name.Some? ==> a.name.value == norm(NameOf(At(w, c))) && norm(a.name.value) == a.name.value)
    && (a.verdict.OtherError? && CONTACT_INVALID !in At(w, c).flags ==> !Renames(w, c, a))
  }

  predicate Renames(w: World, c: Contact, a: Answer) {
    a.name.Some? && a.name.value != NameOf(At(w, c))
  }

  predicate Waiting(w: World, c: Contact) {
    c in w.heap && At(w, c).uid in w.toAdd && w.toAdd[At(w, c).uid] == c
  }

  /** A contact that keeps its name: only its handle and its flags change. */
  lemma SameNameKeeps(w: World, norm: Norm, c: Contact, d: ContactData)
    requires Inv(w, norm) && Waiting(w, c)
    requires d.uid == At(w, c).uid && d.name == At(w, c).name
    requires forall h :: h in w.byHandle && h > 0 && w.byHandle[h] == c ==> h == d.handle
    requires CONTACT_INVALID in At(w, c).flags ==> CONTACT_INVALID in d.flags
    requires CONTACT_UNSEEN in d.flags ==> CONTACT_UNSEEN in At(w, c).flags
    ensures Inv(Put(w, c, d), norm)
  {
    var w' := Put(w, c, d);
    assert forall x :: x in w.heap && x != c ==> At(w', x) == At(w, x);
    EntriesSurvive(w, w');
    hide UidEntry, NameEntry;
    forall h | h in w'.byHandle && h > 0 ensures HandleEntry(w', norm, h, w'.byHandle[h]) {
      assert HandleEntry(w, norm, h, w.byHandle[h]);
    }
    forall u | u in w'.toAdd ensures AddEntry(w', norm, u, w'.toAdd[u]) { assert AddEntry(w, norm, u, w.toAdd[u]); }
  }

  /** A contact whose name is not final is in the indexes, and no handle points to it. */
  lemma RenamedIsLive(w: World, norm: Norm, c: Contact, a: Answer)
    requires Inv(w, norm) && Waiting(w, c) && Orderly(w, norm, c, a)
    requires CONTACT_INVALID !in At(w, c).flags && Renames(w, c, a)
    ensures Live(w, c) && At(w, c).name.Some? && CONTACT_UNSEEN !in At(w, c).flags
    ensures forall h :: h in w.byHandle && h > 0 ==> w.byHandle[h] != c
  {
    assert AddEntry(w, norm, At(w, c).uid, c);
    forall h | h in w.byHandle && h > 0 ensures w.byHandle[h] != c { assert HandleEntry(w, norm, h, w.byHandle[h]); }
  }

  /** The state between the new name and its entry: `c` has left the name index. */
  predicate Between(w: World, norm: Norm, c: Contact) {
    && (forall u :: u in w.byUid ==> if w.byUid[u] == c then u == At(w, c).uid else UidEntry(w, u, w.byUid[u]))
    && (forall n :: n in w.byName ==> w.byName[n] != c && NameEntry(w, n, w.byName[n]))
    && Live(w, c) && At(w, c).name.Some? && IsNormal(norm, At(w, c))
    && (forall h :: h in w.byHandle && h > 0 ==> w.byHandle[h] != c && HandleEntry(w, norm, h, w.byHandle[h]))
    && AddsSettled(w, norm)
  }

  /** The contact was written under another name, and left the name index. */
  predicate LeftIndex(w: World, c: Contact, d: ContactData, w': World) {
    w' == Put(w, c, d).(byName := w.byName - {NameOf(At(w, c))})
  }

  lemma RenamedIndexes(w: World, c: Contact, d: ContactData, w': World)
    requires Coherent(w) && Live(w, c) && LeftIndex(w, c, d, w')
    requires d.uid == At(w, c).uid && d.name.Some? && d.name != At(w, c).name
    ensures forall u :: u in w'.byUid ==> if w'.byUid[u] == c then u == At(w', c).uid else UidEntry(w', u, w'.byUid[u])
    ensures forall n :: n in w'.byName ==> w'.byName[n] != c && NameEntry(w', n, w'.byName[n])
  {
    assert UidEntry(w, At(w, c).uid, c);
    assert forall x :: x in w.heap && x != c ==> At(w', x) == At(w, x);
    forall u | u in w'.byUid
      ensures if w'.byUid[u] == c then u == At(w', c).uid else UidEntry(w', u, w'.byUid[u])
    {
      assert UidEntry(w, u, w.byUid[u]);
    }
    forall n | n in w'.byName ensures w'.byName[n] != c && NameEntry(w', n, w'.byName[n]) {
      assert NameEntry(w, n, w.byName[n]);
    }
  }

  lemma RenamedRest(w: World, norm: Norm, c: Contact, d: ContactData, w': World)
    requires HandlesLive(w, norm) && AddsSettled(w, norm) && Live(w, c) && LeftIndex(w, c, d, w')
    requires d.uid == At(w, c).uid && d.name.Some? && IsNormal(norm, d)
    requires forall h :: h in w.byHandle && h > 0 ==> w.byHandle[h] != c
    ensures Live(w', c) && At(w', c) == d && AddsSettled(w', norm)
    ensures forall h :: h in w'.byHandle && h > 0 ==> w'.byHandle[h] != c && HandleEntry(w', norm, h, w'.byHandle[h])
  {
    assert forall x :: x in w.heap && x != c ==> At(w', x) == At(w, x);
    forall h | h in w'.byHandle && h > 0 ensures HandleEntry(w', norm, h, w'.byHandle[h]) {
      assert HandleEntry(w, norm, h, w.byHandle[h]);
    }
    forall u | u in w'.toAdd ensures AddEntry(w', norm, u, w'.toAdd[u]) { assert AddEntry(w, norm, u, w.toAdd[u]); }
  }

  lemma RenamedBetween(w: World, norm: Norm, c: Contact, d: ContactData)
    requires Inv(w, norm) && Live(w, c) && At(w, c).name.Some?
    requires d.uid == At(w, c).uid && d.name.Some? && d.name != At(w, c).name && IsNormal(norm, d)
    requires forall h :: h in w.byHandle && h > 0 ==> w.byHandle[h] != c
    ensures Between(Put(w, c, d).(byName := w.byName - {NameOf(At(w, c))}), norm, c)
  {
    var w' := Put(w, c, d).(byName := w.byName - {NameOf(At(w, c))});
    RenamedIndexes(w, c, d, w');
    RenamedRest(w, norm, c, d, w');
    hide UidEntry, NameEntry, HandleEntry, AddsSettled, Coherent, HandlesLive, Live, At, NameOf;
  }

  /** Nobody has the new name: the contact gets it. */
  lemma InsertKeeps(w: World, norm: Norm, c: Contact)
    requires Between(w, norm, c) && NameOf(At(w, c)) !in w.byName
    ensures Inv(w.(byName := w.byName[NameOf(At(w, c)) := c]), norm)
  {
    var w' := w.(byName := w.byName[NameOf(At(w, c)) := c]);
    assert forall x :: At(w', x) == At(w, x);
    forall u | u in w'.byUid ensures UidEntry(w', u, w'.byUid[u]) {
      if w.byUid[u] != c { assert UidEntry(w, u, w.byUid[u]); }
    }
    forall n | n in w'.byName ensures NameEntry(w', n, w'.byName[n]) {
      if n in w.byName { assert NameEntry(w, n, w.byName[n]); }
    }
    forall h | h in w'.byHandle && h > 0 ensures HandleEntry(w', norm, h, w'.byHandle[h]) {
      assert HandleEntry(w, norm, h, w.byHandle[h]);
    }
    forall u | u in w'.toAdd ensures AddEntry(w', norm, u, w'.toAdd[u]) { assert AddEntry(w, norm, u, w.toAdd[u]); }
  }

  /** The indexes after a merge: the source is out, the destination is in again. */
  predicate Merged(w: World, dest: Contact, c: Contact, w': World) {
    var d, s := At(w, dest), At(w, c);
    && w'.heap == w.heap[dest := MergeData(d, s)]
    && w'.byUid == (w.byUid - {s.uid})[d.uid := dest]
    && w'.byName == (w.byName - {NameOf(s)})[NameOf(d) := dest]
    && w'.byHandle == (w.byHandle - HandlesTaken(s))[d.handle := dest]
    && w'.toAdd == w.toAdd
  }

  function HandlesTaken(d: ContactData): set<nat> {
    if d.handle > 0 then {d.handle} else {}
  }

  lemma DeleteShape(w: World, c: Contact, flushed: bool, removed: bool)
    requires At(w, c).name.Some?
    ensures var w' := DeleteContacts(w, {c}, flushed, removed);
      && w'.heap == w.heap && w'.toAdd == w.toAdd
      && w'.byUid == w.byUid - {At(w, c).uid} && w'.byName == w.byName - {NameOf(At(w, c))}
      && w'.byHandle == w.byHandle - HandlesTaken(At(w, c))
  {
    hide UpdateMany, DeleteMany, Tell, Forget, VisibleOf, At;
    assert UidsOf(w, {c}) == {At(w, c).uid};
    assert NamesOf(w, {c}) == {NameOf(At(w, c))};
    assert HandlesOf(w, {c}) == HandlesTaken(At(w, c));
  }

  lemma MergeShape(w: World, dest: Contact, c: Contact, flushed: bool, removed: bool)
    requires dest != c && At(w, c).name.Some?
    ensures Merged(w, dest, c, Merge(w, dest, c, flushed, removed))
  {
    hide MergeData, DeleteContacts, Tell, HandlesTaken;
    var merged := Announce(Put(w, dest, MergeData(At(w, dest), At(w, c))), dest);
    MergeDataKeeps(At(w, dest), At(w, c));
    assert At(merged, c) == At(w, c);
    DeleteShape(merged, c, flushed, removed);
    var left := DeleteContacts(merged, {c}, flushed, removed);
    assert At(left, dest) == MergeData(At(w, dest), At(w, c));
  }

  /** Somebody has the new name: the two become one, and the destination is back in all tables. */
  lemma MergeHeap(w: World, norm: Norm, dest: Contact, c: Contact, w': World)
    requires Between(w, norm, c) && NameOf(At(w, c)) in w.byName && w.byName[NameOf(At(w, c))] == dest
    requires Merged(w, dest, c, w')
    ensures dest != c && Live(w, dest) && At(w, dest).name == At(w, c).name && At(w, dest).uid != At(w, c).uid
    ensures At(w', dest) == MergeData(At(w, dest), At(w, c))
    ensures forall x :: x in w.heap && x != dest ==> At(w', x) == At(w, x)
    ensures forall x :: x in w.heap ==> x in w'.heap && At(w', x).uid == At(w, x).uid && At(w', x).name == At(w, x).name
    ensures w'.byUid == w.byUid - {At(w, c).uid} && w'.byName == w.byName
  {
    assert NameEntry(w, NameOf(At(w, c)), dest);
    hide MergeData, HandlesTaken;
    MergeDataKeeps(At(w, dest), At(w, c));
  }

  lemma MergeEntries(w: World, norm: Norm, dest: Contact, c: Contact, w': World)
    requires Between(w, norm, c) && NameOf(At(w, c)) in w.byName && w.byName[NameOf(At(w, c))] == dest
    requires Merged(w, dest, c, w')
    ensures Coherent(w') && forall x :: Live(w, x) && x != c ==> Live(w', x)
  {
    MergeHeap(w, norm, dest, c, w');
    hide MergeData, HandlesTaken, At, Merged;
    forall u | u in w'.byUid ensures UidEntry(w', u, w'.byUid[u]) { assert w.byUid[u] != c; }
    forall m | m in w'.byName ensures NameEntry(w', m, w'.byName[m]) { assert NameEntry(w, m, w.byName[m]); }
  }

  lemma MergeHandles(w: World, norm: Norm, dest: Contact, c: Contact, w': World)
    requires Between(w, norm, c) && NameOf(At(w, c)) in w.byName && w.byName[NameOf(At(w, c))] == dest
    requires Merged(w, dest, c, w') && forall x :: Live(w, x) && x != c ==> Live(w', x)
    ensures HandlesLive(w', norm)
  {
    var d := At(w, dest);
    MergeHeap(w, norm, dest, c, w');
    MergeDataKeeps(d, At(w, c));
    assert IsNormal(norm, d) && d.name == At(w, c).name;
    hide MergeData, Live, UidEntry, NameEntry, AddsSettled, At, NameOf;
    forall h | h in w'.byHandle && h > 0 ensures HandleEntry(w', norm, h, w'.byHandle[h]) {
      if h != d.handle { assert HandleEntry(w, norm, h, w.byHandle[h]); }
    }
  }

  lemma MergeAdds(w: World, norm: Norm, dest: Contact, c: Contact, w': World)
    requires Between(w, norm, c) && NameOf(At(w, c)) in w.byName && w.byName[NameOf(At(w, c))] == dest
    requires Merged(w, dest, c, w') && forall x :: Live(w, x) && x != c ==> Live(w', x)
    ensures AddsSettled(w', norm)
  {
    MergeHeap(w, norm, dest, c, w');
    MergeDataKeeps(At(w, dest), At(w, c));
    assert w'.toAdd == w.toAdd;
    assert forall u :: u in w.toAdd ==> AddEntry(w, norm, u, w.toAdd[u]);
    assert IsNormal(norm, At(w, c));
    hide MergeData, Live, UidEntry, NameEntry, HandleEntry, At, NameOf, Between, Merged;
    forall u | u in w'.toAdd ensures AddEntry(w', norm, u, w'.toAdd[u]) { assert AddEntry(w, norm, u, w.toAdd[u]); }
  }

  lemma MergeKeeps(w: World, norm: Norm, dest: Contact, c: Contact, w': World)
    requires Between(w, norm, c) && NameOf(At(w, c)) in w.byName && w.byName[NameOf(At(w, c))] == dest
    requires Merged(w, dest, c, w')
    ensures Inv(w', norm)
  {
    hide Between, Merged, Live, At, NameOf, Coherent, HandlesLive, AddsSettled;
    MergeEntries(w, norm, dest, c, w');
    MergeHandles(w, norm, dest, c, w');
    MergeAdds(w, norm, dest, c, w');
  }

  lemma MergeDataKeeps(d: ContactData, s: ContactData)
    ensures var m := MergeData(d, s);
      m.uid == d.uid && m.name == d.name && m.handle == d.handle && m.flags == d.flags
  {}

  /** Taking a contact off the list of those to add. */
  lemma OneAddLess(w: World, norm: Norm, uid: string)
    requires Inv(w, norm)
    ensures Inv(w.(toAdd := w.toAdd - {uid}), norm)
  {
    var w' := w.(toAdd := w.toAdd - {uid});
    EntriesSurvive(w, w');
    forall h | h in w'.byHandle && h > 0 ensures HandleEntry(w', norm, h, w'.byHandle[h]) {
      assert HandleEntry(w, norm, h, w.byHandle[h]);
    }
    forall u | u in w'.toAdd ensures AddEntry(w', norm, u, w'.toAdd[u]) { assert AddEntry(w, norm, u, w.toAdd[u]); }
  }

  lemma RenameKeeps(b: Batch, norm: Norm, c: Contact, was: string, flushed: bool, removed: bool)
    requires Between(b.world.(byName := b.world.byName - {was}), norm, c)
    ensures Inv(Rename(b, c, was, flushed, removed).world, norm)
  {
    var w := b.world.(byName := b.world.byName - {was});
    var name := NameOf(At(w, c));
    hide Inv, Merge, Merged;
    if name in w.byName {
      assert w.byName[name] != c;
      MergeShape(w, w.byName[name], c, flushed, removed);
      MergeKeeps(w, norm, w.byName[name], c, Merge(w, w.byName[name], c, flushed, removed));
    } else {
      InsertKeeps(w, norm, c);
    }
  }

  /** What `run_add_contact` leaves alone. */
  lemma RunAddKeeps(d: ContactData, a: Answer)
    requires Possible(a)
    ensures var (d', added) := RunAdd(d, a);
      && d'.uid == d.uid && (CONTACT_INVALID in d.flags ==> d' == d && added)
      && (CONTACT_INVALID in d.flags ==> CONTACT_INVALID in d'.flags)
      && (CONTACT_UNSEEN in d'.flags ==> CONTACT_UNSEEN in d.flags)
      && (CONTACT_INVALID !in d.flags ==>
            && d'.name == (if a.name.Some? then a.name else d.name)
            && d'.handle == (if a.handle.Some? then a.handle.value else d.handle)
            && (!added <==> a.verdict.OtherError?))
  {}

  lemma SyncAddKeeps(b: Batch, norm: Norm, c: Contact, a: Answer, flushed: bool, removed: bool)
    requires Inv(b.world, norm) && Waiting(b.world, c) && Orderly(b.world, norm, c, a)
    ensures Inv(SyncAdd(b, c, a, flushed, removed).world, norm)
  {
    var w, d := b.world, At(b.world, c);
    var (d', added) := RunAdd(d, a);
    assert AddEntry(w, norm, d.uid, c);
    RunAddKeeps(d, a);
    assert forall h :: h in w.byHandle && h > 0 && w.byHandle[h] == c ==> HandleEntry(w, norm, h, c);
    if NameOf(d) == NameOf(d') {
      SyncAddSameName(b, norm, c, a, flushed, removed);
    } else {
      RenamedIsLive(w, norm, c, a);
      SyncAddNewName(b, norm, c, a, flushed, removed);
    }
  }

  lemma SyncAddSameName(b: Batch, norm: Norm, c: Contact, a: Answer, flushed: bool, removed: bool)
    requires Inv(b.world, norm) && Waiting(b.world, c) && Orderly(b.world, norm, c, a)
    requires NameOf(At(b.world, c)) == NameOf(RunAdd(At(b.world, c), a).0)
    ensures Inv(SyncAdd(b, c, a, flushed, removed).world, norm)
  {
    var w, d := b.world, At(b.world, c);
    var (d', added) := RunAdd(d, a);
    assert AddEntry(w, norm, d.uid, c);
    RunAddKeeps(d, a);
    assert forall h :: h in w.byHandle && h > 0 && w.byHandle[h] == c ==> HandleEntry(w, norm, h, c);
    var settled := if added then d'.(pendingFlags := d'.pendingFlags - {SCHEDULE_ADD}) else d';
    hide Inv, RunAdd, AddEntry, HandleEntry, Orderly;
    assert d'.name == d.name;
    SameNameKeeps(w, norm, c, settled);
    OneAddLess(Put(w, c, settled), norm, d.uid);
  }

  lemma SyncAddNewName(b: Batch, norm: Norm, c: Contact, a: Answer, flushed: bool, removed: bool)
    requires Inv(b.world, norm) && Waiting(b.world, c) && Orderly(b.world, norm, c, a) && Live(b.world, c)
    requires NameOf(At(b.world, c)) != NameOf(RunAdd(At(b.world, c), a).0) && At(b.world, c).name.Some?
    requires forall h :: h in b.world.byHandle && h > 0 ==> b.world.byHandle[h] != c
    ensures Inv(SyncAdd(b, c, a, flushed, removed).world, norm)
  {
    var w, d := b.world, At(b.world, c);
    var (d', added) := RunAdd(d, a);
    RunAddKeeps(d, a);
    assert added && d'.name == a.name && IsNormal(norm, d');
    var settled := d'.(pendingFlags := d'.pendingFlags - {SCHEDULE_ADD});
    hide Inv, RunAdd, Orderly, Between, Rename;
    RenamedBetween(w, norm, c, settled);
    var renamed := Rename(Batch(Put(w, c, settled), b.contacts), c, NameOf(d), flushed, removed);
    RenameKeeps(Batch(Put(w, c, settled), b.contacts), norm, c, NameOf(d), flushed, removed);
    OneAddLess(renamed.world, norm, d.uid);
  }

  /** The environment of one step of phase 3. */
  predicate StepAllowed(w: World, norm: Norm, s: SyncStep) {
    s.StepAdd? ==> Waiting(w, s.c) && Orderly(w, norm, s.c, s.answer)
  }

  predicate StepsAllowed(b: Batch, norm: Norm, steps: seq<SyncStep>)
    decreases |steps|
  {
    steps == [] || (StepAllowed(b.world, norm, steps[0]) && StepsAllowed(SyncOne(b, steps[0]), norm, steps[1..]))
  }

  lemma SyncOneKeeps(b: Batch, norm: Norm, s: SyncStep)
    requires Inv(b.world, norm) && StepAllowed(b.world, norm, s)
    ensures Inv(SyncOne(b, s).world, norm)
  {
    hide Inv, SyncAdd;
    match s {
      case StepUpdate(c, unblocked) =>
        PutKeeps(b.world, norm, c, RunUpdate(At(b.world, c), unblocked));
      case StepAdd(c, a, flushed, removed) =>
        SyncAddKeeps(b, norm, c, a, flushed, removed);
      case StepDelete(c, removed) =>
        var d := At(b.world, c);
        var w := Put(b.world, c, d.(pendingFlags := d.pendingFlags - {SCHEDULE_DELETE}));
        PutKeeps(b.world, norm, c, d.(pendingFlags := d.pendingFlags - {SCHEDULE_DELETE}));
        OnlyIndexesMatter(w, w.(toDelete := w.toDelete - {d.uid}), norm);
    }
  }

  lemma {:induction false} SyncAllKeeps(b: Batch, norm: Norm, steps: seq<SyncStep>)
    requires Inv(b.world, norm) && StepsAllowed(b, norm, steps)
    ensures Inv(SyncAll(b, steps).world, norm)
    decreases |steps|
  {
    hide Inv, SyncOne, StepAllowed;
    if steps != [] {
      SyncOneKeeps(b, norm, steps[0]);
      SyncAllKeeps(SyncOne(b, steps[0]), norm, steps[1..]);
    }
  }

  lemma Phase3Keeps(w: World, norm: Norm, steps: seq<SyncStep>, stored: bool)
    requires Inv(w, norm) && StepsAllowed(Batch(w, []), norm, steps)
    ensures Inv(Phase3(w, steps, stored), norm)
  {
    hide Inv, SyncAll, StepsAllowed, UpdateAll;
    SyncAllKeeps(Batch(w, []), norm, steps);
    OnlyIndexesMatter(SyncAll(Batch(w, []), steps).world, Phase3(w, steps, stored), norm);
  }

  /** Exactly which failed additions of a contact in the indexes break them: those that fail after
      the server gave another name. The contact then has a name that the index does not know. */
  lemma LateFailureBreaks(b: Batch, norm: Norm, c: Contact, a: Answer, flushed: bool, removed: bool)
    requires Inv(b.world, norm) && Waiting(b.world, c) && Live(b.world, c)
    requires CONTACT_INVALID !in At(b.world, c).flags
    requires Possible(a) && StableHandle(b.world, c, a) && a.verdict.OtherError?
    ensures Coherent(SyncAdd(b, c, a, flushed, removed).world) <==> !Renames(b.world, c, a)
  {
    var w, d := b.world, At(b.world, c);
    var d' := RunAdd(d, a).0;
    RunAddKeeps(d, a);
    assert UidEntry(w, d.uid, c);
    var w' := Put(w, c, d');
    assert SyncAdd(b, c, a, flushed, removed).world == w';
    if Renames(w, c, a) {
      assert NameEntry(w, NameOf(d), c);
      assert !NameEntry(w', NameOf(d), w'.byName[NameOf(d)]);
    } else {
      assert forall x :: x in w.heap && x != c ==> At(w', x) == At(w, x);
      assert d'.name == d.name;
      hide RunAdd;
      EntriesSurvive(w, w');
    }
  }
}
