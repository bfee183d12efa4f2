/** Phases 0 to 2 without interleaved events: the known contacts become exactly those of the roster
    and those that wait for the server, and the cache follows. */
module Reconcile {
  import opened Text
  import opened Flags
  import opened ContactValues
  import opened Contacts
  import opened Store
  import opened StoreBatches
  import opened Fetch
  import opened Uids
  import opened Worlds
  import opened Coherence
  import opened CoherentRuns
  import opened CoherentRequests

  function NamesIn(arrivals: seq<Arrival>): set<string> {
    set a | a in arrivals :: NameOf(a.data)
  }

  function HandlesIn(arrivals: seq<Arrival>): set<nat> {
    set a | a in arrivals :: a.data.handle
  }

  /** A roster: named contacts, new objects, one contact per name and per handle. */
  predicate Roster(w: World, members: seq<Arrival>) {
    && (forall i :: 0 <= i < |members| ==> RosterOne(w, members[i]))
    && (forall i, j :: 0 <= i < j < |members| ==> Different(members[i], members[j]))
  }

  predicate RosterOne(w: World, a: Arrival) {
    a.data.name.Some? && NewIfUnknown(w, a) && a.data.handle > 0 && CONTACT_UNSEEN !in a.data.flags
  }

  predicate Different(a: Arrival, b: Arrival) {
    a.id != b.id && a.data.handle != b.data.handle && NameOf(a.data) != NameOf(b.data)
  }

  // ---- Phase 1, member by member ----

  /** What a cached contact keeps, and whether it still counts as unseen. */
  predicate Cached(before: ContactData, d: ContactData, seen: bool) {
    && d.uid == before.uid && d.name == before.name && d.masterUids == before.masterUids && d.variants == before.variants
    && if seen then CONTACT_UNSEEN !in d.flags else d == before
  }

  predicate CachedAll(l: World, done: seq<Arrival>, w: World) {
    forall n :: n in l.byName ==>
      n in w.byName && w.byName[n] == l.byName[n] && Cached(At(l, l.byName[n]), At(w, l.byName[n]), n in NamesIn(done))
  }

  predicate NewAreSeen(l: World, w: World) {
    forall n :: n in w.byName && n !in l.byName ==> CONTACT_UNSEEN !in At(w, w.byName[n]).flags
  }

  predicate HandlesMet(w: World, done: seq<Arrival>) {
    w.byHandle.Keys == HandlesIn(done) && forall a :: a in done ==> ByHandle(w, a)
  }

  predicate ByHandle(w: World, a: Arrival) {
    && a.data.handle in w.byHandle && NameOf(a.data) in w.byName
    && w.byHandle[a.data.handle] == w.byName[NameOf(a.data)]
  }

  /** The contacts to be added have new uids, one each, and the names of members. */
  predicate New(l: World, done: seq<Arrival>, s: Intake) {
    && s.world.byUid.Keys == l.byUid.Keys + ByUid(DataAt(s.world, s.toAdd)).Keys
    && (forall c :: c in s.toAdd ==> c in s.world.heap)
    && NewAll(l, done, DataAt(s.world, s.toAdd))
  }

  predicate NewAll(l: World, done: seq<Arrival>, ds: seq<ContactData>) {
    DistinctUids(ds) && forall d :: d in ds ==> NewOne(l, done, d)
  }

  predicate NewOne(l: World, done: seq<Arrival>, d: ContactData) {
    d.uid !in l.byUid && d.name.Some? && NameOf(d) in NamesIn(done)
  }

  /** The state after the members in `done`, from the loaded state `l`. */
  predicate Met(l: World, done: seq<Arrival>, s: Intake) {
    && s.world.byName.Keys == l.byName.Keys + NamesIn(done)
    && CachedAll(l, done, s.world) && NewAreSeen(l, s.world) && HandlesMet(s.world, done) && New(l, done, s)
    && s.world.db == l.db && s.world.dirty == l.dirty
  }

  lemma NamesSnoc(done: seq<Arrival>, a: Arrival)
    ensures NamesIn(done + [a]) == NamesIn(done) + {NameOf(a.data)}
    ensures HandlesIn(done + [a]) == HandlesIn(done) + {a.data.handle}
  {
    hide NameOf;
    assert forall x :: x in done + [a] <==> x in done || x == a;
  }

  /** One contact was written and indexed under its handle. */
  predicate Written(w: World, c: Contact, d: ContactData, w': World) {
    && w'.heap == w.heap[c := d] && w'.byHandle == w.byHandle[d.handle := c] && w'.db == w.db && w'.dirty == w.dirty
  }

  lemma MeetKnownShape(s: Intake, path: string, a: Arrival)
    requires NameOf(a.data) in s.world.byName && a.data.handle !in s.world.byHandle
    ensures var w, s', c := s.world, Meet(s, path, a), s.world.byName[NameOf(a.data)];
      && Written(w, c, Refreshed(At(w, c), a.data), s'.world) && s'.toAdd == s.toAdd
      && s'.world.byName == w.byName && s'.world.byUid == w.byUid
  {
    hide Newer, At, NameOf;
  }

  lemma MeetNewShape(s: Intake, path: string, a: Arrival)
    requires NameOf(a.data) !in s.world.byName && a.data.handle !in s.world.byHandle
    ensures var w, s', d := s.world, Meet(s, path, a), WithUid(s.world, path, a.data);
      && Written(w, a.id, d, s'.world) && s'.toAdd == s.toAdd + [a.id]
      && s'.world.byName == w.byName[NameOf(a.data) := a.id] && s'.world.byUid == w.byUid[d.uid := a.id]
      && d.uid !in w.byUid && d == a.data.(uid := d.uid)
  {
    hide FreshUid, At, NameOf;
  }

  lemma HandlesStep(w: World, done: seq<Arrival>, a: Arrival, c: Contact, d: ContactData, w': World)
    requires HandlesMet(w, done) && Written(w, c, d, w') && d.handle == a.data.handle
    requires a.data.handle !in HandlesIn(done) && NameOf(a.data) !in NamesIn(done)
    requires w'.byName == w.byName[NameOf(a.data) := c]
    ensures HandlesMet(w', done + [a])
  {
    NamesSnoc(done, a);
    hide NameOf;
    forall x | x in done + [a] ensures ByHandle(w', x) {
      if x in done { assert ByHandle(w, x) && NameOf(x.data) in NamesIn(done) && x.data.handle in HandlesIn(done); }
    }
  }

  /** Only the contact that was written has changed. */
  lemma OthersUntouched(w: World, c: Contact, d: ContactData, w': World)
    requires Coherent(w) && Written(w, c, d, w')
    ensures At(w', c) == d
    ensures forall x :: x != c ==> At(w', x) == At(w, x)
    ensures forall n :: n in w.byName ==> w.byName[n] in w.heap && At(w, w.byName[n]).name == Some(n)
  {
    forall n | n in w.byName ensures w.byName[n] in w.heap && At(w, w.byName[n]).name == Some(n) {
      assert NameEntry(w, n, w.byName[n]);
    }
  }

  lemma CachedStep(l: World, done: seq<Arrival>, a: Arrival, w: World, c: Contact, d: ContactData, w': World)
    requires Coherent(w) && Written(w, c, d, w') && CachedAll(l, done, w) && NameOf(a.data) !in NamesIn(done)
    requires w'.byName == w.byName[NameOf(a.data) := c]
    requires if NameOf(a.data) in l.byName then c == l.byName[NameOf(a.data)] && Cached(At(w, c), d, true)
             else c !in w.heap || (NameOf(a.data) in w.byName && c == w.byName[NameOf(a.data)])
    ensures CachedAll(l, done + [a], w')
  {
    NamesSnoc(done, a);
    OthersUntouched(w, c, d, w');
    hide Coherent, At, NameOf, Written;
    forall n | n in l.byName
      ensures n in w'.byName && w'.byName[n] == l.byName[n]
      ensures Cached(At(l, l.byName[n]), At(w', l.byName[n]), n in NamesIn(done + [a]))
    {
      if n != NameOf(a.data) { assert w.byName[n] != c; }
    }
  }

  lemma SeenStep(l: World, a: Arrival, w: World, c: Contact, d: ContactData, w': World)
    requires Coherent(w) && Written(w, c, d, w') && NewAreSeen(l, w) && CONTACT_UNSEEN !in d.flags
    requires w'.byName == w.byName[NameOf(a.data) := c]
    ensures NewAreSeen(l, w')
  {
    OthersUntouched(w, c, d, w');
    hide Coherent, At, NameOf, Written;
  }

  lemma KnownFacts(s: Intake, path: string, a: Arrival)
    requires Coherent(s.world) && NameOf(a.data) in s.world.byName && a.data.handle !in s.world.byHandle
    ensures var w, s', c := s.world, Meet(s, path, a), s.world.byName[NameOf(a.data)];
      var d := Refreshed(At(w, c), a.data);
      && Written(w, c, d, s'.world) && s'.toAdd == s.toAdd
      && s'.world.byName == w.byName == w.byName[NameOf(a.data) := c] && s'.world.byUid == w.byUid
      && Cached(At(w, c), d, true) && d.handle == a.data.handle && CONTACT_UNSEEN !in d.flags
  {
    MeetKnownShape(s, path, a);
    hide Written, Meet, Newer;
  }

  /** A member whose name is known. */
  lemma MeetKnown(l: World, done: seq<Arrival>, s: Intake, path: string, a: Arrival)
    requires Coherent(s.world) && Met(l, done, s)
    requires NameOf(a.data) !in NamesIn(done) && a.data.handle !in HandlesIn(done)
    requires NameOf(a.data) in s.world.byName
    ensures Met(l, done + [a], Meet(s, path, a))
  {
    hide *;
    var w, s', c := s.world, Meet(s, path, a), s.world.byName[NameOf(a.data)];
    var d := Refreshed(At(w, c), a.data);
    MetParts(l, done, s);
    KnownFacts(s, path, a);
    HandlesStep(w, done, a, c, d, s'.world);
    KnownIsCached(l, done, s, a);
    CachedStep(l, done, a, w, c, d, s'.world);
    SeenStep(l, a, w, c, d, s'.world);
    SameNew(l, done, a, s, c, d, s');
    MetWhole(l, done, s, a, c, d, s');
  }

  lemma MetParts(l: World, done: seq<Arrival>, s: Intake)
    requires Met(l, done, s)
    ensures CachedAll(l, done, s.world) && NewAreSeen(l, s.world) && HandlesMet(s.world, done) && New(l, done, s)
    ensures s.world.byName.Keys == l.byName.Keys + NamesIn(done) && s.world.byHandle.Keys == HandlesIn(done)
  {}

  lemma KnownIsCached(l: World, done: seq<Arrival>, s: Intake, a: Arrival)
    requires Met(l, done, s) && NameOf(a.data) in l.byName
    ensures NameOf(a.data) in s.world.byName && s.world.byName[NameOf(a.data)] == l.byName[NameOf(a.data)]
  {}

  lemma MetWhole(l: World, done: seq<Arrival>, s: Intake, a: Arrival, c: Contact, d: ContactData, s': Intake)
    requires Met(l, done, s) && Written(s.world, c, d, s'.world) && s'.world.byName == s.world.byName[NameOf(a.data) := c]
    requires CachedAll(l, done + [a], s'.world) && NewAreSeen(l, s'.world) && HandlesMet(s'.world, done + [a])
    requires New(l, done + [a], s')
    ensures Met(l, done + [a], s')
  {
    NamesSnoc(done, a);
    hide CachedAll, NewAreSeen, HandlesMet, New, NameOf, NamesIn;
  }

  /** The contacts to be added are not those with another member's name. */
  lemma SameNew(l: World, done: seq<Arrival>, a: Arrival, s: Intake, c: Contact, d: ContactData, s': Intake)
    requires Coherent(s.world) && New(l, done, s) && Written(s.world, c, d, s'.world)
    requires NameOf(a.data) !in NamesIn(done) && NameOf(a.data) in s.world.byName && c == s.world.byName[NameOf(a.data)]
    requires s'.toAdd == s.toAdd && s'.world.byUid == s.world.byUid
    ensures New(l, done + [a], s')
  {
    var w, w' := s.world, s'.world;
    OthersUntouched(w, c, d, w');
    forall i | 0 <= i < |s.toAdd| ensures At(w', s.toAdd[i]) == At(w, s.toAdd[i]) {
      assert DataAt(w, s.toAdd)[i] in DataAt(w, s.toAdd);
    }
    assert DataAt(w', s.toAdd) == DataAt(w, s.toAdd);
    assert w.heap.Keys <= w'.heap.Keys;
    NamesSnoc(done, a);
    hide DataAt, At, NameOf, ByUid, Coherent, Written;
  }

  lemma NewFacts(s: Intake, path: string, a: Arrival)
    requires NameOf(a.data) !in s.world.byName && a.data.handle !in s.world.byHandle
    requires RosterOne(s.world, a)
    ensures var w, s', d := s.world, Meet(s, path, a), WithUid(s.world, path, a.data);
      && Written(w, a.id, d, s'.world) && s'.toAdd == s.toAdd + [a.id] && a.id !in w.heap
      && s'.world.byName == w.byName[NameOf(a.data) := a.id] && s'.world.byUid == w.byUid[d.uid := a.id]
      && d.uid !in w.byUid && d.handle == a.data.handle && d.name == a.data.name && d.name.Some?
      && CONTACT_UNSEEN !in d.flags && NameOf(d) == NameOf(a.data)
  {
    MeetNewShape(s, path, a);
    hide Written, Meet, FreshUid;
  }

  /** A member nobody knew. */
  lemma MeetNew(l: World, done: seq<Arrival>, s: Intake, path: string, a: Arrival)
    requires Coherent(s.world) && Met(l, done, s) && RosterOne(s.world, a)
    requires NameOf(a.data) !in NamesIn(done) && a.data.handle !in HandlesIn(done)
    requires NameOf(a.data) !in s.world.byName
    ensures Met(l, done + [a], Meet(s, path, a))
  {
    hide *;
    var w, s', d := s.world, Meet(s, path, a), WithUid(s.world, path, a.data);
    MetParts(l, done, s);
    NewFacts(s, path, a);
    HandlesStep(w, done, a, a.id, d, s'.world);
    CachedStep(l, done, a, w, a.id, d, s'.world);
    SeenStep(l, a, w, a.id, d, s'.world);
    OneMoreNew(l, done, a, s, d, s');
    MetWhole(l, done, s, a, a.id, d, s');
  }

  lemma OneMoreNew(l: World, done: seq<Arrival>, a: Arrival, s: Intake, d: ContactData, s': Intake)
    requires New(l, done, s) && Written(s.world, a.id, d, s'.world) && a.id !in s.world.heap
    requires s'.toAdd == s.toAdd + [a.id] && s'.world.byUid == s.world.byUid[d.uid := a.id] && d.uid !in s.world.byUid
    requires d.name.Some? && NameOf(d) == NameOf(a.data)
    ensures New(l, done + [a], s')
  {
    hide Written, DataAt, NameOf, ByUid, NewAll, At;
    var ds := DataAt(s.world, s.toAdd);
    SameData(s.world, s.toAdd, a.id, d, s'.world);
    ByUidSnoc(ds, d);
    NewAllSnoc(l, done, a, ds, d);
    WrittenKeys(s.world, a.id, d, s'.world);
  }

  lemma WrittenKeys(w: World, c: Contact, d: ContactData, w': World)
    requires Written(w, c, d, w')
    ensures w'.heap.Keys == w.heap.Keys + {c}
  {}

  lemma SameData(w: World, cs: seq<Contact>, c: Contact, d: ContactData, w': World)
    requires Written(w, c, d, w') && c !in cs
    ensures DataAt(w', cs + [c]) == DataAt(w, cs) + [d]
  {
    forall i | 0 <= i < |cs| ensures DataAt(w', cs + [c])[i] == DataAt(w, cs)[i] {}
  }

  lemma NewAllSnoc(l: World, done: seq<Arrival>, a: Arrival, ds: seq<ContactData>, d: ContactData)
    requires NewAll(l, done, ds) && d.uid !in l.byUid && d.uid !in ByUid(ds)
    requires d.name.Some? && NameOf(d) == NameOf(a.data)
    ensures NewAll(l, done + [a], ds + [d])
  {
    NamesSnoc(done, a);
    forall i | 0 <= i < |ds| ensures ds[i].uid != d.uid { assert ds[i].uid in ByUid(ds); }
  }

  lemma ByUidSnoc(ds: seq<ContactData>, d: ContactData)
    ensures ByUid(ds + [d]).Keys == ByUid(ds).Keys + {d.uid}
  {
    forall u ensures u in ByUid(ds + [d]) <==> u in ByUid(ds) || u == d.uid {
      if i :| 0 <= i < |ds| && ds[i].uid == u { assert (ds + [d])[i].uid == u; }
      if u == d.uid { assert (ds + [d])[|ds|].uid == u; }
    }
  }

  // ---- Phase 1 as a whole ----

  lemma {:induction false} MeetAllSnoc(s: Intake, path: string, done: seq<Arrival>, a: Arrival)
    ensures MeetAll(s, path, done + [a]) == Meet(MeetAll(s, path, done), path, a)
    decreases |done|
  {
    hide Meet;
    if done == [] {
      assert [] + [a] == [a] && [a][1..] == [];
    } else {
      assert (done + [a])[1..] == done[1..] + [a];
      MeetAllSnoc(Meet(s, path, done[0]), path, done[1..], a);
    }
  }

  /** The server's names as they are. */
  function Same(name: string): string {
    name
  }

  lemma RosterConsistent(w: World, members: seq<Arrival>, k: nat)
    requires Roster(w, members) && w.byHandle == map[] && k <= |members|
    ensures Consistent(w, Same, members[..k])
  {
    forall i | 0 <= i < k ensures Acceptable(w, Same, members[..k][i]) {
      assert RosterOne(w, members[i]);
    }
    forall i, j | 0 <= i < j < k ensures Compatible(members[..k][i], members[..k][j]) {
      assert Different(members[i], members[j]);
      assert RosterOne(w, members[i]) && RosterOne(w, members[j]);
    }
  }

  /** Names and handles of a roster are not met twice. */
  lemma NotMetYet(w: World, members: seq<Arrival>, k: nat)
    requires Roster(w, members) && k < |members|
    ensures NameOf(members[k].data) !in NamesIn(members[..k]) && members[k].data.handle !in HandlesIn(members[..k])
  {
    forall a | a in members[..k] ensures NameOf(a.data) != NameOf(members[k].data) && a.data.handle != members[k].data.handle {
      var i :| 0 <= i < k && members[..k][i] == a;
      assert Different(members[i], members[k]);
    }
  }

  lemma MeetOne(l: World, done: seq<Arrival>, s: Intake, path: string, a: Arrival, later: set<Contact>)
    requires Coherent(s.world) && Met(l, done, s) && RosterOne(s.world, a)
    requires NameOf(a.data) !in NamesIn(done) && a.data.handle !in HandlesIn(done)
    requires a.id !in later && forall c :: c in later ==> c !in s.world.heap
    ensures Met(l, done + [a], Meet(s, path, a))
    ensures forall c :: c in later ==> c !in Meet(s, path, a).world.heap
  {
    hide *;
    MetParts(l, done, s);
    if NameOf(a.data) in s.world.byName {
      var c := s.world.byName[NameOf(a.data)];
      MeetKnown(l, done, s, path, a);
      KnownFacts(s, path, a);
      WrittenKeys(s.world, c, Refreshed(At(s.world, c), a.data), Meet(s, path, a).world);
      OthersUntouched(s.world, c, Refreshed(At(s.world, c), a.data), Meet(s, path, a).world);
    } else {
      MeetNew(l, done, s, path, a);
      NewFacts(s, path, a);
      WrittenKeys(s.world, a.id, WithUid(s.world, path, a.data), Meet(s, path, a).world);
    }
  }

  /** The objects that the members from the k-th on get, as far as their names are new to `l`. */
  function Later(l: World, members: seq<Arrival>, k: nat): set<Contact> {
    set i | k <= i < |members| && NameOf(members[i].data) !in l.byName :: members[i].id
  }

  /** The state after the first `k` members. */
  function After(l: World, path: string, members: seq<Arrival>, k: nat): Intake
    requires k <= |members|
  {
    MeetAll(Intake(l, [], []), path, members[..k])
  }

  predicate MetUpTo(l: World, path: string, members: seq<Arrival>, k: nat)
    requires k <= |members|
  {
    var s := After(l, path, members, k);
    Met(l, members[..k], s) && Inv(s.world, Same) && forall c :: c in Later(l, members, k) ==> c !in s.world.heap
  }

  lemma LaterFacts(l: World, members: seq<Arrival>, j: nat)
    requires Roster(l, members) && j < |members|
    ensures members[..j + 1] == members[..j] + [members[j]]
    ensures RosterOne(l, members[j]) && Later(l, members, j + 1) <= Later(l, members, j)
    ensures NameOf(members[j].data) in l.byName || members[j].id in Later(l, members, j)
    ensures members[j].id !in Later(l, members, j + 1)
  {
    assert forall i :: j + 1 <= i < |members| ==> Different(members[j], members[i]);
    hide RosterOne;
  }

  lemma MetStep(l: World, path: string, members: seq<Arrival>, j: nat)
    requires Roster(l, members) && j < |members| && MetUpTo(l, path, members, j)
    requires Inv(After(l, path, members, j + 1).world, Same)
    ensures MetUpTo(l, path, members, j + 1)
  {
    hide Met, Roster, Inv, MeetAll, Meet, Later, RosterOne;
    var a, s := members[j], After(l, path, members, j);
    LaterFacts(l, members, j);
    MeetAllSnoc(Intake(l, [], []), path, members[..j], a);
    NotMetYet(l, members, j);
    NamesGrow(l, members[..j], s);
    StillNew(l, s.world, a);
    MeetOne(l, members[..j], s, path, a, Later(l, members, j + 1));
  }

  lemma StillNew(l: World, w: World, a: Arrival)
    requires RosterOne(l, a) && Inv(w, Same) && l.byName.Keys <= w.byName.Keys
    requires NameOf(a.data) in l.byName || a.id !in w.heap
    ensures RosterOne(w, a) && Coherent(w)
  {}

  lemma NamesGrow(l: World, done: seq<Arrival>, s: Intake)
    requires Met(l, done, s)
    ensures l.byName.Keys <= s.world.byName.Keys
  {}

  lemma {:induction false} MetAfter(l: World, path: string, members: seq<Arrival>, k: nat)
    requires Inv(l, Same) && l.byHandle == map[] && Roster(l, members) && k <= |members|
    ensures MetUpTo(l, path, members, k)
    decreases k
  {
    hide *;
    RosterConsistent(l, members, k);
    MeetAllKeeps(Intake(l, [], []), Same, path, members[..k]);
    if k == 0 {
      MetAtStart(l, path, members);
    } else {
      MetAfter(l, path, members, k - 1);
      AfterIs(l, path, members, k);
      MetStep(l, path, members, k - 1);
    }
  }

  lemma AfterIs(l: World, path: string, members: seq<Arrival>, k: nat)
    requires k <= |members|
    ensures After(l, path, members, k) == MeetAll(Intake(l, [], []), path, members[..k])
  {}

  lemma MetAtStart(l: World, path: string, members: seq<Arrival>)
    requires Inv(l, Same) && l.byHandle == map[] && Roster(l, members)
    ensures MetUpTo(l, path, members, 0)
  {
    NothingMet(l);
    forall c | c in Later(l, members, 0) ensures c !in l.heap {
      var i :| 0 <= i < |members| && NameOf(members[i].data) !in l.byName && members[i].id == c;
      assert RosterOne(l, members[i]);
    }
    hide Met, Roster, Inv, Later;
  }

  lemma NothingMet(l: World)
    requires l.byHandle == map[]
    ensures Met(l, [], Intake(l, [], []))
  {
    assert NamesIn([]) == {} && HandlesIn([]) == {};
    assert DataAt(l, []) == [] && ByUid([]).Keys == {};
  }

  // ---- Phase 2 ----

  /** Contacts with uids of their own that the table does not have. */
  predicate Addable(t: Tables, ds: seq<ContactData>) {
    DistinctUids(ds) && forall d :: d in ds ==> d.uid !in t.contacts && d.name.Some?
  }

  lemma AddOneNew(t: Tables, ds: seq<ContactData>)
    requires Addable(t, ds) && ds != []
    ensures RealAdd(t, ds[0]).Some?
    ensures RealAdd(t, ds[0]).value.contacts.Keys == t.contacts.Keys + {ds[0].uid}
    ensures Addable(RealAdd(t, ds[0]).value, ds[1..])
    ensures ByUid(ds).Keys == {ds[0].uid} + ByUid(ds[1..]).Keys
  {
    assert ds == [ds[0]] + ds[1..];
    var t' := RealAdd(t, ds[0]).value;
    forall d | d in ds[1..] ensures d.uid !in t'.contacts && d.name.Some? {
      var i :| 0 <= i < |ds[1..]| && ds[1..][i] == d;
      assert ds[0].uid != ds[i + 1].uid;
    }
    assert forall i :: 0 <= i < |ds[1..]| ==> ds[1..][i] == ds[i + 1];
    hide PairsOf;
  }

  lemma {:induction false} AddAllNew(t: Tables, ds: seq<ContactData>)
    requires Addable(t, ds)
    ensures AddAll(t, ds).Some? && AddAll(t, ds).value.contacts.Keys == t.contacts.Keys + ByUid(ds).Keys
    decreases |ds|
  {
    if ds != [] {
      hide Addable, RealAdd, ByUid;
      AddOneNew(t, ds);
      AddAllNew(RealAdd(t, ds[0]).value, ds[1..]);
    }
  }

  lemma {:induction false} UpdateAllKeys(t: Tables, ds: seq<ContactData>)
    ensures UpdateAll(t, ds).Some? ==> UpdateAll(t, ds).value.contacts.Keys == t.contacts.Keys
    decreases |ds|
  {
    if ds != [] && RealUpdate(t, ds[0]).Some? { UpdateAllKeys(RealUpdate(t, ds[0]).value, ds[1..]); }
  }

  /** The loaded contacts that are not up for removal. */
  function Kept(l: World): set<string> {
    set n | n in l.byName && CONTACT_UNSEEN !in At(l, l.byName[n]).flags
  }

  /** The stores of phase 2 keep the cache in step with the uid index. */
  lemma StoresFollow(l: World, done: seq<Arrival>, s: Intake)
    requires Met(l, done, s) && l.byUid.Keys == l.db.contacts.Keys
    ensures var w := StoreChanged(StoreNew(s.world, s.toAdd, true), s.toUpdate, true);
      w == s.world.(db := w.db) && w.db.contacts.Keys == w.byUid.Keys
  {
    var ds := DataAt(s.world, s.toAdd);
    AddAllNew(s.world.db, ds);
    var stored := StoreNew(s.world, s.toAdd, true);
    UpdateAllKeys(stored.db, DataAt(stored, s.toUpdate));
    hide DataAt, AddAll, UpdateAll, ByUid, CachedAll, NewAreSeen, HandlesMet;
  }

  /** Who is unseen after phase 1, by name. */
  lemma UnseenNames(l: World, done: seq<Arrival>, w: World)
    requires Coherent(w) && CachedAll(l, done, w) && NewAreSeen(l, w)
    requires w.byName.Keys == l.byName.Keys + NamesIn(done)
    requires forall n :: n in l.byName && n !in Kept(l) ==> At(l, l.byName[n]).handle == 0
    ensures NamesOf(w, Unseen(w)) == l.byName.Keys - Kept(l) - NamesIn(done)
    ensures HandlesOf(w, Unseen(w)) == {}
  {
    forall c | c in Unseen(w)
      ensures At(w, c).name.Some? && At(w, c).name.value in l.byName.Keys - Kept(l) - NamesIn(done) && At(w, c).handle == 0
    {
      var n :| n in w.byName && CONTACT_UNSEEN in At(w, w.byName[n]).flags && c == w.byName[n];
      assert NameEntry(w, n, c);
      assert n in l.byName && Cached(At(l, l.byName[n]), At(w, c), n in NamesIn(done));
    }
    forall n | n in l.byName.Keys - Kept(l) - NamesIn(done) ensures n in NamesOf(w, Unseen(w)) {
      var c := w.byName[n];
      assert NameEntry(w, n, c) && Cached(At(l, l.byName[n]), At(w, c), false);
      assert c in Unseen(w);
    }
  }
}
