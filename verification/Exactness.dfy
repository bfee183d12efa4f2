/** Reconciliation is exact: what the indexes, the handle table and the cache hold after phases 0 to
    2, in terms of the cache and the roster they started from. */
module Exactness {
  import opened Text
  import opened Flags
  import opened ContactValues
  import opened Contacts
  import opened Store
  import opened StoreBatches
  import opened Fetch
  import opened Worlds
  import opened Coherence
  import opened CoherentRuns
  import opened CoherentRequests
  import opened Reconcile
  import opened MemberFields

  /** Uid, name, master UIDs and variants are what they were. */
  predicate Preserved(before: ContactData, d: ContactData) {
    d.uid == before.uid && d.name == before.name && d.masterUids == before.masterUids && d.variants == before.variants
  }

  /** What is known at the end, from the loaded state `l` and the members of the roster. */
  predicate Exact(l: World, members: seq<Arrival>, w: World) {
    && w.byName.Keys == Kept(l) + NamesIn(members)
    && w.db.contacts.Keys == w.byUid.Keys
    && HandlesMet(w, members)
    && Survivors(l, w)
  }

  predicate Survivors(l: World, w: World) {
    forall n :: n in l.byName && n in w.byName ==>
      w.byName[n] == l.byName[n] && Preserved(At(l, l.byName[n]), At(w, l.byName[n]))
  }

  /** The loaded state as phase 1 finds it. */
  predicate Fresh(l: World) {
    && Inv(l, Same) && l.byHandle == map[] && l.byUid.Keys == l.db.contacts.Keys
    && forall n :: n in l.byName ==> At(l, l.byName[n]).handle == 0
  }

  lemma CachedSurvives(l: World, done: seq<Arrival>, w: World)
    requires CachedAll(l, done, w)
    ensures Survivors(l, w)
  {
    hide At;
  }

  lemma FlushKeys(db: Tables, ds: map<string, ContactData>, done: bool)
    ensures Commit(db, UpdateMany(db, ds), done).contacts.Keys == db.contacts.Keys
  {}

  /** Deleting the unseen contacts leaves the exact set. */
  lemma SweepIsExact(l: World, members: seq<Arrival>, w: World)
    requires Coherent(w) && CachedAll(l, members, w) && NewAreSeen(l, w) && HandlesMet(w, members)
    requires w.byName.Keys == l.byName.Keys + NamesIn(members) && w.db.contacts.Keys == w.byUid.Keys
    requires forall n :: n in l.byName ==> At(l, l.byName[n]).handle == 0
    ensures Exact(l, members, DeleteContacts(w, Unseen(w), true, true))
    ensures Unseen(w) == {} ==> Exact(l, members, w)
  {
    hide *;
    var w' := DeleteContacts(w, Unseen(w), true, true);
    UnseenNames(l, members, w);
    CachedSurvives(l, members, w);
    KeptAmong(l);
    DeletedParts(w, Unseen(w));
    SweptNames(w.byName, w'.byName, l.byName.Keys, Kept(l), NamesIn(members));
    assert w'.byHandle == w.byHandle;
    SurvivorsLess(l, w, w');
    HandlesLess(w, members, w');
    ExactWhole(l, members, w');
    if Unseen(w) == {} {
      NobodyNamed(w);
      ExactWhole(l, members, w);
    }
  }

  lemma SweptNames(before: map<string, Contact>, after: map<string, Contact>, was: set<string>, kept: set<string>,
                   names: set<string>)
    requires before.Keys == was + names && kept <= was && after == before - (was - kept - names)
    ensures after.Keys == kept + names
    ensures was - kept - names == {} ==> before.Keys == kept + names
  {
    assert after.Keys == before.Keys - (was - kept - names);
  }

  lemma NobodyNamed(w: World)
    ensures NamesOf(w, {}) == {}
  {}

  lemma ExactWhole(l: World, members: seq<Arrival>, w: World)
    requires w.byName.Keys == Kept(l) + NamesIn(members) && w.db.contacts.Keys == w.byUid.Keys
    requires HandlesMet(w, members) && Survivors(l, w)
    ensures Exact(l, members, w)
  {}

  lemma KeptAmong(l: World)
    ensures Kept(l) <= l.byName.Keys
  {}

  lemma DeletedParts(w: World, cs: set<Contact>)
    ensures var w' := DeleteContacts(w, cs, true, true);
      && w'.heap == w.heap && w'.byName == w.byName - NamesOf(w, cs) && w'.byHandle == w.byHandle - HandlesOf(w, cs)
      && (w.db.contacts.Keys == w.byUid.Keys ==> w'.db.contacts.Keys == w'.byUid.Keys)
  {
    hide UpdateMany, Tell, Forget, VisibleOf, NamesOf, HandlesOf, UidsOf, Values;
    FlushKeys(w.db, Values(Unlink(w, cs), Unlink(w, cs).dirty), true);
    hide Commit;
  }

  lemma SurvivorsLess(l: World, w: World, w': World)
    requires Survivors(l, w) && w'.heap == w.heap
    requires forall n :: n in w'.byName ==> n in w.byName && w'.byName[n] == w.byName[n]
    ensures Survivors(l, w')
  {
    assert forall c :: At(w', c) == At(w, c);
    hide At;
  }

  lemma HandlesLess(w: World, members: seq<Arrival>, w': World)
    requires HandlesMet(w, members) && w'.byHandle == w.byHandle && NamesIn(members) <= w'.byName.Keys
    requires forall n :: n in w'.byName ==> n in w.byName && w'.byName[n] == w.byName[n]
    ensures HandlesMet(w', members)
  {
    forall a | a in members ensures ByHandle(w', a) {
      assert ByHandle(w, a) && NameOf(a.data) in NamesIn(members);
    }
  }

  /** Phases 1 and 2 from a freshly loaded state. */
  lemma FromFresh(l: World, path: string, members: seq<Arrival>)
    requires Fresh(l) && Roster(l, members)
    ensures Exact(l, members, Phase2(GetMembers(l, path, members), true, true, true, true))
  {
    hide *;
    FreshParts(l);
    MetAfter(l, path, members, |members|);
    MetParts3(l, path, members);
    var s := GetMembers(l, path, members);
    StoresFollow(l, members, s);
    MetParts(l, members, s);
    var w := StoreChanged(StoreNew(s.world, s.toAdd, true), s.toUpdate, true);
    OnlyTables(l, members, s.world, w);
    SweepIsExact(l, members, w);
    Phase2Is(s);
  }

  lemma Phase2Is(s: Intake)
    ensures var w := StoreChanged(StoreNew(s.world, s.toAdd, true), s.toUpdate, true);
      Phase2(s, true, true, true, true) == if Unseen(w) == {} then w else DeleteContacts(w, Unseen(w), true, true)
  {}

  lemma FreshParts(l: World)
    requires Fresh(l)
    ensures Inv(l, Same) && l.byHandle == map[] && l.byUid.Keys == l.db.contacts.Keys
    ensures forall n :: n in l.byName ==> At(l, l.byName[n]).handle == 0
  {}

  lemma MetParts3(l: World, path: string, members: seq<Arrival>)
    requires MetUpTo(l, path, members, |members|)
    ensures Met(l, members, GetMembers(l, path, members)) && Coherent(GetMembers(l, path, members).world)
  {
    assert members[..|members|] == members;
  }

  /** The tables do not matter to what phase 1 established. */
  lemma OnlyTables(l: World, members: seq<Arrival>, w: World, w': World)
    requires w' == w.(db := w'.db)
    requires Coherent(w) && CachedAll(l, members, w) && NewAreSeen(l, w) && HandlesMet(w, members)
    ensures Coherent(w') && CachedAll(l, members, w') && NewAreSeen(l, w') && HandlesMet(w', members)
  {
    EntriesSurvive(w, w');
    assert forall c :: At(w', c) == At(w, c);
    forall a | a in members ensures ByHandle(w', a) { assert ByHandle(w, a); }
    hide At;
  }

  // ---- From the cache ----

  /** The cache as phase 0 fetches it, each contact with a new object. */
  predicate Fetches(t: Tables, loaded: seq<Arrival>, contactRows: seq<ContactRow>, masterRows: seq<(string, string)>,
                    variantRows: seq<(string, string)>)
  {
    var ds := FetchedAll(contactRows, masterRows, variantRows);
    |loaded| == |ds| && forall i :: 0 <= i < |ds| ==> loaded[i].data == ds[i]
  }

  /** A contact that waits for the server, or that the server has refused. */
  predicate Flagged(d: ContactData) {
    SCHEDULE_ADD in d.pendingFlags || CONTACT_INVALID in d.flags
  }

  function FlaggedNames(loaded: seq<Arrival>): set<string> {
    set a | a in loaded && Flagged(a.data) :: NameOf(a.data)
  }

  function UidsIn(loaded: seq<Arrival>): set<string> {
    set a | a in loaded :: a.data.uid
  }

  function IdsIn(loaded: seq<Arrival>): set<Contact> {
    set a | a in loaded :: a.id
  }

  lemma Cons(loaded: seq<Arrival>)
    requires loaded != []
    ensures UidsIn(loaded) == {loaded[0].data.uid} + UidsIn(loaded[1..])
    ensures NamesIn(loaded) == {NameOf(loaded[0].data)} + NamesIn(loaded[1..])
    ensures IdsIn(loaded) == {loaded[0].id} + IdsIn(loaded[1..])
  {
    hide NameOf;
    assert forall a :: a in loaded <==> a == loaded[0] || a in loaded[1..];
  }

  lemma Reassociate<T>(a: set<T>, b: set<T>, c: set<T>)
    ensures a + b + c == a + (b + c)
  {}

  lemma LoadOneKeys(w: World, a: Arrival)
    ensures var l := LoadOne(w, a);
      && l.byUid.Keys == w.byUid.Keys + {a.data.uid} && l.byName.Keys == w.byName.Keys + {NameOf(a.data)}
      && l.heap.Keys == w.heap.Keys + {a.id} && l.byHandle == w.byHandle && l.db == w.db
  {
    hide NameOf, Marked;
  }

  lemma {:induction false} LoadAllKeys(w: World, loaded: seq<Arrival>)
    ensures var l := LoadAll(w, loaded);
      && l.byUid.Keys == w.byUid.Keys + UidsIn(loaded) && l.byName.Keys == w.byName.Keys + NamesIn(loaded)
      && l.heap.Keys == w.heap.Keys + IdsIn(loaded) && l.byHandle == w.byHandle && l.db == w.db
    decreases |loaded|
  {
    if loaded == [] {
      assert NamesIn([]) == {} && UidsIn([]) == {} && IdsIn([]) == {};
    } else {
      hide NameOf, UidsIn, NamesIn, IdsIn, LoadOne;
      LoadOneKeys(w, loaded[0]);
      LoadAllKeys(LoadOne(w, loaded[0]), loaded[1..]);
      Cons(loaded);
      Reassociate(w.byUid.Keys, {loaded[0].data.uid}, UidsIn(loaded[1..]));
      Reassociate(w.byName.Keys, {NameOf(loaded[0].data)}, NamesIn(loaded[1..]));
      Reassociate(w.heap.Keys, {loaded[0].id}, IdsIn(loaded[1..]));
    }
  }

  /** Each loaded contact is found under its name. */
  lemma LoadedUnderName(w: World, l: World, loaded: seq<Arrival>, a: Arrival)
    requires Loadable(loaded) && l == LoadAll(w, loaded) && Coherent(l) && a in loaded
    ensures NameOf(a.data) in l.byName && l.byName[NameOf(a.data)] == a.id && At(l, a.id) == Marked(a.data)
  {
    LoadAllHolds(w, loaded, a.id, "");
    var i :| 0 <= i < |loaded| && loaded[i] == a;
    assert Loaded(l, loaded[i]) && LoadableOne(loaded[i]);
    assert UidEntry(l, a.data.uid, a.id);
  }

  /** No row that waits for the server, or was refused, is marked as unseen. */
  predicate FlaggedAreSeen(loaded: seq<Arrival>) {
    forall a :: a in loaded && Flagged(a.data) ==> CONTACT_UNSEEN !in a.data.flags
  }

  lemma KeptAreFlagged(w: World, l: World, loaded: seq<Arrival>)
    requires Loadable(loaded) && l == LoadAll(w, loaded) && Coherent(l) && w.byName == map[] && FlaggedAreSeen(loaded)
    requires forall a :: a in loaded ==> a.data.handle == 0
    ensures Kept(l) == FlaggedNames(loaded)
    ensures forall n :: n in l.byName ==> At(l, l.byName[n]).handle == 0
  {
    forall n | n in l.byName ensures At(l, l.byName[n]).handle == 0 && (n in Kept(l) <==> n in FlaggedNames(loaded)) {
      var a := FoundByName(w, l, loaded, n);
      forall b | b in loaded && NameOf(b.data) == n ensures Marked(b.data) == Marked(a.data) {
        LoadedUnderName(w, l, loaded, b);
      }
      MarkedFlags(loaded, a);
      hide Marked, Loadable, LoadAll, Coherent;
    }
    forall n | n in FlaggedNames(loaded) ensures n in l.byName {
      var a :| a in loaded && Flagged(a.data) && NameOf(a.data) == n;
      LoadedUnderName(w, l, loaded, a);
    }
    hide Loadable, LoadAll, NameOf, At, Coherent;
  }

  lemma FoundByName(w: World, l: World, loaded: seq<Arrival>, n: string) returns (a: Arrival)
    requires Loadable(loaded) && l == LoadAll(w, loaded) && Coherent(l) && w.byName == map[] && n in l.byName
    ensures a in loaded && NameOf(a.data) == n && At(l, l.byName[n]) == Marked(a.data)
  {
    LoadAllKeys(w, loaded);
    assert n in NamesIn(loaded);
    a :| a in loaded && NameOf(a.data) == n;
    LoadedUnderName(w, l, loaded, a);
  }

  lemma MarkedFlags(loaded: seq<Arrival>, a: Arrival)
    requires FlaggedAreSeen(loaded) && a in loaded
    ensures CONTACT_UNSEEN in Marked(a.data).flags <==> !Flagged(a.data)
    ensures Marked(a.data).handle == a.data.handle
  {}

  /** The fetched contacts have the uids of the rows, one each, and no handle yet. */
  lemma FetchedFacts(t: Tables, loaded: seq<Arrival>, contactRows: seq<ContactRow>, masterRows: seq<(string, string)>,
                     variantRows: seq<(string, string)>)
    requires ContactListing(contactRows, t.contacts)
    requires ChildListing(masterRows, t.masterUids) && ChildListing(variantRows, t.variants)
    requires Fetches(t, loaded, contactRows, masterRows, variantRows)
    ensures UidsIn(loaded) == t.contacts.Keys
    ensures forall a :: a in loaded ==> a.data.handle == 0 && a.data.name.Some?
    ensures forall i, j :: 0 <= i < j < |loaded| ==> loaded[i].data.uid != loaded[j].data.uid
  {
    forall i | 0 <= i < |loaded|
      ensures loaded[i].data == Fetched(contactRows[i], masterRows, variantRows) && loaded[i].data.uid == contactRows[i].0
    {}
    forall u | u in t.contacts ensures u in UidsIn(loaded) {
      var i :| 0 <= i < |contactRows| && contactRows[i].0 == u;
      assert loaded[i] in loaded;
    }
    forall i, j | 0 <= i < j < |loaded| ensures loaded[i].data.uid != loaded[j].data.uid {
      FetchedIsRecord(t, contactRows, masterRows, variantRows, i);
    }
    hide Select, RowContact;
  }

  /** Everything that comes in gets a new object, but for members whose name is in the cache. */
  predicate NewObjects(w: World, loaded: seq<Arrival>, members: seq<Arrival>) {
    && (forall i :: 0 <= i < |loaded| ==> loaded[i].id !in w.heap)
    && (forall i, j :: 0 <= i < j < |loaded| ==> loaded[i].id != loaded[j].id)
    && (forall a, b :: a in loaded && b in members && NameOf(b.data) !in NamesIn(loaded) ==> a.id != b.id)
  }

  /** Everything that reconciliation starts from. */
  predicate Start(w: World, loaded: seq<Arrival>, members: seq<Arrival>) {
    && Bare(w) && NewObjects(w, loaded, members) && DistinctNames(loaded) && FlaggedAreSeen(loaded) && Roster(w, members)
  }

  lemma LoadedIsFresh(w: World, loaded: seq<Arrival>, contactRows: seq<ContactRow>,
                      masterRows: seq<(string, string)>, variantRows: seq<(string, string)>, members: seq<Arrival>)
    requires ContactListing(contactRows, w.db.contacts)
    requires ChildListing(masterRows, w.db.masterUids) && ChildListing(variantRows, w.db.variants)
    requires Fetches(w.db, loaded, contactRows, masterRows, variantRows) && Start(w, loaded, members)
    ensures Loadable(loaded) && Inv(Load(w, loaded), Same) && Kept(Load(w, loaded)) == FlaggedNames(loaded)
    ensures Fresh(Load(w, loaded)) && Roster(Load(w, loaded), members)
  {
    hide *;
    var l0, l := LoadAll(w, loaded), Load(w, loaded);
    FetchedFacts(w.db, loaded, contactRows, masterRows, variantRows);
    StartParts(w, loaded, members);
    FetchedLoadable(loaded);
    LoadKeeps(w, Same, loaded);
    RosterStays(w, loaded, members);
    LoadViews(w, loaded);
    CoherentOf(l);
    SameNames(l, l0);
    BareKeys(w, loaded);
    KeptAreFlagged(w, l0, loaded);
    FreshWhole(w, l0, l);
  }

  lemma StartParts(w: World, loaded: seq<Arrival>, members: seq<Arrival>)
    requires Start(w, loaded, members)
    ensures Bare(w) && NewObjects(w, loaded, members) && DistinctNames(loaded) && FlaggedAreSeen(loaded) && Roster(w, members)
    ensures w.byName == map[] && forall i :: 0 <= i < |loaded| ==> loaded[i].id !in w.heap
    ensures forall i, j :: 0 <= i < j < |loaded| ==> loaded[i].id != loaded[j].id
  {}

  lemma FetchedLoadable(loaded: seq<Arrival>)
    requires forall a :: a in loaded ==> a.data.name.Some?
    requires forall i, j :: 0 <= i < j < |loaded| ==> loaded[i].data.uid != loaded[j].data.uid
    requires forall i, j :: 0 <= i < j < |loaded| ==> loaded[i].id != loaded[j].id
    requires FlaggedAreSeen(loaded)
    ensures Loadable(loaded)
  {
    forall i | 0 <= i < |loaded| ensures LoadableOne(loaded[i]) { assert loaded[i] in loaded; }
  }

  lemma CoherentOf(l: World)
    requires Inv(l, Same)
    ensures Coherent(l)
  {}

  lemma BareKeys(w: World, loaded: seq<Arrival>)
    requires Bare(w)
    ensures LoadAll(w, loaded).byHandle == map[] && LoadAll(w, loaded).byUid.Keys == UidsIn(loaded)
    ensures LoadAll(w, loaded).db == w.db
  {
    LoadAllKeys(w, loaded);
    hide LoadAll, UidsIn;
  }

  lemma FreshWhole(w: World, l0: World, l: World)
    requires Inv(l, Same) && SameIndexes(l, l0) && l.db == l0.db == w.db && l0.byHandle == map[]
    requires l0.byUid.Keys == w.db.contacts.Keys
    requires forall n :: n in l0.byName ==> At(l0, l0.byName[n]).handle == 0
    ensures Fresh(l)
  {
    hide Inv;
  }

  lemma LoadViews(w: World, loaded: seq<Arrival>)
    ensures var l0, l := LoadAll(w, loaded), Load(w, loaded);
      && SameIndexes(l, l0) && l.db == l0.db
  {
    hide Tell, VisibleOf;
  }

  lemma SameNames(l: World, l0: World)
    requires SameIndexes(l, l0)
    ensures Kept(l) == Kept(l0) && (Coherent(l) ==> Coherent(l0)) && forall c :: At(l, c) == At(l0, c)
  {
    if Coherent(l) { EntriesSurvive(l, l0); }
  }

  lemma RosterStays(w: World, loaded: seq<Arrival>, members: seq<Arrival>)
    requires Roster(w, members) && NewObjects(w, loaded, members)
    ensures Roster(Load(w, loaded), members)
  {
    LoadAllKeys(w, loaded);
    forall i | 0 <= i < |members| ensures RosterOne(Load(w, loaded), members[i]) {
      assert RosterOne(w, members[i]) && members[i] in members;
    }
    hide LoadAll, Tell, VisibleOf;
  }

  /** Phases 0 to 2, run without other events and with the storage answering, from a cache with one
      row per name: the names known at the end are those of the roster and those that wait for the
      server or were refused by it; the cache has the uids of the uid index; the handle table leads
      from every roster handle to the contact of that name, and from no other; and every cached
      contact that is still known is the same object with its uid, names and master UIDs. */
  lemma ReconciliationIsExact(w: World, path: string, loaded: seq<Arrival>, contactRows: seq<ContactRow>,
                              masterRows: seq<(string, string)>, variantRows: seq<(string, string)>, members: seq<Arrival>)
    requires ContactListing(contactRows, w.db.contacts)
    requires ChildListing(masterRows, w.db.masterUids) && ChildListing(variantRows, w.db.variants)
    requires Fetches(w.db, loaded, contactRows, masterRows, variantRows) && Start(w, loaded, members)
    ensures var w' := Phase2(GetMembers(Load(w, loaded), path, members), true, true, true, true);
      && w'.byName.Keys == NamesIn(members) + FlaggedNames(loaded)
      && w'.db.contacts.Keys == w'.byUid.Keys
      && w'.byHandle.Keys == HandlesIn(members) && (forall a :: a in members ==> ByHandle(w', a))
      && (forall a :: a in loaded && NameOf(a.data) in w'.byName ==>
            && w'.byName[NameOf(a.data)] == a.id && Preserved(a.data, At(w', a.id))
            && TakenOver(a.data, About(members, NameOf(a.data)), At(w', a.id)))
      && (forall b :: b in members && NameOf(b.data) !in NamesIn(loaded) ==> Entered(w, b.data, w'))
      && Coherent(w')
  {
    hide *;
    var l := Load(w, loaded);
    var s := GetMembers(l, path, members);
    var w' := Phase2(s, true, true, true, true);
    LoadedIsFresh(w, loaded, contactRows, masterRows, variantRows, members);
    FromFresh(l, path, members);
    ExactParts(l, members, w');
    CoherentAtEnd(l, path, members);
    FreshCoherent(l);
    Phase2Heap(s);
    FetchedFacts(w.db, loaded, contactRows, masterRows, variantRows);
    StartParts(w, loaded, members);
    LoadedNames(w, loaded);
    forall a | a in loaded && NameOf(a.data) in w'.byName
      ensures w'.byName[NameOf(a.data)] == a.id && Preserved(a.data, At(w', a.id))
      ensures TakenOver(a.data, About(members, NameOf(a.data)), At(w', a.id))
    {
      LoadViewsUnder(w, loaded, a);
      SurvivorIs(l, w', a);
      RosterTells(l, path, members, NameOf(a.data));
      SurvivorFields(l, loaded, a, members, s.world, w');
    }
    forall b | b in members && NameOf(b.data) !in NamesIn(loaded) ensures Entered(w, b.data, w') {
      RosterTells(l, path, members, NameOf(b.data));
      RosterAbout(l, members, NameOf(b.data));
      EnteredFields(w, l, b.data, s.world, w');
    }
  }

  /** A new member is known as the roster describes it, under a uid that no row had. */
  predicate Entered(w: World, b: ContactData, w': World) {
    NameOf(b) in w'.byName
    && var d := At(w', w'.byName[NameOf(b)]);
       d == b.(uid := d.uid) && d.uid !in w.db.contacts
  }

  lemma FreshCoherent(l: World)
    requires Fresh(l)
    ensures Coherent(l) && l.byUid.Keys == l.db.contacts.Keys
  {}

  lemma Phase2Heap(s: Intake)
    ensures var w' := Phase2(s, true, true, true, true);
      w'.heap == s.world.heap && forall n :: n in w'.byName ==> n in s.world.byName && w'.byName[n] == s.world.byName[n]
  {
    var w := StoreChanged(StoreNew(s.world, s.toAdd, true), s.toUpdate, true);
    DeletedParts(w, Unseen(w));
    hide Commit, AddAll, UpdateAll, DataAt, Unseen, DeleteContacts;
  }

  lemma MarkedTaken(d: ContactData, news: seq<ContactData>, e: ContactData)
    requires TakenOver(Marked(d), news, e) && (news == [] ==> Marked(d) == d)
    ensures TakenOver(d, news, e)
  {
    hide LastTold, Aliases, Statuses, Messages, Infos;
  }

  /** A loaded contact that is still known took over what the roster says about it. */
  lemma SurvivorFields(l: World, loaded: seq<Arrival>, a: Arrival, members: seq<Arrival>, w1: World, w': World)
    requires a in loaded && DistinctNames(loaded) && Roster(l, members)
    requires var n := NameOf(a.data);
      && n in l.byName && l.byName[n] == a.id && At(l, a.id) == Marked(a.data)
      && Followed(l, About(members, n), n, w1) && n in w'.byName && n in NamesIn(members) + FlaggedNames(loaded)
    requires w'.heap == w1.heap && a.data.name.Some? && forall x :: x in loaded ==> x.data.name.Some?
    ensures TakenOver(a.data, About(members, NameOf(a.data)), At(w', a.id))
  {
    var n := NameOf(a.data);
    var news := About(members, n);
    RosterAbout(l, members, n);
    if news == [] {
      assert n !in NamesIn(members);
      assert n in FlaggedNames(loaded);
      FlaggedIs(loaded, a);
    }
    assert At(w', a.id) == At(w1, a.id);
    hide TakenOver, Roster;
    MarkedTaken(a.data, news, At(w', a.id));
  }

  lemma FlaggedIs(loaded: seq<Arrival>, a: Arrival)
    requires a in loaded && DistinctNames(loaded) && NameOf(a.data) in FlaggedNames(loaded)
    requires forall x :: x in loaded ==> x.data.name.Some?
    ensures Marked(a.data) == a.data
  {
    var x :| x in loaded && Flagged(x.data) && NameOf(x.data) == NameOf(a.data);
    var i, j :| 0 <= i < |loaded| && 0 <= j < |loaded| && loaded[i] == x && loaded[j] == a;
    assert i == j;
  }

  lemma LoadedNames(w: World, loaded: seq<Arrival>)
    ensures Load(w, loaded).byName.Keys == w.byName.Keys + NamesIn(loaded) && Load(w, loaded).db == w.db
  {
    LoadAllKeys(w, loaded);
    hide LoadAll, Tell, VisibleOf, NamesIn;
  }

  lemma EnteredFields(w: World, l: World, b: ContactData, w1: World, w': World)
    requires Followed(l, [b], NameOf(b), w1) && NameOf(b) !in l.byName && NameOf(b) in w'.byName
    requires w'.heap == w1.heap && w'.byName[NameOf(b)] == w1.byName[NameOf(b)]
    requires l.byUid.Keys == l.db.contacts.Keys && l.db == w.db
    ensures Entered(w, b, w')
  {
    var d := At(w', w'.byName[NameOf(b)]);
    assert [b][1..] == [];
    NoEntry(b.(uid := d.uid), d);
    hide TakenOver, NameOf;
  }

  lemma ExactParts(l: World, members: seq<Arrival>, w: World)
    requires Exact(l, members, w)
    ensures w.byName.Keys == NamesIn(members) + Kept(l) && w.db.contacts.Keys == w.byUid.Keys && Survivors(l, w)
    ensures w.byHandle.Keys == HandlesIn(members) && forall a :: a in members ==> ByHandle(w, a)
  {
    hide ByHandle, Survivors;
  }

  lemma CoherentAtEnd(l: World, path: string, members: seq<Arrival>)
    requires Fresh(l) && Roster(l, members)
    ensures Coherent(Phase2(GetMembers(l, path, members), true, true, true, true))
  {
    assert members[..|members|] == members;
    RosterConsistent(l, members, |members|);
    hide Roster, Consistent, Coherent, HandlesLive, AddsSettled;
    GetMembersKeeps(l, Same, path, members);
    Phase2Keeps(GetMembers(l, path, members), Same, true, true, true, true);
    hide GetMembers, Phase2;
  }

  lemma LoadViewsUnder(w: World, loaded: seq<Arrival>, a: Arrival)
    requires Loadable(loaded) && Inv(Load(w, loaded), Same) && a in loaded
    ensures var l := Load(w, loaded);
      NameOf(a.data) in l.byName && l.byName[NameOf(a.data)] == a.id && At(l, a.id) == Marked(a.data)
  {
    LoadViews(w, loaded);
    SameNames(Load(w, loaded), LoadAll(w, loaded));
    hide Load, Loadable, LoadAll;
    LoadedUnderName(w, LoadAll(w, loaded), loaded, a);
  }

  lemma SurvivorIs(l: World, w: World, a: Arrival)
    requires Survivors(l, w) && NameOf(a.data) in w.byName
    requires NameOf(a.data) in l.byName && l.byName[NameOf(a.data)] == a.id && At(l, a.id) == Marked(a.data)
    ensures w.byName[NameOf(a.data)] == a.id && Preserved(a.data, At(w, a.id))
  {}
}
