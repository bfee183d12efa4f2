/** Reconciliation is exact on the class: phases 0 to 2 as its methods carry them out. */
module BackendExactness {
  import opened Text
  import opened Flags
  import opened ContactValues
  import opened Contacts
  import opened Store
  import opened StoreBatches
  import opened Fetch
  import opened Worlds
  import opened Soundness
  import opened Backend
  import opened Coherence
  import opened CoherentRuns
  import opened CoherentRequests
  import opened Reconcile
  import opened Exactness
  import opened MemberFields
  import opened RosterViews
  import opened Runs
  import opened Environment
  import opened BackendRuns

  /** A roster: named contacts with handles, one per name and per handle. */
  predicate RosterData(news: seq<ContactData>) {
    && (forall i :: 0 <= i < |news| ==> news[i].name.Some? && news[i].handle > 0 && CONTACT_UNSEEN !in news[i].flags)
    && (forall i, j :: 0 <= i < j < |news| ==>
          news[i].handle != news[j].handle && NameOf(news[i]) != NameOf(news[j]))
  }

  /** What is loaded is under its own name, and nothing else is known. */
  ghost predicate JustLoaded(w: World, loaded: seq<Arrival>, l: World) {
    && Coherent(l) && l.heap.Keys == w.heap.Keys + IdsIn(loaded) && l.byName.Keys == NamesIn(loaded)
    && forall a :: a in loaded ==> NameOf(a.data) in l.byName && l.byName[NameOf(a.data)] == a.id
  }

  lemma LoadedAre(w: World, loaded: seq<Arrival>)
    requires Bare(w) && Identities(w, Loading(loaded)) && Loadable(loaded) && DistinctNames(loaded)
    ensures JustLoaded(w, loaded, Load(w, loaded))
  {
    hide *;
    var l := Load(w, loaded);
    ObjectsNew(w, loaded);
    LoadKeeps(w, Same, loaded);
    CoherentOf(l);
    LoadViews(w, loaded);
    LoadAllKeys(w, loaded);
    SameKeys(w, LoadAll(w, loaded), l, loaded);
    forall a | a in loaded ensures NameOf(a.data) in l.byName && l.byName[NameOf(a.data)] == a.id {
      LoadViewsUnder(w, loaded, a);
    }
    JustLoadedWhole(w, loaded, l);
  }

  lemma ObjectsNew(w: World, loaded: seq<Arrival>)
    requires Identities(w, Loading(loaded))
    ensures forall i :: 0 <= i < |loaded| ==> loaded[i].id !in w.heap
  {}

  lemma SameKeys(w: World, l0: World, l: World, loaded: seq<Arrival>)
    requires Bare(w) && SameIndexes(l, l0)
    requires l0.heap.Keys == w.heap.Keys + IdsIn(loaded) && l0.byName.Keys == w.byName.Keys + NamesIn(loaded)
    ensures l.heap.Keys == w.heap.Keys + IdsIn(loaded) && l.byName.Keys == NamesIn(loaded)
  {
    hide IdsIn, NamesIn;
  }

  lemma JustLoadedWhole(w: World, loaded: seq<Arrival>, l: World)
    requires Coherent(l) && l.heap.Keys == w.heap.Keys + IdsIn(loaded) && l.byName.Keys == NamesIn(loaded)
    requires forall a :: a in loaded ==> NameOf(a.data) in l.byName && l.byName[NameOf(a.data)] == a.id
    ensures JustLoaded(w, loaded, l)
  {
    hide Coherent, IdsIn, NamesIn;
  }

  /** The roster's members, with the objects they get after loading, are what reconciliation starts from. */
  lemma MembersAre(w: World, loaded: seq<Arrival>, l: World, members: seq<Arrival>)
    requires w.byName == map[] && Identities(w, Loading(loaded)) && JustLoaded(w, loaded, l)
    requires Identified(l, members) && RosterData(NewsOf(members))
    ensures Roster(w, members) && NewObjects(w, loaded, members)
  {
    forall i | 0 <= i < |members| ensures members[i].id !in w.heap && RosterOne(w, members[i]) {
      MemberIsNew(w, loaded, l, members[i]);
      assert NewsOf(members)[i] == members[i].data;
    }
    forall i, j | 0 <= i < j < |members| ensures Different(members[i], members[j]) {
      assert NewsOf(members)[i] == members[i].data && NewsOf(members)[j] == members[j].data;
      DifferentObjects(l, members[i], members[j]);
    }
    forall a, b | a in loaded && b in members && NameOf(b.data) !in NamesIn(loaded) ensures a.id != b.id {
      assert Placed(l, b);
      assert a.id in IdsIn(loaded);
    }
  }

  lemma MemberIsNew(w: World, loaded: seq<Arrival>, l: World, a: Arrival)
    requires Identities(w, Loading(loaded)) && JustLoaded(w, loaded, l) && Placed(l, a)
    ensures a.id !in w.heap
  {
    hide Coherent, NameOf;
    if NameOf(a.data) in l.byName {
      assert NameOf(a.data) in NamesIn(loaded);
      var x :| x in loaded && NameOf(x.data) == NameOf(a.data);
    }
  }

  lemma DifferentObjects(l: World, a: Arrival, b: Arrival)
    requires Coherent(l) && Placed(l, a) && Placed(l, b) && Together(l, a, b) && NameOf(a.data) != NameOf(b.data)
    ensures a.id != b.id
  {
    assert NameOf(a.data) in l.byName ==> NameEntry(l, NameOf(a.data), l.byName[NameOf(a.data)]);
    assert NameOf(b.data) in l.byName ==> NameEntry(l, NameOf(b.data), l.byName[NameOf(b.data)]);
  }

  /** Reconciliation is exact on the objects: when phases 0 to 2 run one after the other on a cache with
      one row per name and a roster, and the storage carries out what it is asked, then at the end the
      class knows the names of the roster and of the flagged rows, its cache has the uids it knows, its
      handle table leads from each roster handle to the contact of that name, and whatever was loaded and
      is still known is the same object with its uid, names and master UIDs. */
  method Resynchronise(b: BookBackend, contacts: seq<Contact>, contactsIn: seq<Contact>, ghost contactRows: seq<ContactRow>,
                   ghost masterRows: seq<(string, string)>, ghost variantRows: seq<(string, string)>)
    returns (ghost members: seq<Arrival>, added: bool, updated: bool, flushed: bool, removed: bool)
    requires b.Valid() && Bare(b.model)
    requires Foreign(b.model.heap, contacts) && Foreign(b.model.heap, contactsIn) && NoDuplicates(contacts)
    requires forall c :: c in contactsIn ==> c !in contacts
    requires ContactListing(contactRows, b.model.db.contacts)
    requires ChildListing(masterRows, b.model.db.masterUids) && ChildListing(variantRows, b.model.db.variants)
    requires Fetches(b.model.db, Backend.Fetched(contacts), contactRows, masterRows, variantRows)
    requires DistinctNames(Backend.Fetched(contacts)) && FlaggedAreSeen(Backend.Fetched(contacts))
    requires RosterData(DataOf(contactsIn))
    modifies b, contacts, b.model.heap.Keys, b.tpdb
    ensures b.Valid() && NewsOf(members) == old(DataOf(contactsIn))
    ensures added && updated && flushed && removed ==>
      && b.model.byName.Keys == NamesIn(members) + FlaggedNames(old(Backend.Fetched(contacts)))
      && b.model.db.contacts.Keys == b.model.byUid.Keys
      && b.model.byHandle.Keys == HandlesIn(members) && (forall a :: a in members ==> ByHandle(b.model, a))
      && (forall a :: a in old(Backend.Fetched(contacts)) && NameOf(a.data) in b.model.byName ==>
            && b.model.byName[NameOf(a.data)] == a.id && Preserved(a.data, At(b.model, a.id))
            && TakenOver(a.data, About(members, NameOf(a.data)), At(b.model, a.id)))
      && (forall a :: a in members && NameOf(a.data) !in NamesIn(old(Backend.Fetched(contacts))) ==>
            Exactness.Entered(old(b.model), a.data, b.model))
      && Coherent(b.model)
  {
    hide *;
    ghost var w, loaded, news := b.model, Backend.Fetched(contacts), DataOf(contactsIn);
    LoadedFacts(w, contacts, loaded, contactRows, masterRows, variantRows);
    DataOfIs(contactsIn);
    ForeignIs(w.heap, contactsIn);
    b.SyncPhase0(contacts);
    ghost var heap := b.model.heap;
    forall k | 0 <= k < |contactsIn| ensures contactsIn[k].Data() == news[k] { assert contactsIn[k] in contactsIn; }
    assert forall c :: c in contactsIn ==> c !in heap;
    ForeignStays(heap, heap, contactsIn);
    var toAdd, toUpdate;
    toAdd, toUpdate, members := b.GetMembersCb(contactsIn);
    NewsIs(members, news);
    StartFollows(w, loaded, members);
    added, updated, flushed, removed := b.SyncPhase2(toAdd, toUpdate);
    if added && updated && flushed && removed {
      ReconciliationIsExact(w, b.path, loaded, contactRows, masterRows, variantRows, members);
    }
  }

  lemma LoadedFacts(w: World, contacts: seq<Contact>, loaded: seq<Arrival>, contactRows: seq<ContactRow>,
                    masterRows: seq<(string, string)>, variantRows: seq<(string, string)>)
    requires Bare(w) && Foreign(w.heap, contacts) && NoDuplicates(contacts) && loaded == Backend.Fetched(contacts)
    requires ContactListing(contactRows, w.db.contacts)
    requires ChildListing(masterRows, w.db.masterUids) && ChildListing(variantRows, w.db.variants)
    requires Fetches(w.db, loaded, contactRows, masterRows, variantRows)
    requires DistinctNames(loaded) && FlaggedAreSeen(loaded)
    ensures Identities(w, Loading(loaded)) && JustLoaded(w, loaded, Load(w, loaded))
    ensures forall c :: c in Load(w, loaded).heap ==> c in w.heap || c in contacts
  {
    hide *;
    FetchedObjects(w, contacts, loaded);
    FetchedFacts(w.db, loaded, contactRows, masterRows, variantRows);
    FetchedLoadable(loaded);
    LoadedAre(w, loaded);
    LoadedKeys(w, loaded, Load(w, loaded));
  }

  lemma FetchedObjects(w: World, contacts: seq<Contact>, loaded: seq<Arrival>)
    requires Foreign(w.heap, contacts) && NoDuplicates(contacts) && loaded == Backend.Fetched(contacts)
    ensures Identities(w, Loading(loaded)) && forall c :: c in IdsIn(loaded) ==> c in contacts
    ensures forall i, j :: 0 <= i < j < |loaded| ==> loaded[i].id != loaded[j].id
  {
    FetchedIs(contacts);
    DistinctAre(contacts);
    hide Backend.Fetched, NoDuplicates;
    forall c | c in IdsIn(loaded) ensures c in contacts {
      var a :| a in loaded && a.id == c;
    }
  }

  lemma LoadedKeys(w: World, loaded: seq<Arrival>, l: World)
    requires JustLoaded(w, loaded, l)
    ensures l.heap.Keys == w.heap.Keys + IdsIn(loaded)
  {}

  lemma StartFollows(w: World, loaded: seq<Arrival>, members: seq<Arrival>)
    requires Bare(w) && Identities(w, Loading(loaded)) && JustLoaded(w, loaded, Load(w, loaded))
    requires DistinctNames(loaded) && FlaggedAreSeen(loaded)
    requires Identified(Load(w, loaded), members) && RosterData(NewsOf(members))
    ensures Start(w, loaded, members)
  {
    MembersAre(w, loaded, Load(w, loaded), members);
    hide Load, JustLoaded, Identities, DistinctNames, FlaggedAreSeen, Identified, RosterData, Roster, NewObjects;
  }
}
