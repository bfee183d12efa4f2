/** Creating, removing and loading keep the indexes coherent. */
module CoherentRequests {
  import opened Text
  import opened Flags
  import opened ContactValues
  import opened Contacts
  import opened VCards
  import opened MasterProtocol
  import opened Store
  import opened StoreBatches
  import opened Uids
  import opened Worlds
  import opened Coherence
  import opened CoherentRuns

  // ---- Creating ----

  lemma {:induction false} ReadingKeeps(r: Reading, card: Card, vcardField: string)
    ensures var r' := ReadAttributes(r, card, vcardField);
      r'.d.flags == r.d.flags && r'.d.uid == r.d.uid && r'.d.handle == r.d.handle
    decreases |card|
  {
    if card != [] { ReadingKeeps(ReadAttribute(r, card[0], vcardField), card[1..], vcardField); }
  }

  /** A submitted contact has a name and no flags. */
  lemma SubmittedIsPlain(card: Card, vcardField: string)
    ensures var (d, named) := UpdateFromEContact(NEW_CONTACT, card, vcardField);
      d.flags == {} && (named ==> d.name.Some?)
  {
    ReadingKeeps(Reading(NEW_CONTACT.(pendingFlags := NEW_CONTACT.flags), []), card, vcardField);
  }

  lemma NotifyTouches(w: World)
    ensures SameIndexes(w, Notify(w))
  {
    hide Tell, VisibleOf;
  }

  lemma NotifyUpdatedTouches(w: World, c: Contact)
    ensures SameIndexes(w, NotifyUpdated(w, c))
  {
    hide Tell, At, Notify;
    NotifyTouches(w.(changed := w.changed - {At(w, c).uid}));
  }

  lemma NotifyUpdatedKeeps(w: World, norm: Norm, c: Contact)
    requires Inv(w, norm)
    ensures Inv(NotifyUpdated(w, c), norm)
  {
    hide *;
    NotifyUpdatedTouches(w, c);
    OnlyIndexesMatter(w, NotifyUpdated(w, c), norm);
  }

  lemma CreateExistingKeeps(w: World, norm: Norm, c: Contact, news: ContactData, o: CreateAnswers)
    requires Inv(w, norm)
    ensures Inv(CreateExisting(w, c, news, o), norm)
  {
    var d := Absorbed(At(w, c), news);
    PutKeeps(w, norm, c, d);
    if NeedsUpdate(d) {
      var d' := RunUpdate(d, o.unblocked);
      PutKeeps(w, norm, c, d');
      hide Inv, Absorbed, RunUpdate, NeedsUpdate, NotifyUpdated, RealUpdate;
      var updated := Put(w, c, d');
      var written := updated.(db := Commit(w.db, RealUpdate(w.db, d'), o.stored));
      OnlyIndexesMatter(updated, written, norm);
      NotifyUpdatedKeeps(written, norm, c);
    }
  }

  lemma CreateNewKeeps(w: World, norm: Norm, id: Contact, d: ContactData, stored: bool)
    requires Inv(w, norm) && id !in w.heap && d.name.Some?
    requires NameOf(d) !in w.byName && d.uid !in w.byUid && CONTACT_UNSEEN !in d.flags
    ensures Inv(CreateNew(w, id, d, stored).0, norm)
  {
    hide Inv, RealAdd;
    NewKeeps(w, norm, id, d, CreateNew(w, id, d, stored).0);
  }

  lemma CreateKeeps(w: World, norm: Norm, path: string, vcardField: string, card: Card, id: Contact, online: bool,
                    o: CreateAnswers)
    requires Inv(w, norm) && id !in w.heap && Possible(o.add)
    ensures Inv(Create(w, path, vcardField, card, id, online, o).0, norm)
  {
    SubmittedIsPlain(card, vcardField);
    hide Inv, UpdateFromEContact, CreateNew, CreateExisting, FreshUid, UpdateMany, RunAdd;
    var w' := Flush(w, o.flushed);
    OnlyIndexesMatter(w, w', norm);
    var (d, named) := UpdateFromEContact(NEW_CONTACT, card, vcardField);
    if named {
      var s := Submitted(w', path, d);
      RunAddKeeps(s, o.add);
      var (d', added) := if online then RunAdd(s, o.add) else (s, true);
      if added {
        assert d'.uid == s.uid && d'.name.Some? && CONTACT_UNSEEN !in d'.flags;
        if NameOf(d') in w'.byName {
          CreateExistingKeeps(w', norm, w'.byName[NameOf(d')], d', o);
        } else {
          CreateNewKeeps(w', norm, id, d', o.stored);
        }
      }
    }
  }

  // ---- Removing ----

  lemma {:induction false} SuffixIsMinor(d: ContactData, suffix: seq<string>)
    ensures var d' := RemoveFields(d, suffix);
      d' == d.(masterUids := d'.masterUids, pendingFlags := d'.pendingFlags)
    decreases |suffix|
  {
    if suffix != [] { SuffixIsMinor(RemoveField(d, suffix[0]), suffix[1..]); }
  }

  lemma ApplySuffixIsMinor(d: ContactData, suffix: seq<string>)
    ensures var d' := ApplySuffix(d, suffix).0;
      d' == d.(masterUids := d'.masterUids, pendingFlags := d'.pendingFlags)
  {
    SuffixIsMinor(d, suffix);
  }

  lemma KeepContactKeeps(w: World, norm: Norm, c: Contact, d: ContactData, stored: bool)
    requires Inv(w, norm) && Minor(norm, At(w, c), d)
    ensures Inv(KeepContact(w, c, d, stored), norm)
  {
    var written := RealUpdate(w.db, d);
    var d' := if stored && written.Some? then d.(pendingFlags := d.pendingFlags - {SCHEDULE_UPDATE_MASTER_UID}) else d;
    PutKeeps(w, norm, c, d);
    PutKeeps(w, norm, c, d');
    hide Inv, RealUpdate, NotifyUpdated;
    var put := Put(w, c, d').(db := Commit(w.db, written, stored));
    OnlyIndexesMatter(Put(w, c, d'), put, norm);
    NotifyUpdatedKeeps(put, norm, c);
  }

  lemma DropContactKeeps(w: World, norm: Norm, c: Contact, d: ContactData, online: bool, o: RemoveAnswers)
    requires Inv(w, norm) && Live(w, c) && Minor(norm, At(w, c), d)
    ensures Inv(DropContact(w, c, d, online, o), norm)
  {
    hide Inv, DeleteContacts, Live;
    var cleared, marked := Put(w, c, d.(pendingFlags := {})), Put(w, c, d.(pendingFlags := {SCHEDULE_DELETE}));
    PutKeeps(w, norm, c, d.(pendingFlags := {}));
    PutKeeps(w, norm, c, d.(pendingFlags := {SCHEDULE_DELETE}));
    hide Minor;
    if CONTACT_INVALID in d.flags {
      DeleteKeeps(cleared, norm, {c}, o.flushed, o.removed);
    } else {
      OnlyIndexesMatter(marked, marked.(toDelete := w.toDelete[d.uid := c]), norm);
    }
  }

  lemma RemoveKeeps(b: Batch, norm: Norm, request: string, online: bool, o: RemoveAnswers)
    requires Inv(b.world, norm)
    ensures Inv(Remove(b, request, online, o).world, norm)
  {
    hide Inv, ApplySuffix, KeepContact, DropContact, UpdateMany, Split;
    var w := Flush(b.world, o.flushed);
    OnlyIndexesMatter(b.world, w, norm);
    var fields := Split(request, ';');
    if fields != [] && fields[0] in w.byUid {
      var c := w.byUid[fields[0]];
      FoundIsLive(w, norm, fields[0]);
      var d := ApplySuffix(At(w, c), fields[1..]).0;
      ApplySuffixIsMinor(At(w, c), fields[1..]);
      KeepContactKeeps(w, norm, c, d, o.stored);
      DropContactKeeps(w, norm, c, d, online, o);
    }
  }

  lemma FoundIsLive(w: World, norm: Norm, uid: string)
    requires Inv(w, norm) && uid in w.byUid
    ensures Live(w, w.byUid[uid])
  {
    assert UidEntry(w, uid, w.byUid[uid]);
  }

  lemma {:induction false} RemoveAllKeeps(b: Batch, norm: Norm, requests: seq<Request>, online: bool)
    requires Inv(b.world, norm)
    ensures Inv(RemoveAll(b, requests, online).world, norm)
    decreases |requests|
  {
    hide Inv, Remove;
    if requests != [] {
      RemoveKeeps(b, norm, requests[0].text, online, requests[0].answers);
      RemoveAllKeeps(Remove(b, requests[0].text, online, requests[0].answers), norm, requests[1..], online);
    }
  }

  lemma RemoveContactsKeeps(w: World, norm: Norm, requests: seq<Request>, online: bool, flushed: bool, stored: bool)
    requires Inv(w, norm)
    ensures Inv(RemoveContacts(w, requests, online, flushed, stored), norm)
  {
    hide Inv, RemoveAll, UpdateAll, UpdateMany, Tell, VisibleOf;
    var start := Batch(Flush(Notify(w), flushed), []);
    OnlyIndexesMatter(w, start.world, norm);
    RemoveAllKeeps(start, norm, requests, online);
    OnlyIndexesMatter(RemoveAll(start, requests, online).world, RemoveContacts(w, requests, online, flushed, stored), norm);
  }

  // ---- Loading ----

  /** What the cache yields: one contact per uid, each a new object, none waiting to be added that
      is marked as unseen. */
  predicate Loadable(arrivals: seq<Arrival>) {
    && (forall i :: 0 <= i < |arrivals| ==> LoadableOne(arrivals[i]))
    && (forall i, j :: 0 <= i < j < |arrivals| ==>
          arrivals[i].id != arrivals[j].id && arrivals[i].data.uid != arrivals[j].data.uid)
  }

  predicate LoadableOne(a: Arrival) {
    && a.data.name.Some?
    && (SCHEDULE_ADD in a.data.pendingFlags ==> CONTACT_UNSEEN !in a.data.flags)
  }

  predicate DistinctNames(arrivals: seq<Arrival>) {
    forall i, j :: 0 <= i < j < |arrivals| ==> arrivals[i].data.name != arrivals[j].data.name
  }

  /** Nothing in the indexes collides with what is loaded. */
  predicate Apart(w: World, a: Arrival) {
    a.id !in w.heap && a.data.uid !in w.byUid && NameOf(a.data) !in w.byName
  }

  lemma LoadOneKeeps(w: World, norm: Norm, a: Arrival)
    requires Inv(w, norm) && LoadableOne(a) && Apart(w, a)
    ensures Inv(LoadOne(w, a), norm)
  {
    hide Inv;
    var d := LoadOne(w, a).heap[a.id];
    NewKeeps(w, norm, a.id, d, LoadOne(w, a));
  }

  lemma {:induction false} LoadAllKeeps(w: World, norm: Norm, arrivals: seq<Arrival>)
    requires Inv(w, norm) && Loadable(arrivals) && DistinctNames(arrivals)
    requires forall i :: 0 <= i < |arrivals| ==> Apart(w, arrivals[i])
    ensures Inv(LoadAll(w, arrivals), norm)
    decreases |arrivals|
  {
    if arrivals != [] {
      var next, rest := LoadOne(w, arrivals[0]), arrivals[1..];
      LoadOneKeeps(w, norm, arrivals[0]);
      forall i | 0 <= i < |rest| ensures LoadableOne(rest[i]) && Apart(next, rest[i]) {
        assert rest[i] == arrivals[i + 1] && LoadableOne(arrivals[i + 1]);
      }
      forall i, j | 0 <= i < j < |rest|
        ensures rest[i].id != rest[j].id && rest[i].data.uid != rest[j].data.uid && rest[i].data.name != rest[j].data.name
      {
        assert rest[i] == arrivals[i + 1] && rest[j] == arrivals[j + 1];
      }
      hide Inv, LoadOne;
      LoadAllKeeps(next, norm, rest);
    }
  }

  /** The indexes before anything is loaded. */
  predicate Bare(w: World) {
    w.byUid == map[] && w.byName == map[] && w.byHandle == map[] && w.toAdd == map[]
  }

  lemma LoadKeeps(w: World, norm: Norm, arrivals: seq<Arrival>)
    requires Bare(w) && Loadable(arrivals) && DistinctNames(arrivals)
    requires forall i :: 0 <= i < |arrivals| ==> arrivals[i].id !in w.heap
    ensures Inv(Load(w, arrivals), norm)
  {
    assert Inv(w, norm);
    assert forall i :: 0 <= i < |arrivals| ==> Apart(w, arrivals[i]);
    LoadAllKeeps(w, norm, arrivals);
    hide Inv, LoadAll, Tell, VisibleOf;
    OnlyIndexesMatter(LoadAll(w, arrivals), Load(w, arrivals), norm);
  }

  /** Loading leaves every contact under its uid. */
  lemma {:induction false} LoadAllHolds(w: World, arrivals: seq<Arrival>, x: Contact, u: string)
    requires Loadable(arrivals)
    ensures var w' := LoadAll(w, arrivals);
      && (forall i :: 0 <= i < |arrivals| ==> Loaded(w', arrivals[i]))
      && (x in w.heap && (forall i :: 0 <= i < |arrivals| ==> arrivals[i].id != x) ==> x in w'.heap && w'.heap[x] == w.heap[x])
      && (u in w.byUid && (forall i :: 0 <= i < |arrivals| ==> arrivals[i].data.uid != u) ==> u in w'.byUid && w'.byUid[u] == w.byUid[u])
    decreases |arrivals|
  {
    if arrivals != [] {
      var next, rest := LoadOne(w, arrivals[0]), arrivals[1..];
      assert Loadable(rest) by {
        forall i | 0 <= i < |rest| ensures LoadableOne(rest[i]) {
          assert rest[i] == arrivals[i + 1] && LoadableOne(arrivals[i + 1]);
        }
        assert forall i :: 0 <= i < |rest| ==> rest[i] == arrivals[i + 1];
      }
      assert Loaded(next, arrivals[0]);
      LoadAllHolds(next, rest, arrivals[0].id, arrivals[0].data.uid);
      LoadAllHolds(next, rest, x, u);
      assert forall i :: 0 <= i < |rest| ==> rest[i] == arrivals[i + 1];
      forall i | 1 <= i < |arrivals| ensures Loaded(LoadAll(next, rest), arrivals[i]) {
        assert arrivals[i] == rest[i - 1];
      }
    }
  }

  /** The contact is under its uid. */
  predicate Loaded(w: World, a: Arrival) {
    a.id in w.heap && w.heap[a.id] == Marked(a.data) && a.data.uid in w.byUid && w.byUid[a.data.uid] == a.id
  }

  /** Loading is coherent exactly when no two rows of the cache have one name. The uid is the only
      key of the table, so nothing but the code that writes it keeps names apart. */
  lemma LoadCoherentIff(w: World, norm: Norm, arrivals: seq<Arrival>)
    requires Bare(w) && Loadable(arrivals) && forall i :: 0 <= i < |arrivals| ==> arrivals[i].id !in w.heap
    ensures Coherent(Load(w, arrivals)) <==> DistinctNames(arrivals)
  {
    if DistinctNames(arrivals) {
      LoadKeeps(w, norm, arrivals);
    } else {
      var i, j :| 0 <= i < j < |arrivals| && arrivals[i].data.name == arrivals[j].data.name;
      LoadAllHolds(w, arrivals, arrivals[i].id, "");
      var w' := LoadAll(w, arrivals);
      assert Loaded(w', arrivals[i]) && Loaded(w', arrivals[j]) && LoadableOne(arrivals[i]);
      assert arrivals[i].id != arrivals[j].id;
      hide LoadAll, Loadable, Tell, VisibleOf;
      var l := Load(w, arrivals);
      assert !(UidEntry(l, arrivals[i].data.uid, arrivals[i].id) && UidEntry(l, arrivals[j].data.uid, arrivals[j].id));
    }
  }
}
