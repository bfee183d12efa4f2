/** Every deletion that is accepted while offline survives: no later creation, removal or idle of the
    offline run loses it, and neither does a restart. */
module OfflineRuns {
  import opened Text
  import opened Flags
  import opened ContactValues
  import opened Contacts
  import opened VCards
  import opened MasterProtocol
  import opened Store
  import opened StoreBatches
  import opened Fetch
  import opened Worlds
  import opened Coherence
  import opened CoherentRuns
  import opened CoherentRequests
  import opened Runs
  import opened OfflineDelete
  import Exactness

  /** The contact of a uid waits for its deletion, and the server is to be asked for it: an invalid
      contact is dropped at once instead. */
  predicate Queued(w: World, u: string) {
    Waits(w, u) && CONTACT_INVALID !in At(w, w.toDelete[u]).flags
  }

  /** The request asks for the deletion of the contact of a uid, and the code accepts that. */
  predicate Accepts(w: World, text: string, u: string) {
    var fields := Split(text, ';');
    && fields != [] && fields[0] == u && u in w.byUid
    && ApplySuffix(At(w, w.byUid[u]), fields[1..]).1 && CONTACT_INVALID !in At(w, w.byUid[u]).flags
  }

  // ---- One step keeps what waits ----

  /** Nothing that matters to the contacts that wait has changed. */
  lemma SameQueued(w: World, w': World, u: string)
    requires Queued(w, u) && w'.heap == w.heap && w'.byUid == w.byUid && w'.toDelete == w.toDelete
    ensures Queued(w', u)
  {}

  /** A contact changes but stays what it is; the one that waits is still valid. */
  lemma ChangedQueued(w: World, c: Contact, d: ContactData, w': World, u: string)
    requires Queued(w, u) && Live(w, c) && d.uid == At(w, c).uid
    requires CONTACT_INVALID in d.flags ==> CONTACT_INVALID in At(w, c).flags
    requires w'.heap == w.heap[c := d] && w'.byUid == w.byUid && w'.toDelete == w.toDelete
    ensures Queued(w', u)
  {}

  lemma AbsorbedFlags(d: ContactData, news: ContactData, unblocked: bool)
    ensures var d' := Absorbed(d, news);
      && d'.uid == d.uid && d'.flags == d.flags
      && RunUpdate(d', unblocked).uid == d.uid && RunUpdate(d', unblocked).flags <= d.flags
  {}

  lemma ExistingQueued(w: World, c: Contact, news: ContactData, o: CreateAnswers, u: string)
    requires Queued(w, u) && Live(w, c)
    ensures Queued(CreateExisting(w, c, news, o), u)
  {
    hide *;
    var d := Absorbed(At(w, c), news);
    CreateExistingIs(w, c, news, o);
    AbsorbedFlags(At(w, c), news, o.unblocked);
    if !NeedsUpdate(d) {
      PutShape(w, c, d);
      ChangedQueued(w, c, d, Put(w, c, d), u);
    } else {
      var d' := RunUpdate(d, o.unblocked);
      var w1 := Put(w, c, d').(db := Commit(w.db, RealUpdate(w.db, d'), o.stored));
      PutShape(w, c, d');
      ChangedQueued(w, c, d', w1, u);
      NotifyUpdatedRows(w1, c);
      RowsQueued(w1, NotifyUpdated(w1, c), u);
    }
  }

  lemma RowsQueued(w: World, w': World, u: string)
    requires Queued(w, u) && SameRows(w, w')
    ensures Queued(w', u)
  {}

  lemma NewQueued(w: World, id: Contact, d: ContactData, w': World, u: string)
    requires Queued(w, u) && id !in w.heap && d.uid !in w.byUid
    requires w'.heap == w.heap[id := d] && w'.byUid == w.byUid[d.uid := id] && w'.toDelete == w.toDelete
    ensures Queued(w', u)
  {}

  lemma NewShape(w: World, id: Contact, d: ContactData, stored: bool)
    ensures var w' := CreateNew(w, id, d, stored).0;
      && w'.heap == w.heap[id := d] && w'.byUid == w.byUid[d.uid := id] && w'.toDelete == w.toDelete
  {
    hide NameOf, Commit, RealAdd, RowOf, UpdateMany;
    PutShape(w, id, d);
    hide Put;
  }

  lemma FlushQueued(w: World, u: string)
    requires Queued(w, u)
    ensures Queued(Flush(w, true), u)
  {
    hide *;
    FlushSame(w);
    SameHeap(w, Flush(w, true));
    SameQueued(w, Flush(w, true), u);
  }

  lemma CreatingQueued(w: World, norm: Norm, setup: Setup, card: Card, id: Contact, o: CreateAnswers, u: string)
    requires Kept(w, norm, {}) && Queued(w, u) && id !in w.heap && o.flushed
    ensures Queued(Create(w, setup.path, setup.vcardField, card, id, false, o).0, u)
  {
    hide *;
    var w' := Flush(w, true);
    FlushQueued(w, u);
    FlushKeeps(w, norm, {});
    FlushSame(w);
    SameHeap(w, w');
    CreateOfflineIs(w, setup, card, id, o);
    var (d, named) := UpdateFromEContact(NEW_CONTACT, card, setup.vcardField);
    if named {
      var s := Submitted(w', setup.path, d);
      SubmittedIs(w', setup.path, d);
      if NameOf(s) in w'.byName {
        NameIsLive(w', norm, NameOf(s));
        ExistingQueued(w', w'.byName[NameOf(s)], s, o, u);
      } else {
        NewShape(w', id, s, o.stored);
        NewQueued(w', id, s, CreateNew(w', id, s, o.stored).0, u);
      }
    }
  }

  // ---- One removal request ----

  lemma SuffixFlags(d: ContactData, suffix: seq<string>)
    ensures var d' := ApplySuffix(d, suffix).0; d'.flags == d.flags && d'.uid == d.uid && d'.name == d.name
  {
    ApplySuffixIsMinor(d, suffix);
    hide ApplySuffix;
  }

  lemma KeptQueued(w: World, c: Contact, d: ContactData, u: string)
    requires Queued(w, u) && Live(w, c) && d.uid == At(w, c).uid && d.flags == At(w, c).flags
    ensures Queued(KeepContact(w, c, d, true), u)
  {
    hide *;
    KeepContactIs(w, c, d);
    if SCHEDULE_UPDATE_MASTER_UID !in d.pendingFlags {
      PutShape(w, c, d);
      ChangedQueued(w, c, d, Put(w, c, d), u);
    } else {
      var d' := Cleared(w, d);
      var w1 := Put(w, c, d').(db := Commit(w.db, RealUpdate(w.db, d), true));
      ClearedFlags(w, d);
      PutShape(w, c, d');
      ChangedQueued(w, c, d', w1, u);
      NotifyUpdatedRows(w1, c);
      RowsQueued(w1, NotifyUpdated(w1, c), u);
    }
  }

  lemma ClearedFlags(w: World, d: ContactData)
    ensures Cleared(w, d).uid == d.uid && Cleared(w, d).flags == d.flags
  {}

  /** An invalid contact goes; the one that waits is another one. */
  lemma InvalidGone(w: World, c: Contact, d: ContactData, w': World, u: string)
    requires Queued(w, u) && Live(w, c) && CONTACT_INVALID in At(w, c).flags && d.uid == At(w, c).uid
    requires w'.heap == w.heap[c := d] && w'.byUid == w.byUid - {d.uid} && w'.toDelete == w.toDelete
    ensures Queued(w', u)
  {}

  /** A contact is marked and waits now; whoever waited before still does. */
  lemma MarkedQueued(w: World, c: Contact, marked: ContactData, w': World, u: string)
    requires Live(w, c) && marked.uid == At(w, c).uid && marked.flags == At(w, c).flags
    requires CONTACT_INVALID !in marked.flags
    requires w' == Put(w, c, marked).(toDelete := w.toDelete[marked.uid := c])
    ensures Queued(w, u) ==> Queued(w', u)
    ensures Queued(w', marked.uid)
  {}

  lemma DroppedQueued(w: World, c: Contact, d: ContactData, o: RemoveAnswers, u: string)
    requires Live(w, c) && At(w, c).name.Some? && w.dirty == map[] && o.flushed && o.removed
    requires d.uid == At(w, c).uid && d.name == At(w, c).name && d.flags == At(w, c).flags
    ensures Queued(w, u) ==> Queued(DropContact(w, c, d, false, o), u)
    ensures CONTACT_INVALID !in d.flags ==> Queued(DropContact(w, c, d, false, o), d.uid)
  {
    hide *;
    if CONTACT_INVALID in d.flags {
      DropInvalidShape(w, c, d, o);
      if Queued(w, u) { InvalidGone(w, c, d.(pendingFlags := {}), DropContact(w, c, d, false, o), u); }
    } else {
      DropMarkShape(w, c, d, o);
      MarkedQueued(w, c, d.(pendingFlags := {SCHEDULE_DELETE}), DropContact(w, c, d, false, o), u);
    }
  }

  /** A request keeps whoever waits, and if it is accepted its contact waits. */
  lemma RequestQueues(b: Batch, norm: Norm, request: string, o: RemoveAnswers, u: string)
    requires OfflineDelete.Removing(b, norm) && Carried(o)
    ensures Queued(b.world, u) ==> Queued(Remove(b, request, false, o).world, u)
    ensures Accepts(b.world, request, u) ==> Queued(Remove(b, request, false, o).world, u)
  {
    hide *;
    CarriedIs(o);
    FlushRemoving(b, norm);
    var fb := Batch(Flush(b.world, true), b.contacts);
    var w, fields := fb.world, Split(request, ';');
    FlushSame(b.world);
    SameHeap(b.world, w);
    SameAt(b.world, w);
    AcceptsIs(b.world, request, u);
    RemoveIs(b, request, o);
    if Queued(b.world, u) { FlushQueued(b.world, u); }
    if fields != [] && fields[0] in w.byUid {
      var c := w.byUid[fields[0]];
      var (d, really) := ApplySuffix(At(w, c), fields[1..]);
      RemovingInv(fb, norm);
      Named(w, norm, fields[0]);
      SuffixFlags(At(w, c), fields[1..]);
      if really {
        DroppedQueued(w, c, d, o, u);
      } else if Queued(w, u) {
        KeptQueued(w, c, d, u);
      }
    }
  }

  lemma CarriedIs(o: RemoveAnswers)
    ensures Carried(o) <==> o.flushed && o.stored && o.removed
  {}

  lemma SameAt(w: World, w': World)
    requires w'.heap == w.heap
    ensures forall c :: At(w', c) == At(w, c)
  {}

  lemma AcceptsIs(w: World, text: string, u: string)
    ensures var fields := Split(text, ';');
      Accepts(w, text, u) <==>
        && fields != [] && fields[0] == u && u in w.byUid
        && ApplySuffix(At(w, w.byUid[u]), fields[1..]).1 && CONTACT_INVALID !in At(w, w.byUid[u]).flags
  {
    hide Split, ApplySuffix, At;
  }

  lemma RemoveIs(b: Batch, request: string, o: RemoveAnswers)
    ensures var w, fields := Flush(b.world, o.flushed), Split(request, ';');
      if fields == [] || fields[0] !in w.byUid then Remove(b, request, false, o).world == w
      else
        var c := w.byUid[fields[0]];
        var r := ApplySuffix(At(w, c), fields[1..]);
        Remove(b, request, false, o).world ==
          if r.1 then DropContact(w, c, r.0, false, o) else KeepContact(w, c, r.0, o.stored)
  {
    hide Flush, Split, ApplySuffix, DropContact, KeepContact, At;
  }

  // ---- A batch of requests ----

  /** The batch before its k-th request. */
  function Before(w: World, requests: seq<Request>, k: nat): Batch
    requires k <= |requests|
  {
    RemoveAll(Batch(Flush(Notify(w), true), []), requests[..k], false)
  }

  lemma {:induction false} RemoveAllSnoc(b: Batch, requests: seq<Request>, r: Request)
    ensures RemoveAll(b, requests + [r], false) == Remove(RemoveAll(b, requests, false), r.text, false, r.answers)
    decreases |requests|
  {
    hide Remove;
    if requests == [] {
      assert requests + [r] == [r] && [r][1..] == [];
    } else {
      assert (requests + [r])[1..] == requests[1..] + [r];
      RemoveAllSnoc(Remove(b, requests[0].text, false, requests[0].answers), requests[1..], r);
    }
  }

  lemma BeforeNext(w: World, requests: seq<Request>, k: nat)
    requires k < |requests|
    ensures Before(w, requests, k + 1)
         == Remove(Before(w, requests, k), requests[k].text, false, requests[k].answers)
  {
    assert requests[..k + 1] == requests[..k] + [requests[k]];
    hide RemoveAll, Remove, Flush, Notify;
    RemoveAllSnoc(Batch(Flush(Notify(w), true), []), requests[..k], requests[k]);
  }

  predicate AllCarried(requests: seq<Request>) {
    forall r :: r in requests ==> Carried(r.answers)
  }

  lemma BeforeIsRemoving(w: World, norm: Norm, requests: seq<Request>, k: nat)
    requires Kept(w, norm, {}) && AllCarried(requests) && k <= |requests|
    ensures OfflineDelete.Removing(Before(w, requests, k), norm)
  {
    hide *;
    NotifyRows(w);
    SameRowsKeep(w, norm, {}, Notify(w));
    FlushKeeps(Notify(w), norm, {});
    var start := Batch(Flush(Notify(w), true), []);
    NobodyYet(start.world);
    StartIsRemoving(start.world, norm);
    CarriedPrefix(requests, k);
    RemoveAllKept(start, norm, requests[..k]);
    BeforeIs(w, requests, k);
  }

  lemma BeforeIs(w: World, requests: seq<Request>, k: nat)
    requires k <= |requests|
    ensures Before(w, requests, k) == RemoveAll(Batch(Flush(Notify(w), true), []), requests[..k], false)
  {}

  lemma StartIsRemoving(w: World, norm: Norm)
    requires Kept(w, norm, {}) && UidsOf(w, SetOf([])) == {}
    ensures OfflineDelete.Removing(Batch(w, []), norm)
  {
    hide Kept, UidsOf;
  }

  lemma CarriedPrefix(requests: seq<Request>, k: nat)
    requires AllCarried(requests) && k <= |requests|
    ensures forall r :: r in requests[..k] ==> Carried(r.answers)
    ensures k < |requests| ==> Carried(requests[k].answers)
  {}

  /** From one point of the batch on, whoever waits keeps waiting. */
  lemma {:induction false} StillQueued(w: World, norm: Norm, requests: seq<Request>, i: nat, k: nat, u: string)
    requires Kept(w, norm, {}) && AllCarried(requests) && i <= k <= |requests|
    requires Queued(Before(w, requests, i).world, u)
    ensures Queued(Before(w, requests, k).world, u)
    decreases k
  {
    hide *;
    if i < k {
      StillQueued(w, norm, requests, i, k - 1, u);
      BeforeIsRemoving(w, norm, requests, k - 1);
      CarriedPrefix(requests, k - 1);
      BeforeNext(w, requests, k - 1);
      RequestQueues(Before(w, requests, k - 1), norm, requests[k - 1].text, requests[k - 1].answers, u);
    }
  }

  /** The write at the end of the batch does not matter. */
  lemma BatchEnds(w: World, requests: seq<Request>, u: string)
    requires Queued(Before(w, requests, |requests|).world, u)
    ensures Queued(RemoveContacts(w, requests, false, true, true), u)
  {
    assert requests[..|requests|] == requests;
    var b := Before(w, requests, |requests|);
    hide RemoveAll, Flush, Notify, Queued, UpdateAll, DataAt;
    SameQueued(b.world, StoreChanged(b.world, b.contacts, true), u);
  }

  lemma RemovingQueued(w: World, norm: Norm, requests: seq<Request>, u: string)
    requires Kept(w, norm, {}) && Queued(w, u) && AllCarried(requests)
    ensures Queued(RemoveContacts(w, requests, false, true, true), u)
  {
    hide *;
    NotifyRows(w);
    RowsQueued(w, Notify(w), u);
    FlushQueued(Notify(w), u);
    BeforeFirst(w, requests);
    StillQueued(w, norm, requests, 0, |requests|, u);
    BatchEnds(w, requests, u);
  }

  lemma BeforeFirst(w: World, requests: seq<Request>)
    ensures Before(w, requests, 0).world == Flush(Notify(w), true)
  {
    assert requests[..0] == [];
    hide Flush, Notify;
  }

  // ---- One event ----

  /** No offline event loses a contact that waits for its deletion. */
  lemma EventKeepsQueued(w: World, norm: Norm, setup: Setup, e: Event, u: string)
    requires Kept(w, norm, {}) && Offline(w, e) && Queued(w, u)
    ensures Queued(Happen(w, setup, e), u)
  {
    hide Kept, Queued, Create, RemoveContacts, IdleUpdate, Notify, StartView, SetInactivity, Carried, SameRows;
    match e {
      case Creating(card, id, _, answers) => CreatingQueued(w, norm, setup, card, id, answers, u);
      case Removing(requests, _, _, _) => RemovingQueued(w, norm, requests, u);
      case Idling(_) => IdlingQueued(w, u);
      case Notifying =>
        NotifyRows(w);
        RowsQueued(w, Notify(w), u);
      case Viewing =>
        ViewRows(w);
        RowsQueued(w, StartView(w), u);
      case Resting(inactive) =>
        InactivityRows(w, inactive);
        RowsQueued(w, SetInactivity(w, inactive), u);
    }
  }

  lemma IdlingQueued(w: World, u: string)
    requires Queued(w, u)
    ensures Queued(IdleUpdate(w, true), u)
  {
    IdleTouches(w, true);
    IdleQueue(w);
    hide IdleUpdate, Queued;
    SameQueued(w, IdleUpdate(w, true), u);
  }

  lemma IdleQueue(w: World)
    ensures IdleUpdate(w, true).toDelete == w.toDelete
  {
    hide Commit, Values, VisibleOf, Tell;
  }

  /** The event has the backend accept the deletion of the contact of a uid. */
  ghost predicate AcceptedIn(w: World, e: Event, u: string) {
    e.Removing? && exists k :: 0 <= k < |e.requests| && Accepts(Before(w, e.requests, k).world, e.requests[k].text, u)
  }

  /** A deletion that an offline event accepts waits afterwards, whatever the requests that follow it
      in the same batch are. */
  lemma AcceptedQueued(w: World, norm: Norm, setup: Setup, e: Event, u: string)
    requires Kept(w, norm, {}) && Offline(w, e) && AcceptedIn(w, e, u)
    ensures Queued(Happen(w, setup, e), u)
  {
    var requests := e.requests;
    hide *;
    var k := AcceptedAt(w, setup, e, u);
    BeforeIsRemoving(w, norm, requests, k);
    CarriedPrefix(requests, k);
    RequestQueues(Before(w, requests, k), norm, requests[k].text, requests[k].answers, u);
    BeforeNext(w, requests, k);
    StillQueued(w, norm, requests, k + 1, |requests|, u);
    BatchEnds(w, requests, u);
  }

  lemma AcceptedAt(w: World, setup: Setup, e: Event, u: string) returns (k: nat)
    requires Offline(w, e) && AcceptedIn(w, e, u)
    ensures AllCarried(e.requests) && k < |e.requests|
    ensures Accepts(Before(w, e.requests, k).world, e.requests[k].text, u)
    ensures Happen(w, setup, e) == RemoveContacts(w, e.requests, false, true, true)
  {
    hide Carried, Before, Accepts, RemoveContacts;
    k :| 0 <= k < |e.requests| && Accepts(Before(w, e.requests, k).world, e.requests[k].text, u);
  }

  // ---- Runs ----

  lemma {:induction false} RunKeepsQueued(w: World, norm: Norm, setup: Setup, events: seq<Event>, u: string)
    requires Kept(w, norm, {}) && AllOffline(w, setup, events) && Queued(w, u)
    ensures Queued(Run(w, setup, events), u)
    decreases |events|
  {
    hide Kept, Queued, Happen, Offline;
    if events != [] {
      EventKeepsQueued(w, norm, setup, events[0], u);
      OfflineKept(w, norm, setup, events[0]);
      RunKeepsQueued(Happen(w, setup, events[0]), norm, setup, events[1..], u);
    }
  }

  /** Some event of the run has the backend accept the deletion. */
  ghost predicate AcceptedInRun(w: World, setup: Setup, events: seq<Event>, u: string)
    decreases |events|
  {
    events != [] && (AcceptedIn(w, events[0], u) || AcceptedInRun(Happen(w, setup, events[0]), setup, events[1..], u))
  }

  lemma {:induction false} AcceptedWaitsAtEnd(w: World, norm: Norm, setup: Setup, events: seq<Event>, u: string)
    requires Kept(w, norm, {}) && AllOffline(w, setup, events) && AcceptedInRun(w, setup, events, u)
    ensures Queued(Run(w, setup, events), u)
    decreases |events|
  {
    hide Kept, Queued, Happen, Offline, AcceptedIn;
    var next := Happen(w, setup, events[0]);
    OfflineKept(w, norm, setup, events[0]);
    if AcceptedIn(w, events[0], u) {
      AcceptedQueued(w, norm, setup, events[0], u);
      RunKeepsQueued(next, norm, setup, events[1..], u);
    } else {
      AcceptedWaitsAtEnd(next, norm, setup, events[1..], u);
    }
  }

  /** Offline deletions survive. Whenever an offline run of creations, removals, idles and views
      accepts the deletion of a contact, then at the end of the run the contact waits for its
      deletion, is marked in the cache and is not listed; and whenever that cache is loaded again, it
      waits for its deletion and is not listed. */
  lemma OfflineDeletionsSurvive(w: World, norm: Norm, setup: Setup, events: seq<Event>, u: string)
    requires Kept(w, norm, {}) && AllOffline(w, setup, events) && AcceptedInRun(w, setup, events, u)
    ensures var w' := Run(w, setup, events);
      && Waits(w', u) && RowMarked(w'.db, u) && u !in VisibleOf(w', w'.byUid)
      && forall w0: World, loaded, contactRows, masterRows, variantRows ::
           w0.db == w'.db && Restored(w'.db, loaded, contactRows, masterRows, variantRows) ==> Returned(Load(w0, loaded), u)
  {
    AcceptedWaitsAtEnd(w, norm, setup, events, u);
    assert Waits(Run(w, setup, events), u);
    hide *;
    WaitingSurvives(w, norm, setup, events, u);
  }

  // ---- Where an offline run starts ----

  /** A contact that waits was fetched with the mark. */
  lemma {:induction false} LoadedDeletions(w: World, loaded: seq<Arrival>, u: string)
    requires u in LoadAll(w, loaded).toDelete
    ensures (u in w.toDelete && LoadAll(w, loaded).toDelete[u] == w.toDelete[u])
      || exists a :: a in loaded && a.data.uid == u && LoadAll(w, loaded).toDelete[u] == a.id && IsMarked(a.data)
    decreases |loaded|
  {
    if loaded != [] {
      assert loaded == [loaded[0]] + loaded[1..];
      assert forall a :: a in loaded[1..] ==> a in loaded;
      LoadedDeletions(LoadOne(w, loaded[0]), loaded[1..], u);
      hide NameOf, Marked;
    }
  }

  lemma LoadTouches(w: World, loaded: seq<Arrival>)
    ensures var l0, l := LoadAll(w, loaded), Load(w, loaded);
      l.heap == l0.heap && l.byUid == l0.byUid && l.toDelete == l0.toDelete && l.dirty == l0.dirty && l.db == l0.db
  {
    hide LoadAll, VisibleOf, Tell;
  }

  lemma {:induction false} LoadAllDirty(w: World, loaded: seq<Arrival>)
    ensures LoadAll(w, loaded).dirty == w.dirty
    decreases |loaded|
  {
    if loaded != [] {
      LoadAllDirty(LoadOne(w, loaded[0]), loaded[1..]);
      hide NameOf, Marked;
    }
  }

  lemma LoadedRow(t: Tables, loaded: seq<Arrival>, contactRows: seq<ContactRow>,
                  masterRows: seq<(string, string)>, variantRows: seq<(string, string)>, a: Arrival)
    requires Restored(t, loaded, contactRows, masterRows, variantRows) && a in loaded && IsMarked(a.data)
    ensures RowMarked(t, a.data.uid)
  {
    var i :| 0 <= i < |loaded| && loaded[i] == a;
    assert a.data == FetchedAll(contactRows, masterRows, variantRows)[i];
    hide Loadable, Select, Before;
  }

  lemma RestoredParts(t: Tables, loaded: seq<Arrival>, contactRows: seq<ContactRow>,
                      masterRows: seq<(string, string)>, variantRows: seq<(string, string)>)
    requires Restored(t, loaded, contactRows, masterRows, variantRows)
    ensures Loadable(loaded) && ContactListing(contactRows, t.contacts)
    ensures Exactness.Fetches(t, loaded, contactRows, masterRows, variantRows)
  {}

  lemma LoadedHere(w: World, loaded: seq<Arrival>, a: Arrival)
    requires Loadable(loaded) && a in loaded
    ensures Loaded(LoadAll(w, loaded), a) && LoadAll(w, loaded).db == w.db
  {
    hide *;
    Exactness.LoadAllKeys(w, loaded);
    LoadAllHolds(w, loaded, a.id, a.data.uid);
    var i :| 0 <= i < |loaded| && loaded[i] == a;
    assert Loaded(LoadAll(w, loaded), loaded[i]);
  }

  lemma MarkedKept(l: World, a: Arrival)
    requires Loaded(l, a) && IsMarked(a.data) && RowMarked(l.db, a.data.uid)
    ensures DeletionKept(l, {}, a.data.uid, a.id)
  {
    hide RowMarked;
  }

  lemma LoadedWaits(w: World, loaded: seq<Arrival>, contactRows: seq<ContactRow>,
                    masterRows: seq<(string, string)>, variantRows: seq<(string, string)>, u: string)
    requires w.toDelete == map[] && Restored(w.db, loaded, contactRows, masterRows, variantRows)
    requires u in LoadAll(w, loaded).toDelete
    ensures var l := LoadAll(w, loaded); DeletionKept(l, {}, u, l.toDelete[u])
  {
    hide *;
    LoadedDeletions(w, loaded, u);
    var a :| a in loaded && a.data.uid == u && LoadAll(w, loaded).toDelete[u] == a.id && IsMarked(a.data);
    RestoredParts(w.db, loaded, contactRows, masterRows, variantRows);
    LoadedRow(w.db, loaded, contactRows, masterRows, variantRows, a);
    LoadedHere(w, loaded, a);
    MarkedKept(LoadAll(w, loaded), a);
  }

  lemma LoadKeepsDeletions(w: World, loaded: seq<Arrival>)
    requires Deletions(LoadAll(w, loaded), {})
    ensures Deletions(Load(w, loaded), {})
  {
    LoadTouches(w, loaded);
    var l0, l := LoadAll(w, loaded), Load(w, loaded);
    assert forall c :: At(l, c) == At(l0, c);
    hide LoadAll, Load, At;
    forall u | u in l.toDelete ensures DeletionKept(l, {}, u, l.toDelete[u]) {
      assert DeletionKept(l0, {}, u, l0.toDelete[u]);
    }
  }

  lemma AllDeletions(w: World)
    requires forall u :: u in w.toDelete ==> DeletionKept(w, {}, u, w.toDelete[u])
    ensures Deletions(w, {})
  {
    hide DeletionKept;
  }

  lemma NothingQueued(w: World)
    requires w.dirty == map[]
    ensures Queueing(w)
  {}

  /** Loading the cache is where an offline run starts from. */
  lemma LoadedIsKept(w: World, norm: Norm, loaded: seq<Arrival>, contactRows: seq<ContactRow>,
                     masterRows: seq<(string, string)>, variantRows: seq<(string, string)>)
    requires Bare(w) && w.dirty == map[] && w.toDelete == map[] && DistinctNames(loaded)
    requires ChildListing(masterRows, w.db.masterUids) && ChildListing(variantRows, w.db.variants)
    requires Restored(w.db, loaded, contactRows, masterRows, variantRows)
    requires forall i :: 0 <= i < |loaded| ==> loaded[i].id !in w.heap
    ensures Kept(Load(w, loaded), norm, {})
  {
    hide *;
    var l0, l := LoadAll(w, loaded), Load(w, loaded);
    RestoredParts(w.db, loaded, contactRows, masterRows, variantRows);
    LoadKeeps(w, norm, loaded);
    Exactness.FetchedFacts(w.db, loaded, contactRows, masterRows, variantRows);
    Exactness.BareKeys(w, loaded);
    LoadTouches(w, loaded);
    LoadAllDirty(w, loaded);
    forall u | u in l0.toDelete ensures DeletionKept(l0, {}, u, l0.toDelete[u]) {
      LoadedWaits(w, loaded, contactRows, masterRows, variantRows, u);
    }
    AllDeletions(l0);
    LoadKeepsDeletions(w, loaded);
    NothingQueued(l);
    KeptWhole(l, norm, {});
  }
}
