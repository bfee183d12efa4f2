/** Who flushes the write-behind queue: exactly which callbacks leave changes in it with no idle
    scheduled that would write them. */
module Stranding {
  import opened Text
  import opened Flags
  import opened ContactValues
  import opened Contacts
  import opened VCards
  import opened MasterProtocol
  import opened Store
  import opened StoreBatches
  import opened Worlds
  import opened Coherence
  import opened CoherentRuns
  import opened CoherentRequests
  import opened Runs
  import Soundness
  import WriteBehind

  /** A queue that is not empty has an idle that will flush it. */
  predicate Served(w: World) {
    w.dirty != map[] ==> w.idle
  }

  /** The guard of each callback that cancels the idle and leaves changes in the queue: contacts came
      in, or there was something in the queue when pending changes were announced, be it at once, for
      a new view, or at the end of an inactivity during which something had to wait. */
  predicate Strands(w: World, e: Event) {
    match e
    case Arriving(arrivals, _, _) => arrivals != []
    case Notifying => w.dirty != map[]
    case Viewing => w.dirty != map[]
    case Resting(inactive) => w.dirty != map[] && w.inactive && !inactive && w.changed != map[]
    case _ => false
  }

  // ---- What the callbacks do to the queue and to the idle ----

  predicate SameService(w: World, w': World) {
    w'.dirty == w.dirty && w'.idle == w.idle
  }

  lemma NotifyService(w: World)
    ensures Notify(w).dirty == w.dirty && !Notify(w).idle
  {
    hide VisibleOf, Tell;
  }

  lemma DeleteService(w: World, cs: set<Contact>, flushed: bool, removed: bool)
    ensures DeleteContacts(w, cs, flushed, removed).dirty == map[]
  {
    hide Unlink, VisibleOf, Tell, Forget, DeleteMany, UidsOf, Commit, Values;
  }

  lemma NotifyUpdatedService(w: World, c: Contact)
    ensures NotifyUpdated(w, c).dirty == w.dirty
  {
    var told := w.(changed := w.changed - {At(w, c).uid});
    NotifyService(told);
    AnnounceService(Notify(told), c);
    hide At, Notify, Announce;
  }

  lemma AnnounceService(w: World, c: Contact)
    ensures Announce(w, c).dirty == w.dirty
  {
    hide At, Tell;
  }

  /** A contact is written and announced. */
  lemma WrittenService(w: World, c: Contact, d: ContactData, db: Tables)
    ensures NotifyUpdated(Put(w, c, d).(db := db), c).dirty == w.dirty
  {
    NotifyUpdatedService(Put(w, c, d).(db := db), c);
    hide NotifyUpdated;
  }

  lemma {:induction false} LoadAllService(w: World, arrivals: seq<Arrival>)
    ensures SameService(w, LoadAll(w, arrivals))
    decreases |arrivals|
  {
    hide NameOf, Marked;
    if arrivals != [] { LoadAllService(LoadOne(w, arrivals[0]), arrivals[1..]); }
  }

  lemma LoadService(w: World, arrivals: seq<Arrival>)
    ensures SameService(w, Load(w, arrivals))
  {
    LoadAllService(w, arrivals);
    hide LoadAll, VisibleOf, Tell;
  }

  lemma MeetService(s: Intake, path: string, a: Arrival)
    ensures SameService(s.world, Meet(s, path, a).world)
  {
    hide NameOf, WithUid, Refreshed, At, AliasDiffers;
  }

  lemma {:induction false} MeetAllService(s: Intake, path: string, arrivals: seq<Arrival>)
    ensures SameService(s.world, MeetAll(s, path, arrivals).world)
    decreases |arrivals|
  {
    hide Meet;
    if arrivals != [] {
      MeetService(s, path, arrivals[0]);
      MeetAllService(Meet(s, path, arrivals[0]), path, arrivals[1..]);
    }
  }

  lemma Phase2Service(s: Intake, added: bool, updated: bool, flushed: bool, removed: bool)
    ensures var w' := Phase2(s, added, updated, flushed, removed); SameService(s.world, w') || w'.dirty == map[]
  {
    var w := StoreChanged(StoreNew(s.world, s.toAdd, added), s.toUpdate, updated);
    DeleteService(w, Unseen(w), flushed, removed);
    hide Unseen, DeleteContacts, Commit, AddAll, UpdateAll, DataAt;
  }

  lemma MergeService(w: World, dest: Contact, src: Contact, flushed: bool, removed: bool)
    ensures Merge(w, dest, src, flushed, removed).dirty == map[]
  {
    DeleteService(Announce(Put(w, dest, MergeData(At(w, dest), At(w, src))), dest), {src}, flushed, removed);
    hide DeleteContacts, Announce, Put, MergeData, At, NameOf;
  }

  lemma RenameService(b: Batch, c: Contact, was: string, flushed: bool, removed: bool)
    ensures var w' := Rename(b, c, was, flushed, removed).world; SameService(b.world, w') || w'.dirty == map[]
  {
    var w := b.world.(byName := b.world.byName - {was});
    hide Merge, NameOf, At;
    if NameOf(At(w, c)) in w.byName { MergeService(w, w.byName[NameOf(At(w, c))], c, flushed, removed); }
  }

  lemma AddService(b: Batch, c: Contact, a: Answer, flushed: bool, removed: bool)
    ensures var w' := SyncAdd(b, c, a, flushed, removed).world; SameService(b.world, w') || w'.dirty == map[]
  {
    var d := At(b.world, c);
    var d' := RunAdd(d, a).0;
    var settled := d'.(pendingFlags := d'.pendingFlags - {SCHEDULE_ADD});
    Soundness.SyncAddIs(b, c, a, flushed, removed);
    RenameService(Batch(Put(b.world, c, settled), b.contacts), c, NameOf(d), flushed, removed);
    hide SyncAdd, Rename, RunAdd, NameOf, At;
  }

  lemma SyncOneService(b: Batch, s: SyncStep)
    ensures var w' := SyncOne(b, s).world; SameService(b.world, w') || w'.dirty == map[]
  {
    hide SyncAdd, RunUpdate, NeedsUpdate, At;
    match s {
      case StepUpdate(c, unblocked) =>
      case StepAdd(c, a, flushed, removed) => AddService(b, c, a, flushed, removed);
      case StepDelete(c, removed) =>
    }
  }

  lemma {:induction false} SyncAllService(b: Batch, steps: seq<SyncStep>)
    ensures var w' := SyncAll(b, steps).world; SameService(b.world, w') || w'.dirty == map[]
    decreases |steps|
  {
    hide SyncOne;
    if steps != [] {
      SyncOneService(b, steps[0]);
      SyncAllService(SyncOne(b, steps[0]), steps[1..]);
    }
  }

  lemma Phase3Service(w: World, steps: seq<SyncStep>, stored: bool)
    ensures var w' := Phase3(w, steps, stored); SameService(w, w') || w'.dirty == map[]
  {
    SyncAllService(Batch(w, []), steps);
    hide SyncAll, Commit, UpdateAll, DataAt;
  }

  lemma {:induction false} ReceiveAllService(b: Batch, kind: Kind, news: seq<ContactData>)
    ensures SameService(b.world, ReceiveAll(b, kind, news).world)
    decreases |news|
  {
    hide Received, At;
    if news != [] { ReceiveAllService(Receive(b, kind, news[0]), kind, news[1..]); }
  }

  lemma SignalledService(w: World, kind: Kind, news: seq<ContactData>)
    ensures var w' := Signalled(w, kind, news); SameService(w, w') || w'.idle
  {
    ReceiveAllService(Batch(w, []), kind, news);
    hide ReceiveAll, QueueAll;
  }

  lemma {:induction false} LeaveAllService(b: Batch, handles: seq<nat>)
    ensures SameService(b.world, LeaveAll(b, handles).world)
    decreases |handles|
  {
    hide At;
    if handles != [] { LeaveAllService(Leave(b, handles[0]), handles[1..]); }
  }

  lemma LeavingService(w: World, handles: seq<nat>, flushed: bool, removed: bool)
    ensures var w' := ContactsRemoved(w, handles, flushed, removed); SameService(w, w') || w'.dirty == map[]
  {
    var b := LeaveAll(Batch(w, []), handles);
    LeaveAllService(Batch(w, []), handles);
    DeleteService(b.world, SetOf(b.contacts), flushed, removed);
    hide LeaveAll, DeleteContacts;
  }

  lemma CreateExistingService(w: World, c: Contact, news: ContactData, o: CreateAnswers)
    ensures CreateExisting(w, c, news, o).dirty == w.dirty
  {
    var d' := RunUpdate(Absorbed(At(w, c), news), o.unblocked);
    WrittenService(w, c, d', Commit(w.db, RealUpdate(w.db, d'), o.stored));
    hide Absorbed, RunUpdate, NeedsUpdate, NotifyUpdated, Commit, RealUpdate, At;
  }

  lemma CreateNewService(w: World, id: Contact, d: ContactData, stored: bool)
    ensures CreateNew(w, id, d, stored).0.dirty == w.dirty
  {
    hide NameOf, Commit, RealAdd;
  }

  lemma CreateService(w: World, setup: Setup, card: Card, id: Contact, online: bool, o: CreateAnswers)
    ensures Create(w, setup.path, setup.vcardField, card, id, online, o).0.dirty == map[]
  {
    var w' := Flush(w, o.flushed);
    var (d, named) := UpdateFromEContact(NEW_CONTACT, card, setup.vcardField);
    var (d', added) := if online then RunAdd(Submitted(w', setup.path, d), o.add) else (Submitted(w', setup.path, d), true);
    assert w'.dirty == map[];
    hide Flush, UpdateFromEContact, RunAdd, Submitted, CreateExisting, CreateNew, NameOf;
    if NameOf(d') in w'.byName { CreateExistingService(w', w'.byName[NameOf(d')], d', o); }
    CreateNewService(w', id, d', o.stored);
  }

  lemma KeepContactService(w: World, c: Contact, d: ContactData, stored: bool)
    ensures KeepContact(w, c, d, stored).dirty == w.dirty
  {
    hide *;
    var written := RealUpdate(w.db, d);
    var d' := if stored && written.Some? then d.(pendingFlags := d.pendingFlags - {SCHEDULE_UPDATE_MASTER_UID}) else d;
    Soundness.KeepContactIs(w, c, d, stored);
    Soundness.WithDbParts(Put(w, c, d'), Commit(w.db, written, stored));
    NotifyUpdatedService(Soundness.WithDb(Put(w, c, d'), Commit(w.db, written, stored)), c);
    PutService(w, c, d);
    PutService(w, c, d');
  }

  lemma PutService(w: World, c: Contact, d: ContactData)
    ensures Put(w, c, d).dirty == w.dirty
  {}

  lemma DropContactService(w: World, c: Contact, d: ContactData, online: bool, o: RemoveAnswers)
    requires w.dirty == map[]
    ensures DropContact(w, c, d, online, o).dirty == map[]
  {
    DeleteService(Put(w, c, d.(pendingFlags := {})), {c}, o.flushed, o.removed);
    hide DeleteContacts;
  }

  lemma RemoveService(b: Batch, request: string, online: bool, o: RemoveAnswers)
    ensures Remove(b, request, online, o).world.dirty == map[]
  {
    var w, fields := Flush(b.world, o.flushed), Split(request, ';');
    assert w.dirty == map[];
    hide Flush, Split, ApplySuffix, KeepContact, DropContact, At;
    if fields != [] && fields[0] in w.byUid {
      var c := w.byUid[fields[0]];
      var (d, really) := ApplySuffix(At(w, c), fields[1..]);
      KeepContactService(w, c, d, o.stored);
      DropContactService(w, c, d, online, o);
    }
  }

  lemma {:induction false} RemoveAllService(b: Batch, requests: seq<Request>, online: bool)
    requires b.world.dirty == map[]
    ensures RemoveAll(b, requests, online).world.dirty == map[]
    decreases |requests|
  {
    hide Remove;
    if requests != [] {
      RemoveService(b, requests[0].text, online, requests[0].answers);
      RemoveAllService(Remove(b, requests[0].text, online, requests[0].answers), requests[1..], online);
    }
  }

  lemma RemoveContactsService(w: World, requests: seq<Request>, online: bool, flushed: bool, stored: bool)
    ensures RemoveContacts(w, requests, online, flushed, stored).dirty == map[]
  {
    var start := Batch(Flush(Notify(w), flushed), []);
    assert start.world.dirty == map[];
    hide Flush, Notify, RemoveAll, Commit, UpdateAll, DataAt;
    RemoveAllService(start, requests, online);
  }

  lemma IdleService(w: World, flushed: bool)
    ensures IdleUpdate(w, flushed).dirty == map[]
  {
    hide Notify, Commit, Values;
  }

  lemma ViewService(w: World)
    ensures StartView(w).dirty == w.dirty && !StartView(w).idle
  {
    NotifyService(w);
    hide Notify, VisibleOf;
  }

  lemma RestService(w: World, inactive: bool)
    ensures var w' := SetInactivity(w, inactive);
      w'.dirty == w.dirty && (w'.idle <==> w.idle && !(w.inactive && !inactive && w.changed != map[]))
  {
    NotifyService(w.(inactive := inactive));
    assert w.changed != map[] <==> |w.changed| > 0;
    hide Notify;
  }

  lemma NothingArrived(w: World, path: string, flushed: bool, stored: bool)
    ensures ContactsAdded(w, path, [], flushed, stored).dirty == map[]
  {
    var s := TakeInAll(Intake(w, [], []), path, []);
    assert s == Intake(w, [], []);
    var kept := StoreNew(Flush(w, flushed), [], stored);
    assert kept.dirty == map[];
    hide TakeInAll, StoreNew, Flush, Notify, UpdateContacts;
    NotifyService(kept);
  }

  // ---- One callback, and runs ----

  /** From a queue that is served, a callback leaves one that is not exactly when its guard holds. */
  lemma ServedIff(w: World, setup: Setup, e: Event)
    requires Served(w)
    ensures Served(Happen(w, setup, e)) <==> !Strands(w, e)
  {
    hide Load, GetMembers, Phase2, Phase3, ContactsAdded, ContactsRemoved, Signalled, Create, RemoveContacts, IdleUpdate,
      Notify, StartView, SetInactivity;
    match e {
      case Loading(arrivals) => LoadService(w, arrivals);
      case MembersGot(arrivals) => MembersService(w, setup.path, arrivals);
      case MembersStored(toAdd, toUpdate, added, updated, flushed, removed) =>
        Phase2Service(Intake(w, toAdd, toUpdate), added, updated, flushed, removed);
      case EditsApplied(steps, stored) => Phase3Service(w, steps, stored);
      case Arriving(arrivals, flushed, stored) =>
        if arrivals == [] { NothingArrived(w, setup.path, flushed, stored); }
        else { WriteBehind.ArrivalStrandsQueue(w, setup.path, arrivals, flushed, stored); }
      case Leaving(handles, flushed, removed) => LeavingService(w, handles, flushed, removed);
      case Changing(kind, news) => SignalledService(w, kind, news);
      case Creating(card, id, online, answers) => CreateService(w, setup, card, id, online, answers);
      case Removing(requests, online, flushed, stored) => RemoveContactsService(w, requests, online, flushed, stored);
      case Idling(flushed) => IdleService(w, flushed);
      case Notifying => NotifyService(w);
      case Viewing => ViewService(w);
      case Resting(inactive) => RestService(w, inactive);
      case Disconnecting =>
    }
  }

  lemma MembersService(w: World, path: string, arrivals: seq<Arrival>)
    ensures SameService(w, GetMembers(w, path, arrivals).world)
  {
    hide MeetAll;
    MeetAllService(Intake(w, [], []), path, arrivals);
  }

  /** The queue is served after every callback of the run. */
  predicate AlwaysServed(w: World, setup: Setup, events: seq<Event>)
    decreases |events|
  {
    Served(w) && (events == [] || AlwaysServed(Happen(w, setup, events[0]), setup, events[1..]))
  }

  /** The guard of no callback of the run holds when it starts. */
  predicate NeverStrands(w: World, setup: Setup, events: seq<Event>)
    decreases |events|
  {
    events == [] || (!Strands(w, events[0]) && NeverStrands(Happen(w, setup, events[0]), setup, events[1..]))
  }

  /** Over every run of callbacks, the queue is served all the way if and only if no callback of the
      run finds its guard true. */
  lemma {:induction false} AlwaysServedIff(w: World, setup: Setup, events: seq<Event>)
    requires Served(w)
    ensures AlwaysServed(w, setup, events) <==> NeverStrands(w, setup, events)
    decreases |events|
  {
    hide Happen, Strands;
    if events != [] {
      ServedIff(w, setup, events[0]);
      if Served(Happen(w, setup, events[0])) {
        AlwaysServedIff(Happen(w, setup, events[0]), setup, events[1..]);
      }
    }
  }

  // ---- A run for each guard ----

  /** A signal that is to be saved reaches a contact. */
  predicate Reaches(w: World, kind: Kind, news: seq<ContactData>) {
    Persists(kind) && exists i :: 0 <= i < |news| && news[i].handle in w.byHandle
  }

  lemma {:induction false} ReceivesSomebody(b: Batch, kind: Kind, news: seq<ContactData>)
    ensures var b' := ReceiveAll(b, kind, news);
      && b'.world.byHandle == b.world.byHandle && b'.world.inactive == b.world.inactive
      && |b'.contacts| >= |b.contacts|
      && ((exists i :: 0 <= i < |news| && news[i].handle in b.world.byHandle) ==> |b'.contacts| > |b.contacts|)
    decreases |news|
  {
    if news != [] {
      var next := Receive(b, kind, news[0]);
      ReceivesSomebody(next, kind, news[1..]);
      if i :| 0 <= i < |news| && news[i].handle in b.world.byHandle {
        if i > 0 { assert news[1..][i - 1] == news[i]; }
      }
    }
  }

  lemma {:induction false} QueueAllFills(w: World, cs: seq<Contact>)
    ensures var w' := QueueAll(w, cs, true);
      && w.changed.Keys <= w'.changed.Keys && w'.inactive == w.inactive
      && (cs != [] ==> At(w, cs[0]).uid in w'.changed)
    decreases |cs|
  {
    if cs != [] {
      assert Queue(w, cs[0], true).heap == w.heap;
      QueueAllFills(Queue(w, cs[0], true), cs[1..]);
    }
  }

  /** The change is in both queues, and its idle is scheduled. */
  lemma ChangeIsQueued(w: World, kind: Kind, news: seq<ContactData>)
    requires Reaches(w, kind, news)
    ensures var w' := Signalled(w, kind, news);
      w'.dirty != map[] && w'.changed != map[] && w'.idle && w'.inactive == w.inactive
  {
    var b := ReceiveAll(Batch(w, []), kind, news);
    ReceivesSomebody(Batch(w, []), kind, news);
    WriteBehind.QueueAllGrows(b.world, b.contacts);
    QueueAllFills(b.world, b.contacts);
    hide ReceiveAll, QueueAll, At;
    assert b.contacts != [];
  }

  predicate Stranded(w: World) {
    w.dirty != map[] && !w.idle
  }

  lemma RunTwo(w: World, setup: Setup, a: Event, b: Event)
    ensures Run(w, setup, [a, b]) == Happen(Happen(w, setup, a), setup, b)
  {
    hide Happen;
    assert [a, b][1..] == [b] && [b][1..] == [];
    assert Run(Happen(w, setup, a), setup, [b]) == Run(Happen(Happen(w, setup, a), setup, b), setup, []);
  }

  lemma ChangedFirst(w: World, setup: Setup, kind: Kind, news: seq<ContactData>, e: Event)
    ensures Run(w, setup, [Changing(kind, news), e]) == Happen(Signalled(w, kind, news), setup, e)
  {
    RunTwo(w, setup, Changing(kind, news), e);
    ThenIs(w, setup, kind, news);
    hide Run, Happen, Signalled;
  }

  lemma ThenIs(w: World, setup: Setup, kind: Kind, news: seq<ContactData>)
    ensures Happen(w, setup, Changing(kind, news)) == Signalled(w, kind, news)
    ensures Happen(w, setup, Viewing) == StartView(w) && Happen(w, setup, Notifying) == Notify(w)
    ensures Happen(w, setup, Resting(false)) == SetInactivity(w, false)
  {
    hide Load, GetMembers, Phase2, Phase3, ContactsAdded, ContactsRemoved, Signalled, Create, RemoveContacts, IdleUpdate,
      Notify, StartView, SetInactivity;
  }

  lemma StrandedIs(w: World)
    ensures Stranded(w) <==> w.dirty != map[] && !w.idle
  {}

  /** A view opened before the idle came leaves the change in the queue. */
  lemma ViewStrandsChange(w: World, setup: Setup, kind: Kind, news: seq<ContactData>)
    requires Reaches(w, kind, news)
    ensures Stranded(Run(w, setup, [Changing(kind, news), Viewing]))
  {
    hide *;
    var w1 := Signalled(w, kind, news);
    ChangeIsQueued(w, kind, news);
    ChangedFirst(w, setup, kind, news, Viewing);
    ThenIs(w1, setup, kind, news);
    ViewService(w1);
    StrandedIs(StartView(w1));
  }

  /** So does an announcement, as the start of a creation makes one. */
  lemma NotifyStrandsChange(w: World, setup: Setup, kind: Kind, news: seq<ContactData>)
    requires Reaches(w, kind, news)
    ensures Stranded(Run(w, setup, [Changing(kind, news), Notifying]))
  {
    hide *;
    var w1 := Signalled(w, kind, news);
    ChangeIsQueued(w, kind, news);
    ChangedFirst(w, setup, kind, news, Notifying);
    ThenIs(w1, setup, kind, news);
    NotifyService(w1);
    StrandedIs(Notify(w1));
  }

  /** So does coming back from inactivity before the idle came. */
  lemma WakingStrandsChange(w: World, setup: Setup, kind: Kind, news: seq<ContactData>)
    requires Reaches(w, kind, news) && w.inactive
    ensures Stranded(Run(w, setup, [Changing(kind, news), Resting(false)]))
  {
    hide *;
    var w1 := Signalled(w, kind, news);
    ChangeIsQueued(w, kind, news);
    ChangedFirst(w, setup, kind, news, Resting(false));
    ThenIs(w1, setup, kind, news);
    RestService(w1, false);
    StrandedIs(SetInactivity(w1, false));
  }
}
