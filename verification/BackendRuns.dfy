/** The callbacks of the class as events: what the theorems about runs say of the objects. */
module BackendRuns {
  import opened Text
  import opened Flags
  import opened ContactValues
  import opened Contacts
  import opened VCards
  import opened Db
  import opened Worlds
  import opened Soundness
  import opened Backend
  import opened Coherence
  import opened CoherentRuns
  import opened CoherentRequests
  import opened PhaseViews
  import opened Views
  import opened RosterViews
  import opened Runs
  import opened ViewRuns
  import opened Environment

  /** A callback that fires, with the objects it is given and what the server will answer. */
  datatype Call =
    | CacheRead(contacts: seq<Contact>)
    | RosterRead(contactsIn: seq<Contact>)
    | RosterStored(toAdd: seq<Contact>, toUpdate: seq<Contact>)
    | EditsDue(online: bool, unblocked: string -> bool, answers: string -> Worlds.Answer, accepted: string -> bool)
    | Arrived(contactsIn: seq<Contact>)
    | Left(handles: seq<nat>)
    | Changed(kind: Kind, contactsIn: seq<Contact>)
    | CreateAsked(card: Card, online: bool, add: Worlds.Answer, accepts: bool)
    | RemoveAsked(requests: seq<string>, online: bool, accepted: string -> bool)
    | IdleDue
    | NotifyDue
    | ViewOpened
    | InactivityChanged(inactive: bool)
    | ConnectionLost

  /** The objects that come with the call. */
  function Objects(call: Call): seq<Contact> {
    match call
    case CacheRead(contacts) => contacts
    case RosterRead(contactsIn) => contactsIn
    case Arrived(contactsIn) => contactsIn
    case Changed(_, contactsIn) => contactsIn
    case _ => []
  }

  /** They are nobody's yet, each is read from the cache once, and phase 2 gets its closure. */
  ghost predicate Fires(w: World, call: Call) {
    && Foreign(w.heap, Objects(call))
    && (call.CacheRead? ==> NoDuplicates(call.contacts))
    && (call.RosterStored? ==> Ours(w.heap, call.toAdd) && Ours(w.heap, call.toUpdate))
  }

  function SetupOf(b: BookBackend): Setup {
    Setup(b.path, b.vcardField)
  }

  /** Every contact of the three lists is dealt with once, list after list, with the server's answer for
      its uid. */
  ghost predicate Carried(w: World, unblocked: string -> bool, answers: string -> Worlds.Answer, accepted: string -> bool,
                          steps: seq<SyncStep>) {
    && InTurn(steps)
    && (forall s :: s in steps ==> StepFrom(w, unblocked, answers, accepted, s))
    && (forall u :: u in w.toUpdate ==> exists s :: s in steps && s.StepUpdate? && s.c == w.toUpdate[u])
    && (forall u :: u in w.toAdd ==> exists s :: s in steps && s.StepAdd? && s.c == w.toAdd[u])
    && (forall u :: u in w.toDelete ==> exists s :: s in steps && s.StepDelete? && s.c == w.toDelete[u])
  }

  predicate StepFrom(w: World, unblocked: string -> bool, answers: string -> Worlds.Answer, accepted: string -> bool,
                     s: SyncStep) {
    var uid := At(w, s.c).uid;
    match s
    case StepUpdate(c, u) => uid in w.toUpdate && w.toUpdate[uid] == c && u == unblocked(uid)
    case StepAdd(c, a, _, _) => uid in w.toAdd && w.toAdd[uid] == c && a == answers(uid)
    case StepDelete(c, removed) => uid in w.toDelete && w.toDelete[uid] == c && removed == accepted(uid)
  }

  /** A loop over a queue, one step for each of its contacts. */
  ghost predicate Loop(queue: map<string, Contact>, keys: seq<string>, steps: seq<SyncStep>) {
    && Lists(keys, queue) && |steps| == |keys|
    && forall i :: 0 <= i < |keys| ==> keys[i] in queue && steps[i].c == queue[keys[i]]
  }

  lemma LoopOnce(w: World, queue: map<string, Contact>, keys: seq<string>, steps: seq<SyncStep>)
    requires Keyed(w, queue) && Loop(queue, keys, steps)
    ensures forall i, j :: 0 <= i < j < |steps| ==> steps[i].c != steps[j].c
    ensures forall u :: u in queue ==> exists s :: s in steps && s.c == queue[u]
    ensures forall i :: 0 <= i < |steps| ==> At(w, steps[i].c).uid == keys[i]
  {
    forall u | u in queue ensures exists s :: s in steps && s.c == queue[u] {
      var i :| 0 <= i < |keys| && keys[i] == u;
      assert steps[i] in steps;
    }
    hide At;
  }

  lemma ThreeLoops(updates: seq<SyncStep>, adds: seq<SyncStep>, deletes: seq<SyncStep>)
    requires forall i, j :: 0 <= i < j < |updates| ==> updates[i].c != updates[j].c
    requires forall i, j :: 0 <= i < j < |adds| ==> adds[i].c != adds[j].c
    requires forall i, j :: 0 <= i < j < |deletes| ==> deletes[i].c != deletes[j].c
    requires forall i :: 0 <= i < |updates| ==> updates[i].StepUpdate?
    requires forall i :: 0 <= i < |adds| ==> adds[i].StepAdd?
    requires forall i :: 0 <= i < |deletes| ==> deletes[i].StepDelete?
    ensures InTurn(updates + adds + deletes)
  {
    var steps := updates + adds + deletes;
    assert forall i :: 0 <= i < |steps| ==>
      steps[i] == if i < |updates| then updates[i] else if i < |updates| + |adds| then adds[i - |updates|]
                  else deletes[i - |updates| - |adds|];
  }

  /** The event is this call, with the values `news` of its objects. */
  ghost predicate Tells(w: World, call: Call, news: seq<ContactData>, e: Event) {
    match call
    case CacheRead(contacts) => e.Loading? && NewsOf(e.loaded) == news && |e.loaded| == |contacts|
      && forall i :: 0 <= i < |contacts| ==> e.loaded[i].id == contacts[i]
    case RosterRead(_) => e.MembersGot? && NewsOf(e.members) == news
    case RosterStored(toAdd, toUpdate) => e.MembersStored? && e.toAdd == toAdd && e.toUpdate == toUpdate
    case EditsDue(online, unblocked, answers, accepted) =>
      e.EditsApplied? && if online then Carried(w, unblocked, answers, accepted, e.steps) else e.steps == []
    case Arrived(_) => e.Arriving? && NewsOf(e.arrivals) == news
    case Left(handles) => e.Leaving? && e.handles == handles
    case Changed(kind, _) => e.Changing? && e.kind == kind && e.news == news
    case CreateAsked(card, online, add, accepts) =>
      e.Creating? && e.card == card && e.online == online && e.answers.add == add && e.answers.unblocked == accepts
    case RemoveAsked(requests, online, accepted) =>
      e.Removing? && e.online == online && |e.requests| == |requests|
      && forall i :: 0 <= i < |requests| ==>
           e.requests[i].text == requests[i] && e.requests[i].answers.accepted == accepted(requests[i])
    case IdleDue => e.Idling?
    case NotifyDue => e.Notifying?
    case ViewOpened => e.Viewing?
    case InactivityChanged(inactive) => e == Resting(inactive)
    case ConnectionLost => e.Disconnecting?
  }
  lemma CarriedOut(w: World, unblocked: string -> bool, answers: string -> Worlds.Answer, accepted: string -> bool,
                   updates: seq<SyncStep>, adds: seq<SyncStep>, deletes: seq<SyncStep>,
                   keys: (seq<string>, seq<string>, seq<string>))
    requires Sound(w) && Lists(keys.0, w.toUpdate) && Lists(keys.1, w.toAdd) && Lists(keys.2, w.toDelete)
    requires |updates| == |keys.0| && |adds| == |keys.1| && |deletes| == |keys.2|
    requires forall i :: 0 <= i < |updates| ==>
      keys.0[i] in w.toUpdate && updates[i] == StepUpdate(w.toUpdate[keys.0[i]], unblocked(keys.0[i]))
    requires forall i :: 0 <= i < |adds| ==>
      keys.1[i] in w.toAdd && adds[i].StepAdd? && adds[i].c == w.toAdd[keys.1[i]] && adds[i].answer == answers(keys.1[i])
    requires forall i :: 0 <= i < |deletes| ==>
      keys.2[i] in w.toDelete && deletes[i] == StepDelete(w.toDelete[keys.2[i]], accepted(keys.2[i]))
    ensures Carried(w, unblocked, answers, accepted, updates + adds + deletes)
  {
    LoopOnce(w, w.toUpdate, keys.0, updates);
    LoopOnce(w, w.toAdd, keys.1, adds);
    LoopOnce(w, w.toDelete, keys.2, deletes);
    ThreeLoops(updates, adds, deletes);
    assert forall s :: s in updates ==> s.StepUpdate? && StepFrom(w, unblocked, answers, accepted, s);
    assert forall s :: s in adds ==> s.StepAdd? && StepFrom(w, unblocked, answers, accepted, s);
    assert forall s :: s in deletes ==> s.StepDelete? && StepFrom(w, unblocked, answers, accepted, s);
    hide *;
    AllCarried(w, unblocked, answers, accepted, updates, adds, deletes);
  }

  lemma AllCarried(w: World, unblocked: string -> bool, answers: string -> Worlds.Answer, accepted: string -> bool,
                   updates: seq<SyncStep>, adds: seq<SyncStep>, deletes: seq<SyncStep>)
    requires InTurn(updates + adds + deletes)
    requires forall s :: s in updates ==> s.StepUpdate? && StepFrom(w, unblocked, answers, accepted, s)
    requires forall s :: s in adds ==> s.StepAdd? && StepFrom(w, unblocked, answers, accepted, s)
    requires forall s :: s in deletes ==> s.StepDelete? && StepFrom(w, unblocked, answers, accepted, s)
    requires forall u :: u in w.toUpdate ==> exists s :: s in updates && s.c == w.toUpdate[u]
    requires forall u :: u in w.toAdd ==> exists s :: s in adds && s.c == w.toAdd[u]
    requires forall u :: u in w.toDelete ==> exists s :: s in deletes && s.c == w.toDelete[u]
    ensures Carried(w, unblocked, answers, accepted, updates + adds + deletes)
  {
    hide InTurn, StepFrom;
    var steps := updates + adds + deletes;
    assert forall s :: s in steps <==> s in updates || s in adds || s in deletes;
  }

  lemma CarriedIdentities(w: World, unblocked: string -> bool, answers: string -> Worlds.Answer, accepted: string -> bool,
                          steps: seq<SyncStep>)
    requires Sound(w) && Carried(w, unblocked, answers, accepted, steps)
    ensures StepsKnown(w, steps) && InTurn(steps) && Queued(w, steps)
  {
    hide InTurn;
    assert forall s :: s in steps ==> StepFrom(w, unblocked, answers, accepted, s);
  }

  // ---- The callbacks one by one ----

  method ReadCache(b: BookBackend, contacts: seq<Contact>) returns (ghost e: Event)
    requires b.Valid() && Foreign(b.model.heap, contacts) && NoDuplicates(contacts)
    modifies b, contacts
    ensures b.Valid() && Tells(old(b.model), CacheRead(contacts), old(DataOf(contacts)), e)
    ensures Identities(old(b.model), e) && b.model == Happen(old(b.model), SetupOf(b), e)
  {
    ghost var loaded := Backend.Fetched(contacts);
    FetchedIs(contacts);
    DataOfIs(contacts);
    DistinctAre(contacts);
    ForeignIs(b.model.heap, contacts);
    e := Loading(loaded);
    hide b.Valid, Load, Backend.Fetched, DataOf, NoDuplicates;
    b.SyncPhase0(contacts);
  }

  method ReadRoster(b: BookBackend, contactsIn: seq<Contact>) returns (ghost e: Event)
    requires b.Valid() && Foreign(b.model.heap, contactsIn)
    modifies b, b.model.heap.Keys
    ensures b.Valid() && Tells(old(b.model), RosterRead(contactsIn), old(DataOf(contactsIn)), e)
    ensures Identities(old(b.model), e) && b.model == Happen(old(b.model), SetupOf(b), e)
  {
    DataOfIs(contactsIn);
    hide b.Valid, GetMembers, DataOf, Identified;
    var toAdd, toUpdate;
    ghost var members;
    toAdd, toUpdate, members := b.GetMembersCb(contactsIn);
    e := MembersGot(members);
  }

  method StoreRoster(b: BookBackend, toAdd: seq<Contact>, toUpdate: seq<Contact>) returns (ghost e: Event)
    requires b.Valid() && Ours(b.model.heap, toAdd) && Ours(b.model.heap, toUpdate)
    modifies b, b.tpdb
    ensures b.Valid() && Tells(old(b.model), RosterStored(toAdd, toUpdate), [], e)
    ensures Identities(old(b.model), e) && b.model == Happen(old(b.model), SetupOf(b), e)
  {
    hide b.Valid, Phase2;
    var added, updated, flushed, removed := b.SyncPhase2(toAdd, toUpdate);
    e := MembersStored(toAdd, toUpdate, added, updated, flushed, removed);
  }

  method ApplyEdits(b: BookBackend, online: bool, unblocked: string -> bool, answers: string -> Worlds.Answer,
                    accepted: string -> bool)
    returns (ghost e: Event)
    requires b.Valid()
    modifies b, b.model.heap.Keys, b.tpdb
    ensures b.Valid() && Tells(old(b.model), EditsDue(online, unblocked, answers, accepted), [], e)
    ensures Identities(old(b.model), e) && b.model == Happen(old(b.model), SetupOf(b), e)
  {
    hide *;
    b.ValidParts();
    ghost var w := b.model;
    var stored;
    ghost var updates, adds, deletes, keys;
    stored, updates, adds, deletes, keys := b.SyncPhase3(online, unblocked, answers, accepted);
    if online {
      CarriedOut(w, unblocked, answers, accepted, updates, adds, deletes, keys);
      CarriedIdentities(w, unblocked, answers, accepted, updates + adds + deletes);
      e := EditsApplied(updates + adds + deletes, stored);
      EditsAre(w, SetupOf(b), online, unblocked, answers, accepted, updates + adds + deletes, stored);
    } else {
      NoEdits(w);
      e := EditsApplied([], true);
      EditsAre(w, SetupOf(b), online, unblocked, answers, accepted, [], true);
    }
  }

  lemma EditsAre(w: World, setup: Setup, online: bool, unblocked: string -> bool, answers: string -> Worlds.Answer,
                 accepted: string -> bool, steps: seq<SyncStep>, stored: bool)
    requires StepsKnown(w, steps) && InTurn(steps) && Queued(w, steps)
    requires if online then Carried(w, unblocked, answers, accepted, steps) else steps == []
    ensures var e := EditsApplied(steps, stored);
      && Tells(w, EditsDue(online, unblocked, answers, accepted), [], e) && Identities(w, e)
      && Happen(w, setup, e) == Phase3(w, steps, stored)
  {
    hide StepsKnown, InTurn, Queued, Carried, Phase3;
  }

  /** Offline, phase 3 is the phase without steps. */
  lemma NoEdits(w: World)
    ensures Phase3(w, [], true) == w && StepsKnown(w, []) && InTurn([]) && Queued(w, [])
  {
    SyncAllNone(Batch(w, []));
    StoreNothing(w, true);
    hide SyncAll, StoreChanged;
  }

  method TakeArrivals(b: BookBackend, contactsIn: seq<Contact>) returns (ghost e: Event)
    requires b.Valid() && Foreign(b.model.heap, contactsIn)
    modifies b, b.model.heap.Keys, b.tpdb
    ensures b.Valid() && Tells(old(b.model), Arrived(contactsIn), old(DataOf(contactsIn)), e)
    ensures Identities(old(b.model), e) && b.model == Happen(old(b.model), SetupOf(b), e)
  {
    DataOfIs(contactsIn);
    hide b.Valid, Worlds.ContactsAdded, DataOf, Identified;
    var flushed, stored;
    ghost var arrivals;
    flushed, stored, arrivals := b.ContactsAdded(contactsIn);
    e := Arriving(arrivals, flushed, stored);
  }

  method TakeLeavers(b: BookBackend, handles: seq<nat>) returns (ghost e: Event)
    requires b.Valid()
    modifies b, b.model.heap.Keys, b.tpdb
    ensures b.Valid() && Tells(old(b.model), Left(handles), [], e)
    ensures Identities(old(b.model), e) && b.model == Happen(old(b.model), SetupOf(b), e)
  {
    hide b.Valid, Worlds.ContactsRemoved;
    var flushed, removed := b.ContactsRemoved(handles);
    e := Leaving(handles, flushed, removed);
  }

  method TakeChanges(b: BookBackend, kind: Kind, contactsIn: seq<Contact>) returns (ghost e: Event)
    requires b.Valid() && Foreign(b.model.heap, contactsIn)
    modifies b, b.model.heap.Keys
    ensures b.Valid() && Tells(old(b.model), Changed(kind, contactsIn), old(DataOf(contactsIn)), e)
    ensures Identities(old(b.model), e) && b.model == Happen(old(b.model), SetupOf(b), e)
  {
    hide b.Valid, Signalled, DataOf;
    e := Changing(kind, DataOf(contactsIn));
    b.ContactsChanged(kind, contactsIn);
  }

  method CreateOne(b: BookBackend, card: Card, online: bool, add: Worlds.Answer, accepts: bool) returns (ghost e: Event)
    requires b.Valid()
    modifies b, b.model.heap.Keys, b.tpdb
    ensures b.Valid() && Tells(old(b.model), CreateAsked(card, online, add, accepts), [], e)
    ensures Identities(old(b.model), e) && b.model == Happen(old(b.model), SetupOf(b), e)
  {
    hide b.Valid, Create;
    var result, flushed, stored;
    ghost var id;
    result, flushed, stored, id := b.RunCreateContact(card, online, add, accepts);
    e := Creating(card, id, online, CreateAnswers(add, accepts, flushed, stored));
  }

  method RemoveThem(b: BookBackend, requests: seq<string>, online: bool, accepted: string -> bool) returns (ghost e: Event)
    requires b.Valid()
    modifies b, b.model.heap.Keys, b.tpdb
    ensures b.Valid() && Tells(old(b.model), RemoveAsked(requests, online, accepted), [], e)
    ensures Identities(old(b.model), e) && b.model == Happen(old(b.model), SetupOf(b), e)
  {
    hide b.Valid, RemoveContacts;
    var flushed, stored;
    ghost var carried;
    flushed, stored, carried := b.RemoveContactsIdleCb(requests, online, accepted);
    e := Event.Removing(carried, online, flushed, stored);
  }

  method BeIdle(b: BookBackend) returns (ghost e: Event)
    requires b.Valid()
    modifies b, b.tpdb
    ensures b.Valid() && Tells(old(b.model), IdleDue, [], e)
    ensures Identities(old(b.model), e) && b.model == Happen(old(b.model), SetupOf(b), e)
  {
    hide b.Valid, IdleUpdate;
    var flushed := b.UpdateContactsIdleCb();
    e := Idling(flushed);
  }

  method NotifyAll(b: BookBackend) returns (ghost e: Event)
    requires b.Valid()
    modifies b
    ensures b.Valid() && Tells(old(b.model), NotifyDue, [], e)
    ensures Identities(old(b.model), e) && b.model == Happen(old(b.model), SetupOf(b), e)
  {
    hide b.Valid, Notify;
    b.NotifyRemotelyUpdatedContacts();
    e := Notifying;
  }

  method OpenView(b: BookBackend) returns (ghost e: Event)
    requires b.Valid()
    modifies b
    ensures b.Valid() && Tells(old(b.model), ViewOpened, [], e)
    ensures Identities(old(b.model), e) && b.model == Happen(old(b.model), SetupOf(b), e)
  {
    hide b.Valid, StartView;
    b.StartBookView();
    e := Viewing;
  }

  method ChangeInactivity(b: BookBackend, inactive: bool) returns (ghost e: Event)
    requires b.Valid()
    modifies b
    ensures b.Valid() && Tells(old(b.model), InactivityChanged(inactive), [], e)
    ensures Identities(old(b.model), e) && b.model == Happen(old(b.model), SetupOf(b), e)
  {
    hide b.Valid, SetInactivity;
    b.SetInactivityStatus(inactive);
    e := Resting(inactive);
  }

  method LoseConnection(b: BookBackend) returns (ghost e: Event)
    requires b.Valid()
    modifies b
    ensures b.Valid() && Tells(old(b.model), ConnectionLost, [], e)
    ensures Identities(old(b.model), e) && b.model == Happen(old(b.model), SetupOf(b), e)
  {
    hide b.Valid, Worlds.GoOffline;
    b.GoOffline();
    e := Disconnecting;
  }

  /** Every callback of the class is an event of `Runs`: it does to the objects what the event does to
      their values, and the event says what the call said. So whatever is proved of events and runs holds of
      the class: the indexes stay coherent as long as cache and server keep to `Expected`, and the views up
      to date as long as the guard of `Announces` is true. */
  method Perform(b: BookBackend, call: Call, ghost norm: Norm) returns (ghost e: Event)
    requires b.Valid() && Fires(b.model, call)
    modifies b, b.model.heap.Keys, b.tpdb, Objects(call)
    ensures b.Valid() && Tells(old(b.model), call, old(DataOf(Objects(call))), e)
    ensures b.model == Happen(old(b.model), SetupOf(b), e)
    ensures Inv(old(b.model), norm) && Expected(old(b.model), norm, e) ==> Inv(b.model, norm)
    ensures (UpToDate(old(b.model), norm) && Expected(old(b.model), norm, e) && Announces(old(b.model), SetupOf(b), e)
             && !e.Loading? && !e.MembersGot?) ==> UpToDate(b.model, norm)
  {
    hide *;
    ghost var w := b.model;
    FiresParts(w, call);
    match call {
      case CacheRead(contacts) => e := ReadCache(b, contacts);
      case RosterRead(contactsIn) => e := ReadRoster(b, contactsIn);
      case RosterStored(toAdd, toUpdate) => e := StoreRoster(b, toAdd, toUpdate);
      case EditsDue(online, unblocked, answers, accepted) => e := ApplyEdits(b, online, unblocked, answers, accepted);
      case Arrived(contactsIn) => e := TakeArrivals(b, contactsIn);
      case Left(handles) => e := TakeLeavers(b, handles);
      case Changed(kind, contactsIn) => e := TakeChanges(b, kind, contactsIn);
      case CreateAsked(card, online, add, accepts) => e := CreateOne(b, card, online, add, accepts);
      case RemoveAsked(requests, online, accepted) => e := RemoveThem(b, requests, online, accepted);
      case IdleDue => e := BeIdle(b);
      case NotifyDue => e := NotifyAll(b);
      case ViewOpened => e := OpenView(b);
      case InactivityChanged(inactive) => e := ChangeInactivity(b, inactive);
      case ConnectionLost => e := LoseConnection(b);
    }
    HappenKeeps(w, norm, SetupOf(b), e);
  }

  lemma FiresParts(w: World, call: Call)
    requires Fires(w, call)
    ensures match call
      case CacheRead(contacts) => Foreign(w.heap, contacts) && NoDuplicates(contacts) && Objects(call) == contacts
      case RosterRead(contactsIn) => Foreign(w.heap, contactsIn) && Objects(call) == contactsIn
      case RosterStored(toAdd, toUpdate) => Ours(w.heap, toAdd) && Ours(w.heap, toUpdate) && Objects(call) == []
      case Arrived(contactsIn) => Foreign(w.heap, contactsIn) && Objects(call) == contactsIn
      case Changed(_, contactsIn) => Foreign(w.heap, contactsIn) && Objects(call) == contactsIn
      case _ => Objects(call) == []
    ensures Objects(call) == [] ==> DataOf(Objects(call)) == []
  {
    hide NoDuplicates;
  }

  lemma HappenKeeps(w: World, norm: Norm, setup: Setup, e: Event)
    requires Identities(w, e)
    ensures Inv(w, norm) && Expected(w, norm, e) ==> Inv(Happen(w, setup, e), norm)
    ensures (UpToDate(w, norm) && Expected(w, norm, e) && Announces(w, setup, e)
             && !e.Loading? && !e.MembersGot?) ==> UpToDate(Happen(w, setup, e), norm)
  {
    hide Identities, Expected, Announces, Happen, Allowed, Regular, Coherent, HandlesLive, AddsSettled;
    if Inv(w, norm) && Expected(w, norm, e) {
      ExpectedIsAllowed(w, norm, e);
      HappenKeepsCoherence(w, norm, setup, e);
      if UpToDate(w, norm) && Announces(w, setup, e) && !e.Loading? && !e.MembersGot? { EventCurrent(w, norm, setup, e); }
    }
  }

  /** The signals that follow a roster. */
  method MembersSignalled(b: BookBackend, contactsIn: seq<Contact>)
    requires b.Valid() && Foreign(b.model.heap, contactsIn)
    modifies b, b.model.heap.Keys
    ensures b.Valid() && b.model.heap.Keys == old(b.model.heap.Keys)
    ensures var news := old(DataOf(contactsIn));
      b.model == Signalled(Signalled(Signalled(old(b.model), AliasKind, news), PresenceKind, news), FlagsKind, news)
  {
    hide *;
    ghost var heap, news := b.model.heap, DataOf(contactsIn);
    DataOfIs(contactsIn);
    ForeignIs(heap, contactsIn);
    b.ContactsChanged(AliasKind, contactsIn);
    DataOfIs(contactsIn);
    ForeignStays(heap, b.model.heap, contactsIn);
    b.ContactsChanged(PresenceKind, contactsIn);
    DataOfIs(contactsIn);
    ForeignStays(heap, b.model.heap, contactsIn);
    b.ContactsChanged(FlagsKind, contactsIn);
  }

  /** A roster comes in, and its signals follow at once: the views are up to date after that. */
  method RosterAndSignals(b: BookBackend, contactsIn: seq<Contact>, ghost norm: Norm)
    returns (toAdd: seq<Contact>, toUpdate: seq<Contact>, ghost members: seq<Arrival>)
    requires b.Valid() && Foreign(b.model.heap, contactsIn)
    modifies b, b.model.heap.Keys
    ensures b.Valid() && Ours(b.model.heap, toAdd) && Ours(b.model.heap, toUpdate)
    ensures NewsOf(members) == old(DataOf(contactsIn)) && b.model == RosterArrives(old(b.model), b.path, members)
    ensures UpToDate(old(b.model), norm) && Welcome(old(b.model), norm, members) && OneEach(old(b.model), members)
      ==> UpToDate(b.model, norm)
  {
    hide *;
    ghost var w, news := b.model, DataOf(contactsIn);
    DataOfIs(contactsIn);
    ForeignIs(b.model.heap, contactsIn);
    toAdd, toUpdate, members := b.GetMembersCb(contactsIn);
    NewsIs(members, news);
    ghost var heap := b.model.heap;
    assert forall c :: c in contactsIn ==> c !in heap;
    ForeignStays(heap, heap, contactsIn);
    MembersSignalled(b, contactsIn);
    ArrivesIs(w, b.path, members);
    OursStay(heap, b.model.heap, toAdd);
    OursStay(heap, b.model.heap, toUpdate);
    RosterKeeps(w, norm, b.path, members);
  }

  lemma NewsIs(members: seq<Arrival>, news: seq<ContactData>)
    requires |members| == |news| && forall k :: 0 <= k < |members| ==> members[k].data == news[k]
    ensures NewsOf(members) == news
  {}

  lemma RosterKeeps(w: World, norm: Norm, path: string, members: seq<Arrival>)
    requires Identified(w, members)
    ensures UpToDate(w, norm) && Welcome(w, norm, members) && OneEach(w, members)
      ==> UpToDate(RosterArrives(w, path, members), norm)
  {
    if UpToDate(w, norm) && Welcome(w, norm, members) && OneEach(w, members) {
      WelcomeIsConsistent(w, norm, members);
      hide UpToDate, Welcome, OneEach, RosterArrives, Consistent, Identified;
      RosterCurrent(w, norm, path, members);
    }
  }
}
