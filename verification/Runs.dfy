/** The callbacks of the backend as events, and their runs. */
module Runs {
  import opened Text
  import opened Flags
  import opened ContactValues
  import opened Contacts
  import opened VCards
  import opened Worlds
  import opened Coherence
  import opened CoherentRuns
  import opened CoherentRequests

  /** The account's path suffix and the protocol's vCard field. */
  datatype Setup = Setup(path: string, vcardField: string)

  /** One callback, with what the server and the storage answer during it. */
  datatype Event =
    | Loading(loaded: seq<Arrival>)
    | MembersGot(members: seq<Arrival>)
    | MembersStored(toAdd: seq<Contact>, toUpdate: seq<Contact>, added: bool, updated: bool, flushed: bool, removed: bool)
    | EditsApplied(steps: seq<SyncStep>, stored: bool)
    | Arriving(arrivals: seq<Arrival>, flushed: bool, stored: bool)
    | Leaving(handles: seq<nat>, flushed: bool, removed: bool)
    | Changing(kind: Kind, news: seq<ContactData>)
    | Creating(card: Card, id: Contact, online: bool, answers: CreateAnswers)
    | Removing(requests: seq<Request>, online: bool, flushed: bool, stored: bool)
    | Idling(flushed: bool)
    | Notifying
    | Viewing
    | Resting(inactive: bool)
    | Disconnecting

  function Happen(w: World, setup: Setup, e: Event): World {
    match e
    case Loading(arrivals) => Load(w, arrivals)
    case MembersGot(arrivals) => GetMembers(w, setup.path, arrivals).world
    case MembersStored(toAdd, toUpdate, added, updated, flushed, removed) =>
      Phase2(Intake(w, toAdd, toUpdate), added, updated, flushed, removed)
    case EditsApplied(steps, stored) => Phase3(w, steps, stored)
    case Arriving(arrivals, flushed, stored) => ContactsAdded(w, setup.path, arrivals, flushed, stored)
    case Leaving(handles, flushed, removed) => ContactsRemoved(w, handles, flushed, removed)
    case Changing(kind, news) => Signalled(w, kind, news)
    case Creating(card, id, online, answers) => Create(w, setup.path, setup.vcardField, card, id, online, answers).0
    case Removing(requests, online, flushed, stored) => RemoveContacts(w, requests, online, flushed, stored)
    case Idling(flushed) => IdleUpdate(w, flushed)
    case Notifying => Notify(w)
    case Viewing => StartView(w)
    case Resting(inactive) => SetInactivity(w, inactive)
    case Disconnecting => GoOffline(w)
  }

  /** What the environment keeps to: loading comes first and finds each name once; new objects are
      new; handles are positive, one per name, and stable while they are in use; the server's
      normalisation is what it answers with; and it does not fail a contact it has just renamed. */
  ghost predicate Allowed(w: World, norm: Norm, e: Event) {
    match e
    case Loading(arrivals) =>
      && Bare(w) && Loadable(arrivals) && DistinctNames(arrivals)
      && forall i :: 0 <= i < |arrivals| ==> arrivals[i].id !in w.heap
    case MembersGot(arrivals) => Consistent(w, norm, arrivals)
    case EditsApplied(steps, _) => StepsAllowed(Batch(w, []), norm, steps)
    case Arriving(arrivals, _, _) => Consistent(w, norm, arrivals)
    case Leaving(handles, _, _) => 0 !in handles
    case Changing(_, news) => Handled(news)
    case Creating(_, id, _, answers) => id !in w.heap && Possible(answers.add)
    case _ => true
  }

  lemma HappenKeepsCoherence(w: World, norm: Norm, setup: Setup, e: Event)
    requires Inv(w, norm) && Allowed(w, norm, e)
    ensures Inv(Happen(w, setup, e), norm)
  {
    hide Inv, Load, GetMembers, Phase2, Phase3, ContactsAdded, ContactsRemoved, Signalled, Create, RemoveContacts;
    hide IdleUpdate, Notify, StartView, SetInactivity, GoOffline, Consistent, Loadable, Bare, DistinctNames, StepsAllowed;
    match e {
      case Loading(arrivals) => LoadKeeps(w, norm, arrivals);
      case MembersGot(arrivals) => GetMembersKeeps(w, norm, setup.path, arrivals);
      case MembersStored(toAdd, toUpdate, added, updated, flushed, removed) =>
        Phase2Keeps(Intake(w, toAdd, toUpdate), norm, added, updated, flushed, removed);
      case EditsApplied(steps, stored) => Phase3Keeps(w, norm, steps, stored);
      case Arriving(arrivals, flushed, stored) => ContactsAddedKeeps(w, norm, setup.path, arrivals, flushed, stored);
      case Leaving(handles, flushed, removed) => ContactsRemovedKeeps(w, norm, handles, flushed, removed);
      case Changing(kind, news) => SignalledKeeps(w, norm, kind, news);
      case Creating(card, id, online, answers) =>
        CreateKeeps(w, norm, setup.path, setup.vcardField, card, id, online, answers);
      case Removing(requests, online, flushed, stored) => RemoveContactsKeeps(w, norm, requests, online, flushed, stored);
      case Idling(flushed) => OthersKeepCoherence(w, norm, false, flushed);
      case Notifying => OthersKeepCoherence(w, norm, false, false);
      case Viewing => OthersKeepCoherence(w, norm, false, false);
      case Resting(inactive) => OthersKeepCoherence(w, norm, inactive, false);
      case Disconnecting => OthersKeepCoherence(w, norm, false, false);
    }
  }

  lemma IdleTouches(w: World, flushed: bool)
    ensures SameIndexes(w, IdleUpdate(w, flushed))
  {
    hide Commit, Values, Notify;
    NotifyTouches(w);
  }

  lemma ViewTouches(w: World)
    ensures SameIndexes(w, StartView(w))
  {
    hide VisibleOf, Notify;
    NotifyTouches(w);
  }

  lemma InactivityTouches(w: World, inactive: bool)
    ensures SameIndexes(w, SetInactivity(w, inactive))
  {
    hide Notify;
    NotifyTouches(w.(inactive := inactive));
  }

  lemma OthersKeepCoherence(w: World, norm: Norm, inactive: bool, flushed: bool)
    requires Inv(w, norm)
    ensures Inv(IdleUpdate(w, flushed), norm) && Inv(Notify(w), norm) && Inv(StartView(w), norm)
    ensures Inv(SetInactivity(w, inactive), norm) && Inv(GoOffline(w), norm)
  {
    IdleTouches(w, flushed);
    NotifyTouches(w);
    ViewTouches(w);
    InactivityTouches(w, inactive);
    NoHandlesLeft(w, norm);
    hide SameIndexes, Inv, IdleUpdate, Notify, StartView, SetInactivity, GoOffline;
    OnlyIndexesMatter(w, IdleUpdate(w, flushed), norm);
    OnlyIndexesMatter(w, Notify(w), norm);
    OnlyIndexesMatter(w, StartView(w), norm);
    OnlyIndexesMatter(w, SetInactivity(w, inactive), norm);
  }

  lemma NoHandlesLeft(w: World, norm: Norm)
    requires Inv(w, norm)
    ensures Inv(GoOffline(w), norm)
  {
    var w' := GoOffline(w);
    EntriesSurvive(w, w');
    forall u | u in w'.toAdd ensures AddEntry(w', norm, u, w'.toAdd[u]) { assert AddEntry(w, norm, u, w.toAdd[u]); }
  }

  ghost predicate AllAllowed(w: World, norm: Norm, setup: Setup, events: seq<Event>)
    decreases |events|
  {
    events == [] || (Allowed(w, norm, events[0]) && AllAllowed(Happen(w, setup, events[0]), norm, setup, events[1..]))
  }

  function Run(w: World, setup: Setup, events: seq<Event>): World
    decreases |events|
  {
    if events == [] then w else Run(Happen(w, setup, events[0]), setup, events[1..])
  }

  /** Over every run of callbacks, in any order, the two indexes are keyed by uid and by name and
      hold the same contacts, and a handle leads to a contact of that handle. */
  lemma {:induction false} RunKeepsCoherence(w: World, norm: Norm, setup: Setup, events: seq<Event>)
    requires Inv(w, norm) && AllAllowed(w, norm, setup, events)
    ensures Inv(Run(w, setup, events), norm)
    ensures Coherent(Run(w, setup, events))
    decreases |events|
  {
    hide Coherent, HandlesLive, AddsSettled, Allowed, Happen;
    if events != [] {
      HappenKeepsCoherence(w, norm, setup, events[0]);
      RunKeepsCoherence(Happen(w, setup, events[0]), norm, setup, events[1..]);
    }
  }
}
