/** No notification is lost: the book views over every run of callbacks after the members are ready, and
    exactly which callbacks leave a view out of date. */
module ViewRuns {
  import opened Text
  import opened Flags
  import opened ContactValues
  import opened Contacts
  import opened VCards
  import opened MasterProtocol
  import opened Worlds
  import opened Coherence
  import opened CoherentRuns
  import opened CoherentRequests
  import opened Runs
  import opened Views
  import opened RosterViews
  import opened PhaseViews
  import opened RequestViews

  /** What the environment keeps to. Loading is over; and the contacts of a roster are dealt with
      together with the signals that follow them. */
  ghost predicate Regular(w: World, norm: Norm, e: Event) {
    match e
    case Loading(_) => false
    case MembersGot(_) => false
    case EditsApplied(steps, _) => StepsAllowed(Batch(w, []), norm, steps) && StepsKnown(w, steps) && InTurn(steps)
    case Arriving(arrivals, _, _) => Consistent(w, norm, arrivals)
    case Leaving(handles, _, _) => 0 !in handles
    case Changing(_, news) => Handled(news)
    case Creating(_, id, _, answers) => id !in w.heap && Possible(answers.add)
    case _ => true
  }

  /** The guard of each callback: phase 3 leaves no contact with a vCard that views do not show; a
      creation enters no new contact while there is a view; no removal request has the server delete a
      contact whose master UIDs went with it, or that some view does not show. All others announce
      whatever they change. */
  ghost predicate Announces(w: World, setup: Setup, e: Event) {
    match e
    case EditsApplied(steps, _) => forall c :: c in w.heap ==> !LeftStale(Batch(w, []), steps, c)
    case Creating(card, _, online, answers) => !(EntersNew(w, setup, card, online, answers) && w.views != [])
    case Removing(requests, online, flushed, _) => QuietRemoval(w, requests, online, flushed)
    case _ => true
  }

  lemma SignalEvent(w: World, norm: Norm, setup: Setup, e: Event)
    requires UpToDate(w, norm) && Regular(w, norm, e)
    requires e.Arriving? || e.Leaving? || e.Changing? || e.Idling? || e.Notifying? || e.Viewing? || e.Resting? || e.Disconnecting?
    ensures UpToDate(Happen(w, setup, e), norm)
  {
    hide UpToDate, ContactsAdded, ContactsRemoved, Signalled, IdleUpdate, Notify, StartView, SetInactivity, GoOffline, Consistent;
    match e {
      case Arriving(arrivals, flushed, stored) => ArrivingCurrent(w, norm, setup.path, arrivals, flushed, stored);
      case Leaving(handles, flushed, removed) => LeavingCurrent(w, norm, handles, flushed, removed);
      case Changing(kind, news) => SignalledCurrent(w, norm, kind, news);
      case Idling(flushed) => IdlingCurrent(w, norm, flushed);
      case Notifying => NotifyingCurrent(w, norm);
      case Viewing => ViewingCurrent(w, norm);
      case Resting(inactive) => RestingCurrent(w, norm, inactive);
      case Disconnecting => DisconnectingCurrent(w, norm);
    }
  }

  lemma EditsIs(w: World, norm: Norm, setup: Setup, steps: seq<SyncStep>, stored: bool)
    ensures Happen(w, setup, EditsApplied(steps, stored)) == Phase3(w, steps, stored)
    ensures Announces(w, setup, EditsApplied(steps, stored)) <==> forall c :: c in w.heap ==> !LeftStale(Batch(w, []), steps, c)
    ensures Regular(w, norm, EditsApplied(steps, stored)) ==>
      StepsAllowed(Batch(w, []), norm, steps) && StepsKnown(w, steps) && InTurn(steps)
  {
    hide Phase3, LeftStale, StepsAllowed, StepsKnown, InTurn;
  }

  lemma CreatingIs(w: World, norm: Norm, setup: Setup, card: Card, id: Contact, online: bool, o: CreateAnswers)
    ensures var e := Creating(card, id, online, o);
      && Happen(w, setup, e) == Create(w, setup.path, setup.vcardField, card, id, online, o).0
      && (Announces(w, setup, e) <==> !(EntersNew(w, setup, card, online, o) && w.views != []))
      && (Regular(w, norm, e) ==> id !in w.heap && Possible(o.add))
  {
    hide Create, EntersNew;
  }

  lemma RemovingIs(w: World, setup: Setup, requests: seq<Request>, online: bool, flushed: bool, stored: bool)
    ensures var e := Event.Removing(requests, online, flushed, stored);
      && Happen(w, setup, e) == RemoveContacts(w, requests, online, flushed, stored)
      && (Announces(w, setup, e) <==> QuietRemoval(w, requests, online, flushed))
  {
    hide RemoveContacts, QuietRemoval;
  }

  lemma StoringIs(w: World, setup: Setup, toAdd: seq<Contact>, toUpdate: seq<Contact>, added: bool, updated: bool,
                  flushed: bool, removed: bool)
    ensures Happen(w, setup, MembersStored(toAdd, toUpdate, added, updated, flushed, removed))
         == Phase2(Intake(w, toAdd, toUpdate), added, updated, flushed, removed)
  {
    hide Phase2;
  }

  /** A callback whose guard holds keeps the views up to date. */
  lemma EventCurrent(w: World, norm: Norm, setup: Setup, e: Event)
    requires UpToDate(w, norm) && Regular(w, norm, e) && Announces(w, setup, e)
    ensures UpToDate(Happen(w, setup, e), norm)
  {
    hide UpToDate, Happen, Announces;
    match e {
      case Loading(_) =>
      case MembersGot(_) =>
      case MembersStored(toAdd, toUpdate, added, updated, flushed, removed) =>
        StoringIs(w, setup, toAdd, toUpdate, added, updated, flushed, removed);
        Phase2Current(Intake(w, toAdd, toUpdate), norm, added, updated, flushed, removed);
      case EditsApplied(steps, stored) =>
        EditsIs(w, norm, setup, steps, stored);
        Phase3CurrentIff(w, norm, steps, stored);
      case Creating(card, id, online, o) =>
        CreatingIs(w, norm, setup, card, id, online, o);
        CreateCurrentIff(w, norm, setup, card, id, online, o);
      case Removing(requests, online, flushed, stored) =>
        RemovingIs(w, setup, requests, online, flushed, stored);
        RemovalCurrent(w, norm, requests, online, flushed, stored);
      case _ => SignalEvent(w, norm, setup, e);
    }
  }

  /** And it does so only then: for a callback of any kind, with one request if it is a removal, the
      views are up to date after it if and only if its guard holds. */
  lemma EventCurrentIff(w: World, norm: Norm, setup: Setup, e: Event)
    requires UpToDate(w, norm) && Regular(w, norm, e) && (e.Removing? ==> |e.requests| == 1)
    ensures UpToDate(Happen(w, setup, e), norm) <==> Announces(w, setup, e)
  {
    if Announces(w, setup, e) {
      EventCurrent(w, norm, setup, e);
    } else {
      hide UpToDate, Happen, Announces;
      match e {
        case EditsApplied(steps, stored) =>
          EditsIs(w, norm, setup, steps, stored);
          Phase3CurrentIff(w, norm, steps, stored);
        case Creating(card, id, online, o) =>
          CreatingIs(w, norm, setup, card, id, online, o);
          CreateCurrentIff(w, norm, setup, card, id, online, o);
        case Removing(requests, online, flushed, stored) =>
          assert requests == [requests[0]];
          RemovingIs(w, setup, requests, online, flushed, stored);
          RemovalCurrentIff(w, norm, requests[0], online, flushed, stored);
        case _ => OthersAnnounce(w, setup, e);
      }
    }
  }

  lemma OthersAnnounce(w: World, setup: Setup, e: Event)
    requires !e.EditsApplied? && !e.Creating? && !e.Removing?
    ensures Announces(w, setup, e)
  {}

  // ---- Runs ----

  /** The signals that are emitted with a roster, before anything else happens. */
  function Followers(members: seq<Arrival>): seq<Event> {
    [Changing(AliasKind, NewsOf(members)), Changing(PresenceKind, NewsOf(members)), Changing(FlagsKind, NewsOf(members))]
  }

  /** A run in which every callback finds its guard true, and rosters come with their signals. */
  ghost predicate AllAnnounce(w: World, norm: Norm, setup: Setup, events: seq<Event>)
    decreases |events|
  {
    if events == [] then true
    else if events[0].MembersGot? then
      && |events| >= 4 && events[1..4] == Followers(events[0].members)
      && Consistent(w, norm, events[0].members) && OneEach(w, events[0].members)
      && AllAnnounce(RosterArrives(w, setup.path, events[0].members), norm, setup, events[4..])
    else
      && Regular(w, norm, events[0]) && Announces(w, setup, events[0])
      && AllAnnounce(Happen(w, setup, events[0]), norm, setup, events[1..])
  }

  lemma SignalIs(w: World, setup: Setup, kind: Kind, news: seq<ContactData>)
    ensures Happen(w, setup, Changing(kind, news)) == Signalled(w, kind, news)
  {
    hide Signalled;
  }

  lemma MembersIs(w: World, setup: Setup, members: seq<Arrival>)
    ensures Happen(w, setup, MembersGot(members)) == GetMembers(w, setup.path, members).world
  {
    hide GetMembers;
  }

  lemma ArrivesIs(w: World, path: string, members: seq<Arrival>)
    ensures var news := NewsOf(members);
      RosterArrives(w, path, members) ==
        Signalled(Signalled(Signalled(GetMembers(w, path, members).world, AliasKind, news), PresenceKind, news), FlagsKind, news)
  {
    hide GetMembers, Signalled, NewsOf;
  }

  lemma RunFirst(w: World, setup: Setup, events: seq<Event>)
    requires events != []
    ensures Run(w, setup, events) == Run(Happen(w, setup, events[0]), setup, events[1..])
  {
    hide Happen;
  }

  /** A roster and its signals, as events. */
  lemma RosterRun(w: World, setup: Setup, events: seq<Event>)
    requires |events| >= 4 && events[0].MembersGot? && events[1..4] == Followers(events[0].members)
    ensures Run(w, setup, events) == Run(RosterArrives(w, setup.path, events[0].members), setup, events[4..])
  {
    var news := NewsOf(events[0].members);
    assert events[1] == events[1..4][0] && events[2] == events[1..4][1] && events[3] == events[1..4][2];
    assert events[1] == Changing(AliasKind, news) && events[2] == Changing(PresenceKind, news);
    assert events[3] == Changing(FlagsKind, news);
    hide *;
    var w1 := GetMembers(w, setup.path, events[0].members).world;
    var w2 := Signalled(w1, AliasKind, news);
    var w3 := Signalled(w2, PresenceKind, news);
    MembersIs(w, setup, events[0].members);
    SignalIs(w1, setup, AliasKind, news);
    SignalIs(w2, setup, PresenceKind, news);
    SignalIs(w3, setup, FlagsKind, news);
    ArrivesIs(w, setup.path, events[0].members);
    RunFirst(w, setup, events);
    RunFirst(w1, setup, events[1..]);
    assert events[1..][1..] == events[2..] && events[2..][1..] == events[3..] && events[3..][1..] == events[4..];
    RunFirst(w2, setup, events[2..]);
    RunFirst(w3, setup, events[3..]);
  }

  /** No notification is lost: over every run of callbacks whose guards hold, rosters with their signals
      and the phases that follow them included, each view shows the current vCard of every visible
      contact or the contact is queued, a queue that is not empty has an idle scheduled or is short and
      waits for activity, and no view shows a contact that is gone. */
  lemma {:induction false} ViewsStayUpToDate(w: World, norm: Norm, setup: Setup, events: seq<Event>)
    requires UpToDate(w, norm) && AllAnnounce(w, norm, setup, events)
    ensures UpToDate(Run(w, setup, events), norm)
    decreases |events|
  {
    hide UpToDate, Happen, Regular, Announces, RosterArrives, Consistent, OneEach, Followers;
    if events != [] {
      if events[0].MembersGot? {
        RosterRun(w, setup, events);
        RosterCurrent(w, norm, setup.path, events[0].members);
        ViewsStayUpToDate(RosterArrives(w, setup.path, events[0].members), norm, setup, events[4..]);
      } else {
        EventCurrent(w, norm, setup, events[0]);
        ViewsStayUpToDate(Happen(w, setup, events[0]), norm, setup, events[1..]);
      }
    }
  }
}
