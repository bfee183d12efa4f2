/** At most one reconciliation runs at a time: `is_loading`, `need_contacts_reload` and the callbacks
    that are under way. */
module SingleFlight {

  /** The two switches, and how many callbacks of each phase are under way. `started` and `finished`
      count the reconciliations that asked for the members and those that came to an end. */
  datatype Loading = Loading(
    online: bool,
    isLoading: bool,
    needReload: bool,
    members: nat,
    phase2: nat,
    phase3: nat,
    started: nat,
    finished: nat)

  datatype Event =
    | Ready                 // the cache is loaded
    | Status(online: bool)  // the connection comes or goes
    | MembersFailed         // the members could not be had
    | MembersArrived
    | Phase2Ran
    | Phase3Ran             // its edits done, or skipped because the connection is gone

  function InFlight(s: Loading): nat {
    s.members + s.phase2 + s.phase3
  }

  /** `_sync_phase_1`. Offline, asking for the members reports success and nothing ever comes back. */
  function Phase1(s: Loading): Loading {
    if s.isLoading then s.(needReload := true)
    else if s.online then s.(isLoading := true, members := s.members + 1, started := s.started + 1)
    else s.(isLoading := true)
  }

  /** `finish_online_initialization`. */
  function Finish(s: Loading): Loading {
    if s.needReload then Phase1(s.(isLoading := false, needReload := false, finished := s.finished + 1))
    else s.(isLoading := false, finished := s.finished + 1)
  }

  function Step(s: Loading, e: Event): Loading {
    match e
    case Ready => if s.online then Phase1(s) else s
    case Status(online) =>
      if online == s.online then s
      else if online then Phase1(s.(online := true))
      else s.(online := false)
    case MembersFailed => if s.members == 0 then s else Finish(s.(members := s.members - 1))
    case MembersArrived => if s.members == 0 then s else s.(members := s.members - 1, phase2 := s.phase2 + 1)
    case Phase2Ran => if s.phase2 == 0 then s else s.(phase2 := s.phase2 - 1, phase3 := s.phase3 + 1)
    case Phase3Ran => if s.phase3 == 0 then s else Finish(s.(phase3 := s.phase3 - 1))
  }

  function Run(s: Loading, events: seq<Event>): Loading
    decreases |events|
  {
    if events == [] then s else Run(Step(s, events[0]), events[1..])
  }

  predicate SingleFlight(s: Loading) {
    && InFlight(s) <= 1
    && (InFlight(s) == 1 ==> s.isLoading)
    && (s.needReload ==> s.isLoading)
    && s.started == s.finished + InFlight(s)
  }

  /** Over every run of connects, disconnects, replies and failures at most one reconciliation is
      under way, and then the backend is loading; a reload is noted only while it is. */
  lemma {:induction false} SingleFlightHolds(s: Loading, events: seq<Event>)
    requires SingleFlight(s)
    ensures SingleFlight(Run(s, events))
    decreases |events|
  {
    if events != [] { SingleFlightHolds(Step(s, events[0]), events[1..]); }
  }

  /** Loading, with nothing under way that could end it. */
  predicate Stuck(s: Loading) {
    s.isLoading && InFlight(s) == 0
  }

  predicate Ends(s: Loading, e: Event) {
    (e.MembersFailed? && s.members > 0) || (e.Phase3Ran? && s.phase3 > 0)
  }

  /** The noted reload starts while the connection is gone. */
  predicate StartsOffline(s: Loading, e: Event) {
    Ends(s, e) && s.needReload && !s.online
  }

  /** Exactly when the backend gets stuck: when a reconciliation ends, a reload was noted, and the
      connection is gone at that moment. */
  lemma StuckIff(s: Loading, e: Event)
    requires SingleFlight(s) && !Stuck(s)
    ensures Stuck(Step(s, e)) <==> StartsOffline(s, e)
  {}

  /** From then on nothing is ever reconciled again, however often the connection comes back. */
  lemma {:induction false} StuckForever(s: Loading, events: seq<Event>)
    requires SingleFlight(s) && Stuck(s)
    ensures Stuck(Run(s, events)) && Run(s, events).started == s.started
    decreases |events|
  {
    if events != [] { StuckForever(Step(s, events[0]), events[1..]); }
  }

  /** A run that gets there: connected, then lost and back while the members are asked for, lost once
      more, and only then the answer comes. However often the connection comes back after that, nothing
      is under way. */
  lemma StuckRun(later: seq<Event>)
    ensures var start := Loading(true, false, false, 0, 0, 0, 0, 0);
      var s := Run(start, [Ready, Status(false), Status(true), Status(false), MembersFailed]);
      SingleFlight(start) && s.isLoading && InFlight(s) == 0 && Stuck(Run(s, later)) && Run(s, later).started == s.started
  {
    var s0 := Loading(true, false, false, 0, 0, 0, 0, 0);
    var e := [Ready, Status(false), Status(true), Status(false), MembersFailed];
    var s1 := Step(s0, Ready);
    var s2 := Step(s1, Status(false));
    var s3 := Step(s2, Status(true));
    var s4 := Step(s3, Status(false));
    assert e[1..] == [Status(false), Status(true), Status(false), MembersFailed];
    assert e[1..][1..] == [Status(true), Status(false), MembersFailed];
    assert e[1..][1..][1..] == [Status(false), MembersFailed];
    assert e[1..][1..][1..][1..] == [MembersFailed];
    assert Run(s4, [MembersFailed]) == Run(Step(s4, MembersFailed), []);
    assert Run(s3, [Status(false), MembersFailed]) == Run(s4, [MembersFailed]);
    assert Run(s2, [Status(true), Status(false), MembersFailed]) == Run(s3, [Status(false), MembersFailed]);
    assert Run(s0, e) == Step(s4, MembersFailed);
    StuckForever(Step(s4, MembersFailed), later);
  }

  predicate Lively(s: Loading, events: seq<Event>)
    decreases |events|
  {
    events == [] || (!StartsOffline(s, events[0]) && Lively(Step(s, events[0]), events[1..]))
  }

  /** A run that is online whenever a noted reload starts: loading means exactly one reconciliation
      under way, and a reload that was noted has started by the time another one has ended. */
  lemma {:induction false} LivelyRuns(s: Loading, events: seq<Event>)
    requires SingleFlight(s) && !Stuck(s) && Lively(s, events)
    ensures var s' := Run(s, events);
      && !Stuck(s') && SingleFlight(s')
      && (s'.isLoading <==> InFlight(s') == 1)
      && s.started <= s'.started
      && (s.needReload && s'.finished > s.finished ==> s'.started > s.started)
    decreases |events|
  {
    if events != [] {
      StuckIff(s, events[0]);
      LivelyRuns(Step(s, events[0]), events[1..]);
    }
  }

  /** A reconnect while loading is noted, and the end of that loading starts one more reconciliation
      if the connection is still there. */
  lemma ReconnectReloads(s: Loading, e: Event)
    requires SingleFlight(s) && InFlight(s) == 1 && !s.online && Ends(s, e)
    ensures var noted := Step(s, Status(true));
      && noted.needReload && noted.started == s.started
      && Step(noted, e).started == s.started + 1 && InFlight(Step(noted, e)) == 1 && !Step(noted, e).needReload
  {}

  function Connects(events: seq<Event>): nat {
    if events == [] then 0
    else (if events[0] == Ready || events[0] == Status(true) then 1 else 0) + Connects(events[1..])
  }

  function Noted(s: Loading): nat {
    if s.needReload then 1 else 0
  }

  /** No connect starts more than one reconciliation. */
  lemma {:induction false} OnePerConnect(s: Loading, events: seq<Event>)
    requires SingleFlight(s)
    ensures Run(s, events).started + Noted(Run(s, events)) <= s.started + Noted(s) + Connects(events)
    decreases |events|
  {
    if events != [] { OnePerConnect(Step(s, events[0]), events[1..]); }
  }

  /** How many callbacks are still to come if the connection stays as it is. */
  function Pending(s: Loading): nat {
    3 * s.members + 2 * s.phase2 + s.phase3 + 4 * Noted(s)
  }

  predicate Answers(s: Loading, e: Event) {
    match e
    case Ready => false
    case Status(_) => false
    case MembersFailed => s.members > 0
    case MembersArrived => s.members > 0
    case Phase2Ran => s.phase2 > 0
    case Phase3Ran => s.phase3 > 0
  }

  /** Every callback brings the end nearer. */
  lemma CallbacksRunOut(s: Loading, e: Event)
    requires SingleFlight(s) && Answers(s, e)
    ensures Pending(Step(s, e)) < Pending(s)
  {}

  /** The same state, updated in place. */
  class Synchroniser {
    var online: bool
    var isLoading: bool
    var needContactsReload: bool
    var members: nat
    var phase2: nat
    var phase3: nat
    ghost var started: nat
    ghost var finished: nat

    ghost function State(): Loading
      reads this
    {
      Loading(online, isLoading, needContactsReload, members, phase2, phase3, started, finished)
    }

    constructor (online: bool)
      ensures State() == Loading(online, false, false, 0, 0, 0, 0, 0)
    {
      this.online, isLoading, needContactsReload := online, false, false;
      members, phase2, phase3, started, finished := 0, 0, 0, 0, 0;
    }

    method SyncPhase1()
      modifies this
      ensures State() == Phase1(old(State()))
    {
      if isLoading {
        needContactsReload := true;
        return;
      }
      isLoading := true;
      if online {
        members := members + 1;
        started := started + 1;
      }
    }

    method FinishOnlineInitialization()
      modifies this
      ensures State() == Finish(old(State()))
    {
      isLoading := false;
      finished := finished + 1;
      if needContactsReload {
        needContactsReload := false;
        SyncPhase1();
      }
    }

    method OnReady()
      modifies this
      ensures State() == Step(old(State()), Ready)
    {
      if online { SyncPhase1(); }
    }

    method StatusChanged(status: bool)
      modifies this
      ensures State() == Step(old(State()), Status(status))
    {
      if status != online {
        online := status;
        if status { SyncPhase1(); }
      }
    }

    /** The callback of phase 1. */
    method GetMembersCb(error: bool)
      requires members > 0
      modifies this
      ensures State() == Step(old(State()), if error then MembersFailed else MembersArrived)
    {
      members := members - 1;
      if error {
        FinishOnlineInitialization();
      } else {
        phase2 := phase2 + 1;
      }
    }

    method SyncPhase2IdleCb()
      requires phase2 > 0
      modifies this
      ensures State() == Step(old(State()), Phase2Ran)
    {
      phase2 := phase2 - 1;
      phase3 := phase3 + 1;
    }

    method SyncPhase3IdleCb()
      requires phase3 > 0
      modifies this
      ensures State() == Step(old(State()), Phase3Ran)
    {
      phase3 := phase3 - 1;
      FinishOnlineInitialization();
    }
  }
}
