/** What the server and the cache must keep to, said of the data they send. Together with the objects
    that the backend gives to what comes in, it is what the theorems about runs start from. */
module Environment {
  import opened Text
  import opened Flags
  import opened ContactValues
  import opened Contacts
  import opened VCards
  import opened MasterProtocol
  import opened Worlds
  import opened Soundness
  import opened Coherence
  import opened CoherentRuns
  import opened CoherentRequests
  import opened PhaseSteps
  import opened PhaseRows
  import opened PhaseViews
  import opened Runs
  import opened ViewRuns

  /** A name, normalised, with the handle under which it may be known. */
  predicate WelcomeOne(w: World, norm: Norm, d: ContactData) {
    d.name.Some? && IsNormal(norm, d) && SameHandle(w, d)
  }

  /** What the server may send: one handle per name. */
  predicate Welcome(w: World, norm: Norm, arrivals: seq<Arrival>) {
    && (forall i :: 0 <= i < |arrivals| ==> WelcomeOne(w, norm, arrivals[i].data))
    && (forall i, j :: 0 <= i < j < |arrivals| && arrivals[i].data.name == arrivals[j].data.name ==>
          arrivals[i].data.handle == arrivals[j].data.handle)
  }

  /** The objects do the rest. */
  lemma WelcomeIsConsistent(w: World, norm: Norm, arrivals: seq<Arrival>)
    requires Coherent(w) && Identified(w, arrivals) && Welcome(w, norm, arrivals)
    ensures Consistent(w, norm, arrivals)
  {
    forall i | 0 <= i < |arrivals| ensures Acceptable(w, norm, arrivals[i]) {
      assert Placed(w, arrivals[i]) && WelcomeOne(w, norm, arrivals[i].data);
      hide IsNormal, SameHandle, NameOf, Coherent;
    }
    forall i, j | 0 <= i < j < |arrivals| ensures Compatible(arrivals[i], arrivals[j]) {
      var a, b := arrivals[i], arrivals[j];
      assert Placed(w, a) && Placed(w, b) && Together(w, a, b);
      assert WelcomeOne(w, norm, a.data) && WelcomeOne(w, norm, b.data);
      assert NameOf(a.data) in w.byName ==> NameEntry(w, NameOf(a.data), w.byName[NameOf(a.data)]);
      assert NameOf(b.data) in w.byName ==> NameEntry(w, NameOf(b.data), w.byName[NameOf(b.data)]);
    }
  }

  // ---- Phase 3 ----

  /** The server keeps to its word at every addition. */
  predicate OrderlyAll(b: Batch, norm: Norm, steps: seq<SyncStep>)
    decreases |steps|
  {
    steps == [] ||
    ((steps[0].StepAdd? ==> Orderly(b.world, norm, steps[0].c, steps[0].answer))
     && OrderlyAll(SyncOne(b, steps[0]), norm, steps[1..]))
  }

  /** The contacts to be added are those on the list. */
  predicate Queued(w: World, steps: seq<SyncStep>) {
    forall s :: s in steps && s.StepAdd? ==> CoherentRuns.Waiting(w, s.c)
  }

  /** The list loses at most this contact, and all objects stay under their uids. */
  predicate OneLess(w: World, x: Contact, w': World) {
    && w'.heap.Keys == w.heap.Keys && Evolves(w, w')
    && (w'.toAdd == w.toAdd || w'.toAdd == w.toAdd - {At(w, x).uid})
  }

  lemma AddTakesOne(b: Batch, norm: Norm, x: Contact, a: Answer, flushed: bool, removed: bool)
    requires Inv(b.world, norm) && CoherentRuns.Waiting(b.world, x) && Orderly(b.world, norm, x, a)
    ensures OneLess(b.world, x, SyncAdd(b, x, a, flushed, removed).world)
  {
    WaitingNamed(b.world, norm, x);
    PhaseViews.AddKnown(b, norm, x, a, flushed, removed);
    AddEvolves(b, norm, x, a, flushed, removed);
    AddAdds(b, norm, x, a, flushed, removed);
    hide SyncAdd, Inv, Orderly, CoherentRuns.Waiting, Evolves, At, RenamesFree;
  }

  lemma WaitingNamed(w: World, norm: Norm, x: Contact)
    requires Inv(w, norm) && CoherentRuns.Waiting(w, x)
    ensures At(w, x).name.Some? && x in w.heap
  {
    assert AddEntry(w, norm, At(w, x).uid, x);
  }

  /** Whoever else waits still does after a step. */
  lemma OthersWait(b: Batch, norm: Norm, s: SyncStep, c: Contact)
    requires Inv(b.world, norm) && StepAllowed(b.world, norm, s) && CoherentRuns.Waiting(b.world, c)
    requires s.StepAdd? ==> c != s.c
    ensures CoherentRuns.Waiting(SyncOne(b, s).world, c)
  {
    match s {
      case StepUpdate(x, unblocked) => hide Inv, NeedsUpdate;
      case StepDelete(x, removed) => hide Inv;
      case StepAdd(x, a, flushed, removed) =>
        hide Inv, Orderly, SyncAdd;
        AddTakesOne(b, norm, x, a, flushed, removed);
    }
  }

  /** Each list is gone through once, so that the server's good conduct is all that is needed. */
  lemma {:induction false} OrderlyIsAllowed(b: Batch, norm: Norm, steps: seq<SyncStep>)
    requires Inv(b.world, norm) && OrderlyAll(b, norm, steps) && InTurn(steps) && Queued(b.world, steps)
    ensures StepsAllowed(b, norm, steps)
    decreases |steps|
  {
    hide Inv, SyncOne, Orderly, CoherentRuns.Waiting, InTurn;
    if steps != [] {
      var s, b' := steps[0], SyncOne(b, steps[0]);
      assert s in steps;
      SyncOneKeeps(b, norm, s);
      RestInTurn(steps);
      forall x | x in steps[1..] && x.StepAdd? ensures CoherentRuns.Waiting(b'.world, x.c) {
        assert x in steps;
        if s.StepAdd? && x.c == s.c { SameTurn(s, x); }
        OthersWait(b, norm, s, x.c);
      }
      OrderlyIsAllowed(b', norm, steps[1..]);
    }
  }

  lemma SameTurn(s: SyncStep, x: SyncStep)
    requires s.StepAdd? && x.StepAdd?
    ensures Turn(s) == Turn(x)
  {}

  // ---- All callbacks ----

  /** What the backend itself sees to: new objects are new, a known name has its object, and phase 3 goes
      through its three lists. */
  ghost predicate Identities(w: World, e: Event) {
    match e
    case Loading(arrivals) =>
      && (forall i :: 0 <= i < |arrivals| ==> arrivals[i].id !in w.heap)
      && (forall i, j :: 0 <= i < j < |arrivals| ==> arrivals[i].id != arrivals[j].id)
    case MembersGot(arrivals) => Identified(w, arrivals)
    case EditsApplied(steps, _) => StepsKnown(w, steps) && InTurn(steps) && Queued(w, steps)
    case Arriving(arrivals, _, _) => Identified(w, arrivals)
    case Creating(_, id, _, _) => id !in w.heap
    case _ => true
  }

  /** What the cache yields: named contacts, one per uid and one per name, none of them both waiting to be
      added and marked as unseen. */
  predicate LoadableData(arrivals: seq<Arrival>) {
    && (forall i :: 0 <= i < |arrivals| ==> LoadableOne(arrivals[i]))
    && (forall i, j :: 0 <= i < j < |arrivals| ==>
          arrivals[i].data.uid != arrivals[j].data.uid && arrivals[i].data.name != arrivals[j].data.name)
  }

  /** What the cache, the server and the signals keep to. */
  ghost predicate Expected(w: World, norm: Norm, e: Event) {
    match e
    case Loading(arrivals) => Bare(w) && LoadableData(arrivals)
    case MembersGot(arrivals) => Welcome(w, norm, arrivals)
    case EditsApplied(steps, _) => OrderlyAll(Batch(w, []), norm, steps)
    case Arriving(arrivals, _, _) => Welcome(w, norm, arrivals)
    case Leaving(handles, _, _) => 0 !in handles
    case Changing(_, news) => Handled(news)
    case Creating(_, _, _, answers) => Possible(answers.add)
    case _ => true
  }

  /** Nothing more is asked of the environment. */
  lemma ExpectedIsAllowed(w: World, norm: Norm, e: Event)
    requires Inv(w, norm) && Identities(w, e) && Expected(w, norm, e)
    ensures Allowed(w, norm, e)
    ensures !e.Loading? && !e.MembersGot? ==> Regular(w, norm, e)
  {
    match e {
      case MembersGot(arrivals) => WelcomeIsConsistent(w, norm, arrivals);
      case Arriving(arrivals, _, _) => WelcomeIsConsistent(w, norm, arrivals);
      case EditsApplied(steps, _) => OrderlyIsAllowed(Batch(w, []), norm, steps);
      case _ =>
    }
  }
}
