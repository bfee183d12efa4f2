/** Phase 3 and the book views: which contacts the phase leaves with a vCard that views do not show. */
module PhaseViews {
  import opened Text
  import opened Flags
  import opened ContactValues
  import opened Contacts
  import opened VCards
  import opened Store
  import opened StoreBatches
  import opened Worlds
  import opened Coherence
  import opened CoherentRuns
  import opened CoherentRequests
  import opened Runs
  import opened Views
  import opened SameCards
  import opened PhaseSteps
  import PhaseRows

  /** A visible contact that does not wait to be announced, and that some view does not show as it is. */
  ghost predicate Stale(w: World, c: Contact) {
    && Live(w, c) && Visible(At(w, c)) && At(w, c).uid !in w.changed
    && exists v :: v in w.views && !Shows(w, v, At(w, c).uid)
  }

  /** Everything that `UpToDate` asks for but that the views are current. */
  predicate Base(w: World, norm: Norm) {
    Inv(w, norm) && ChangedLive(w) && NoGhosts(w) && Promised(w) && w.ready
  }

  lemma NoneStale(w: World, norm: Norm)
    requires Base(w, norm)
    ensures UpToDate(w, norm) <==> forall c :: c in w.heap ==> !Stale(w, c)
  {
    forall u | u in w.byUid ensures w.byUid[u] in w.heap && Live(w, w.byUid[u]) && At(w, w.byUid[u]).uid == u {
      assert UidEntry(w, u, w.byUid[u]);
    }
    if UpToDate(w, norm) {
      assert forall v :: v in w.views ==> ViewCurrent(w, v, {});
    }
    if forall c :: c in w.heap ==> !Stale(w, c) {
      forall v | v in w.views ensures ViewCurrent(w, v, {}) {
        forall u | u in w.byUid && u !in w.changed && Visible(At(w, w.byUid[u])) ensures Shows(w, v, u) {
          assert !Stale(w, w.byUid[u]);
        }
      }
    }
    hide Inv, ChangedLive, NoGhosts, Promised, Shows, Visible, At;
  }

  // ---- Which steps change what is shown ----

  /** The contact is listed in views, and is not about to be announced anyway. */
  predicate Watched(w: World, c: Contact) {
    Live(w, c) && Visible(At(w, c)) && At(w, c).uid !in w.changed && w.views != []
  }

  /** The step changes the vCard of a contact that views show, or makes a contact visible that some view
      does not show: an unblocking fails, and the contact is taken for unblocked all the same; the
      server gives another handle, another name that nobody has, or refuses the handle; or the server
      accepts the deletion of a contact that was hidden until then. */
  ghost predicate Disturbs(w: World, s: SyncStep, c: Contact) {
    s.c == c &&
    var d := At(w, c);
    match s
    case StepUpdate(_, unblocked) =>
      && Watched(w, c) && SCHEDULE_UNBLOCK in d.pendingFlags && !unblocked
      && CL_DENY in d.flags && d.flags * ALL_LIST_FLAGS != {CL_PUBLISH, CL_DENY}
    case StepAdd(_, a, _, _) =>
      && Watched(w, c) && CONTACT_INVALID !in d.flags && !Merges(w, c, a)
      && ((a.handle.Some? && a.handle.value != d.handle) || Renames(w, c, a) || a.verdict.InvalidHandle?)
    case StepDelete(_, removed) =>
      && removed && Live(w, c) && SCHEDULE_DELETE in d.pendingFlags && d.flags * ALL_LIST_FLAGS != {CL_PUBLISH}
      && d.uid !in w.changed && exists v :: v in w.views && !Shows(w, v, d.uid)
  }

  /** The step merges the contact into another one, which takes it out of the views, or another one into
      it, which announces it. */
  predicate Settles(w: World, s: SyncStep, c: Contact) {
    s.StepAdd? && Merges(w, s.c, s.answer) && (s.c == c || w.byName[s.answer.name.value] == c)
  }

  predicate SettledLater(b: Batch, steps: seq<SyncStep>, c: Contact)
    decreases |steps|
  {
    steps != [] && (Settles(b.world, steps[0], c) || SettledLater(SyncOne(b, steps[0]), steps[1..], c))
  }

  /** Some step disturbs what views show of the contact, and no later step settles that. */
  ghost predicate LeftStale(b: Batch, steps: seq<SyncStep>, c: Contact)
    decreases |steps|
  {
    steps != [] &&
    ((Disturbs(b.world, steps[0], c) && !SettledLater(SyncOne(b, steps[0]), steps[1..], c))
     || LeftStale(SyncOne(b, steps[0]), steps[1..], c))
  }

  function Turn(s: SyncStep): nat {
    match s
    case StepUpdate(_, _) => 0
    case StepAdd(_, _, _, _) => 1
    case StepDelete(_, _) => 2
  }

  /** A contact is updated, added and deleted at most once each, and in that order, as the three loops
      of the phase do it. */
  predicate InTurn(steps: seq<SyncStep>) {
    forall i, j :: 0 <= i < j < |steps| && steps[i].c == steps[j].c ==> Turn(steps[i]) < Turn(steps[j])
  }

  // ---- One contact is written ----

  /** Nothing but the fields of one contact, the name index and the queues of edits has changed. */
  predicate Rewritten(w: World, x: Contact, e: ContactData, w': World) {
    && w'.heap == w.heap[x := e] && e.uid == At(w, x).uid && x in w.heap
    && w'.byUid == w.byUid && w'.changed == w.changed && w'.views == w.views
    && w'.idle == w.idle && w'.inactive == w.inactive && w'.ready == w.ready
  }

  lemma RewrittenBase(w: World, norm: Norm, x: Contact, e: ContactData, w': World)
    requires Base(w, norm) && Rewritten(w, x, e, w') && Inv(w', norm)
    ensures Base(w', norm)
  {
    hide Inv, At;
  }

  lemma RewrittenOther(w: World, x: Contact, e: ContactData, w': World, c: Contact)
    requires Rewritten(w, x, e, w') && c != x
    ensures Stale(w', c) <==> Stale(w, c)
    ensures Live(w', c) <==> Live(w, c)
    ensures At(w', c) == At(w, c)
  {
    hide Visible, SameCard;
  }

  /** What is shown of the contact itself. */
  lemma RewrittenShows(w: World, c: Contact, e: ContactData, w': World, v: View)
    requires Rewritten(w, c, e, w') && Live(w, c)
    ensures Live(w', c) && At(w', c) == e
    ensures Shows(w', v, e.uid) <==> e.uid in v && SameCard(v[e.uid], e)
    ensures Shows(w, v, e.uid) <==> e.uid in v && SameCard(v[e.uid], At(w, c))
  {
    hide SameCard;
  }

  /** The card stays, and so does whether the contact is listed. */
  lemma SameShown(w: World, c: Contact, e: ContactData, w': World)
    requires Rewritten(w, c, e, w') && SameCard(At(w, c), e) && (Visible(e) <==> Visible(At(w, c)))
    ensures Stale(w', c) <==> Stale(w, c)
  {
    var d := At(w, c);
    if Live(w, c) {
      forall v ensures Shows(w', v, e.uid) <==> Shows(w, v, d.uid) {
        RewrittenShows(w, c, e, w', v);
        if e.uid in v && SameCard(v[e.uid], d) { SameCardTransitive(v[e.uid], d, e); }
        if e.uid in v && SameCard(v[e.uid], e) {
          SameCardSymmetric(d, e);
          SameCardTransitive(v[e.uid], e, d);
        }
        hide SameCard, Shows, At;
      }
      RewrittenShows(w, c, e, w', map[]);
    }
    hide Visible, SameCard, Shows;
  }

  /** The card changes. */
  lemma OtherShown(w: World, c: Contact, e: ContactData, w': World)
    requires Rewritten(w, c, e, w') && !SameCard(At(w, c), e) && Visible(At(w, c)) && !Stale(w, c)
    ensures Stale(w', c) <==> Watched(w, c) && Visible(e)
  {
    var d := At(w, c);
    if Live(w, c) {
      RewrittenShows(w, c, e, w', map[]);
      if d.uid !in w.changed {
        forall v | v in w.views ensures !Shows(w', v, e.uid) {
          RewrittenShows(w, c, e, w', v);
          assert Shows(w, v, d.uid);
          if SameCard(v[e.uid], e) { SameCardJoin(v[e.uid], d, e); }
          hide SameCard;
        }
        if w.views != [] { assert w.views[0] in w.views; }
      }
    }
    hide Visible, SameCard, Shows;
  }

  lemma HiddenNow(w: World, c: Contact, e: ContactData, w': World)
    requires Rewritten(w, c, e, w') && !Visible(e)
    ensures !Stale(w', c)
  {
    hide SameCard;
  }

  /** Some view shows the contact as blocked, and it is not blocked any more. */
  predicate ShownBlocked(w: World, c: Contact) {
    var d := At(w, c);
    CL_DENY !in d.flags && exists v: View :: v in w.views && d.uid in v && CL_DENY in v[d.uid].flags
  }

  lemma BlockedStaysStale(w: World, c: Contact, e: ContactData, w': World)
    requires Rewritten(w, c, e, w') && Stale(w, c) && Visible(e) && CL_DENY !in e.flags && ShownBlocked(w, c)
    ensures Stale(w', c) && ShownBlocked(w', c)
  {
    var v: View :| v in w.views && At(w, c).uid in v && CL_DENY in v[At(w, c).uid].flags;
    RewrittenShows(w, c, e, w', v);
    if SameCard(v[e.uid], e) { SameCardDenied(v[e.uid], e); }
    hide SameCard, Visible;
  }

  lemma BlockedElsewhere(w: World, x: Contact, e: ContactData, w': World, c: Contact)
    requires Rewritten(w, x, e, w') && c != x && ShownBlocked(w, c)
    ensures ShownBlocked(w', c)
  {}

  // ---- What one step does ----

  /** What a step has to do for what is shown of a contact. */
  ghost predicate ViewsFollow(w: World, s: SyncStep, c: Contact, w': World) {
    && (Settles(w, s, c) ==> !Stale(w', c))
    && (!Settles(w, s, c) && !Stale(w, c) ==>
          (Stale(w', c) <==> Disturbs(w, s, c)) && (Disturbs(w, s, c) && s.StepUpdate? ==> ShownBlocked(w', c)))
    && (!Settles(w, s, c) && Stale(w, c) && (s.c == c ==> !s.StepUpdate?) && (s.c == c && s.StepAdd? ==> ShownBlocked(w, c)) ==>
          Stale(w', c) && (ShownBlocked(w, c) ==> ShownBlocked(w', c)))
  }

  lemma FollowsElsewhere(w: World, s: SyncStep, e: ContactData, w': World, c: Contact)
    requires Rewritten(w, s.c, e, w') && c != s.c && !Settles(w, s, c)
    ensures ViewsFollow(w, s, c, w')
  {
    RewrittenOther(w, s.c, e, w', c);
    if ShownBlocked(w, c) { BlockedElsewhere(w, s.c, e, w', c); }
    hide Stale, ShownBlocked, Settles;
  }

  lemma UpdatedData(d: ContactData, unblocked: bool)
    ensures var e := RunUpdate(d, unblocked);
      && e.uid == d.uid
      && (SCHEDULE_DELETE in e.pendingFlags <==> SCHEDULE_DELETE in d.pendingFlags)
      && e.flags == (if SCHEDULE_UNBLOCK in d.pendingFlags && !unblocked then d.flags - {CL_DENY} else d.flags)
      && e == d.(pendingFlags := e.pendingFlags, flags := e.flags)
  {}

  lemma PublishOnly(flags: FlagWord)
    requires CL_DENY in flags
    ensures (flags - {CL_DENY}) * ALL_LIST_FLAGS == {CL_PUBLISH} <==> flags * ALL_LIST_FLAGS == {CL_PUBLISH, CL_DENY}
    ensures flags * ALL_LIST_FLAGS != {CL_PUBLISH}
  {
    assert CL_DENY in flags * ALL_LIST_FLAGS;
    assert (flags - {CL_DENY}) * ALL_LIST_FLAGS == flags * ALL_LIST_FLAGS - {CL_DENY};
    if (flags - {CL_DENY}) * ALL_LIST_FLAGS == {CL_PUBLISH} {
      assert flags * ALL_LIST_FLAGS == {CL_PUBLISH} + {CL_DENY};
    }
  }

  /** An update of the contact itself. */
  lemma UpdateShown(w: World, c: Contact, unblocked: bool, w': World)
    requires Rewritten(w, c, RunUpdate(At(w, c), unblocked), w') && !Stale(w, c)
    ensures Stale(w', c) <==> Disturbs(w, StepUpdate(c, unblocked), c)
    ensures Disturbs(w, StepUpdate(c, unblocked), c) ==> ShownBlocked(w', c)
  {
    var d, e := At(w, c), RunUpdate(At(w, c), unblocked);
    UpdatedData(d, unblocked);
    if SCHEDULE_UNBLOCK in d.pendingFlags && !unblocked && CL_DENY in d.flags {
      PublishOnly(d.flags);
      if SameCard(d, e) { SameCardDenied(d, e); }
      if !Visible(e) {
        HiddenNow(w, c, e, w');
      } else {
        assert Visible(d);
        OtherShown(w, c, e, w');
        if Disturbs(w, StepUpdate(c, unblocked), c) {
          RewrittenShows(w, c, e, w', w.views[0]);
          assert w.views[0] in w.views && Shows(w, w.views[0], d.uid);
          SameCardDenied(w.views[0][d.uid], d);
        }
      }
    } else {
      assert e.flags == d.flags;
      PendingNotShown(d, e.pendingFlags);
      assert e == d.(pendingFlags := e.pendingFlags);
      SameShown(w, c, e, w');
    }
    hide SameCard, RunUpdate, Live;
  }

  lemma UpdateFollows(b: Batch, x: Contact, unblocked: bool, c: Contact)
    requires x in b.world.heap
    ensures ViewsFollow(b.world, StepUpdate(x, unblocked), c, SyncUpdate(b, x, unblocked).world)
  {
    var w, w', e := b.world, SyncUpdate(b, x, unblocked).world, RunUpdate(At(b.world, x), unblocked);
    UpdatedData(At(w, x), unblocked);
    if !NeedsUpdate(At(w, x)) { NoNeed(At(w, x), unblocked); }
    assert NeedsUpdate(At(w, x)) ==> Rewritten(w, x, e, w');
    assert !NeedsUpdate(At(w, x)) ==> w' == w;
    hide *;
    UpdateSettlesNobody(w, x, unblocked, c);
    if NeedsUpdate(At(w, x)) {
      if c != x { FollowsElsewhere(w, StepUpdate(x, unblocked), e, w', c); }
      else if !Stale(w, c) { UpdateShown(w, c, unblocked, w'); }
    } else {
      NothingDisturbed(w, x, unblocked, c);
    }
    UpdateFollowsIs(w, x, unblocked, c, w');
  }

  lemma NoNeed(d: ContactData, unblocked: bool)
    requires !NeedsUpdate(d)
    ensures RunUpdate(d, unblocked) == d
  {}

  lemma UpdateSettlesNobody(w: World, x: Contact, unblocked: bool, c: Contact)
    ensures !Settles(w, StepUpdate(x, unblocked), c)
  {}

  lemma NothingDisturbed(w: World, x: Contact, unblocked: bool, c: Contact)
    requires !NeedsUpdate(At(w, x))
    ensures !Disturbs(w, StepUpdate(x, unblocked), c)
  {
    hide Watched, At;
  }

  lemma UpdateFollowsIs(w: World, x: Contact, unblocked: bool, c: Contact, w': World)
    requires !Settles(w, StepUpdate(x, unblocked), c)
    requires (w' == w && !Disturbs(w, StepUpdate(x, unblocked), c))
      || (c != x && ViewsFollow(w, StepUpdate(x, unblocked), c, w'))
      || (c == x && (!Stale(w, c) ==> (Stale(w', c) <==> Disturbs(w, StepUpdate(x, unblocked), c))
                                      && (Disturbs(w, StepUpdate(x, unblocked), c) ==> ShownBlocked(w', c))))
    ensures ViewsFollow(w, StepUpdate(x, unblocked), c, w')
  {
    hide Stale, Disturbs, ShownBlocked, Settles;
  }

  // ---- Deletions ----

  lemma DeleteShown(w: World, c: Contact, w': World)
    requires var d := At(w, c); Rewritten(w, c, d.(pendingFlags := d.pendingFlags - {SCHEDULE_DELETE}), w')
    ensures Stale(w, c) ==> Stale(w', c)
    ensures !Stale(w, c) ==> (Stale(w', c) <==> Disturbs(w, StepDelete(c, true), c))
  {
    var d := At(w, c);
    var e := d.(pendingFlags := d.pendingFlags - {SCHEDULE_DELETE});
    PendingNotShown(d, e.pendingFlags);
    if SCHEDULE_DELETE !in d.pendingFlags {
      SameShown(w, c, e, w');
    } else if Live(w, c) {
      forall v ensures Shows(w', v, e.uid) <==> Shows(w, v, d.uid) {
        RewrittenShows(w, c, e, w', v);
        if e.uid in v && SameCard(v[e.uid], d) { SameCardTransitive(v[e.uid], d, e); }
        if e.uid in v && SameCard(v[e.uid], e) {
          SameCardSymmetric(d, e);
          SameCardTransitive(v[e.uid], e, d);
        }
        hide SameCard, Shows, At;
      }
      RewrittenShows(w, c, e, w', map[]);
    }
    hide SameCard, Shows;
  }

  lemma DeleteFollows(b: Batch, x: Contact, removed: bool, c: Contact)
    requires x in b.world.heap
    ensures ViewsFollow(b.world, StepDelete(x, removed), c, SyncDelete(b, x, removed).world)
  {
    var w, w', d := b.world, SyncDelete(b, x, removed).world, At(b.world, x);
    var e := d.(pendingFlags := d.pendingFlags - {SCHEDULE_DELETE});
    var s := StepDelete(x, removed);
    assert removed ==> Rewritten(w, x, e, w');
    assert !removed ==> w' == w;
    assert !Settles(w, s, c);
    assert !removed ==> !Disturbs(w, s, c);
    assert removed && c == x ==> At(w', c).flags == At(w, c).flags && At(w', c).uid == At(w, c).uid && w'.views == w.views;
    hide At, Stale, Disturbs, Settles, Rewritten;
    if removed {
      if c != x { FollowsElsewhere(w, s, e, w', c); } else { DeleteShown(w, c, w'); }
    }
    hide Live;
  }

  // ---- Additions that keep the contact apart ----

  lemma AddedSame(d: ContactData, a: Answer)
    requires Possible(a)
    ensures var n, e := Normalised(d, a), AddedData(d, a);
      && n.pendingFlags * {SCHEDULE_DELETE} == d.pendingFlags * {SCHEDULE_DELETE} == e.pendingFlags * {SCHEDULE_DELETE}
      && n.flags == d.flags && e.flags * ALL_LIST_FLAGS == d.flags * ALL_LIST_FLAGS
      && (CL_DENY in e.flags <==> CL_DENY in d.flags)
      && n.alias == d.alias && e.alias == d.alias && n.uid == d.uid && e.uid == d.uid
      && (Visible(n) <==> Visible(d)) && (Visible(e) <==> Visible(d))
  {}

  /** The addition failed early: at most the handle is new. */
  lemma FailedShown(w: World, norm: Norm, c: Contact, a: Answer, flushed: bool, removed: bool, w': World)
    requires Rewritten(w, c, Normalised(At(w, c), a), w') && Fails(w, c, a) && Orderly(w, norm, c, a)
    requires !Stale(w, c) && (Live(w, c) ==> At(w, c).name.Some?)
    ensures Stale(w', c) <==> Disturbs(w, StepAdd(c, a, flushed, removed), c)
  {
    var d, e := At(w, c), Normalised(At(w, c), a);
    AddedSame(d, a);
    if Live(w, c) {
      assert e == d.(handle := e.handle) && (e.handle != d.handle <==> a.handle.Some? && a.handle.value != d.handle);
      ShownIfHandle(w, c, e, w');
      assert !Merges(w, c, a);
    }
    hide SameCard, Normalised, Visible;
  }

  lemma ShownIfHandle(w: World, c: Contact, e: ContactData, w': World)
    requires Rewritten(w, c, e, w') && e == At(w, c).(handle := e.handle) && !Stale(w, c)
    ensures Stale(w', c) <==> Watched(w, c) && e.handle != At(w, c).handle
  {
    var d := At(w, c);
    if e.handle == d.handle {
      assert SameCard(d, e);
      SameShown(w, c, e, w');
    } else if Visible(d) {
      if SameCard(d, e) { SameCardHandle(d, e); }
      OtherShown(w, c, e, w');
    } else {
      HiddenNow(w, c, e, w');
    }
    hide SameCard, Live;
  }

  /** The contact is kept: its card is another one exactly if its handle, its name or its validity is. */
  lemma AddedShows(d: ContactData, a: Answer)
    requires Possible(a) && d.name.Some?
    ensures var e := AddedData(d, a);
      SameCard(d, e) <==>
        CONTACT_INVALID in d.flags
        || ((a.handle.Some? ==> a.handle.value == d.handle) && (a.name.Some? ==> a.name.value == NameOf(d)) && !a.verdict.InvalidHandle?)
  {
    var e := AddedData(d, a);
    if CONTACT_INVALID in d.flags {
      assert e == d.(pendingFlags := e.pendingFlags);
      PendingNotShown(d, e.pendingFlags);
    } else {
      AddedFields(d, a);
      if SameCard(d, e) {
        SameCardName(d, e);
        assert SameRest(d, e);
        SameCardHandle(d, e);
      } else if e.name == d.name && e.handle == d.handle && e.flags == d.flags {
        assert e == d.(pendingFlags := e.pendingFlags);
        PendingNotShown(d, e.pendingFlags);
      }
      hide SameCard, AddedData;
    }
  }

  lemma AddedFields(d: ContactData, a: Answer)
    requires Possible(a) && d.name.Some? && CONTACT_INVALID !in d.flags
    ensures var e := AddedData(d, a);
      && e.name.Some? && NameOf(e) == (if a.name.Some? then a.name.value else NameOf(d))
      && e.handle == (if a.handle.Some? then a.handle.value else d.handle)
      && e.flags == (if a.verdict.InvalidHandle? then d.flags + {CONTACT_INVALID} else d.flags)
      && SameRest(d.(name := e.name), e) && e.masterUids == d.masterUids
      && (e.name == d.name ==> e == d.(handle := e.handle, flags := e.flags, pendingFlags := e.pendingFlags))
  {}

  lemma KeptShown(w: World, c: Contact, a: Answer, flushed: bool, removed: bool, w': World)
    requires Possible(a) && Rewritten(w, c, AddedData(At(w, c), a), w') && !Fails(w, c, a) && !Merges(w, c, a)
    requires !Stale(w, c) && (Live(w, c) ==> At(w, c).name.Some?)
    ensures Stale(w', c) <==> Disturbs(w, StepAdd(c, a, flushed, removed), c)
  {
    var d, e := At(w, c), AddedData(At(w, c), a);
    AddedSame(d, a);
    if Live(w, c) {
      AddedShows(d, a);
      if SameCard(d, e) { SameShown(w, c, e, w'); }
      else if Visible(d) { OtherShown(w, c, e, w'); }
      else { HiddenNow(w, c, e, w'); }
    }
    hide SameCard, AddedData, Visible;
  }

  // ---- Merges ----

  /** What a merge tells a view: the destination, then those that wait, and then not the source. */
  function MergedView(v: View, told: View, news: View, gone: string): View {
    v + told + news - {gone}
  }

  lemma MergedViews(views: seq<View>, told: View, news: View, gone: string)
    ensures var after := Forget(Tell(Tell(views, told), news), {gone});
      && (forall v :: v in views ==> MergedView(v, told, news, gone) in after)
      && (forall v' :: v' in after ==> exists v :: v in views && v' == MergedView(v, told, news, gone))
  {
    var after := Forget(Tell(Tell(views, told), news), {gone});
    forall v | v in views ensures MergedView(v, told, news, gone) in after {
      var i :| 0 <= i < |views| && views[i] == v;
      assert after[i] == MergedView(v, told, news, gone);
    }
    forall v' | v' in after ensures exists v :: v in views && v' == MergedView(v, told, news, gone) {
      var i :| 0 <= i < |views| && after[i] == v';
      assert views[i] in views && v' == MergedView(views[i], told, news, gone);
    }
  }

  /** The state of a merge: `r` is `w` with the source renamed, and `w'` is what is left. */
  ghost predicate MergedTo(w: World, r: World, dest: Contact, x: Contact, w': World) {
    var f := Folded(r, dest, x);
    var u := Unlink(f, {x});
    && w'.heap == f.heap && w'.changed == map[] && w'.ready == w.ready && w'.inactive == w.inactive
    && w'.byUid == (w.byUid - {At(w, x).uid})[At(w, dest).uid := dest]
    && w'.views == Forget(Tell(f.views, VisibleOf(u, u.changed)), {At(w, x).uid})
  }

  /** The source, as it is before a merge. */
  predicate Source(w: World, r: World, dest: Contact, x: Contact) {
    && dest != x && Live(w, x) && Live(w, dest)
    && r.heap == w.heap[x := At(r, x)] && At(r, x).uid == At(w, x).uid
    && r.byUid == w.byUid && r.changed == w.changed && r.views == w.views
  }

  /** What is announced of those that wait: all that are visible, as they are. */
  function Waiting(w: World, r: World, dest: Contact, x: Contact): View {
    var u := Unlink(Folded(r, dest, x), {x});
    VisibleOf(u, u.changed)
  }

  lemma WaitingIs(w: World, r: World, dest: Contact, x: Contact)
    requires Source(w, r, dest, x) && ChangedLive(w)
    ensures var news, d := Waiting(w, r, dest, x), MergeData(At(w, dest), At(r, x));
      && news.Keys <= w.changed.Keys - {At(w, x).uid}
      && (forall c :: Live(w, c) && c != x && c != dest && At(w, c).uid in w.changed && Visible(At(w, c)) ==>
            At(w, c).uid in news && news[At(w, c).uid] == At(w, c))
      && (At(w, dest).uid in news ==> news[At(w, dest).uid] == d)
  {
    var f := Folded(r, dest, x);
    var u := Unlink(f, {x});
    FoldedParts(r, dest, x);
    OnlyOne(f, x);
    UnlinkSame(f, {x});
    assert At(r, dest) == At(w, dest);
    assert forall c :: c != x && c != dest ==> At(u, c) == At(w, c);
    hide Folded, Unlink, Visible, MergeData, UidsOf;
  }

  /** A merge in plain terms: `d` is the destination now, and `news` is what was announced. */
  ghost predicate MergedFlat(w: World, dest: Contact, x: Contact, d: ContactData, news: View, w': World) {
    && dest != x && Live(w, x) && Live(w, dest) && d.uid == At(w, dest).uid
    && w'.heap.Keys == w.heap.Keys && (forall c :: c in w.heap && c != x && c != dest ==> w'.heap[c] == w.heap[c])
    && At(w', dest) == d && At(w', x).uid == At(w, x).uid
    && w'.byUid == (w.byUid - {At(w, x).uid})[d.uid := dest] && w'.changed == map[] && w'.ready == w.ready
    && w'.views == Forget(Tell(Tell(w.views, map[d.uid := d]), news), {At(w, x).uid})
    && news.Keys <= w.changed.Keys - {At(w, x).uid}
    && (forall c :: c in w.heap && Live(w, c) && c != x && c != dest && At(w, c).uid in w.changed && Visible(At(w, c)) ==>
          At(w, c).uid in news && news[At(w, c).uid] == At(w, c))
    && (d.uid in news ==> news[d.uid] == d)
  }

  lemma Flatten(w: World, r: World, dest: Contact, x: Contact, w': World)
    requires Source(w, r, dest, x) && ChangedLive(w) && MergedTo(w, r, dest, x, w')
    ensures MergedFlat(w, dest, x, MergeData(At(w, dest), At(r, x)), Waiting(w, r, dest, x), w')
  {
    var f := Folded(r, dest, x);
    FoldedParts(r, dest, x);
    MergeDataKeeps(At(w, dest), At(r, x));
    assert At(r, dest) == At(w, dest);
    WaitingIs(w, r, dest, x);
    assert f.heap == r.heap[dest := MergeData(At(w, dest), At(r, x))];
    hide Folded, Visible, MergeData, Tell, Forget, VisibleOf;
  }

  lemma FlatEntry(w: World, dest: Contact, x: Contact, d: ContactData, news: View, w': World, c: Contact, v: View)
    requires MergedFlat(w, dest, x, d, news, w') && Live(w, c) && c != x && c != dest && ChangedLive(w)
    ensures var v', uc := MergedView(v, map[d.uid := d], news, At(w, x).uid), At(w, c).uid;
      && (uc !in w.changed ==> (uc in v' <==> uc in v) && (uc in v ==> v'[uc] == v[uc]))
      && (uc in w.changed && Visible(At(w, c)) ==> uc in v' && v'[uc] == At(w, c))
  {
    hide Visible, At;
  }

  lemma FlatLive(w: World, dest: Contact, x: Contact, d: ContactData, news: View, w': World, c: Contact)
    requires MergedFlat(w, dest, x, d, news, w') && c != x && c != dest
    ensures At(w', c) == At(w, c) && (Live(w', c) <==> Live(w, c))
    ensures Live(w, c) ==> At(w, c).uid in w'.byUid && w'.byUid[At(w, c).uid] == c
  {
    hide Visible, Tell, Forget;
  }

  /** A view after the merge and the one it was: the same of a contact that does not wait. */
  lemma FlatShows(w: World, dest: Contact, x: Contact, d: ContactData, news: View, w': World, c: Contact, v: View)
    requires MergedFlat(w, dest, x, d, news, w') && Live(w, c) && c != x && c != dest && ChangedLive(w)
    ensures var v' := MergedView(v, map[d.uid := d], news, At(w, x).uid);
      && Live(w', c)
      && (At(w, c).uid !in w.changed ==> (Shows(w', v', At(w, c).uid) <==> Shows(w, v, At(w, c).uid)))
      && (At(w, c).uid in w.changed && Visible(At(w, c)) ==> Shows(w', v', At(w, c).uid))
  {
    FlatEntry(w, dest, x, d, news, w', c, v);
    FlatLive(w, dest, x, d, news, w', c);
    assert Live(w, c) ==> At(w, c).uid in w.byUid && w.byUid[At(w, c).uid] == c;
    hide MergedFlat, MergedView, Visible, At, Live, SameCard;
    assert SameCard(At(w, c), At(w, c)) by { SameAsItself(At(w, c)); }
  }

  lemma SameAsItself(d: ContactData)
    ensures SameCard(d, d)
  {}

  lemma MergedOther(w: World, dest: Contact, x: Contact, d: ContactData, news: View, w': World, c: Contact)
    requires MergedFlat(w, dest, x, d, news, w') && ChangedLive(w) && c != x && c != dest
    ensures Stale(w', c) <==> Stale(w, c)
  {
    var told, gone := map[d.uid := d], At(w, x).uid;
    MergedViews(w.views, told, news, gone);
    FlatLive(w, dest, x, d, news, w', c);
    assert w'.changed == map[] && w'.views == Forget(Tell(Tell(w.views, told), news), {gone});
    if Live(w, c) {
      var uc := At(w, c).uid;
      forall v: View
        ensures uc !in w.changed ==> (Shows(w', MergedView(v, told, news, gone), uc) <==> Shows(w, v, uc))
        ensures uc in w.changed && Visible(At(w, c)) ==> Shows(w', MergedView(v, told, news, gone), uc)
      {
        FlatShows(w, dest, x, d, news, w', c, v);
      }
    }
    hide MergedFlat, MergedView, Visible, At, Live, Shows, ChangedLive, Tell, Forget;
  }

  lemma MergedBlocked(w: World, dest: Contact, x: Contact, d: ContactData, news: View, w': World, c: Contact)
    requires MergedFlat(w, dest, x, d, news, w') && ChangedLive(w) && c != x && c != dest
    requires Live(w, c) && At(w, c).uid !in w.changed && ShownBlocked(w, c)
    ensures ShownBlocked(w', c)
  {
    var told, gone, uc := map[d.uid := d], At(w, x).uid, At(w, c).uid;
    MergedViews(w.views, told, news, gone);
    FlatLive(w, dest, x, d, news, w', c);
    assert w'.views == Forget(Tell(Tell(w.views, told), news), {gone});
    var v: View :| v in w.views && uc in v && CL_DENY in v[uc].flags;
    FlatEntry(w, dest, x, d, news, w', c, v);
    assert MergedView(v, told, news, gone) in w'.views;
    hide MergedFlat, MergedView, Visible, At, Live, Tell, Forget;
  }

  lemma MergedDest(w: World, dest: Contact, x: Contact, d: ContactData, news: View, w': World)
    requires MergedFlat(w, dest, x, d, news, w')
    ensures !Stale(w', dest) && !Stale(w', x)
  {
    var told, gone := map[d.uid := d], At(w, x).uid;
    MergedViews(w.views, told, news, gone);
    assert d.uid != gone;
    forall v' | v' in w'.views ensures d.uid in v' && v'[d.uid] == d {
      var v :| v in w.views && v' == MergedView(v, told, news, gone);
    }
    hide Visible, At, Tell, Forget, MergedView;
  }

  lemma MergedBase(w: World, norm: Norm, dest: Contact, x: Contact, d: ContactData, news: View, w': World)
    requires Base(w, norm) && MergedFlat(w, dest, x, d, news, w') && Inv(w', norm)
    ensures Base(w', norm)
  {
    FlatKeys(w, dest, x, d, news, w');
    assert w'.changed == map[] && w'.ready;
    hide Inv, MergedFlat;
  }

  lemma FlatKeys(w: World, dest: Contact, x: Contact, d: ContactData, news: View, w': World)
    requires ChangedLive(w) && NoGhosts(w) && MergedFlat(w, dest, x, d, news, w')
    ensures NoGhosts(w')
  {
    var told, gone := map[d.uid := d], At(w, x).uid;
    MergedViews(w.views, told, news, gone);
    assert w.changed.Keys <= w.byUid.Keys;
    forall v' | v' in w'.views ensures v'.Keys <= w'.byUid.Keys {
      var v :| v in w.views && v' == MergedView(v, told, news, gone);
      assert v.Keys <= w.byUid.Keys;
      hide Visible, At, Tell, Forget, Live;
    }
  }

  // ---- Additions ----

  lemma AddRewrites(w: World, c: Contact, a: Answer)
    requires Possible(a) && c in w.heap
    ensures Rewritten(w, c, Normalised(At(w, c), a), Put(w, c, Normalised(At(w, c), a)))
    ensures Rewritten(w, c, AddedData(At(w, c), a), DropAdd(Put(w, c, AddedData(At(w, c), a)), At(w, c).uid))
    ensures a.name.Some? ==>
      Rewritten(w, c, AddedData(At(w, c), a),
        DropAdd(Renamed(w, c, a).(byName := Renamed(w, c, a).byName[a.name.value := c]), At(w, c).uid))
  {
    AddedSame(At(w, c), a);
    hide Normalised, AddedData, NameOf;
  }

  lemma SourceIs(w: World, norm: Norm, x: Contact, a: Answer)
    requires Inv(w, norm) && Merges(w, x, a) && CoherentRuns.Waiting(w, x) && Orderly(w, norm, x, a)
    ensures Possible(a) && a.name.Some? && a.name.value in w.byName
    ensures Source(w, Renamed(w, x, a), w.byName[a.name.value], x)
  {
    hide *;
    PhaseRows.MergesParts(w, norm, x, a);
    PhaseRows.RenamedParts(w, x, a);
    SourceWhen(w, Renamed(w, x, a), w.byName[a.name.value], x);
  }

  lemma SourceWhen(w: World, r: World, dest: Contact, x: Contact)
    requires dest != x && Live(w, x) && Live(w, dest)
    requires r.heap == w.heap[x := At(r, x)] && At(r, x).uid == At(w, x).uid
    requires r.byUid == w.byUid && r.changed == w.changed && r.views == w.views
    ensures Source(w, r, dest, x)
  {}

  /** A merge as a step of the phase. */
  lemma MergeStep(w: World, norm: Norm, x: Contact, a: Answer, flushed: bool, removed: bool, w': World, c: Contact)
    requires Base(w, norm) && Inv(w', norm) && Merges(w, x, a) && CoherentRuns.Waiting(w, x) && Orderly(w, norm, x, a)
    requires w' == DropAdd(Merge(Renamed(w, x, a), w.byName[a.name.value], x, flushed, removed), At(w, x).uid)
    ensures Base(w', norm) && ViewsFollow(w, StepAdd(x, a, flushed, removed), c, w')
  {
    hide *;
    BaseParts(w, norm);
    SourceIs(w, norm, x, a);
    var r, dest := Renamed(w, x, a), w.byName[a.name.value];
    PhaseRows.MergesParts(w, norm, x, a);
    PhaseRows.RenamedParts(w, x, a);
    var m := Merge(r, dest, x, flushed, removed);
    MergeIs(r, dest, x, flushed, removed);
    AtOf(w, r, x, dest);
    MergedWhen(w, r, dest, x, m);
    DropMerged(w, r, dest, x, m, At(w, x).uid);
    Flatten(w, r, dest, x, w');
    var d, news := MergeData(At(w, dest), At(r, x)), Waiting(w, r, dest, x);
    MergedBase(w, norm, dest, x, d, news, w');
    SettlesIs(w, x, a, flushed, removed, c);
    if c == x || c == dest {
      MergedDest(w, dest, x, d, news, w');
    } else {
      MergedOther(w, dest, x, d, news, w', c);
      if Stale(w, c) && ShownBlocked(w, c) {
        StaleParts(w, c);
        MergedBlocked(w, dest, x, d, news, w', c);
      }
      MergeDisturbsNobody(w, x, a, flushed, removed, c);
    }
    MergeFollows(w, x, a, flushed, removed, c, w');
  }

  lemma BaseParts(w: World, norm: Norm)
    requires Base(w, norm)
    ensures Inv(w, norm) && ChangedLive(w) && NoGhosts(w)
  {
    hide Inv;
  }

  lemma AtOf(w: World, r: World, x: Contact, dest: Contact)
    requires r.heap == w.heap[x := At(r, x)] && dest != x
    ensures At(r, dest) == At(w, dest)
  {}

  lemma MergedWhen(w: World, r: World, dest: Contact, x: Contact, w': World)
    requires At(r, dest).uid == At(w, dest).uid && At(r, x).uid == At(w, x).uid && r.byUid == w.byUid
    requires var f := Folded(r, dest, x);
      var u := Unlink(f, {x});
      && w'.heap == f.heap && w'.changed == map[] && w'.ready == r.ready && w'.inactive == r.inactive
      && w'.byUid == (r.byUid - {At(r, x).uid})[At(r, dest).uid := dest]
      && w'.views == Forget(Tell(f.views, VisibleOf(u, u.changed)), {At(r, x).uid})
    requires r.ready == w.ready && r.inactive == w.inactive
    ensures MergedTo(w, r, dest, x, w')
  {
    hide Folded, Unlink, At, Tell, Forget, VisibleOf;
  }

  lemma DropMerged(w: World, r: World, dest: Contact, x: Contact, m: World, uid: string)
    requires MergedTo(w, r, dest, x, m)
    ensures MergedTo(w, r, dest, x, DropAdd(m, uid))
  {
    hide Folded, Unlink, At, Tell, Forget, VisibleOf;
  }

  lemma SettlesIs(w: World, x: Contact, a: Answer, flushed: bool, removed: bool, c: Contact)
    ensures Settles(w, StepAdd(x, a, flushed, removed), c) <==> Merges(w, x, a) && (x == c || w.byName[a.name.value] == c)
  {
    hide Merges;
  }

  lemma StaleParts(w: World, c: Contact)
    requires Stale(w, c)
    ensures Live(w, c) && At(w, c).uid !in w.changed
  {}

  lemma MergeDisturbsNobody(w: World, x: Contact, a: Answer, flushed: bool, removed: bool, c: Contact)
    requires Merges(w, x, a) && c != x
    ensures !Disturbs(w, StepAdd(x, a, flushed, removed), c)
  {
    hide Merges, Watched;
  }

  lemma MergeFollows(w: World, x: Contact, a: Answer, flushed: bool, removed: bool, c: Contact, w': World)
    requires Settles(w, StepAdd(x, a, flushed, removed), c) ==> !Stale(w', c)
    requires !Settles(w, StepAdd(x, a, flushed, removed), c) ==>
      && c != x && !Disturbs(w, StepAdd(x, a, flushed, removed), c) && (Stale(w', c) <==> Stale(w, c))
      && (Stale(w, c) && ShownBlocked(w, c) ==> ShownBlocked(w', c))
    ensures ViewsFollow(w, StepAdd(x, a, flushed, removed), c, w')
  {
    hide Settles, Stale, Disturbs, ShownBlocked;
  }

  /** An addition that leaves the contact apart, seen from that contact. */
  lemma AddedFollows(w: World, norm: Norm, x: Contact, a: Answer, flushed: bool, removed: bool, e: ContactData, w': World)
    requires Base(w, norm) && Orderly(w, norm, x, a) && !Merges(w, x, a) && Rewritten(w, x, e, w')
    requires if Fails(w, x, a) then e == Normalised(At(w, x), a) else e == AddedData(At(w, x), a)
    ensures ViewsFollow(w, StepAdd(x, a, flushed, removed), x, w')
  {
    PossibleIs(w, norm, x, a);
    BaseParts(w, norm);
    AddedSame(At(w, x), a);
    SettlesIs(w, x, a, flushed, removed, x);
    if Live(w, x) { PhaseRows.LiveNamed(w, norm, x); }
    hide Base, Merges, Fails, Normalised, AddedData, Visible, Settles, Rewritten, Live, Orderly;
    if !Stale(w, x) {
      if Fails(w, x, a) { FailedShown(w, norm, x, a, flushed, removed, w'); }
      else { KeptShown(w, x, a, flushed, removed, w'); }
    } else if ShownBlocked(w, x) {
      StaleVisible(w, x);
      BlockedStaysStale(w, x, e, w');
    }
    hide Stale, ShownBlocked, Disturbs, At;
  }

  lemma StaleVisible(w: World, c: Contact)
    requires Stale(w, c)
    ensures Visible(At(w, c))
  {
    hide Visible;
  }

  lemma PossibleIs(w: World, norm: Norm, x: Contact, a: Answer)
    requires Orderly(w, norm, x, a)
    ensures Possible(a)
  {}

  lemma AddFollows(b: Batch, norm: Norm, x: Contact, a: Answer, flushed: bool, removed: bool, c: Contact)
    requires Base(b.world, norm) && CoherentRuns.Waiting(b.world, x) && Orderly(b.world, norm, x, a) && x in b.world.heap
    requires Inv(SyncAdd(b, x, a, flushed, removed).world, norm)
    ensures var w' := SyncAdd(b, x, a, flushed, removed).world;
      Base(w', norm) && ViewsFollow(b.world, StepAdd(x, a, flushed, removed), c, w')
  {
    hide *;
    var w, w' := b.world, SyncAdd(b, x, a, flushed, removed).world;
    PossibleIs(w, norm, x, a);
    AddIs(b, x, a, flushed, removed);
    OneOutcome(w, x, a);
    if Merges(w, x, a) {
      MergeStep(w, norm, x, a, flushed, removed, w', c);
    } else {
      AddRewrites(w, x, a);
      var e := if Fails(w, x, a) then Normalised(At(w, x), a) else AddedData(At(w, x), a);
      RewrittenBase(w, norm, x, e, w');
      if c == x {
        AddedFollows(w, norm, x, a, flushed, removed, e, w');
      } else {
        SettlesIs(w, x, a, flushed, removed, c);
        FollowsElsewhere(w, StepAdd(x, a, flushed, removed), e, w', c);
      }
    }
  }

  /** One step of the phase, and what is shown of a contact. */
  lemma StepFollows(b: Batch, norm: Norm, s: SyncStep, c: Contact)
    requires Base(b.world, norm) && StepAllowed(b.world, norm, s) && s.c in b.world.heap
    ensures var w' := SyncOne(b, s).world; Base(w', norm) && ViewsFollow(b.world, s, c, w')
  {
    BaseParts(b.world, norm);
    SyncOneKeeps(b, norm, s);
    hide Base, Inv, ViewsFollow, Orderly, CoherentRuns.Waiting, SyncUpdate, SyncAdd, SyncDelete;
    match s {
      case StepUpdate(x, unblocked) =>
        UpdateFollows(b, x, unblocked, c);
        UpdateBase(b, norm, x, unblocked);
      case StepAdd(x, a, flushed, removed) => AddFollows(b, norm, x, a, flushed, removed, c);
      case StepDelete(x, removed) =>
        DeleteFollows(b, x, removed, c);
        DeleteBase(b, norm, x, removed);
    }
  }

  lemma UpdateBase(b: Batch, norm: Norm, x: Contact, unblocked: bool)
    requires Base(b.world, norm) && x in b.world.heap && Inv(SyncUpdate(b, x, unblocked).world, norm)
    ensures Base(SyncUpdate(b, x, unblocked).world, norm)
  {
    var w, e := b.world, RunUpdate(At(b.world, x), unblocked);
    UpdatedData(At(w, x), unblocked);
    if NeedsUpdate(At(w, x)) {
      assert Rewritten(w, x, e, SyncUpdate(b, x, unblocked).world);
      hide Base, Inv, Rewritten, SyncUpdate, RunUpdate, At;
      RewrittenBase(w, norm, x, e, SyncUpdate(b, x, unblocked).world);
    }
  }

  lemma DeleteBase(b: Batch, norm: Norm, x: Contact, removed: bool)
    requires Base(b.world, norm) && x in b.world.heap && Inv(SyncDelete(b, x, removed).world, norm)
    ensures Base(SyncDelete(b, x, removed).world, norm)
  {
    var w, d := b.world, At(b.world, x);
    var e := d.(pendingFlags := d.pendingFlags - {SCHEDULE_DELETE});
    if removed {
      assert Rewritten(w, x, e, SyncDelete(b, x, removed).world);
      hide Base, Inv, Rewritten, SyncDelete, At;
      RewrittenBase(w, norm, x, e, SyncDelete(b, x, removed).world);
    }
  }

  // ---- The steps of a phase ----

  predicate StepsKnown(w: World, steps: seq<SyncStep>) {
    forall s :: s in steps ==> s.c in w.heap
  }

  /** What is stale of the contact when a sequence of steps starts came from a step of an earlier turn. */
  predicate Firm(w: World, steps: seq<SyncStep>, c: Contact) {
    && (forall s :: s in steps && s.c == c ==> !s.StepUpdate?)
    && (ShownBlocked(w, c) || forall s :: s in steps && s.c == c ==> !s.StepAdd?)
  }

  lemma RestInTurn(steps: seq<SyncStep>)
    requires steps != [] && InTurn(steps)
    ensures InTurn(steps[1..])
    ensures forall s :: s in steps[1..] && s.c == steps[0].c ==> Turn(steps[0]) < Turn(s)
  {
    forall s | s in steps[1..] && s.c == steps[0].c ensures Turn(steps[0]) < Turn(s) {
      var i :| 0 <= i < |steps[1..]| && steps[1..][i] == s;
      assert steps[i + 1] == s;
    }
  }

  lemma StepKnown(b: Batch, norm: Norm, steps: seq<SyncStep>)
    requires steps != [] && Inv(b.world, norm) && StepAllowed(b.world, norm, steps[0]) && StepsKnown(b.world, steps)
    ensures SyncOne(b, steps[0]).world.heap.Keys == b.world.heap.Keys
    ensures StepsKnown(SyncOne(b, steps[0]).world, steps[1..])
  {
    var s := steps[0];
    assert s in steps;
    match s {
      case StepUpdate(x, unblocked) => hide At, NeedsUpdate, RunUpdate, Inv;
      case StepDelete(x, removed) => hide At, Inv;
      case StepAdd(x, a, flushed, removed) =>
        hide Inv, Orderly, CoherentRuns.Waiting, SyncAdd;
        AddKnown(b, norm, x, a, flushed, removed);
    }
  }

  lemma AddKnown(b: Batch, norm: Norm, x: Contact, a: Answer, flushed: bool, removed: bool)
    requires Inv(b.world, norm) && CoherentRuns.Waiting(b.world, x) && Orderly(b.world, norm, x, a) && x in b.world.heap
    ensures SyncAdd(b, x, a, flushed, removed).world.heap.Keys == b.world.heap.Keys
  {
    hide *;
    var w, w' := b.world, SyncAdd(b, x, a, flushed, removed).world;
    PossibleIs(w, norm, x, a);
    AddIs(b, x, a, flushed, removed);
    OneOutcome(w, x, a);
    if Merges(w, x, a) {
      PhaseRows.MergesParts(w, norm, x, a);
      PhaseRows.RenamedParts(w, x, a);
      LiveKnown(w, w.byName[a.name.value]);
      MergeIs(Renamed(w, x, a), w.byName[a.name.value], x, flushed, removed);
      FoldedParts(Renamed(w, x, a), w.byName[a.name.value], x);
      DropHeap(Merge(Renamed(w, x, a), w.byName[a.name.value], x, flushed, removed), At(w, x).uid);
    } else {
      AddRewrites(w, x, a);
      RewrittenKeys(w, x, Normalised(At(w, x), a), w');
      RewrittenKeys(w, x, AddedData(At(w, x), a), w');
    }
  }

  lemma LiveKnown(w: World, c: Contact)
    requires Live(w, c)
    ensures c in w.heap
  {}

  lemma DropHeap(w: World, uid: string)
    ensures DropAdd(w, uid).heap == w.heap
  {}

  lemma RewrittenKeys(w: World, x: Contact, e: ContactData, w': World)
    ensures Rewritten(w, x, e, w') ==> w'.heap.Keys == w.heap.Keys
  {}

  /** After a step: if something is stale of the contact, it came from a step of an earlier turn. */
  lemma StillFirm(w: World, steps: seq<SyncStep>, c: Contact, w': World)
    requires steps != [] && InTurn(steps) && ViewsFollow(w, steps[0], c, w') && Stale(w', c)
    requires Stale(w, c) ==> Firm(w, steps, c)
    ensures Firm(w', steps[1..], c)
  {
    var s := steps[0];
    RestInTurn(steps);
    assert s in steps && forall t :: t in steps[1..] ==> t in steps;
    hide Stale, Disturbs, Settles, ShownBlocked, InTurn;
    assert !Stale(w, c) ==> s.c == c by { OnlyItsOwn(w, s, c); }
    if s.c == c {
      forall t | t in steps[1..] && t.c == c ensures !t.StepUpdate? { assert Turn(s) < Turn(t); }
      if !s.StepUpdate? {
        forall t | t in steps[1..] && t.c == c ensures !t.StepAdd? { assert Turn(s) < Turn(t); }
      }
    }
  }

  lemma OnlyItsOwn(w: World, s: SyncStep, c: Contact)
    ensures Disturbs(w, s, c) ==> s.c == c
  {
    hide Watched, Stale, Shows;
  }

  lemma NotBoth(w: World, s: SyncStep, c: Contact)
    requires Settles(w, s, c)
    ensures !Disturbs(w, s, c)
  {
    hide Merges, Watched, Shows;
  }

  lemma StaysStale(w: World, steps: seq<SyncStep>, c: Contact, w': World)
    requires steps != [] && ViewsFollow(w, steps[0], c, w') && Stale(w, c) && Firm(w, steps, c)
    ensures Stale(w', c) <==> !Settles(w, steps[0], c)
  {
    assert steps[0] in steps;
    hide Stale, Disturbs, Settles, ShownBlocked;
  }

  lemma BecomesStale(w: World, s: SyncStep, c: Contact, w': World)
    requires ViewsFollow(w, s, c, w') && !Stale(w, c)
    ensures Stale(w', c) <==> Disturbs(w, s, c)
  {
    if Settles(w, s, c) { NotBoth(w, s, c); }
    hide Stale, Disturbs, Settles, ShownBlocked;
  }

  /** What the steps leave stale: what was before and was not settled, and what they disturbed. */
  lemma {:induction false} StepsFollow(b: Batch, norm: Norm, steps: seq<SyncStep>, c: Contact)
    requires Base(b.world, norm) && StepsAllowed(b, norm, steps) && StepsKnown(b.world, steps) && InTurn(steps)
    requires Stale(b.world, c) ==> Firm(b.world, steps, c)
    ensures var w' := SyncAll(b, steps).world;
      && Base(w', norm)
      && (Stale(w', c) <==> (Stale(b.world, c) && !SettledLater(b, steps, c)) || LeftStale(b, steps, c))
    decreases |steps|
  {
    if steps != [] {
      var s, w, b' := steps[0], b.world, SyncOne(b, steps[0]);
      assert s in steps;
      BaseParts(w, norm);
      StepFollows(b, norm, s, c);
      StepKnown(b, norm, steps);
      RestInTurn(steps);
      if Stale(b'.world, c) { StillFirm(w, steps, c, b'.world); }
      if Stale(w, c) { StaysStale(w, steps, c, b'.world); } else { BecomesStale(w, s, c, b'.world); }
      if Settles(w, s, c) { NotBoth(w, s, c); }
      hide Base, Inv, ViewsFollow, Stale, Disturbs, Settles, ShownBlocked, Firm, StepAllowed, SyncOne, InTurn, StepsKnown;
      StepsFollow(b', norm, steps[1..], c);
    }
  }

  lemma StaleSame(w: World, w': World, c: Contact)
    requires w'.heap == w.heap && w'.byUid == w.byUid && w'.changed == w.changed && w'.views == w.views
    ensures Stale(w', c) <==> Stale(w, c)
  {
    SameData(w, w');
    hide At, Visible, SameCard;
    assert Live(w', c) <==> Live(w, c);
    if Live(w, c) {
      assert forall v :: Shows(w', v, At(w, c).uid) <==> Shows(w, v, At(w, c).uid);
      hide Shows, Live;
    }
  }

  lemma OnlyDbChanges(w: World, contacts: seq<Contact>, stored: bool)
    ensures var w' := StoreChanged(w, contacts, stored);
      && SameIndexes(w, w') && w'.heap == w.heap && w'.byUid == w.byUid && w'.changed == w.changed && w'.views == w.views
      && w'.ready == w.ready && w'.idle == w.idle && w'.inactive == w.inactive
  {
    hide Commit, UpdateAll, DataAt;
  }

  lemma StoredBase(w: World, norm: Norm, contacts: seq<Contact>, stored: bool)
    requires Base(w, norm)
    ensures var w' := StoreChanged(w, contacts, stored); Base(w', norm) && forall c :: Stale(w', c) <==> Stale(w, c)
  {
    var w' := StoreChanged(w, contacts, stored);
    OnlyDbChanges(w, contacts, stored);
    OnlyIndexesMatter(w, w', norm);
    hide Inv, SameIndexes, StoreChanged, Stale;
    forall c ensures Stale(w', c) <==> Stale(w, c) { StaleSame(w, w', c); }
  }

  /** Exactly when phase 3 keeps the views up to date: when every contact that a step leaves with
      another vCard, or makes visible, is merged by a later step. */
  lemma Phase3CurrentIff(w: World, norm: Norm, steps: seq<SyncStep>, stored: bool)
    requires UpToDate(w, norm) && StepsAllowed(Batch(w, []), norm, steps) && StepsKnown(w, steps) && InTurn(steps)
    ensures UpToDate(Phase3(w, steps, stored), norm) <==>
      forall c :: c in w.heap ==> !LeftStale(Batch(w, []), steps, c)
  {
    var b := Batch(w, []);
    var b' := SyncAll(b, steps);
    assert Base(w, norm);
    NoneStale(w, norm);
    StoredAfter(w, steps, stored);
    hide *;
    StepsBase(b, norm, steps);
    forall c | c in w.heap ensures Stale(b'.world, c) <==> LeftStale(b, steps, c) {
      StepsFollow(b, norm, steps, c);
    }
    StoredBase(b'.world, norm, b'.contacts, stored);
    NoneStale(StoreChanged(b'.world, b'.contacts, stored), norm);
    StoredHeap(b'.world, b'.contacts, stored);
  }

  lemma {:induction false} StepsBase(b: Batch, norm: Norm, steps: seq<SyncStep>)
    requires Base(b.world, norm) && StepsAllowed(b, norm, steps) && StepsKnown(b.world, steps)
    ensures var w' := SyncAll(b, steps).world; Base(w', norm) && w'.heap.Keys == b.world.heap.Keys
    decreases |steps|
  {
    if steps != [] {
      assert steps[0] in steps;
      BaseParts(b.world, norm);
      StepFollows(b, norm, steps[0], steps[0].c);
      StepKnown(b, norm, steps);
      hide Base, Inv, ViewsFollow, StepAllowed, SyncOne, StepsKnown;
      StepsBase(SyncOne(b, steps[0]), norm, steps[1..]);
    }
  }

  lemma StoredHeap(w: World, contacts: seq<Contact>, stored: bool)
    ensures StoreChanged(w, contacts, stored).heap == w.heap
  {
    hide Commit, UpdateAll, DataAt;
  }

  lemma StoredAfter(w: World, steps: seq<SyncStep>, stored: bool)
    ensures var b := SyncAll(Batch(w, []), steps); Phase3(w, steps, stored) == StoreChanged(b.world, b.contacts, stored)
  {
    hide SyncAll, StoreChanged;
  }

  /** An unblocking that fails is enough: the contact is taken for unblocked, and views that show it as
      blocked are not told. */
  lemma FailedUnblockIsNotShown(w: World, norm: Norm, c: Contact, stored: bool)
    requires UpToDate(w, norm) && Watched(w, c) && c in w.heap
    requires var d := At(w, c);
      SCHEDULE_UNBLOCK in d.pendingFlags && CL_DENY in d.flags && d.flags * ALL_LIST_FLAGS != {CL_PUBLISH, CL_DENY}
    ensures !UpToDate(Phase3(w, [StepUpdate(c, false)], stored), norm)
  {
    hide *;
    var s := StepUpdate(c, false);
    FailedUnblockDisturbs(w, c);
    OneStepStale(Batch(w, []), s, c);
    OneUpdateAllowed(w, norm, c, false);
    Phase3CurrentIff(w, norm, [s], stored);
  }

  lemma FailedUnblockDisturbs(w: World, c: Contact)
    requires Watched(w, c)
    requires var d := At(w, c);
      SCHEDULE_UNBLOCK in d.pendingFlags && CL_DENY in d.flags && d.flags * ALL_LIST_FLAGS != {CL_PUBLISH, CL_DENY}
    ensures Disturbs(w, StepUpdate(c, false), c)
  {}

  lemma OneStepStale(b: Batch, s: SyncStep, c: Contact)
    requires Disturbs(b.world, s, c)
    ensures LeftStale(b, [s], c)
  {
    assert [s][1..] == [] && !SettledLater(SyncOne(b, s), [], c);
    hide SyncOne, Disturbs, Settles;
  }

  lemma OneUpdateAllowed(w: World, norm: Norm, c: Contact, unblocked: bool)
    requires c in w.heap
    ensures var steps := [StepUpdate(c, unblocked)];
      StepsAllowed(Batch(w, []), norm, steps) && StepsKnown(w, steps) && InTurn(steps)
  {
    var s := StepUpdate(c, unblocked);
    hide SyncOne;
    assert [s][1..] == [] && StepsAllowed(SyncOne(Batch(w, []), s), norm, []);
  }
}
