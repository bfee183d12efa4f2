/** Creations, removal requests and the book views: which of them leave a contact that views do not show
    as it is. */
module RequestViews {
  import opened Text
  import opened Flags
  import opened ContactValues
  import opened Contacts
  import opened VCards
  import opened MasterProtocol
  import opened Store
  import opened StoreBatches
  import opened Uids
  import opened Worlds
  import opened Coherence
  import opened CoherentRuns
  import opened CoherentRequests
  import opened Runs
  import opened Views
  import opened RosterViews
  import opened SameCards
  import opened PhaseViews
  import PhaseSteps
  import Soundness

  // ---- Writing and announcing one contact ----

  lemma AnnounceForm(w: World, c: Contact)
    ensures var w', d := Announce(w, c), At(w, c);
      && SameIndexes(w, w') && w'.changed == w.changed && w'.ready == w.ready && w'.idle == w.idle && w'.inactive == w.inactive
      && w'.views == Tell(w.views, map[d.uid := d])
  {
    hide Tell, At;
  }

  /** One view after a contact was announced. */
  lemma OneViewAnnounced(w: World, v: View, c: Contact, w': World)
    requires Live(w, c) && ViewCurrent(w, v, {At(w, c).uid}) && v.Keys <= w.byUid.Keys
    requires w'.heap == w.heap && w'.byUid == w.byUid && w'.changed == w.changed
    ensures var v' := v + map[At(w, c).uid := At(w, c)]; ViewCurrent(w', v', {}) && v'.Keys <= w'.byUid.Keys
  {
    SameData(w, w');
    var d := At(w, c);
    var v' := v + map[d.uid := d];
    hide Visible, At, SameCard, Shows;
    forall u | u in w'.byUid && u !in w'.changed && Visible(At(w', w'.byUid[u])) ensures Shows(w', v', u) {
      if u == d.uid { ShowsItself(w', v', u); } else { ShowsSame(w, v, w', v', u); }
    }
  }

  lemma ShowsSame(w: World, v: View, w': World, v': View, u: string)
    requires u in w.byUid && Shows(w, v, u) && w'.heap == w.heap && w'.byUid == w.byUid && u in v' && (u in v ==> v'[u] == v[u])
    ensures Shows(w', v', u)
  {
    hide SameCard;
  }

  lemma AnnounceCurrent(w: World, c: Contact)
    requires Live(w, c) && AllCurrent(w, {At(w, c).uid}) && NoGhosts(w)
    ensures AllCurrent(Announce(w, c), {}) && NoGhosts(Announce(w, c))
  {
    var w', d := Announce(w, c), At(w, c);
    AnnounceForm(w, c);
    SameIndexesParts(w, w');
    hide Announce, ViewCurrent, SameIndexes, Live, At;
    forall v' | v' in w'.views ensures ViewCurrent(w', v', {}) && v'.Keys <= w'.byUid.Keys {
      var i :| 0 <= i < |w.views| && v' == w.views[i] + map[d.uid := d];
      assert w.views[i] in w.views;
      OneViewAnnounced(w, w.views[i], c, w');
    }
  }

  /** Nobody else has changed. */
  lemma WrittenTouched(w: World, norm: Norm, c: Contact, e: ContactData, w1: World)
    requires Inv(w, norm) && Live(w, c) && e.uid == At(w, c).uid
    requires w1.heap == w.heap[c := e] && w1.byUid == w.byUid && w1.views == w.views && w1.changed == w.changed
    ensures Touched(w, w1, e.uid) && Live(w1, c) && At(w1, c) == e
  {
    forall u | u in w.byUid && w.byUid[u] == c ensures u == e.uid { assert UidEntry(w, u, c); }
    hide HandlesLive, AddsSettled, Coherent;
  }

  lemma LessWaits(w: World, uid: string, also: set<string>)
    requires ChangedLive(w) && AllCurrent(w, also + {uid}) && NoGhosts(w)
    ensures var w' := w.(changed := w.changed - {uid});
      ChangedLive(w') && AllCurrent(w', also + {uid}) && NoGhosts(w') && SameIndexes(w, w') && w'.ready == w.ready
  {
    var w' := w.(changed := w.changed - {uid});
    SameData(w, w');
    forall v | v in w'.views ensures ViewCurrent(w', v, also + {uid}) {
      assert ViewCurrent(w, v, also + {uid});
      hide Shows, Visible, At;
    }
    hide At;
  }

  /** `notify_updated_contact`, when only that contact may be out of date. */
  lemma NotifyUpdatedCurrent(w: World, norm: Norm, c: Contact)
    requires Inv(w, norm) && ChangedLive(w) && AllCurrent(w, {At(w, c).uid}) && NoGhosts(w) && Promised(w) && w.ready
    requires Live(w, c) && Inv(NotifyUpdated(w, c), norm)
    ensures UpToDate(NotifyUpdated(w, c), norm)
  {
    hide *;
    var uid := At(w, c).uid;
    var q := w.(changed := w.changed - {uid});
    NotifyUpdatedForm(w, c);
    if w.views == [] {
      NoViews(w);
      UpToDateWhen(w, norm);
    } else {
      assert {} + {uid} == {uid};
      LessWaits(w, uid, {});
      NotifyParts(q);
      NotifyBut(q, {uid});
      SameIndexesParts(w, q);
      SameIndexesParts(q, Notify(q));
      StillHere(w, Notify(q), c);
      AnnounceCurrent(Notify(q), c);
      AnnounceForm(Notify(q), c);
      NothingWaits(Announce(Notify(q), c));
      UpToDateWhen(Announce(Notify(q), c), norm);
    }
  }

  lemma NotifyUpdatedForm(w: World, c: Contact)
    ensures NotifyUpdated(w, c) ==
      if w.views == [] then w else Announce(Notify(w.(changed := w.changed - {At(w, c).uid})), c)
  {
    hide Announce, Notify, At;
  }

  lemma NoViews(w: World)
    requires w.views == []
    ensures AllCurrent(w, {}) && NoGhosts(w)
  {}

  lemma StillHere(w: World, w': World, c: Contact)
    requires Live(w, c) && w'.heap == w.heap && w'.byUid == w.byUid
    ensures Live(w', c) && At(w', c) == At(w, c)
  {}

  lemma TouchedStays(w: World, w1: World, u: string)
    requires Touched(w, w1, u) && ChangedLive(w)
    ensures ChangedLive(w1)
  {
    TouchedLive(w, w1, u);
    hide Touched;
  }

  /** A contact that is written to its row is announced. */
  lemma WrittenAnnounced(w: World, norm: Norm, c: Contact, e: ContactData, db: Tables)
    requires UpToDate(w, norm) && Live(w, c) && e.uid == At(w, c).uid
    requires var w1 := Soundness.WithDb(Put(w, c, e), db); Inv(w1, norm) && Inv(NotifyUpdated(w1, c), norm)
    ensures UpToDate(NotifyUpdated(Soundness.WithDb(Put(w, c, e), db), c), norm)
  {
    hide *;
    var p := Put(w, c, e);
    var w1 := Soundness.WithDb(p, db);
    UpToDateParts(w, norm);
    Soundness.PutParts(w, c, e);
    Soundness.WithDbParts(p, db);
    WrittenTouched(w, norm, c, e, w1);
    TouchedCurrent(w, w1, e.uid, {});
    assert {} + {e.uid} == {e.uid};
    TouchedStays(w, w1, e.uid);
    StillPromised(w, w1);
    NotifyUpdatedCurrent(w1, norm, c);
  }

  // ---- Creations ----

  lemma AbsorbedIdle(d: ContactData, news: ContactData)
    requires !NeedsUpdate(Absorbed(d, news))
    ensures Absorbed(d, news) == d
  {
    AddMastersIsUnion(d.masterUids, news.masterUids);
    assert news.variants == {} ==> d.variants + news.variants == d.variants;
    hide AddMasters;
  }

  lemma PutSame(w: World, c: Contact)
    requires c in w.heap
    ensures Put(w, c, At(w, c)) == w
  {
    assert w.heap[c := w.heap[c]] == w.heap;
  }

  lemma LiveKnown(w: World, c: Contact)
    requires Live(w, c)
    ensures c in w.heap
  {}

  /** A duplicate: whatever it brings is announced. */
  lemma ExistingCurrent(w: World, norm: Norm, c: Contact, news: ContactData, o: CreateAnswers)
    requires UpToDate(w, norm) && Live(w, c)
    ensures UpToDate(CreateExisting(w, c, news, o), norm)
  {
    hide *;
    var d := Absorbed(At(w, c), news);
    var d' := RunUpdate(d, o.unblocked);
    UpToDateParts(w, norm);
    CreateExistingKeeps(w, norm, c, news, o);
    Soundness.CreateExistingIs(w, c, news, o);
    if !NeedsUpdate(d) {
      AbsorbedIdle(At(w, c), news);
      LiveKnown(w, c);
      PutSame(w, c);
    } else {
      var db := Commit(w.db, RealUpdate(w.db, d'), o.stored);
      var w1 := Soundness.WithDb(Put(w, c, d'), db);
      Soundness.AbsorbedUid(At(w, c), news, o.unblocked);
      NotifyUpdatedTouches(w1, c);
      KeepsBack(w1, NotifyUpdated(w1, c), norm);
      WrittenAnnounced(w, norm, c, d', db);
    }
  }

  lemma KeepsBack(w: World, w': World, norm: Norm)
    requires SameIndexes(w, w') && Inv(w', norm)
    ensures Inv(w, norm)
  {
    OnlyIndexesMatter(w', w, norm);
    hide Inv;
  }

  /** Nobody has the name of the contact yet. */
  lemma NewShape(w: World, id: Contact, d: ContactData, stored: bool)
    ensures var w' := CreateNew(w, id, d, stored).0;
      && w'.heap == w.heap[id := d] && w'.byUid == w.byUid[d.uid := id]
      && w'.views == w.views && w'.changed == w.changed && w'.idle == w.idle && w'.inactive == w.inactive && w'.ready == w.ready
  {
    hide *;
    var byName := w.byName[NameOf(d) := id];
    var known := Soundness.Entered(w, id, d, byName, w.byHandle);
    Soundness.CreateNewIs(w, id, d, stored);
    Soundness.EnteredParts(w, id, d, byName, w.byHandle);
    Soundness.RequeuedParts(known, known.byName, known.toAdd[d.uid := id], known.toDelete);
    Soundness.WithDbParts(Soundness.Requeued(known, known.byName, known.toAdd[d.uid := id], known.toDelete),
                          Commit(w.db, RealAdd(w.db, d), stored));
  }

  /** A new contact is in no view, and nobody announces it. */
  lemma NewCurrentIff(w: World, norm: Norm, id: Contact, d: ContactData, stored: bool)
    requires UpToDate(w, norm) && id !in w.heap && d.uid !in w.byUid && Visible(d)
    requires Inv(CreateNew(w, id, d, stored).0, norm)
    ensures UpToDate(CreateNew(w, id, d, stored).0, norm) <==> w.views == []
  {
    hide *;
    var w' := CreateNew(w, id, d, stored).0;
    UpToDateParts(w, norm);
    NewShape(w, id, d, stored);
    if w.views == [] {
      NoViews(w');
      NewWaits(w, id, d, w');
      StillPromised(w, w');
      UpToDateWhen(w', norm);
    } else {
      NewMissing(w, id, d, w');
      if UpToDate(w', norm) { UpToDateParts(w', norm); }
    }
  }

  lemma NewWaits(w: World, id: Contact, d: ContactData, w': World)
    requires ChangedLive(w) && d.uid !in w.byUid && w'.byUid == w.byUid[d.uid := id] && w'.changed == w.changed
    ensures ChangedLive(w')
  {}

  lemma NewMissing(w: World, id: Contact, d: ContactData, w': World)
    requires ChangedLive(w) && NoGhosts(w) && w.views != [] && d.uid !in w.byUid && Visible(d)
    requires w'.heap == w.heap[id := d] && w'.byUid == w.byUid[d.uid := id] && w'.changed == w.changed && w'.views == w.views
    ensures !AllCurrent(w', {})
  {
    var v := w.views[0];
    assert v in w'.views && d.uid !in v;
    assert At(w', w'.byUid[d.uid]) == d && d.uid !in w'.changed;
    hide Visible, SameCard;
    assert !Shows(w', v, d.uid) && !ViewCurrent(w', v, {});
  }

  lemma FlushCurrent(w: World, norm: Norm, flushed: bool)
    requires UpToDate(w, norm)
    ensures UpToDate(Flush(w, flushed), norm)
  {
    hide *;
    var w' := Flush(w, flushed);
    UpToDateParts(w, norm);
    FlushViews(w, flushed);
    SameViewsParts(w, w');
    SameViewsIndexes(w, w');
    SameViewsCurrent(w, w', {});
    OnlyIndexesMatter(w, w', norm);
    StillPromised(w, w');
    UpToDateWhen(w', norm);
  }

  lemma FlushViews(w: World, flushed: bool)
    ensures var w' := Flush(w, flushed); SameViews(w, w') && w'.idle == w.idle && w'.inactive == w.inactive
  {
    hide Commit, Values;
  }

  lemma SameViewsIndexes(w: World, w': World)
    requires SameViews(w, w')
    ensures SameIndexes(w, w')
  {
    hide SameIndexes;
  }

  /** What a creation makes of a vCard: the contact, and whether it goes on. */
  function Created(w: World, setup: Setup, card: Card, online: bool, o: CreateAnswers): (ContactData, bool) {
    var (d, named) := UpdateFromEContact(NEW_CONTACT, card, setup.vcardField);
    var s := Submitted(Flush(w, o.flushed), setup.path, d);
    var (d', added) := if online then RunAdd(s, o.add) else (s, true);
    (d', named && added)
  }

  /** The creation enters a new contact: the vCard has a name, the server did not fail, and nobody has
      the name. */
  predicate EntersNew(w: World, setup: Setup, card: Card, online: bool, o: CreateAnswers) {
    Created(w, setup, card, online, o).1 && NameOf(Created(w, setup, card, online, o).0) !in w.byName
  }

  lemma {:induction false} ReadPending(r: Reading, card: Card, vcardField: string)
    requires SCHEDULE_DELETE !in r.d.pendingFlags && r.d.flags == {}
    ensures var d := ReadAttributes(r, card, vcardField).d; SCHEDULE_DELETE !in d.pendingFlags && d.flags == {}
    decreases |card|
  {
    if card != [] {
      ReadPending(ReadAttribute(r, card[0], vcardField), card[1..], vcardField);
    }
  }

  lemma CreatedVisible(w: World, setup: Setup, card: Card, online: bool, o: CreateAnswers)
    requires Possible(o.add)
    ensures var d' := Created(w, setup, card, online, o).0;
      && Visible(d') && d'.uid !in w.byUid && CONTACT_UNSEEN !in d'.flags
      && (Created(w, setup, card, online, o).1 ==> d'.name.Some?)
  {
    hide *;
    var w' := Flush(w, o.flushed);
    var (d, named) := UpdateFromEContact(NEW_CONTACT, card, setup.vcardField);
    PlainCard(card, setup.vcardField);
    SubmittedVisible(w', setup.path, d);
    FlushKeys(w, o.flushed);
    AddedVisible(Submitted(w', setup.path, d), o.add);
    CreatedIs(w, setup, card, online, o);
  }

  lemma PlainCard(card: Card, vcardField: string)
    ensures var (d, named) := UpdateFromEContact(NEW_CONTACT, card, vcardField);
      SCHEDULE_DELETE !in d.pendingFlags && d.flags == {} && (named ==> d.name.Some?)
  {
    ReadPending(Reading(NEW_CONTACT.(pendingFlags := NEW_CONTACT.flags), []), card, vcardField);
    hide ReadAttributes;
  }

  lemma CreatedIs(w: World, setup: Setup, card: Card, online: bool, o: CreateAnswers)
    ensures var r := UpdateFromEContact(NEW_CONTACT, card, setup.vcardField);
      var s := Submitted(Flush(w, o.flushed), setup.path, r.0);
      Created(w, setup, card, online, o) == if online then (RunAdd(s, o.add).0, r.1 && RunAdd(s, o.add).1) else (s, r.1)
  {
    hide UpdateFromEContact, Submitted, Flush, RunAdd;
  }

  lemma FlushKeys(w: World, flushed: bool)
    ensures Flush(w, flushed).byUid == w.byUid && Flush(w, flushed).byName == w.byName && Flush(w, flushed).heap == w.heap
  {
    hide Commit, Values;
  }

  lemma SubmittedVisible(w: World, path: string, d: ContactData)
    requires SCHEDULE_DELETE !in d.pendingFlags && d.flags == {}
    ensures var s := Submitted(w, path, d);
      && SCHEDULE_DELETE !in s.pendingFlags && s.flags == {} && s.uid !in w.byUid && s.name == d.name
  {
    hide FreshUid;
  }

  lemma AddedVisible(s: ContactData, a: Answer)
    requires Possible(a) && SCHEDULE_DELETE !in s.pendingFlags && s.flags == {}
    ensures Visible(s)
    ensures var (d', added) := RunAdd(s, a);
      && Visible(d') && d'.uid == s.uid && CONTACT_UNSEEN !in d'.flags && (s.name.Some? ==> d'.name.Some?)
  {
    assert {CONTACT_INVALID} * ALL_LIST_FLAGS == {};
  }

  lemma CreateForm(w: World, setup: Setup, card: Card, id: Contact, online: bool, o: CreateAnswers)
    ensures var w', c := Flush(w, o.flushed), Created(w, setup, card, online, o);
      Create(w, setup.path, setup.vcardField, card, id, online, o).0 ==
        if !c.1 then w'
        else if NameOf(c.0) in w'.byName then CreateExisting(w', w'.byName[NameOf(c.0)], c.0, o)
        else CreateNew(w', id, c.0, o.stored).0
  {
    hide Flush, UpdateFromEContact, Submitted, RunAdd, NameOf, CreateExisting, CreateNew;
  }

  lemma NamedLive(w: World, norm: Norm, n: string)
    requires Inv(w, norm) && n in w.byName
    ensures Live(w, w.byName[n])
  {
    assert NameEntry(w, n, w.byName[n]);
    hide HandlesLive, AddsSettled;
  }

  /** Exactly when a creation keeps the views up to date: unless it enters a new contact and there is a
      view. The callback announces what a duplicate brings, but not a new contact. */
  lemma CreateCurrentIff(w: World, norm: Norm, setup: Setup, card: Card, id: Contact, online: bool, o: CreateAnswers)
    requires UpToDate(w, norm) && id !in w.heap && Possible(o.add)
    ensures UpToDate(Create(w, setup.path, setup.vcardField, card, id, online, o).0, norm) <==>
      !(EntersNew(w, setup, card, online, o) && w.views != [])
  {
    hide *;
    var w', c := Flush(w, o.flushed), Created(w, setup, card, online, o);
    FlushKeys(w, o.flushed);
    FlushCurrent(w, norm, o.flushed);
    FlushViews(w, o.flushed);
    SameViewsParts(w, w');
    ViewsAre(w, w');
    UpToDateParts(w', norm);
    CreateForm(w, setup, card, id, online, o);
    CreatedVisible(w, setup, card, online, o);
    EntersIs(w, setup, card, online, o);
    if c.1 {
      if NameOf(c.0) in w'.byName {
        NamedLive(w', norm, NameOf(c.0));
        ExistingCurrent(w', norm, w'.byName[NameOf(c.0)], c.0, o);
      } else {
        CreateNewKeeps(w', norm, id, c.0, o.stored);
        NewCurrentIff(w', norm, id, c.0, o.stored);
      }
    }
  }

  lemma ViewsAre(w: World, w': World)
    requires SameViews(w, w')
    ensures w'.views == w.views
  {}

  lemma EntersIs(w: World, setup: Setup, card: Card, online: bool, o: CreateAnswers)
    ensures EntersNew(w, setup, card, online, o) <==>
      Created(w, setup, card, online, o).1 && NameOf(Created(w, setup, card, online, o).0) !in w.byName
  {
    hide Created, NameOf;
  }

  // ---- Removal requests ----

  /** The request has the server delete a contact that stays listed until the server tells: its master
      UIDs are gone but not announced, or it was hidden and some view does not show it. */
  ghost predicate RequestDisturbs(w: World, request: string, online: bool, o: RemoveAnswers) {
    var fields := Split(request, ';');
    && fields != [] && fields[0] in w.byUid && online && o.accepted
    && var c := w.byUid[fields[0]];
       var d := At(w, c);
       var (d', really) := ApplySuffix(d, fields[1..]);
       && really && CONTACT_INVALID !in d.flags && d.flags * ALL_LIST_FLAGS != {CL_PUBLISH} && d.uid !in w.changed
       && if SCHEDULE_DELETE in d.pendingFlags
          then exists v :: v in w.views && !(d.uid in v && SameCard(v[d.uid], d'))
          else w.views != [] && d'.masterUids != d.masterUids
  }

  lemma {:induction false} FieldsSame(d: ContactData, suffix: seq<string>)
    ensures SCHEDULE_UPDATE_MASTER_UID in d.pendingFlags ==> SCHEDULE_UPDATE_MASTER_UID in RemoveFields(d, suffix).pendingFlags
    ensures SCHEDULE_UPDATE_MASTER_UID !in RemoveFields(d, suffix).pendingFlags ==> RemoveFields(d, suffix) == d
    decreases |suffix|
  {
    if suffix != [] { FieldsSame(RemoveField(d, suffix[0]), suffix[1..]); }
  }

  /** What follows the uid in a request changes the master UIDs and schedules that they are written. */
  lemma SuffixSame(d: ContactData, suffix: seq<string>)
    ensures var d' := ApplySuffix(d, suffix).0;
      && d' == d.(masterUids := d'.masterUids, pendingFlags := d'.pendingFlags)
      && (SCHEDULE_UPDATE_MASTER_UID !in d'.pendingFlags ==> d' == d)
  {
    FieldsSame(d, suffix);
    ApplySuffixIsMinor(d, suffix);
    hide RemoveFields;
  }

  lemma KeepCurrent(w: World, norm: Norm, c: Contact, d: ContactData, stored: bool)
    requires UpToDate(w, norm) && Live(w, c) && Minor(norm, At(w, c), d)
    requires SCHEDULE_UPDATE_MASTER_UID !in d.pendingFlags ==> d == At(w, c)
    ensures UpToDate(KeepContact(w, c, d, stored), norm)
  {
    hide *;
    var written := RealUpdate(w.db, d);
    var d' := if stored && written.Some? then d.(pendingFlags := d.pendingFlags - {SCHEDULE_UPDATE_MASTER_UID}) else d;
    UpToDateParts(w, norm);
    KeepContactKeeps(w, norm, c, d, stored);
    Soundness.KeepContactIs(w, c, d, stored);
    if SCHEDULE_UPDATE_MASTER_UID !in d.pendingFlags {
      LiveKnown(w, c);
      PutSame(w, c);
    } else {
      var db := Commit(w.db, written, stored);
      var w1 := Soundness.WithDb(Put(w, c, d'), db);
      MinorUid(norm, At(w, c), d);
      NotifyUpdatedTouches(w1, c);
      KeepsBack(w1, NotifyUpdated(w1, c), norm);
      WrittenAnnounced(w, norm, c, d', db);
    }
  }

  lemma MinorUid(norm: Norm, d: ContactData, d': ContactData)
    requires Minor(norm, d, d')
    ensures d'.uid == d.uid && d'.name == d.name
  {}

  lemma BaseOf(w: World, norm: Norm)
    requires UpToDate(w, norm)
    ensures Base(w, norm) && forall c :: c in w.heap ==> !Stale(w, c)
  {
    assert Base(w, norm);
    NoneStale(w, norm);
    hide Base, UpToDate, Stale;
  }

  /** One contact is written and not announced: the views are current unless it is stale now. */
  lemma WrittenCurrentIff(w: World, norm: Norm, c: Contact, e: ContactData, w': World)
    requires UpToDate(w, norm) && Rewritten(w, c, e, w') && Inv(w', norm)
    ensures UpToDate(w', norm) <==> !Stale(w', c)
  {
    hide *;
    BaseOf(w, norm);
    RewrittenBase(w, norm, c, e, w');
    NoneStale(w', norm);
    RewrittenKeys(w, c, e, w');
    RewrittenIn(w, c, e, w');
    forall x | x in w.heap && x != c ensures !Stale(w', x) { RewrittenOther(w, c, e, w', x); }
  }

  lemma RewrittenIn(w: World, c: Contact, e: ContactData, w': World)
    requires Rewritten(w, c, e, w')
    ensures c in w.heap
  {}

  /** The server accepted the deletion: the contact is as the request left it, with nothing pending. */
  lemma AcceptedStaleIff(w: World, norm: Norm, c: Contact, d': ContactData, w': World)
    requires UpToDate(w, norm) && Live(w, c)
    requires d' == At(w, c).(masterUids := d'.masterUids, pendingFlags := d'.pendingFlags)
    requires Rewritten(w, c, d'.(pendingFlags := {}), w')
    ensures var d := At(w, c);
      Stale(w', c) <==>
        && d.flags * ALL_LIST_FLAGS != {CL_PUBLISH} && d.uid !in w.changed
        && if SCHEDULE_DELETE in d.pendingFlags
           then exists v :: v in w.views && !(d.uid in v && SameCard(v[d.uid], d'))
           else w.views != [] && d'.masterUids != d.masterUids
  {
    var d, e := At(w, c), d'.(pendingFlags := {});
    hide UpToDate, Live, Rewritten, Stale, SameCard, At;
    LiveKnown(w, c);
    BaseOf(w, norm);
    if d.flags * ALL_LIST_FLAGS == {CL_PUBLISH} {
      HiddenNow(w, c, e, w');
    } else if SCHEDULE_DELETE in d.pendingFlags {
      ReturnedStale(w, c, d', w');
    } else if d'.masterUids == d.masterUids {
      PendingNotShown(d, {});
      assert e == d.(pendingFlags := {});
      SameShown(w, c, e, w');
    } else {
      MastersDiffer(d, e);
      OtherShown(w, c, e, w');
      WatchedIs(w, c);
    }
  }

  lemma WatchedIs(w: World, c: Contact)
    requires Live(w, c) && Visible(At(w, c))
    ensures Watched(w, c) <==> At(w, c).uid !in w.changed && w.views != []
  {}

  lemma MastersDiffer(d: ContactData, e: ContactData)
    requires e == d.(masterUids := e.masterUids, pendingFlags := e.pendingFlags) && e.masterUids != d.masterUids
    ensures !SameCard(d, e)
  {
    if SameCard(d, e) { SameCardMasters(d, e); }
    hide SameCard;
  }

  /** A contact that was waiting to be deleted is listed again, with the card it has now. */
  lemma ReturnedStale(w: World, c: Contact, d': ContactData, w': World)
    requires var e := d'.(pendingFlags := {}); Rewritten(w, c, e, w') && Live(w, c) && Visible(e)
    ensures Stale(w', c) <==> d'.uid !in w.changed && exists v :: v in w.views && !(d'.uid in v && SameCard(v[d'.uid], d'))
  {
    var e := d'.(pendingFlags := {});
    RewrittenShows(w, c, e, w', map[]);
    assert w'.views == w.views && w'.changed == w.changed;
    hide Rewritten, Live, Visible, SameCard, At;
    forall v: View ensures Shows(w', v, e.uid) <==> d'.uid in v && SameCard(v[d'.uid], d') { ReturnedShows(w, c, d', w', v); }
    hide Shows;
  }

  lemma ReturnedShows(w: World, c: Contact, d': ContactData, w': World, v: View)
    requires Rewritten(w, c, d'.(pendingFlags := {}), w') && Live(w, c) && d'.uid in w'.byUid
    ensures Shows(w', v, d'.uid) <==> d'.uid in v && SameCard(v[d'.uid], d')
  {
    hide *;
    var e := d'.(pendingFlags := {});
    RewrittenShows(w, c, e, w', v);
    PendingNotShown(d', {});
    if e.uid in v { SameCardEither(v[e.uid], d', e); }
  }

  lemma SameCardEither(x: ContactData, a: ContactData, b: ContactData)
    requires SameCard(a, b)
    ensures SameCard(x, a) <==> SameCard(x, b)
  {
    if SameCard(x, a) { SameCardTransitive(x, a, b); }
    if SameCard(x, b) {
      SameCardSymmetric(a, b);
      SameCardTransitive(x, b, a);
    }
    hide SameCard;
  }

  lemma PutRewrites(w: World, c: Contact, e: ContactData)
    requires c in w.heap && e.uid == At(w, c).uid
    ensures Rewritten(w, c, e, Put(w, c, e))
    ensures forall toDelete: map<string, Contact> :: Rewritten(w, c, e, Put(w, c, e).(toDelete := toDelete))
  {}

  lemma DropForm(w: World, c: Contact, d: ContactData, online: bool, o: RemoveAnswers)
    ensures DropContact(w, c, d, online, o) ==
      if CONTACT_INVALID in d.flags then DeleteContacts(Put(w, c, d.(pendingFlags := {})), {c}, o.flushed, o.removed)
      else if online && o.accepted then Put(w, c, d.(pendingFlags := {}))
      else Put(w, c, d.(pendingFlags := {SCHEDULE_DELETE})).(toDelete := w.toDelete[d.uid := c])
  {
    hide DeleteContacts, Put;
  }

  /** An invalid contact leaves the views. */
  lemma InvalidCurrent(w: World, norm: Norm, c: Contact, e: ContactData, flushed: bool, removed: bool)
    requires UpToDate(w, norm) && Live(w, c) && e.uid == At(w, c).uid
    requires Inv(DeleteContacts(Put(w, c, e), {c}, flushed, removed), norm)
    ensures UpToDate(DeleteContacts(Put(w, c, e), {c}, flushed, removed), norm)
  {
    hide *;
    var p := Put(w, c, e);
    UpToDateParts(w, norm);
    Soundness.PutParts(w, c, e);
    WrittenTouched(w, norm, c, e, p);
    TouchedCurrent(w, p, e.uid, {});
    TouchedStays(w, p, e.uid);
    PhaseSteps.OnlyOne(p, c);
    assert {} + {e.uid} == {e.uid};
    DeleteShapes(p, {c}, flushed, removed);
    DeleteCurrent(p, {c}, flushed, removed);
    UpToDateWhen(DeleteContacts(p, {c}, flushed, removed), norm);
  }

  /** The contact itself is to go. */
  lemma DropCurrentIff(w: World, norm: Norm, c: Contact, d': ContactData, online: bool, o: RemoveAnswers)
    requires UpToDate(w, norm) && Live(w, c) && Minor(norm, At(w, c), d')
    requires d' == At(w, c).(masterUids := d'.masterUids, pendingFlags := d'.pendingFlags)
    ensures var d := At(w, c);
      UpToDate(DropContact(w, c, d', online, o), norm) <==>
        !(&& online && o.accepted && CONTACT_INVALID !in d.flags
          && d.flags * ALL_LIST_FLAGS != {CL_PUBLISH} && d.uid !in w.changed
          && if SCHEDULE_DELETE in d.pendingFlags
             then exists v :: v in w.views && !(d.uid in v && SameCard(v[d.uid], d'))
             else w.views != [] && d'.masterUids != d.masterUids)
  {
    hide *;
    UpToDateParts(w, norm);
    DropContactKeeps(w, norm, c, d', online, o);
    DropForm(w, c, d', online, o);
    LiveKnown(w, c);
    var w' := DropContact(w, c, d', online, o);
    if CONTACT_INVALID in d'.flags {
      InvalidCurrent(w, norm, c, d'.(pendingFlags := {}), o.flushed, o.removed);
    } else if online && o.accepted {
      var e := d'.(pendingFlags := {});
      PutRewrites(w, c, e);
      WrittenCurrentIff(w, norm, c, e, w');
      AcceptedStaleIff(w, norm, c, d', w');
    } else {
      var e := d'.(pendingFlags := {SCHEDULE_DELETE});
      PutRewrites(w, c, e);
      MarkedHidden(d');
      HiddenNow(w, c, e, w');
      WrittenCurrentIff(w, norm, c, e, w');
    }
  }

  lemma MarkedHidden(d: ContactData)
    ensures !Visible(d.(pendingFlags := {SCHEDULE_DELETE}))
  {}

  lemma RemoveForm(b: Batch, request: string, online: bool, o: RemoveAnswers)
    ensures var w, fields := Flush(b.world, o.flushed), Split(request, ';');
      if fields == [] || fields[0] !in w.byUid then Remove(b, request, online, o).world == w
      else
        var c := w.byUid[fields[0]];
        var r := ApplySuffix(At(w, c), fields[1..]);
        Remove(b, request, online, o).world ==
          if r.1 then DropContact(w, c, r.0, online, o) else KeepContact(w, c, r.0, o.stored)
  {
    hide Flush, Split, ApplySuffix, DropContact, KeepContact, At;
  }

  /** Exactly when one removal request keeps the views up to date. */
  lemma RemoveCurrentIff(b: Batch, norm: Norm, request: string, online: bool, o: RemoveAnswers)
    requires UpToDate(b.world, norm)
    ensures UpToDate(Remove(b, request, online, o).world, norm) <==> !RequestDisturbs(b.world, request, online, o)
  {
    hide *;
    var w, fields := Flush(b.world, o.flushed), Split(request, ';');
    FlushCurrent(b.world, norm, o.flushed);
    FlushSameViews(b.world, o.flushed);
    RemoveForm(b, request, online, o);
    DisturbsIs(b.world, w, request, online, o);
    if fields != [] && fields[0] in w.byUid {
      var c := w.byUid[fields[0]];
      var r := ApplySuffix(At(w, c), fields[1..]);
      UpToDateParts(w, norm);
      FoundIsLive(w, norm, fields[0]);
      SuffixSame(At(w, c), fields[1..]);
      ApplySuffixIsMinor(At(w, c), fields[1..]);
      SuffixMinor(norm, At(w, c), fields[1..]);
      if r.1 { DropCurrentIff(w, norm, c, r.0, online, o); } else { KeepCurrent(w, norm, c, r.0, o.stored); }
    }
  }

  lemma FlushSameViews(w: World, flushed: bool)
    ensures var w' := Flush(w, flushed); w'.heap == w.heap && w'.byUid == w.byUid && w'.changed == w.changed && w'.views == w.views
  {
    hide Commit, Values;
  }

  lemma SuffixMinor(norm: Norm, d: ContactData, suffix: seq<string>)
    requires var d' := ApplySuffix(d, suffix).0; d' == d.(masterUids := d'.masterUids, pendingFlags := d'.pendingFlags)
    ensures Minor(norm, d, ApplySuffix(d, suffix).0)
  {
    hide ApplySuffix;
  }

  lemma DisturbsIs(w0: World, w: World, request: string, online: bool, o: RemoveAnswers)
    requires w.heap == w0.heap && w.byUid == w0.byUid && w.changed == w0.changed && w.views == w0.views
    ensures var fields := Split(request, ';');
      RequestDisturbs(w0, request, online, o) <==>
        && fields != [] && fields[0] in w.byUid
        && var c := w.byUid[fields[0]];
           var d, r := At(w, c), ApplySuffix(At(w, c), fields[1..]);
           && r.1 && online && o.accepted && CONTACT_INVALID !in d.flags
           && d.flags * ALL_LIST_FLAGS != {CL_PUBLISH} && d.uid !in w.changed
           && if SCHEDULE_DELETE in d.pendingFlags
              then exists v :: v in w.views && !(d.uid in v && SameCard(v[d.uid], r.0))
              else w.views != [] && r.0.masterUids != d.masterUids
  {
    assert forall c :: At(w, c) == At(w0, c);
    hide Split, ApplySuffix, SameCard, At;
  }

  // ---- A batch of requests ----

  /** No request disturbs what views show when its turn comes. */
  ghost predicate Quiet(b: Batch, requests: seq<Request>, online: bool)
    decreases |requests|
  {
    requests == [] ||
    (!RequestDisturbs(b.world, requests[0].text, online, requests[0].answers)
     && Quiet(Remove(b, requests[0].text, online, requests[0].answers), requests[1..], online))
  }

  /** The views are up to date before the first request and after each. */
  ghost predicate AlwaysUpToDate(b: Batch, norm: Norm, requests: seq<Request>, online: bool)
    decreases |requests|
  {
    UpToDate(b.world, norm) &&
    (requests == [] || AlwaysUpToDate(Remove(b, requests[0].text, online, requests[0].answers), norm, requests[1..], online))
  }

  /** The views are up to date throughout a batch exactly if no request disturbs them. */
  lemma {:induction false} RequestsCurrentIff(b: Batch, norm: Norm, requests: seq<Request>, online: bool)
    requires UpToDate(b.world, norm)
    ensures AlwaysUpToDate(b, norm, requests, online) <==> Quiet(b, requests, online)
    ensures Quiet(b, requests, online) ==> UpToDate(RemoveAll(b, requests, online).world, norm)
    decreases |requests|
  {
    hide UpToDate, RequestDisturbs, Remove;
    if requests != [] {
      RemoveCurrentIff(b, norm, requests[0].text, online, requests[0].answers);
      if !RequestDisturbs(b.world, requests[0].text, online, requests[0].answers) {
        RequestsCurrentIff(Remove(b, requests[0].text, online, requests[0].answers), norm, requests[1..], online);
      }
    }
  }

  /** The requests of a callback, once pending changes were announced, find nothing to disturb. */
  ghost predicate QuietRemoval(w: World, requests: seq<Request>, online: bool, flushed: bool) {
    Quiet(Batch(Flush(Notify(w), flushed), []), requests, online)
  }

  lemma RemovalForm(w: World, requests: seq<Request>, online: bool, flushed: bool, stored: bool)
    ensures var b := RemoveAll(Batch(Flush(Notify(w), flushed), []), requests, online);
      RemoveContacts(w, requests, online, flushed, stored) == StoreChanged(b.world, b.contacts, stored)
  {
    hide Flush, Notify, RemoveAll, StoreChanged;
  }

  lemma StoredIff(w: World, norm: Norm, contacts: seq<Contact>, stored: bool)
    ensures UpToDate(StoreChanged(w, contacts, stored), norm) <==> UpToDate(w, norm)
  {
    var w' := StoreChanged(w, contacts, stored);
    StoredViews(w, contacts, stored);
    if UpToDate(w, norm) { SameUpToDate(w, w', norm); }
    if UpToDate(w', norm) { SameUpToDate(w', w, norm); }
    hide UpToDate, StoreChanged;
  }

  lemma StoredViews(w: World, contacts: seq<Contact>, stored: bool)
    ensures var w' := StoreChanged(w, contacts, stored);
      SameViews(w, w') && SameViews(w', w) && w'.idle == w.idle && w'.inactive == w.inactive
  {
    hide Commit, UpdateAll, DataAt;
  }

  lemma SameUpToDate(w: World, w': World, norm: Norm)
    requires UpToDate(w, norm) && SameViews(w, w') && w'.idle == w.idle && w'.inactive == w.inactive
    ensures UpToDate(w', norm)
  {
    hide *;
    UpToDateParts(w, norm);
    SameViewsParts(w, w');
    SameViewsIndexes(w, w');
    SameViewsCurrent(w, w', {});
    OnlyIndexesMatter(w, w', norm);
    StillPromised(w, w');
    UpToDateWhen(w', norm);
  }

  lemma RemovalStart(w: World, norm: Norm, flushed: bool)
    requires UpToDate(w, norm)
    ensures UpToDate(Flush(Notify(w), flushed), norm)
  {
    hide *;
    NotifyingCurrent(w, norm);
    FlushCurrent(Notify(w), norm, flushed);
  }

  lemma RemovalCurrent(w: World, norm: Norm, requests: seq<Request>, online: bool, flushed: bool, stored: bool)
    requires UpToDate(w, norm) && QuietRemoval(w, requests, online, flushed)
    ensures UpToDate(RemoveContacts(w, requests, online, flushed, stored), norm)
  {
    var start := Batch(Flush(Notify(w), flushed), []);
    assert Quiet(start, requests, online);
    hide *;
    RemovalStart(w, norm, flushed);
    RequestsCurrentIff(start, norm, requests, online);
    RemovalForm(w, requests, online, flushed, stored);
    var b := RemoveAll(start, requests, online);
    StoredIff(b.world, norm, b.contacts, stored);
  }

  /** A callback with one request: it keeps the views up to date exactly if the request finds nothing
      to disturb. */
  lemma RemovalCurrentIff(w: World, norm: Norm, r: Request, online: bool, flushed: bool, stored: bool)
    requires UpToDate(w, norm)
    ensures UpToDate(RemoveContacts(w, [r], online, flushed, stored), norm) <==> QuietRemoval(w, [r], online, flushed)
  {
    var start := Batch(Flush(Notify(w), flushed), []);
    OneRequest(start, r, online);
    assert QuietRemoval(w, [r], online, flushed) <==> Quiet(start, [r], online);
    hide *;
    RemovalStart(w, norm, flushed);
    RemoveCurrentIff(start, norm, r.text, online, r.answers);
    RemovalForm(w, [r], online, flushed, stored);
    var b := RemoveAll(start, [r], online);
    StoredIff(b.world, norm, b.contacts, stored);
  }

  lemma OneRequest(b: Batch, r: Request, online: bool)
    ensures RemoveAll(b, [r], online) == Remove(b, r.text, online, r.answers)
    ensures Quiet(b, [r], online) <==> !RequestDisturbs(b.world, r.text, online, r.answers)
  {
    assert [r][1..] == [];
    hide Remove, RequestDisturbs;
    assert RemoveAll(Remove(b, r.text, online, r.answers), [], online) == Remove(b, r.text, online, r.answers);
  }
}
