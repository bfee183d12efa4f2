/** Phases 1 and 2 and the book views: the roster is taken in, and the signals that follow it at once
    announce it; what is not on it any more leaves the views. */
module RosterViews {
  import opened Text
  import opened Flags
  import opened ContactValues
  import opened Contacts
  import opened VCards
  import opened Store
  import opened StoreBatches
  import opened Uids
  import opened Worlds
  import opened Coherence
  import opened CoherentRuns
  import opened CoherentRequests
  import opened Runs
  import opened Views
  import opened Soundness

  // ---- Phase 2 ----

  lemma StoresSame(w: World, toAdd: seq<Contact>, toUpdate: seq<Contact>, added: bool, updated: bool)
    ensures var w' := StoreChanged(StoreNew(w, toAdd, added), toUpdate, updated);
      SameViews(w, w') && w'.idle == w.idle && w'.inactive == w.inactive
  {
    hide Commit, AddAll, UpdateAll, DataAt;
  }

  lemma NobodyExempt(w: World, uids: set<string>)
    requires AllCurrent(w, {})
    ensures AllCurrent(w, uids)
  {
    forall v | v in w.views ensures ViewCurrent(w, v, uids) { assert ViewCurrent(w, v, {}); }
    hide Shows, Visible, At;
  }

  lemma StillPromised(w: World, w': World)
    requires Promised(w) && w'.changed == w.changed && w'.idle == w.idle && w'.inactive == w.inactive
    ensures Promised(w')
  {}

  lemma Phase2Is(s: Intake, added: bool, updated: bool, flushed: bool, removed: bool)
    ensures var w := StoreChanged(StoreNew(s.world, s.toAdd, added), s.toUpdate, updated);
      Phase2(s, added, updated, flushed, removed) ==
        if Unseen(w) == {} then w else DeleteContacts(w, Unseen(w), flushed, removed)
  {
    hide StoreChanged, StoreNew, Unseen, DeleteContacts;
  }

  lemma SameViewsParts(w: World, w': World)
    requires SameViews(w, w')
    ensures w'.changed == w.changed && w'.ready == w.ready
  {}

  /** Phase 2 keeps the views up to date: whoever is deleted leaves them. */
  lemma Phase2Current(s: Intake, norm: Norm, added: bool, updated: bool, flushed: bool, removed: bool)
    requires UpToDate(s.world, norm)
    ensures UpToDate(Phase2(s, added, updated, flushed, removed), norm)
  {
    hide *;
    var w := StoreChanged(StoreNew(s.world, s.toAdd, added), s.toUpdate, updated);
    UpToDateParts(s.world, norm);
    Phase2Keeps(s, norm, added, updated, flushed, removed);
    Phase2Is(s, added, updated, flushed, removed);
    StoresSame(s.world, s.toAdd, s.toUpdate, added, updated);
    SameViewsParts(s.world, w);
    SameViewsCurrent(s.world, w, {});
    if Unseen(w) == {} {
      StillPromised(s.world, w);
    } else {
      NobodyExempt(w, UidsOf(w, Unseen(w)));
      DeleteShapes(w, Unseen(w), flushed, removed);
      DeleteCurrent(w, Unseen(w), flushed, removed);
    }
    UpToDateWhen(Phase2(s, added, updated, flushed, removed), norm);
  }

  // ---- Phase 1 ----

  function NewsOf(arrivals: seq<Arrival>): (news: seq<ContactData>)
    ensures |news| == |arrivals|
  {
    seq(|arrivals|, i requires 0 <= i < |arrivals| => arrivals[i].data)
  }

  /** What `get_contacts_cb` does: it hands the roster to the backend, and emits the signals for
      aliases, presences and flags of all its contacts before it returns. */
  function RosterArrives(w: World, path: string, arrivals: seq<Arrival>): World {
    var news := NewsOf(arrivals);
    Signalled(Signalled(Signalled(GetMembers(w, path, arrivals).world, AliasKind, news), PresenceKind, news), FlagsKind, news)
  }

  /** The server's handles tell contacts apart, and from those that have one. */
  predicate OneEach(w: World, arrivals: seq<Arrival>) {
    && (forall i :: 0 <= i < |arrivals| ==> OwnHandle(w, arrivals[i].data))
    && (forall i, j :: 0 <= i < j < |arrivals| && arrivals[i].data.handle == arrivals[j].data.handle ==>
          arrivals[i].data.name == arrivals[j].data.name)
  }

  predicate OwnHandle(w: World, d: ContactData) {
    d.handle > 0 && (d.handle in w.byHandle ==> At(w, w.byHandle[d.handle]).name == d.name)
  }

  /** The contact that a member of the roster became. */
  function MemberOf(w: World, a: Arrival): Contact {
    if NameOf(a.data) in w.byName then w.byName[NameOf(a.data)] else a.id
  }

  /** The contacts that were met so far are found under the handles of the roster. */
  predicate MetAll(w: World, arrivals: seq<Arrival>, met: seq<Contact>) {
    |met| == |arrivals| &&
    forall i :: 0 <= i < |arrivals| ==> arrivals[i].data.handle in w.byHandle && w.byHandle[arrivals[i].data.handle] == met[i]
  }

  lemma MeetForm(s: Intake, path: string, a: Arrival)
    ensures var w, name := s.world, NameOf(a.data);
      Meet(s, path, a).world ==
        if name in w.byName then
          var c := w.byName[name];
          IndexHandle(Put(w, c, Refreshed(At(w, c), a.data)), a.data.handle, c)
        else
          var d := WithUid(w, path, a.data);
          IndexHandle(Soundness.Entered(w, a.id, d, w.byName[name := a.id], w.byHandle), a.data.handle, a.id)
  {
    hide At, NameOf, FreshUid, Refreshed, IndexHandle, AliasDiffers;
  }

  /** What a member leaves alone, and what it does to the handle table. */
  lemma MeetTouches(s: Intake, path: string, a: Arrival)
    ensures var w, w' := s.world, Meet(s, path, a).world;
      && w'.views == w.views && w'.changed == w.changed && w'.ready == w.ready
      && w'.idle == w.idle && w'.inactive == w.inactive
      && w'.byHandle == (if a.data.handle in w.byHandle then w.byHandle else w.byHandle[a.data.handle := MemberOf(w, a)])
  {
    hide *;
    var w, name := s.world, NameOf(a.data);
    MeetForm(s, path, a);
    if name in w.byName {
      var c := w.byName[name];
      var p := Put(w, c, Refreshed(At(w, c), a.data));
      MemberKnown(w, a);
      PutParts(w, c, Refreshed(At(w, c), a.data));
      IndexHandleIs(p, a.data.handle, c);
      SwitchedParts(p, p.idle, p.inactive, p.ready, p.views, p.byHandle[a.data.handle := c]);
    } else {
      var d := WithUid(w, path, a.data);
      var e := Soundness.Entered(w, a.id, d, w.byName[name := a.id], w.byHandle);
      MemberNew(w, a);
      EnteredParts(w, a.id, d, w.byName[name := a.id], w.byHandle);
      IndexHandleIs(e, a.data.handle, a.id);
      SwitchedParts(e, e.idle, e.inactive, e.ready, e.views, e.byHandle[a.data.handle := a.id]);
    }
  }

  /** One member: it is collected, and is found under its handle. */
  lemma FirstMember(w: World, norm: Norm, arrivals: seq<Arrival>, met: seq<Contact>)
    requires Receiving(Batch(w, met), norm) && arrivals != [] && Consistent(w, norm, arrivals) && OneEach(w, arrivals)
    ensures Acceptable(w, norm, arrivals[0]) && OwnHandle(w, arrivals[0].data) && Inv(w, norm) && Coherent(w)
  {
    hide Acceptable, OwnHandle, HandlesLive, AddsSettled, Coherent;
  }

  lemma MeetCurrent(s: Intake, norm: Norm, path: string, arrivals: seq<Arrival>, met: seq<Contact>)
    requires Receiving(Batch(s.world, met), norm) && arrivals != [] && Consistent(s.world, norm, arrivals)
    requires OneEach(s.world, arrivals)
    ensures var w', c := Meet(s, path, arrivals[0]).world, MemberOf(s.world, arrivals[0]);
      && Receiving(Batch(w', met + [c]), norm) && Consistent(w', norm, arrivals[1..]) && OneEach(w', arrivals[1..])
      && arrivals[0].data.handle in w'.byHandle && w'.byHandle[arrivals[0].data.handle] == c
      && (forall h :: h in s.world.byHandle ==> h in w'.byHandle && w'.byHandle[h] == s.world.byHandle[h])
      && w'.ready == s.world.ready && w'.changed == s.world.changed && w'.idle == s.world.idle && w'.inactive == s.world.inactive
  {
    hide *;
    var w, a := s.world, arrivals[0];
    var w', c := Meet(s, path, a).world, MemberOf(w, a);
    FirstMember(s.world, norm, arrivals, met);
    MeetTouches(s, path, a);
    MeetCases(s, norm, path, a);
    MeetKeeps(s, norm, path, arrivals);
    if NameOf(a.data) in w.byName {
      KnownMet(w, norm, a, w', met);
    } else {
      NewMet(w, norm, path, a, w', met);
    }
    MetParts(w, norm, a, w', met);
    HandlesOwn(w, norm, arrivals, c, w');
  }

  /** The member is collected, and has its name. */
  ghost predicate MetAs(w: World, norm: Norm, a: Arrival, w': World, met: seq<Contact>) {
    && Receiving(Batch(w', met + [MemberOf(w, a)]), norm) && At(w', MemberOf(w, a)).name == a.data.name
    && forall x :: x in w.heap ==> At(w', x).name == At(w, x).name
  }

  lemma MetWhole(w: World, norm: Norm, a: Arrival, w': World, met: seq<Contact>)
    requires Receiving(Batch(w', met + [MemberOf(w, a)]), norm) && At(w', MemberOf(w, a)).name == a.data.name
    requires forall x :: x in w.heap ==> At(w', x).name == At(w, x).name
    ensures MetAs(w, norm, a, w', met)
  {
    hide Receiving, At, MemberOf;
  }

  lemma MetParts(w: World, norm: Norm, a: Arrival, w': World, met: seq<Contact>)
    requires MetAs(w, norm, a, w', met)
    ensures Receiving(Batch(w', met + [MemberOf(w, a)]), norm) && At(w', MemberOf(w, a)).name == a.data.name
    ensures forall x :: x in w.heap ==> At(w', x).name == At(w, x).name
  {
    hide Receiving, At, MemberOf;
  }

  lemma KnownMet(w: World, norm: Norm, a: Arrival, w': World, met: seq<Contact>)
    requires Receiving(Batch(w, met), norm) && Inv(w, norm) && Coherent(w) && Acceptable(w, norm, a) && NameOf(a.data) in w.byName
    requires Known(w, a, w.byName[NameOf(a.data)], Refreshed(At(w, w.byName[NameOf(a.data)]), a.data), w')
    requires w'.views == w.views && w'.changed == w.changed && w'.ready == w.ready
    ensures MetAs(w, norm, a, w', met)
  {
    hide *;
    var c := w.byName[NameOf(a.data)];
    var d := Refreshed(At(w, c), a.data);
    MemberKnown(w, a);
    KnownTouched(w, norm, a, c, d, w');
    KnownKeeps(w, norm, a, c, d, w');
    OneMoreTouched(w, norm, met, c, d.uid, w');
    KnownNames(w, norm, a, c, d, w');
    MetWhole(w, norm, a, w', met);
  }

  lemma NewMet(w: World, norm: Norm, path: string, a: Arrival, w': World, met: seq<Contact>)
    requires Receiving(Batch(w, met), norm) && Inv(w, norm) && Acceptable(w, norm, a) && NameOf(a.data) !in w.byName
    requires Grown(w, norm, a.id, WithUid(w, path, a.data), w')
    requires w'.views == w.views && w'.changed == w.changed && w'.ready == w.ready
    ensures MetAs(w, norm, a, w', met)
  {
    hide *;
    var d := WithUid(w, path, a.data);
    MemberNew(w, a);
    GrownTouched(w, norm, a.id, d, w');
    NewKeeps(w, norm, a.id, d, w');
    OneMoreTouched(w, norm, met, a.id, d.uid, w');
    GrownNames(w, norm, a.id, d, w');
    WithUidName(w, path, a.data);
    MetWhole(w, norm, a, w', met);
  }

  lemma MemberKnown(w: World, a: Arrival)
    requires NameOf(a.data) in w.byName
    ensures MemberOf(w, a) == w.byName[NameOf(a.data)]
  {}

  lemma MemberNew(w: World, a: Arrival)
    requires NameOf(a.data) !in w.byName
    ensures MemberOf(w, a) == a.id
  {}

  lemma KnownNames(w: World, norm: Norm, a: Arrival, c: Contact, d: ContactData, w': World)
    requires Inv(w, norm) && Acceptable(w, norm, a) && Known(w, a, c, d, w')
    ensures c in w.heap && At(w', c).name == At(w, c).name == a.data.name
    ensures forall x :: x in w.heap ==> At(w', x).name == At(w, x).name
  {
    KnownEntries(w, norm, a, c, d, w');
    hide Coherent, HandlesLive, AddsSettled, Acceptable;
  }

  lemma GrownNames(w: World, norm: Norm, id: Contact, d: ContactData, w': World)
    requires Inv(w, norm) && Grown(w, norm, id, d, w')
    ensures At(w', id).name == d.name
    ensures forall x :: x in w.heap ==> At(w', x).name == At(w, x).name
  {
    NewEntries(w, id, d, w');
    hide Coherent, HandlesLive, AddsSettled, At;
  }

  lemma WithUidName(w: World, path: string, d: ContactData)
    ensures WithUid(w, path, d).name == d.name
  {}

  lemma HandlesOwn(w: World, norm: Norm, arrivals: seq<Arrival>, c: Contact, w': World)
    requires Inv(w, norm) && arrivals != [] && OneEach(w, arrivals) && Acceptable(w, norm, arrivals[0])
    requires w'.byHandle == (if arrivals[0].data.handle in w.byHandle then w.byHandle else w.byHandle[arrivals[0].data.handle := c])
    requires forall x :: x in w.heap ==> At(w', x).name == At(w, x).name
    requires At(w', c).name == arrivals[0].data.name && c == MemberOf(w, arrivals[0])
    ensures OneEach(w', arrivals[1..])
    ensures arrivals[0].data.handle in w'.byHandle && w'.byHandle[arrivals[0].data.handle] == c
  {
    var a := arrivals[0];
    var h := a.data.handle;
    assert OwnHandle(w, a.data);
    if h in w.byHandle {
      assert HandleEntry(w, norm, h, w.byHandle[h]);
      var x := w.byHandle[h];
      assert UidEntry(w, At(w, x).uid, x);
      assert At(w, x).name == a.data.name;
    }
    forall i | 0 <= i < |arrivals[1..]| ensures OwnHandle(w', arrivals[1..][i].data) {
      var d := arrivals[i + 1].data;
      assert OwnHandle(w, d);
      if d.handle in w'.byHandle {
        if d.handle in w.byHandle { assert HandleEntry(w, norm, d.handle, w.byHandle[d.handle]); }
      }
    }
    hide Inv, At, NameOf;
  }

  /** The whole roster: everybody who was touched is collected, and found under the handles. */
  lemma {:induction false} MeetAllCurrent(s: Intake, norm: Norm, path: string, arrivals: seq<Arrival>, met: seq<Contact>)
    returns (all: seq<Contact>)
    requires Receiving(Batch(s.world, met), norm) && Consistent(s.world, norm, arrivals) && OneEach(s.world, arrivals)
    ensures var w' := MeetAll(s, path, arrivals).world;
      && |all| == |met| + |arrivals| && all[..|met|] == met && Receiving(Batch(w', all), norm)
      && MetAll(w', arrivals, all[|met|..])
      && (forall h :: h in s.world.byHandle ==> h in w'.byHandle && w'.byHandle[h] == s.world.byHandle[h])
      && w'.ready == s.world.ready && w'.changed == s.world.changed && w'.idle == s.world.idle && w'.inactive == s.world.inactive
    decreases |arrivals|
  {
    hide *;
    MeetAllStep(s, path, arrivals);
    if arrivals == [] {
      all := met;
      NobodyMet(s.world);
      assert met[|met|..] == [];
    } else {
      var c, next := MemberOf(s.world, arrivals[0]), Meet(s, path, arrivals[0]);
      MeetCurrent(s, norm, path, arrivals, met);
      all := MeetAllCurrent(next, norm, path, arrivals[1..], met + [c]);
      assert all[..|met|] == all[..|met| + 1][..|met|] == met;
      assert all[|met|] == all[..|met| + 1][|met|] == c;
      assert all[|met|..] == [c] + all[|met| + 1..];
      MetOneMore(MeetAll(s, path, arrivals).world, arrivals, c, all[|met| + 1..]);
    }
  }

  lemma MeetAllStep(s: Intake, path: string, arrivals: seq<Arrival>)
    ensures MeetAll(s, path, arrivals) == if arrivals == [] then s else MeetAll(Meet(s, path, arrivals[0]), path, arrivals[1..])
  {
    hide Meet;
  }

  lemma NobodyMet(w: World)
    ensures MetAll(w, [], [])
  {}

  lemma MetOneMore(w: World, arrivals: seq<Arrival>, c: Contact, rest: seq<Contact>)
    requires arrivals != [] && MetAll(w, arrivals[1..], rest)
    requires arrivals[0].data.handle in w.byHandle && w.byHandle[arrivals[0].data.handle] == c
    ensures MetAll(w, arrivals, [c] + rest)
  {
    forall i | 0 <= i < |arrivals|
      ensures arrivals[i].data.handle in w.byHandle && w.byHandle[arrivals[i].data.handle] == ([c] + rest)[i]
    {
      if i > 0 { assert arrivals[i] == arrivals[1..][i - 1] && ([c] + rest)[i] == rest[i - 1]; }
    }
  }

  // ---- The signals that follow ----

  lemma {:induction false} ReceiveAllAppend(b: Batch, before: seq<Contact>, kind: Kind, news: seq<ContactData>)
    ensures var r := ReceiveAll(b, kind, news);
      ReceiveAll(Batch(b.world, before + b.contacts), kind, news) == Batch(r.world, before + r.contacts)
    decreases |news|
  {
    if news != [] {
      var next := Receive(b, kind, news[0]);
      ReceiveAppend(b, before, kind, news[0]);
      hide Receive;
      ReceiveAllAppend(next, before, kind, news[1..]);
    }
  }

  lemma ReceiveAppend(b: Batch, before: seq<Contact>, kind: Kind, news: ContactData)
    ensures var r := Receive(b, kind, news);
      Receive(Batch(b.world, before + b.contacts), kind, news) == Batch(r.world, before + r.contacts)
  {
    hide At, Received, Put;
    if news.handle in b.world.byHandle {
      var c := b.world.byHandle[news.handle];
      assert before + b.contacts + [c] == before + (b.contacts + [c]);
    }
  }

  lemma {:induction false} ReceivesThem(b: Batch, kind: Kind, news: seq<ContactData>)
    ensures var r := ReceiveAll(b, kind, news);
      && r.world.byHandle == b.world.byHandle && (forall c :: c in b.contacts ==> c in r.contacts)
      && (forall i :: 0 <= i < |news| && news[i].handle in b.world.byHandle ==> b.world.byHandle[news[i].handle] in r.contacts)
    decreases |news|
  {
    if news != [] {
      var next := Receive(b, kind, news[0]);
      assert next.world.byHandle == b.world.byHandle;
      hide Receive;
      ReceivesThem(next, kind, news[1..]);
      forall i | 0 <= i < |news| && news[i].handle in b.world.byHandle
        ensures b.world.byHandle[news[i].handle] in ReceiveAll(b, kind, news).contacts
      {
        if i > 0 { assert news[i] == news[1..][i - 1]; } else { FirstReceived(b, kind, news[0]); }
      }
    }
  }

  lemma FirstReceived(b: Batch, kind: Kind, news: ContactData)
    requires news.handle in b.world.byHandle
    ensures b.world.byHandle[news.handle] in Receive(b, kind, news).contacts
  {}

  /** Collecting a contact twice is collecting it once. */
  lemma OnceIsEnough(w: World, norm: Norm, all: seq<Contact>, cs: seq<Contact>)
    requires Receiving(Batch(w, all + cs), norm) && forall c :: c in all ==> c in cs
    ensures Receiving(Batch(w, cs), norm)
  {
    hide *;
    ReceivingInv(w, norm, all + cs);
    ReceivingParts(w, norm, all + cs);
    SameUidsAt(w, all, cs);
    ReceivingWhole(w, norm, cs);
  }

  lemma ReceivingInv(w: World, norm: Norm, cs: seq<Contact>)
    requires Receiving(Batch(w, cs), norm)
    ensures Inv(w, norm)
  {}

  lemma SameUidsAt(w: World, all: seq<Contact>, cs: seq<Contact>)
    requires forall c :: c in all ==> c in cs
    ensures UidsAt(w, all + cs) == UidsAt(w, cs)
    ensures forall c :: c in cs ==> c in all + cs
  {
    hide At;
  }

  lemma MetAreReceived(w: World, arrivals: seq<Arrival>, met: seq<Contact>, kind: Kind)
    requires MetAll(w, arrivals, met)
    ensures forall c :: c in met ==> c in ReceiveAll(Batch(w, []), kind, NewsOf(arrivals)).contacts
  {
    var news := NewsOf(arrivals);
    ReceivesThem(Batch(w, []), kind, news);
    forall c | c in met ensures c in ReceiveAll(Batch(w, []), kind, news).contacts {
      var i :| 0 <= i < |met| && met[i] == c;
      assert news[i].handle in w.byHandle && w.byHandle[news[i].handle] == c;
    }
  }

  lemma NewsHandled(w: World, arrivals: seq<Arrival>)
    requires OneEach(w, arrivals)
    ensures Handled(NewsOf(arrivals))
  {
    forall i | 0 <= i < |arrivals| ensures NewsOf(arrivals)[i].handle > 0 { assert OwnHandle(w, arrivals[i].data); }
  }

  /** The first signal reaches everybody who was touched. */
  lemma FirstSignalCurrent(w: World, norm: Norm, arrivals: seq<Arrival>, met: seq<Contact>, kind: Kind)
    requires Receiving(Batch(w, met), norm) && MetAll(w, arrivals, met) && Handled(NewsOf(arrivals)) && w.ready && Promised(w)
    ensures UpToDate(Signalled(w, kind, NewsOf(arrivals)), norm)
  {
    hide *;
    var news := NewsOf(arrivals);
    var r := ReceiveAll(Batch(w, []), kind, news);
    ReceivingInv(w, norm, met);
    MetAreReceived(w, arrivals, met, kind);
    ReceiveAllAppend(Batch(w, []), met, kind, news);
    assert met + [] == met;
    ReceiveAllCurrent(Batch(w, met), norm, kind, news);
    OnceIsEnough(r.world, norm, met, r.contacts);
    ReceivingParts(r.world, norm, r.contacts);
    ReceivingInv(r.world, norm, r.contacts);
    SignalledKeeps(w, norm, kind, news);
    SignalledForm(w, kind, news);
    ReceiveAllIdle(Batch(w, []), kind, news);
    if r.contacts == [] {
      UidsAtCons(r.world, []);
      UpToDateWhen(r.world, norm);
    } else {
      QueuedCurrent(r.world, r.contacts, Persists(kind));
      UpToDateWhen(UpdateContacts(r.world, r.contacts, Persists(kind)), norm);
    }
  }

  lemma SignalledForm(w: World, kind: Kind, news: seq<ContactData>)
    ensures var r := ReceiveAll(Batch(w, []), kind, news);
      Signalled(w, kind, news) == if r.contacts == [] then r.world else UpdateContacts(r.world, r.contacts, Persists(kind))
  {
    hide ReceiveAll, UpdateContacts;
  }

  /** Phase 1 keeps the views up to date, once the signals are through that follow it at once. */
  lemma RosterCurrent(w: World, norm: Norm, path: string, arrivals: seq<Arrival>)
    requires UpToDate(w, norm) && Consistent(w, norm, arrivals) && OneEach(w, arrivals)
    ensures UpToDate(RosterArrives(w, path, arrivals), norm)
  {
    hide *;
    var w1, news := MeetAll(Intake(w, [], []), path, arrivals).world, NewsOf(arrivals);
    UpToDateParts(w, norm);
    UidsAtCons(w, []);
    ReceivingWhole(w, norm, []);
    var all := MeetAllCurrent(Intake(w, [], []), norm, path, arrivals, []);
    assert all[0..] == all;
    NewsHandled(w, arrivals);
    StillPromised(w, w1);
    FirstSignalCurrent(w1, norm, arrivals, all, AliasKind);
    SignalledCurrent(Signalled(w1, AliasKind, news), norm, PresenceKind, news);
    SignalledCurrent(Signalled(Signalled(w1, AliasKind, news), PresenceKind, news), norm, FlagsKind, news);
    RosterForm(w, path, arrivals);
  }

  lemma RosterForm(w: World, path: string, arrivals: seq<Arrival>)
    ensures var w1, news := MeetAll(Intake(w, [], []), path, arrivals).world, NewsOf(arrivals);
      RosterArrives(w, path, arrivals) == Signalled(Signalled(Signalled(w1, AliasKind, news), PresenceKind, news), FlagsKind, news)
  {
    hide MeetAll, Signalled, NewsOf;
  }
}
