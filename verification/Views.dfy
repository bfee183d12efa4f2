/** Book views: after the members are ready every view shows the current value of every visible
    contact, or the contact is waiting to be announced, and something will announce it. */
module Views {
  import opened Text
  import opened Flags
  import opened ContactValues
  import opened Contacts
  import opened VCards
  import opened Store
  import opened StoreBatches
  import opened Uids
  import opened Worlds
  import opened Coherence
  import opened CoherentRuns
  import opened CoherentRequests
  import opened Runs

  /** The view shows the contact of a uid as it is: the vCard that was sent last is the one that
      would be sent now. */
  ghost predicate Shows(w: World, v: View, u: string)
    requires u in w.byUid
  {
    u in v && SameCard(v[u], At(w, w.byUid[u]))
  }

  /** A view is current but for the contacts in `also` and those that wait. */
  ghost predicate ViewCurrent(w: World, v: View, also: set<string>) {
    forall u :: u in w.byUid && u !in w.changed && u !in also && Visible(At(w, w.byUid[u])) ==> Shows(w, v, u)
  }

  ghost predicate AllCurrent(w: World, also: set<string>) {
    forall v :: v in w.views ==> ViewCurrent(w, v, also)
  }

  /** No view shows a contact that is gone. */
  predicate NoGhosts(w: World) {
    forall v :: v in w.views ==> v.Keys <= w.byUid.Keys
  }

  predicate ChangedLive(w: World) {
    forall u :: u in w.changed ==> u in w.byUid && w.changed[u] == w.byUid[u]
  }

  /** What waits will be announced: by the scheduled idle, or at the end of inactivity, and then
      there are not many. */
  predicate Promised(w: World) {
    w.changed != map[] ==> w.idle || (w.inactive && |w.changed| <= MAX_PENDING_CONTACTS)
  }

  ghost predicate UpToDate(w: World, norm: Norm) {
    Inv(w, norm) && ChangedLive(w) && AllCurrent(w, {}) && NoGhosts(w) && Promised(w) && w.ready
  }

  lemma UpToDateParts(w: World, norm: Norm)
    requires UpToDate(w, norm)
    ensures Inv(w, norm) && ChangedLive(w) && AllCurrent(w, {}) && NoGhosts(w) && Promised(w) && w.ready
  {}

  lemma UpToDateWhen(w: World, norm: Norm)
    requires Inv(w, norm) && ChangedLive(w) && AllCurrent(w, {}) && NoGhosts(w) && Promised(w) && w.ready
    ensures UpToDate(w, norm)
  {}

  // ---- Announcing ----

  /** What is announced of those that wait. */
  lemma NewsAre(w: World)
    requires ChangedLive(w)
    ensures var news := VisibleOf(w, w.changed);
      && news.Keys <= w.byUid.Keys
      && (forall u :: u in news ==> u in w.byUid && news[u] == At(w, w.byUid[u]))
      && (forall u :: u in w.changed && Visible(At(w, w.byUid[u])) ==> u in news)
  {
    hide Visible, At;
  }

  /** One view after the announcement. */
  lemma OneViewTold(w: World, v: View, also: set<string>, w': World)
    requires ChangedLive(w) && ViewCurrent(w, v, also) && v.Keys <= w.byUid.Keys
    requires w'.heap == w.heap && w'.byUid == w.byUid && w'.changed == map[]
    ensures var v' := v + VisibleOf(w, w.changed); ViewCurrent(w', v', also) && v'.Keys <= w'.byUid.Keys
  {
    NewsAre(w);
    SameData(w, w');
    var v' := v + VisibleOf(w, w.changed);
    hide Visible, At, VisibleOf, SameCard;
    forall u | u in w'.byUid && u !in also && Visible(At(w', w'.byUid[u])) ensures Shows(w', v', u) {
      if u !in w.changed { assert Shows(w, v, u); } else { ShowsItself(w', v', u); }
    }
  }

  lemma ShowsItself(w: World, v: View, u: string)
    requires u in w.byUid && u in v && v[u] == At(w, w.byUid[u])
    ensures Shows(w, v, u)
  {}

  lemma NotifyParts(w: World)
    ensures var w' := Notify(w);
      && SameIndexes(w, w') && w'.ready == w.ready && w'.inactive == w.inactive && w'.changed == map[] && !w'.idle
      && w'.views == Tell(w.views, VisibleOf(w, w.changed))
  {
    hide VisibleOf, Tell;
  }

  lemma SameIndexesParts(w: World, w': World)
    requires SameIndexes(w, w')
    ensures w'.heap == w.heap && w'.byUid == w.byUid
  {}

  /** Announcing what waits leaves at most those behind that were excepted. */
  lemma NotifyBut(w: World, also: set<string>)
    requires ChangedLive(w) && AllCurrent(w, also) && NoGhosts(w)
    ensures AllCurrent(Notify(w), also) && NoGhosts(Notify(w))
  {
    var w' := Notify(w);
    NotifyParts(w);
    SameIndexesParts(w, w');
    hide Notify, VisibleOf, ViewCurrent, SameIndexes;
    forall v' | v' in w'.views ensures ViewCurrent(w', v', also) && v'.Keys <= w'.byUid.Keys {
      var i :| 0 <= i < |w.views| && v' == w.views[i] + VisibleOf(w, w.changed);
      assert w.views[i] in w.views;
      OneViewTold(w, w.views[i], also, w');
    }
  }

  lemma NothingWaits(w: World)
    requires w.changed == map[]
    ensures ChangedLive(w) && Promised(w)
  {}

  lemma NotifyCurrent(w: World, norm: Norm)
    requires ChangedLive(w) && AllCurrent(w, {}) && NoGhosts(w)
    ensures var w' := Notify(w); ChangedLive(w') && AllCurrent(w', {}) && NoGhosts(w') && Promised(w')
    ensures SameIndexes(w, Notify(w)) && Notify(w).ready == w.ready && Notify(w).changed == map[]
  {
    hide *;
    NotifyParts(w);
    NotifyBut(w, {});
    NothingWaits(Notify(w));
  }

  /** A contact other than those in `also` is as it was. */
  predicate Touched(w: World, w': World, u: string) {
    && (u in w.byUid ==> u in w'.byUid && w'.byUid[u] == w.byUid[u])
    && w'.views == w.views && w'.changed == w.changed
    && w.byUid.Keys <= w'.byUid.Keys
    && forall x :: x in w'.byUid && x != u ==> x in w.byUid && w'.byUid[x] == w.byUid[x] && At(w', w'.byUid[x]) == At(w, w.byUid[x])
  }

  lemma TouchedCurrent(w: World, w': World, u: string, also: set<string>)
    requires Touched(w, w', u) && AllCurrent(w, also) && NoGhosts(w)
    ensures AllCurrent(w', also + {u}) && NoGhosts(w')
  {
    forall v | v in w'.views ensures ViewCurrent(w', v, also + {u}) {
      assert ViewCurrent(w, v, also);
      forall x | x in w'.byUid && x !in w'.changed && x !in also + {u} && Visible(At(w', w'.byUid[x])) ensures Shows(w', v, x) {
        assert Shows(w, v, x);
      }
      hide At, Visible;
    }
  }

  // ---- Queueing ----

  lemma QueueOneChanged(w: World, c: Contact, persist: bool, cs: seq<Contact>)
    requires Live(w, c) && (forall x :: x in cs ==> Live(w, x)) && ChangedLive(w)
    ensures var w' := Queue(w, c, persist);
      && w'.changed.Keys == w.changed.Keys + {At(w, c).uid} && ChangedLive(w') && SameButQueues(w, w')
      && w'.heap == w.heap && forall x :: x in cs ==> Live(w', x)
  {
    var w' := Queue(w, c, persist);
    assert forall x :: At(w', x) == At(w, x);
    hide At;
  }

  function UidsAt(w: World, cs: seq<Contact>): set<string> {
    set c | c in cs :: At(w, c).uid
  }

  lemma UidsAtCons(w: World, cs: seq<Contact>)
    ensures cs == [] ==> UidsAt(w, cs) == {}
    ensures cs != [] ==> UidsAt(w, cs) == {At(w, cs[0]).uid} + UidsAt(w, cs[1..])
  {
    hide At;
    if cs != [] {
      assert forall c :: c in cs <==> c == cs[0] || c in cs[1..];
    }
  }

  lemma UidsAtSame(w: World, w': World, cs: seq<Contact>)
    requires w'.heap == w.heap
    ensures UidsAt(w', cs) == UidsAt(w, cs)
  {
    assert forall c :: At(w', c) == At(w, c);
    hide At;
  }

  /** The same indexes, views and switches. */
  predicate SameButQueues(w: World, w': World) {
    SameIndexes(w, w') && w'.views == w.views && w'.ready == w.ready && w'.inactive == w.inactive
  }

  lemma SameButTwice(w: World, w1: World, w2: World)
    requires SameButQueues(w, w1) && SameButQueues(w1, w2)
    ensures SameButQueues(w, w2)
  {}

  lemma QueueAllForm(w: World, cs: seq<Contact>, persist: bool)
    ensures QueueAll(w, cs, persist) == if cs == [] then w else QueueAll(Queue(w, cs[0], persist), cs[1..], persist)
  {
    hide Queue;
  }

  lemma {:induction false} QueueAllChanged(w: World, cs: seq<Contact>, persist: bool)
    requires (forall c :: c in cs ==> Live(w, c)) && ChangedLive(w)
    ensures var w' := QueueAll(w, cs, persist);
      && w'.changed.Keys == w.changed.Keys + UidsAt(w, cs) && ChangedLive(w') && SameButQueues(w, w')
    decreases |cs|
  {
    assert SameButQueues(w, w);
    hide *;
    UidsAtCons(w, cs);
    QueueAllForm(w, cs, persist);
    if cs != [] {
      var next := Queue(w, cs[0], persist);
      assert forall c :: c in cs[1..] ==> c in cs;
      QueueOneChanged(w, cs[0], persist, cs[1..]);
      UidsAtSame(w, next, cs[1..]);
      QueueAllChanged(next, cs[1..], persist);
      SameButTwice(w, next, QueueAll(w, cs, persist));
      JoinedSets(w.changed.Keys, {At(w, cs[0]).uid}, UidsAt(w, cs[1..]));
    } else {
      assert w.changed.Keys + {} == w.changed.Keys;
    }
  }

  lemma JoinedSets(a: set<string>, b: set<string>, c: set<string>)
    ensures (a + b) + c == a + (b + c)
  {}

  /** Whoever was touched waits now. */
  lemma QueuedCurrent(w: World, cs: seq<Contact>, persist: bool)
    requires (forall c :: c in cs ==> Live(w, c)) && ChangedLive(w) && AllCurrent(w, UidsAt(w, cs)) && NoGhosts(w)
    ensures var w' := UpdateContacts(w, cs, persist);
      && ChangedLive(w') && AllCurrent(w', {}) && NoGhosts(w') && Promised(w') && SameIndexes(w, w') && w'.ready == w.ready
  {
    QueueAllChanged(w, cs, persist);
    var w' := UpdateContacts(w, cs, persist);
    SameData(w, w');
    hide QueueAll, At, Live, UidsAt, SameCard, Visible;
    forall v | v in w'.views ensures ViewCurrent(w', v, {}) { assert ViewCurrent(w, v, UidsAt(w, cs)); }
  }

  // ---- Signals ----

  ghost predicate Receiving(b: Batch, norm: Norm) {
    && Inv(b.world, norm) && ChangedLive(b.world) && AllCurrent(b.world, UidsAt(b.world, b.contacts)) && NoGhosts(b.world)
    && forall c :: c in b.contacts ==> Live(b.world, c)
  }

  lemma UidsAtSnoc(w: World, cs: seq<Contact>, c: Contact, w': World)
    requires forall x :: x in cs + [c] ==> At(w', x).uid == At(w, x).uid
    ensures UidsAt(w', cs + [c]) == UidsAt(w, cs) + {At(w, c).uid}
  {
    hide At;
    assert forall x :: x in cs + [c] <==> x in cs || x == c;
  }

  lemma PutTouches(w: World, norm: Norm, c: Contact, d: ContactData)
    requires Inv(w, norm) && Live(w, c) && d.uid == At(w, c).uid
    ensures Touched(w, Put(w, c, d), d.uid)
  {
    forall u | u in w.byUid && w.byUid[u] == c ensures u == d.uid { assert UidEntry(w, u, c); }
  }

  lemma PutQueues(w: World, norm: Norm, c: Contact, d: ContactData, cs: seq<Contact>)
    requires Inv(w, norm) && Live(w, c) && d.uid == At(w, c).uid && ChangedLive(w)
    requires forall x :: x in cs ==> Live(w, x)
    ensures var w' := Put(w, c, d);
      && ChangedLive(w') && (forall x :: x in cs + [c] ==> Live(w', x)) && Touched(w, w', d.uid)
      && UidsAt(w', cs + [c]) == UidsAt(w, cs) + {d.uid}
  {
    PutTouches(w, norm, c, d);
    var w' := Put(w, c, d);
    assert forall x :: At(w', x).uid == At(w, x).uid;
    UidsAtSnoc(w, cs, c, w');
    hide Inv, UidsAt, At, Touched;
  }

  /** A contact of the indexes changes and is put on the list of those to announce. */
  lemma PutReceiving(b: Batch, norm: Norm, c: Contact, d: ContactData)
    requires Receiving(b, norm) && Live(b.world, c) && d.uid == At(b.world, c).uid && Inv(Put(b.world, c, d), norm)
    ensures Receiving(Batch(Put(b.world, c, d), b.contacts + [c]), norm)
  {
    PutQueues(b.world, norm, c, d, b.contacts);
    hide Inv, At, AllCurrent, NoGhosts, UidsAt, Touched, ChangedLive, Live;
    TouchedCurrent(b.world, Put(b.world, c, d), d.uid, UidsAt(b.world, b.contacts));
  }

  lemma ReceiveForm(b: Batch, kind: Kind, news: ContactData)
    ensures var w := b.world;
      Receive(b, kind, news) ==
        if news.handle !in w.byHandle then b
        else
          var c := w.byHandle[news.handle];
          Batch(Put(w, c, Received(kind, At(w, c), news)), b.contacts + [c])
  {
    hide At, Received;
  }

  lemma ReceiverIsLive(b: Batch, norm: Norm, handle: nat)
    requires Receiving(b, norm) && handle > 0 && handle in b.world.byHandle
    ensures var c := b.world.byHandle[handle]; Inv(b.world, norm) && Live(b.world, c) && IsNormal(norm, At(b.world, c))
  {
    assert HandleEntry(b.world, norm, handle, b.world.byHandle[handle]);
    hide Coherent, AddsSettled, AllCurrent;
  }

  lemma ReceivedIsMinor(norm: Norm, kind: Kind, d: ContactData, news: ContactData)
    requires IsNormal(norm, d)
    ensures Minor(norm, d, Received(kind, d, news)) && Received(kind, d, news).uid == d.uid
  {}

  lemma ReceiveCurrent(b: Batch, norm: Norm, kind: Kind, news: ContactData)
    requires Receiving(b, norm) && news.handle > 0
    ensures Receiving(Receive(b, kind, news), norm)
  {
    hide *;
    if news.handle in b.world.byHandle {
      var w, c := b.world, b.world.byHandle[news.handle];
      ReceiverIsLive(b, norm, news.handle);
      ReceivedIsMinor(norm, kind, At(w, c), news);
      PutKeeps(w, norm, c, Received(kind, At(w, c), news));
      PutReceiving(b, norm, c, Received(kind, At(w, c), news));
    }
    ReceiveForm(b, kind, news);
  }

  lemma {:induction false} ReceiveAllCurrent(b: Batch, norm: Norm, kind: Kind, news: seq<ContactData>)
    requires Receiving(b, norm) && Handled(news)
    ensures Receiving(ReceiveAll(b, kind, news), norm) && ReceiveAll(b, kind, news).world.ready == b.world.ready
    decreases |news|
  {
    if news != [] {
      ReceiveCurrent(b, norm, kind, news[0]);
      assert Receive(b, kind, news[0]).world.ready == b.world.ready;
      hide Receiving, Receive;
      ReceiveAllCurrent(Receive(b, kind, news[0]), norm, kind, news[1..]);
    }
  }

  lemma {:induction false} ReceiveAllIdle(b: Batch, kind: Kind, news: seq<ContactData>)
    ensures var b' := ReceiveAll(b, kind, news);
      (b'.contacts == [] ==> b' == b) && |b'.contacts| >= |b.contacts|
    decreases |news|
  {
    if news != [] { ReceiveAllIdle(Receive(b, kind, news[0]), kind, news[1..]); }
  }

  lemma SignalledCurrent(w: World, norm: Norm, kind: Kind, news: seq<ContactData>)
    requires UpToDate(w, norm) && Handled(news)
    ensures UpToDate(Signalled(w, kind, news), norm)
  {
    var start := Batch(w, []);
    UidsAtCons(w, []);
    ReceiveAllCurrent(start, norm, kind, news);
    ReceiveAllIdle(start, kind, news);
    SignalledKeeps(w, norm, kind, news);
    var b := ReceiveAll(start, kind, news);
    hide Inv, ReceiveAll, AllCurrent, NoGhosts, ChangedLive, Live, UidsAt;
    if b.contacts != [] { QueuedCurrent(b.world, b.contacts, Persists(kind)); }
  }

  // ---- Contacts that come in ----

  ghost predicate TakingIn(s: Intake, norm: Norm) {
    Receiving(Batch(s.world, s.toUpdate), norm)
  }

  lemma TakeInQueues(s: Intake, path: string, a: Arrival)
    ensures var w, w', name := s.world, TakeIn(s, path, a).world, NameOf(a.data);
      && w'.views == w.views && w'.changed == w.changed && w'.ready == w.ready
      && TakeIn(s, path, a).toUpdate == s.toUpdate + [if name in w.byName then w.byName[name] else a.id]
  {
    hide FreshUid, At, NameOf, AddKnown, Put;
    var w := s.world;
    if NameOf(a.data) in w.byName {
      PutViews(w, w.byName[NameOf(a.data)], AddKnown(At(w, w.byName[NameOf(a.data)]), a.data));
    } else {
      PutViews(w, a.id, WithUid(w, path, a.data));
    }
  }

  lemma PutViews(w: World, c: Contact, d: ContactData)
    ensures var w' := Put(w, c, d); w'.views == w.views && w'.changed == w.changed && w'.ready == w.ready
  {}

  /** A contact that came in: the others are as they were. */
  lemma KnownTouched(w: World, norm: Norm, a: Arrival, c: Contact, d: ContactData, w': World)
    requires Inv(w, norm) && Acceptable(w, norm, a) && Known(w, a, c, d, w')
    requires w'.views == w.views && w'.changed == w.changed
    ensures Touched(w, w', d.uid) && Live(w', c) && At(w', c).uid == d.uid
    ensures forall x :: x in w.heap ==> At(w', x).uid == At(w, x).uid
  {
    KnownEntries(w, norm, a, c, d, w');
    forall u | u in w.byUid && w.byUid[u] == c ensures u == d.uid { assert UidEntry(w, u, c); }
    forall u | u in w.byUid ensures w.byUid[u] in w.heap { assert UidEntry(w, u, w.byUid[u]); }
    hide Coherent, HandlesLive, AddsSettled, Acceptable;
  }

  lemma GrownTouched(w: World, norm: Norm, id: Contact, d: ContactData, w': World)
    requires Inv(w, norm) && Grown(w, norm, id, d, w') && w'.views == w.views && w'.changed == w.changed
    ensures Touched(w, w', d.uid) && Live(w', id) && At(w', id).uid == d.uid
    ensures forall x :: x in w.heap ==> At(w', x).uid == At(w, x).uid
  {
    NewEntries(w, id, d, w');
    forall u | u in w.byUid ensures w.byUid[u] in w.heap { assert UidEntry(w, u, w.byUid[u]); }
    hide Coherent, HandlesLive, AddsSettled, At;
  }

  /** One more contact was touched and collected. */
  lemma OneMoreTouched(w: World, norm: Norm, cs: seq<Contact>, c: Contact, u: string, w': World)
    requires Receiving(Batch(w, cs), norm) && Inv(w', norm) && Touched(w, w', u)
    requires Live(w', c) && At(w', c).uid == u && forall x :: Live(w, x) ==> Live(w', x)
    requires forall x :: x in w.heap ==> At(w', x).uid == At(w, x).uid
    ensures Receiving(Batch(w', cs + [c]), norm)
  {
    hide *;
    ReceivingParts(w, norm, cs);
    UidsAtMore(w, cs, c, w');
    TouchedCurrent(w, w', u, UidsAt(w, cs));
    TouchedLive(w, w', u);
    ReceivingWhole(w', norm, cs + [c]);
  }

  lemma ReceivingParts(w: World, norm: Norm, cs: seq<Contact>)
    requires Receiving(Batch(w, cs), norm)
    ensures ChangedLive(w) && AllCurrent(w, UidsAt(w, cs)) && NoGhosts(w)
    ensures forall x :: x in cs ==> x in w.heap && Live(w, x)
  {
    hide Inv, AllCurrent, NoGhosts, ChangedLive, At;
  }

  lemma ReceivingWhole(w: World, norm: Norm, cs: seq<Contact>)
    requires Inv(w, norm) && ChangedLive(w) && AllCurrent(w, UidsAt(w, cs)) && NoGhosts(w)
    requires forall x :: x in cs ==> Live(w, x)
    ensures Receiving(Batch(w, cs), norm)
  {}

  lemma TouchedLive(w: World, w': World, u: string)
    requires Touched(w, w', u) && ChangedLive(w)
    ensures ChangedLive(w')
  {
    hide At;
  }

  lemma UidsAtMore(w: World, cs: seq<Contact>, c: Contact, w': World)
    requires forall x :: x in cs ==> At(w', x).uid == At(w, x).uid
    ensures UidsAt(w', cs + [c]) == UidsAt(w, cs) + {At(w', c).uid}
  {
    hide At;
    assert forall x :: x in cs + [c] <==> x in cs || x == c;
  }

  lemma TakeInCurrent(s: Intake, norm: Norm, path: string, arrivals: seq<Arrival>)
    requires TakingIn(s, norm) && arrivals != [] && Consistent(s.world, norm, arrivals)
    ensures TakingIn(TakeIn(s, path, arrivals[0]), norm)
    ensures Consistent(TakeIn(s, path, arrivals[0]).world, norm, arrivals[1..])
    ensures TakeIn(s, path, arrivals[0]).world.ready == s.world.ready
  {
    var w, a := s.world, arrivals[0];
    var w' := TakeIn(s, path, a).world;
    assert Acceptable(w, norm, a) && Coherent(w) && Inv(w, norm) && Receiving(Batch(w, s.toUpdate), norm);
    hide *;
    TakeInCases(s, norm, path, a);
    TakeInQueues(s, path, a);
    TakeInKeeps(s, norm, path, arrivals);
    if NameOf(a.data) in w.byName {
      var c := w.byName[NameOf(a.data)];
      var d := AddKnown(At(w, c), a.data);
      KnownTouched(w, norm, a, c, d, w');
      KnownKeeps(w, norm, a, c, d, w');
      OneMoreTouched(w, norm, s.toUpdate, c, d.uid, w');
    } else {
      var d := WithUid(w, path, a.data);
      GrownTouched(w, norm, a.id, d, w');
      NewKeeps(w, norm, a.id, d, w');
      OneMoreTouched(w, norm, s.toUpdate, a.id, d.uid, w');
    }
    TakingInIs(TakeIn(s, path, a), norm);
  }

  lemma TakingInIs(s: Intake, norm: Norm)
    ensures TakingIn(s, norm) <==> Receiving(Batch(s.world, s.toUpdate), norm)
  {}

  lemma {:induction false} TakeInAllCurrent(s: Intake, norm: Norm, path: string, arrivals: seq<Arrival>)
    requires TakingIn(s, norm) && Consistent(s.world, norm, arrivals)
    ensures TakingIn(TakeInAll(s, path, arrivals), norm) && TakeInAll(s, path, arrivals).world.ready == s.world.ready
    decreases |arrivals|
  {
    hide TakingIn, Consistent, TakeIn;
    if arrivals != [] {
      TakeInCurrent(s, norm, path, arrivals);
      TakeInAllCurrent(TakeIn(s, path, arrivals[0]), norm, path, arrivals[1..]);
    }
  }

  /** The tables and the queue of the cache do not matter to views. */
  predicate SameViews(w: World, w': World) {
    SameIndexes(w, w') && w'.views == w.views && w'.changed == w.changed && w'.ready == w.ready
  }

  /** Neither do handles. */
  lemma EquallyShown(w: World, w': World, also: set<string>)
    requires w'.heap == w.heap && w'.byUid == w.byUid && w'.views == w.views && w'.changed == w.changed
    requires ChangedLive(w) && AllCurrent(w, also) && NoGhosts(w)
    ensures ChangedLive(w') && AllCurrent(w', also) && NoGhosts(w')
  {
    SameData(w, w');
    hide At, SameCard, Visible;
    forall v | v in w'.views ensures ViewCurrent(w', v, also) { ViewSame(w, w', v, also); }
  }

  lemma ViewSame(w: World, w': World, v: View, also: set<string>)
    requires w'.heap == w.heap && w'.byUid == w.byUid && w'.changed == w.changed && ViewCurrent(w, v, also)
    ensures ViewCurrent(w', v, also)
  {
    SameData(w, w');
    hide At, SameCard, Visible;
    forall u | u in w'.byUid && u !in w'.changed && u !in also && Visible(At(w', w'.byUid[u])) ensures Shows(w', v, u) {
      assert Shows(w, v, u);
    }
  }

  lemma SameViewsCurrent(w: World, w': World, also: set<string>)
    requires SameViews(w, w') && ChangedLive(w) && AllCurrent(w, also) && NoGhosts(w)
    ensures ChangedLive(w') && AllCurrent(w', also) && NoGhosts(w')
  {
    EquallyShown(w, w', also);
    hide ChangedLive, AllCurrent, NoGhosts;
  }

  lemma ArrivingCurrent(w: World, norm: Norm, path: string, arrivals: seq<Arrival>, flushed: bool, stored: bool)
    requires UpToDate(w, norm) && Consistent(w, norm, arrivals)
    ensures UpToDate(ContactsAdded(w, path, arrivals, flushed, stored), norm)
  {
    ContactsAddedKeeps(w, norm, path, arrivals, flushed, stored);
    UidsAtCons(w, []);
    TakeInAllCurrent(Intake(w, [], []), norm, path, arrivals);
    var s := TakeInAll(Intake(w, [], []), path, arrivals);
    var kept := StoreNew(Flush(s.world, flushed), s.toAdd, stored);
    UidsAtCons(s.world, s.toUpdate);
    StoredSame(s, flushed, stored);
    UidsAtSame(s.world, kept, s.toUpdate);
    var also := UidsAt(s.world, s.toUpdate);
    assert Inv(s.world, norm) && ChangedLive(s.world) && AllCurrent(s.world, also) && NoGhosts(s.world);
    assert forall c :: c in s.toUpdate ==> Live(s.world, c);
    hide Inv, TakeInAll, AllCurrent, NoGhosts, ChangedLive, UidsAt, StoreNew, Flush, QueueAll, Notify;
    OnlyIndexesMatter(s.world, kept, norm);
    SameViewsCurrent(s.world, kept, also);
    if s.toUpdate != [] {
      QueuedCurrent(kept, s.toUpdate, true);
      NotifyCurrent(UpdateContacts(kept, s.toUpdate, true), norm);
    } else {
      NotifyCurrent(kept, norm);
    }
  }

  lemma StoredSame(s: Intake, flushed: bool, stored: bool)
    ensures SameViews(s.world, StoreNew(Flush(s.world, flushed), s.toAdd, stored))
  {
    hide Commit, Values, DataAt;
  }

  // ---- Contacts that go ----

  lemma LeaveCurrent(b: Batch, norm: Norm, handle: nat)
    requires Receiving(b, norm) && Collected(b, norm) && handle > 0
    ensures Receiving(Leave(b, handle), norm) && Collected(Leave(b, handle), norm)
  {
    LeaveKeeps(b, norm, handle);
    if handle in b.world.byHandle {
      var w, c := b.world, b.world.byHandle[handle];
      var d := At(w, c);
      assert HandleEntry(w, norm, handle, c);
      hide Inv, Receiving, Collected, Live;
      PutReceiving(b, norm, c, d.(pendingFlags := d.pendingFlags - {SCHEDULE_DELETE}));
    }
  }

  lemma {:induction false} LeaveAllCurrent(b: Batch, norm: Norm, handles: seq<nat>)
    requires Receiving(b, norm) && Collected(b, norm) && 0 !in handles
    ensures Receiving(LeaveAll(b, handles), norm) && Collected(LeaveAll(b, handles), norm)
    ensures LeaveAll(b, handles).world.ready == b.world.ready
    ensures LeaveAll(b, handles).contacts == [] ==> LeaveAll(b, handles) == b
    ensures |LeaveAll(b, handles).contacts| >= |b.contacts|
    decreases |handles|
  {
    if handles != [] {
      assert handles[0] in handles;
      LeaveCurrent(b, norm, handles[0]);
      LeaveOnce(b, handles[0]);
      hide Receiving, Collected, Leave;
      LeaveAllCurrent(Leave(b, handles[0]), norm, handles[1..]);
    }
  }

  lemma LeaveOnce(b: Batch, handle: nat)
    ensures Leave(b, handle).world.ready == b.world.ready && |Leave(b, handle).contacts| >= |b.contacts|
    ensures Leave(b, handle).contacts == [] ==> Leave(b, handle) == b
  {}

  /** What a deletion tells the views before it takes the deleted contacts out of them. */
  function LastNews(w: World, cs: set<Contact>): View {
    VisibleOf(Unlink(w, cs), Unlink(w, cs).changed)
  }

  lemma DeleteTells(w: World, cs: set<Contact>, flushed: bool, removed: bool)
    ensures DeleteContacts(w, cs, flushed, removed).views == Forget(Tell(w.views, LastNews(w, cs)), UidsOf(w, cs))
  {
    var u := Unlink(w, cs);
    assert VisibleOf(Flush(u, flushed), u.changed) == VisibleOf(u, u.changed);
    hide Commit, VisibleOf, UidsOf, Tell, Forget;
  }

  /** The views after a deletion, one by one: told what waits, then without the deleted. */
  lemma DeleteViews(w: World, cs: set<Contact>, flushed: bool, removed: bool, v': View)
    requires v' in DeleteContacts(w, cs, flushed, removed).views
    ensures exists v :: v in w.views && v' == v + LastNews(w, cs) - UidsOf(w, cs)
  {
    DeleteTells(w, cs, flushed, removed);
    hide DeleteContacts, LastNews, UidsOf;
    var i :| 0 <= i < |w.views| && v' == w.views[i] + LastNews(w, cs) - UidsOf(w, cs);
    assert w.views[i] in w.views;
  }

  lemma LastNewsIs(w: World, cs: set<Contact>)
    ensures LastNews(w, cs) == VisibleOf(w, w.changed - UidsOf(w, cs))
  {
    var u := Unlink(w, cs);
    assert forall c :: At(u, c) == At(w, c);
    assert u.changed == w.changed - UidsOf(w, cs);
    hide At, UidsOf, Visible, Unlink;
  }

  lemma LastNewsAre(w: World, cs: set<Contact>)
    requires ChangedLive(w)
    ensures LastNews(w, cs).Keys <= w.byUid.Keys
    ensures forall x :: x in LastNews(w, cs) ==> LastNews(w, cs)[x] == At(w, w.byUid[x])
    ensures forall x :: x in w.changed && x !in UidsOf(w, cs) && Visible(At(w, w.byUid[x])) ==> x in LastNews(w, cs)
  {
    LastNewsIs(w, cs);
    hide At, UidsOf, Visible, LastNews;
  }

  lemma DeleteShapes(w: World, cs: set<Contact>, flushed: bool, removed: bool)
    ensures var w' := DeleteContacts(w, cs, flushed, removed);
      && w'.heap == w.heap && w'.byUid == w.byUid - UidsOf(w, cs) && w'.changed == map[] && w'.ready == w.ready
  {
    hide Commit, VisibleOf, UidsOf, Tell, Forget, DeleteMany;
  }

  /** A contact that stays is shown after a deletion: it was before, or it waited and is told. */
  lemma ShownAfter(w: World, cs: set<Contact>, v: View, w': World, x: string)
    requires ChangedLive(w) && ViewCurrent(w, v, UidsOf(w, cs))
    requires w'.heap == w.heap && w'.byUid == w.byUid - UidsOf(w, cs) && x in w'.byUid && Visible(At(w', w'.byUid[x]))
    ensures Shows(w', v + LastNews(w, cs) - UidsOf(w, cs), x)
  {
    LastNewsAre(w, cs);
    SameData(w, w');
    if x !in w.changed { assert Shows(w, v, x); }
    hide At, UidsOf, Visible, LastNews, ChangedLive, ViewCurrent, SameCard;
    if x in w.changed { ShowsItself(w', v + LastNews(w, cs) - UidsOf(w, cs), x); }
  }

  /** One view after a deletion. */
  lemma OneViewAfter(w: World, cs: set<Contact>, v: View, w': World)
    requires ChangedLive(w) && ViewCurrent(w, v, UidsOf(w, cs)) && v.Keys <= w.byUid.Keys
    requires w'.heap == w.heap && w'.byUid == w.byUid - UidsOf(w, cs) && w'.changed == map[]
    ensures var v' := v + LastNews(w, cs) - UidsOf(w, cs);
      ViewCurrent(w', v', {}) && v'.Keys <= w'.byUid.Keys
  {
    var v' := v + LastNews(w, cs) - UidsOf(w, cs);
    assert (forall x :: x in w'.byUid && Visible(At(w', w'.byUid[x])) ==> Shows(w', v', x)) ==> ViewCurrent(w', v', {});
    hide *;
    LastNewsAre(w, cs);
    TrimmedKeys(v, LastNews(w, cs), UidsOf(w, cs), w.byUid.Keys);
    assert w'.byUid.Keys == w.byUid.Keys - UidsOf(w, cs);
    forall x | x in w'.byUid && Visible(At(w', w'.byUid[x])) ensures Shows(w', v', x) { ShownAfter(w, cs, v, w', x); }
  }

  lemma SameData(w: World, w': World)
    requires w'.heap == w.heap
    ensures forall c :: At(w', c) == At(w, c)
  {}

  lemma TrimmedKeys(v: View, news: View, gone: set<string>, known: set<string>)
    requires v.Keys <= known && news.Keys <= known
    ensures (v + news - gone).Keys <= known - gone
  {}

  lemma DeleteCurrent(w: World, cs: set<Contact>, flushed: bool, removed: bool)
    requires ChangedLive(w) && AllCurrent(w, UidsOf(w, cs)) && NoGhosts(w)
    ensures var w' := DeleteContacts(w, cs, flushed, removed);
      ChangedLive(w') && AllCurrent(w', {}) && NoGhosts(w') && Promised(w')
  {
    var w' := DeleteContacts(w, cs, flushed, removed);
    DeleteShapes(w, cs, flushed, removed);
    hide DeleteContacts, ViewCurrent, LastNews, UidsOf;
    forall v' | v' in w'.views ensures ViewCurrent(w', v', {}) && v'.Keys <= w'.byUid.Keys {
      DeleteViews(w, cs, flushed, removed, v');
      var v :| v in w.views && v' == v + LastNews(w, cs) - UidsOf(w, cs);
      OneViewAfter(w, cs, v, w');
    }
  }

  lemma SetUids(w: World, cs: seq<Contact>)
    ensures UidsAt(w, cs) == UidsOf(w, SetOf(cs))
  {
    hide At;
  }

  lemma LeavingCurrent(w: World, norm: Norm, handles: seq<nat>, flushed: bool, removed: bool)
    requires UpToDate(w, norm) && 0 !in handles
    ensures UpToDate(ContactsRemoved(w, handles, flushed, removed), norm)
  {
    ContactsRemovedKeeps(w, norm, handles, flushed, removed);
    UidsAtCons(w, []);
    LeaveAllCurrent(Batch(w, []), norm, handles);
    var b := LeaveAll(Batch(w, []), handles);
    SetUids(b.world, b.contacts);
    hide Inv, LeaveAll, AllCurrent, NoGhosts, ChangedLive, UidsAt, UidsOf, Collected, DeleteContacts;
    if b.contacts != [] {
      DeleteShapes(b.world, SetOf(b.contacts), flushed, removed);
      DeleteCurrent(b.world, SetOf(b.contacts), flushed, removed);
    }
  }

  // ---- Idles, new views, inactivity ----

  lemma IdlingCurrent(w: World, norm: Norm, flushed: bool)
    requires UpToDate(w, norm)
    ensures UpToDate(IdleUpdate(w, flushed), norm)
  {
    NotifyCurrent(w, norm);
    OthersKeepCoherence(w, norm, false, flushed);
    var told := if !w.inactive || |w.changed| > MAX_PENDING_CONTACTS then Notify(w) else w;
    hide Inv, AllCurrent, NoGhosts, ChangedLive, Notify, Commit;
    IdleSame(told, flushed);
    SameViewsCurrent(told, Flush(told, flushed).(idle := false), {});
  }

  lemma IdleSame(w: World, flushed: bool)
    ensures SameViews(w, Flush(w, flushed).(idle := false))
  {
    hide Commit, Values;
  }

  lemma ViewingCurrent(w: World, norm: Norm)
    requires UpToDate(w, norm)
    ensures UpToDate(StartView(w), norm)
  {
    NotifyCurrent(w, norm);
    OthersKeepCoherence(w, norm, false, false);
    var told := Notify(w);
    hide Inv, Notify, VisibleOf, ViewCurrent;
    ListingCurrent(told);
    MoreViews(told, VisibleOf(told, told.byUid), StartView(w));
  }

  lemma ListingCurrent(w: World)
    ensures ViewCurrent(w, VisibleOf(w, w.byUid), {}) && VisibleOf(w, w.byUid).Keys <= w.byUid.Keys
  {
    hide At, Visible;
  }

  lemma MoreViews(w: World, listing: View, w': World)
    requires w' == w.(views := w.views + [listing])
    requires AllCurrent(w, {}) && NoGhosts(w) && ViewCurrent(w, listing, {}) && listing.Keys <= w.byUid.Keys
    ensures AllCurrent(w', {}) && NoGhosts(w')
  {
    assert forall c :: At(w', c) == At(w, c);
    hide At, Visible;
    forall v | v in w'.views ensures ViewCurrent(w', v, {}) { assert ViewCurrent(w, v, {}); }
  }

  lemma RestingCurrent(w: World, norm: Norm, inactive: bool)
    requires UpToDate(w, norm)
    ensures UpToDate(SetInactivity(w, inactive), norm)
  {
    var now := w.(inactive := inactive);
    OthersKeepCoherence(w, norm, inactive, false);
    InactiveSame(w, inactive);
    hide Inv, AllCurrent, NoGhosts, ChangedLive, Notify;
    SameViewsCurrent(w, now, {});
    NotifyCurrent(now, norm);
  }

  lemma InactiveSame(w: World, inactive: bool)
    ensures SameViews(w, w.(inactive := inactive))
  {}

  /** While the device is inactive, idles tell views nothing until more than fifty contacts wait; once it is
      used again, nothing waits. */
  lemma QuietWhileInactive(w: World, flushed: bool)
    ensures var resting := SetInactivity(w, true);
      && resting.inactive && resting.views == w.views && resting.changed == w.changed
      && var idle := IdleUpdate(resting, flushed);
         && idle.inactive && !idle.idle && idle.dirty == map[]
         && (if |w.changed| <= 50 then idle.views == w.views && idle.changed == w.changed else idle.changed == map[])
         && !SetInactivity(idle, false).inactive && SetInactivity(idle, false).changed == map[]
  {
    hide Commit, Values, Tell, VisibleOf;
    var idle := IdleUpdate(SetInactivity(w, true), flushed);
    if |idle.changed| == 0 { assert idle.changed == map[]; }
  }

  lemma DisconnectingCurrent(w: World, norm: Norm)
    requires UpToDate(w, norm)
    ensures UpToDate(GoOffline(w), norm)
  {
    NoHandlesLeft(w, norm);
    hide Inv, AllCurrent, NoGhosts, ChangedLive;
    EquallyShown(w, GoOffline(w), {});
  }

  lemma NotifyingCurrent(w: World, norm: Norm)
    requires UpToDate(w, norm)
    ensures UpToDate(Notify(w), norm)
  {
    NotifyCurrent(w, norm);
    hide Notify, AllCurrent, NoGhosts;
    OnlyIndexesMatter(w, Notify(w), norm);
  }

  // ---- Loading ----

  /** The members becoming ready brings every view that is already there up to date. */
  lemma LoadingBringsUpToDate(w: World, norm: Norm, arrivals: seq<Arrival>)
    requires Bare(w) && Loadable(arrivals) && DistinctNames(arrivals)
    requires forall i :: 0 <= i < |arrivals| ==> arrivals[i].id !in w.heap
    requires w.changed == map[] && forall v :: v in w.views ==> v == map[]
    ensures UpToDate(Load(w, arrivals), norm)
  {
    var l, w' := LoadAll(w, arrivals), Load(w, arrivals);
    LoadKeeps(w, norm, arrivals);
    LoadAllViews(w, arrivals);
    LoadIs(w, arrivals);
    hide *;
    ListingCurrent(l);
    forall v | v in w'.views ensures ViewCurrent(w', v, {}) && v.Keys <= w'.byUid.Keys {
      OnlyListing(l, v);
      ViewSame(l, w', v, {});
    }
    EachViewCurrent(w');
    NothingWaits(w');
    UpToDateWhen(w', norm);
  }

  lemma LoadIs(w: World, arrivals: seq<Arrival>)
    ensures var l, w' := LoadAll(w, arrivals), Load(w, arrivals);
      && w'.heap == l.heap && w'.byUid == l.byUid && w'.changed == l.changed && w'.ready
      && w'.views == Tell(l.views, VisibleOf(l, l.byUid))
  {
    hide LoadAll, VisibleOf, Tell;
  }

  lemma OnlyListing(l: World, v: View)
    requires v in Tell(l.views, VisibleOf(l, l.byUid)) && forall x :: x in l.views ==> x == map[]
    ensures v == VisibleOf(l, l.byUid)
  {
    var listing := VisibleOf(l, l.byUid);
    hide VisibleOf;
    var i :| 0 <= i < |l.views| && v == l.views[i] + listing;
    assert l.views[i] in l.views;
    assert map[] + listing == listing;
  }

  lemma EachViewCurrent(w: World)
    requires forall v :: v in w.views ==> ViewCurrent(w, v, {}) && v.Keys <= w.byUid.Keys
    ensures AllCurrent(w, {}) && NoGhosts(w)
  {
    hide ViewCurrent;
  }

  lemma {:induction false} LoadAllViews(w: World, arrivals: seq<Arrival>)
    ensures var l := LoadAll(w, arrivals); l.views == w.views && l.changed == w.changed
    decreases |arrivals|
  {
    if arrivals != [] {
      hide Marked, NameOf;
      LoadAllViews(LoadOne(w, arrivals[0]), arrivals[1..]);
    }
  }
}
