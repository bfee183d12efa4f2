/** What the arrival of contacts writes: the fields of known contacts and of new ones. */
module ArrivalFields {
  import opened Flags
  import opened ContactValues
  import opened Contacts
  import opened Uids
  import opened Worlds
  import opened Coherence
  import opened Reconcile
  import opened MemberFields
  import Soundness

  /** What a known contact is after `news` came in about its name: the flags, the handle and the alias are
      those of the last news, its addition is not pending any more, and everything else is as before. */
  ghost predicate TakenOn(before: ContactData, news: seq<ContactData>, after: ContactData) {
    var last := if news == [] then before else news[|news| - 1];
    && after.flags == last.flags && after.handle == last.handle && after.alias == last.alias
    && (forall f :: f in after.pendingFlags <==> f in before.pendingFlags && (f == SCHEDULE_ADD ==> news == []))
    && after.uid == before.uid && after.name == before.name && after.masterUids == before.masterUids
    && after.variants == before.variants && after.capabilities == before.capabilities
    && after.genericStatus == before.genericStatus && after.status == before.status
    && after.statusMessage == before.statusMessage && after.avatarToken == before.avatarToken
    && after.contactInfo == before.contactInfo
  }

  lemma TakesOn(before: ContactData, news: seq<ContactData>, x: ContactData, b: ContactData)
    requires TakenOn(before, news, x)
    ensures TakenOn(before, news + [b], AddKnown(x, b))
  {}

  lemma NothingCame(d: ContactData)
    ensures TakenOn(d, [], d)
  {}

  /** What became of a name: a known contact took on what came in about it, and one that nobody had is as
      it first came in, under a uid that nobody had, and took on what came in after that. */
  ghost predicate Arrived(w: World, news: seq<ContactData>, n: string, w': World) {
    if n in w.byName then
      var c := w.byName[n];
      n in w'.byName && w'.byName[n] == c && TakenOn(At(w, c), news, At(w', c))
    else if news == [] then n !in w'.byName
    else
      && n in w'.byName && At(w', w'.byName[n]).uid !in w.byUid
      && TakenOn(news[0].(uid := At(w', w'.byName[n]).uid), news[1..], At(w', w'.byName[n]))
  }

  /** An arrival is written to its own object and to no other. */
  lemma TakeInWrites(s: Intake, path: string, a: Arrival)
    requires NameOf(a.data) in s.world.byName ==> s.world.byName[NameOf(a.data)] == a.id
    ensures var w, w', name := s.world, TakeIn(s, path, a).world, NameOf(a.data);
      && w'.heap == w.heap[a.id := if name in w.byName then AddKnown(At(w, a.id), a.data) else WithUid(w, path, a.data)]
      && w'.byName == w.byName[name := a.id] && w.byUid.Keys <= w'.byUid.Keys
  {
    hide At, NameOf, FreshUid, AddKnown;
    var w, name := s.world, NameOf(a.data);
    if name in w.byName { assert w.byName == w.byName[name := a.id]; }
  }

  lemma OtherName(w: World, news: seq<ContactData>, n: string, w1: World, a: Arrival, d: ContactData, w': World)
    requires Arrived(w, news, n, w1) && NameOf(a.data) != n
    requires w'.heap == w1.heap[a.id := d] && w'.byName == w1.byName[NameOf(a.data) := a.id]
    requires n in w1.byName ==> w1.byName[n] != a.id
    ensures Arrived(w, news, n, w')
  {
    hide TakenOn, NameOf;
  }

  lemma KnownArrives(w: World, news: seq<ContactData>, w1: World, a: Arrival, w': World)
    requires var n := NameOf(a.data);
      && Arrived(w, news, n, w1) && n in w.byName && n in w1.byName && w1.byName[n] == a.id
      && w'.heap == w1.heap[a.id := AddKnown(At(w1, a.id), a.data)] && w'.byName == w1.byName[n := a.id]
    ensures Arrived(w, news + [a.data], NameOf(a.data), w')
  {
    TakesOn(At(w, a.id), news, At(w1, a.id), a.data);
    hide TakenOn, NameOf, AddKnown;
  }

  lemma FirstArrives(w: World, path: string, w1: World, a: Arrival, w': World)
    requires var n := NameOf(a.data);
      && n !in w.byName && w'.heap == w1.heap[a.id := WithUid(w1, path, a.data)] && w'.byName == w1.byName[n := a.id]
      && w.byUid.Keys <= w1.byUid.Keys
    ensures Arrived(w, [] + [a.data], NameOf(a.data), w')
  {
    var d := WithUid(w1, path, a.data);
    NothingCame(d);
    assert d == a.data.(uid := d.uid) && [a.data][1..] == [] && [] + [a.data] == [a.data];
    hide TakenOn, NameOf, FreshUid;
  }

  lemma LaterArrives(w: World, news: seq<ContactData>, w1: World, a: Arrival, w': World)
    requires var n := NameOf(a.data);
      && Arrived(w, news, n, w1) && n !in w.byName && news != [] && n in w1.byName && w1.byName[n] == a.id
      && w'.heap == w1.heap[a.id := AddKnown(At(w1, a.id), a.data)] && w'.byName == w1.byName[n := a.id]
    ensures Arrived(w, news + [a.data], NameOf(a.data), w')
  {
    TakesOn(news[0].(uid := At(w1, a.id).uid), news[1..], At(w1, a.id), a.data);
    assert (news + [a.data])[1..] == news[1..] + [a.data];
    AddKnownUid(At(w1, a.id), a.data);
    hide TakenOn, NameOf, AddKnown;
  }

  lemma AddKnownUid(d: ContactData, b: ContactData)
    ensures AddKnown(d, b).uid == d.uid
  {}

  lemma ThisName(w: World, news: seq<ContactData>, path: string, w1: World, a: Arrival, w': World)
    requires var n := NameOf(a.data);
      && Arrived(w, news, n, w1) && (n in w1.byName ==> w1.byName[n] == a.id)
      && w'.heap == w1.heap[a.id := if n in w1.byName then AddKnown(At(w1, a.id), a.data) else WithUid(w1, path, a.data)]
      && w'.byName == w1.byName[n := a.id] && w.byUid.Keys <= w1.byUid.Keys
    ensures Arrived(w, news + [a.data], NameOf(a.data), w')
  {
    var n := NameOf(a.data);
    assert n in w.byName || news != [] ==> n in w1.byName;
    assert n !in w.byName && news == [] ==> n !in w1.byName;
    hide *;
    if n in w.byName {
      KnownArrives(w, news, w1, a, w');
    } else if news == [] {
      FirstArrives(w, path, w1, a, w');
    } else {
      LaterArrives(w, news, w1, a, w');
    }
  }

  lemma {:induction false} ArrivedTo(w: World, path: string, arrivals: seq<Arrival>, i: nat, n: string)
    requires Coherent(w) && Identified(w, arrivals) && i <= |arrivals|
    ensures var w' := TakeInAll(Intake(w, [], []), path, arrivals[..i]).world;
      Placing(w, arrivals[..i], w') && w.byUid.Keys <= w'.byUid.Keys && Arrived(w, About(arrivals[..i], n), n, w')
  {
    if i == 0 {
      assert arrivals[..0] == [] && NamesIn([]) == {};
      if n in w.byName { NothingCame(At(w, w.byName[n])); }
    } else {
      hide *;
      var done, a := arrivals[..i - 1], arrivals[i - 1];
      assert arrivals[..i] == done + [a];
      ArrivedTo(w, path, arrivals, i - 1, n);
      Soundness.TakeInAllStep(Intake(w, [], []), path, done, a);
      var s := TakeInAll(Intake(w, [], []), path, done);
      var w' := TakeIn(s, path, a).world;
      PlacedThen(w, arrivals, i - 1, s.world);
      TakeInWrites(s, path, a);
      PlacingMore(w, done, s.world, a, w');
      AboutMore(done, a, n);
      if NameOf(a.data) == n {
        ThisName(w, About(done, n), path, s.world, a, w');
      } else {
        if n in s.world.byName { ApartFrom(w, arrivals, i - 1, n, s.world); }
        OtherName(w, About(done, n), n, s.world, a, w'.heap[a.id], w');
        assert About(done, n) + [] == About(done, n);
      }
    }
  }

  /** What is stored and announced changes no field. */
  lemma OnlyTold(w: World, path: string, arrivals: seq<Arrival>, flushed: bool, stored: bool)
    ensures var w', t := ContactsAdded(w, path, arrivals, flushed, stored), TakeInAll(Intake(w, [], []), path, arrivals).world;
      w'.heap == t.heap && w'.byName == t.byName && w'.byUid == t.byUid && w'.byHandle == t.byHandle
  {
    hide *;
    var s := TakeInAll(Intake(w, [], []), path, arrivals);
    Soundness.ContactsAddedIs(w, path, arrivals, flushed, stored);
    Soundness.FlushParts(s.world, flushed);
    var f := Flush(s.world, flushed);
    StoredParts(f, s.toAdd, stored);
    var kept := StoreNew(f, s.toAdd, stored);
    QueuedParts(kept, s.toUpdate);
    Soundness.NotifyParts(kept);
    Soundness.NotifyParts(UpdateContacts(kept, s.toUpdate, true));
  }

  lemma StoredParts(w: World, cs: seq<Contact>, stored: bool)
    ensures var w' := StoreNew(w, cs, stored);
      w'.heap == w.heap && w'.byName == w.byName && w'.byUid == w.byUid && w'.byHandle == w.byHandle
  {
    hide Commit, DataAt;
  }

  lemma QueuedParts(w: World, cs: seq<Contact>)
    ensures var w' := UpdateContacts(w, cs, true);
      w'.heap == w.heap && w'.byName == w.byName && w'.byUid == w.byUid && w'.byHandle == w.byHandle
  {
    QueueAllTouches(w, cs, true);
    hide QueueAll;
  }

  lemma ArrivedSame(w: World, news: seq<ContactData>, n: string, w1: World, w': World)
    requires Arrived(w, news, n, w1) && w'.heap == w1.heap && w'.byName == w1.byName
    ensures Arrived(w, news, n, w')
  {
    hide TakenOn;
  }

  /** The arrival of contacts, field by field: for every list of them and every name, in the order in which
      they come. */
  lemma ArrivalsTell(w: World, path: string, arrivals: seq<Arrival>, flushed: bool, stored: bool, n: string)
    requires Coherent(w) && Identified(w, arrivals)
    ensures Arrived(w, About(arrivals, n), n, ContactsAdded(w, path, arrivals, flushed, stored))
  {
    assert arrivals[..|arrivals|] == arrivals;
    hide *;
    ArrivedTo(w, path, arrivals, |arrivals|, n);
    OnlyTold(w, path, arrivals, flushed, stored);
    ArrivedSame(w, About(arrivals, n), n, TakeInAll(Intake(w, [], []), path, arrivals).world,
                ContactsAdded(w, path, arrivals, flushed, stored));
  }
}
