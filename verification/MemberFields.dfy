/** What phase 1 takes over from the roster, field by field. */
module MemberFields {
  import opened Text
  import opened Flags
  import opened ContactValues
  import opened Contacts
  import opened Uids
  import opened Worlds
  import opened Coherence
  import opened Reconcile
  import opened RosterViews
  import Soundness

  /** What the roster says about a name, in order. */
  function About(arrivals: seq<Arrival>, name: string): seq<ContactData> {
    if arrivals == [] then []
    else
      var init, last := arrivals[..|arrivals| - 1], arrivals[|arrivals| - 1];
      About(init, name) + if NameOf(last.data) == name then [last.data] else []
  }

  /** NULLs tell nothing; of what was told, the last counts. */
  ghost predicate LastTold<T(!new)>(before: Option<T>, told: seq<Option<T>>, after: Option<T>) {
    && ((forall k :: 0 <= k < |told| ==> told[k].None?) ==> after == before)
    && (forall k :: 0 <= k < |told| && told[k].Some? && (forall j :: k < j < |told| ==> told[j].None?) ==> after == told[k])
  }

  function Aliases(news: seq<ContactData>): seq<Option<string>> {
    seq(|news|, i requires 0 <= i < |news| => news[i].alias)
  }

  function Statuses(news: seq<ContactData>): seq<Option<string>> {
    seq(|news|, i requires 0 <= i < |news| => news[i].status)
  }

  function Messages(news: seq<ContactData>): seq<Option<string>> {
    seq(|news|, i requires 0 <= i < |news| => news[i].statusMessage)
  }

  function Infos(news: seq<ContactData>): seq<Option<Card>> {
    seq(|news|, i requires 0 <= i < |news| => news[i].contactInfo)
  }

  /** What a known contact is after the roster said `news` about it: a NULL alias, status, message or info
      leaves what was there and a present one replaces it; status kind and handle are those told last; the
      mark of an unseen contact is gone; everything else is as before. */
  ghost predicate TakenOver(before: ContactData, news: seq<ContactData>, after: ContactData) {
    && LastTold(before.alias, Aliases(news), after.alias)
    && LastTold(before.status, Statuses(news), after.status)
    && LastTold(before.statusMessage, Messages(news), after.statusMessage)
    && LastTold(before.contactInfo, Infos(news), after.contactInfo)
    && after.genericStatus == (if news == [] then before else news[|news| - 1]).genericStatus
    && after.handle == (if news == [] then before else news[|news| - 1]).handle
    && (forall f :: f in after.flags <==> f in before.flags && (f == CONTACT_UNSEEN ==> news == []))
    && after.uid == before.uid && after.name == before.name && after.masterUids == before.masterUids
    && after.variants == before.variants && after.pendingFlags == before.pendingFlags
    && after.capabilities == before.capabilities && after.avatarToken == before.avatarToken
  }

  lemma ToldOnce<T(!new)>(before: Option<T>, told: seq<Option<T>>, x: Option<T>, t: Option<T>)
    requires LastTold(before, told, x)
    ensures LastTold(before, told + [t], Newer(x, t))
  {
    var more, y := told + [t], Newer(x, t);
    assert y == if t.Some? then t else x;
    if forall k :: 0 <= k < |more| ==> more[k].None? {
      assert more[|told|] == t;
      assert forall k :: 0 <= k < |told| ==> told[k] == more[k];
    }
    forall k | 0 <= k < |more| && more[k].Some? && (forall j :: k < j < |more| ==> more[j].None?) ensures y == more[k] {
      if k < |told| {
        assert more[|told|] == t;
        assert forall j :: k < j < |told| ==> told[j] == more[j];
      }
    }
  }

  lemma MoreTold(news: seq<ContactData>, b: ContactData)
    ensures Aliases(news + [b]) == Aliases(news) + [b.alias] && Statuses(news + [b]) == Statuses(news) + [b.status]
    ensures Messages(news + [b]) == Messages(news) + [b.statusMessage] && Infos(news + [b]) == Infos(news) + [b.contactInfo]
  {}

  /** One more piece of news. */
  lemma TakesOver(before: ContactData, news: seq<ContactData>, x: ContactData, b: ContactData)
    requires TakenOver(before, news, x)
    ensures TakenOver(before, news + [b], Refreshed(x, b))
  {
    MoreTold(news, b);
    ToldOnce(before.alias, Aliases(news), x.alias, b.alias);
    ToldOnce(before.status, Statuses(news), x.status, b.status);
    ToldOnce(before.statusMessage, Messages(news), x.statusMessage, b.statusMessage);
    ToldOnce(before.contactInfo, Infos(news), x.contactInfo, b.contactInfo);
    hide LastTold, Newer, Aliases, Statuses, Messages, Infos;
  }

  lemma NothingTold(d: ContactData)
    ensures TakenOver(d, [], d)
  {}

  // ---- Which object an arrival is about ----

  /** Names keep their objects, and those of the arrivals so far have the objects these came with. */
  ghost predicate Placing(w: World, done: seq<Arrival>, w': World) {
    && w'.byName.Keys == w.byName.Keys + NamesIn(done)
    && (forall n :: n in w.byName ==> w'.byName[n] == w.byName[n])
    && (forall a :: a in done ==> w'.byName[NameOf(a.data)] == a.id)
  }

  /** An arrival whose name is known by now comes with the object of that name. */
  lemma PlacedThen(w: World, arrivals: seq<Arrival>, i: nat, w': World)
    requires Identified(w, arrivals) && i < |arrivals| && Placing(w, arrivals[..i], w')
    ensures var a := arrivals[i]; NameOf(a.data) in w'.byName ==> w'.byName[NameOf(a.data)] == a.id
  {
    var a, done := arrivals[i], arrivals[..i];
    hide NameOf;
    if NameOf(a.data) in w'.byName {
      if NameOf(a.data) in w.byName {
        assert Placed(w, a);
      } else {
        assert NameOf(a.data) in NamesIn(done);
        var b :| b in done && NameOf(b.data) == NameOf(a.data);
        var j :| 0 <= j < i && arrivals[j] == b;
        assert Together(w, arrivals[j], a);
      }
    }
  }

  /** A member is written to its own object and to no other. */
  lemma MeetWrites(s: Intake, path: string, a: Arrival)
    requires NameOf(a.data) in s.world.byName ==> s.world.byName[NameOf(a.data)] == a.id
    ensures var w, w', name := s.world, Meet(s, path, a).world, NameOf(a.data);
      && w'.heap == w.heap[a.id := if name in w.byName then Refreshed(At(w, a.id), a.data) else WithUid(w, path, a.data)]
      && w'.byName == w.byName[name := a.id] && w.byUid.Keys <= w'.byUid.Keys
  {
    hide *;
    var w, name := s.world, NameOf(a.data);
    MeetForm(s, path, a);
    if name in w.byName {
      var p := Put(w, a.id, Refreshed(At(w, a.id), a.data));
      Soundness.PutParts(w, a.id, Refreshed(At(w, a.id), a.data));
      Soundness.IndexHandleParts(p, a.data.handle, a.id);
      Soundness.IndexHandleNames(p, a.data.handle, a.id);
      IndexHandleUids(p, a.data.handle, a.id);
      assert w.byName == w.byName[name := a.id];
    } else {
      var d := WithUid(w, path, a.data);
      var e := Soundness.Entered(w, a.id, d, w.byName[name := a.id], w.byHandle);
      Soundness.EnteredParts(w, a.id, d, w.byName[name := a.id], w.byHandle);
      Soundness.IndexHandleParts(e, a.data.handle, a.id);
      Soundness.IndexHandleNames(e, a.data.handle, a.id);
      IndexHandleUids(e, a.data.handle, a.id);
    }
  }

  lemma IndexHandleUids(w: World, handle: nat, c: Contact)
    ensures IndexHandle(w, handle, c).byUid == w.byUid
  {}

  lemma PlacingMore(w: World, done: seq<Arrival>, w1: World, a: Arrival, w': World)
    requires Placing(w, done, w1) && w'.byName == w1.byName[NameOf(a.data) := a.id]
    requires NameOf(a.data) in w1.byName ==> w1.byName[NameOf(a.data)] == a.id
    ensures Placing(w, done + [a], w')
  {
    NamesSnoc(done, a);
    hide NameOf, NamesIn;
    forall x | x in done + [a] ensures NameOf(x.data) in w'.byName && w'.byName[NameOf(x.data)] == x.id {
      if x in done { InNames(done, x); }
    }
  }

  lemma InNames(done: seq<Arrival>, x: Arrival)
    requires x in done
    ensures NameOf(x.data) in NamesIn(done)
  {}

  // ---- One name ----

  /** What became of a name: a known one took over what was said about it, one that nobody had is as its
      first entry said, under a uid that nobody had, and took over what was said after that. */
  ghost predicate Followed(w: World, news: seq<ContactData>, n: string, w': World) {
    if n in w.byName then
      var c := w.byName[n];
      n in w'.byName && w'.byName[n] == c && TakenOver(At(w, c), news, At(w', c))
    else if news == [] then n !in w'.byName
    else
      && n in w'.byName && At(w', w'.byName[n]).uid !in w.byUid
      && TakenOver(news[0].(uid := At(w', w'.byName[n]).uid), news[1..], At(w', w'.byName[n]))
  }

  lemma AboutMore(done: seq<Arrival>, a: Arrival, n: string)
    ensures About(done + [a], n) == About(done, n) + if NameOf(a.data) == n then [a.data] else []
  {
    assert (done + [a])[..|done|] == done;
    hide NameOf;
  }

  /** An entry about another name. */
  lemma OtherName(w: World, news: seq<ContactData>, n: string, w1: World, a: Arrival, d: ContactData, w': World)
    requires Followed(w, news, n, w1) && NameOf(a.data) != n
    requires w'.heap == w1.heap[a.id := d] && w'.byName == w1.byName[NameOf(a.data) := a.id]
    requires n in w1.byName ==> w1.byName[n] != a.id
    ensures Followed(w, news, n, w')
  {
    hide TakenOver, NameOf;
  }

  /** An entry about the name. */
  lemma ThisName(w: World, news: seq<ContactData>, path: string, w1: World, a: Arrival, w': World)
    requires var n := NameOf(a.data);
      && Followed(w, news, n, w1) && (n in w1.byName ==> w1.byName[n] == a.id)
      && w'.heap == w1.heap[a.id := if n in w1.byName then Refreshed(At(w1, a.id), a.data) else WithUid(w1, path, a.data)]
      && w'.byName == w1.byName[n := a.id] && w.byUid.Keys <= w1.byUid.Keys
    ensures Followed(w, news + [a.data], NameOf(a.data), w')
  {
    var n := NameOf(a.data);
    assert n in w.byName || news != [] ==> n in w1.byName;
    assert n !in w.byName && news == [] ==> n !in w1.byName;
    hide *;
    if n in w.byName {
      KnownFollows(w, news, w1, a, w');
    } else if news == [] {
      FirstFollows(w, path, w1, a, w');
    } else {
      LaterFollows(w, news, w1, a, w');
    }
  }

  lemma KnownFollows(w: World, news: seq<ContactData>, w1: World, a: Arrival, w': World)
    requires var n := NameOf(a.data);
      && Followed(w, news, n, w1) && n in w.byName && n in w1.byName && w1.byName[n] == a.id
      && w'.heap == w1.heap[a.id := Refreshed(At(w1, a.id), a.data)] && w'.byName == w1.byName[n := a.id]
    ensures Followed(w, news + [a.data], NameOf(a.data), w')
  {
    TakesOver(At(w, a.id), news, At(w1, a.id), a.data);
    hide TakenOver, NameOf, Refreshed;
  }

  lemma FirstFollows(w: World, path: string, w1: World, a: Arrival, w': World)
    requires var n := NameOf(a.data);
      && Followed(w, [], n, w1) && n !in w.byName
      && w'.heap == w1.heap[a.id := WithUid(w1, path, a.data)] && w'.byName == w1.byName[n := a.id]
      && w.byUid.Keys <= w1.byUid.Keys
    ensures Followed(w, [] + [a.data], NameOf(a.data), w')
  {
    var d := WithUid(w1, path, a.data);
    NothingTold(d);
    assert d == a.data.(uid := d.uid) && [a.data][1..] == [] && [] + [a.data] == [a.data];
    hide TakenOver, NameOf, FreshUid;
  }

  lemma LaterFollows(w: World, news: seq<ContactData>, w1: World, a: Arrival, w': World)
    requires var n := NameOf(a.data);
      && Followed(w, news, n, w1) && n !in w.byName && news != [] && n in w1.byName && w1.byName[n] == a.id
      && w'.heap == w1.heap[a.id := Refreshed(At(w1, a.id), a.data)] && w'.byName == w1.byName[n := a.id]
    ensures Followed(w, news + [a.data], NameOf(a.data), w')
  {
    hide *;
    var d, n, news' := At(w1, a.id), NameOf(a.data), news + [a.data];
    FollowedLater(w, news, n, w1, a.id);
    TakesOver(news[0].(uid := d.uid), news[1..], d, a.data);
    assert news'[1..] == news[1..] + [a.data] && news'[0] == news[0];
    RefreshedUid(d, a.data);
    WrittenAt(w1, a.id, Refreshed(d, a.data), w');
    LaterFollowed(w, news', n, w', a.id);
  }

  lemma WrittenAt(w: World, c: Contact, d: ContactData, w': World)
    requires w'.heap == w.heap[c := d]
    ensures At(w', c) == d
  {}

  lemma LaterFollowed(w: World, news: seq<ContactData>, n: string, w': World, c: Contact)
    requires n !in w.byName && news != [] && n in w'.byName && w'.byName[n] == c
    requires At(w', c).uid !in w.byUid && TakenOver(news[0].(uid := At(w', c).uid), news[1..], At(w', c))
    ensures Followed(w, news, n, w')
  {
    hide TakenOver, At;
  }

  lemma FollowedLater(w: World, news: seq<ContactData>, n: string, w1: World, c: Contact)
    requires Followed(w, news, n, w1) && n !in w.byName && news != [] && n in w1.byName && w1.byName[n] == c
    ensures At(w1, c).uid !in w.byUid && TakenOver(news[0].(uid := At(w1, c).uid), news[1..], At(w1, c))
  {
    hide TakenOver, At;
  }

  lemma RefreshedUid(d: ContactData, b: ContactData)
    ensures Refreshed(d, b).uid == d.uid
  {}

  lemma ApartFrom(w: World, arrivals: seq<Arrival>, i: nat, n: string, w1: World)
    requires Coherent(w) && Identified(w, arrivals) && i < |arrivals| && Placing(w, arrivals[..i], w1)
    requires n in w1.byName && n != NameOf(arrivals[i].data)
    ensures w1.byName[n] != arrivals[i].id
  {
    var a, done := arrivals[i], arrivals[..i];
    assert Placed(w, a);
    if n in w.byName {
      assert NameEntry(w, n, w.byName[n]);
      assert NameOf(a.data) in w.byName ==> NameEntry(w, NameOf(a.data), w.byName[NameOf(a.data)]);
    } else {
      hide NameOf, Coherent;
      assert n in NamesIn(done);
      var b :| b in done && NameOf(b.data) == n;
      var j :| 0 <= j < i && arrivals[j] == b;
      assert Together(w, arrivals[j], a);
    }
  }

  /** After the first i members. */
  lemma {:induction false} FollowedTo(w: World, path: string, arrivals: seq<Arrival>, i: nat, n: string)
    requires Coherent(w) && Identified(w, arrivals) && i <= |arrivals|
    ensures var w' := MeetAll(Intake(w, [], []), path, arrivals[..i]).world;
      Placing(w, arrivals[..i], w') && w.byUid.Keys <= w'.byUid.Keys && Followed(w, About(arrivals[..i], n), n, w')
  {
    if i == 0 {
      assert arrivals[..0] == [] && NamesIn([]) == {};
      if n in w.byName { NothingTold(At(w, w.byName[n])); }
    } else {
      hide *;
      var done, a := arrivals[..i - 1], arrivals[i - 1];
      assert arrivals[..i] == done + [a];
      FollowedTo(w, path, arrivals, i - 1, n);
      MeetAllSnoc(Intake(w, [], []), path, done, a);
      var s := MeetAll(Intake(w, [], []), path, done);
      var w' := Meet(s, path, a).world;
      PlacedThen(w, arrivals, i - 1, s.world);
      MeetWrites(s, path, a);
      PlacingMore(w, done, s.world, a, w');
      AboutMore(done, a, n);
      if NameOf(a.data) == n {
        ThisName(w, About(done, n), path, s.world, a, w');
      } else {
        if n in s.world.byName { ApartFrom(w, arrivals, i - 1, n, s.world); }
        OtherName(w, About(done, n), n, s.world, a, w'.heap[a.id], w');
        assert About(done, n) + [] == About(done, n);
      }
    }
  }

  /** Phase 1, field by field: for every list of members and every name, in the order in which the members
      come. */
  lemma MembersTell(w: World, path: string, arrivals: seq<Arrival>, n: string)
    requires Coherent(w) && Identified(w, arrivals)
    ensures Followed(w, About(arrivals, n), n, GetMembers(w, path, arrivals).world)
  {
    assert arrivals[..|arrivals|] == arrivals;
    hide Followed, Identified, Coherent;
    FollowedTo(w, path, arrivals, |arrivals|, n);
  }

  // ---- A roster ----

  /** One entry about a name: a NULL tells nothing, a value replaces what was there. */
  predicate Told<T(==)>(before: Option<T>, told: Option<T>, after: Option<T>) {
    after == match told case Some(_) => told case None => before
  }

  /** With one entry about it, each field of a known contact. */
  lemma OneEntry(before: ContactData, b: ContactData, after: ContactData)
    requires TakenOver(before, [b], after)
    ensures Told(before.alias, b.alias, after.alias) && Told(before.status, b.status, after.status)
    ensures Told(before.statusMessage, b.statusMessage, after.statusMessage)
    ensures Told(before.contactInfo, b.contactInfo, after.contactInfo)
    ensures after == before.(alias := after.alias, status := after.status, statusMessage := after.statusMessage,
                             contactInfo := after.contactInfo, genericStatus := b.genericStatus, handle := b.handle,
                             flags := before.flags - {CONTACT_UNSEEN})
  {
    OneTold(before.alias, b.alias, after.alias);
    OneTold(before.status, b.status, after.status);
    OneTold(before.statusMessage, b.statusMessage, after.statusMessage);
    OneTold(before.contactInfo, b.contactInfo, after.contactInfo);
    assert Aliases([b]) == [b.alias] && Statuses([b]) == [b.status];
    assert Messages([b]) == [b.statusMessage] && Infos([b]) == [b.contactInfo];
    assert after.flags == before.flags - {CONTACT_UNSEEN};
    hide LastTold, Told, Aliases, Statuses, Messages, Infos;
  }

  lemma OneTold<T(!new)>(before: Option<T>, told: Option<T>, after: Option<T>)
    ensures LastTold(before, [told], after) ==> Told(before, told, after)
  {
    assert [told][0] == told;
  }

  /** Without an entry nothing changes. */
  lemma NoEntry(before: ContactData, after: ContactData)
    requires TakenOver(before, [], after)
    ensures after == before
  {
    assert after.flags == before.flags;
  }

  /** The members with the objects that known names have. */
  function Resolved(w: World, arrivals: seq<Arrival>): (resolved: seq<Arrival>)
    ensures |resolved| == |arrivals|
  {
    seq(|arrivals|, i requires 0 <= i < |arrivals| => ResolvedOne(w, arrivals[i]))
  }

  function ResolvedOne(w: World, a: Arrival): Arrival {
    if NameOf(a.data) in w.byName then a.(id := w.byName[NameOf(a.data)]) else a
  }

  lemma SameMeet(s: Intake, path: string, a: Arrival, b: Arrival)
    requires a.data == b.data && (NameOf(a.data) in s.world.byName || a == b)
    ensures Meet(s, path, a) == Meet(s, path, b)
  {
    hide At, NameOf, FreshUid, Refreshed, IndexHandle, AliasDiffers;
  }

  lemma MeetKeepsNames(s: Intake, path: string, a: Arrival)
    ensures s.world.byName.Keys <= Meet(s, path, a).world.byName.Keys
  {
    hide At, NameOf, FreshUid, Refreshed, IndexHandle, AliasDiffers;
    MeetForm(s, path, a);
    var w, name := s.world, NameOf(a.data);
    if name in w.byName {
      Soundness.IndexHandleNames(Put(w, w.byName[name], Refreshed(At(w, w.byName[name]), a.data)), a.data.handle, w.byName[name]);
    } else {
      var d := WithUid(w, path, a.data);
      Soundness.IndexHandleNames(Soundness.Entered(w, a.id, d, w.byName[name := a.id], w.byHandle), a.data.handle, a.id);
    }
  }

  lemma {:induction false} SameMeeting(w: World, s: Intake, path: string, arrivals: seq<Arrival>)
    requires w.byName.Keys <= s.world.byName.Keys
    ensures MeetAll(s, path, Resolved(w, arrivals)) == MeetAll(s, path, arrivals)
    decreases |arrivals|
  {
    if arrivals != [] {
      assert Resolved(w, arrivals)[0] == ResolvedOne(w, arrivals[0]);
      assert Resolved(w, arrivals)[1..] == Resolved(w, arrivals[1..]);
      hide Meet, Resolved;
      SameMeet(s, path, ResolvedOne(w, arrivals[0]), arrivals[0]);
      MeetKeepsNames(s, path, arrivals[0]);
      SameMeeting(w, Meet(s, path, arrivals[0]), path, arrivals[1..]);
    }
  }

  /** On a roster the objects that members come with do not matter where the name is known. */
  lemma ResolvedIdentified(w: World, arrivals: seq<Arrival>)
    requires Coherent(w) && Roster(w, arrivals)
    ensures Identified(w, Resolved(w, arrivals))
  {
    var resolved := Resolved(w, arrivals);
    forall i | 0 <= i < |resolved| ensures Placed(w, resolved[i]) {
      assert resolved[i] == ResolvedOne(w, arrivals[i]) && RosterOne(w, arrivals[i]);
    }
    forall i, j | 0 <= i < j < |resolved| ensures Together(w, resolved[i], resolved[j]) {
      assert resolved[i] == ResolvedOne(w, arrivals[i]) && resolved[j] == ResolvedOne(w, arrivals[j]);
      assert Different(arrivals[i], arrivals[j]) && RosterOne(w, arrivals[i]) && RosterOne(w, arrivals[j]);
      assert forall n :: n in w.byName ==> NameEntry(w, n, w.byName[n]);
    }
  }

  lemma {:induction false} ResolvedAbout(w: World, arrivals: seq<Arrival>, n: string)
    ensures About(Resolved(w, arrivals), n) == About(arrivals, n)
    decreases |arrivals|
  {
    if arrivals != [] {
      var init := arrivals[..|arrivals| - 1];
      assert Resolved(w, arrivals)[..|arrivals| - 1] == Resolved(w, init);
      ResolvedAbout(w, init, n);
    }
  }

  /** Phase 1 on a roster. */
  lemma RosterTells(w: World, path: string, members: seq<Arrival>, n: string)
    requires Coherent(w) && Roster(w, members)
    ensures Followed(w, About(members, n), n, GetMembers(w, path, members).world)
  {
    ResolvedIdentified(w, members);
    ResolvedAbout(w, members, n);
    SameMeeting(w, Intake(w, [], []), path, members);
    hide Followed, Identified, Coherent, Roster, MeetAll, About, Resolved;
    MembersTell(w, path, Resolved(w, members), n);
  }

  /** A roster without its last entry is one, and has no other entry of that name. */
  lemma RosterInit(w: World, members: seq<Arrival>)
    requires Roster(w, members) && members != []
    ensures var init, last := members[..|members| - 1], members[|members| - 1];
      && Roster(w, init) && members == init + [last] && NameOf(last.data) !in NamesIn(init)
      && forall b :: b in init ==> NameOf(b.data) != NameOf(last.data)
  {
    var init, last := members[..|members| - 1], members[|members| - 1];
    assert Roster(w, init) by {
      hide RosterOne, Different;
      forall i | 0 <= i < |init| ensures RosterOne(w, init[i]) { assert init[i] == members[i]; }
      forall i, j | 0 <= i < j < |init| ensures Different(init[i], init[j]) { assert init[i] == members[i] && init[j] == members[j]; }
    }
    forall b | b in init ensures NameOf(b.data) != NameOf(last.data) {
      var i :| 0 <= i < |init| && init[i] == b;
      assert Different(members[i], members[|members| - 1]);
    }
  }

  /** On a roster there is one entry for each name it has, and none for the others. */
  lemma {:induction false} RosterAbout(w: World, members: seq<Arrival>, n: string)
    requires Roster(w, members)
    ensures n !in NamesIn(members) ==> About(members, n) == []
    ensures forall b :: b in members && NameOf(b.data) == n ==> About(members, n) == [b.data]
    decreases |members|
  {
    if members != [] {
      var init, last := members[..|members| - 1], members[|members| - 1];
      RosterInit(w, members);
      RosterAbout(w, init, n);
      NamesSnoc(init, last);
      hide Roster, NamesIn, NameOf;
      if NameOf(last.data) == n {
        assert [] + [last.data] == [last.data];
      } else {
        assert About(init, n) + [] == About(init, n);
      }
    }
  }
}
