/** What the change signals write: each field of a contact holds the last news of its kind, and nothing
    else has changed. */
module SignalFields {
  import opened Text
  import opened ContactValues
  import opened Contacts
  import opened Store
  import opened StoreBatches
  import opened Worlds
  import opened Coherence
  import opened CoherentRuns
  import opened CoherentRequests
  import opened Runs
  import opened WriteBehind
  import PhaseSteps

  /** What a list of news says about a handle, in order. */
  function On(news: seq<ContactData>, handle: nat): seq<ContactData> {
    if news == [] then []
    else (if news[0].handle == handle then [news[0]] else []) + On(news[1..], handle)
  }

  function Last(before: ContactData, news: seq<ContactData>): ContactData {
    if news == [] then before else news[|news| - 1]
  }

  /** The fields of the kind are those of the last news, and all others are as before. */
  predicate Says(kind: Kind, before: ContactData, news: seq<ContactData>, after: ContactData) {
    var last := Last(before, news);
    match kind
    case AliasKind => after == before.(alias := last.alias)
    case PresenceKind =>
      after == before.(genericStatus := last.genericStatus, status := last.status, statusMessage := last.statusMessage)
    case FlagsKind => after == before.(flags := last.flags)
    case CapabilitiesKind => after == before.(capabilities := last.capabilities)
    case InfoKind => after == before.(contactInfo := last.contactInfo)
  }

  lemma SaysOnce(kind: Kind, before: ContactData, b: ContactData, news: seq<ContactData>, after: ContactData)
    requires Says(kind, Received(kind, before, b), news, after)
    ensures Says(kind, before, [b] + news, after)
  {
    if news != [] { assert ([b] + news)[|news|] == news[|news| - 1]; }
  }

  /** A handle the table has, and a contact that has no other. */
  predicate Under(w: World, norm: Norm, h: nat, c: Contact) {
    Inv(w, norm) && h > 0 && h in w.byHandle && w.byHandle[h] == c
  }

  lemma OneHandle(w: World, norm: Norm, h: nat, c: Contact, x: nat)
    requires Under(w, norm, h, c) && x > 0 && x in w.byHandle && x != h
    ensures w.byHandle[x] != c
  {
    assert HandleEntry(w, norm, h, c) && HandleEntry(w, norm, x, w.byHandle[x]);
  }

  lemma ReceiveForm(b: Batch, kind: Kind, news: ContactData)
    requires news.handle in b.world.byHandle
    ensures var w, c := b.world, b.world.byHandle[news.handle];
      Receive(b, kind, news) == Batch(Put(w, c, Received(kind, At(w, c), news)), b.contacts + [c])
  {}

  /** One piece of news, seen from a contact. */
  lemma ReceivedOne(b: Batch, norm: Norm, kind: Kind, news: ContactData, h: nat, c: Contact)
    requires Under(b.world, norm, h, c) && news.handle > 0
    ensures var b' := Receive(b, kind, news);
      && At(b'.world, c) == (if news.handle == h then Received(kind, At(b.world, c), news) else At(b.world, c))
      && Under(b'.world, norm, h, c) && b'.world.byHandle == b.world.byHandle
      && (news.handle == h ==> c in b'.contacts) && (forall x :: x in b.contacts ==> x in b'.contacts)
  {
    ReceiveKeeps(b, norm, kind, news);
    if news.handle in b.world.byHandle {
      ReceiveForm(b, kind, news);
      if news.handle != h { OneHandle(b.world, norm, h, c, news.handle); }
    }
    hide Inv, Received;
  }

  lemma {:induction false} ReceivedAll(b: Batch, norm: Norm, kind: Kind, news: seq<ContactData>, h: nat, c: Contact)
    requires Under(b.world, norm, h, c) && Handled(news)
    ensures var b' := ReceiveAll(b, kind, news);
      && Says(kind, At(b.world, c), On(news, h), At(b'.world, c))
      && Under(b'.world, norm, h, c) && b'.world.byHandle == b.world.byHandle
      && (On(news, h) != [] ==> c in b'.contacts) && (forall x :: x in b.contacts ==> x in b'.contacts)
    decreases |news|
  {
    if news != [] {
      var b1 := Receive(b, kind, news[0]);
      ReceivedOne(b, norm, kind, news[0], h, c);
      hide Inv, Under, Received, Says, Receive, At;
      ReceivedAll(b1, norm, kind, news[1..], h, c);
      if news[0].handle == h {
        SaysOnce(kind, At(b.world, c), news[0], On(news[1..], h), At(ReceiveAll(b1, kind, news[1..]).world, c));
      } else {
        assert [] + On(news[1..], h) == On(news[1..], h);
      }
    }
  }

  /** Alias, flags and contact info are saved; presence and capabilities are not. */
  predicate Saved(kind: Kind) {
    match kind
    case AliasKind => true
    case PresenceKind => false
    case FlagsKind => true
    case CapabilitiesKind => false
    case InfoKind => true
  }

  lemma SavedPersists(kind: Kind)
    ensures Persists(kind) <==> Saved(kind)
  {}

  lemma {:induction false} QueuedAll(w: World, cs: seq<Contact>, persist: bool)
    ensures var w' := QueueAll(w, cs, persist);
      && (forall c :: c in cs ==> At(w, c).uid in w'.changed && (persist ==> At(w, c).uid in w'.dirty))
      && (!persist ==> w'.dirty == w.dirty)
      && w.changed.Keys <= w'.changed.Keys && w.dirty.Keys <= w'.dirty.Keys
    decreases |cs|
  {
    if cs != [] {
      var w1 := Queue(w, cs[0], persist);
      assert w1.heap == w.heap && forall c :: At(w1, c) == At(w, c);
      assert At(w, cs[0]).uid in w1.changed && (persist ==> At(w, cs[0]).uid in w1.dirty);
      QueuedAll(w1, cs[1..], persist);
      assert cs == [cs[0]] + cs[1..];
      hide At, Queue;
    }
  }

  lemma SignalForm(w: World, kind: Kind, news: seq<ContactData>)
    ensures var b := ReceiveAll(Batch(w, []), kind, news);
      var q := QueueAll(b.world, b.contacts, Persists(kind));
      Signalled(w, kind, news) == if b.contacts == [] then b.world else q.(idle := true)
  {
    hide ReceiveAll, QueueAll;
  }

  lemma {:induction false} ReceivesNothingElse(b: Batch, kind: Kind, news: seq<ContactData>)
    ensures var b' := ReceiveAll(b, kind, news);
      && b'.world == b.world.(heap := b'.world.heap)
      && forall x :: (forall i :: 0 <= i < |news| && news[i].handle in b.world.byHandle ==> b.world.byHandle[news[i].handle] != x)
           ==> At(b'.world, x) == At(b.world, x)
    decreases |news|
  {
    if news != [] {
      var b1 := Receive(b, kind, news[0]);
      ReceivesNothingElse(b1, kind, news[1..]);
      assert b1.world == b.world.(heap := b1.world.heap);
      var b' := ReceiveAll(b1, kind, news[1..]);
      forall x | forall i :: 0 <= i < |news| && news[i].handle in b.world.byHandle ==> b.world.byHandle[news[i].handle] != x
        ensures At(b'.world, x) == At(b.world, x)
      {
        assert At(b1.world, x) == At(b.world, x);
        assert forall i :: 0 <= i < |news[1..]| ==> news[1..][i] == news[i + 1];
      }
      hide ReceiveAll, Receive, At;
    }
  }

  /** A change signal, on the contact of a handle: its fields of that kind are those of the last news about
      it, and all others are as before; it waits to be announced, and to be saved if the kind is saved. */
  lemma SignalTells(w: World, norm: Norm, kind: Kind, news: seq<ContactData>, h: nat, c: Contact)
    requires Under(w, norm, h, c) && Handled(news)
    ensures var w' := Signalled(w, kind, news);
      && Says(kind, At(w, c), On(news, h), At(w', c)) && Under(w', norm, h, c)
      && (On(news, h) != [] ==> At(w, c).uid in w'.changed && (Saved(kind) ==> At(w, c).uid in w'.dirty))
      && (!Saved(kind) ==> w'.dirty == w.dirty)
  {
    hide *;
    var b := ReceiveAll(Batch(w, []), kind, news);
    UnderParts(w, norm, h, c);
    ReceivedAll(Batch(w, []), norm, kind, news, h, c);
    SaysUid(kind, At(w, c), On(news, h), At(b.world, c));
    SignalQueues(w, kind, news);
    SignalledKeeps(w, norm, kind, news);
    UnderWhen(Signalled(w, kind, news), norm, h, c);
    PhaseSteps.SameAt(b.world, Signalled(w, kind, news), c);
  }

  lemma UnderParts(w: World, norm: Norm, h: nat, c: Contact)
    requires Under(w, norm, h, c)
    ensures Inv(w, norm) && h > 0 && h in w.byHandle && w.byHandle[h] == c
  {
    hide Inv;
  }

  lemma UnderWhen(w: World, norm: Norm, h: nat, c: Contact)
    requires Inv(w, norm) && h > 0 && h in w.byHandle && w.byHandle[h] == c
    ensures Under(w, norm, h, c)
  {
    hide Inv;
  }

  /** What a signal leaves in the tables that it does not read. */
  lemma SignalQueues(w: World, kind: Kind, news: seq<ContactData>)
    ensures var b, w' := ReceiveAll(Batch(w, []), kind, news), Signalled(w, kind, news);
      && w'.heap == b.world.heap && w'.byHandle == w.byHandle
      && (forall c :: c in b.contacts ==>
            At(b.world, c).uid in w'.changed && (Saved(kind) ==> At(b.world, c).uid in w'.dirty))
      && (!Saved(kind) ==> w'.dirty == w.dirty)
  {
    var b := ReceiveAll(Batch(w, []), kind, news);
    SavedPersists(kind);
    ReceivesNothingElse(Batch(w, []), kind, news);
    QueuedAll(b.world, b.contacts, Persists(kind));
    QueueAllTouches(b.world, b.contacts, Persists(kind));
    SignalForm(w, kind, news);
    hide Signalled, ReceiveAll, QueueAll, Persists, Saved, At;
  }

  lemma SaysUid(kind: Kind, before: ContactData, news: seq<ContactData>, after: ContactData)
    requires Says(kind, before, news, after)
    ensures after.uid == before.uid && after.name == before.name
  {}

  /** Nobody else is touched: a contact that no news is about keeps all its fields. */
  lemma OthersKeepFields(w: World, kind: Kind, news: seq<ContactData>, x: Contact)
    requires forall i :: 0 <= i < |news| && news[i].handle in w.byHandle ==> w.byHandle[news[i].handle] != x
    ensures At(Signalled(w, kind, news), x) == At(w, x)
  {
    var b := ReceiveAll(Batch(w, []), kind, news);
    ReceivesNothingElse(Batch(w, []), kind, news);
    QueueAllTouches(b.world, b.contacts, Persists(kind));
    SignalForm(w, kind, news);
    hide ReceiveAll, QueueAll, Signalled;
  }

  lemma {:induction false} NoNews(news: seq<ContactData>, h: nat)
    requires forall j :: 0 <= j < |news| ==> news[j].handle != h
    ensures On(news, h) == []
    decreases |news|
  {
    if news != [] { NoNews(news[1..], h); }
  }

  lemma {:induction false} OneNews(news: seq<ContactData>, i: nat)
    requires i < |news| && forall j :: 0 <= j < |news| && j != i ==> news[j].handle != news[i].handle
    ensures On(news, news[i].handle) == [news[i]]
    decreases |news|
  {
    if i == 0 {
      NoNews(news[1..], news[0].handle);
      assert [news[0]] + [] == [news[0]];
    } else {
      OneNews(news[1..], i - 1);
      assert [] + [news[i]] == [news[i]];
    }
  }

  /** With one piece of news for each handle, every known contact has exactly the fields of its own. */
  lemma EachHasItsNews(w: World, norm: Norm, kind: Kind, news: seq<ContactData>, i: nat, c: Contact)
    requires i < |news| && Under(w, norm, news[i].handle, c) && Handled(news)
    requires forall j :: 0 <= j < |news| && j != i ==> news[j].handle != news[i].handle
    ensures var d, e, b := At(w, c), At(Signalled(w, kind, news), c), news[i];
      match kind
      case AliasKind => e == d.(alias := b.alias)
      case PresenceKind => e == d.(genericStatus := b.genericStatus, status := b.status, statusMessage := b.statusMessage)
      case FlagsKind => e == d.(flags := b.flags)
      case CapabilitiesKind => e == d.(capabilities := b.capabilities)
      case InfoKind => e == d.(contactInfo := b.contactInfo)
  {
    OneNews(news, i);
    hide Under, Handled, Signalled, At, On;
    SignalTells(w, norm, kind, news, news[i].handle, c);
  }

  // ---- In the cache ----

  /** The row has the news. */
  predicate RowSays(kind: Kind, row: Row, last: ContactData) {
    match kind
    case AliasKind => row.alias == last.alias
    case FlagsKind => row.flags == last.flags
    case InfoKind => row.contactInfo == last.contactInfo
    case _ => true
  }

  lemma RowsStay(w: World, norm: Norm, kind: Kind, news: seq<ContactData>)
    requires Inv(w, norm) && Rows(w) && Handled(news)
    ensures Rows(Signalled(w, kind, news)) && Inv(Signalled(w, kind, news), norm)
  {
    var ideal := Flush(w, true).db;
    FlushedRecords(w, norm);
    hide Inv, Rows, Signalled, RecordIn, Due, Flush, WriteReceived, NoOrphans;
    assert Refines(w, norm, ideal, {});
    SignalledRefines(w, norm, ideal, kind, news);
  }

  /** Once flushed, the row of a contact that a saved kind of news was about has the news. */
  lemma SavedNewsAreStored(w: World, norm: Norm, kind: Kind, news: seq<ContactData>, h: nat, c: Contact)
    requires Under(w, norm, h, c) && Handled(news) && Rows(w) && Saved(kind) && On(news, h) != []
    ensures var w' := Flush(Signalled(w, kind, news), true); var u := At(w, c).uid;
      u in w'.db.contacts && RowSays(kind, w'.db.contacts[u], Last(At(w, c), On(news, h)))
  {
    hide *;
    var w1 := Signalled(w, kind, news);
    UnderParts(w, norm, h, c);
    RowsStay(w, norm, kind, news);
    SignalTells(w, norm, kind, news, h, c);
    SaysUid(kind, At(w, c), On(news, h), At(w1, c));
    FlushedRecords(w1, norm);
    StoredValue(w1, norm, h, c, Flush(w1, true).db);
    RowIsSaid(kind, At(w, c), On(news, h), At(w1, c));
  }

  lemma StoredValue(w: World, norm: Norm, h: nat, c: Contact, db: Tables)
    requires Under(w, norm, h, c) && Rows(w) && At(w, c).uid in w.dirty && RecordIn(db, At(w, c).uid) == Due(w, At(w, c).uid, {})
    ensures At(w, c).name.Some? && At(w, c).uid in db.contacts && db.contacts[At(w, c).uid] == RowOf(At(w, c))
  {
    assert HandleEntry(w, norm, h, c);
    OneUid(w, norm, At(w, c).uid, c);
    hide Inv, At;
  }

  lemma RowIsSaid(kind: Kind, before: ContactData, news: seq<ContactData>, after: ContactData)
    requires Says(kind, before, news, after) && after.name.Some?
    ensures RowSays(kind, RowOf(after), Last(before, news))
  {
    hide Last;
  }

  // ---- Over runs ----

  /** Callbacks that change no field but what a signal carries. */
  predicate Plain(e: Event) {
    match e
    case Changing(_, news) => Handled(news)
    case Idling(_) => true
    case Notifying => true
    case Viewing => true
    case Resting(_) => true
    case _ => false
  }

  /** What the signals of a kind said about a handle over a run, in order. */
  function Heard(events: seq<Event>, kind: Kind, h: nat): seq<ContactData> {
    if events == [] then []
    else (if events[0].Changing? && events[0].kind == kind then On(events[0].news, h) else []) + Heard(events[1..], kind, h)
  }

  /** Each field is that of the last news of its kind. */
  predicate HoldsLast(before: ContactData, events: seq<Event>, h: nat, after: ContactData) {
    var presence := Last(before, Heard(events, PresenceKind, h));
    after == before.(alias := Last(before, Heard(events, AliasKind, h)).alias,
                     genericStatus := presence.genericStatus, status := presence.status, statusMessage := presence.statusMessage,
                     flags := Last(before, Heard(events, FlagsKind, h)).flags,
                     capabilities := Last(before, Heard(events, CapabilitiesKind, h)).capabilities,
                     contactInfo := Last(before, Heard(events, InfoKind, h)).contactInfo)
  }

  lemma LastOfBoth(before: ContactData, a: seq<ContactData>, b: seq<ContactData>)
    ensures Last(before, a + b) == if b == [] then Last(before, a) else Last(before, b)
  {
    if b == [] { assert a + b == a; }
  }

  lemma HeardFirst(events: seq<Event>, kind: Kind, h: nat)
    requires events != []
    ensures Heard(events, kind, h) ==
      (if events[0].Changing? && events[0].kind == kind then On(events[0].news, h) else []) + Heard(events[1..], kind, h)
  {}

  /** A signal before the rest of the run. */
  lemma LastAfterSignal(before: ContactData, events: seq<Event>, h: nat, x: ContactData, after: ContactData)
    requires events != [] && events[0].Changing? && Says(events[0].kind, before, On(events[0].news, h), x)
    requires HoldsLast(x, events[1..], h, after)
    ensures HoldsLast(before, events, h, after)
  {
    LastHeard(before, x, events, h, AliasKind);
    LastHeard(before, x, events, h, PresenceKind);
    LastHeard(before, x, events, h, FlagsKind);
    LastHeard(before, x, events, h, CapabilitiesKind);
    LastHeard(before, x, events, h, InfoKind);
    hide Heard, On, Last;
  }

  lemma LastHeard(before: ContactData, x: ContactData, events: seq<Event>, h: nat, k: Kind)
    requires events != [] && events[0].Changing?
    ensures var rest := Heard(events[1..], k, h);
      && Last(before, Heard(events, k, h)) ==
           (if rest != [] then Last(x, rest)
            else if k == events[0].kind then Last(before, On(events[0].news, h)) else before)
      && (rest == [] ==> Last(x, rest) == x)
  {
    var said, rest := On(events[0].news, h), Heard(events[1..], k, h);
    HeardFirst(events, k, h);
    LastOfBoth(before, said, rest);
    assert [] + rest == rest;
    hide Heard, On;
  }

  lemma LastAfterOther(before: ContactData, events: seq<Event>, h: nat, after: ContactData)
    requires events != [] && !events[0].Changing? && HoldsLast(before, events[1..], h, after)
    ensures HoldsLast(before, events, h, after)
  {
    HeardFirst(events, AliasKind, h);
    HeardFirst(events, PresenceKind, h);
    HeardFirst(events, FlagsKind, h);
    HeardFirst(events, CapabilitiesKind, h);
    HeardFirst(events, InfoKind, h);
    assert forall s: seq<ContactData> :: [] + s == s;
    hide Heard, Last;
  }

  lemma OthersKeepUnder(w: World, norm: Norm, setup: Setup, e: Event, h: nat, c: Contact)
    requires Under(w, norm, h, c) && Plain(e) && !e.Changing?
    ensures Under(Happen(w, setup, e), norm, h, c) && At(Happen(w, setup, e), c) == At(w, c)
  {
    var w' := Happen(w, setup, e);
    match e {
      case Idling(flushed) => IdleTouches(w, flushed);
      case Notifying => NotifyTouches(w);
      case Viewing => ViewTouches(w);
      case Resting(inactive) => InactivityTouches(w, inactive);
    }
    assert SameIndexes(w, w');
    hide Inv, Happen, IdleUpdate, Notify, StartView, SetInactivity;
    OnlyIndexesMatter(w, w', norm);
  }

  /** Over every run of change signals, idles, announcements, new views and changes of inactivity, a known
      contact holds in each field the last news of its kind, and what it was where there was none. */
  lemma {:induction false} LastNewsCounts(w: World, norm: Norm, setup: Setup, events: seq<Event>, h: nat, c: Contact)
    requires Under(w, norm, h, c) && forall e :: e in events ==> Plain(e)
    ensures Under(Run(w, setup, events), norm, h, c) && HoldsLast(At(w, c), events, h, At(Run(w, setup, events), c))
    decreases |events|
  {
    hide Under, Happen, HoldsLast, At, Says;
    if events == [] {
      NothingHeard(At(w, c), h);
    } else {
      var w1 := Happen(w, setup, events[0]);
      assert events[0] in events;
      if events[0].Changing? {
        ChangingIs(w, setup, events[0]);
        SignalTells(w, norm, events[0].kind, events[0].news, h, c);
        LastNewsCounts(w1, norm, setup, events[1..], h, c);
        LastAfterSignal(At(w, c), events, h, At(w1, c), At(Run(w, setup, events), c));
      } else {
        OthersKeepUnder(w, norm, setup, events[0], h, c);
        LastNewsCounts(w1, norm, setup, events[1..], h, c);
        LastAfterOther(At(w, c), events, h, At(Run(w, setup, events), c));
      }
    }
  }

  lemma NothingHeard(d: ContactData, h: nat)
    ensures HoldsLast(d, [], h, d)
  {}

  lemma ChangingIs(w: World, setup: Setup, e: Event)
    requires e.Changing?
    ensures Happen(w, setup, e) == Signalled(w, e.kind, e.news)
    ensures Plain(e) ==> Handled(e.news)
  {
    hide Signalled;
  }
}
