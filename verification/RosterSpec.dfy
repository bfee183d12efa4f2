/** What `MembersChanged` signals do to the membership bits of the mirrored contacts, and why that
    is the abstract roster. */
module RosterSpec {
  import opened Text
  import opened Flags
  import opened ContactValues

  /** A mirrored contact: its flags, and whether its name is known yet. */
  datatype Entry = Entry(flags: FlagWord, named: bool)

  type Mirror = map<nat, Entry>

  /** One `MembersChanged` signal of a primary list. */
  datatype Signal = Signal(
    list: Primary,
    added: seq<nat>,
    removed: seq<nat>,
    localPending: seq<nat>,
    remotePending: seq<nat>)

  /** The mirror while a signal is handled, with the queues of its closure. */
  datatype Handling = Handling(
    mirror: Mirror,
    toAdd: seq<(nat, FlagWord)>,
    toUpdate: seq<nat>,
    toRemove: seq<nat>)

  /** One handle of the added, local-pending or remote-pending array. */
  function Join(w: Handling, list: Primary, m: Membership, handle: nat): Handling {
    if handle in w.mirror then
      var e := w.mirror[handle];
      w.(mirror := w.mirror[handle := e.(flags := Moved(e.flags, list, m))], toUpdate := w.toUpdate + [handle])
    else
      w.(toAdd := w.toAdd + [(handle, MembershipFlag(list, m))])
  }

  /** One handle of the removed array. */
  function Leave(w: Handling, list: Primary, handle: nat): Handling {
    if handle !in w.mirror then w
    else
      var e := w.mirror[handle];
      var flags := e.flags - ListFlags(list);
      w.(mirror := w.mirror[handle := e.(flags := flags)], toUpdate := w.toUpdate + [handle],
         toRemove := if flags == {} then w.toRemove + [handle] else w.toRemove)
  }

  function JoinAll(w: Handling, list: Primary, m: Membership, handles: seq<nat>): Handling
    decreases |handles|
  {
    if handles == [] then w else JoinAll(Join(w, list, m, handles[0]), list, m, handles[1..])
  }

  function LeaveAll(w: Handling, list: Primary, handles: seq<nat>): Handling
    decreases |handles|
  {
    if handles == [] then w else LeaveAll(Leave(w, list, handles[0]), list, handles[1..])
  }

  function InsertAll(mirror: Mirror, news: seq<(nat, FlagWord)>): Mirror
    decreases |news|
  {
    if news == [] then mirror else InsertAll(mirror[news[0].0 := Entry(news[0].1, false)], news[1..])
  }

  /** `tp_channel_members_changed_cb`. */
  function MembersChanged(mirror: Mirror, s: Signal): Handling {
    var w := Arrays(mirror, s);
    w.(mirror := InsertAll(w.mirror, w.toAdd))
  }

  /** The four arrays in the order in which they are gone through. */
  function Arrays(mirror: Mirror, s: Signal): Handling {
    var joined := JoinAll(Handling(mirror, [], [], []), s.list, Current, s.added);
    var left := LeaveAll(joined, s.list, s.removed);
    var local := JoinAll(left, s.list, LocalPending, s.localPending);
    JoinAll(local, s.list, RemotePending, s.remotePending)
  }

  /** The names the server gave for the inspected handles. */
  function NameAll(mirror: Mirror, inspected: set<nat>): Mirror {
    map h | h in mirror :: if h in inspected then mirror[h].(named := true) else mirror[h]
  }

  /** The deferred step. With new contacts it waits for the inspection, and then drops from the
      queues the contacts that got no name; without, it runs in an idle. Either way the contacts
      still queued for removal leave the table. */
  function Finish(w: Handling, inspected: set<nat>): Mirror {
    if w.toAdd == [] then w.mirror - ToSet(w.toRemove)
    else
      var named := NameAll(w.mirror, inspected);
      named - (set h | h in w.toRemove && h in named && named[h].named)
  }

  /** How the inspection of the new contacts ends: with an error, or with the names of some of them.
      When the connection is gone by then, nothing is done either. */
  datatype Inspection = NoAnswer | Inspected(handles: set<nat>)

  /** The deferred step with any answer. */
  function Deferred(w: Handling, answer: Inspection): Mirror {
    match answer
    case NoAnswer => w.mirror
    case Inspected(handles) => Finish(w, handles)
  }

  // ---- The abstract roster ----

  type Roster = (nat, Primary) -> Membership

  /** What the signal says about its own list. */
  function After(r: Roster, s: Signal): Roster {
    (handle: nat, list: Primary) =>
      if list != s.list then r(handle, list)
      else if handle in s.added then Current
      else if handle in s.removed then Absent
      else if handle in s.localPending then LocalPending
      else if handle in s.remotePending then RemotePending
      else r(handle, list)
  }

  /** The server names each handle once in a signal. */
  predicate WellFormed(s: Signal) {
    NoDuplicates(s.added + s.removed + s.localPending + s.remotePending)
  }

  function FlagsOf(mirror: Mirror, handle: nat): FlagWord {
    if handle in mirror then mirror[handle].flags else {}
  }

  /** The mirror shows the roster: the bits of every handle on every list are its state there. */
  ghost predicate Shows(mirror: Mirror, r: Roster) {
    && (forall h, list: Primary :: Reads(FlagsOf(mirror, h), list, r(h, list)))
    && (forall h :: h in mirror ==> mirror[h].flags <= ALL_LIST_FLAGS)
  }

  predicate NamedIn(mirror: Mirror, h: nat) {
    h in mirror && mirror[h].named
  }

  /** A named contact is on some list. */
  predicate NamedOnSome(mirror: Mirror) {
    forall h :: h in mirror && mirror[h].named ==> mirror[h].flags != {}
  }

  // ---- One array at a time, seen from one handle ----

  lemma {:induction false} JoinAllSees(w: Handling, list: Primary, m: Membership, handles: seq<nat>)
    requires NoDuplicates(handles)
    ensures var w' := JoinAll(w, list, m, handles);
      && w'.mirror.Keys == w.mirror.Keys && w'.toRemove == w.toRemove
      && (forall h :: h in w.mirror ==>
            w'.mirror[h] == if h in handles then w.mirror[h].(flags := Moved(w.mirror[h].flags, list, m)) else w.mirror[h])
      && w.toAdd <= w'.toAdd
      && (forall h, f :: (h, f) in w'.toAdd <==> (h, f) in w.toAdd || (h in handles && h !in w.mirror && f == MembershipFlag(list, m)))
    decreases |handles|
  {
    if handles != [] {
      var next := Join(w, list, m, handles[0]);
      assert handles == [handles[0]] + handles[1..];
      assert handles[0] !in handles[1..];
      JoinAllSees(next, list, m, handles[1..]);
    }
  }

  lemma {:induction false} LeaveAllSees(w: Handling, list: Primary, handles: seq<nat>)
    requires NoDuplicates(handles)
    ensures var w' := LeaveAll(w, list, handles);
      && w'.mirror.Keys == w.mirror.Keys && w'.toAdd == w.toAdd
      && (forall h :: h in w.mirror ==>
            w'.mirror[h] == if h in handles then w.mirror[h].(flags := w.mirror[h].flags - ListFlags(list)) else w.mirror[h])
      && (forall h :: h in w'.toRemove <==>
            h in w.toRemove || (h in handles && h in w.mirror && w.mirror[h].flags - ListFlags(list) == {}))
    decreases |handles|
  {
    if handles != [] {
      var next := Leave(w, list, handles[0]);
      assert handles == [handles[0]] + handles[1..];
      assert handles[0] !in handles[1..];
      LeaveAllSees(next, list, handles[1..]);
    }
  }

  lemma {:induction false} InsertAllSees(mirror: Mirror, news: seq<(nat, FlagWord)>, flagOf: map<nat, FlagWord>)
    requires forall p :: p in news ==> p.0 in flagOf && flagOf[p.0] == p.1
    ensures var m := InsertAll(mirror, news);
      && (forall h :: h in m <==> h in mirror || exists f :: (h, f) in news)
      && (forall h :: h in m ==> m[h] == if exists f :: (h, f) in news then Entry(flagOf[h], false) else mirror[h])
    decreases |news|
  {
    if news != [] {
      assert news == [news[0]] + news[1..];
      assert news[0] == (news[0].0, news[0].1);
      InsertAllSees(mirror[news[0].0 := Entry(news[0].1, false)], news[1..], flagOf);
      forall h, f | (h, f) in news[1..] ensures (h, f) in news {}
      forall h, f | (h, f) in news ensures (h, f) == news[0] || (h, f) in news[1..] {}
    }
  }

  // ---- A whole signal, seen from one handle ----

  /** The membership the signal gives to a handle it names. */
  function Given(s: Signal, handle: nat): Option<Membership> {
    if handle in s.added then Some(Current)
    else if handle in s.removed then Some(Absent)
    else if handle in s.localPending then Some(LocalPending)
    else if handle in s.remotePending then Some(RemotePending)
    else None
  }

  function FlagsAfter(flags: FlagWord, s: Signal, handle: nat): FlagWord {
    match Given(s, handle)
    case None => flags
    case Some(m) => Moved(flags, s.list, m)
  }

  /** The signal puts an unknown handle on its list. */
  predicate NewTo(mirror: Mirror, s: Signal, handle: nat) {
    handle !in mirror && Given(s, handle).Some? && Given(s, handle).value != Absent
  }

  lemma ArraysAreApart(s: Signal)
    requires WellFormed(s)
    ensures NoDuplicates(s.added) && NoDuplicates(s.removed) && NoDuplicates(s.localPending) && NoDuplicates(s.remotePending)
    ensures forall h :: h in s.added ==> h !in s.removed && h !in s.localPending && h !in s.remotePending
    ensures forall h :: h in s.removed ==> h !in s.localPending && h !in s.remotePending
    ensures forall h :: h in s.localPending ==> h !in s.remotePending
  {
    ApartInPairs(s.added + s.removed + s.localPending, s.remotePending);
    ApartInPairs(s.added + s.removed, s.localPending);
    ApartInPairs(s.added, s.removed);
  }

  lemma ApartInPairs(a: seq<nat>, b: seq<nat>)
    requires NoDuplicates(a + b)
    ensures NoDuplicates(a) && NoDuplicates(b)
    ensures forall h :: h in a ==> h !in b
  {
    forall i, j | 0 <= i < j < |a| ensures a[i] != a[j] { assert (a + b)[i] != (a + b)[j]; }
    forall i, j | 0 <= i < j < |b| ensures b[i] != b[j] { assert (a + b)[|a| + i] != (a + b)[|a| + j]; }
    forall i, j | 0 <= i < |a| && 0 <= j < |b| ensures a[i] != b[j] { assert (a + b)[i] != (a + b)[|a| + j]; }
  }

  /** What the four arrays leave behind, handle by handle. */
  lemma ArraysSee(mirror: Mirror, s: Signal)
    requires WellFormed(s)
    ensures var w := Arrays(mirror, s);
      && w.mirror.Keys == mirror.Keys
      && (forall h :: h in mirror ==> w.mirror[h] == mirror[h].(flags := FlagsAfter(mirror[h].flags, s, h)))
      && (forall h: nat, f :: (h, f) in w.toAdd <==> NewTo(mirror, s, h) && f == FlagsAfter({}, s, h))
      && (forall h :: h in w.toRemove <==> h in mirror && h in s.removed && FlagsAfter(mirror[h].flags, s, h) == {})
  {
    ArraysAreApart(s);
    var start := Handling(mirror, [], [], []);
    var joined := JoinAll(start, s.list, Current, s.added);
    var left := LeaveAll(joined, s.list, s.removed);
    var local := JoinAll(left, s.list, LocalPending, s.localPending);
    JoinAllSees(start, s.list, Current, s.added);
    LeaveAllSees(joined, s.list, s.removed);
    JoinAllSees(left, s.list, LocalPending, s.localPending);
    JoinAllSees(local, s.list, RemotePending, s.remotePending);
    hide JoinAll, LeaveAll, Moved, ListFlags;
    MovedAway(s.list);
    MovedFromNone(s.list);
  }

  lemma MovedAway(list: Primary)
    ensures forall flags :: Moved(flags, list, Absent) == flags - ListFlags(list)
  {
    forall flags: FlagWord ensures Moved(flags, list, Absent) == flags - ListFlags(list) {
      assert flags - ListFlags(list) + {} == flags - ListFlags(list);
    }
  }

  /** After the callback the table has, for every handle, the flags the signal leaves it with. */
  lemma MembersChangedSees(mirror: Mirror, s: Signal)
    requires WellFormed(s)
    ensures var m := MembersChanged(mirror, s).mirror;
      && (forall h :: h in m <==> h in mirror || NewTo(mirror, s, h))
      && (forall h :: h in mirror ==> m[h] == Entry(FlagsAfter(mirror[h].flags, s, h), mirror[h].named))
      && (forall h: nat :: NewTo(mirror, s, h) ==> m[h] == Entry(FlagsAfter({}, s, h), false))
  {
    ArraysSee(mirror, s);
    var w := Arrays(mirror, s);
    var flagOf := map h | h in (set p | p in w.toAdd :: p.0) :: FlagsAfter({}, s, h);
    hide FlagsAfter, Arrays;
    forall p | p in w.toAdd ensures p.0 in flagOf && flagOf[p.0] == p.1 { assert (p.0, p.1) in w.toAdd; }
    InsertAllSees(w.mirror, w.toAdd, flagOf);
    forall h: nat | NewTo(mirror, s, h) ensures (h, FlagsAfter({}, s, h)) in w.toAdd {}
  }

  /** The flags of every handle, known before or not. */
  lemma FlagsOfSees(mirror: Mirror, s: Signal, h: nat)
    requires WellFormed(s)
    ensures FlagsOf(MembersChanged(mirror, s).mirror, h) == FlagsAfter(FlagsOf(mirror, h), s, h)
  {
    MembersChangedSees(mirror, s);
    MovedFromNone(s.list);
    hide MembersChanged;
  }

  lemma MovedFromNone(list: Primary)
    ensures forall m :: Moved({}, list, m) == MembershipFlag(list, m)
  {
    forall m ensures Moved({}, list, m) == MembershipFlag(list, m) {
      assert {} - ListFlags(list) + MembershipFlag(list, m) == MembershipFlag(list, m);
    }
  }

  // ---- Refinement ----

  lemma FlagsAfterShow(mirror: Mirror, r: Roster, s: Signal, h: nat)
    requires Shows(mirror, r)
    ensures forall list: Primary :: Reads(FlagsAfter(FlagsOf(mirror, h), s, h), list, After(r, s)(h, list))
    ensures FlagsAfter(FlagsOf(mirror, h), s, h) <= ALL_LIST_FLAGS
  {
    var flags := FlagsOf(mirror, h);
    if Given(s, h).Some? { MovedReads(flags, s.list, Given(s, h).value); }
    assert ListFlags(s.list) <= ALL_LIST_FLAGS;
  }

  /** The callback: its table shows the new roster, and a handle is queued for removal exactly when
      the signal removes it from a list and that leaves it on no list. */
  lemma MembersChangedShows(mirror: Mirror, r: Roster, s: Signal)
    requires WellFormed(s) && Shows(mirror, r)
    ensures var w := MembersChanged(mirror, s);
      && (forall h, list: Primary :: Reads(FlagsOf(w.mirror, h), list, After(r, s)(h, list)))
      && (forall h :: h in w.mirror ==> w.mirror[h].flags <= ALL_LIST_FLAGS)
      && (forall h :: h in w.toRemove <==>
            h in s.removed && h in mirror && forall list: Primary :: After(r, s)(h, list) == Absent)
  {
    var w := MembersChanged(mirror, s);
    ArraysSee(mirror, s);
    forall h
      ensures forall list: Primary :: Reads(FlagsOf(w.mirror, h), list, After(r, s)(h, list))
      ensures FlagsOf(w.mirror, h) <= ALL_LIST_FLAGS
    {
      FlagsOfSees(mirror, s, h);
      FlagsAfterShow(mirror, r, s, h);
    }
    forall h | h in mirror
      ensures FlagsAfter(mirror[h].flags, s, h) == {} <==> forall list: Primary :: After(r, s)(h, list) == Absent
    {
      FlagsAfterShow(mirror, r, s, h);
      OnNoList(FlagsAfter(FlagsOf(mirror, h), s, h), After(r, s), h);
    }
    assert forall h :: h in w.mirror ==> w.mirror[h].flags == FlagsOf(w.mirror, h);
    hide FlagsAfter, Reads, After, Arrays;
  }

  lemma OnNoList(flags: FlagWord, r: Roster, h: nat)
    requires flags <= ALL_LIST_FLAGS && forall list: Primary :: Reads(flags, list, r(h, list))
    ensures flags == {} <==> forall list: Primary :: r(h, list) == Absent
  {
    NoListLeft(flags);
    forall list: Primary ensures Reads(flags, list, Absent) <==> r(h, list) == Absent {
      assert Reads(flags, list, r(h, list));
      if Reads(flags, list, Absent) { MembershipUnique(flags, list, Absent, r(h, list)); }
    }
    hide Reads;
  }

  /** Only the handles that were asked for come back with a name. */
  ghost predicate Answers(w: Handling, inspected: set<nat>) {
    forall h :: h in inspected ==> exists f :: (h, f) in w.toAdd
  }

  /** The answer is one that can come. */
  ghost predicate CanAnswer(w: Handling, answer: Inspection) {
    answer.Inspected? ==> Answers(w, answer.handles)
  }

  /** The deferred step keeps what the table shows, whatever the answer to the inspection is. When it
      was answered, no named contact is left that is on no list; when it failed, there is one exactly
      if the signal took a named contact off its last list. */
  lemma FinishShows(mirror: Mirror, r: Roster, s: Signal, answer: Inspection)
    requires WellFormed(s) && Shows(mirror, r) && CanAnswer(MembersChanged(mirror, s), answer)
    ensures Shows(Deferred(MembersChanged(mirror, s), answer), After(r, s))
    ensures NamedOnSome(mirror) ==>
      (NamedOnSome(Deferred(MembersChanged(mirror, s), answer)) <==>
        (answer.NoAnswer? ==> forall h :: h in MembersChanged(mirror, s).toRemove ==> !NamedIn(mirror, h)))
  {
    MembersChangedShows(mirror, r, s);
    var w := MembersChanged(mirror, s);
    match answer {
      case NoAnswer =>
        if NamedOnSome(mirror) { FailedNames(mirror, s); }
        hide MembersChanged, After, Reads, FlagsOf, NamedOnSome;
      case Inspected(handles) =>
        FinishKeepsFlags(mirror, s, handles);
        var m := Finish(w, handles);
        if NamedOnSome(mirror) {
          forall h | h in m && m[h].named ensures m[h].flags != {} { NamedStays(mirror, s, handles, h); }
        }
        hide MembersChanged, After, Reads, Finish;
    }
  }

  lemma FinishKeepsFlags(mirror: Mirror, s: Signal, inspected: set<nat>)
    requires WellFormed(s)
    ensures var w := MembersChanged(mirror, s); var m := Finish(w, inspected);
      && (forall h :: FlagsOf(m, h) == FlagsOf(w.mirror, h))
      && (forall h :: h in m ==> h in w.mirror && m[h].flags == w.mirror[h].flags)
  {
    var w := MembersChanged(mirror, s);
    forall h | h in w.toRemove ensures FlagsOf(w.mirror, h) == {} { RemovedHasNoFlags(mirror, s, h); }
    hide MembersChanged;
  }

  /** Without an answer, the named contacts that left their last list stay in the table. */
  lemma FailedNames(mirror: Mirror, s: Signal)
    requires WellFormed(s) && NamedOnSome(mirror)
    ensures var w := MembersChanged(mirror, s);
      && (forall h :: h in w.toRemove ==> h in mirror)
      && (NamedOnSome(w.mirror) <==> forall h :: h in w.toRemove ==> !NamedIn(mirror, h))
  {
    var w := MembersChanged(mirror, s);
    ArraysSee(mirror, s);
    MembersChangedSees(mirror, s);
    assert w.toRemove == Arrays(mirror, s).toRemove;
    forall h | h in w.mirror && w.mirror[h].named && w.mirror[h].flags == {}
      ensures h in w.toRemove && mirror[h].named
    {
      assert h in mirror && w.mirror[h].flags == FlagsAfter(mirror[h].flags, s, h);
      if Given(s, h).Some? && Given(s, h).value != Absent {
        MovedNonEmpty(mirror[h].flags, s.list, Given(s, h).value);
      }
    }
    hide Arrays, MembersChanged, FlagsAfter;
  }

  lemma RemovedHasNoFlags(mirror: Mirror, s: Signal, h: nat)
    requires WellFormed(s) && h in MembersChanged(mirror, s).toRemove
    ensures h in MembersChanged(mirror, s).mirror && MembersChanged(mirror, s).mirror[h].flags == {}
  {
    ArraysSee(mirror, s);
    MembersChangedSees(mirror, s);
    hide Arrays, FlagsAfter;
  }

  /** A contact that the deferred step leaves in the table with a name is on some list. */
  lemma NamedStays(mirror: Mirror, s: Signal, inspected: set<nat>, h: nat)
    requires WellFormed(s) && NamedOnSome(mirror) && Answers(MembersChanged(mirror, s), inspected)
    requires var m := Finish(MembersChanged(mirror, s), inspected); h in m && m[h].named
    ensures Finish(MembersChanged(mirror, s), inspected)[h].flags != {}
  {
    var w := MembersChanged(mirror, s);
    ArraysSee(mirror, s);
    MembersChangedSees(mirror, s);
    assert w.mirror[h].flags == FlagsAfter(FlagsOf(mirror, h), s, h);
    if Given(s, h).Some? && Given(s, h).value != Absent {
      MovedNonEmpty(FlagsOf(mirror, h), s.list, Given(s, h).value);
    } else {
      assert h in mirror && h !in inspected;
    }
    hide Arrays, MembersChanged;
  }

  lemma MovedNonEmpty(flags: FlagWord, list: Primary, m: Membership)
    requires m != Absent
    ensures Moved(flags, list, m) != {}
  {
    assert MembershipFlag(list, m) <= Moved(flags, list, m);
    assert MembershipFlag(list, m) != {};
  }

  /** A signal and the answer to the inspection it triggers. */
  datatype Event = Event(signal: Signal, answer: Inspection)

  function Handled(mirror: Mirror, e: Event): Mirror {
    Deferred(MembersChanged(mirror, e.signal), e.answer)
  }

  ghost predicate Possible(mirror: Mirror, e: Event) {
    WellFormed(e.signal) && CanAnswer(MembersChanged(mirror, e.signal), e.answer)
  }

  ghost predicate Possibles(mirror: Mirror, events: seq<Event>)
    decreases |events|
  {
    events == [] || (Possible(mirror, events[0]) && Possibles(Handled(mirror, events[0]), events[1..]))
  }

  function RunMirror(mirror: Mirror, events: seq<Event>): Mirror
    decreases |events|
  {
    if events == [] then mirror else RunMirror(Handled(mirror, events[0]), events[1..])
  }

  function RunRoster(r: Roster, events: seq<Event>): Roster
    decreases |events|
  {
    if events == [] then r else RunRoster(After(r, events[0].signal), events[1..])
  }

  /** Over every run of signals, each handled to the end before the next, the mirror's bits are the
      abstract roster, list by list and contact by contact, whatever becomes of the inspections. If
      none of them fails, no named contact is left that is on no list. */
  lemma {:induction false} MirrorRefinesRoster(mirror: Mirror, r: Roster, events: seq<Event>)
    requires Shows(mirror, r) && Possibles(mirror, events)
    ensures Shows(RunMirror(mirror, events), RunRoster(r, events))
    ensures NamedOnSome(mirror) && (forall e :: e in events ==> !e.answer.NoAnswer?) ==> NamedOnSome(RunMirror(mirror, events))
    decreases |events|
  {
    if events != [] {
      var e := events[0];
      FinishShows(mirror, r, e.signal, e.answer);
      hide Shows, NamedOnSome, Deferred, MembersChanged, After;
      MirrorRefinesRoster(Handled(mirror, e), After(r, e.signal), events[1..]);
    }
  }
}
