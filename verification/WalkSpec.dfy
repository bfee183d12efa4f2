/** The full roster walk behind `e_book_backend_tp_cl_get_members`: one request per primary list
    that has a channel, one for the details, and one call of the caller's callback. */
module WalkSpec {
  import opened Text
  import opened Flags
  import opened ContactValues
  import opened RosterSpec

  /** The request whose reply the walk is waiting for. */
  datatype Waiting = Nothing | ForMembers(list: nat) | ForDetails

  /** One call of the caller's callback. */
  datatype Answer = Failed | Delivered(handles: set<nat>)

  /** `asked` lists the requests for members made so far. */
  datatype Walk = Walk(mirror: Mirror, channels: set<nat>, waiting: Waiting, asked: seq<nat>, answers: seq<Answer>)

  datatype Members = Members(current: seq<nat>, localPending: seq<nat>, remotePending: seq<nat>)

  /** A reply, together with whether the connection is still there when it is handled. */
  datatype Reply = Error(connected: bool) | MembersOf(connected: bool, members: Members) | Details(connected: bool, inspected: set<nat>)

  function Answered(w: Walk, a: Answer): Walk {
    w.(waiting := Nothing, answers := w.answers + [a])
  }

  /** `finish_get_channel_members`. */
  function FinishMembers(w: Walk, connected: bool): Walk {
    if !connected then Answered(w, Failed)
    else if w.mirror == map[] then Answered(w, Delivered({}))
    else w.(waiting := ForDetails)
  }

  /** `get_next_channel_members`: the list ids go up in steps of three, and lists without a channel
      are skipped. */
  function Next(w: Walk, list: nat, connected: bool): Walk
    decreases CL_LAST_LIST - list
  {
    if !connected then Answered(w, Failed)
    else if list < CL_LAST_LIST then
      if list in w.channels then w.(waiting := ForMembers(list), asked := w.asked + [list])
      else Next(w, list + 3, connected)
    else FinishMembers(w, connected)
  }

  /** The bits one list's reply gives to a handle. */
  function BitsOf(list: nat, m: Members, handle: nat): FlagWord {
    (if handle in m.current then {list} else {})
    + (if handle in m.localPending then {list + 1} else {})
    + (if handle in m.remotePending then {list + 2} else {})
  }

  function MemberSet(m: Members): set<nat> {
    ToSet(m.current) + ToSet(m.localPending) + ToSet(m.remotePending)
  }

  /** The table after the three arrays of a reply. */
  function AddMembers(mirror: Mirror, list: nat, m: Members): Mirror {
    map h | h in mirror.Keys + MemberSet(m) ::
      Entry(FlagsOf(mirror, h) + BitsOf(list, m, h), h in mirror && mirror[h].named)
  }

  /** Handling one reply. */
  function Step(w: Walk, r: Reply): Walk {
    if w.waiting.ForMembers? && r.MembersOf? && r.connected then
      Next(w.(mirror := AddMembers(w.mirror, w.waiting.list, r.members)), w.waiting.list + 3, r.connected)
    else if w.waiting.ForDetails? && r.Details? && r.connected then
      Answered(w.(mirror := NameAll(w.mirror, r.inspected)), Delivered(w.mirror.Keys * r.inspected))
    else Answered(w, Failed)
  }

  /** `e_book_backend_tp_cl_get_members`: offline it reports success and does nothing more. */
  function GetMembers(mirror: Mirror, channels: set<nat>, online: bool, connected: bool): Walk {
    var idle := Walk(mirror, channels, Nothing, [], []);
    if online then Next(idle, CL_SUBSCRIBE, connected) else idle
  }

  /** The replies arrive one by one, as long as one is awaited. */
  function Replies(w: Walk, rs: seq<Reply>): Walk
    decreases |rs|
  {
    if rs == [] || w.waiting.Nothing? then w else Replies(Step(w, rs[0]), rs[1..])
  }

  // ---- Termination and the callback ----

  /** How many replies the walk can still take. */
  function Rank(w: Walk): nat {
    match w.waiting
    case Nothing => 0
    case ForDetails => 1
    case ForMembers(list) => if list < CL_LAST_LIST then 2 + (CL_LAST_LIST - 1 - list) / 3 else 2
  }

  lemma {:induction false} NextRank(w: Walk, list: nat, connected: bool)
    ensures var w' := Next(w, list, connected);
      && (w'.waiting.ForMembers? ==> list <= w'.waiting.list < CL_LAST_LIST)
      && |w'.answers| + (if w'.waiting.Nothing? then 0 else 1) == |w.answers| + 1
      && w'.channels == w.channels
    decreases CL_LAST_LIST - list
  {
    if connected && list < CL_LAST_LIST && list !in w.channels { NextRank(w, list + 3, connected); }
  }

  /** Every reply uses up rank, and either the walk goes on or its one answer is given. */
  lemma StepProgress(w: Walk, r: Reply)
    requires !w.waiting.Nothing?
    ensures Rank(Step(w, r)) < Rank(w)
    ensures |Step(w, r).answers| + (if Step(w, r).waiting.Nothing? then 0 else 1) == |w.answers| + 1
  {
    if w.waiting.ForMembers? && r.MembersOf? && r.connected {
      NextRank(w.(mirror := AddMembers(w.mirror, w.waiting.list, r.members)), w.waiting.list + 3, r.connected);
    }
  }

  lemma {:induction false} RepliesProgress(w: Walk, rs: seq<Reply>)
    ensures var w' := Replies(w, rs);
      && |w'.answers| + (if w'.waiting.Nothing? then 0 else 1) == |w.answers| + (if w.waiting.Nothing? then 0 else 1)
      && (|rs| >= Rank(w) ==> w'.waiting.Nothing?)
    decreases |rs|
  {
    if rs != [] && !w.waiting.Nothing? {
      StepProgress(w, rs[0]);
      RepliesProgress(Step(w, rs[0]), rs[1..]);
    }
  }

  /** Started online, the walk calls back exactly once, whatever the replies are and wherever the
      connection is lost, after at most six replies; started offline, it never calls back. */
  lemma CallsBackOnce(mirror: Mirror, channels: set<nat>, online: bool, connected: bool, rs: seq<Reply>)
    ensures var w := Replies(GetMembers(mirror, channels, online, connected), rs);
      && (online ==> |w.answers| == (if w.waiting.Nothing? then 1 else 0))
      && (online && |rs| >= 6 ==> w.waiting.Nothing?)
      && (!online ==> w.waiting.Nothing? && w.answers == [])
  {
    if online { NextRank(Walk(mirror, channels, Nothing, [], []), CL_SUBSCRIBE, connected); }
    RepliesProgress(GetMembers(mirror, channels, online, connected), rs);
  }

  // ---- Completeness ----

  /** The primary lists from `list` on that have a channel. */
  function ListsFrom(list: nat, channels: set<nat>): seq<nat>
    decreases CL_LAST_LIST - list
  {
    if list >= CL_LAST_LIST then []
    else (if list in channels then [list] else []) + ListsFrom(list + 3, channels)
  }

  /** The table after the replies of the given lists. */
  function AddAll(mirror: Mirror, lists: seq<nat>, replies: nat -> Members): Mirror
    decreases |lists|
  {
    if lists == [] then mirror else AddAll(AddMembers(mirror, lists[0], replies(lists[0])), lists[1..], replies)
  }

  /** The replies to requests for the given lists, all in good order. */
  function GoodReplies(lists: seq<nat>, replies: nat -> Members): seq<Reply> {
    seq(|lists|, i requires 0 <= i < |lists| => MembersOf(true, replies(lists[i])))
  }

  lemma {:induction false} WalksTheLists(w: Walk, list: nat, replies: nat -> Members)
    ensures var lists := ListsFrom(list, w.channels);
      Replies(Next(w, list, true), GoodReplies(lists, replies))
      == FinishMembers(w.(mirror := AddAll(w.mirror, lists, replies), asked := w.asked + lists), true)
    decreases CL_LAST_LIST - list
  {
    var lists := ListsFrom(list, w.channels);
    if list >= CL_LAST_LIST {
      assert w.asked + [] == w.asked;
    } else if list !in w.channels {
      WalksTheLists(w, list + 3, replies);
      assert [] + ListsFrom(list + 3, w.channels) == ListsFrom(list + 3, w.channels);
    } else {
      var rest := ListsFrom(list + 3, w.channels);
      var next := w.(mirror := AddMembers(w.mirror, list, replies(list)), asked := w.asked + [list]);
      assert lists == [list] + rest;
      OneListAnswered(w, list, rest, replies);
      WalksTheLists(next, list + 3, replies);
      assert w.asked + [list] + rest == w.asked + lists;
      assert lists[1..] == rest;
      hide AddMembers, Replies, Next, GoodReplies, ListsFrom;
    }
  }

  lemma OneListAnswered(w: Walk, list: nat, rest: seq<nat>, replies: nat -> Members)
    requires list < CL_LAST_LIST && list in w.channels
    ensures var next := w.(mirror := AddMembers(w.mirror, list, replies(list)), asked := w.asked + [list]);
      Replies(Next(w, list, true), GoodReplies([list] + rest, replies))
      == Replies(Next(next, list + 3, true), GoodReplies(rest, replies))
  {
    hide AddMembers;
    var next := w.(mirror := AddMembers(w.mirror, list, replies(list)), asked := w.asked + [list]);
    var rs := GoodReplies([list] + rest, replies);
    assert rs[0] == MembersOf(true, replies(list)) && rs[1..] == GoodReplies(rest, replies);
    NextForgets(next, next.(waiting := ForMembers(list)), list + 3);
  }

  lemma {:induction false} NextForgets(w: Walk, v: Walk, list: nat)
    requires v == w.(waiting := v.waiting)
    ensures Next(w, list, true) == Next(v, list, true)
    decreases CL_LAST_LIST - list
  {
    if list < CL_LAST_LIST && list !in w.channels { NextForgets(w, v, list + 3); }
  }

  /** The bits the replies of some lists give to a handle. */
  function BitsFrom(lists: seq<nat>, replies: nat -> Members, handle: nat): FlagWord {
    if lists == [] then {} else BitsOf(lists[0], replies(lists[0]), handle) + BitsFrom(lists[1..], replies, handle)
  }

  /** One reply, seen from one handle. */
  lemma OneReplyBits(mirror: Mirror, list: nat, m: Members, h: nat)
    ensures FlagsOf(AddMembers(mirror, list, m), h) == FlagsOf(mirror, h) + BitsOf(list, m, h)
    ensures h in AddMembers(mirror, list, m) <==> h in mirror || h in MemberSet(m)
  {
    var next := AddMembers(mirror, list, m);
    if h !in next {
      assert FlagsOf(mirror, h) + BitsOf(list, m, h) == {};
    }
  }

  lemma OnNone(replies: nat -> Members, h: nat)
    ensures !OnSome([], replies, h)
  {}

  predicate OnSome(lists: seq<nat>, replies: nat -> Members, h: nat) {
    exists l :: l in lists && h in MemberSet(replies(l))
  }

  lemma OnSomeSplit(lists: seq<nat>, replies: nat -> Members, h: nat)
    requires lists != []
    ensures OnSome(lists, replies, h) <==> h in MemberSet(replies(lists[0])) || OnSome(lists[1..], replies, h)
  {
    hide MemberSet;
    assert lists == [lists[0]] + lists[1..] && lists[0] in lists;
    assert forall l :: l in lists <==> l == lists[0] || l in lists[1..];
  }

  lemma {:induction false} AddAllBits(mirror: Mirror, lists: seq<nat>, replies: nat -> Members, h: nat)
    ensures FlagsOf(AddAll(mirror, lists, replies), h) == FlagsOf(mirror, h) + BitsFrom(lists, replies, h)
    ensures h in AddAll(mirror, lists, replies) <==> h in mirror || OnSome(lists, replies, h)
    decreases |lists|
  {
    hide AddMembers, BitsOf, MemberSet, FlagsOf, OnSome;
    if lists == [] {
      OnNone(replies, h);
    } else {
      var next := AddMembers(mirror, lists[0], replies(lists[0]));
      OneReplyBits(mirror, lists[0], replies(lists[0]), h);
      AddAllBits(next, lists[1..], replies, h);
      OnSomeSplit(lists, replies, h);
    }
  }

  lemma AllBits(lists: seq<nat>, replies: nat -> Members)
    ensures forall h: nat :: h in AddAll(map[], lists, replies) <==> OnSome(lists, replies, h)
    ensures forall h: nat :: FlagsOf(AddAll(map[], lists, replies), h) == BitsFrom(lists, replies, h)
  {
    hide OnSome, BitsFrom, AddAll;
    forall h: nat
      ensures h in AddAll(map[], lists, replies) <==> OnSome(lists, replies, h)
      ensures FlagsOf(AddAll(map[], lists, replies), h) == BitsFrom(lists, replies, h)
    {
      AddAllBits(map[], lists, replies, h);
    }
  }

  lemma StartsAsking(channels: set<nat>)
    ensures GetMembers(map[], channels, true, true) == Next(Walk(map[], channels, Nothing, [], []), CL_SUBSCRIBE, true)
  {
    hide Next;
  }

  lemma FinishedIs(w: Walk)
    requires w.answers == []
    ensures var w' := FinishMembers(w, true);
      && w'.asked == w.asked && w'.mirror == w.mirror
      && if w.mirror == map[] then w'.answers == [Delivered({})] else w'.waiting == ForDetails && w'.answers == []
  {}

  /** From an empty table, with every request answered, the walk asks each primary list that has a
      channel once and in order, and the table then holds exactly the union of all members, each
      with exactly the bits of the lists it is on. */
  lemma WalkIsComplete(channels: set<nat>, replies: nat -> Members)
    ensures var lists := ListsFrom(CL_SUBSCRIBE, channels);
      var w := Replies(GetMembers(map[], channels, true, true), GoodReplies(lists, replies));
      && w.asked == lists
      && (forall h: nat :: h in w.mirror <==> OnSome(lists, replies, h))
      && (forall h: nat :: FlagsOf(w.mirror, h) == BitsFrom(lists, replies, h))
      && (if w.mirror == map[] then w.answers == [Delivered({})] else w.waiting == ForDetails && w.answers == [])
  {
    hide *;
    var lists := ListsFrom(CL_SUBSCRIBE, channels);
    var idle := Walk(map[], channels, Nothing, [], []);
    StartsAsking(channels);
    WalksTheLists(idle, CL_SUBSCRIBE, replies);
    FinishedIs(idle.(mirror := AddAll(map[], lists, replies), asked := lists));
    assert [] + lists == lists;
    AllBits(lists, replies);
  }

  predicate IsPrimary(list: nat) {
    list == 0 || list == 3 || list == 6 || list == 9 || list == 12
  }

  lemma {:induction false} ListsAscend(list: nat, channels: set<nat>)
    requires list == 15 || IsPrimary(list)
    ensures NoDuplicates(ListsFrom(list, channels))
    ensures forall l :: l in ListsFrom(list, channels) <==> l in channels && IsPrimary(l) && list <= l
    decreases CL_LAST_LIST - list
  {
    if list < CL_LAST_LIST {
      ListsAscend(list + 3, channels);
      var rest := ListsFrom(list + 3, channels);
      assert list !in rest;
      assert ListsFrom(list, channels) == if list in channels then [list] + rest else rest;
    }
  }

  /** What one reply says about a handle, when its arrays are disjoint. */
  function MembershipIn(m: Members, handle: nat): Membership {
    if handle in m.current then Current
    else if handle in m.localPending then LocalPending
    else if handle in m.remotePending then RemotePending
    else Absent
  }

  lemma OwnBits(l: Primary, m: Members, handle: nat, list: Primary)
    ensures BitsOf(l, m, handle) <= ALL_LIST_FLAGS
    ensures BitsOf(l, m, handle) * ListFlags(list) == if l == list then BitsOf(l, m, handle) else {}
  {
    assert BitsOf(l, m, handle) <= ListFlags(l);
    assert ListFlags(l) <= ALL_LIST_FLAGS;
    if l != list {
      assert ListFlags(l) !! ListFlags(list);
    }
    hide BitsOf;
  }

  lemma {:induction false} BitsFromOneList(lists: seq<nat>, replies: nat -> Members, handle: nat, list: Primary)
    requires NoDuplicates(lists) && forall l :: l in lists ==> IsPrimary(l)
    ensures BitsFrom(lists, replies, handle) * ListFlags(list)
         == if list in lists then BitsOf(list, replies(list), handle) else {}
    ensures BitsFrom(lists, replies, handle) <= ALL_LIST_FLAGS
  {
    if lists != [] {
      assert lists == [lists[0]] + lists[1..] && lists[0] !in lists[1..] && lists[0] in lists;
      forall l | l in lists[1..] ensures IsPrimary(l) { assert l in lists; }
      BitsFromOneList(lists[1..], replies, handle, list);
      var l := lists[0];
      OwnBits(l, replies(l), handle, list);
      var own, rest := BitsOf(l, replies(l), handle), BitsFrom(lists[1..], replies, handle);
      assert (own + rest) * ListFlags(list) == own * ListFlags(list) + rest * ListFlags(list);
      assert {} + rest * ListFlags(list) == rest * ListFlags(list) && own + {} == own;
      hide BitsOf, ListFlags;
    }
  }

  lemma BitsAreMembership(m: Members, list: nat, h: nat)
    requires NoDuplicates(m.current + m.localPending + m.remotePending)
    ensures BitsOf(list, m, h) == MembershipFlag(list, MembershipIn(m, h))
  {
    ApartInPairs(m.current + m.localPending, m.remotePending);
    ApartInPairs(m.current, m.localPending);
  }

  /** With disjoint arrays in each reply, the table the walk builds shows the server's roster; that
      is where the mirror's refinement of the roster starts. */
  lemma WalkShowsRoster(channels: set<nat>, replies: nat -> Members, h: nat, list: Primary)
    requires var m := replies(list); NoDuplicates(m.current + m.localPending + m.remotePending)
    ensures var lists := ListsFrom(CL_SUBSCRIBE, channels);
      var w := Replies(GetMembers(map[], channels, true, true), GoodReplies(lists, replies));
      && Reads(FlagsOf(w.mirror, h), list, if list in channels then MembershipIn(replies(list), h) else Absent)
      && FlagsOf(w.mirror, h) <= ALL_LIST_FLAGS
  {
    hide *;
    var lists := ListsFrom(CL_SUBSCRIBE, channels);
    WalkIsComplete(channels, replies);
    PrimaryIs(CL_SUBSCRIBE);
    PrimaryIs(list);
    ListsAscend(CL_SUBSCRIBE, channels);
    BitsFromOneList(lists, replies, h, list);
    BitsAreMembership(replies(list), list, h);
    ReadsBits(BitsFrom(lists, replies, h), list, Absent);
    ReadsBits(BitsFrom(lists, replies, h), list, MembershipIn(replies(list), h));
  }

  lemma PrimaryIs(list: Primary)
    ensures IsPrimary(list) && CL_SUBSCRIBE <= list
  {}

  lemma ReadsBits(flags: FlagWord, list: Primary, m: Membership)
    ensures Reads(flags, list, m) <==> flags * ListFlags(list) == MembershipFlag(list, m)
    ensures m == Absent ==> MembershipFlag(list, m) == {}
  {}
}
