/** What a submitted vCard asks for on the subscribe, publish and deny lists, and exactly when the
    pending flags computed from it say the same. */
module MembershipRequests {
  import opened Text
  import opened Flags
  import opened ContactValues
  import opened VCards

  /** One X-TELEPATHY attribute: the list it names and its value. */
  datatype Request = Request(flag: nat, value: string)

  predicate Requestable(r: Request) {
    r.flag == CL_SUBSCRIBE || r.flag == CL_PUBLISH || r.flag == CL_DENY
  }

  /** A "yes" for a list the contact is not on. */
  predicate Joins(flags: FlagWord, r: Request) {
    r.value == "yes" && r.flag !in flags
  }

  /** A "no" for a list the contact is on. */
  predicate Leaves(flags: FlagWord, r: Request) {
    r.value == "no" && r.flag in flags
  }

  function RequestOf(a: Attribute): Option<Request> {
    if a.name == SUBSCRIBED then Some(Request(CL_SUBSCRIBE, FirstValue(a)))
    else if a.name == PUBLISHED then Some(Request(CL_PUBLISH, FirstValue(a)))
    else if a.name == BLOCKED then Some(Request(CL_DENY, FirstValue(a)))
    else None
  }

  /** The requests of a card, in reading order. */
  function RequestsIn(card: Card): (rs: seq<Request>)
    ensures forall r :: r in rs ==> Requestable(r)
  {
    if card == [] then []
    else if RequestOf(card[0]).Some? then [RequestOf(card[0]).value] + RequestsIn(card[1..])
    else RequestsIn(card[1..])
  }

  function ComputeOne(flags: FlagWord, pending: FlagWord, r: Request): FlagWord {
    if Joins(flags, r) then pending + {r.flag, SCHEDULE_UPDATE_FLAGS}
    else if Leaves(flags, r) then pending * {r.flag} + {SCHEDULE_UPDATE_FLAGS}
    else pending
  }

  /** The pending flags the code computes. */
  function Computed(flags: FlagWord, pending: FlagWord, rs: seq<Request>): FlagWord
    decreases |rs|
  {
    if rs == [] then pending else Computed(flags, ComputeOne(flags, pending, rs[0]), rs[1..])
  }

  function RequestOne(flags: FlagWord, pending: FlagWord, r: Request): FlagWord {
    if Joins(flags, r) then pending + {r.flag, SCHEDULE_UPDATE_FLAGS}
    else if Leaves(flags, r) then pending - {r.flag} + {SCHEDULE_UPDATE_FLAGS}
    else pending
  }

  /** The pending flags the requests ask for: each "no" clears its own flag and nothing else. */
  function Requested(flags: FlagWord, pending: FlagWord, rs: seq<Request>): FlagWord
    decreases |rs|
  {
    if rs == [] then pending else Requested(flags, RequestOne(flags, pending, rs[0]), rs[1..])
  }

  lemma ReadComputesOne(r: Reading, a: Attribute, vcardField: string)
    requires vcardField !in OWN_NAMES
    ensures var d := ReadAttribute(r, a, vcardField).d;
      && d.flags == r.d.flags
      && d.pendingFlags == match RequestOf(a)
                           case Some(request) => ComputeOne(r.d.flags, r.d.pendingFlags, request)
                           case None => r.d.pendingFlags
  {}

  lemma {:induction false} ReadComputes(r: Reading, card: Card, vcardField: string)
    requires vcardField !in OWN_NAMES
    ensures var d := ReadAttributes(r, card, vcardField).d;
      d.flags == r.d.flags && d.pendingFlags == Computed(r.d.flags, r.d.pendingFlags, RequestsIn(card))
    decreases |card|
  {
    if card != [] {
      ReadComputesOne(r, card[0], vcardField);
      hide ReadAttribute, RequestOf, ComputeOne;
      ReadComputes(ReadAttribute(r, card[0], vcardField), card[1..], vcardField);
      var rest := RequestsIn(card[1..]);
      match RequestOf(card[0])
      case Some(request) => assert ([request] + rest)[1..] == rest;
      case None =>
    }
  }

  function Joined(flags: FlagWord, rs: seq<Request>): set<nat> {
    set r | r in rs && Joins(flags, r) :: r.flag
  }

  function Left(flags: FlagWord, rs: seq<Request>): set<nat> {
    set r | r in rs && Leaves(flags, r) :: r.flag
  }

  /** The requests that follow the last effective "no". */
  function AfterLastLeave(flags: FlagWord, rs: seq<Request>): seq<Request> {
    if rs == [] then []
    else if Leaves(flags, rs[|rs| - 1]) then []
    else AfterLastLeave(flags, rs[..|rs| - 1]) + [rs[|rs| - 1]]
  }

  /** `s` if it has a single element. */
  function Only(s: set<nat>): set<nat> {
    set x | x in s && s == {x}
  }

  lemma {:induction false} ComputedSnoc(flags: FlagWord, pending: FlagWord, rs: seq<Request>, r: Request)
    ensures Computed(flags, pending, rs + [r]) == ComputeOne(flags, Computed(flags, pending, rs), r)
    ensures Requested(flags, pending, rs + [r]) == RequestOne(flags, Requested(flags, pending, rs), r)
    decreases |rs|
  {
    if rs == [] {
      assert [] + [r] == [r] && [r][1..] == [];
    } else {
      assert (rs + [r])[1..] == rs[1..] + [r];
      ComputedSnoc(flags, ComputeOne(flags, pending, rs[0]), rs[1..], r);
      ComputedSnoc(flags, RequestOne(flags, pending, rs[0]), rs[1..], r);
    }
  }

  lemma JoinedLeftSnoc(flags: FlagWord, rs: seq<Request>, r: Request)
    ensures Joined(flags, rs + [r]) == Joined(flags, rs) + (if Joins(flags, r) then {r.flag} else {})
    ensures Left(flags, rs + [r]) == Left(flags, rs) + (if Leaves(flags, r) then {r.flag} else {})
    ensures AfterLastLeave(flags, rs + [r]) == if Leaves(flags, r) then [] else AfterLastLeave(flags, rs) + [r]
  {
    var all := rs + [r];
    assert all[..|all| - 1] == rs && all[|all| - 1] == r;
    assert forall x :: x in all <==> x in rs || x == r;
  }

  /** The requested flags in one expression, and the computed ones. */
  function RequestedForm(flags: FlagWord, left: FlagWord, joined: FlagWord): FlagWord {
    flags - left + joined + (if left == {} && joined == {} then {} else {SCHEDULE_UPDATE_FLAGS})
  }

  function ComputedForm(flags: FlagWord, left: FlagWord, joined: FlagWord, late: FlagWord): FlagWord {
    if left == {} then RequestedForm(flags, left, joined) else Only(left) + late + {SCHEDULE_UPDATE_FLAGS}
  }

  lemma FormsStep(flags: FlagWord, left: FlagWord, joined: FlagWord, late: FlagWord, r: Request)
    requires left <= flags && joined !! flags && late <= joined
    requires Requestable(r)
    ensures Joins(flags, r) ==>
      && RequestOne(flags, RequestedForm(flags, left, joined), r) == RequestedForm(flags, left, joined + {r.flag})
      && ComputeOne(flags, ComputedForm(flags, left, joined, late), r)
         == ComputedForm(flags, left, joined + {r.flag}, late + {r.flag})
      && r.flag !in flags && !Leaves(flags, r)
    ensures !Joins(flags, r) && !Leaves(flags, r) ==>
      && RequestOne(flags, RequestedForm(flags, left, joined), r) == RequestedForm(flags, left, joined)
      && ComputeOne(flags, ComputedForm(flags, left, joined, late), r) == ComputedForm(flags, left, joined, late)
    ensures Leaves(flags, r) ==>
      && r.flag in flags && !Joins(flags, r)
      && RequestOne(flags, RequestedForm(flags, left, joined), r) == RequestedForm(flags, left + {r.flag}, joined)
      && ComputeOne(flags, ComputedForm(flags, left, joined, late), r) == ComputedForm(flags, left + {r.flag}, joined, {})
  {
    if Leaves(flags, r) {
      assert r.flag in left + {r.flag};
      if left == {} {
        assert Only(left + {r.flag}) == {r.flag};
      } else {
        assert Only(left) * {r.flag} == Only(left + {r.flag}) by {
          if left + {r.flag} == {r.flag} { assert left == {r.flag}; }
        }
      }
    }
  }

  lemma {:induction false} ClosedForms(flags: FlagWord, rs: seq<Request>)
    requires forall r :: r in rs ==> Requestable(r)
    ensures var left, joined, late := Left(flags, rs), Joined(flags, rs), Joined(flags, AfterLastLeave(flags, rs));
      && Requested(flags, flags, rs) == RequestedForm(flags, left, joined)
      && Computed(flags, flags, rs) == ComputedForm(flags, left, joined, late)
      && left <= flags && joined !! flags && late <= joined
    decreases |rs|
  {
    if rs == [] {
    } else {
      var init, r := rs[..|rs| - 1], rs[|rs| - 1];
      assert rs == init + [r];
      ClosedForms(flags, init);
      ClosedFormsStep(flags, init, r);
    }
  }

  lemma ClosedFormsStep(flags: FlagWord, init: seq<Request>, r: Request)
    requires Requestable(r)
    requires var left, joined, late := Left(flags, init), Joined(flags, init), Joined(flags, AfterLastLeave(flags, init));
      && Requested(flags, flags, init) == RequestedForm(flags, left, joined)
      && Computed(flags, flags, init) == ComputedForm(flags, left, joined, late)
      && left <= flags && joined !! flags && late <= joined
    ensures var rs := init + [r];
      var left, joined, late := Left(flags, rs), Joined(flags, rs), Joined(flags, AfterLastLeave(flags, rs));
      && Requested(flags, flags, rs) == RequestedForm(flags, left, joined)
      && Computed(flags, flags, rs) == ComputedForm(flags, left, joined, late)
      && left <= flags && joined !! flags && late <= joined
  {
    hide Only, ComputedForm, RequestedForm, Computed, Requested, AfterLastLeave, Joined, Left, Joins, Leaves, ComputeOne, RequestOne;
    ComputedSnoc(flags, flags, init, r);
    JoinedLeftSnoc(flags, init, r);
    var left, joined, late := Left(flags, init), Joined(flags, init), Joined(flags, AfterLastLeave(flags, init));
    FormsStep(flags, left, joined, late, r);
    assert joined + {} == joined && left + {} == left && late + {} == late;
    if Leaves(flags, r) {
      NoneJoined(flags);
    } else {
      JoinedLeftSnoc(flags, AfterLastLeave(flags, init), r);
    }
  }

  lemma NoneJoined(flags: FlagWord)
    ensures Joined(flags, []) == {}
  {}

  lemma FormsAgree(flags: FlagWord, left: FlagWord, joined: FlagWord, late: FlagWord)
    requires left <= flags && joined !! flags && late <= joined
    requires SCHEDULE_UPDATE_FLAGS !in left + joined
    ensures ComputedForm(flags, left, joined, late) == RequestedForm(flags, left, joined) <==>
      left == {} || (Only(left) == {} && flags - {SCHEDULE_UPDATE_FLAGS} <= left && joined <= late)
  {
    if left != {} {
      if f :| f in Only(left) {
        assert f in ComputedForm(flags, left, joined, late) && f !in RequestedForm(flags, left, joined);
      } else if flags - {SCHEDULE_UPDATE_FLAGS} <= left && joined <= late {
        assert ComputedForm(flags, left, joined, late) == RequestedForm(flags, left, joined);
      } else {
        assert exists f :: (f in flags - {SCHEDULE_UPDATE_FLAGS} && f !in left) || (f in joined && f !in late);
        var f :| (f in flags - {SCHEDULE_UPDATE_FLAGS} && f !in left) || (f in joined && f !in late);
        assert f in RequestedForm(flags, left, joined) && f !in ComputedForm(flags, left, joined, late);
      }
    }
  }

  /** When the computed pending flags are the requested ones: when no request is an effective "no";
      or, by accident, when the contact is told to leave two or more lists, which are all the flags
      it has, and every list it is told to join is named again after the last "no". */
  lemma ComputedIsRequested(flags: FlagWord, rs: seq<Request>)
    requires forall r :: r in rs ==> Requestable(r)
    ensures Computed(flags, flags, rs) == Requested(flags, flags, rs) <==>
      || Left(flags, rs) == {}
      || (Only(Left(flags, rs)) == {}
          && flags - {SCHEDULE_UPDATE_FLAGS} <= Left(flags, rs)
          && Joined(flags, rs) <= Joined(flags, AfterLastLeave(flags, rs)))
  {
    ClosedForms(flags, rs);
    FormsAgree(flags, Left(flags, rs), Joined(flags, rs), Joined(flags, AfterLastLeave(flags, rs)));
  }

  /** A card with "yes" and unrecognised values only asks for, and gets, the old flags plus the
      named lists. */
  lemma YesOnlyCard(d: ContactData, card: Card, vcardField: string)
    requires vcardField !in OWN_NAMES
    requires forall r :: r in RequestsIn(card) ==> r.value != "no"
    ensures UpdateFromEContact(d, card, vcardField).0.pendingFlags * ALL_LIST_FLAGS
         == d.flags * ALL_LIST_FLAGS + YesLists(RequestsIn(card))
  {
    var rs := RequestsIn(card);
    ReadComputes(Reading(d.(pendingFlags := d.flags), []), card, vcardField);
    ClosedForms(d.flags, rs);
    assert Left(d.flags, rs) == {};
    YesListsJoin(d.flags, rs);
    hide ReadAttributes, Computed, RequestsIn, YesLists, Joined, Left;
  }

  function YesLists(rs: seq<Request>): set<nat> {
    set r | r in rs && r.value == "yes" :: r.flag
  }

  lemma YesListsJoin(flags: FlagWord, rs: seq<Request>)
    requires forall r :: r in rs ==> Requestable(r)
    ensures YesLists(rs) <= ALL_LIST_FLAGS
    ensures flags + YesLists(rs) == flags + Joined(flags, rs)
  {
    forall f | f in YesLists(rs) ensures f in ALL_LIST_FLAGS && f in flags + Joined(flags, rs) {
      var r :| r in rs && r.value == "yes" && r.flag == f;
      assert Requestable(r);
    }
    forall f | f in Joined(flags, rs) ensures f in YesLists(rs) {
      var r :| r in rs && Joins(flags, r) && r.flag == f;
    }
  }

  /** The smallest failure: a contact on one list that is told to leave it keeps that list. */
  lemma NoKeepsTheList()
    ensures Computed({CL_SUBSCRIBE}, {CL_SUBSCRIBE}, [Request(CL_SUBSCRIBE, "no")])
         == {CL_SUBSCRIBE, SCHEDULE_UPDATE_FLAGS}
    ensures Requested({CL_SUBSCRIBE}, {CL_SUBSCRIBE}, [Request(CL_SUBSCRIBE, "no")]) == {SCHEDULE_UPDATE_FLAGS}
  {
    var r := Request(CL_SUBSCRIBE, "no");
    assert Leaves({CL_SUBSCRIBE}, r) && [r][1..] == [];
  }
}
