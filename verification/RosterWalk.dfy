/** The full roster walk of e-book-backend-tp-cl.c over the mirror: each reply is handled in place and
    sends the next request or calls back. */
module RosterWalk {
  import opened Text
  import opened Flags
  import opened ContactValues
  import opened Contacts
  import opened RosterSpec
  import opened RosterMirror
  import opened Inspections
  import opened WalkSpec

  /** The table after one array of a reply. */
  function AddBit(mirror: Mirror, bit: nat, handles: seq<nat>): Mirror {
    map h | h in mirror.Keys + ToSet(handles) ::
      Entry(FlagsOf(mirror, h) + (if h in handles then {bit} else {}), h in mirror && mirror[h].named)
  }

  lemma AddBitNone(mirror: Mirror, bit: nat)
    ensures AddBit(mirror, bit, []) == mirror
  {
    assert ToSet<nat>([]) == {};
    forall h: nat | h in mirror ensures AddBit(mirror, bit, [])[h] == mirror[h] { assert mirror[h].flags + {} == mirror[h].flags; }
  }

  /** One handle of an array. */
  function AddBitOnce(mirror: Mirror, bit: nat, handle: nat): Mirror {
    mirror[handle := Entry(FlagsOf(mirror, handle) + {bit}, handle in mirror && mirror[handle].named)]
  }

  function BitIf(bit: nat, handles: seq<nat>, h: nat): FlagWord {
    if h in handles then {bit} else {}
  }

  /** It makes no difference whether the table got the handle before. */
  lemma AddBitNew(mirror: Mirror, bit: nat, handle: nat)
    requires handle !in mirror
    ensures AddBitOnce(mirror[handle := Entry({}, false)], bit, handle) == AddBitOnce(mirror, bit, handle)
  {}

  lemma AddBitSees(mirror: Mirror, bit: nat, handles: seq<nat>, h: nat)
    ensures var m := AddBit(mirror, bit, handles);
      && FlagsOf(m, h) == FlagsOf(mirror, h) + BitIf(bit, handles, h)
      && (h in m <==> h in mirror || h in handles)
      && (NamedIn(m, h) <==> NamedIn(mirror, h))
      && (h in m ==> m[h] == Entry(FlagsOf(m, h), NamedIn(m, h)))
  {
    if h !in mirror && h !in handles { assert FlagsOf(mirror, h) + {} == {}; }
  }

  lemma AddBitOnceSees(mirror: Mirror, bit: nat, handle: nat, h: nat)
    ensures var m := AddBitOnce(mirror, bit, handle);
      && FlagsOf(m, h) == FlagsOf(mirror, h) + (if h == handle then {bit} else {})
      && (h in m <==> h in mirror || h == handle)
      && (NamedIn(m, h) <==> NamedIn(mirror, h))
      && (h in m ==> m[h] == if h == handle then Entry(FlagsOf(m, h), NamedIn(m, h)) else mirror[h])
  {
    if h !in mirror && h != handle { assert FlagsOf(mirror, h) + {} == {}; }
    if h in mirror { assert mirror[h].flags + {} == mirror[h].flags; }
  }

  lemma AddBitMore(mirror: Mirror, bit: nat, handles: seq<nat>, i: nat)
    requires i < |handles|
    ensures AddBit(mirror, bit, handles[..i + 1]) == AddBitOnce(AddBit(mirror, bit, handles[..i]), bit, handles[i])
  {
    var a, b := AddBit(mirror, bit, handles[..i]), AddBit(mirror, bit, handles[..i + 1]);
    var c := AddBitOnce(a, bit, handles[i]);
    assert handles[..i + 1] == handles[..i] + [handles[i]];
    hide AddBit, AddBitOnce, FlagsOf, NamedIn;
    forall h: nat ensures (h in b <==> h in c) && (h in b ==> b[h] == c[h]) {
      AddBitSees(mirror, bit, handles[..i], h);
      AddBitSees(mirror, bit, handles[..i + 1], h);
      AddBitOnceSees(a, bit, handles[i], h);
      SameBits(FlagsOf(mirror, h), bit);
    }
  }

  lemma SameBits(f: FlagWord, bit: nat)
    ensures f + {bit} + {bit} == f + {bit} && f + {} + {bit} == f + {bit} && f + {bit} + {} == f + {bit} && f + {} + {} == f + {}
  {}

  /** The three arrays of a reply, one after the other. */
  lemma ThreeArrays(mirror: Mirror, list: nat, m: Members)
    ensures AddBit(AddBit(AddBit(mirror, list, m.current), list + 1, m.localPending), list + 2, m.remotePending)
         == AddMembers(mirror, list, m)
  {
    var one := AddBit(mirror, list, m.current);
    var two := AddBit(one, list + 1, m.localPending);
    var three, all := AddBit(two, list + 2, m.remotePending), AddMembers(mirror, list, m);
    hide AddBit, FlagsOf;
    forall h: nat ensures (h in three <==> h in all) && (h in all ==> three[h] == all[h]) {
      AddBitSees(mirror, list, m.current, h);
      AddBitSees(one, list + 1, m.localPending, h);
      AddBitSees(two, list + 2, m.remotePending, h);
      Associate(FlagsOf(mirror, h), BitIf(list, m.current, h), BitIf(list + 1, m.localPending, h), BitIf(list + 2, m.remotePending, h));
    }
  }

  lemma Associate(f: FlagWord, a: FlagWord, b: FlagWord, c: FlagWord)
    ensures f + a + b + c == f + (a + b + c)
  {}

  /** `GetMembersClosure` and what it waits for. The list of requests and the calls of the caller's
      callback are kept for the specification. */
  class GetMembersWalk {
    const tpcl: ContactList
    const channels: set<nat>
    var waiting: Waiting
    ghost var asked: seq<nat>
    ghost var answers: seq<WalkSpec.Answer>

    constructor (tpcl: ContactList, channels: set<nat>)
      ensures this.tpcl == tpcl && this.channels == channels
      ensures waiting == Nothing && asked == [] && answers == []
    {
      this.tpcl, this.channels := tpcl, channels;
      waiting, asked, answers := Nothing, [], [];
    }

    ghost function State(): Walk
      reads this, tpcl, tpcl.contactsHash.Values
    {
      Walk(tpcl.Table(), channels, waiting, asked, answers)
    }

    /** Calls the caller's callback; the closure is done with. */
    method CallBack(ghost answer: WalkSpec.Answer)
      modifies this
      ensures State() == Answered(old(State()), answer)
    {
      waiting := Nothing;
      answers := answers + [answer];
    }

    /** `get_next_channel_members`. */
    method GetNextChannelMembers(list: nat)
      modifies this
      ensures State() == Next(old(State()), list, tpcl.connected)
      decreases CL_LAST_LIST - list
    {
      if !tpcl.connected {
        CallBack(Failed);
      } else if list < CL_LAST_LIST {
        if list in channels {
          waiting, asked := ForMembers(list), asked + [list];
        } else {
          GetNextChannelMembers(list + 3);
        }
      } else {
        FinishGetChannelMembers();
      }
    }

    /** `finish_get_channel_members`. */
    method FinishGetChannelMembers()
      modifies this
      ensures State() == FinishMembers(old(State()), tpcl.connected)
    {
      assert tpcl.Table() == map[] <==> tpcl.contactsHash == map[] by {
        assert tpcl.Table().Keys == tpcl.contactsHash.Keys;
      }
      if !tpcl.connected {
        CallBack(Failed);
      } else if tpcl.contactsHash == map[] {
        CallBack(Delivered({}));
      } else {
        waiting := ForDetails;
      }
    }

    /** `e_book_backend_tp_cl_get_members` on a new walk. */
    method GetMembers(online: bool)
      requires waiting == Nothing && asked == [] && answers == []
      modifies this
      ensures State() == WalkSpec.GetMembers(tpcl.Table(), channels, online, tpcl.connected)
    {
      if online { GetNextChannelMembers(CL_SUBSCRIBE); }
    }

    /** A handle the table does not have gets a contact. */
    method NewMember(handle: nat)
      requires tpcl.Valid() && handle !in tpcl.contactsHash
      modifies tpcl`contactsHash
      ensures tpcl.Valid() && handle in tpcl.contactsHash && fresh(tpcl.contactsHash.Values - old(tpcl.contactsHash.Values))
      ensures tpcl.Table() == old(tpcl.Table())[handle := Entry({}, false)]
      ensures tpcl.contactsHash == old(tpcl.contactsHash)[handle := tpcl.contactsHash[handle]]
      ensures Blank(tpcl.contactsHash[handle].Data())
    {
      hide Entries;
      ghost var was := tpcl.contactsHash;
      var contact := new Contact(NEW_CONTACT);
      contact.handle := handle;
      tpcl.contactsHash := tpcl.contactsHash[handle := contact];
      EntriesWith(was, handle, contact);
    }

    /** A handle the table has gets the flag. */
    method FlagMember(bit: nat, handle: nat)
      requires tpcl.Valid() && handle in tpcl.contactsHash
      modifies tpcl.contactsHash.Values
      ensures tpcl.Valid()
      ensures tpcl.Table() == AddBitOnce(old(tpcl.Table()), bit, handle)
      ensures forall h :: h in tpcl.contactsHash ==>
        tpcl.contactsHash[h].Data() == old(tpcl.contactsHash[h].Data()).(flags := tpcl.contactsHash[h].Data().flags)
    {
      var contact := tpcl.contactsHash[handle];
      contact.handle := handle;
      contact.flags := contact.flags + {bit};
    }

    /** One handle of a reply. */
    method AddMember(bit: nat, handle: nat)
      requires tpcl.Valid()
      modifies tpcl`contactsHash, tpcl.contactsHash.Values
      ensures tpcl.Valid() && fresh(tpcl.contactsHash.Values - old(tpcl.contactsHash.Values))
      ensures tpcl.Table() == AddBitOnce(old(tpcl.Table()), bit, handle)
      ensures forall h :: h in old(tpcl.contactsHash) ==>
        && h in tpcl.contactsHash && tpcl.contactsHash[h] == old(tpcl.contactsHash)[h]
        && tpcl.contactsHash[h].Data() == old(tpcl.contactsHash[h].Data()).(flags := tpcl.contactsHash[h].Data().flags)
      ensures forall h :: h in tpcl.contactsHash && h !in old(tpcl.contactsHash) ==> Blank(tpcl.contactsHash[h].Data())
    {
      hide *;
      ghost var before := tpcl.Table();
      TableKeys();
      if handle !in tpcl.contactsHash {
        NewMember(handle);
        AddBitNew(before, bit, handle);
      }
      label flagging:
      FlagMember(bit, handle);
      forall h | h in tpcl.contactsHash && h !in old(tpcl.contactsHash) ensures Blank(tpcl.contactsHash[h].Data()) {
        StillBlank(old@flagging(tpcl.contactsHash[h].Data()), tpcl.contactsHash[h].Data());
      }
    }

    lemma TableKeys()
      ensures tpcl.Table().Keys == tpcl.contactsHash.Keys
    {}

    method AddEach(bit: nat, handles: seq<nat>)
      requires tpcl.Valid()
      modifies tpcl`contactsHash, tpcl.contactsHash.Values
      ensures tpcl.Valid() && fresh(tpcl.contactsHash.Values - old(tpcl.contactsHash.Values))
      ensures tpcl.Table() == AddBit(old(tpcl.Table()), bit, handles)
      ensures forall h :: h in old(tpcl.contactsHash) ==>
        && h in tpcl.contactsHash && tpcl.contactsHash[h] == old(tpcl.contactsHash)[h]
        && tpcl.contactsHash[h].Data() == old(tpcl.contactsHash[h].Data()).(flags := tpcl.contactsHash[h].Data().flags)
      ensures forall h :: h in tpcl.contactsHash && h !in old(tpcl.contactsHash) ==> Blank(tpcl.contactsHash[h].Data())
    {
      hide *;
      ghost var start := tpcl.Table();
      var i := 0;
      AddBitNone(start, bit);
      while i < |handles|
        invariant 0 <= i <= |handles|
        invariant tpcl.Valid() && fresh(tpcl.contactsHash.Values - old(tpcl.contactsHash.Values))
        invariant tpcl.Table() == AddBit(start, bit, handles[..i])
        invariant forall h :: h in old(tpcl.contactsHash) ==>
          && h in tpcl.contactsHash && tpcl.contactsHash[h] == old(tpcl.contactsHash)[h]
          && tpcl.contactsHash[h].Data() == old(tpcl.contactsHash[h].Data()).(flags := tpcl.contactsHash[h].Data().flags)
        invariant forall h :: h in tpcl.contactsHash && h !in old(tpcl.contactsHash) ==> Blank(tpcl.contactsHash[h].Data())
      {
        AddBitMore(start, bit, handles, i);
        label adding:
        AddMember(bit, handles[i]);
        forall h | h in tpcl.contactsHash && h !in old(tpcl.contactsHash) ensures Blank(tpcl.contactsHash[h].Data()) {
          if h in old@adding(tpcl.contactsHash) {
            StillBlank(old@adding(tpcl.contactsHash[h].Data()), tpcl.contactsHash[h].Data());
          }
        }
        i := i + 1;
      }
      assert handles[..i] == handles;
    }

    /** The three arrays of a reply enter the table. */
    method AddReply(list: nat, m: Members)
      requires tpcl.Valid()
      modifies tpcl`contactsHash, tpcl.contactsHash.Values
      ensures tpcl.Valid() && fresh(tpcl.contactsHash.Values - old(tpcl.contactsHash.Values))
      ensures tpcl.Table() == AddMembers(old(tpcl.Table()), list, m)
      ensures forall h :: h in old(tpcl.contactsHash) ==>
        && h in tpcl.contactsHash && tpcl.contactsHash[h] == old(tpcl.contactsHash)[h]
        && tpcl.contactsHash[h].Data() == old(tpcl.contactsHash[h].Data()).(flags := tpcl.contactsHash[h].Data().flags)
      ensures forall h :: h in tpcl.contactsHash && h !in old(tpcl.contactsHash) ==> Blank(tpcl.contactsHash[h].Data())
    {
      hide *;
      ghost var start := tpcl.Table();
      ThreeArrays(start, list, m);
      AddEach(list, m.current);
      label local:
      AddEach(list + 1, m.localPending);
      forall h | h in tpcl.contactsHash && h !in old(tpcl.contactsHash) ensures Blank(tpcl.contactsHash[h].Data()) {
        if h in old@local(tpcl.contactsHash) {
          StillBlank(old@local(tpcl.contactsHash[h].Data()), tpcl.contactsHash[h].Data());
        }
      }
      label remote:
      AddEach(list + 2, m.remotePending);
      forall h | h in tpcl.contactsHash && h !in old(tpcl.contactsHash) ensures Blank(tpcl.contactsHash[h].Data()) {
        if h in old@remote(tpcl.contactsHash) {
          StillBlank(old@remote(tpcl.contactsHash[h].Data()), tpcl.contactsHash[h].Data());
        }
      }
    }

    /** `channel_get_all_members_cb`. */
    method ChannelGetAllMembersCb(error: bool, m: Members)
      requires tpcl.Valid() && waiting.ForMembers?
      modifies this, tpcl`contactsHash, tpcl.contactsHash.Values
      ensures tpcl.Valid()
      ensures State() == Step(old(State()), if error then Error(tpcl.connected) else MembersOf(tpcl.connected, m))
      ensures forall h :: h in old(tpcl.contactsHash) ==>
        && h in tpcl.contactsHash && tpcl.contactsHash[h] == old(tpcl.contactsHash)[h]
        && tpcl.contactsHash[h].Data() == old(tpcl.contactsHash[h].Data()).(flags := tpcl.contactsHash[h].Data().flags)
      ensures forall h :: h in tpcl.contactsHash && h !in old(tpcl.contactsHash) ==> Blank(tpcl.contactsHash[h].Data())
    {
      hide Blank, Contact.Data;
      ghost var before := State();
      if error || !tpcl.connected {
        CallBack(Failed);
      } else {
        AddReply(waiting.list, m);
        hide AddMembers, Next;
        GetNextChannelMembers(waiting.list + 3);
      }
    }

    /** `get_contacts_cb`: the array the caller is called back with holds the contacts the table has for the
        answers, each as the answers say. */
    method GetContactsCb(error: bool, tpContacts: seq<TpContact>) returns (contacts: seq<Contact>)
      requires tpcl.Valid() && waiting.ForDetails?
      modifies this, tpcl.contactsHash.Values
      ensures tpcl.Valid()
      ensures State() == Step(old(State()), if error then Error(tpcl.connected) else Details(tpcl.connected, HandlesOf(tpContacts)))
      ensures contacts == if error || !tpcl.connected then [] else Found(tpcl.contactsHash, tpContacts)
      ensures forall h :: h in tpcl.contactsHash ==>
        if error || !tpcl.connected then tpcl.contactsHash[h].Data() == old(tpcl.contactsHash[h].Data())
        else Detailed(old(tpcl.contactsHash[h].Data()), tpContacts, h, tpcl.contactsHash[h].Data())
    {
      hide Found, Detailed, Contact.Data;
      if error || !tpcl.connected {
        contacts := [];
        CallBack(Failed);
      } else {
        ghost var before := tpcl.Table();
        contacts := tpcl.UpdateContactDetails(tpContacts);
        hide NameAll, HandlesOf;
        CallBack(Delivered(before.Keys * HandlesOf(tpContacts)));
      }
    }
  }
}
