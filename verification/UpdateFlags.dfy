/** Applying the pending membership flags of a contact on the server
    (`e_book_backend_tp_cl_run_update_flags`). */
module UpdateFlags {
  import opened Text
  import opened Flags
  import opened ContactValues
  import opened VCards
  import opened Contacts
  import opened MembershipRequests

  /** The server's side of the contact list channels: the current members of each list that has a
      channel. `fails` and `drops` say which calls fail and during which the connection is lost. */
  class Connection {
    var members: map<nat, set<nat>>
    var connected: bool
    var calls: nat
    const fails: nat -> bool
    const drops: nat -> bool

    /** One call; the server's state changes only if it succeeds. */
    method Call(list: nat, members': set<nat>) returns (ok: bool)
      requires list in members
      modifies this
      ensures ok == !fails(old(calls)) && connected == (old(connected) && !drops(old(calls)))
      ensures members == if ok then old(members)[list := members'] else old(members)
      ensures calls == old(calls) + 1
    {
      ok := !fails(calls);
      connected := connected && !drops(calls);
      if ok { members := members[list := members']; }
      calls := calls + 1;
    }

    method AddMembers(list: nat, handles: seq<nat>) returns (ok: bool)
      requires list in members
      modifies this
      ensures ok == !fails(old(calls)) && connected == (old(connected) && !drops(old(calls)))
      ensures members == if ok then old(members)[list := old(members)[list] + ToSet(handles)] else old(members)
      ensures calls == old(calls) + 1
    {
      ok := Call(list, members[list] + ToSet(handles));
    }

    method RemoveMembers(list: nat, handles: seq<nat>) returns (ok: bool)
      requires list in members
      modifies this
      ensures ok == !fails(old(calls)) && connected == (old(connected) && !drops(old(calls)))
      ensures members == if ok then old(members)[list := old(members)[list] - ToSet(handles)] else old(members)
      ensures calls == old(calls) + 1
    {
      ok := Call(list, members[list] - ToSet(handles));
    }
  }

  /** One list before and after: nobody else moved, and the contact stays or goes where it should. */
  predicate Towards(before: set<nat>, after: set<nat>, handle: nat, wanted: bool) {
    after - {handle} == before - {handle} && ((handle in after) == (handle in before) || (handle in after) == wanted)
  }

  predicate Reached(before: set<nat>, after: set<nat>, handle: nat, wanted: bool) {
    after - {handle} == before - {handle} && (handle in after) == wanted
  }

  ghost predicate Faultless(conn: Connection) {
    (forall k :: !conn.fails(k)) && (forall k :: !conn.drops(k))
  }

  /** The mirror's flags tell the contact's current memberships. */
  predicate Mirrors(flags: FlagWord, members: map<nat, set<nat>>, handle: nat) {
    forall list :: list in members ==> (list in flags <==> handle in members[list])
  }

  /** One list: the differences between the wanted and the mirrored flag become calls. */
  method UpdateList(conn: Connection, list: nat, flags: FlagWord, pending: FlagWord, handle: nat) returns (lost: bool)
    requires conn.connected
    requires list in conn.members ==> (list in flags <==> handle in conn.members[list])
    modifies conn
    ensures conn.members.Keys == old(conn.members).Keys
    ensures forall other :: other in conn.members && other != list ==> conn.members[other] == old(conn.members)[other]
    ensures list in conn.members ==> Towards(old(conn.members)[list], conn.members[list], handle, list in pending)
    ensures lost ==> !conn.connected
    ensures Faultless(conn) ==> conn.connected
    ensures Faultless(conn) && list in conn.members ==> Reached(old(conn.members)[list], conn.members[list], handle, list in pending)
  {
    var handlesToAdd, handlesToRemove: seq<nat> := [], [];
    if list in pending && list !in flags { handlesToAdd := handlesToAdd + [handle]; }
    if list in flags && list !in pending { handlesToRemove := handlesToRemove + [handle]; }
    lost := false;
    if list in conn.members {
      var added := conn.AddMembers(list, handlesToAdd);
      if !conn.connected { return true; }
      var removed := conn.RemoveMembers(list, handlesToRemove);
    }
  }

  /** `e_book_backend_tp_cl_run_update_flags`. Failed calls leave a list as it is; with none, every
      list that has a channel ends with the membership that the pending flag says. Nobody else's
      membership changes. */
  method RunUpdateFlags(conn: Connection, contactsHash: map<nat, Contact>, updatedContact: Contact) returns (success: bool)
    requires updatedContact.handle in contactsHash ==>
      Mirrors(contactsHash[updatedContact.handle].flags, conn.members, updatedContact.handle)
    modifies conn
    ensures conn.members.Keys == old(conn.members).Keys
    ensures forall list: nat :: list in conn.members ==>
      Towards(old(conn.members)[list], conn.members[list], updatedContact.handle, list in updatedContact.pendingFlags)
    ensures success ==> old(conn.connected) && updatedContact.handle > 0 && updatedContact.handle in contactsHash
    ensures !old(conn.connected) || updatedContact.handle == 0 || updatedContact.handle !in contactsHash ==>
      conn.calls == old(conn.calls) && conn.members == old(conn.members)
    ensures Faultless(conn) ==>
      (success <==> old(conn.connected) && updatedContact.handle > 0 && updatedContact.handle in contactsHash)
    ensures Faultless(conn) && success ==> forall list: Primary :: list in conn.members ==>
      Reached(old(conn.members)[list], conn.members[list], updatedContact.handle, list in updatedContact.pendingFlags)
  {
    if !conn.connected { return false; }
    var handle := updatedContact.handle;
    if handle == 0 || handle !in contactsHash { return false; }
    var flags, pending := contactsHash[handle].flags, updatedContact.pendingFlags;
    ghost var before := conn.members;
    var i: nat := 0;
    while i < CL_LAST_LIST
      invariant i % 3 == 0 && i <= CL_LAST_LIST
      invariant conn.members.Keys == before.Keys
      invariant conn.connected || !Faultless(conn)
      invariant forall list: nat :: list in before && (list >= i || list % 3 != 0) ==> conn.members[list] == before[list]
      invariant forall list: nat :: list in before && list < i ==>
        Towards(before[list], conn.members[list], handle, list in pending)
      invariant Faultless(conn) ==> forall list: nat :: list in before && list < i && list % 3 == 0 ==>
        Reached(before[list], conn.members[list], handle, list in pending)
      decreases CL_LAST_LIST - i
    {
      // Once the connection is lost its channels are gone.
      if conn.connected {
        var lost := UpdateList(conn, i, flags, pending, handle);
        if lost { return false; }
      }
      i := i + 3;
    }
    return true;
  }

  /** A card with only "yes" and unrecognised values makes the flags ask for the old memberships and
      the lists it names; with `RunUpdateFlags` that is what the server ends with. */
  lemma YesOnlyReaches(d: ContactData, card: Card, vcardField: string, list: Primary)
    requires vcardField !in OWN_NAMES && forall r :: r in RequestsIn(card) ==> r.value != "no"
    ensures list in UpdateFromEContact(d, card, vcardField).0.pendingFlags <==>
      list in d.flags || list in YesLists(RequestsIn(card))
  {
    YesOnlyCard(d, card, vcardField);
    assert list in ALL_LIST_FLAGS;
    hide UpdateFromEContact, YesLists, RequestsIn;
    var after := UpdateFromEContact(d, card, vcardField).0.pendingFlags;
    assert list in after * ALL_LIST_FLAGS <==> list in after;
  }
}
