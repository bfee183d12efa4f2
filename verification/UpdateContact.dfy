/** Carrying out the pending edits of a contact: what the server ends with, and what the contact keeps
    (`run_update_contact`). */
module UpdateContact {
  import opened Text
  import opened Flags
  import opened ContactValues
  import opened VCards
  import opened Contacts
  import opened MembershipRequests
  import opened UpdateFlags
  import opened PendingEdits
  import opened Worlds

  /** The server can be asked to move the contact: it is connected, and the contact is on its roster. */
  predicate Reachable(connected: bool, contactsHash: map<nat, Contact>, handle: nat) {
    connected && handle > 0 && handle in contactsHash
  }

  /** There are flags to be sent, and the server can be reached. */
  predicate Sends(pending: FlagWord, connected: bool, contactsHash: map<nat, Contact>, handle: nat) {
    SCHEDULE_UPDATE_FLAGS in pending && Reachable(connected, contactsHash, handle)
  }

  /** Before and after: every primary list that has a channel ends as the pending flag says. */
  ghost predicate AsPending(before: map<nat, set<nat>>, after: map<nat, set<nat>>, handle: nat, pending: FlagWord) {
    forall list: Primary :: list in before ==> list in after && Reached(before[list], after[list], handle, list in pending)
  }

  /** The first edit: the flags are sent if the server can be reached. */
  method SendFlags(conn: Connection, contactsHash: map<nat, Contact>, contact: Contact)
    requires contact.handle in contactsHash ==>
      Mirrors(contactsHash[contact.handle].flags, conn.members, contact.handle)
    modifies conn
    ensures !Sends(contact.pendingFlags, old(conn.connected), contactsHash, contact.handle)
      ==> conn.calls == old(conn.calls) && conn.members == old(conn.members)
    ensures Sends(contact.pendingFlags, old(conn.connected), contactsHash, contact.handle) && Faultless(conn)
      ==> AsPending(old(conn.members), conn.members, contact.handle, contact.pendingFlags)
  {
    if SCHEDULE_UPDATE_FLAGS in contact.pendingFlags {
      var sent := RunUpdateFlags(conn, contactsHash, contact);
    }
  }

  /** The marks are cleared, but for that of an unblocking that failed. */
  method ClearEdits(contact: Contact, unblocked: bool) returns (changed: bool)
    modifies contact
    ensures contact.Data() == RunUpdate(old(contact.Data()), unblocked)
    ensures EditsDone(old(contact.Data()), unblocked, contact.Data())
    ensures changed == NeedsUpdate(old(contact.Data()))
  {
    changed := false;
    if SCHEDULE_UPDATE_FLAGS in contact.pendingFlags {
      contact.pendingFlags := contact.pendingFlags - {SCHEDULE_UPDATE_FLAGS};
      changed := true;
    }
    if SCHEDULE_UNBLOCK in contact.pendingFlags {
      if unblocked { contact.pendingFlags := contact.pendingFlags - {SCHEDULE_UNBLOCK}; }
      else { contact.flags := contact.flags - {CL_DENY}; }
      changed := true;
    }
    if SCHEDULE_UPDATE_MASTER_UID in contact.pendingFlags {
      contact.pendingFlags := contact.pendingFlags - {SCHEDULE_UPDATE_MASTER_UID};
      changed := true;
    }
    if SCHEDULE_UPDATE_VARIANTS in contact.pendingFlags {
      contact.pendingFlags := contact.pendingFlags - {SCHEDULE_UPDATE_VARIANTS};
      changed := true;
    }
  }

  /** `run_update_contact`; `unblocked` is what the server says to the unblocking. The fields end as
      the specification says. The flags are sent if the server can be reached, and their mark is
      cleared in any case: offline nothing is sent, now or later. */
  method RunUpdateContact(conn: Connection, contactsHash: map<nat, Contact>, contact: Contact, unblocked: bool)
    returns (changed: bool)
    requires contact.handle in contactsHash ==>
      Mirrors(contactsHash[contact.handle].flags, conn.members, contact.handle)
    modifies conn, contact
    ensures contact.Data() == RunUpdate(old(contact.Data()), unblocked)
    ensures EditsDone(old(contact.Data()), unblocked, contact.Data())
    ensures changed == NeedsUpdate(old(contact.Data()))
    ensures SCHEDULE_UPDATE_FLAGS !in contact.pendingFlags
    ensures !Sends(old(contact.pendingFlags), old(conn.connected), contactsHash, old(contact.handle))
      ==> conn.calls == old(conn.calls) && conn.members == old(conn.members)
    ensures Sends(old(contact.pendingFlags), old(conn.connected), contactsHash, old(contact.handle)) && Faultless(conn)
      ==> AsPending(old(conn.members), conn.members, old(contact.handle), old(contact.pendingFlags))
  {
    ghost var d := contact.Data();
    SendFlags(conn, contactsHash, contact);
    assert contact.Data() == d;
    ClearedAfter(d, unblocked);
    hide RunUpdate, NeedsUpdate, AsPending, Mirrors;
    changed := ClearEdits(contact, unblocked);
    assert contact.Data().pendingFlags == contact.pendingFlags;
  }

  lemma ClearedAfter(d: ContactData, unblocked: bool)
    ensures SCHEDULE_UPDATE_FLAGS !in RunUpdate(d, unblocked).pendingFlags
  {}

  /** From a submitted vCard to the server: if the contact is where its flags say, every call
      succeeds and the vCard has only "yes" and unrecognised values, the contact ends on exactly the
      lists it was on and those the vCard names, as far as they have a channel; nobody else moves. */
  method ApplyCard(conn: Connection, contactsHash: map<nat, Contact>, contact: Contact, card: Card, vcardField: string)
    requires contact !in contactsHash.Values && vcardField !in OWN_NAMES
    requires Reachable(conn.connected, contactsHash, contact.handle) && Faultless(conn)
    requires Mirrors(contactsHash[contact.handle].flags, conn.members, contact.handle)
    requires Mirrors(contact.flags, conn.members, contact.handle)
    requires forall r :: r in RequestsIn(card) ==> r.value != "no"
    modifies conn, contact
    ensures conn.members.Keys == old(conn.members).Keys
    ensures forall list: Primary :: list in conn.members ==>
      && conn.members[list] - {old(contact.handle)} == old(conn.members)[list] - {old(contact.handle)}
      && (old(contact.handle) in conn.members[list] <==>
            old(contact.handle) in old(conn.members)[list] || list in YesLists(RequestsIn(card)))
  {
    ghost var d := contact.Data();
    var ok := contact.UpdateFromEContact(card, vcardField);
    HandleStays(d, card, vcardField);
    forall list: Primary
      ensures list in contact.pendingFlags <==> list in d.flags || list in YesLists(RequestsIn(card))
    {
      YesOnlyReaches(d, card, vcardField, list);
    }
    hide VCards.UpdateFromEContact, YesLists, RequestsIn;
    var sent := RunUpdateFlags(conn, contactsHash, contact);
  }

  lemma {:induction false} ReadingStays(r: Reading, card: Card, vcardField: string)
    ensures ReadAttributes(r, card, vcardField).d.handle == r.d.handle
    decreases |card|
  {
    if card != [] { ReadingStays(ReadAttribute(r, card[0], vcardField), card[1..], vcardField); }
  }

  lemma HandleStays(d: ContactData, card: Card, vcardField: string)
    ensures UpdateFromEContact(d, card, vcardField).0.handle == d.handle
  {
    ReadingStays(Reading(d.(pendingFlags := d.flags), []), card, vcardField);
    hide ReadAttributes;
  }
}
