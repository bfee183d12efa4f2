/** The contact-list mirror of e-book-backend-tp-cl.c, updated in place: the hash table from handles
    to contacts, the `MembersChanged` callback and its deferred step. */
module RosterMirror {
  import opened Text
  import opened Flags
  import opened ContactValues
  import opened Contacts
  import opened SwapRemove
  import opened Inspections
  import opened RosterSpec

  /** `ChannelMembersChangedClosure`: what one signal leaves to be done. */
  datatype Closure = Closure(toAdd: seq<Contact>, toUpdate: seq<Contact>, toRemove: seq<Contact>)

  function EntryOf(c: Contact): Entry
    reads c
  {
    Entry(c.flags, c.name.Some?)
  }

  /** The hash table as the specification sees it. */
  ghost function Entries(table: map<nat, Contact>): Mirror
    reads table.Values
  {
    map h | h in table :: EntryOf(table[h])
  }

  lemma EntriesWith(table: map<nat, Contact>, handle: nat, contact: Contact)
    ensures Entries(table[handle := contact]) == Entries(table)[handle := EntryOf(contact)]
  {}

  lemma EntriesAre(table: map<nat, Contact>)
    ensures Entries(table).Keys == table.Keys && forall h :: h in table ==> Entries(table)[h] == EntryOf(table[h])
  {}

  /** One contact of the table was written. */
  lemma EntriesBut(before: Mirror, table: map<nat, Contact>, handle: nat)
    requires before.Keys == table.Keys && handle in table
    requires forall h :: h in table && h != handle ==> EntryOf(table[h]) == before[h]
    ensures Entries(table) == before[handle := EntryOf(table[handle])]
  {
    hide EntryOf;
  }

  lemma EntriesKeys(table: map<nat, Contact>)
    ensures Entries(table).Keys == table.Keys
  {}

  function Adds(s: seq<Contact>): (adds: seq<(nat, FlagWord)>)
    reads s
    ensures |adds| == |s|
  {
    seq(|s|, i requires 0 <= i < |s| reads s => (s[i].handle, s[i].flags))
  }

  /** A contact of a lost connection: unknown presence, no capabilities, everything else as it was. */
  function Offline(d: ContactData): ContactData {
    d.(status := Option.Some("unknown"), genericStatus := "unknown", statusMessage := Option.None, capabilities := {})
  }

  /** Of a list of contacts, those that have a name and whose handle the table still has, each as often as
      it was there. */
  ghost predicate OnlyNamed(valid: seq<Contact>, contacts: seq<Contact>, table: map<nat, Contact>)
    reads contacts
  {
    && (forall c :: c in valid ==> c in contacts)
    && forall c :: c in contacts ==>
         Count(valid, c) == if c.name.Some? && c.handle in table then Count(contacts, c) else 0
  }

  lemma AreNamed(valid: seq<Contact>, contacts: seq<Contact>, table: map<nat, Contact>)
    requires multiset(valid) == multiset(Kept(contacts, ValidOnes(contacts, table)))
    ensures OnlyNamed(valid, contacts, table)
  {
    var keep := ValidOnes(contacts, table);
    forall c | c in contacts ensures Count(valid, c) == if c.name.Some? && c.handle in table then Count(contacts, c) else 0 {
      KeptCount(contacts, keep, c);
    }
    forall c | c in valid ensures c in contacts {
      assert c in multiset(valid);
      KeptMembers(contacts, keep, c);
    }
  }

  /** Nothing is known of the contact but its handle and its lists. */
  predicate Blank(d: ContactData) {
    d == NEW_CONTACT.(handle := d.handle, flags := d.flags)
  }

  lemma StillBlank(d: ContactData, e: ContactData)
    requires Blank(d) && e == d.(flags := e.flags)
    ensures Blank(e)
  {}

  class ContactList {
    var contactsHash: map<nat, Contact>
    var connected: bool

    constructor ()
      ensures contactsHash == map[] && !connected && Valid()
    {
      contactsHash, connected := map[], false;
    }

    /** Every contact is under its own handle, so no contact is there twice. */
    ghost predicate Valid()
      reads this, contactsHash.Values
    {
      forall h :: h in contactsHash ==> contactsHash[h].handle == h
    }

    ghost function Table(): Mirror
      reads this, contactsHash.Values
    {
      Entries(contactsHash)
    }

    /** The table and the queues of a closure as the specification sees them. */
    ghost function Work(q: Closure): Handling
      reads this, contactsHash.Values, q.toAdd, q.toUpdate, q.toRemove
    {
      Handling(Table(), Adds(q.toAdd), Handles(q.toUpdate), Handles(q.toRemove))
    }

    /** The new contacts of a closure have no more than a handle and flags, and are not in the table yet. */
    ghost predicate Separate(q: Closure)
      reads this, q.toAdd
    {
      && (forall c :: c in q.toAdd ==> c !in contactsHash.Values && c.handle !in contactsHash && Blank(c.Data()))
      && (forall c :: c in q.toUpdate + q.toRemove ==> c in contactsHash.Values)
    }

    static method SetFlags(contact: Contact, flags: FlagWord)
      modifies contact`flags
      ensures contact.flags == flags && contact.Data() == old(contact.Data()).(flags := flags)
    {
      contact.flags := flags;
    }

    /** A handle the table has: its flags for the list are cleared, and one is set. */
    method JoinKnown(list: Primary, m: Membership, handle: nat, q: Closure) returns (q': Closure)
      requires Valid() && Separate(q) && handle in contactsHash
      modifies contactsHash.Values
      ensures Valid() && Separate(q') && q'.toAdd == q.toAdd
      ensures Work(q') == RosterSpec.Join(old(Work(q)), list, m, handle)
      ensures forall h :: h in contactsHash ==>
        contactsHash[h].Data() == old(contactsHash[h].Data()).(flags := contactsHash[h].Data().flags)
    {
      hide Entries, Blank, Contact.Data;
      var contact := contactsHash[handle];
      ghost var before := Table();
      EntriesAre(contactsHash);
      SetFlags(contact, contact.flags - ListFlags(list));
      q' := q.(toUpdate := q.toUpdate + [contact]);
      SetFlags(contact, contact.flags + MembershipFlag(list, m));
      EntriesBut(before, contactsHash, handle);
    }

    static method NewContact(handle: nat, flags: FlagWord) returns (contact: Contact)
      ensures fresh(contact) && Blank(contact.Data())
      ensures contact.handle == handle && contact.flags == flags && contact.name.None?
    {
      contact := new Contact(NEW_CONTACT.(handle := handle));
      contact.flags := contact.flags + flags;
      assert {} + flags == flags;
    }

    /** A handle the table does not have gets a new contact. */
    method JoinNew(list: Primary, m: Membership, handle: nat, q: Closure) returns (q': Closure)
      requires Valid() && Separate(q) && handle !in contactsHash
      ensures Separate(q') && q.toAdd <= q'.toAdd && fresh(q'.toAdd[|q.toAdd|..])
      ensures Work(q') == RosterSpec.Join(old(Work(q)), list, m, handle)
    {
      var contact := NewContact(handle, MembershipFlag(list, m));
      hide Blank;
      q' := q.(toAdd := q.toAdd + [contact]);
      EntriesKeys(contactsHash);
      AddsMore(q.toAdd, contact);
      hide Entries, Adds, MembershipFlag, Handles;
    }

    lemma HandlesMore(cs: seq<Contact>, c: Contact)
      ensures Handles(cs + [c]) == Handles(cs) + [c.handle]
    {}

    lemma AddsMore(cs: seq<Contact>, c: Contact)
      ensures Adds(cs + [c]) == Adds(cs) + [(c.handle, c.flags)]
    {}

    /** One handle of the added, local-pending or remote-pending array. */
    method JoinOne(list: Primary, m: Membership, handle: nat, q: Closure) returns (q': Closure)
      requires Valid() && Separate(q)
      modifies contactsHash.Values
      ensures Valid() && Separate(q') && q.toAdd <= q'.toAdd && fresh(q'.toAdd[|q.toAdd|..])
      ensures Work(q') == RosterSpec.Join(old(Work(q)), list, m, handle)
      ensures forall h :: h in contactsHash ==>
        contactsHash[h].Data() == old(contactsHash[h].Data()).(flags := contactsHash[h].Data().flags)
    {
      hide *;
      if handle in contactsHash {
        q' := JoinKnown(list, m, handle, q);
      } else {
        q' := JoinNew(list, m, handle, q);
      }
    }

    /** One handle of the removed array. */
    method LeaveOne(list: Primary, handle: nat, q: Closure) returns (q': Closure)
      requires Valid() && Separate(q)
      modifies contactsHash.Values
      ensures Valid() && Separate(q') && q'.toAdd == q.toAdd
      ensures Work(q') == RosterSpec.Leave(old(Work(q)), list, handle)
      ensures forall h :: h in contactsHash ==>
        contactsHash[h].Data() == old(contactsHash[h].Data()).(flags := contactsHash[h].Data().flags)
    {
      hide Entries, Blank, Contact.Data;
      EntriesKeys(contactsHash);
      q' := q;
      if handle in contactsHash {
        var contact := contactsHash[handle];
        var flagsToRemove := {list, list + 1, list + 2};
        assert flagsToRemove == ListFlags(list);
        ghost var before := Table();
        EntriesAre(contactsHash);
        HandlesMore(q.toUpdate, contact);
        HandlesMore(q.toRemove, contact);
        hide ListFlags, Handles;
        SetFlags(contact, contact.flags - flagsToRemove);
        EntriesBut(before, contactsHash, handle);
        q' := q'.(toUpdate := q'.toUpdate + [contact]);
        if contact.flags == {} {
          q' := q'.(toRemove := q'.toRemove + [contact]);
        }
      }
    }

    method JoinEach(list: Primary, m: Membership, handles: seq<nat>, q: Closure) returns (q': Closure)
      requires Valid() && Separate(q)
      modifies contactsHash.Values
      ensures Valid() && Separate(q') && q.toAdd <= q'.toAdd && fresh(q'.toAdd[|q.toAdd|..])
      ensures Work(q') == JoinAll(old(Work(q)), list, m, handles)
      ensures forall h :: h in contactsHash ==>
        contactsHash[h].Data() == old(contactsHash[h].Data()).(flags := contactsHash[h].Data().flags)
    {
      hide *;
      q' := q;
      ghost var start := Work(q);
      var i := 0;
      AllLeft(handles);
      while i < |handles|
        invariant 0 <= i <= |handles|
        invariant Valid() && Separate(q') && q.toAdd <= q'.toAdd && fresh(q'.toAdd[|q.toAdd|..])
        invariant JoinAll(Work(q'), list, m, handles[i..]) == JoinAll(start, list, m, handles)
        invariant forall h :: h in contactsHash ==>
          contactsHash[h].Data() == old(contactsHash[h].Data()).(flags := contactsHash[h].Data().flags)
      {
        JoinAllStep(Work(q'), list, m, handles, i);
        ghost var before := q'.toAdd;
        q' := JoinOne(list, m, handles[i], q');
        NewPart(q.toAdd, before, q'.toAdd);
        i := i + 1;
      }
      JoinAllStep(Work(q'), list, m, handles, i);
    }

    method LeaveEach(list: Primary, handles: seq<nat>, q: Closure) returns (q': Closure)
      requires Valid() && Separate(q)
      modifies contactsHash.Values
      ensures Valid() && Separate(q') && q'.toAdd == q.toAdd
      ensures Work(q') == LeaveAll(old(Work(q)), list, handles)
      ensures forall h :: h in contactsHash ==>
        contactsHash[h].Data() == old(contactsHash[h].Data()).(flags := contactsHash[h].Data().flags)
    {
      hide *;
      q' := q;
      ghost var start := Work(q);
      var i := 0;
      AllLeft(handles);
      while i < |handles|
        invariant 0 <= i <= |handles|
        invariant Valid() && Separate(q') && q'.toAdd == q.toAdd
        invariant LeaveAll(Work(q'), list, handles[i..]) == LeaveAll(start, list, handles)
        invariant forall h :: h in contactsHash ==>
          contactsHash[h].Data() == old(contactsHash[h].Data()).(flags := contactsHash[h].Data().flags)
      {
        LeaveAllStep(Work(q'), list, handles, i);
        q' := LeaveOne(list, handles[i], q');
        i := i + 1;
      }
      LeaveAllStep(Work(q'), list, handles, i);
    }

    /** A new contact of a closure enters the table. */
    method InsertOne(contact: Contact)
      requires Valid() && Blank(contact.Data())
      modifies this`contactsHash
      ensures Valid()
      ensures Table() == old(Table())[contact.handle := Entry(contact.flags, false)]
      ensures contactsHash == old(contactsHash)[contact.handle := contact]
    {
      hide Entries;
      EntriesWith(contactsHash, contact.handle, contact);
      contactsHash := contactsHash[contact.handle := contact];
    }

    method InsertEach(contacts: seq<Contact>)
      requires Valid() && forall c :: c in contacts ==> Blank(c.Data())
      modifies this`contactsHash
      ensures Valid()
      ensures Table() == InsertAll(old(Table()), Adds(contacts))
      ensures forall h :: h in old(contactsHash) && (forall c :: c in contacts ==> c.handle != h) ==>
        h in contactsHash && contactsHash[h] == old(contactsHash)[h]
      ensures forall h :: h in contactsHash ==>
        contactsHash[h] in contacts || (h in old(contactsHash) && contactsHash[h] == old(contactsHash)[h])
    {
      hide Blank;
      var i := 0;
      ghost var adds, start := Adds(contacts), Table();
      assert adds[0..] == adds;
      while i < |contacts|
        invariant 0 <= i <= |contacts|
        invariant Valid()
        invariant InsertAll(Table(), adds[i..]) == InsertAll(start, adds)
        invariant forall h :: h in old(contactsHash) && (forall c :: c in contacts ==> c.handle != h) ==>
          h in contactsHash && contactsHash[h] == old(contactsHash)[h]
        invariant forall h :: h in contactsHash ==>
          contactsHash[h] in contacts || (h in old(contactsHash) && contactsHash[h] == old(contactsHash)[h])
      {
        assert adds[i..][0] == adds[i] == (contacts[i].handle, contacts[i].flags) && adds[i..][1..] == adds[i + 1..];
        InsertOne(contacts[i]);
        i := i + 1;
      }
    }

    /** The four arrays of a signal, in the order in which the callback goes through them. */
    method GoThroughArrays(s: Signal) returns (q: Closure)
      requires Valid()
      modifies contactsHash.Values
      ensures Valid() && Separate(q)
      ensures Work(q) == Arrays(old(Table()), s)
      ensures forall h :: h in contactsHash ==>
        contactsHash[h].Data() == old(contactsHash[h].Data()).(flags := contactsHash[h].Data().flags)
    {
      q := Closure([], [], []);
      EmptyClosure(Table());
      ArraysAre(Table(), s);
      assert Separate(q);
      hide *;
      q := JoinEach(s.list, Current, s.added, q);
      q := LeaveEach(s.list, s.removed, q);
      q := JoinEach(s.list, LocalPending, s.localPending, q);
      q := JoinEach(s.list, RemotePending, s.remotePending, q);
    }

    /** What there is to do concerns contacts of the table and new ones. */
    lemma SeparateParts(q: Closure)
      requires Valid() && Separate(q)
      ensures forall c :: c in q.toAdd ==> Blank(c.Data()) && c.handle !in contactsHash
      ensures forall c :: c in q.toRemove ==> Listed(c)
    {
      forall c | c in q.toRemove ensures Listed(c) { assert c in q.toUpdate + q.toRemove; }
      hide Blank;
    }

    /** `tp_channel_members_changed_cb`. Of the contacts the table has only the flags change, and those that
        enter it are new. Nothing is done once the connection is gone. */
    method TpChannelMembersChanged(s: Signal) returns (q: Closure)
      requires Valid()
      modifies this`contactsHash, contactsHash.Values
      ensures Valid()
      ensures !connected ==> q == Closure([], [], []) && Table() == old(Table())
      ensures connected ==> Work(q) == MembersChanged(old(Table()), s)
      ensures forall c :: c in q.toRemove ==> Listed(c)
      ensures forall h :: h in old(contactsHash) ==>
        && h in contactsHash && contactsHash[h] == old(contactsHash)[h]
        && contactsHash[h].Data() == old(contactsHash[h].Data()).(flags := contactsHash[h].Data().flags)
      ensures forall h :: h in contactsHash && h !in old(contactsHash) ==>
        contactsHash[h] in q.toAdd && Blank(contactsHash[h].Data())
    {
      hide Blank, Contact.Data;
      if !connected { return Closure([], [], []); }
      hide Table, Valid, Separate, Work, Arrays, InsertAll, Adds, Handles;
      ghost var start := Table();
      q := GoThroughArrays(s);
      ghost var w := Work(q);
      SeparateParts(q);
      InsertEach(q.toAdd);
      WorkInserted(q, w);
      WholeSignal(start, s, w, Work(q));
    }

    /** The queues are what they were before the new contacts entered the table. */
    lemma WorkInserted(q: Closure, w: Handling)
      requires w == Handling(w.mirror, Adds(q.toAdd), Handles(q.toUpdate), Handles(q.toRemove))
      requires Table() == InsertAll(w.mirror, Adds(q.toAdd))
      ensures Work(q) == w.(mirror := InsertAll(w.mirror, w.toAdd))
    {
      hide Table, InsertAll, Adds, Handles;
    }

    /** The loop of `update_changed_members` over the contacts that left their last list. */
    method RemoveEach(contacts: seq<Contact>)
      requires Valid()
      modifies this`contactsHash
      ensures Valid()
      ensures contactsHash == old(contactsHash) - ToSet(Handles(contacts))
      ensures Table() == old(Table()) - ToSet(Handles(contacts))
    {
      ghost var start, handles := Table(), Handles(contacts);
      var i := 0;
      while i < |contacts|
        invariant 0 <= i <= |contacts|
        invariant contactsHash == old(contactsHash) - ToSet(handles[..i])
        invariant forall k :: 0 <= k < |contacts| ==> contacts[k].handle == handles[k]
      {
        var contact := contacts[i];
        assert contact.handle == handles[i];
        HandlesSnoc(handles, i);
        contactsHash := contactsHash - {contact.handle};
        i := i + 1;
      }
      assert handles[..i] == handles;
      forall h: nat | h in contactsHash ensures EntryOf(contactsHash[h]) == start[h] {
        assert contactsHash[h].flags == start[h].flags;
      }
    }

    /** `handle_members_changed_idle_cb`: without new contacts there is nothing to inspect. */
    method HandleMembersChangedIdleCb(q: Closure)
      requires Valid() && q.toAdd == []
      modifies this`contactsHash
      ensures Valid()
      ensures Table() == Deferred(old(Work(q)), if connected then Inspection.Inspected({}) else Inspection.NoAnswer)
      ensures contactsHash == if connected then old(contactsHash) - ToSet(Handles(q.toRemove)) else old(contactsHash)
    {
      if connected { RemoveEach(q.toRemove); }
    }

    /** Everything an inspection tells about a contact. */
    static method SetDetails(contact: Contact, t: TpContact)
      modifies contact
      ensures Told(old(contact.Data()), t, contact.Data())
      ensures contact.handle == old(contact.handle) && contact.flags == old(contact.flags) && contact.name.Some?
    {
      ghost var before := contact.Data();
      var changed := contact.UpdateName(t.identifier);
      RenamedParts(before, t.identifier);
      hide UpdateName;
      contact.alias := Option.Some(t.alias);
      contact.genericStatus := t.genericStatus;
      contact.status := Option.Some(t.status);
      contact.statusMessage := Option.Some(t.statusMessage);
      contact.avatarToken := t.avatarToken;
    }

    /** What the inspection tells about one contact. The contacts under other handles stay as they are. */
    method UpdateDetails(t: TpContact)
      requires Valid()
      modifies contactsHash.Values
      ensures Valid()
      ensures Table() == NameAll(old(Table()), {t.handle})
      ensures forall h :: h in contactsHash ==>
        if h == t.handle then Told(old(contactsHash[h].Data()), t, contactsHash[h].Data())
        else contactsHash[h].Data() == old(contactsHash[h].Data())
    {
      hide Entries, Told, Contact.Data;
      EntriesAre(contactsHash);
      if t.handle in contactsHash {
        var contact := contactsHash[t.handle];
        ghost var before := Table();
        SetDetails(contact, t);
        EntriesBut(before, contactsHash, t.handle);
      }
    }

    /** `update_contact_details`: every contact as the answers about its handle say, and the array of those
        the table had. */
    method UpdateContactDetails(tpContacts: seq<TpContact>) returns (contacts: seq<Contact>)
      requires Valid()
      modifies contactsHash.Values
      ensures Valid()
      ensures Table() == NameAll(old(Table()), HandlesOf(tpContacts))
      ensures forall h :: h in contactsHash ==>
        Detailed(old(contactsHash[h].Data()), tpContacts, h, contactsHash[h].Data())
      ensures contacts == Found(contactsHash, tpContacts)
    {
      hide *;
      ghost var start := Table();
      contacts := [];
      var i := 0;
      NameNone(start);
      FoundNone(contactsHash);
      forall h | h in contactsHash ensures Detailed(contactsHash[h].Data(), [], h, contactsHash[h].Data()) {
        NothingDetailed(contactsHash[h].Data(), h);
      }
      assert tpContacts[..0] == [];
      while i < |tpContacts|
        invariant 0 <= i <= |tpContacts|
        invariant Valid()
        invariant Table() == NameAll(start, HandlesOf(tpContacts[..i]))
        invariant forall h :: h in contactsHash ==>
          Detailed(old(contactsHash[h].Data()), tpContacts[..i], h, contactsHash[h].Data())
        invariant contacts == Found(contactsHash, tpContacts[..i])
      {
        NameOneMore(start, tpContacts, i);
        FoundMore(contactsHash, tpContacts, i);
        label before:
        UpdateDetails(tpContacts[i]);
        forall h | h in contactsHash
          ensures Detailed(old(contactsHash[h].Data()), tpContacts[..i + 1], h, contactsHash[h].Data())
        {
          OneAnswer(old(contactsHash[h].Data()), tpContacts, i, h, old@before(contactsHash[h].Data()), contactsHash[h].Data());
        }
        if tpContacts[i].handle in contactsHash { contacts := contacts + [contactsHash[tpContacts[i].handle]]; }
        i := i + 1;
      }
      assert tpContacts[..i] == tpContacts;
    }

    /** The named contacts of a list that the table still has, in some order. */
    method WithoutInvalid(contacts: seq<Contact>) returns (valid: seq<Contact>)
      ensures multiset(valid) == multiset(Kept(contacts, ValidOnes(contacts, contactsHash)))
      ensures OnlyNamed(valid, contacts, contactsHash)
    {
      var a := new Contact[|contacts|](i requires 0 <= i < |contacts| => contacts[i]);
      assert a[..|contacts|] == contacts;
      var m := RemoveInvalidContacts(a, |contacts|, contactsHash);
      valid := a[..m];
      AreNamed(valid, contacts, contactsHash);
    }

    /** Drops the contacts without a name from the arrays of the signals, and takes those that left
        their last list out of the table. */
    method FinishNamed(q: Closure, ghost gone: set<nat>) returns (added: seq<Contact>, removed: seq<Contact>, updated: seq<Contact>)
      requires Valid() && forall c :: c in q.toRemove ==> Listed(c)
      requires gone == set h | h in Handles(q.toRemove) && h in Table() && Table()[h].named
      modifies this`contactsHash
      ensures Valid()
      ensures Table() == old(Table()) - gone
      ensures contactsHash == old(contactsHash) - ToSet(Handles(removed))
      ensures OnlyNamed(added, q.toAdd, old(contactsHash)) && OnlyNamed(removed, q.toRemove, old(contactsHash))
      ensures OnlyNamed(updated, q.toUpdate, old(contactsHash))
    {
      hide Valid, Table, Listed, Handles, Kept, ValidOnes, OnlyNamed;
      added := WithoutInvalid(q.toAdd);
      removed := WithoutInvalid(q.toRemove);
      updated := WithoutInvalid(q.toUpdate);
      RemovedHandles(q.toRemove, removed);
      RemoveEach(removed);
    }

    /** `members_changed_with_details_cb`. The arrays of its signals: the new, the gone and the changed
        contacts of the closure that have a name, and the inspected ones. */
    method MembersChangedWithDetailsCb(q: Closure, error: bool, tpContacts: seq<TpContact>)
      returns (added: seq<Contact>, removed: seq<Contact>, updated: seq<Contact>, contacts: seq<Contact>)
      requires Valid() && q.toAdd != [] && forall c :: c in q.toRemove ==> Listed(c)
      modifies this`contactsHash, contactsHash.Values
      ensures Valid()
      ensures Table() == Deferred(old(Work(q)),
        if error || !connected then Inspection.NoAnswer else Inspection.Inspected(HandlesOf(tpContacts)))
      ensures error || !connected ==>
        && added == removed == updated == contacts == [] && contactsHash == old(contactsHash)
        && forall h :: h in contactsHash ==> contactsHash[h].Data() == old(contactsHash[h].Data())
      ensures !error && connected ==>
        && OnlyNamed(added, q.toAdd, old(contactsHash)) && OnlyNamed(removed, q.toRemove, old(contactsHash))
        && OnlyNamed(updated, q.toUpdate, old(contactsHash)) && contacts == Found(old(contactsHash), tpContacts)
        && contactsHash == old(contactsHash) - ToSet(Handles(removed))
        && forall h :: h in old(contactsHash) ==>
             Detailed(old(contactsHash[h].Data()), tpContacts, h, old(contactsHash)[h].Data())
    {
      hide Contact.Data, Detailed, Found, OnlyNamed;
      added, removed, updated, contacts := [], [], [], [];
      if error || !connected { return; }
      ghost var w := Work(q);
      assert w.toAdd != [] && w.mirror == Table();
      hide Valid, Table, Listed, Handles, Adds, NameAll, HandlesOf, Work;
      StillListed(q.toRemove, w.toRemove);
      contacts := UpdateContactDetails(tpContacts);
      ListedAgain(q.toRemove, w.toRemove);
      ghost var named := Table();
      added, removed, updated := FinishNamed(q, set h | h in w.toRemove && h in named && named[h].named);
    }

    /** Each contact of a list is the table's contact of its handle. */
    ghost predicate ListedAs(contacts: seq<Contact>, handles: seq<nat>)
      reads this
    {
      |handles| == |contacts| &&
      forall k :: 0 <= k < |contacts| ==> handles[k] in contactsHash && contactsHash[handles[k]] == contacts[k]
    }

    lemma StillListed(contacts: seq<Contact>, handles: seq<nat>)
      requires Valid() && handles == Handles(contacts) && forall c :: c in contacts ==> Listed(c)
      ensures ListedAs(contacts, handles)
    {
      forall k | 0 <= k < |contacts| ensures handles[k] in contactsHash && contactsHash[handles[k]] == contacts[k] {
        assert Listed(contacts[k]);
      }
    }

    lemma ListedAgain(contacts: seq<Contact>, handles: seq<nat>)
      requires Valid() && ListedAs(contacts, handles)
      ensures handles == Handles(contacts) && forall c :: c in contacts ==> Listed(c)
    {
      forall c | c in contacts ensures Listed(c) {
        var k :| 0 <= k < |contacts| && contacts[k] == c;
        assert handles[k] in contactsHash;
      }
    }

    /** The handles of the valid ones are those the table knows by name. */
    lemma RemovedHandles(contacts: seq<Contact>, valid: seq<Contact>)
      requires Valid() && forall c :: c in contacts ==> Listed(c)
      requires multiset(valid) == multiset(Kept(contacts, ValidOnes(contacts, contactsHash)))
      ensures ToSet(Handles(valid)) == set h | h in Handles(contacts) && h in Table() && Table()[h].named
    {
      forall h ensures h in Handles(valid) <==> h in Handles(contacts) && h in Table() && Table()[h].named {
        RemovedHandle(contacts, valid, h);
      }
      hide Kept, ValidOnes, Handles, Table, Listed;
    }

    lemma RemovedHandle(contacts: seq<Contact>, valid: seq<Contact>, h: nat)
      requires Valid() && forall c :: c in contacts ==> Listed(c)
      requires multiset(valid) == multiset(Kept(contacts, ValidOnes(contacts, contactsHash)))
      ensures h in Handles(valid) <==> h in Handles(contacts) && h in Table() && Table()[h].named
    {
      if h in Handles(valid) {
        var k :| 0 <= k < |valid| && Handles(valid)[k] == h;
        assert valid[k] in multiset(valid);
        KeptMembers(contacts, ValidOnes(contacts, contactsHash), valid[k]);
        var j :| 0 <= j < |contacts| && contacts[j] == valid[k];
        assert Handles(contacts)[j] == h && Listed(contacts[j]);
      }
      if h in Handles(contacts) && h in Table() && Table()[h].named {
        var k :| 0 <= k < |contacts| && Handles(contacts)[k] == h;
        assert contacts[k] in contacts && Listed(contacts[k]);
        KeptMembers(contacts, ValidOnes(contacts, contactsHash), contacts[k]);
        assert contacts[k] in multiset(valid);
        var j :| 0 <= j < |valid| && valid[j] == contacts[k];
        assert Handles(valid)[j] == h;
      }
    }

    /** `e_book_backend_tp_cl_go_offline`: every contact is told to be offline and leaves the table. */
    method GoOffline() returns (contacts: seq<Contact>)
      requires Valid()
      modifies this`contactsHash, contactsHash.Values
      ensures contactsHash == map[] && Valid()
      ensures forall h :: h in old(contactsHash) ==>
        old(contactsHash)[h].Data() == Offline(old(contactsHash[h].Data())) && old(contactsHash)[h] in contacts
      ensures |contacts| == |old(contactsHash)|
    {
      hide Offline, Contact.Data;
      ghost var table := contactsHash;
      contacts := [];
      var rest := contactsHash.Keys;
      assert |rest| == |table|;
      while rest != {}
        invariant rest <= table.Keys && contactsHash == table && Valid()
        invariant |contacts| + |rest| == |table|
        invariant forall h :: h in table ==>
          if h in rest then table[h].Data() == old(table[h].Data())
          else table[h].Data() == Offline(old(table[h].Data())) && table[h] in contacts
        decreases rest
      {
        var handle :| handle in rest;
        var contact := contactsHash[handle];
        SetOffline(contact);
        contacts := contacts + [contact];
        rest := rest - {handle};
      }
      contactsHash := map[];
    }

    static method SetOffline(contact: Contact)
      modifies contact
      ensures contact.Data() == Offline(old(contact.Data())) && contact.handle == old(contact.handle)
    {
      contact.status := Option.Some("unknown");
      contact.genericStatus := "unknown";
      contact.statusMessage := Option.None;
      contact.capabilities := {};
    }

    /** The table has the contact under its handle. */
    ghost predicate Listed(c: Contact)
      reads this, c
    {
      c.handle in contactsHash && contactsHash[c.handle] == c
    }
  }

  lemma HandlesSnoc(handles: seq<nat>, i: nat)
    requires i < |handles|
    ensures ToSet(handles[..i + 1]) == ToSet(handles[..i]) + {handles[i]}
  {
    assert handles[..i + 1] == handles[..i] + [handles[i]];
  }

  /** A renaming, field by field. */
  lemma RenamedParts(d: ContactData, name: string)
    ensures var e, renamed := UpdateName(d, name), d.name.Some? && d.name.value != name;
      && e == d.(name := Some(name), variants := e.variants, pendingFlags := e.pendingFlags)
      && e.variants == d.variants + (if renamed then {d.name.value} else {})
      && e.pendingFlags == d.pendingFlags + (if renamed then {SCHEDULE_UPDATE_VARIANTS} else {})
  {
    assert d.variants + {} == d.variants && d.pendingFlags + {} == d.pendingFlags;
  }

  lemma OneAnswer(before: ContactData, ts: seq<TpContact>, i: nat, h: nat, mid: ContactData, after: ContactData)
    requires i < |ts| && Detailed(before, ts[..i], h, mid)
    requires if h == ts[i].handle then Told(mid, ts[i], after) else after == mid
    ensures Detailed(before, ts[..i + 1], h, after)
  {
    hide *;
    assert ts[..i + 1] == ts[..i] + [ts[i]];
    if h == ts[i].handle {
      DetailedMore(before, ts[..i], ts[i], mid, after);
    } else {
      DetailedElsewhere(before, ts[..i], ts[i], h, mid);
    }
  }

  lemma FoundNone(table: map<nat, Contact>)
    ensures Found(table, []) == []
  {}

  lemma NameNone(mirror: Mirror)
    ensures NameAll(mirror, HandlesOf([])) == mirror
  {}

  lemma NameOneMore(mirror: Mirror, ts: seq<TpContact>, i: nat)
    requires i < |ts|
    ensures NameAll(NameAll(mirror, HandlesOf(ts[..i])), {ts[i].handle}) == NameAll(mirror, HandlesOf(ts[..i + 1]))
  {
    assert ts[..i + 1] == ts[..i] + [ts[i]];
    assert HandlesOf(ts[..i + 1]) == HandlesOf(ts[..i]) + {ts[i].handle};
  }

  lemma EmptyClosure(mirror: Mirror)
    ensures Adds([]) == [] && Handles([]) == []
  {}

  /** The callback as its four arrays and the insertions. */
  lemma ArraysAre(mirror: Mirror, s: Signal)
    ensures Arrays(mirror, s) ==
      JoinAll(JoinAll(LeaveAll(JoinAll(Handling(mirror, [], [], []), s.list, Current, s.added), s.list, s.removed),
                      s.list, LocalPending, s.localPending), s.list, RemotePending, s.remotePending)
  {}

  lemma WholeSignal(mirror: Mirror, s: Signal, w: Handling, w': Handling)
    requires w == Arrays(mirror, s) && w' == w.(mirror := InsertAll(w.mirror, w.toAdd))
    ensures w' == MembersChanged(mirror, s)
  {}

  lemma NewPart(a: seq<Contact>, b: seq<Contact>, c: seq<Contact>)
    requires a <= b <= c
    ensures c[|a|..] == b[|a|..] + c[|b|..]
  {}

  lemma AllLeft(handles: seq<nat>)
    ensures handles[0..] == handles
  {}

  lemma JoinAllStep(w: Handling, list: Primary, m: Membership, handles: seq<nat>, i: nat)
    requires i <= |handles|
    ensures i < |handles| ==> JoinAll(w, list, m, handles[i..]) == JoinAll(RosterSpec.Join(w, list, m, handles[i]), list, m, handles[i + 1..])
    ensures i == |handles| ==> JoinAll(w, list, m, handles[i..]) == w
  {
    if i < |handles| { assert handles[i..][0] == handles[i] && handles[i..][1..] == handles[i + 1..]; }
  }

  lemma LeaveAllStep(w: Handling, list: Primary, handles: seq<nat>, i: nat)
    requires i <= |handles|
    ensures i < |handles| ==> LeaveAll(w, list, handles[i..]) == LeaveAll(RosterSpec.Leave(w, list, handles[i]), list, handles[i + 1..])
    ensures i == |handles| ==> LeaveAll(w, list, handles[i..]) == w
  {
    if i < |handles| { assert handles[i..][0] == handles[i] && handles[i..][1..] == handles[i + 1..]; }
  }
}
