/** The backend of e-book-backend-tp.c, updated in place. `model` is its state as a value; every method
    is proved to do to it what the specification says. */
module Backend {
  import opened Text
  import opened Flags
  import opened ContactValues
  import opened Contacts
  import opened VCards
  import opened MasterProtocol
  import opened Store
  import opened StoreBatches
  import opened Db
  import opened Uids
  import opened PendingEdits
  import opened Worlds
  import opened Soundness

  /** The contact objects hold these values. */
  ghost predicate Hold(heap: map<Contact, ContactData>)
    reads heap.Keys
  {
    forall c :: c in heap ==> c.Data() == heap[c]
  }

  /** Objects the backend has. */
  ghost predicate Ours(heap: map<Contact, ContactData>, cs: seq<Contact>) {
    forall c :: c in cs ==> c in heap
  }

  class BookBackend {
    var uidToContact: map<string, Contact>
    var nameToContact: map<string, Contact>
    var handleToContact: map<nat, Contact>
    var contactsToAdd: map<string, Contact>
    var contactsToUpdate: map<string, Contact>
    var contactsToDelete: map<string, Contact>
    var contactsToUpdateInDb: map<string, Contact>
    var contactsRemotelyChanged: map<string, Contact>
    var updateScheduled: bool
    var systemInactive: bool
    var membersReady: bool
    var views: seq<View>
    const tpdb: Database
    const path: string
    const vcardField: string
    ghost var model: World

    constructor (tpdb: Database, path: string, vcardField: string)
      ensures Valid() && this.tpdb == tpdb && this.path == path && this.vcardField == vcardField
      ensures model == World(map[], map[], map[], map[], map[], map[], map[], map[], map[], false, false, false, [], tpdb.Content())
    {
      this.tpdb, this.path, this.vcardField := tpdb, path, vcardField;
      uidToContact, nameToContact, handleToContact := map[], map[], map[];
      contactsToAdd, contactsToUpdate, contactsToDelete := map[], map[], map[];
      contactsToUpdateInDb, contactsRemotelyChanged := map[], map[];
      updateScheduled, systemInactive, membersReady, views := false, false, false, [];
      model := World(map[], map[], map[], map[], map[], map[], map[], map[], map[], false, false, false, [], tpdb.Content());
    }

    /** The fields of the object are those of the model. */
    ghost predicate Tables()
      reads this
    {
      && uidToContact == model.byUid && nameToContact == model.byName && handleToContact == model.byHandle
      && contactsToAdd == model.toAdd && contactsToUpdate == model.toUpdate && contactsToDelete == model.toDelete
      && contactsToUpdateInDb == model.dirty && contactsRemotelyChanged == model.changed
      && updateScheduled == model.idle && systemInactive == model.inactive && membersReady == model.ready
      && views == model.views
    }

    ghost predicate Valid()
      reads this, model.heap.Keys, tpdb
    {
      Tables() && Hold(model.heap) && tpdb.Content() == model.db && Sound(model)
    }

    /** The contact objects hold what the model says. */
    lemma DataIs(cs: seq<Contact>)
      requires Hold(model.heap) && forall c :: c in cs ==> c in model.heap
      ensures DataOf(cs) == DataAt(model, cs)
    {}

    /** `g_hash_table_get_keys`: in no particular order. */
    method KeysOf(m: map<string, Contact>) returns (keys: seq<string>)
      ensures Lists(keys, m)
    {
      keys := [];
      var rest := m.Keys;
      while rest != {}
        invariant rest <= m.Keys && NoDuplicates(keys)
        invariant forall u :: u in keys <==> u in m && u !in rest
        decreases rest
      {
        var u :| u in rest;
        keys := keys + [u];
        rest := rest - {u};
      }
    }

    /** Updates the rows of a list of contacts in one transaction. */
    method UpdateInDb(contacts: seq<Contact>) returns (done: bool)
      requires Hold(model.heap) && tpdb.Content() == model.db && forall c :: c in contacts ==> c in model.heap
      modifies tpdb
      ensures tpdb.Content() == Commit(model.db, UpdateAll(model.db, DataAt(model, contacts)), done)
    {
      hide UpdateAll, DataAt, DataOf;
      DataIs(contacts);
      done := tpdb.UpdateContacts(contacts);
    }

    /** `flush_db_updates`. `done` says whether the storage carried the batch out. */
    method FlushDbUpdates() returns (done: bool)
      requires Valid()
      modifies this`contactsToUpdateInDb, this`model, tpdb
      ensures Valid() && model == Flush(old(model), done)
    {
      hide *;
      ValidParts();
      var keys := KeysOf(contactsToUpdateInDb);
      FlushFacts(model, keys);
      ListsAll(keys, contactsToUpdateInDb);
      if keys == [] { return true; }
      done := UpdateInDb(Under(contactsToUpdateInDb, keys));
      FlushSound(model, done);
      FlushParts(model, done);
      contactsToUpdateInDb := map[];
      model := Flush(model, done);
      ValidWhen();
    }

    lemma ListsAll(keys: seq<string>, m: map<string, Contact>)
      requires Lists(keys, m)
      ensures forall u :: u in keys ==> u in m
    {}

    /** `e_data_book_view_notify_update` on every view. */
    method NotifyUpdate(uid: string, d: ContactData)
      modifies this`views
      ensures views == Tell(old(views), map[uid := d])
    {
      var i := 0;
      while i < |views|
        invariant 0 <= i <= |views| == |old(views)|
        invariant forall k :: 0 <= k < i ==> views[k] == old(views)[k] + map[uid := d]
        invariant forall k :: i <= k < |views| ==> views[k] == old(views)[k]
      {
        views := views[i := views[i][uid := d]];
        i := i + 1;
      }
    }

    /** Tells the views about the visible ones of the contacts that changed. */
    method NotifyChanged(keys: seq<string>)
      requires contactsRemotelyChanged == model.changed && Hold(model.heap) && Sound(model) && Lists(keys, model.changed)
      modifies this`views
      ensures views == Tell(old(views), VisibleOf(model, model.changed))
    {
      hide Tell, VisibleOf, NewsUnder, At, Visible, Sound, Keyed;
      ghost var w, start := model, views;
      KeyedDirty(w);
      NewsAll(w, w.changed, keys);
      TellNothing(start);
      var i := 0;
      assert keys[..0] == [];
      while i < |keys|
        invariant 0 <= i <= |keys|
        invariant views == Tell(start, NewsUnder(w, w.changed, keys[..i]))
      {
        assert keys[i] in keys;
        var contact := contactsRemotelyChanged[keys[i]];
        ChangedData(w, keys[i]);
        NewsSnoc(w, w.changed, keys, i);
        TellTwice(start, NewsUnder(w, w.changed, keys[..i]), map[keys[i] := At(w, w.changed[keys[i]])]);
        TellTwice(start, NewsUnder(w, w.changed, keys[..i]), map[]);
        TellNothing(views);
        if Visible(contact.Data()) {
          NotifyUpdate(contact.uid, contact.Data());
        }
        i := i + 1;
      }
      assert keys[..i] == keys;
    }

    /** A queued contact is under its own uid, and its object holds its value. */
    lemma ChangedData(w: World, u: string)
      requires Hold(model.heap) && w == model && Keyed(w, w.changed) && u in w.changed
      ensures w.changed[u].Data() == At(w, w.changed[u]) && w.changed[u].uid == u
    {}

    /** Goes through the changed contacts if there is a view at all. */
    method NotifyViews()
      requires contactsRemotelyChanged == model.changed && Hold(model.heap) && Sound(model)
      modifies this`views
      ensures views == Tell(old(views), VisibleOf(model, model.changed))
    {
      hide *;
      TellNobody(views, VisibleOf(model, model.changed));
      if views == [] { return; }
      var keys := KeysOf(contactsRemotelyChanged);
      NotifyChanged(keys);
    }

    /** `notify_remotely_updated_contacts`. */
    method NotifyRemotelyUpdatedContacts()
      requires Valid()
      modifies this`updateScheduled, this`views, this`contactsRemotelyChanged, this`model
      ensures Valid() && model == Notify(old(model))
    {
      hide Tell, VisibleOf, Sound, Notify, Hold;
      NotifyParts(model);
      NotifySound(model);
      NotifyViews();
      updateScheduled := false;
      contactsRemotelyChanged := map[];
      model := Notify(model);
    }

    lemma ValidParts()
      requires Valid()
      ensures Tables() && Hold(model.heap) && tpdb.Content() == model.db && Sound(model)
      ensures uidToContact == model.byUid && nameToContact == model.byName && handleToContact == model.byHandle
      ensures contactsToAdd == model.toAdd && contactsToUpdate == model.toUpdate && contactsToDelete == model.toDelete
      ensures contactsToUpdateInDb == model.dirty && contactsRemotelyChanged == model.changed
      ensures updateScheduled == model.idle && systemInactive == model.inactive && membersReady == model.ready
      ensures views == model.views
    {}

    lemma ValidWhen()
      requires Hold(model.heap) && tpdb.Content() == model.db && Sound(model)
      requires uidToContact == model.byUid && nameToContact == model.byName && handleToContact == model.byHandle
      requires contactsToAdd == model.toAdd && contactsToUpdate == model.toUpdate && contactsToDelete == model.toDelete
      requires contactsToUpdateInDb == model.dirty && contactsRemotelyChanged == model.changed
      requires updateScheduled == model.idle && systemInactive == model.inactive && membersReady == model.ready
      requires views == model.views
      ensures Valid()
    {}

    lemma PendingIs(c: Contact)
      requires Hold(model.heap) && c in model.heap
      ensures c.pendingFlags == At(model, c).pendingFlags && c.flags == At(model, c).flags
    {}

    lemma UidIs(c: Contact)
      requires Hold(model.heap) && c in model.heap
      ensures c.Data() == At(model, c) && c.uid == At(model, c).uid
    {}

    method QueueFields(contact: Contact, updateDb: bool)
      modifies this`contactsRemotelyChanged, this`contactsToUpdateInDb
      ensures contactsRemotelyChanged == if contact.uid in old(contactsRemotelyChanged) then old(contactsRemotelyChanged)
                                         else old(contactsRemotelyChanged)[contact.uid := contact]
      ensures contactsToUpdateInDb == if !updateDb || contact.uid in old(contactsToUpdateInDb) then old(contactsToUpdateInDb)
                                      else old(contactsToUpdateInDb)[contact.uid := contact]
    {
      if contact.uid !in contactsRemotelyChanged {
        contactsRemotelyChanged := contactsRemotelyChanged[contact.uid := contact];
      }
      if updateDb && contact.uid !in contactsToUpdateInDb {
        contactsToUpdateInDb := contactsToUpdateInDb[contact.uid := contact];
      }
    }

    /** Queues one contact for the views and, if it is to be saved, for the cache. */
    method QueueContact(contact: Contact, updateDb: bool)
      requires Valid() && contact in model.heap
      modifies this`contactsRemotelyChanged, this`contactsToUpdateInDb, this`model
      ensures Valid() && model == Queue(old(model), contact, updateDb)
    {
      hide *;
      ValidParts();
      UidIs(contact);
      QueueParts(model, contact, updateDb);
      QueueSound(model, contact, updateDb);
      QueueFields(contact, updateDb);
      model := Queue(model, contact, updateDb);
      ValidWhen();
    }

    /** `update_contacts`. */
    method UpdateContacts(contacts: seq<Contact>, updateDb: bool)
      requires Valid() && Ours(model.heap, contacts)
      modifies this
      ensures Valid() && model == Worlds.UpdateContacts(old(model), contacts, updateDb) && model.heap == old(model.heap)
    {
      hide *;
      UpdateContactsIs(model, contacts, updateDb);
      QueueEach(contacts, updateDb);
      ValidParts();
      SwitchedParts(model, true, model.inactive, model.ready, model.views, model.byHandle);
      SetSwitches(true, systemInactive, membersReady);
    }

    method QueueEach(contacts: seq<Contact>, updateDb: bool)
      requires Valid() && Ours(model.heap, contacts)
      modifies this`contactsRemotelyChanged, this`contactsToUpdateInDb, this`model
      ensures Valid() && model == QueueAll(old(model), contacts, updateDb) && model.heap == old(model.heap)
    {
      hide QueueAll, Queue, Sound, Hold, Valid;
      ghost var w := model;
      AllOf(contacts);
      var i := 0;
      while i < |contacts|
        invariant 0 <= i <= |contacts|
        invariant Valid() && model.heap == w.heap
        invariant QueueAll(model, contacts[i..], updateDb) == QueueAll(w, contacts, updateDb)
      {
        QueueAllStep(model, contacts, updateDb, i);
        QueueParts(model, contacts[i], updateDb);
        QueueContact(contacts[i], updateDb);
        i := i + 1;
      }
      QueueAllStep(model, contacts, updateDb, i);
    }

    /** Takes one contact out of the indexes and the two queues. */
    method UnlinkContact(contact: Contact)
      modifies this`handleToContact, this`contactsRemotelyChanged, this`contactsToUpdateInDb, this`nameToContact, this`uidToContact
      ensures handleToContact == old(handleToContact) - HandleSetOf(contact.Data())
      ensures contactsRemotelyChanged == old(contactsRemotelyChanged) - {contact.uid}
      ensures contactsToUpdateInDb == old(contactsToUpdateInDb) - {contact.uid}
      ensures nameToContact == old(nameToContact) - NameSetOf(contact.Data())
      ensures uidToContact == old(uidToContact) - {contact.uid}
    {
      if contact.handle > 0 {
        handleToContact := handleToContact - {contact.handle};
      } else {
        assert handleToContact - {} == handleToContact;
      }
      contactsRemotelyChanged := contactsRemotelyChanged - {contact.uid};
      contactsToUpdateInDb := contactsToUpdateInDb - {contact.uid};
      if contact.name.Some? {
        nameToContact := nameToContact - {contact.name.value};
      } else {
        assert nameToContact - {} == nameToContact;
      }
      uidToContact := uidToContact - {contact.uid};
    }

    /** The first loop of `delete_contacts`. */
    method UnlinkEach(contacts: seq<Contact>) returns (uidsToDelete: seq<string>)
      requires Hold(model.heap) && Ours(model.heap, contacts)
      modifies this`handleToContact, this`contactsRemotelyChanged, this`contactsToUpdateInDb, this`nameToContact, this`uidToContact
      ensures var uids := UidsOf(model, SetOf(contacts));
        && ToSet(uidsToDelete) == uids
        && handleToContact == old(handleToContact) - HandlesOf(model, SetOf(contacts))
        && contactsRemotelyChanged == old(contactsRemotelyChanged) - uids
        && contactsToUpdateInDb == old(contactsToUpdateInDb) - uids
        && nameToContact == old(nameToContact) - NamesOf(model, SetOf(contacts))
        && uidToContact == old(uidToContact) - uids
    {
      hide *;
      uidsToDelete := [];
      ghost var w, none := model, SetOf(contacts[..0]);
      KeysNone(w);
      AllOf(contacts);
      NoUids();
      MinusNone(handleToContact, HandlesOf(w, none));
      MinusNone(contactsRemotelyChanged, UidsOf(w, none));
      MinusNone(contactsToUpdateInDb, UidsOf(w, none));
      MinusNone(nameToContact, NamesOf(w, none));
      MinusNone(uidToContact, UidsOf(w, none));
      var i := 0;
      while i < |contacts|
        invariant 0 <= i <= |contacts|
        invariant Hold(model.heap) && Ours(model.heap, contacts)
        invariant ToSet(uidsToDelete) == UidsOf(w, SetOf(contacts[..i]))
        invariant handleToContact == old(handleToContact) - HandlesOf(w, SetOf(contacts[..i]))
        invariant contactsRemotelyChanged == old(contactsRemotelyChanged) - UidsOf(w, SetOf(contacts[..i]))
        invariant contactsToUpdateInDb == old(contactsToUpdateInDb) - UidsOf(w, SetOf(contacts[..i]))
        invariant nameToContact == old(nameToContact) - NamesOf(w, SetOf(contacts[..i]))
        invariant uidToContact == old(uidToContact) - UidsOf(w, SetOf(contacts[..i]))
      {
        var contact := contacts[i];
        OursIs(contacts, i);
        KeysSnoc(w, contacts, i);
        ghost var before, d := SetOf(contacts[..i]), At(w, contact);
        MinusTwice(old(handleToContact), HandlesOf(w, before), HandleSetOf(d));
        MinusTwice(old(contactsRemotelyChanged), UidsOf(w, before), {d.uid});
        MinusTwice(old(contactsToUpdateInDb), UidsOf(w, before), {d.uid});
        MinusTwice(old(nameToContact), NamesOf(w, before), NameSetOf(d));
        MinusTwice(old(uidToContact), UidsOf(w, before), {d.uid});
        UnlinkContact(contact);
        ToSetSnoc(uidsToDelete, contact.uid);
        uidsToDelete := uidsToDelete + [contact.uid];
        i := i + 1;
      }
    }

    /** One of our objects holds its value. */
    lemma OursIs(cs: seq<Contact>, i: nat)
      requires Hold(model.heap) && Ours(model.heap, cs) && i < |cs|
      ensures cs[i].Data() == At(model, cs[i]) && cs[i].uid == At(model, cs[i]).uid
    {}

    /** Tells every view that the contacts are gone. */
    method NotifyRemove(uids: seq<string>)
      modifies this`views
      ensures views == Forget(old(views), ToSet(uids))
    {
      ForgetNothing(views);
      AllOf(uids);
      NoUids();
      var k := 0;
      while k < |uids|
        invariant 0 <= k <= |uids|
        invariant views == Forget(old(views), ToSet(uids[..k]))
      {
        ForgetMore(old(views), uids, k);
        NotifyRemoveOne(uids[k]);
        k := k + 1;
      }
    }

    method NotifyRemoveOne(uid: string)
      modifies this`views
      ensures views == Forget(old(views), {uid})
    {
      var i := 0;
      while i < |views|
        invariant 0 <= i <= |views| == |old(views)|
        invariant forall k :: 0 <= k < i ==> views[k] == old(views)[k] - {uid}
        invariant forall k :: i <= k < |views| ==> views[k] == old(views)[k]
      {
        views := views[i := views[i] - {uid}];
        i := i + 1;
      }
    }

    /** The contacts leave the indexes and the queues. */
    method UnlinkContacts(contacts: seq<Contact>) returns (uidsToDelete: seq<string>)
      requires Valid() && Ours(model.heap, contacts)
      modifies this`handleToContact, this`contactsRemotelyChanged, this`contactsToUpdateInDb, this`nameToContact, this`uidToContact, this`model
      ensures Valid() && model == Unlink(old(model), SetOf(contacts)) && ToSet(uidsToDelete) == UidsOf(old(model), SetOf(contacts))
    {
      hide *;
      ValidParts();
      UnlinkParts(model, SetOf(contacts));
      UnlinkSound(model, SetOf(contacts));
      uidsToDelete := UnlinkEach(contacts);
      model := Unlink(model, SetOf(contacts));
      ValidWhen();
    }

    /** The rows and the views lose the contacts. */
    method EraseContacts(uidsToDelete: seq<string>) returns (removed: bool)
      requires Valid()
      modifies this`views, this`model, tpdb
      ensures Valid() && model == Erased(old(model), ToSet(uidsToDelete), removed)
    {
      hide *;
      ValidParts();
      DeleteAllIsMany(model.db, uidsToDelete);
      removed := tpdb.RemoveContacts(uidsToDelete);
      NotifyRemove(uidsToDelete);
      ErasedParts(model, ToSet(uidsToDelete), removed);
      ErasedSound(model, ToSet(uidsToDelete), removed);
      model := Erased(model, ToSet(uidsToDelete), removed);
      ValidWhen();
    }

    /** `delete_contacts`. */
    method DeleteContacts(contacts: seq<Contact>) returns (flushed: bool, removed: bool)
      requires Valid() && Ours(model.heap, contacts)
      modifies this, tpdb
      ensures Valid() && model == Worlds.DeleteContacts(old(model), SetOf(contacts), flushed, removed)
    {
      hide *;
      ghost var w, cs := model, SetOf(contacts);
      var uidsToDelete := UnlinkContacts(contacts);
      flushed := FlushDbUpdates();
      NotifyRemotelyUpdatedContacts();
      removed := EraseContacts(uidsToDelete);
      DeleteIs(w, cs, flushed, removed);
    }

    // ---- Idles, views, inactivity, connection ----

    /** `update_contacts_idle_cb`. */
    method UpdateContactsIdleCb() returns (flushed: bool)
      requires Valid()
      modifies this, tpdb
      ensures Valid() && model == IdleUpdate(old(model), flushed)
    {
      hide *;
      ValidParts();
      ghost var w := model;
      if !systemInactive || |contactsRemotelyChanged| > MAX_PENDING_CONTACTS {
        NotifyRemotelyUpdatedContacts();
      }
      flushed := FlushDbUpdates();
      ValidParts();
      SwitchesAre(w, flushed, false);
      SetSwitches(false, systemInactive, membersReady);
    }

    /** Sets the switches alone. */
    method SetSwitches(idle: bool, inactive: bool, ready: bool)
      requires Valid()
      modifies this`updateScheduled, this`systemInactive, this`membersReady, this`model
      ensures Valid() && model == Switched(old(model), idle, inactive, ready, old(model).views, old(model).byHandle)
      ensures updateScheduled == idle && systemInactive == inactive && membersReady == ready
    {
      hide *;
      ValidParts();
      SubSelf(model.byHandle);
      SwitchedSound(model, idle, inactive, ready, model.views, model.byHandle);
      SwitchedParts(model, idle, inactive, ready, model.views, model.byHandle);
      updateScheduled, systemInactive, membersReady := idle, inactive, ready;
      model := Switched(model, idle, inactive, ready, model.views, model.byHandle);
      ValidWhen();
    }

    /** `set_inactivity_status`. */
    method SetInactivityStatus(inactivity: bool)
      requires Valid()
      modifies this
      ensures Valid() && model == SetInactivity(old(model), inactivity)
    {
      hide *;
      ValidParts();
      SwitchesAre(model, false, inactivity);
      if inactivity != systemInactive {
        SetSwitches(updateScheduled, inactivity, membersReady);
        if !systemInactive && |contactsRemotelyChanged| > 0 {
          NotifyRemotelyUpdatedContacts();
        }
      }
    }

    /** The part of `tp_cl_status_changed_cb` for a lost connection. */
    method GoOffline()
      requires Valid()
      modifies this`handleToContact, this`model
      ensures Valid() && model == Worlds.GoOffline(old(model))
    {
      hide *;
      ValidParts();
      SubSelf(model.byHandle);
      SwitchesAre(model, false, false);
      SwitchedSound(model, model.idle, model.inactive, model.ready, model.views, map[]);
      SwitchedParts(model, model.idle, model.inactive, model.ready, model.views, map[]);
      handleToContact := map[];
      model := Worlds.GoOffline(model);
      ValidWhen();
    }

    /** The visible contacts of the uid index, as `notify_all_contacts_updated_for_view` sends them. */
    method Listing() returns (listing: View)
      requires Valid()
      ensures listing == VisibleOf(model, model.byUid)
    {
      hide *;
      ValidParts();
      var keys := KeysOf(uidToContact);
      NewsAll(model, model.byUid, keys);
      listing := map[];
      var i := 0;
      AllOf(keys);
      while i < |keys|
        invariant 0 <= i <= |keys|
        invariant listing == NewsUnder(model, model.byUid, keys[..i])
      {
        ListsIn(keys, model.byUid, i);
        var contact := uidToContact[keys[i]];
        ListedData(keys[i]);
        NewsSnoc(model, model.byUid, keys, i);
        if Visible(contact.Data()) {
          listing := listing[contact.uid := contact.Data()];
        } else {
          assert listing + map[] == listing;
        }
        i := i + 1;
      }
    }

    lemma ListsIn(keys: seq<string>, m: map<string, Contact>, i: nat)
      requires Lists(keys, m) && i < |keys|
      ensures keys[i] in m
    {
      assert keys[i] in keys;
    }

    lemma ListedData(u: string)
      requires Valid() && u in model.byUid
      ensures model.byUid[u].Data() == At(model, model.byUid[u]) && model.byUid[u].uid == u
    {}

    /** Appends a view to the list. */
    method AddView(view: View)
      requires Valid()
      modifies this`views, this`model
      ensures Valid()
      ensures model == Switched(old(model), old(model).idle, old(model).inactive, old(model).ready, old(model).views + [view], old(model).byHandle)
    {
      hide *;
      ValidParts();
      SubSelf(model.byHandle);
      SwitchedSound(model, model.idle, model.inactive, model.ready, views + [view], model.byHandle);
      SwitchedParts(model, model.idle, model.inactive, model.ready, views + [view], model.byHandle);
      views := views + [view];
      model := Switched(model, model.idle, model.inactive, model.ready, model.views + [view], model.byHandle);
      ValidWhen();
    }

    /** `start_book_view_idle_cb`. */
    method StartBookView()
      requires Valid()
      modifies this
      ensures Valid() && model == StartView(old(model))
    {
      hide *;
      SwitchesAre(model, false, false);
      NotifyRemotelyUpdatedContacts();
      ValidParts();
      var view: View := map[];
      if membersReady { view := Listing(); }
      AddView(view);
    }

    // ---- Signals about known contacts ----

    /** Copies what a signal of some kind carries. */
    method CopyFields(contact: Contact, kind: Kind, contactIn: Contact)
      requires contact != contactIn
      modifies contact
      ensures contact.Data() == Received(kind, old(contact.Data()), contactIn.Data())
    {
      match kind {
        case AliasKind => contact.alias := contactIn.alias;
        case PresenceKind =>
          contact.genericStatus := contactIn.genericStatus;
          contact.status := contactIn.status;
          contact.statusMessage := contactIn.statusMessage;
        case FlagsKind => contact.flags := contactIn.flags;
        case CapabilitiesKind => contact.capabilities := contactIn.capabilities;
        case InfoKind => contact.contactInfo := contactIn.contactInfo;
      }
    }

    method CopyNews(contact: Contact, kind: Kind, contactIn: Contact)
      requires Hold(model.heap) && contact in model.heap && contactIn !in model.heap
      modifies contact
      ensures Hold(model.heap[contact := Received(kind, At(model, contact), contactIn.Data())])
      ensures contactIn.Data() == old(contactIn.Data())
    {
      CopyFields(contact, kind, contactIn);
      hide Received;
    }

    /** One contact of a signal. */
    method ReceiveOne(kind: Kind, contactIn: Contact, contacts: seq<Contact>) returns (contacts': seq<Contact>)
      requires Valid() && contactIn !in model.heap && Ours(model.heap, contacts)
      modifies this`model, model.heap.Keys
      ensures Valid() && model.heap.Keys == old(model.heap.Keys) && Ours(model.heap, contacts')
      ensures Batch(model, contacts') == Receive(Batch(old(model), contacts), kind, old(contactIn.Data()))
    {
      hide *;
      ValidParts();
      ReceiveIs(model, contacts, kind, contactIn.Data());
      HandleIs(contactIn);
      contacts' := contacts;
      if contactIn.handle in handleToContact {
        var contact := handleToContact[contactIn.handle];
        ghost var d := Received(kind, At(model, contact), contactIn.Data());
        PutParts(model, contact, d);
        PutSound(model, contact, d);
        CopyNews(contact, kind, contactIn);
        model := Put(model, contact, d);
        contacts' := contacts + [contact];
        OursStay(old(model).heap, model.heap, contacts);
        OursMore(model.heap, contacts, contact);
        ValidWhen();
      }
    }

    /** The handlers for changed aliases, presences, flags, capabilities and contact infos. */
    method ContactsChanged(kind: Kind, contactsIn: seq<Contact>)
      requires Valid() && Foreign(model.heap, contactsIn)
      modifies this, model.heap.Keys
      ensures Valid() && model == Signalled(old(model), kind, old(DataOf(contactsIn))) && model.heap.Keys == old(model.heap.Keys)
    {
      hide *;
      ghost var w, news := model, DataOf(contactsIn);
      var contactsToUpdate: seq<Contact> := [];
      OursNone(model.heap);
      AllOf(news);
      DataOfIs(contactsIn);
      var i := 0;
      while i < |contactsIn|
        invariant 0 <= i <= |contactsIn| == |news|
        invariant Valid() && model.heap.Keys == w.heap.Keys && Ours(model.heap, contactsToUpdate)
        invariant Foreign(model.heap, contactsIn) && forall k :: 0 <= k < |contactsIn| ==> contactsIn[k].Data() == news[k]
        invariant ReceiveAll(Batch(model, contactsToUpdate), kind, news[i..]) == ReceiveAll(Batch(w, []), kind, news)
      {
        ReceiveAllStep(Batch(model, contactsToUpdate), kind, news, i);
        ForeignIs(model.heap, contactsIn);
        contactsToUpdate := ReceiveOne(kind, contactsIn[i], contactsToUpdate);
        ForeignStays(w.heap, model.heap, contactsIn);
        i := i + 1;
      }
      ReceiveAllStep(Batch(model, contactsToUpdate), kind, news, i);
      SignalledIs(w, kind, news);
      if contactsToUpdate != [] {
        UpdateContacts(contactsToUpdate, Persists(kind));
      }
    }

    /** Writes the pending flags of one of our contacts. */
    method SetPending(contact: Contact, pending: FlagWord)
      requires Hold(model.heap) && contact in model.heap
      modifies contact
      ensures Hold(model.heap[contact := At(model, contact).(pendingFlags := pending)])
    {
      contact.pendingFlags := pending;
    }

    /** One contact of `tp_cl_contacts_removed`. */
    method LeaveOne(handle: nat, contacts: seq<Contact>) returns (contacts': seq<Contact>)
      requires Valid() && Ours(model.heap, contacts)
      modifies this`model, model.heap.Keys
      ensures Valid() && model.heap.Keys == old(model.heap.Keys) && Ours(model.heap, contacts')
      ensures Batch(model, contacts') == Leave(Batch(old(model), contacts), handle)
    {
      hide *;
      ValidParts();
      LeaveIs(model, contacts, handle);
      contacts' := contacts;
      if handle in handleToContact {
        var contact := handleToContact[handle];
        ghost var d := At(model, contact);
        UidIs(contact);
        PendingIs(contact);
        ghost var d' := d.(pendingFlags := d.pendingFlags - {SCHEDULE_DELETE});
        PutParts(model, contact, d');
        PutSound(model, contact, d');
        SetPending(contact, contact.pendingFlags - {SCHEDULE_DELETE});
        model := Put(model, contact, d');
        contacts' := contacts + [contact];
        OursStay(old(model).heap, model.heap, contacts);
        OursMore(model.heap, contacts, contact);
        ValidWhen();
      }
    }

    /** `tp_cl_contacts_removed`, given the handles of the contacts it is told about. */
    method ContactsRemoved(handles: seq<nat>) returns (flushed: bool, removed: bool)
      requires Valid()
      modifies this, model.heap.Keys, tpdb
      ensures Valid() && model == Worlds.ContactsRemoved(old(model), handles, flushed, removed)
    {
      hide *;
      ghost var w := model;
      flushed, removed := true, true;
      var contactsToRemove: seq<Contact> := [];
      OursNone(model.heap);
      AllOf(handles);
      var i := 0;
      while i < |handles|
        invariant 0 <= i <= |handles|
        invariant Valid() && model.heap.Keys == w.heap.Keys && Ours(model.heap, contactsToRemove)
        invariant LeaveAll(Batch(model, contactsToRemove), handles[i..]) == LeaveAll(Batch(w, []), handles)
      {
        LeaveAllStep(Batch(model, contactsToRemove), handles, i);
        contactsToRemove := LeaveOne(handles[i], contactsToRemove);
        i := i + 1;
      }
      LeaveAllStep(Batch(model, contactsToRemove), handles, i);
      if contactsToRemove != [] {
        flushed, removed := DeleteContacts(contactsToRemove);
      }
      ContactsRemovedIs(w, handles, flushed, removed);
    }

    // ---- Arrivals ----

    method CopyKnown(contact: Contact, contactIn: Contact)
      requires Hold(model.heap) && contact in model.heap && contactIn !in model.heap
      modifies contact
      ensures Hold(model.heap[contact := AddKnown(At(model, contact), contactIn.Data())])
      ensures contactIn.Data() == old(contactIn.Data()) && contact.uid == old(contact.uid) && contact.handle == contactIn.handle
    {
      hide *;
      UidIs(contact);
      AddKnownIs(At(model, contact), contactIn.Data());
      HandleIs(contactIn);
      BeforeWrite(model.heap, contact);
      CopyKnownFields(contact, contactIn);
      HandleIs(contact);
      AfterWrite(model.heap, contact, AddKnown(At(model, contact), contactIn.Data()));
    }

    /** What a known contact takes over from the one that came in. */
    method CopyKnownFields(contact: Contact, contactIn: Contact)
      requires contact != contactIn
      modifies contact
      ensures contact.Data() == AddKnown(old(contact.Data()), contactIn.Data())
    {
      contact.flags := contactIn.flags;
      contact.handle := contactIn.handle;
      contact.alias := contactIn.alias;
      contact.pendingFlags := contact.pendingFlags - {SCHEDULE_ADD};
    }

    /** A duplicate of a contact that came in, under a uid of its own. */
    method Duplicate(contactIn: Contact, name: string) returns (contact: Contact)
      requires Hold(model.heap) && uidToContact == model.byUid && name == NameOf(contactIn.Data())
      ensures fresh(contact) && contact.Data() == WithUid(model, path, contactIn.Data()) && contact.uid == contact.Data().uid
      ensures contact.handle == contactIn.handle
    {
      contact := new Contact(contactIn.Data());
      var uid, probes := GenerateUid(uidToContact, path, name);
      contact.uid := uid;
    }

    method NameIn(contactIn: Contact) returns (name: string)
      ensures name == NameOf(contactIn.Data())
    {
      name := if contactIn.name.Some? then contactIn.name.value else "";
    }

    /** A known contact of `tp_cl_contacts_added`. */
    method EnterKnown(contactIn: Contact, contact: Contact)
      requires Valid() && contactIn !in model.heap && contact in model.heap
      modifies this`uidToContact, this`handleToContact, this`model, contact
      ensures Valid() && contactIn.Data() == old(contactIn.Data())
      ensures var d := AddKnown(At(old(model), contact), contactIn.Data());
        model == Entered(old(model), contact, d, old(model).byName, old(model).byHandle[d.handle := contact])
    {
      hide *;
      ValidParts();
      ghost var w, d := model, AddKnown(At(model, contact), contactIn.Data());
      UidIs(contact);
      AddKnownIs(At(w, contact), contactIn.Data());
      HandleIs(contactIn);
      WithInsert(w.byHandle, d.handle, contact);
      WithSame(w.byName, contact);
      EnteredSound(w, contact, d, w.byName, w.byHandle[d.handle := contact]);
      EnteredParts(w, contact, d, w.byName, w.byHandle[d.handle := contact]);
      CopyKnown(contact, contactIn);
      handleToContact := handleToContact[contact.handle := contact];
      uidToContact := uidToContact[contact.uid := contact];
      model := Entered(w, contact, d, w.byName, w.byHandle[d.handle := contact]);
      ValidWhen();
    }

    /** A new contact enters the three tables. */
    method EnterTables(contact: Contact, name: string)
      modifies this`uidToContact, this`nameToContact, this`handleToContact
      ensures var d := contact.Data();
        && nameToContact == old(nameToContact)[name := contact] && uidToContact == old(uidToContact)[d.uid := contact]
        && handleToContact == old(handleToContact)[d.handle := contact]
    {
      nameToContact := nameToContact[name := contact];
      handleToContact := handleToContact[contact.handle := contact];
      uidToContact := uidToContact[contact.uid := contact];
    }

    /** A new contact of `tp_cl_contacts_added`. */
    method EnterNew(contactIn: Contact, name: string) returns (contact: Contact)
      requires Valid() && contactIn !in model.heap && name == NameOf(contactIn.Data())
      modifies this`uidToContact, this`nameToContact, this`handleToContact, this`model
      ensures Valid() && fresh(contact) && contactIn.Data() == old(contactIn.Data())
      ensures var w, d := old(model), WithUid(old(model), path, contactIn.Data());
        model == Entered(w, contact, d, w.byName[name := contact], w.byHandle[d.handle := contact])
    {
      hide *;
      ValidParts();
      ghost var w, d := model, WithUid(model, path, contactIn.Data());
      HandleIs(contactIn);
      WithUidIs(w, path, contactIn.Data());
      contact := Duplicate(contactIn, name);
      WithInsert(w.byHandle, d.handle, contact);
      WithInsert(w.byName, name, contact);
      EnteredSound(w, contact, d, w.byName[name := contact], w.byHandle[d.handle := contact]);
      EnteredParts(w, contact, d, w.byName[name := contact], w.byHandle[d.handle := contact]);
      HoldMore(w.heap, contact, d);
      EnterTables(contact, name);
      model := Entered(w, contact, d, w.byName[name := contact], w.byHandle[d.handle := contact]);
      ValidWhen();
    }

    /** One contact of `tp_cl_contacts_added`. `arrival` is the contact with the object it got. */
    method TakeInOne(contactIn: Contact, toAdd: seq<Contact>, toUpdate: seq<Contact>)
      returns (toAdd': seq<Contact>, toUpdate': seq<Contact>, ghost arrival: Arrival)
      requires Valid() && contactIn !in model.heap && Ours(model.heap, toAdd) && Ours(model.heap, toUpdate)
      modifies this, model.heap.Keys
      ensures Valid() && Ours(model.heap, toAdd') && Ours(model.heap, toUpdate')
      ensures old(model.heap.Keys) <= model.heap.Keys && fresh(model.heap.Keys - old(model.heap.Keys))
      ensures contactIn.Data() == old(contactIn.Data()) && arrival.data == contactIn.Data() && Placed(old(model), arrival)
      ensures Intake(model, toAdd', toUpdate') == TakeIn(Intake(old(model), toAdd, toUpdate), path, arrival)
    {
      hide *;
      ValidParts();
      ghost var w := model;
      var name := NameIn(contactIn);
      if name in nameToContact {
        var contact := nameToContact[name];
        arrival := Arrival(contactIn.Data(), contact);
        PlacedKnown(w, arrival);
        TakeInIs(Intake(w, toAdd, toUpdate), path, arrival);
        AddKnownIs(At(w, contact), contactIn.Data());
        EnterKnown(contactIn, contact);
        EnteredParts(w, contact, AddKnown(At(w, contact), arrival.data), w.byName, w.byHandle[arrival.data.handle := contact]);
        toAdd', toUpdate' := toAdd, toUpdate + [contact];
        OursStay(w.heap, model.heap, toAdd);
        OursStay(w.heap, model.heap, toUpdate);
        OursMore(model.heap, toUpdate, contact);
      } else {
        ghost var d := WithUid(w, path, contactIn.Data());
        WithUidIs(w, path, contactIn.Data());
        var contact := EnterNew(contactIn, name);
        arrival := Arrival(contactIn.Data(), contact);
        PlacedNew(w, arrival);
        TakeInIs(Intake(w, toAdd, toUpdate), path, arrival);
        EnteredParts(w, contact, d, w.byName[name := contact], w.byHandle[d.handle := contact]);
        toAdd', toUpdate' := toAdd + [contact], toUpdate + [contact];
        OursStay(w.heap, model.heap, toAdd);
        OursStay(w.heap, model.heap, toUpdate);
        OursMore(model.heap, toAdd, contact);
        OursMore(model.heap, toUpdate, contact);
      }
    }

    /** The loop of `tp_cl_contacts_added`. */
    method TakeInEach(contactsIn: seq<Contact>)
      returns (toAdd: seq<Contact>, toUpdate: seq<Contact>, ghost arrivals: seq<Arrival>)
      requires Valid() && Foreign(model.heap, contactsIn)
      modifies this, model.heap.Keys
      ensures Valid() && Ours(model.heap, toAdd) && Ours(model.heap, toUpdate)
      ensures old(model.heap.Keys) <= model.heap.Keys && fresh(model.heap.Keys - old(model.heap.Keys))
      ensures |arrivals| == |contactsIn| && forall k :: 0 <= k < |arrivals| ==> arrivals[k].data == old(contactsIn[k].Data())
      ensures Identified(old(model), arrivals)
      ensures forall a :: a in arrivals && a.id !in old(model.heap) ==> fresh(a.id)
      ensures Intake(model, toAdd, toUpdate) == TakeInAll(Intake(old(model), [], []), path, arrivals)
    {
      hide *;
      ghost var w, news := model, DataOf(contactsIn);
      toAdd, toUpdate, arrivals := [], [], [];
      OursNone(model.heap);
      DataOfIs(contactsIn);
      ForeignIs(model.heap, contactsIn);
      TakeInNone(Intake(w, [], []), path);
      NamedNone(w);
      var i := 0;
      while i < |contactsIn|
        invariant 0 <= i <= |contactsIn| == |news|
        invariant Valid() && Ours(model.heap, toAdd) && Ours(model.heap, toUpdate)
        invariant w.heap.Keys <= model.heap.Keys && fresh(model.heap.Keys - w.heap.Keys)
        invariant forall c :: c in contactsIn ==> c !in model.heap
        invariant forall k :: 0 <= k < |contactsIn| ==> contactsIn[k].Data() == news[k]
        invariant |arrivals| == i && forall k :: 0 <= k < i ==> arrivals[k].data == news[k]
        invariant Named(w, arrivals, model)
        invariant Intake(model, toAdd, toUpdate) == TakeInAll(Intake(w, [], []), path, arrivals)
      {
        ghost var before := Intake(model, toAdd, toUpdate);
        ghost var arrival;
        ValidParts();
        toAdd, toUpdate, arrival := TakeInOne(contactsIn[i], toAdd, toUpdate);
        TakeInNames(before, path, arrival);
        NamedMore(w, arrivals, before.world, arrival, model);
        TakeInAllStep(Intake(w, [], []), path, arrivals, arrival);
        arrivals := arrivals + [arrival];
        i := i + 1;
      }
      NamedIdentified(w, arrivals, model);
      ValidParts();
      NamedInHeap(w, arrivals, model);
    }

    /** Adds contacts to the cache in one transaction. */
    method AddInDb(contacts: seq<Contact>) returns (stored: bool)
      requires Valid() && Ours(model.heap, contacts)
      modifies this`model, tpdb
      ensures Valid() && model == StoreNew(old(model), contacts, stored)
    {
      hide *;
      ValidParts();
      OursIn(model.heap, contacts);
      DataIs(contacts);
      stored := tpdb.AddContacts(contacts);
      StoresAre(model, contacts, stored);
      CommitIs(model.db, AddAll(model.db, DataAt(model, contacts)), tpdb.Content(), stored);
      WithDbParts(model, tpdb.Content());
      WithDbSound(model, tpdb.Content());
      model := WithDb(model, tpdb.Content());
      ValidWhen();
    }

    /** Updates the rows of contacts in one transaction. */
    method StoreInDb(contacts: seq<Contact>) returns (stored: bool)
      requires Valid() && Ours(model.heap, contacts)
      modifies this`model, tpdb
      ensures Valid() && model == StoreChanged(old(model), contacts, stored)
    {
      hide *;
      ValidParts();
      OursIn(model.heap, contacts);
      stored := UpdateInDb(contacts);
      StoresAre(model, contacts, stored);
      WithDbParts(model, tpdb.Content());
      WithDbSound(model, tpdb.Content());
      model := WithDb(model, tpdb.Content());
      ValidWhen();
    }

    /** `tp_cl_contacts_added`. */
    method ContactsAdded(contactsIn: seq<Contact>) returns (flushed: bool, stored: bool, ghost arrivals: seq<Arrival>)
      requires Valid() && Foreign(model.heap, contactsIn)
      modifies this, model.heap.Keys, tpdb
      ensures Valid()
      ensures |arrivals| == |contactsIn| && forall k :: 0 <= k < |arrivals| ==> arrivals[k].data == old(contactsIn[k].Data())
      ensures Identified(old(model), arrivals)
      ensures forall a :: a in arrivals && a.id !in old(model.heap) ==> fresh(a.id)
      ensures model == Worlds.ContactsAdded(old(model), path, arrivals, flushed, stored)
    {
      hide *;
      ghost var w := model;
      var contactsToAdd, contactsToUpdate;
      contactsToAdd, contactsToUpdate, arrivals := TakeInEach(contactsIn);
      ghost var taken := model;
      flushed := FlushDbUpdates();
      FlushParts(taken, flushed);
      stored := true;
      StoreNothing(model, stored);
      if contactsToAdd != [] {
        stored := AddInDb(contactsToAdd);
        StoreKeepsHeap(Flush(taken, flushed), contactsToAdd, stored);
      }
      if contactsToUpdate != [] {
        UpdateContacts(contactsToUpdate, true);
      }
      NotifyRemotelyUpdatedContacts();
      ContactsAddedIs(w, path, arrivals, flushed, stored);
    }

    // ---- Phases 1 and 2 ----

    method CopyMember(contact: Contact, contactIn: Contact)
      requires Hold(model.heap) && contact in model.heap && contactIn !in model.heap
      modifies contact
      ensures Hold(model.heap[contact := Refreshed(At(model, contact), contactIn.Data())])
      ensures contactIn.Data() == old(contactIn.Data())
    {
      CopyMemberFields(contact, contactIn);
      hide Refreshed;
    }

    /** What phase 1 takes over from the roster for a known contact. */
    method CopyMemberFields(contact: Contact, contactIn: Contact)
      requires contact != contactIn
      modifies contact
      ensures contact.Data() == Refreshed(old(contact.Data()), contactIn.Data())
    {
      contact.alias := Newer(contact.alias, contactIn.alias);
      contact.genericStatus := contactIn.genericStatus;
      contact.status := Newer(contact.status, contactIn.status);
      contact.statusMessage := Newer(contact.statusMessage, contactIn.statusMessage);
      contact.contactInfo := Newer(contact.contactInfo, contactIn.contactInfo);
      contact.handle := contactIn.handle;
      contact.flags := contact.flags - {CONTACT_UNSEEN};
    }

    /** Indexes a contact under a handle that nobody has. */
    method IndexByHandle(handle: nat, contact: Contact)
      requires Valid() && contact in model.heap
      modifies this`handleToContact, this`model
      ensures Valid() && model == IndexHandle(old(model), handle, contact)
    {
      hide *;
      ValidParts();
      IndexHandleIs(model, handle, contact);
      if handle !in handleToContact {
        IndexedSound(model, handle, contact);
        SwitchedParts(model, model.idle, model.inactive, model.ready, model.views, model.byHandle[handle := contact]);
        handleToContact := handleToContact[handle := contact];
        model := IndexHandle(model, handle, contact);
        ValidWhen();
      }
    }

    /** A known member. */
    method MeetKnown(contactIn: Contact, contact: Contact) returns (changed: bool)
      requires Valid() && contactIn !in model.heap && contact in model.heap
      modifies this, model.heap.Keys
      ensures Valid() && contactIn.Data() == old(contactIn.Data()) && model.heap.Keys == old(model.heap.Keys)
      ensures var d := Refreshed(At(old(model), contact), contactIn.Data());
        model == IndexHandle(Put(old(model), contact, d), contactIn.handle, contact)
      ensures changed == AliasDiffers(At(old(model), contact), contactIn.Data())
    {
      hide *;
      ValidParts();
      ghost var w, d := model, Refreshed(At(model, contact), contactIn.Data());
      UidIs(contact);
      RefreshedIs(At(model, contact), contactIn.Data());
      PutParts(model, contact, d);
      PutSound(model, contact, d);
      changed := DiffersInAlias(contact, contactIn);
      CopyMember(contact, contactIn);
      model := Put(model, contact, d);
      ValidWhen();
      IndexHandleParts(model, contactIn.handle, contact);
      IndexByHandle(contactIn.handle, contact);
    }

    method DiffersInAlias(contact: Contact, contactIn: Contact) returns (differs: bool)
      ensures differs == AliasDiffers(contact.Data(), contactIn.Data())
    {
      differs := contact.alias.None? || (contactIn.alias.Some? && contact.alias != contactIn.alias);
    }

    /** A member nobody knew. */
    method MeetNew(contactIn: Contact, name: string) returns (contact: Contact)
      requires Valid() && contactIn !in model.heap && name == NameOf(contactIn.Data())
      modifies this
      ensures Valid() && fresh(contact) && contactIn.Data() == old(contactIn.Data())
      ensures contact in model.heap && model.heap.Keys == old(model.heap.Keys) + {contact}
      ensures var w, d := old(model), WithUid(old(model), path, contactIn.Data());
        model == IndexHandle(Entered(w, contact, d, w.byName[name := contact], w.byHandle), contactIn.handle, contact)
    {
      hide *;
      ValidParts();
      ghost var w, d := model, WithUid(model, path, contactIn.Data());
      HandleIs(contactIn);
      contact := Duplicate(contactIn, name);
      WithSame(w.byHandle, contact);
      WithInsert(w.byName, name, contact);
      EnteredSound(w, contact, d, w.byName[name := contact], w.byHandle);
      EnteredParts(w, contact, d, w.byName[name := contact], w.byHandle);
      HoldMore(w.heap, contact, d);
      uidToContact := uidToContact[contact.uid := contact];
      nameToContact := nameToContact[name := contact];
      model := Entered(w, contact, d, w.byName[name := contact], w.byHandle);
      ValidWhen();
      IndexHandleParts(model, contactIn.handle, contact);
      IndexByHandle(contactIn.handle, contact);
    }

    /** One contact of `tp_cl_get_members_cb`. */
    method MeetOne(contactIn: Contact, toAdd: seq<Contact>, toUpdate: seq<Contact>)
      returns (toAdd': seq<Contact>, toUpdate': seq<Contact>, ghost arrival: Arrival)
      requires Valid() && contactIn !in model.heap && Ours(model.heap, toAdd) && Ours(model.heap, toUpdate)
      modifies this, model.heap.Keys
      ensures Valid() && Ours(model.heap, toAdd') && Ours(model.heap, toUpdate')
      ensures old(model.heap.Keys) <= model.heap.Keys && fresh(model.heap.Keys - old(model.heap.Keys))
      ensures contactIn.Data() == old(contactIn.Data()) && arrival.data == contactIn.Data() && Placed(old(model), arrival)
      ensures Intake(model, toAdd', toUpdate') == Meet(Intake(old(model), toAdd, toUpdate), path, arrival)
    {
      hide *;
      ValidParts();
      ghost var w := model;
      HandleIs(contactIn);
      var name := NameIn(contactIn);
      if name in nameToContact {
        var contact := nameToContact[name];
        arrival := Arrival(contactIn.Data(), contact);
        PlacedKnown(w, arrival);
        MeetIs(Intake(w, toAdd, toUpdate), path, arrival);
        var changed := MeetKnown(contactIn, contact);
        OursStay(w.heap, model.heap, toAdd);
        OursStay(w.heap, model.heap, toUpdate);
        OursMore(model.heap, toUpdate, contact);
        toAdd', toUpdate' := toAdd, if changed then toUpdate + [contact] else toUpdate;
      } else {
        var contact := MeetNew(contactIn, name);
        arrival := Arrival(contactIn.Data(), contact);
        PlacedNew(w, arrival);
        MeetIs(Intake(w, toAdd, toUpdate), path, arrival);
        OursStay(w.heap, model.heap, toAdd);
        OursStay(w.heap, model.heap, toUpdate);
        OursMore(model.heap, toAdd, contact);
        toAdd', toUpdate' := toAdd + [contact], toUpdate;
      }
    }

    /** `tp_cl_get_members_cb`; the two lists are the closure of phase 2. */
    method GetMembersCb(contactsIn: seq<Contact>)
      returns (toAdd: seq<Contact>, toUpdate: seq<Contact>, ghost arrivals: seq<Arrival>)
      requires Valid() && Foreign(model.heap, contactsIn)
      modifies this, model.heap.Keys
      ensures Valid() && Ours(model.heap, toAdd) && Ours(model.heap, toUpdate)
      ensures |arrivals| == |contactsIn| && forall k :: 0 <= k < |arrivals| ==> arrivals[k].data == old(contactsIn[k].Data())
      ensures old(model.heap.Keys) <= model.heap.Keys && fresh(model.heap.Keys - old(model.heap.Keys))
      ensures Identified(old(model), arrivals)
      ensures forall a :: a in arrivals && a.id !in old(model.heap) ==> fresh(a.id)
      ensures Intake(model, toAdd, toUpdate) == GetMembers(old(model), path, arrivals)
    {
      hide *;
      ghost var w, news := model, DataOf(contactsIn);
      toAdd, toUpdate, arrivals := [], [], [];
      OursNone(model.heap);
      DataOfIs(contactsIn);
      ForeignIs(model.heap, contactsIn);
      MeetNone(Intake(w, [], []), path);
      NamedNone(w);
      var i := 0;
      while i < |contactsIn|
        invariant 0 <= i <= |contactsIn| == |news|
        invariant Valid() && Ours(model.heap, toAdd) && Ours(model.heap, toUpdate)
        invariant w.heap.Keys <= model.heap.Keys && fresh(model.heap.Keys - w.heap.Keys)
        invariant forall c :: c in contactsIn ==> c !in model.heap
        invariant forall k :: 0 <= k < |contactsIn| ==> contactsIn[k].Data() == news[k]
        invariant |arrivals| == i && forall k :: 0 <= k < i ==> arrivals[k].data == news[k]
        invariant Named(w, arrivals, model)
        invariant Intake(model, toAdd, toUpdate) == MeetAll(Intake(w, [], []), path, arrivals)
      {
        ghost var before := Intake(model, toAdd, toUpdate);
        ghost var arrival;
        ValidParts();
        toAdd, toUpdate, arrival := MeetOne(contactsIn[i], toAdd, toUpdate);
        MeetNames(before, path, arrival);
        NamedMore(w, arrivals, before.world, arrival, model);
        MeetAllMore(Intake(w, [], []), path, arrivals, arrival);
        arrivals := arrivals + [arrival];
        i := i + 1;
      }
      NamedIdentified(w, arrivals, model);
      ValidParts();
      NamedInHeap(w, arrivals, model);
      GetMembersIs(w, path, arrivals);
    }

    /** The contacts that were not seen on the roster. */
    method CollectUnseen() returns (contacts: seq<Contact>)
      requires Valid()
      ensures Ours(model.heap, contacts) && SetOf(contacts) == Unseen(model)
    {
      hide *;
      ValidParts();
      var keys := KeysOf(nameToContact);
      UnseenAll(model, keys);
      contacts := [];
      OursNone(model.heap);
      AllOf(keys);
      NoContacts();
      var i := 0;
      while i < |keys|
        invariant 0 <= i <= |keys|
        invariant Ours(model.heap, contacts) && SetOf(contacts) == UnseenUnder(model, keys[..i])
      {
        ListsIn(keys, model.byName, i);
        var contact := nameToContact[keys[i]];
        NamedKnown(model, keys[i]);
        PendingIs(contact);
        UnseenSnoc(model, keys, i);
        SetOfSnoc(contacts, contact);
        OursMore(model.heap, contacts, contact);
        if CONTACT_UNSEEN in contact.flags {
          contacts := contacts + [contact];
        }
        i := i + 1;
      }
    }

    /** `_sync_phase_2_idle_cb` on the closure of phase 1. */
    method SyncPhase2(toAdd: seq<Contact>, toUpdate: seq<Contact>)
      returns (added: bool, updated: bool, flushed: bool, removed: bool)
      requires Valid() && Ours(model.heap, toAdd) && Ours(model.heap, toUpdate)
      modifies this, tpdb
      ensures Valid() && model == Phase2(Intake(old(model), toAdd, toUpdate), added, updated, flushed, removed)
    {
      hide *;
      ghost var w := model;
      added := AddInDb(toAdd);
      StoreKeepsHeap(w, toAdd, added);
      updated := StoreInDb(toUpdate);
      flushed, removed := true, true;
      var contactsToDelete := CollectUnseen();
      SetOfEmpty(contactsToDelete);
      if contactsToDelete != [] {
        flushed, removed := DeleteContacts(contactsToDelete);
      }
      Phase2Is(Intake(w, toAdd, toUpdate), added, updated, flushed, removed);
    }

    // ---- Phase 0 ----

    /** Puts a fetched contact into the queues its flags ask for. */
    method EnterQueues(contact: Contact)
      modifies this`contactsToDelete, this`contactsToAdd, this`contactsToUpdate
      ensures var d := contact.Data();
        && contactsToAdd == Into(old(contactsToAdd), d.uid, contact, SCHEDULE_ADD in d.pendingFlags)
        && contactsToUpdate == Into(old(contactsToUpdate), d.uid, contact, SCHEDULE_UPDATE_FLAGS in d.pendingFlags || SCHEDULE_UNBLOCK in d.pendingFlags)
        && contactsToDelete == Into(old(contactsToDelete), d.uid, contact, SCHEDULE_DELETE in d.pendingFlags)
    {
      if SCHEDULE_DELETE in contact.pendingFlags {
        contactsToDelete := contactsToDelete[contact.uid := contact];
      }
      if SCHEDULE_ADD in contact.pendingFlags {
        contactsToAdd := contactsToAdd[contact.uid := contact];
      }
      if SCHEDULE_UPDATE_FLAGS in contact.pendingFlags || SCHEDULE_UNBLOCK in contact.pendingFlags {
        contactsToUpdate := contactsToUpdate[contact.uid := contact];
      }
    }

    /** Puts a fetched contact into the indexes. */
    method EnterIndexes(contact: Contact)
      modifies this`uidToContact, this`nameToContact
      ensures uidToContact == old(uidToContact)[contact.Data().uid := contact]
      ensures nameToContact == old(nameToContact)[NameOf(contact.Data()) := contact]
    {
      uidToContact := uidToContact[contact.uid := contact];
      nameToContact := nameToContact[if contact.name.Some? then contact.name.value else "" := contact];
    }

    method EnterLoaded(contact: Contact)
      modifies this`uidToContact, this`nameToContact, this`contactsToDelete, this`contactsToAdd, this`contactsToUpdate
      ensures var d := contact.Data();
        && uidToContact == old(uidToContact)[d.uid := contact] && nameToContact == old(nameToContact)[NameOf(d) := contact]
        && contactsToAdd == Into(old(contactsToAdd), d.uid, contact, SCHEDULE_ADD in d.pendingFlags)
        && contactsToUpdate == Into(old(contactsToUpdate), d.uid, contact, SCHEDULE_UPDATE_FLAGS in d.pendingFlags || SCHEDULE_UNBLOCK in d.pendingFlags)
        && contactsToDelete == Into(old(contactsToDelete), d.uid, contact, SCHEDULE_DELETE in d.pendingFlags)
    {
      hide *;
      EnterIndexes(contact);
      EnterQueues(contact);
    }

    /** Marks a fetched contact as unseen, so that the roster tells which ones are gone. */
    method MarkUnseen(contact: Contact)
      modifies contact
      ensures contact.Data() == Marked(old(contact.Data()))
    {
      if SCHEDULE_ADD !in contact.pendingFlags && CONTACT_INVALID !in contact.flags {
        contact.flags := contact.flags + {CONTACT_UNSEEN};
      }
    }

    /** A fetched contact enters the tables, and is marked. */
    method EnterMarked(contact: Contact)
      modifies this`uidToContact, this`nameToContact, this`contactsToDelete, this`contactsToAdd, this`contactsToUpdate, contact
      ensures var d := old(contact.Data());
        && contact.Data() == Marked(d)
        && uidToContact == old(uidToContact)[d.uid := contact] && nameToContact == old(nameToContact)[NameOf(d) := contact]
        && contactsToAdd == Into(old(contactsToAdd), d.uid, contact, SCHEDULE_ADD in d.pendingFlags)
        && contactsToUpdate ==
             Into(old(contactsToUpdate), d.uid, contact,
                  SCHEDULE_UPDATE_FLAGS in d.pendingFlags || SCHEDULE_UNBLOCK in d.pendingFlags)
        && contactsToDelete == Into(old(contactsToDelete), d.uid, contact, SCHEDULE_DELETE in d.pendingFlags)
    {
      hide *;
      EnterLoaded(contact);
      MarkUnseen(contact);
    }

    method LoadContact(contact: Contact)
      requires Valid() && contact !in model.heap
      modifies this, contact
      ensures Valid() && model == LoadOne(old(model), Arrival(old(contact.Data()), contact))
      ensures model.heap.Keys == old(model.heap.Keys) + {contact}
    {
      hide *;
      ValidParts();
      ghost var w, d := model, contact.Data();
      LoadOneParts(w, contact, d);
      LoadOneSound(w, contact, d);
      EnterMarked(contact);
      HoldMore(w.heap, contact, Marked(d));
      model := LoadOne(w, Arrival(d, contact));
      ValidWhen();
    }

    /** `_sync_phase_0_idle_cb` on the contacts fetched from the cache, and the end of loading: every
        view that is already there gets the full listing. */
    method SyncPhase0(contacts: seq<Contact>)
      requires Valid() && Foreign(model.heap, contacts) && NoDuplicates(contacts)
      modifies this, contacts
      ensures Valid() && model == Load(old(model), old(Fetched(contacts)))
    {
      hide *;
      ghost var w, arrivals := model, Fetched(contacts);
      FetchedIs(contacts);
      ForeignIs(model.heap, contacts);
      LoadIs(w, arrivals);
      DistinctAre(contacts);
      AllOf(arrivals);
      var i := 0;
      while i < |contacts|
        invariant 0 <= i <= |contacts| == |arrivals|
        invariant Valid() && model == LoadAll(w, arrivals[..i])
        invariant forall k :: i <= k < |contacts| ==> contacts[k] !in model.heap && Arrival(contacts[k].Data(), contacts[k]) == arrivals[k]
      {
        LoadAllMore(w, arrivals[..i], arrivals[i]);
        Snoc(arrivals, i);
        LoadContact(contacts[i]);
        i := i + 1;
      }
      ValidParts();
      ListToAll();
    }

    /** The contacts are ready: tells every view all of them. */
    method ListToAll()
      requires Valid()
      modifies this`membersReady, this`views, this`model
      ensures Valid()
      ensures var l := old(model);
        model == Switched(l, l.idle, l.inactive, true, Tell(l.views, VisibleOf(l, l.byUid)), l.byHandle)
    {
      hide *;
      ValidParts();
      ghost var l := model;
      var listing := Listing();
      SubSelf(l.byHandle);
      SwitchedSound(l, l.idle, l.inactive, true, Tell(l.views, listing), l.byHandle);
      SwitchedParts(l, l.idle, l.inactive, true, Tell(l.views, listing), l.byHandle);
      membersReady := true;
      NotifyAll(listing);
      model := Switched(l, l.idle, l.inactive, true, Tell(l.views, listing), l.byHandle);
      ValidWhen();
    }

    /** `notify_all_contacts_updated_for_view` on every view. */
    method NotifyAll(listing: View)
      modifies this`views
      ensures views == Tell(old(views), listing)
    {
      var i := 0;
      while i < |views|
        invariant 0 <= i <= |views| == |old(views)|
        invariant forall k :: 0 <= k < i ==> views[k] == old(views)[k] + listing
        invariant forall k :: i <= k < |views| ==> views[k] == old(views)[k]
      {
        views := views[i := views[i] + listing];
        i := i + 1;
      }
    }

    // ---- Phase 3 ----

    /** `run_update_contact` on a contact that has a pending edit. */
    method RunUpdateFields(contact: Contact, unblocked: bool)
      modifies contact
      ensures contact.Data() == RunUpdate(old(contact.Data()), unblocked)
      ensures EditsDone(old(contact.Data()), unblocked, contact.Data())
    {
      contact.pendingFlags := contact.pendingFlags - {SCHEDULE_UPDATE_FLAGS};
      if SCHEDULE_UNBLOCK in contact.pendingFlags {
        if unblocked {
          contact.pendingFlags := contact.pendingFlags - {SCHEDULE_UNBLOCK};
        } else {
          contact.flags := contact.flags - {CL_DENY};
        }
      }
      contact.pendingFlags := contact.pendingFlags - {SCHEDULE_UPDATE_MASTER_UID};
      contact.pendingFlags := contact.pendingFlags - {SCHEDULE_UPDATE_VARIANTS};
    }

    /** Something is to be done for the contact. */
    method HasPendingEdit(contact: Contact) returns (pending: bool)
      ensures pending == NeedsUpdate(contact.Data())
    {
      pending := SCHEDULE_UPDATE_FLAGS in contact.pendingFlags || SCHEDULE_UNBLOCK in contact.pendingFlags
        || SCHEDULE_UPDATE_MASTER_UID in contact.pendingFlags || SCHEDULE_UPDATE_VARIANTS in contact.pendingFlags;
    }

    /** One contact of the update loop. */
    method SyncUpdateOne(contact: Contact, unblocked: bool, contacts: seq<Contact>) returns (contacts': seq<Contact>)
      requires Valid() && contact in model.heap && Ours(model.heap, contacts)
      modifies this`model, model.heap.Keys
      ensures Valid() && Ours(model.heap, contacts') && model.heap.Keys == old(model.heap.Keys)
      ensures Batch(model, contacts') == SyncUpdate(Batch(old(model), contacts), contact, unblocked)
    {
      hide *;
      ValidParts();
      ghost var w, d := model, At(model, contact);
      SyncUpdateIs(Batch(w, contacts), contact, unblocked);
      UidIs(contact);
      contacts' := contacts;
      var pending := HasPendingEdit(contact);
      if pending {
        RunUpdateUid(d, unblocked);
        PutParts(w, contact, RunUpdate(d, unblocked));
        PutSound(w, contact, RunUpdate(d, unblocked));
        BeforeWrite(w.heap, contact);
        RunUpdateFields(contact, unblocked);
        AfterWrite(w.heap, contact, RunUpdate(d, unblocked));
        model := Put(w, contact, RunUpdate(d, unblocked));
        ValidWhen();
        contacts' := contacts + [contact];
        OursStay(w.heap, model.heap, contacts);
        OursMore(model.heap, contacts, contact);
      }
    }

    /** What adding a contact on the server leaves in its fields. */
    method RunAddFields(contact: Contact, a: Worlds.Answer) returns (added: bool)
      modifies contact
      ensures (contact.Data(), added) == RunAdd(old(contact.Data()), a)
    {
      if CONTACT_INVALID in contact.flags { return true; }
      if a.handle.Some? { contact.handle := a.handle.value; }
      if a.name.Some? { var changed := contact.UpdateName(a.name.value); }
      added := FinishAdd(contact, a.verdict);
    }

    /** A refused handle is no failure: the contact stays, marked as invalid. */
    method FinishAdd(contact: Contact, verdict: Verdict) returns (added: bool)
      modifies contact
      ensures added == !verdict.OtherError?
      ensures var d := old(contact.Data());
        contact.Data() == if verdict.InvalidHandle?
          then d.(flags := d.flags + {CONTACT_INVALID}, pendingFlags := d.pendingFlags - {SCHEDULE_UPDATE_FLAGS} - ALL_LIST_FLAGS)
          else d
    {
      if verdict.InvalidHandle? {
        contact.flags := contact.flags + {CONTACT_INVALID};
        contact.pendingFlags := contact.pendingFlags - {SCHEDULE_UPDATE_FLAGS};
        contact.pendingFlags := contact.pendingFlags - ALL_LIST_FLAGS;
      }
      added := !verdict.OtherError?;
    }

    /** The fields that a merge carries over. */
    method MergeFields(dest: Contact, src: Contact)
      modifies dest
      ensures dest.Data() == MergeData(old(dest.Data()), old(src.Data()))
    {
      dest.AddVariantsFromContact(src);
      var changed := dest.UpdateMasterUids(src.masterUids);
      if SCHEDULE_UNBLOCK in src.pendingFlags {
        dest.pendingFlags := dest.pendingFlags + {SCHEDULE_UNBLOCK};
      }
    }

    /** Tells every view about one contact, visible or not. */
    method AnnounceContact(contact: Contact)
      requires Valid() && contact in model.heap
      modifies this`views, this`model
      ensures Valid() && model == Announce(old(model), contact)
    {
      hide *;
      ValidParts();
      ghost var w := model;
      UidIs(contact);
      SubSelf(w.byHandle);
      AnnounceParts(w, contact);
      ghost var told := Tell(w.views, map[At(w, contact).uid := At(w, contact)]);
      SwitchedParts(w, w.idle, w.inactive, w.ready, told, w.byHandle);
      SwitchedSound(w, w.idle, w.inactive, w.ready, told, w.byHandle);
      NotifyUpdate(contact.uid, contact.Data());
      model := Announce(w, contact);
      ValidWhen();
    }

    /** Puts a contact back under its handle, its name and its uid. */
    method Reindex(contact: Contact)
      requires Valid() && contact in model.heap
      modifies this`handleToContact, this`nameToContact, this`uidToContact, this`model
      ensures Valid() && model == Reindexed(old(model), contact, At(old(model), contact))
    {
      hide *;
      ValidParts();
      ghost var w := model;
      UidIs(contact);
      HandleIs(contact);
      ReindexedParts(w, contact, At(w, contact));
      ReindexedSound(w, contact);
      var name := NameIn(contact);
      handleToContact := handleToContact[contact.handle := contact];
      nameToContact := nameToContact[name := contact];
      uidToContact := uidToContact[contact.uid := contact];
      model := Reindexed(w, contact, At(w, contact));
      ValidWhen();
    }

    /** The fields of `dest` take over those of `src`. */
    method TakeOver(dest: Contact, src: Contact)
      requires Valid() && dest in model.heap && src in model.heap
      modifies this`model, dest
      ensures Valid() && model == Put(old(model), dest, MergeData(At(old(model), dest), At(old(model), src)))
    {
      hide *;
      ValidParts();
      ghost var w, d := model, MergeData(At(model, dest), At(model, src));
      UidIs(dest);
      UidIs(src);
      MergeDataUid(At(w, dest), At(w, src));
      PutParts(w, dest, d);
      PutSound(w, dest, d);
      BeforeWrite(w.heap, dest);
      MergeFields(dest, src);
      AfterWrite(w.heap, dest, d);
      model := Put(w, dest, d);
      ValidWhen();
    }

    /** `merge_contacts`. */
    method MergeContacts(dest: Contact, src: Contact) returns (flushed: bool, removed: bool)
      requires Valid() && dest in model.heap && src in model.heap
      modifies this, dest, tpdb
      ensures Valid() && model == Merge(old(model), dest, src, flushed, removed)
      ensures model.heap.Keys == old(model.heap.Keys)
    {
      hide *;
      ghost var w, d := model, MergeData(At(model, dest), At(model, src));
      TakeOver(dest, src);
      PutParts(w, dest, d);
      ghost var merged := model;
      AnnounceParts(merged, dest);
      SwitchedParts(merged, merged.idle, merged.inactive, merged.ready,
                    Tell(merged.views, map[At(merged, dest).uid := At(merged, dest)]), merged.byHandle);
      AnnounceContact(dest);
      ghost var announced := model;
      OursOne(model.heap, src);
      flushed, removed := DeleteContacts([src]);
      SetOfOne(src);
      DeleteKeepsHeap(announced, {src}, flushed, removed);
      ReindexedParts(model, dest, At(model, dest));
      Reindex(dest);
      MergeIs(w, dest, src, flushed, removed);
    }

    /** Replaces the name index and the queues of pending edits. */
    method Requeue(byName: map<string, Contact>, toAdd: map<string, Contact>, toDelete: map<string, Contact>)
      requires Valid() && Inhabited(model, byName) && Keyed(model, toAdd) && Keyed(model, toDelete)
      modifies this`nameToContact, this`contactsToAdd, this`contactsToDelete, this`model
      ensures Valid() && model == Requeued(old(model), byName, toAdd, toDelete) && model.heap == old(model.heap)
    {
      hide *;
      ValidParts();
      RequeuedParts(model, byName, toAdd, toDelete);
      RequeuedSound(model, byName, toAdd, toDelete);
      nameToContact, contactsToAdd, contactsToDelete := byName, toAdd, toDelete;
      model := Requeued(model, byName, toAdd, toDelete);
      ValidWhen();
    }

    /** The server's name is another one than `was`: the contact moves in the name index, or is merged
        into the one that is there. */
    method RenameContact(contact: Contact, was: string, contacts: seq<Contact>)
      returns (contacts': seq<Contact>, flushed: bool, removed: bool)
      requires Valid() && contact in model.heap && Ours(model.heap, contacts)
      modifies this, model.heap.Keys, tpdb
      ensures Valid() && Ours(model.heap, contacts') && model.heap.Keys == old(model.heap.Keys)
      ensures Batch(model, contacts') == Rename(Batch(old(model), contacts), contact, was, flushed, removed)
    {
      hide *;
      ValidParts();
      ghost var w := model;
      flushed, removed := true, true;
      UidIs(contact);
      Fitting(w, contact, was, At(w, contact).uid);
      Requeue(nameToContact - {was}, contactsToAdd, contactsToDelete);
      ValidParts();
      ghost var v := model;
      SameAt(w, v, contact);
      var name := NameIn(contact);
      Fitting(v, contact, name, At(v, contact).uid);
      if name in nameToContact {
        var existing := nameToContact[name];
        NamedKnown(v, name);
        flushed, removed := MergeContacts(existing, contact);
        contacts' := contacts + [existing];
        OursStay(w.heap, model.heap, contacts);
        OursMore(model.heap, contacts, existing);
      } else {
        Requeue(nameToContact[name := contact], contactsToAdd, contactsToDelete);
        contacts' := contacts;
      }
      RenameIs(Batch(w, contacts), contact, was, flushed, removed);
    }

    /** Adds one contact on the server, in its fields. */
    method RunAddContact(contact: Contact, a: Worlds.Answer) returns (added: bool)
      requires Valid() && contact in model.heap
      modifies this`model, contact
      ensures Valid() && model == Put(old(model), contact, RunAdd(At(old(model), contact), a).0)
      ensures added == RunAdd(At(old(model), contact), a).1
    {
      hide *;
      ValidParts();
      ghost var w, d := model, RunAdd(At(model, contact), a).0;
      UidIs(contact);
      RunAddUid(At(w, contact), a);
      PutParts(w, contact, d);
      PutSound(w, contact, d);
      BeforeWrite(w.heap, contact);
      added := RunAddFields(contact, a);
      PairIs(contact.Data(), added, RunAdd(At(w, contact), a));
      AfterWrite(w.heap, contact, d);
      model := Put(w, contact, d);
      ValidWhen();
    }

    /** Writes the pending flags of one of our contacts and keeps the model in step. */
    method WritePending(contact: Contact, pending: FlagWord)
      requires Valid() && contact in model.heap
      modifies this`model, contact
      ensures Valid() && model == Put(old(model), contact, At(old(model), contact).(pendingFlags := pending))
    {
      hide *;
      ValidParts();
      ghost var w, d := model, At(model, contact).(pendingFlags := pending);
      UidIs(contact);
      PutParts(w, contact, d);
      PutSound(w, contact, d);
      SetPending(contact, pending);
      model := Put(w, contact, d);
      ValidWhen();
    }

    /** One contact of the add loop of phase 3. */
    method SyncAddOne(contact: Contact, a: Worlds.Answer, contacts: seq<Contact>)
      returns (contacts': seq<Contact>, flushed: bool, removed: bool)
      requires Valid() && contact in model.heap && Ours(model.heap, contacts)
      modifies this, model.heap.Keys, tpdb
      ensures Valid() && Ours(model.heap, contacts') && model.heap.Keys == old(model.heap.Keys)
      ensures Batch(model, contacts') == SyncAdd(Batch(old(model), contacts), contact, a, flushed, removed)
    {
      hide *;
      ValidParts();
      ghost var w, d, d' := model, At(model, contact), RunAdd(At(model, contact), a).0;
      ghost var settled := d'.(pendingFlags := d'.pendingFlags - {SCHEDULE_ADD});
      UidIs(contact);
      HandleIs(contact);
      RunAddUid(d, a);
      flushed, removed := true, true;
      contacts' := contacts;
      var uid := contact.uid;
      var oldName := NameIn(contact);
      var added := RunAddContact(contact, a);
      PutParts(w, contact, d');
      PutTwice(w, contact, d', settled);
      if added {
        ValidParts();
        PendingIs(contact);
        WritePending(contact, contact.pendingFlags - {SCHEDULE_ADD});
        PutParts(w, contact, settled);
        AtPut(w, contact, settled);
        ValidParts();
        UidIs(contact);
        OursStay(w.heap, model.heap, contacts);
        var newName := NameIn(contact);
        if oldName == newName {
          OursMore(model.heap, contacts, contact);
          contacts' := contacts + [contact];
        } else {
          contacts', flushed, removed := RenameContact(contact, oldName, contacts);
        }
        ghost var done := model;
        DropFromAdds(uid);
        OursStay(done.heap, model.heap, contacts');
      } else {
        OursStay(w.heap, model.heap, contacts);
      }
      SyncAddIs(Batch(w, contacts), contact, a, flushed, removed);
    }

    method DropFromAdds(uid: string)
      requires Valid()
      modifies this`nameToContact, this`contactsToAdd, this`contactsToDelete, this`model
      ensures Valid() && model.heap == old(model.heap)
      ensures var w := old(model); model == Requeued(w, w.byName, w.toAdd - {uid}, w.toDelete)
    {
      hide *;
      ValidParts();
      QueuesFit(model, uid);
      Requeue(nameToContact, contactsToAdd - {uid}, contactsToDelete);
    }

    method DropFromDeletes(uid: string)
      requires Valid()
      modifies this`nameToContact, this`contactsToAdd, this`contactsToDelete, this`model
      ensures Valid() && model.heap == old(model.heap)
      ensures var w := old(model); model == Requeued(w, w.byName, w.toAdd, w.toDelete - {uid})
    {
      hide *;
      ValidParts();
      QueuesFit(model, uid);
      Requeue(nameToContact, contactsToAdd, contactsToDelete - {uid});
    }

    /** One contact of the delete loop of phase 3. */
    method SyncDeleteOne(contact: Contact, removed: bool, contacts: seq<Contact>) returns (contacts': seq<Contact>)
      requires Valid() && contact in model.heap && Ours(model.heap, contacts)
      modifies this, model.heap.Keys
      ensures Valid() && Ours(model.heap, contacts') && model.heap.Keys == old(model.heap.Keys)
      ensures Batch(model, contacts') == SyncDelete(Batch(old(model), contacts), contact, removed)
    {
      hide *;
      ValidParts();
      ghost var w, d := model, At(model, contact);
      SyncDeleteIs(Batch(w, contacts), contact, removed);
      contacts' := contacts;
      if removed {
        UidIs(contact);
        PendingIs(contact);
        var uid := contact.uid;
        PutParts(w, contact, d.(pendingFlags := d.pendingFlags - {SCHEDULE_DELETE}));
        WritePending(contact, contact.pendingFlags - {SCHEDULE_DELETE});
        DropFromDeletes(uid);
        contacts' := contacts + [contact];
        OursStay(w.heap, model.heap, contacts);
        OursMore(model.heap, contacts, contact);
      }
    }

    /** The contacts of a queue, in the order in which its keys come. */
    method Snapshot(queue: map<string, Contact>) returns (keys: seq<string>, contacts: seq<Contact>)
      requires Keyed(model, queue)
      ensures Lists(keys, queue) && |contacts| == |keys| && Ours(model.heap, contacts)
      ensures forall i :: 0 <= i < |keys| ==> keys[i] in queue && contacts[i] == queue[keys[i]]
    {
      keys := KeysOf(queue);
      UnderKnown(model, queue, keys);
      contacts := Under(queue, keys);
      forall i | 0 <= i < |keys| ensures keys[i] in queue && contacts[i] == queue[keys[i]] { assert keys[i] in keys; }
    }

    /** The update loop of phase 3. */
    method UpdateLoop(unblocked: string -> bool)
      returns (contacts: seq<Contact>, ghost steps: seq<SyncStep>, ghost keys: seq<string>)
      requires Valid()
      modifies this`model, model.heap.Keys
      ensures Valid() && Ours(model.heap, contacts) && model.heap.Keys == old(model.heap.Keys)
      ensures model.toAdd == old(model.toAdd) && model.toDelete == old(model.toDelete)
      ensures Batch(model, contacts) == SyncAll(Batch(old(model), []), steps)
      ensures Lists(keys, old(model.toUpdate)) && |steps| == |keys|
      ensures forall i :: 0 <= i < |keys| ==> keys[i] in old(model.toUpdate) && steps[i] == StepUpdate(old(model.toUpdate)[keys[i]], unblocked(keys[i]))
    {
      hide *;
      ValidParts();
      ghost var w, queue := model, model.toUpdate;
      QueuesKeyed(w);
      var order, queued := Snapshot(contactsToUpdate);
      keys, contacts, steps := order, [], [];
      OursNone(model.heap);
      SyncAllNone(Batch(w, []));
      var i := 0;
      while i < |order|
        invariant 0 <= i <= |order|
        invariant Valid() && Ours(model.heap, contacts) && Ours(model.heap, queued) && model.heap.Keys == w.heap.Keys
        invariant model.toAdd == w.toAdd && model.toDelete == w.toDelete
        invariant Batch(model, contacts) == SyncAll(Batch(w, []), steps)
        invariant |steps| == i && forall k :: 0 <= k < i ==> steps[k] == StepUpdate(queue[order[k]], unblocked(order[k]))
      {
        ghost var before := Batch(model, contacts);
        OursIn(model.heap, queued);
        contacts := SyncUpdateOne(queued[i], unblocked(order[i]), contacts);
        SyncUpdateQueues(before, queued[i], unblocked(order[i]));
        SyncOneIs(before, queued[i], unblocked(order[i]), NO_ANSWER, true, true);
        SyncAllMore(Batch(w, []), steps, StepUpdate(queued[i], unblocked(order[i])));
        steps := steps + [StepUpdate(queued[i], unblocked(order[i]))];
        OursStay(before.world.heap, model.heap, queued);
        i := i + 1;
      }
    }

    /** The add loop of phase 3. */
    method AddLoop(answers: string -> Worlds.Answer, contacts: seq<Contact>)
      returns (contacts': seq<Contact>, ghost steps: seq<SyncStep>, ghost keys: seq<string>)
      requires Valid() && Ours(model.heap, contacts)
      modifies this, model.heap.Keys, tpdb
      ensures Valid() && Ours(model.heap, contacts') && model.heap.Keys == old(model.heap.Keys)
      ensures model.toDelete == old(model.toDelete)
      ensures Batch(model, contacts') == SyncAll(Batch(old(model), contacts), steps)
      ensures Lists(keys, old(model.toAdd)) && |steps| == |keys|
      ensures forall i :: 0 <= i < |keys| ==>
        keys[i] in old(model.toAdd) && steps[i].StepAdd? && steps[i].c == old(model.toAdd)[keys[i]] && steps[i].answer == answers(keys[i])
    {
      hide *;
      ValidParts();
      ghost var w, queue := model, model.toAdd;
      QueuesKeyed(w);
      var order, queued := Snapshot(contactsToAdd);
      keys, contacts', steps := order, contacts, [];
      SyncAllNone(Batch(w, contacts));
      var i := 0;
      while i < |order|
        invariant 0 <= i <= |order|
        invariant Valid() && Ours(model.heap, contacts') && Ours(model.heap, queued) && model.heap.Keys == w.heap.Keys
        invariant model.toDelete == w.toDelete
        invariant Batch(model, contacts') == SyncAll(Batch(w, contacts), steps)
        invariant |steps| == i && forall k :: 0 <= k < i ==> steps[k].StepAdd? && steps[k].c == queue[order[k]] && steps[k].answer == answers(order[k])
      {
        ghost var before := Batch(model, contacts');
        OursIn(model.heap, queued);
        var flushed, removed;
        contacts', flushed, removed := SyncAddOne(queued[i], answers(order[i]), contacts');
        SyncAddQueues(before, queued[i], answers(order[i]), flushed, removed);
        SyncOneIs(before, queued[i], true, answers(order[i]), flushed, removed);
        SyncAllMore(Batch(w, contacts), steps, StepAdd(queued[i], answers(order[i]), flushed, removed));
        steps := steps + [StepAdd(queued[i], answers(order[i]), flushed, removed)];
        OursStay(before.world.heap, model.heap, queued);
        i := i + 1;
      }
    }

    /** The delete loop of phase 3. */
    method DeleteLoop(accepted: string -> bool, contacts: seq<Contact>)
      returns (contacts': seq<Contact>, ghost steps: seq<SyncStep>, ghost keys: seq<string>)
      requires Valid() && Ours(model.heap, contacts)
      modifies this, model.heap.Keys
      ensures Valid() && Ours(model.heap, contacts') && model.heap.Keys == old(model.heap.Keys)
      ensures Batch(model, contacts') == SyncAll(Batch(old(model), contacts), steps)
      ensures Lists(keys, old(model.toDelete)) && |steps| == |keys|
      ensures forall i :: 0 <= i < |keys| ==> keys[i] in old(model.toDelete) && steps[i] == StepDelete(old(model.toDelete)[keys[i]], accepted(keys[i]))
    {
      hide *;
      ValidParts();
      ghost var w, queue := model, model.toDelete;
      QueuesKeyed(w);
      var order, queued := Snapshot(contactsToDelete);
      keys, contacts', steps := order, contacts, [];
      SyncAllNone(Batch(w, contacts));
      var i := 0;
      while i < |order|
        invariant 0 <= i <= |order|
        invariant Valid() && Ours(model.heap, contacts') && Ours(model.heap, queued) && model.heap.Keys == w.heap.Keys
        invariant Batch(model, contacts') == SyncAll(Batch(w, contacts), steps)
        invariant |steps| == i && forall k :: 0 <= k < i ==> steps[k] == StepDelete(queue[order[k]], accepted(order[k]))
      {
        ghost var before := Batch(model, contacts');
        OursIn(model.heap, queued);
        contacts' := SyncDeleteOne(queued[i], accepted(order[i]), contacts');
        SyncOneIs(before, queued[i], accepted(order[i]), NO_ANSWER, true, true);
        SyncAllMore(Batch(w, contacts), steps, StepDelete(queued[i], accepted(order[i])));
        steps := steps + [StepDelete(queued[i], accepted(order[i]))];
        OursStay(before.world.heap, model.heap, queued);
        i := i + 1;
      }
    }

    /** `_sync_phase_3_idle_cb`: every queued edit, addition and deletion is carried out once on the
        server, and what changed is written in one transaction. Offline nothing is done. */
    method SyncPhase3(online: bool, unblocked: string -> bool, answers: string -> Worlds.Answer, accepted: string -> bool)
      returns (stored: bool, ghost updates: seq<SyncStep>, ghost adds: seq<SyncStep>, ghost deletes: seq<SyncStep>,
               ghost keys: (seq<string>, seq<string>, seq<string>))
      requires Valid()
      modifies this, model.heap.Keys, tpdb
      ensures Valid()
      ensures !online ==> model == old(model)
      ensures online ==>
        && model == Phase3(old(model), updates + adds + deletes, stored)
        && Lists(keys.0, old(model.toUpdate)) && Lists(keys.1, old(model.toAdd)) && Lists(keys.2, old(model.toDelete))
        && |updates| == |keys.0| && |adds| == |keys.1| && |deletes| == |keys.2|
        && (forall i :: 0 <= i < |updates| ==>
              keys.0[i] in old(model.toUpdate) && updates[i] == StepUpdate(old(model.toUpdate)[keys.0[i]], unblocked(keys.0[i])))
        && (forall i :: 0 <= i < |adds| ==>
              keys.1[i] in old(model.toAdd) && adds[i].StepAdd? && adds[i].c == old(model.toAdd)[keys.1[i]] && adds[i].answer == answers(keys.1[i]))
        && (forall i :: 0 <= i < |deletes| ==>
              keys.2[i] in old(model.toDelete) && deletes[i] == StepDelete(old(model.toDelete)[keys.2[i]], accepted(keys.2[i])))
    {
      hide *;
      stored, updates, adds, deletes, keys := true, [], [], [], ([], [], []);
      if !online { return; }
      ghost var w := model;
      var contacts;
      ghost var k0, k1, k2;
      contacts, updates, k0 := UpdateLoop(unblocked);
      contacts, adds, k1 := AddLoop(answers, contacts);
      contacts, deletes, k2 := DeleteLoop(accepted, contacts);
      keys := (k0, k1, k2);
      SyncAllAppend(Batch(w, []), updates, adds);
      SyncAllAppend(Batch(w, []), updates + adds, deletes);
      StoreNothing(model, true);
      Phase3Is(w, updates + adds + deletes, true);
      if contacts != [] {
        stored := StoreInDb(contacts);
        Phase3Is(w, updates + adds + deletes, stored);
      }
    }

    // ---- Requests of the address book ----

    /** `notify_updated_contact`. */
    method NotifyUpdatedContact(contact: Contact)
      requires Valid() && contact in model.heap
      modifies this
      ensures Valid() && model == NotifyUpdated(old(model), contact) && model.heap == old(model.heap)
    {
      hide *;
      ValidParts();
      ghost var w := model;
      NotifyUpdatedIs(w, contact);
      if views == [] { return; }
      UidIs(contact);
      DropChanged(contact.uid);
      NotifyParts(model);
      WithChangedParts(w, w.changed - {contact.uid});
      NotifyRemotelyUpdatedContacts();
      AnnounceKeepsHeap(model, contact);
      AnnounceContact(contact);
    }

    method DropChanged(uid: string)
      requires Valid()
      modifies this`contactsRemotelyChanged, this`model
      ensures Valid() && model == WithChanged(old(model), old(model).changed - {uid})
    {
      hide *;
      ValidParts();
      WithChangedParts(model, model.changed - {uid});
      WithChangedSound(model, uid);
      contactsRemotelyChanged := contactsRemotelyChanged - {uid};
      model := WithChanged(model, model.changed - {uid});
      ValidWhen();
    }

    method UpdateRowInDb(contact: Contact) returns (stored: bool)
      requires Hold(model.heap) && tpdb.Content() == model.db && contact in model.heap
      modifies tpdb
      ensures tpdb.Content() == Commit(model.db, RealUpdate(model.db, At(model, contact)), stored)
      ensures stored ==> RealUpdate(model.db, At(model, contact)).Some?
    {
      hide RealUpdate, At;
      UidIs(contact);
      stored := tpdb.UpdateContact(contact);
    }

    method AddRowInDb(contact: Contact) returns (stored: bool)
      requires Hold(model.heap) && tpdb.Content() == model.db && contact in model.heap
      modifies tpdb
      ensures tpdb.Content() == Commit(model.db, RealAdd(model.db, At(model, contact)), stored)
      ensures stored ==> RealAdd(model.db, At(model, contact)).Some?
    {
      hide RealAdd, At;
      UidIs(contact);
      stored := tpdb.AddContact(contact);
    }

    /** Updates the row of one contact. */
    method UpdateRow(contact: Contact) returns (stored: bool)
      requires Valid() && contact in model.heap
      modifies this`model, tpdb
      ensures Valid()
      ensures var w := old(model); model == WithDb(w, Commit(w.db, RealUpdate(w.db, At(w, contact)), stored))
      ensures stored ==> RealUpdate(old(model).db, At(old(model), contact)).Some?
    {
      hide *;
      ValidParts();
      ghost var w := model;
      stored := UpdateRowInDb(contact);
      WithDbParts(w, tpdb.Content());
      WithDbSound(w, tpdb.Content());
      model := WithDb(w, tpdb.Content());
      ValidWhen();
    }

    /** Adds the row of one contact. */
    method AddRow(contact: Contact) returns (stored: bool)
      requires Valid() && contact in model.heap
      modifies this`model, tpdb
      ensures Valid()
      ensures var w := old(model); model == WithDb(w, Commit(w.db, RealAdd(w.db, At(w, contact)), stored))
      ensures stored ==> RealAdd(old(model).db, At(old(model), contact)).Some?
    {
      hide *;
      ValidParts();
      ghost var w := model;
      stored := AddRowInDb(contact);
      WithDbParts(w, tpdb.Content());
      WithDbSound(w, tpdb.Content());
      model := WithDb(w, tpdb.Content());
      ValidWhen();
    }

    /** A contact of that name is there: it takes over what the submitted one brings. */
    method AbsorbFields(existing: Contact, contact: Contact)
      requires existing != contact
      modifies existing
      ensures existing.Data() == Absorbed(old(existing.Data()), contact.Data())
    {
      var changed := existing.UpdateMasterUids(contact.masterUids);
      existing.AddVariantsFromContact(contact);
      if CL_DENY in existing.flags {
        existing.pendingFlags := existing.pendingFlags - {CL_DENY};
        existing.pendingFlags := existing.pendingFlags + {SCHEDULE_UNBLOCK};
      }
    }

    /** The part of `run_create_contact` for a name that is taken. */
    method RunCreateExisting(existing: Contact, contact: Contact, unblocked: bool) returns (stored: bool)
      requires Valid() && existing in model.heap && contact !in model.heap
      modifies this, existing, tpdb
      ensures Valid()
      ensures forall add: Worlds.Answer, flushed: bool ::
        model == CreateExisting(old(model), existing, contact.Data(), CreateAnswers(add, unblocked, flushed, stored))
    {
      hide *;
      ValidParts();
      ghost var w, d := model, Absorbed(At(model, existing), contact.Data());
      ghost var d' := RunUpdate(d, unblocked);
      UidIs(existing);
      AbsorbedUid(At(w, existing), contact.Data(), unblocked);
      stored := true;
      BeforeWrite(w.heap, existing);
      AbsorbFields(existing, contact);
      var pending := HasPendingEdit(existing);
      if pending {
        RunUpdateFields(existing, unblocked);
        AdoptWrite(existing, d');
        PutParts(w, existing, d');
        AtPut(w, existing, d');
        stored := UpdateRow(existing);
        WithDbParts(Put(w, existing, d'), Commit(w.db, RealUpdate(w.db, d'), stored));
        NotifyUpdatedContact(existing);
      } else {
        AdoptWrite(existing, d);
      }
      forall add: Worlds.Answer, flushed: bool
        ensures model == CreateExisting(w, existing, contact.Data(), CreateAnswers(add, unblocked, flushed, stored))
      {
        CreateExistingIs(w, existing, contact.Data(), CreateAnswers(add, unblocked, flushed, stored));
      }
    }

    /** The model follows the fields of one contact. */
    ghost method AdoptWrite(contact: Contact, d: ContactData)
      requires Tables() && tpdb.Content() == model.db && Sound(model)
      requires HoldBut(model.heap, contact) && contact in model.heap && contact.Data() == d && d.uid == At(model, contact).uid
      modifies this`model
      ensures Valid() && model == Put(old(model), contact, d)
    {
      hide *;
      TablesParts();
      PutParts(model, contact, d);
      PutSound(model, contact, d);
      AfterWrite(model.heap, contact, d);
      model := Put(model, contact, d);
      ValidWhen();
    }

    lemma TablesParts()
      requires Tables()
      ensures uidToContact == model.byUid && nameToContact == model.byName && handleToContact == model.byHandle
      ensures contactsToAdd == model.toAdd && contactsToUpdate == model.toUpdate && contactsToDelete == model.toDelete
      ensures contactsToUpdateInDb == model.dirty && contactsRemotelyChanged == model.changed
      ensures updateScheduled == model.idle && systemInactive == model.inactive && membersReady == model.ready
      ensures views == model.views
    {}

    /** The contact object that a submitted vCard makes, not in the tables yet. */
    method NewFromCard(card: Card) returns (contact: Contact, named: bool)
      requires uidToContact == model.byUid
      ensures fresh(contact)
      ensures var (d, ok) := VCards.UpdateFromEContact(NEW_CONTACT, card, vcardField);
        named == ok && (named ==> contact.Data() == Submitted(model, path, d))
    {
      contact := new Contact(NEW_CONTACT);
      hide VCards.UpdateFromEContact, WithUid;
      named := contact.UpdateFromEContact(card, vcardField);
      if named { GiveUid(contact); }
    }

    /** Gives a contact its uid and what has to be done for it on the server. */
    method GiveUid(contact: Contact)
      requires uidToContact == model.byUid
      modifies contact
      ensures contact.Data() == Submitted(model, path, old(contact.Data()))
    {
      var uid, probes := GenerateUid(uidToContact, path, if contact.name.Some? then contact.name.value else "");
      contact.uid := uid;
      contact.pendingFlags := contact.pendingFlags + {SCHEDULE_ADD};
      contact.pendingFlags := contact.pendingFlags + {CL_SUBSCRIBE, CL_PUBLISH, CL_STORED};
      assert contact.pendingFlags == old(contact.pendingFlags) + {SCHEDULE_ADD, CL_SUBSCRIBE, CL_PUBLISH, CL_STORED};
    }

    /** A submitted contact enters the indexes. */
    method EnterCreated(contact: Contact, name: string)
      requires Valid() && contact !in model.heap && name == NameOf(contact.Data())
      modifies this`uidToContact, this`nameToContact, this`model
      ensures Valid()
      ensures var w := old(model); model == Entered(w, contact, contact.Data(), w.byName[name := contact], w.byHandle)
    {
      hide *;
      ValidParts();
      ghost var w, d := model, contact.Data();
      HandleIs(contact);
      WithSame(w.byHandle, contact);
      WithInsert(w.byName, name, contact);
      EnteredSound(w, contact, d, w.byName[name := contact], w.byHandle);
      EnteredParts(w, contact, d, w.byName[name := contact], w.byHandle);
      HoldMore(w.heap, contact, d);
      uidToContact := uidToContact[contact.uid := contact];
      nameToContact := nameToContact[name := contact];
      model := Entered(w, contact, d, w.byName[name := contact], w.byHandle);
      ValidWhen();
    }

    /** The part of `run_create_contact` for a name that is free. */
    method RunCreateNew(contact: Contact, name: string) returns (result: Option<Contact>, stored: bool)
      requires Valid() && contact !in model.heap && name == NameOf(contact.Data())
      modifies this, tpdb
      ensures Valid() && (model, result) == CreateNew(old(model), contact, contact.Data(), stored)
    {
      hide *;
      ghost var w, d := model, contact.Data();
      PendingOf(contact);
      EnterCreated(contact, name);
      ghost var known := model;
      EnteredParts(w, contact, d, w.byName[name := contact], w.byHandle);
      ValidParts();
      UidIs(contact);
      QueuesFit(known, "");
      Fitting(known, contact, name, d.uid);
      result, stored := Option.Some(contact), true;
      CreateNewIs(w, contact, d, true);
      if SCHEDULE_ADD in contact.pendingFlags {
        Requeue(nameToContact, contactsToAdd[contact.uid := contact], contactsToDelete);
        RequeuedParts(known, known.byName, known.toAdd[d.uid := contact], known.toDelete);
        SameAt(known, model, contact);
        stored := AddRow(contact);
        result := if stored then Option.Some(contact) else Option.None;
        CreateNewIs(w, contact, d, stored);
      }
    }

    /** `run_create_contact`, given what the server answers. */
    method RunCreateContact(card: Card, online: bool, add: Worlds.Answer, unblocked: bool)
      returns (result: Option<Contact>, flushed: bool, stored: bool, ghost id: Contact)
      requires Valid()
      modifies this, model.heap.Keys, tpdb
      ensures Valid() && fresh(id)
      ensures (model, result) ==
        Create(old(model), path, vcardField, card, id, online, CreateAnswers(add, unblocked, flushed, stored))
    {
      hide *;
      ghost var w := model;
      flushed := FlushDbUpdates();
      stored := true;
      FlushParts(w, flushed);
      ValidParts();
      ghost var w' := model;
      var contact, named := NewFromCard(card);
      id := contact;
      CreateIs(w, path, vcardField, card, id, online, CreateAnswers(add, unblocked, flushed, true));
      if !named { return Option.None, flushed, stored, id; }
      if online {
        var added := RunAddFields(contact, add);
        ghost var s := Submitted(w', path, VCards.UpdateFromEContact(NEW_CONTACT, card, vcardField).0);
        PairIs(contact.Data(), added, RunAdd(s, add));
        if !added { return Option.None, flushed, stored, id; }
      }
      var name := NameIn(contact);
      if name in nameToContact {
        var existing := nameToContact[name];
        NamedKnown(model, name);
        stored := RunCreateExisting(existing, contact, unblocked);
        result := Option.Some(existing);
      } else {
        result, stored := RunCreateNew(contact, name);
      }
      CreateIs(w, path, vcardField, card, id, online, CreateAnswers(add, unblocked, flushed, stored));
    }

    /** One field of a removal request that names a list of master UIDs. */
    method ApplyField(contact: Contact, field: string)
      modifies contact
      ensures contact.Data() == RemoveField(old(contact.Data()), field)
    {
      if field != PRESERVE && field != IF_UNUSED {
        var removed := contact.RemoveMasterUid(field);
      }
    }

    /** What a removal request does to the contact, and whether the contact itself is to go. */
    method ApplyRequest(contact: Contact, suffix: seq<string>) returns (reallyRemove: bool)
      modifies contact
      ensures (contact.Data(), reallyRemove) == ApplySuffix(old(contact.Data()), suffix)
    {
      if suffix == [] { return true; }
      if suffix[0] == WILDCARD {
        contact.RemoveAllMasterUids();
        return false;
      }
      hide RemoveFields, RemoveField;
      reallyRemove := true;
      AllOf(suffix);
      var i := 0;
      while i < |suffix|
        invariant 0 <= i <= |suffix|
        invariant RemoveFields(contact.Data(), suffix[i..]) == RemoveFields(old(contact.Data()), suffix)
        invariant reallyRemove <==> PRESERVE !in suffix[..i]
      {
        FieldsStep(contact.Data(), suffix, i);
        Snoc(suffix, i);
        if suffix[i] == PRESERVE { reallyRemove := false; }
        ApplyField(contact, suffix[i]);
        i := i + 1;
      }
      FieldsStep(contact.Data(), suffix, i);
      if |contact.masterUids| > 0 { reallyRemove := false; }
    }

    /** Carries out what follows the uid in a removal request. */
    method EditMasters(contact: Contact, suffix: seq<string>) returns (reallyRemove: bool)
      requires Valid() && contact in model.heap
      modifies this`model, contact
      ensures Valid() && model == Put(old(model), contact, ApplySuffix(At(old(model), contact), suffix).0)
      ensures reallyRemove == ApplySuffix(At(old(model), contact), suffix).1
    {
      hide *;
      ValidParts();
      UidIs(contact);
      ghost var applied := ApplySuffix(At(model, contact), suffix);
      ApplySuffixUid(At(model, contact), suffix);
      BeforeWrite(model.heap, contact);
      reallyRemove := ApplyRequest(contact, suffix);
      PairIs(contact.Data(), reallyRemove, applied);
      AdoptWrite(contact, applied.0);
    }

    /** Only master UIDs were to be removed: the contact is written and announced. */
    method KeepContact(contact: Contact, ghost w: World) returns (stored: bool)
      requires Valid() && contact in model.heap && model == Put(w, contact, At(model, contact))
      modifies this, contact, tpdb
      ensures Valid() && model == Worlds.KeepContact(w, contact, At(old(model), contact), stored)
      ensures model.heap.Keys == old(model.heap.Keys)
    {
      hide *;
      ValidParts();
      ghost var p, d := model, At(model, contact);
      PendingIs(contact);
      PutParts(w, contact, d);
      stored := true;
      KeepContactIs(w, contact, d, true);
      if SCHEDULE_UPDATE_MASTER_UID !in contact.pendingFlags { return; }
      stored := UpdateRow(contact);
      ghost var db := Commit(p.db, RealUpdate(p.db, d), stored);
      WithDbParts(p, db);
      SameAt(p, model, contact);
      KeepContactIs(w, contact, d, stored);
      if stored {
        ValidParts();
        PendingIs(contact);
        WritePending(contact, contact.pendingFlags - {SCHEDULE_UPDATE_MASTER_UID});
        PutParts(WithDb(p, db), contact, d.(pendingFlags := d.pendingFlags - {SCHEDULE_UPDATE_MASTER_UID}));
        DbAndPut(w, contact, d, d.(pendingFlags := d.pendingFlags - {SCHEDULE_UPDATE_MASTER_UID}), db);
      }
      NotifyUpdatedContact(contact);
    }

    /** The server still has to be told: the contact is marked and queued for deletion. */
    method MarkDeleted(contact: Contact)
      requires Valid() && contact in model.heap
      modifies this, contact
      ensures var w, d := old(model), At(old(model), contact);
        var marked := Put(w, contact, d.(pendingFlags := {SCHEDULE_DELETE}));
        Valid() && model == Requeued(marked, marked.byName, marked.toAdd, marked.toDelete[d.uid := contact])
      ensures model.heap.Keys == old(model.heap.Keys)
    {
      hide *;
      ValidParts();
      ghost var w, d := model, At(model, contact);
      UidIs(contact);
      PutParts(w, contact, d.(pendingFlags := {SCHEDULE_DELETE}));
      WritePending(contact, {SCHEDULE_DELETE});
      ValidParts();
      UidIs(contact);
      AtPut(w, contact, d.(pendingFlags := {SCHEDULE_DELETE}));
      Fitting(model, contact, "", d.uid);
      Requeue(nameToContact, contactsToAdd, contactsToDelete[contact.uid := contact]);
    }

    /** The contact itself is to go: at once if the server does not know it, by the server if it
        accepts, and otherwise when it can be reached again. */
    method DropContact(contact: Contact, ghost w: World, online: bool, accepted: bool) returns (flushed: bool, removed: bool)
      requires Valid() && contact in model.heap && model == Put(w, contact, At(model, contact))
      modifies this, contact, tpdb
      ensures Valid() && model.heap.Keys == old(model.heap.Keys)
      ensures forall stored: bool ::
        model == Worlds.DropContact(w, contact, At(old(model), contact), online, RemoveAnswers(accepted, flushed, stored, removed))
    {
      hide *;
      ValidParts();
      ghost var d := At(model, contact);
      ghost var cleared := d.(pendingFlags := {});
      PendingIs(contact);
      PutParts(w, contact, d);
      flushed, removed := true, true;
      WritePending(contact, {});
      PutTwice(w, contact, d, cleared);
      PutParts(w, contact, cleared);
      AtPut(w, contact, cleared);
      ValidParts();
      PendingIs(contact);
      if CONTACT_INVALID in contact.flags {
        OursOne(model.heap, contact);
        SetOfOne(contact);
        flushed, removed := DeleteContacts([contact]);
        DeleteKeepsHeap(Put(w, contact, cleared), {contact}, flushed, removed);
      } else if !(online && accepted) {
        MarkDeleted(contact);
        PutTwice(w, contact, cleared, d.(pendingFlags := {SCHEDULE_DELETE}));
      }
      forall stored: bool
        ensures model == Worlds.DropContact(w, contact, d, online, RemoveAnswers(accepted, flushed, stored, removed))
      {
        DropContactIs(w, contact, d, online, RemoveAnswers(accepted, flushed, stored, removed));
      }
    }

    /** `run_remove_contact`: "uid", or "uid;m1;m2;...". `accepted` is what the server says to the
        deletion. */
    method RunRemoveContact(request: string, online: bool, accepted: bool, contacts: seq<Contact>)
      returns (contacts': seq<Contact>, flushed: bool, stored: bool, removed: bool)
      requires Valid() && Ours(model.heap, contacts)
      modifies this, model.heap.Keys, tpdb
      ensures Valid() && Ours(model.heap, contacts') && model.heap.Keys == old(model.heap.Keys)
      ensures Batch(model, contacts') ==
        Remove(Batch(old(model), contacts), request, online, RemoveAnswers(accepted, flushed, stored, removed))
    {
      hide *;
      ghost var w := model;
      stored, removed := true, true;
      contacts' := contacts;
      flushed := FlushDbUpdates();
      FlushParts(w, flushed);
      ValidParts();
      ghost var w' := model;
      var uidList := Split(request, ';');
      RemoveIs(Batch(w, contacts), request, online, RemoveAnswers(accepted, flushed, stored, removed));
      if uidList == [] || uidList[0] !in uidToContact { return; }
      var contact := uidToContact[uidList[0]];
      IndexedKnown(w', uidList[0]);
      contacts', stored, removed := RemoveKnown(contact, uidList[1..], online, accepted, flushed, contacts);
      RemoveIs(Batch(w, contacts), request, online, RemoveAnswers(accepted, flushed, stored, removed));
    }

    /** The part of `run_remove_contact` for a uid that is known, after the flush. */
    method RemoveKnown(contact: Contact, suffix: seq<string>, online: bool, accepted: bool, ghost flushed: bool, contacts: seq<Contact>)
      returns (contacts': seq<Contact>, stored: bool, removed: bool)
      requires Valid() && contact in model.heap && model.dirty == map[] && Ours(model.heap, contacts)
      modifies this, model.heap.Keys, tpdb
      ensures Valid() && Ours(model.heap, contacts') && model.heap.Keys == old(model.heap.Keys)
      ensures var w, o := old(model), RemoveAnswers(accepted, flushed, stored, removed);
        var (d, really) := ApplySuffix(At(w, contact), suffix);
        Batch(model, contacts') ==
          if really then Batch(Worlds.DropContact(w, contact, d, online, o), contacts + [contact])
          else Batch(Worlds.KeepContact(w, contact, d, stored), contacts)
    {
      hide *;
      ghost var w, applied := model, ApplySuffix(At(model, contact), suffix);
      stored, removed, contacts' := true, true, contacts;
      var reallyRemove := EditMasters(contact, suffix);
      PutParts(w, contact, applied.0);
      AtPut(w, contact, applied.0);
      if reallyRemove {
        ghost var again;
        again, removed := DropContact(contact, w, online, accepted);
        DropFlush(w, contact, applied.0, online, RemoveAnswers(accepted, again, stored, removed), RemoveAnswers(accepted, flushed, stored, removed));
        contacts' := contacts + [contact];
        OursStay(w.heap, model.heap, contacts);
        OursMore(model.heap, contacts, contact);
      } else {
        stored := KeepContact(contact, w);
        OursStay(w.heap, model.heap, contacts);
      }
    }

    /** `remove_contacts_idle_cb`: the requests one by one, and then one write for all that were
        accepted. */
    method RemoveContactsIdleCb(requests: seq<string>, online: bool, accepted: string -> bool)
      returns (flushed: bool, stored: bool, ghost carried: seq<Request>)
      requires Valid()
      modifies this, model.heap.Keys, tpdb
      ensures Valid()
      ensures |carried| == |requests|
      ensures forall i :: 0 <= i < |carried| ==>
        carried[i].text == requests[i] && carried[i].answers.accepted == accepted(requests[i])
      ensures model == RemoveContacts(old(model), carried, online, flushed, stored)
    {
      hide *;
      ghost var w := model;
      NotifyRemotelyUpdatedContacts();
      NotifyParts(w);
      ghost var told := model;
      flushed := FlushDbUpdates();
      FlushParts(told, flushed);
      ghost var start := model;
      var contactsToUpdate: seq<Contact> := [];
      carried := [];
      OursNone(model.heap);
      NoRequests(Batch(start, []), online);
      var i := 0;
      while i < |requests|
        invariant 0 <= i <= |requests| && |carried| == i
        invariant Valid() && Ours(model.heap, contactsToUpdate) && model.heap.Keys == w.heap.Keys
        invariant forall k :: 0 <= k < i ==>
          carried[k].text == requests[k] && carried[k].answers.accepted == accepted(requests[k])
        invariant Batch(model, contactsToUpdate) == RemoveAll(Batch(start, []), carried, online)
      {
        var f, s, r;
        contactsToUpdate, f, s, r := RunRemoveContact(requests[i], online, accepted(requests[i]), contactsToUpdate);
        ghost var done := Request(requests[i], RemoveAnswers(accepted(requests[i]), f, s, r));
        RemoveAllMore(Batch(start, []), carried, online, done);
        carried := carried + [done];
        i := i + 1;
      }
      stored := true;
      StoreNothing(model, true);
      if contactsToUpdate != [] { stored := StoreInDb(contactsToUpdate); }
      RemoveContactsIs(w, carried, online, flushed, stored);
    }
  }

  lemma IndexedKnown(w: World, uid: string)
    requires Sound(w) && uid in w.byUid
    ensures w.byUid[uid] in w.heap
  {}

  lemma PendingOf(c: Contact)
    ensures c.Data().pendingFlags == c.pendingFlags && c.Data().uid == c.uid
  {}

  lemma DbAndPut(w: World, c: Contact, d: ContactData, d': ContactData, db: Tables)
    ensures Put(WithDb(Put(w, c, d), db), c, d') == WithDb(Put(w, c, d'), db)
  {
    assert w.heap[c := d][c := d'] == w.heap[c := d'];
  }

  ghost const NO_ANSWER := Worlds.Answer(None, None, OtherError)

  lemma SyncAllNone(b: Batch)
    ensures SyncAll(b, []) == b
  {}

  lemma QueuesKeyed(w: World)
    requires Sound(w)
    ensures Keyed(w, w.toUpdate) && Keyed(w, w.toAdd) && Keyed(w, w.toDelete)
  {
    hide Keyed;
  }

  lemma PairIs(d: ContactData, added: bool, r: (ContactData, bool))
    requires (d, added) == r
    ensures d == r.0 && added == r.1
  {}

  lemma AtPut(w: World, c: Contact, d: ContactData)
    ensures At(Put(w, c, d), c) == d
  {}

  lemma QueuesFit(w: World, uid: string)
    requires Sound(w)
    ensures Keyed(w, w.toAdd) && Keyed(w, w.toDelete) && Keyed(w, w.toAdd - {uid}) && Keyed(w, w.toDelete - {uid})
    ensures Inhabited(w, w.byName)
  {
    hide At;
  }

  lemma OursOne(heap: map<Contact, ContactData>, c: Contact)
    requires c in heap
    ensures Ours(heap, [c])
  {}

  lemma SetOfOne(c: Contact)
    ensures SetOf([c]) == {c}
  {}

  lemma SameAt(w: World, w': World, c: Contact)
    requires w'.heap == w.heap
    ensures At(w', c) == At(w, c)
  {}

  /** The contact objects other than one hold these values. */
  ghost predicate HoldBut(heap: map<Contact, ContactData>, c: Contact)
    reads heap.Keys - {c}
  {
    forall x :: x in heap && x != c ==> x.Data() == heap[x]
  }

  lemma BeforeWrite(heap: map<Contact, ContactData>, c: Contact)
    requires Hold(heap)
    ensures HoldBut(heap, c)
  {}

  lemma AfterWrite(heap: map<Contact, ContactData>, c: Contact, d: ContactData)
    requires HoldBut(heap, c) && c.Data() == d
    ensures Hold(heap[c := d])
  {}

  lemma DistinctAre(cs: seq<Contact>)
    requires NoDuplicates(cs)
    ensures forall i, j :: 0 <= i < j < |cs| ==> cs[i] != cs[j]
  {}

  lemma Snoc<T>(s: seq<T>, i: nat)
    requires i < |s|
    ensures s[..i + 1] == s[..i] + [s[i]]
  {}

  /** A list of fetched contacts with their objects. */
  function Fetched(cs: seq<Contact>): (arrivals: seq<Arrival>)
    reads cs
  {
    seq(|cs|, i requires 0 <= i < |cs| reads cs => Arrival(cs[i].Data(), cs[i]))
  }

  lemma FetchedIs(cs: seq<Contact>)
    ensures |Fetched(cs)| == |cs| && forall k :: 0 <= k < |cs| ==> Fetched(cs)[k] == Arrival(cs[k].Data(), cs[k])
  {}

  lemma NoContacts()
    ensures SetOf([]) == {}
  {}

  lemma SetOfEmpty(cs: seq<Contact>)
    ensures cs == [] <==> SetOf(cs) == {}
  {
    if cs != [] { assert cs[0] in SetOf(cs); }
  }

  lemma NamedKnown(w: World, n: string)
    requires Sound(w) && n in w.byName
    ensures w.byName[n] in w.heap
  {}

  lemma StoreKeepsHeap(w: World, cs: seq<Contact>, stored: bool)
    ensures StoreNew(w, cs, stored).heap == w.heap && StoreChanged(w, cs, stored).heap == w.heap
  {
    hide Commit, AddAll, UpdateAll, DataAt;
  }

  lemma TakeInNone(s: Intake, path: string)
    ensures TakeInAll(s, path, []) == s
  {}

  lemma OursIn(heap: map<Contact, ContactData>, cs: seq<Contact>)
    requires Ours(heap, cs)
    ensures forall c :: c in cs ==> c in heap
  {}

  lemma CommitIs(db: Tables, result: Option<Tables>, content: Tables, done: bool)
    requires if done then result == Option.Some(content) else content == db
    ensures content == Commit(db, result, done)
  {}

  lemma AddKnownIs(d: ContactData, news: ContactData)
    ensures AddKnown(d, news).uid == d.uid && AddKnown(d, news).handle == news.handle
  {}

  lemma WithUidIs(w: World, path: string, d: ContactData)
    ensures WithUid(w, path, d).handle == d.handle
  {}

  lemma WithSame<K>(m: map<K, Contact>, c: Contact)
    ensures With(m, m, c)
  {}

  lemma HoldMore(heap: map<Contact, ContactData>, c: Contact, d: ContactData)
    requires Hold(heap) && c.Data() == d
    ensures Hold(heap[c := d])
  {}

  /** Objects of somebody else. */
  ghost predicate Foreign(heap: map<Contact, ContactData>, cs: seq<Contact>) {
    forall c :: c in cs ==> c !in heap
  }

  lemma ForeignIs(heap: map<Contact, ContactData>, cs: seq<Contact>)
    requires Foreign(heap, cs)
    ensures forall c :: c in cs ==> c !in heap
  {}

  lemma ForeignStays(heap: map<Contact, ContactData>, heap': map<Contact, ContactData>, cs: seq<Contact>)
    requires forall c :: c in cs ==> c !in heap
    requires heap'.Keys == heap.Keys
    ensures Foreign(heap', cs)
  {}

  lemma DataOfIs(cs: seq<Contact>)
    ensures forall k :: 0 <= k < |cs| ==> cs[k].Data() == DataOf(cs)[k]
  {}

  lemma OursNone(heap: map<Contact, ContactData>)
    ensures Ours(heap, [])
  {}

  lemma HandleIs(c: Contact)
    ensures c.Data().handle == c.handle && c.Data().name == c.name && c.Data().uid == c.uid
  {}

  lemma OursStay(heap: map<Contact, ContactData>, heap': map<Contact, ContactData>, cs: seq<Contact>)
    requires Ours(heap, cs) && heap.Keys <= heap'.Keys
    ensures Ours(heap', cs)
  {}

  lemma OursMore(heap: map<Contact, ContactData>, cs: seq<Contact>, c: Contact)
    requires c in heap && Ours(heap, cs)
    ensures Ours(heap, cs + [c])
  {}

  lemma NoUids()
    ensures ToSet<string>([]) == {}
  {}

  lemma ToSetSnoc(s: seq<string>, u: string)
    ensures ToSet(s + [u]) == ToSet(s) + {u}
  {}

  /** What a flush needs to know about the queue, and what it leaves. */
  lemma FlushFacts(w: World, keys: seq<string>)
    requires Sound(w) && Lists(keys, w.dirty)
    ensures forall c :: c in Under(w.dirty, keys) ==> c in w.heap
    ensures UpdateAll(w.db, DataAt(w, Under(w.dirty, keys))) == UpdateMany(w.db, Values(w, w.dirty))
    ensures keys == [] ==> Flush(w, true) == w
  {
    hide UpdateAll, UpdateMany, Values, Under, DataAt, Commit, Flush;
    KeyedDirty(w);
    UnderKnown(w, w.dirty, keys);
    BatchIsTable(w, w.dirty, keys);
    UpdateAllIsMany(w.db, DataAt(w, Under(w.dirty, keys)));
    if keys == [] {
      assert w.dirty == map[];
      FlushNothing(w);
    }
  }

  lemma KeyedDirty(w: World)
    requires Sound(w)
    ensures Keyed(w, w.dirty) && Keyed(w, w.changed)
  {}
}
