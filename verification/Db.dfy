/** The contact cache of e-book-backend-tp-db.c: statements, transactions and the fetch. */
module Db {
  import opened Text
  import opened Flags
  import opened ContactValues
  import opened Contacts
  import opened Store

  /** Which statements the storage fails; statements are numbered as they are executed. */
  type Faults = nat -> bool

  class Database {
    var contacts: map<string, Row>
    var masterUids: set<(string, string)>
    var variants: set<(string, string)>
    var saved: Tables   // what ROLLBACK returns to
    var executed: nat
    const faults: Faults

    constructor (t: Tables, faults: Faults)
      ensures Content() == t && this.faults == faults
    {
      contacts, masterUids, variants := t.contacts, t.masterUids, t.variants;
      saved, executed, this.faults := t, 0, faults;
    }

    function Content(): Tables
      reads this
    {
      Tables(contacts, masterUids, variants)
    }

    method Begin()
      modifies this`saved
      ensures saved == Content()
    {
      saved := Tables(contacts, masterUids, variants);
    }

    method Rollback()
      modifies this
      ensures Content() == old(saved)
    {
      contacts, masterUids, variants := saved.contacts, saved.masterUids, saved.variants;
    }

    /** Executes one statement as far as the storage is concerned. */
    method Step() returns (done: bool)
      modifies this`executed
      ensures !done ==> faults(old(executed))
    {
      done := !faults(executed);
      executed := executed + 1;
    }

    method AddMasterUids(contact: Contact) returns (ok: bool)
      modifies this
      ensures saved == old(saved) && contacts == old(contacts) && variants == old(variants)
      ensures ok ==> masterUids == old(masterUids) + PairsOf(contact.uid, ToSet(contact.masterUids))
      ensures !ok ==> exists k :: faults(k)
    {
      var i := 0;
      while i < |contact.masterUids|
        invariant 0 <= i <= |contact.masterUids|
        invariant saved == old(saved) && contacts == old(contacts) && variants == old(variants)
        invariant masterUids == old(masterUids) + PairsOf(contact.uid, ToSet(contact.masterUids[..i]))
      {
        var done := Step();
        if !done { return false; }
        masterUids := masterUids + {(contact.uid, contact.masterUids[i])};
        i := i + 1;
        assert ToSet(contact.masterUids[..i]) == ToSet(contact.masterUids[..i - 1]) + {contact.masterUids[i - 1]};
      }
      assert contact.masterUids[..i] == contact.masterUids;
      return true;
    }

    method AddVariants(contact: Contact) returns (ok: bool)
      modifies this
      ensures saved == old(saved) && contacts == old(contacts) && masterUids == old(masterUids)
      ensures ok ==> variants == old(variants) + PairsOf(contact.uid, contact.variants)
      ensures !ok ==> exists k :: faults(k)
    {
      var rest := contact.variants;
      while rest != {}
        invariant rest <= contact.variants
        invariant saved == old(saved) && contacts == old(contacts) && masterUids == old(masterUids)
        invariant variants == old(variants) + PairsOf(contact.uid, contact.variants - rest)
        decreases rest
      {
        var key :| key in rest;
        var done := Step();
        if !done { return false; }
        variants := variants + {(contact.uid, key)};
        rest := rest - {key};
      }
      return true;
    }

    method DeleteMasterUids(uid: string) returns (ok: bool)
      modifies this
      ensures saved == old(saved) && contacts == old(contacts) && variants == old(variants)
      ensures masterUids == if ok then WithoutUid(old(masterUids), uid) else old(masterUids)
      ensures !ok ==> exists k :: faults(k)
    {
      ok := Step();
      if ok { masterUids := WithoutUid(masterUids, uid); }
    }

    method DeleteVariants(uid: string) returns (ok: bool)
      modifies this
      ensures saved == old(saved) && contacts == old(contacts) && masterUids == old(masterUids)
      ensures variants == if ok then WithoutUid(old(variants), uid) else old(variants)
      ensures !ok ==> exists k :: faults(k)
    {
      ok := Step();
      if ok { variants := WithoutUid(variants, uid); }
    }

    /** One contact inside a transaction. A failure may leave the tables half changed. */
    method RealAddContact(contact: Contact) returns (ok: bool)
      modifies this
      ensures saved == old(saved)
      ensures ok ==> RealAdd(old(Content()), contact.Data()) == Option.Some(Content())
      ensures !ok ==> RealAdd(old(Content()), contact.Data()).None? || exists k :: faults(k)
    {
      ok := Step();
      if !ok || contact.uid in contacts || contact.name.None? { return false; }
      contacts := contacts[contact.uid := RowOf(contact.Data())];
      ok := AddMasterUids(contact);
      if !ok { return; }
      ok := AddVariants(contact);
    }

    method RealUpdateContact(contact: Contact) returns (ok: bool)
      modifies this
      ensures saved == old(saved)
      ensures ok ==> RealUpdate(old(Content()), contact.Data()) == Option.Some(Content())
      ensures !ok ==> RealUpdate(old(Content()), contact.Data()).None? || exists k :: faults(k)
    {
      ok := Step();
      if !ok { return; }
      if contact.uid in contacts {
        if contact.name.None? { return false; }
        contacts := contacts[contact.uid := RowOf(contact.Data())];
      }
      ok := DeleteMasterUids(contact.uid);
      if !ok { return; }
      ok := AddMasterUids(contact);
      if !ok { return; }
      ok := DeleteVariants(contact.uid);
      if !ok { return; }
      ok := AddVariants(contact);
    }

    method RealDeleteContact(uid: string) returns (ok: bool)
      modifies this
      ensures saved == old(saved)
      ensures ok ==> Content() == RealDelete(old(Content()), uid)
      ensures !ok ==> exists k :: faults(k)
    {
      ok := Step();
      if !ok { return; }
      contacts := contacts - {uid};
      ok := DeleteMasterUids(uid);
      if !ok { return; }
      ok := DeleteVariants(uid);
    }

    // ---- Transactions: each leaves the result of the operation, or what was there before ----

    method AddContact(contact: Contact) returns (ok: bool)
      modifies this
      ensures if ok then RealAdd(old(Content()), contact.Data()) == Option.Some(Content()) else Content() == old(Content())
      ensures !ok ==> RealAdd(old(Content()), contact.Data()).None? || exists k :: faults(k)
    {
      Begin();
      ok := RealAddContact(contact);
      if !ok { Rollback(); }
    }

    method UpdateContact(contact: Contact) returns (ok: bool)
      modifies this
      ensures if ok then RealUpdate(old(Content()), contact.Data()) == Option.Some(Content()) else Content() == old(Content())
      ensures !ok ==> RealUpdate(old(Content()), contact.Data()).None? || exists k :: faults(k)
    {
      Begin();
      ok := RealUpdateContact(contact);
      if !ok { Rollback(); }
    }

    method DeleteContact(uid: string) returns (ok: bool)
      modifies this
      ensures Content() == if ok then RealDelete(old(Content()), uid) else old(Content())
      ensures !ok ==> exists k :: faults(k)
    {
      Begin();
      ok := RealDeleteContact(uid);
      if !ok { Rollback(); }
    }

    /** Adds all the contacts or none of them. */
    method AddContacts(batch: seq<Contact>) returns (ok: bool)
      modifies this
      ensures if ok then AddAll(old(Content()), DataOf(batch)) == Option.Some(Content()) else Content() == old(Content())
      ensures !ok ==> AddAll(old(Content()), DataOf(batch)).None? || exists k :: faults(k)
    {
      Begin();
      var i := 0;
      ghost var t, ds := Content(), DataOf(batch);
      while i < |batch|
        invariant 0 <= i <= |batch|
        invariant saved == t
        invariant AddAll(t, ds[..i]) == Option.Some(Content())
      {
        AddAllSnoc(t, ds[..i], ds[i]);
        assert ds[..i + 1] == ds[..i] + [ds[i]];
        ghost var before := Content();
        var res := RealAddContact(batch[i]);
        if !res {
          if RealAdd(before, ds[i]).None? { AddAllPrefix(t, ds, i + 1); }
          Rollback();
          return res;
        }
        i := i + 1;
      }
      assert ds[..i] == ds;
      return true;
    }

    /** Updates all the contacts or none of them. */
    method UpdateContacts(batch: seq<Contact>) returns (ok: bool)
      modifies this
      ensures if ok then UpdateAll(old(Content()), DataOf(batch)) == Option.Some(Content()) else Content() == old(Content())
      ensures !ok ==> UpdateAll(old(Content()), DataOf(batch)).None? || exists k :: faults(k)
    {
      Begin();
      var i := 0;
      ghost var t, ds := Content(), DataOf(batch);
      while i < |batch|
        invariant 0 <= i <= |batch|
        invariant saved == t
        invariant UpdateAll(t, ds[..i]) == Option.Some(Content())
      {
        UpdateAllSnoc(t, ds[..i], ds[i]);
        assert ds[..i + 1] == ds[..i] + [ds[i]];
        ghost var before := Content();
        var res := RealUpdateContact(batch[i]);
        if !res {
          if RealUpdate(before, ds[i]).None? { UpdateAllPrefix(t, ds, i + 1); }
          Rollback();
          return res;
        }
        i := i + 1;
      }
      assert ds[..i] == ds;
      return true;
    }

    /** Deletes all the uids or none of them. */
    method RemoveContacts(uids: seq<string>) returns (ok: bool)
      modifies this
      ensures Content() == if ok then DeleteAll(old(Content()), uids) else old(Content())
      ensures !ok ==> exists k :: faults(k)
    {
      Begin();
      var i := 0;
      while i < |uids|
        invariant 0 <= i <= |uids|
        invariant saved == old(Content())
        invariant Content() == DeleteAll(old(Content()), uids[..i])
      {
        DeleteAllSnoc(old(Content()), uids[..i], uids[i]);
        assert uids[..i + 1] == uids[..i] + [uids[i]];
        var res := RealDeleteContact(uids[i]);
        if !res {
          Rollback();
          return res;
        }
        i := i + 1;
      }
      assert uids[..i] == uids;
      return true;
    }
  }

  /** A batch fails as a whole as soon as a prefix of it does. */
  lemma {:induction false} AddAllPrefix(t: Tables, ds: seq<ContactData>, k: nat)
    requires k <= |ds| && AddAll(t, ds[..k]).None?
    ensures AddAll(t, ds).None?
    decreases |ds|
  {
    if k > 0 {
      assert ds[..k][1..] == ds[1..][..k - 1];
      if RealAdd(t, ds[0]).Some? { AddAllPrefix(RealAdd(t, ds[0]).value, ds[1..], k - 1); }
    }
  }

  lemma {:induction false} UpdateAllPrefix(t: Tables, ds: seq<ContactData>, k: nat)
    requires k <= |ds| && UpdateAll(t, ds[..k]).None?
    ensures UpdateAll(t, ds).None?
    decreases |ds|
  {
    if k > 0 {
      assert ds[..k][1..] == ds[1..][..k - 1];
      if RealUpdate(t, ds[0]).Some? { UpdateAllPrefix(RealUpdate(t, ds[0]).value, ds[1..], k - 1); }
    }
  }
}
