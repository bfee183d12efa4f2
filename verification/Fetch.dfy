/** Loading the cache: three cursors, each in uid order, joined by one forward pass over the
    contacts (`e_book_backend_tp_db_fetch_contacts`). */
module Fetch {
  import opened Text
  import opened Flags
  import opened ContactValues
  import opened Contacts
  import opened Store

  type ContactRow = (string, Row)

  /** `SELECT * from contacts ORDER BY uid`: the rows in strict uid order. */
  ghost predicate ContactListing(rows: seq<ContactRow>, contacts: map<string, Row>) {
    && (forall i, j :: 0 <= i < j < |rows| ==> Before(rows[i].0, rows[j].0))
    && (forall i :: 0 <= i < |rows| ==> rows[i].0 in contacts && contacts[rows[i].0] == rows[i].1)
    && (forall u :: u in contacts ==> exists i :: 0 <= i < |rows| && rows[i].0 == u)
  }

  ghost predicate SortedByUid(rows: seq<(string, string)>) {
    forall i, j :: 0 <= i < j < |rows| ==> !Before(rows[j].0, rows[i].0)
  }

  /** `SELECT * from <child table> ORDER BY contact_uid`: every pair once, in uid order. */
  ghost predicate ChildListing(rows: seq<(string, string)>, pairs: set<(string, string)>) {
    SortedByUid(rows) && NoDuplicates(rows) && ToSet(rows) == pairs
  }

  /** The values the child rows give to one contact, in row order. */
  function Select(rows: seq<(string, string)>, uid: string): seq<string> {
    if rows == [] then []
    else
      var last := rows[|rows| - 1];
      Select(rows[..|rows| - 1], uid) + (if last.0 == uid then [last.1] else [])
  }

  /** The contact a row alone stands for. */
  function RowContact(row: ContactRow): ContactData {
    var r := row.1;
    NEW_CONTACT.(uid := row.0, name := Some(r.name), alias := r.alias, avatarToken := r.avatarToken,
      flags := r.flags, pendingFlags := r.pendingFlags, contactInfo := r.contactInfo)
  }

  lemma {:induction false} SelectSet(rows: seq<(string, string)>, uid: string)
    ensures ToSet(Select(rows, uid)) == ValuesOf(ToSet(rows), uid)
  {
    if rows != [] {
      var init, last := rows[..|rows| - 1], rows[|rows| - 1];
      SelectSet(init, uid);
      assert rows == init + [last];
      assert ToSet(rows) == ToSet(init) + {last};
    }
  }

  lemma {:induction false} SelectDistinct(rows: seq<(string, string)>, uid: string)
    requires NoDuplicates(rows)
    ensures NoDuplicates(Select(rows, uid))
  {
    if rows != [] {
      var init, last := rows[..|rows| - 1], rows[|rows| - 1];
      SelectDistinct(init, uid);
      SelectSet(init, uid);
      if last.0 == uid {
        assert last !in init;
        assert last.1 !in ToSet(Select(init, uid));
      }
    }
  }

  predicate Ascending(uids: seq<string>) {
    forall i, j :: 0 <= i < j < |uids| ==> Before(uids[i], uids[j])
  }

  function ListedUids(ds: seq<ContactData>): (uids: seq<string>)
    ensures |uids| == |ds|
  {
    seq(|ds|, i requires 0 <= i < |ds| => ds[i].uid)
  }

  /** Every contact before the cursor is past: no later row can be for it. */
  ghost predicate Passed(uids: seq<string>, rows: seq<(string, string)>, i: nat, k: nat) {
    forall j, m :: 0 <= j < i && j < |uids| && k <= m < |rows| ==> Before(uids[j], rows[m].0)
  }

  lemma MoveCursor(uids: seq<string>, rows: seq<(string, string)>, i: nat, k: nat)
    requires i < |uids| && k < |rows| && SortedByUid(rows)
    requires Passed(uids, rows, i, k) && StrCmp(rows[k].0, uids[i]) > 0
    ensures Passed(uids, rows, i + 1, k)
  {
    StrCmpAntisymmetric(uids[i], rows[k].0);
    forall m | k < m < |rows| ensures Before(uids[i], rows[m].0) {
      StrCmpAntisymmetric(rows[k].0, rows[m].0);
      if rows[k].0 != rows[m].0 { StrCmpTransitive(uids[i], rows[k].0, rows[m].0); }
    }
  }

  /** A row belongs to no contact but the one under the cursor. */
  lemma OnlyUnderCursor(uids: seq<string>, rows: seq<(string, string)>, i: nat, k: nat, j: nat)
    requires k < |rows| && j < |uids| && j != i && i <= |uids|
    requires Ascending(uids) && Passed(uids, rows, i, k)
    requires i < |uids| ==> StrCmp(rows[k].0, uids[i]) <= 0
    ensures rows[k].0 != uids[j]
  {
    StrCmpAntisymmetric(uids[j], rows[k].0);
    if j > i {
      StrCmpAntisymmetric(rows[k].0, uids[i]);
      if rows[k].0 != uids[i] { StrCmpTransitive(rows[k].0, uids[i], uids[j]); }
      StrCmpAntisymmetric(uids[i], uids[j]);
    }
  }

  /** The contacts with the values of all the child rows appended. */
  function WithMasters(ds: seq<ContactData>, rows: seq<(string, string)>): seq<ContactData> {
    seq(|ds|, j requires 0 <= j < |ds| => ds[j].(masterUids := ds[j].masterUids + Select(rows, ds[j].uid)))
  }

  function WithVariants(ds: seq<ContactData>, rows: seq<(string, string)>): seq<ContactData> {
    seq(|ds|, j requires 0 <= j < |ds| => ds[j].(variants := ds[j].variants + ToSet(Select(rows, ds[j].uid))))
  }

  /** Taking in one more row changes the contact under the cursor if the row is its own. */
  lemma OneMoreRow(ds: seq<ContactData>, rows: seq<(string, string)>, i: nat, k: nat)
    requires k < |rows| && i <= |ds| && Ascending(ListedUids(ds)) && Passed(ListedUids(ds), rows, i, k)
    requires i < |ds| ==> StrCmp(rows[k].0, ds[i].uid) <= 0
    ensures var m, v := WithMasters(ds, rows[..k]), WithVariants(ds, rows[..k]);
      if i < |ds| && StrCmp(rows[k].0, ds[i].uid) == 0 then
        && WithMasters(ds, rows[..k + 1]) == m[i := m[i].(masterUids := m[i].masterUids + [rows[k].1])]
        && WithVariants(ds, rows[..k + 1]) == v[i := v[i].(variants := v[i].variants + {rows[k].1})]
      else
        WithMasters(ds, rows[..k + 1]) == m && WithVariants(ds, rows[..k + 1]) == v
  {
    var own := i < |ds| && StrCmp(rows[k].0, ds[i].uid) == 0;
    forall j | 0 <= j < |ds|
      ensures Select(rows[..k + 1], ds[j].uid) == Select(rows[..k], ds[j].uid) + (if own && j == i then [rows[k].1] else [])
    {
      assert rows[..k + 1][..k] == rows[..k];
      StrCmpAntisymmetric(rows[k].0, ds[j].uid);
      if j != i { OnlyUnderCursor(ListedUids(ds), rows, i, k, j); }
    }
    OneMoreSelected(ds, rows[..k], rows[..k + 1], if own then i else |ds|, rows[k].1);
  }

  lemma OneMoreSelected(ds: seq<ContactData>, rows: seq<(string, string)>, rows': seq<(string, string)>, i: nat, v: string)
    requires forall j :: 0 <= j < |ds| ==>
      Select(rows', ds[j].uid) == Select(rows, ds[j].uid) + (if j == i then [v] else [])
    ensures var m, w := WithMasters(ds, rows), WithVariants(ds, rows);
      if i < |ds| then
        && WithMasters(ds, rows') == m[i := m[i].(masterUids := m[i].masterUids + [v])]
        && WithVariants(ds, rows') == w[i := w[i].(variants := w[i].variants + {v})]
      else
        WithMasters(ds, rows') == m && WithVariants(ds, rows') == w
  {
    hide Select;
    forall j | 0 <= j < |ds|
      ensures ds[j].masterUids + Select(rows', ds[j].uid)
           == ds[j].masterUids + Select(rows, ds[j].uid) + (if j == i then [v] else [])
      ensures ds[j].variants + ToSet(Select(rows', ds[j].uid))
           == ds[j].variants + ToSet(Select(rows, ds[j].uid)) + (if j == i then {v} else {})
    {
      assert Select(rows', ds[j].uid) == Select(rows, ds[j].uid) + (if j == i then [v] else []);
      assert j != i ==> Select(rows', ds[j].uid) == Select(rows, ds[j].uid);
    }
    assert forall j :: 0 <= j < |ds| && j != i ==> WithMasters(ds, rows')[j] == WithMasters(ds, rows)[j];
    assert forall j :: 0 <= j < |ds| && j != i ==> WithVariants(ds, rows')[j] == WithVariants(ds, rows)[j];
  }

  /** The inner loop: moves the cursor to the first contact that does not sort before the row. */
  method AdvanceCursor(contacts: seq<Contact>, rows: seq<(string, string)>, start: nat, k: nat) returns (i: nat)
    requires start <= |contacts| && k < |rows| && SortedByUid(rows)
    requires Passed(ListedUids(DataOf(contacts)), rows, start, k)
    ensures start <= i <= |contacts| && Passed(ListedUids(DataOf(contacts)), rows, i, k)
    ensures i < |contacts| ==> StrCmp(rows[k].0, contacts[i].uid) <= 0
  {
    i := start;
    while i < |contacts| && StrCmp(rows[k].0, contacts[i].uid) > 0
      invariant start <= i <= |contacts| && Passed(ListedUids(DataOf(contacts)), rows, i, k)
    {
      MoveCursor(ListedUids(DataOf(contacts)), rows, i, k);
      i := i + 1;
    }
  }

  method AppendMasterUid(contacts: seq<Contact>, i: nat, masterUid: string)
    requires i < |contacts| && forall a, b :: 0 <= a < b < |contacts| ==> contacts[a] != contacts[b]
    modifies contacts[i]
    ensures DataOf(contacts) == old(DataOf(contacts))
      [i := old(contacts[i].Data()).(masterUids := old(contacts[i].masterUids) + [masterUid])]
  {
    ghost var before := DataOf(contacts);
    contacts[i].masterUids := contacts[i].masterUids + [masterUid];
    OneChanged(contacts, before, i);
  }

  method InsertVariant(contacts: seq<Contact>, i: nat, variant: string)
    requires i < |contacts| && forall a, b :: 0 <= a < b < |contacts| ==> contacts[a] != contacts[b]
    modifies contacts[i]
    ensures DataOf(contacts) == old(DataOf(contacts))
      [i := old(contacts[i].Data()).(variants := old(contacts[i].variants) + {variant})]
  {
    ghost var before := DataOf(contacts);
    contacts[i].variants := contacts[i].variants + {variant};
    OneChanged(contacts, before, i);
  }

  /** The pass over the `master_uids` cursor. `i` is the cursor into the contacts; the pointer is
      NULL when `i` is the length. Orphan rows find no contact and are skipped. */
  method JoinMasterUids(contacts: seq<Contact>, rows: seq<(string, string)>)
    requires Ascending(ListedUids(DataOf(contacts))) && SortedByUid(rows)
    modifies contacts
    ensures DataOf(contacts) == WithMasters(old(DataOf(contacts)), rows)
  {
    ghost var ds := DataOf(contacts);
    DistinctObjects(contacts);
    NoRowsYet(ds, rows);
    var i, k := 0, 0;
    while k < |rows|
      invariant 0 <= i <= |contacts| && 0 <= k <= |rows|
      invariant Passed(ListedUids(ds), rows, i, k)
      invariant DataOf(contacts) == WithMasters(ds, rows[..k])
    {
      SameUids(contacts, ds, rows[..k]);
      i := AdvanceCursor(contacts, rows, i, k);
      OneMoreRow(ds, rows, i, k);
      if i < |contacts| && StrCmp(rows[k].0, contacts[i].uid) == 0 {
        AppendMasterUid(contacts, i, rows[k].1);
      }
      PassedNext(ListedUids(ds), rows, i, k);
      k := k + 1;
    }
    assert rows[..k] == rows;
  }

  /** The same pass over the `variants` cursor. */
  method JoinVariants(contacts: seq<Contact>, rows: seq<(string, string)>)
    requires Ascending(ListedUids(DataOf(contacts))) && SortedByUid(rows)
    modifies contacts
    ensures DataOf(contacts) == WithVariants(old(DataOf(contacts)), rows)
  {
    ghost var ds := DataOf(contacts);
    DistinctObjects(contacts);
    NoRowsYet(ds, rows);
    var i, k := 0, 0;
    while k < |rows|
      invariant 0 <= i <= |contacts| && 0 <= k <= |rows|
      invariant Passed(ListedUids(ds), rows, i, k)
      invariant DataOf(contacts) == WithVariants(ds, rows[..k])
    {
      SameUids(contacts, ds, rows[..k]);
      i := AdvanceCursor(contacts, rows, i, k);
      OneMoreRow(ds, rows, i, k);
      if i < |contacts| && StrCmp(rows[k].0, contacts[i].uid) == 0 {
        InsertVariant(contacts, i, rows[k].1);
      }
      PassedNext(ListedUids(ds), rows, i, k);
      k := k + 1;
    }
    assert rows[..k] == rows;
  }

  lemma DistinctObjects(contacts: seq<Contact>)
    requires Ascending(ListedUids(DataOf(contacts)))
    ensures forall i, j :: 0 <= i < j < |contacts| ==> contacts[i] != contacts[j]
  {
    forall i, j | 0 <= i < j < |contacts| ensures contacts[i] != contacts[j] {
      var uids := ListedUids(DataOf(contacts));
      assert Before(uids[i], uids[j]);
      StrCmpAntisymmetric(uids[i], uids[j]);
    }
  }

  lemma NoRowsYet(ds: seq<ContactData>, rows: seq<(string, string)>)
    ensures WithMasters(ds, rows[..0]) == ds && WithVariants(ds, rows[..0]) == ds
    ensures Passed(ListedUids(ds), rows, 0, 0)
  {
    assert forall uid :: Select(rows[..0], uid) == [];
    forall j | 0 <= j < |ds| ensures ds[j].masterUids + [] == ds[j].masterUids && ds[j].variants + ToSet([]) == ds[j].variants {}
  }

  lemma SameUids(contacts: seq<Contact>, ds: seq<ContactData>, rows: seq<(string, string)>)
    requires DataOf(contacts) == WithMasters(ds, rows) || DataOf(contacts) == WithVariants(ds, rows)
    ensures |contacts| == |ds|
    ensures forall j :: 0 <= j < |contacts| ==> contacts[j].uid == ds[j].uid
    ensures ListedUids(DataOf(contacts)) == ListedUids(ds)
  {
    forall j | 0 <= j < |contacts| ensures contacts[j].uid == DataOf(contacts)[j].uid {}
  }

  lemma PassedNext(uids: seq<string>, rows: seq<(string, string)>, i: nat, k: nat)
    requires Passed(uids, rows, i, k)
    ensures Passed(uids, rows, i, k + 1)
  {}

  /** What the cache returns for one row: its record, with the master UIDs in cursor order. */
  function Fetched(row: ContactRow, masterRows: seq<(string, string)>, variantRows: seq<(string, string)>): ContactData {
    RowContact(row).(masterUids := Select(masterRows, row.0), variants := ToSet(Select(variantRows, row.0)))
  }

  /** Every contact of the cache with exactly its own master UIDs and variants. */
  method FetchContacts(t: Tables, contactRows: seq<ContactRow>, masterRows: seq<(string, string)>,
                       variantRows: seq<(string, string)>)
    returns (contacts: seq<Contact>)
    requires ContactListing(contactRows, t.contacts)
    requires ChildListing(masterRows, t.masterUids) && ChildListing(variantRows, t.variants)
    ensures fresh(contacts)
    ensures DataOf(contacts) == FetchedAll(contactRows, masterRows, variantRows)
  {
    contacts := [];
    var k := 0;
    while k < |contactRows|
      invariant 0 <= k <= |contactRows|
      invariant fresh(contacts)
      invariant DataOf(contacts) == RowContacts(contactRows[..k])
    {
      var contact := new Contact(RowContact(contactRows[k]));
      contacts := contacts + [contact];
      assert DataOf(contacts) == RowContacts(contactRows[..k]) + [RowContact(contactRows[k])];
      k := k + 1;
    }
    assert contactRows[..k] == contactRows;
    ghost var ds := RowContacts(contactRows);
    hide Select, RowContact, StrCmp;
    assert Ascending(ListedUids(ds)) by { RowUids(contactRows); }
    JoinMasterUids(contacts, masterRows);
    assert ListedUids(DataOf(contacts)) == ListedUids(ds);
    JoinVariants(contacts, variantRows);
    JoinedAll(contactRows, masterRows, variantRows);
  }

  function RowContacts(rows: seq<ContactRow>): seq<ContactData> {
    seq(|rows|, i requires 0 <= i < |rows| => RowContact(rows[i]))
  }

  function FetchedAll(contactRows: seq<ContactRow>, masterRows: seq<(string, string)>, variantRows: seq<(string, string)>)
    : (ds: seq<ContactData>)
    ensures |ds| == |contactRows|
  {
    seq(|contactRows|, i requires 0 <= i < |contactRows| => Fetched(contactRows[i], masterRows, variantRows))
  }

  lemma RowUids(rows: seq<ContactRow>)
    requires forall i, j :: 0 <= i < j < |rows| ==> Before(rows[i].0, rows[j].0)
    ensures Ascending(ListedUids(RowContacts(rows)))
  {
    var uids := ListedUids(RowContacts(rows));
    forall i | 0 <= i < |rows| ensures uids[i] == rows[i].0 {}
  }

  lemma JoinedAll(contactRows: seq<ContactRow>, masterRows: seq<(string, string)>, variantRows: seq<(string, string)>)
    ensures WithVariants(WithMasters(RowContacts(contactRows), masterRows), variantRows)
         == FetchedAll(contactRows, masterRows, variantRows)
  {
    var all := WithVariants(WithMasters(RowContacts(contactRows), masterRows), variantRows);
    forall i | 0 <= i < |contactRows| ensures all[i] == Fetched(contactRows[i], masterRows, variantRows) {
      var uid := contactRows[i].0;
      assert [] + Select(masterRows, uid) == Select(masterRows, uid);
      assert {} + ToSet(Select(variantRows, uid)) == ToSet(Select(variantRows, uid));
    }
  }

  /** The forward-only join is the relational one: each fetched contact is its record, its master
      UIDs without duplicates, and every record is fetched exactly once. */
  lemma FetchedIsRecord(t: Tables, contactRows: seq<ContactRow>, masterRows: seq<(string, string)>,
                        variantRows: seq<(string, string)>, i: nat)
    requires ContactListing(contactRows, t.contacts)
    requires ChildListing(masterRows, t.masterUids) && ChildListing(variantRows, t.variants)
    requires i < |contactRows|
    ensures var d := Fetched(contactRows[i], masterRows, variantRows);
      && d.name.Some? && d.uid in t.contacts && RecordOf(d) == Records(t)[d.uid]
      && NoDuplicates(d.masterUids)
      && forall j :: 0 <= j < |contactRows| && j != i ==> Fetched(contactRows[j], masterRows, variantRows).uid != d.uid
  {
    var uid := contactRows[i].0;
    SelectSet(masterRows, uid);
    SelectSet(variantRows, uid);
    SelectDistinct(masterRows, uid);
    forall j | 0 <= j < |contactRows| && j != i ensures contactRows[j].0 != uid {
      StrCmpAntisymmetric(contactRows[if i < j then i else j].0, contactRows[if i < j then j else i].0);
    }
  }
}
