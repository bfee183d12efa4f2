/** The three tables of the contact cache and what each statement and operation of
    e-book-backend-tp-db.c does to them. */
module Store {
  import opened Text
  import opened Flags
  import opened ContactValues

  /** A row of `contacts`, without its key. */
  datatype Row = Row(
    name: string,
    alias: Option<string>,
    avatarToken: Option<string>,
    flags: FlagWord,
    pendingFlags: FlagWord,
    contactInfo: Option<Card>)

  /** The tables; the child tables hold (contact_uid, value) pairs. */
  datatype Tables = Tables(
    contacts: map<string, Row>,
    masterUids: set<(string, string)>,
    variants: set<(string, string)>)

  function RowOf(d: ContactData): Row
    requires d.name.Some?
  {
    Row(d.name.value, d.alias, d.avatarToken, d.flags, d.pendingFlags, d.contactInfo)
  }

  /** The rows of a child table for one contact. */
  function PairsOf(uid: string, values: set<string>): (pairs: set<(string, string)>)
    ensures forall p :: p in pairs <==> p.0 == uid && p.1 in values
  {
    set v | v in values :: (uid, v)
  }

  /** `DELETE ... WHERE contact_uid = :uid` on a child table. */
  function WithoutUid(pairs: set<(string, string)>, uid: string): set<(string, string)> {
    set p | p in pairs && p.0 != uid
  }

  function ValuesOf(pairs: set<(string, string)>, uid: string): (values: set<string>)
    ensures forall v :: v in values <==> (uid, v) in pairs
  {
    set p | p in pairs && p.0 == uid :: p.1
  }

  /** `real_add_contact`: fails on a second row for a uid and on a missing name. Child rows that are
      already there are ignored, so rows left over from an older contact stay. */
  function RealAdd(t: Tables, d: ContactData): Option<Tables> {
    if d.uid in t.contacts || d.name.None? then None
    else Some(Tables(t.contacts[d.uid := RowOf(d)],
                     t.masterUids + PairsOf(d.uid, ToSet(d.masterUids)),
                     t.variants + PairsOf(d.uid, d.variants)))
  }

  /** `real_update_contact`: UPDATE touches no row when there is none, yet the child rows are
      replaced all the same. */
  function RealUpdate(t: Tables, d: ContactData): Option<Tables> {
    if d.uid in t.contacts && d.name.None? then None
    else Some(Tables(if d.uid in t.contacts then t.contacts[d.uid := RowOf(d)] else t.contacts,
                     WithoutUid(t.masterUids, d.uid) + PairsOf(d.uid, ToSet(d.masterUids)),
                     WithoutUid(t.variants, d.uid) + PairsOf(d.uid, d.variants)))
  }

  /** `real_delete_contact`. */
  function RealDelete(t: Tables, uid: string): Tables {
    Tables(t.contacts - {uid}, WithoutUid(t.masterUids, uid), WithoutUid(t.variants, uid))
  }

  function AddAll(t: Tables, ds: seq<ContactData>): Option<Tables>
    decreases |ds|
  {
    if ds == [] then Some(t)
    else match RealAdd(t, ds[0])
      case None => None
      case Some(t') => AddAll(t', ds[1..])
  }

  function UpdateAll(t: Tables, ds: seq<ContactData>): Option<Tables>
    decreases |ds|
  {
    if ds == [] then Some(t)
    else match RealUpdate(t, ds[0])
      case None => None
      case Some(t') => UpdateAll(t', ds[1..])
  }

  function DeleteAll(t: Tables, uids: seq<string>): Tables
    decreases |uids|
  {
    if uids == [] then t else DeleteAll(RealDelete(t, uids[0]), uids[1..])
  }

  // ---- The map from uid to record that the tables stand for ----

  /** What survives of a contact in the cache. */
  datatype Record = Record(row: Row, masterUids: set<string>, variants: set<string>)

  function RecordOf(d: ContactData): Record
    requires d.name.Some?
  {
    Record(RowOf(d), ToSet(d.masterUids), d.variants)
  }

  function Records(t: Tables): map<string, Record> {
    map u | u in t.contacts :: Record(t.contacts[u], ValuesOf(t.masterUids, u), ValuesOf(t.variants, u))
  }

  predicate NoOrphans(t: Tables) {
    && (forall p :: p in t.masterUids ==> p.0 in t.contacts)
    && (forall p :: p in t.variants ==> p.0 in t.contacts)
  }

  /** Adding stores the record; it is the contact's own record exactly when the child rows left over
      for that uid are among the contact's. Other uids are untouched. */
  lemma AddStores(t: Tables, d: ContactData)
    requires RealAdd(t, d).Some?
    ensures var t' := RealAdd(t, d).value;
      && Records(t') == Records(t)[d.uid := Record(RowOf(d), ToSet(d.masterUids) + ValuesOf(t.masterUids, d.uid),
                                                   d.variants + ValuesOf(t.variants, d.uid))]
      && (Records(t')[d.uid] == RecordOf(d) <==>
            ValuesOf(t.masterUids, d.uid) <= ToSet(d.masterUids) && ValuesOf(t.variants, d.uid) <= d.variants)
      && (NoOrphans(t) ==> NoOrphans(t') && Records(t')[d.uid] == RecordOf(d))
  {
    var t' := RealAdd(t, d).value;
    var left, left' := ValuesOf(t.masterUids, d.uid), ValuesOf(t.variants, d.uid);
    AddRecords(t, d);
    assert NoOrphans(t) ==> left == {} && left' == {};
    assert NoOrphans(t) ==> NoOrphans(t');
    hide RealAdd, Records, ValuesOf, NoOrphans, ToSet;
    if left <= ToSet(d.masterUids) && left' <= d.variants {
      assert ToSet(d.masterUids) + left == ToSet(d.masterUids) && d.variants + left' == d.variants;
    }
  }

  lemma AddRecords(t: Tables, d: ContactData)
    requires RealAdd(t, d).Some?
    ensures Records(RealAdd(t, d).value)
         == Records(t)[d.uid := Record(RowOf(d), ToSet(d.masterUids) + ValuesOf(t.masterUids, d.uid),
                                       d.variants + ValuesOf(t.variants, d.uid))]
  {
    var t' := RealAdd(t, d).value;
    assert ValuesOf(t'.masterUids, d.uid) == ToSet(d.masterUids) + ValuesOf(t.masterUids, d.uid);
    assert ValuesOf(t'.variants, d.uid) == d.variants + ValuesOf(t.variants, d.uid);
    forall u | u in t.contacts ensures Records(t')[u] == Records(t)[u] {
      assert ValuesOf(t'.masterUids, u) == ValuesOf(t.masterUids, u);
      assert ValuesOf(t'.variants, u) == ValuesOf(t.variants, u);
    }
  }

  /** Updating replaces the record of a known uid and leaves the map alone for an unknown one, where
      it leaves orphans behind exactly when the contact has master UIDs or variants. */
  lemma UpdateStores(t: Tables, d: ContactData)
    requires RealUpdate(t, d).Some?
    ensures var t' := RealUpdate(t, d).value;
      && Records(t') == (if d.uid in t.contacts then Records(t)[d.uid := RecordOf(d)] else Records(t))
      && ValuesOf(t'.masterUids, d.uid) == ToSet(d.masterUids) && ValuesOf(t'.variants, d.uid) == d.variants
      && (NoOrphans(t) ==> (NoOrphans(t') <==> d.uid in t.contacts || (d.masterUids == [] && d.variants == {})))
  {
    var t' := RealUpdate(t, d).value;
    assert ValuesOf(t'.masterUids, d.uid) == ToSet(d.masterUids);
    assert ValuesOf(t'.variants, d.uid) == d.variants;
    forall u | u in t.contacts && u != d.uid ensures Records(t')[u] == Records(t)[u] {
      assert ValuesOf(t'.masterUids, u) == ValuesOf(t.masterUids, u);
      assert ValuesOf(t'.variants, u) == ValuesOf(t.variants, u);
    }
    if d.uid !in t.contacts {
      if d.masterUids != [] { assert (d.uid, d.masterUids[0]) in t'.masterUids; }
      if v :| v in d.variants { assert (d.uid, v) in t'.variants; }
    }
  }

  /** Deleting clears the uid in all three tables and nothing else. */
  lemma DeleteStores(t: Tables, uid: string)
    ensures var t' := RealDelete(t, uid);
      && Records(t') == Records(t) - {uid}
      && ValuesOf(t'.masterUids, uid) == {} && ValuesOf(t'.variants, uid) == {}
      && (NoOrphans(t) ==> NoOrphans(t'))
  {
    var t' := RealDelete(t, uid);
    forall u | u in t'.contacts ensures Records(t')[u] == Records(t)[u] {
      assert ValuesOf(t'.masterUids, u) == ValuesOf(t.masterUids, u);
      assert ValuesOf(t'.variants, u) == ValuesOf(t.variants, u);
    }
  }

  /** So a contact written after its row was deleted hands its master UIDs to the next contact that
      gets the same uid. */
  lemma OrphansRevive(t: Tables, dead: ContactData, next: ContactData)
    requires dead.uid == next.uid && next.name.Some? && dead.name.Some?
    ensures var t' := RealAdd(RealUpdate(RealDelete(t, dead.uid), dead).value, next).value;
      Records(t')[next.uid].masterUids == ToSet(next.masterUids) + ToSet(dead.masterUids)
  {
    var t1 := RealDelete(t, dead.uid);
    UpdateStores(t1, dead);
    AddStores(RealUpdate(t1, dead).value, next);
  }

  lemma {:induction false} AddAllSnoc(t: Tables, ds: seq<ContactData>, d: ContactData)
    ensures AddAll(t, ds + [d]) == match AddAll(t, ds) case None => None case Some(t') => RealAdd(t', d)
    decreases |ds|
  {
    if ds == [] {
      assert ([] + [d])[1..] == [];
    } else {
      assert (ds + [d])[1..] == ds[1..] + [d];
      if RealAdd(t, ds[0]).Some? { AddAllSnoc(RealAdd(t, ds[0]).value, ds[1..], d); }
    }
  }

  lemma {:induction false} UpdateAllSnoc(t: Tables, ds: seq<ContactData>, d: ContactData)
    ensures UpdateAll(t, ds + [d]) == match UpdateAll(t, ds) case None => None case Some(t') => RealUpdate(t', d)
    decreases |ds|
  {
    if ds == [] {
      assert ([] + [d])[1..] == [];
    } else {
      assert (ds + [d])[1..] == ds[1..] + [d];
      if RealUpdate(t, ds[0]).Some? { UpdateAllSnoc(RealUpdate(t, ds[0]).value, ds[1..], d); }
    }
  }

  lemma {:induction false} DeleteAllSnoc(t: Tables, uids: seq<string>, u: string)
    ensures DeleteAll(t, uids + [u]) == RealDelete(DeleteAll(t, uids), u)
    decreases |uids|
  {
    if uids == [] {
      assert ([] + [u])[1..] == [];
    } else {
      assert (uids + [u])[1..] == uids[1..] + [u];
      DeleteAllSnoc(RealDelete(t, uids[0]), uids[1..], u);
    }
  }
}
