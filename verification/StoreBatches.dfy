/** Batches of updates and deletions as one step on the tables: with one contact per uid the order
    in which a hash table yields them does not matter. */
module StoreBatches {
  import opened Text
  import opened ContactValues
  import opened Store

  /** The pairs of `pairs` whose contact is not among `uids`. */
  function Others(pairs: set<(string, string)>, uids: set<string>): (others: set<(string, string)>)
    ensures forall p :: p in others <==> p in pairs && p.0 !in uids
  {
    set p | p in pairs && p.0 !in uids
  }

  function MasterPairs(ds: map<string, ContactData>): (pairs: set<(string, string)>)
    ensures forall p :: p in pairs <==> p.0 in ds && p.1 in ds[p.0].masterUids
  {
    set u, m | u in ds && m in ds[u].masterUids :: (u, m)
  }

  function VariantPairs(ds: map<string, ContactData>): (pairs: set<(string, string)>)
    ensures forall p :: p in pairs <==> p.0 in ds && p.1 in ds[p.0].variants
  {
    set u, v | u in ds && v in ds[u].variants :: (u, v)
  }

  /** Every contact that has a row has a name to write into it. */
  predicate Storable(t: Tables, ds: map<string, ContactData>) {
    forall u :: u in ds && u in t.contacts ==> ds[u].name.Some?
  }

  /** All the updates of a batch that holds one contact per uid. */
  function UpdateMany(t: Tables, ds: map<string, ContactData>): Option<Tables> {
    if !Storable(t, ds) then None
    else Some(Tables(
      map u | u in t.contacts :: if u in ds then RowOf(ds[u]) else t.contacts[u],
      Others(t.masterUids, ds.Keys) + MasterPairs(ds),
      Others(t.variants, ds.Keys) + VariantPairs(ds)))
  }

  function DeleteMany(t: Tables, uids: set<string>): Tables {
    Tables(t.contacts - uids, Others(t.masterUids, uids), Others(t.variants, uids))
  }

  /** The contacts of a list by uid. */
  function ByUid(ds: seq<ContactData>): (m: map<string, ContactData>)
    ensures forall u :: u in m <==> exists i :: 0 <= i < |ds| && ds[i].uid == u
  {
    if ds == [] then map[]
    else
      assert ds == [ds[0]] + ds[1..];
      ByUid(ds[1..])[ds[0].uid := ds[0]]
  }

  predicate DistinctUids(ds: seq<ContactData>) {
    forall i, j :: 0 <= i < j < |ds| ==> ds[i].uid != ds[j].uid
  }

  lemma {:induction false} ByUidHolds(ds: seq<ContactData>, i: nat)
    requires DistinctUids(ds) && i < |ds|
    ensures ByUid(ds)[ds[i].uid] == ds[i]
  {
    if i > 0 {
      assert ds[1..][i - 1] == ds[i] && ds[0].uid != ds[i].uid;
      ByUidHolds(ds[1..], i - 1);
    }
  }

  /** Updating one contact and then the rest is updating them all. */
  lemma UpdateOneMore(t: Tables, d: ContactData, rest: map<string, ContactData>)
    requires d.uid !in rest
    ensures UpdateMany(t, rest[d.uid := d])
         == match RealUpdate(t, d) case None => None case Some(t') => UpdateMany(t', rest)
  {
    var all := rest[d.uid := d];
    if RealUpdate(t, d).Some? {
      var t' := RealUpdate(t, d).value;
      assert t'.contacts.Keys == t.contacts.Keys;
      assert Storable(t, all) <==> Storable(t', rest) by {
        assert forall u :: u in rest ==> u in all && all[u] == rest[u];
      }
      if Storable(t', rest) {
        assert UpdateMany(t, all).value.contacts == UpdateMany(t', rest).value.contacts;
        assert UpdateMany(t, all).value.masterUids == UpdateMany(t', rest).value.masterUids;
        assert UpdateMany(t, all).value.variants == UpdateMany(t', rest).value.variants;
      }
    } else {
      assert d.uid in all && all[d.uid] == d;
    }
  }

  /** The batch operation does not depend on the order of the batch. */
  lemma {:induction false} UpdateAllIsMany(t: Tables, ds: seq<ContactData>)
    requires DistinctUids(ds)
    ensures UpdateAll(t, ds) == UpdateMany(t, ByUid(ds))
    decreases |ds|
  {
    if ds == [] {
      UpdateNone(t);
    } else {
      assert ds == [ds[0]] + ds[1..];
      assert forall i :: 0 <= i < |ds[1..]| ==> ds[1..][i] == ds[i + 1];
      UpdateOneMore(t, ds[0], ByUid(ds[1..]));
      if RealUpdate(t, ds[0]).Some? { UpdateAllIsMany(RealUpdate(t, ds[0]).value, ds[1..]); }
    }
  }

  lemma UpdateNone(t: Tables)
    ensures UpdateMany(t, map[]) == Some(t)
  {
    var none: map<string, ContactData> := map[];
    assert UpdateMany(t, none).value.contacts == t.contacts;
    assert Others(t.masterUids, none.Keys) + MasterPairs(none) == t.masterUids;
    assert Others(t.variants, none.Keys) + VariantPairs(none) == t.variants;
  }

  lemma {:induction false} DeleteAllIsMany(t: Tables, uids: seq<string>)
    ensures DeleteAll(t, uids) == DeleteMany(t, ToSet(uids))
    decreases |uids|
  {
    if uids == [] {
      assert DeleteMany(t, {}) == t;
    } else {
      DeleteAllIsMany(RealDelete(t, uids[0]), uids[1..]);
      assert ToSet(uids) == {uids[0]} + ToSet(uids[1..]) by { assert uids == [uids[0]] + uids[1..]; }
      assert DeleteMany(t, ToSet(uids)) == DeleteMany(RealDelete(t, uids[0]), ToSet(uids[1..]));
    }
  }

  /** What a batch of updates does to the records: those of the batch that have a row are replaced. */
  lemma UpdateManyStores(t: Tables, ds: map<string, ContactData>)
    requires UpdateMany(t, ds).Some?
    ensures var t' := UpdateMany(t, ds).value;
      && t'.contacts.Keys == t.contacts.Keys
      && (forall u :: u in t.contacts ==> Records(t')[u] == if u in ds then RecordOf(ds[u]) else Records(t)[u])
      && (NoOrphans(t) && ds.Keys <= t.contacts.Keys ==> NoOrphans(t'))
  {
    var t' := UpdateMany(t, ds).value;
    forall u | u in t.contacts ensures Records(t')[u] == if u in ds then RecordOf(ds[u]) else Records(t)[u] {
      if u in ds {
        assert ValuesOf(t'.masterUids, u) == ToSet(ds[u].masterUids);
        assert ValuesOf(t'.variants, u) == ds[u].variants;
      } else {
        assert ValuesOf(t'.masterUids, u) == ValuesOf(t.masterUids, u);
        assert ValuesOf(t'.variants, u) == ValuesOf(t.variants, u);
      }
    }
  }

  lemma DeleteManyStores(t: Tables, uids: set<string>)
    ensures Records(DeleteMany(t, uids)) == Records(t) - uids
    ensures NoOrphans(t) ==> NoOrphans(DeleteMany(t, uids))
  {
    var t' := DeleteMany(t, uids);
    forall u | u in t'.contacts ensures Records(t')[u] == Records(t)[u] {
      assert ValuesOf(t'.masterUids, u) == ValuesOf(t.masterUids, u);
      assert ValuesOf(t'.variants, u) == ValuesOf(t.variants, u);
    }
  }

  /** With no orphans the records are all there is to the tables. */
  lemma RecordsDetermine(t: Tables, t': Tables)
    requires NoOrphans(t) && NoOrphans(t') && Records(t) == Records(t')
    ensures t == t'
  {
    assert t.contacts.Keys == Records(t).Keys == Records(t').Keys == t'.contacts.Keys;
    forall u | u in t.contacts
      ensures t.contacts[u] == t'.contacts[u]
      ensures ValuesOf(t.masterUids, u) == ValuesOf(t'.masterUids, u)
      ensures ValuesOf(t.variants, u) == ValuesOf(t'.variants, u)
    {
      assert Records(t)[u] == Records(t')[u];
    }
    forall p ensures p in t.masterUids <==> p in t'.masterUids {
      if p in t.masterUids || p in t'.masterUids { SamePairs(t.masterUids, t'.masterUids, p); }
    }
    forall p ensures p in t.variants <==> p in t'.variants {
      if p in t.variants || p in t'.variants { SamePairs(t.variants, t'.variants, p); }
    }
  }

  lemma SamePairs(a: set<(string, string)>, b: set<(string, string)>, p: (string, string))
    requires ValuesOf(a, p.0) == ValuesOf(b, p.0)
    ensures p in a <==> p in b
  {
    assert p == (p.0, p.1);
    assert p.1 in ValuesOf(a, p.0) <==> p.1 in ValuesOf(b, p.0);
  }
}
