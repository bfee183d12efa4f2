/** What the answers of a handle inspection make of the contacts in the table. */
module Inspections {
  import opened Text
  import opened Flags
  import opened ContactValues
  import opened Contacts

  /** What an inspection tells about a handle. */
  datatype TpContact = TpContact(handle: nat, identifier: string, alias: string, genericStatus: string,
    status: string, statusMessage: string, avatarToken: Option<string>)

  function HandlesOf(tpContacts: seq<TpContact>): set<nat> {
    set t | t in tpContacts :: t.handle
  }

  /** What was told last about a handle. */
  function Latest(ts: seq<TpContact>, handle: nat): Option<TpContact>
    decreases |ts|
  {
    if ts == [] then None
    else if ts[|ts| - 1].handle == handle then Some(ts[|ts| - 1])
    else Latest(ts[..|ts| - 1], handle)
  }

  /** The name the contact had, and every identifier told about its handle. */
  function Names(before: ContactData, ts: seq<TpContact>, handle: nat): set<string> {
    (if before.name.Some? then {before.name.value} else {}) + (set t | t in ts && t.handle == handle :: t.identifier)
  }

  /** The fields an inspection sets, and no others: a name that was replaced becomes a variant, which is
      to be saved. */
  predicate Told(before: ContactData, t: TpContact, after: ContactData) {
    var renamed := before.name.Some? && before.name.value != t.identifier;
    && after.name == Some(t.identifier) && after.alias == Some(t.alias) && after.genericStatus == t.genericStatus
    && after.status == Some(t.status) && after.statusMessage == Some(t.statusMessage) && after.avatarToken == t.avatarToken
    && after.variants == before.variants + (if renamed then {before.name.value} else {})
    && after.pendingFlags == before.pendingFlags + (if renamed then {SCHEDULE_UPDATE_VARIANTS} else {})
    && SameOthers(before, after)
  }

  predicate SameOthers(before: ContactData, after: ContactData) {
    && after.handle == before.handle && after.flags == before.flags && after.uid == before.uid
    && after.masterUids == before.masterUids && after.capabilities == before.capabilities
    && after.contactInfo == before.contactInfo
  }

  /** A contact after the answers about its handle, the last of which was `t`, out of all the names it had.
      None of the names gets lost. */
  ghost predicate AsTold(before: ContactData, t: TpContact, names: set<string>, after: ContactData) {
    && after.name == Some(t.identifier) && after.alias == Some(t.alias) && after.genericStatus == t.genericStatus
    && after.status == Some(t.status) && after.statusMessage == Some(t.statusMessage) && after.avatarToken == t.avatarToken
    && before.variants <= after.variants && after.variants + {t.identifier} == before.variants + names
    && (SCHEDULE_UPDATE_VARIANTS in after.pendingFlags <==>
          SCHEDULE_UPDATE_VARIANTS in before.pendingFlags || names != {t.identifier})
    && (forall f :: f != SCHEDULE_UPDATE_VARIANTS ==> (f in after.pendingFlags <==> f in before.pendingFlags))
    && SameOthers(before, after)
  }

  /** The contact of a handle after a list of answers: as the last one about it says, or as it was if there
      is none. */
  ghost predicate Detailed(before: ContactData, ts: seq<TpContact>, handle: nat, after: ContactData) {
    match Latest(ts, handle)
    case None => after == before
    case Some(t) => AsTold(before, t, Names(before, ts, handle), after)
  }

  lemma {:induction false} LatestIsThere(ts: seq<TpContact>, handle: nat)
    ensures Latest(ts, handle).Some? <==> handle in HandlesOf(ts)
    ensures Latest(ts, handle).Some? ==> Latest(ts, handle).value in ts && Latest(ts, handle).value.handle == handle
    decreases |ts|
  {
    if ts != [] {
      assert ts == ts[..|ts| - 1] + [ts[|ts| - 1]];
      LatestIsThere(ts[..|ts| - 1], handle);
    }
  }

  lemma LatestMore(ts: seq<TpContact>, t: TpContact, handle: nat)
    ensures Latest(ts + [t], handle) == if t.handle == handle then Some(t) else Latest(ts, handle)
  {
    assert (ts + [t])[..|ts|] == ts;
  }

  lemma NamesMore(before: ContactData, ts: seq<TpContact>, t: TpContact, handle: nat)
    ensures Names(before, ts + [t], handle) == Names(before, ts, handle) + (if t.handle == handle then {t.identifier} else {})
  {}

  lemma NothingDetailed(d: ContactData, handle: nat)
    ensures Detailed(d, [], handle, d)
  {}

  /** Nobody else's answer matters. */
  lemma DetailedElsewhere(before: ContactData, ts: seq<TpContact>, t: TpContact, handle: nat, after: ContactData)
    requires Detailed(before, ts, handle, after) && t.handle != handle
    ensures Detailed(before, ts + [t], handle, after)
  {
    LatestMore(ts, t, handle);
    NamesMore(before, ts, t, handle);
    hide Names, Latest, SameOthers;
  }

  lemma NamesSoFar(before: ContactData, ts: seq<TpContact>, handle: nat, mid: ContactData)
    requires Detailed(before, ts, handle, mid)
    ensures before.variants <= mid.variants && SameOthers(before, mid)
    ensures mid.name.Some? <==> Names(before, ts, handle) != {}
    ensures mid.name.Some? ==>
      && mid.name.value in Names(before, ts, handle)
      && mid.variants + {mid.name.value} == before.variants + Names(before, ts, handle)
    ensures mid.name.None? ==> mid.variants == before.variants
    ensures SCHEDULE_UPDATE_VARIANTS in mid.pendingFlags <==>
      SCHEDULE_UPDATE_VARIANTS in before.pendingFlags || (mid.name.Some? && Names(before, ts, handle) != {mid.name.value})
    ensures forall f :: f != SCHEDULE_UPDATE_VARIANTS ==> (f in mid.pendingFlags <==> f in before.pendingFlags)
  {
    LatestIsThere(ts, handle);
    if Latest(ts, handle).None? {
      assert forall t :: t in ts ==> t.handle != handle by {
        forall t | t in ts ensures t.handle != handle { assert t.handle in HandlesOf(ts); }
      }
    } else {
      assert Latest(ts, handle).value.identifier in Names(before, ts, handle);
    }
    hide Latest, HandlesOf;
  }

  lemma DetailedMore(before: ContactData, ts: seq<TpContact>, t: TpContact, mid: ContactData, after: ContactData)
    requires Detailed(before, ts, t.handle, mid) && Told(mid, t, after)
    ensures Detailed(before, ts + [t], t.handle, after)
  {
    NamesSoFar(before, ts, t.handle, mid);
    LatestMore(ts, t, t.handle);
    NamesMore(before, ts, t, t.handle);
    var names := Names(before, ts, t.handle);
    assert names == {} ==> names + {t.identifier} == {t.identifier};
    hide Names, Latest;
  }

  /** The contacts the table has for a list of answers, in the order of the answers. */
  function Found(table: map<nat, Contact>, ts: seq<TpContact>): seq<Contact>
    decreases |ts|
  {
    if ts == [] then []
    else
      var t := ts[|ts| - 1];
      Found(table, ts[..|ts| - 1]) + (if t.handle in table then [table[t.handle]] else [])
  }

  lemma FoundMore(table: map<nat, Contact>, ts: seq<TpContact>, i: nat)
    requires i < |ts|
    ensures Found(table, ts[..i + 1]) ==
      Found(table, ts[..i]) + if ts[i].handle in table then [table[ts[i].handle]] else []
  {
    assert ts[..i + 1][..i] == ts[..i];
  }

  /** They are the contacts under the handles that were inspected. */
  lemma {:induction false} FoundMembers(table: map<nat, Contact>, ts: seq<TpContact>, c: Contact)
    ensures c in Found(table, ts) <==> exists t :: t in ts && t.handle in table && table[t.handle] == c
    decreases |ts|
  {
    if ts != [] {
      var t := ts[|ts| - 1];
      assert ts == ts[..|ts| - 1] + [t] && t in ts;
      FoundMembers(table, ts[..|ts| - 1], c);
      assert forall x :: x in ts[..|ts| - 1] ==> x in ts;
    }
  }
}
