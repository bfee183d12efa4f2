/** Writing a contact as a vCard and reading a submitted vCard into a contact. A vCard is its
    attribute list; `e_vcard_add_attribute` prepends, as the sample card of the README shows. */
module VCards {
  import opened Text
  import opened Flags
  import opened ContactValues

  const MASTER_UID := "X-OSSO-MASTER-UID"
  const SUBSCRIBED := "X-TELEPATHY-SUBSCRIBED"
  const PUBLISHED := "X-TELEPATHY-PUBLISHED"
  const BLOCKED := "X-TELEPATHY-BLOCKED"

  const CAP_TEXT: nat := 1
  const CAP_VOICE: nat := 2
  const CAP_VIDEO: nat := 3
  const CAP_IMMUTABLE_STREAMS: nat := 4

  /** What rendering takes from outside the contact: the protocol's vCard field, the protocol name
      and the URI of the avatar file if there is one. */
  datatype CardContext = CardContext(vcardField: string, profile: string, photo: Option<string>)

  function Plain(name: string, value: string): Attribute {
    Attribute(name, [value], map[])
  }

  function Reverse<T>(s: seq<T>): (r: seq<T>)
    ensures |r| == |s|
  {
    seq(|s|, i requires 0 <= i < |s| => s[|s| - 1 - i])
  }

  lemma ReverseConcat<T>(a: seq<T>, b: seq<T>)
    ensures Reverse(a + b) == Reverse(b) + Reverse(a)
  {}

  // ---- Writing ----

  function MembershipText(flags: FlagWord, list: nat): string {
    if list in flags then "yes"
    else if list + 1 in flags then "local-pending"
    else if list + 2 in flags then "remote-pending"
    else "no"
  }

  function NameAttribute(d: ContactData, ctx: CardContext): Attribute {
    var value := if d.name.Some? then d.name.value else "";
    var params := map["TYPE" := {ctx.profile},
                      "X-OSSO-VALID" := {if CONTACT_INVALID in d.flags then "no" else "yes"}];
    Attribute(ctx.vcardField, [value], if d.variants != {} then params["X-OSSO-VARIANTS" := d.variants] else params)
  }

  function NicknameAttributes(d: ContactData): Card {
    if d.alias.Some? && d.alias != d.name then [Plain("NICKNAME", d.alias.value)] else []
  }

  function MasterAttributes(masters: seq<string>): Card {
    seq(|masters|, i requires 0 <= i < |masters| => Plain(MASTER_UID, masters[i]))
  }

  function HandleAttributes(handle: nat): Card {
    if handle != 0 then [Plain("X-TELEPATHY-HANDLE", Decimal(handle))] else []
  }

  function ListAttributes(flags: FlagWord): Card {
    [Plain(SUBSCRIBED, MembershipText(flags, CL_SUBSCRIBE)),
     Plain(PUBLISHED, MembershipText(flags, CL_PUBLISH)),
     Plain(BLOCKED, MembershipText(flags, CL_DENY))]
  }

  function PresenceAttributes(d: ContactData): Card {
    if d.status.None? then []
    else [Attribute("X-TELEPATHY-PRESENCE",
            [d.status.value]
            + (if d.genericStatus != d.status.value then [d.genericStatus] else [])
            + (if d.statusMessage.Some? then [d.statusMessage.value] else []),
            map[])]
  }

  function CapabilityAttributes(caps: FlagWord): Card {
    if caps == {} then []
    else [Attribute("X-TELEPATHY-CAPABILITIES",
            (if CAP_TEXT in caps then ["text"] else [])
            + (if CAP_VOICE in caps then ["voice"] else [])
            + (if CAP_VIDEO in caps then ["video"] else [])
            + (if CAP_IMMUTABLE_STREAMS in caps then ["immutable-streams"] else []),
            map[])]
  }

  function PhotoAttributes(d: ContactData, ctx: CardContext): Card {
    if d.avatarToken.Some? && d.avatarToken.value != "" && ctx.photo.Some?
    then [Attribute("PHOTO", [ctx.photo.value], map["VALUE" := {"URI"}])]
    else []
  }

  function InfoAttributes(d: ContactData): Card {
    if d.contactInfo.Some? then d.contactInfo.value else []
  }

  /** The attributes in the order in which they are added. */
  function AddedAttributes(d: ContactData, ctx: CardContext): Card {
    [Plain("UID", d.uid), NameAttribute(d, ctx)] + NicknameAttributes(d) + MasterAttributes(d.masterUids)
    + HandleAttributes(d.handle) + ListAttributes(d.flags) + PresenceAttributes(d)
    + CapabilityAttributes(d.capabilities) + PhotoAttributes(d, ctx) + InfoAttributes(d)
  }

  /** `e_book_backend_tp_contact_to_econtact`. */
  function ToEContact(d: ContactData, ctx: CardContext): Card {
    Reverse(AddedAttributes(d, ctx))
  }

  /** Whoever the card is for, the two contacts have the same. */
  ghost predicate SameCard(a: ContactData, b: ContactData) {
    a == b || forall ctx :: ToEContact(a, ctx) == ToEContact(b, ctx)
  }

  // ---- Reading ----

  function FirstValue(a: Attribute): string {
    if a.values == [] then "" else a.values[0]
  }

  /** `e_book_backend_tp_contact_update_tp_attribute`. On "no" the pending flags are ANDed with the
      flag itself, not with its complement. */
  function UpdateTpAttribute(d: ContactData, value: string, flag: nat): ContactData {
    if value == "yes" && flag !in d.flags then
      d.(pendingFlags := d.pendingFlags + {flag, SCHEDULE_UPDATE_FLAGS})
    else if value == "no" && flag in d.flags then
      d.(pendingFlags := d.pendingFlags * {flag} + {SCHEDULE_UPDATE_FLAGS})
    else d
  }

  /** The contact and the master UIDs read so far. */
  datatype Reading = Reading(d: ContactData, masters: seq<string>)

  function ReadAttribute(r: Reading, a: Attribute, vcardField: string): Reading {
    if a.name == MASTER_UID then r.(masters := r.masters + [FirstValue(a)])
    else if a.name == vcardField then r.(d := r.d.(name := Some(FirstValue(a))))
    else if a.name == SUBSCRIBED then r.(d := UpdateTpAttribute(r.d, FirstValue(a), CL_SUBSCRIBE))
    else if a.name == PUBLISHED then r.(d := UpdateTpAttribute(r.d, FirstValue(a), CL_PUBLISH))
    else if a.name == BLOCKED then r.(d := UpdateTpAttribute(r.d, FirstValue(a), CL_DENY))
    else r
  }

  function ReadAttributes(r: Reading, card: Card, vcardField: string): Reading
    decreases |card|
  {
    if card == [] then r else ReadAttributes(ReadAttribute(r, card[0], vcardField), card[1..], vcardField)
  }

  /** The contact after all attributes were read, once its master UIDs are compared. */
  function Settled(r: Reading): ContactData {
    if r.masters == r.d.masterUids then r.d
    else r.d.(masterUids := r.masters, pendingFlags := r.d.pendingFlags + {SCHEDULE_UPDATE_MASTER_UID})
  }

  predicate NamedOk(d: ContactData) {
    d.name.Some? && d.name.value != ""
  }

  /** `e_book_backend_tp_contact_update_from_econtact`: the contact, and whether it has a name. */
  function UpdateFromEContact(d: ContactData, card: Card, vcardField: string): (ContactData, bool) {
    var d' := Settled(ReadAttributes(Reading(d.(pendingFlags := d.flags), []), card, vcardField));
    (d', NamedOk(d'))
  }

  // ---- Reading back one's own card ----

  const OWN_NAMES: set<string> :=
    {"UID", "NICKNAME", MASTER_UID, "X-TELEPATHY-HANDLE", SUBSCRIBED, PUBLISHED, BLOCKED, "X-TELEPATHY-PRESENCE",
     "X-TELEPATHY-CAPABILITIES", "PHOTO"}

  function MastersIn(card: Card): seq<string> {
    if card == [] then []
    else (if card[0].name == MASTER_UID then [FirstValue(card[0])] else []) + MastersIn(card[1..])
  }

  /** Reading `a` changes at most the list of master UIDs. */
  ghost predicate Harmless(d: ContactData, a: Attribute, vcardField: string) {
    || a.name == MASTER_UID
    || forall masters: seq<string> :: ReadAttribute(Reading(d, masters), a, vcardField) == Reading(d, masters)
  }

  lemma {:induction false} MastersInConcat(a: Card, b: Card)
    ensures MastersIn(a + b) == MastersIn(a) + MastersIn(b)
  {
    if a == [] {
      assert a + b == b;
    } else {
      assert (a + b)[1..] == a[1..] + b;
      MastersInConcat(a[1..], b);
    }
  }

  lemma {:induction false} MastersInReverse(card: Card)
    ensures MastersIn(Reverse(card)) == Reverse(MastersIn(card))
  {
    if card != [] {
      assert card == [card[0]] + card[1..];
      ReverseConcat([card[0]], card[1..]);
      assert Reverse([card[0]]) == [card[0]];
      MastersInConcat(Reverse(card[1..]), [card[0]]);
      MastersInReverse(card[1..]);
      ReverseConcat(MastersIn([card[0]]), MastersIn(card[1..]));
      assert MastersIn([card[0]]) == Reverse(MastersIn([card[0]]));
    }
  }

  lemma {:induction false} MastersInMasterAttributes(masters: seq<string>)
    ensures MastersIn(MasterAttributes(masters)) == masters
  {
    if masters != [] {
      assert MasterAttributes(masters)[1..] == MasterAttributes(masters[1..]);
      MastersInMasterAttributes(masters[1..]);
    }
  }

  lemma {:induction false} NoMastersIn(card: Card)
    requires forall a :: a in card ==> a.name != MASTER_UID
    ensures MastersIn(card) == []
  {
    if card != [] { NoMastersIn(card[1..]); }
  }

  lemma {:induction false} ReadHarmless(d: ContactData, masters: seq<string>, card: Card, vcardField: string)
    requires forall a :: a in card ==> Harmless(d, a, vcardField)
    ensures ReadAttributes(Reading(d, masters), card, vcardField) == Reading(d, masters + MastersIn(card))
    decreases |card|
  {
    if card == [] {
      assert masters + [] == masters;
    } else {
      var more := if card[0].name == MASTER_UID then [FirstValue(card[0])] else [];
      assert card[0] in card;
      assert ReadAttribute(Reading(d, masters), card[0], vcardField) == Reading(d, masters + more);
      ReadHarmless(d, masters + more, card[1..], vcardField);
      assert masters + more + MastersIn(card[1..]) == masters + (more + MastersIn(card[1..]));
    }
  }

  /** Attributes the reader skips, or reads back as what the contact already has. */
  predicate Skipped(a: Attribute, vcardField: string) {
    a.name != MASTER_UID && a.name != vcardField && a.name != SUBSCRIBED && a.name != PUBLISHED && a.name != BLOCKED
  }

  lemma ListAttributesHarmless(d: ContactData, ctx: CardContext)
    requires ctx.vcardField !in OWN_NAMES
    ensures forall a :: a in ListAttributes(d.flags) ==> Harmless(d, a, ctx.vcardField)
  {
    var l := ListAttributes(d.flags);
    assert l[0].name == SUBSCRIBED && l[1].name == PUBLISHED && l[2].name == BLOCKED;
    assert Harmless(d, l[0], ctx.vcardField) && Harmless(d, l[1], ctx.vcardField) && Harmless(d, l[2], ctx.vcardField);
  }

  lemma NameAttributeHarmless(d: ContactData, ctx: CardContext)
    requires NamedOk(d) && ctx.vcardField !in OWN_NAMES
    ensures Harmless(d, NameAttribute(d, ctx), ctx.vcardField)
  {
    assert d.(name := Some(d.name.value)) == d;
  }

  /** What precedes the master UIDs, and what follows them. */
  function BeforeMasters(d: ContactData, ctx: CardContext): Card {
    [Plain("UID", d.uid), NameAttribute(d, ctx)] + NicknameAttributes(d)
  }

  function AfterMasters(d: ContactData, ctx: CardContext): Card {
    HandleAttributes(d.handle) + ListAttributes(d.flags) + PresenceAttributes(d)
    + CapabilityAttributes(d.capabilities) + PhotoAttributes(d, ctx) + InfoAttributes(d)
  }

  lemma AddedSplit(d: ContactData, ctx: CardContext)
    ensures AddedAttributes(d, ctx) == BeforeMasters(d, ctx) + MasterAttributes(d.masterUids) + AfterMasters(d, ctx)
  {
    hide NameAttribute, NicknameAttributes, MasterAttributes, HandleAttributes, ListAttributes, PresenceAttributes,
      CapabilityAttributes, PhotoAttributes, InfoAttributes, Plain;
  }

  lemma ReverseAfterMasters(d: ContactData, ctx: CardContext)
    ensures Reverse(AfterMasters(d, ctx)) ==
      Reverse(InfoAttributes(d)) + Reverse(PhotoAttributes(d, ctx)) + Reverse(CapabilityAttributes(d.capabilities))
      + Reverse(PresenceAttributes(d)) + Reverse(ListAttributes(d.flags)) + Reverse(HandleAttributes(d.handle))
  {
    hide HandleAttributes, ListAttributes, PresenceAttributes, CapabilityAttributes, PhotoAttributes, InfoAttributes;
    var a, b, c := HandleAttributes(d.handle), ListAttributes(d.flags), PresenceAttributes(d);
    var e, f, g := CapabilityAttributes(d.capabilities), PhotoAttributes(d, ctx), InfoAttributes(d);
    ReverseConcat(a, b);
    ReverseConcat(a + b, c);
    ReverseConcat(a + b + c, e);
    ReverseConcat(a + b + c + e, f);
    ReverseConcat(a + b + c + e + f, g);
  }

  /** A contact's card, one part in front of the other. */
  lemma OwnCardParts(d: ContactData, ctx: CardContext)
    ensures ToEContact(d, ctx) ==
      Reverse(InfoAttributes(d)) + (Reverse(PhotoAttributes(d, ctx)) + (Reverse(CapabilityAttributes(d.capabilities))
      + (Reverse(PresenceAttributes(d)) + (Reverse(ListAttributes(d.flags)) + (Reverse(HandleAttributes(d.handle))
      + (Reverse(MasterAttributes(d.masterUids)) + Reverse(BeforeMasters(d, ctx))))))))
  {
    AddedSplit(d, ctx);
    ReverseAfterMasters(d, ctx);
    hide HandleAttributes, ListAttributes, PresenceAttributes, CapabilityAttributes, PhotoAttributes, InfoAttributes,
      BeforeMasters, MasterAttributes, AfterMasters, AddedAttributes;
    ReverseConcat(BeforeMasters(d, ctx), MasterAttributes(d.masterUids));
    ReverseConcat(BeforeMasters(d, ctx) + MasterAttributes(d.masterUids), AfterMasters(d, ctx));
  }

  /** Of what a contact writes around its master UIDs, only the name and the three list attributes
      are ever read. */
  lemma OwnNamesOnly(d: ContactData, ctx: CardContext)
    requires ctx.vcardField !in OWN_NAMES
    requires forall a :: a in InfoAttributes(d) ==> a.name !in OWN_NAMES && a.name != ctx.vcardField
    ensures forall a :: a in BeforeMasters(d, ctx) ==> Skipped(a, ctx.vcardField) || a == NameAttribute(d, ctx)
    ensures forall a :: a in AfterMasters(d, ctx) ==> Skipped(a, ctx.vcardField) || a in ListAttributes(d.flags)
  {
    assert forall a :: a in HandleAttributes(d.handle) ==> Skipped(a, ctx.vcardField);
    assert forall a :: a in NicknameAttributes(d) ==> Skipped(a, ctx.vcardField);
    assert forall a :: a in PresenceAttributes(d) ==> Skipped(a, ctx.vcardField);
    assert forall a :: a in CapabilityAttributes(d.capabilities) ==> Skipped(a, ctx.vcardField);
    assert forall a :: a in PhotoAttributes(d, ctx) ==> Skipped(a, ctx.vcardField);
    assert forall a :: a in InfoAttributes(d) ==> Skipped(a, ctx.vcardField);
    hide NicknameAttributes, HandleAttributes, ListAttributes, PresenceAttributes, CapabilityAttributes,
      PhotoAttributes, InfoAttributes, NameAttribute;
  }

  /** None of the attributes a contact writes disturbs that contact. */
  lemma OwnAttributesHarmless(d: ContactData, ctx: CardContext)
    requires NamedOk(d) && ctx.vcardField !in OWN_NAMES
    requires forall a :: a in InfoAttributes(d) ==> a.name !in OWN_NAMES && a.name != ctx.vcardField
    ensures var start := d.(pendingFlags := d.flags);
      forall a :: a in AddedAttributes(d, ctx) ==> Harmless(start, a, ctx.vcardField)
  {
    var start := d.(pendingFlags := d.flags);
    AddedSplit(d, ctx);
    OwnNamesOnly(d, ctx);
    NameAttributeHarmless(start, ctx);
    ListAttributesHarmless(start, ctx);
    assert NameAttribute(start, ctx) == NameAttribute(d, ctx);
    assert forall a :: a in MasterAttributes(d.masterUids) ==> a.name == MASTER_UID;
    assert forall a :: Skipped(a, ctx.vcardField) ==> Harmless(start, a, ctx.vcardField);
    hide AddedAttributes, BeforeMasters, AfterMasters, MasterAttributes, ListAttributes, Harmless;
    MastersHarmless(start, ctx);
  }

  lemma MastersHarmless(d: ContactData, ctx: CardContext)
    ensures forall a: Attribute :: a.name == MASTER_UID ==> Harmless(d, a, ctx.vcardField)
  {}

  lemma MastersInOwnCard(d: ContactData, ctx: CardContext)
    requires ctx.vcardField !in OWN_NAMES
    requires forall a :: a in InfoAttributes(d) ==> a.name !in OWN_NAMES && a.name != ctx.vcardField
    ensures MastersIn(ToEContact(d, ctx)) == Reverse(d.masterUids)
  {
    var before, masters, after := BeforeMasters(d, ctx), MasterAttributes(d.masterUids), AfterMasters(d, ctx);
    AddedSplit(d, ctx);
    OwnNamesOnly(d, ctx);
    assert NameAttribute(d, ctx).name == ctx.vcardField;
    assert forall a :: a in ListAttributes(d.flags) ==> a.name != MASTER_UID;
    hide BeforeMasters, AfterMasters, AddedAttributes, MasterAttributes, ListAttributes, NameAttribute, MastersIn;
    NoMastersIn(before);
    NoMastersIn(after);
    MastersInMasterAttributes(d.masterUids);
    MastersInMiddle(before, masters, after);
    MastersInReverse(before + masters + after);
  }

  lemma MastersInMiddle(before: Card, masters: Card, after: Card)
    requires MastersIn(before) == MastersIn(after) == []
    ensures MastersIn(before + masters + after) == MastersIn(masters)
  {
    MastersInConcat(before + masters, after);
    MastersInConcat(before, masters);
  }

  lemma InReverse<T>(s: seq<T>, x: T)
    requires x in Reverse(s)
    ensures x in s
  {
    var i :| 0 <= i < |s| && Reverse(s)[i] == x;
    assert s[|s| - 1 - i] == x;
  }

  lemma ReadOwnCard(d: ContactData, ctx: CardContext)
    requires NamedOk(d) && ctx.vcardField !in OWN_NAMES
    requires forall a :: a in InfoAttributes(d) ==> a.name !in OWN_NAMES && a.name != ctx.vcardField
    ensures var start := d.(pendingFlags := d.flags);
      ReadAttributes(Reading(start, []), ToEContact(d, ctx), ctx.vcardField) == Reading(start, Reverse(d.masterUids))
  {
    var start := d.(pendingFlags := d.flags);
    OwnAttributesHarmless(d, ctx);
    MastersInOwnCard(d, ctx);
    var added := AddedAttributes(d, ctx);
    hide AddedAttributes, Harmless;
    forall a | a in Reverse(added) ensures Harmless(start, a, ctx.vcardField) {
      InReverse(added, a);
    }
    ReadHarmless(start, [], Reverse(added), ctx.vcardField);
    assert [] + MastersIn(Reverse(added)) == MastersIn(Reverse(added));
  }

  /** Submitting a contact's own card changes nothing but, possibly, the order of its master UIDs:
      the name and the set of master UIDs stay and no membership change is scheduled. The order is
      reversed, so an update of the master UIDs is scheduled exactly when that shows. */
  lemma ReadBackOwnCard(d: ContactData, ctx: CardContext)
    requires NamedOk(d) && ctx.vcardField !in OWN_NAMES
    requires forall a :: a in InfoAttributes(d) ==> a.name !in OWN_NAMES && a.name != ctx.vcardField
    ensures var (d', ok) := UpdateFromEContact(d, ToEContact(d, ctx), ctx.vcardField);
      && ok && d'.name == d.name
      && multiset(d'.masterUids) == multiset(d.masterUids)
      && d'.flags == d.flags
      && d'.pendingFlags == d.flags + (if Reverse(d.masterUids) == d.masterUids then {} else {SCHEDULE_UPDATE_MASTER_UID})
      && d' == d.(masterUids := d'.masterUids, pendingFlags := d'.pendingFlags)
  {
    ReadOwnCard(d, ctx);
    ReverseMultiset(d.masterUids);
    hide ToEContact, ReadAttributes;
  }

  lemma {:induction false} ReverseMultiset<T>(s: seq<T>)
    ensures multiset(Reverse(s)) == multiset(s)
  {
    if s != [] {
      assert s == [s[0]] + s[1..];
      ReverseConcat([s[0]], s[1..]);
      ReverseMultiset(s[1..]);
      assert Reverse([s[0]]) == [s[0]];
    }
  }
}
