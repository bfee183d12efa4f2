/** When two contacts have the same vCard: what of a contact shows in its card, and what does not. */
module SameCards {
  import opened Text
  import opened Flags
  import opened ContactValues
  import opened VCards

  /** Some context; its protocol field is none of the backend's own names. */
  const SOME_CONTEXT: CardContext := CardContext("X-PROTOCOL", "protocol", None)

  lemma ReverseTwice<T>(s: seq<T>)
    ensures Reverse(Reverse(s)) == s
  {}

  /** The attributes of equal cards were added in the same order. */
  lemma SameAdded(a: ContactData, b: ContactData)
    requires SameCard(a, b)
    ensures AddedAttributes(a, SOME_CONTEXT) == AddedAttributes(b, SOME_CONTEXT)
  {
    var s, t := AddedAttributes(a, SOME_CONTEXT), AddedAttributes(b, SOME_CONTEXT);
    if a != b {
      assert ToEContact(a, SOME_CONTEXT) == ToEContact(b, SOME_CONTEXT);
      assert Reverse(s) == Reverse(t);
      ReverseTwice(s);
      ReverseTwice(t);
    }
    hide AddedAttributes, Reverse;
  }

  lemma SameCardSymmetric(a: ContactData, b: ContactData)
    requires SameCard(a, b)
    ensures SameCard(b, a)
  {
    hide ToEContact;
  }

  lemma SameCardTransitive(a: ContactData, b: ContactData, c: ContactData)
    requires SameCard(a, b) && SameCard(b, c)
    ensures SameCard(a, c)
  {
    hide ToEContact;
  }

  /** Two contacts that a third has the same card as. */
  lemma SameCardJoin(x: ContactData, a: ContactData, b: ContactData)
    requires SameCard(x, a) && SameCard(x, b)
    ensures SameCard(a, b)
  {
    hide SameCard;
    SameCardSymmetric(x, a);
    SameCardTransitive(a, x, b);
  }

  lemma SameContext(a: ContactData, b: ContactData)
    requires forall ctx :: AddedAttributes(a, ctx) == AddedAttributes(b, ctx)
    ensures SameCard(a, b)
  {
    hide AddedAttributes;
  }

  lemma PendingInNoPart(d: ContactData, pending: FlagWord, ctx: CardContext)
    ensures var e := d.(pendingFlags := pending);
      && NameAttribute(e, ctx) == NameAttribute(d, ctx) && NicknameAttributes(e) == NicknameAttributes(d)
      && PresenceAttributes(e) == PresenceAttributes(d) && PhotoAttributes(e, ctx) == PhotoAttributes(d, ctx)
      && InfoAttributes(e) == InfoAttributes(d)
  {}

  lemma PendingNotAdded(d: ContactData, pending: FlagWord, ctx: CardContext)
    ensures AddedAttributes(d.(pendingFlags := pending), ctx) == AddedAttributes(d, ctx)
  {
    PendingInNoPart(d, pending, ctx);
    hide NameAttribute, NicknameAttributes, MasterAttributes, HandleAttributes, ListAttributes, PresenceAttributes,
      CapabilityAttributes, PhotoAttributes, InfoAttributes;
  }

  /** What is scheduled for a contact does not show. */
  lemma PendingNotShown(d: ContactData, pending: FlagWord)
    ensures SameCard(d, d.(pendingFlags := pending))
  {
    hide *;
    forall ctx ensures AddedAttributes(d, ctx) == AddedAttributes(d.(pendingFlags := pending), ctx) {
      PendingNotAdded(d, pending, ctx);
    }
    SameContext(d, d.(pendingFlags := pending));
  }

  // ---- Name and validity ----

  lemma SecondAttribute(d: ContactData)
    ensures |AddedAttributes(d, SOME_CONTEXT)| > 1 && AddedAttributes(d, SOME_CONTEXT)[1] == NameAttribute(d, SOME_CONTEXT)
  {
    hide NameAttribute, NicknameAttributes, MasterAttributes, HandleAttributes, ListAttributes, PresenceAttributes,
      CapabilityAttributes, PhotoAttributes, InfoAttributes;
  }

  lemma NameShows(a: ContactData, b: ContactData)
    requires NameAttribute(a, SOME_CONTEXT) == NameAttribute(b, SOME_CONTEXT) && a.name.Some? && b.name.Some?
    ensures a.name == b.name && (CONTACT_INVALID in a.flags <==> CONTACT_INVALID in b.flags)
  {
    var p, q := NameAttribute(a, SOME_CONTEXT).params, NameAttribute(b, SOME_CONTEXT).params;
    assert p["X-OSSO-VALID"] == {if CONTACT_INVALID in a.flags then "no" else "yes"};
    assert q["X-OSSO-VALID"] == {if CONTACT_INVALID in b.flags then "no" else "yes"};
    assert (if CONTACT_INVALID in a.flags then "no" else "yes") in q["X-OSSO-VALID"];
  }

  lemma SameCardName(a: ContactData, b: ContactData)
    requires SameCard(a, b) && a.name.Some? && b.name.Some?
    ensures a.name == b.name && (CONTACT_INVALID in a.flags <==> CONTACT_INVALID in b.flags)
  {
    hide *;
    SameAdded(a, b);
    SecondAttribute(a);
    SecondAttribute(b);
    NameShows(a, b);
  }

  // ---- The list of blocked contacts ----

  /** The first attribute of a name, in the order in which attributes are added. */
  function FirstNamed(card: Card, name: string): Option<Attribute> {
    if card == [] then None
    else if card[0].name == name then Some(card[0])
    else FirstNamed(card[1..], name)
  }

  lemma {:induction false} FirstNamedConcat(a: Card, b: Card, name: string)
    ensures FirstNamed(a + b, name) == if FirstNamed(a, name).Some? then FirstNamed(a, name) else FirstNamed(b, name)
  {
    if a == [] {
      assert a + b == b;
    } else {
      assert (a + b)[1..] == a[1..] + b;
      FirstNamedConcat(a[1..], b, name);
    }
  }

  lemma {:induction false} NoneNamed(card: Card, name: string)
    requires forall a :: a in card ==> a.name != name
    ensures FirstNamed(card, name) == None
  {
    if card != [] { NoneNamed(card[1..], name); }
  }

  lemma FirstBlocked(flags: FlagWord)
    ensures FirstNamed(ListAttributes(flags), BLOCKED) == Some(Plain(BLOCKED, MembershipText(flags, CL_DENY)))
  {
    var l := ListAttributes(flags);
    assert l[1..] == [l[1], l[2]] && l[1..][1..] == [l[2]];
    assert FirstNamed(l, BLOCKED) == FirstNamed(l[1..], BLOCKED) == FirstNamed(l[1..][1..], BLOCKED);
    hide MembershipText;
  }

  lemma BlockedShown(d: ContactData)
    ensures FirstNamed(AddedAttributes(d, SOME_CONTEXT), BLOCKED) == Some(Plain(BLOCKED, MembershipText(d.flags, CL_DENY)))
  {
    var ctx := SOME_CONTEXT;
    AddedSplit(d, ctx);
    var before, masters, handle := BeforeMasters(d, ctx), MasterAttributes(d.masterUids), HandleAttributes(d.handle);
    var rest := PresenceAttributes(d) + CapabilityAttributes(d.capabilities) + PhotoAttributes(d, ctx) + InfoAttributes(d);
    assert AfterMasters(d, ctx) == handle + (ListAttributes(d.flags) + rest);
    NoneNamed(before, BLOCKED);
    NoneNamed(masters, BLOCKED);
    NoneNamed(handle, BLOCKED);
    FirstBlocked(d.flags);
    hide AddedAttributes, BeforeMasters, AfterMasters, MasterAttributes, HandleAttributes, ListAttributes, PresenceAttributes,
      CapabilityAttributes, PhotoAttributes, InfoAttributes, FirstNamed, MembershipText;
    FirstNamedConcat(ListAttributes(d.flags), rest, BLOCKED);
    FirstNamedConcat(handle, ListAttributes(d.flags) + rest, BLOCKED);
    FirstNamedConcat(before, masters, BLOCKED);
    FirstNamedConcat(before + masters, handle + (ListAttributes(d.flags) + rest), BLOCKED);
  }

  lemma TextTells(f: FlagWord, g: FlagWord)
    requires MembershipText(f, CL_DENY) == MembershipText(g, CL_DENY)
    ensures CL_DENY in f <==> CL_DENY in g
  {}

  /** Whether the contact is blocked shows. */
  lemma SameCardDenied(a: ContactData, b: ContactData)
    requires SameCard(a, b)
    ensures CL_DENY in a.flags <==> CL_DENY in b.flags
  {
    hide *;
    SameAdded(a, b);
    BlockedShown(a);
    BlockedShown(b);
    PlainIs(BLOCKED, MembershipText(a.flags, CL_DENY), MembershipText(b.flags, CL_DENY));
    TextTells(a.flags, b.flags);
  }

  lemma PlainIs(name: string, v: string, w: string)
    ensures Plain(name, v) == Plain(name, w) ==> v == w
  {}

  // ---- Handle and master UIDs ----

  /** Everything that shows is the same but, possibly, the handle, the lists, the master UIDs, and what
      the name's attribute tells. */
  predicate SameRest(a: ContactData, b: ContactData) {
    && a.uid == b.uid && a.alias == b.alias && a.name == b.name
    && a.status == b.status && a.genericStatus == b.genericStatus && a.statusMessage == b.statusMessage
    && a.capabilities == b.capabilities && a.avatarToken == b.avatarToken && a.contactInfo == b.contactInfo
  }

  function RestOf(d: ContactData): Card {
    PresenceAttributes(d) + CapabilityAttributes(d.capabilities) + PhotoAttributes(d, SOME_CONTEXT) + InfoAttributes(d)
  }

  lemma Added(d: ContactData)
    ensures AddedAttributes(d, SOME_CONTEXT)
         == BeforeMasters(d, SOME_CONTEXT) + (MasterAttributes(d.masterUids) + (HandleAttributes(d.handle) + (ListAttributes(d.flags) + RestOf(d))))
  {
    AddedSplit(d, SOME_CONTEXT);
    hide AddedAttributes, BeforeMasters, MasterAttributes, HandleAttributes, ListAttributes, PresenceAttributes,
      CapabilityAttributes, PhotoAttributes, InfoAttributes;
  }

  lemma SameRestParts(a: ContactData, b: ContactData)
    requires SameRest(a, b)
    ensures RestOf(a) == RestOf(b) && |BeforeMasters(a, SOME_CONTEXT)| == |BeforeMasters(b, SOME_CONTEXT)|
    ensures |ListAttributes(a.flags)| == |ListAttributes(b.flags)| == 3
  {}

  lemma Cancel<T>(a: seq<T>, b: seq<T>, c: seq<T>, d: seq<T>)
    requires a + b == c + d && |a| == |c|
    ensures a == c && b == d
  {
    assert (a + b)[..|a|] == (c + d)[..|c|];
    assert (a + b)[|a|..] == (c + d)[|c|..];
  }

  lemma HandleTells(h: nat, k: nat)
    requires HandleAttributes(h) == HandleAttributes(k)
    ensures h == k
  {
    if h != 0 && k != 0 {
      assert HandleAttributes(h)[0].values == [Decimal(h)] && HandleAttributes(k)[0].values == [Decimal(k)];
      assert Decimal(h) == HandleAttributes(h)[0].values[0];
      DecimalInjective(h, k);
    }
  }

  /** The handle shows. */
  lemma SameCardHandle(a: ContactData, b: ContactData)
    requires SameCard(a, b) && SameRest(a, b) && a.masterUids == b.masterUids
    ensures a.handle == b.handle
  {
    hide *;
    SameAdded(a, b);
    Added(a);
    Added(b);
    SameRestParts(a, b);
    var m := MasterAttributes(a.masterUids);
    var x, y := HandleAttributes(a.handle), HandleAttributes(b.handle);
    var s, t := ListAttributes(a.flags) + RestOf(a), ListAttributes(b.flags) + RestOf(b);
    Cancel(BeforeMasters(a, SOME_CONTEXT), m + (x + s), BeforeMasters(b, SOME_CONTEXT), m + (y + t));
    Cancel(m, x + s, m, y + t);
    assert |x + s| == |x| + |s| && |y + t| == |y| + |t|;
    Cancel(x, s, y, t);
    HandleTells(a.handle, b.handle);
  }

  lemma MastersTell(m: seq<string>, n: seq<string>)
    requires MasterAttributes(m) == MasterAttributes(n)
    ensures m == n
  {
    assert |m| == |n|;
    forall i | 0 <= i < |m| ensures m[i] == n[i] {
      assert MasterAttributes(m)[i].values == [m[i]] && MasterAttributes(n)[i].values == [n[i]];
      assert m[i] == MasterAttributes(m)[i].values[0];
    }
  }

  /** The master UIDs show. */
  lemma SameCardMasters(a: ContactData, b: ContactData)
    requires SameCard(a, b) && SameRest(a, b) && a.handle == b.handle
    ensures a.masterUids == b.masterUids
  {
    hide *;
    SameAdded(a, b);
    Added(a);
    Added(b);
    SameRestParts(a, b);
    var m, n := MasterAttributes(a.masterUids), MasterAttributes(b.masterUids);
    var x := HandleAttributes(a.handle);
    var s, t := x + (ListAttributes(a.flags) + RestOf(a)), x + (ListAttributes(b.flags) + RestOf(b));
    assert |s| == |x| + |ListAttributes(a.flags) + RestOf(a)| && |t| == |x| + |ListAttributes(b.flags) + RestOf(b)|;
    Cancel(BeforeMasters(a, SOME_CONTEXT), m + s, BeforeMasters(b, SOME_CONTEXT), n + t);
    assert |m + s| == |m| + |s| && |n + t| == |n| + |t|;
    Cancel(m, s, n, t);
    MastersTell(a.masterUids, b.masterUids);
  }
}
