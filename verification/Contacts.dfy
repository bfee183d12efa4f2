/** The contact object of e-book-backend-tp-contact.c, updated in place. */
module Contacts {
  import opened Text
  import opened Flags
  import opened ContactValues
  import opened VCards

  class Contact {
    var handle: nat
    var name: Option<string>
    var alias: Option<string>
    var genericStatus: string
    var status: Option<string>
    var statusMessage: Option<string>
    var avatarToken: Option<string>
    var contactInfo: Option<Card>
    var flags: FlagWord
    var pendingFlags: FlagWord
    var uid: string
    var masterUids: seq<string>
    var capabilities: FlagWord
    var variants: set<string>

    function Data(): ContactData
      reads this
    {
      ContactData(handle, name, alias, genericStatus, status, statusMessage, avatarToken, contactInfo,
                  flags, pendingFlags, uid, masterUids, capabilities, variants)
    }

    /** A contact with the given fields; `NEW_CONTACT` gives `e_book_backend_tp_contact_new`. */
    constructor (d: ContactData)
      ensures Data() == d
    {
      handle, name, alias := d.handle, d.name, d.alias;
      genericStatus, status, statusMessage := d.genericStatus, d.status, d.statusMessage;
      avatarToken, contactInfo := d.avatarToken, d.contactInfo;
      flags, pendingFlags, uid := d.flags, d.pendingFlags, d.uid;
      masterUids, capabilities, variants := d.masterUids, d.capabilities, d.variants;
    }

    /** Changes the name; the name it had becomes a variant. Reports whether it changed. */
    method UpdateName(newName: string) returns (changed: bool)
      modifies this
      ensures Data() == ContactValues.UpdateName(old(Data()), newName)
      ensures changed <==> old(name) != Some(newName)
    {
      if name == Some(newName) { return false; }
      if name.Some? {
        variants := variants + {name.value};
        pendingFlags := pendingFlags + {SCHEDULE_UPDATE_VARIANTS};
      }
      name := Some(newName);
      return true;
    }

    /** Appends the master UIDs that are not there yet. Reports whether there was one. */
    method UpdateMasterUids(uids: seq<string>) returns (changed: bool)
      modifies this
      ensures Data() == ContactValues.UpdateMasterUids(old(Data()), uids)
      ensures changed <==> exists u :: u in uids && u !in old(masterUids)
    {
      changed := false;
      var i := 0;
      ghost var before := masterUids;
      while i < |uids|
        invariant 0 <= i <= |uids|
        invariant AddMasters(masterUids, uids[i..]) == AddMasters(before, uids)
        invariant before <= masterUids
        invariant changed <==> masterUids != before
        invariant Data() == old(Data()).(masterUids := masterUids, pendingFlags := pendingFlags)
        invariant pendingFlags == if changed then old(pendingFlags) + {SCHEDULE_UPDATE_MASTER_UID} else old(pendingFlags)
      {
        var found := MasterUidsFind(masterUids, uids[i]);
        assert uids[i..][0] == uids[i] && uids[i..][1..] == uids[i + 1..];
        if found < 0 {
          masterUids := masterUids + [uids[i]];
          pendingFlags := pendingFlags + {SCHEDULE_UPDATE_MASTER_UID};
          changed := true;
        }
        i := i + 1;
      }
      AddMastersIsUnion(before, uids);
    }

    /** Removes one master UID, moving the last one into its place. */
    method RemoveMasterUid(uid: string) returns (removed: bool)
      modifies this
      ensures Data() == ContactValues.RemoveMasterUid(old(Data()), uid)
      ensures removed <==> uid in old(masterUids)
    {
      var i := MasterUidsFind(masterUids, uid);
      if i < 0 { return false; }
      masterUids := RemoveIndexFast(masterUids, i);
      pendingFlags := pendingFlags + {SCHEDULE_UPDATE_MASTER_UID};
      return true;
    }

    method RemoveAllMasterUids()
      modifies this
      ensures Data() == ContactValues.RemoveAllMasterUids(old(Data()))
    {
      if |masterUids| > 0 {
        pendingFlags := pendingFlags + {SCHEDULE_UPDATE_MASTER_UID};
        masterUids := [];
      }
    }

    method AddVariantsFromContact(src: Contact)
      modifies this
      ensures Data() == AddVariants(old(Data()), old(src.variants))
    {
      var added := src.variants;
      variants := variants + added;
      if added != {} { pendingFlags := pendingFlags + {SCHEDULE_UPDATE_VARIANTS}; }
    }

    /** Writes the contact as a vCard, attribute by attribute. */
    method ToEContact(ctx: CardContext) returns (card: Card)
      ensures card == VCards.ToEContact(Data(), ctx)
    {
      hide *;
      card := WriteName(ctx);
      card := WriteMasters(card);
      card := WriteHandle(card);
      card := WriteLists(card);
      card := WritePresence(card);
      card := WriteCapabilities(card);
      card := WritePhoto(card, ctx);
      card := WriteInfo(card);
      OwnCardParts(Data(), ctx);
    }

    /** The uid, the protocol field with its parameters, and the nickname. */
    method WriteName(ctx: CardContext) returns (card: Card)
      ensures card == Reverse(BeforeMasters(Data(), ctx))
    {
      card := [Plain("UID", uid)];
      var params := map["TYPE" := {ctx.profile}, "X-OSSO-VALID" := {if CONTACT_INVALID in flags then "no" else "yes"}];
      if variants != {} { params := params["X-OSSO-VARIANTS" := variants]; }
      card := [Attribute(ctx.vcardField, [if name.Some? then name.value else ""], params)] + card;
      if alias.Some? && alias != name {
        card := [Plain("NICKNAME", alias.value)] + card;
      }
    }

    method WriteMasters(before: Card) returns (card: Card)
      ensures card == Reverse(MasterAttributes(Data().masterUids)) + before
    {
      card := before;
      var i := 0;
      while i < |masterUids|
        invariant 0 <= i <= |masterUids|
        invariant card == Reverse(MasterAttributes(masterUids[..i])) + before
      {
        card := [Plain(MASTER_UID, masterUids[i])] + card;
        i := i + 1;
      }
      assert masterUids[..i] == masterUids;
    }

    method WriteHandle(before: Card) returns (card: Card)
      ensures card == Reverse(HandleAttributes(Data().handle)) + before
    {
      card := before;
      if handle != 0 {
        card := [Plain("X-TELEPATHY-HANDLE", Decimal(handle))] + card;
      }
    }

    method WriteLists(before: Card) returns (card: Card)
      ensures card == Reverse(ListAttributes(Data().flags)) + before
    {
      card := [Plain(SUBSCRIBED, MembershipText(flags, CL_SUBSCRIBE))] + before;
      card := [Plain(PUBLISHED, MembershipText(flags, CL_PUBLISH))] + card;
      card := [Plain(BLOCKED, MembershipText(flags, CL_DENY))] + card;
    }

    method WritePresence(before: Card) returns (card: Card)
      ensures card == Reverse(PresenceAttributes(Data())) + before
    {
      card := before;
      if status.Some? {
        var values := [status.value] + (if genericStatus != status.value then [genericStatus] else []);
        values := values + (if statusMessage.Some? then [statusMessage.value] else []);
        card := [Attribute("X-TELEPATHY-PRESENCE", values, map[])] + card;
      }
    }

    method WriteCapabilities(before: Card) returns (card: Card)
      ensures card == Reverse(CapabilityAttributes(Data().capabilities)) + before
    {
      card := before;
      if capabilities != {} {
        var values := if CAP_TEXT in capabilities then ["text"] else [];
        values := values + (if CAP_VOICE in capabilities then ["voice"] else []);
        values := values + (if CAP_VIDEO in capabilities then ["video"] else []);
        values := values + (if CAP_IMMUTABLE_STREAMS in capabilities then ["immutable-streams"] else []);
        card := [Attribute("X-TELEPATHY-CAPABILITIES", values, map[])] + card;
      }
    }

    method WritePhoto(before: Card, ctx: CardContext) returns (card: Card)
      ensures card == Reverse(PhotoAttributes(Data(), ctx)) + before
    {
      card := before;
      if avatarToken.Some? && avatarToken.value != "" && ctx.photo.Some? {
        card := [Attribute("PHOTO", [ctx.photo.value], map["VALUE" := {"URI"}])] + card;
      }
    }

    /** Copies the attributes of the contact info the server sent. */
    method WriteInfo(before: Card) returns (card: Card)
      ensures card == Reverse(InfoAttributes(Data())) + before
    {
      card := before;
      if contactInfo.Some? {
        var info := contactInfo.value;
        var i := 0;
        while i < |info|
          invariant 0 <= i <= |info|
          invariant card == Reverse(info[..i]) + before
        {
          card := [info[i]] + card;
          i := i + 1;
        }
        assert info[..i] == info;
      }
    }

    /** Reads a submitted vCard into the contact. Reports whether the contact has a name after it. */
    method UpdateFromEContact(card: Card, vcardField: string) returns (ok: bool)
      modifies this
      ensures (Data(), ok) == VCards.UpdateFromEContact(old(Data()), card, vcardField)
    {
      pendingFlags := flags;
      var masters: seq<string> := [];
      ghost var start := Reading(Data(), masters);
      var i := 0;
      while i < |card|
        invariant 0 <= i <= |card|
        invariant ReadAttributes(Reading(Data(), masters), card[i..], vcardField) == ReadAttributes(start, card, vcardField)
      {
        var a := card[i];
        ghost var before := Reading(Data(), masters);
        assert card[i..][0] == a && card[i..][1..] == card[i + 1..];
        if a.name == MASTER_UID {
          masters := masters + [FirstValue(a)];
        } else if a.name == vcardField {
          name := Some(FirstValue(a));
        } else if a.name == SUBSCRIBED {
          UpdateTpAttribute(FirstValue(a), CL_SUBSCRIBE);
        } else if a.name == PUBLISHED {
          UpdateTpAttribute(FirstValue(a), CL_PUBLISH);
        } else if a.name == BLOCKED {
          UpdateTpAttribute(FirstValue(a), CL_DENY);
        }
        assert Reading(Data(), masters) == ReadAttribute(before, a, vcardField);
        i := i + 1;
      }
      var differ := MasterUidsDiffer(masters, masterUids);
      if differ {
        pendingFlags := pendingFlags + {SCHEDULE_UPDATE_MASTER_UID};
        masterUids := masters;
      }
      ok := name.Some? && name.value != "";
    }

    method UpdateTpAttribute(value: string, flag: nat)
      modifies this
      ensures Data() == VCards.UpdateTpAttribute(old(Data()), value, flag)
    {
      if value == "yes" {
        if flag !in flags {
          pendingFlags := pendingFlags + {flag};
          pendingFlags := pendingFlags + {SCHEDULE_UPDATE_FLAGS};
          assert pendingFlags == old(pendingFlags) + {flag, SCHEDULE_UPDATE_FLAGS};
        }
      } else if value == "no" {
        if flag in flags {
          pendingFlags := pendingFlags * {flag};
          pendingFlags := pendingFlags + {SCHEDULE_UPDATE_FLAGS};
        }
      }
    }
  }

  function DataOf(batch: seq<Contact>): (ds: seq<ContactData>)
    reads batch
    ensures |ds| == |batch|
  {
    seq(|batch|, i requires 0 <= i < |batch| reads batch => batch[i].Data())
  }

  /** Changing one of several distinct contacts changes one entry of their values. */
  lemma OneChanged(batch: seq<Contact>, before: seq<ContactData>, i: nat)
    requires i < |batch| == |before|
    requires forall j :: 0 <= j < |batch| && j != i ==> batch[j].Data() == before[j]
    ensures DataOf(batch) == before[i := batch[i].Data()]
  {}
}
