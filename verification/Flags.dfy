/** The list ids and flag bits of e-book-backend-tp-types.h. A flag word is modelled by the set of
    its bit positions; `Bits` and the lemmas about it tie that set to the 32-bit word. */
module Flags {

  // List ids. A primary list and its two pending variants are adjacent, and the id of a list is
  // the bit position of its flag.
  const CL_SUBSCRIBE: nat := 0
  const CL_PUBLISH: nat := 3
  const CL_ALLOW: nat := 6
  const CL_DENY: nat := 9
  const CL_STORED: nat := 12
  const CL_LAST_LIST: nat := 15

  const CONTACT_UNSEEN: nat := 16
  const SCHEDULE_DELETE: nat := 17
  const SCHEDULE_UPDATE_FLAGS: nat := 18
  const SCHEDULE_ADD: nat := 20
  const SCHEDULE_UPDATE_MASTER_UID: nat := 21
  const CONTACT_INVALID: nat := 22
  const SCHEDULE_UNBLOCK: nat := 23
  const SCHEDULE_UPDATE_VARIANTS: nat := 24

  type FlagWord = set<nat>

  /** A primary list id, `CL_PRIMARY_...`. */
  type Primary = list: nat |
    list == CL_SUBSCRIBE || list == CL_PUBLISH || list == CL_ALLOW || list == CL_DENY || list == CL_STORED

  /** The flags of a list and of its pending variants. */
  function ListFlags(list: nat): FlagWord {
    {list, list + 1, list + 2}
  }

  const ALL_LIST_FLAGS: FlagWord := set i | 0 <= i < 15

  /** How a contact stands on one primary list. */
  datatype Membership = Absent | Current | LocalPending | RemotePending

  function MembershipFlag(list: nat, m: Membership): FlagWord {
    match m
    case Absent => {}
    case Current => {list}
    case LocalPending => {list + 1}
    case RemotePending => {list + 2}
  }

  /** The bits of `flags` for `list` are exactly those of membership `m`. */
  predicate Reads(flags: FlagWord, list: Primary, m: Membership) {
    flags * ListFlags(list) == MembershipFlag(list, m)
  }

  /** `CLEAR_LIST_FLAGS` and then setting the flag of `m`. */
  function Moved(flags: FlagWord, list: Primary, m: Membership): FlagWord {
    flags - ListFlags(list) + MembershipFlag(list, m)
  }

  lemma MembershipUnique(flags: FlagWord, list: Primary, m: Membership, m': Membership)
    requires Reads(flags, list, m) && Reads(flags, list, m')
    ensures m == m'
  {
    assert MembershipFlag(list, m) == MembershipFlag(list, m');
    assert list + 1 in MembershipFlag(list, m) <==> list + 1 in MembershipFlag(list, m');
    assert list in MembershipFlag(list, m) <==> list in MembershipFlag(list, m');
    assert list + 2 in MembershipFlag(list, m) <==> list + 2 in MembershipFlag(list, m');
  }

  /** Moving a contact on one list sets that list and touches nothing else. */
  lemma MovedReads(flags: FlagWord, list: Primary, m: Membership)
    ensures Reads(Moved(flags, list, m), list, m)
    ensures Moved(flags, list, m) - ListFlags(list) == flags - ListFlags(list)
    ensures forall other: Primary, k: Membership ::
      other != list ==> (Reads(Moved(flags, list, m), other, k) <==> Reads(flags, other, k))
  {
    assert Moved(flags, list, m) * ListFlags(list) == MembershipFlag(list, m);
    forall other: Primary | other != list
      ensures Moved(flags, list, m) * ListFlags(other) == flags * ListFlags(other)
    {
      assert ListFlags(list) !! ListFlags(other);
    }
  }

  /** A contact with list bits only is on no list exactly when no bit is left. */
  lemma NoListLeft(flags: FlagWord)
    requires flags <= ALL_LIST_FLAGS
    ensures flags == {} <==> forall list: Primary :: Reads(flags, list, Absent)
  {
    if flags != {} {
      var f :| f in flags;
      var list: Primary := if f < 3 then 0 else if f < 6 then 3 else if f < 9 then 6 else if f < 12 then 9 else 12;
      assert f in flags * ListFlags(list);
      assert !Reads(flags, list, Absent);
    }
  }

  // ---- The 32-bit word behind a flag set ----

  function BitMask(i: nat): bv32
    requires i < 32
  {
    match i
    case 0 => 0x1 case 1 => 0x2 case 2 => 0x4 case 3 => 0x8
    case 4 => 0x10 case 5 => 0x20 case 6 => 0x40 case 7 => 0x80
    case 8 => 0x100 case 9 => 0x200 case 10 => 0x400 case 11 => 0x800
    case 12 => 0x1000 case 13 => 0x2000 case 14 => 0x4000 case 15 => 0x8000
    case 16 => 0x1_0000 case 17 => 0x2_0000 case 18 => 0x4_0000 case 19 => 0x8_0000
    case 20 => 0x10_0000 case 21 => 0x20_0000 case 22 => 0x40_0000 case 23 => 0x80_0000
    case 24 => 0x100_0000 case 25 => 0x200_0000 case 26 => 0x400_0000 case 27 => 0x800_0000
    case 28 => 0x1000_0000 case 29 => 0x2000_0000 case 30 => 0x4000_0000 case _ => 0x8000_0000
  }

  /** The positions of the bits that are set. */
  function Bits(w: bv32): FlagWord {
    set i | 0 <= i < 32 && Overlap(w, BitMask(i))
  }

  predicate SingleBit(b: bv32) {
    b != 0 && b & (b - 1) == 0
  }

  predicate Overlap(v: bv32, b: bv32) {
    v & b != 0
  }

  lemma BitMaskSingle(i: nat)
    requires i < 32
    ensures SingleBit(BitMask(i))
  {}

  lemma AllOrNothing(v: bv32, b: bv32)
    requires SingleBit(b)
    ensures v & b == 0 || v & b == b
  {}

  lemma OverlapOr(v: bv32, w: bv32, b: bv32)
    requires SingleBit(b)
    ensures Overlap(v | w, b) <==> Overlap(v, b) || Overlap(w, b)
  {
    AllOrNothing(v, b);
    AllOrNothing(w, b);
    assert (v | w) & b == (v & b) | (w & b);
  }

  lemma OverlapAnd(v: bv32, w: bv32, b: bv32)
    requires SingleBit(b)
    ensures Overlap(v & w, b) <==> Overlap(v, b) && Overlap(w, b)
  {
    AllOrNothing(v, b);
    AllOrNothing(w, b);
    assert (v & w) & b == (v & b) & (w & b);
  }

  lemma OverlapAndNot(v: bv32, w: bv32, b: bv32)
    requires SingleBit(b)
    ensures Overlap(v & !w, b) <==> Overlap(v, b) && !Overlap(w, b)
  {
    AllOrNothing(v, b);
    AllOrNothing(w, b);
    assert (v & !w) & b == (v & b) & !(w & b);
  }

  /** OR on words is union on their sets. */
  lemma WordOr(v: bv32, w: bv32)
    ensures Bits(v | w) == Bits(v) + Bits(w)
  {
    hide Overlap, BitMask, SingleBit;
    forall i: nat | i < 32 ensures i in Bits(v | w) <==> i in Bits(v) || i in Bits(w) {
      BitMaskSingle(i);
      OverlapOr(v, w, BitMask(i));
    }
  }

  /** AND on words is intersection on their sets. */
  lemma WordAnd(v: bv32, w: bv32)
    ensures Bits(v & w) == Bits(v) * Bits(w)
  {
    hide Overlap, BitMask, SingleBit;
    forall i: nat | i < 32 ensures i in Bits(v & w) <==> i in Bits(v) && i in Bits(w) {
      BitMaskSingle(i);
      OverlapAnd(v, w, BitMask(i));
    }
  }

  /** AND with the complement is difference on the sets. */
  lemma WordAndNot(v: bv32, w: bv32)
    ensures Bits(v & !w) == Bits(v) - Bits(w)
  {
    hide Overlap, BitMask, SingleBit;
    forall i: nat | i < 32 ensures i in Bits(v & !w) <==> i in Bits(v) && i !in Bits(w) {
      BitMaskSingle(i);
      OverlapAndNot(v, w, BitMask(i));
    }
  }

  /** The header's layout: shifting a list's flag by one or two gives its local- or remote-pending
      flag, because consecutive ids are consecutive bits. */
  lemma FlagLayout(id: nat)
    requires id + 1 < 32
    ensures BitMask(id + 1) == BitMask(id) << 1
  {
    match id {
      case 0 => case 1 => case 2 => case 3 => case 4 => case 5 => case 6 => case 7 =>
      case 8 => case 9 => case 10 => case 11 => case 12 => case 13 => case 14 => case 15 =>
      case 16 => case 17 => case 18 => case 19 => case 20 => case 21 => case 22 => case 23 =>
      case 24 => case 25 => case 26 => case 27 => case 28 => case 29 =>
      case _ =>
    }
  }
}
