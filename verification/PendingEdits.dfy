/** What becomes of the pending edits of a contact, flag by flag: once they were carried out, and when a
    contact of its name is added again. */
module PendingEdits {
  import opened Flags
  import opened ContactValues

  const EDITS: FlagWord :=
    {SCHEDULE_UNBLOCK, SCHEDULE_UPDATE_FLAGS, SCHEDULE_UPDATE_MASTER_UID, SCHEDULE_UPDATE_VARIANTS}

  /** The edits were carried out, the unblocking with the given success: an unblocking stays pending if it
      failed, and the contact is then taken for unblocked; the other edits are not pending any more, and
      nothing else has changed. */
  ghost predicate EditsDone(before: ContactData, unblocked: bool, after: ContactData) {
    var failed := SCHEDULE_UNBLOCK in before.pendingFlags && !unblocked;
    && after == before.(pendingFlags := after.pendingFlags, flags := after.flags)
    && (SCHEDULE_UNBLOCK in after.pendingFlags <==> failed)
    && SCHEDULE_UPDATE_FLAGS !in after.pendingFlags && SCHEDULE_UPDATE_MASTER_UID !in after.pendingFlags
    && SCHEDULE_UPDATE_VARIANTS !in after.pendingFlags
    && (forall f :: f !in EDITS ==> (f in after.pendingFlags <==> f in before.pendingFlags))
    && (CL_DENY in after.flags <==> CL_DENY in before.flags && !failed)
    && (forall f :: f != CL_DENY ==> (f in after.flags <==> f in before.flags))
  }

  /** A contact of the name was added again: master UIDs and variants are the unions, a blocked contact is
      to be unblocked, and what is new is to be saved. */
  ghost predicate TookIn(before: ContactData, news: ContactData, after: ContactData) {
    && after == before.(masterUids := after.masterUids, variants := after.variants, pendingFlags := after.pendingFlags)
    && ToSet(after.masterUids) == ToSet(before.masterUids) + ToSet(news.masterUids) && before.masterUids <= after.masterUids
    && after.variants == before.variants + news.variants
    && (SCHEDULE_UNBLOCK in after.pendingFlags <==> SCHEDULE_UNBLOCK in before.pendingFlags || CL_DENY in before.flags)
    && (SCHEDULE_UPDATE_MASTER_UID in after.pendingFlags <==>
          SCHEDULE_UPDATE_MASTER_UID in before.pendingFlags || !(ToSet(news.masterUids) <= ToSet(before.masterUids)))
    && (SCHEDULE_UPDATE_VARIANTS in after.pendingFlags <==>
          SCHEDULE_UPDATE_VARIANTS in before.pendingFlags || news.variants != {})
    && (CL_DENY in after.pendingFlags <==> CL_DENY in before.pendingFlags && CL_DENY !in before.flags)
    && (forall f :: f != SCHEDULE_UNBLOCK && f != CL_DENY && f != SCHEDULE_UPDATE_MASTER_UID && f != SCHEDULE_UPDATE_VARIANTS
          ==> (f in after.pendingFlags <==> f in before.pendingFlags))
  }

  /** Both, one after the other. Whoever is blocked is tried to be unblocked: on failure the contact is
      taken for unblocked and the unblocking stays pending, on success the server will tell. */
  ghost predicate AddedAgain(before: ContactData, news: ContactData, unblocked: bool, after: ContactData) {
    var tried := SCHEDULE_UNBLOCK in before.pendingFlags || CL_DENY in before.flags;
    && after == before.(masterUids := after.masterUids, variants := after.variants,
                        pendingFlags := after.pendingFlags, flags := after.flags)
    && ToSet(after.masterUids) == ToSet(before.masterUids) + ToSet(news.masterUids) && before.masterUids <= after.masterUids
    && after.variants == before.variants + news.variants
    && (SCHEDULE_UNBLOCK in after.pendingFlags <==> tried && !unblocked)
    && (CL_DENY in after.flags <==> CL_DENY in before.flags && unblocked)
    && (forall f :: f != CL_DENY ==> (f in after.flags <==> f in before.flags))
    && SCHEDULE_UPDATE_FLAGS !in after.pendingFlags && SCHEDULE_UPDATE_MASTER_UID !in after.pendingFlags
    && SCHEDULE_UPDATE_VARIANTS !in after.pendingFlags
    && (CL_DENY in after.pendingFlags <==> CL_DENY in before.pendingFlags && CL_DENY !in before.flags)
    && (forall f :: f !in EDITS + {CL_DENY} ==> (f in after.pendingFlags <==> f in before.pendingFlags))
  }

  lemma TookInAndDone(before: ContactData, news: ContactData, x: ContactData, unblocked: bool, after: ContactData)
    requires TookIn(before, news, x) && EditsDone(x, unblocked, after)
    ensures AddedAgain(before, news, unblocked, after)
  {
    hide ToSet;
  }
}
