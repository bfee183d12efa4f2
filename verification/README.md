# A verified model of the Telepathy address book backend

The backend shows the roster of an instant-messaging account as an address book that also works
offline. It keeps contact objects under three indexes (uid, name, handle), a persistent cache, queues of
edits that wait for the server, a write-behind queue to the cache, and book views that are told what
changed; all of these follow a remote roster that changes by itself.

The project says what each callback does to that state, as functions on values, and proves the
properties below about them for every input and every sequence of callbacks. The source changes its
objects in place, so the same operations are also given as methods of classes with loops, hash tables and
contact objects; each is proved to do exactly what its function says. `BackendRuns.Perform` closes the
gap for the backend: every callback of the class is an event of `Runs`, the objects it gives to what comes
in are those the theorems ask for, and what is left to assume is said of the data alone
(`Environment.Expected`). `BackendExactness.Resynchronise` does the same for phases 0 to 2 in a row.

## How it is laid out

| files | part of the system |
|---|---|
| `Text`, `Flags`, `Uids` | C strings, list ids and flag bits, uid generation |
| `ContactValues`, `Contacts`, `VCards`, `MembershipRequests`, `MasterProtocol`, `NameHistory` | the contact: its fields, its vCard, master UIDs, names |
| `Store`, `StoreBatches`, `Db`, `Fetch` | the three tables of the cache, transactions, loading |
| `RosterSpec`, `RosterMirror`, `Inspections`, `WalkSpec`, `RosterWalk`, `SwapRemove`, `UpdateFlags` | the contact-list mirror |
| `Worlds` | the backend's state as a value, and what every callback does to it |
| `Coherence`, `CoherentRuns`, `CoherentRequests`, `Runs` | the indexes agree over every run |
| `Reconcile`, `Exactness` | phases 0 to 2 end with exactly the roster and what waits for the server |
| `MemberFields`, `SignalFields`, `ArrivalFields`, `LoadFields` | the fields of a contact after the roster, the signals, an arrival or a start told about it |
| `PendingEdits`, `Unblocking`, `StepFields`, `RequestFields` | the fields of a contact after its edits, its addition or deletion, or a request were carried out, and what comes back at the next start |
| `WriteBehind`, `Stranding` | the write-behind queue is invisible after a flush; exactly when it has nobody to flush it |
| `Views`, `SameCards`, `RosterViews`, `PhaseViews`, `RequestViews`, `ViewRuns` | no notification is lost, and exactly when a view is left out of date |
| `OfflineDelete`, `OfflineRuns` | offline deletions survive a restart |
| `PhaseSteps`, `PhaseRows` | the steps of phase 3, and exactly when the row of a contact agrees after it |
| `UpdateContact` | the pending edits of one contact, down to the server's lists |
| `SingleFlight` | one reconciliation at a time, and exactly when loading gets stuck |
| `Soundness`, `Backend` | the backend's class, method by method against `Worlds` |
| `Environment`, `BackendRuns`, `BackendExactness` | the theorems about runs and reconciliation, for the class |
| `Gaps` | edits that get lost |

A contact object is a reference: the indexes share objects, and a rename or a merge is seen through all of
them. `Worlds` keeps the objects' fields in a map from reference to value, so that statements about
aliasing can be made on values; `Backend.BookBackend` has the real objects and proves that they hold
those values. Flag words are sets of bit positions; `Flags` ties them to 32-bit words. What the server
and the storage answer, and the order in which a hash table yields its keys, are parameters or
unconstrained choices, so every statement holds for all of them.

## Where the code is narrower than its comments or its documentation

The model follows the code. Each of these has lemmas that show the failure and, where the property can
be kept by some callers, say exactly when it holds.

- A "no" for a list ANDs the pending flags with the flag, not with its complement
  (src/e-book-backend-tp-contact.c:403): a contact told to leave one list keeps it
  (`MembershipRequests.NoKeepsTheList`). The computed flags are the requested ones exactly under the
  condition of `MembershipRequests.ComputedIsRequested`.
- Duplicating a contact first fills the master UIDs with NULL and then appends
  (src/e-book-backend-tp-contact.c:155): faithful exactly when there are none (`ContactValues.DupFaithful`).
- Offline, asking for the members reports success and never calls back
  (src/e-book-backend-tp-cl.c:2429): a noted reload that starts while the connection is gone leaves the
  backend loading for ever (`SingleFlight.StuckIff`, `SingleFlight.StuckForever`; `SingleFlight.StuckRun`
  is a run that gets there).
- A failure that comes after the server renamed a contact leaves the contact under its old name
  (src/e-book-backend-tp.c:1286-1293): `CoherentRuns.LateFailureBreaks` says exactly when.
- A contact that the server renames in phase 3 to a name nobody has is re-indexed but not put among those
  that are written (src/e-book-backend-tp.c:1316-1319), whether it was added or its handle refused
  (`Gaps.RenameIsNotSaved`, `Gaps.StaleRow`). Over all steps of the phase its row agrees with it exactly
  when some step puts it among those written, or each such rename is followed by a merge that flushes it
  (`PhaseRows.RowAgreesIff`); an update of the same contact in the same phase is enough
  (`Gaps.UpdatedFirstIsSaved`).
- Rows of the cache are unique by uid only; loading is coherent exactly when no two have one name
  (`CoherentRequests.LoadCoherentIff`).
- Updating a contact that has no row still inserts its child rows
  (src/e-book-backend-tp-db.c:1241-1263): `Store.UpdateStores` says when that leaves orphans, and
  `Store.OrphansRevive` that the next contact with that uid inherits them.
- Announcing pending changes cancels the idle that would also flush the cache
  (src/e-book-backend-tp.c:173-177). From a queue that has its idle, a callback leaves one that has none
  exactly when contacts came in, or something waits for the cache while pending changes are announced, be
  it as such, for a new view, or at the end of an inactivity (`Stranding.ServedIff`, for runs
  `Stranding.AlwaysServedIff`). Each of the four happens: `WriteBehind.ArrivalStrandsQueue`,
  `Stranding.NotifyStrandsChange`, `Stranding.ViewStrandsChange`, `Stranding.WakingStrandsChange`.
- Phase 3, creations and some removal requests change contacts without announcing them. Phase 3 keeps the
  views up to date exactly when no step disturbs what views show of a contact without a later merge
  (`PhaseViews.Phase3CurrentIff`); one failed unblocking is enough (src/e-book-backend-tp.c:1069-1074,
  `PhaseViews.FailedUnblockIsNotShown`). A creation does exactly unless it enters a new contact while
  there is a view (`RequestViews.CreateCurrentIff`), and a removal request unless the server accepts the
  deletion of a contact whose master UIDs the request changed, or that some view does not show
  (`RequestViews.RemoveCurrentIff`, `RequestViews.RequestsCurrentIff`). Every other callback keeps them
  up to date (`ViewRuns.EventCurrentIff`).
- Adding a known contact again while offline clears its scheduled flag update
  (`Gaps.DuplicateDropsFlagUpdate`) although nothing was sent (`UpdateContact.RunUpdateContact`), and a
  contact that waits for its deletion stays marked and out of the listing (`Gaps.ReAddingKeepsDeletion`).
- A contact's own vCard lists its master UIDs in reverse, so reading it back can schedule an update of
  them (`VCards.ReadBackOwnCard` says exactly when). The name, the master UIDs as a set, and all list
  memberships stay.
- The README's section on atomic master UIDs mentions "preserve" only; the code also knows "*" and
  "if-unused" (src/e-book-backend-tp.c:2998-3026): `MasterProtocol.OtherWords` says what they do.
- Contacts that were updated in phase 3 are never taken off the list of those to update
  (`Gaps.UpdatesAreKept`), and a contact that is deleted while it waits to be added stays on the list of
  those to add (`Gaps.DeletedStillToBeAdded`); the invariants allow for both.
- When the inspection that a roster signal triggers fails, named contacts that left their last list stay
  in the contact list's table (src/e-book-backend-tp-cl.c:633-638): `RosterSpec.FailedNames` says
  exactly when that matters.

## Model

| member | source | states |
|---|---|---|
| `Runs.RunKeepsCoherence` | src/e-book-backend-tp.c:380-450 | Over every run of load, get-members, store, apply-edits, arrival, removal, change, create, remove, notify, view and disconnect callbacks, in any order: each uid leads to the contact of that uid, each name to the contact of that name, both indexes hold the same contacts, and each positive handle leads to a live contact of that handle. Assumed of the server: names normalise idempotently, a name keeps its handle while online, and no failure follows a rename. |
| `Coherence.DeleteKeeps` | src/e-book-backend-tp.c:380-450 | Deleting any set of indexed contacts with final names keeps all of that, whether or not the storage carries out the flush and the deletion. |
| `CoherentRuns.MergeKeeps` | src/e-book-backend-tp.c:1173-1227 | A merge evicts the destination's own name entry when it deletes the source; reinserting it in all three tables restores the invariant. |
| `CoherentRuns.RenameKeeps` | src/e-book-backend-tp.c:1299-1320 | From the state in which a renamed contact is in no name entry, both the merge and the reinsertion under the server's name restore the invariant. |
| `CoherentRuns.SyncAddKeeps` | src/e-book-backend-tp.c:1282-1326 | One addition of phase 3 keeps the indexes coherent for every answer of an orderly server: same name, new name nobody has, new name somebody has, refused handle, early failure. |
| `CoherentRuns.LateFailureBreaks` | src/e-book-backend-tp.c:1286-1293 | A failed addition leaves the indexes coherent if and only if the server had not given the contact another name before it failed. |
| `CoherentRuns.Phase3Keeps` | src/e-book-backend-tp.c:1238-1380 | The three loops of phase 3 keep the invariant for every order in which the queues are gone through. |
| `CoherentRuns.Phase2Keeps` | src/e-book-backend-tp.c:1392-1470 | Storing the closure and deleting the unseen contacts keeps the invariant. |
| `CoherentRuns.GetMembersKeeps` | src/e-book-backend-tp.c:1488-1629 | Taking in a roster keeps the invariant: known names keep their object, new ones get a fresh uid. |
| `CoherentRuns.ContactsAddedKeeps` | src/e-book-backend-tp.c:624-719 | New contacts keep the invariant. |
| `CoherentRuns.ContactsRemovedKeeps` | src/e-book-backend-tp.c:721-761 | Removed handles keep the invariant, repeated and unknown ones included. |
| `Coherence.SignalledKeeps` | src/e-book-backend-tp.c:452-582 | A change signal alters no uid, name or handle and keeps the invariant. |
| `CoherentRequests.CreateKeeps` | src/e-book-backend-tp.c:2729-2862 | Creating a contact from any vCard keeps the invariant: unnamed, refused, duplicate and new contacts, online and offline. |
| `CoherentRequests.RemoveContactsKeeps` | src/e-book-backend-tp.c:3108-3202 | Any list of removal requests keeps the invariant. |
| `CoherentRequests.LoadKeeps` | src/e-book-backend-tp.c:1774-1853 | Loading a cache with one row per name establishes the invariant. |
| `CoherentRequests.LoadCoherentIff` | src/e-book-backend-tp.c:1800-1841 | After loading any cache with one row per uid, the indexes are coherent if and only if no two rows have one name. |
| `Exactness.ReconciliationIsExact` | src/e-book-backend-tp.c:1392-1629 | After phases 0, 1 and 2 without other events: the known names are those of the roster and of the cached contacts flagged SCHEDULE_ADD or CONTACT_INVALID; the cache has the uids of the uid index; the handle table has exactly the roster's handles, each leading to the contact of that name; each cached contact still known is the same object and has, field by field, what its row and its roster entry say (a NULL alias, status, message or contact info in the entry leaves the cached one); each new member is as its entry says, under a new uid. |
| `Reconcile.MetAfter` | src/e-book-backend-tp.c:1522-1617 | The same, member by member, after the first k contacts of the roster were taken in. |
| `Reconcile.StoresFollow` | src/e-book-backend-tp.c:1403-1433 | The two stores of phase 2 always succeed after phase 1, and bring the rows of the cache in step with the uid index. |
| `Reconcile.UnseenNames` | src/e-book-backend-tp.c:1439-1457 | The contacts phase 2 removes are exactly the cached ones that neither are on the roster nor wait for the server. |
| `Exactness.SweepIsExact` | src/e-book-backend-tp.c:1435-1461 | Deleting the unseen contacts leaves exactly the names, rows and handles above and touches no survivor. |
| `Exactness.KeptAreFlagged` | src/e-book-backend-tp.c:1832-1837 | Loading marks as unseen exactly the contacts without SCHEDULE_ADD and CONTACT_INVALID. |
| `MemberFields.MembersTell` | src/e-book-backend-tp.c:1522-1617 | For every list of members, repeated names included, and every name: a known contact keeps its object, its alias, status, message and contact info are the last ones told that are not NULL and what they were if there is none, its status kind and handle are those told last, the mark of an unseen contact is gone, and uid, name, master UIDs, variants, pending flags, capabilities and avatar token are as before; a new name has the fields of its first entry and takes over the later ones; a name nobody mentions stays unknown. |
| `MemberFields.RosterTells` | src/e-book-backend-tp.c:1522-1617 | The same on a roster, where each name is there once, for whatever objects the members come with. |
| `MemberFields.OneEntry` | src/e-book-backend-tp.c:1522-1580 | With one entry about a known contact: each of alias, status, message and contact info is the entry's if it is not NULL and the old one otherwise; status kind and handle are the entry's; no flag but the mark of an unseen contact goes; all else is unchanged. |
| `SignalFields.SignalTells` | src/e-book-backend-tp.c:452-582 | After an alias, presence, flags, capability or contact-info signal the contact under a handle has in the fields of that kind the last news about it and every other field as before; it waits to be announced and, for alias, flags and contact info, to be saved. |
| `SignalFields.EachHasItsNews` | src/e-book-backend-tp.c:452-582 | With one piece of news for each handle, the contact under it has exactly that alias; or status kind, status and message; or flags; or capabilities; or contact info; and every other field as before. |
| `SignalFields.OthersKeepFields` | src/e-book-backend-tp.c:494-541 | A contact that no news is about keeps all its fields. |
| `SignalFields.SavedNewsAreStored` | src/e-book-backend-tp.c:339-378 | After a flush the row of a contact holds the last alias, flags or contact info that the signal told. |
| `SignalFields.LastNewsCounts` | src/e-book-backend-tp.c:452-582 | Over every run of change signals, idles, announcements, new views and changes of inactivity, each field of a known contact is that of the last news of its kind, and what it was where there was none. |
| `ArrivalFields.ArrivalsTell` | src/e-book-backend-tp.c:640-695 | For every list of contacts that come in and every name: a known contact has flags, handle and alias of the last of them, its addition is not pending any more, and everything else is as before; a new one has the fields it came in with, under a uid nobody had. |
| `LoadFields.LoadedFields` | src/e-book-backend-tp.c:1800-1841 | Loading puts every contact of the cache under its uid, marked as unseen exactly if it neither waits to be added nor was refused and otherwise as its row says, and on exactly those of the three lists that its pending flags ask for. |
| `LoadFields.RowsReturn` | src/e-book-backend-tp.c:1800-1841 | Every row of a cache comes back as such a contact. |
| `LoadFields.SavedFieldsReturn` | src/e-book-backend-tp-db.c:807-942 | A saved contact that is read back has its uid, name, alias, avatar token, flags, pending flags, contact info, variants and set of master UIDs, and no handle, presence or capabilities. |
| `WriteBehind.WriteBehindIsInvisible` | src/e-book-backend-tp.c:252-450 | For every interleaving of alias, flags, contact-info, presence and capability signals with idles, deletions, notifications, new views, inactivity and disconnects, the cache after a last flush equals the one that writing each persistent change at once leaves. |
| `WriteBehind.SignalledRefines` | src/e-book-backend-tp.c:339-378 | After a signal the rows and the queued contacts together determine the same cache as writing at once. |
| `WriteBehind.LeavingRefines` | src/e-book-backend-tp.c:721-761 | A deletion takes its contacts out of the queue before it flushes, and so writes the others and drops its own in all tables. |
| `WriteBehind.FlushAgrees` | src/e-book-backend-tp.c:252-299 | One flush makes the cache equal to the one written at once and empties the queue. |
| `WriteBehind.DeletedStaysDeleted` | src/e-book-backend-tp.c:411-436 | Whatever is queued and whatever the storage answers, these events never give a row to a uid that has none. |
| `Stranding.ServedIff` | src/e-book-backend-tp.c:156-177 | A queue of changes to be written that is empty or has an idle scheduled stays so over a callback of any kind if and only if the callback's guard fails: contacts came in; or the queue is not empty and pending changes are announced as such, for a new view, or at the end of an inactivity during which something had to wait. |
| `Stranding.AlwaysServedIff` | src/e-book-backend-tp.c:156-177 | Over a run the queue has its idle at the start and after each callback if and only if no callback finds its guard true when its turn comes. |
| `Stranding.ViewStrandsChange` | src/e-book-backend-tp.c:2269-2317 | A view opened after a persistent change and before its idle leaves the change queued with no idle. |
| `Stranding.NotifyStrandsChange` | src/e-book-backend-tp.c:156-209 | So does an announcement of pending changes. |
| `Stranding.WakingStrandsChange` | src/e-book-backend-tp.c:1945-1960 | So does coming back from inactivity. |
| `WriteBehind.ArrivalStrandsQueue` | src/e-book-backend-tp.c:701-718 | After any contact came in, whatever was queued before, the write queue is not empty and no idle is scheduled. |
| `ViewRuns.ViewsStayUpToDate` | src/e-book-backend-tp.c:156-250 | Over every run of callbacks of any kind after the members are ready, rosters together with the alias, presence and flags signals that come with them, in which each callback finds its guard true: every view shows the current vCard of each visible contact or its uid is waiting; if any is waiting, an idle is scheduled or the system is inactive and at most MAX_PENDING_CONTACTS wait; no view shows a contact that is gone. |
| `ViewRuns.EventCurrentIff` | src/e-book-backend-tp.c:156-250 | A callback of any kind, with one request if it is a removal, keeps the views up to date if and only if its guard holds. Only phase 3, creations and removals have guards that can fail. |
| `PhaseViews.Phase3CurrentIff` | src/e-book-backend-tp.c:1238-1380 | For every answer of an orderly server phase 3 keeps the views up to date if and only if each contact that a step disturbs (a failed unblocking of a blocked contact, a new handle, a new free name, a refused handle, an accepted deletion of a contact some view lacks) is settled by a merge in a later step. |
| `PhaseViews.FailedUnblockIsNotShown` | src/e-book-backend-tp.c:1069-1074 | A failed unblocking of a contact that views show as blocked leaves them showing that. |
| `RosterViews.Phase2Current` | src/e-book-backend-tp.c:1392-1470 | Phase 2 keeps the views up to date, whatever it stores and deletes. |
| `RosterViews.RosterCurrent` | src/e-book-backend-tp-cl.c:2217-2227 | A roster followed by its alias, presence and flags signals keeps the views up to date: every member is queued, known or new. |
| `RequestViews.CreateCurrentIff` | src/e-book-backend-tp.c:2729-2862 | A creation from any vCard keeps the views up to date if and only if it does not both enter a new contact and find a view. |
| `RequestViews.RemoveCurrentIff` | src/e-book-backend-tp.c:2975-3098 | One removal request keeps them up to date if and only if it is not the accepted deletion of a listed contact whose master UIDs it changed or of one that was hidden and that some view does not show. |
| `RequestViews.RequestsCurrentIff` | src/e-book-backend-tp.c:3108-3202 | A list of requests keeps them up to date at every point if and only if none disturbs them when its turn comes. |
| `SameCards.PendingNotShown` | src/e-book-backend-tp-contact.c:208-307 | What is scheduled for a contact does not show in its vCard, for any protocol field and photo. |
| `SameCards.SameCardMasters` | src/e-book-backend-tp-contact.c:208-307 | Two contacts that differ at most in master UIDs, flags and what is scheduled have the same vCard only if their master UIDs are the same list. |
| `Views.LoadingBringsUpToDate` | src/e-book-backend-tp.c:1716-1770 | When the members become ready, the views opened before are brought to that state. |
| `Views.NotifyCurrent` | src/e-book-backend-tp.c:156-209 | Announcing what waits makes every view show the vCards that would be sent now, and leaves nothing waiting. |
| `Views.SignalledCurrent` | src/e-book-backend-tp.c:494-541 | A signal leaves no changed contact unqueued. |
| `Views.ArrivingCurrent` | src/e-book-backend-tp.c:624-719 | New contacts reach every view, inactive or not. |
| `Views.DeleteCurrent` | src/e-book-backend-tp.c:417-447 | A deletion announces the other waiting contacts first and then takes its own out of every view. |
| `Views.IdlingCurrent` | src/e-book-backend-tp.c:301-337 | The idle either announces everything or the system is inactive and few contacts wait. |
| `Views.RestingCurrent` | src/e-book-backend-tp.c:1945-1960 | Coming back from inactivity announces whatever had to wait. |
| `Views.ViewingCurrent` | src/e-book-backend-tp.c:2269-2317 | A new view starts current, and the older ones stay so. |
| `OfflineRuns.OfflineDeletionsSurvive` | src/e-book-backend-tp.c:3054-3088 | Whenever some event of an offline run of creations, removals, idles and views accepts the deletion of a contact, then after the run the contact waits for its deletion, has SCHEDULE_DELETE in its row and is in no listing; and whenever that cache is loaded again, it waits for its deletion and is in no listing. |
| `OfflineRuns.EventKeepsQueued` | src/e-book-backend-tp.c:3054-3193 | No offline event loses a contact that waits for its deletion and is not invalid: later requests, creations of the same name and idles included. |
| `OfflineRuns.AcceptedQueued` | src/e-book-backend-tp.c:3163-3193 | A deletion accepted anywhere in a batch of requests waits after the batch, whatever the requests after it are. |
| `OfflineRuns.LoadedIsKept` | src/e-book-backend-tp.c:1800-1841 | Loading any cache with one row per name is a start for such a run. |
| `OfflineDelete.WaitingSurvives` | src/e-book-backend-tp.c:3163-3193 | A contact that waits at the end of an offline run has its mark in the cache and comes back as a waiting deletion. |
| `OfflineDelete.AcceptedWaits` | src/e-book-backend-tp.c:3075-3088 | A removal accepted offline puts the contact, still indexed, among those waiting for deletion. |
| `OfflineDelete.OfflineRunKept` | src/e-book-backend-tp.c:3163-3193 | Every offline run keeps each waiting contact marked in memory and in its row. |
| `OfflineDelete.StoredMarks` | src/e-book-backend-tp.c:3183-3193 | The one write at the end of a removal request marks the rows of all contacts it accepted, whatever order and repetitions the list has. |
| `OfflineDelete.MarkedRowReturns` | src/e-book-backend-tp.c:1800-1841 | A marked row comes back as a waiting deletion and as a contact no listing shows. |
| `SingleFlight.SingleFlightHolds` | src/e-book-backend-tp.c:1631-1714 | Over every run of connects, disconnects, replies and failures at most one reconciliation is in flight, one in flight implies loading, and a noted reload implies loading. |
| `SingleFlight.StuckIff` | src/e-book-backend-tp.c:1666-1678 | The backend becomes loading-with-nothing-in-flight if and only if a reconciliation ends with a reload noted while the connection is gone. |
| `SingleFlight.StuckForever` | src/e-book-backend-tp-cl.c:2416-2439 | From then on no reconciliation ever starts again, whatever the connection does. |
| `SingleFlight.StuckRun` | src/e-book-backend-tp-cl.c:2416-2439 | A run of a ready, two losses and one return of the connection and a failed answer gets there, and stays there. |
| `SingleFlight.LivelyRuns` | src/e-book-backend-tp.c:1639-1652 | In runs that are online whenever a noted reload starts, loading is equivalent to exactly one reconciliation in flight, and a noted reload has started by the time another reconciliation has ended. |
| `SingleFlight.ReconnectReloads` | src/e-book-backend-tp.c:1666-1678 | A reconnect seen while loading is noted, and the end of that loading starts one further reconciliation. |
| `SingleFlight.OnePerConnect` | src/e-book-backend-tp.c:1693-1707 | No run starts more reconciliations than it has connects. |
| `SingleFlight.CallbacksRunOut` | src/e-book-backend-tp.c:1499-1507 | Every reply or phase strictly lowers a measure, so without further connects loading comes to an end. |
| `SingleFlight.Synchroniser.SyncPhase1` | src/e-book-backend-tp.c:1631-1664 | The method changes the two switches and what is in flight as the state machine says, in all three branches. |
| `SingleFlight.Synchroniser.FinishOnlineInitialization` | src/e-book-backend-tp.c:1666-1678 | Loading ends, and a noted reload starts at once. |
| `SingleFlight.Synchroniser.StatusChanged` | src/e-book-backend-tp.c:1693-1714 | Only a change from offline to online starts or notes a reconciliation. |
| `SingleFlight.Synchroniser.GetMembersCb` | src/e-book-backend-tp.c:1499-1507 | An error ends the reconciliation; members move it on to phase 2. |
| `SingleFlight.Synchroniser.OnReady` | src/e-book-backend-tp.c:1756-1768 | When loading is over, a reconciliation starts if the account is online. |
| `SingleFlight.Synchroniser.SyncPhase2IdleCb` | src/e-book-backend-tp.c:1463-1470 | Phase 2 hands over to phase 3. |
| `SingleFlight.Synchroniser.SyncPhase3IdleCb` | src/e-book-backend-tp.c:1360-1366 | The end of phase 3 is the end of the reconciliation. |
| `RosterSpec.MirrorRefinesRoster` | src/e-book-backend-tp-cl.c:683-869 | Over every sequence of signals with disjoint duplicate-free arrays, each finished before the next and each inspection answered or failed, each contact's bits on every list are the abstract roster's state there, at most one of current, local and remote pending, and other lists are untouched; if no inspection fails, every named contact stays on some list. |
| `RosterSpec.MembersChangedShows` | src/e-book-backend-tp-cl.c:690-869 | After the callback the table shows the new roster, and a contact is queued for removal if and only if the signal removes it and that leaves it on no list. |
| `RosterSpec.FinishShows` | src/e-book-backend-tp-cl.c:622-681 | The deferred step, with any answer to the inspection or an error, keeps what the table shows; with an answer it leaves no named contact that is on no list, and with an error it does so exactly when none that left its last list was named. |
| `RosterSpec.FailedNames` | src/e-book-backend-tp-cl.c:633-638 | After a failed inspection every named contact is on some list if and only if no contact that the signal took off its last list was named. |
| `RosterMirror.ContactList.TpChannelMembersChanged` | src/e-book-backend-tp-cl.c:690-869 | The loops over the four arrays, on contact objects in the hash table, end in the specified table and queues; of the contacts the table had only the flags change, and those that enter it are new and have no more than handle and flags; nothing happens once the connection is gone. |
| `RosterMirror.ContactList.GoThroughArrays` | src/e-book-backend-tp-cl.c:716-838 | Every handle of the arrays is dealt with once and in order, and new contacts stay out of the table until all are through. |
| `RosterMirror.ContactList.MembersChangedWithDetailsCb` | src/e-book-backend-tp-cl.c:622-665 | With the inspection's answer every contact of the table is as the answers about its handle say; the arrays of the signals are, of the added, removed and updated contacts of the closure, those that have a name and whose handle the table has, each as often as it was there, and the inspected contacts; the removed ones of these leave the table. An error or a lost connection leaves all contacts and the table as they are, and nothing is announced. |
| `RosterMirror.ContactList.HandleMembersChangedIdleCb` | src/e-book-backend-tp-cl.c:667-681 | Without new contacts exactly the queued removals leave the table, unless the connection is gone. |
| `RosterMirror.ContactList.RemoveEach` | src/e-book-backend-tp-cl.c:487-524 | Exactly the handles of the removed contacts leave the table. |
| `RosterMirror.ContactList.UpdateContactDetails` | src/e-book-backend-tp-cl.c:393-455 | Each contact of the table whose handle was inspected has the identifier as its name and the alias, status kind, status, message and avatar token of the last answer about it; a name it had before is a variant, which is to be saved; handle, flags, uid, master UIDs, capabilities and contact info are as before, and so is every contact whose handle was not inspected. The array it returns has the contacts of the answers, in their order. |
| `RosterMirror.ContactList.UpdateDetails` | src/e-book-backend-tp-cl.c:412-450 | One answer: the contact under its handle has the name, alias, status kind, status, message and avatar token that were told, a replaced name is a variant, and nothing else of it or of any other contact changes. |
| `Inspections.FoundMembers` | src/e-book-backend-tp-cl.c:412-446 | A contact is among those an inspection returns if and only if the table has it under the handle of some answer. |
| `RosterMirror.ContactList.WithoutInvalid` | src/e-book-backend-tp-cl.c:526-545 | What is left of an array is the multiset of its named contacts that the table still has: each of them as often as it was there, and nobody else. |
| `RosterMirror.ContactList.FinishNamed` | src/e-book-backend-tp-cl.c:487-516 | The three arrays of the signals are the named contacts of their own queue that the table still had, and exactly the removed ones of these leave the table. |
| `RosterMirror.ContactList.GoOffline` | src/e-book-backend-tp-cl.c:1514-1549 | Every contact is reported once, with unknown presence and no capabilities and otherwise as it was, and the table is empty. |
| `WalkSpec.WalkIsComplete` | src/e-book-backend-tp-cl.c:2177-2439 | From an empty table the walk asks each primary list that has a channel once and in order, and the table ends with the union of all members, each with exactly the bits its lists give it. |
| `WalkSpec.CallsBackOnce` | src/e-book-backend-tp-cl.c:2244-2288 | Started online, the caller's callback is called exactly once for every sequence of replies, errors and disconnects, after at most six replies; started offline, never. |
| `WalkSpec.StepProgress` | src/e-book-backend-tp-cl.c:2379-2414 | Each reply lowers the number of replies to come, and the walk either goes on or gives its one answer. |
| `WalkSpec.WalksTheLists` | src/e-book-backend-tp-cl.c:2293-2377 | With good replies the walk from any list on takes in the remaining lists in order and then asks for the details. |
| `WalkSpec.ListsAscend` | src/e-book-backend-tp-cl.c:2379-2414 | The step of three visits exactly the primary lists that have a channel, each once. |
| `WalkSpec.WalkShowsRoster` | src/e-book-backend-tp-cl.c:2293-2377 | With disjoint arrays the table shows the server's roster, which is what the refinement of signals starts from. |
| `RosterWalk.GetMembersWalk.ChannelGetAllMembersCb` | src/e-book-backend-tp-cl.c:2293-2377 | On the contact objects of the table, one reply does what the walk's step says, errors and disconnects included; of the contacts the table had only the flags change, and the new ones have no more than handle and flags. |
| `RosterWalk.GetMembersWalk.GetContactsCb` | src/e-book-backend-tp-cl.c:2194-2242 | Every contact of the table is as the answers about its handle say, name and alias included, and those without an answer are as before; the callback gets the contacts the table has for the answers. An error or a lost connection changes no contact and delivers nothing. |
| `RosterWalk.GetMembersWalk.GetNextChannelMembers` | src/e-book-backend-tp-cl.c:2379-2414 | Lists without a channel are skipped; the recursion ends at the last list. |
| `RosterWalk.GetMembersWalk.GetMembers` | src/e-book-backend-tp-cl.c:2416-2439 | Offline the call reports success and nothing is under way. |
| `RosterWalk.GetMembersWalk.AddReply` | src/e-book-backend-tp-cl.c:2322-2371 | The three arrays add exactly their bits to old and new contacts; nothing but flags changes, and new contacts have no more than handle and flags. |
| `SwapRemove.RemoveInvalidContacts` | src/e-book-backend-tp-cl.c:526-545 | The backwards swap-remove loop, in place on an array, leaves exactly the multiset of named contacts still in the hash. |
| `SwapRemove.RemoveDuplicateHandles` | src/e-book-backend-tp-cl.c:1613-1699 | Given only that equal handles are adjacent, the loop leaves each handle exactly once and loses none. |
| `SwapRemove.DeduplicateOne` | src/e-book-backend-tp-cl.c:1613-1699 | One backwards step keeps the untouched prefix and the set of handles behind it, although the removal puts the last element into the hole. |
| `SwapRemove.KeptMembers` | src/e-book-backend-tp-cl.c:526-545 | The specification of the loop keeps an element if and only if it is to be kept. |
| `UpdateFlags.RunUpdateFlags` | src/e-book-backend-tp-cl.c:2441-2569 | If every call succeeds and the mirror shows the server, then on every primary list that has a channel the server's membership of the contact ends as the pending flag says; nobody else's changes; with failures each list stays or is as requested; success exactly when connected and known. |
| `UpdateFlags.UpdateList` | src/e-book-backend-tp-cl.c:2482-2541 | One list's add and remove calls, with failures and a connection lost in between. |
| `UpdateFlags.YesOnlyReaches` | src/e-book-backend-tp-contact.c:384-472 | A vCard with only "yes" and unrecognised values asks for the old memberships and the named lists, on every primary list. |
| `UpdateContact.ApplyCard` | src/e-book-backend-tp-cl.c:2441-2569 | From the vCard to the server: if every call succeeds and the mirror shows the server, the contact ends on exactly the lists it was on and those the vCard names with "yes", as far as they have a channel, and nobody else moves. |
| `UpdateContact.SendFlags` | src/e-book-backend-tp.c:1052-1060 | The flags are sent, if their update is scheduled and the server can be reached; otherwise no call is made and no list changes. |
| `UpdateContact.ClearEdits` | src/e-book-backend-tp.c:1062-1106 | Afterwards an unblocking is pending if and only if it was and it failed, the deny flag is cleared if and only if that happened, no update of flags, master UIDs or variants is pending, and every other flag and field is as before. |
| `UpdateContact.RunUpdateContact` | src/e-book-backend-tp.c:1042-1106 | The same for a whole update: the scheduled flag update is cleared whether or not it was sent, and an unblocking stays pending exactly if it failed; offline, or for a contact that is not on the mirror, nothing was sent. |
| `Unblocking.UpdateStepDone` | src/e-book-backend-tp.c:1264-1280 | One contact of the update loop: these flags of this contact change and nothing else, and it is written at the end of the phase if and only if an edit was pending. |
| `Unblocking.UnblockingIsTriedUntilAccepted` | src/e-book-backend-tp.c:1068-1090 | Whatever else phase 3 does to other contacts: once the server accepted an unblocking it is pending no more, in the contact or in its row, and no later start puts the contact among those to be updated; if the unblocking failed, every later start does, and the contact counts as unblocked. |
| `Unblocking.ExistingAbsorbs` | src/e-book-backend-tp.c:2802-2835 | A contact of the name is there: its master UIDs and variants become the unions; if it is blocked or an unblocking was pending, one is tried, and it is pending afterwards exactly if it failed, with the deny flag cleared; nobody else changes; if there was anything to do, its row has all that and every view was told, and otherwise neither rows nor views change. |
| `Unblocking.CreationAbsorbs` | src/e-book-backend-tp.c:2729-2835 | The same from the submitted vCard on, online and offline. |
| `Unblocking.BlockedAddedAgain` | src/e-book-backend-tp.c:2813-2833 | Submitting the vCard of a blocked contact when the unblocking fails, as it does offline: an unblocking is pending, the contact counts as unblocked, every view has been told so, and every later start from that cache puts the contact among those to be unblocked. |
| `StepFields.AdditionIsDone` | src/e-book-backend-tp.c:1115-1171 | An addition that ends without a merge: the server's handle and name are taken over and a replaced name becomes a variant; a refused handle marks the contact and drops what was scheduled for its lists; the addition stays pending exactly if it failed, and otherwise the contact leaves the list of those to add; the name index has it under its name; it is written at the end of the phase exactly if it kept its name; nobody else changes. |
| `StepFields.MergeIsDone` | src/e-book-backend-tp.c:1173-1227 | An addition that ends in a merge: the other contact gets the unions of variants and master UIDs and a pending unblocking, what is new is scheduled to be saved, no other field of it changes, and it is written; the added one leaves the uid index and the list. |
| `StepFields.DeletionIsDone` | src/e-book-backend-tp.c:1329-1352 | An accepted deletion is not pending any more, and the contact leaves the list and is written; one that failed changes nothing. |
| `RequestFields.CreationEnters` | src/e-book-backend-tp.c:2749-2860 | A vCard with a name nobody has makes a contact with the fields of the vCard and, online, the server's handle and name, under a uid nobody had; its addition and its three lists are pending unless the server refused the handle, which leaves the addition only; it is in the uid and the name index and among those to be added. |
| `RequestFields.CreationComesBack` | src/e-book-backend-tp.c:2841-2857 | If the creation was reported, every later start from that cache puts the contact, with these flags and not marked as unseen, among those to be added. |
| `RequestFields.RequestEnds` | src/e-book-backend-tp.c:2975-3098 | A removal request for the contact itself leaves nothing pending if the server accepted, its deletion pending and listed if not, and takes a refused contact out of the uid index and the views; one for master UIDs leaves the contact with the others, its row too, nothing of it pending once it was stored, and tells every view. Nobody else changes. |
| `RequestFields.RemovedExactly` | src/e-book-backend-tp.c:721-761 | When the server tells that contacts are gone, exactly those under the handles leave the uid index, the views and, if the storage carries the deletion out, the cache. |
| `Views.QuietWhileInactive` | src/e-book-backend-tp.c:301-337 | While the system is inactive an idle tells views nothing unless more than fifty contacts wait, and it flushes all the same; when the system is active again nothing waits. |
| `MembershipRequests.ComputedIsRequested` | src/e-book-backend-tp-contact.c:384-410 | For every sequence of list attributes, the computed pending flags are the requested ones if and only if no attribute is an effective "no", or the contact leaves at least two lists which are all its flags and every list it joins is named after the last "no". |
| `MembershipRequests.YesOnlyCard` | src/e-book-backend-tp-contact.c:384-494 | Without "no", a vCard yields the old list flags plus the named ones. |
| `MembershipRequests.NoKeepsTheList` | src/e-book-backend-tp-contact.c:403 | A contact on one list that is told to leave it keeps the flag. |
| `VCards.ReadBackOwnCard` | src/e-book-backend-tp-contact.c:208-494 | Submitting a named contact's own vCard keeps name, flags and the multiset of master UIDs and schedules no membership change for any combination of list bits; an update of master UIDs is scheduled exactly when the list differs from its reverse. |
| `VCards.ReadOwnCard` | src/e-book-backend-tp-contact.c:416-494 | Reading the attributes of one's own vCard changes nothing and collects the master UIDs in reverse. |
| `VCards.MastersInOwnCard` | src/e-book-backend-tp-contact.c:208-307 | A contact's vCard has exactly its master UIDs, last one first. |
| `Contacts.Contact.ToEContact` | src/e-book-backend-tp-contact.c:208-382 | The attributes are added part by part in the source's order, with its conditions; the result is the card of the specification. |
| `Contacts.Contact.UpdateFromEContact` | src/e-book-backend-tp-contact.c:416-494 | The loop over the attributes changes the contact in place as the specification says and reports whether it has a non-empty name. |
| `Contacts.Contact.UpdateTpAttribute` | src/e-book-backend-tp-contact.c:384-410 | "yes", "no" and other values, with the flag operations of the source. |
| `Contacts.Contact.UpdateName` | src/e-book-backend-tp-contact.c:496-522 | A new name turns the old one into a variant and schedules an update; the result says whether the name changed. |
| `Contacts.Contact.UpdateMasterUids` | src/e-book-backend-tp-contact.c:524-545 | The new master UIDs are appended in order; changed if and only if one was missing. |
| `Contacts.Contact.RemoveMasterUid` | src/e-book-backend-tp-contact.c:547-564 | The last master UID fills the hole; removed if and only if it was there. |
| `Contacts.Contact.AddVariantsFromContact` | src/e-book-backend-tp-contact.c:577-591 | All variants of the other contact are added, and an update is scheduled if it had one. |
| `ContactValues.MasterUidsFind` | src/e-book-backend-tp-contact.c:57-69 | The first position of a master UID, or -1 if and only if there is none. |
| `ContactValues.MasterUidsDiffer` | src/e-book-backend-tp-contact.c:34-48 | True if and only if the lists differ. |
| `ContactValues.AddMastersIsUnion` | src/e-book-backend-tp-contact.c:524-545 | Adding is union on sets, keeps the list free of duplicates, keeps the old list as a prefix, and changes it if and only if something is new. |
| `ContactValues.RemoveMasterIsDifference` | src/e-book-backend-tp-contact.c:547-564 | Removing is difference on sets and keeps the list free of duplicates. |
| `ContactValues.DupFaithful` | src/e-book-backend-tp-contact.c:127-168 | A duplicate has the same master UIDs if and only if there are none. |
| `NameHistory.RunConserves` | src/e-book-backend-tp.c:1173-1227 | Over every run of renames and merges, a survivor's name and variants are the union of all names ever held by the contacts merged into it, its master UIDs the union of theirs, and an unblock pending on any of them is pending on it. |
| `NameHistory.MergeConserves` | src/e-book-backend-tp.c:1173-1186 | A merge unites master UIDs and unblock marks, and keeps every name if and only if the source's own name is known to the two. |
| `MasterProtocol.EditsCompose` | README:275-310 | For every sequence of duplicate adds and removal requests, the list of master UIDs stays free of duplicates and is the fold of unions and differences: no update is lost. |
| `MasterProtocol.RequestRemovesContact` | src/e-book-backend-tp.c:2992-3052 | A request removes the contact if and only if it has no suffix, or its first field is not "*", no field is "preserve", and the named fields cover all master UIDs. |
| `MasterProtocol.RemoveFieldsIsDifference` | src/e-book-backend-tp.c:3010-3030 | The fields remove exactly the named master UIDs, "preserve" and "if-unused" excepted, and schedule a write if and only if one was removed. |
| `MasterProtocol.OtherWords` | src/e-book-backend-tp.c:2998-3026 | "*" in front clears all master UIDs and keeps the contact; "if-unused" alone asks for the contact to go exactly if it has none. |
| `Uids.GenerateUid` | src/e-book-backend-tp.c:123-143 | The loop ends within one probe more than there are uids, with the first candidate nobody has. |
| `Uids.CandidatesDiffer` | src/e-book-backend-tp.c:133-140 | Different counters give different candidates, since decimal suffixes are injective. |
| `Uids.TriedFit` | src/e-book-backend-tp.c:135-140 | Pigeonhole: n taken candidates need n uids. |
| `Text.DecimalInjective` | src/e-book-backend-tp.c:139 | Two numbers with one decimal rendering are equal. |
| `Text.SplitThenJoin` | src/e-book-backend-tp.c:2994 | Splitting at the separator loses nothing. |
| `Text.StrCmpAntisymmetric` | src/e-book-backend-tp-db.c:867 | The comparison behind the cursors is zero only for equal strings, and swapping negates it. |
| `Flags.MovedReads` | src/e-book-backend-tp-types.h:31-66 | Moving a contact on one list sets that list's state and leaves every other list and flag. |
| `Flags.MembershipUnique` | src/e-book-backend-tp-types.h:31-66 | A flag word says at most one thing about a list. |
| `Flags.FlagLayout` | src/e-book-backend-tp-types.h:31-66 | Shifting a list's flag gives its pending flags. |
| `Flags.WordAndNot` | src/e-book-backend-tp-types.h:31-66 | AND with a complement on 32-bit words is set difference on their bits; `WordOr` and `WordAnd` are union and intersection. |
| `Store.AddStores` | src/e-book-backend-tp-db.c:1091-1131 | Adding stores the row and the union of new and leftover child rows; the stored record is the contact's own if and only if the leftovers are among its own; other uids are unchanged. |
| `Store.UpdateStores` | src/e-book-backend-tp-db.c:1231-1273 | Updating replaces a known uid's record, adds none for an unknown one, and leaves orphans if and only if the uid is unknown and the contact has master UIDs or variants. |
| `Store.DeleteStores` | src/e-book-backend-tp-db.c:1295-1338 | Deleting clears the uid in all three tables and nothing else. |
| `Store.OrphansRevive` | src/e-book-backend-tp-db.c:1241-1263 | A contact updated after its row was deleted hands its master UIDs to the next contact of that uid. |
| `StoreBatches.UpdateAllIsMany` | src/e-book-backend-tp-db.c:1389-1414 | With one contact per uid a batch of updates does not depend on its order. |
| `StoreBatches.DeleteAllIsMany` | src/e-book-backend-tp-db.c:1416-1444 | A batch of deletions depends only on its set of uids. |
| `StoreBatches.UpdateManyStores` | src/e-book-backend-tp-db.c:1389-1414 | A batch replaces exactly the records of its contacts that have rows. |
| `StoreBatches.RecordsDetermine` | src/e-book-backend-tp-db.c:277-317 | Without orphans the records determine the three tables. |
| `Db.Database.AddContact` | src/e-book-backend-tp-db.c:1133-1151 | The row and all child rows, or the tables as before; fails only on a constraint or a storage fault. |
| `Db.Database.UpdateContact` | src/e-book-backend-tp-db.c:1275-1293 | The same for an update. |
| `Db.Database.DeleteContact` | src/e-book-backend-tp-db.c:1340-1358 | The same for a deletion. |
| `Db.Database.AddContacts` | src/e-book-backend-tp-db.c:1361-1387 | The fold of the single additions, or the tables exactly as before. |
| `Db.Database.UpdateContacts` | src/e-book-backend-tp-db.c:1389-1414 | The fold of the single updates, or the tables exactly as before. |
| `Db.Database.RemoveContacts` | src/e-book-backend-tp-db.c:1416-1444 | The fold of the single deletions, or the tables exactly as before. |
| `Fetch.FetchContacts` | src/e-book-backend-tp-db.c:807-942 | The forward-only pass over three cursors gives each contact the child values of its own uid, for every cursor order the queries allow; it ends on empty tables and past the last contact. |
| `Fetch.JoinMasterUids` | src/e-book-backend-tp-db.c:858-875 | The nested cursor loops, on contact objects, equal selecting each contact's rows; orphan rows are skipped. |
| `Fetch.JoinVariants` | src/e-book-backend-tp-db.c:890-909 | The same for variants. |
| `Fetch.FetchedIsRecord` | src/e-book-backend-tp-db.c:807-942 | Each record of the store is fetched exactly once, with its master UIDs and variants as sets and without duplicates. |
| `Backend.BookBackend.FlushDbUpdates` | src/e-book-backend-tp.c:252-299 | In one transaction the current values of the queued contacts, in any order; the queue is empty even when that failed. |
| `Backend.BookBackend.NotifyRemotelyUpdatedContacts` | src/e-book-backend-tp.c:156-209 | Every view hears of the visible waiting contacts, nothing waits any more, and the idle is cancelled. |
| `Backend.BookBackend.NotifyUpdatedContact` | src/e-book-backend-tp.c:218-250 | Without views nothing happens; otherwise what waits is announced first and then this contact. |
| `Backend.BookBackend.UpdateContactsIdleCb` | src/e-book-backend-tp.c:301-337 | Announces unless the system is inactive with few waiting, flushes in any case. |
| `Backend.BookBackend.UpdateContacts` | src/e-book-backend-tp.c:339-378 | Queues each contact once for the views and, if it persists, for the cache. |
| `Backend.BookBackend.DeleteContacts` | src/e-book-backend-tp.c:380-450 | The contacts leave the indexes and queues, then flush, announcement, deletion of rows, removal from the views. |
| `Backend.BookBackend.ContactsChanged` | src/e-book-backend-tp.c:986-1027 | The loop of the alias, presence, flags, capability and contact-info handlers, on contact objects, does what `SignalFields.SignalTells` says of the fields; known handles only, each queued. |
| `Backend.BookBackend.ContactsAdded` | src/e-book-backend-tp.c:624-719 | The loop over known and new names, the flush, the store and the announcement, on objects shared by the three indexes: a known name keeps its object, an unknown one gets a fresh object, one for each name. |
| `Backend.BookBackend.ContactsRemoved` | src/e-book-backend-tp.c:721-761 | Known handles lose the deletion mark and their contacts are deleted together. |
| `Backend.BookBackend.GetMembersCb` | src/e-book-backend-tp.c:1488-1629 | Phase 1 with its closure, on contact objects: the fields of `MemberFields.MembersTell`, fresh uids, the handle table only where it is free; objects as for contacts that come in. |
| `Backend.BookBackend.SyncPhase0` | src/e-book-backend-tp.c:1774-1853 | Loading: indexes, the three queues, the unseen mark, and the full listing to every view. |
| `Backend.BookBackend.SyncPhase2` | src/e-book-backend-tp.c:1392-1470 | The two stores and the deletion of the unseen contacts. |
| `Backend.BookBackend.SyncPhase3` | src/e-book-backend-tp.c:1238-1380 | Each queued edit, addition and deletion is attempted exactly once, in any order of the queues, and the batch is written in one transaction; offline nothing happens. |
| `Backend.BookBackend.SyncAddOne` | src/e-book-backend-tp.c:1282-1326 | One addition with its rename, merge and failure branches. |
| `Backend.BookBackend.RenameContact` | src/e-book-backend-tp.c:1299-1320 | The contact moves in the name index or is merged into the one that is there. |
| `Backend.BookBackend.MergeContacts` | src/e-book-backend-tp.c:1173-1227 | The fields carried over, the announcement, the deletion, and the reinsertion in all three indexes. |
| `Backend.BookBackend.RunUpdateFields` | src/e-book-backend-tp.c:1042-1106 | A flag update is tried once and an unblocking until it succeeds: it is pending afterwards if and only if it was and it failed, which also clears the deny flag; no other edit is pending, and every other flag and field is as before. |
| `Backend.BookBackend.RunAddFields` | src/e-book-backend-tp.c:1115-1171 | An invalid handle keeps the contact marked as invalid without list flags; other errors fail. |
| `Backend.BookBackend.SetInactivityStatus` | src/e-book-backend-tp.c:1945-1960 | Only the end of inactivity announces, and only if something waits. |
| `Backend.BookBackend.StartBookView` | src/e-book-backend-tp.c:2269-2317 | Pending notifications first, then the new view with the full listing if the members are ready. |
| `Backend.BookBackend.Listing` | src/e-book-backend-tp.c:2186-2241 | The listing has exactly the visible contacts of the uid index, each at its current value. |
| `Backend.BookBackend.GoOffline` | src/e-book-backend-tp.c:1708-1713 | The handle table is emptied and nothing else changes. |
| `Backend.BookBackend.RunCreateContact` | src/e-book-backend-tp.c:2729-2862 | All branches of a creation, on contact objects: unnamed vCard, refusal, a taken name with what `Unblocking.CreationAbsorbs` says of the fields, new contact, failed store. |
| `Backend.BookBackend.RunRemoveContact` | src/e-book-backend-tp.c:2975-3098 | All branches of a removal request: unknown uid, master UIDs only, invalid contact, accepted by the server, scheduled. |
| `Backend.BookBackend.ApplyRequest` | src/e-book-backend-tp.c:3006-3038 | What the suffix of a request does to the contact, and whether the contact is to go. |
| `Backend.BookBackend.RemoveContactsIdleCb` | src/e-book-backend-tp.c:3108-3202 | The requests in order, each carried out once, then one write for all accepted contacts. |
| `Environment.WelcomeIsConsistent` | src/e-book-backend-tp.c:654-680 | Named, normalised contacts with one stable handle per name, with the objects the backend gives them, are all that the theorems about arrivals ask for. |
| `Environment.OrderlyIsAllowed` | src/e-book-backend-tp.c:1264-1380 | As each list of phase 3 is gone through once, every contact is still waiting when its addition comes; nothing but an orderly server has to be assumed. |
| `Environment.ExpectedIsAllowed` | src/e-book-backend-tp.c:1716-1770 | With the objects the backend gives, what cache, server and signals keep to in their data is all that runs have to assume. |
| `BackendRuns.Perform` | src/e-book-backend-tp.c:1716-1770 | Every callback of the class does to its contact objects what one event of `Runs` does to their values, and the event carries the data of the call; so each keeps the indexes coherent if the data are as expected, and the views up to date if its guard holds. Phase 3 deals with each contact of its three lists exactly once. |
| `BackendRuns.RosterAndSignals` | src/e-book-backend-tp-cl.c:2217-2227 | A roster on contact objects, with the three signals after it, keeps the views of the class up to date. |
| `BackendExactness.Resynchronise` | src/e-book-backend-tp.c:1392-1629 | Phases 0, 1 and 2 as the class carries them out end with exactly the names, rows, handles, surviving objects and fields of `Exactness.ReconciliationIsExact`, when every write succeeds. |
| `Gaps.RenameIsNotSaved` | src/e-book-backend-tp.c:1131-1171 | A contact that the server renames to a name nobody has, be it added or refused its handle, has the new name in the index and is not among those phase 3 writes. |
| `Gaps.StaleRow` | src/e-book-backend-tp.c:1306-1325 | If that is the only step, its row keeps the old name while the contact has the new one. |
| `PhaseRows.RowAgreesIff` | src/e-book-backend-tp.c:1238-1380 | For any steps of phase 3, the row of a contact that agreed with it agrees after the phase if and only if some step put the contact among those to be written, or no step renamed it to a free name without a merge after it that flushed it. |
| `Gaps.UpdatedFirstIsSaved` | src/e-book-backend-tp.c:1264-1280 | If the update loop had something to do for the contact, its row agrees after the phase. |
| `Gaps.DuplicateDropsFlagUpdate` | src/e-book-backend-tp.c:1052-1065 | Adding a known contact again always clears its scheduled flag update; `UpdateContact.RunUpdateContact` says when it was sent. |
| `Gaps.ReAddingKeepsDeletion` | src/e-book-backend-tp.c:2802-2835 | Adding a contact that waits for its deletion leaves it in the indexes, marked, and out of every listing. |
| `Gaps.UpdatesAreKept` | src/e-book-backend-tp.c:1264-1280 | Phase 3 takes nobody off the list of those to update. |
| `Gaps.DeletedStillToBeAdded` | src/e-book-backend-tp.c:380-450 | A contact deleted while it waits to be added is out of the indexes and still on the list of those to add. |

## Left out

- D-Bus and Telepathy proxies, channel and handle requests, account and connection-manager preparation: foreign calls; what they answer is a parameter of every step.
- The pseudo-synchronous calls to the server (add, remove, unblock, update flags) are one step each; signals that arrive while such a call is in progress are not modelled.
- SQLite statements, opening, schema migration, restoring, disk-space checks and the unused-database cleanup: only the tables' contents and the failure of any statement are modelled. A backend whose database was deleted (`tpdb` is NULL) and one with a load error are not part of this model.
- Avatars: the token is a field, but token signals, downloads and files are not modelled.
- Reference counting: an object lives as long as something refers to it.
- `modify_contact_idle_cb`, the two queries for contacts, stopping a view, setting a sort order and the responses to the address book.
- The order of a full listing, and the "complete" notification that follows updates; collation is a library's.
- Capabilities are replaced as a whole by a signal; how `update_contact_capabilities` computes them is not modelled beyond its de-duplication loop.
- The `gint` counter of uid generation and the "%d" of a handle do not wrap.
- A vCard is its list of attributes; an attribute without a value reads as the empty string, and a contact's missing name, written as an empty string, is never looked up.
- A view's copy of a contact is the contact's value when the vCard was sent; two copies count as the same if their vCards are, for every protocol field and photo.
- An empty removal request names no uid and is treated as unknown.
- Factory, logging and the programs under `test/`.
- Backend.BookBackend.Listing: a map from uid to value; the sort order in which the view hears of the contacts is left out.
- Backend.BookBackend.GetMembersCb: copies made of roster contacts assume that those have no master UIDs, which is how the mirror creates them; `ContactValues.DupFaithful` says why that matters.
- BackendRuns.Perform: one callback at a time, with the objects it is given not yet among the backend's own; `Exactness.ReconciliationIsExact` and `BackendExactness.Resynchronise` are about three in a row.
- Exactness.ReconciliationIsExact: the storage carries out every write, and no other event comes between the phases; in particular no roster removal between phases 1 and 2.
- WriteBehind.WriteBehindIsInvisible: writes succeed, and arrivals, creations and removal requests, which write rows directly, are not among the events; which callbacks leave the queue without its idle is said by `Stranding.ServedIff`.
- ViewRuns.ViewsStayUpToDate: the guards of phase 3, creations and removals are those of `ViewRuns.EventCurrentIff`; that the address book library sends a created contact to its views by itself is not part of this model.
- ViewRuns.EventCurrentIff: for a list of several removal requests the exact condition is that of `RequestViews.RequestsCurrentIff`, at every point of the list; a later request may undo what an earlier one left.
- PhaseViews.Phase3CurrentIff: an orderly server, and each contact at most once in each of the three loops, which `BackendRuns.Perform` shows of the class.
- RosterViews.RosterCurrent: one handle per name; the avatar-token signal that comes with the others is left out.
- PhaseRows.RowAgreesIff: the storage carries out the writes, the contact is indexed with a row that agrees and is not merged away, and no other object of its uid is among the steps.
- Views.LoadingBringsUpToDate: nothing waits and nothing is shown before the members are ready.
- Runs.RunKeepsCoherence: assumes an orderly server as its row says; without that the invariant fails exactly as `CoherentRuns.LateFailureBreaks` and `CoherentRequests.LoadCoherentIff` say.
- RosterSpec.MirrorRefinesRoster: each signal's deferred step comes before the next signal, and a handle occurs once in a signal.
- UpdateFlags.RunUpdateFlags: the server's lists are sets of current members; pending variants are the server's own business.
- SingleFlight.SingleFlightHolds: the two switches and the callbacks under way have a class of their own; the contents of the phases are in `Backend`.
- OfflineRuns.OfflineDeletionsSurvive: the storage carries out every write, and the contact is not one the server has refused (CONTACT_INVALID), which is dropped at once.
- Unblocking.UnblockingIsTriedUntilAccepted: the write at the end of the phase succeeds, and no addition, deletion or merge of the same phase is about the contact; what those do to its fields is said by `StepFields`, and to its row by `PhaseRows.RowAgreesIff`.
- Unblocking.BlockedAddedAgain: the storage carries the flush and the write out, and the contact has a row.
- SignalFields.LastNewsCounts: the runs have no arrivals, removals, rosters or requests, which change the same fields in their own ways.
- RosterMirror.ContactList.MembersChangedWithDetailsCb: the arrays are returned, not sent; capabilities and contact info, which are asked for after that, come as signals of their own.
