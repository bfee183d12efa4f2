/** The state of the backend as a value, and what each of its callbacks does to it. A contact object
    is an identity; `heap` gives the fields it holds. What the server and the storage answer comes
    in as parameters. */
module Worlds {
  import opened Text
  import opened Flags
  import opened ContactValues
  import opened Contacts
  import opened VCards
  import opened MasterProtocol
  import opened Store
  import opened StoreBatches
  import opened Uids

  const MAX_PENDING_CONTACTS := 50

  /** The private structure of the backend. `dirty` is `contacts_to_update_in_db`, `changed` is
      `contacts_remotely_changed`, `idle` says that its update is scheduled, and a view maps each uid
      to the contact value that the last vCard sent to it was written from. */
  datatype World = World(
    heap: map<Contact, ContactData>,
    byUid: map<string, Contact>,
    byName: map<string, Contact>,
    byHandle: map<nat, Contact>,
    toAdd: map<string, Contact>,
    toUpdate: map<string, Contact>,
    toDelete: map<string, Contact>,
    dirty: map<string, Contact>,
    changed: map<string, Contact>,
    idle: bool,
    inactive: bool,
    ready: bool,
    views: seq<View>,
    db: Tables)

  type View = map<string, ContactData>

  /** The fields of a contact object. */
  function At(w: World, c: Contact): ContactData {
    if c in w.heap then w.heap[c] else NEW_CONTACT
  }

  function Put(w: World, c: Contact, d: ContactData): World {
    w.(heap := w.heap[c := d])
  }

  function Values(w: World, m: map<string, Contact>): map<string, ContactData> {
    map u | u in m :: At(w, m[u])
  }

  function DataAt(w: World, cs: seq<Contact>): (ds: seq<ContactData>)
    ensures |ds| == |cs|
  {
    seq(|cs|, i requires 0 <= i < |cs| => At(w, cs[i]))
  }

  function SetOf(cs: seq<Contact>): set<Contact> {
    set c | c in cs
  }

  function NameOf(d: ContactData): string {
    if d.name.Some? then d.name.value else ""
  }

  /** A transaction leaves its result, or what was there before. */
  function Commit(db: Tables, result: Option<Tables>, done: bool): Tables {
    if done && result.Some? then result.value else db
  }

  // ---- Views ----

  /** The visible contacts of a table, as views hear of them. */
  function VisibleOf(w: World, m: map<string, Contact>): View {
    map u | u in m && Visible(At(w, m[u])) :: At(w, m[u])
  }

  function Tell(views: seq<View>, news: View): (told: seq<View>)
    ensures |told| == |views|
  {
    seq(|views|, i requires 0 <= i < |views| => views[i] + news)
  }

  function Forget(views: seq<View>, uids: set<string>): (told: seq<View>)
    ensures |told| == |views|
  {
    seq(|views|, i requires 0 <= i < |views| => views[i] - uids)
  }

  /** `notify_remotely_updated_contacts`. The scheduled update is cancelled with it. */
  function Notify(w: World): World {
    w.(views := Tell(w.views, VisibleOf(w, w.changed)), changed := map[], idle := false)
  }

  /** Tells every view about one contact, visible or not. */
  function Announce(w: World, c: Contact): World {
    w.(views := Tell(w.views, map[At(w, c).uid := At(w, c)]))
  }

  /** `notify_updated_contact`. */
  function NotifyUpdated(w: World, c: Contact): World {
    if w.views == [] then w
    else Announce(Notify(w.(changed := w.changed - {At(w, c).uid})), c)
  }

  // ---- The two queues ----

  /** `flush_db_updates`. The queue is emptied even when the write failed. */
  function Flush(w: World, done: bool): World {
    w.(db := Commit(w.db, UpdateMany(w.db, Values(w, w.dirty)), done), dirty := map[])
  }

  function Queue(w: World, c: Contact, persist: bool): World {
    var uid := At(w, c).uid;
    w.(changed := if uid in w.changed then w.changed else w.changed[uid := c],
       dirty := if !persist || uid in w.dirty then w.dirty else w.dirty[uid := c])
  }

  function QueueAll(w: World, cs: seq<Contact>, persist: bool): World
    decreases |cs|
  {
    if cs == [] then w else QueueAll(Queue(w, cs[0], persist), cs[1..], persist)
  }

  /** `update_contacts`. */
  function UpdateContacts(w: World, cs: seq<Contact>, persist: bool): World {
    QueueAll(w, cs, persist).(idle := true)
  }

  /** `update_contacts_idle_cb`. */
  function IdleUpdate(w: World, flushed: bool): World {
    var told := if !w.inactive || |w.changed| > MAX_PENDING_CONTACTS then Notify(w) else w;
    Flush(told, flushed).(idle := false)
  }

  function UidsOf(w: World, cs: set<Contact>): set<string> {
    set c | c in cs :: At(w, c).uid
  }

  function NamesOf(w: World, cs: set<Contact>): set<string> {
    set c | c in cs && At(w, c).name.Some? :: At(w, c).name.value
  }

  function HandlesOf(w: World, cs: set<Contact>): set<nat> {
    set c | c in cs && At(w, c).handle > 0 :: At(w, c).handle
  }

  /** The loop of `delete_contacts`: the contacts leave the indexes and the two queues. */
  function Unlink(w: World, cs: set<Contact>): World {
    w.(byHandle := w.byHandle - HandlesOf(w, cs),
       changed := w.changed - UidsOf(w, cs),
       dirty := w.dirty - UidsOf(w, cs),
       byName := w.byName - NamesOf(w, cs),
       byUid := w.byUid - UidsOf(w, cs))
  }

  /** `delete_contacts`. */
  function DeleteContacts(w: World, cs: set<Contact>, flushed: bool, removed: bool): World {
    var uids := UidsOf(w, cs);
    var told := Notify(Flush(Unlink(w, cs), flushed));
    told.(db := if removed then DeleteMany(told.db, uids) else told.db, views := Forget(told.views, uids))
  }

  // ---- Signals about known contacts ----

  datatype Kind = AliasKind | PresenceKind | FlagsKind | CapabilitiesKind | InfoKind

  /** What a signal copies from the contact it carries. */
  function Received(kind: Kind, d: ContactData, news: ContactData): ContactData {
    match kind
    case AliasKind => d.(alias := news.alias)
    case PresenceKind =>
      d.(genericStatus := news.genericStatus, status := news.status, statusMessage := news.statusMessage)
    case FlagsKind => d.(flags := news.flags)
    case CapabilitiesKind => d.(capabilities := news.capabilities)
    case InfoKind => d.(contactInfo := news.contactInfo)
  }

  /** Presence and capabilities are not saved. */
  predicate Persists(kind: Kind) {
    kind.AliasKind? || kind.FlagsKind? || kind.InfoKind?
  }

  datatype Batch = Batch(world: World, contacts: seq<Contact>)

  function Receive(b: Batch, kind: Kind, news: ContactData): Batch {
    if news.handle !in b.world.byHandle then b
    else
      var c := b.world.byHandle[news.handle];
      Batch(Put(b.world, c, Received(kind, At(b.world, c), news)), b.contacts + [c])
  }

  function ReceiveAll(b: Batch, kind: Kind, news: seq<ContactData>): Batch
    decreases |news|
  {
    if news == [] then b else ReceiveAll(Receive(b, kind, news[0]), kind, news[1..])
  }

  /** The five `tp_cl_..._changed` handlers. */
  function Signalled(w: World, kind: Kind, news: seq<ContactData>): World {
    var b := ReceiveAll(Batch(w, []), kind, news);
    if b.contacts == [] then b.world else UpdateContacts(b.world, b.contacts, Persists(kind))
  }

  // ---- Contacts that come and go ----

  /** A contact that came in, and the object it gets if its name is new. */
  datatype Arrival = Arrival(data: ContactData, id: Contact)

  /** A known name comes with its object, a name nobody has with a new one. */
  predicate Placed(w: World, a: Arrival) {
    if NameOf(a.data) in w.byName then a.id == w.byName[NameOf(a.data)] else a.id !in w.heap
  }

  /** One object for each name. */
  predicate Together(w: World, a: Arrival, b: Arrival) {
    if NameOf(a.data) == NameOf(b.data) then a.id == b.id
    else (NameOf(a.data) in w.byName && NameOf(b.data) in w.byName) || a.id != b.id
  }

  /** The objects that a list of arrivals gets. */
  predicate Identified(w: World, arrivals: seq<Arrival>) {
    && (forall i :: 0 <= i < |arrivals| ==> Placed(w, arrivals[i]))
    && (forall i, j :: 0 <= i < j < |arrivals| ==> Together(w, arrivals[i], arrivals[j]))
  }

  /** A callback that goes through arrivals, with its two arrays. */
  datatype Intake = Intake(world: World, toAdd: seq<Contact>, toUpdate: seq<Contact>)

  function AddKnown(d: ContactData, news: ContactData): ContactData {
    d.(flags := news.flags, handle := news.handle, alias := news.alias, pendingFlags := d.pendingFlags - {SCHEDULE_ADD})
  }

  function WithUid(w: World, path: string, d: ContactData): ContactData {
    d.(uid := FreshUid(w.byUid.Keys, path, NameOf(d)))
  }

  /** One contact of `tp_cl_contacts_added`. */
  function TakeIn(s: Intake, path: string, a: Arrival): Intake {
    var w, name := s.world, NameOf(a.data);
    if name in w.byName then
      var c := w.byName[name];
      var d := AddKnown(At(w, c), a.data);
      Intake(Put(w, c, d).(byHandle := w.byHandle[d.handle := c], byUid := w.byUid[d.uid := c]),
             s.toAdd, s.toUpdate + [c])
    else
      var d := WithUid(w, path, a.data);
      Intake(Put(w, a.id, d).(byName := w.byName[name := a.id], byHandle := w.byHandle[d.handle := a.id],
                              byUid := w.byUid[d.uid := a.id]),
             s.toAdd + [a.id], s.toUpdate + [a.id])
  }

  function TakeInAll(s: Intake, path: string, arrivals: seq<Arrival>): Intake
    decreases |arrivals|
  {
    if arrivals == [] then s else TakeInAll(TakeIn(s, path, arrivals[0]), path, arrivals[1..])
  }

  function StoreNew(w: World, cs: seq<Contact>, stored: bool): World {
    w.(db := Commit(w.db, AddAll(w.db, DataAt(w, cs)), stored))
  }

  function StoreChanged(w: World, cs: seq<Contact>, stored: bool): World {
    w.(db := Commit(w.db, UpdateAll(w.db, DataAt(w, cs)), stored))
  }

  /** `tp_cl_contacts_added`. */
  function ContactsAdded(w: World, path: string, arrivals: seq<Arrival>, flushed: bool, stored: bool): World {
    var s := TakeInAll(Intake(w, [], []), path, arrivals);
    var kept := StoreNew(Flush(s.world, flushed), s.toAdd, stored);
    Notify(if s.toUpdate == [] then kept else UpdateContacts(kept, s.toUpdate, true))
  }

  function Leave(b: Batch, handle: nat): Batch {
    if handle !in b.world.byHandle then b
    else
      var c := b.world.byHandle[handle];
      var d := At(b.world, c);
      Batch(Put(b.world, c, d.(pendingFlags := d.pendingFlags - {SCHEDULE_DELETE})), b.contacts + [c])
  }

  function LeaveAll(b: Batch, handles: seq<nat>): Batch
    decreases |handles|
  {
    if handles == [] then b else LeaveAll(Leave(b, handles[0]), handles[1..])
  }

  /** `tp_cl_contacts_removed`. */
  function ContactsRemoved(w: World, handles: seq<nat>, flushed: bool, removed: bool): World {
    var b := LeaveAll(Batch(w, []), handles);
    if b.contacts == [] then b.world else DeleteContacts(b.world, SetOf(b.contacts), flushed, removed)
  }

  // ---- Phase 0 ----

  /** A fetched contact is unseen until the roster is known, unless it waits for the server. */
  function Marked(d: ContactData): ContactData {
    if SCHEDULE_ADD in d.pendingFlags || CONTACT_INVALID in d.flags then d
    else d.(flags := d.flags + {CONTACT_UNSEEN})
  }

  /** One contact fetched from the cache. */
  function LoadOne(w: World, a: Arrival): World {
    var c, d := a.id, a.data;
    w.(heap := w.heap[c := Marked(d)], byUid := w.byUid[d.uid := c], byName := w.byName[NameOf(d) := c],
       toAdd := if SCHEDULE_ADD in d.pendingFlags then w.toAdd[d.uid := c] else w.toAdd,
       toUpdate := if SCHEDULE_UPDATE_FLAGS in d.pendingFlags || SCHEDULE_UNBLOCK in d.pendingFlags
                   then w.toUpdate[d.uid := c] else w.toUpdate,
       toDelete := if SCHEDULE_DELETE in d.pendingFlags then w.toDelete[d.uid := c] else w.toDelete)
  }

  function LoadAll(w: World, arrivals: seq<Arrival>): World
    decreases |arrivals|
  {
    if arrivals == [] then w else LoadAll(LoadOne(w, arrivals[0]), arrivals[1..])
  }

  /** `_sync_phase_0_idle_cb` and the "ready" handler it triggers: every view that is already there
      gets the full listing. */
  function Load(w: World, arrivals: seq<Arrival>): World {
    var loaded := LoadAll(w, arrivals);
    loaded.(ready := true, views := Tell(loaded.views, VisibleOf(loaded, loaded.byUid)))
  }

  // ---- Phases 1 and 2 ----

  /** `old` unless it is NULL or the news says something else. */
  function Newer<T(==)>(before: Option<T>, news: Option<T>): Option<T> {
    if before.None? || (news.Some? && before != news) then news else before
  }

  function Refreshed(d: ContactData, news: ContactData): ContactData {
    d.(alias := Newer(d.alias, news.alias),
       genericStatus := news.genericStatus,
       status := Newer(d.status, news.status),
       statusMessage := Newer(d.statusMessage, news.statusMessage),
       contactInfo := Newer(d.contactInfo, news.contactInfo),
       handle := news.handle,
       flags := d.flags - {CONTACT_UNSEEN})
  }

  predicate AliasDiffers(d: ContactData, news: ContactData) {
    d.alias.None? || (news.alias.Some? && d.alias != news.alias)
  }

  function IndexHandle(w: World, handle: nat, c: Contact): World {
    if handle in w.byHandle then w else w.(byHandle := w.byHandle[handle := c])
  }

  /** One contact of `tp_cl_get_members_cb`. */
  function Meet(s: Intake, path: string, a: Arrival): Intake {
    var w, name := s.world, NameOf(a.data);
    if name in w.byName then
      var c := w.byName[name];
      Intake(IndexHandle(Put(w, c, Refreshed(At(w, c), a.data)), a.data.handle, c),
             s.toAdd, if AliasDiffers(At(w, c), a.data) then s.toUpdate + [c] else s.toUpdate)
    else
      var d := WithUid(w, path, a.data);
      var met := Put(w, a.id, d).(byUid := w.byUid[d.uid := a.id], byName := w.byName[name := a.id]);
      Intake(IndexHandle(met, a.data.handle, a.id), s.toAdd + [a.id], s.toUpdate)
  }

  function MeetAll(s: Intake, path: string, arrivals: seq<Arrival>): Intake
    decreases |arrivals|
  {
    if arrivals == [] then s else MeetAll(Meet(s, path, arrivals[0]), path, arrivals[1..])
  }

  /** `tp_cl_get_members_cb`: the arrays of the result are the closure of phase 2. */
  function GetMembers(w: World, path: string, arrivals: seq<Arrival>): Intake {
    MeetAll(Intake(w, [], []), path, arrivals)
  }

  function Unseen(w: World): set<Contact> {
    set n | n in w.byName && CONTACT_UNSEEN in At(w, w.byName[n]).flags :: w.byName[n]
  }

  /** `_sync_phase_2_idle_cb`. */
  function Phase2(s: Intake, added: bool, updated: bool, flushed: bool, removed: bool): World {
    var w := StoreChanged(StoreNew(s.world, s.toAdd, added), s.toUpdate, updated);
    if Unseen(w) == {} then w else DeleteContacts(w, Unseen(w), flushed, removed)
  }

  // ---- Phase 3 ----

  /** A pending edit that `run_update_contact` deals with. */
  predicate NeedsUpdate(d: ContactData) {
    || SCHEDULE_UPDATE_FLAGS in d.pendingFlags || SCHEDULE_UNBLOCK in d.pendingFlags
    || SCHEDULE_UPDATE_MASTER_UID in d.pendingFlags || SCHEDULE_UPDATE_VARIANTS in d.pendingFlags
  }

  /** `run_update_contact`: a flag update is tried once, an unblock until it succeeds. */
  function RunUpdate(d: ContactData, unblocked: bool): ContactData {
    var pending := d.pendingFlags - {SCHEDULE_UPDATE_FLAGS, SCHEDULE_UPDATE_MASTER_UID, SCHEDULE_UPDATE_VARIANTS};
    if SCHEDULE_UNBLOCK !in d.pendingFlags then d.(pendingFlags := pending)
    else if unblocked then d.(pendingFlags := pending - {SCHEDULE_UNBLOCK})
    else d.(pendingFlags := pending, flags := d.flags - {CL_DENY})
  }

  datatype Verdict = Success | InvalidHandle | OtherError

  /** How far adding a contact on the server came: the handle it gave, the normalised name, and how
      it ended. */
  datatype Answer = Answer(handle: Option<nat>, name: Option<string>, verdict: Verdict)

  /** The steps of `e_book_backend_tp_cl_run_add_contact` come one after the other. */
  predicate Possible(a: Answer) {
    (a.verdict.Success? ==> a.name.Some?) && (a.name.Some? ==> a.handle.Some?)
  }

  function Normalised(d: ContactData, a: Answer): ContactData {
    var d' := if a.handle.Some? then d.(handle := a.handle.value) else d;
    if a.name.Some? then UpdateName(d', a.name.value) else d'
  }

  /** `run_add_contact`: an invalid handle keeps the contact, marked as invalid. */
  function RunAdd(d: ContactData, a: Answer): (ContactData, bool) {
    if CONTACT_INVALID in d.flags then (d, true)
    else
      var d' := Normalised(d, a);
      match a.verdict
      case Success => (d', true)
      case InvalidHandle =>
        (d'.(flags := d'.flags + {CONTACT_INVALID},
             pendingFlags := d'.pendingFlags - {SCHEDULE_UPDATE_FLAGS} - ALL_LIST_FLAGS), true)
      case OtherError => (d', false)
  }

  /** `merge_contacts`. */
  function Merge(w: World, dest: Contact, src: Contact, flushed: bool, removed: bool): World {
    var merged := Put(w, dest, MergeData(At(w, dest), At(w, src)));
    var left := DeleteContacts(Announce(merged, dest), {src}, flushed, removed);
    var d := At(left, dest);
    left.(byHandle := left.byHandle[d.handle := dest], byName := left.byName[NameOf(d) := dest],
          byUid := left.byUid[d.uid := dest])
  }

  /** One contact of the update loop; the batch collects what is to be written. */
  function SyncUpdate(b: Batch, c: Contact, unblocked: bool): Batch {
    var d := At(b.world, c);
    if NeedsUpdate(d) then Batch(Put(b.world, c, RunUpdate(d, unblocked)), b.contacts + [c]) else b
  }

  /** A contact whose server name turned out to be another one than `was`. */
  function Rename(b: Batch, c: Contact, was: string, flushed: bool, removed: bool): Batch {
    var w := b.world.(byName := b.world.byName - {was});
    var name := NameOf(At(w, c));
    if name in w.byName then
      Batch(Merge(w, w.byName[name], c, flushed, removed), b.contacts + [w.byName[name]])
    else Batch(w.(byName := w.byName[name := c]), b.contacts)
  }

  /** One contact of the add loop. */
  function SyncAdd(b: Batch, c: Contact, a: Answer, flushed: bool, removed: bool): Batch {
    var d := At(b.world, c);
    var (d', added) := RunAdd(d, a);
    if !added then Batch(Put(b.world, c, d'), b.contacts)
    else
      var w := Put(b.world, c, d'.(pendingFlags := d'.pendingFlags - {SCHEDULE_ADD}));
      var done := if NameOf(d) == NameOf(d') then Batch(w, b.contacts + [c])
                  else Rename(Batch(w, b.contacts), c, NameOf(d), flushed, removed);
      Batch(done.world.(toAdd := done.world.toAdd - {d.uid}), done.contacts)
  }

  /** One contact of the delete loop. */
  function SyncDelete(b: Batch, c: Contact, removed: bool): Batch {
    var d := At(b.world, c);
    if !removed then b
    else
      var w := Put(b.world, c, d.(pendingFlags := d.pendingFlags - {SCHEDULE_DELETE}));
      Batch(w.(toDelete := w.toDelete - {d.uid}), b.contacts + [c])
  }

  datatype SyncStep =
    | StepUpdate(c: Contact, unblocked: bool)
    | StepAdd(c: Contact, answer: Answer, flushed: bool, removed: bool)
    | StepDelete(c: Contact, removed: bool)

  function SyncOne(b: Batch, s: SyncStep): Batch {
    match s
    case StepUpdate(c, unblocked) => SyncUpdate(b, c, unblocked)
    case StepAdd(c, a, flushed, removed) => SyncAdd(b, c, a, flushed, removed)
    case StepDelete(c, removed) => SyncDelete(b, c, removed)
  }

  function SyncAll(b: Batch, steps: seq<SyncStep>): Batch
    decreases |steps|
  {
    if steps == [] then b else SyncAll(SyncOne(b, steps[0]), steps[1..])
  }

  /** `_sync_phase_3_idle_cb`, given the steps of its three loops. */
  function Phase3(w: World, steps: seq<SyncStep>, stored: bool): World {
    var b := SyncAll(Batch(w, []), steps);
    StoreChanged(b.world, b.contacts, stored)
  }

  // ---- Requests of the address book ----

  /** What the server and the storage answer while a contact is created. */
  datatype CreateAnswers = CreateAnswers(add: Answer, unblocked: bool, flushed: bool, stored: bool)

  /** The contact a submitted vCard makes. */
  function Submitted(w: World, path: string, d: ContactData): ContactData {
    var named := WithUid(w, path, d);
    named.(pendingFlags := named.pendingFlags + {SCHEDULE_ADD, CL_SUBSCRIBE, CL_PUBLISH, CL_STORED})
  }

  /** A contact of that name is there: it takes over the master UIDs and variants, and is unblocked. */
  function Absorbed(d: ContactData, news: ContactData): ContactData {
    var d' := AddVariants(UpdateMasterUids(d, news.masterUids), news.variants);
    if CL_DENY in d'.flags then d'.(pendingFlags := d'.pendingFlags - {CL_DENY} + {SCHEDULE_UNBLOCK}) else d'
  }

  function CreateExisting(w: World, c: Contact, news: ContactData, o: CreateAnswers): World {
    var d := Absorbed(At(w, c), news);
    if !NeedsUpdate(d) then Put(w, c, d)
    else
      var d' := RunUpdate(d, o.unblocked);
      var updated := Put(w, c, d');
      NotifyUpdated(updated.(db := Commit(w.db, RealUpdate(w.db, d'), o.stored)), c)
  }

  function CreateNew(w: World, id: Contact, d: ContactData, stored: bool): (World, Option<Contact>) {
    var known := Put(w, id, d).(byUid := w.byUid[d.uid := id], byName := w.byName[NameOf(d) := id]);
    if SCHEDULE_ADD !in d.pendingFlags then (known, Option.Some(id))
    else
      var added := RealAdd(w.db, d);
      (known.(toAdd := w.toAdd[d.uid := id], db := Commit(w.db, added, stored)),
       if stored && added.Some? then Option.Some(id) else Option.None)
  }

  /** `run_create_contact`. */
  function Create(w: World, path: string, vcardField: string, card: Card, id: Contact, online: bool, o: CreateAnswers)
    : (World, Option<Contact>)
  {
    var w' := Flush(w, o.flushed);
    var (d, named) := UpdateFromEContact(NEW_CONTACT, card, vcardField);
    if !named then (w', Option.None)
    else
      var (d', added) := if online then RunAdd(Submitted(w', path, d), o.add) else (Submitted(w', path, d), true);
      if !added then (w', Option.None)
      else if NameOf(d') in w'.byName then
        (CreateExisting(w', w'.byName[NameOf(d')], d', o), Option.Some(w'.byName[NameOf(d')]))
      else CreateNew(w', id, d', o.stored)
  }

  /** What the server and the storage answer while a removal request is carried out. */
  datatype RemoveAnswers = RemoveAnswers(accepted: bool, flushed: bool, stored: bool, removed: bool)

  /** Only master UIDs were to be removed. */
  function KeepContact(w: World, c: Contact, d: ContactData, stored: bool): World {
    if SCHEDULE_UPDATE_MASTER_UID !in d.pendingFlags then Put(w, c, d)
    else
      var written := RealUpdate(w.db, d);
      var d' := if stored && written.Some? then d.(pendingFlags := d.pendingFlags - {SCHEDULE_UPDATE_MASTER_UID}) else d;
      NotifyUpdated(Put(w, c, d').(db := Commit(w.db, written, stored)), c)
  }

  /** The contact itself is to go. */
  function DropContact(w: World, c: Contact, d: ContactData, online: bool, o: RemoveAnswers): World {
    var cleared := Put(w, c, d.(pendingFlags := {}));
    if CONTACT_INVALID in d.flags then DeleteContacts(cleared, {c}, o.flushed, o.removed)
    else if online && o.accepted then cleared
    else Put(w, c, d.(pendingFlags := {SCHEDULE_DELETE})).(toDelete := w.toDelete[d.uid := c])
  }

  /** `run_remove_contact`; the batch collects the contacts that are really removed. */
  function Remove(b: Batch, request: string, online: bool, o: RemoveAnswers): Batch {
    var w := Flush(b.world, o.flushed);
    var fields := Split(request, ';');
    if fields == [] || fields[0] !in w.byUid then Batch(w, b.contacts)
    else
      var c := w.byUid[fields[0]];
      var (d, really) := ApplySuffix(At(w, c), fields[1..]);
      if really then Batch(DropContact(w, c, d, online, o), b.contacts + [c])
      else Batch(KeepContact(w, c, d, o.stored), b.contacts)
  }

  datatype Request = Request(text: string, answers: RemoveAnswers)

  function RemoveAll(b: Batch, requests: seq<Request>, online: bool): Batch
    decreases |requests|
  {
    if requests == [] then b
    else RemoveAll(Remove(b, requests[0].text, online, requests[0].answers), requests[1..], online)
  }

  /** `remove_contacts_idle_cb`. */
  function RemoveContacts(w: World, requests: seq<Request>, online: bool, flushed: bool, stored: bool): World {
    var b := RemoveAll(Batch(Flush(Notify(w), flushed), []), requests, online);
    StoreChanged(b.world, b.contacts, stored)
  }

  // ---- Views, inactivity, connection ----

  /** `start_book_view_idle_cb`. */
  function StartView(w: World): World {
    var told := Notify(w);
    told.(views := told.views + [if told.ready then VisibleOf(told, told.byUid) else map[]])
  }

  /** `set_inactivity_status`. */
  function SetInactivity(w: World, inactive: bool): World {
    if inactive == w.inactive then w
    else
      var now := w.(inactive := inactive);
      if !inactive && |w.changed| > 0 then Notify(now) else now
  }

  /** Offline, handles mean nothing. */
  function GoOffline(w: World): World {
    w.(byHandle := map[])
  }
}
