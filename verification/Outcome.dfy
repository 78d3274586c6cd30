/**
 What one lifecycle call leaves, key by key and field by field. A slot is all the
 tables say of one key; the functions here say what a call makes of the slots,
 of the release queue, of the state file, of the node and of the kubelet. They
 use none of the critical sections, so a call and its outcome are two accounts
 of the same thing.
 */
module Outcome {
  import opened Types
  import opened Ownership
  import opened Custody

  datatype Slot = Slot(pod: Option<Pod>, row: Option<Claim>, tentative: bool, quarantined: bool)

  const EMPTY := Slot(None, None, false, false)

  function SlotAt(m: Mem, key: Key): Slot {
    Slot(if key in m.pods then Some(m.pods[key]) else None,
         if key in m.claims then Some(m.claims[key]) else None,
         key in m.tentative,
         key in m.quarantined)
  }

  /** The slots of the other keys are as they were. */
  ghost predicate Elsewhere(m: Mem, m': Mem, key: Key) {
    forall k :: k != key ==> SlotAt(m', k) == SlotAt(m, k)
  }

  /** What a call can see and change. */
  datatype View = View(m: Mem, file: StateFile, released: seq<Released>, pushed: seq<Published>)

  /** The file has exactly the rows that are not tentative, as they are, and the queue. */
  ghost predicate Mirrors(file: StateFile, m: Mem) {
    && file.releasing == m.releasing
    && (forall k :: k in file.claims <==> k in m.claims && k !in m.tentative)
    && (forall k :: k in file.claims ==> file.claims[k] == m.claims[k])
  }

  /** A write of the tables landed, or the file is as it was. */
  ghost predicate Wrote(file: StateFile, file': StateFile, m: Mem, landed: bool) {
    if landed then Mirrors(file', m) else file' == file
  }

  /** What a start makes of a key: the row of the file, its start time backfilled, in quarantine. */
  function LoadedSlot(file: StateFile, key: Key, now: Time): Slot {
    if key !in file.claims then EMPTY
    else
      var c := file.claims[key];
      Slot(None, Some(if c.claimedAt.Some? then c else c.(claimedAt := Some(now))), false, true)
  }

  // ------------------------------------------------------------------ verification

  /** A listing judges a row: it stays, with the listed deadline if it had none, or it is gone. */
  function KeptRow(c: Claim, live: Listing): Option<Claim> {
    if c.id !in live then None
    else if c.deadline.Some? then Some(c)
    else Some(c.(deadline := live[c.id]))
  }

  /** A verification judges the slots of its snapshot that still have the sandbox they had in it. */
  function JudgedSlot(slot: Slot, key: Key, before: map<Key, SandboxId>, live: Listing): Slot {
    if key in before && slot.row.Some? && slot.row.value.id == before[key] then
      slot.(quarantined := false, row := KeptRow(slot.row.value, live))
    else slot
  }

  /** A listing frees a quarantined slot. */
  function Vouched(slot: Slot, live: Listing): Slot {
    if !slot.quarantined || slot.row.None? then slot
    else slot.(quarantined := false, row := KeptRow(slot.row.value, live))
  }

  // --------------------------------------------------------------------- creating

  /** The UID a Pod answers to. */
  function AnswersTo(pod: Pod): Uid {
    if pod.controller.Some? then pod.controller.value.uid else pod.uid
  }

  /**
   The Pod has a title to the row: it is the row's own, or it answers to the recorded
   owner, or there is none on record and the row's authority is absent or the Pod's.
   */
  predicate Title(c: Claim, pod: Pod) {
    || c.podUid == pod.uid
    || (c.owner.Some? && c.owner.value.uid == AnswersTo(pod))
    || (c.owner.None? && (c.authority.None? || c.authority.value == AnswersTo(pod)))
  }

  /** The slot once a create has had it verified, if it can. */
  function Checked(slot: Slot, a: Answers): Slot {
    if a.verifying.Some? then Vouched(slot, a.verifying.value) else slot
  }

  /** The slot has a settled row at its deadline or past it. */
  predicate Overdue(slot: Slot, now: Time) {
    && slot.row.Some? && !slot.tentative && !slot.quarantined
    && slot.row.value.deadline.Some? && slot.row.value.deadline.value <= now
  }

  /** An overdue row takes the listed deadline, or is gone. */
  function Renewed(slot: Slot, now: Time, listing: Option<Listing>): Slot {
    if !Overdue(slot, now) || listing.None? then slot
    else
      var c := slot.row.value;
      slot.(row := if c.id in listing.value then Some(c.(deadline := listing.value[c.id])) else None)
  }

  /** The slot a create finds once both listings are in. */
  function Finds(slot: Slot, a: Answers): Slot {
    Renewed(Checked(slot, a), a.now, a.expiring)
  }

  /** A create needs a listing it cannot get. */
  predicate Blocked(slot: Slot, a: Answers) {
    || (slot.quarantined && a.verifying.None?)
    || (Overdue(Checked(slot, a), a.now) && a.expiring.None?)
  }

  predicate RightRuntime(pod: Pod) {
    pod.request.runtime == "" || pod.request.runtime == "sandboxd"
  }

  predicate WellFormed(pod: Pod) {
    var ttl := pod.request.ttl;
    pod.request.template != "" && (ttl.DefaultTtl? || (ttl.Seconds? && ttl.n >= 0))
  }

  /** A create gets as far as the row. */
  predicate Proceeds(slot: Slot, pod: Pod, a: Answers) {
    RightRuntime(pod) && !Blocked(slot, a)
  }

  /** The slot of another key: a create that verifies its own key verifies every quarantined one. */
  function Beside(other: Slot, slot: Slot, pod: Pod, a: Answers): Slot {
    if RightRuntime(pod) && slot.quarantined then Checked(other, a) else other
  }

  // What follows is about the slot a create finds.

  predicate Usable(slot: Slot) {
    slot.row.Some? && !slot.tentative && !slot.quarantined
  }

  predicate Takes(slot: Slot, pod: Pod) {
    Usable(slot) && Title(slot.row.value, pod)
  }

  /** The row is another owner's: it goes to the release queue. */
  predicate Refuses(slot: Slot, pod: Pod) {
    Usable(slot) && !Title(slot.row.value, pod)
  }

  /** The slot has a claim that never reached disk. */
  predicate IsStranded(slot: Slot) {
    slot.row.Some? && slot.tentative
  }

  /** The node is asked for a sandbox. */
  predicate Claims(slot: Slot, pod: Pod, a: Answers) {
    !Takes(slot, pod) && (IsStranded(slot) ==> a.returned) && WellFormed(pod)
  }

  /** And grants one. */
  predicate Gets(slot: Slot, pod: Pod, a: Answers) {
    Claims(slot, pod, a) && a.grant.Some?
  }

  predicate Served(slot: Slot, pod: Pod, a: Answers) {
    Takes(slot, pod) || (Gets(slot, pod, a) && a.committed)
  }

  function BoundTo(c: Claim, pod: Pod): Claim {
    c.(podUid := pod.uid, authority := Some(AnswersTo(pod)), owner := None)
  }

  /** The claim a grant makes for a Pod. */
  function Fresh(pod: Pod, g: Grant, now: Time): Claim {
    Claim(g.id, g.token, g.address, pod.uid, Some(AnswersTo(pod)), Some(now), g.deadline, None)
  }

  /** The slot after a grant: on file, or undone, or stranded. */
  function AfterGrant(pod: Pod, g: Grant, a: Answers): Slot {
    if !a.committed && a.undone then EMPTY
    else Slot(Some(pod.(claimId := Some(g.id))), Some(Fresh(pod, g, a.now)), !a.committed, false)
  }

  function Left(slot: Slot, pod: Pod, a: Answers): Slot {
    if Takes(slot, pod) then Slot(Some(pod), Some(BoundTo(slot.row.value, pod)), false, false)
    else if IsStranded(slot) && !a.returned then slot
    else if Gets(slot, pod, a) then AfterGrant(pod, a.grant.value, a)
    else Slot(if IsStranded(slot) then None else slot.pod, None, false, false)
  }

  /** The releases asked for, in order. */
  function ReleasesAsked(slot: Slot, pod: Pod, a: Answers): seq<Released> {
    (if IsStranded(slot) then [Released(slot.row.value.id, slot.row.value.token, a.returned)] else [])
    + if Gets(slot, pod, a) && !a.committed then [Released(a.grant.value.id, a.grant.value.token, a.undone)] else []
  }

  /** The push of Running for the row of a slot. */
  function PushOf(slot: Slot, pod: Pod): seq<Published> {
    if slot.row.None? then []
    else [Published(pod.(claimId := Some(slot.row.value.id)), Running, slot.row.value.claimedAt)]
  }

  /** What a create leaves beside the tables once it has found its slot. */
  ghost predicate Serves(v: View, v': View, slot: Slot, pod: Pod, a: Answers) {
    && v'.m.releasing == v.m.releasing + (if Refuses(slot, pod) then [slot.row.value] else [])
    && v'.released == v.released + ReleasesAsked(slot, pod, a)
    && v'.pushed == v.pushed + (if Served(slot, pod, a) then PushOf(Left(slot, pod, a), pod) else [])
    && Wrote(v.file, v'.file, v'.m, Served(slot, pod, a) && (Takes(slot, pod) ==> a.adoptSaved))
  }

  /** What a create leaves, all of it. */
  ghost predicate Creates(v: View, v': View, key: Key, pod: Pod, a: Answers) {
    var slot := SlotAt(v.m, key);
    && (forall k :: k != key ==> SlotAt(v'.m, k) == Beside(SlotAt(v.m, k), slot, pod, a))
    && if Proceeds(slot, pod, a) then
         SlotAt(v'.m, key) == Left(Finds(slot, a), pod, a) && Serves(v, v', Finds(slot, a), pod, a)
       else
         && SlotAt(v'.m, key) == (if RightRuntime(pod) then Checked(slot, a) else slot)
         && v' == v.(m := v'.m) && v'.m.releasing == v.m.releasing
  }

  predicate Succeeds(slot: Slot, pod: Pod, a: Answers) {
    Proceeds(slot, pod, a) && Served(Finds(slot, a), pod, a)
  }

  predicate Asks(slot: Slot, pod: Pod, a: Answers) {
    Proceeds(slot, pod, a) && Claims(Finds(slot, a), pod, a)
  }

  // ------------------------------------------------------------ updating, deleting

  /** The request is of another Pod generation than the one the key tracks. */
  predicate Stale(slot: Slot, pod: Pod) {
    slot.pod.Some? && slot.pod.value.uid != pod.uid
  }

  /** What an update leaves: a stale one nothing, a stranded key goes through a create, else the Pod is recorded. */
  ghost predicate Updates(v: View, v': View, key: Key, pod: Pod, a: Answers) {
    var slot := SlotAt(v.m, key);
    if Stale(slot, pod) then v' == v
    else if slot.tentative then Creates(v, v', key, pod, a)
    else
      && SlotAt(v'.m, key) == slot.(pod := Some(pod)) && Elsewhere(v.m, v'.m, key)
      && v' == v.(m := v'.m) && v'.m.releasing == v.m.releasing
  }

  /** A delete may release: it is current, the key holds a sandbox, and the Pod's owner is gone. */
  ghost predicate MayRelease(slot: Slot, pod: Pod, read: OwnerRead) {
    !Stale(slot, pod) && slot.row.Some? && (pod.controller.None? || OwnerRefuted(pod.controller.value, read))
  }

  /** The slot after a delete: empty once released, else without its Pod and with the owner of what was preserved. */
  ghost function Deleted(slot: Slot, pod: Pod, read: OwnerRead): Slot {
    if MayRelease(slot, pod, read) then EMPTY
    else slot.(pod := None, row := if slot.row.Some? then Some(slot.row.value.(owner := pod.controller)) else None)
  }

  /** What a delete leaves; a stale one and a failed release change no table. */
  ghost predicate DeletesPod(v: View, v': View, key: Key, pod: Pod, read: OwnerRead, releaseOk: bool, saved: bool) {
    var slot := SlotAt(v.m, key);
    var failed := MayRelease(slot, pod, read) && !releaseOk;
    && v'.pushed == v.pushed
    && v'.released == v.released + (if MayRelease(slot, pod, read)
                                    then [Released(slot.row.value.id, slot.row.value.token, releaseOk)] else [])
    && if Stale(slot, pod) || failed then v'.m == v.m && v'.file == v.file
       else
         && SlotAt(v'.m, key) == Deleted(slot, pod, read)
         && Elsewhere(v.m, v'.m, key) && v'.m.releasing == v.m.releasing
         && Wrote(v.file, v'.file, v'.m, slot.row.Some? && saved)
  }
}
