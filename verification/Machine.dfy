/**
 The provider as a concurrent machine that may crash. One step is one critical
 section of `mu`, one call to the node or to the API server, or one half of a
 write of the state file. Lifecycle calls run one at a time per Pod key; the
 verification loop, the lease watch and the owner re-check run beside them.
 */
module Machine {
  import opened Types
  import opened Ownership
  import opened Sections

  // ------------------------------------------------------------------ threads

  /** A lifecycle call in flight at its key, named for what it does next. */
  datatype Call =
    // CreatePod
    | CheckUnverified(pod: Pod)
    | SnapshotUnverified(pod: Pod)
    | ListUnverified(pod: Pod, before: map<Key, SandboxId>)
    | JudgeUnverified(pod: Pod, before: map<Key, SandboxId>, live: Listing)
    | CheckExpiry(pod: Pod)
    | ListExpired(pod: Pod, c: Claim)
    | JudgeExpired(pod: Pod, c: Claim, live: Listing)
    | Adopting(pod: Pod)
    | AdoptSaving(pod: Pod, c: Claim)
    | CheckStranded(pod: Pod)
    | ReturnStranded(pod: Pod, c: Claim)
    | WithdrawStranded(pod: Pod, c: Claim)
    | Claiming(pod: Pod)
    | Installing(pod: Pod, c: Claim)
    | Committing(pod: Pod, c: Claim)
    | Undoing(pod: Pod, c: Claim)
    | WithdrawUndone(pod: Pod, c: Claim)
    | PushRunning(pod: Pod, c: Claim)
    // UpdatePod
    | UpdateGuard(pod: Pod)
    | UpdateBody(pod: Pod)
    // DeletePod
    | DeleteGuard(pod: Pod)
    | DeleteLookup(pod: Pod)
    | Forgetting
    | ReadOwner(pod: Pod, c: Claim)
    | Preserving(pod: Pod, c: Claim)
    | Releasing(pod: Pod, c: Claim)
    | WithdrawReleased(pod: Pod, c: Claim)
    | Saving

  datatype Verifier =
    | VIdle
    | VList(before: map<Key, SandboxId>)
    | VJudge(before: map<Key, SandboxId>, live: Listing)

  datatype Lease =
    | LIdle
    | LList(candidates: map<Key, Claim>)
    | LJudge(candidates: map<Key, Claim>, live: Listing)

  datatype Recheck =
    | RIdle
    | RAsk(todo: map<Key, Claim>, changed: bool)
    | RWithdraw(key: Key, c: Claim, todo: map<Key, Claim>, changed: bool)
    | RDrain(queued: seq<Claim>, changed: bool)
    | RRemove(c: Claim, queued: seq<Claim>, changed: bool)
    | RSave

  datatype Saver = ByCall(key: Key) | ByRecheck

  /** The holder of `saveMu`: what it is about to rename, or has renamed, into place. */
  datatype Writer = Writer(saver: Saver, committing: Option<Key>, file: StateFile, renamed: bool)

  // -------------------------------------------------------------- the history

  /** What a run did that later steps must answer for. */
  datatype Event =
    | DeleteJudged(id: SandboxId, pod: Pod, read: OwnerRead)
    | RecheckJudged(id: SandboxId, ref: Option<OwnerRef>, read: OwnerRead)
    | AdoptionRefused(c: Claim, pod: Pod)
    | PersistFailed(id: SandboxId)
    | ReleaseCalled(id: SandboxId, token: Token, ok: bool)
    | Taken(c: Claim, pod: Pod)
    | Rebound(was: Claim, c: Claim, pod: Pod)
    | OwnerRecorded(id: SandboxId, owner: OwnerRef)
    | Status(key: Key, pod: Pod, id: SandboxId, pushed: bool, running: bool, start: Option<Time>)

  /** The part of a claim that never changes: its credential and its start time. */
  datatype Fixed = Fixed(token: Token, claimedAt: Option<Time>)

  /** The node, and what has happened since the history began. No code reads any of it but `live`, through listings. */
  datatype World = World(
    live: set<SandboxId>,              // sandboxes the node holds
    refs: map<SandboxId, string>,      // every sandbox ever issued, with the claim reference it carries
    own: set<SandboxId>,               // the ones issued to this provider, a lost response included
    book: map<SandboxId, Fixed>,        // the fixed part of every claim
    seen: set<SandboxId>,              // sandboxes that have had a row or a queue entry
    durable: set<SandboxId>,           // sandboxes that have been in the state file
    released: set<SandboxId>,          // sandboxes a release succeeded for
    gone: set<SandboxId>,              // sandboxes a listing was asked about and did not have
    undone: set<SandboxId>,            // sandboxes whose claim could not be written
    genesis: StateFile,                // the state file the history began with
    log: seq<Event>
  )

  /** The same, for one process lifetime. */
  datatype Life = Life(
    loaded: set<SandboxId>,            // sandboxes whose row came from the state file
    spent: set<SandboxId>,             // the loaded ones that had been released before
    vouched: set<SandboxId>,           // sandboxes a verification listing had
    queued: set<SandboxId>,            // sandboxes that have been in the release queue
    home: map<SandboxId, Key>          // the key each claimed or loaded sandbox is for
  )

  const NoLife := Life({}, {}, {}, {}, map[])

  datatype Proc = Down | Booting | Up

  datatype State = State(
    proc: Proc,
    mem: Mem,
    disk: StateFile,
    writer: Option<Writer>,
    calls: map<Key, Call>,
    verifier: Verifier,
    lease: Lease,
    recheck: Recheck,
    w: World,
    life: Life
  )

  // ------------------------------------------------------------------ actions

  /** What the world answers to a step of a lifecycle call. */
  datatype Input =
    | Go
    | Fails
    | At(now: Time)
    | Listed(live: Listing)
    | Owner(read: OwnerRead)
    | Granted(grant: Grant, now: Time)
    | Lost(id: SandboxId)

  datatype Action =
    | Reap(id: SandboxId)
    | ClaimElsewhere(id: SandboxId, ref: string)
    | Crash
    | Boot(now: Time)
    | BootPersist(ok: bool)
    | StartCreate(key: Key, pod: Pod)
    | StartUpdate(key: Key, pod: Pod)
    | StartDelete(key: Key, pod: Pod)
    | Advance(key: Key, input: Input)
    | ReadStatus(key: Key, now: Time)
    | SaveBegin(saver: Saver)
    | SaveRename
    | SaveEnd(ok: bool)
    | VerifyBegin
    | VerifyListed(live: Listing)
    | VerifyFails
    | VerifyJudge
    | LeaseBegin(now: Time)
    | LeaseListed(live: Listing)
    | LeaseFails
    | LeaseJudge(key: Key)
    | LeaseEnd
    | RecheckBegin
    | RecheckSkip(key: Key)
    | RecheckAsk(key: Key, read: OwnerRead)
    | RecheckWithdraw
    | DrainBegin
    | DrainRelease(ok: bool)
    | DrainRemove
    | DrainEnd

  // ------------------------------------------------------------- the history

  function Logged(w: World, e: Event): World {
    w.(log := w.log + [e])
  }

  /** A listing is the live set of the instant it is taken; the sandboxes it was asked about and lacks are gone. */
  function Observed(w: World, asked: set<SandboxId>, live: Listing): World {
    w.(gone := w.gone + (asked - live.Keys))
  }

  /** A release that succeeds leaves the sandbox gone from the node. */
  function ReleaseDone(w: World, c: Claim): World {
    w.(log := w.log + [ReleaseCalled(c.id, c.token, true)], released := w.released + {c.id}, live := w.live - {c.id})
  }

  function ReleaseFailed(w: World, c: Claim): World {
    Logged(w, ReleaseCalled(c.id, c.token, false))
  }

  /** A claim whose write failed. */
  function Failed(w: World, id: SandboxId): World {
    w.(log := w.log + [PersistFailed(id)], undone := w.undone + {id})
  }

  /** The node issues a fresh sandbox; no id is ever issued twice. */
  function Issued(w: World, id: SandboxId, ref: string): World {
    w.(live := w.live + {id}, refs := w.refs[id := ref])
  }

  // ------------------------------------------------------- the node on its own

  predicate ReapStep(s: State, s': State, id: SandboxId) {
    s' == s.(w := s.w.(live := s.w.live - {id}))
  }

  predicate ClaimElsewhereStep(s: State, s': State, id: SandboxId, ref: string) {
    id !in s.w.refs && s' == s.(w := Issued(s.w, id, ref))
  }

  // ----------------------------------------------------- the process lifetime

  predicate CrashStep(s: State, s': State) {
    && !s.proc.Down?
    && s' == State(Down, NoMem, s.disk, None, map[], VIdle, LIdle, RIdle, s.w, NoLife)
  }

  function LegacyIds(claims: map<Key, Claim>): set<SandboxId> {
    set k | k in claims && claims[k].claimedAt.None? :: claims[k].id
  }

  /** A row without a start time gets the start time of this load. */
  function Restamped(book: map<SandboxId, Fixed>, legacy: set<SandboxId>, now: Time): map<SandboxId, Fixed> {
    map id | id in book :: if id in legacy then book[id].(claimedAt := Some(now)) else book[id]
  }

  ghost function HomeOf(claims: map<Key, Claim>): map<SandboxId, Key> {
    map id | id in TableIds(claims) :: var k :| k in claims && claims[k].id == id; k
  }

  ghost predicate BootStep(s: State, s': State, now: Time) {
    && s.proc.Down?
    && var mem := Load(s.disk, now);
       var before := Unverified(mem);
       s' == s.(
         proc := Booting,
         mem := mem,
         verifier := if before == map[] then VIdle else VList(before),
         w := s.w.(book := Restamped(s.w.book, LegacyIds(s.disk.claims), now)),
         life := Life(TableIds(s.disk.claims), TableIds(s.disk.claims) * s.w.released, {},
                      QueueIds(s.disk.releasing), HomeOf(s.disk.claims)))
  }

  /** `New` succeeds only once the loaded table is on disk again. */
  predicate BootPersistStep(s: State, s': State, ok: bool) {
    && s.proc.Booting?
    && s.verifier.VIdle?
    && if ok then
         var file := Snapshot(s.mem, None);
         s' == s.(proc := Up, disk := file, w := s.w.(durable := s.w.durable + Ids(file.claims, file.releasing)))
       else
         s' == State(Down, NoMem, s.disk, None, map[], VIdle, LIdle, RIdle, s.w, NoLife)
  }

  // ---------------------------------------------------------- lifecycle calls

  function Goto(s: State, key: Key, call: Call): State {
    s.(calls := s.calls[key := call])
  }

  function Return(s: State, key: Key): State {
    s.(calls := s.calls - {key})
  }

  predicate StartStep(s: State, s': State, key: Key, call: Call) {
    s.proc.Up? && key !in s.calls && s' == Goto(s, key, call)
  }

  predicate CheckUnverifiedStep(s: State, s': State, key: Key, pod: Pod) {
    s' == Goto(s, key, if key in s.mem.quarantined then SnapshotUnverified(pod) else CheckExpiry(pod))
  }

  predicate SnapshotUnverifiedStep(s: State, s': State, key: Key, pod: Pod) {
    var before := Unverified(s.mem);
    s' == Goto(s, key, if before == map[] then CheckExpiry(pod) else ListUnverified(pod, before))
  }

  predicate ListUnverifiedStep(s: State, s': State, key: Key, pod: Pod, before: map<Key, SandboxId>, live: Listing) {
    && live.Keys == s.w.live
    && s' == Goto(s, key, JudgeUnverified(pod, before, live)).(
               w := Observed(s.w, before.Values, live),
               life := s.life.(vouched := s.life.vouched + (before.Values * live.Keys)))
  }

  predicate JudgeUnverifiedStep(s: State, s': State, key: Key, pod: Pod, before: map<Key, SandboxId>, live: Listing) {
    s' == Goto(s, key, CheckExpiry(pod)).(mem := Verify(s.mem, before, live))
  }

  predicate CheckExpiryStep(s: State, s': State, key: Key, pod: Pod, now: Time) {
    var expired := key in s.mem.claims && s.mem.Settled(key) && s.mem.claims[key].Expired(now);
    s' == Goto(s, key, if expired then ListExpired(pod, s.mem.claims[key]) else Adopting(pod))
  }

  predicate ListExpiredStep(s: State, s': State, key: Key, pod: Pod, c: Claim, live: Listing) {
    && live.Keys == s.w.live
    && s' == Goto(s, key, JudgeExpired(pod, c, live)).(w := Observed(s.w, {c.id}, live))
  }

  predicate JudgeExpiredStep(s: State, s': State, key: Key, pod: Pod, c: Claim, live: Listing) {
    s' == Goto(s, key, Adopting(pod)).(
            mem := if c.id in live then Refresh(s.mem, key, c.id, live[c.id]) else Drop(s.mem, key, c.id))
  }

  predicate AdoptStep(s: State, s': State, key: Key, pod: Pod) {
    match Adoptable(s.mem, key, pod)
    case Adopted(c) =>
      && key in s.mem.claims
      && s' == Goto(s, key, AdoptSaving(pod, c)).(
                 mem := Adopt(s.mem, key, pod), w := Logged(s.w, Rebound(s.mem.claims[key], c, pod)))
    case Refused(c) =>
      s' == Goto(s, key, CheckStranded(pod)).(
              mem := Adopt(s.mem, key, pod), w := Logged(s.w, AdoptionRefused(c, pod)),
              life := s.life.(queued := s.life.queued + {c.id}))
    case NothingToAdopt =>
      s' == Goto(s, key, CheckStranded(pod))
  }

  predicate CheckStrandedStep(s: State, s': State, key: Key, pod: Pod) {
    var stranded := key in s.mem.claims && key in s.mem.tentative;
    s' == Goto(s, key, if stranded then ReturnStranded(pod, s.mem.claims[key]) else Claiming(pod))
  }

  /** A release by a call: on success it goes on, on failure it returns the error. */
  predicate ReleaseStep(s: State, s': State, key: Key, c: Claim, ok: bool, next: Call) {
    if ok then s' == Goto(s, key, next).(w := ReleaseDone(s.w, c))
    else s' == Return(s, key).(w := ReleaseFailed(s.w, c))
  }

  predicate WithdrawStrandedStep(s: State, s': State, key: Key, pod: Pod, c: Claim) {
    s' == Goto(s, key, Claiming(pod)).(mem := Withdraw(s.mem, key, c.id))
  }

  predicate ClaimStep(s: State, s': State, key: Key, pod: Pod, c: Claim) {
    && pod.request.Valid()
    && c.id !in s.w.refs
    && c.claimedAt.Some? && c == c.BoundTo(pod)
    && var w := Issued(s.w, c.id, key.Text());
       s' == Goto(s, key, Installing(pod, c)).(
               w := w.(own := w.own + {c.id}, book := w.book[c.id := Fixed(c.token, c.claimedAt)],
                       log := w.log + [Taken(c, pod)]),
               life := s.life.(home := s.life.home[c.id := key]))
  }

  /** The node granted the claim but the response never arrived: nobody has the credential. */
  predicate ClaimLostStep(s: State, s': State, key: Key, id: SandboxId) {
    && id !in s.w.refs
    && var w := Issued(s.w, id, key.Text());
       s' == Return(s, key).(w := w.(own := w.own + {id}))
  }

  predicate InstallStep(s: State, s': State, key: Key, pod: Pod, c: Claim) {
    s' == Goto(s, key, Committing(pod, c)).(
            mem := Install(s.mem, key, pod, c), w := s.w.(seen := s.w.seen + {c.id}))
  }

  predicate WithdrawUndoneStep(s: State, s': State, key: Key, c: Claim) {
    s' == Return(s, key).(mem := Withdraw(s.mem, key, c.id))
  }

  predicate PushRunningStep(s: State, s': State, key: Key, pod: Pod, c: Claim) {
    s' == Return(s, key).(w := Logged(s.w, Status(key, pod.WithClaim(c.id), c.id, true, true, c.claimedAt)))
  }

  predicate GuardStep(s: State, s': State, key: Key, pod: Pod, next: Call) {
    var stale := key in s.mem.pods && s.mem.pods[key].uid != pod.uid;
    s' == if stale then Return(s, key) else Goto(s, key, next)
  }

  predicate UpdateBodyStep(s: State, s': State, key: Key, pod: Pod) {
    if key in s.mem.tentative then
      s' == if pod.request.RightRuntime() then Goto(s, key, CheckUnverified(pod)) else Return(s, key)
    else
      s' == Return(s, key).(mem := Track(s.mem, key, pod))
  }

  predicate DeleteLookupStep(s: State, s': State, key: Key, pod: Pod) {
    s' == Goto(s, key, if key in s.mem.claims then ReadOwner(pod, s.mem.claims[key]) else Forgetting)
  }

  predicate ForgetStep(s: State, s': State, key: Key) {
    s' == Return(s, key).(mem := Forget(s.mem, key))
  }

  predicate ReadOwnerStep(s: State, s': State, key: Key, pod: Pod, c: Claim, read: OwnerRead) {
    var next := if DestroyAuthorized(pod.controller, read).Release? then Releasing(pod, c) else Preserving(pod, c);
    s' == Goto(s, key, next).(w := Logged(s.w, DeleteJudged(c.id, pod, read)))
  }

  predicate PreserveStep(s: State, s': State, key: Key, pod: Pod, c: Claim) {
    && pod.controller.Some?
    && s' == Goto(s, key, Saving).(
               mem := PreserveRow(s.mem, key, c.id, pod.controller),
               w := if s.mem.Row(key, c.id) then Logged(s.w, OwnerRecorded(c.id, pod.controller.value)) else s.w)
  }

  predicate WithdrawReleasedStep(s: State, s': State, key: Key, c: Claim) {
    s' == Goto(s, key, Saving).(mem := Withdraw(s.mem, key, c.id))
  }

  /** The part of a create that settles and adopts what its key holds. */
  predicate SettleStep(s: State, s': State, key: Key, call: Call, input: Input) {
    match call
    case CheckUnverified(pod) => input.Go? && CheckUnverifiedStep(s, s', key, pod)
    case SnapshotUnverified(pod) => input.Go? && SnapshotUnverifiedStep(s, s', key, pod)
    case ListUnverified(pod, before) =>
      || (input.Fails? && s' == Return(s, key))
      || (input.Listed? && ListUnverifiedStep(s, s', key, pod, before, input.live))
    case JudgeUnverified(pod, before, live) => input.Go? && JudgeUnverifiedStep(s, s', key, pod, before, live)
    case CheckExpiry(pod) => input.At? && CheckExpiryStep(s, s', key, pod, input.now)
    case ListExpired(pod, c) =>
      || (input.Fails? && s' == Return(s, key))
      || (input.Listed? && ListExpiredStep(s, s', key, pod, c, input.live))
    case JudgeExpired(pod, c, live) => input.Go? && JudgeExpiredStep(s, s', key, pod, c, live)
    case Adopting(pod) => input.Go? && AdoptStep(s, s', key, pod)
    case _ => false
  }

  /** A release by a call asks the node once: it goes on when that succeeds and returns when it fails. */
  predicate AsksRelease(s: State, s': State, key: Key, c: Claim, input: Input, next: Call) {
    (input.Go? || input.Fails?) && ReleaseStep(s, s', key, c, input.Go?, next)
  }

  /** The part that claims afresh. */
  predicate ClaimingStep(s: State, s': State, key: Key, call: Call, input: Input) {
    match call
    case CheckStranded(pod) => input.Go? && CheckStrandedStep(s, s', key, pod)
    case ReturnStranded(pod, c) => AsksRelease(s, s', key, c, input, WithdrawStranded(pod, c))
    case WithdrawStranded(pod, c) => input.Go? && WithdrawStrandedStep(s, s', key, pod, c)
    case Claiming(pod) => AskNodeStep(s, s', key, pod, input)
    case Installing(pod, c) => input.Go? && InstallStep(s, s', key, pod, c)
    case _ => false
  }

  /** The claim is refused, granted, or granted in a response that is lost; a malformed request is refused unasked. */
  predicate AskNodeStep(s: State, s': State, key: Key, pod: Pod, input: Input) {
    match input
    case Fails => s' == Return(s, key)
    case Lost(id) => pod.request.Valid() && ClaimLostStep(s, s', key, id)
    case Granted(g, now) => ClaimStep(s, s', key, pod, FreshClaim(pod, g, now))
    case _ => false
  }

  /** Undoing a claim that could not be written, and publishing one that was. */
  predicate FinishStep(s: State, s': State, key: Key, call: Call, input: Input) {
    match call
    case Undoing(pod, c) => AsksRelease(s, s', key, c, input, WithdrawUndone(pod, c))
    case WithdrawUndone(pod, c) => input.Go? && WithdrawUndoneStep(s, s', key, c)
    case PushRunning(pod, c) => input.Go? && PushRunningStep(s, s', key, pod, c)
    case UpdateGuard(pod) => input.Go? && GuardStep(s, s', key, pod, UpdateBody(pod))
    case UpdateBody(pod) => input.Go? && UpdateBodyStep(s, s', key, pod)
    case _ => false
  }

  predicate DeletingStep(s: State, s': State, key: Key, call: Call, input: Input) {
    match call
    case DeleteGuard(pod) => input.Go? && GuardStep(s, s', key, pod, DeleteLookup(pod))
    case DeleteLookup(pod) => input.Go? && DeleteLookupStep(s, s', key, pod)
    case Forgetting => input.Go? && ForgetStep(s, s', key)
    case ReadOwner(pod, c) => input.Owner? && ReadOwnerStep(s, s', key, pod, c, input.read)
    case Preserving(pod, c) => input.Go? && PreserveStep(s, s', key, pod, c)
    case Releasing(pod, c) => AsksRelease(s, s', key, c, input, WithdrawReleased(pod, c))
    case WithdrawReleased(pod, c) => input.Go? && WithdrawReleasedStep(s, s', key, c)
    case _ => false
  }

  predicate AdvanceStep(s: State, s': State, key: Key, input: Input) {
    && key in s.calls
    && (|| SettleStep(s, s', key, s.calls[key], input)
        || ClaimingStep(s, s', key, s.calls[key], input)
        || FinishStep(s, s', key, s.calls[key], input)
        || DeletingStep(s, s', key, s.calls[key], input))
  }

  /** A status read: Running or Failed is reported for a settled row, otherwise the Pod is Pending. */
  predicate ReadStatusStep(s: State, s': State, key: Key, now: Time) {
    && s.proc.Up?
    && key in s.mem.pods && key in s.mem.claims && s.mem.Settled(key)
    && var c := s.mem.claims[key];
       s' == s.(w := Logged(s.w, Status(key, s.mem.pods[key], c.id, false, !c.Expired(now), c.claimedAt)))
  }

  // -------------------------------------------------------------- persistence

  predicate Saves(call: Call) {
    call.AdoptSaving? || call.Committing? || call.Saving?
  }

  /** Takes `saveMu` and the snapshot. */
  predicate SaveBeginStep(s: State, s': State, saver: Saver) {
    && s.writer.None?
    && (saver.ByCall? ==> saver.key in s.calls && Saves(s.calls[saver.key]))
    && (saver.ByRecheck? ==> s.recheck.RSave?)
    && var committing := if saver.ByCall? && s.calls[saver.key].Committing? then Some(saver.key) else None;
       s' == s.(writer := Some(Writer(saver, committing, Snapshot(s.mem, committing), false)))
  }

  predicate SaveRenameStep(s: State, s': State) {
    && s.writer.Some? && !s.writer.value.renamed
    && var file := s.writer.value.file;
       s' == s.(disk := file, writer := Some(s.writer.value.(renamed := true)),
                w := s.w.(durable := s.w.durable + Ids(file.claims, file.releasing)))
  }

  /** Leaves `saveMu`; a commit clears its marker first, a failed commit goes on to its undo. */
  predicate SaveEndStep(s: State, s': State, ok: bool) {
    && s.writer.Some? && s.writer.value.renamed == ok
    && match s.writer.value.saver
       case ByRecheck => s' == s.(writer := None, recheck := RIdle)
       case ByCall(key) => key in s.calls && SavedStep(s, s', key, s.calls[key], ok)
  }

  predicate SavedStep(s: State, s': State, key: Key, call: Call, ok: bool) {
    match call
    case AdoptSaving(pod, c) => s' == Goto(s, key, PushRunning(pod, c)).(writer := None)
    case Saving => s' == Return(s, key).(writer := None)
    case Committing(pod, c) =>
      if ok then s' == Goto(s, key, PushRunning(pod, c)).(writer := None, mem := ClearMarker(s.mem, key))
      else s' == Goto(s, key, Undoing(pod, c)).(writer := None, w := Failed(s.w, c.id))
    case _ => false
  }

  // -------------------------------------------------------- verification loop

  predicate VerifyBeginStep(s: State, s': State) {
    && s.proc.Up? && s.verifier.VIdle?
    && var before := Unverified(s.mem);
       s' == s.(verifier := if before == map[] then VIdle else VList(before))
  }

  predicate VerifyListedStep(s: State, s': State, live: Listing) {
    && s.verifier.VList? && live.Keys == s.w.live
    && var before := s.verifier.before;
       s' == s.(verifier := VJudge(before, live),
                w := Observed(s.w, before.Values, live),
                life := s.life.(vouched := s.life.vouched + (before.Values * live.Keys)))
  }

  predicate VerifyFailsStep(s: State, s': State) {
    s.verifier.VList? && s' == s.(verifier := VIdle)
  }

  predicate VerifyJudgeStep(s: State, s': State) {
    s.verifier.VJudge? && s' == s.(verifier := VIdle, mem := Verify(s.mem, s.verifier.before, s.verifier.live))
  }

  // -------------------------------------------------------------- lease watch

  predicate LeaseBeginStep(s: State, s': State, now: Time) {
    && s.proc.Up? && s.lease.LIdle?
    && var candidates := ExpiredRows(s.mem, now);
       s' == s.(lease := if candidates == map[] then LIdle else LList(candidates))
  }

  predicate LeaseListedStep(s: State, s': State, live: Listing) {
    && s.lease.LList? && live.Keys == s.w.live
    && s' == s.(lease := LJudge(s.lease.candidates, live), w := Observed(s.w, TableIds(s.lease.candidates), live))
  }

  predicate LeaseFailsStep(s: State, s': State) {
    s.lease.LList? && s' == s.(lease := LIdle)
  }

  /** A listed candidate has its lease refreshed; an unlisted one that still holds its key is pushed Failed. */
  predicate LeaseJudgeStep(s: State, s': State, key: Key) {
    && s.lease.LJudge? && key in s.lease.candidates
    && var c, live := s.lease.candidates[key], s.lease.live;
       var next := s.(lease := LJudge(s.lease.candidates - {key}, live));
       if c.id in live then
         s' == next.(mem := Refresh(s.mem, key, c.id, live[c.id]))
       else if key in s.mem.pods && s.mem.Row(key, c.id) then
         s' == next.(w := Logged(s.w, Status(key, s.mem.pods[key], c.id, true, false, c.claimedAt)))
       else
         s' == next
  }

  predicate LeaseEndStep(s: State, s': State) {
    s.lease.LJudge? && s.lease.candidates == map[] && s' == s.(lease := LIdle)
  }

  // ------------------------------------------------------------ owner re-check

  predicate RecheckBeginStep(s: State, s': State) {
    s.proc.Up? && s.recheck.RIdle? && s' == s.(recheck := RAsk(PreservedRows(s.mem), false))
  }

  /** The row is not due yet. */
  predicate RecheckSkipStep(s: State, s': State, key: Key) {
    && s.recheck.RAsk? && key in s.recheck.todo
    && s' == s.(recheck := RAsk(s.recheck.todo - {key}, s.recheck.changed))
  }

  predicate RecheckAskStep(s: State, s': State, key: Key, read: OwnerRead) {
    && s.recheck.RAsk? && key in s.recheck.todo
    && var c, rest := s.recheck.todo[key], s.recheck.todo - {key};
       var next := if DestroyAuthorized(c.owner, read).Release? then RWithdraw(key, c, rest, s.recheck.changed)
                   else RAsk(rest, s.recheck.changed);
       s' == s.(recheck := next, w := Logged(s.w, RecheckJudged(c.id, c.owner, read)))
  }

  predicate RecheckWithdrawStep(s: State, s': State) {
    && s.recheck.RWithdraw?
    && var RWithdraw(key, c, todo, changed) := s.recheck;
       var moves := Withdrawable(s.mem, key, c);
       s' == s.(recheck := RAsk(todo, changed || moves),
                mem := WithdrawForRelease(s.mem, key, c),
                life := if moves then s.life.(queued := s.life.queued + {c.id}) else s.life)
  }

  predicate DrainBeginStep(s: State, s': State) {
    && s.recheck.RAsk? && s.recheck.todo == map[]
    && s' == s.(recheck := RDrain(s.mem.releasing, s.recheck.changed))
  }

  predicate DrainReleaseStep(s: State, s': State, ok: bool) {
    && s.recheck.RDrain? && s.recheck.queued != []
    && var c, rest := s.recheck.queued[0], s.recheck.queued[1..];
       if ok then s' == s.(recheck := RRemove(c, rest, s.recheck.changed), w := ReleaseDone(s.w, c))
       else s' == s.(recheck := RDrain(rest, s.recheck.changed), w := ReleaseFailed(s.w, c))
  }

  predicate DrainRemoveStep(s: State, s': State) {
    && s.recheck.RRemove?
    && s' == s.(recheck := RDrain(s.recheck.queued, true), mem := Dequeue(s.mem, s.recheck.c.id))
  }

  predicate DrainEndStep(s: State, s': State) {
    && s.recheck.RDrain? && s.recheck.queued == []
    && s' == s.(recheck := if s.recheck.changed then RSave else RIdle)
  }

  // --------------------------------------------------------------------- runs

  ghost predicate ProcessStep(s: State, a: Action, s': State) {
    match a
    case Reap(id) => ReapStep(s, s', id)
    case ClaimElsewhere(id, ref) => ClaimElsewhereStep(s, s', id, ref)
    case Crash => CrashStep(s, s')
    case Boot(now) => BootStep(s, s', now)
    case BootPersist(ok) => BootPersistStep(s, s', ok)
    case _ => false
  }

  predicate LifecycleStep(s: State, a: Action, s': State) {
    match a
    case StartCreate(key, pod) => pod.request.RightRuntime() && StartStep(s, s', key, CheckUnverified(pod))
    case StartUpdate(key, pod) => StartStep(s, s', key, UpdateGuard(pod))
    case StartDelete(key, pod) => StartStep(s, s', key, DeleteGuard(pod))
    case Advance(key, input) => AdvanceStep(s, s', key, input)
    case ReadStatus(key, now) => ReadStatusStep(s, s', key, now)
    case _ => false
  }

  predicate SaveStep(s: State, a: Action, s': State) {
    match a
    case SaveBegin(saver) => SaveBeginStep(s, s', saver)
    case SaveRename => SaveRenameStep(s, s')
    case SaveEnd(ok) => SaveEndStep(s, s', ok)
    case _ => false
  }

  predicate VerifyStep(s: State, a: Action, s': State) {
    match a
    case VerifyBegin => VerifyBeginStep(s, s')
    case VerifyListed(live) => VerifyListedStep(s, s', live)
    case VerifyFails => VerifyFailsStep(s, s')
    case VerifyJudge => VerifyJudgeStep(s, s')
    case _ => false
  }

  predicate LeaseStep(s: State, a: Action, s': State) {
    match a
    case LeaseBegin(now) => LeaseBeginStep(s, s', now)
    case LeaseListed(live) => LeaseListedStep(s, s', live)
    case LeaseFails => LeaseFailsStep(s, s')
    case LeaseJudge(key) => LeaseJudgeStep(s, s', key)
    case LeaseEnd => LeaseEndStep(s, s')
    case _ => false
  }

  predicate RecheckStep(s: State, a: Action, s': State) {
    match a
    case RecheckBegin => RecheckBeginStep(s, s')
    case RecheckSkip(key) => RecheckSkipStep(s, s', key)
    case RecheckAsk(key, read) => RecheckAskStep(s, s', key, read)
    case RecheckWithdraw => RecheckWithdrawStep(s, s')
    case _ => false
  }

  predicate DrainStep(s: State, a: Action, s': State) {
    match a
    case DrainBegin => DrainBeginStep(s, s')
    case DrainRelease(ok) => DrainReleaseStep(s, s', ok)
    case DrainRemove => DrainRemoveStep(s, s')
    case DrainEnd => DrainEndStep(s, s')
    case _ => false
  }

  ghost predicate Step(s: State, a: Action, s': State) {
    || ProcessStep(s, a, s')
    || LifecycleStep(s, a, s')
    || SaveStep(s, a, s')
    || VerifyStep(s, a, s')
    || LeaseStep(s, a, s')
    || RecheckStep(s, a, s')
    || DrainStep(s, a, s')
  }

  ghost predicate BookOf(book: map<SandboxId, Fixed>, file: StateFile) {
    && book.Keys == Ids(file.claims, file.releasing)
    && (forall k :: k in file.claims ==>
        book[file.claims[k].id] == Fixed(file.claims[k].token, file.claims[k].claimedAt))
    && (forall c :: c in file.releasing ==> c.id in book && book[c.id] == Fixed(c.token, c.claimedAt))
  }

  /** No process runs; a state file, possibly of an older build, may be in place. */
  ghost predicate Init(s: State) {
    var file := s.disk;
    var ids := Ids(file.claims, file.releasing);
    && s == State(Down, NoMem, file, None, map[], VIdle, LIdle, RIdle, s.w, NoLife)
    && OnePlaceEach(file.claims, file.releasing)
    && BookOf(s.w.book, file)
    && ids + s.w.live <= s.w.refs.Keys
    && s.w == World(s.w.live, s.w.refs, {}, s.w.book, ids, ids, {}, {}, {}, file, [])
  }

  /** State `i` is a first state, or one step after the state before it. */
  ghost predicate Entered(states: seq<State>, actions: seq<Action>, i: nat)
    requires i < |states| == |actions| + 1
  {
    if i == 0 then Init(states[0]) else Step(states[i - 1], actions[i - 1], states[i])
  }

  /** The states a run goes through, with the actions between them. */
  ghost predicate Run(states: seq<State>, actions: seq<Action>) {
    |states| == |actions| + 1 && forall i :: 0 <= i < |states| ==> Entered(states, actions, i)
  }
}
