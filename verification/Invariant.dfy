/**
 What holds in every reachable state. `Core` constrains the tables, the state
 file and the history; each thread in flight also remembers facts about what it
 read (`CallOk` and its siblings), and `Rely` is what the other threads leave
 alone so that these facts stay true.
 */
module Invariant {
  import opened Types
  import opened Ownership
  import opened Sections
  import opened Machine

  // ----------------------------------------------------------- facts of history

  ghost predicate Agrees(c: Claim, book: map<SandboxId, Fixed>) {
    && c.id in book
    && book[c.id].token == c.token
    && (c.claimedAt.Some? ==> book[c.id].claimedAt == c.claimedAt)
  }

  ghost predicate Known(w: World, c: Claim) {
    c.id in w.seen && Agrees(c, w.book)
  }

  /** The event, on its own, lets the provider release the sandbox. */
  ghost predicate Justifies(e: Event, id: SandboxId) {
    match e
    case DeleteJudged(i, pod, read) => i == id && DestroyAuthorized(pod.controller, read).Release?
    case RecheckJudged(i, ref, read) => i == id && ref.Some? && DestroyAuthorized(ref, read).Release?
    case AdoptionRefused(c, pod) => c.id == id && !c.AdoptableBy(pod)
    case PersistFailed(i) => i == id
    case _ => false
  }

  ghost predicate Warranted(genesis: StateFile, log: seq<Event>, id: SandboxId) {
    id in QueueIds(genesis.releasing) || exists e :: e in log && Justifies(e, id)
  }

  /** Some earlier holder of the sandbox was the Pod `uid`. */
  ghost predicate HeldBy(genesis: StateFile, log: seq<Event>, id: SandboxId, uid: Uid) {
    || (exists k :: k in genesis.claims && genesis.claims[k].id == id && genesis.claims[k].podUid == uid)
    || (exists e :: e in log && (e.Taken? || e.Rebound?) && e.c.id == id && e.c.podUid == uid)
  }

  /** Some earlier holder of the sandbox answered to `authority`. */
  ghost predicate HeldUnder(genesis: StateFile, log: seq<Event>, id: SandboxId, authority: Uid) {
    || (exists k :: k in genesis.claims && genesis.claims[k].id == id && genesis.claims[k].authority == Some(authority))
    || (exists e :: e in log && (e.Taken? || e.Rebound?) && e.c.id == id && e.c.authority == Some(authority))
  }

  predicate OwnedBy(c: Claim, uid: Uid) {
    c.owner.Some? && c.owner.value.uid == uid
  }

  /** The sandbox was once preserved for the owner `uid`. */
  ghost predicate KeptFor(genesis: StateFile, log: seq<Event>, id: SandboxId, uid: Uid) {
    || (exists k :: k in genesis.claims && genesis.claims[k].id == id && OwnedBy(genesis.claims[k], uid))
    || (exists e :: e in log && e.OwnerRecorded? && e.id == id && e.owner.uid == uid)
  }

  /** Everything the row says about who may adopt it was true of an earlier holder. */
  ghost predicate Traced(genesis: StateFile, log: seq<Event>, c: Claim) {
    && HeldBy(genesis, log, c.id, c.podUid)
    && (c.authority.Some? ==> HeldUnder(genesis, log, c.id, c.authority.value))
    && (c.owner.Some? ==> KeptFor(genesis, log, c.id, c.owner.value.uid))
  }

  /**
   The Pod is an earlier holder of the row's sandbox, or answers to the owner the sandbox
   was kept for, or, with no owner on the row, to an earlier holder's authority.
   */
  ghost predicate Linked(genesis: StateFile, log: seq<Event>, was: Claim, pod: Pod) {
    var answersTo := if pod.controller.Some? then pod.controller.value.uid else pod.uid;
    || HeldBy(genesis, log, was.id, pod.uid)
    || (was.owner.Some? && KeptFor(genesis, log, was.id, answersTo))
    || (was.owner.None? && HeldUnder(genesis, log, was.id, answersTo))
  }

  ghost predicate ReleasedIn(log: seq<Event>, id: SandboxId) {
    exists e :: e in log && e.ReleaseCalled? && e.id == id && e.ok
  }

  /** What an event owes to the events before it. */
  ghost predicate EventOk(genesis: StateFile, before: seq<Event>, e: Event) {
    match e
    case ReleaseCalled(id, token, ok) => Warranted(genesis, before, id)
    case Status(key, pod, id, pushed, running, start) => pushed && running ==> !ReleasedIn(before, id)
    case Rebound(was, c, pod) =>
      && was.id == c.id && c == was.BoundTo(pod)
      && (was.authority.Some? || was.owner.Some? ==> Linked(genesis, before, was, pod))
    case RecheckJudged(id, ref, read) => ref.Some? && KeptFor(genesis, before, id, ref.value.uid)
    case Taken(c, pod) => c.podUid == pod.uid && c.authority == Some(pod.Authority())
    case _ => true
  }

  ghost predicate LogOk(genesis: StateFile, log: seq<Event>) {
    forall i :: 0 <= i < |log| ==> EventOk(genesis, log[..i], log[i])
  }

  /** What an event says is still true of the history as a whole. */
  ghost predicate EntryOk(w: World, e: Event) {
    match e
    case Status(key, pod, id, pushed, running, start) =>
      && start.Some? && id in w.book && w.book[id].claimedAt == start
      && id in w.durable
      && (pushed && !running ==> id in w.gone)
    case ReleaseCalled(id, token, ok) => id in w.book && w.book[id].token == token && (ok ==> id in w.released)
    case PersistFailed(id) => id in w.undone
    case _ => true
  }

  ghost predicate EntriesOk(w: World) {
    forall e :: e in w.log ==> EntryOk(w, e)
  }

  ghost predicate Published(log: seq<Event>, id: SandboxId) {
    exists e :: e in log && e.Status? && e.id == id
  }

  ghost predicate WorldOk(w: World) {
    && w.live <= w.refs.Keys
    && w.seen <= w.book.Keys <= w.refs.Keys
    && w.durable <= w.seen
    && w.released <= w.seen && w.gone <= w.seen
    && w.released !! w.live
    && w.gone !! w.live
    && LogOk(w.genesis, w.log)
    && w.undone <= w.seen && w.undone !! w.durable
    && EntriesOk(w)
  }

  // ------------------------------------------------------- tables and the file

  /** A table and a queue whose sandboxes are distinct, with known claims, traced rows and warranted releases. */
  ghost predicate Content(claims: map<Key, Claim>, queue: seq<Claim>, w: World) {
    && OnePlaceEach(claims, queue)
    && (forall k :: k in claims ==> Known(w, claims[k]) && Traced(w.genesis, w.log, claims[k]))
    && (forall c :: c in queue ==> Known(w, c) && Warranted(w.genesis, w.log, c.id))
  }

  ghost predicate Timed(claims: map<Key, Claim>) {
    forall k :: k in claims ==> claims[k].claimedAt.Some?
  }

  ghost predicate Markers(m: Mem) {
    && m.tentative <= m.claims.Keys
    && m.quarantined <= m.claims.Keys
    && m.tentative !! m.quarantined
  }

  /** Every row that is not tentative, and every queued claim, is in the file. */
  ghost predicate Covers(file: StateFile, m: Mem) {
    && (forall k :: k in m.claims && k !in m.tentative ==> m.claims[k].id in Ids(file.claims, file.releasing))
    && (forall c :: c in m.releasing ==> c.id in Ids(file.claims, file.releasing))
  }

  ghost predicate Commits(writer: Option<Writer>, key: Key) {
    writer.Some? && writer.value.committing == Some(key)
  }

  /** A tentative claim has never been durable, unless its own commit has just renamed it into place. */
  ghost predicate TentativeOk(m: Mem, writer: Option<Writer>, w: World) {
    forall k :: k in m.tentative && k in m.claims && m.claims[k].id in w.durable ==>
      Commits(writer, k) && writer.value.renamed
  }

  ghost predicate WriterOk(s: State) {
    s.writer.Some? ==>
      var Writer(saver, committing, file, renamed) := s.writer.value;
      && s.proc.Up?
      && Content(file.claims, file.releasing, s.w)
      && Timed(file.claims)
      && Covers(file, s.mem)
      && Ids(file.claims, file.releasing) !! s.w.undone
      && (forall id :: id in Ids(file.claims, file.releasing) ==>
            id in s.w.durable || (committing.Some? && s.mem.Row(committing.value, id)))
      && (renamed ==> s.disk == file)
      && (saver.ByRecheck? ==> s.recheck.RSave? && committing.None?)
      && (saver.ByCall? ==>
            && saver.key in s.calls && Saves(s.calls[saver.key])
            && committing == (if s.calls[saver.key].Committing? then Some(saver.key) else None))
      && (committing.Some? ==>
            && committing.value in file.claims
            && s.mem.Row(committing.value, file.claims[committing.value].id))
      && (forall k :: k in s.mem.tentative && k in s.mem.claims ==>
            s.mem.claims[k].id in Ids(file.claims, file.releasing) ==> committing == Some(k))
  }

  ghost predicate Withdrawing(calls: map<Key, Call>, key: Key, id: SandboxId) {
    && key in calls
    && (calls[key].WithdrawStranded? || calls[key].WithdrawUndone? || calls[key].WithdrawReleased?)
    && calls[key].c.id == id
  }

  /** A row whose sandbox was released is about to be withdrawn, or came back from the file and is quarantined. */
  ghost predicate ReleasedOk(m: Mem, calls: map<Key, Call>, released: set<SandboxId>, spent: set<SandboxId>) {
    forall k :: k in m.claims && m.claims[k].id in released ==>
      Withdrawing(calls, k, m.claims[k].id) || (k in m.quarantined && m.claims[k].id in spent)
  }

  ghost predicate CommittingAt(calls: map<Key, Call>, key: Key, id: SandboxId) {
    key in calls && calls[key].Committing? && calls[key].c.id == id
  }

  /** A tentative row is being committed, or its commit failed. */
  ghost predicate StrandedOk(m: Mem, calls: map<Key, Call>, log: seq<Event>) {
    forall k :: k in m.tentative && k in m.claims ==>
      CommittingAt(calls, k, m.claims[k].id) || PersistFailed(m.claims[k].id) in log
  }

  ghost predicate InFlight(calls: map<Key, Call>, key: Key, id: SandboxId) {
    key in calls && calls[key].Installing? && calls[key].c.id == id
  }

  /** The sandbox is in the table, in the queue, on its way into the table, released, or confirmed absent. */
  ghost predicate Accounted(s: State, id: SandboxId) {
    || id in TableIds(s.mem.claims)
    || id in QueueIds(s.mem.releasing)
    || id in s.w.released
    || id in s.w.gone
    || (id in s.life.home && InFlight(s.calls, s.life.home[id], id))
  }

  /** A queued sandbox stays queued until its release has succeeded. */
  ghost predicate Pending(s: State, id: SandboxId) {
    id in QueueIds(s.mem.releasing) || id in s.w.released
  }

  ghost predicate LifeOk(s: State) {
    && s.life.home.Keys <= s.w.refs.Keys
    && s.life.loaded <= s.w.seen
    && s.life.queued <= s.w.seen
    && s.life.vouched !! s.life.spent
    && s.life.spent <= s.w.released
    && QueueIds(s.mem.releasing) <= s.life.queued
    && (forall k :: k in s.mem.claims ==>
          var id := s.mem.claims[k].id;
          && id in s.life.home && s.life.home[id] == k
          && id !in s.life.queued
          && (id in s.life.loaded ==> k in s.mem.quarantined || id in s.life.vouched)
          && (k in s.mem.quarantined ==> id in s.life.loaded))
    && (forall id :: id in s.life.home ==> Accounted(s, id))
    && (forall id :: id in s.life.queued ==> Pending(s, id))
  }

  /** A sandbox that was ever on file is held, released or confirmed absent; across a crash the file holds it. */
  ghost predicate HeldDurably(m: Mem, w: World, id: SandboxId) {
    id in w.released || id in w.gone || id in Ids(m.claims, m.releasing)
  }

  ghost predicate DurableOk(s: State) {
    && (forall id :: id in s.w.durable ==>
          id in s.w.released || id in s.w.gone || id in Ids(s.disk.claims, s.disk.releasing))
    && (!s.proc.Down? ==> forall id :: id in s.w.durable ==> HeldDurably(s.mem, s.w, id))
  }

  ghost predicate ProcOk(s: State) {
    && (s.proc.Down? ==>
          s == State(Down, NoMem, s.disk, None, map[], VIdle, LIdle, RIdle, s.w, NoLife))
    && (s.proc.Booting? ==>
          s.calls == map[] && s.lease.LIdle? && s.recheck.RIdle? && s.writer.None? && s.mem.tentative == {})
    && (s.proc.Up? ==> Timed(s.disk.claims))
    && (forall k :: k in s.disk.claims && s.disk.claims[k].claimedAt.None? ==> !Published(s.w.log, s.disk.claims[k].id))
    && Ids(s.disk.claims, s.disk.releasing) <= s.w.durable
  }

  ghost predicate Core(s: State) {
    && WorldOk(s.w)
    && Content(s.mem.claims, s.mem.releasing, s.w)
    && Content(s.disk.claims, s.disk.releasing, s.w)
    && Timed(s.mem.claims)
    && Markers(s.mem)
    && Covers(s.disk, s.mem)
    && TentativeOk(s.mem, s.writer, s.w)
    && WriterOk(s)
    && ReleasedOk(s.mem, s.calls, s.w.released, s.life.spent)
    && StrandedOk(s.mem, s.calls, s.w.log)
    && LifeOk(s)
    && DurableOk(s)
    && ProcOk(s)
  }

  // ------------------------------------------------------ what threads remember

  ghost predicate SettledIfRow(m: Mem, key: Key, id: SandboxId) {
    m.Row(key, id) ==> m.Settled(key)
  }

  /** A verification snapshot: every quarantined row is in it, and it judges no tentative row. */
  ghost predicate BeforeOk(s: State, before: map<Key, SandboxId>) {
    && (forall k :: k in before ==>
          && before[k] in s.w.seen && before[k] in s.life.loaded
          && (s.mem.Row(k, before[k]) ==> k !in s.mem.tentative))
    && (forall k :: k in s.mem.quarantined ==> k in before && s.mem.Row(k, before[k]))
  }

  /** What the listing lacks has left the node for good. */
  ghost predicate AbsentOk(w: World, asked: set<SandboxId>, live: Listing) {
    forall id :: id in asked && id !in live ==> id in w.gone
  }

  ghost predicate VouchedOk(life: Life, asked: set<SandboxId>, live: Listing) {
    forall id :: id in asked && id in live ==> id in life.vouched
  }

  /** The claim a call is about to push Running for. */
  ghost predicate HeldOk(s: State, key: Key, pod: Pod, c: Claim) {
    && Known(s.w, c) && c.claimedAt.Some?
    && c.podUid == pod.uid && c.authority == Some(pod.Authority()) && c.owner.None?
    && c.id in s.life.home && s.life.home[c.id] == key
    && c.id !in s.w.released && c.id !in s.life.queued && c.id in s.w.durable
    && ((s.mem.Row(key, c.id) && s.mem.Settled(key) && key in s.mem.pods) ||
        (key !in s.mem.claims && c.id in s.w.gone && c.id in s.life.loaded))
  }

  /** A tentative row at the call's own key. */
  ghost predicate OwnTentative(s: State, key: Key, c: Claim) {
    s.mem.Row(key, c.id) && key in s.mem.tentative && Known(s.w, c)
  }

  ghost predicate Looked(s: State, key: Key, c: Claim) {
    && Known(s.w, c) && c.id in s.life.home && s.life.home[c.id] == key
    && (key in s.mem.claims ==> s.mem.Row(key, c.id))
  }

  ghost predicate InstallOk(s: State, key: Key, pod: Pod, c: Claim) {
    && key !in s.mem.claims && key !in s.mem.quarantined
    && c.id !in s.w.seen && Agrees(c, s.w.book) && c.claimedAt.Some?
    && c.id in s.life.home && s.life.home[c.id] == key
    && c.podUid == pod.uid && c.authority == Some(pod.Authority()) && c.owner.None?
    && Traced(s.w.genesis, s.w.log, c)
  }

  ghost predicate CommitOk(s: State, key: Key, pod: Pod, c: Claim) {
    && OwnTentative(s, key, c) && c.claimedAt.Some?
    && c.podUid == pod.uid && c.authority == Some(pod.Authority()) && c.owner.None?
    && c.id in s.life.home && s.life.home[c.id] == key
    && c.id !in s.w.released && c.id !in s.life.queued && c.id !in s.w.undone
    && key in s.mem.pods
  }

  ghost predicate CallOk(s: State, key: Key, call: Call) {
    match call
    case ListUnverified(pod, before) => BeforeOk(s, before)
    case JudgeUnverified(pod, before, live) =>
      BeforeOk(s, before) && AbsentOk(s.w, before.Values, live) && VouchedOk(s.life, before.Values, live)
    case CheckExpiry(pod) => key !in s.mem.quarantined
    case ListExpired(pod, c) => key !in s.mem.quarantined && Known(s.w, c) && SettledIfRow(s.mem, key, c.id)
    case JudgeExpired(pod, c, live) =>
      key !in s.mem.quarantined && Known(s.w, c) && SettledIfRow(s.mem, key, c.id) && AbsentOk(s.w, {c.id}, live)
    case Adopting(pod) => key !in s.mem.quarantined
    case AdoptSaving(pod, c) => HeldOk(s, key, pod, c)
    case CheckStranded(pod) => key !in s.mem.quarantined && (key in s.mem.claims ==> key in s.mem.tentative)
    case ReturnStranded(pod, c) => OwnTentative(s, key, c) && PersistFailed(c.id) in s.w.log && Looked(s, key, c)
    case WithdrawStranded(pod, c) => OwnTentative(s, key, c) && c.id in s.w.released
    case Claiming(pod) => key !in s.mem.claims && key !in s.mem.quarantined
    case Installing(pod, c) => InstallOk(s, key, pod, c)
    case Committing(pod, c) => CommitOk(s, key, pod, c)
    case Undoing(pod, c) => OwnTentative(s, key, c) && PersistFailed(c.id) in s.w.log && Looked(s, key, c)
    case WithdrawUndone(pod, c) => OwnTentative(s, key, c) && c.id in s.w.released
    case PushRunning(pod, c) => HeldOk(s, key, pod, c)
    case Forgetting => key !in s.mem.claims
    case ReadOwner(pod, c) => Looked(s, key, c)
    case Preserving(pod, c) => Looked(s, key, c) && pod.controller.Some?
    case Releasing(pod, c) => Looked(s, key, c) && Warranted(s.w.genesis, s.w.log, c.id)
    case WithdrawReleased(pod, c) => Looked(s, key, c) && c.id in s.w.released
    case _ => true
  }

  ghost predicate VerifierOk(s: State, v: Verifier) {
    match v
    case VIdle => true
    case VList(before) => BeforeOk(s, before)
    case VJudge(before, live) =>
      BeforeOk(s, before) && AbsentOk(s.w, before.Values, live) && VouchedOk(s.life, before.Values, live)
  }

  ghost predicate CandidatesOk(w: World, candidates: map<Key, Claim>) {
    forall k :: k in candidates ==>
      Known(w, candidates[k]) && candidates[k].claimedAt.Some? && candidates[k].id in w.durable
  }

  ghost predicate LeaseOk(s: State, l: Lease) {
    match l
    case LIdle => true
    case LList(candidates) => CandidatesOk(s.w, candidates)
    case LJudge(candidates, live) => CandidatesOk(s.w, candidates) && AbsentOk(s.w, TableIds(candidates), live)
  }

  /** The claim has an owner on record, whom its sandbox was kept for. */
  ghost predicate Preserved(w: World, c: Claim) {
    c.owner.Some? && KeptFor(w.genesis, w.log, c.id, c.owner.value.uid)
  }

  ghost predicate TodoOk(s: State, todo: map<Key, Claim>) {
    forall k :: k in todo ==>
      Known(s.w, todo[k]) && SettledIfRow(s.mem, k, todo[k].id) && Preserved(s.w, todo[k])
  }

  ghost predicate DrainOk(s: State, queued: seq<Claim>) {
    forall c :: c in queued ==> Known(s.w, c) && c.id in s.life.queued && Warranted(s.w.genesis, s.w.log, c.id)
  }

  ghost predicate RecheckOk(s: State, r: Recheck) {
    match r
    case RIdle => true
    case RAsk(todo, _) => TodoOk(s, todo)
    case RWithdraw(key, c, todo, _) =>
      && TodoOk(s, todo) && Known(s.w, c) && SettledIfRow(s.mem, key, c.id)
      && Warranted(s.w.genesis, s.w.log, c.id)
    case RDrain(queued, _) => DrainOk(s, queued)
    case RRemove(c, queued, _) => DrainOk(s, queued) && c.id in s.w.released && c.id in s.life.queued
    case RSave => true
  }

  ghost predicate CallsOk(s: State) {
    forall k :: k in s.calls ==> CallOk(s, k, s.calls[k])
  }

  /** The call at `key`, if there is one, has its facts. */
  ghost predicate CallAt(s: State, key: Key) {
    forall call :: key in s.calls && s.calls[key] == call ==> CallOk(s, key, call)
  }

  lemma CallKnows(s: State, key: Key)
    requires CallsOk(s) && key in s.calls
    ensures CallOk(s, key, s.calls[key])
  {
  }

  ghost predicate ThreadsOk(s: State) {
    VerifierOk(s, s.verifier) && LeaseOk(s, s.lease) && RecheckOk(s, s.recheck)
  }

  /** The clauses of the invariant, by what they speak of. */
  datatype Clause = OfTables | OfCalls | OfThreads

  ghost predicate ClauseOk(s: State, clause: Clause) {
    match clause
    case OfTables => Core(s)
    case OfCalls => CallsOk(s)
    case OfThreads => ThreadsOk(s)
  }

  ghost predicate Inv(s: State) {
    forall clause :: ClauseOk(s, clause)
  }

  lemma Parts(s: State)
    requires Inv(s)
    ensures Core(s) && CallsOk(s) && ThreadsOk(s)
  {
    assert ClauseOk(s, OfTables) && ClauseOk(s, OfCalls) && ClauseOk(s, OfThreads);
  }

  lemma Whole(s: State)
    requires Core(s) && CallsOk(s) && ThreadsOk(s)
    ensures Inv(s)
  {
  }

  // ---------------------------------------------------------------------- rely

  ghost predicate WorldGrows(w: World, w': World) {
    && w'.genesis == w.genesis
    && w.log <= w'.log
    && w.seen <= w'.seen
    && w.released <= w'.released
    && w.gone <= w'.gone
    && w.durable <= w'.durable
    && (forall id :: id in w.book ==> id in w'.book && w'.book[id] == w.book[id])
  }

  ghost predicate LifeGrows(l: Life, l': Life) {
    && l'.spent == l.spent && l'.loaded == l.loaded
    && l.vouched <= l'.vouched
    && l.queued <= l'.queued
    && (forall id :: id in l.home ==> id in l'.home && l'.home[id] == l.home[id])
  }

  /** A row for a sandbox that was seen before was there before, with the markers it has or more. */
  ghost predicate RowsStay(m: Mem, m': Mem, seen: set<SandboxId>) {
    && (forall k :: k in m'.claims && m'.claims[k].id in seen ==>
          && m.Row(k, m'.claims[k].id)
          && (k in m'.tentative ==> k in m.tentative)
          && (k in m'.quarantined ==> k in m.quarantined))
    && (forall k :: k in m'.quarantined ==>
          k in m.quarantined && k in m.claims && k in m'.claims && m'.claims[k].id == m.claims[k].id)
  }

  /** What no step of another thread does to `key`. */
  ghost predicate KeyStays(s: State, s': State, key: Key) {
    var m, m' := s.mem, s'.mem;
    && (key in m.pods <==> key in m'.pods)
    && (key in m'.claims ==> m.Row(key, m'.claims[key].id))
    && (key in m.tentative && key in m.claims ==> key in m'.tentative && m'.Row(key, m.claims[key].id))
    && (key in m.claims && key in m.pods && m.Settled(key) ==>
          || (m'.Row(key, m.claims[key].id) && m'.Settled(key))
          || (key !in m'.claims && m.claims[key].id in s'.w.gone && m.claims[key].id in s.life.loaded))
    && (forall id :: id in s'.w.seen && id !in s.w.seen ==> id in s.life.home && s.life.home[id] != key)
    && (forall id :: id in s'.w.undone && id !in s.w.undone ==> id in s.life.home && s.life.home[id] != key)
    && (forall id :: id in s'.w.released && id !in s.w.released ==>
          id in s.life.queued || (id in s.life.home && s.life.home[id] != key))
    && (forall id :: id in s'.life.queued && id !in s.life.queued ==>
          id in TableIds(m.claims) && !(m.Row(key, id) && (key in m.pods || key in m.tentative)))
  }

  ghost predicate Rely(s: State, s': State) {
    && WorldGrows(s.w, s'.w)
    && LifeGrows(s.life, s'.life)
    && RowsStay(s.mem, s'.mem, s.w.seen)
  }
}
