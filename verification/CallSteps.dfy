/**
 Every step of a lifecycle call keeps the invariant.
 */
module CallSteps {
  import opened Types
  import opened Ownership
  import opened Sections
  import opened Machine
  import opened Invariant
  import opened Stability
  import opened Frames

  // ------------------------------------------------------------ generic steps

  ghost predicate Quiet(call: Call) {
    && !Saves(call) && !call.Installing?
    && !call.WithdrawStranded? && !call.WithdrawUndone? && !call.WithdrawReleased?
  }

  ghost predicate OnlyCall(s: State, s': State, key: Key) {
    && s' == s.(mem := s'.mem, calls := s'.calls, w := s'.w, life := s'.life)
    && (forall k :: k != key ==> (k in s.calls <==> k in s'.calls) && (k in s.calls ==> s'.calls[k] == s.calls[k]))
  }

  /** A step that moves one call, leaves the tables alone and may add to the history. */
  ghost predicate QuietStep(s: State, s': State, key: Key) {
    && s.proc.Up?
    && OnlyCall(s, s', key) && s'.mem == s.mem
    && (key in s.calls ==> Quiet(s.calls[key]))
    && HistoryFollows(s, s') && s'.w.released == s.w.released && s'.w.seen == s.w.seen
  }

  lemma QuietShrinks(s: State, s': State, key: Key)
    requires Content(s.mem.claims, s.mem.releasing, s.w) && Markers(s.mem) && QuietStep(s, s', key)
    ensures Shrinks(s, s')
  {
    TracedStays(s, s');
    CallsMove(s, s', key);
  }

  lemma CallsMove(s: State, s': State, key: Key)
    requires OnlyCall(s, s', key) && (key in s.calls ==> Quiet(s.calls[key])) && s'.w.released == s.w.released
    ensures CallsFollow(s, s')
  {
  }

  lemma QuietKeyStays(s: State, s': State, key: Key, other: Key)
    requires QuietStep(s, s', key) && Markers(s.mem)
    ensures Rely(s, s') && KeyStays(s, s', other)
  {
  }

  lemma QuietInv(s: State, s': State, key: Key)
    requires Inv(s) && QuietStep(s, s', key)
    requires CallAt(s', key)
    ensures Inv(s')
  {
    Parts(s);
    QuietShrinks(s, s', key);
    CoreShrinks(s, s');
    forall k | k in s.calls && k != key
      ensures KeyStays(s, s', k)
    {
      QuietKeyStays(s, s', key, k);
    }
    QuietKeyStays(s, s', key, key);
    OthersStable(s, s', key);
  }

  /** A step of one call on the tables, which takes rows from other keys only when their sandbox is gone. */
  ghost predicate TableStep(s: State, s': State, key: Key) {
    && s.proc.Up?
    && OnlyCall(s, s', key) && Shrinks(s, s')
    && s'.w.released == s.w.released && s'.w.seen == s.w.seen
    && (forall k :: k != key ==> (k in s.mem.pods <==> k in s'.mem.pods))
    && (forall k :: k != key && k in s.mem.claims && k !in s'.mem.claims ==>
          k !in s.mem.tentative && s.mem.claims[k].id in s'.w.gone && s.mem.claims[k].id in s.life.loaded)
  }

  lemma TableKeyStays(s: State, s': State, key: Key, other: Key)
    requires TableStep(s, s', key) && Markers(s.mem) && other != key
    ensures KeyStays(s, s', other)
  {
  }

  lemma TableRely(s: State, s': State, key: Key)
    requires TableStep(s, s', key)
    ensures Rely(s, s')
  {
  }

  lemma TableInv(s: State, s': State, key: Key)
    requires Inv(s) && TableStep(s, s', key)
    requires CallAt(s', key)
    ensures Inv(s')
  {
    Parts(s);
    CoreShrinks(s, s');
    forall k | k in s.calls && k != key
      ensures KeyStays(s, s', k)
    {
      TableKeyStays(s, s', key, k);
    }
    TableRely(s, s', key);
    OthersStable(s, s', key);
  }

  lemma CallsMeanUp(s: State)
    requires ProcOk(s) && s.calls != map[]
    ensures s.proc.Up?
  {
  }

  lemma QuietHistory(s: State, s': State)
    requires WorldOk(s.w) && s.life.vouched !! s.life.spent && s'.w == s.w && s'.life == s.life
    ensures HistoryFollows(s, s')
  {
  }

  /** A call moves on, having learnt `call`. */
  lemma GotoInv(s: State, key: Key, call: Call)
    requires Inv(s) && s.proc.Up? && (key in s.calls ==> Quiet(s.calls[key]))
    requires CallAt(Goto(s, key, call), key)
    ensures Inv(Goto(s, key, call))
  {
    Parts(s);
    var s' := Goto(s, key, call);
    QuietHistory(s, s');
    QuietInv(s, s', key);
  }

  /** A call that has read nothing it must remember. */
  ghost predicate Factless(call: Call) {
    || call.CheckUnverified? || call.SnapshotUnverified? || call.UpdateGuard? || call.UpdateBody?
    || call.DeleteGuard? || call.DeleteLookup? || call.Saving?
  }

  lemma NoCallAt(s: State, key: Key)
    requires key in s.calls ==> Factless(s.calls[key])
    ensures CallAt(s, key)
  {
  }

  lemma ReturnInv(s: State, key: Key)
    requires Inv(s) && key in s.calls && Quiet(s.calls[key])
    ensures Inv(Return(s, key))
  {
    Parts(s);
    var s' := Return(s, key);
    CallsMeanUp(s);
    QuietHistory(s, s');
    QuietInv(s, s', key);
  }

  // ------------------------------------------------------- unverified, expired

  lemma CheckUnverifiedInv(s: State, s': State, key: Key, pod: Pod)
    requires Inv(s) && key in s.calls && s.calls[key] == CheckUnverified(pod)
    requires CheckUnverifiedStep(s, s', key, pod)
    ensures Inv(s')
  {
    Parts(s);
    CallsMeanUp(s);
    GotoInv(s, key, if key in s.mem.quarantined then SnapshotUnverified(pod) else CheckExpiry(pod));
  }

  /** A snapshot of the quarantined rows has every fact a judgement needs. */
  lemma UnverifiedOk(s: State)
    requires Markers(s.mem) && LifeOk(s) && Content(s.mem.claims, s.mem.releasing, s.w)
    ensures BeforeOk(s, Unverified(s.mem))
    ensures Unverified(s.mem) == map[] ==> s.mem.quarantined == {}
  {
    assert Unverified(s.mem).Keys == s.mem.quarantined;
  }

  lemma SnapshotUnverifiedInv(s: State, s': State, key: Key, pod: Pod)
    requires Inv(s) && key in s.calls && s.calls[key] == SnapshotUnverified(pod)
    requires SnapshotUnverifiedStep(s, s', key, pod)
    ensures Inv(s')
  {
    Parts(s);
    CallsMeanUp(s);
    SnapshotLearns(s, key, pod);
    var before := Unverified(s.mem);
    GotoInv(s, key, if before == map[] then CheckExpiry(pod) else ListUnverified(pod, before));
  }

  lemma SnapshotLearns(s: State, key: Key, pod: Pod)
    requires Markers(s.mem) && LifeOk(s) && Content(s.mem.claims, s.mem.releasing, s.w)
    ensures var before := Unverified(s.mem);
            CallAt(Goto(s, key, if before == map[] then CheckExpiry(pod) else ListUnverified(pod, before)), key)
  {
    UnverifiedOk(s);
  }

  /** The answer of a verification listing: absent rows are gone for good, listed ones were never released before. */
  lemma ListingFollows(s: State, s': State, before: map<Key, SandboxId>, live: Listing)
    requires Inv(s) && BeforeOk(s, before) && live.Keys == s.w.live
    requires s'.w == Observed(s.w, before.Values, live)
    requires s'.life == s.life.(vouched := s.life.vouched + (before.Values * live.Keys))
    ensures HistoryFollows(s, s')
    ensures AbsentOk(s'.w, before.Values, live) && VouchedOk(s'.life, before.Values, live)
  {
    Parts(s);
    WorldObserved(s.w, before.Values, live);
  }

  lemma ListUnverifiedInv(s: State, s': State, key: Key, pod: Pod, before: map<Key, SandboxId>, live: Listing)
    requires Inv(s) && key in s.calls && s.calls[key] == ListUnverified(pod, before)
    requires ListUnverifiedStep(s, s', key, pod, before, live)
    ensures Inv(s')
  {
    Parts(s);
    CallKnows(s, key);
    ListingFollows(s, s', before, live);
    ListUnverifiedLearns(s, s', key, pod, before, live);
    QuietInv(s, s', key);
  }

  lemma ListUnverifiedLearns(s: State, s': State, key: Key, pod: Pod, before: map<Key, SandboxId>, live: Listing)
    requires BeforeOk(s, before) && ListUnverifiedStep(s, s', key, pod, before, live)
    requires AbsentOk(s'.w, before.Values, live) && VouchedOk(s'.life, before.Values, live)
    ensures CallAt(s', key)
  {
  }

  /** Judging a snapshot drops only rows whose sandbox is gone, none of them tentative. */
  lemma VerifyDrops(s: State, before: map<Key, SandboxId>, live: Listing, key: Key)
    requires BeforeOk(s, before) && AbsentOk(s.w, before.Values, live)
    requires key in s.mem.claims && key !in Verify(s.mem, before, live).claims
    ensures key !in s.mem.tentative && s.mem.claims[key].id in s.w.gone && s.mem.claims[key].id in s.life.loaded
  {
    assert key in Judged(s.mem, before) && before[key] in before.Values;
  }

  /** It empties the quarantine: every row that was in it is dropped or vouched for. */
  lemma VerifyEmpties(s: State, before: map<Key, SandboxId>, live: Listing)
    requires BeforeOk(s, before) && VouchedOk(s.life, before.Values, live)
    ensures Verify(s.mem, before, live).quarantined == {}
    ensures forall k :: k in s.mem.quarantined && k in Verify(s.mem, before, live).claims ==>
              s.mem.claims[k].id in s.life.vouched
  {
    forall k | k in s.mem.quarantined
      ensures k in Judged(s.mem, before) && before[k] in before.Values
    {
    }
  }

  /** It keeps the sandbox, the credential, the owner and the marker of every other row. */
  lemma VerifyKeeps(m: Mem, before: map<Key, SandboxId>, live: Listing)
    ensures var m' := Verify(m, before, live);
            && m' == m.(claims := m'.claims, quarantined := m'.quarantined)
            && m'.quarantined <= m.quarantined
            && forall k :: k in m'.claims ==>
                 k in m.claims && m'.claims[k] == m.claims[k].(deadline := m'.claims[k].deadline)
  {
  }

  lemma CommitsTentative(s: State)
    requires WriterOk(s) && CallsOk(s)
    ensures forall k :: Commits(s.writer, k) ==> k in s.mem.tentative
  {
    if s.writer.Some? && s.writer.value.committing.Some? {
      CallKnows(s, s.writer.value.committing.value);
    }
  }

  lemma VerifyShrinks(s: State, s': State, before: map<Key, SandboxId>, live: Listing)
    requires Content(s.mem.claims, s.mem.releasing, s.w) && Markers(s.mem) && BeforeOk(s, before)
    requires AbsentOk(s.w, before.Values, live) && VouchedOk(s.life, before.Values, live)
    requires forall k :: Commits(s.writer, k) ==> k in s.mem.tentative
    requires s'.mem == Verify(s.mem, before, live) && s'.w == s.w && s'.life == s.life
    ensures TableShrinks(s, s')
    ensures s'.mem.quarantined == {} && s'.mem.pods == s.mem.pods
    ensures forall k :: k in s.mem.claims && k !in s'.mem.claims ==>
              k !in s.mem.tentative && s.mem.claims[k].id in s.w.gone && s.mem.claims[k].id in s.life.loaded
  {
    VerifyKeeps(s.mem, before, live);
    VerifyEmpties(s, before, live);
    forall k | k in s.mem.claims && k !in s'.mem.claims
      ensures k !in s.mem.tentative && s.mem.claims[k].id in s.w.gone && s.mem.claims[k].id in s.life.loaded
    {
      VerifyDrops(s, before, live, k);
    }
    forall k | k in s'.mem.claims
      ensures Traced(s.w.genesis, s.w.log, s'.mem.claims[k])
    {
      TracedSame(s.w.genesis, s.w.log, s.mem.claims[k], s'.mem.claims[k]);
    }
  }

  lemma TracedSame(genesis: StateFile, log: seq<Event>, c: Claim, c': Claim)
    requires Traced(genesis, log, c) && c' == c.(deadline := c'.deadline)
    ensures Traced(genesis, log, c')
  {
  }

  lemma JudgeUnverifiedTables(s: State, s': State, key: Key, pod: Pod, before: map<Key, SandboxId>, live: Listing)
    requires Content(s.mem.claims, s.mem.releasing, s.w) && Markers(s.mem) && WriterOk(s) && CallsOk(s)
    requires WorldOk(s.w) && s.life.vouched !! s.life.spent
    requires s.proc.Up? && key in s.calls && s.calls[key] == JudgeUnverified(pod, before, live)
    requires JudgeUnverifiedStep(s, s', key, pod, before, live)
    ensures TableStep(s, s', key) && CallAt(s', key)
  {
    CallKnows(s, key);
    CommitsTentative(s);
    VerifyShrinks(s, s', before, live);
    JudgedTable(s, s', key, pod, before, live);
    JudgedLearns(s', key, pod);
  }

  lemma JudgedTable(s: State, s': State, key: Key, pod: Pod, before: map<Key, SandboxId>, live: Listing)
    requires WorldOk(s.w) && s.life.vouched !! s.life.spent && s.proc.Up? && TableShrinks(s, s')
    requires key in s.calls && s.calls[key] == JudgeUnverified(pod, before, live)
    requires JudgeUnverifiedStep(s, s', key, pod, before, live)
    ensures OnlyCall(s, s', key) && Shrinks(s, s')
  {
    QuietHistory(s, s');
    CallsMove(s, s', key);
  }

  lemma JudgedLearns(s: State, key: Key, pod: Pod)
    requires s.mem.quarantined == {} && key in s.calls && s.calls[key] == CheckExpiry(pod)
    ensures CallAt(s, key)
  {
  }

  lemma JudgeUnverifiedInv(s: State, s': State, key: Key, pod: Pod, before: map<Key, SandboxId>, live: Listing)
    requires Inv(s) && key in s.calls && s.calls[key] == JudgeUnverified(pod, before, live)
    requires JudgeUnverifiedStep(s, s', key, pod, before, live)
    ensures Inv(s')
  {
    Parts(s);
    CallsMeanUp(s);
    JudgeUnverifiedTables(s, s', key, pod, before, live);
    TableInv(s, s', key);
  }

  lemma CheckExpiryInv(s: State, s': State, key: Key, pod: Pod, now: Time)
    requires Inv(s) && key in s.calls && s.calls[key] == CheckExpiry(pod)
    requires CheckExpiryStep(s, s', key, pod, now)
    ensures Inv(s')
  {
    Parts(s);
    CallsMeanUp(s);
    CallKnows(s, key);
    ExpiryLearns(s, key, pod, now);
    var expired := key in s.mem.claims && s.mem.Settled(key) && s.mem.claims[key].Expired(now);
    GotoInv(s, key, if expired then ListExpired(pod, s.mem.claims[key]) else Adopting(pod));
  }

  lemma ExpiryLearns(s: State, key: Key, pod: Pod, now: Time)
    requires key !in s.mem.quarantined && Content(s.mem.claims, s.mem.releasing, s.w)
    ensures var expired := key in s.mem.claims && s.mem.Settled(key) && s.mem.claims[key].Expired(now);
            CallAt(Goto(s, key, if expired then ListExpired(pod, s.mem.claims[key]) else Adopting(pod)), key)
  {
  }

  /** A listing the history takes note of. */
  lemma ObservedFollows(s: State, s': State, asked: set<SandboxId>, live: Listing)
    requires WorldOk(s.w) && s.life.vouched !! s.life.spent && asked <= s.w.seen && live.Keys == s.w.live
    requires s'.w == Observed(s.w, asked, live) && s'.life == s.life
    ensures HistoryFollows(s, s') && AbsentOk(s'.w, asked, live)
  {
    WorldObserved(s.w, asked, live);
  }

  lemma ListExpiredInv(s: State, s': State, key: Key, pod: Pod, c: Claim, live: Listing)
    requires Inv(s) && key in s.calls && s.calls[key] == ListExpired(pod, c)
    requires ListExpiredStep(s, s', key, pod, c, live)
    ensures Inv(s')
  {
    Parts(s);
    CallsMeanUp(s);
    ObservedFollows(s, s', {c.id}, live);
    CallKnows(s, key);
    ListExpiredLearns(s, s', key, pod, c, live);
    QuietInv(s, s', key);
  }

  lemma ListExpiredLearns(s: State, s': State, key: Key, pod: Pod, c: Claim, live: Listing)
    requires CallOk(s, key, ListExpired(pod, c)) && ListExpiredStep(s, s', key, pod, c, live)
    requires AbsentOk(s'.w, {c.id}, live)
    ensures CallAt(s', key)
  {
  }

  // --------------------------------------------------- steps on the call's own row

  /** The tables differ at `key` alone. */
  ghost predicate OnlyAt(m: Mem, m': Mem, key: Key) {
    && m'.releasing == m.releasing
    && forall k :: k != key ==>
         && (k in m'.claims <==> k in m.claims) && (k in m.claims ==> m'.claims[k] == m.claims[k])
         && (k in m'.pods <==> k in m.pods)
         && (k in m'.tentative <==> k in m.tentative)
         && (k in m'.quarantined <==> k in m.quarantined)
  }

  /** The row there keeps its sandbox, or goes with it. */
  ghost predicate OwnRow(s: State, s': State, key: Key) {
    var m, m' := s.mem, s'.mem;
    if key in m'.claims then
      && m.Row(key, m'.claims[key].id)
      && m'.claims[key].token == m.claims[key].token && m'.claims[key].claimedAt == m.claims[key].claimedAt
      && Traced(s'.w.genesis, s'.w.log, m'.claims[key])
      && (key in m'.tentative <==> key in m.tentative) && (key in m'.quarantined <==> key in m.quarantined)
    else
      && key !in m'.tentative && key !in m'.quarantined
      && (key in m.claims ==> m.claims[key].id in s'.w.released || m.claims[key].id in s'.w.gone)
  }

  lemma OwnRowShrinks(s: State, s': State, key: Key)
    requires forall k :: k in s.mem.claims ==> Traced(s'.w.genesis, s'.w.log, s.mem.claims[k])
    requires Markers(s.mem) && !Commits(s.writer, key)
    requires OnlyAt(s.mem, s'.mem, key) && OwnRow(s, s', key)
    ensures TableShrinks(s, s')
  {
  }

  lemma AllTraced(s: State, s': State)
    requires Content(s.mem.claims, s.mem.releasing, s.w) && WorldGrows(s.w, s'.w)
    ensures forall k :: k in s.mem.claims ==> Traced(s'.w.genesis, s'.w.log, s.mem.claims[k])
  {
    ContentGrows(s.mem.claims, s.mem.releasing, s.w, s'.w);
  }

  /** A call that leaves a withdrawal took its row with it. */
  ghost predicate RowFollows(s: State, s': State, key: Key) {
    && key in s.calls
    && !Saves(s.calls[key]) && !s.calls[key].Installing?
    && (!Quiet(s.calls[key]) ==> !s'.mem.Row(key, s.calls[key].c.id))
  }

  lemma OwnRowCalls(s: State, s': State, key: Key)
    requires OnlyCall(s, s', key) && RowFollows(s, s', key) && s'.w.released == s.w.released
    ensures CallsFollow(s, s')
  {
    forall k | k in s'.mem.claims && Withdrawing(s.calls, k, s'.mem.claims[k].id)
      ensures k != key
    {
    }
  }

  lemma NotCommitting(s: State, key: Key)
    requires WriterOk(s) && key in s.calls && !s.calls[key].Committing?
    ensures !Commits(s.writer, key)
  {
  }

  /** A step of one call on its own row. */
  ghost predicate OwnRowStep(s: State, s': State, key: Key) {
    && OnlyCall(s, s', key)
    && OnlyAt(s.mem, s'.mem, key) && OwnRow(s, s', key) && RowFollows(s, s', key)
    && HistoryFollows(s, s') && s'.w.released == s.w.released && s'.w.seen == s.w.seen
    && CallAt(s', key)
  }

  lemma OwnRowTables(s: State, s': State, key: Key)
    requires Content(s.mem.claims, s.mem.releasing, s.w) && Markers(s.mem) && WriterOk(s) && ProcOk(s)
    requires OwnRowStep(s, s', key)
    ensures TableStep(s, s', key)
  {
    CallsMeanUp(s);
    AllTraced(s, s');
    NotCommitting(s, key);
    OwnRowShrinks(s, s', key);
    OwnRowCalls(s, s', key);
  }

  lemma OwnRowInv(s: State, s': State, key: Key)
    requires Inv(s) && OwnRowStep(s, s', key)
    ensures Inv(s')
  {
    Parts(s);
    OwnRowTables(s, s', key);
    TableInv(s, s', key);
  }

  /** The sections that touch one row: the tables differ at its key alone, and what is there. */
  lemma WithdrawAt(m: Mem, key: Key, id: SandboxId)
    ensures OnlyAt(m, Withdraw(m, key, id), key)
    ensures var m' := Withdraw(m, key, id);
            && key !in m'.tentative && key !in m'.quarantined
            && (key in m'.claims <==> key in m.claims && !m.Row(key, id))
            && (key in m'.claims ==> m'.claims[key] == m.claims[key])
  {
  }

  lemma RefreshAt(m: Mem, key: Key, id: SandboxId, deadline: Option<Time>)
    ensures OnlyAt(m, Refresh(m, key, id, deadline), key)
    ensures var m' := Refresh(m, key, id, deadline);
            && m'.tentative == m.tentative && m'.quarantined == m.quarantined && m'.pods == m.pods
            && m'.claims.Keys == m.claims.Keys
            && (key in m.claims ==> m'.claims[key] == m.claims[key].(deadline := m'.claims[key].deadline))
  {
  }

  lemma DropAt(m: Mem, key: Key, id: SandboxId)
    ensures OnlyAt(m, Drop(m, key, id), key)
    ensures var m' := Drop(m, key, id);
            && m'.tentative == m.tentative && m'.quarantined == m.quarantined && m'.pods == m.pods
            && (key in m'.claims <==> key in m.claims && !m.Row(key, id))
            && (key in m'.claims ==> m'.claims[key] == m.claims[key])
  {
  }

  /** The part of the invariant a step on one row leans on. */
  ghost predicate Base(s: State) {
    Content(s.mem.claims, s.mem.releasing, s.w) && Markers(s.mem) && WorldOk(s.w) && s.life.vouched !! s.life.spent
  }

  lemma JudgeExpiredRow(s: State, s': State, key: Key, pod: Pod, c: Claim, live: Listing)
    requires Base(s) && CallOk(s, key, JudgeExpired(pod, c, live)) && JudgeExpiredStep(s, s', key, pod, c, live)
    requires key in s.calls && s.calls[key] == JudgeExpired(pod, c, live)
    ensures OwnRowStep(s, s', key)
  {
    QuietHistory(s, s');
    JudgeExpiredTable(s, s', key, pod, c, live);
  }

  lemma JudgeExpiredTable(s: State, s': State, key: Key, pod: Pod, c: Claim, live: Listing)
    requires Content(s.mem.claims, s.mem.releasing, s.w) && Markers(s.mem)
    requires CallOk(s, key, JudgeExpired(pod, c, live)) && JudgeExpiredStep(s, s', key, pod, c, live)
    ensures OnlyAt(s.mem, s'.mem, key) && OwnRow(s, s', key)
  {
    if c.id in live {
      RefreshAt(s.mem, key, c.id, live[c.id]);
      if key in s.mem.claims {
        TracedSame(s.w.genesis, s.w.log, s.mem.claims[key], s'.mem.claims[key]);
      }
    } else {
      DropAt(s.mem, key, c.id);
    }
  }

  lemma JudgeExpiredInv(s: State, s': State, key: Key, pod: Pod, c: Claim, live: Listing)
    requires Inv(s) && key in s.calls && s.calls[key] == JudgeExpired(pod, c, live)
    requires JudgeExpiredStep(s, s', key, pod, c, live)
    ensures Inv(s')
  {
    Parts(s);
    JudgeExpiredRow(s, s', key, pod, c, live);
    OwnRowInv(s, s', key);
  }

  /** Tracking and forgetting a Pod leave its row alone. */
  lemma PodRow(s: State, s': State, key: Key)
    requires Base(s) && key in s.calls && Quiet(s.calls[key])
    requires s' == Return(s, key).(mem := s.mem.(pods := s'.mem.pods)) && s'.mem.pods - {key} == s.mem.pods - {key}
    ensures OwnRowStep(s, s', key)
  {
    QuietHistory(s, s');
    NoCallAt(s', key);
    forall k | k != key
      ensures k in s'.mem.pods <==> k in s.mem.pods
    {
      assert k in s'.mem.pods <==> k in s'.mem.pods - {key};
      assert k in s.mem.pods <==> k in s.mem.pods - {key};
    }
  }

  lemma ForgetInv(s: State, s': State, key: Key)
    requires Inv(s) && key in s.calls && s.calls[key].Forgetting? && ForgetStep(s, s', key)
    ensures Inv(s')
  {
    Parts(s);
    PodRow(s, s', key);
    OwnRowInv(s, s', key);
  }

  lemma TrackInv(s: State, s': State, key: Key, pod: Pod)
    requires Inv(s) && key in s.calls && s.calls[key] == UpdateBody(pod)
    requires s' == Return(s, key).(mem := Track(s.mem, key, pod))
    ensures Inv(s')
  {
    Parts(s);
    assert s'.mem.pods - {key} == s.mem.pods - {key};
    PodRow(s, s', key);
    OwnRowInv(s, s', key);
  }

  lemma UpdateBodyInv(s: State, s': State, key: Key, pod: Pod)
    requires Inv(s) && key in s.calls && s.calls[key] == UpdateBody(pod) && UpdateBodyStep(s, s', key, pod)
    ensures Inv(s')
  {
    Parts(s);
    if key !in s.mem.tentative {
      TrackInv(s, s', key, pod);
    } else if pod.request.RightRuntime() {
      CallsMeanUp(s);
      GotoInv(s, key, CheckUnverified(pod));
    } else {
      ReturnInv(s, key);
    }
  }

  /** The row a successful release is about to take out. */
  lemma WithdrawRow(s: State, s': State, key: Key, call: Call)
    requires Base(s) && key in s.calls && !Quiet(s.calls[key]) && !Saves(s.calls[key]) && !s.calls[key].Installing?
    requires s.calls[key].c.id in s.w.released && (key in s.mem.claims ==> s.mem.Row(key, s.calls[key].c.id))
    requires s' == s.(mem := Withdraw(s.mem, key, s.calls[key].c.id), calls := s'.calls)
    requires s'.calls == s.calls - {key} || s'.calls == s.calls[key := call]
    requires call.Claiming? || call.Saving?
    ensures OwnRowStep(s, s', key)
  {
    QuietHistory(s, s');
    WithdrawAt(s.mem, key, s.calls[key].c.id);
  }

  lemma WithdrawStrandedInv(s: State, s': State, key: Key, pod: Pod, c: Claim)
    requires Inv(s) && key in s.calls && s.calls[key] == WithdrawStranded(pod, c)
    requires WithdrawStrandedStep(s, s', key, pod, c)
    ensures Inv(s')
  {
    Parts(s);
    CallKnows(s, key);
    WithdrawRow(s, s', key, Claiming(pod));
    OwnRowInv(s, s', key);
  }

  lemma WithdrawUndoneInv(s: State, s': State, key: Key, pod: Pod, c: Claim)
    requires Inv(s) && key in s.calls && s.calls[key] == WithdrawUndone(pod, c)
    requires WithdrawUndoneStep(s, s', key, c)
    ensures Inv(s')
  {
    Parts(s);
    CallKnows(s, key);
    WithdrawRow(s, s', key, Saving);
    OwnRowInv(s, s', key);
  }

  lemma WithdrawReleasedInv(s: State, s': State, key: Key, pod: Pod, c: Claim)
    requires Inv(s) && key in s.calls && s.calls[key] == WithdrawReleased(pod, c)
    requires WithdrawReleasedStep(s, s', key, c)
    ensures Inv(s')
  {
    Parts(s);
    CallKnows(s, key);
    WithdrawRow(s, s', key, Saving);
    OwnRowInv(s, s', key);
  }

  // ------------------------------------------------------------------ releasing

  /** A call adds one event to the history and moves on, or returns. */
  ghost predicate LoggedStep(s: State, s': State, key: Key, e: Event) {
    && key in s.calls && Quiet(s.calls[key])
    && OnlyCall(s, s', key) && s'.mem == s.mem && s'.life == s.life && s'.w == Logged(s.w, e)
    && EventOk(s.w.genesis, s.w.log, e) && EntryOk(s.w, e)
    && CallAt(s', key)
  }

  lemma LoggedQuiet(s: State, s': State, key: Key, e: Event)
    requires WorldOk(s.w) && s.life.vouched !! s.life.spent && s.proc.Up? && LoggedStep(s, s', key, e)
    ensures QuietStep(s, s', key)
  {
    WorldLogged(s.w, e);
  }

  lemma LoggedInv(s: State, s': State, key: Key, e: Event)
    requires Inv(s) && LoggedStep(s, s', key, e)
    ensures Inv(s')
  {
    Parts(s);
    CallsMeanUp(s);
    LoggedQuiet(s, s', key, e);
    QuietInv(s, s', key);
  }

  ghost predicate Releases(call: Call, c: Claim, next: Call) {
    match call
    case ReturnStranded(pod, c0) => c0 == c && next == WithdrawStranded(pod, c)
    case Undoing(pod, c0) => c0 == c && next == WithdrawUndone(pod, c)
    case Releasing(pod, c0) => c0 == c && next == WithdrawReleased(pod, c)
    case _ => false
  }

  /** Every call that releases has looked its claim up at its own key and may release it. */
  lemma MayRelease(s: State, key: Key, call: Call, c: Claim, next: Call)
    requires CallOk(s, key, call) && Releases(call, c, next)
    ensures Looked(s, key, c) && Warranted(s.w.genesis, s.w.log, c.id)
  {
    if !call.Releasing? {
      assert Justifies(PersistFailed(c.id), c.id);
    }
  }

  lemma ReleaseFailedLogs(s: State, s': State, key: Key, c: Claim, next: Call)
    requires key in s.calls && CallOk(s, key, s.calls[key]) && Releases(s.calls[key], c, next)
    requires s' == Return(s, key).(w := ReleaseFailed(s.w, c))
    ensures LoggedStep(s, s', key, ReleaseCalled(c.id, c.token, false))
  {
    MayRelease(s, key, s.calls[key], c, next);
  }

  lemma ReleaseFailedInv(s: State, s': State, key: Key, c: Claim, next: Call)
    requires Inv(s) && key in s.calls && Releases(s.calls[key], c, next)
    requires s' == Return(s, key).(w := ReleaseFailed(s.w, c))
    ensures Inv(s')
  {
    Parts(s);
    CallKnows(s, key);
    ReleaseFailedLogs(s, s', key, c, next);
    LoggedInv(s, s', key, ReleaseCalled(c.id, c.token, false));
  }

  lemma ReleasedCalls(s: State, s': State, key: Key, c: Claim, next: Call)
    requires forall k :: k in s.mem.claims ==> s.mem.claims[k].id in s.life.home && s.life.home[s.mem.claims[k].id] == k
    requires key in s.calls && Releases(s.calls[key], c, next) && Looked(s, key, c)
    requires s' == Goto(s, key, next).(w := s'.w) && s'.w.released == s.w.released + {c.id}
    ensures CallsFollow(s, s')
  {
  }

  lemma SameTableShrinks(s: State, s': State)
    requires Content(s.mem.claims, s.mem.releasing, s.w) && Markers(s.mem)
    requires WorldGrows(s.w, s'.w) && s'.mem == s.mem && s'.life == s.life
    ensures TableShrinks(s, s')
  {
    TracedStays(s, s');
  }

  lemma SameTableRely(s: State, s': State)
    requires Markers(s.mem) && WorldGrows(s.w, s'.w) && s'.mem == s.mem && s'.life == s.life
    ensures Rely(s, s')
  {
  }

  lemma ReleasedKeyStays(s: State, s': State, key: Key, c: Claim, other: Key)
    requires Markers(s.mem) && s'.mem == s.mem && s'.life == s.life && s'.w.seen == s.w.seen
             && s'.w.undone == s.w.undone
    requires s'.w.released == s.w.released + {c.id} && Looked(s, key, c) && other != key
    ensures KeyStays(s, s', other)
  {
  }

  lemma ReleasedFacts(s: State, s': State, key: Key, c: Claim, call: Call, next: Call)
    requires Releases(call, c, next) && CallOk(s, key, call) && Looked(s, key, c)
    requires s'.mem == s.mem && s'.life == s.life && s'.w == ReleaseDone(s.w, c)
    ensures CallOk(s', key, next)
  {
  }

  lemma ReleasedHistory(s: State, s': State, c: Claim)
    requires WorldOk(s.w) && s.life.vouched !! s.life.spent && Known(s.w, c) && Warranted(s.w.genesis, s.w.log, c.id)
    requires s.proc.Up? && s'.w == ReleaseDone(s.w, c) && s'.life == s.life
    ensures HistoryFollows(s, s')
  {
    WorldReleased(s.w, c);
  }

  lemma ReleaseDoneCore(s: State, s': State, key: Key, c: Claim, next: Call)
    requires Core(s) && key in s.calls && Releases(s.calls[key], c, next)
    requires Looked(s, key, c) && Warranted(s.w.genesis, s.w.log, c.id)
    requires s' == Goto(s, key, next).(w := ReleaseDone(s.w, c))
    ensures Core(s') && Rely(s, s')
  {
    CallsMeanUp(s);
    ReleasedHistory(s, s', c);
    ReleasedCalls(s, s', key, c, next);
    SameTableShrinks(s, s');
    SameTableRely(s, s');
    CoreShrinks(s, s');
  }

  lemma ReleaseDoneThreads(s: State, s': State, key: Key, c: Claim, next: Call)
    requires Markers(s.mem) && LifeOk(s) && CallsOk(s) && ThreadsOk(s)
    requires key in s.calls && Releases(s.calls[key], c, next) && Looked(s, key, c)
    requires s' == Goto(s, key, next).(w := ReleaseDone(s.w, c)) && Rely(s, s')
    ensures CallsOk(s') && ThreadsOk(s')
  {
    forall k | k in s.calls && k != key
      ensures KeyStays(s, s', k)
    {
      ReleasedKeyStays(s, s', key, c, k);
    }
    ReleasedFacts(s, s', key, c, s.calls[key], next);
    OthersStable(s, s', key);
  }

  lemma ReleaseDoneInv(s: State, s': State, key: Key, c: Claim, next: Call)
    requires Inv(s) && key in s.calls && Releases(s.calls[key], c, next)
    requires s' == Goto(s, key, next).(w := ReleaseDone(s.w, c))
    ensures Inv(s')
  {
    Parts(s);
    MayRelease(s, key, s.calls[key], c, next);
    ReleaseDoneCore(s, s', key, c, next);
    ReleaseDoneThreads(s, s', key, c, next);
  }

  lemma ReleaseInv(s: State, s': State, key: Key, c: Claim, ok: bool, next: Call)
    requires Inv(s) && key in s.calls && Releases(s.calls[key], c, next)
    requires ReleaseStep(s, s', key, c, ok, next)
    ensures Inv(s')
  {
    if ok { ReleaseDoneInv(s, s', key, c, next); } else { ReleaseFailedInv(s, s', key, c, next); }
  }

  // ------------------------------------------------------------------- deleting

  lemma GuardInv(s: State, s': State, key: Key, pod: Pod, next: Call)
    requires Inv(s) && key in s.calls && Quiet(s.calls[key])
    requires next.UpdateBody? || next.DeleteLookup?
    requires GuardStep(s, s', key, pod, next)
    ensures Inv(s')
  {
    Parts(s);
    CallsMeanUp(s);
    if key in s.mem.pods && s.mem.pods[key].uid != pod.uid {
      ReturnInv(s, key);
    } else {
      NoCallAt(Goto(s, key, next), key);
      GotoInv(s, key, next);
    }
  }

  lemma DeleteLookupInv(s: State, s': State, key: Key, pod: Pod)
    requires Inv(s) && key in s.calls && s.calls[key] == DeleteLookup(pod) && DeleteLookupStep(s, s', key, pod)
    ensures Inv(s')
  {
    Parts(s);
    CallsMeanUp(s);
    LookupLearns(s, key, pod);
    GotoInv(s, key, if key in s.mem.claims then ReadOwner(pod, s.mem.claims[key]) else Forgetting);
  }

  lemma LookupLearns(s: State, key: Key, pod: Pod)
    requires Content(s.mem.claims, s.mem.releasing, s.w) && LifeOk(s)
    ensures CallAt(Goto(s, key, if key in s.mem.claims then ReadOwner(pod, s.mem.claims[key]) else Forgetting), key)
  {
  }

  lemma JudgedWarrants(genesis: StateFile, log: seq<Event>, id: SandboxId, e: Event)
    requires Justifies(e, id)
    ensures Warranted(genesis, log + [e], id)
  {
    assert e in log + [e];
  }

  lemma ReadOwnerLogs(s: State, s': State, key: Key, pod: Pod, c: Claim, read: OwnerRead)
    requires key in s.calls && s.calls[key] == ReadOwner(pod, c) && CallOk(s, key, ReadOwner(pod, c))
    requires ReadOwnerStep(s, s', key, pod, c, read)
    ensures LoggedStep(s, s', key, DeleteJudged(c.id, pod, read))
  {
    ReadOwnerCall(s, s', key, pod, c, read);
  }

  lemma ReadOwnerCall(s: State, s': State, key: Key, pod: Pod, c: Claim, read: OwnerRead)
    requires Looked(s, key, c) && ReadOwnerStep(s, s', key, pod, c, read)
    ensures CallAt(s', key)
  {
    if DestroyAuthorized(pod.controller, read).Release? {
      JudgedWarrants(s.w.genesis, s.w.log, c.id, DeleteJudged(c.id, pod, read));
    }
  }

  lemma ReadOwnerInv(s: State, s': State, key: Key, pod: Pod, c: Claim, read: OwnerRead)
    requires Inv(s) && key in s.calls && s.calls[key] == ReadOwner(pod, c) && ReadOwnerStep(s, s', key, pod, c, read)
    ensures Inv(s')
  {
    Parts(s);
    CallKnows(s, key);
    ReadOwnerLogs(s, s', key, pod, c, read);
    LoggedInv(s, s', key, DeleteJudged(c.id, pod, read));
  }

  lemma PreserveAt(m: Mem, key: Key, id: SandboxId, owner: Option<OwnerRef>)
    ensures OnlyAt(m, PreserveRow(m, key, id, owner), key)
    ensures var m' := PreserveRow(m, key, id, owner);
            && m'.tentative == m.tentative && m'.quarantined == m.quarantined && m'.claims.Keys == m.claims.Keys
            && (key in m.claims ==> m'.claims[key] == if m.Row(key, id) then m.claims[key].(owner := owner)
                else m.claims[key])
  {
  }

  lemma PreserveTraces(genesis: StateFile, log: seq<Event>, c: Claim, owner: OwnerRef)
    requires Traced(genesis, log, c)
    ensures Traced(genesis, log + [OwnerRecorded(c.id, owner)], c.(owner := Some(owner)))
  {
    var e := OwnerRecorded(c.id, owner);
    var c' := c.(owner := None);
    TracedGrows(genesis, log, log + [e], c');
    assert e in log + [e];
  }

  lemma PreserveHistory(s: State, s': State, key: Key, pod: Pod, c: Claim)
    requires WorldOk(s.w) && s.life.vouched !! s.life.spent && s.proc.Up? && PreserveStep(s, s', key, pod, c)
    ensures HistoryFollows(s, s') && s'.w.released == s.w.released && s'.w.seen == s.w.seen
  {
    if s.mem.Row(key, c.id) {
      WorldLogged(s.w, OwnerRecorded(c.id, pod.controller.value));
    } else {
      QuietHistory(s, s');
    }
  }

  lemma PreservedTable(s: State, s': State, key: Key, pod: Pod, c: Claim)
    requires Content(s.mem.claims, s.mem.releasing, s.w) && Markers(s.mem) && PreserveStep(s, s', key, pod, c)
    ensures OnlyAt(s.mem, s'.mem, key) && OwnRow(s, s', key)
  {
    PreserveAt(s.mem, key, c.id, pod.controller);
    if s.mem.Row(key, c.id) {
      PreserveTraces(s.w.genesis, s.w.log, s.mem.claims[key], pod.controller.value);
    }
  }

  lemma PreserveOwnRow(s: State, s': State, key: Key, pod: Pod, c: Claim)
    requires Base(s) && s.proc.Up? && key in s.calls && s.calls[key] == Preserving(pod, c)
    requires PreserveStep(s, s', key, pod, c)
    ensures OwnRowStep(s, s', key)
  {
    PreserveHistory(s, s', key, pod, c);
    PreservedTable(s, s', key, pod, c);
    NoCallAt(s', key);
  }

  lemma PreserveInv(s: State, s': State, key: Key, pod: Pod, c: Claim)
    requires Inv(s) && key in s.calls && s.calls[key] == Preserving(pod, c) && PreserveStep(s, s', key, pod, c)
    ensures Inv(s')
  {
    Parts(s);
    CallsMeanUp(s);
    PreserveOwnRow(s, s', key, pod, c);
    OwnRowInv(s, s', key);
  }

  lemma PushRunningLogs(s: State, s': State, key: Key, pod: Pod, c: Claim)
    requires WorldOk(s.w) && key in s.calls && s.calls[key] == PushRunning(pod, c)
             && CallOk(s, key, PushRunning(pod, c))
    requires PushRunningStep(s, s', key, pod, c)
    ensures LoggedStep(s, s', key, Status(key, pod.WithClaim(c.id), c.id, true, true, c.claimedAt))
  {
    NotReleasedIn(s.w, c.id);
  }

  lemma NotReleasedIn(w: World, id: SandboxId)
    requires EntriesOk(w) && id !in w.released
    ensures !ReleasedIn(w.log, id)
  {
    assert forall e :: e in w.log && e.ReleaseCalled? && e.ok ==> EntryOk(w, e) && e.id in w.released;
  }

  lemma PushRunningInv(s: State, s': State, key: Key, pod: Pod, c: Claim)
    requires Inv(s) && key in s.calls && s.calls[key] == PushRunning(pod, c) && PushRunningStep(s, s', key, pod, c)
    ensures Inv(s')
  {
    Parts(s);
    CallKnows(s, key);
    PushRunningLogs(s, s', key, pod, c);
    LoggedInv(s, s', key, Status(key, pod.WithClaim(c.id), c.id, true, true, c.claimedAt));
  }
}
