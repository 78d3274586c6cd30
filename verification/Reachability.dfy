/**
 Starting, crashing, and the main induction: the invariant holds in every state
 of every run.
 */
module Reachability {
  import opened Types
  import opened Sections
  import opened Machine
  import opened Invariant
  import opened Stability
  import opened CallSteps
  import opened ClaimSteps
  import opened SaveSteps
  import opened ThreadSteps

  // ------------------------------------------------------------------ going down

  lemma DownInv(s: State)
    requires Core(s)
    ensures Inv(State(Down, NoMem, s.disk, None, map[], VIdle, LIdle, RIdle, s.w, NoLife))
  {
    Whole(State(Down, NoMem, s.disk, None, map[], VIdle, LIdle, RIdle, s.w, NoLife));
  }

  lemma InitInv(s: State)
    requires Init(s)
    ensures Inv(s)
  {
    InitContent(s);
    Whole(s);
  }

  lemma InitContent(s: State)
    requires Init(s)
    ensures Content(s.disk.claims, s.disk.releasing, s.w)
  {
    forall k | k in s.disk.claims
      ensures Known(s.w, s.disk.claims[k]) && Traced(s.w.genesis, s.w.log, s.disk.claims[k])
    {
      assert s.disk.claims[k].id in TableIds(s.disk.claims);
    }
    forall c | c in s.disk.releasing
      ensures Known(s.w, c) && Warranted(s.w.genesis, s.w.log, c.id)
    {
      assert c.id in QueueIds(s.disk.releasing);
    }
  }

  // -------------------------------------------------------------------- starting

  /** What a start does to the file's rows. */
  ghost predicate LoadedRows(s: State, s': State) {
    var file, claims := s.disk, s'.mem.claims;
    && s'.disk == s.disk
    && claims.Keys == file.claims.Keys
    && (forall k :: k in claims ==>
          claims[k].claimedAt.Some? && claims[k] == file.claims[k].(claimedAt := claims[k].claimedAt))
    && s'.mem == Mem(map[], claims, {}, claims.Keys, file.releasing)
  }

  /** To the start times it knows. */
  ghost predicate LoadedBook(s: State, s': State) {
    && s'.w == s.w.(book := s'.w.book) && s'.w.book.Keys == s.w.book.Keys
    && (forall k :: k in s.disk.claims && k in s'.mem.claims && Known(s.w, s.disk.claims[k]) ==>
          Known(s'.w, s'.mem.claims[k]) && Known(s'.w, s.disk.claims[k]))
    && (forall id :: id in s.w.book ==> s'.w.book[id].token == s.w.book[id].token)
    && (forall id :: id in s.w.book && id !in LegacyIds(s.disk.claims) ==> s'.w.book[id] == s.w.book[id])
  }

  /** And to the facts of the new lifetime. */
  ghost predicate LoadedLife(s: State, s': State) {
    var claims := s'.mem.claims;
    && s'.life.home.Keys == TableIds(claims)
    && (forall k :: k in claims ==> claims[k].id in s'.life.home && s'.life.home[claims[k].id] == k)
    && s'.life == Life(TableIds(claims), TableIds(claims) * s.w.released, {}, QueueIds(s.disk.releasing), s'.life.home)
  }

  ghost predicate Loaded(s: State, s': State) {
    LoadedRows(s, s') && LoadedBook(s, s') && LoadedLife(s, s')
  }

  lemma HomeIsKey(claims: map<Key, Claim>, k: Key)
    requires DistinctRows(claims) && k in claims
    ensures claims[k].id in HomeOf(claims) && HomeOf(claims)[claims[k].id] == k
  {
    assert claims[k].id in TableIds(claims);
  }

  /** Stamping keeps the sandboxes; a row is without a start time exactly when its sandbox is a legacy one. */
  lemma StampedRows(file: StateFile, now: Time)
    requires DistinctRows(file.claims)
    ensures TableIds(Load(file, now).claims) == TableIds(file.claims)
    ensures forall k :: k in file.claims ==>
            (file.claims[k].id in LegacyIds(file.claims) <==> file.claims[k].claimedAt.None?)
  {
    var claims := Load(file, now).claims;
    forall id | id in TableIds(file.claims)
      ensures id in TableIds(claims)
    {
      var k :| k in file.claims && file.claims[k].id == id;
      assert claims[k].id == id;
    }
  }

  /** The claim of a row agrees with the book after the load, stamped or not. */
  lemma StampedKnown(file: StateFile, w: World, now: Time, k: Key)
    requires DistinctRows(file.claims) && k in file.claims && Known(w, file.claims[k])
    ensures var w' := w.(book := Restamped(w.book, LegacyIds(file.claims), now));
            Known(w', file.claims[k]) && Known(w', Stamped(file.claims[k], now))
  {
    assert file.claims[k].id in LegacyIds(file.claims) <==> file.claims[k].claimedAt.None?;
  }

  lemma LoadedHome(file: StateFile, now: Time)
    requires DistinctRows(file.claims)
    ensures var claims := Load(file, now).claims;
            && HomeOf(file.claims).Keys == TableIds(claims)
            && forall k :: k in claims ==> claims[k].id in HomeOf(file.claims) && HomeOf(file.claims)[claims[k].id] == k
  {
    StampedRows(file, now);
    var claims := Load(file, now).claims;
    forall k | k in claims
      ensures claims[k].id in HomeOf(file.claims) && HomeOf(file.claims)[claims[k].id] == k
    {
      HomeIsKey(file.claims, k);
    }
  }

  lemma BootLoadsRows(s: State, s': State, now: Time)
    requires BootStep(s, s', now)
    ensures LoadedRows(s, s')
  {
  }

  lemma BootLoadsBook(s: State, s': State, now: Time)
    requires DistinctRows(s.disk.claims) && BootStep(s, s', now)
    ensures LoadedBook(s, s')
  {
    forall k | k in s'.mem.claims && Known(s.w, s.disk.claims[k])
      ensures Known(s'.w, s'.mem.claims[k]) && Known(s'.w, s.disk.claims[k])
    {
      StampedKnown(s.disk, s.w, now, k);
    }
  }

  lemma BootLoads(s: State, s': State, now: Time)
    requires DistinctRows(s.disk.claims) && BootStep(s, s', now)
    ensures Loaded(s, s')
  {
    BootLoadsRows(s, s', now);
    BootLoadsBook(s, s', now);
    StampedRows(s.disk, now);
    LoadedHome(s.disk, now);
  }

  lemma BootWorld(s: State, s': State)
    requires WorldOk(s.w) && ProcOk(s) && Loaded(s, s')
    ensures WorldOk(s'.w)
  {
    forall e | e in s'.w.log
      ensures EntryOk(s'.w, e)
    {
      assert EntryOk(s.w, e);
      if e.Status? && e.id in LegacyIds(s.disk.claims) {
        assert Published(s.w.log, e.id);
      }
    }
  }

  lemma BootContent(s: State, s': State)
    requires Content(s.disk.claims, s.disk.releasing, s.w) && Loaded(s, s')
    ensures Content(s'.disk.claims, s'.disk.releasing, s'.w)
    ensures Content(s'.mem.claims, s'.mem.releasing, s'.w) && Timed(s'.mem.claims)
  {
    forall k | k in s'.mem.claims
      ensures Known(s'.w, s'.mem.claims[k]) && Known(s'.w, s.disk.claims[k])
      ensures Traced(s'.w.genesis, s'.w.log, s'.mem.claims[k])
    {
      assert Known(s.w, s.disk.claims[k]) && Traced(s.w.genesis, s.w.log, s.disk.claims[k]);
    }
    forall c | c in s.disk.releasing
      ensures Known(s'.w, c)
    {
      assert Known(s.w, c) && c.id !in LegacyIds(s.disk.claims);
    }
  }

  lemma BootLife(s: State, s': State)
    requires WorldOk(s.w) && Loaded(s, s') && Content(s'.mem.claims, s'.mem.releasing, s'.w)
    ensures LifeOk(s')
  {
    assert TableIds(s'.mem.claims) <= s.w.seen && QueueIds(s'.mem.releasing) <= s.w.seen;
    BootRows(s, s');
    forall id | id in s'.life.home
      ensures Accounted(s', id)
    {
    }
  }

  lemma BootRows(s: State, s': State)
    requires Loaded(s, s') && Content(s'.mem.claims, s'.mem.releasing, s'.w)
    ensures forall k :: k in s'.mem.claims ==>
              var id := s'.mem.claims[k].id;
              && id in s'.life.home && s'.life.home[id] == k && id !in s'.life.queued
              && id in s'.life.loaded && k in s'.mem.quarantined
  {
  }

  lemma BootCovers(s: State, s': State)
    requires Loaded(s, s')
    ensures Covers(s'.disk, s'.mem) && TableIds(s.disk.claims) <= TableIds(s'.mem.claims)
  {
    forall k | k in s'.mem.claims
      ensures s'.mem.claims[k].id in TableIds(s.disk.claims) && s.disk.claims[k].id in TableIds(s'.mem.claims)
    {
      assert s.disk.claims[k].id == s'.mem.claims[k].id;
    }
  }

  lemma BootDurably(s: State, s': State)
    requires DurableOk(s) && Loaded(s, s')
    ensures DurableOk(s')
  {
    BootCovers(s, s');
    forall id | id in s'.w.durable
      ensures HeldDurably(s'.mem, s'.w, id)
    {
      assert id in TableIds(s.disk.claims) ==> id in TableIds(s'.mem.claims);
    }
  }

  lemma BootReleased(s: State, s': State)
    requires Loaded(s, s')
    ensures ReleasedOk(s'.mem, s'.calls, s'.w.released, s'.life.spent)
  {
    forall k | k in s'.mem.claims && s'.mem.claims[k].id in s'.w.released
      ensures k in s'.mem.quarantined && s'.mem.claims[k].id in s'.life.spent
    {
      assert s'.mem.claims[k].id in TableIds(s'.mem.claims);
    }
  }

  lemma BootInv(s: State, s': State, now: Time)
    requires Inv(s) && BootStep(s, s', now)
    ensures Inv(s')
  {
    Parts(s);
    BootLoads(s, s', now);
    BootWorld(s, s');
    BootContent(s, s');
    BootLife(s, s');
    BootCovers(s, s');
    BootDurably(s, s');
    BootReleased(s, s');
    UnverifiedOk(s');
    Whole(s');
  }

  lemma BootedFile(s: State)
    requires s.mem.tentative == {}
    ensures Snapshot(s.mem, None) == StateFile(s.mem.claims, s.mem.releasing)
  {
  }

  lemma BootedWorld(s: State, s': State)
    requires WorldOk(s.w) && ProcOk(s) && DurableOk(s) && Content(s.mem.claims, s.mem.releasing, s.w)
    requires Timed(s.mem.claims) && Covers(s.disk, s.mem) && BootPersistStep(s, s', true)
    ensures WorldOk(s'.w) && WorldGrows(s.w, s'.w) && ProcOk(s') && DurableOk(s') && Covers(s'.disk, s'.mem)
  {
    BootedFile(s);
    assert Ids(s.mem.claims, s.mem.releasing) <= s.w.seen;
    forall k | k in s.mem.claims
      ensures s.mem.claims[k].id in TableIds(s.mem.claims)
    {
    }
  }

  lemma BootedCore(s: State, s': State)
    requires Core(s) && BootPersistStep(s, s', true)
    ensures Core(s')
  {
    BootedFile(s);
    BootedWorld(s, s');
    ContentGrows(s.mem.claims, s.mem.releasing, s.w, s'.w);
    BootedLife(s, s');
  }

  lemma BootedLife(s: State, s': State)
    requires LifeOk(s) && BootPersistStep(s, s', true)
    ensures LifeOk(s')
  {
    forall id | id in s'.life.home
      ensures Accounted(s', id)
    {
      assert Accounted(s, id);
    }
    forall id | id in s'.life.queued
      ensures Pending(s', id)
    {
      assert Pending(s, id);
    }
  }

  lemma BootPersistInv(s: State, s': State, ok: bool)
    requires Inv(s) && BootPersistStep(s, s', ok)
    ensures Inv(s')
  {
    Parts(s);
    if ok {
      BootedCore(s, s');
      BootedWorld(s, s');
      SameThreads(s, s');
    } else {
      DownInv(s);
    }
  }

  // ------------------------------------------------------------------- all steps

  lemma SettleInv(s: State, s': State, key: Key, input: Input)
    requires Inv(s) && key in s.calls && SettleStep(s, s', key, s.calls[key], input)
    ensures Inv(s')
  {
    match (s.calls[key], input)
    case (CheckUnverified(pod), Go) => CheckUnverifiedInv(s, s', key, pod);
    case (SnapshotUnverified(pod), Go) => SnapshotUnverifiedInv(s, s', key, pod);
    case (ListUnverified(pod, before), Fails) => ReturnInv(s, key);
    case (ListUnverified(pod, before), Listed(live)) => ListUnverifiedInv(s, s', key, pod, before, live);
    case (JudgeUnverified(pod, before, live), Go) => JudgeUnverifiedInv(s, s', key, pod, before, live);
    case (CheckExpiry(pod), At(now)) => CheckExpiryInv(s, s', key, pod, now);
    case (ListExpired(pod, c), Fails) => ReturnInv(s, key);
    case (ListExpired(pod, c), Listed(live)) => ListExpiredInv(s, s', key, pod, c, live);
    case (JudgeExpired(pod, c, live), Go) => JudgeExpiredInv(s, s', key, pod, c, live);
    case (Adopting(pod), Go) => AdoptInv(s, s', key, pod);
  }

  lemma ClaimingInv(s: State, s': State, key: Key, input: Input)
    requires Inv(s) && key in s.calls && ClaimingStep(s, s', key, s.calls[key], input)
    ensures Inv(s')
  {
    match (s.calls[key], input)
    case (CheckStranded(pod), Go) => CheckStrandedInv(s, s', key, pod);
    case (ReturnStranded(pod, c), Go) => ReleaseInv(s, s', key, c, true, WithdrawStranded(pod, c));
    case (ReturnStranded(pod, c), Fails) => ReleaseInv(s, s', key, c, false, WithdrawStranded(pod, c));
    case (WithdrawStranded(pod, c), Go) => WithdrawStrandedInv(s, s', key, pod, c);
    case (Claiming(pod), Fails) => ReturnInv(s, key);
    case (Claiming(pod), Lost(id)) => ClaimLostInv(s, s', key, pod, id);
    case (Claiming(pod), Granted(g, now)) => ClaimInv(s, s', key, pod, FreshClaim(pod, g, now));
    case (Installing(pod, c), Go) => InstallInv(s, s', key, pod, c);
  }

  lemma FinishInv(s: State, s': State, key: Key, input: Input)
    requires Inv(s) && key in s.calls && FinishStep(s, s', key, s.calls[key], input)
    ensures Inv(s')
  {
    match (s.calls[key], input)
    case (Undoing(pod, c), Go) => ReleaseInv(s, s', key, c, true, WithdrawUndone(pod, c));
    case (Undoing(pod, c), Fails) => ReleaseInv(s, s', key, c, false, WithdrawUndone(pod, c));
    case (WithdrawUndone(pod, c), Go) => WithdrawUndoneInv(s, s', key, pod, c);
    case (PushRunning(pod, c), Go) => PushRunningInv(s, s', key, pod, c);
    case (UpdateGuard(pod), Go) => GuardInv(s, s', key, pod, UpdateBody(pod));
    case (UpdateBody(pod), Go) => UpdateBodyInv(s, s', key, pod);
  }

  lemma DeletingInv(s: State, s': State, key: Key, input: Input)
    requires Inv(s) && key in s.calls && DeletingStep(s, s', key, s.calls[key], input)
    ensures Inv(s')
  {
    match (s.calls[key], input)
    case (DeleteGuard(pod), Go) => GuardInv(s, s', key, pod, DeleteLookup(pod));
    case (DeleteLookup(pod), Go) => DeleteLookupInv(s, s', key, pod);
    case (Forgetting, Go) => ForgetInv(s, s', key);
    case (ReadOwner(pod, c), Owner(read)) => ReadOwnerInv(s, s', key, pod, c, read);
    case (Preserving(pod, c), Go) => PreserveInv(s, s', key, pod, c);
    case (Releasing(pod, c), Go) => ReleaseInv(s, s', key, c, true, WithdrawReleased(pod, c));
    case (Releasing(pod, c), Fails) => ReleaseInv(s, s', key, c, false, WithdrawReleased(pod, c));
    case (WithdrawReleased(pod, c), Go) => WithdrawReleasedInv(s, s', key, pod, c);
  }

  lemma AdvanceInv(s: State, s': State, key: Key, input: Input)
    requires Inv(s) && AdvanceStep(s, s', key, input)
    ensures Inv(s')
  {
    if SettleStep(s, s', key, s.calls[key], input) {
      SettleInv(s, s', key, input);
    } else if ClaimingStep(s, s', key, s.calls[key], input) {
      ClaimingInv(s, s', key, input);
    } else if FinishStep(s, s', key, s.calls[key], input) {
      FinishInv(s, s', key, input);
    } else {
      DeletingInv(s, s', key, input);
    }
  }

  lemma StartInv(s: State, s': State, key: Key, call: Call)
    requires Inv(s) && StartStep(s, s', key, call)
    requires call.CheckUnverified? || call.UpdateGuard? || call.DeleteGuard?
    ensures Inv(s')
  {
    NoCallAt(Goto(s, key, call), key);
    GotoInv(s, key, call);
  }

  lemma LifecycleInv(s: State, a: Action, s': State)
    requires Inv(s) && LifecycleStep(s, a, s')
    ensures Inv(s')
  {
    match a
    case StartCreate(key, pod) => StartInv(s, s', key, CheckUnverified(pod));
    case StartUpdate(key, pod) => StartInv(s, s', key, UpdateGuard(pod));
    case StartDelete(key, pod) => StartInv(s, s', key, DeleteGuard(pod));
    case Advance(key, input) => AdvanceInv(s, s', key, input);
    case ReadStatus(key, now) => ReadStatusInv(s, s', key, now);
  }

  lemma ProcessInv(s: State, a: Action, s': State)
    requires Inv(s) && ProcessStep(s, a, s')
    ensures Inv(s')
  {
    Parts(s);
    match a
    case Reap(id) => ReapInv(s, s', id);
    case ClaimElsewhere(id, ref) => ClaimElsewhereInv(s, s', id, ref);
    case Crash => DownInv(s);
    case Boot(now) => BootInv(s, s', now);
    case BootPersist(ok) => BootPersistInv(s, s', ok);
  }

  lemma SaveInv(s: State, a: Action, s': State)
    requires Inv(s) && SaveStep(s, a, s')
    ensures Inv(s')
  {
    match a
    case SaveBegin(saver) => SaveBeginInv(s, s', saver);
    case SaveRename => SaveRenameInv(s, s');
    case SaveEnd(ok) => SaveEndInv(s, s', ok);
  }

  lemma VerifyInv(s: State, a: Action, s': State)
    requires Inv(s) && VerifyStep(s, a, s')
    ensures Inv(s')
  {
    match a
    case VerifyBegin => VerifyBeginInv(s, s');
    case VerifyListed(live) => VerifyListedInv(s, s', live);
    case VerifyFails => VerifyFailsInv(s, s');
    case VerifyJudge => VerifyJudgeInv(s, s');
  }

  lemma LeaseInv(s: State, a: Action, s': State)
    requires Inv(s) && LeaseStep(s, a, s')
    ensures Inv(s')
  {
    match a
    case LeaseBegin(now) => LeaseBeginInv(s, s', now);
    case LeaseListed(live) => LeaseListedInv(s, s', live);
    case LeaseFails => LeaseFailsInv(s, s');
    case LeaseJudge(key) => LeaseJudgeInv(s, s', key);
    case LeaseEnd => LeaseEndInv(s, s');
  }

  lemma RecheckInv(s: State, a: Action, s': State)
    requires Inv(s) && RecheckStep(s, a, s')
    ensures Inv(s')
  {
    match a
    case RecheckBegin => RecheckBeginInv(s, s');
    case RecheckSkip(key) => RecheckSkipInv(s, s', key);
    case RecheckAsk(key, read) => RecheckAskInv(s, s', key, read);
    case RecheckWithdraw => RecheckWithdrawInv(s, s');
  }

  lemma DrainInv(s: State, a: Action, s': State)
    requires Inv(s) && DrainStep(s, a, s')
    ensures Inv(s')
  {
    match a
    case DrainBegin => DrainBeginInv(s, s');
    case DrainRelease(ok) => DrainReleaseInv(s, s', ok);
    case DrainRemove => DrainRemoveInv(s, s');
    case DrainEnd => DrainEndInv(s, s');
  }

  /** Every step keeps the invariant. */
  lemma StepInv(s: State, a: Action, s': State)
    requires Inv(s) && Step(s, a, s')
    ensures Inv(s')
  {
    if ProcessStep(s, a, s') { ProcessInv(s, a, s'); }
    else if LifecycleStep(s, a, s') { LifecycleInv(s, a, s'); }
    else if SaveStep(s, a, s') { SaveInv(s, a, s'); }
    else if VerifyStep(s, a, s') { VerifyInv(s, a, s'); }
    else if LeaseStep(s, a, s') { LeaseInv(s, a, s'); }
    else if RecheckStep(s, a, s') { RecheckInv(s, a, s'); }
    else { DrainInv(s, a, s'); }
  }

  /** Every state of every run satisfies the invariant. */
  lemma {:induction false} RunInv(states: seq<State>, actions: seq<Action>, i: nat)
    requires Run(states, actions) && i < |states|
    ensures Inv(states[i])
  {
    assert Entered(states, actions, i);
    if i == 0 {
      InitInv(states[0]);
    } else {
      RunInv(states, actions, i - 1);
      StepInv(states[i - 1], actions[i - 1], states[i]);
    }
  }

  lemma RunCore(states: seq<State>, actions: seq<Action>, i: nat)
    requires Run(states, actions) && i < |states|
    ensures Core(states[i])
  {
    RunInv(states, actions, i);
    assert ClauseOk(states[i], OfTables);
  }

  lemma RunCalls(states: seq<State>, actions: seq<Action>, i: nat)
    requires Run(states, actions) && i < |states|
    ensures CallsOk(states[i])
  {
    RunInv(states, actions, i);
    assert ClauseOk(states[i], OfCalls);
  }

  lemma RunProc(states: seq<State>, actions: seq<Action>, i: nat)
    requires Run(states, actions) && i < |states|
    ensures ProcOk(states[i])
  {
    RunCore(states, actions, i);
  }

  // ------------------------------------------------------------------ reachable states

  ghost predicate Reachable(s: State) {
    exists states, actions :: Run(states, actions) && states[|actions|] == s
  }

  lemma Next(s: State, a: Action, s': State)
    requires Reachable(s) && Step(s, a, s')
    ensures Reachable(s')
  {
    var states, actions :| Run(states, actions) && states[|actions|] == s;
    var states', actions' := states + [s'], actions + [a];
    forall i | 0 <= i < |states'|
      ensures Entered(states', actions', i)
    {
      if i < |states| { assert Entered(states, actions, i); }
    }
    assert Run(states', actions') && states'[|actions'|] == s';
  }

  lemma ReachableInv(s: State)
    requires Reachable(s)
    ensures Inv(s)
  {
    var states, actions :| Run(states, actions) && states[|actions|] == s;
    RunInv(states, actions, |actions|);
  }

  /** A history may begin with any one row on file and its sandbox on the node. */
  lemma BeginsWith(key: Key, row: Claim) returns (s: State)
    ensures Reachable(s) && row.id in s.w.live && s.disk == StateFile(map[key := row], [])
    ensures s == State(Down, NoMem, s.disk, None, map[], VIdle, LIdle, RIdle, s.w, NoLife)
  {
    var file := StateFile(map[key := row], []);
    var ids, book := {row.id}, map[row.id := Fixed(row.token, row.claimedAt)];
    var w := World(ids, map[row.id := key.Text()], {}, book, ids, ids, {}, {}, {}, file, []);
    s := State(Down, NoMem, file, None, map[], VIdle, LIdle, RIdle, w, NoLife);
    assert file.claims[key].id == row.id;
    assert Ids(file.claims, file.releasing) == ids;
    var actions: seq<Action> := [];
    assert Entered([s], actions, 0);
    assert Run([s], actions);
  }

  /** The state right after a start has loaded its table. */
  lemma Starts(s0: State, key: Key, row: Claim) returns (s1: State)
    requires Reachable(s0) && s0.disk == StateFile(map[key := row], []) && row.claimedAt.Some? && row.id in s0.w.live
    requires s0 == State(Down, NoMem, s0.disk, None, map[], VIdle, LIdle, RIdle, s0.w, NoLife)
    ensures Reachable(s1) && s1.proc.Booting? && row.id in s1.w.live && s1.calls == map[] && s1.mem == Load(s0.disk, 0)
    ensures s1.writer.None? && s1.lease.LIdle? && s1.recheck.RIdle?
    ensures s1.verifier == VList(Unverified(s1.mem))
    ensures key in Unverified(s1.mem) && Unverified(s1.mem)[key] == row.id && s1.mem.claims == map[key := row]
  {
    var mem := Load(s0.disk, 0);
    var before, claims := Unverified(mem), s0.disk.claims;
    assert mem.claims == map[key := row];
    assert key in before;
    s1 := s0.(proc := Booting, mem := mem, verifier := VList(before),
              w := s0.w.(book := Restamped(s0.w.book, LegacyIds(claims), 0)),
              life := Life(TableIds(claims), TableIds(claims) * s0.w.released, {},
                           QueueIds(s0.disk.releasing), HomeOf(claims)));
    assert ProcessStep(s0, Boot(0), s1);
    Next(s0, Boot(0), s1);
  }

  /** `New` gets its table on disk and the process is up. */
  lemma ComesUp(s2: State) returns (s3: State)
    requires Reachable(s2) && s2.proc.Booting? && s2.verifier.VIdle?
    ensures Reachable(s3) && s3 == s2.(proc := Up, disk := s3.disk, w := s3.w) && s3.w.live == s2.w.live
  {
    var file := Snapshot(s2.mem, None);
    s3 := s2.(proc := Up, disk := file, w := s2.w.(durable := s2.w.durable + Ids(file.claims, file.releasing)));
    assert ProcessStep(s2, BootPersist(true), s3);
    Next(s2, BootPersist(true), s3);
  }

  lemma Proceeds(s: State, key: Key, input: Input, s': State)
    requires Reachable(s) && AdvanceStep(s, s', key, input)
    ensures Reachable(s')
  {
    assert LifecycleStep(s, Advance(key, input), s');
    Next(s, Advance(key, input), s');
  }

  function SomeListing(live: set<SandboxId>): (listing: Listing)
    ensures listing.Keys == live
  {
    map id | id in live :: None
  }
}
