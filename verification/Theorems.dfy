/**
 The properties of whole runs: any interleaving of lifecycle calls, background
 loops and writes, with failing releases, listings and writes, and a crash at
 any step.
 */
module Theorems {
  import opened Types
  import opened Ownership
  import opened Sections
  import opened Machine
  import opened Invariant
  import opened CallSteps
  import opened Reachability
  import opened History

  lemma InFileOf(file: StateFile, w: World, id: SandboxId)
    requires Content(file.claims, file.releasing, w) && id in Ids(file.claims, file.releasing)
    ensures id in w.book && InFile(file, id, w.book[id].token)
  {
    if id in TableIds(file.claims) {
      var k :| k in file.claims && file.claims[k].id == id;
      assert Known(w, file.claims[k]);
    } else {
      var c :| c in file.releasing && c.id == id;
      assert Known(w, c);
    }
  }

  // ----------------------------------------------------------------- durability

  lemma DurableNow(s: State)
    requires Core(s)
    ensures forall k :: k in s.mem.claims && k !in s.mem.tentative ==>
              InFile(s.disk, s.mem.claims[k].id, s.mem.claims[k].token)
    ensures forall c :: c in s.mem.releasing ==> InFile(s.disk, c.id, c.token)
  {
    forall k | k in s.mem.claims && k !in s.mem.tentative
      ensures InFile(s.disk, s.mem.claims[k].id, s.mem.claims[k].token)
    {
      assert Known(s.w, s.mem.claims[k]);
      InFileOf(s.disk, s.w, s.mem.claims[k].id);
    }
    forall c | c in s.mem.releasing
      ensures InFile(s.disk, c.id, c.token)
    {
      assert Known(s.w, c);
      InFileOf(s.disk, s.w, c.id);
    }
  }

  /**
   In every reachable state each row that is not tentative and each queued claim is in
   the last renamed file, with its token.
   */
  lemma Durability(states: seq<State>, actions: seq<Action>, i: nat)
    requires Run(states, actions) && i < |states|
    ensures forall k :: k in states[i].mem.claims && k !in states[i].mem.tentative ==>
              InFile(states[i].disk, states[i].mem.claims[k].id, states[i].mem.claims[k].token)
    ensures forall c :: c in states[i].mem.releasing ==> InFile(states[i].disk, c.id, c.token)
  {
    RunCore(states, actions, i);
    DurableNow(states[i]);
  }

  // ------------------------------------------------------------- crash recovery

  lemma KeptNow(s: State, id: SandboxId)
    requires Core(s) && id in s.w.durable && id !in s.w.released && id !in s.w.gone
    ensures id in s.w.book && InFile(s.disk, id, s.w.book[id].token)
    ensures !s.proc.Down? ==> Holds(s.mem, id, s.w.book[id].token)
  {
    InFileOf(s.disk, s.w, id);
    if !s.proc.Down? {
      assert HeldDurably(s.mem, s.w, id);
      if id in QueueIds(s.mem.releasing) {
        var c :| c in s.mem.releasing && c.id == id;
        assert Known(s.w, c);
      } else {
        var k :| k in s.mem.claims && s.mem.claims[k].id == id;
        assert Known(s.w, s.mem.claims[k]);
      }
    }
  }

  /**
   The credential survives: it is on file and a running process holds it, unless it was
   used up or its sandbox is gone.
   */
  ghost predicate Survives(s: State, id: SandboxId, token: Token) {
    || id in s.w.released || id in s.w.gone
    || (InFile(s.disk, id, token) && (s.proc.Down? || Holds(s.mem, id, token)))
  }

  /**
   Crash recovery. From the moment a sandbox is first in the state file, and
   through any number of crashes and restarts, it is on file with its token and
   a running process holds it, unless a release of it succeeded or a listing was
   asked about it and did not have it.
   */
  lemma CrashRecovery(states: seq<State>, actions: seq<Action>, i: nat, j: nat, id: SandboxId)
    requires Run(states, actions) && i <= j < |states| && id in states[i].w.durable
    ensures id in states[i].w.book && Survives(states[j], id, states[i].w.book[id].token)
  {
    RunGrows(states, actions, i, j);
    RunCore(states, actions, i);
    RunCore(states, actions, j);
    if id !in states[j].w.released && id !in states[j].w.gone {
      KeptNow(states[j], id);
    }
  }

  /** The rename of a create's own write is that moment, whether or not the create gets to clear its marker. */
  lemma CommitRecovery(states: seq<State>, actions: seq<Action>, n: nat, j: nat, key: Key, pod: Pod, c: Claim)
    requires Run(states, actions) && n < j < |states| && actions[n].SaveRename?
    requires states[n].writer.Some? && states[n].writer.value.saver == ByCall(key)
    requires key in states[n].calls && states[n].calls[key] == Committing(pod, c)
    ensures Survives(states[j], c.id, c.token)
  {
    CommitLands(states, actions, n, key, pod, c);
    CrashRecovery(states, actions, n + 1, j, c.id);
  }

  lemma RunStep(states: seq<State>, actions: seq<Action>, n: nat)
    requires Run(states, actions) && n < |actions|
    ensures Step(states[n], actions[n], states[n + 1])
  {
    assert Entered(states, actions, n + 1);
  }

  lemma OnlyRename(s: State, s': State)
    requires Step(s, SaveRename, s')
    ensures SaveRenameStep(s, s')
  {
  }

  lemma RenamedCommit(s: State, s': State, key: Key, pod: Pod, c: Claim)
    requires Inv(s) && SaveRenameStep(s, s') && s.writer.value.saver == ByCall(key)
    requires key in s.calls && s.calls[key] == Committing(pod, c)
    ensures c.id in s'.w.durable && c.id in s'.w.book && s'.w.book[c.id].token == c.token
  {
    Parts(s);
    CallKnows(s, key);
    var file := s.writer.value.file;
    assert file.claims[key].id == c.id;
  }

  lemma CommitLands(states: seq<State>, actions: seq<Action>, n: nat, key: Key, pod: Pod, c: Claim)
    requires Run(states, actions) && n < |actions| && actions[n].SaveRename?
    requires states[n].writer.Some? && states[n].writer.value.saver == ByCall(key)
    requires key in states[n].calls && states[n].calls[key] == Committing(pod, c)
    ensures var w := states[n + 1].w; c.id in w.durable && c.id in w.book && w.book[c.id].token == c.token
  {
    RunStep(states, actions, n);
    RunInv(states, actions, n);
    OnlyRename(states[n], states[n + 1]);
    RenamedCommit(states[n], states[n + 1], key, pod, c);
  }

  /** So is the start of the history for every sandbox of its first state file. */
  lemma GenesisRecovery(states: seq<State>, actions: seq<Action>, j: nat, c: Claim)
    requires Run(states, actions) && j < |states|
    requires c in states[0].disk.releasing || exists k :: k in states[0].disk.claims && states[0].disk.claims[k] == c
    ensures Survives(states[j], c.id, c.token)
  {
    RunCore(states, actions, 0);
    assert Entered(states, actions, 0);
    assert Known(states[0].w, c);
    assert c.id in Ids(states[0].disk.claims, states[0].disk.releasing);
    CrashRecovery(states, actions, 0, j, c.id);
  }

  // --------------------------------------------------------- conservation

  /** Where a credential can be within one process lifetime. */
  ghost predicate Conserved(s: State, key: Key, id: SandboxId) {
    || s.mem.Row(key, id)
    || id in QueueIds(s.mem.releasing)
    || id in s.w.released
    || id in s.w.gone
    || InFlight(s.calls, key, id)
  }

  lemma ConservedNow(s: State, id: SandboxId)
    requires Core(s) && id in s.life.home
    ensures Conserved(s, s.life.home[id], id)
  {
    assert Accounted(s, id);
    if id in TableIds(s.mem.claims) {
      var k :| k in s.mem.claims && s.mem.claims[k].id == id;
    }
  }

  /** A claimed sandbox is at its key, in the queue, released, or confirmed absent, as long as the process lives. */
  lemma ClaimConserved(states: seq<State>, actions: seq<Action>, i: nat, j: nat, key: Key, pod: Pod, c: Claim)
    requires Run(states, actions) && SameProcess(states, i, j)
    requires key in states[i].calls && states[i].calls[key] == Installing(pod, c)
    ensures Conserved(states[j], key, c.id)
  {
    RunCalls(states, actions, i);
    InstallingHome(states[i], key, pod, c);
    RunGrows(states, actions, i, j);
    RunCore(states, actions, j);
    ConservedNow(states[j], c.id);
  }

  lemma InstallingHome(s: State, key: Key, pod: Pod, c: Claim)
    requires CallsOk(s) && key in s.calls && s.calls[key] == Installing(pod, c)
    ensures c.id in s.life.home && s.life.home[c.id] == key
  {
    CallKnows(s, key);
  }

  /** So is every loaded one. */
  lemma RowConserved(states: seq<State>, actions: seq<Action>, i: nat, j: nat, key: Key)
    requires Run(states, actions) && SameProcess(states, i, j) && key in states[i].mem.claims
    ensures Conserved(states[j], key, states[i].mem.claims[key].id)
  {
    RunCore(states, actions, i);
    RunGrows(states, actions, i, j);
    RunCore(states, actions, j);
    ConservedNow(states[j], states[i].mem.claims[key].id);
  }

  /** A fresh claim is never written over a row, and no claim is made while its key holds one. */
  lemma NeverOverwritten(states: seq<State>, actions: seq<Action>, i: nat, key: Key)
    requires Run(states, actions) && i < |states| && key in states[i].calls
    requires states[i].calls[key].Claiming? || states[i].calls[key].Installing?
    ensures key !in states[i].mem.claims
  {
    RunCalls(states, actions, i);
    CallKnows(states[i], key);
  }

  // ---------------------------------------------------------- release authority

  /**
   Every release the provider asked for, at any point of any run, used the
   sandbox's own token and had an earlier justification: a release verdict on
   the deleted Pod's controller or on the preserved owner, a refused adoption, a
   failed write of the claim, or a place in the queue of the first state file.
   */
  lemma ReleaseAuthority(states: seq<State>, actions: seq<Action>, i: nat, p: nat)
    requires Run(states, actions) && i < |states| && p < |states[i].w.log| && states[i].w.log[p].ReleaseCalled?
    ensures var e := states[i].w.log[p];
            && Warranted(states[i].w.genesis, states[i].w.log[..p], e.id)
            && e.id in states[i].w.book && e.token == states[i].w.book[e.id].token
  {
    RunCore(states, actions, i);
    var w := states[i].w;
    assert EventOk(w.genesis, w.log[..p], w.log[p]);
    assert w.log[p] in w.log;
  }

  /**
   A justification by verdict is never a failed query, a missing client, an unknown
   resource, or a 404 for another name.
   */
  lemma JustifiedByAnOwner(e: Event, id: SandboxId)
    requires Justifies(e, id) && (e.DeleteJudged? || e.RecheckJudged?)
    ensures var ref := if e.DeleteJudged? then e.pod.controller else e.ref;
            (e.DeleteJudged? && ref.None?) || (ref.Some? && OwnerRefuted(ref.value, e.read))
  {
    ReleaseIffOwnerRefuted(if e.DeleteJudged? then e.pod.controller else e.ref, e.read);
  }

  /** The re-check asks only about an owner recorded for that very sandbox, by a delete or in the first file. */
  lemma RecheckAsksItsOwner(states: seq<State>, actions: seq<Action>, i: nat, p: nat)
    requires Run(states, actions) && i < |states| && p < |states[i].w.log| && states[i].w.log[p].RecheckJudged?
    ensures var e := states[i].w.log[p];
            e.ref.Some? && KeptFor(states[i].w.genesis, states[i].w.log[..p], e.id, e.ref.value.uid)
  {
    RunCore(states, actions, i);
    assert EventOk(states[i].w.genesis, states[i].w.log[..p], states[i].w.log[p]);
  }

  /** A claim released because its write failed was never in the state file, and never will be. */
  lemma UndoneNeverDurable(states: seq<State>, actions: seq<Action>, i: nat, j: nat, id: SandboxId)
    requires Run(states, actions) && i < |states| && j < |states| && PersistFailed(id) in states[i].w.log
    ensures id !in Ids(states[j].disk.claims, states[j].disk.releasing)
  {
    var m := if i < j then j else i;
    RunCore(states, actions, i);
    RunCore(states, actions, j);
    RunCore(states, actions, m);
    RunGrows(states, actions, i, m);
    RunGrows(states, actions, j, m);
    assert EntryOk(states[i].w, PersistFailed(id));
  }

  // ---------------------------------------------------------- listing soundness

  lemma InFlightUnseen(s: State, key: Key, id: SandboxId)
    requires CallsOk(s) && id in s.w.seen
    ensures !InFlight(s.calls, key, id)
  {
  }

  /**
   A row leaves the table of a living process only for the release queue, or
   when the node holds its sandbox no more: whatever a stale listing said, and
   whoever took the key meanwhile.
   */
  lemma RowsLeaveForCause(states: seq<State>, actions: seq<Action>, i: nat, j: nat, key: Key)
    requires Run(states, actions) && SameProcess(states, i, j) && key in states[i].mem.claims
    requires !states[j].mem.Row(key, states[i].mem.claims[key].id)
    ensures var id := states[i].mem.claims[key].id; id in QueueIds(states[j].mem.releasing) || id !in states[j].w.live
  {
    var id := states[i].mem.claims[key].id;
    RunCore(states, actions, i);
    RowConserved(states, actions, i, j, key);
    RunGrows(states, actions, i, j);
    RunCore(states, actions, j);
    RunCalls(states, actions, j);
    assert Known(states[i].w, states[i].mem.claims[key]);
    InFlightUnseen(states[j], key, id);
  }

  /** What a listing was asked about and lacked, and what a release succeeded for, never comes back to the node. */
  lemma GoneForGood(states: seq<State>, actions: seq<Action>, i: nat, j: nat, id: SandboxId)
    requires Run(states, actions) && i <= j < |states| && (id in states[i].w.gone || id in states[i].w.released)
    ensures id !in states[j].w.live
  {
    RunGrows(states, actions, i, j);
    RunCore(states, actions, j);
  }

  /** Failed is pushed only for a sandbox the node no longer holds, now or ever again. */
  lemma FailedOnlyWhenGone(states: seq<State>, actions: seq<Action>, i: nat, j: nat, e: Event)
    requires Run(states, actions) && i <= j < |states|
    requires e in states[i].w.log && e.Status? && e.pushed && !e.running
    ensures e.id !in states[j].w.live
  {
    RunCore(states, actions, i);
    assert EntryOk(states[i].w, e);
    GoneForGood(states, actions, i, j, e.id);
  }

  // ------------------------------------------------------------ owner isolation

  /**
   Whenever a Pod takes over a row that answers to someone, it is an earlier
   holder of the sandbox, or has the authority of one, or is of the owner the
   sandbox was preserved for: across restarts, and when a save failed before a crash.
   */
  lemma OwnerIsolation(states: seq<State>, actions: seq<Action>, i: nat, p: nat)
    requires Run(states, actions) && i < |states| && p < |states[i].w.log| && states[i].w.log[p].Rebound?
    requires states[i].w.log[p].was.authority.Some? || states[i].w.log[p].was.owner.Some?
    ensures var e := states[i].w.log[p]; Linked(states[i].w.genesis, states[i].w.log[..p], e.was, e.pod)
  {
    RunCore(states, actions, i);
    assert EventOk(states[i].w.genesis, states[i].w.log[..p], states[i].w.log[p]);
  }

  /** And nobody else holds one: every row was bound to its Pod by a claim or an adoption, or was in the first file. */
  lemma HoldersAreRecorded(states: seq<State>, actions: seq<Action>, i: nat, key: Key)
    requires Run(states, actions) && i < |states| && key in states[i].mem.claims
    ensures Traced(states[i].w.genesis, states[i].w.log, states[i].mem.claims[key])
  {
    RunCore(states, actions, i);
  }

  // -------------------------------------------------------------------- running

  lemma RowOnFile(s: State, key: Key)
    requires Core(s) && key in s.mem.claims && s.mem.Settled(key)
    ensures InFile(s.disk, s.mem.claims[key].id, s.mem.claims[key].token)
  {
    assert Known(s.w, s.mem.claims[key]);
    InFileOf(s.disk, s.w, s.mem.claims[key].id);
  }

  /**
   A push of Running: the claim is this Pod's, its write has landed, it is
   unreleased and out of the queue, and its key is settled. The row is there and on file, or its sandbox came with
   the state file of this start and a verification found the node had lost it.
   So a claim made in this lifetime always has its row.
   */
  lemma RunningIsSound(states: seq<State>, actions: seq<Action>, i: nat, key: Key, pod: Pod, c: Claim)
    requires Run(states, actions) && i < |states|
    requires key in states[i].calls && states[i].calls[key] == PushRunning(pod, c)
    ensures c.podUid == pod.uid && c.authority == Some(pod.Authority()) && c.owner.None?
    ensures c.id in states[i].w.durable && c.id !in states[i].w.released && c.id !in states[i].life.queued
    ensures states[i].mem.Settled(key)
    ensures || (states[i].mem.Row(key, c.id) && InFile(states[i].disk, c.id, c.token))
            || (key !in states[i].mem.claims && c.id !in states[i].w.live && c.id in states[i].life.loaded)
  {
    RunCore(states, actions, i);
    RunCalls(states, actions, i);
    CallKnows(states[i], key);
    HeldIsSound(states[i], key, pod, c);
  }

  lemma HeldIsSound(s: State, key: Key, pod: Pod, c: Claim)
    requires Core(s) && HeldOk(s, key, pod, c)
    ensures s.mem.Settled(key)
    ensures || (s.mem.Row(key, c.id) && InFile(s.disk, c.id, c.token))
            || (key !in s.mem.claims && c.id !in s.w.live && c.id in s.life.loaded)
  {
    if key in s.mem.claims {
      assert Known(s.w, s.mem.claims[key]);
      RowOnFile(s, key);
    }
  }

  /** No status of a running sandbox is pushed after a release of it succeeded, in this lifetime or an earlier one. */
  lemma NeverRunningAfterRelease(states: seq<State>, actions: seq<Action>, i: nat, p: nat, q: nat)
    requires Run(states, actions) && i < |states| && p < q < |states[i].w.log|
    requires states[i].w.log[p].ReleaseCalled? && states[i].w.log[p].ok
    requires states[i].w.log[q].Status? && states[i].w.log[q].pushed && states[i].w.log[q].running
    ensures states[i].w.log[p].id != states[i].w.log[q].id
  {
    RunCore(states, actions, i);
    var log := states[i].w.log;
    assert EventOk(states[i].w.genesis, log[..q], log[q]);
    assert log[..q][p] == log[p] && log[p] in log[..q];
  }

  // -------------------------------------------------------------------- the queue

  /** No way back: within one lifetime a queued sandbox never has a row again, so no Pod adopts it. */
  lemma NoWayBack(states: seq<State>, actions: seq<Action>, i: nat, j: nat, id: SandboxId)
    requires Run(states, actions) && SameProcess(states, i, j) && id in QueueIds(states[i].mem.releasing)
    ensures id !in TableIds(states[j].mem.claims)
  {
    RunCore(states, actions, i);
    RunGrows(states, actions, i, j);
    RunCore(states, actions, j);
  }

  /** And it stays queued until a release of it succeeds. */
  lemma QueuedUntilReleased(states: seq<State>, actions: seq<Action>, i: nat, j: nat, id: SandboxId)
    requires Run(states, actions) && SameProcess(states, i, j) && id in QueueIds(states[i].mem.releasing)
    ensures id in QueueIds(states[j].mem.releasing) || id in states[j].w.released
  {
    RunCore(states, actions, i);
    RunGrows(states, actions, i, j);
    RunCore(states, actions, j);
    assert Pending(states[j], id);
  }

  // ------------------------------------------------------------------- quarantine

  /** A loaded row that is out of quarantine was in a verification listing of this lifetime. */
  lemma UnvouchedStaysQuarantined(states: seq<State>, actions: seq<Action>, i: nat, key: Key)
    requires Run(states, actions) && i < |states| && key in states[i].mem.claims
    requires states[i].mem.claims[key].id in states[i].life.loaded && states[i].mem.Settled(key)
    ensures states[i].mem.claims[key].id in states[i].life.vouched
  {
    RunCore(states, actions, i);
  }

  /** Every vouched sandbox was in a listing this process got. */
  lemma VouchedWasListed(states: seq<State>, actions: seq<Action>, i: nat, id: SandboxId)
    requires Run(states, actions) && i < |states| && id in states[i].life.vouched
    ensures exists n: nat :: n < i && SameProcess(states, n + 1, i) && Lists(states[n], actions[n], id)
  {
    RunIsChain(states, actions);
    RunProcOk(states, actions);
    assert Entered(states, actions, 0);
    ChainVouches(states, actions, i, id);
  }

  /** A verification succeeds: the loop's or a create's, with a listing or because nothing was quarantined. */
  ghost predicate Verifies(s: State, a: Action, s': State) {
    || a.VerifyJudge?
    || (a.VerifyBegin? && s'.verifier.VIdle?)
    || (a.Advance? && a.key in s.calls && s.calls[a.key].JudgeUnverified?)
    || (a.Advance? && a.key in s.calls && s.calls[a.key].SnapshotUnverified? && a.key in s'.calls
        && s'.calls[a.key].CheckExpiry?)
  }

  lemma OnlyVerify(s: State, a: Action, s': State)
    requires Step(s, a, s') && (a.VerifyJudge? || a.VerifyBegin?)
    ensures VerifyStep(s, a, s')
  {
  }

  lemma OnlyAdvance(s: State, a: Action, s': State)
    requires Step(s, a, s') && a.Advance? && a.key in s.calls
    requires s.calls[a.key].JudgeUnverified? || s.calls[a.key].SnapshotUnverified?
    ensures SettleStep(s, s', a.key, s.calls[a.key], a.input)
  {
  }

  lemma JudgedEmpties(s: State, a: Action, s': State)
    requires Inv(s) && VerifyStep(s, a, s') && (a.VerifyJudge? || (a.VerifyBegin? && s'.verifier.VIdle?))
    ensures s'.mem.quarantined == {}
  {
    Parts(s);
    if a.VerifyJudge? {
      VerifyEmpties(s, s.verifier.before, s.verifier.live);
    } else {
      UnverifiedOk(s);
    }
  }

  lemma CallEmpties(s: State, s': State, key: Key, input: Input)
    requires Inv(s) && key in s.calls && SettleStep(s, s', key, s.calls[key], input)
    requires || s.calls[key].JudgeUnverified?
             || (s.calls[key].SnapshotUnverified? && key in s'.calls && s'.calls[key].CheckExpiry?)
    ensures s'.mem.quarantined == {}
  {
    Parts(s);
    CallKnows(s, key);
    if s.calls[key].JudgeUnverified? {
      VerifyEmpties(s, s.calls[key].before, s.calls[key].live);
    } else {
      UnverifiedOk(s);
    }
  }

  lemma VerifiedNow(states: seq<State>, actions: seq<Action>, n: nat)
    requires Run(states, actions) && n < |actions| && Verifies(states[n], actions[n], states[n + 1])
    ensures states[n + 1].mem.quarantined == {}
  {
    RunStep(states, actions, n);
    RunInv(states, actions, n);
    if actions[n].Advance? {
      OnlyAdvance(states[n], actions[n], states[n + 1]);
      CallEmpties(states[n], states[n + 1], actions[n].key, actions[n].input);
    } else {
      OnlyVerify(states[n], actions[n], states[n + 1]);
      JudgedEmpties(states[n], actions[n], states[n + 1]);
    }
  }

  /** A verification that succeeds leaves the quarantine empty for the rest of the lifetime, so the loop may stop. */
  lemma VerifiedForGood(states: seq<State>, actions: seq<Action>, n: nat, j: nat)
    requires Run(states, actions) && n < j && SameProcess(states, n + 1, j)
    requires Verifies(states[n], actions[n], states[n + 1])
    ensures states[j].mem.quarantined == {}
  {
    VerifiedNow(states, actions, n);
    RunGrows(states, actions, n + 1, j);
  }

  // -------------------------------------------------------------------- structure

  /** In memory and on disk, and the markers are disjoint and inside the table. */
  lemma Structure(states: seq<State>, actions: seq<Action>, i: nat)
    requires Run(states, actions) && i < |states|
    ensures OnePlaceEach(states[i].mem.claims, states[i].mem.releasing)
    ensures OnePlaceEach(states[i].disk.claims, states[i].disk.releasing)
    ensures states[i].mem.tentative !! states[i].mem.quarantined
    ensures states[i].mem.tentative + states[i].mem.quarantined <= states[i].mem.claims.Keys
  {
    RunCore(states, actions, i);
  }

  // ------------------------------------------------------------------- start time

  /**
   Any two statuses of one sandbox give the same start time, whatever adoptions,
   refreshes and restarts lie between.
   */
  lemma StartTimeNeverMoves(states: seq<State>, actions: seq<Action>, i: nat, p: nat, q: nat)
    requires Run(states, actions) && i < |states| && p < |states[i].w.log| && q < |states[i].w.log|
    requires states[i].w.log[p].Status? && states[i].w.log[q].Status? && states[i].w.log[p].id == states[i].w.log[q].id
    ensures states[i].w.log[p].start == states[i].w.log[q].start && states[i].w.log[p].start.Some?
  {
    RunCore(states, actions, i);
    var w := states[i].w;
    assert w.log[p] in w.log && w.log[q] in w.log;
    assert EntryOk(w, w.log[p]) && EntryOk(w, w.log[q]);
  }

  // ----------------------------------------------------------------------- orphans

  /** A sandbox issued to this provider, its response lost or not, always carries a claim reference. */
  lemma OwnAlwaysReferred(states: seq<State>, actions: seq<Action>, i: nat, id: SandboxId)
    requires Run(states, actions) && i < |states| && id in states[i].w.own
    ensures id in states[i].w.refs && states[i].w.refs[id] != ""
  {
    RunIsChain(states, actions);
    RunProcOk(states, actions);
    assert Entered(states, actions, 0);
    ChainRefers(states, actions, i, id);
  }
}
