/**
 For whom the provider acts: nothing is claimed or adopted for a Pod of another
 runtime, nothing is claimed for a malformed request, no delete or update acts for
 a Pod generation its key has left behind, and no process serves before its startup
 verification is over and its table is on disk again.
 */
module Requests {
  import opened Types
  import opened Machine
  import opened Invariant
  import opened Reachability
  import O = Outcome
  import Theorems

  // ------------------------------------------------------------------ what calls are for

  /** The call is a create, its own or an update's. */
  predicate Creating(call: Call) {
    || call.CheckUnverified? || call.SnapshotUnverified? || call.ListUnverified? || call.JudgeUnverified?
    || call.CheckExpiry? || call.ListExpired? || call.JudgeExpired? || call.Adopting? || call.AdoptSaving?
    || call.CheckStranded? || call.ReturnStranded? || call.WithdrawStranded? || call.Claiming? || call.Installing?
    || call.Committing? || call.Undoing? || call.WithdrawUndone? || call.PushRunning?
  }

  /** The call is an update or a delete past its guard. */
  predicate Guarded(call: Call) {
    || call.UpdateBody? || call.DeleteLookup? || call.ReadOwner? || call.Preserving? || call.Releasing?
    || call.WithdrawReleased?
  }

  /** The Pod is of the generation the key tracks, if it tracks any. */
  ghost predicate Current(m: Mem, key: Key, pod: Pod) {
    key in m.pods ==> m.pods[key].uid == pod.uid
  }

  /** A create is of this runtime; an update or delete past its guard is of the generation its key tracks. */
  ghost predicate Proper(m: Mem, key: Key, call: Call) {
    && (Creating(call) ==> O.RightRuntime(call.pod))
    && (Guarded(call) ==> Current(m, key, call.pod))
  }

  ghost predicate AllProper(s: State) {
    forall k :: k in s.calls ==> Proper(s.mem, k, s.calls[k])
  }

  /** The other keys keep their calls and their Pods. */
  ghost predicate OthersKeep(s: State, s': State, key: Key) {
    && (forall k :: k in s'.calls && k != key ==> k in s.calls && s'.calls[k] == s.calls[k])
    && (forall k :: k in s'.mem.pods && k != key ==> k in s.mem.pods && s'.mem.pods[k] == s.mem.pods[k])
  }

  lemma SettleStaysProper(s: State, s': State, key: Key, call: Call, input: Input)
    requires SettleStep(s, s', key, call, input) && Proper(s.mem, key, call)
    ensures key in s'.calls ==> Proper(s'.mem, key, s'.calls[key])
  {
  }

  lemma SettleKeepsOthers(s: State, s': State, key: Key, call: Call, input: Input)
    requires SettleStep(s, s', key, call, input)
    ensures OthersKeep(s, s', key)
  {
  }

  lemma ClaimingStaysProper(s: State, s': State, key: Key, call: Call, input: Input)
    requires ClaimingStep(s, s', key, call, input) && Proper(s.mem, key, call) && key in s.calls
    ensures key in s'.calls ==> Proper(s'.mem, key, s'.calls[key])
  {
  }

  lemma ClaimingKeepsOthers(s: State, s': State, key: Key, call: Call, input: Input)
    requires ClaimingStep(s, s', key, call, input)
    ensures OthersKeep(s, s', key)
  {
  }

  lemma FinishStaysProper(s: State, s': State, key: Key, call: Call, input: Input)
    requires FinishStep(s, s', key, call, input) && Proper(s.mem, key, call) && key in s.calls
    ensures OthersKeep(s, s', key) && (key in s'.calls ==> Proper(s'.mem, key, s'.calls[key]))
  {
  }

  lemma DeletingStaysProper(s: State, s': State, key: Key, call: Call, input: Input)
    requires DeletingStep(s, s', key, call, input) && Proper(s.mem, key, call)
    ensures OthersKeep(s, s', key) && (key in s'.calls ==> Proper(s'.mem, key, s'.calls[key]))
  {
  }

  lemma AdvanceStaysProper(s: State, s': State, key: Key, input: Input)
    requires AllProper(s) && AdvanceStep(s, s', key, input)
    ensures AllProper(s')
  {
    var call := s.calls[key];
    assert Proper(s.mem, key, call);
    if SettleStep(s, s', key, call, input) {
      SettleStaysProper(s, s', key, call, input);
      SettleKeepsOthers(s, s', key, call, input);
    } else if ClaimingStep(s, s', key, call, input) {
      ClaimingStaysProper(s, s', key, call, input);
      ClaimingKeepsOthers(s, s', key, call, input);
    } else if FinishStep(s, s', key, call, input) {
      FinishStaysProper(s, s', key, call, input);
    } else {
      DeletingStaysProper(s, s', key, call, input);
    }
  }

  lemma ProcessStaysProper(s: State, a: Action, s': State)
    requires AllProper(s) && ProcessStep(s, a, s')
    ensures AllProper(s')
  {
  }

  lemma SaveStaysProper(s: State, a: Action, s': State)
    requires AllProper(s) && SaveStep(s, a, s')
    ensures AllProper(s')
  {
  }

  lemma LoopsKeep(s: State, a: Action, s': State)
    requires VerifyStep(s, a, s') || LeaseStep(s, a, s') || RecheckStep(s, a, s') || DrainStep(s, a, s')
    ensures s'.calls == s.calls && s'.proc == s.proc && s'.mem.pods == s.mem.pods
  {
  }

  lemma StepStaysProper(s: State, a: Action, s': State)
    requires AllProper(s) && Step(s, a, s')
    ensures AllProper(s')
  {
    if ProcessStep(s, a, s') {
      ProcessStaysProper(s, a, s');
    } else if SaveStep(s, a, s') {
      SaveStaysProper(s, a, s');
    } else if LifecycleStep(s, a, s') {
      if a.Advance? { AdvanceStaysProper(s, s', a.key, a.input); }
    } else {
      LoopsKeep(s, a, s');
    }
  }

  lemma {:induction false} RunProper(states: seq<State>, actions: seq<Action>, i: nat)
    requires Run(states, actions) && i < |states|
    ensures AllProper(states[i])
  {
    if i == 0 {
      assert Entered(states, actions, 0);
    } else {
      RunProper(states, actions, i - 1);
      Theorems.RunStep(states, actions, i - 1);
      StepStaysProper(states[i - 1], actions[i - 1], states[i]);
    }
  }

  // ------------------------------------------------------------------------- generations

  /** However calls and loops interleave, an update or delete past its guard is of the generation its key tracks. */
  lemma ActsForItsGeneration(states: seq<State>, actions: seq<Action>, i: nat, key: Key)
    requires Run(states, actions) && i < |states| && key in states[i].calls && Guarded(states[i].calls[key])
    ensures key in states[i].mem.pods ==> states[i].mem.pods[key].uid == states[i].calls[key].pod.uid
  {
    RunProper(states, actions, i);
    assert Proper(states[i].mem, key, states[i].calls[key]);
  }

  // ---------------------------------------------------------------------------- requests

  /** The step logs the event. */
  ghost predicate LogsNow(s: State, s': State, e: Event) {
    |s.w.log| < |s'.w.log| && s'.w.log[|s.w.log|] == e
  }

  lemma ProcessTakesNothing(s: State, a: Action, s': State, e: Event)
    requires ProcessStep(s, a, s')
    ensures !LogsNow(s, s', e)
  {
  }

  lemma SaveTakesNothing(s: State, a: Action, s': State, e: Event)
    requires SaveStep(s, a, s') && (e.Taken? || e.Rebound?)
    ensures !LogsNow(s, s', e)
  {
  }

  lemma LoopsTakeNothing(s: State, a: Action, s': State, e: Event)
    requires VerifyStep(s, a, s') || LeaseStep(s, a, s') || RecheckStep(s, a, s') || DrainStep(s, a, s')
    requires e.Taken? || e.Rebound?
    ensures !LogsNow(s, s', e)
  {
  }

  lemma OnlyCallsTake(s: State, a: Action, s': State, e: Event)
    requires Step(s, a, s') && LogsNow(s, s', e) && (e.Taken? || e.Rebound?)
    ensures a.Advance? && AdvanceStep(s, s', a.key, a.input)
  {
    if ProcessStep(s, a, s') {
      ProcessTakesNothing(s, a, s', e);
    } else if SaveStep(s, a, s') {
      SaveTakesNothing(s, a, s', e);
    } else if !LifecycleStep(s, a, s') {
      LoopsTakeNothing(s, a, s', e);
    }
  }

  lemma TakesForItsPod(s: State, s': State, key: Key, input: Input, e: Event)
    requires AdvanceStep(s, s', key, input) && LogsNow(s, s', e) && (e.Taken? || e.Rebound?)
    ensures Creating(s.calls[key]) && e.pod == s.calls[key].pod
    ensures e.Taken? ==> O.WellFormed(e.pod)
  {
    var call := s.calls[key];
    if SettleStep(s, s', key, call, input) {
    } else if ClaimingStep(s, s', key, call, input) {
    } else if FinishStep(s, s', key, call, input) {
    }
  }

  /** Whoever gets a sandbox asked for this runtime, and a fresh one only by a well-formed request. */
  lemma OnlyProperRequests(states: seq<State>, actions: seq<Action>, n: nat, e: Event)
    requires Run(states, actions) && n < |actions| && LogsNow(states[n], states[n + 1], e) && (e.Taken? || e.Rebound?)
    ensures O.RightRuntime(e.pod) && (e.Taken? ==> O.WellFormed(e.pod))
  {
    RunProper(states, actions, n);
    Theorems.RunStep(states, actions, n);
    OnlyCallsTake(states[n], actions[n], states[n + 1], e);
    TakesForItsPod(states[n], states[n + 1], actions[n].key, actions[n].input, e);
    assert Proper(states[n].mem, actions[n].key, states[n].calls[actions[n].key]);
  }

  // ------------------------------------------------------------------------ starting

  lemma LifecycleKeepsProc(s: State, a: Action, s': State)
    requires LifecycleStep(s, a, s')
    ensures s'.proc == s.proc
  {
  }

  lemma SaveKeepsProc(s: State, a: Action, s': State)
    requires SaveStep(s, a, s')
    ensures s'.proc == s.proc
  {
  }

  lemma OnlyPersistComesUp(s: State, a: Action, s': State)
    requires Step(s, a, s') && !s.proc.Up? && s'.proc.Up?
    ensures a.BootPersist? && BootPersistStep(s, s', a.ok)
  {
    if SaveStep(s, a, s') {
      SaveKeepsProc(s, a, s');
    } else if LifecycleStep(s, a, s') {
      LifecycleKeepsProc(s, a, s');
    } else if !ProcessStep(s, a, s') {
      LoopsKeep(s, a, s');
    }
  }

  /**
   A process begins to serve only when its startup verification has returned, with or
   without a listing, and its table, backfilled start times included, is on disk.
   */
  lemma ServesOnlyOnceReady(states: seq<State>, actions: seq<Action>, n: nat)
    requires Run(states, actions) && n < |actions| && !states[n].proc.Up? && states[n + 1].proc.Up?
    ensures states[n].verifier.VIdle? && O.Mirrors(states[n + 1].disk, states[n + 1].mem)
    ensures Timed(states[n + 1].disk.claims)
  {
    Theorems.RunStep(states, actions, n);
    OnlyPersistComesUp(states[n], actions[n], states[n + 1]);
    RunCore(states, actions, n);
    PersistIsReady(states[n], states[n + 1], actions[n].ok);
  }

  lemma PersistIsReady(s: State, s': State, ok: bool)
    requires BootPersistStep(s, s', ok) && s'.proc.Up? && Timed(s.mem.claims)
    ensures s.verifier.VIdle? && O.Mirrors(s'.disk, s'.mem) && Timed(s'.disk.claims)
  {
  }
}
