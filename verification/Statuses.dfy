/**
 What a status says of its key: whoever reads or is pushed one, the key held that
 sandbox for a Pod at that moment.
 */
module Statuses {
  import opened Types
  import opened Machine
  import opened Invariant
  import opened Reachability
  import opened Theorems

  /** The step logs the status. */
  ghost predicate Reports(s: State, s': State, e: Event) {
    e.Status? && |s.w.log| < |s'.w.log| && s'.w.log[|s.w.log|] == e
  }

  lemma ProcessReportsNothing(s: State, a: Action, s': State, e: Event)
    requires ProcessStep(s, a, s')
    ensures !Reports(s, s', e)
  {
  }

  lemma SettleReportsNothing(s: State, s': State, key: Key, call: Call, input: Input, e: Event)
    requires SettleStep(s, s', key, call, input)
    ensures !Reports(s, s', e)
  {
  }

  lemma ClaimingReportsNothing(s: State, s': State, key: Key, call: Call, input: Input, e: Event)
    requires ClaimingStep(s, s', key, call, input)
    ensures !Reports(s, s', e)
  {
  }

  lemma DeletingReportsNothing(s: State, s': State, key: Key, call: Call, input: Input, e: Event)
    requires DeletingStep(s, s', key, call, input)
    ensures !Reports(s, s', e)
  {
  }

  lemma FinishReports(s: State, s': State, key: Key, call: Call, input: Input, e: Event)
    requires FinishStep(s, s', key, call, input) && Reports(s, s', e)
    ensures call.PushRunning?
    ensures e == Status(key, call.pod.WithClaim(call.c.id), call.c.id, true, true, call.c.claimedAt)
  {
  }

  lemma SaveReportsNothing(s: State, a: Action, s': State, e: Event)
    requires SaveStep(s, a, s')
    ensures !Reports(s, s', e)
  {
  }

  lemma LoopsReport(s: State, a: Action, s': State, e: Event)
    requires VerifyStep(s, a, s') || LeaseStep(s, a, s') || RecheckStep(s, a, s') || DrainStep(s, a, s')
    requires Reports(s, s', e)
    ensures a.LeaseJudge? && LeaseJudgeStep(s, s', a.key)
  {
  }

  /** A status is reported by a create that ends, by the lease watch, or by a read. */
  lemma OnlyReporters(s: State, a: Action, s': State, e: Event)
    requires Step(s, a, s') && Reports(s, s', e)
    ensures || (a.LeaseJudge? && LeaseJudgeStep(s, s', a.key))
            || (a.ReadStatus? && ReadStatusStep(s, s', a.key, a.now))
            || (e.pushed && e.running && e.key in s.calls && s.calls[e.key].PushRunning? && s.calls[e.key].c.id == e.id)
  {
    if ProcessStep(s, a, s') {
      ProcessReportsNothing(s, a, s', e);
    } else if SaveStep(s, a, s') {
      SaveReportsNothing(s, a, s', e);
    } else if LifecycleStep(s, a, s') {
      LifecycleReports(s, a, s', e);
    } else {
      LoopsReport(s, a, s', e);
    }
  }

  lemma LifecycleReports(s: State, a: Action, s': State, e: Event)
    requires LifecycleStep(s, a, s') && Reports(s, s', e)
    ensures || (a.ReadStatus? && ReadStatusStep(s, s', a.key, a.now))
            || (e.pushed && e.running && e.key in s.calls && s.calls[e.key].PushRunning? && s.calls[e.key].c.id == e.id)
  {
    if a.Advance? {
      AdvanceReports(s, s', a.key, a.input, e);
    }
  }

  lemma AdvanceReports(s: State, s': State, key: Key, input: Input, e: Event)
    requires AdvanceStep(s, s', key, input) && Reports(s, s', e)
    ensures s.calls[key].PushRunning? && e.key == key && e.id == s.calls[key].c.id
    ensures e.pushed && e.running
  {
    var call := s.calls[key];
    if SettleStep(s, s', key, call, input) {
      SettleReportsNothing(s, s', key, call, input, e);
    } else if ClaimingStep(s, s', key, call, input) {
      ClaimingReportsNothing(s, s', key, call, input, e);
    } else if DeletingStep(s, s', key, call, input) {
      DeletingReportsNothing(s, s', key, call, input, e);
    } else {
      FinishReports(s, s', key, call, input, e);
    }
  }

  /** The key holds the sandbox for the Pod of the status, which has its start time. */
  ghost predicate Holder(s: State, e: Event)
    requires e.Status?
  {
    && s.mem.Row(e.key, e.id) && e.key in s.mem.pods
    && e.pod == s.mem.pods[e.key] && e.start == s.mem.claims[e.key].claimedAt
  }

  /**
   Failed is pushed only at a key that at that moment holds the sandbox that is
   gone, for a Pod: never at one that another sandbox took meanwhile.
   */
  lemma FailedForItsHolder(states: seq<State>, actions: seq<Action>, n: nat, e: Event)
    requires Run(states, actions) && n < |actions| && Reports(states[n], states[n + 1], e) && e.pushed && !e.running
    ensures Holder(states[n], e) && e.id !in states[n].w.live
  {
    RunStep(states, actions, n);
    RunInv(states, actions, n);
    OnlyReporters(states[n], actions[n], states[n + 1], e);
    FailedAtItsKey(states[n], states[n + 1], actions[n], e);
  }

  lemma FailedAtItsKey(s: State, s': State, a: Action, e: Event)
    requires Inv(s) && Reports(s, s', e) && e.pushed && !e.running
    requires || (a.LeaseJudge? && LeaseJudgeStep(s, s', a.key))
             || (a.ReadStatus? && ReadStatusStep(s, s', a.key, a.now))
    ensures Holder(s, e) && e.id !in s.w.live
  {
    Parts(s);
    var c := s.lease.candidates[a.key];
    assert c.id in TableIds(s.lease.candidates);
    assert Known(s.w, c) && Known(s.w, s.mem.claims[a.key]);
  }

  /**
   A read reports Running or Failed only of a settled row with a Pod, and Failed
   exactly from its deadline on.
   */
  lemma ReadOfItsHolder(states: seq<State>, actions: seq<Action>, n: nat, e: Event)
    requires Run(states, actions) && n < |actions| && Reports(states[n], states[n + 1], e) && !e.pushed
    ensures actions[n].ReadStatus? && actions[n].key == e.key && Holder(states[n], e)
    ensures e.key !in states[n].mem.tentative && e.key !in states[n].mem.quarantined
    ensures var d := states[n].mem.claims[e.key].deadline; e.running <==> d.None? || actions[n].now < d.value
  {
    RunStep(states, actions, n);
    OnlyReporters(states[n], actions[n], states[n + 1], e);
  }
}
