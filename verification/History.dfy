/**
 What no step takes back: the history only grows, credentials never change, and
 within one process lifetime the release queue remembers its sandboxes and the
 quarantine only shrinks.
 */
module History {
  import opened Types
  import opened Machine
  import opened Invariant
  import opened Reachability

  ghost predicate HistoryGrows(w: World, w': World) {
    && w'.genesis == w.genesis
    && w.log <= w'.log
    && w.seen <= w'.seen && w.durable <= w'.durable
    && w.released <= w'.released && w.gone <= w'.gone && w.undone <= w'.undone && w.own <= w'.own
    && (forall id :: id in w.book ==> id in w'.book && w'.book[id].token == w.book[id].token)
    && (forall id :: id in w.refs ==> id in w'.refs && w'.refs[id] == w.refs[id])
  }

  ghost predicate LifetimeGrows(s: State, s': State) {
    && s'.life.loaded == s.life.loaded
    && s.life.vouched <= s'.life.vouched
    && s.life.queued <= s'.life.queued
    && (forall id :: id in s.life.home ==> id in s'.life.home && s'.life.home[id] == s.life.home[id])
    && s'.mem.quarantined <= s.mem.quarantined
  }

  /** The action gets a verification its listing, and the listing has the sandbox. */
  predicate Lists(s: State, a: Action, id: SandboxId) {
    || (a.VerifyListed? && id in a.live)
    || (a.Advance? && a.key in s.calls && s.calls[a.key].ListUnverified? && a.input.Listed? && id in a.input.live)
  }

  /**
   A sandbox is vouched for only by a listing that has it, and issued to this provider
   only with a claim reference.
   */
  ghost predicate Sourced(s: State, a: Action, s': State) {
    && (forall id :: id in s'.life.vouched ==> (id in s.life.vouched && !s'.proc.Down?) || Lists(s, a, id))
    && (forall id :: id in s'.w.own && id !in s.w.own ==> id in s'.w.refs && s'.w.refs[id] != "")
  }

  ghost predicate Grows(s: State, a: Action, s': State) {
    && HistoryGrows(s.w, s'.w)
    && (!s.proc.Down? && !s'.proc.Down? ==> LifetimeGrows(s, s'))
    && (ProcOk(s) ==> Sourced(s, a, s'))
  }

  lemma ProcessGrows(s: State, a: Action, s': State)
    requires ProcessStep(s, a, s')
    ensures Grows(s, a, s')
  {
  }

  lemma SettleGrows(s: State, s': State, key: Key, input: Input)
    requires key in s.calls && SettleStep(s, s', key, s.calls[key], input)
    ensures Grows(s, Advance(key, input), s')
  {
    SettleLifetime(s, s', key, input);
    SettleSourced(s, s', key, input);
  }

  lemma SettleLifetime(s: State, s': State, key: Key, input: Input)
    requires key in s.calls && SettleStep(s, s', key, s.calls[key], input)
    ensures LifetimeGrows(s, s')
  {
  }

  lemma SettleSourced(s: State, s': State, key: Key, input: Input)
    requires key in s.calls && SettleStep(s, s', key, s.calls[key], input)
    ensures ProcOk(s) ==> Sourced(s, Advance(key, input), s')
  {
  }

  lemma ClaimingGrows(s: State, s': State, key: Key, input: Input)
    requires WorldOk(s.w) && LifeOk(s) && key in s.calls && ClaimingStep(s, s', key, s.calls[key], input)
    ensures Grows(s, Advance(key, input), s')
  {
  }

  lemma FinishGrows(s: State, s': State, key: Key, input: Input)
    requires key in s.calls && FinishStep(s, s', key, s.calls[key], input)
    ensures Grows(s, Advance(key, input), s')
  {
  }

  lemma DeletingGrows(s: State, s': State, key: Key, input: Input)
    requires key in s.calls && DeletingStep(s, s', key, s.calls[key], input)
    ensures Grows(s, Advance(key, input), s')
  {
  }

  lemma AdvanceGrows(s: State, s': State, key: Key, input: Input)
    requires WorldOk(s.w) && LifeOk(s) && AdvanceStep(s, s', key, input)
    ensures Grows(s, Advance(key, input), s')
  {
    if SettleStep(s, s', key, s.calls[key], input) {
      SettleGrows(s, s', key, input);
    } else if ClaimingStep(s, s', key, s.calls[key], input) {
      ClaimingGrows(s, s', key, input);
    } else if FinishStep(s, s', key, s.calls[key], input) {
      FinishGrows(s, s', key, input);
    } else {
      DeletingGrows(s, s', key, input);
    }
  }

  lemma LifecycleGrows(s: State, a: Action, s': State)
    requires WorldOk(s.w) && LifeOk(s) && LifecycleStep(s, a, s')
    ensures Grows(s, a, s')
  {
    if a.Advance? { AdvanceGrows(s, s', a.key, a.input); }
  }

  lemma SaveGrows(s: State, a: Action, s': State)
    requires SaveStep(s, a, s')
    ensures Grows(s, a, s')
  {
    if a.SaveEnd? { SaveEndGrows(s, a, s'); }
  }

  lemma SaveEndGrows(s: State, a: Action, s': State)
    requires SaveStep(s, a, s') && a.SaveEnd?
    ensures Grows(s, a, s')
  {
    SaveEndLifetime(s, s', a.ok);
  }

  lemma SaveEndLifetime(s: State, s': State, ok: bool)
    requires SaveEndStep(s, s', ok)
    ensures HistoryGrows(s.w, s'.w) && LifetimeGrows(s, s') && s'.w.own == s.w.own
  {
  }

  lemma VerifyGrows(s: State, a: Action, s': State)
    requires VerifyStep(s, a, s')
    ensures Grows(s, a, s')
  {
  }

  lemma LeaseGrows(s: State, a: Action, s': State)
    requires LeaseStep(s, a, s')
    ensures Grows(s, a, s')
  {
  }

  lemma RecheckGrows(s: State, a: Action, s': State)
    requires RecheckStep(s, a, s')
    ensures Grows(s, a, s')
  {
  }

  lemma DrainGrows(s: State, a: Action, s': State)
    requires DrainStep(s, a, s')
    ensures Grows(s, a, s')
  {
  }

  lemma StepGrows(s: State, a: Action, s': State)
    requires Inv(s) && Step(s, a, s')
    ensures Grows(s, a, s')
  {
    Parts(s);
    if ProcessStep(s, a, s') { ProcessGrows(s, a, s'); }
    else if LifecycleStep(s, a, s') { LifecycleGrows(s, a, s'); }
    else if SaveStep(s, a, s') { SaveGrows(s, a, s'); }
    else if VerifyStep(s, a, s') { VerifyGrows(s, a, s'); }
    else if LeaseStep(s, a, s') { LeaseGrows(s, a, s'); }
    else if RecheckStep(s, a, s') { RecheckGrows(s, a, s'); }
    else { DrainGrows(s, a, s'); }
  }

  // ----------------------------------------------------------------- over runs

  /** The process that runs at `i` still runs at `j`. */
  ghost predicate SameProcess(states: seq<State>, i: nat, j: nat) {
    i <= j < |states| && forall n :: i <= n <= j ==> !states[n].proc.Down?
  }

  lemma RunStepGrows(states: seq<State>, actions: seq<Action>, i: nat)
    requires Run(states, actions) && i < |actions|
    ensures Grows(states[i], actions[i], states[i + 1])
  {
    RunInv(states, actions, i);
    assert Entered(states, actions, i + 1);
    StepGrows(states[i], actions[i], states[i + 1]);
  }

  lemma GrowsOn(s0: State, s1: State, a: Action, s2: State)
    requires HistoryGrows(s0.w, s1.w) && Grows(s1, a, s2)
    ensures HistoryGrows(s0.w, s2.w)
    ensures LifetimeGrows(s0, s1) && !s1.proc.Down? && !s2.proc.Down? ==> LifetimeGrows(s0, s2)
  {
  }

  /** A sequence of states each of which grows into the next. */
  ghost predicate Chain(states: seq<State>, actions: seq<Action>) {
    && |states| == |actions| + 1
    && forall n :: 0 <= n < |actions| ==> Grows(states[n], actions[n], states[n + 1])
  }

  lemma RunIsChain(states: seq<State>, actions: seq<Action>)
    requires Run(states, actions)
    ensures Chain(states, actions)
  {
    forall n | 0 <= n < |actions|
      ensures Grows(states[n], actions[n], states[n + 1])
    {
      RunStepGrows(states, actions, n);
    }
  }

  lemma {:induction false} ChainGrows(states: seq<State>, actions: seq<Action>, i: nat, j: nat)
    requires Chain(states, actions) && i <= j < |states|
    ensures HistoryGrows(states[i].w, states[j].w)
    ensures SameProcess(states, i, j) ==> LifetimeGrows(states[i], states[j])
  {
    if i < j {
      ChainGrows(states, actions, i, j - 1);
      GrowsOn(states[i], states[j - 1], actions[j - 1], states[j]);
    }
  }

  /** Nothing in the history is ever taken back. */
  lemma RunGrows(states: seq<State>, actions: seq<Action>, i: nat, j: nat)
    requires Run(states, actions) && i <= j < |states|
    ensures HistoryGrows(states[i].w, states[j].w)
    ensures SameProcess(states, i, j) ==> LifetimeGrows(states[i], states[j])
  {
    RunIsChain(states, actions);
    ChainGrows(states, actions, i, j);
  }

  /** A vouched sandbox was vouched for one step earlier by the same process, or is in the listing of the last step. */
  lemma VouchedBefore(s: State, a: Action, s': State, id: SandboxId)
    requires ProcOk(s) && ProcOk(s') && Grows(s, a, s') && id in s'.life.vouched
    ensures !s'.proc.Down? && (Lists(s, a, id) || (id in s.life.vouched && !s.proc.Down?))
  {
  }

  lemma {:induction false} ChainVouches(states: seq<State>, actions: seq<Action>, i: nat, id: SandboxId)
    requires Chain(states, actions) && i < |states| && id in states[i].life.vouched && states[0].life == NoLife
    requires forall n :: 0 <= n < |states| ==> ProcOk(states[n])
    ensures exists n: nat :: n < i && SameProcess(states, n + 1, i) && Lists(states[n], actions[n], id)
  {
    assert i > 0;
    VouchedBefore(states[i - 1], actions[i - 1], states[i], id);
    if Lists(states[i - 1], actions[i - 1], id) {
      assert SameProcess(states, i - 1 + 1, i);
    } else {
      ChainVouches(states, actions, i - 1, id);
      var n: nat :| n < i - 1 && SameProcess(states, n + 1, i - 1) && Lists(states[n], actions[n], id);
      assert SameProcess(states, n + 1, i);
    }
  }

  lemma {:induction false} ChainRefers(states: seq<State>, actions: seq<Action>, i: nat, id: SandboxId)
    requires Chain(states, actions) && i < |states| && id in states[i].w.own && states[0].w.own == {}
    requires forall n :: 0 <= n < |states| ==> ProcOk(states[n])
    ensures id in states[i].w.refs && states[i].w.refs[id] != ""
  {
    if id in states[i - 1].w.own {
      ChainRefers(states, actions, i - 1, id);
    }
  }

  lemma RunProcOk(states: seq<State>, actions: seq<Action>)
    requires Run(states, actions)
    ensures forall n :: 0 <= n < |states| ==> ProcOk(states[n])
  {
    forall n | 0 <= n < |states|
      ensures ProcOk(states[n])
    {
      RunCore(states, actions, n);
    }
  }
}
