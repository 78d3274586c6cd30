/**
 When a push of Running still has its row. A create pushes Running without
 looking at the table again after it has adopted, and a verification that took
 its snapshot before the adoption may drop the row in between, the node having
 lost the sandbox. That is the only way, and it is open exactly when such a
 verification is in flight as the create adopts.
 */
module Running {
  import opened Types
  import opened Sections
  import opened Machine
  import opened Invariant
  import opened Reachability

  /** The verification call can still drop the row: its snapshot has it, and its listing is to come or lacks it. */
  ghost predicate Threatens(call: Call, key: Key, id: SandboxId) {
    || (call.ListUnverified? && key in call.before && call.before[key] == id)
    || (call.JudgeUnverified? && key in call.before && call.before[key] == id && id !in call.live)
  }

  /** Some verification in flight can still drop the row of `id` at `key`. */
  ghost predicate Endangered(s: State, key: Key, id: SandboxId) {
    || (s.verifier.VList? && key in s.verifier.before && s.verifier.before[key] == id)
    || (s.verifier.VJudge? && key in s.verifier.before && s.verifier.before[key] == id && id !in s.verifier.live)
    || (exists k :: k in s.calls && Threatens(s.calls[k], key, id))
  }

  /** The create at `key` has adopted `c` and has not pushed yet. */
  ghost predicate Publishing(s: State, key: Key, pod: Pod, c: Claim) {
    key in s.calls && (s.calls[key] == AdoptSaving(pod, c) || s.calls[key] == PushRunning(pod, c))
  }

  /** The row is there and nothing in flight can take it. */
  ghost predicate Safe(s: State, key: Key, id: SandboxId) {
    s.mem.Row(key, id) && s.mem.Settled(key) && key in s.mem.pods && !Endangered(s, key, id)
  }

  ghost predicate Continues(s: State, s': State, key: Key, pod: Pod, c: Claim) {
    Publishing(s, key, pod, c) && Publishing(s', key, pod, c)
  }

  // ------------------------------------------------------- no step takes a safe row

  lemma ProcessSafe(s: State, a: Action, s': State, key: Key, pod: Pod, c: Claim)
    requires ProcessStep(s, a, s') && Safe(s, key, c.id) && ProcOk(s) && Continues(s, s', key, pod, c)
    ensures Safe(s', key, c.id)
  {
  }

  lemma JudgedSafe(s: State, s': State, k: Key, pod': Pod, before: map<Key, SandboxId>, live: Listing,
                   key: Key, pod: Pod, c: Claim)
    requires k in s.calls && s.calls[k] == JudgeUnverified(pod', before, live)
    requires JudgeUnverifiedStep(s, s', k, pod', before, live)
    requires Safe(s, key, c.id) && Continues(s, s', key, pod, c)
    ensures Safe(s', key, c.id)
  {
    assert !Threatens(s.calls[k], key, c.id);
  }

  lemma SettleSafe(s: State, s': State, k: Key, input: Input, key: Key, pod: Pod, c: Claim)
    requires k in s.calls && SettleStep(s, s', k, s.calls[k], input)
    requires Safe(s, key, c.id) && Continues(s, s', key, pod, c)
    ensures Safe(s', key, c.id)
  {
    if s.calls[k].JudgeUnverified? {
      JudgedSafe(s, s', k, s.calls[k].pod, s.calls[k].before, s.calls[k].live, key, pod, c);
    } else if s.calls[k].Adopting? {
      AdoptSafe(s, s', k, s.calls[k].pod, key, pod, c);
    } else if s.calls[k].JudgeExpired? {
      ExpiredSafe(s, s', k, s.calls[k].pod, s.calls[k].c, s.calls[k].live, key, pod, c);
    } else {
      LooksSafe(s, s', k, input, key, pod, c);
    }
  }

  lemma AdoptSafe(s: State, s': State, k: Key, pod': Pod, key: Key, pod: Pod, c: Claim)
    requires k in s.calls && s.calls[k] == Adopting(pod') && AdoptStep(s, s', k, pod')
    requires Safe(s, key, c.id) && Continues(s, s', key, pod, c)
    ensures Safe(s', key, c.id)
  {
  }

  lemma ExpiredSafe(s: State, s': State, k: Key, pod': Pod, c': Claim, live: Listing, key: Key, pod: Pod, c: Claim)
    requires k in s.calls && s.calls[k] == JudgeExpired(pod', c', live) && JudgeExpiredStep(s, s', k, pod', c', live)
    requires Safe(s, key, c.id) && Continues(s, s', key, pod, c)
    ensures Safe(s', key, c.id)
  {
  }

  /** The steps that only look. */
  lemma LooksSafe(s: State, s': State, k: Key, input: Input, key: Key, pod: Pod, c: Claim)
    requires k in s.calls && SettleStep(s, s', k, s.calls[k], input)
    requires !s.calls[k].JudgeUnverified? && !s.calls[k].Adopting? && !s.calls[k].JudgeExpired?
    requires Safe(s, key, c.id) && Continues(s, s', key, pod, c)
    ensures Safe(s', key, c.id)
  {
  }

  lemma ClaimingSafe(s: State, s': State, k: Key, input: Input, key: Key, pod: Pod, c: Claim)
    requires k in s.calls && ClaimingStep(s, s', k, s.calls[k], input)
    requires Safe(s, key, c.id) && Continues(s, s', key, pod, c)
    ensures Safe(s', key, c.id)
  {
  }

  lemma FinishSafe(s: State, s': State, k: Key, input: Input, key: Key, pod: Pod, c: Claim)
    requires k in s.calls && FinishStep(s, s', k, s.calls[k], input)
    requires Safe(s, key, c.id) && Continues(s, s', key, pod, c)
    ensures Safe(s', key, c.id)
  {
  }

  lemma DeletingSafe(s: State, s': State, k: Key, input: Input, key: Key, pod: Pod, c: Claim)
    requires k in s.calls && DeletingStep(s, s', k, s.calls[k], input)
    requires Safe(s, key, c.id) && Continues(s, s', key, pod, c)
    ensures Safe(s', key, c.id)
  {
  }

  lemma LifecycleSafe(s: State, a: Action, s': State, key: Key, pod: Pod, c: Claim)
    requires LifecycleStep(s, a, s') && Safe(s, key, c.id) && Continues(s, s', key, pod, c)
    ensures Safe(s', key, c.id)
  {
    if a.Advance? {
      if SettleStep(s, s', a.key, s.calls[a.key], a.input) {
        SettleSafe(s, s', a.key, a.input, key, pod, c);
      } else if ClaimingStep(s, s', a.key, s.calls[a.key], a.input) {
        ClaimingSafe(s, s', a.key, a.input, key, pod, c);
      } else if FinishStep(s, s', a.key, s.calls[a.key], a.input) {
        FinishSafe(s, s', a.key, a.input, key, pod, c);
      } else {
        DeletingSafe(s, s', a.key, a.input, key, pod, c);
      }
    }
  }

  lemma SaveSafe(s: State, a: Action, s': State, key: Key, pod: Pod, c: Claim)
    requires SaveStep(s, a, s') && Safe(s, key, c.id) && Continues(s, s', key, pod, c)
    ensures Safe(s', key, c.id)
  {
  }

  lemma VerifySafe(s: State, a: Action, s': State, key: Key, pod: Pod, c: Claim)
    requires VerifyStep(s, a, s') && Safe(s, key, c.id) && Continues(s, s', key, pod, c)
    ensures Safe(s', key, c.id)
  {
  }

  lemma LeaseSafe(s: State, a: Action, s': State, key: Key, pod: Pod, c: Claim)
    requires LeaseStep(s, a, s') && Safe(s, key, c.id) && Continues(s, s', key, pod, c)
    ensures Safe(s', key, c.id)
  {
  }

  lemma RecheckSafe(s: State, a: Action, s': State, key: Key, pod: Pod, c: Claim)
    requires RecheckStep(s, a, s') && Safe(s, key, c.id) && Continues(s, s', key, pod, c)
    ensures Safe(s', key, c.id)
  {
  }

  lemma DrainSafe(s: State, a: Action, s': State, key: Key, pod: Pod, c: Claim)
    requires DrainStep(s, a, s') && Safe(s, key, c.id) && Continues(s, s', key, pod, c)
    ensures Safe(s', key, c.id)
  {
  }

  lemma StepSafe(s: State, a: Action, s': State, key: Key, pod: Pod, c: Claim)
    requires ProcOk(s) && Step(s, a, s') && Safe(s, key, c.id) && Continues(s, s', key, pod, c)
    ensures Safe(s', key, c.id)
  {
    if ProcessStep(s, a, s') { ProcessSafe(s, a, s', key, pod, c); }
    else if LifecycleStep(s, a, s') { LifecycleSafe(s, a, s', key, pod, c); }
    else if SaveStep(s, a, s') { SaveSafe(s, a, s', key, pod, c); }
    else if VerifyStep(s, a, s') { VerifySafe(s, a, s', key, pod, c); }
    else if LeaseStep(s, a, s') { LeaseSafe(s, a, s', key, pod, c); }
    else if RecheckStep(s, a, s') { RecheckSafe(s, a, s', key, pod, c); }
    else { DrainSafe(s, a, s', key, pod, c); }
  }

  ghost predicate AllPublishing(states: seq<State>, i: nat, j: nat, key: Key, pod: Pod, c: Claim) {
    i <= j < |states| && forall m :: i <= m <= j ==> Publishing(states[m], key, pod, c)
  }

  lemma {:induction false} StaysSafe(states: seq<State>, actions: seq<Action>, i: nat, j: nat, key: Key, pod: Pod,
                                     c: Claim)
    requires Run(states, actions) && AllPublishing(states, i, j, key, pod, c) && Safe(states[i], key, c.id)
    ensures Safe(states[j], key, c.id)
  {
    if i < j {
      StaysSafe(states, actions, i, j - 1, key, pod, c);
      RunProc(states, actions, j - 1);
      assert Entered(states, actions, j);
      StepSafe(states[j - 1], actions[j - 1], states[j], key, pod, c);
    }
  }

  // ------------------------------------------------------------ endangered rows can go

  ghost predicate Stepped(states: seq<State>, actions: seq<Action>, i: nat)
    requires i < |actions| && |states| == |actions| + 1
  {
    Step(states[i], actions[i], states[i + 1])
  }

  /** Steps from `s` to `s'`, the create at `key` publishing throughout. */
  ghost predicate Path(states: seq<State>, actions: seq<Action>, s: State, s': State, key: Key, pod: Pod, c: Claim) {
    && |states| == |actions| + 1 && states[0] == s && states[|actions|] == s'
    && (forall i :: 0 <= i < |actions| ==> Stepped(states, actions, i))
    && (forall i :: 0 <= i < |states| ==> Publishing(states[i], key, pod, c))
  }

  ghost predicate Leads(s: State, s': State, key: Key, pod: Pod, c: Claim) {
    exists states, actions :: Path(states, actions, s, s', key, pod, c)
  }

  lemma Here(s: State, key: Key, pod: Pod, c: Claim)
    requires Publishing(s, key, pod, c)
    ensures Leads(s, s, key, pod, c)
  {
    assert Path([s], [], s, s, key, pod, c);
  }

  lemma Onward(s: State, s1: State, a: Action, s2: State, key: Key, pod: Pod, c: Claim)
    requires Leads(s, s1, key, pod, c) && Step(s1, a, s2) && Publishing(s2, key, pod, c)
    ensures Leads(s, s2, key, pod, c)
  {
    var states, actions :| Path(states, actions, s, s1, key, pod, c);
    var states', actions' := states + [s2], actions + [a];
    forall i | 0 <= i < |actions'|
      ensures Stepped(states', actions', i)
    {
      if i < |actions| { assert Stepped(states, actions, i); }
    }
    assert Path(states', actions', s, s2, key, pod, c);
  }

  /** The row at `key` is gone, and the writer and the calls that save are where they were. */
  ghost predicate Dropped(s: State, s': State, key: Key) {
    && key !in s'.mem.claims && s'.writer == s.writer && s'.recheck == s.recheck
    && (forall k :: k in s.calls && Saves(s.calls[k]) ==> k in s'.calls && s'.calls[k] == s.calls[k])
  }

  lemma LoopJudges(s: State, s1: State, key: Key, pod: Pod, c: Claim) returns (s': State)
    requires Leads(s, s1, key, pod, c) && Publishing(s1, key, pod, c) && s1.mem.Row(key, c.id)
    requires s1.verifier.VJudge? && key in s1.verifier.before && s1.verifier.before[key] == c.id
    requires c.id !in s1.verifier.live
    ensures Leads(s, s', key, pod, c) && Dropped(s1, s', key) && Publishing(s', key, pod, c)
  {
    s' := s1.(verifier := VIdle, mem := Verify(s1.mem, s1.verifier.before, s1.verifier.live));
    assert VerifyStep(s1, VerifyJudge, s');
    Onward(s, s1, VerifyJudge, s', key, pod, c);
  }

  lemma LoopLists(s: State, s1: State, key: Key, pod: Pod, c: Claim) returns (s2: State)
    requires Leads(s, s1, key, pod, c) && Publishing(s1, key, pod, c) && s1.verifier.VList? && c.id !in s1.w.live
    ensures Leads(s, s2, key, pod, c)
    ensures s2 == s1.(verifier := s2.verifier, w := s2.w, life := s2.life)
    ensures s2.verifier.VJudge? && s2.verifier.before == s1.verifier.before && c.id !in s2.verifier.live
  {
    var before, live := s1.verifier.before, SomeListing(s1.w.live);
    s2 := s1.(verifier := VJudge(before, live), w := Observed(s1.w, before.Values, live),
              life := s1.life.(vouched := s1.life.vouched + (before.Values * live.Keys)));
    assert VerifyStep(s1, VerifyListed(live), s2);
    Onward(s, s1, VerifyListed(live), s2, key, pod, c);
  }

  lemma JudgementDrops(s: State, before: map<Key, SandboxId>, live: Listing, key: Key, id: SandboxId)
    requires s.mem.Row(key, id) && key in before && before[key] == id && id !in live
    ensures key !in Verify(s.mem, before, live).claims
  {
  }

  lemma CallJudges(s: State, s1: State, k: Key, key: Key, pod: Pod, c: Claim) returns (s': State)
    requires Leads(s, s1, key, pod, c) && Publishing(s1, key, pod, c) && s1.mem.Row(key, c.id)
    requires k in s1.calls && s1.calls[k].JudgeUnverified? && Threatens(s1.calls[k], key, c.id)
    ensures Leads(s, s', key, pod, c) && Dropped(s1, s', key) && Publishing(s', key, pod, c)
  {
    var JudgeUnverified(pod', before, live) := s1.calls[k];
    s' := Goto(s1, k, CheckExpiry(pod')).(mem := Verify(s1.mem, before, live));
    JudgementDrops(s1, before, live, key, c.id);
    assert SettleStep(s1, s', k, s1.calls[k], Go);
    assert LifecycleStep(s1, Advance(k, Go), s');
    Onward(s, s1, Advance(k, Go), s', key, pod, c);
  }

  lemma CallLists(s: State, s1: State, k: Key, key: Key, pod: Pod, c: Claim) returns (s2: State)
    requires Leads(s, s1, key, pod, c) && Publishing(s1, key, pod, c) && c.id !in s1.w.live
    requires k in s1.calls && s1.calls[k].ListUnverified?
    ensures Leads(s, s2, key, pod, c) && Publishing(s2, key, pod, c)
    ensures s2 == s1.(calls := s2.calls, w := s2.w, life := s2.life)
    ensures k in s2.calls && s2.calls[k].JudgeUnverified? && s2.calls == s1.calls[k := s2.calls[k]]
    ensures s2.calls[k].before == s1.calls[k].before && c.id !in s2.calls[k].live
  {
    var ListUnverified(pod', before) := s1.calls[k];
    var live := SomeListing(s1.w.live);
    s2 := Goto(s1, k, JudgeUnverified(pod', before, live)).(w := Observed(s1.w, before.Values, live),
            life := s1.life.(vouched := s1.life.vouched + (before.Values * live.Keys)));
    assert SettleStep(s1, s2, k, s1.calls[k], Listed(live)) && LifecycleStep(s1, Advance(k, Listed(live)), s2);
    Onward(s, s1, Advance(k, Listed(live)), s2, key, pod, c);
  }

  lemma Loses(s: State, id: SandboxId, key: Key, pod: Pod, c: Claim) returns (s1: State)
    requires Publishing(s, key, pod, c)
    ensures s1 == s.(w := s.w.(live := s.w.live - {id})) && Leads(s, s1, key, pod, c)
  {
    s1 := s.(w := s.w.(live := s.w.live - {id}));
    assert ProcessStep(s, Reap(id), s1);
    Here(s, key, pod, c);
    Onward(s, s, Reap(id), s1, key, pod, c);
  }

  /** The node loses the sandbox if the listing is still to come, and the verification drops the row. */
  lemma EndangeredDrops(s: State, key: Key, pod: Pod, c: Claim) returns (s': State)
    requires Publishing(s, key, pod, c) && s.mem.Row(key, c.id) && Endangered(s, key, c.id)
    ensures Leads(s, s', key, pod, c) && Dropped(s, s', key) && Publishing(s', key, pod, c)
  {
    if k :| k in s.calls && Threatens(s.calls[k], key, c.id) {
      s' := CallDrops(s, k, key, pod, c);
    } else if s.verifier.VJudge? {
      Here(s, key, pod, c);
      s' := LoopJudges(s, s, key, pod, c);
    } else {
      var s1 := Loses(s, c.id, key, pod, c);
      var s2 := LoopLists(s, s1, key, pod, c);
      s' := LoopJudges(s, s2, key, pod, c);
    }
  }

  lemma CallDrops(s: State, k: Key, key: Key, pod: Pod, c: Claim) returns (s': State)
    requires Publishing(s, key, pod, c) && s.mem.Row(key, c.id)
    requires k in s.calls && Threatens(s.calls[k], key, c.id)
    ensures Leads(s, s', key, pod, c) && Dropped(s, s', key) && Publishing(s', key, pod, c)
  {
    if s.calls[k].JudgeUnverified? {
      Here(s, key, pod, c);
      s' := CallJudges(s, s, k, key, pod, c);
    } else {
      var s1 := Loses(s, c.id, key, pod, c);
      var s2 := CallLists(s, s1, k, key, pod, c);
      s' := CallJudges(s, s2, k, key, pod, c);
    }
  }

  /** The writer, if there is one, can leave `saveMu`. */
  ghost predicate WriterReady(s: State) {
    s.writer.Some? && s.writer.value.saver.ByCall? ==>
      var k := s.writer.value.saver.key; k in s.calls && Saves(s.calls[k])
  }

  /** A save that is under way ends. */
  lemma WriterLeaves(s: State, s1: State, key: Key, pod: Pod, c: Claim) returns (s2: State)
    requires Leads(s, s1, key, pod, c) && Publishing(s1, key, pod, c) && key !in s1.mem.claims
    requires s1.writer.Some? && WriterReady(s1)
    ensures Leads(s, s2, key, pod, c) && Publishing(s2, key, pod, c) && key !in s2.mem.claims && s2.writer.None?
  {
    var ok := s1.writer.value.renamed;
    if s1.writer.value.saver.ByRecheck? {
      s2 := s1.(writer := None, recheck := RIdle);
    } else {
      s2 := Left(s1, s1.writer.value.saver.key, ok);
    }
    assert SaveStep(s1, SaveEnd(ok), s2);
    Onward(s, s1, SaveEnd(ok), s2, key, pod, c);
  }

  function Left(s: State, k: Key, ok: bool): State
    requires k in s.calls
  {
    match s.calls[k]
    case AdoptSaving(pod, c) => Goto(s, k, PushRunning(pod, c)).(writer := None)
    case Committing(pod, c) =>
      if ok then Goto(s, k, PushRunning(pod, c)).(writer := None, mem := ClearMarker(s.mem, k))
      else Goto(s, k, Undoing(pod, c)).(writer := None, w := Failed(s.w, c.id))
    case _ => Return(s, k).(writer := None)
  }

  /** The create's own save fails, which it only logs, and it goes on to push. */
  lemma SavesAndPushes(s: State, s1: State, key: Key, pod: Pod, c: Claim) returns (s3: State)
    requires Leads(s, s1, key, pod, c) && key in s1.calls && s1.calls[key] == AdoptSaving(pod, c)
    requires key !in s1.mem.claims && s1.writer.None?
    ensures Leads(s, s3, key, pod, c) && key in s3.calls && s3.calls[key] == PushRunning(pod, c)
            && key !in s3.mem.claims
  {
    var s2 := s1.(writer := Some(Writer(ByCall(key), None, Snapshot(s1.mem, None), false)));
    s3 := Goto(s2, key, PushRunning(pod, c)).(writer := None);
    assert SaveStep(s1, SaveBegin(ByCall(key)), s2) && SaveStep(s2, SaveEnd(false), s3);
    Onward(s, s1, SaveBegin(ByCall(key)), s2, key, pod, c);
    Onward(s, s2, SaveEnd(false), s3, key, pod, c);
  }

  /** From any endangered adoption the create can come to push Running with its row gone. */
  lemma EndangeredCanMiss(s: State, key: Key, pod: Pod, c: Claim) returns (s': State)
    requires Publishing(s, key, pod, c) && s.mem.Row(key, c.id) && Endangered(s, key, c.id) && WriterReady(s)
    ensures Leads(s, s', key, pod, c) && key in s'.calls && s'.calls[key] == PushRunning(pod, c)
            && key !in s'.mem.claims
  {
    s' := EndangeredDrops(s, key, pod, c);
    if s'.writer.Some? && s'.calls[key].AdoptSaving? { s' := WriterLeaves(s, s', key, pod, c); }
    if s'.calls[key].AdoptSaving? { s' := SavesAndPushes(s, s', key, pod, c); }
  }

  // --------------------------------------------------------------- the exact condition

  /** The run goes on from its last state to one where the create is about to push. */
  ghost predicate PushedFrom(states: seq<State>, actions: seq<Action>, states': seq<State>, actions': seq<Action>,
                             key: Key, pod: Pod, c: Claim)
  {
    && Run(states', actions') && states != [] && states <= states' && actions <= actions'
    && AllPublishing(states', |states| - 1, |states'| - 1, key, pod, c)
    && states'[|states'| - 1].calls[key] == PushRunning(pod, c)
  }

  lemma Joined(states: seq<State>, path: seq<State>)
    requires states != [] && path != [] && states[|states| - 1] == path[0]
    ensures forall i :: 0 <= i < |path| ==> (states + path[1..])[|states| - 1 + i] == path[i]
  {
  }

  lemma ContinuedRun(states: seq<State>, actions: seq<Action>, path: seq<State>, steps: seq<Action>)
    requires Run(states, actions) && |path| == |steps| + 1 && states[|actions|] == path[0]
    requires forall i :: 0 <= i < |steps| ==> Stepped(path, steps, i)
    ensures Run(states + path[1..], actions + steps)
  {
    var states', actions' := states + path[1..], actions + steps;
    var n := |actions|;
    Joined(states, path);
    forall i | 0 <= i < |states'|
      ensures Entered(states', actions', i)
    {
      if i <= n {
        assert Entered(states, actions, i);
      } else {
        assert Stepped(path, steps, i - n - 1);
        assert states'[n + (i - n - 1)] == path[i - n - 1] && states'[n + (i - n)] == path[i - n];
      }
    }
  }

  lemma Continued(states: seq<State>, actions: seq<Action>, path: seq<State>, steps: seq<Action>,
                  s': State, key: Key, pod: Pod, c: Claim)
    requires Run(states, actions) && Path(path, steps, states[|actions|], s', key, pod, c)
    ensures var states', actions' := states + path[1..], actions + steps;
            && Run(states', actions') && states'[|states'| - 1] == s'
            && AllPublishing(states', |states| - 1, |states'| - 1, key, pod, c)
  {
    var states', n := states + path[1..], |actions|;
    ContinuedRun(states, actions, path, steps);
    Joined(states, path);
    forall m | n <= m < |states'|
      ensures Publishing(states'[m], key, pod, c)
    {
      assert states'[n + (m - n)] == path[m - n];
    }
  }

  /** In every continuation in which the create comes to its push, the row is there. */
  ghost predicate AlwaysHasRow(states: seq<State>, actions: seq<Action>, key: Key, pod: Pod, c: Claim) {
    forall states': seq<State>, actions': seq<Action> :: PushedFrom(states, actions, states', actions', key, pod, c) ==>
      states'[|states'| - 1].mem.Row(key, c.id)
  }

  lemma UnendangeredHasRow(states: seq<State>, actions: seq<Action>, key: Key, pod: Pod, c: Claim)
    requires Run(states, actions) && Safe(states[|actions|], key, c.id)
    ensures AlwaysHasRow(states, actions, key, pod, c)
  {
    forall states': seq<State>, actions': seq<Action> | PushedFrom(states, actions, states', actions', key, pod, c)
      ensures states'[|states'| - 1].mem.Row(key, c.id)
    {
      StaysSafe(states', actions', |states| - 1, |states'| - 1, key, pod, c);
    }
  }

  lemma EndangeredMayNot(states: seq<State>, actions: seq<Action>, key: Key, pod: Pod, c: Claim)
    requires Run(states, actions)
    requires var s := states[|actions|];
             Publishing(s, key, pod, c) && s.mem.Row(key, c.id) && Endangered(s, key, c.id) && WriterReady(s)
    ensures !AlwaysHasRow(states, actions, key, pod, c)
  {
    var s' := EndangeredCanMiss(states[|actions|], key, pod, c);
    var path, steps :| Path(path, steps, states[|actions|], s', key, pod, c);
    Continued(states, actions, path, steps, s', key, pod, c);
    assert PushedFrom(states, actions, states + path[1..], actions + steps, key, pod, c);
  }

  lemma HeldFacts(s: State, key: Key, pod: Pod, c: Claim)
    requires Inv(s) && Publishing(s, key, pod, c) && s.mem.Row(key, c.id)
    ensures s.mem.Settled(key) && key in s.mem.pods && WriterReady(s)
  {
    Parts(s);
    CallKnows(s, key);
  }

  /**
   The exact condition. Once a create has adopted a row, the row is sure to be
   there when the create pushes Running if and only if no verification in flight
   can still drop it.
   */
  lemma RowAtPushIff(states: seq<State>, actions: seq<Action>, key: Key, pod: Pod, c: Claim)
    requires Run(states, actions)
    requires Publishing(states[|actions|], key, pod, c) && states[|actions|].mem.Row(key, c.id)
    ensures AlwaysHasRow(states, actions, key, pod, c) <==> !Endangered(states[|actions|], key, c.id)
  {
    RunInv(states, actions, |actions|);
    HeldFacts(states[|actions|], key, pod, c);
    if Endangered(states[|actions|], key, c.id) {
      EndangeredMayNot(states, actions, key, pod, c);
    } else {
      UnendangeredHasRow(states, actions, key, pod, c);
    }
  }

  // ------------------------------------------------------------------- it does happen

  const KEY := Key("ns", "pod")
  const ID := SandboxId("sandbox")
  const POD := Pod("uid", None, Request("", "template", DefaultTtl), None)
  const ROW := Claim(ID, Token("token"), "", "uid", Some("uid"), Some(0), None, None)
  const FILE := StateFile(map[KEY := ROW], [])

  /** The table is loaded and a verification has taken its snapshot. */
  ghost predicate Verifying(s: State) {
    && s.proc.Up? && s.calls == map[] && s.mem == Load(FILE, 0) && ID in s.w.live
    && s.verifier.VList? && KEY in s.verifier.before && s.verifier.before[KEY] == ID
  }

  lemma Booted() returns (s4: State)
    ensures Reachable(s4) && Verifying(s4)
  {
    var s0 := BeginsWith(KEY, ROW);
    var s1 := Starts(s0, KEY, ROW);
    var s2 := s1.(verifier := VIdle);
    assert VerifyStep(s1, VerifyFails, s2);
    Next(s1, VerifyFails, s2);
    var s3 := ComesUp(s2);
    s4 := s3.(verifier := VList(Unverified(s3.mem)));
    assert VerifyStep(s3, VerifyBegin, s4);
    Next(s3, VerifyBegin, s4);
  }

  lemma CreateSnapshots() returns (s3: State)
    ensures Reachable(s3) && Verifying(s3.(calls := map[]))
    ensures s3.calls == map[KEY := ListUnverified(POD, Unverified(s3.mem))]
  {
    var s0 := Booted();
    var before := Unverified(s0.mem);
    assert KEY in before;
    var s1 := Goto(s0, KEY, CheckUnverified(POD));
    assert LifecycleStep(s0, StartCreate(KEY, POD), s1);
    Next(s0, StartCreate(KEY, POD), s1);
    var s2 := Goto(s1, KEY, SnapshotUnverified(POD));
    Proceeds(s1, KEY, Go, s2);
    s3 := Goto(s2, KEY, ListUnverified(POD, before));
    Proceeds(s2, KEY, Go, s3);
  }

  /** A create has listed the node and verified its row. */
  lemma CreateVerifies() returns (s5: State)
    ensures Reachable(s5) && s5.calls == map[KEY := CheckExpiry(POD)] && s5.verifier.VList?
    ensures KEY in s5.verifier.before && s5.verifier.before[KEY] == ID
    ensures KEY in s5.mem.claims && s5.mem.claims[KEY] == ROW && s5.mem.Settled(KEY)
  {
    var s3 := CreateSnapshots();
    var before, live := Unverified(s3.mem), SomeListing(s3.w.live);
    assert KEY in before && before[KEY] == ID && KEY in Judged(s3.mem, before);
    var s4 := Goto(s3, KEY, JudgeUnverified(POD, before, live)).(w := Observed(s3.w, before.Values, live),
                life := s3.life.(vouched := s3.life.vouched + (before.Values * live.Keys)));
    Proceeds(s3, KEY, Listed(live), s4);
    s5 := Goto(s4, KEY, CheckExpiry(POD)).(mem := Verify(s4.mem, before, live));
    Proceeds(s4, KEY, Go, s5);
  }

  lemma CreateAdopts() returns (s2: State, c: Claim)
    ensures Reachable(s2) && Publishing(s2, KEY, POD, c) && s2.mem.Row(KEY, c.id) && Endangered(s2, KEY, c.id)
  {
    var s0 := CreateVerifies();
    var s1 := Goto(s0, KEY, Adopting(POD));
    Proceeds(s0, KEY, At(0), s1);
    c := ROW.BoundTo(POD);
    assert Adoptable(s1.mem, KEY, POD) == Adopted(c);
    s2 := Goto(s1, KEY, AdoptSaving(POD, c)).(mem := Adopt(s1.mem, KEY, POD), w := Logged(s1.w, Rebound(ROW, c, POD)));
    Proceeds(s1, KEY, Go, s2);
  }

  /** A run in which a create is about to push Running for a row that is no longer there. */
  lemma RunningWithoutRow() returns (states: seq<State>, actions: seq<Action>, key: Key, pod: Pod, c: Claim)
    ensures Run(states, actions)
    ensures var s := states[|actions|]; key in s.calls && s.calls[key] == PushRunning(pod, c) && key !in s.mem.claims
  {
    var s;
    s, c := CreateAdopts();
    ReachableInv(s);
    HeldFacts(s, KEY, POD, c);
    var s' := EndangeredCanMiss(s, KEY, POD, c);
    var before, steps :| Run(before, steps) && before[|steps|] == s;
    var path, more :| Path(path, more, s, s', KEY, POD, c);
    Continued(before, steps, path, more, s', KEY, POD, c);
    states, actions, key, pod := before + path[1..], steps + more, KEY, POD;
  }
}
