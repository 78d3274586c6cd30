/**
 Whose row it is. What a status read says is about the row at the key, and what
 the owner re-check withdraws is the row at the key; this follows the row and the
 Pod tracked beside it through every step, to say when the read is about the
 row's own Pod and when the withdrawal acts on the verdict of the row's own owner.
 */
module Holders {
  import opened Types
  import opened Ownership
  import opened Sections
  import opened Machine
  import opened Invariant
  import opened Reachability
  import opened History

  // --------------------------------------------------- what a step does to one row

  /** The row and the Pod beside it are as they were; its deadline may have been refreshed. */
  ghost predicate Stays(m: Mem, m': Mem, key: Key) {
    && key in m.claims && key in m'.claims && m'.claims[key] == m.claims[key].(deadline := m'.claims[key].deadline)
    && (key in m.pods <==> key in m'.pods) && (key in m.pods ==> m'.pods[key] == m.pods[key])
  }

  /** A claim or an adoption: the Pod beside the row is its holder. */
  ghost predicate HolderTracked(m': Mem, key: Key) {
    key in m'.claims && key in m'.pods && m'.pods[key].uid == m'.claims[key].podUid
  }

  /** A delete that preserves: the row is left without a Pod and with its controller on record. */
  ghost predicate Preserves(s: State, a: Action, s': State, key: Key) {
    && a.Advance? && a.key == key && key in s.calls && s.calls[key].Preserving?
    && key in s.mem.claims && key in s'.mem.claims && key !in s'.mem.pods
    && s'.mem.claims[key] == s.mem.claims[key].(owner := s.calls[key].pod.controller)
  }

  /** An update that records its Pod beside whatever row is there. */
  ghost predicate Updates(s: State, a: Action, s': State, key: Key) {
    && a.Advance? && a.key == key && key in s.calls && s.calls[key].UpdateBody?
    && key in s.mem.claims && s'.mem.claims == s.mem.claims
    && key in s'.mem.pods && s'.mem.pods[key] == s.calls[key].pod
  }

  /** All a step can do to a row that is there after it. */
  ghost predicate RowStep(s: State, a: Action, s': State, key: Key) {
    key in s'.mem.claims ==>
      || Stays(s.mem, s'.mem, key) || HolderTracked(s'.mem, key)
      || Preserves(s, a, s', key) || Updates(s, a, s', key) || a.Boot?
  }

  lemma ProcessRows(s: State, a: Action, s': State, key: Key)
    requires ProcessStep(s, a, s')
    ensures RowStep(s, a, s', key)
  {
  }

  lemma SettleRows(s: State, s': State, k: Key, input: Input, key: Key)
    requires k in s.calls && SettleStep(s, s', k, s.calls[k], input)
    ensures RowStep(s, Advance(k, input), s', key)
  {
  }

  lemma ClaimingRows(s: State, s': State, k: Key, input: Input, key: Key)
    requires CallsOk(s) && k in s.calls && ClaimingStep(s, s', k, s.calls[k], input)
    ensures RowStep(s, Advance(k, input), s', key)
  {
    CallKnows(s, k);
  }

  lemma FinishRows(s: State, s': State, k: Key, input: Input, key: Key)
    requires CallsOk(s) && k in s.calls && FinishStep(s, s', k, s.calls[k], input)
    ensures RowStep(s, Advance(k, input), s', key)
  {
    CallKnows(s, k);
  }

  lemma DeletingRows(s: State, s': State, k: Key, input: Input, key: Key)
    requires CallsOk(s) && k in s.calls && DeletingStep(s, s', k, s.calls[k], input)
    ensures RowStep(s, Advance(k, input), s', key)
  {
    CallKnows(s, k);
  }

  lemma LifecycleRows(s: State, a: Action, s': State, key: Key)
    requires CallsOk(s) && LifecycleStep(s, a, s')
    ensures RowStep(s, a, s', key)
  {
    if a.Advance? {
      if SettleStep(s, s', a.key, s.calls[a.key], a.input) {
        SettleRows(s, s', a.key, a.input, key);
      } else if ClaimingStep(s, s', a.key, s.calls[a.key], a.input) {
        ClaimingRows(s, s', a.key, a.input, key);
      } else if FinishStep(s, s', a.key, s.calls[a.key], a.input) {
        FinishRows(s, s', a.key, a.input, key);
      } else {
        DeletingRows(s, s', a.key, a.input, key);
      }
    }
  }

  lemma LoopRows(s: State, a: Action, s': State, key: Key)
    requires SaveStep(s, a, s') || VerifyStep(s, a, s')
    ensures RowStep(s, a, s', key)
  {
  }

  lemma WatchRows(s: State, a: Action, s': State, key: Key)
    requires LeaseStep(s, a, s') || RecheckStep(s, a, s') || DrainStep(s, a, s')
    ensures RowStep(s, a, s', key)
  {
  }

  lemma StepRows(s: State, a: Action, s': State, key: Key)
    requires CallsOk(s) && Step(s, a, s')
    ensures RowStep(s, a, s', key)
  {
    if ProcessStep(s, a, s') { ProcessRows(s, a, s', key); }
    else if LifecycleStep(s, a, s') { LifecycleRows(s, a, s', key); }
    else if SaveStep(s, a, s') || VerifyStep(s, a, s') { LoopRows(s, a, s', key); }
    else { WatchRows(s, a, s', key); }
  }

  /** A step between two states of a run: what it does to the row, and that a start tracks no Pod. */
  ghost predicate RowLink(s: State, a: Action, s': State, key: Key) {
    RowStep(s, a, s', key) && (a.Boot? ==> s.proc.Down? && s'.mem.pods == map[])
  }

  lemma BootTracksNone(s: State, a: Action, s': State)
    requires Step(s, a, s') && a.Boot?
    ensures s.proc.Down? && s'.mem.pods == map[]
  {
  }

  ghost predicate RowChain(states: seq<State>, actions: seq<Action>, key: Key) {
    && |states| == |actions| + 1
    && forall n :: 0 <= n < |actions| ==> RowLink(states[n], actions[n], states[n + 1], key)
  }

  lemma RunRows(states: seq<State>, actions: seq<Action>, n: nat, key: Key)
    requires Run(states, actions) && n < |actions|
    ensures RowLink(states[n], actions[n], states[n + 1], key)
  {
    RunCalls(states, actions, n);
    assert Entered(states, actions, n + 1);
    StepRows(states[n], actions[n], states[n + 1], key);
    if actions[n].Boot? { BootTracksNone(states[n], actions[n], states[n + 1]); }
  }

  lemma RunIsRowChain(states: seq<State>, actions: seq<Action>, key: Key)
    requires Run(states, actions)
    ensures RowChain(states, actions, key)
  {
    forall n | 0 <= n < |actions|
      ensures RowLink(states[n], actions[n], states[n + 1], key)
    {
      RunRows(states, actions, n, key);
    }
  }

  // ------------------------------------------------------------- the Pod of a status read

  /** The Pod a status read answers for is not the one the row is bound to. */
  ghost predicate Stranger(s: State, key: Key) {
    key in s.mem.claims && key in s.mem.pods && s.mem.pods[key].uid != s.mem.claims[key].podUid
  }

  /** An update records a Pod beside a row that is bound to another. */
  ghost predicate Displaces(s: State, a: Action, key: Key) {
    && a.Advance? && a.key == key && key in s.calls && s.calls[key].UpdateBody?
    && key in s.mem.claims && s.calls[key].pod.uid != s.mem.claims[key].podUid
  }

  lemma StrangerBefore(s: State, a: Action, s': State, key: Key)
    requires RowLink(s, a, s', key) && Stranger(s', key)
    ensures Stranger(s, key) || Displaces(s, a, key)
  {
  }

  lemma {:induction false} ChainStranger(states: seq<State>, actions: seq<Action>, i: nat, key: Key)
    requires RowChain(states, actions, key) && i < |states| && !Stranger(states[0], key) && Stranger(states[i], key)
    ensures exists n: nat :: n < i && Displaces(states[n], actions[n], key) && StrangerFrom(states, n + 1, i, key)
  {
    assert RowLink(states[i - 1], actions[i - 1], states[i], key);
    StrangerBefore(states[i - 1], actions[i - 1], states[i], key);
    if Displaces(states[i - 1], actions[i - 1], key) {
      assert StrangerFrom(states, i - 1 + 1, i, key);
    } else {
      ChainStranger(states, actions, i - 1, key);
      var n: nat :| n < i - 1 && Displaces(states[n], actions[n], key) && StrangerFrom(states, n + 1, i - 1, key);
      assert StrangerFrom(states, n + 1, i, key);
    }
  }

  /**
   A status read is about the row's own Pod unless an update recorded another Pod
   there, and the key has had a stranger beside its row ever since.
   */
  lemma StrangerWasRecorded(states: seq<State>, actions: seq<Action>, i: nat, key: Key)
    requires Run(states, actions) && i < |states| && Stranger(states[i], key)
    ensures exists n: nat :: n < i && Displaces(states[n], actions[n], key) && StrangerFrom(states, n + 1, i, key)
  {
    RunIsRowChain(states, actions, key);
    assert Entered(states, actions, 0);
    ChainStranger(states, actions, i, key);
  }

  ghost predicate StrangerFrom(states: seq<State>, i: nat, j: nat, key: Key) {
    i <= j < |states| && forall m :: i <= m <= j ==> Stranger(states[m], key)
  }

  // --------------------------------------------------------- the owner of a withdrawal

  /** The owner on record for the row at `key`: that of the last delete since `i` that preserved it, or `owner`. */
  ghost function OnRecord(states: seq<State>, actions: seq<Action>, i: nat, j: nat, key: Key, owner: Option<OwnerRef>)
    : Option<OwnerRef>
    requires i <= j < |states| == |actions| + 1
    decreases j
  {
    if i == j then owner
    else if Preserves(states[j - 1], actions[j - 1], states[j], key) then states[j - 1].calls[key].pod.controller
    else OnRecord(states, actions, i, j - 1, key, owner)
  }

  /** If the row of `id` is at `key` with no Pod, its owner is `owner`. */
  ghost predicate OwnerIs(s: State, key: Key, id: SandboxId, owner: Option<OwnerRef>) {
    s.mem.Row(key, id) && key !in s.mem.pods ==> s.mem.claims[key].owner == owner
  }

  lemma OwnedNext(s: State, a: Action, s': State, key: Key, id: SandboxId, owner: Option<OwnerRef>)
    requires RowLink(s, a, s', key) && !s.proc.Down? && OwnerIs(s, key, id, owner)
    ensures OwnerIs(s', key, id, if Preserves(s, a, s', key) then s.calls[key].pod.controller else owner)
  {
  }

  lemma {:induction false} OwnerFollows(states: seq<State>, actions: seq<Action>, i: nat, j: nat, key: Key,
                                        id: SandboxId, owner: Option<OwnerRef>)
    requires RowChain(states, actions, key) && SameProcess(states, i, j) && OwnerIs(states[i], key, id, owner)
    ensures OwnerIs(states[j], key, id, OnRecord(states, actions, i, j, key, owner))
  {
    if i < j {
      OwnerFollows(states, actions, i, j - 1, key, id, owner);
      assert RowLink(states[j - 1], actions[j - 1], states[j], key);
      OwnedNext(states[j - 1], actions[j - 1], states[j], key, id, OnRecord(states, actions, i, j - 1, key, owner));
    }
  }

  /**
   The re-check compares ids when it withdraws. The row it withdraws is then
   released on the verdict about its own owner if and only if no delete since the
   snapshot has left the row with another owner on record.
   */
  lemma WithdrawnForItsOwnerIff(states: seq<State>, actions: seq<Action>, i: nat, j: nat, key: Key, c: Claim,
                                todo: map<Key, Claim>, changed: bool)
    requires Run(states, actions) && SameProcess(states, i, j)
    requires key in PreservedRows(states[i].mem) && PreservedRows(states[i].mem)[key] == c
    requires states[j].recheck == RWithdraw(key, c, todo, changed) && Withdrawable(states[j].mem, key, c)
    ensures states[j].mem.claims[key].owner == c.owner <==> OnRecord(states, actions, i, j, key, c.owner) == c.owner
  {
    RunIsRowChain(states, actions, key);
    OwnerFollows(states, actions, i, j, key, c.id, c.owner);
  }

  // ------------------------------------------------------------------ both do happen

  const KEY := Key("ns", "pod")
  const ID := SandboxId("sandbox")
  const JUDGED := OwnerRef("a", "u", true)
  const LATER := OwnerRef("b", "u", true)
  const ROW := Claim(ID, Token("token"), "", "uid", Some("u"), Some(0), None, Some(JUDGED))
  const POD := Pod("other", Some(LATER), Request("", "template", DefaultTtl), None)

  /** A process is up with the row settled and nothing under way. */
  ghost predicate Idle(s: State) {
    && s.proc.Up? && s.calls == map[] && s.writer.None? && s.recheck.RIdle?
    && KEY in s.mem.claims && s.mem.claims[KEY] == ROW && s.mem.Settled(KEY) && s.mem.pods == map[]
  }

  lemma Settles() returns (s4: State)
    ensures Reachable(s4) && Idle(s4)
  {
    var s0 := BeginsWith(KEY, ROW);
    var s1 := Starts(s0, KEY, ROW);
    var before, live := Unverified(s1.mem), SomeListing(s1.w.live);
    var s2 := s1.(verifier := VJudge(before, live), w := Observed(s1.w, before.Values, live),
                  life := s1.life.(vouched := s1.life.vouched + (before.Values * live.Keys)));
    assert VerifyStep(s1, VerifyListed(live), s2);
    Next(s1, VerifyListed(live), s2);
    var s3 := s2.(verifier := VIdle, mem := Verify(s2.mem, before, live));
    assert VerifyStep(s2, VerifyJudge, s3);
    Next(s2, VerifyJudge, s3);
    assert KEY in Judged(s2.mem, before);
    s4 := ComesUp(s3);
  }

  /** An update records another Pod beside the row, and a status read then reports the row's sandbox as that Pod's. */
  lemma StrangerReadsRunning() returns (s: State, key: Key, now: Time, s': State)
    ensures Reachable(s) && Stranger(s, key) && Step(s, ReadStatus(key, now), s')
    ensures var c := s.mem.claims[key];
            s'.w.log == s.w.log + [Status(key, s.mem.pods[key], c.id, false, true, c.claimedAt)]
  {
    var s0 := Settles();
    var s1 := Goto(s0, KEY, UpdateGuard(POD));
    assert LifecycleStep(s0, StartUpdate(KEY, POD), s1);
    Next(s0, StartUpdate(KEY, POD), s1);
    var s2 := Goto(s1, KEY, UpdateBody(POD));
    Proceeds(s1, KEY, Go, s2);
    s := Return(s2, KEY).(mem := Track(s2.mem, KEY, POD));
    Proceeds(s2, KEY, Go, s);
    key, now := KEY, 0;
    s' := s.(w := Logged(s.w, Status(KEY, POD, ID, false, true, Some(0))));
    assert LifecycleStep(s, ReadStatus(key, now), s');
  }

  /** The owner of the row is judged gone. */
  lemma Judges() returns (s2: State)
    ensures Reachable(s2) && s2.recheck.RWithdraw? && s2.recheck.key == KEY && s2.recheck.c == ROW
    ensures Idle(s2.(recheck := RIdle))
  {
    var s0 := Settles();
    var rows := PreservedRows(s0.mem);
    assert KEY in rows && rows[KEY] == ROW;
    var s1 := s0.(recheck := RAsk(rows, false));
    assert RecheckStep(s0, RecheckBegin, s1);
    Next(s0, RecheckBegin, s1);
    var read := NotFound(Some("a"));
    s2 := s1.(recheck := RWithdraw(KEY, ROW, rows - {KEY}, false),
              w := Logged(s1.w, RecheckJudged(ID, Some(JUDGED), read)));
    assert RecheckStep(s1, RecheckAsk(KEY, read), s2);
    Next(s1, RecheckAsk(KEY, read), s2);
  }

  /** Before the row is withdrawn a Pod adopts it. */
  lemma Adopts() returns (s4: State)
    ensures Reachable(s4) && s4.recheck.RWithdraw? && s4.recheck.key == KEY && s4.recheck.c == ROW
    ensures s4.proc.Up? && s4.writer.None? && s4.calls == map[KEY := AdoptSaving(POD, ROW.BoundTo(POD))]
    ensures KEY in s4.mem.claims && s4.mem.claims[KEY] == ROW.BoundTo(POD) && s4.mem.Settled(KEY)
    ensures KEY in s4.mem.pods && s4.mem.pods[KEY] == POD
  {
    var s0 := Judges();
    var s1 := Goto(s0, KEY, CheckUnverified(POD));
    assert LifecycleStep(s0, StartCreate(KEY, POD), s1);
    Next(s0, StartCreate(KEY, POD), s1);
    var s2 := Goto(s1, KEY, CheckExpiry(POD));
    Proceeds(s1, KEY, Go, s2);
    var s3 := Goto(s2, KEY, Adopting(POD));
    Proceeds(s2, KEY, At(0), s3);
    var c := ROW.BoundTo(POD);
    assert Adoptable(s3.mem, KEY, POD) == Adopted(c);
    s4 := Goto(s3, KEY, AdoptSaving(POD, c)).(mem := Adopt(s3.mem, KEY, POD), w := Logged(s3.w, Rebound(ROW, c, POD)));
    Proceeds(s3, KEY, Go, s4);
  }

  lemma Publishes() returns (s3: State)
    ensures Reachable(s3) && s3.recheck.RWithdraw? && s3.recheck.key == KEY && s3.recheck.c == ROW
    ensures s3.proc.Up? && s3.calls == map[] && s3.mem.Settled(KEY)
    ensures KEY in s3.mem.claims && s3.mem.claims[KEY] == ROW.BoundTo(POD)
    ensures KEY in s3.mem.pods && s3.mem.pods[KEY] == POD
  {
    var s0 := Adopts();
    var c := ROW.BoundTo(POD);
    var s1 := s0.(writer := Some(Writer(ByCall(KEY), None, Snapshot(s0.mem, None), false)));
    assert SaveStep(s0, SaveBegin(ByCall(KEY)), s1);
    Next(s0, SaveBegin(ByCall(KEY)), s1);
    var s2 := Goto(s1, KEY, PushRunning(POD, c)).(writer := None);
    assert SaveStep(s1, SaveEnd(false), s2);
    Next(s1, SaveEnd(false), s2);
    s3 := Return(s2, KEY).(w := Logged(s2.w, Status(KEY, POD.WithClaim(c.id), c.id, true, true, c.claimedAt)));
    Proceeds(s2, KEY, Go, s3);
  }

  /** The Pod is deleted while its owner is alive. */
  lemma Deletes() returns (s4: State)
    ensures Reachable(s4) && s4.recheck.RWithdraw? && s4.recheck.key == KEY && s4.recheck.c == ROW
    ensures s4.calls == map[KEY := Preserving(POD, ROW.BoundTo(POD))]
    ensures KEY in s4.mem.claims && s4.mem.claims[KEY] == ROW.BoundTo(POD)
  {
    var s0 := Publishes();
    var c := ROW.BoundTo(POD);
    var s1 := Goto(s0, KEY, DeleteGuard(POD));
    assert LifecycleStep(s0, StartDelete(KEY, POD), s1);
    Next(s0, StartDelete(KEY, POD), s1);
    var s2 := Goto(s1, KEY, DeleteLookup(POD));
    Proceeds(s1, KEY, Go, s2);
    var s3 := Goto(s2, KEY, ReadOwner(POD, c));
    Proceeds(s2, KEY, Go, s3);
    var read := Found("u", false, []);
    s4 := Goto(s3, KEY, Preserving(POD, c)).(w := Logged(s3.w, DeleteJudged(c.id, POD, read)));
    assert DestroyAuthorized(POD.controller, read).Preserve?;
    Proceeds(s3, KEY, Owner(read), s4);
  }

  /** The row is preserved for that owner, and yet withdrawn on the verdict about the owner before. */
  lemma WithdrawnForAnother() returns (s: State)
    ensures Reachable(s) && s.recheck.RWithdraw? && Withdrawable(s.mem, s.recheck.key, s.recheck.c)
    ensures s.mem.claims[s.recheck.key].owner != s.recheck.c.owner
  {
    var s4 := Deletes();
    s := Goto(s4, KEY, Saving).(mem := PreserveRow(s4.mem, KEY, ID, POD.controller),
                                w := Logged(s4.w, OwnerRecorded(ID, LATER)));
    Proceeds(s4, KEY, Go, s);
    assert JUDGED.name[0] != LATER.name[0];
  }
}
