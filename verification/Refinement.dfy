/**
 The two accounts of a lifecycle call agree: what the class leaves when a call runs
 on its own is what a run of the machine leaves in which no other thread steps
 meanwhile. So whatever holds of every run of the machine holds of the class.
 */
module Refinement {
  import opened Types
  import opened Ownership
  import opened Sections
  import opened Machine
  import opened Reachability
  import opened Solo
  import C = Custody
  import O = Outcome
  import Slots

  lemma Advances(s0: State, s: State, key: Key, input: Input, s': State)
    requires On(s0, s, OfKey(key)) && AdvanceStep(s, s', key, input)
    ensures On(s0, s', OfKey(key))
  {
    assert LifecycleStep(s, Advance(key, input), s');
    Onward(s0, s, Advance(key, input), s', OfKey(key));
  }

  /** The call runs: the process is up, nobody saves, and the node is as it was. */
  ghost predicate Quiet(s0: State, s: State) {
    s.proc.Up? && s.writer.None? && s.w.live == s0.w.live && s.w.refs == s0.w.refs
  }

  /** The listings of the answers are of the node as it is, and the grant is new. */
  ghost predicate FromNode(s: State, a: C.Answers) {
    && (a.verifying.Some? ==> a.verifying.value.Keys == s.w.live)
    && (a.expiring.Some? ==> a.expiring.value.Keys == s.w.live)
    && (a.grant.Some? ==> a.grant.value.id !in s.w.refs)
  }

  // ------------------------------------------------------------------- a create, in parts

  lemma Verifies(s0: State, s: State, key: Key, pod: Pod, a: C.Answers) returns (s': State)
    requires On(s0, s, OfKey(key)) && Quiet(s0, s) && FromNode(s0, a)
    requires key in s.calls && s.calls[key] == CheckUnverified(pod)
    ensures On(s0, s', OfKey(key)) && Quiet(s0, s') && s'.disk == s.disk && s'.w.log == s.w.log
    ensures key in s'.calls <==> key !in s.mem.quarantined || a.verifying.Some?
    ensures key in s'.calls ==> s'.calls[key] == CheckExpiry(pod)
    ensures s'.mem == if key !in s.mem.quarantined || a.verifying.None? then s.mem
                      else Verify(s.mem, Unverified(s.mem), a.verifying.value)
  {
    Sounds(s);
    if key !in s.mem.quarantined {
      s' := Goto(s, key, CheckExpiry(pod));
      Advances(s0, s, key, Go, s');
      return;
    }
    var s1 := Goto(s, key, SnapshotUnverified(pod));
    Advances(s0, s, key, Go, s1);
    var before := Unverified(s.mem);
    assert key in before;
    var s2 := Goto(s1, key, ListUnverified(pod, before));
    Advances(s0, s1, key, Go, s2);
    if a.verifying.None? {
      s' := Return(s2, key);
      Advances(s0, s2, key, Fails, s');
      return;
    }
    s' := Judges(s0, s2, key, pod, before, a.verifying.value);
  }

  lemma Judges(s0: State, s: State, key: Key, pod: Pod, before: map<Key, SandboxId>, live: Listing) returns (s': State)
    requires On(s0, s, OfKey(key)) && Quiet(s0, s) && live.Keys == s0.w.live
    requires key in s.calls && s.calls[key] == ListUnverified(pod, before)
    ensures On(s0, s', OfKey(key)) && Quiet(s0, s') && s'.disk == s.disk && s'.w.log == s.w.log
    ensures key in s'.calls && s'.calls[key] == CheckExpiry(pod) && s'.mem == Verify(s.mem, before, live)
  {
    var s1 := Goto(s, key, JudgeUnverified(pod, before, live)).(
                w := Observed(s.w, before.Values, live),
                life := s.life.(vouched := s.life.vouched + (before.Values * live.Keys)));
    Advances(s0, s, key, Listed(live), s1);
    s' := Goto(s1, key, CheckExpiry(pod)).(mem := Verify(s1.mem, before, live));
    Advances(s0, s1, key, Go, s');
  }

  lemma Renews(s0: State, s: State, key: Key, pod: Pod, a: C.Answers) returns (s': State)
    requires On(s0, s, OfKey(key)) && Quiet(s0, s) && FromNode(s0, a)
    requires key in s.calls && s.calls[key] == CheckExpiry(pod)
    ensures On(s0, s', OfKey(key)) && Quiet(s0, s') && s'.disk == s.disk && s'.w.log == s.w.log
    ensures key in s'.calls <==> !O.Overdue(O.SlotAt(s.mem, key), a.now) || a.expiring.Some?
    ensures key in s'.calls ==> s'.calls[key] == Adopting(pod)
    ensures s'.mem == if !O.Overdue(O.SlotAt(s.mem, key), a.now) || a.expiring.None? then s.mem
                      else Slots.Renew(s.mem, key, a.expiring.value)
  {
    if !O.Overdue(O.SlotAt(s.mem, key), a.now) {
      s' := Goto(s, key, Adopting(pod));
      Advances(s0, s, key, At(a.now), s');
      return;
    }
    var c := s.mem.claims[key];
    var s1 := Goto(s, key, ListExpired(pod, c));
    Advances(s0, s, key, At(a.now), s1);
    if a.expiring.None? {
      s' := Return(s1, key);
      Advances(s0, s1, key, Fails, s');
      return;
    }
    var live := a.expiring.value;
    var s2 := Goto(s1, key, JudgeExpired(pod, c, live)).(w := Observed(s1.w, {c.id}, live));
    Advances(s0, s1, key, Listed(live), s2);
    s' := Goto(s2, key, Adopting(pod)).(mem := Slots.Renew(s2.mem, key, live));
    Advances(s0, s2, key, Go, s');
  }

  /** The call takes the lock, and its write lands or not. */
  lemma Writes(s0: State, s: State, key: Key, committing: Option<Key>, landed: bool) returns (s': State)
    requires On(s0, s, OfKey(key)) && s.writer.None? && key in s.calls && Saves(s.calls[key])
    requires committing == if s.calls[key].Committing? then Some(key) else None
    ensures On(s0, s', OfKey(key))
    ensures s' == s.(disk := s'.disk, writer := s'.writer, w := s.w.(durable := s'.w.durable))
    ensures s'.disk == if landed then Snapshot(s.mem, committing) else s.disk
    ensures s'.writer == Some(Writer(ByCall(key), committing, Snapshot(s.mem, committing), landed))
  {
    var file := Snapshot(s.mem, committing);
    s' := s.(writer := Some(Writer(ByCall(key), committing, file, false)));
    assert SaveStep(s, SaveBegin(ByCall(key)), s');
    Onward(s0, s, SaveBegin(ByCall(key)), s', OfKey(key));
    if landed {
      s' := Renames(s0, s', key);
    }
  }

  lemma Renames(s0: State, s: State, key: Key) returns (s': State)
    requires On(s0, s, OfKey(key)) && s.writer.Some? && !s.writer.value.renamed
    ensures On(s0, s', OfKey(key))
    ensures s' == s.(disk := s.writer.value.file, writer := Some(s.writer.value.(renamed := true)),
                     w := s.w.(durable := s'.w.durable))
  {
    var file := s.writer.value.file;
    s' := s.(disk := file, writer := Some(s.writer.value.(renamed := true)),
             w := s.w.(durable := s.w.durable + Ids(file.claims, file.releasing)));
    assert SaveStep(s, SaveRename, s');
    Onward(s0, s, SaveRename, s', OfKey(key));
  }

  lemma Unlocks(s0: State, s: State, key: Key, landed: bool, s': State)
    requires On(s0, s, OfKey(key)) && s.writer.Some?
    requires s.writer.value.saver == ByCall(key) && s.writer.value.renamed == landed
    requires key in s.calls && SavedStep(s, s', key, s.calls[key], landed)
    ensures On(s0, s', OfKey(key))
  {
    assert SaveStep(s, SaveEnd(landed), s');
    Onward(s0, s, SaveEnd(landed), s', OfKey(key));
  }

  /** A log-only save. */
  lemma SavesLog(s0: State, s: State, key: Key, landed: bool) returns (s': State)
    requires On(s0, s, OfKey(key)) && s.writer.None? && key in s.calls
    requires s.calls[key].AdoptSaving? || s.calls[key].Saving?
    ensures On(s0, s', OfKey(key)) && s'.mem == s.mem && s'.w.log == s.w.log && O.Wrote(s.disk, s'.disk, s'.mem, landed)
    ensures if s.calls[key].Saving? then key !in s'.calls
            else key in s'.calls && s'.calls[key] == PushRunning(s.calls[key].pod, s.calls[key].c)
  {
    var s1 := Writes(s0, s, key, None, landed);
    s' := if s.calls[key].Saving? then Return(s1, key).(writer := None)
          else Goto(s1, key, PushRunning(s.calls[key].pod, s.calls[key].c)).(writer := None);
    Unlocks(s0, s1, key, landed, s');
  }

  lemma Publishes(s0: State, s: State, key: Key, pod: Pod, c: Claim) returns (s': State)
    requires On(s0, s, OfKey(key)) && key in s.calls && s.calls[key] == PushRunning(pod, c)
    ensures On(s0, s', OfKey(key)) && key !in s'.calls && s'.mem == s.mem && s'.disk == s.disk
    ensures Releases(s'.w.log) == Releases(s.w.log)
    ensures Pushes(s'.w.log) == Pushes(s.w.log) + [C.Published(pod.(claimId := Some(c.id)), C.Running, c.claimedAt)]
  {
    var e := Status(key, pod.WithClaim(c.id), c.id, true, true, c.claimedAt);
    s' := Return(s, key).(w := Logged(s.w, e));
    LogShows(s.w.log, e);
    Advances(s0, s, key, Go, s');
  }

  /** The call is about to release `c`, and what it does once that succeeded. */
  predicate AsksNext(call: Call, c: Claim, next: Call) {
    || (call.ReturnStranded? && call.c == c && next == WithdrawStranded(call.pod, c))
    || (call.Undoing? && call.c == c && next == WithdrawUndone(call.pod, c))
    || (call.Releasing? && call.c == c && next == WithdrawReleased(call.pod, c))
  }

  lemma ReleaseAdvances(s: State, s': State, key: Key, c: Claim, ok: bool, next: Call)
    requires key in s.calls && AsksNext(s.calls[key], c, next) && ReleaseStep(s, s', key, c, ok, next)
    ensures AdvanceStep(s, s', key, if ok then Go else Fails)
  {
  }

  /** A call asks for a release, which succeeds. */
  lemma ReleaseSucceeds(s0: State, s: State, key: Key, c: Claim, next: Call) returns (s': State)
    requires On(s0, s, OfKey(key)) && key in s.calls && AsksNext(s.calls[key], c, next)
    ensures On(s0, s', OfKey(key)) && s' == Goto(s, key, next).(w := ReleaseDone(s.w, c))
    ensures Releases(s'.w.log) == Releases(s.w.log) + [C.Released(c.id, c.token, true)]
    ensures Pushes(s'.w.log) == Pushes(s.w.log)
  {
    ReleaseShows(s.w.log, c, true);
    s' := Goto(s, key, next).(w := ReleaseDone(s.w, c));
    ReleaseAdvances(s, s', key, c, true, next);
    Advances(s0, s, key, Go, s');
  }

  /** Or fails. */
  lemma ReleaseFails(s0: State, s: State, key: Key, c: Claim, next: Call) returns (s': State)
    requires On(s0, s, OfKey(key)) && key in s.calls && AsksNext(s.calls[key], c, next)
    ensures On(s0, s', OfKey(key)) && s' == Return(s, key).(w := ReleaseFailed(s.w, c))
    ensures Releases(s'.w.log) == Releases(s.w.log) + [C.Released(c.id, c.token, false)]
    ensures Pushes(s'.w.log) == Pushes(s.w.log)
  {
    ReleaseShows(s.w.log, c, false);
    s' := Return(s, key).(w := ReleaseFailed(s.w, c));
    ReleaseAdvances(s, s', key, c, false, next);
    Advances(s0, s, key, Fails, s');
  }

  // ------------------------------------------------------------- a create, its second half

  lemma Rebinds(s0: State, s: State, key: Key, pod: Pod) returns (s': State)
    requires On(s0, s, OfKey(key)) && key in s.calls && s.calls[key] == Adopting(pod)
    requires Adoptable(s.mem, key, pod).Adopted?
    ensures var c := s.mem.claims[key].BoundTo(pod);
            && On(s0, s', OfKey(key))
            && s' == Goto(s, key, AdoptSaving(pod, c)).(mem := Adopt(s.mem, key, pod),
                                                        w := Logged(s.w, Rebound(s.mem.claims[key], c, pod)))
  {
    var c := s.mem.claims[key].BoundTo(pod);
    s' := Goto(s, key, AdoptSaving(pod, c)).(mem := Adopt(s.mem, key, pod),
                                             w := Logged(s.w, Rebound(s.mem.claims[key], c, pod)));
    assert AdoptStep(s, s', key, pod);
    Advances(s0, s, key, Go, s');
  }

  /** The row is adopted, saved and published. */
  lemma Adopts(s0: State, s: State, key: Key, pod: Pod, a: C.Answers) returns (s': State)
    requires On(s0, s, OfKey(key)) && s.writer.None? && key in s.calls && s.calls[key] == Adopting(pod)
    requires key !in s.mem.quarantined && O.Takes(O.SlotAt(s.mem, key), pod)
    ensures On(s0, s', OfKey(key)) && key !in s'.calls && O.Elsewhere(s.mem, s'.mem, key)
    ensures O.SlotAt(s'.mem, key) == O.Left(O.SlotAt(s.mem, key), pod, a)
    ensures O.Serves(ViewOf(s), ViewOf(s'), O.SlotAt(s.mem, key), pod, a)
  {
    Sounds(s);
    Slots.AdoptSlots(s.mem, key, pod);
    var was := s.mem.claims[key];
    var c := was.BoundTo(pod);
    var s1 := Rebinds(s0, s, key, pod);
    Unseen(s.w.log, Rebound(was, c, pod));
    var s2 := SavesLog(s0, s1, key, a.adoptSaved);
    s' := Publishes(s0, s2, key, pod, c);
    Slots.ServedByTaking(ViewOf(s), ViewOf(s'), O.SlotAt(s.mem, key), pod, a);
  }

  /** The row is refused, or there is none to adopt. */
  lemma PassesOn(s0: State, s: State, key: Key, pod: Pod) returns (s': State)
    requires On(s0, s, OfKey(key)) && Quiet(s0, s) && key in s.calls && s.calls[key] == Adopting(pod)
    requires key !in s.mem.quarantined && !O.Takes(O.SlotAt(s.mem, key), pod)
    ensures On(s0, s', OfKey(key)) && Quiet(s0, s') && key in s'.calls && s'.calls[key] == CheckStranded(pod)
    ensures s'.mem == Adopt(s.mem, key, pod) && ViewOf(s') == ViewOf(s).(m := s'.mem)
  {
    Sounds(s);
    Slots.AdoptSlots(s.mem, key, pod);
    s' := Goto(s, key, CheckStranded(pod));
    if Adoptable(s.mem, key, pod).Refused? {
      var c := s.mem.claims[key];
      Unseen(s.w.log, AdoptionRefused(c, pod));
      s' := s'.(mem := Adopt(s.mem, key, pod), w := Logged(s.w, AdoptionRefused(c, pod)),
                life := s.life.(queued := s.life.queued + {c.id}));
    }
    assert AdoptStep(s, s', key, pod);
    Advances(s0, s, key, Go, s');
  }

  /** A stranded claim is returned. */
  lemma ReturnsStranded(s0: State, s: State, key: Key, pod: Pod) returns (s': State)
    requires On(s0, s, OfKey(key)) && Quiet(s0, s) && key in s.calls && s.calls[key] == CheckStranded(pod)
    requires key in s.mem.claims && key in s.mem.tentative
    ensures On(s0, s', OfKey(key)) && s'.writer.None? && s'.w.refs == s.w.refs
    ensures key in s'.calls && s'.calls[key] == Claiming(pod)
    ensures s'.mem == Withdraw(s.mem, key, s.mem.claims[key].id) && s'.disk == s.disk
    ensures var c := s.mem.claims[key];
            && Releases(s'.w.log) == Releases(s.w.log) + [C.Released(c.id, c.token, true)]
            && Pushes(s'.w.log) == Pushes(s.w.log)
  {
    var c := s.mem.claims[key];
    var s1 := Goto(s, key, ReturnStranded(pod, c));
    Advances(s0, s, key, Go, s1);
    var s2 := ReleaseSucceeds(s0, s1, key, c, WithdrawStranded(pod, c));
    s' := Goto(s2, key, Claiming(pod)).(mem := Withdraw(s2.mem, key, c.id));
    Advances(s0, s2, key, Go, s');
  }

  /** A stranded claim cannot be returned. */
  lemma StaysStranded(s0: State, s: State, key: Key, pod: Pod) returns (s': State)
    requires On(s0, s, OfKey(key)) && key in s.calls && s.calls[key] == CheckStranded(pod)
    requires key in s.mem.claims && key in s.mem.tentative
    ensures On(s0, s', OfKey(key)) && key !in s'.calls && s'.mem == s.mem && s'.disk == s.disk
    ensures var c := s.mem.claims[key];
            && Releases(s'.w.log) == Releases(s.w.log) + [C.Released(c.id, c.token, false)]
            && Pushes(s'.w.log) == Pushes(s.w.log)
  {
    var c := s.mem.claims[key];
    var s1 := Goto(s, key, ReturnStranded(pod, c));
    Advances(s0, s, key, Go, s1);
    s' := ReleaseFails(s0, s1, key, c, WithdrawStranded(pod, c));
  }

  lemma IsGranted(s0: State, s: State, key: Key, pod: Pod, g: Grant, now: Time) returns (s': State)
    requires On(s0, s, OfKey(key)) && key in s.calls && s.calls[key] == Claiming(pod)
    requires g.id !in s.w.refs && O.WellFormed(pod)
    ensures On(s0, s', OfKey(key))
    ensures s' == s.(calls := s.calls[key := Installing(pod, FreshClaim(pod, g, now))], w := s'.w, life := s'.life)
    ensures s'.w.log == s.w.log + [Taken(FreshClaim(pod, g, now), pod)]
  {
    var c := FreshClaim(pod, g, now);
    var w := Issued(s.w, c.id, key.Text());
    s' := Goto(s, key, Installing(pod, c)).(
            w := w.(own := w.own + {c.id}, book := w.book[c.id := Fixed(c.token, c.claimedAt)],
                    log := w.log + [Taken(c, pod)]),
            life := s.life.(home := s.life.home[c.id := key]));
    assert ClaimStep(s, s', key, pod, c);
    Advances(s0, s, key, Granted(g, now), s');
  }

  /** The node grants a sandbox, and its claim is in the table. */
  lemma Installs(s0: State, s: State, key: Key, pod: Pod, g: Grant, now: Time) returns (s': State)
    requires On(s0, s, OfKey(key)) && key in s.calls && s.calls[key] == Claiming(pod)
    requires g.id !in s.w.refs && O.WellFormed(pod)
    ensures On(s0, s', OfKey(key)) && s'.writer == s.writer && s'.disk == s.disk
    ensures key in s'.calls && s'.calls[key] == Committing(pod, FreshClaim(pod, g, now))
    ensures s'.mem == Install(s.mem, key, pod, FreshClaim(pod, g, now))
    ensures Releases(s'.w.log) == Releases(s.w.log) && Pushes(s'.w.log) == Pushes(s.w.log)
  {
    var c := FreshClaim(pod, g, now);
    var s1 := IsGranted(s0, s, key, pod, g, now);
    Unseen(s.w.log, Taken(c, pod));
    s' := Goto(s1, key, Committing(pod, c)).(mem := Install(s1.mem, key, pod, c),
                                             w := s1.w.(seen := s1.w.seen + {c.id}));
    Advances(s0, s1, key, Go, s');
  }

  /** The write of the claim lands and Running is pushed. */
  lemma WriteLands(s0: State, s: State, key: Key, pod: Pod, c: Claim) returns (s': State)
    requires On(s0, s, OfKey(key)) && s.writer.None? && key in s.calls && s.calls[key] == Committing(pod, c)
    ensures On(s0, s', OfKey(key)) && key !in s'.calls
    ensures s'.mem == ClearMarker(s.mem, key) && s'.disk == Snapshot(s.mem, Some(key))
    ensures Releases(s'.w.log) == Releases(s.w.log)
    ensures Pushes(s'.w.log) == Pushes(s.w.log) + [C.Published(pod.(claimId := Some(c.id)), C.Running, c.claimedAt)]
  {
    var s1 := Writes(s0, s, key, Some(key), true);
    var s2 := Goto(s1, key, PushRunning(pod, c)).(writer := None, mem := ClearMarker(s1.mem, key));
    Unlocks(s0, s1, key, true, s2);
    s' := Publishes(s0, s2, key, pod, c);
  }

  /** The write fails. */
  lemma WriteFails(s0: State, s: State, key: Key, pod: Pod, c: Claim) returns (s': State)
    requires On(s0, s, OfKey(key)) && s.writer.None? && key in s.calls && s.calls[key] == Committing(pod, c)
    ensures On(s0, s', OfKey(key)) && key in s'.calls && s'.calls[key] == Undoing(pod, c) && ViewOf(s') == ViewOf(s)
  {
    var s1 := Writes(s0, s, key, Some(key), false);
    s' := Goto(s1, key, Undoing(pod, c)).(writer := None, w := Failed(s1.w, c.id));
    Unseen(s1.w.log, PersistFailed(c.id));
    Unlocks(s0, s1, key, false, s');
  }

  /** The claim is undone, or stranded when that fails too. */
  lemma Undoes(s0: State, s: State, key: Key, pod: Pod, c: Claim, undone: bool) returns (s': State)
    requires On(s0, s, OfKey(key)) && key in s.calls && s.calls[key] == Undoing(pod, c)
    ensures On(s0, s', OfKey(key)) && key !in s'.calls && s'.disk == s.disk
    ensures s'.mem == if undone then Withdraw(s.mem, key, c.id) else s.mem
    ensures Releases(s'.w.log) == Releases(s.w.log) + [C.Released(c.id, c.token, undone)]
    ensures Pushes(s'.w.log) == Pushes(s.w.log)
  {
    if !undone {
      s' := ReleaseFails(s0, s, key, c, WithdrawUndone(pod, c));
      return;
    }
    var s1 := ReleaseSucceeds(s0, s, key, c, WithdrawUndone(pod, c));
    s' := Return(s1, key).(mem := Withdraw(s1.mem, key, c.id));
    Advances(s0, s1, key, Go, s');
  }

  // --------------------------------------------------------------- a create as a whole

  /** What the second half of a create leaves, by the slot it finds. */
  ghost predicate Left(s: State, s': State, key: Key, pod: Pod, a: C.Answers) {
    var slot := O.SlotAt(s.mem, key);
    && O.Elsewhere(s.mem, s'.mem, key) && O.SlotAt(s'.mem, key) == O.Left(slot, pod, a)
    && O.Serves(ViewOf(s), ViewOf(s'), slot, pod, a)
  }

  /** The key is free and the call about to claim. */
  ghost predicate Free(s: State, key: Key, pod: Pod, a: C.Answers) {
    && s.writer.None? && key in s.calls && s.calls[key] == Claiming(pod)
    && key !in s.mem.claims && key !in s.mem.quarantined && key !in s.mem.tentative
    && (a.grant.Some? ==> a.grant.value.id !in s.w.refs)
  }

  lemma ClaimLands(s0: State, s: State, key: Key, pod: Pod, a: C.Answers) returns (s': State)
    requires On(s0, s, OfKey(key)) && Free(s, key, pod, a) && O.WellFormed(pod) && a.grant.Some? && a.committed
    ensures On(s0, s', OfKey(key)) && key !in s'.calls && Left(s, s', key, pod, a)
  {
    var s1 := Installs(s0, s, key, pod, a.grant.value, a.now);
    s' := WriteLands(s0, s1, key, pod, FreshClaim(pod, a.grant.value, a.now));
    Slots.ServedByGrant(ViewOf(s), ViewOf(s'), key, pod, a);
  }

  lemma ClaimIsUndone(s0: State, s: State, key: Key, pod: Pod, a: C.Answers) returns (s': State)
    requires On(s0, s, OfKey(key)) && Free(s, key, pod, a) && O.WellFormed(pod) && a.grant.Some? && !a.committed
    ensures On(s0, s', OfKey(key)) && key !in s'.calls && Left(s, s', key, pod, a)
  {
    var c := FreshClaim(pod, a.grant.value, a.now);
    var s1 := Installs(s0, s, key, pod, a.grant.value, a.now);
    var s2 := WriteFails(s0, s1, key, pod, c);
    s' := Undoes(s0, s2, key, pod, c, a.undone);
    Slots.ServedByGrant(ViewOf(s), ViewOf(s'), key, pod, a);
  }

  /** The node is asked: the grant is written, undone or stranded, or there is none. */
  lemma ClaimsServe(s0: State, s: State, key: Key, pod: Pod, a: C.Answers) returns (s': State)
    requires On(s0, s, OfKey(key)) && Free(s, key, pod, a)
    ensures On(s0, s', OfKey(key)) && key !in s'.calls && Left(s, s', key, pod, a)
  {
    if !O.WellFormed(pod) || a.grant.None? {
      s' := Return(s, key);
      Advances(s0, s, key, Fails, s');
    } else if a.committed {
      s' := ClaimLands(s0, s, key, pod, a);
    } else {
      s' := ClaimIsUndone(s0, s, key, pod, a);
    }
  }

  lemma ReturnsThenClaims(s0: State, s: State, key: Key, pod: Pod, a: C.Answers) returns (s': State)
    requires On(s0, s, OfKey(key)) && Quiet(s0, s) && key in s.calls && s.calls[key] == CheckStranded(pod)
    requires key in s.mem.claims && key in s.mem.tentative && a.returned
    requires a.grant.Some? ==> a.grant.value.id !in s.w.refs
    ensures On(s0, s', OfKey(key)) && key !in s'.calls && Left(s, s', key, pod, a)
  {
    Slots.WithdrawSlots(s.mem, key);
    var s1 := ReturnsStranded(s0, s, key, pod);
    s' := ClaimsServe(s0, s1, key, pod, a);
    Slots.ServedAfterReturn(ViewOf(s), ViewOf(s1), ViewOf(s'), O.SlotAt(s.mem, key), pod, a);
  }

  lemma ClearsThenClaims(s0: State, s: State, key: Key, pod: Pod, a: C.Answers) returns (s': State)
    requires On(s0, s, OfKey(key)) && Quiet(s0, s) && key in s.calls && s.calls[key] == CheckStranded(pod)
    requires key in s.mem.claims ==> key in s.mem.tentative
    requires a.grant.Some? ==> a.grant.value.id !in s.w.refs
    ensures On(s0, s', OfKey(key)) && key !in s'.calls && Left(s, s', key, pod, a)
  {
    Sounds(s);
    if key !in s.mem.claims {
      var s1 := Goto(s, key, Claiming(pod));
      Advances(s0, s, key, Go, s1);
      s' := ClaimsServe(s0, s1, key, pod, a);
    } else if a.returned {
      s' := ReturnsThenClaims(s0, s, key, pod, a);
    } else {
      s' := StaysStranded(s0, s, key, pod);
    }
  }

  lemma Serves(s0: State, s: State, key: Key, pod: Pod, a: C.Answers) returns (s': State)
    requires On(s0, s, OfKey(key)) && Quiet(s0, s) && key in s.calls && s.calls[key] == Adopting(pod)
    requires key !in s.mem.quarantined && (a.grant.Some? ==> a.grant.value.id !in s.w.refs)
    ensures On(s0, s', OfKey(key)) && key !in s'.calls && Left(s, s', key, pod, a)
  {
    var slot := O.SlotAt(s.mem, key);
    if O.Takes(slot, pod) {
      s' := Adopts(s0, s, key, pod, a);
    } else {
      Sounds(s);
      Slots.AdoptSlots(s.mem, key, pod);
      var s1 := PassesOn(s0, s, key, pod);
      s' := ClearsThenClaims(s0, s1, key, pod, a);
      Slots.ServedAfterRefusal(ViewOf(s), ViewOf(s1), ViewOf(s'), slot, pod, a);
    }
  }

  /** The first half: the key is verified and unexpired, or the call returns. */
  lemma Settles(s0: State, s: State, key: Key, pod: Pod, a: C.Answers) returns (s': State)
    requires On(s0, s, OfKey(key)) && Quiet(s0, s) && FromNode(s0, a)
    requires key in s.calls && s.calls[key] == CheckUnverified(pod)
    ensures On(s0, s', OfKey(key)) && Quiet(s0, s') && ViewOf(s') == ViewOf(s).(m := s'.mem)
    ensures key in s'.calls <==> !O.Blocked(O.SlotAt(s.mem, key), a)
    ensures key in s'.calls ==> s'.calls[key] == Adopting(pod) && key !in s'.mem.quarantined
    ensures Slots.KeySettled(s.mem, s'.mem, key, a)
  {
    Sounds(s);
    var s1 := Verifies(s0, s, key, pod, a);
    s' := s1;
    if key in s1.calls {
      s' := Renews(s0, s1, key, pod, a);
    }
    Slots.SettleSlots(s.mem, s1.mem, s'.mem, key, a);
  }

  /**
   A create that the class completes is a run of the machine: from any reachable state,
   and whatever the node and the file system answer, the call's own steps leave what
   `CreatePod` is proved to leave.
   */
  lemma CreateIsARun(s: State, key: Key, pod: Pod, a: C.Answers) returns (s': State)
    requires Reachable(s) && s.proc.Up? && s.writer.None? && key !in s.calls && FromNode(s, a)
    ensures Leads(s, s', OfKey(key)) && key !in s'.calls && O.Creates(ViewOf(s), ViewOf(s'), key, pod, a)
  {
    Stays(s, OfKey(key));
    s' := s;
    if O.RightRuntime(pod) {
      var s1 := Goto(s, key, CheckUnverified(pod));
      assert LifecycleStep(s, StartCreate(key, pod), s1);
      Onward(s, s, StartCreate(key, pod), s1, OfKey(key));
      s' := Creates(s, s1, key, pod, a);
    }
  }

  lemma Creates(s0: State, s: State, key: Key, pod: Pod, a: C.Answers) returns (s': State)
    requires On(s0, s, OfKey(key)) && Quiet(s0, s) && FromNode(s0, a) && O.RightRuntime(pod)
    requires key in s.calls && s.calls[key] == CheckUnverified(pod)
    ensures On(s0, s', OfKey(key)) && key !in s'.calls && O.Creates(ViewOf(s), ViewOf(s'), key, pod, a)
  {
    var s1 := Settles(s0, s, key, pod, a);
    s' := s1;
    if key in s1.calls {
      s' := Serves(s0, s1, key, pod, a);
    }
  }

  // ----------------------------------------------------------------- updates and deletes

  /** The guard lets a current request through and ends a stale one. */
  lemma Guards(s0: State, s: State, key: Key, pod: Pod, next: Call) returns (s': State)
    requires On(s0, s, OfKey(key)) && key in s.calls
    requires || (s.calls[key] == UpdateGuard(pod) && next == UpdateBody(pod))
             || (s.calls[key] == DeleteGuard(pod) && next == DeleteLookup(pod))
    ensures On(s0, s', OfKey(key))
    ensures s' == if O.Stale(O.SlotAt(s.mem, key), pod) then Return(s, key) else Goto(s, key, next)
  {
    s' := if O.Stale(O.SlotAt(s.mem, key), pod) then Return(s, key) else Goto(s, key, next);
    assert GuardStep(s, s', key, pod, next);
    Advances(s0, s, key, Go, s');
  }

  /** An update is a run of the machine. */
  lemma UpdateIsARun(s: State, key: Key, pod: Pod, a: C.Answers) returns (s': State)
    requires Reachable(s) && s.proc.Up? && s.writer.None? && key !in s.calls && FromNode(s, a)
    ensures Leads(s, s', OfKey(key)) && key !in s'.calls && O.Updates(ViewOf(s), ViewOf(s'), key, pod, a)
  {
    Stays(s, OfKey(key));
    var s1 := Goto(s, key, UpdateGuard(pod));
    assert LifecycleStep(s, StartUpdate(key, pod), s1);
    Onward(s, s, StartUpdate(key, pod), s1, OfKey(key));
    s' := Guards(s, s1, key, pod, UpdateBody(pod));
    if !O.Stale(O.SlotAt(s.mem, key), pod) {
      s' := Updates(s, s', key, pod, a);
    }
  }

  lemma Updates(s0: State, s: State, key: Key, pod: Pod, a: C.Answers) returns (s': State)
    requires On(s0, s, OfKey(key)) && Quiet(s0, s) && FromNode(s0, a) && !O.Stale(O.SlotAt(s.mem, key), pod)
    requires key in s.calls && s.calls[key] == UpdateBody(pod)
    ensures On(s0, s', OfKey(key)) && key !in s'.calls && O.Updates(ViewOf(s), ViewOf(s'), key, pod, a)
  {
    if key !in s.mem.tentative {
      s' := Return(s, key).(mem := Track(s.mem, key, pod));
      Advances(s0, s, key, Go, s');
    } else if !O.RightRuntime(pod) {
      s' := Return(s, key);
      Advances(s0, s, key, Go, s');
    } else {
      var s1 := Goto(s, key, CheckUnverified(pod));
      Advances(s0, s, key, Go, s1);
      s' := Creates(s0, s1, key, pod, a);
    }
  }

  /** A delete is a run of the machine. */
  lemma DeleteIsARun(s: State, key: Key, pod: Pod, read: OwnerRead, releaseOk: bool, saved: bool) returns (s': State)
    requires Reachable(s) && s.proc.Up? && s.writer.None? && key !in s.calls
    ensures Leads(s, s', OfKey(key)) && key !in s'.calls
    ensures O.DeletesPod(ViewOf(s), ViewOf(s'), key, pod, read, releaseOk, saved)
  {
    Stays(s, OfKey(key));
    var s1 := Goto(s, key, DeleteGuard(pod));
    assert LifecycleStep(s, StartDelete(key, pod), s1);
    Onward(s, s, StartDelete(key, pod), s1, OfKey(key));
    s' := Guards(s, s1, key, pod, DeleteLookup(pod));
    if !O.Stale(O.SlotAt(s.mem, key), pod) {
      s' := Deletes(s, s', key, pod, read, releaseOk, saved);
    }
  }

  lemma Deletes(s0: State, s: State, key: Key, pod: Pod, read: OwnerRead, releaseOk: bool, saved: bool)
    returns (s': State)
    requires On(s0, s, OfKey(key)) && s.writer.None? && !O.Stale(O.SlotAt(s.mem, key), pod)
    requires key in s.calls && s.calls[key] == DeleteLookup(pod)
    ensures On(s0, s', OfKey(key)) && key !in s'.calls
    ensures O.DeletesPod(ViewOf(s), ViewOf(s'), key, pod, read, releaseOk, saved)
  {
    if key !in s.mem.claims {
      s' := Forgets(s0, s, key, pod);
      return;
    }
    ReleaseIffOwnerRefuted(pod.controller, read);
    var s1 := ReadsOwner(s0, s, key, pod, read);
    if DestroyAuthorized(pod.controller, read).Release? {
      s' := ReleasesPod(s0, s1, key, pod, s.mem.claims[key], releaseOk, saved);
      Slots.DeletedByRelease(ViewOf(s), ViewOf(s'), key, pod, read, releaseOk, saved);
    } else {
      s' := PreservesPod(s0, s1, key, pod, s.mem.claims[key], saved);
      Slots.DeletedByPreserving(ViewOf(s), ViewOf(s'), key, pod, read, releaseOk, saved);
    }
  }

  lemma Forgets(s0: State, s: State, key: Key, pod: Pod) returns (s': State)
    requires On(s0, s, OfKey(key)) && key in s.calls && s.calls[key] == DeleteLookup(pod) && key !in s.mem.claims
    ensures On(s0, s', OfKey(key)) && key !in s'.calls && ViewOf(s') == ViewOf(s).(m := Forget(s.mem, key))
  {
    var s1 := Goto(s, key, Forgetting);
    Advances(s0, s, key, Go, s1);
    s' := Return(s1, key).(mem := Forget(s1.mem, key));
    Advances(s0, s1, key, Go, s');
  }

  lemma LooksUp(s0: State, s: State, key: Key, pod: Pod) returns (s': State)
    requires On(s0, s, OfKey(key)) && key in s.calls && s.calls[key] == DeleteLookup(pod) && key in s.mem.claims
    ensures On(s0, s', OfKey(key)) && s' == Goto(s, key, ReadOwner(pod, s.mem.claims[key]))
  {
    s' := Goto(s, key, ReadOwner(pod, s.mem.claims[key]));
    Advances(s0, s, key, Go, s');
  }

  lemma ReadsOwner(s0: State, s: State, key: Key, pod: Pod, read: OwnerRead) returns (s': State)
    requires On(s0, s, OfKey(key)) && key in s.calls && s.calls[key] == DeleteLookup(pod) && key in s.mem.claims
    ensures On(s0, s', OfKey(key)) && s'.writer == s.writer && key in s'.calls && ViewOf(s') == ViewOf(s)
    ensures var c := s.mem.claims[key];
            s'.calls[key] ==
            if DestroyAuthorized(pod.controller, read).Release? then Releasing(pod, c) else Preserving(pod, c)
  {
    var c := s.mem.claims[key];
    var s1 := LooksUp(s0, s, key, pod);
    Unseen(s1.w.log, DeleteJudged(c.id, pod, read));
    var next := if DestroyAuthorized(pod.controller, read).Release? then Releasing(pod, c) else Preserving(pod, c);
    s' := JudgesOwner(s0, s1, key, pod, c, read, next);
  }

  lemma JudgesOwner(s0: State, s: State, key: Key, pod: Pod, c: Claim, read: OwnerRead, next: Call) returns (s': State)
    requires On(s0, s, OfKey(key)) && key in s.calls && s.calls[key] == ReadOwner(pod, c)
    requires next == if DestroyAuthorized(pod.controller, read).Release? then Releasing(pod, c) else Preserving(pod, c)
    ensures On(s0, s', OfKey(key)) && s' == Goto(s, key, next).(w := Logged(s.w, DeleteJudged(c.id, pod, read)))
  {
    s' := Goto(s, key, next).(w := Logged(s.w, DeleteJudged(c.id, pod, read)));
    assert ReadOwnerStep(s, s', key, pod, c, read);
    Advances(s0, s, key, Owner(read), s');
  }

  lemma PreservesPod(s0: State, s: State, key: Key, pod: Pod, c: Claim, saved: bool) returns (s': State)
    requires On(s0, s, OfKey(key)) && s.writer.None? && key in s.calls && s.calls[key] == Preserving(pod, c)
    requires pod.controller.Some? && s.mem.Row(key, c.id)
    ensures On(s0, s', OfKey(key)) && key !in s'.calls
    ensures s'.mem == PreserveRow(s.mem, key, c.id, pod.controller) && O.Wrote(s.disk, s'.disk, s'.mem, saved)
    ensures O.SlotAt(s'.mem, key) == O.SlotAt(s.mem, key).(pod := None,
                                                           row := Some(s.mem.claims[key].(owner := pod.controller)))
    ensures O.Elsewhere(s.mem, s'.mem, key)
    ensures Releases(s'.w.log) == Releases(s.w.log) && Pushes(s'.w.log) == Pushes(s.w.log)
  {
    var e := OwnerRecorded(c.id, pod.controller.value);
    Unseen(s.w.log, e);
    var s1 := Goto(s, key, Saving).(mem := PreserveRow(s.mem, key, c.id, pod.controller), w := Logged(s.w, e));
    assert PreserveStep(s, s1, key, pod, c);
    Advances(s0, s, key, Go, s1);
    Slots.PreserveSlots(s.mem, key, pod.controller);
    s' := SavesLog(s0, s1, key, saved);
  }

  lemma ReleasesPod(s0: State, s: State, key: Key, pod: Pod, c: Claim, ok: bool, saved: bool) returns (s': State)
    requires On(s0, s, OfKey(key)) && s.writer.None? && key in s.calls && s.calls[key] == Releasing(pod, c)
    requires key in s.mem.claims && s.mem.claims[key] == c
    ensures On(s0, s', OfKey(key)) && key !in s'.calls && O.Wrote(s.disk, s'.disk, s'.mem, ok && saved)
    ensures if ok then O.SlotAt(s'.mem, key) == O.EMPTY && O.Elsewhere(s.mem, s'.mem, key)
                && s'.mem.releasing == s.mem.releasing else s'.mem == s.mem
    ensures Releases(s'.w.log) == Releases(s.w.log) + [C.Released(c.id, c.token, ok)]
    ensures Pushes(s'.w.log) == Pushes(s.w.log)
  {
    if !ok {
      s' := ReleaseFails(s0, s, key, c, WithdrawReleased(pod, c));
      return;
    }
    var s1 := ReleaseSucceeds(s0, s, key, c, WithdrawReleased(pod, c));
    s' := ForgetsReleased(s0, s1, key, pod, c, saved);
    Slots.WithdrawSlots(s.mem, key);
  }

  lemma ForgetsReleased(s0: State, s: State, key: Key, pod: Pod, c: Claim, saved: bool) returns (s': State)
    requires On(s0, s, OfKey(key)) && s.writer.None? && key in s.calls && s.calls[key] == WithdrawReleased(pod, c)
    ensures On(s0, s', OfKey(key)) && key !in s'.calls && s'.mem == Withdraw(s.mem, key, c.id)
    ensures O.Wrote(s.disk, s'.disk, s'.mem, saved) && s'.w.log == s.w.log
  {
    var s1 := Goto(s, key, Saving).(mem := Withdraw(s.mem, key, c.id));
    Advances(s0, s, key, Go, s1);
    s' := SavesLog(s0, s1, key, saved);
  }
}
