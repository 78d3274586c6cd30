/**
 The node on its own, status reads, the verification loop, the lease watch and
 the owner re-check keep the invariant.
 */
module ThreadSteps {
  import opened Types
  import opened Ownership
  import opened Sections
  import opened Machine
  import opened Invariant
  import opened Stability
  import opened Frames
  import opened CallSteps
  import opened ClaimSteps

  // -------------------------------------------------------------- generic steps

  /** A step of no call: rows go only when their sandbox is gone, releases are of queued claims. */
  ghost predicate Background(s: State, s': State) {
    && s' == s.(mem := s'.mem, verifier := s'.verifier, lease := s'.lease, recheck := s'.recheck, w := s'.w,
        life := s'.life)
    && (s.recheck.RSave? ==> s'.recheck == s.recheck)
    && (s.proc.Down? ==> s' == s.(w := s'.w))
    && (s.proc.Booting? ==> s'.lease == s.lease && s'.recheck == s.recheck)
    && TableShrinks(s, s') && HistoryFollows(s, s') && s'.life.home == s.life.home
    && s'.mem.pods == s.mem.pods && s'.w.seen == s.w.seen
    && (forall k :: k in s.mem.claims && k !in s'.mem.claims ==>
          k !in s.mem.tentative && s.mem.claims[k].id in s'.w.gone && s.mem.claims[k].id in s.life.loaded)
    && (forall id :: id in s'.w.released && id !in s.w.released ==> id in s.life.queued)
  }

  lemma BackgroundShrinks(s: State, s': State)
    requires LifeOk(s) && Background(s, s')
    ensures Shrinks(s, s')
  {
  }

  lemma BackgroundRely(s: State, s': State)
    requires Markers(s.mem) && Background(s, s')
    ensures Rely(s, s')
    ensures forall k :: KeyStays(s, s', k)
  {
    forall k
      ensures KeyStays(s, s', k)
    {
    }
  }

  lemma BackgroundInv(s: State, s': State)
    requires Inv(s) && Background(s, s')
    ensures Core(s') && CallsOk(s')
    ensures VerifierOk(s', s.verifier) && LeaseOk(s', s.lease) && RecheckOk(s', s.recheck)
  {
    Parts(s);
    BackgroundShrinks(s, s');
    CoreShrinks(s, s');
    BackgroundRely(s, s');
    AllStable(s, s');
  }

  /** What the threads knew carries over to what they do next. */
  ghost predicate ThreadsFollow(s: State, s': State) {
    VerifierOk(s', s.verifier) && LeaseOk(s', s.lease) && RecheckOk(s', s.recheck) ==> ThreadsOk(s')
  }

  lemma BackgroundWhole(s: State, s': State)
    requires Inv(s) && Background(s, s') && ThreadsFollow(s, s')
    ensures Inv(s')
  {
    BackgroundInv(s, s');
    Whole(s');
  }

  /** Only what a thread is about to do changes. */
  lemma ThreadMoves(s: State, s': State)
    requires Inv(s) && s.proc.Up?
    requires s' == s.(verifier := s'.verifier, lease := s'.lease, recheck := s'.recheck)
    requires s.recheck.RSave? ==> s'.recheck == s.recheck
    requires VerifierOk(s, s'.verifier) && LeaseOk(s, s'.lease) && RecheckOk(s, s'.recheck)
    ensures Inv(s')
  {
    Parts(s);
    QuietHistory(s, s');
    SameTableShrinks(s, s');
    BackgroundInv(s, s');
    SameRecheck(s, s', s'.recheck);
    Whole(s');
  }

  lemma SameRecheck(s: State, s': State, r: Recheck)
    requires RecheckOk(s, r) && s'.mem == s.mem && s'.w == s.w && s'.life == s.life
    ensures RecheckOk(s', r)
  {
  }

  /** One more event in the history, and whatever the threads do next. */
  lemma LoggedCore(s: State, s': State, e: Event)
    requires Inv(s) && s.proc.Up?
    requires s' == s.(lease := s'.lease, recheck := s'.recheck, w := Logged(s.w, e))
    requires s.recheck.RSave? ==> s'.recheck == s.recheck
    requires EventOk(s.w.genesis, s.w.log, e) && EntryOk(s.w, e)
    ensures Core(s') && CallsOk(s')
    ensures VerifierOk(s', s.verifier) && LeaseOk(s', s.lease) && RecheckOk(s', s.recheck)
  {
    LoggedBackground(s, s', e);
    BackgroundInv(s, s');
  }

  lemma LoggedBackground(s: State, s': State, e: Event)
    requires Inv(s) && s.proc.Up?
    requires s' == s.(lease := s'.lease, recheck := s'.recheck, w := Logged(s.w, e))
    requires s.recheck.RSave? ==> s'.recheck == s.recheck
    requires EventOk(s.w.genesis, s.w.log, e) && EntryOk(s.w, e)
    ensures Background(s, s')
  {
    Parts(s);
    WorldLogged(s.w, e);
    SameTableShrinks(s, s');
  }

  // ------------------------------------------------------------------- the node

  lemma ReapInv(s: State, s': State, id: SandboxId)
    requires Inv(s) && ReapStep(s, s', id)
    ensures Inv(s')
  {
    Parts(s);
    ReapHistory(s, s', id);
    SameTableShrinks(s, s');
    BackgroundInv(s, s');
  }

  lemma ReapHistory(s: State, s': State, id: SandboxId)
    requires WorldOk(s.w) && s.life.vouched !! s.life.spent && ReapStep(s, s', id)
    ensures HistoryFollows(s, s')
  {
  }

  lemma ClaimElsewhereInv(s: State, s': State, id: SandboxId, ref: string)
    requires Inv(s) && ClaimElsewhereStep(s, s', id, ref)
    ensures Inv(s')
  {
    Parts(s);
    ElsewhereHistory(s, s', id, ref);
    SameTableShrinks(s, s');
    BackgroundInv(s, s');
  }

  lemma ElsewhereHistory(s: State, s': State, id: SandboxId, ref: string)
    requires WorldOk(s.w) && s.life.vouched !! s.life.spent && ClaimElsewhereStep(s, s', id, ref)
    ensures HistoryFollows(s, s')
  {
  }

  lemma ReadStatusInv(s: State, s': State, key: Key, now: Time)
    requires Inv(s) && ReadStatusStep(s, s', key, now)
    ensures Inv(s')
  {
    Parts(s);
    var c := s.mem.claims[key];
    LoggedCore(s, s', Status(key, s.mem.pods[key], c.id, false, !c.Expired(now), c.claimedAt));
  }

  // ---------------------------------------------------------- verification loop

  lemma VerifyBeginInv(s: State, s': State)
    requires Inv(s) && VerifyBeginStep(s, s')
    ensures Inv(s')
  {
    Parts(s);
    UnverifiedOk(s);
    ThreadMoves(s, s');
  }

  lemma VerifyListedInv(s: State, s': State, live: Listing)
    requires Inv(s) && VerifyListedStep(s, s', live)
    ensures Inv(s')
  {
    Parts(s);
    var before := s.verifier.before;
    ListingFollows(s, s', before, live);
    VouchedShrinks(s, s');
    BackgroundInv(s, s');
  }

  lemma VouchedShrinks(s: State, s': State)
    requires Content(s.mem.claims, s.mem.releasing, s.w) && Markers(s.mem)
    requires WorldGrows(s.w, s'.w) && s'.mem == s.mem
    ensures TableShrinks(s, s')
  {
    TracedStays(s, s');
  }

  lemma VerifyFailsInv(s: State, s': State)
    requires Inv(s) && VerifyFailsStep(s, s')
    ensures Inv(s')
  {
    Parts(s);
    QuietHistory(s, s');
    SameTableShrinks(s, s');
    BackgroundInv(s, s');
  }

  lemma VerifyJudgeInv(s: State, s': State)
    requires Inv(s) && VerifyJudgeStep(s, s')
    ensures Inv(s')
  {
    Parts(s);
    CommitsTentative(s);
    VerifyShrinks(s, s', s.verifier.before, s.verifier.live);
    QuietHistory(s, s');
    BackgroundInv(s, s');
  }

  // ---------------------------------------------------------------- lease watch

  lemma LeaseBeginInv(s: State, s': State, now: Time)
    requires Inv(s) && LeaseBeginStep(s, s', now)
    ensures Inv(s')
  {
    Parts(s);
    ThreadMoves(s, s');
  }

  lemma LeaseListedInv(s: State, s': State, live: Listing)
    requires Inv(s) && LeaseListedStep(s, s', live)
    ensures Inv(s')
  {
    Parts(s);
    ObservedFollows(s, s', TableIds(s.lease.candidates), live);
    SameTableShrinks(s, s');
    BackgroundInv(s, s');
  }

  lemma LeaseFailsInv(s: State, s': State)
    requires Inv(s) && LeaseFailsStep(s, s')
    ensures Inv(s')
  {
    Parts(s);
    ThreadMoves(s, s');
  }

  lemma RefreshShrinks(s: State, s': State, key: Key, id: SandboxId, deadline: Option<Time>)
    requires Content(s.mem.claims, s.mem.releasing, s.w) && Markers(s.mem)
    requires s'.mem == Refresh(s.mem, key, id, deadline) && s'.w == s.w && s'.life == s.life
    ensures TableShrinks(s, s') && s'.mem.pods == s.mem.pods && s'.mem.claims.Keys == s.mem.claims.Keys
  {
    RefreshAt(s.mem, key, id, deadline);
    if key in s.mem.claims {
      TracedSame(s.w.genesis, s.w.log, s.mem.claims[key], s'.mem.claims[key]);
    }
  }

  lemma LeaseRefreshInv(s: State, s': State, key: Key)
    requires Inv(s) && LeaseJudgeStep(s, s', key) && s.lease.candidates[key].id in s.lease.live
    ensures Inv(s')
  {
    LeaseRefreshBackground(s, s', key);
    BackgroundWhole(s, s');
  }

  lemma LeaseRefreshBackground(s: State, s': State, key: Key)
    requires Inv(s) && LeaseJudgeStep(s, s', key) && s.lease.candidates[key].id in s.lease.live
    ensures Background(s, s')
  {
    Parts(s);
    var c := s.lease.candidates[key];
    QuietHistory(s, s');
    RefreshShrinks(s, s', key, c.id, s.lease.live[c.id]);
  }

  lemma LeasePushInv(s: State, s': State, key: Key)
    requires Inv(s) && LeaseJudgeStep(s, s', key) && s.lease.candidates[key].id !in s.lease.live
    requires key in s.mem.pods && s.mem.Row(key, s.lease.candidates[key].id)
    ensures Inv(s')
  {
    LeaseMeansUp(s);
    var c := s.lease.candidates[key];
    LeaseEntry(s, key);
    LoggedBackground(s, s', Status(key, s.mem.pods[key], c.id, true, false, c.claimedAt));
    BackgroundWhole(s, s');
  }

  lemma LeaseMeansUp(s: State)
    requires Inv(s) && !s.lease.LIdle?
    ensures s.proc.Up?
  {
    Parts(s);
  }

  lemma LeaseEntry(s: State, key: Key)
    requires Inv(s) && s.lease.LJudge? && key in s.lease.candidates
    requires s.lease.candidates[key].id !in s.lease.live && key in s.mem.pods
    ensures var c := s.lease.candidates[key]; EntryOk(s.w, Status(key, s.mem.pods[key], c.id, true, false, c.claimedAt))
  {
    Parts(s);
    assert s.lease.candidates[key].id in TableIds(s.lease.candidates);
  }

  lemma LeasePassInv(s: State, s': State, key: Key)
    requires Inv(s) && LeaseJudgeStep(s, s', key) && s.lease.candidates[key].id !in s.lease.live
    requires !(key in s.mem.pods && s.mem.Row(key, s.lease.candidates[key].id))
    ensures Inv(s')
  {
    Parts(s);
    ThreadMoves(s, s');
  }

  lemma LeaseJudgeInv(s: State, s': State, key: Key)
    requires Inv(s) && LeaseJudgeStep(s, s', key)
    ensures Inv(s')
  {
    var c := s.lease.candidates[key];
    if c.id in s.lease.live {
      LeaseRefreshInv(s, s', key);
    } else if key in s.mem.pods && s.mem.Row(key, c.id) {
      LeasePushInv(s, s', key);
    } else {
      LeasePassInv(s, s', key);
    }
  }

  lemma LeaseEndInv(s: State, s': State)
    requires Inv(s) && LeaseEndStep(s, s')
    ensures Inv(s')
  {
    Parts(s);
    ThreadMoves(s, s');
  }

  // -------------------------------------------------------------- owner re-check

  lemma RecheckBeginInv(s: State, s': State)
    requires Inv(s) && RecheckBeginStep(s, s')
    ensures Inv(s')
  {
    Parts(s);
    ThreadMoves(s, s');
  }

  lemma RecheckSkipInv(s: State, s': State, key: Key)
    requires Inv(s) && RecheckSkipStep(s, s', key)
    ensures Inv(s')
  {
    Parts(s);
    ThreadMoves(s, s');
  }

  lemma RecheckAskInv(s: State, s': State, key: Key, read: OwnerRead)
    requires Inv(s) && RecheckAskStep(s, s', key, read)
    ensures Inv(s')
  {
    Parts(s);
    var c := s.recheck.todo[key];
    var e := RecheckJudged(c.id, c.owner, read);
    LoggedCore(s, s', e);
    if DestroyAuthorized(c.owner, read).Release? {
      JudgedWarrants(s.w.genesis, s.w.log, c.id, e);
    }
  }

  lemma WithdrawMoves(s: State, s': State, key: Key, c: Claim)
    requires RecheckOk(s, s.recheck) && WorldOk(s.w)
    requires s.recheck.RWithdraw? && s.recheck.key == key && s.recheck.c == c
    requires RecheckWithdrawStep(s, s') && Withdrawable(s.mem, key, c)
    ensures Moves(s, s', key, c)
  {
  }

  lemma WithdrawThreads(s: State, s': State, key: Key, c: Claim)
    requires LifeOk(s) && CallsOk(s) && ThreadsOk(s) && Markers(s.mem) && Content(s.mem.claims, s.mem.releasing, s.w)
    requires s.recheck.RWithdraw? && s.recheck.key == key && s.recheck.c == c
    requires RecheckWithdrawStep(s, s') && Withdrawable(s.mem, key, c) && Moves(s, s', key, c)
    ensures CallsOk(s') && ThreadsOk(s')
  {
    MovesRely(s, s', key, c);
    forall k | k in s.calls
      ensures KeyStays(s, s', k)
    {
      MovesKeyStays(s, s', key, c, k);
    }
    AllStable(s, s');
  }

  lemma RecheckWithdrawInv(s: State, s': State)
    requires Inv(s) && RecheckWithdrawStep(s, s')
    ensures Inv(s')
  {
    Parts(s);
    var key, c := s.recheck.key, s.recheck.c;
    if Withdrawable(s.mem, key, c) {
      WithdrawMoves(s, s', key, c);
      MovesCore(s, s', key, c);
      WithdrawThreads(s, s', key, c);
    } else {
      ThreadMoves(s, s');
    }
  }

  lemma DrainBeginInv(s: State, s': State)
    requires Inv(s) && DrainBeginStep(s, s')
    ensures Inv(s')
  {
    Parts(s);
    ThreadMoves(s, s');
  }

  lemma DrainReleasedInv(s: State, s': State)
    requires Inv(s) && DrainReleaseStep(s, s', true)
    ensures Inv(s')
  {
    DrainReleasedBackground(s, s');
    assert forall q :: q in s.recheck.queued[1..] ==> q in s.recheck.queued;
    BackgroundWhole(s, s');
  }

  lemma DrainReleasedBackground(s: State, s': State)
    requires Inv(s) && DrainReleaseStep(s, s', true)
    ensures Background(s, s') && s.recheck.queued[0].id in s'.life.queued
  {
    Parts(s);
    var c := s.recheck.queued[0];
    assert c in s.recheck.queued;
    ReleasedHistory(s, s', c);
    SameTableShrinks(s, s');
  }

  lemma DrainFailedInv(s: State, s': State)
    requires Inv(s) && DrainReleaseStep(s, s', false)
    ensures Inv(s')
  {
    Parts(s);
    var c := s.recheck.queued[0];
    assert c in s.recheck.queued && forall q :: q in s.recheck.queued[1..] ==> q in s.recheck.queued;
    LoggedCore(s, s', ReleaseCalled(c.id, c.token, false));
  }

  lemma DrainReleaseInv(s: State, s': State, ok: bool)
    requires Inv(s) && DrainReleaseStep(s, s', ok)
    ensures Inv(s')
  {
    if ok { DrainReleasedInv(s, s'); } else { DrainFailedInv(s, s'); }
  }

  lemma DequeueShrinks(s: State, s': State, id: SandboxId)
    requires Content(s.mem.claims, s.mem.releasing, s.w) && Markers(s.mem) && id in s.w.released
    requires s'.mem == Dequeue(s.mem, id) && s'.w == s.w && s'.life == s.life
    ensures TableShrinks(s, s') && s'.mem.pods == s.mem.pods
  {
    WithoutElements(s.mem.releasing, id);
    WithoutDistinct(s.mem.releasing, id);
  }

  lemma DrainRemoveInv(s: State, s': State)
    requires Inv(s) && DrainRemoveStep(s, s')
    ensures Inv(s')
  {
    DrainRemoveBackground(s, s');
    BackgroundWhole(s, s');
  }

  lemma DrainRemoveBackground(s: State, s': State)
    requires Inv(s) && DrainRemoveStep(s, s')
    ensures Background(s, s')
  {
    Parts(s);
    QuietHistory(s, s');
    DequeueShrinks(s, s', s.recheck.c.id);
  }

  lemma DrainEndInv(s: State, s': State)
    requires Inv(s) && DrainEndStep(s, s')
    ensures Inv(s')
  {
    Parts(s);
    ThreadMoves(s, s');
  }
}
