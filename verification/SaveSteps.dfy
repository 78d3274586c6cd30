/**
 Writing the state file keeps the invariant, with the snapshot, the rename and
 the release of `saveMu` interleaved with everything else.
 */
module SaveSteps {
  import opened Types
  import opened Sections
  import opened Machine
  import opened Invariant
  import opened Stability
  import opened Frames
  import opened CallSteps

  /** A step that leaves the tables and one lifetime's history alone, and whatever threads remember. */
  lemma SameThreads(s: State, s': State)
    requires LifeOk(s) && CallsOk(s) && ThreadsOk(s) && Markers(s.mem)
    requires s'.mem == s.mem && s'.life == s.life && WorldGrows(s.w, s'.w)
    requires s'.w.seen == s.w.seen && s'.w.released == s.w.released && s'.w.undone == s.w.undone
    requires s'.calls == s.calls
    ensures CallsOk(s') && VerifierOk(s', s.verifier) && LeaseOk(s', s.lease) && RecheckOk(s', s.recheck)
  {
    SameTableRely(s, s');
    forall k | k in s.calls
      ensures KeyStays(s, s', k)
    {
    }
    AllStable(s, s');
  }

  // ------------------------------------------------------------------- snapshot

  lemma SnapshotContent(m: Mem, committing: Option<Key>, w: World)
    requires Content(m.claims, m.releasing, w)
    ensures var file := Snapshot(m, committing); Content(file.claims, file.releasing, w)
  {
  }

  lemma SnapshotCovers(m: Mem, committing: Option<Key>, w: World)
    requires Content(m.claims, m.releasing, w)
    ensures var file := Snapshot(m, committing);
            && Covers(file, m)
            && (forall k :: k in m.tentative && k in m.claims && m.claims[k].id in Ids(file.claims, file.releasing) ==>
                  committing == Some(k))
  {
    var file := Snapshot(m, committing);
    forall k | k in m.claims && k !in m.tentative
      ensures m.claims[k].id in Ids(file.claims, file.releasing)
    {
      assert k in file.claims && file.claims[k] == m.claims[k];
    }
  }

  /**
   No claim whose write failed is in a snapshot: its rows are durable, or about to be
   committed for the first time.
   */
  lemma SnapshotFresh(s: State, saver: Saver)
    requires Covers(s.disk, s.mem) && ProcOk(s) && WorldOk(s.w) && CallsOk(s)
    requires saver.ByCall? ==> saver.key in s.calls
    ensures var committing := if saver.ByCall? && s.calls[saver.key].Committing? then Some(saver.key) else None;
            var file := Snapshot(s.mem, committing);
            && Ids(file.claims, file.releasing) !! s.w.undone
            && forall id :: id in Ids(file.claims, file.releasing) ==>
                 id in s.w.durable || (committing.Some? && s.mem.Row(committing.value, id))
  {
    var committing := if saver.ByCall? && s.calls[saver.key].Committing? then Some(saver.key) else None;
    var file := Snapshot(s.mem, committing);
    if committing.Some? {
      CallKnows(s, saver.key);
    }
    forall id | id in Ids(file.claims, file.releasing)
      ensures id !in s.w.undone
      ensures id in s.w.durable || (committing.Some? && s.mem.Row(committing.value, id))
    {
      if id in TableIds(file.claims) {
        var k :| k in file.claims && file.claims[k].id == id;
      }
    }
  }

  lemma SaveBeginWriter(s: State, s': State, saver: Saver)
    requires Content(s.mem.claims, s.mem.releasing, s.w) && Timed(s.mem.claims) && CallsOk(s)
    requires Covers(s.disk, s.mem) && ProcOk(s) && WorldOk(s.w)
    requires s.proc.Up? && SaveBeginStep(s, s', saver)
    ensures WriterOk(s')
  {
    SnapshotFresh(s, saver);
    var committing := s'.writer.value.committing;
    SnapshotContent(s.mem, committing, s.w);
    SnapshotCovers(s.mem, committing, s.w);
    if committing.Some? {
      CallKnows(s, saver.key);
    }
  }

  lemma SaveBeginInv(s: State, s': State, saver: Saver)
    requires Inv(s) && SaveBeginStep(s, s', saver)
    ensures Inv(s')
  {
    Parts(s);
    SaveBeginWriter(s, s', saver);
    SaveBeginCore(s, s', saver);
    SameThreads(s, s');
  }

  lemma SaveBeginCore(s: State, s': State, saver: Saver)
    requires Core(s) && SaveBeginStep(s, s', saver) && WriterOk(s')
    ensures Core(s')
  {
    SaveBeginLife(s, s', saver);
  }

  lemma SaveBeginLife(s: State, s': State, saver: Saver)
    requires LifeOk(s) && DurableOk(s) && SaveBeginStep(s, s', saver)
    ensures LifeOk(s') && DurableOk(s')
  {
    forall id | id in s'.life.home
      ensures Accounted(s', id)
    {
      assert Accounted(s, id);
    }
    forall id | id in s'.life.queued
      ensures Pending(s', id)
    {
      assert Pending(s, id);
    }
  }

  // --------------------------------------------------------------------- rename

  lemma RenameWorld(s: State, s': State)
    requires WorldOk(s.w) && WriterOk(s) && SaveRenameStep(s, s')
    ensures WorldOk(s'.w) && WorldGrows(s.w, s'.w)
  {
    var file := s.writer.value.file;
    assert Ids(file.claims, file.releasing) <= s.w.seen;
  }

  lemma RenameTentative(s: State, s': State)
    requires WriterOk(s) && TentativeOk(s.mem, s.writer, s.w) && SaveRenameStep(s, s')
    ensures TentativeOk(s'.mem, s'.writer, s'.w)
  {
  }

  lemma RenameDurably(s: State, s': State)
    requires WriterOk(s) && TentativeOk(s.mem, s.writer, s.w) && DurableOk(s) && ProcOk(s) && SaveRenameStep(s, s')
    ensures DurableOk(s') && ProcOk(s')
  {
    var file := s.writer.value.file;
    forall id | id in s'.w.durable
      ensures id in s'.w.released || id in s'.w.gone || id in Ids(file.claims, file.releasing)
      ensures HeldDurably(s'.mem, s'.w, id)
    {
      if id in s.w.durable {
        RenamedHas(s, id);
      } else {
        var key := s.writer.value.committing.value;
        assert s.mem.claims[key].id == id;
      }
    }
  }

  /** What was on file and is not released or absent is in the snapshot about to replace it. */
  lemma RenamedHas(s: State, id: SandboxId)
    requires WriterOk(s) && TentativeOk(s.mem, s.writer, s.w) && DurableOk(s)
    requires s.writer.Some? && !s.writer.value.renamed && id in s.w.durable
    ensures var file := s.writer.value.file;
            id in s.w.released || id in s.w.gone || id in Ids(file.claims, file.releasing)
    ensures HeldDurably(s.mem, s.w, id)
  {
    if id in QueueIds(s.mem.releasing) {
      var c :| c in s.mem.releasing && c.id == id;
    } else if id in TableIds(s.mem.claims) {
      var k :| k in s.mem.claims && s.mem.claims[k].id == id;
    }
  }

  lemma RenameRest(s: State, s': State)
    requires WriterOk(s) && LifeOk(s) && SaveRenameStep(s, s')
    requires Content(s.mem.claims, s.mem.releasing, s.w) && WorldGrows(s.w, s'.w)
    ensures WriterOk(s') && LifeOk(s')
    ensures Content(s'.mem.claims, s'.mem.releasing, s'.w) && Content(s'.disk.claims, s'.disk.releasing, s'.w)
    ensures Covers(s'.disk, s'.mem)
  {
    ContentGrows(s.mem.claims, s.mem.releasing, s.w, s'.w);
    ContentGrows(s.writer.value.file.claims, s.writer.value.file.releasing, s.w, s'.w);
    forall id | id in s'.life.home
      ensures Accounted(s', id)
    {
      assert Accounted(s, id);
    }
    forall id | id in s'.life.queued
      ensures Pending(s', id)
    {
      assert Pending(s, id);
    }
  }

  lemma SaveRenameInv(s: State, s': State)
    requires Inv(s) && SaveRenameStep(s, s')
    ensures Inv(s')
  {
    Parts(s);
    RenameWorld(s, s');
    RenameTentative(s, s');
    RenameDurably(s, s');
    RenameRest(s, s');
    SameThreads(s, s');
  }

  // ------------------------------------------------------------- leaving saveMu

  /** The writer is done and the tables are as they were. */
  ghost predicate Leaves(s: State, s': State) {
    && s.writer.Some? && s'.writer.None?
    && s'.proc == s.proc && s'.disk == s.disk && s'.mem == s.mem && s'.life == s.life
    && WorldOk(s'.w) && WorldGrows(s.w, s'.w)
    && s'.w == s.w.(log := s'.w.log, undone := s'.w.undone)
    && (forall k :: k in s.calls && !Quiet(s.calls[k]) && !SavedBy(s, k) ==> k in s'.calls && s'.calls[k] == s.calls[k])
  }

  ghost predicate SavedBy(s: State, key: Key) {
    s.writer.Some? && s.writer.value.saver == ByCall(key)
  }

  /** A commit that was not renamed: nothing tentative is durable. */
  lemma LeavesTentative(s: State, s': State)
    requires WriterOk(s) && TentativeOk(s.mem, s.writer, s.w) && Leaves(s, s')
    requires s.writer.value.committing.None? || !s.writer.value.renamed
    ensures TentativeOk(s'.mem, s'.writer, s'.w)
  {
  }

  lemma LeavesLife(s: State, s': State)
    requires WriterOk(s) && LifeOk(s) && Leaves(s, s')
    ensures LifeOk(s')
  {
    forall id | id in s'.life.home
      ensures Accounted(s', id)
    {
      assert Accounted(s, id);
    }
    forall id | id in s'.life.queued
      ensures Pending(s', id)
    {
      assert Pending(s, id);
    }
  }

  lemma LeavesCore(s: State, s': State)
    requires Core(s) && Leaves(s, s')
    requires s.writer.value.committing.None? || !s.writer.value.renamed
    requires StrandedOk(s'.mem, s'.calls, s'.w.log) && ReleasedOk(s'.mem, s'.calls, s'.w.released, s'.life.spent)
    ensures Core(s')
  {
    ContentGrows(s.mem.claims, s.mem.releasing, s.w, s'.w);
    ContentGrows(s.disk.claims, s.disk.releasing, s.w, s'.w);
    LeavesTentative(s, s');
    LeavesLife(s, s');
  }

  lemma RecheckSavedInv(s: State, s': State)
    requires Inv(s) && s.writer.Some? && s.writer.value.saver.ByRecheck? && s' == s.(writer := None, recheck := RIdle)
    ensures Inv(s')
  {
    Parts(s);
    LeavesCore(s, s');
    SameThreads(s, s');
  }

  /** The call that saved moves on. */
  lemma SaverThreads(s: State, s': State, key: Key)
    requires LifeOk(s) && CallsOk(s) && ThreadsOk(s) && Markers(s.mem)
    requires s'.mem == s.mem && s'.life == s.life && WorldGrows(s.w, s'.w)
    requires s'.w.seen == s.w.seen && s'.w.released == s.w.released
    requires forall id :: id in s'.w.undone && id !in s.w.undone ==> id in s.life.home && s.life.home[id] == key
    requires s'.verifier == s.verifier && s'.lease == s.lease && s'.recheck == s.recheck
    requires forall k :: k in s'.calls && k != key ==> k in s.calls && s'.calls[k] == s.calls[k]
    requires CallAt(s', key)
    ensures CallsOk(s') && ThreadsOk(s')
  {
    SameTableRely(s, s');
    forall k | k in s.calls && k != key
      ensures KeyStays(s, s', k)
    {
    }
    OthersStable(s, s', key);
  }

  lemma LogOnlySavedInv(s: State, s': State, key: Key)
    requires Inv(s) && s.writer.Some? && s.writer.value.saver == ByCall(key)
    requires key in s.calls && !s.calls[key].Committing?
    requires s' == s.(writer := None, calls := s'.calls)
    requires match s.calls[key]
             case AdoptSaving(pod, c) => s'.calls == s.calls[key := PushRunning(pod, c)]
             case Saving => s'.calls == s.calls - {key}
             case _ => false
    ensures Inv(s')
  {
    Parts(s);
    LogOnlyCore(s, s', key);
    CallKnows(s, key);
    LogOnlyLearns(s, s', key);
    SaverThreads(s, s', key);
  }

  lemma LogOnlyLearns(s: State, s': State, key: Key)
    requires key in s.calls && CallOk(s, key, s.calls[key])
    requires s' == s.(writer := None, calls := s'.calls)
    requires match s.calls[key]
             case AdoptSaving(pod, c) => s'.calls == s.calls[key := PushRunning(pod, c)]
             case _ => s'.calls == s.calls - {key}
    ensures CallAt(s', key)
  {
  }

  lemma LogOnlyCore(s: State, s': State, key: Key)
    requires Core(s) && s.writer.Some? && s.writer.value.saver == ByCall(key)
    requires key in s.calls && Saves(s.calls[key]) && !s.calls[key].Committing?
    requires s' == s.(writer := None, calls := s'.calls)
    requires forall k :: k != key ==> (k in s.calls <==> k in s'.calls) && (k in s.calls ==> s'.calls[k] == s.calls[k])
    requires key in s'.calls ==> s'.calls[key].PushRunning?
    ensures Core(s')
  {
    SavedReleased(s, s', key);
    SavedStranded(s, s', key);
    assert Leaves(s, s');
    LeavesCore(s, s');
  }

  lemma CommitFailedCore(s: State, s': State, key: Key, pod: Pod, c: Claim)
    requires Core(s) && CommitOk(s, key, pod, c)
    requires s.writer.Some? && s.writer.value.saver == ByCall(key) && !s.writer.value.renamed
    requires key in s.calls && s.calls[key] == Committing(pod, c)
    requires s' == Goto(s, key, Undoing(pod, c)).(writer := None, w := Failed(s.w, c.id))
    ensures Core(s')
  {
    FailedLeaves(s, s', key, pod, c);
    FailedStranded(s, s', key, pod, c);
    SavedReleased(s, s', key);
    LeavesCore(s, s');
  }

  lemma FailedLeaves(s: State, s': State, key: Key, pod: Pod, c: Claim)
    requires WorldOk(s.w) && ProcOk(s) && WriterOk(s) && CommitOk(s, key, pod, c) && TentativeOk(s.mem, s.writer, s.w)
    requires s.writer.Some? && s.writer.value.saver == ByCall(key) && !s.writer.value.renamed
    requires key in s.calls && s.calls[key] == Committing(pod, c)
    requires s' == Goto(s, key, Undoing(pod, c)).(writer := None, w := Failed(s.w, c.id))
    ensures Leaves(s, s')
  {
    WorldFailed(s.w, c.id);
  }

  /** The saving call was not withdrawing anything. */
  lemma SavedReleased(s: State, s': State, key: Key)
    requires ReleasedOk(s.mem, s.calls, s.w.released, s.life.spent)
    requires key in s.calls && Saves(s.calls[key])
    requires forall k :: k != key ==> (k in s.calls <==> k in s'.calls) && (k in s.calls ==> s'.calls[k] == s.calls[k])
    requires s'.mem == s.mem && s'.w.released == s.w.released && s'.life == s.life
    ensures ReleasedOk(s'.mem, s'.calls, s'.w.released, s'.life.spent)
  {
  }

  lemma SavedStranded(s: State, s': State, key: Key)
    requires StrandedOk(s.mem, s.calls, s.w.log)
    requires key in s.calls && !s.calls[key].Committing?
    requires forall k :: k != key ==> (k in s.calls <==> k in s'.calls) && (k in s.calls ==> s'.calls[k] == s.calls[k])
    requires s'.mem == s.mem && s'.w == s.w
    ensures StrandedOk(s'.mem, s'.calls, s'.w.log)
  {
  }

  lemma FailedStranded(s: State, s': State, key: Key, pod: Pod, c: Claim)
    requires StrandedOk(s.mem, s.calls, s.w.log) && CommitOk(s, key, pod, c)
    requires key in s.calls && s.calls[key] == Committing(pod, c)
    requires s'.mem == s.mem && s'.calls == s.calls[key := Undoing(pod, c)]
    requires s'.w.log == s.w.log + [PersistFailed(c.id)]
    ensures StrandedOk(s'.mem, s'.calls, s'.w.log)
  {
  }

  lemma CommitFailedInv(s: State, s': State, key: Key, pod: Pod, c: Claim)
    requires Inv(s)
    requires s.writer.Some? && s.writer.value.saver == ByCall(key) && !s.writer.value.renamed
    requires key in s.calls && s.calls[key] == Committing(pod, c)
    requires s' == Goto(s, key, Undoing(pod, c)).(writer := None, w := Failed(s.w, c.id))
    ensures Inv(s')
  {
    Parts(s);
    assert CommitOk(s, key, pod, c) by { CallKnows(s, key); }
    CommitFailedCore(s, s', key, pod, c);
    FailedThreads(s, s', key, pod, c);
  }

  lemma FailedThreads(s: State, s': State, key: Key, pod: Pod, c: Claim)
    requires LifeOk(s) && CallsOk(s) && ThreadsOk(s) && Markers(s.mem) && CommitOk(s, key, pod, c)
    requires s' == Goto(s, key, Undoing(pod, c)).(writer := None, w := Failed(s.w, c.id))
    ensures CallsOk(s') && ThreadsOk(s')
  {
    assert CallOk(s', key, Undoing(pod, c));
    SaverThreads(s, s', key);
  }

  // --------------------------------------------------------- a commit that landed

  ghost predicate Lands(s: State, s': State, key: Key, pod: Pod, c: Claim) {
    && s.writer.Some? && s.writer.value.saver == ByCall(key) && s.writer.value.renamed
    && key in s.calls && s.calls[key] == Committing(pod, c)
    && s' == Goto(s, key, PushRunning(pod, c)).(
               writer := None, mem := ClearMarker(s.mem, key))
  }

  lemma LandsDurable(s: State, s': State, key: Key, pod: Pod, c: Claim)
    requires WriterOk(s) && TentativeOk(s.mem, s.writer, s.w) && Markers(s.mem) && CommitOk(s, key, pod, c)
    requires Covers(s.disk, s.mem) && Lands(s, s', key, pod, c)
    ensures Covers(s'.disk, s'.mem) && TentativeOk(s'.mem, s'.writer, s'.w) && Markers(s'.mem)
    ensures c.id in Ids(s'.disk.claims, s'.disk.releasing)
  {
    var file := s.writer.value.file;
    assert s.writer.value.committing == Some(key) && file.claims[key].id == c.id;
  }

  lemma LandsDurably(s: State, s': State, key: Key, pod: Pod, c: Claim)
    requires DurableOk(s) && s.proc.Up? && Lands(s, s', key, pod, c)
    ensures DurableOk(s')
  {
    forall id | id in s'.w.durable
      ensures HeldDurably(s'.mem, s'.w, id)
    {
      assert HeldDurably(s.mem, s.w, id);
    }
  }

  lemma LandsLife(s: State, s': State, key: Key, pod: Pod, c: Claim)
    requires LifeOk(s) && Lands(s, s', key, pod, c)
    ensures LifeOk(s')
  {
    forall id | id in s'.life.home
      ensures Accounted(s', id)
    {
      assert Accounted(s, id);
    }
    forall id | id in s'.life.queued
      ensures Pending(s', id)
    {
      assert Pending(s, id);
    }
  }

  lemma LandsMarkers(s: State, s': State, key: Key, pod: Pod, c: Claim)
    requires StrandedOk(s.mem, s.calls, s.w.log) && ReleasedOk(s.mem, s.calls, s.w.released, s.life.spent)
    requires Lands(s, s', key, pod, c)
    ensures StrandedOk(s'.mem, s'.calls, s'.w.log) && ReleasedOk(s'.mem, s'.calls, s'.w.released, s'.life.spent)
  {
  }

  lemma LandsWorld(s: State, s': State, key: Key, pod: Pod, c: Claim)
    requires WorldOk(s.w) && ProcOk(s) && s.proc.Up? && Lands(s, s', key, pod, c)
    requires Content(s.mem.claims, s.mem.releasing, s.w) && Content(s.disk.claims, s.disk.releasing, s.w)
    ensures WorldOk(s'.w) && ProcOk(s') && WorldGrows(s.w, s'.w)
    ensures Content(s'.mem.claims, s'.mem.releasing, s'.w) && Content(s'.disk.claims, s'.disk.releasing, s'.w)
  {
    ContentGrows(s.mem.claims, s.mem.releasing, s.w, s'.w);
    ContentGrows(s.disk.claims, s.disk.releasing, s.w, s'.w);
  }

  lemma LandsCore(s: State, s': State, key: Key, pod: Pod, c: Claim)
    requires Core(s) && CommitOk(s, key, pod, c) && Lands(s, s', key, pod, c)
    ensures Core(s')
  {
    LandsDurable(s, s', key, pod, c);
    LandsDurably(s, s', key, pod, c);
    LandsLife(s, s', key, pod, c);
    LandsMarkers(s, s', key, pod, c);
    LandsWorld(s, s', key, pod, c);
  }

  lemma LandsThreads(s: State, s': State, key: Key, pod: Pod, c: Claim)
    requires LifeOk(s) && CallsOk(s) && ThreadsOk(s) && Markers(s.mem) && CommitOk(s, key, pod, c)
    requires Lands(s, s', key, pod, c) && c.id in s.w.durable
    ensures CallsOk(s') && ThreadsOk(s')
  {
    LandsRely(s, s', key, pod, c);
    LandsLearns(s, s', key, pod, c);
    OthersStable(s, s', key);
  }

  lemma LandsLearns(s: State, s': State, key: Key, pod: Pod, c: Claim)
    requires Markers(s.mem) && CommitOk(s, key, pod, c) && Lands(s, s', key, pod, c) && c.id in s.w.durable
    ensures CallAt(s', key)
  {
    assert HeldOk(s', key, pod, c);
  }

  lemma LandsRely(s: State, s': State, key: Key, pod: Pod, c: Claim)
    requires Markers(s.mem) && Lands(s, s', key, pod, c)
    ensures Rely(s, s')
    ensures forall k :: k != key ==> KeyStays(s, s', k)
  {
    forall k | k != key
      ensures KeyStays(s, s', k)
    {
    }
  }

  lemma CommittedInv(s: State, s': State, key: Key, pod: Pod, c: Claim)
    requires Inv(s) && Lands(s, s', key, pod, c)
    ensures Inv(s')
  {
    Parts(s);
    assert CommitOk(s, key, pod, c) by { CallKnows(s, key); }
    LandsDurable(s, s', key, pod, c);
    LandsCore(s, s', key, pod, c);
    LandsThreads(s, s', key, pod, c);
  }

  lemma CallSavedInv(s: State, s': State, ok: bool, key: Key)
    requires Inv(s) && SaveEndStep(s, s', ok) && s.writer.value.saver == ByCall(key)
    ensures Inv(s')
  {
    if s.calls[key].Committing? {
      var Committing(pod, c) := s.calls[key];
      if ok { CommittedInv(s, s', key, pod, c); } else { CommitFailedInv(s, s', key, pod, c); }
    } else {
      LogOnlySavedInv(s, s', key);
    }
  }

  lemma SaveEndInv(s: State, s': State, ok: bool)
    requires Inv(s) && SaveEndStep(s, s', ok)
    ensures Inv(s')
  {
    if s.writer.value.saver.ByRecheck? {
      RecheckSavedInv(s, s');
    } else {
      CallSavedInv(s, s', ok, s.writer.value.saver.key);
    }
  }
}
