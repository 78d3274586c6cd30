/**
 The common shape of most steps: the table loses rows or keeps them under their
 sandbox, the queue, the file and its writer stay, the history grows.
 */
module Frames {
  import opened Types
  import opened Sections
  import opened Machine
  import opened Invariant
  import opened Stability

  /** What a step may do to the queue: take out claims whose release succeeded. */
  ghost predicate QueueShrinks(queue: seq<Claim>, queue': seq<Claim>, released: set<SandboxId>) {
    || queue' == queue
    || (&& DistinctIds(queue')
        && (forall c :: c in queue' ==> c in queue)
        && (forall c :: c in queue && c !in queue' ==> c.id in released))
  }

  /** What it may do to the table: rows keep their sandbox and marker, or go because the sandbox is gone. */
  ghost predicate TableShrinks(s: State, s': State) {
    var m, m' := s.mem, s'.mem;
    && QueueShrinks(m.releasing, m'.releasing, s'.w.released)
    && Markers(m')
    && m'.quarantined <= m.quarantined
    && (forall k :: k in m'.claims ==>
          && m.Row(k, m'.claims[k].id)
          && m'.claims[k].token == m.claims[k].token && m'.claims[k].claimedAt == m.claims[k].claimedAt
          && Traced(s'.w.genesis, s'.w.log, m'.claims[k])
          && (k in m'.tentative <==> k in m.tentative)
          && (k in m.quarantined && k !in m'.quarantined ==> m.claims[k].id in s'.life.vouched))
    && (forall k :: k in m.claims && k !in m'.claims ==>
          (m.claims[k].id in s'.w.released || m.claims[k].id in s'.w.gone) && !Commits(s.writer, k))
  }

  /** What it may do to the calls: a call that saves or installs stays, one that withdraws ends with its row. */
  ghost predicate CallsFollow(s: State, s': State) {
    && (forall k :: k in s.calls && (Saves(s.calls[k]) || s.calls[k].Installing?) ==>
          k in s'.calls && s'.calls[k] == s.calls[k])
    && (forall k :: k in s'.mem.claims ==>
          var id := s'.mem.claims[k].id;
          && (Withdrawing(s.calls, k, id) ==> Withdrawing(s'.calls, k, id))
          && (id in s'.w.released && id !in s.w.released ==> Withdrawing(s'.calls, k, id)))
    && (s.recheck.RSave? ==> s'.recheck == s.recheck)
  }

  ghost predicate HistoryFollows(s: State, s': State) {
    && WorldOk(s'.w) && WorldGrows(s.w, s'.w)
    && s'.w.durable == s.w.durable && s'.w.undone == s.w.undone
    && s.w.refs.Keys <= s'.w.refs.Keys
    && (s.proc.Up? || s'.w.log == s.w.log)
    && s'.life == s.life.(vouched := s'.life.vouched, home := s'.life.home)
    && (forall id :: id in s.life.home ==> id in s'.life.home && s'.life.home[id] == s.life.home[id])
    && (forall id :: id in s'.life.home && id !in s.life.home ==>
          id in s'.w.refs && InFlight(s'.calls, s'.life.home[id], id))
    && s.life.vouched <= s'.life.vouched && s'.life.vouched !! s.life.spent
  }

  ghost predicate Shrinks(s: State, s': State) {
    && (s.proc.Down? ==> s' == s.(w := s'.w)) && s'.proc == s.proc && s'.disk == s.disk && s'.writer == s.writer
    && (s.proc.Booting? ==> s'.calls == s.calls && s'.lease == s.lease && s'.recheck == s.recheck)
    && TableShrinks(s, s')
    && CallsFollow(s, s')
    && HistoryFollows(s, s')
  }

  lemma ContentShrinks(s: State, s': State)
    requires Content(s.mem.claims, s.mem.releasing, s.w) && TableShrinks(s, s') && WorldGrows(s.w, s'.w)
    ensures Content(s'.mem.claims, s'.mem.releasing, s'.w)
  {
    ContentGrows(s.mem.claims, s.mem.releasing, s.w, s'.w);
  }

  lemma FilesGrow(s: State, s': State)
    requires Content(s.disk.claims, s.disk.releasing, s.w) && WriterOk(s) && WorldGrows(s.w, s'.w)
    ensures Content(s.disk.claims, s.disk.releasing, s'.w)
    ensures s.writer.Some? ==> Content(s.writer.value.file.claims, s.writer.value.file.releasing, s'.w)
  {
    ContentGrows(s.disk.claims, s.disk.releasing, s.w, s'.w);
    if s.writer.Some? {
      ContentGrows(s.writer.value.file.claims, s.writer.value.file.releasing, s.w, s'.w);
    }
  }

  lemma CoversShrinks(file: StateFile, s: State, s': State)
    requires TableShrinks(s, s') && Covers(file, s.mem)
    ensures Covers(file, s'.mem)
  {
  }

  lemma WriterShrinks(s: State, s': State)
    requires TableShrinks(s, s') && CallsFollow(s, s') && WriterOk(s)
    requires s'.proc == s.proc && s'.disk == s.disk && s'.writer == s.writer
    requires s'.w.undone == s.w.undone && s'.w.durable == s.w.durable
    requires s'.writer.Some? ==> Content(s'.writer.value.file.claims, s'.writer.value.file.releasing, s'.w)
    ensures WriterOk(s')
  {
    if s.writer.Some? {
      CoversShrinks(s.writer.value.file, s, s');
      if s.writer.value.committing.Some? {
        assert Commits(s.writer, s.writer.value.committing.value);
      }
    }
  }

  lemma TentativeShrinks(s: State, s': State)
    requires TentativeOk(s.mem, s.writer, s.w) && TableShrinks(s, s') && s'.w.durable == s.w.durable
    ensures TentativeOk(s'.mem, s.writer, s'.w)
  {
  }

  lemma StrandedShrinks(s: State, s': State)
    requires StrandedOk(s.mem, s.calls, s.w.log) && TableShrinks(s, s') && CallsFollow(s, s') && WorldGrows(s.w, s'.w)
    ensures StrandedOk(s'.mem, s'.calls, s'.w.log)
  {
    forall k | k in s'.mem.tentative && k in s'.mem.claims
      ensures CommittingAt(s'.calls, k, s'.mem.claims[k].id) || PersistFailed(s'.mem.claims[k].id) in s'.w.log
    {
      if !CommittingAt(s.calls, k, s.mem.claims[k].id) {
        LogMember(s.w.log, s'.w.log, PersistFailed(s.mem.claims[k].id));
      }
    }
  }

  lemma ReleasedShrinks(s: State, s': State)
    requires ReleasedOk(s.mem, s.calls, s.w.released, s.life.spent) && TableShrinks(s, s') && CallsFollow(s, s')
    requires s'.life.spent == s.life.spent && s'.life.vouched !! s.life.spent
    ensures ReleasedOk(s'.mem, s'.calls, s'.w.released, s'.life.spent)
  {
  }

  lemma AccountedShrinks(s: State, s': State, id: SandboxId)
    requires Accounted(s, id) && TableShrinks(s, s') && WorldGrows(s.w, s'.w)
    requires id in s.life.home ==> id in s'.life.home && s'.life.home[id] == s.life.home[id]
    requires forall k :: k in s.calls && s.calls[k].Installing? ==> k in s'.calls && s'.calls[k] == s.calls[k]
    ensures Accounted(s', id)
  {
    if id in TableIds(s.mem.claims) {
      var k :| k in s.mem.claims && s.mem.claims[k].id == id;
      if k in s'.mem.claims { assert s'.mem.claims[k].id == id; }
    }
    if id in QueueIds(s.mem.releasing) {
      var c :| c in s.mem.releasing && c.id == id;
      if c in s'.mem.releasing { assert id in QueueIds(s'.mem.releasing); }
    }
  }

  lemma LifeShrinks(s: State, s': State)
    requires LifeOk(s) && TableShrinks(s, s') && HistoryFollows(s, s')
    requires forall k :: k in s.calls && s.calls[k].Installing? ==> k in s'.calls && s'.calls[k] == s.calls[k]
    ensures LifeOk(s')
  {
    forall id | id in s'.life.home
      ensures Accounted(s', id)
    {
      if id in s.life.home { AccountedShrinks(s, s', id); }
    }
    forall id | id in s'.life.queued
      ensures Pending(s', id)
    {
      PendingShrinks(s, s', id);
    }
  }

  lemma DurableShrinks(s: State, s': State)
    requires DurableOk(s) && TableShrinks(s, s') && WorldGrows(s.w, s'.w) && s'.w.durable == s.w.durable
    requires s'.disk == s.disk && s'.proc == s.proc
    ensures DurableOk(s')
  {
    if !s.proc.Down? {
      forall id | id in s'.w.durable
        ensures HeldDurably(s'.mem, s'.w, id)
      {
        assert HeldDurably(s.mem, s.w, id);
        HeldShrinks(s, s', id);
      }
    }
  }

  lemma HeldShrinks(s: State, s': State, id: SandboxId)
    requires HeldDurably(s.mem, s.w, id) && TableShrinks(s, s') && WorldGrows(s.w, s'.w)
    ensures HeldDurably(s'.mem, s'.w, id)
  {
    if id in QueueIds(s.mem.releasing) {
      PendingShrinks(s, s', id);
    } else if id in TableIds(s.mem.claims) {
      var k :| k in s.mem.claims && s.mem.claims[k].id == id;
      if k in s'.mem.claims { assert s'.mem.claims[k].id == id; }
    }
  }

  lemma PendingShrinks(s: State, s': State, id: SandboxId)
    requires Pending(s, id) && TableShrinks(s, s') && WorldGrows(s.w, s'.w)
    ensures Pending(s', id)
  {
    if id in QueueIds(s.mem.releasing) {
      var c :| c in s.mem.releasing && c.id == id;
      if c in s'.mem.releasing { assert id in QueueIds(s'.mem.releasing); }
    }
  }

  lemma ProcShrinks(s: State, s': State)
    requires ProcOk(s) && Shrinks(s, s')
    ensures ProcOk(s')
  {
  }

  lemma CoreShrinks(s: State, s': State)
    requires Core(s) && Shrinks(s, s')
    ensures Core(s')
  {
    ContentShrinks(s, s');
    FilesGrow(s, s');
    CoversShrinks(s.disk, s, s');
    WriterShrinks(s, s');
    TentativeShrinks(s, s');
    StrandedShrinks(s, s');
    ReleasedShrinks(s, s');
    LifeShrinks(s, s');
    DurableShrinks(s, s');
    ProcShrinks(s, s');
  }

  /** A step that leaves the tables alone. */
  lemma TracedStays(s: State, s': State)
    requires Content(s.mem.claims, s.mem.releasing, s.w) && WorldGrows(s.w, s'.w) && s'.mem.claims == s.mem.claims
    ensures forall k :: k in s'.mem.claims ==> Traced(s'.w.genesis, s'.w.log, s'.mem.claims[k])
  {
    ContentGrows(s.mem.claims, s.mem.releasing, s.w, s'.w);
  }

  /** The history with one more event. */
  lemma WorldLogged(w: World, e: Event)
    requires WorldOk(w) && EventOk(w.genesis, w.log, e) && EntryOk(w, e)
    ensures WorldOk(Logged(w, e)) && WorldGrows(w, Logged(w, e))
    ensures e in Logged(w, e).log
  {
    LogOkAppend(w.genesis, w.log, e);
    assert (w.log + [e])[|w.log|] == e;
    EntriesGrow(w, Logged(w, e), e);
  }

  /** Events stay true as the history grows. */
  lemma EntriesGrow(w: World, w': World, e: Event)
    requires EntriesOk(w) && w'.log == w.log + [e] && EntryOk(w', e)
    requires w.durable <= w'.durable && w.gone <= w'.gone && w.released <= w'.released && w.undone <= w'.undone
    requires forall id :: id in w.book ==> id in w'.book && w'.book[id] == w.book[id]
    ensures EntriesOk(w')
  {
    forall x | x in w'.log
      ensures EntryOk(w', x)
    {
      if x != e { assert x in w.log && EntryOk(w, x); }
    }
  }

  lemma EntriesStay(w: World, w': World)
    requires EntriesOk(w) && w'.log == w.log
    requires w.durable <= w'.durable && w.gone <= w'.gone && w.released <= w'.released && w.undone <= w'.undone
    requires forall id :: id in w.book ==> id in w'.book && w'.book[id] == w.book[id]
    ensures EntriesOk(w')
  {
    forall x | x in w'.log
      ensures EntryOk(w', x)
    {
      assert EntryOk(w, x);
    }
  }

  lemma WorldReleased(w: World, c: Claim)
    requires WorldOk(w) && Known(w, c) && Warranted(w.genesis, w.log, c.id)
    ensures WorldOk(ReleaseDone(w, c)) && WorldGrows(w, ReleaseDone(w, c))
    ensures WorldOk(ReleaseFailed(w, c)) && WorldGrows(w, ReleaseFailed(w, c))
  {
    WorldLogged(w, ReleaseCalled(c.id, c.token, false));
    LogOkAppend(w.genesis, w.log, ReleaseCalled(c.id, c.token, true));
    EntriesGrow(w, ReleaseDone(w, c), ReleaseCalled(c.id, c.token, true));
  }

  lemma WorldFailed(w: World, id: SandboxId)
    requires WorldOk(w) && id in w.seen && id !in w.durable
    ensures WorldOk(Failed(w, id)) && WorldGrows(w, Failed(w, id))
    ensures PersistFailed(id) in Failed(w, id).log
  {
    LogOkAppend(w.genesis, w.log, PersistFailed(id));
    EntriesGrow(w, Failed(w, id), PersistFailed(id));
    assert (w.log + [PersistFailed(id)])[|w.log|] == PersistFailed(id);
  }

  lemma WorldObserved(w: World, asked: set<SandboxId>, live: Listing)
    requires WorldOk(w) && asked <= w.seen && live.Keys == w.live
    ensures WorldOk(Observed(w, asked, live)) && WorldGrows(w, Observed(w, asked, live))
    ensures AbsentOk(Observed(w, asked, live), asked, live)
  {
    EntriesStay(w, Observed(w, asked, live));
  }
}
