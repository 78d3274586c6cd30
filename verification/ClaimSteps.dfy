/**
 Adopting, claiming and installing keep the invariant: a row moves to the queue
 or to another Pod of its owner, and a fresh claim never lands on a row.
 */
module ClaimSteps {
  import opened Types
  import opened Sections
  import opened Machine
  import opened Invariant
  import opened Stability
  import opened Frames
  import opened CallSteps

  // ------------------------------------------------------------------- adopting

  /** A Pod that may adopt a row is linked to one of its earlier holders. */
  lemma AdopterLinked(genesis: StateFile, log: seq<Event>, c: Claim, pod: Pod)
    requires Traced(genesis, log, c) && c.AdoptableBy(pod) && (c.authority.Some? || c.owner.Some?)
    ensures Linked(genesis, log, c, pod)
  {
  }

  lemma ReboundTraces(genesis: StateFile, log: seq<Event>, was: Claim, pod: Pod)
    ensures var e := Rebound(was, was.BoundTo(pod), pod); Traced(genesis, log + [e], was.BoundTo(pod))
  {
    var e := Rebound(was, was.BoundTo(pod), pod);
    assert e in log + [e];
  }

  lemma AdoptedAt(m: Mem, key: Key, pod: Pod)
    requires Adoptable(m, key, pod).Adopted?
    ensures var m' := Adopt(m, key, pod);
            && OnlyAt(m, m', key)
            && m'.tentative == m.tentative && m'.quarantined == m.quarantined
            && key in m'.claims && m'.claims[key] == m.claims[key].BoundTo(pod) && key in m'.pods
  {
  }

  lemma AdoptedHeld(s: State, s': State, key: Key, pod: Pod)
    requires Content(s.mem.claims, s.mem.releasing, s.w) && Timed(s.mem.claims) && LifeOk(s)
    requires ReleasedOk(s.mem, s.calls, s.w.released, s.life.spent) && Covers(s.disk, s.mem) && ProcOk(s)
    requires key in s.calls && s.calls[key] == Adopting(pod)
    requires Adoptable(s.mem, key, pod).Adopted? && AdoptStep(s, s', key, pod)
    ensures HeldOk(s', key, pod, s.mem.claims[key].BoundTo(pod))
  {
    AdoptedAt(s.mem, key, pod);
  }

  lemma AdoptedRow(s: State, s': State, key: Key, pod: Pod)
    requires Base(s) && s.proc.Up? && key in s.calls && s.calls[key] == Adopting(pod)
    requires Adoptable(s.mem, key, pod).Adopted? && AdoptStep(s, s', key, pod)
    requires HeldOk(s', key, pod, s.mem.claims[key].BoundTo(pod))
    ensures OwnRowStep(s, s', key)
  {
    AdoptedHistory(s, s', key, pod);
    AdoptedTable(s, s', key, pod);
    AdoptedLearns(s, s', key, pod);
  }

  lemma AdoptedLearns(s: State, s': State, key: Key, pod: Pod)
    requires Adoptable(s.mem, key, pod).Adopted? && AdoptStep(s, s', key, pod)
    requires HeldOk(s', key, pod, s.mem.claims[key].BoundTo(pod))
    ensures CallAt(s', key)
  {
  }

  lemma AdoptedHistory(s: State, s': State, key: Key, pod: Pod)
    requires Content(s.mem.claims, s.mem.releasing, s.w) && WorldOk(s.w) && s.life.vouched !! s.life.spent && s.proc.Up?
    requires Adoptable(s.mem, key, pod).Adopted? && AdoptStep(s, s', key, pod)
    ensures HistoryFollows(s, s') && s'.w.released == s.w.released && s'.w.seen == s.w.seen
  {
    var was := s.mem.claims[key];
    if was.authority.Some? || was.owner.Some? { AdopterLinked(s.w.genesis, s.w.log, was, pod); }
    WorldLogged(s.w, Rebound(was, was.BoundTo(pod), pod));
  }

  lemma AdoptedTable(s: State, s': State, key: Key, pod: Pod)
    requires Content(s.mem.claims, s.mem.releasing, s.w) && Markers(s.mem)
    requires Adoptable(s.mem, key, pod).Adopted? && AdoptStep(s, s', key, pod)
    ensures OnlyAt(s.mem, s'.mem, key) && OwnRow(s, s', key)
  {
    AdoptedAt(s.mem, key, pod);
    ReboundTraces(s.w.genesis, s.w.log, s.mem.claims[key], pod);
  }

  lemma AdoptedInv(s: State, s': State, key: Key, pod: Pod)
    requires Inv(s) && key in s.calls && s.calls[key] == Adopting(pod)
    requires Adoptable(s.mem, key, pod).Adopted? && AdoptStep(s, s', key, pod)
    ensures Inv(s')
  {
    Parts(s);
    CallsMeanUp(s);
    AdoptedHeld(s, s', key, pod);
    AdoptedRow(s, s', key, pod);
    OwnRowInv(s, s', key);
  }

  // -------------------------------------------------------- a row to the queue

  /** The row at `key` goes to the queue as `c`, for the same sandbox. */
  ghost predicate Moves(s: State, s': State, key: Key, c: Claim) {
    && s.mem.Row(key, c.id) && s.mem.Settled(key)
    && s'.mem == s.mem.(claims := s.mem.claims - {key}, releasing := s.mem.releasing + [c])
    && s'.life == s.life.(queued := s.life.queued + {c.id})
    && s'.proc == s.proc && s'.disk == s.disk && s'.writer == s.writer
    && WorldGrows(s.w, s'.w) && WorldOk(s'.w)
    && s'.w.released == s.w.released && s'.w.gone == s.w.gone && s'.w.seen == s.w.seen && s'.w.refs == s.w.refs
    && s'.w.durable == s.w.durable && s'.w.undone == s.w.undone
    && Known(s.w, c) && Warranted(s'.w.genesis, s'.w.log, c.id)
  }

  lemma MovesContent(s: State, s': State, key: Key, c: Claim)
    requires Content(s.mem.claims, s.mem.releasing, s.w) && Moves(s, s', key, c)
    ensures Content(s'.mem.claims, s'.mem.releasing, s'.w)
  {
    ContentGrows(s.mem.claims, s.mem.releasing, s.w, s'.w);
    assert Known(s'.w, c);
  }

  lemma MovesCovers(file: StateFile, s: State, s': State, key: Key, c: Claim)
    requires Covers(file, s.mem) && Moves(s, s', key, c)
    ensures Covers(file, s'.mem)
  {
  }

  lemma MovesWriter(s: State, s': State, key: Key, c: Claim)
    requires WriterOk(s) && CallsOk(s) && Moves(s, s', key, c)
    requires forall k :: k in s.calls && Saves(s.calls[k]) ==> k in s'.calls && s'.calls[k] == s.calls[k]
    requires s.recheck.RSave? ==> s'.recheck.RSave?
    requires s.writer.Some? ==> Content(s.writer.value.file.claims, s.writer.value.file.releasing, s'.w)
    ensures WriterOk(s')
  {
    if s.writer.Some? {
      MovesCovers(s.writer.value.file, s, s', key, c);
      CommitsTentative(s);
      if s.writer.value.committing.Some? {
        assert Commits(s.writer, s.writer.value.committing.value);
      }
    }
  }

  lemma MovesAccounted(s: State, s': State, key: Key, c: Claim, id: SandboxId)
    requires Moves(s, s', key, c) && Accounted(s, id)
    requires forall k :: k in s.calls && s.calls[k].Installing? ==> k in s'.calls && s'.calls[k] == s.calls[k]
    ensures Accounted(s', id)
  {
    assert c in s'.mem.releasing && forall q :: q in s.mem.releasing ==> q in s'.mem.releasing;
    if id in TableIds(s.mem.claims) {
      var k :| k in s.mem.claims && s.mem.claims[k].id == id;
      if k != key { assert k in s'.mem.claims; }
    }
  }

  lemma MovesLife(s: State, s': State, key: Key, c: Claim)
    requires LifeOk(s) && Content(s.mem.claims, s.mem.releasing, s.w) && Moves(s, s', key, c)
    requires forall k :: k in s.calls && s.calls[k].Installing? ==> k in s'.calls && s'.calls[k] == s.calls[k]
    ensures LifeOk(s')
  {
    forall id | id in s'.life.home
      ensures Accounted(s', id)
    {
      MovesAccounted(s, s', key, c, id);
    }
    MovesQueued(s, s', key, c);
    MovesRows(s, s', key, c);
  }

  lemma MovesQueued(s: State, s': State, key: Key, c: Claim)
    requires LifeOk(s) && Moves(s, s', key, c)
    ensures QueueIds(s'.mem.releasing) <= s'.life.queued
    ensures forall id :: id in s'.life.queued ==> Pending(s', id)
  {
    assert c in s'.mem.releasing && forall q :: q in s.mem.releasing ==> q in s'.mem.releasing;
    forall id | id in s'.life.queued
      ensures Pending(s', id)
    {
      if id != c.id { assert Pending(s, id); }
    }
  }

  lemma MovesRows(s: State, s': State, key: Key, c: Claim)
    requires LifeOk(s) && Content(s.mem.claims, s.mem.releasing, s.w) && Moves(s, s', key, c)
    ensures forall k :: k in s'.mem.claims ==> k in s.mem.claims && s'.mem.claims[k] == s.mem.claims[k]
    ensures forall k :: k in s'.mem.claims ==> s'.mem.claims[k].id !in s'.life.queued
  {
  }

  lemma MovesDurably(s: State, s': State, key: Key, c: Claim)
    requires DurableOk(s) && Moves(s, s', key, c)
    ensures DurableOk(s')
  {
    if !s.proc.Down? {
      assert c in s'.mem.releasing && forall q :: q in s.mem.releasing ==> q in s'.mem.releasing;
      forall id | id in s'.w.durable
        ensures HeldDurably(s'.mem, s'.w, id)
      {
        assert HeldDurably(s.mem, s.w, id);
        if id in TableIds(s.mem.claims) {
          var k :| k in s.mem.claims && s.mem.claims[k].id == id;
          if k != key { assert k in s'.mem.claims; }
        }
      }
    }
  }

  /** The markers, and the facts about tentative and released rows. */
  lemma MovesMarkers(s: State, s': State, key: Key, c: Claim)
    requires Moves(s, s', key, c) && Markers(s.mem) && TentativeOk(s.mem, s.writer, s.w) && Timed(s.mem.claims)
    ensures Markers(s'.mem) && TentativeOk(s'.mem, s'.writer, s'.w) && Timed(s'.mem.claims)
  {
  }

  /** The calls keep their saves, installs and withdrawals, and their failed commits. */
  ghost predicate CallsKeep(s: State, s': State) {
    && (forall k :: k in s.calls && (Saves(s.calls[k]) || s.calls[k].Installing? || !Quiet(s.calls[k])) ==>
          k in s'.calls && s'.calls[k] == s.calls[k])
    && (s.recheck.RSave? ==> s'.recheck.RSave?)
  }

  lemma MovesStranded(s: State, s': State, key: Key, c: Claim)
    requires Moves(s, s', key, c) && CallsKeep(s, s')
    requires StrandedOk(s.mem, s.calls, s.w.log) && ReleasedOk(s.mem, s.calls, s.w.released, s.life.spent)
    ensures StrandedOk(s'.mem, s'.calls, s'.w.log) && ReleasedOk(s'.mem, s'.calls, s'.w.released, s'.life.spent)
  {
    forall k | k in s'.mem.tentative && k in s'.mem.claims
      ensures CommittingAt(s'.calls, k, s'.mem.claims[k].id) || PersistFailed(s'.mem.claims[k].id) in s'.w.log
    {
      if !CommittingAt(s.calls, k, s.mem.claims[k].id) {
        LogMember(s.w.log, s'.w.log, PersistFailed(s.mem.claims[k].id));
      }
    }
  }

  lemma MovesCore(s: State, s': State, key: Key, c: Claim)
    requires Core(s) && CallsOk(s) && s.proc.Up? && Moves(s, s', key, c) && CallsKeep(s, s')
    ensures Core(s')
  {
    MovesContent(s, s', key, c);
    FilesGrow(s, s');
    MovesCovers(s.disk, s, s', key, c);
    MovesWriter(s, s', key, c);
    MovesLife(s, s', key, c);
    MovesDurably(s, s', key, c);
    MovesMarkers(s, s', key, c);
    MovesStranded(s, s', key, c);
  }

  lemma MovesRely(s: State, s': State, key: Key, c: Claim)
    requires Moves(s, s', key, c) && Markers(s.mem)
    ensures Rely(s, s')
  {
  }

  lemma MovesKeyStays(s: State, s': State, key: Key, c: Claim, other: Key)
    requires Moves(s, s', key, c) && Markers(s.mem)
    requires forall k :: k in s.mem.claims && s.mem.claims[k].id == c.id ==> k == key
    requires other != key || key !in s.mem.pods
    ensures KeyStays(s, s', other)
  {
    assert c.id == s.mem.claims[key].id && c.id in TableIds(s.mem.claims);
  }

  lemma RefusedMoves(s: State, s': State, key: Key, pod: Pod)
    requires Content(s.mem.claims, s.mem.releasing, s.w) && WorldOk(s.w)
    requires Adoptable(s.mem, key, pod).Refused? && AdoptStep(s, s', key, pod)
    ensures Moves(s, s', key, s.mem.claims[key])
    ensures key in s.calls && s.calls[key] == Adopting(pod) ==> CallsKeep(s, s')
  {
    var c := s.mem.claims[key];
    assert Known(s.w, c);
    RefusedHistory(s.w, c, pod);
  }

  lemma RefusedHistory(w: World, c: Claim, pod: Pod)
    requires WorldOk(w) && !c.AdoptableBy(pod)
    ensures var w' := Logged(w, AdoptionRefused(c, pod));
            WorldOk(w') && WorldGrows(w, w') && Warranted(w'.genesis, w'.log, c.id)
  {
    WorldLogged(w, AdoptionRefused(c, pod));
    JudgedWarrants(w.genesis, w.log, c.id, AdoptionRefused(c, pod));
  }

  lemma RefusedThreads(s: State, s': State, key: Key, pod: Pod)
    requires LifeOk(s) && CallsOk(s) && ThreadsOk(s) && Markers(s.mem)
    requires Content(s.mem.claims, s.mem.releasing, s.w)
    requires key in s.calls && s.calls[key] == Adopting(pod)
    requires Adoptable(s.mem, key, pod).Refused? && AdoptStep(s, s', key, pod)
    requires Moves(s, s', key, s.mem.claims[key])
    ensures CallsOk(s') && ThreadsOk(s')
  {
    var c := s.mem.claims[key];
    MovesRely(s, s', key, c);
    MovesOthersStay(s, s', key, c);
    CallKnows(s, key);
    RefusedLearns(s, s', key, pod);
    OthersStable(s, s', key);
  }

  lemma RefusedLearns(s: State, s': State, key: Key, pod: Pod)
    requires key !in s.mem.quarantined && Adoptable(s.mem, key, pod).Refused? && AdoptStep(s, s', key, pod)
    ensures CallAt(s', key)
  {
  }

  lemma MovesOthersStay(s: State, s': State, key: Key, c: Claim)
    requires Moves(s, s', key, c) && Markers(s.mem)
    requires forall k :: k in s.mem.claims && s.mem.claims[k].id == c.id ==> k == key
    ensures forall k :: k in s.calls && k != key ==> KeyStays(s, s', k)
  {
    forall k | k in s.calls && k != key
      ensures KeyStays(s, s', k)
    {
      MovesKeyStays(s, s', key, c, k);
    }
  }

  lemma RefusedInv(s: State, s': State, key: Key, pod: Pod)
    requires Inv(s) && key in s.calls && s.calls[key] == Adopting(pod)
    requires Adoptable(s.mem, key, pod).Refused? && AdoptStep(s, s', key, pod)
    ensures Inv(s')
  {
    Parts(s);
    CallsMeanUp(s);
    RefusedMoves(s, s', key, pod);
    MovesCore(s, s', key, s.mem.claims[key]);
    RefusedThreads(s, s', key, pod);
  }

  lemma AdoptInv(s: State, s': State, key: Key, pod: Pod)
    requires Inv(s) && key in s.calls && s.calls[key] == Adopting(pod) && AdoptStep(s, s', key, pod)
    ensures Inv(s')
  {
    Parts(s);
    match Adoptable(s.mem, key, pod)
    case Adopted(_) => AdoptedInv(s, s', key, pod);
    case Refused(_) => RefusedInv(s, s', key, pod);
    case NothingToAdopt =>
      CallsMeanUp(s);
      CallKnows(s, key);
      AdoptingLearns(s, key, pod);
      GotoInv(s, key, CheckStranded(pod));
  }

  lemma AdoptingLearns(s: State, key: Key, pod: Pod)
    requires key !in s.mem.quarantined && Adoptable(s.mem, key, pod).NothingToAdopt?
    ensures CallAt(Goto(s, key, CheckStranded(pod)), key)
  {
  }

  // ------------------------------------------------------------------- claiming

  lemma CheckStrandedInv(s: State, s': State, key: Key, pod: Pod)
    requires Inv(s) && key in s.calls && s.calls[key] == CheckStranded(pod) && CheckStrandedStep(s, s', key, pod)
    ensures Inv(s')
  {
    Parts(s);
    CallsMeanUp(s);
    CallKnows(s, key);
    StrandedLearns(s, key, pod);
    var stranded := key in s.mem.claims && key in s.mem.tentative;
    GotoInv(s, key, if stranded then ReturnStranded(pod, s.mem.claims[key]) else Claiming(pod));
  }

  lemma StrandedLearns(s: State, key: Key, pod: Pod)
    requires Content(s.mem.claims, s.mem.releasing, s.w) && LifeOk(s) && StrandedOk(s.mem, s.calls, s.w.log)
    requires key in s.calls && s.calls[key] == CheckStranded(pod) && CallOk(s, key, CheckStranded(pod))
    ensures var stranded := key in s.mem.claims && key in s.mem.tentative;
            CallAt(Goto(s, key, if stranded then ReturnStranded(pod, s.mem.claims[key]) else Claiming(pod)), key)
  {
  }

  lemma WorldClaimed(w: World, key: Key, pod: Pod, c: Claim)
    requires WorldOk(w) && c.id !in w.refs && c.podUid == pod.uid && c.authority == Some(pod.Authority())
    ensures var w1 := Issued(w, c.id, key.Text());
            var w' := w1.(own := w1.own + {c.id}, book := w1.book[c.id := Fixed(c.token, c.claimedAt)],
                log := w1.log + [Taken(c, pod)]);
            WorldOk(w') && WorldGrows(w, w') && HeldBy(w'.genesis, w'.log, c.id, c.podUid)
            && HeldUnder(w'.genesis, w'.log, c.id, pod.Authority())
  {
    LogOkAppend(w.genesis, w.log, Taken(c, pod));
    var w1 := Issued(w, c.id, key.Text());
    EntriesGrow(w, w1.(own := w1.own + {c.id}, book := w1.book[c.id := Fixed(c.token, c.claimedAt)],
                log := w1.log + [Taken(c, pod)]), Taken(c, pod));
    assert Taken(c, pod) in w.log + [Taken(c, pod)];
  }

  lemma ClaimInv(s: State, s': State, key: Key, pod: Pod, c: Claim)
    requires Inv(s) && key in s.calls && s.calls[key] == Claiming(pod) && ClaimStep(s, s', key, pod, c)
    ensures Inv(s')
  {
    Parts(s);
    CallsMeanUp(s);
    WorldClaimed(s.w, key, pod, c);
    ClaimHistory(s, s', key, pod, c);
    ClaimFacts(s, s', key, pod, c);
    QuietInv(s, s', key);
  }

  lemma ClaimHistory(s: State, s': State, key: Key, pod: Pod, c: Claim)
    requires LifeOk(s) && s.proc.Up? && ClaimStep(s, s', key, pod, c)
    requires WorldOk(s'.w) && WorldGrows(s.w, s'.w)
    ensures HistoryFollows(s, s')
  {
  }

  lemma ClaimFacts(s: State, s': State, key: Key, pod: Pod, c: Claim)
    requires WorldOk(s.w) && CallOk(s, key, Claiming(pod)) && ClaimStep(s, s', key, pod, c)
    requires HeldBy(s'.w.genesis, s'.w.log, c.id, c.podUid) && HeldUnder(s'.w.genesis, s'.w.log, c.id, pod.Authority())
    ensures CallOk(s', key, Installing(pod, c))
  {
  }

  lemma ClaimLostInv(s: State, s': State, key: Key, pod: Pod, id: SandboxId)
    requires Inv(s) && key in s.calls && s.calls[key] == Claiming(pod) && ClaimLostStep(s, s', key, id)
    ensures Inv(s')
  {
    Parts(s);
    CallsMeanUp(s);
    LostHistory(s, s', key, id);
    QuietInv(s, s', key);
  }

  lemma LostHistory(s: State, s': State, key: Key, id: SandboxId)
    requires WorldOk(s.w) && s.life.vouched !! s.life.spent && ClaimLostStep(s, s', key, id)
    ensures HistoryFollows(s, s')
  {
  }

  // ----------------------------------------------------------------- installing

  lemma InstallContent(s: State, s': State, key: Key, pod: Pod, c: Claim)
    requires Content(s.mem.claims, s.mem.releasing, s.w) && InstallOk(s, key, pod, c)
    requires InstallStep(s, s', key, pod, c)
    ensures Content(s'.mem.claims, s'.mem.releasing, s'.w)
  {
    ContentGrows(s.mem.claims, s.mem.releasing, s.w, s'.w);
  }

  lemma InstallCovers(file: StateFile, s: State, s': State, key: Key, pod: Pod, c: Claim)
    requires Covers(file, s.mem) && Content(file.claims, file.releasing, s.w) && InstallOk(s, key, pod, c)
    requires InstallStep(s, s', key, pod, c)
    ensures Covers(file, s'.mem) && c.id !in Ids(file.claims, file.releasing)
  {
  }

  lemma InstallWriter(s: State, s': State, key: Key, pod: Pod, c: Claim)
    requires WriterOk(s) && InstallOk(s, key, pod, c) && InstallStep(s, s', key, pod, c)
    requires key in s.calls && s.calls[key] == Installing(pod, c)
    ensures WriterOk(s')
  {
    if s.writer.Some? {
      InstallCovers(s.writer.value.file, s, s', key, pod, c);
      ContentGrows(s.writer.value.file.claims, s.writer.value.file.releasing, s.w, s'.w);
    }
  }

  lemma InstallAccounted(s: State, s': State, key: Key, pod: Pod, c: Claim, id: SandboxId)
    requires Accounted(s, id) && InstallOk(s, key, pod, c) && InstallStep(s, s', key, pod, c)
    requires key in s.calls && s.calls[key] == Installing(pod, c)
    ensures Accounted(s', id)
  {
    assert s'.mem.claims[key].id == c.id;
    if id in TableIds(s.mem.claims) {
      var k :| k in s.mem.claims && s.mem.claims[k].id == id;
      assert s'.mem.claims[k].id == id;
    }
  }

  lemma InstallLife(s: State, s': State, key: Key, pod: Pod, c: Claim)
    requires LifeOk(s) && InstallOk(s, key, pod, c) && InstallStep(s, s', key, pod, c)
    requires key in s.calls && s.calls[key] == Installing(pod, c)
    ensures LifeOk(s')
  {
    forall id | id in s'.life.home
      ensures Accounted(s', id)
    {
      InstallAccounted(s, s', key, pod, c, id);
    }
    forall id | id in s'.life.queued
      ensures Pending(s', id)
    {
      assert Pending(s, id);
    }
  }

  lemma InstallDurably(s: State, s': State, key: Key, pod: Pod, c: Claim)
    requires DurableOk(s) && s.proc.Up? && InstallOk(s, key, pod, c) && InstallStep(s, s', key, pod, c)
    ensures DurableOk(s')
  {
    forall id | id in s'.w.durable
      ensures HeldDurably(s'.mem, s'.w, id)
    {
      assert HeldDurably(s.mem, s.w, id);
      if id in TableIds(s.mem.claims) {
        var k :| k in s.mem.claims && s.mem.claims[k].id == id;
        assert k in s'.mem.claims && s'.mem.claims[k].id == id;
      }
    }
  }

  lemma InstallMarkers(s: State, s': State, key: Key, pod: Pod, c: Claim)
    requires WorldOk(s.w) && InstallOk(s, key, pod, c) && InstallStep(s, s', key, pod, c)
    requires key in s.calls && s.calls[key] == Installing(pod, c)
    requires Markers(s.mem) && Timed(s.mem.claims) && TentativeOk(s.mem, s.writer, s.w)
    requires StrandedOk(s.mem, s.calls, s.w.log) && ReleasedOk(s.mem, s.calls, s.w.released, s.life.spent)
    ensures Markers(s'.mem) && Timed(s'.mem.claims) && TentativeOk(s'.mem, s'.writer, s'.w)
    ensures StrandedOk(s'.mem, s'.calls, s'.w.log) && ReleasedOk(s'.mem, s'.calls, s'.w.released, s'.life.spent)
  {
  }

  lemma InstallWorld(s: State, s': State, key: Key, pod: Pod, c: Claim)
    requires WorldOk(s.w) && ProcOk(s) && s.proc.Up? && InstallOk(s, key, pod, c) && InstallStep(s, s', key, pod, c)
    ensures WorldOk(s'.w) && WorldGrows(s.w, s'.w) && ProcOk(s')
  {
  }

  lemma InstallCore(s: State, s': State, key: Key, pod: Pod, c: Claim)
    requires Core(s) && InstallOk(s, key, pod, c) && InstallStep(s, s', key, pod, c)
    requires key in s.calls && s.calls[key] == Installing(pod, c)
    ensures Core(s')
  {
    CallsMeanUp(s);
    InstallWorld(s, s', key, pod, c);
    InstallContent(s, s', key, pod, c);
    ContentGrows(s.disk.claims, s.disk.releasing, s.w, s'.w);
    InstallCovers(s.disk, s, s', key, pod, c);
    InstallWriter(s, s', key, pod, c);
    InstallLife(s, s', key, pod, c);
    InstallDurably(s, s', key, pod, c);
    InstallMarkers(s, s', key, pod, c);
  }

  lemma InstallRely(s: State, s': State, key: Key, pod: Pod, c: Claim)
    requires Markers(s.mem) && InstallOk(s, key, pod, c) && InstallStep(s, s', key, pod, c)
    ensures Rely(s, s')
    ensures forall k :: k != key ==> KeyStays(s, s', k)
  {
    forall k | k != key
      ensures KeyStays(s, s', k)
    {
    }
  }

  lemma InstallFacts(s: State, s': State, key: Key, pod: Pod, c: Claim)
    requires WorldOk(s.w) && LifeOk(s) && InstallOk(s, key, pod, c) && InstallStep(s, s', key, pod, c)
    ensures CallOk(s', key, Committing(pod, c))
  {
  }

  lemma InstallThreads(s: State, s': State, key: Key, pod: Pod, c: Claim)
    requires LifeOk(s) && CallsOk(s) && ThreadsOk(s) && Markers(s.mem) && WorldOk(s.w)
    requires InstallOk(s, key, pod, c) && InstallStep(s, s', key, pod, c)
    ensures CallsOk(s') && ThreadsOk(s')
  {
    InstallRely(s, s', key, pod, c);
    InstallFacts(s, s', key, pod, c);
    OthersStable(s, s', key);
  }

  lemma InstallInv(s: State, s': State, key: Key, pod: Pod, c: Claim)
    requires Inv(s) && key in s.calls && s.calls[key] == Installing(pod, c) && InstallStep(s, s', key, pod, c)
    ensures Inv(s')
  {
    Parts(s);
    assert InstallOk(s, key, pod, c) by { CallKnows(s, key); }
    InstallCore(s, s', key, pod, c);
    InstallThreads(s, s', key, pod, c);
  }
}
