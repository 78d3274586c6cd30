/**
 Facts a thread remembers stay true under the steps of the others.
 */
module Stability {
  import opened Types
  import opened Machine
  import opened Invariant

  lemma LogMember(log: seq<Event>, log': seq<Event>, e: Event)
    requires log <= log' && e in log
    ensures e in log'
  {
    var i :| 0 <= i < |log| && log[i] == e;
    assert log'[i] == e;
  }

  lemma WarrantedGrows(genesis: StateFile, log: seq<Event>, log': seq<Event>, id: SandboxId)
    requires log <= log' && Warranted(genesis, log, id)
    ensures Warranted(genesis, log', id)
  {
    if id !in QueueIds(genesis.releasing) {
      var e :| e in log && Justifies(e, id);
      LogMember(log, log', e);
    }
  }

  lemma HeldByGrows(genesis: StateFile, log: seq<Event>, log': seq<Event>, id: SandboxId, uid: Uid)
    requires log <= log' && HeldBy(genesis, log, id, uid)
    ensures HeldBy(genesis, log', id, uid)
  {
    if !(exists k :: k in genesis.claims && genesis.claims[k].id == id && genesis.claims[k].podUid == uid) {
      var e :| e in log && (e.Taken? || e.Rebound?) && e.c.id == id && e.c.podUid == uid;
      LogMember(log, log', e);
    }
  }

  lemma HeldUnderGrows(genesis: StateFile, log: seq<Event>, log': seq<Event>, id: SandboxId, authority: Uid)
    requires log <= log' && HeldUnder(genesis, log, id, authority)
    ensures HeldUnder(genesis, log', id, authority)
  {
    if exists e :: e in log && (e.Taken? || e.Rebound?) && e.c.id == id && e.c.authority == Some(authority) {
      var e :| e in log && (e.Taken? || e.Rebound?) && e.c.id == id && e.c.authority == Some(authority);
      LogMember(log, log', e);
    }
  }

  lemma KeptForGrows(genesis: StateFile, log: seq<Event>, log': seq<Event>, id: SandboxId, uid: Uid)
    requires log <= log' && KeptFor(genesis, log, id, uid)
    ensures KeptFor(genesis, log', id, uid)
  {
    if exists e :: e in log && e.OwnerRecorded? && e.id == id && e.owner.uid == uid {
      var e :| e in log && e.OwnerRecorded? && e.id == id && e.owner.uid == uid;
      LogMember(log, log', e);
    }
  }

  lemma TracedGrows(genesis: StateFile, log: seq<Event>, log': seq<Event>, c: Claim)
    requires log <= log' && Traced(genesis, log, c)
    ensures Traced(genesis, log', c)
  {
    HeldByGrows(genesis, log, log', c.id, c.podUid);
    if c.authority.Some? { HeldUnderGrows(genesis, log, log', c.id, c.authority.value); }
    if c.owner.Some? { KeptForGrows(genesis, log, log', c.id, c.owner.value.uid); }
  }

  /** A file, or a table with its queue, keeps its facts as the history grows. */
  lemma ContentGrows(claims: map<Key, Claim>, queue: seq<Claim>, w: World, w': World)
    requires Content(claims, queue, w) && WorldGrows(w, w')
    ensures Content(claims, queue, w')
  {
    forall k | k in claims
      ensures Known(w', claims[k]) && Traced(w'.genesis, w'.log, claims[k])
    {
      TracedGrows(w.genesis, w.log, w'.log, claims[k]);
    }
    forall c | c in queue
      ensures Known(w', c) && Warranted(w'.genesis, w'.log, c.id)
    {
      WarrantedGrows(w.genesis, w.log, w'.log, c.id);
    }
  }

  lemma {:induction false} LogOkAppend(genesis: StateFile, log: seq<Event>, e: Event)
    requires LogOk(genesis, log) && EventOk(genesis, log, e)
    ensures LogOk(genesis, log + [e])
  {
    var log' := log + [e];
    forall i | 0 <= i < |log'|
      ensures EventOk(genesis, log'[..i], log'[i])
    {
      if i < |log| {
        assert log'[..i] == log[..i];
      } else {
        assert log'[..i] == log;
      }
    }
  }

  lemma BeforeStable(s: State, s': State, before: map<Key, SandboxId>)
    requires BeforeOk(s, before) && Rely(s, s')
    ensures BeforeOk(s', before)
  {
  }

  lemma CallStable(s: State, s': State, key: Key, call: Call)
    requires LifeOk(s) && CallOk(s, key, call) && Rely(s, s') && KeyStays(s, s', key)
    ensures CallOk(s', key, call)
  {
    match call
    case ListUnverified(pod, before) => BeforeStable(s, s', before);
    case JudgeUnverified(pod, before, live) => BeforeStable(s, s', before);
    case AdoptSaving(pod, c) => HeldStable(s, s', key, pod, c);
    case PushRunning(pod, c) => HeldStable(s, s', key, pod, c);
    case Installing(pod, c) => TracedGrows(s.w.genesis, s.w.log, s'.w.log, c);
    case Committing(pod, c) =>
    case ReturnStranded(pod, c) => LogMember(s.w.log, s'.w.log, PersistFailed(c.id));
    case Undoing(pod, c) => LogMember(s.w.log, s'.w.log, PersistFailed(c.id));
    case Releasing(pod, c) => WarrantedGrows(s.w.genesis, s.w.log, s'.w.log, c.id);
    case _ =>
  }

  lemma CallStays(s: State, s': State, key: Key)
    requires LifeOk(s) && CallsOk(s) && Rely(s, s') && KeyStays(s, s', key)
    requires key in s.calls && key in s'.calls && s'.calls[key] == s.calls[key]
    ensures CallAt(s', key)
  {
    CallKnows(s, key);
    CallStable(s, s', key, s.calls[key]);
  }

  lemma HeldStable(s: State, s': State, key: Key, pod: Pod, c: Claim)
    requires LifeOk(s) && HeldOk(s, key, pod, c) && Rely(s, s') && KeyStays(s, s', key)
    ensures HeldOk(s', key, pod, c)
  {
  }

  lemma ThreadsStable(s: State, s': State)
    requires ThreadsOk(s) && Rely(s, s')
    ensures VerifierOk(s', s.verifier) && LeaseOk(s', s.lease) && RecheckOk(s', s.recheck)
  {
    if s.verifier.VList? || s.verifier.VJudge? { BeforeStable(s, s', s.verifier.before); }
    RecheckStable(s, s', s.recheck);
  }

  lemma RecheckStable(s: State, s': State, r: Recheck)
    requires RecheckOk(s, r) && Rely(s, s')
    ensures RecheckOk(s', r)
  {
    match r
    case RAsk(todo, _) => TodoStable(s, s', todo);
    case RWithdraw(key, c, todo, _) =>
      TodoStable(s, s', todo);
      WarrantedGrows(s.w.genesis, s.w.log, s'.w.log, c.id);
    case RDrain(queued, _) => DrainStable(s, s', queued);
    case RRemove(c, queued, _) => DrainStable(s, s', queued);
    case _ =>
  }

  lemma TodoStable(s: State, s': State, todo: map<Key, Claim>)
    requires TodoOk(s, todo) && Rely(s, s')
    ensures TodoOk(s', todo)
  {
    forall k | k in todo
      ensures Preserved(s'.w, todo[k])
    {
      assert Preserved(s.w, todo[k]);
      KeptForGrows(s.w.genesis, s.w.log, s'.w.log, todo[k].id, todo[k].owner.value.uid);
    }
  }

  lemma DrainStable(s: State, s': State, queued: seq<Claim>)
    requires DrainOk(s, queued) && Rely(s, s')
    ensures DrainOk(s', queued)
  {
    forall c | c in queued
      ensures Warranted(s'.w.genesis, s'.w.log, c.id)
    {
      WarrantedGrows(s.w.genesis, s.w.log, s'.w.log, c.id);
    }
  }

  /** A step of no call: every call and every thread keeps its facts. */
  lemma AllStable(s: State, s': State)
    requires LifeOk(s) && CallsOk(s) && ThreadsOk(s) && Rely(s, s') && s'.calls == s.calls
    requires forall k :: k in s.calls ==> KeyStays(s, s', k)
    ensures CallsOk(s')
    ensures VerifierOk(s', s.verifier) && LeaseOk(s', s.lease) && RecheckOk(s', s.recheck)
  {
    ThreadsStable(s, s');
    forall k | k in s.calls
      ensures CallAt(s', k)
    {
      CallStays(s, s', k);
    }
  }

  /** A step of the call at `key`: the other calls and the threads keep their facts. */
  lemma OthersStable(s: State, s': State, key: Key)
    requires LifeOk(s) && CallsOk(s) && ThreadsOk(s) && Rely(s, s')
    requires forall k :: k in s'.calls && k != key ==> k in s.calls && s'.calls[k] == s.calls[k]
    requires forall k :: k in s.calls && k != key ==> KeyStays(s, s', k)
    requires s'.verifier == s.verifier && s'.lease == s.lease && s'.recheck == s.recheck
    requires CallAt(s', key)
    ensures CallsOk(s') && ThreadsOk(s')
  {
    ThreadsStable(s, s');
    forall k | k in s'.calls && k != key
      ensures CallAt(s', k)
    {
      CallStays(s, s', k);
    }
  }
}
