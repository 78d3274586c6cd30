/**
 Runs of the machine in which one thread steps on its own, and what a state of the
 machine shows of the things the class keeps.
 */
module Solo {
  import opened Types
  import opened Machine
  import opened Invariant
  import opened Reachability
  import C = Custody
  import O = Outcome

  datatype Thread = OfKey(key: Key) | Starting | Verifying | Watching | Ticking

  /** The action is one the thread takes. */
  predicate Owns(thread: Thread, a: Action) {
    match a
    case Boot(_) => thread.Starting?
    case BootPersist(_) => thread.Starting?
    case StartCreate(k, _) => thread == OfKey(k)
    case StartUpdate(k, _) => thread == OfKey(k)
    case StartDelete(k, _) => thread == OfKey(k)
    case Advance(k, _) => thread == OfKey(k)
    case SaveBegin(saver) => thread == if saver.ByCall? then OfKey(saver.key) else Ticking
    case SaveRename => thread.OfKey? || thread.Ticking?
    case SaveEnd(_) => thread.OfKey? || thread.Ticking?
    case VerifyBegin => thread.Verifying?
    case VerifyListed(_) => thread.Verifying? || thread.Starting?
    case VerifyFails => thread.Verifying? || thread.Starting?
    case VerifyJudge => thread.Verifying? || thread.Starting?
    case LeaseBegin(_) => thread.Watching?
    case LeaseListed(_) => thread.Watching?
    case LeaseFails => thread.Watching?
    case LeaseJudge(_) => thread.Watching?
    case LeaseEnd => thread.Watching?
    case RecheckBegin => thread.Ticking?
    case RecheckSkip(_) => thread.Ticking?
    case RecheckAsk(_, _) => thread.Ticking?
    case RecheckWithdraw => thread.Ticking?
    case DrainBegin => thread.Ticking?
    case DrainRelease(_) => thread.Ticking?
    case DrainRemove => thread.Ticking?
    case DrainEnd => thread.Ticking?
    case _ => false
  }

  ghost predicate Takes(states: seq<State>, actions: seq<Action>, thread: Thread, i: nat)
    requires i + 1 < |states| == |actions| + 1
  {
    Owns(thread, actions[i]) && Step(states[i], actions[i], states[i + 1])
  }

  ghost predicate Alone(states: seq<State>, actions: seq<Action>, s: State, s': State, thread: Thread) {
    && |states| == |actions| + 1 && states[0] == s && states[|actions|] == s'
    && forall i :: 0 <= i < |actions| ==> Takes(states, actions, thread, i)
  }

  /** The thread leads from `s` to `s'` by steps of its own. */
  ghost predicate Leads(s: State, s': State, thread: Thread) {
    exists states, actions :: Alone(states, actions, s, s', thread)
  }

  /** The thread has come from `s0` on its own, and is at a reachable state. */
  ghost predicate On(s0: State, s: State, thread: Thread) {
    Leads(s0, s, thread) && Reachable(s)
  }

  lemma Stays(s: State, thread: Thread)
    ensures Leads(s, s, thread)
  {
    var none: seq<Action> := [];
    assert Alone([s], none, s, s, thread);
  }

  lemma Onward(s0: State, s: State, a: Action, s': State, thread: Thread)
    requires On(s0, s, thread) && Owns(thread, a) && Step(s, a, s')
    ensures On(s0, s', thread)
  {
    Next(s, a, s');
    var states, actions :| Alone(states, actions, s0, s, thread);
    var states', actions' := states + [s'], actions + [a];
    forall i | 0 <= i < |actions'|
      ensures Takes(states', actions', thread, i)
    {
      if i < |actions| { assert Takes(states, actions, thread, i); }
    }
    assert Alone(states', actions', s0, s', thread);
  }

  lemma Sounds(s: State)
    requires Reachable(s)
    ensures C.Sound(s.mem)
  {
    ReachableInv(s);
    Parts(s);
  }

  // ---------------------------------------------------------------- what a state shows

  /** The releases asked of the node, as the history has them. */
  function Releases(log: seq<Event>): seq<C.Released> {
    if log == [] then []
    else
      var e := log[|log| - 1];
      Releases(log[..|log| - 1]) + if e.ReleaseCalled? then [C.Released(e.id, e.token, e.ok)] else []
  }

  /** The statuses pushed to the kubelet. */
  function Pushes(log: seq<Event>): seq<C.Published> {
    if log == [] then []
    else
      var e := log[|log| - 1];
      Pushes(log[..|log| - 1]) +
      if e.Status? && e.pushed then [C.Published(e.pod, if e.running then C.Running else C.Failed, e.start)] else []
  }

  lemma LogShows(log: seq<Event>, e: Event)
    ensures Releases(log + [e]) == Releases(log) + if e.ReleaseCalled? then [C.Released(e.id, e.token, e.ok)] else []
    ensures Pushes(log + [e]) == Pushes(log) + if !e.Status? || !e.pushed then []
                                 else [C.Published(e.pod, if e.running then C.Running else C.Failed, e.start)]
  {
    assert (log + [e])[..|log|] == log;
  }

  /** An event that is neither a release nor a push shows nowhere. */
  lemma Unseen(log: seq<Event>, e: Event)
    requires !e.ReleaseCalled? && !e.Status?
    ensures Releases(log + [e]) == Releases(log) && Pushes(log + [e]) == Pushes(log)
  {
    LogShows(log, e);
  }

  /** A release shows once. */
  lemma ReleaseShows(log: seq<Event>, c: Claim, ok: bool)
    ensures var log' := log + [ReleaseCalled(c.id, c.token, ok)];
            Releases(log') == Releases(log) + [C.Released(c.id, c.token, ok)] && Pushes(log') == Pushes(log)
  {
    LogShows(log, ReleaseCalled(c.id, c.token, ok));
  }

  function ViewOf(s: State): O.View {
    O.View(s.mem, s.disk, Releases(s.w.log), Pushes(s.w.log))
  }
}
