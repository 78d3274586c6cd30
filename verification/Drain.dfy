/**
 Draining the release queue. The drain works on a copy of the queue and takes the
 claims it released out of the live one, which may have changed meanwhile.
 */
module Drain {
  import opened Types
  import opened Sections
  import opened Custody
  import opened Provider

  function Flatten(arrivals: seq<seq<Claim>>): seq<Claim> {
    if arrivals == [] then [] else Flatten(arrivals[..|arrivals| - 1]) + arrivals[|arrivals| - 1]
  }

  /** The claims whose release failed, in order. */
  function Survivors(queue: seq<Claim>, outcomes: seq<bool>): seq<Claim>
    requires |queue| == |outcomes|
  {
    if queue == [] then []
    else
      var n := |queue| - 1;
      Survivors(queue[..n], outcomes[..n]) + if outcomes[n] then [] else [queue[n]]
  }

  function Calls(queue: seq<Claim>, outcomes: seq<bool>): seq<Released>
    requires |queue| == |outcomes|
  {
    seq(|queue|, i requires 0 <= i < |queue| => Released(queue[i].id, queue[i].token, outcomes[i]))
  }

  lemma {:induction false} SurvivorsAreQueued(queue: seq<Claim>, outcomes: seq<bool>)
    requires |queue| == |outcomes|
    ensures forall c :: c in Survivors(queue, outcomes) ==> c in queue
  {
    if queue != [] {
      var n := |queue| - 1;
      SurvivorsAreQueued(queue[..n], outcomes[..n]);
      assert queue == queue[..n] + [queue[n]];
    }
  }

  lemma {:induction false} FlattenElements(arrivals: seq<seq<Claim>>, i: nat)
    requires i <= |arrivals|
    ensures forall c :: c in Flatten(arrivals[..i]) ==> c in Flatten(arrivals)
    decreases |arrivals|
  {
    if i < |arrivals| {
      var rest := arrivals[..|arrivals| - 1];
      FlattenElements(rest, i);
      assert rest[..i] == arrivals[..i];
    } else {
      assert arrivals[..i] == arrivals;
    }
  }

  /** Taking one released claim out of the queue leaves the claims around it. */
  lemma WithoutMiddle(before: seq<Claim>, c: Claim, after: seq<Claim>)
    requires c.id !in QueueIds(before) && c.id !in QueueIds(after)
    ensures Without(before + [c] + after, c.id) == before + after
  {
    WithoutAppend(before + [c], after, c.id);
    WithoutAppend(before, [c], c.id);
    WithoutAbsent(before, c.id);
    WithoutAbsent(after, c.id);
    assert Without([c], c.id) == [];
    assert before + [] == before;
  }

  /** The queue during a drain: the failures so far, the claims not yet tried, and what has arrived. */
  function Draining(queue: seq<Claim>, outcomes: seq<bool>, arrivals: seq<seq<Claim>>, i: nat): seq<Claim>
    requires i <= |queue| == |outcomes| == |arrivals|
  {
    Survivors(queue[..i], outcomes[..i]) + (queue[i..] + Flatten(arrivals[..i]))
  }

  lemma NotElsewhere(queue: seq<Claim>, outcomes: seq<bool>, arrivals: seq<seq<Claim>>, i: nat)
    requires i < |queue| == |outcomes| == |arrivals| && DistinctIds(queue + Flatten(arrivals))
    ensures queue[i].id !in QueueIds(Survivors(queue[..i], outcomes[..i]))
    ensures queue[i].id !in QueueIds(queue[i + 1..] + Flatten(arrivals[..i + 1]))
  {
    var all := queue + Flatten(arrivals);
    SurvivorsAreQueued(queue[..i], outcomes[..i]);
    FlattenElements(arrivals, i + 1);
    forall c | c in queue[..i]
      ensures c.id != queue[i].id
    {
      var j :| 0 <= j < i && queue[..i][j] == c;
      assert all[j] == c && all[i] == queue[i];
    }
    forall c | c in queue[i + 1..]
      ensures c.id != queue[i].id
    {
      var j :| 0 <= j < |queue| - i - 1 && queue[i + 1..][j] == c;
      assert all[i + 1 + j] == c && all[i] == queue[i];
    }
    forall c | c in Flatten(arrivals)
      ensures c.id != queue[i].id
    {
      var j :| 0 <= j < |Flatten(arrivals)| && Flatten(arrivals)[j] == c;
      assert all[|queue| + j] == c && all[i] == queue[i];
    }
  }

  lemma SurvivorsStep(queue: seq<Claim>, outcomes: seq<bool>, i: nat)
    requires i < |queue| == |outcomes|
    ensures Survivors(queue[..i + 1], outcomes[..i + 1]) ==
            Survivors(queue[..i], outcomes[..i]) + if outcomes[i] then [] else [queue[i]]
  {
    assert queue[..i + 1][..i] == queue[..i] && outcomes[..i + 1][..i] == outcomes[..i];
  }

  lemma FlattenStep(arrivals: seq<seq<Claim>>, i: nat)
    requires i < |arrivals|
    ensures Flatten(arrivals[..i + 1]) == Flatten(arrivals[..i]) + arrivals[i]
  {
    assert arrivals[..i + 1][..i] == arrivals[..i];
  }

  lemma Regroup(kept: seq<Claim>, c: Claim, rest: seq<Claim>, come: seq<Claim>, now: seq<Claim>)
    ensures kept + ([c] + rest + come) + now == kept + [c] + (rest + (come + now))
  {
  }

  /** Around claim `i`: what survived before it, and what is still to come or has arrived. */
  lemma DrainShape(queue: seq<Claim>, outcomes: seq<bool>, arrivals: seq<seq<Claim>>, i: nat)
    requires i < |queue| == |outcomes| == |arrivals|
    ensures Draining(queue, outcomes, arrivals, i) + arrivals[i] ==
            Survivors(queue[..i], outcomes[..i]) + [queue[i]] + (queue[i + 1..] + Flatten(arrivals[..i + 1]))
  {
    FlattenStep(arrivals, i);
    assert queue[i..] == [queue[i]] + queue[i + 1..];
    Regroup(Survivors(queue[..i], outcomes[..i]), queue[i], queue[i + 1..], Flatten(arrivals[..i]), arrivals[i]);
  }

  lemma DrainsReleased(queue: seq<Claim>, outcomes: seq<bool>, arrivals: seq<seq<Claim>>, i: nat)
    requires i < |queue| == |outcomes| == |arrivals| && DistinctIds(queue + Flatten(arrivals)) && outcomes[i]
    ensures Draining(queue, outcomes, arrivals, i + 1) == Without(Draining(queue, outcomes, arrivals, i) + arrivals[i],
            queue[i].id)
  {
    NotElsewhere(queue, outcomes, arrivals, i);
    WithoutMiddle(Survivors(queue[..i], outcomes[..i]), queue[i], queue[i + 1..] + Flatten(arrivals[..i + 1]));
    DrainShape(queue, outcomes, arrivals, i);
    SurvivorsStep(queue, outcomes, i);
  }

  lemma DrainsKept(queue: seq<Claim>, outcomes: seq<bool>, arrivals: seq<seq<Claim>>, i: nat)
    requires i < |queue| == |outcomes| == |arrivals| && !outcomes[i]
    ensures Draining(queue, outcomes, arrivals, i + 1) == Draining(queue, outcomes, arrivals, i) + arrivals[i]
  {
    DrainShape(queue, outcomes, arrivals, i);
    SurvivorsStep(queue, outcomes, i);
  }

  lemma CallsNext(queue: seq<Claim>, outcomes: seq<bool>, i: nat)
    requires i < |queue| == |outcomes|
    ensures Calls(queue, outcomes)[..i + 1] == Calls(queue, outcomes)[..i] + [Released(queue[i].id, queue[i].token,
            outcomes[i])]
  {
  }

  /** The queue after one more release, with what joined meanwhile. */
  function Next(queue: seq<Claim>, arrived: seq<Claim>, ok: bool, id: SandboxId): seq<Claim> {
    if ok then Without(queue + arrived, id) else queue + arrived
  }

  lemma DrainsOne(queue: seq<Claim>, outcomes: seq<bool>, arrivals: seq<seq<Claim>>, i: nat)
    requires i < |queue| == |outcomes| == |arrivals| && DistinctIds(queue + Flatten(arrivals))
    ensures Draining(queue, outcomes, arrivals, i + 1) ==
            Next(Draining(queue, outcomes, arrivals, i), arrivals[i], outcomes[i], queue[i].id)
  {
    if outcomes[i] { DrainsReleased(queue, outcomes, arrivals, i); } else { DrainsKept(queue, outcomes, arrivals, i); }
  }

  lemma DrainEnds(queue: seq<Claim>, outcomes: seq<bool>, arrivals: seq<seq<Claim>>)
    requires |queue| == |outcomes| == |arrivals|
    ensures Draining(queue, outcomes, arrivals, |queue|) == Survivors(queue, outcomes) + Flatten(arrivals)
  {
    var n := |queue|;
    assert queue[..n] == queue && outcomes[..n] == outcomes && arrivals[..n] == arrivals;
  }

  /** The queue after `i` releases of a drain, step by step. */
  function Drained(queue: seq<Claim>, outcomes: seq<bool>, arrivals: seq<seq<Claim>>, i: nat): seq<Claim>
    requires i <= |queue| == |outcomes| == |arrivals|
  {
    if i == 0 then queue
    else Next(Drained(queue, outcomes, arrivals, i - 1), arrivals[i - 1], outcomes[i - 1], queue[i - 1].id)
  }

  lemma {:induction false} DrainedIs(queue: seq<Claim>, outcomes: seq<bool>, arrivals: seq<seq<Claim>>, i: nat)
    requires i <= |queue| == |outcomes| == |arrivals| && DistinctIds(queue + Flatten(arrivals))
    ensures Drained(queue, outcomes, arrivals, i) == Draining(queue, outcomes, arrivals, i)
  {
    if i == 0 {
      DrainBegins(queue, outcomes, arrivals);
    } else {
      var j: nat := i - 1;
      DrainedIs(queue, outcomes, arrivals, j);
      DrainsOne(queue, outcomes, arrivals, j);
    }
  }

  lemma DrainBegins(queue: seq<Claim>, outcomes: seq<bool>, arrivals: seq<seq<Claim>>)
    requires |queue| == |outcomes| == |arrivals|
    ensures Draining(queue, outcomes, arrivals, 0) == queue
  {
  }

  /** What a drain leaves: the claims whose release failed, in order, then the arrivals. */
  lemma DrainedAll(queue: seq<Claim>, outcomes: seq<bool>, arrivals: seq<seq<Claim>>)
    requires |queue| == |outcomes| == |arrivals| && DistinctIds(queue + Flatten(arrivals))
    ensures Drained(queue, outcomes, arrivals, |queue|) == Survivors(queue, outcomes) + Flatten(arrivals)
  {
    DrainedIs(queue, outcomes, arrivals, |queue|);
    DrainEnds(queue, outcomes, arrivals);
  }

  // -------------------------------------------------------------- the drain itself

  /** The outcomes of `n` releases. */
  function Outcomes(n: nat, releases: nat -> bool): (outcomes: seq<bool>)
    ensures |outcomes| == n && forall i :: 0 <= i < n ==> outcomes[i] == releases(i)
  {
    seq(n, (i: nat) => releases(i))
  }

  /** The store after `i` releases; `meanwhile(j, w)` is what it is by the time release `j` returns. */
  function DrainRun(w: Store, queue: seq<Claim>, releases: nat -> bool, meanwhile: (nat, Store) -> Store, i: nat): Store
    requires i <= |queue|
  {
    if i == 0 then w
    else
      var now := meanwhile(i - 1, DrainRun(w, queue, releases, meanwhile, i - 1));
      if releases(i - 1) then now.(m := Dequeue(now.m, queue[i - 1].id)) else now
  }

  /** One release of a drain; the store is `now` when it returns. */
  method DrainOne(p: Provider, c: Claim, ok: bool, now: Store)
    modifies p`pods, p`claims, p`tentative, p`quarantined, p`releasing, p`file, p`released
    ensures p.Stored() == if ok then now.(m := Dequeue(now.m, c.id)) else now
    ensures p.released == old(p.released) + [Released(c.id, c.token, ok)]
  {
    p.Release(c, ok);
    p.BecomeStore(now);
    if ok {
      p.releasing := Without(p.releasing, c.id);
    }
  }

  /** Releases every claim that was queued when the drain began, once, whatever happens to the store meanwhile. */
  method DrainReleases(p: Provider, releases: nat -> bool, meanwhile: (nat, Store) -> Store) returns (any: bool)
    modifies p`pods, p`claims, p`tentative, p`quarantined, p`releasing, p`file, p`released
    ensures var w, queue := old(p.Stored()), old(p.releasing);
            && p.Stored() == DrainRun(w, queue, releases, meanwhile, |queue|)
            && p.released == old(p.released) + Calls(queue, Outcomes(|queue|, releases))
            && (any <==> exists i :: 0 <= i < |queue| && releases(i))
  {
    var queue := p.releasing;
    ghost var w, outcomes := p.Stored(), Outcomes(|queue|, releases);
    any := false;
    for i := 0 to |queue|
      invariant p.Stored() == DrainRun(w, queue, releases, meanwhile, i)
      invariant p.released == old(p.released) + Calls(queue, outcomes)[..i]
      invariant any <==> exists j :: 0 <= j < i && releases(j)
    {
      CallsNext(queue, outcomes, i);
      DrainOne(p, queue[i], releases(i), meanwhile(i, p.Stored()));
      any := any || releases(i);
    }
  }

  /** One release of a drain takes the released claim out of the queue as it is by then, and touches nothing else. */
  lemma DrainTouches(w: Store, queue: seq<Claim>, releases: nat -> bool, meanwhile: (nat, Store) -> Store, i: nat)
    requires i < |queue|
    ensures var now := meanwhile(i, DrainRun(w, queue, releases, meanwhile, i));
            var next := DrainRun(w, queue, releases, meanwhile, i + 1);
            && next == now.(m := now.m.(releasing := next.m.releasing))
            && forall c :: c in next.m.releasing <==> c in now.m.releasing && !(releases(i) && c.id == queue[i].id)
  {
    WithoutElements(meanwhile(i, DrainRun(w, queue, releases, meanwhile, i)).m.releasing, queue[i].id);
  }

  /** What joins the queue during release `i` is `arrivals[i]`; no one else takes anything out. */
  ghost predicate Joins(meanwhile: (nat, Store) -> Store, arrivals: seq<seq<Claim>>) {
    forall i, w :: 0 <= i < |arrivals| ==> meanwhile(i, w).m.releasing == w.m.releasing + arrivals[i]
  }

  lemma {:induction false} RunIsDrained(w: Store, releases: nat -> bool, meanwhile: (nat, Store) -> Store,
                                        arrivals: seq<seq<Claim>>, i: nat)
    requires i <= |w.m.releasing| == |arrivals| && Joins(meanwhile, arrivals)
    ensures DrainRun(w, w.m.releasing, releases, meanwhile, i).m.releasing ==
            Drained(w.m.releasing, Outcomes(|w.m.releasing|, releases), arrivals, i)
  {
    if i > 0 { RunIsDrained(w, releases, meanwhile, arrivals, i - 1); }
  }

  /** What a drain leaves: the claims whose release failed, in order, then what joined, in order. */
  lemma DrainLeaves(w: Store, releases: nat -> bool, meanwhile: (nat, Store) -> Store, arrivals: seq<seq<Claim>>)
    requires |w.m.releasing| == |arrivals| && Joins(meanwhile, arrivals)
    requires DistinctIds(w.m.releasing + Flatten(arrivals))
    ensures DrainRun(w, w.m.releasing, releases, meanwhile, |w.m.releasing|).m.releasing ==
            Survivors(w.m.releasing, Outcomes(|w.m.releasing|, releases)) + Flatten(arrivals)
  {
    RunIsDrained(w, releases, meanwhile, arrivals, |w.m.releasing|);
    DrainedAll(w.m.releasing, Outcomes(|w.m.releasing|, releases), arrivals);
  }

  /** A queued claim survives or was released. */
  lemma {:induction false} SurvivesOrReleased(queue: seq<Claim>, outcomes: seq<bool>, c: Claim)
    requires |queue| == |outcomes| && c in queue
    ensures c in Survivors(queue, outcomes) || Released(c.id, c.token, true) in Calls(queue, outcomes)
  {
    var n := |queue| - 1;
    if c in queue[..n] {
      SurvivesOrReleased(queue[..n], outcomes[..n], c);
      assert Calls(queue, outcomes)[..n] == Calls(queue[..n], outcomes[..n]);
    } else {
      assert queue[n] == c;
      assert Calls(queue, outcomes)[n] == Released(c.id, c.token, outcomes[n]);
    }
  }

  /** Taking a released claim out of the queue leaves sound and durable tables so. */
  lemma DequeueStaysSound(m: Mem, f: StateFile, id: SandboxId)
    requires Sound(m) && Durable(f, m)
    ensures Sound(Dequeue(m, id)) && Durable(f, Dequeue(m, id))
  {
    WithoutElements(m.releasing, id);
    WithoutDistinct(m.releasing, id);
  }

  /** A credential that nobody else loses is held after the drain, or a release of its sandbox succeeded. */
  lemma {:induction false} DrainKeeps(w: Store, queue: seq<Claim>, releases: nat -> bool,
                                      meanwhile: (nat, Store) -> Store, i: nat, id: SandboxId, token: Token)
    requires i <= |queue| && Holds(w.m, id, token)
    requires forall j, w': Store :: Holds(w'.m, id, token) ==> Holds(meanwhile(j, w').m, id, token)
    ensures || Holds(DrainRun(w, queue, releases, meanwhile, i).m, id, token)
            || exists j :: 0 <= j < i && releases(j) && queue[j].id == id
  {
    if i > 0 {
      DrainKeeps(w, queue, releases, meanwhile, i - 1, id, token);
      var before := DrainRun(w, queue, releases, meanwhile, i - 1);
      if Holds(before.m, id, token) {
        DequeueKeeps(meanwhile(i - 1, before).m, queue[i - 1].id, id, token);
      }
    }
  }

  lemma DequeueKeeps(m: Mem, released: SandboxId, id: SandboxId, token: Token)
    requires Holds(m, id, token)
    ensures Holds(Dequeue(m, released), id, token) || released == id
  {
    WithoutElements(m.releasing, released);
  }
}
