/**
 The critical sections of the provider: what each stretch of code that holds
 `mu` does to the tables, as a function of the tables. The class `Provider`
 implements them and the concurrent machine interleaves them.
 */
module Sections {
  import opened Types

  // ---------------------------------------------------------------- creating

  /** The claim a grant makes for a Pod. */
  function FreshClaim(pod: Pod, g: Grant, now: Time): Claim {
    Claim(g.id, g.token, g.address, pod.uid, Some(pod.Authority()), Some(now), g.deadline, None)
  }

  /** A fresh claim enters its key, tracked and tentative. */
  function Install(m: Mem, key: Key, pod: Pod, c: Claim): Mem {
    m.(claims := m.claims[key := c],
       pods := m.pods[key := pod.WithClaim(c.id)],
       tentative := m.tentative + {key})
  }

  datatype Adoption = Adopted(c: Claim) | Refused(c: Claim) | NothingToAdopt

  /** What an adopting Pod finds at its key. */
  function Adoptable(m: Mem, key: Key, pod: Pod): Adoption {
    if key !in m.claims || !m.Settled(key) then NothingToAdopt
    else if m.claims[key].AdoptableBy(pod) then Adopted(m.claims[key].BoundTo(pod))
    else Refused(m.claims[key])
  }

  /** Rebinds an adoptable row to the Pod; a row held for another owner goes to the release queue. */
  function Adopt(m: Mem, key: Key, pod: Pod): Mem {
    match Adoptable(m, key, pod)
    case Adopted(c) => m.(claims := m.claims[key := c], pods := m.pods[key := pod])
    case Refused(c) => m.(claims := m.claims - {key}, releasing := m.releasing + [c])
    case NothingToAdopt => m
  }

  function ClearMarker(m: Mem, key: Key): Mem {
    m.(tentative := m.tentative - {key})
  }

  /** Forgets a sandbox that was released; the markers go whatever row is there now. */
  function Withdraw(m: Mem, key: Key, id: SandboxId): Mem {
    var m' := if m.Row(key, id) then m.(claims := m.claims - {key}, pods := m.pods - {key}) else m;
    m'.(tentative := m'.tentative - {key}, quarantined := m'.quarantined - {key})
  }

  function Drop(m: Mem, key: Key, id: SandboxId): Mem {
    if m.Row(key, id) then m.(claims := m.claims - {key}) else m
  }

  function Refresh(m: Mem, key: Key, id: SandboxId, deadline: Option<Time>): Mem {
    if m.Row(key, id) then m.(claims := m.claims[key := m.claims[key].(deadline := deadline)]) else m
  }

  function Track(m: Mem, key: Key, pod: Pod): Mem {
    m.(pods := m.pods[key := pod])
  }

  // ---------------------------------------------------------------- deleting

  function Forget(m: Mem, key: Key): Mem {
    m.(pods := m.pods - {key})
  }

  /** Untracks the Pod and records the owner a re-check asks about. */
  function PreserveRow(m: Mem, key: Key, id: SandboxId, owner: Option<OwnerRef>): Mem {
    var m' := m.(pods := m.pods - {key});
    if m.Row(key, id) then m'.(claims := m.claims[key := m.claims[key].(owner := owner)]) else m'
  }

  // ------------------------------------------------------ startup verification

  /** The quarantined rows, with the sandbox each is for. */
  function Unverified(m: Mem): map<Key, SandboxId> {
    map k | k in m.quarantined && k in m.claims :: m.claims[k].id
  }

  /** The rows of `before` that are still for the same sandbox: the ones a listing may judge. */
  function Judged(m: Mem, before: map<Key, SandboxId>): set<Key> {
    set k | k in before && m.Row(k, before[k])
  }

  /** A row without a deadline takes the one the node lists. */
  function Backdated(c: Claim, live: Listing): Claim {
    if c.id in live && c.deadline.None? then c.(deadline := live[c.id]) else c
  }

  /** Listed rows leave quarantine, unlisted ones leave the table. */
  function Verify(m: Mem, before: map<Key, SandboxId>, live: Listing): Mem {
    var judged := Judged(m, before);
    m.(claims := map k | k in m.claims && (k in judged ==> m.claims[k].id in live) ::
                   if k in judged then Backdated(m.claims[k], live) else m.claims[k],
       quarantined := m.quarantined - judged)
  }

  /** A row from a table without claim times gets this load's time. */
  function Stamped(c: Claim, now: Time): Claim {
    if c.claimedAt.None? then c.(claimedAt := Some(now)) else c
  }

  /** The tables a start builds from the state file, every row quarantined. */
  function Load(file: StateFile, now: Time): Mem {
    Mem(map[], map k | k in file.claims :: Stamped(file.claims[k], now), {}, file.claims.Keys, file.releasing)
  }

  // -------------------------------------------------------------- persistence

  /** The durable rows plus the committing one, and the whole queue. */
  function Snapshot(m: Mem, committing: Option<Key>): StateFile {
    StateFile(map k | k in m.claims && (k !in m.tentative || committing == Some(k)) :: m.claims[k], m.releasing)
  }

  /** The file holds the credential of the sandbox. */
  ghost predicate InFile(file: StateFile, id: SandboxId, token: Token) {
    || (exists k :: k in file.claims && file.claims[k].id == id && file.claims[k].token == token)
    || (exists c :: c in file.releasing && c.id == id && c.token == token)
  }

  /** The tables hold the credential of the sandbox. */
  ghost predicate Holds(m: Mem, id: SandboxId, token: Token) {
    || (exists k :: k in m.claims && m.claims[k].id == id && m.claims[k].token == token)
    || (exists c :: c in m.releasing && c.id == id && c.token == token)
  }

  // -------------------------------------------------------------- lease watch

  /** The settled rows of tracked Pods that are past their cached deadline. */
  function ExpiredRows(m: Mem, now: Time): map<Key, Claim> {
    map k | k in m.claims && m.claims[k].Expired(now) && m.Settled(k) && k in m.pods :: m.claims[k]
  }

  // ------------------------------------------------------------ owner re-check

  /** The settled rows with a recorded owner and no tracked Pod. */
  function PreservedRows(m: Mem): map<Key, Claim> {
    map k | k in m.claims && m.claims[k].owner.Some? && k !in m.pods && m.Settled(k) :: m.claims[k]
  }

  /** The row can still be withdrawn: same sandbox, no Pod. */
  predicate Withdrawable(m: Mem, key: Key, c: Claim) {
    m.Row(key, c.id) && key !in m.pods
  }

  function WithdrawForRelease(m: Mem, key: Key, c: Claim): Mem {
    if Withdrawable(m, key, c) then m.(claims := m.claims - {key}, releasing := m.releasing + [c]) else m
  }

  /** The queue without the entries of `id`, in order. */
  function Without(queue: seq<Claim>, id: SandboxId): seq<Claim> {
    if queue == [] then []
    else if queue[0].id == id then Without(queue[1..], id)
    else [queue[0]] + Without(queue[1..], id)
  }

  function Dequeue(m: Mem, id: SandboxId): Mem {
    m.(releasing := Without(m.releasing, id))
  }

  ghost predicate DistinctRows(claims: map<Key, Claim>) {
    forall k1, k2 :: k1 in claims && k2 in claims && claims[k1].id == claims[k2].id ==> k1 == k2
  }

  /** Each sandbox has at most one place in a table and its queue. */
  ghost predicate OnePlaceEach(claims: map<Key, Claim>, queue: seq<Claim>) {
    && DistinctRows(claims)
    && DistinctIds(queue)
    && (forall k, c :: k in claims && c in queue ==> claims[k].id != c.id)
  }

  ghost predicate DistinctIds(queue: seq<Claim>) {
    forall i, j :: 0 <= i < j < |queue| ==> queue[i].id != queue[j].id
  }

  lemma {:induction false} WithoutElements(queue: seq<Claim>, id: SandboxId)
    ensures forall c :: c in Without(queue, id) <==> c in queue && c.id != id
  {
    if queue != [] {
      WithoutElements(queue[1..], id);
      assert queue == [queue[0]] + queue[1..];
    }
  }

  lemma {:induction false} WithoutDistinct(queue: seq<Claim>, id: SandboxId)
    requires DistinctIds(queue)
    ensures DistinctIds(Without(queue, id))
  {
    if queue != [] {
      var rest := queue[1..];
      assert forall i, j :: 0 <= i < j < |rest| ==> rest[i] == queue[i + 1] && rest[j] == queue[j + 1];
      WithoutDistinct(rest, id);
      WithoutElements(rest, id);
      var kept := Without(rest, id);
      forall j | 0 <= j < |kept|
        ensures kept[j].id != queue[0].id
      {
        assert kept[j] in rest;
        var i :| 0 <= i < |rest| && rest[i] == kept[j];
        assert rest[i] == queue[i + 1];
      }
    }
  }

  lemma {:induction false} WithoutAppend(queue: seq<Claim>, more: seq<Claim>, id: SandboxId)
    ensures Without(queue + more, id) == Without(queue, id) + Without(more, id)
  {
    if queue == [] {
      assert queue + more == more;
    } else {
      assert (queue + more)[1..] == queue[1..] + more;
      WithoutAppend(queue[1..], more, id);
    }
  }

  lemma {:induction false} WithoutAbsent(queue: seq<Claim>, id: SandboxId)
    requires id !in QueueIds(queue)
    ensures Without(queue, id) == queue
  {
    if queue != [] {
      assert queue[0] in queue && forall c :: c in queue[1..] ==> c in queue;
      WithoutAbsent(queue[1..], id);
    }
  }

  // -------------------------------------------------------------------- in any order

  function KeysOf<T>(xs: seq<T>, key: T -> Key): (keys: seq<Key>)
    ensures |keys| == |xs| && forall i :: 0 <= i < |xs| ==> keys[i] == key(xs[i])
  {
    seq(|xs|, i requires 0 <= i < |xs| => key(xs[i]))
  }

  /** The order has each element once. */
  ghost predicate Visits<T(!new)>(order: seq<T>, keys: set<T>) {
    && (forall k :: k in order <==> k in keys)
    && (forall i, j :: 0 <= i < j < |order| ==> order[i] != order[j])
  }

  lemma VisitsOne<T(!new)>(order: seq<T>, keys: set<T>, key: T)
    requires Visits(order, keys) && key !in keys
    ensures Visits(order + [key], keys + {key})
  {
  }
}
