/**
 What the critical sections owe the credentials: sound tables stay sound, and what
 is on file stays on file.
 */
module Custody {
  import opened Types
  import opened Sections

  /** What the outside world answers during one create, in the order it is asked. */
  datatype Answers = Answers(
    now: Time,
    verifying: Option<Listing>,        // the listing that settles a quarantined row; None when it fails
    expiring: Option<Listing>,         // the listing that settles a past-deadline row
    adoptSaved: bool,                  // the log-only save after an adoption
    returned: bool,                    // the release of a stranded sandbox
    grant: Option<Grant>,              // the node's answer to the claim
    committed: bool,                   // the write of the fresh claim
    undone: bool                       // the release that undoes it
  )

  /** A call of the node's release, with its outcome. */
  datatype Released = Released(id: SandboxId, token: Token, ok: bool)

  /** The tables with the state file beside them. */
  datatype Store = Store(m: Mem, file: StateFile)

  datatype Phase = Pending | Running | Failed

  datatype Published = Published(pod: Pod, phase: Phase, start: Option<Time>)

  /** The ids a table and its queue hold are distinct, and the markers lie inside the table. */
  ghost predicate Sound(m: Mem) {
    && OnePlaceEach(m.claims, m.releasing)
    && m.tentative !! m.quarantined
    && m.tentative + m.quarantined <= m.claims.Keys
  }

  /** The file has the credential of every row that is not tentative and of every queued claim. */
  ghost predicate Durable(file: StateFile, m: Mem) {
    && (forall k :: k in m.claims && k !in m.tentative ==> InFile(file, m.claims[k].id, m.claims[k].token))
    && (forall c :: c in m.releasing ==> InFile(file, c.id, c.token))
  }

  // ----------------------------------------------------- rows dropped or refreshed

  /** The rows of `gone` are dropped, the others may have a new deadline. */
  ghost predicate Trims(m: Mem, m': Mem, gone: set<Key>) {
    && m' == m.(claims := m'.claims, quarantined := m'.quarantined)
    && m'.quarantined <= m.quarantined && m'.quarantined <= m'.claims.Keys
    && gone !! m.tentative
    && m'.claims.Keys == m.claims.Keys - gone
    && (forall k :: k in m'.claims ==> m'.claims[k] == m.claims[k].(deadline := m'.claims[k].deadline))
  }

  lemma TrimsSound(m: Mem, m': Mem, gone: set<Key>)
    requires Sound(m) && Trims(m, m', gone)
    ensures Sound(m')
    ensures forall f :: Durable(f, m) ==> Durable(f, m')
  {
  }

  lemma TrimsIds(m: Mem, m': Mem, gone: set<Key>)
    requires Trims(m, m', gone)
    ensures Ids(m'.claims, m'.releasing) <= Ids(m.claims, m.releasing)
  {
    forall k | k in m'.claims
      ensures m'.claims[k].id in TableIds(m.claims)
    {
      assert m.claims[k].id == m'.claims[k].id;
    }
  }

  lemma VerifyTrims(m: Mem, live: Listing)
    requires Sound(m)
    ensures Trims(m, Verify(m, Unverified(m), live), set k | k in m.quarantined && m.claims[k].id !in live)
  {
    assert Judged(m, Unverified(m)) == m.quarantined;
  }

  lemma RefreshTrims(m: Mem, key: Key, id: SandboxId, deadline: Option<Time>)
    requires Sound(m)
    ensures Trims(m, Refresh(m, key, id, deadline), {})
  {
  }

  lemma DropTrims(m: Mem, key: Key, id: SandboxId)
    requires Sound(m) && m.Settled(key)
    ensures Trims(m, Drop(m, key, id), if m.Row(key, id) then {key} else {})
  {
  }

  // ------------------------------------------------------------------- adoption

  lemma AdoptSound(m: Mem, key: Key, pod: Pod)
    requires Sound(m)
    ensures Sound(Adopt(m, key, pod))
  {
    if Adoptable(m, key, pod).Refused? {
      QueueAppended(m.releasing, m.claims[key]);
    }
  }

  lemma QueueAppended(queue: seq<Claim>, c: Claim)
    requires DistinctIds(queue) && forall q :: q in queue ==> q.id != c.id
    ensures DistinctIds(queue + [c]) && forall q :: q in queue + [c] <==> q in queue || q == c
  {
  }

  lemma AdoptDurable(f: StateFile, m: Mem, key: Key, pod: Pod)
    requires Sound(m) && Durable(f, m)
    ensures Durable(f, Adopt(m, key, pod))
  {
    if Adoptable(m, key, pod).Refused? {
      QueueAppended(m.releasing, m.claims[key]);
    }
  }

  // ------------------------------------------------------------- withdraw, install

  lemma WithdrawSound(m: Mem, key: Key)
    requires Sound(m) && key in m.claims
    ensures Sound(Withdraw(m, key, m.claims[key].id))
    ensures forall f :: Durable(f, m) ==> Durable(f, Withdraw(m, key, m.claims[key].id))
  {
  }

  lemma InstallSound(m: Mem, key: Key, pod: Pod, c: Claim)
    requires Sound(m) && key !in m.claims && c.id !in Ids(m.claims, m.releasing)
    ensures Sound(Install(m, key, pod, c))
    ensures forall f :: Durable(f, m) ==> Durable(f, Install(m, key, pod, c))
  {
  }

  /** A write that lands makes the rows it covers durable. */
  lemma WriteDurable(m: Mem, committing: Option<Key>)
    ensures forall k :: k in m.claims && (k !in m.tentative || committing == Some(k)) ==>
              InFile(Snapshot(m, committing), m.claims[k].id, m.claims[k].token)
    ensures Durable(Snapshot(m, committing), m)
  {
    var f := Snapshot(m, committing);
    forall k | k in m.claims && (k !in m.tentative || committing == Some(k))
      ensures InFile(f, m.claims[k].id, m.claims[k].token)
    {
      assert k in f.claims && f.claims[k] == m.claims[k];
    }
  }

  lemma PreserveSound(m: Mem, f: StateFile, key: Key, id: SandboxId, owner: Option<OwnerRef>)
    requires Sound(m) && Durable(f, m)
    ensures var m' := PreserveRow(m, key, id, owner); Sound(m') && Durable(f, m')
  {
  }

  lemma LandedSound(m: Mem, key: Key, pod: Pod, c: Claim)
    requires Sound(m) && key !in m.claims && c.id !in Ids(m.claims, m.releasing)
    ensures Sound(ClearMarker(Install(m, key, pod, c), key))
  {
    InstallSound(m, key, pod, c);
  }

  lemma LandedDurable(i: Mem, key: Key)
    ensures Durable(Snapshot(i, Some(key)), ClearMarker(i, key))
  {
    WriteDurable(i, Some(key));
  }

  lemma UndoneSound(m: Mem, f: StateFile, key: Key, pod: Pod, c: Claim)
    requires Sound(m) && Durable(f, m) && key !in m.claims && c.id !in Ids(m.claims, m.releasing)
    ensures var m' := Withdraw(Install(m, key, pod, c), key, c.id); Sound(m') && Durable(f, m')
  {
    InstallSound(m, key, pod, c);
    WithdrawSound(Install(m, key, pod, c), key);
  }
}
