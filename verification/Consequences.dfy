/**
 What follows from the outcome of a call: no credential is lost, nobody else is
 disturbed, and a create that succeeds has bound one durable row.
 */
module Consequences {
  import opened Types
  import opened Ownership
  import opened Sections
  import opened Custody
  import opened Outcome

  /** A listing of the call does not have the sandbox. */
  predicate Absent(a: Answers, id: SandboxId) {
    || (a.verifying.Some? && id !in a.verifying.value)
    || (a.expiring.Some? && id !in a.expiring.value)
  }

  /** The row of a slot, if any, has this credential. */
  predicate HasCredential(slot: Slot, id: SandboxId, token: Token) {
    slot.row.Some? && slot.row.value.id == id && slot.row.value.token == token
  }

  lemma HeldInSlot(m: Mem, k: Key, id: SandboxId, token: Token)
    requires HasCredential(SlotAt(m, k), id, token)
    ensures Holds(m, id, token)
  {
    assert k in m.claims && m.claims[k].id == id && m.claims[k].token == token;
  }

  /** A listing drops a slot's credential only if it does not have the sandbox. */
  lemma CheckedKeeps(slot: Slot, a: Answers, id: SandboxId, token: Token)
    requires HasCredential(slot, id, token)
    ensures HasCredential(Checked(slot, a), id, token) || Absent(a, id)
    ensures HasCredential(Finds(slot, a), id, token) || Absent(a, id)
  {
  }

  /** What a create does with the credential it finds in its slot. */
  lemma LeftKeeps(v: View, v': View, slot: Slot, pod: Pod, a: Answers, id: SandboxId, token: Token)
    requires HasCredential(slot, id, token) && !slot.quarantined && Serves(v, v', slot, pod, a)
    ensures || HasCredential(Left(slot, pod, a), id, token)
            || slot.row.value in v'.m.releasing
            || Released(id, token, true) in ReleasesAsked(slot, pod, a)
  {
    if Refuses(slot, pod) {
      assert v'.m.releasing[|v.m.releasing|] == slot.row.value;
    } else if IsStranded(slot) {
      assert ReleasesAsked(slot, pod, a)[0] == Released(id, token, a.returned);
    }
  }

  /** The slot a create finds past its listings is out of quarantine. */
  lemma FindsSettled(slot: Slot, pod: Pod, a: Answers)
    requires Proceeds(slot, pod, a) && (slot.quarantined ==> slot.row.Some?)
    ensures !Finds(slot, a).quarantined
  {
  }

  /**
   No create loses a credential: whatever the tables held is still held, or was used
   in a release that succeeded, or a listing did not have the sandbox.
   */
  lemma CreateKeeps(v: View, v': View, key: Key, pod: Pod, a: Answers, id: SandboxId, token: Token)
    requires Sound(v.m) && Creates(v, v', key, pod, a) && Holds(v.m, id, token)
    ensures || Holds(v'.m, id, token)
            || Released(id, token, true) in v'.released[|v.released|..]
            || Absent(a, id)
  {
    if c :| c in v.m.releasing && c.id == id && c.token == token {
      assert c in v'.m.releasing;
    } else {
      var k :| k in v.m.claims && v.m.claims[k].id == id && v.m.claims[k].token == token;
      assert HasCredential(SlotAt(v.m, k), id, token);
      CheckedKeeps(SlotAt(v.m, k), a, id, token);
      if k == key {
        OwnSlotKeeps(v, v', key, pod, a, id, token);
      } else if HasCredential(SlotAt(v'.m, k), id, token) {
        HeldInSlot(v'.m, k, id, token);
      }
    }
  }

  lemma OwnSlotKeeps(v: View, v': View, key: Key, pod: Pod, a: Answers, id: SandboxId, token: Token)
    requires Sound(v.m) && Creates(v, v', key, pod, a) && HasCredential(SlotAt(v.m, key), id, token)
    ensures || Holds(v'.m, id, token)
            || Released(id, token, true) in v'.released[|v.released|..]
            || Absent(a, id)
  {
    var slot := SlotAt(v.m, key);
    CheckedKeeps(slot, a, id, token);
    if !Proceeds(slot, pod, a) {
      if HasCredential(SlotAt(v'.m, key), id, token) { HeldInSlot(v'.m, key, id, token); }
    } else if HasCredential(Finds(slot, a), id, token) {
      FindsSettled(slot, pod, a);
      LeftKeeps(v, v', Finds(slot, a), pod, a, id, token);
      assert v'.released[|v.released|..] == ReleasesAsked(Finds(slot, a), pod, a);
      if HasCredential(SlotAt(v'.m, key), id, token) { HeldInSlot(v'.m, key, id, token); }
    }
  }

  /** Nor does it lose the one it is granted, and it asks for one only when the stranded one was returned. */
  lemma CreateAccountsForGrant(v: View, v': View, key: Key, pod: Pod, a: Answers)
    requires Creates(v, v', key, pod, a) && Asks(SlotAt(v.m, key), pod, a)
    ensures a.grant.Some? ==>
              || Holds(v'.m, a.grant.value.id, a.grant.value.token)
              || Released(a.grant.value.id, a.grant.value.token, true) in v'.released
    ensures key in v.m.claims && key in v.m.tentative && key !in v.m.quarantined ==>
              Released(v.m.claims[key].id, v.m.claims[key].token, true) in v'.released
  {
    var slot := Finds(SlotAt(v.m, key), a);
    var asked := ReleasesAsked(slot, pod, a);
    assert forall r :: r in asked ==> r in v'.released;
    if IsStranded(slot) {
      assert asked[0] in asked;
    }
    if a.grant.Some? {
      var g := a.grant.value;
      if !a.committed && a.undone {
        assert asked[|asked| - 1] == Released(g.id, g.token, true);
      } else {
        HeldInSlot(v'.m, key, g.id, g.token);
      }
    }
  }

  /** It releases nothing but the stranded sandbox and the one just granted. */
  lemma CreateReleasesOnlyItsOwn(v: View, v': View, key: Key, pod: Pod, a: Answers, r: Released)
    requires Creates(v, v', key, pod, a) && r in v'.released[|v.released|..]
    ensures || (&& key in v.m.claims && key in v.m.tentative
                && r.id == v.m.claims[key].id && r.token == v.m.claims[key].token)
            || (a.grant.Some? && r.id == a.grant.value.id && r.token == a.grant.value.token && !a.committed)
  {
    if Proceeds(SlotAt(v.m, key), pod, a) {
      assert v'.released[|v.released|..] == ReleasesAsked(Finds(SlotAt(v.m, key), a), pod, a);
    }
  }

  /** Success leaves one settled row at the key, on file and bound to the Pod, and one push of Running for it. */
  lemma CreateBinds(v: View, v': View, key: Key, pod: Pod, a: Answers)
    requires Creates(v, v', key, pod, a) && Succeeds(SlotAt(v.m, key), pod, a) && Durable(v'.file, v'.m)
    ensures key in v'.m.claims && key in v'.m.pods && key !in v'.m.tentative && key !in v'.m.quarantined
    ensures var c := v'.m.claims[key];
            && c.podUid == pod.uid && c.authority == Some(AnswersTo(pod)) && c.owner.None?
            && InFile(v'.file, c.id, c.token)
            && v'.pushed == v.pushed + [Published(pod.(claimId := Some(c.id)), Running, c.claimedAt)]
    ensures v'.m.pods[key].uid == pod.uid
  {
  }

  /** Failure pushes nothing, and what it leaves at the key was there before or is a stranded claim. */
  lemma CreateFails(v: View, v': View, key: Key, pod: Pod, a: Answers)
    requires Creates(v, v', key, pod, a) && !Succeeds(SlotAt(v.m, key), pod, a)
    ensures v'.pushed == v.pushed && v'.file == v.file
    ensures key in v'.m.claims && key !in v.m.claims ==> key in v'.m.tentative && a.grant.Some?
  {
  }

  /** A key whose fresh claim was undone, or whose stranded one was returned for nothing, is left empty. */
  lemma CreateUntracks(v: View, v': View, key: Key, pod: Pod, a: Answers)
    requires Sound(v.m) && Creates(v, v', key, pod, a) && Proceeds(SlotAt(v.m, key), pod, a)
    requires || (Asks(SlotAt(v.m, key), pod, a) && a.grant.Some? && !a.committed && a.undone)
             || (key in v.m.tentative && a.returned && (!WellFormed(pod) || a.grant.None?))
    ensures key !in v'.m.pods && key !in v'.m.claims && key !in v'.m.tentative && key !in v'.m.quarantined
  {
    assert SlotAt(v'.m, key) == EMPTY;
  }

  /** No delete loses a credential either: it is held, or a release with it succeeded. */
  lemma DeleteKeeps(v: View, v': View, key: Key, pod: Pod, read: OwnerRead, releaseOk: bool, saved: bool,
                    id: SandboxId, token: Token)
    requires DeletesPod(v, v', key, pod, read, releaseOk, saved) && Holds(v.m, id, token)
    ensures Holds(v'.m, id, token) || Released(id, token, true) in v'.released[|v.released|..]
  {
    if c :| c in v.m.releasing && c.id == id && c.token == token {
      assert c in v'.m.releasing;
    } else {
      var k :| k in v.m.claims && v.m.claims[k].id == id && v.m.claims[k].token == token;
      var slot := SlotAt(v.m, k);
      if k == key && MayRelease(slot, pod, read) && releaseOk {
        assert v'.released[|v.released|] == Released(id, token, true);
      } else {
        assert HasCredential(SlotAt(v'.m, k), id, token);
        HeldInSlot(v'.m, k, id, token);
      }
    }
  }

  // -------------------------------------------------------- the outcome leaves nothing open

  lemma SlotsDetermine(m1: Mem, m2: Mem)
    requires m1.releasing == m2.releasing && forall k :: SlotAt(m1, k) == SlotAt(m2, k)
    ensures m1 == m2
  {
    forall k
      ensures k in m1.pods <==> k in m2.pods
      ensures k in m1.pods ==> m1.pods[k] == m2.pods[k]
      ensures k in m1.claims <==> k in m2.claims
      ensures k in m1.claims ==> m1.claims[k] == m2.claims[k]
      ensures k in m1.tentative <==> k in m2.tentative
      ensures k in m1.quarantined <==> k in m2.quarantined
    {
      assert SlotAt(m1, k) == SlotAt(m2, k);
    }
    assert m1.pods == m2.pods && m1.claims == m2.claims;
    assert m1.tentative == m2.tentative && m1.quarantined == m2.quarantined;
  }

  lemma WroteDetermines(file: StateFile, f1: StateFile, f2: StateFile, m: Mem, landed: bool)
    requires Wrote(file, f1, m, landed) && Wrote(file, f2, m, landed)
    ensures f1 == f2
  {
    if landed { assert f1.claims == f2.claims; }
  }

  /** Nothing of what a create does is left open: the tables, the file, the releases and the pushes are determined. */
  lemma CreateDetermined(v: View, v1: View, v2: View, key: Key, pod: Pod, a: Answers)
    requires Creates(v, v1, key, pod, a) && Creates(v, v2, key, pod, a)
    ensures v1 == v2
  {
    forall k
      ensures SlotAt(v1.m, k) == SlotAt(v2.m, k)
    {
      if k != key { assert SlotAt(v1.m, k) == Beside(SlotAt(v.m, k), SlotAt(v.m, key), pod, a); }
    }
    SlotsDetermine(v1.m, v2.m);
    if Proceeds(SlotAt(v.m, key), pod, a) {
      var slot := Finds(SlotAt(v.m, key), a);
      WroteDetermines(v.file, v1.file, v2.file, v1.m, Served(slot, pod, a) && (Takes(slot, pod) ==> a.adoptSaved));
    }
  }

  lemma UpdateDetermined(v: View, v1: View, v2: View, key: Key, pod: Pod, a: Answers)
    requires Updates(v, v1, key, pod, a) && Updates(v, v2, key, pod, a)
    ensures v1 == v2
  {
    var slot := SlotAt(v.m, key);
    if !Stale(slot, pod) {
      if slot.tentative {
        CreateDetermined(v, v1, v2, key, pod, a);
      } else {
        forall k
          ensures SlotAt(v1.m, k) == SlotAt(v2.m, k)
        {
          if k != key { assert SlotAt(v1.m, k) == SlotAt(v.m, k); }
        }
        SlotsDetermine(v1.m, v2.m);
      }
    }
  }

  lemma DeleteDetermined(v: View, v1: View, v2: View, key: Key, pod: Pod, read: OwnerRead, releaseOk: bool, saved: bool)
    requires DeletesPod(v, v1, key, pod, read, releaseOk, saved) && DeletesPod(v, v2, key, pod, read, releaseOk, saved)
    ensures v1 == v2
  {
    var slot := SlotAt(v.m, key);
    if !Stale(slot, pod) && !(MayRelease(slot, pod, read) && !releaseOk) {
      forall k
        ensures SlotAt(v1.m, k) == SlotAt(v2.m, k)
      {
        if k != key { assert SlotAt(v1.m, k) == SlotAt(v.m, k); }
      }
      SlotsDetermine(v1.m, v2.m);
      WroteDetermines(v.file, v1.file, v2.file, v1.m, slot.row.Some? && saved);
    }
  }
}
