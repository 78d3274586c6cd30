/**
 What the critical sections make of a slot: the link between the tables as functions
 of the tables and a call's outcome, key by key.
 */
module Slots {
  import opened Types
  import opened Ownership
  import opened Sections
  import opened Custody
  import opened Outcome

  // ---------------------------------------------------------- what a section makes of a slot

  /** An overdue row is refreshed or dropped by the listing. */
  function Renew(m: Mem, key: Key, live: Listing): Mem
    requires key in m.claims
  {
    var id := m.claims[key].id;
    if id in live then Refresh(m, key, id, live[id]) else Drop(m, key, id)
  }

  lemma RenewSound(m: Mem, f: StateFile, key: Key, live: Listing)
    requires Sound(m) && Durable(f, m) && key in m.claims && m.Settled(key)
    ensures var m' := Renew(m, key, live);
            Sound(m') && Durable(f, m') && Ids(m'.claims, m'.releasing) <= Ids(m.claims, m.releasing)
  {
    var id := m.claims[key].id;
    if id in live {
      RefreshTrims(m, key, id, live[id]);
      TrimsSound(m, Renew(m, key, live), {});
      TrimsIds(m, Renew(m, key, live), {});
    } else {
      DropTrims(m, key, id);
      TrimsSound(m, Renew(m, key, live), {key});
      TrimsIds(m, Renew(m, key, live), {key});
    }
  }

  lemma RenewSlots(m: Mem, key: Key, now: Time, live: Listing)
    requires key in m.claims && m.Settled(key) && m.claims[key].Expired(now)
    ensures SlotAt(Renew(m, key, live), key) == Renewed(SlotAt(m, key), now, Some(live))
    ensures Elsewhere(m, Renew(m, key, live), key)
  {
  }

  lemma WithdrawSlots(m: Mem, key: Key)
    requires key in m.claims
    ensures var m' := Withdraw(m, key, m.claims[key].id); SlotAt(m', key) == EMPTY && Elsewhere(m, m', key)
  {
  }

  lemma PreserveSlots(m: Mem, key: Key, owner: Option<OwnerRef>)
    requires key in m.claims
    ensures var m' := PreserveRow(m, key, m.claims[key].id, owner);
            && SlotAt(m', key) == SlotAt(m, key).(pod := None, row := Some(m.claims[key].(owner := owner)))
            && Elsewhere(m, m', key)
  {
  }

  lemma AdoptSlots(m: Mem, key: Key, pod: Pod)
    requires Sound(m) && key !in m.quarantined
    ensures var m', slot := Adopt(m, key, pod), SlotAt(m, key);
            && Elsewhere(m, m', key)
            && (Adoptable(m, key, pod).Adopted? <==> Takes(slot, pod))
            && SlotAt(m', key) == (if Takes(slot, pod)
                                   then Slot(Some(pod), Some(BoundTo(slot.row.value, pod)), false, false)
                                   else if Refuses(slot, pod) then slot.(row := None) else slot)
            && m'.releasing == m.releasing + if Refuses(slot, pod) then [slot.row.value] else []
  {
  }

  /** What the first half of a create leaves: its own slot as both listings have it, the others as the first does. */
  ghost predicate KeySettled(m: Mem, m': Mem, key: Key, a: Answers) {
    && SlotAt(m', key) == Finds(SlotAt(m, key), a)
    && (forall k :: k != key ==>
          SlotAt(m', k) == if key in m.quarantined then Checked(SlotAt(m, k), a) else SlotAt(m, k))
    && m'.releasing == m.releasing
  }

  lemma SettleSlots(m: Mem, m1: Mem, m': Mem, key: Key, a: Answers)
    requires Sound(m)
    requires m1 == if key !in m.quarantined || a.verifying.None? then m else Verify(m, Unverified(m), a.verifying.value)
    requires var overdue := key !in m1.quarantined && Overdue(SlotAt(m1, key), a.now);
             m' == if !overdue || a.expiring.None? then m1 else Renew(m1, key, a.expiring.value)
    ensures KeySettled(m, m', key, a)
    ensures a.verifying.Some? ==> key !in m'.quarantined
  {
    if key in m.quarantined && a.verifying.Some? {
      VerifySlots(m, Unverified(m), a.verifying.value);
    }
    if Overdue(SlotAt(m1, key), a.now) && a.expiring.Some? {
      RenewSlots(m1, key, a.now, a.expiring.value);
    }
  }

  /** The tables once a grant was installed and its write landed, was undone, or left it stranded. */
  function GrantLeaves(m: Mem, key: Key, pod: Pod, c: Claim, a: Answers): Mem {
    var installed := Install(m, key, pod, c);
    if a.committed then ClearMarker(installed, key) else if a.undone then Withdraw(installed, key, c.id) else installed
  }

  lemma GrantSlots(m: Mem, key: Key, pod: Pod, g: Grant, a: Answers)
    requires key !in m.claims && key !in m.quarantined
    ensures var m' := GrantLeaves(m, key, pod, FreshClaim(pod, g, a.now), a);
            SlotAt(m', key) == AfterGrant(pod, g, a) && Elsewhere(m, m', key) && m'.releasing == m.releasing
    ensures a.committed ==> Mirrors(Snapshot(Install(m, key, pod, FreshClaim(pod, g, a.now)), Some(key)),
                                    GrantLeaves(m, key, pod, FreshClaim(pod, g, a.now), a))
  {
  }

  lemma ServedByGrant(v: View, v': View, key: Key, pod: Pod, a: Answers)
    requires SlotAt(v.m, key) == EMPTY.(pod := SlotAt(v.m, key).pod) && WellFormed(pod) && a.grant.Some?
    requires v'.m == GrantLeaves(v.m, key, pod, FreshClaim(pod, a.grant.value, a.now), a)
    requires v'.file == if !a.committed then v.file
                        else Snapshot(Install(v.m, key, pod, FreshClaim(pod, a.grant.value, a.now)), Some(key))
    requires v'.released == v.released + if a.committed then []
                            else [Released(a.grant.value.id, a.grant.value.token, a.undone)]
    requires v'.pushed == v.pushed + if !a.committed then []
                          else [Published(pod.(claimId := Some(a.grant.value.id)), Running, Some(a.now))]
    ensures Elsewhere(v.m, v'.m, key) && SlotAt(v'.m, key) == Left(SlotAt(v.m, key), pod, a)
    ensures Serves(v, v', SlotAt(v.m, key), pod, a)
  {
    GrantSlots(v.m, key, pod, a.grant.value, a);
  }

  lemma ServedByTaking(v: View, v': View, slot: Slot, pod: Pod, a: Answers)
    requires Takes(slot, pod) && v'.m.releasing == v.m.releasing && v'.released == v.released
    requires v'.pushed == v.pushed + PushOf(Left(slot, pod, a), pod) && Wrote(v.file, v'.file, v'.m, a.adoptSaved)
    ensures Serves(v, v', slot, pod, a)
  {
  }

  /** A row that was refused leaves the key to a fresh claim. */
  lemma ServedAfterRefusal(v: View, v1: View, v': View, slot: Slot, pod: Pod, a: Answers)
    requires !Takes(slot, pod) && !slot.quarantined
    requires v1 == v.(m := v1.m)
    requires v1.m.releasing == v.m.releasing + if Refuses(slot, pod) then [slot.row.value] else []
    requires var slot1 := if Refuses(slot, pod) then slot.(row := None) else slot;
             !Refuses(slot1, pod) && Serves(v1, v', slot1, pod, a)
    ensures var slot1 := if Refuses(slot, pod) then slot.(row := None) else slot;
            && Serves(v, v', slot, pod, a)
            && (Served(slot1, pod, a) <==> Served(slot, pod, a)) && (Claims(slot1, pod, a) <==> Claims(slot, pod, a))
  {
    assert v1.m.releasing + [] == v1.m.releasing;
  }

  /** A stranded claim that was returned leaves the key to a fresh one. */
  lemma ServedAfterReturn(v: View, v1: View, v': View, slot: Slot, pod: Pod, a: Answers)
    requires IsStranded(slot) && a.returned && v1.file == v.file && v1.pushed == v.pushed
    requires v1.m.releasing == v.m.releasing && Serves(v1, v', EMPTY, pod, a)
    requires v1.released == v.released + [Released(slot.row.value.id, slot.row.value.token, true)]
    ensures Serves(v, v', slot, pod, a) && Left(EMPTY, pod, a) == Left(slot, pod, a)
  {
  }

  lemma DeletedByRelease(v: View, v': View, key: Key, pod: Pod, read: OwnerRead, releaseOk: bool, saved: bool)
    requires MayRelease(SlotAt(v.m, key), pod, read) && v'.pushed == v.pushed
    requires v'.released == v.released + [Released(v.m.claims[key].id, v.m.claims[key].token, releaseOk)]
    requires releaseOk ==> SlotAt(v'.m, key) == EMPTY && Elsewhere(v.m, v'.m, key) && v'.m.releasing == v.m.releasing
    requires !releaseOk ==> v'.m == v.m
    requires Wrote(v.file, v'.file, v'.m, releaseOk && saved)
    ensures DeletesPod(v, v', key, pod, read, releaseOk, saved)
  {
  }

  lemma DeletedByPreserving(v: View, v': View, key: Key, pod: Pod, read: OwnerRead, releaseOk: bool, saved: bool)
    requires var slot := SlotAt(v.m, key); slot.row.Some? && !Stale(slot, pod) && !MayRelease(slot, pod, read)
    requires v' == v.(m := v'.m, file := v'.file) && Elsewhere(v.m, v'.m, key) && v'.m.releasing == v.m.releasing
    requires SlotAt(v'.m, key) == SlotAt(v.m, key).(pod := None, row := Some(v.m.claims[key].(owner := pod.controller)))
    requires Wrote(v.file, v'.file, v'.m, saved)
    ensures DeletesPod(v, v', key, pod, read, releaseOk, saved)
  {
  }

  lemma VerifySlots(m: Mem, before: map<Key, SandboxId>, live: Listing)
    ensures forall k :: SlotAt(Verify(m, before, live), k) == JudgedSlot(SlotAt(m, k), k, before, live)
  {
  }
}
