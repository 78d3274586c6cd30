/**
 The provider as the object it is: five tables, the state file, and the methods
 that update them. A method that holds `mu` once is proved to do what the
 critical section of that name does. The lifecycle calls chain the sections; the
 answers of the node and of the file system are their parameters.
 */
module Provider {
  import opened Types
  import opened Ownership
  import opened Sections
  import opened Custody
  import opened Outcome
  import opened Slots

  class Provider {
    var pods: map<Key, Pod>
    var claims: map<Key, Claim>
    var tentative: set<Key>
    var quarantined: set<Key>
    var releasing: seq<Claim>
    var file: StateFile
    var released: seq<Released>        // the releases asked of the node
    var pushed: seq<Published>         // the statuses pushed to the kubelet
    var ownerRechecks: map<Key, OwnerRecheck>
    var orphanVerdicts: map<SandboxId, string>

    function Tables(): Mem
      reads this
    {
      Mem(pods, claims, tentative, quarantined, releasing)
    }

    function Stored(): Store
      reads this
    {
      Store(Tables(), file)
    }

    function Seen(): View
      reads this
    {
      View(Tables(), file, released, pushed)
    }

    ghost predicate Valid()
      reads this
    {
      Sound(Tables())
    }

    /** What other threads make of the tables while the lock is not held. */
    method Become(m: Mem)
      modifies `pods, `claims, `tentative, `quarantined, `releasing
      ensures Tables() == m
    {
      pods, claims, tentative, quarantined, releasing := m.pods, m.claims, m.tentative, m.quarantined, m.releasing;
    }

    /** The same, of the tables and the state file. */
    method BecomeStore(w: Store)
      modifies `pods, `claims, `tentative, `quarantined, `releasing, `file
      ensures Stored() == w
    {
      Become(w.m);
      file := w.file;
    }

    // ---------------------------------------------------------------- starting

    /** Backfills the start time of the rows that have none. */
    static method StampAll(rows: map<Key, Claim>, now: Time) returns (stamped: map<Key, Claim>)
      ensures stamped.Keys == rows.Keys
      ensures forall k :: k in rows ==> stamped[k] == Stamped(rows[k], now)
    {
      stamped := rows;
      var todo := rows.Keys;
      while todo != {}
        invariant todo <= rows.Keys == stamped.Keys
        invariant forall k :: k in rows ==> stamped[k] == if k in todo then rows[k] else Stamped(rows[k], now)
        decreases |todo|
      {
        var k :| k in todo;
        if stamped[k].claimedAt.None? {
          stamped := stamped[k := stamped[k].(claimedAt := Some(now))];
        }
        todo := todo - {k};
      }
    }

    /** Loads the state file, every row quarantined. */
    constructor (onDisk: StateFile, now: Time)
      requires Sound(Load(onDisk, now))
      ensures forall k :: SlotAt(Tables(), k) == LoadedSlot(onDisk, k, now)
      ensures releasing == onDisk.releasing && file == onDisk && released == [] && pushed == []
      ensures Tables() == Load(onDisk, now)
      ensures ownerRechecks == map[] && orphanVerdicts == map[]
      ensures Valid()
    {
      var stamped := StampAll(onDisk.claims, now);
      assert stamped == Load(onDisk, now).claims;
      pods, claims, tentative, quarantined, releasing := map[], stamped, {}, onDisk.claims.Keys, onDisk.releasing;
      file, released, pushed, ownerRechecks, orphanVerdicts := onDisk, [], [], map[], map[];
    }

    // ------------------------------------------------------------ verification

    method SnapshotUnverified() returns (before: map<Key, SandboxId>)
      ensures before == Unverified(Tables())
    {
      before := map[];
      var todo := quarantined;
      while todo != {}
        invariant todo <= quarantined
        invariant before.Keys == (quarantined - todo) * claims.Keys
        invariant forall k :: k in before ==> before[k] == claims[k].id
        decreases |todo|
      {
        var k :| k in todo;
        if k in claims {
          before := before[k := claims[k].id];
        }
        todo := todo - {k};
      }
      assert before == Unverified(Tables());
    }

    /** Judges one row: kept and out of quarantine when listed, dropped when not, left alone when it was replaced. */
    method JudgeRow(key: Key, id: SandboxId, live: Listing)
      modifies `claims, `quarantined
      ensures Tables() == RowJudged(old(Tables()), key, id, live)
    {
      if key in claims && claims[key].id == id {
        var c := claims[key];
        if c.id !in live {
          claims := claims - {key};
        } else if c.deadline.None? && live[c.id].Some? {
          claims := claims[key := c.(deadline := live[c.id])];
        } else {
          assert claims[key := Backdated(c, live)] == claims;
        }
        quarantined := quarantined - {key};
      }
    }

    /** Judges the snapshot's rows, in any order. */
    method Judge(before: map<Key, SandboxId>, live: Listing)
      modifies `claims, `quarantined
      ensures Tables() == Verify(old(Tables()), before, live)
      ensures forall k :: SlotAt(Tables(), k) == JudgedSlot(old(SlotAt(Tables(), k)), k, before, live)
    {
      ghost var m := Tables();
      VerifySlots(m, before, live);
      var todo := before.Keys;
      NoneJudged(m, before, live);
      while todo != {}
        invariant todo <= before.Keys
        invariant JudgedSoFar(m, before, live, before.Keys - todo, Tables())
        decreases |todo|
      {
        var key :| key in todo;
        JudgesOne(m, before, live, before.Keys - todo, Tables(), key);
        JudgeRow(key, before[key], live);
        assert before.Keys - (todo - {key}) == before.Keys - todo + {key};
        todo := todo - {key};
      }
      JudgesAll(m, before, live, Tables());
    }

    method VerifyClaimsAgainstNode(listing: Option<Listing>) returns (ok: bool)
      requires Valid()
      modifies `claims, `quarantined
      ensures ok <==> old(quarantined) == {} || listing.Some?
      ensures ok ==> quarantined == {}
      ensures !ok ==> Tables() == old(Tables())
      ensures ok && listing.None? ==> Tables() == old(Tables())
      ensures ok && listing.Some? ==> Tables() == Verify(old(Tables()), Unverified(old(Tables())), listing.value)
      ensures ok && listing.Some? ==>
                forall k :: SlotAt(Tables(), k) == Vouched(old(SlotAt(Tables(), k)), listing.value)
    {
      var before := SnapshotUnverified();
      assert before.Keys == quarantined;
      if before == map[] {
        VerifyNothing(Tables(), listing);
        return true;
      }
      if listing.None? {
        return false;
      }
      VerifyUnverified(Tables(), listing.value);
      Judge(before, listing.value);
      return true;
    }

    // -------------------------------------------------------------- persistence

    /** Writes the durable rows plus the committing one; a failed write leaves the file alone. */
    method Write(committing: Option<Key>, landed: bool)
      modifies `file
      ensures file == if landed then Snapshot(Tables(), committing) else old(file)
      ensures landed && (committing.Some? ==> committing.value !in tentative) ==> Mirrors(file, Tables())
    {
      var rows: map<Key, Claim> := map[];
      var todo := claims.Keys;
      while todo != {}
        invariant todo <= claims.Keys
        invariant forall k :: k in rows <==> k in claims && k !in todo && (k !in tentative || committing == Some(k))
        invariant forall k :: k in rows ==> rows[k] == claims[k]
        invariant file == old(file)
        decreases |todo|
      {
        var k :| k in todo;
        if k !in tentative || committing == Some(k) {
          rows := rows[k := claims[k]];
        }
        todo := todo - {k};
      }
      assert rows == Snapshot(Tables(), committing).claims;
      if landed {
        file := StateFile(rows, releasing);
      }
    }

    /** A log-only save: whether it lands or not, what is durable stays durable. */
    method SaveState(landed: bool)
      requires Durable(file, Tables())
      modifies `file
      ensures Wrote(old(file), file, Tables(), landed)
      ensures Durable(file, Tables())
    {
      WriteDurable(Tables(), None);
      Write(None, landed);
    }

    /** The marker clears only once the rename has landed. */
    method CommitClaim(key: Key, landed: bool)
      modifies `file, `tentative
      ensures file == if landed then Snapshot(old(Tables()), Some(key)) else old(file)
      ensures Tables() == if landed then ClearMarker(old(Tables()), key) else old(Tables())
      ensures Wrote(old(file), file, Tables(), landed)
    {
      Write(Some(key), landed);
      if landed {
        tentative := tentative - {key};
      }
    }

    // ------------------------------------------------------------ sections on one row

    method Install(key: Key, pod: Pod, c: Claim)
      modifies `claims, `pods, `tentative
      ensures Tables() == Sections.Install(old(Tables()), key, pod, c)
    {
      claims := claims[key := c];
      pods := pods[key := pod.WithClaim(c.id)];
      tentative := tentative + {key};
    }

    /** Rebinds the row to an entitled Pod; anybody else finds it gone to the release queue. */
    method AdoptExistingClaim(key: Key, pod: Pod) returns (c: Option<Claim>)
      modifies `claims, `pods, `releasing
      ensures Tables() == Adopt(old(Tables()), key, pod)
      ensures c == match Adoptable(old(Tables()), key, pod) case Adopted(r) => Some(r) case _ => None
    {
      if key !in claims || key in tentative || key in quarantined {
        return None;
      }
      var row := claims[key];
      if !row.AdoptableBy(pod) {
        claims := claims - {key};
        releasing := releasing + [row];
        return None;
      }
      row := row.(podUid := pod.uid, authority := Some(pod.Authority()), owner := None);
      claims := claims[key := row];
      pods := pods[key := pod];
      return Some(row);
    }

    method WithdrawClaim(key: Key, id: SandboxId)
      modifies `claims, `pods, `tentative, `quarantined
      ensures Tables() == Withdraw(old(Tables()), key, id)
    {
      if key in claims && claims[key].id == id {
        claims := claims - {key};
        pods := pods - {key};
      }
      tentative := tentative - {key};
      quarantined := quarantined - {key};
    }

    method DropClaim(key: Key, id: SandboxId)
      modifies `claims
      ensures Tables() == Drop(old(Tables()), key, id)
    {
      if key in claims && claims[key].id == id {
        claims := claims - {key};
      }
    }

    method RefreshDeadline(key: Key, id: SandboxId, deadline: Option<Time>)
      modifies `claims
      ensures Tables() == Refresh(old(Tables()), key, id, deadline)
    {
      if key in claims && claims[key].id == id {
        claims := claims[key := claims[key].(deadline := deadline)];
      }
    }

    method PreserveClaim(key: Key, id: SandboxId, owner: Option<OwnerRef>)
      modifies `claims, `pods
      ensures Tables() == PreserveRow(old(Tables()), key, id, owner)
    {
      pods := pods - {key};
      if key in claims && claims[key].id == id {
        claims := claims[key := claims[key].(owner := owner)];
      }
    }

    /** Asks the node to release the sandbox; the answer is given. */
    method Release(c: Claim, ok: bool)
      modifies `released
      ensures released == old(released) + [Released(c.id, c.token, ok)]
    {
      released := released + [Released(c.id, c.token, ok)];
    }

    // ----------------------------------------------------------------- CreatePod

    /** A quarantined row is settled by a listing, or the create fails. */
    method ResolveUnverifiedClaim(key: Key, a: Answers) returns (ok: bool)
      requires Valid() && Durable(file, Tables())
      modifies `claims, `quarantined
      ensures ok <==> key !in old(quarantined) || a.verifying.Some?
      ensures SlotAt(Tables(), key) == Checked(old(SlotAt(Tables(), key)), a)
      ensures forall k :: k != key ==>
                SlotAt(Tables(), k) == if key in old(quarantined) then Checked(old(SlotAt(Tables(), k)), a)
                                       else old(SlotAt(Tables(), k))
      ensures Valid() && Durable(file, Tables())
      ensures ok ==> key !in quarantined
      ensures Ids(claims, releasing) <= old(Ids(claims, releasing))
    {
      ghost var m := Tables();
      if key !in quarantined {
        return true;
      }
      ok := VerifyClaimsAgainstNode(a.verifying);
      if ok && a.verifying.Some? {
        VerifyTrims(m, a.verifying.value);
        ghost var gone := set k | k in m.quarantined && m.claims[k].id !in a.verifying.value;
        TrimsSound(m, Tables(), gone);
        TrimsIds(m, Tables(), gone);
      }
    }

    /** A past-deadline row is refreshed or dropped by a listing, or the create fails. */
    method SettleExpiredClaim(key: Key, a: Answers) returns (ok: bool)
      requires Valid() && Durable(file, Tables())
      modifies `claims
      ensures ok <==> !(old(Overdue(SlotAt(Tables(), key), a.now)) && a.expiring.None?)
      ensures SlotAt(Tables(), key) == Renewed(old(SlotAt(Tables(), key)), a.now, a.expiring)
      ensures Elsewhere(old(Tables()), Tables(), key)
      ensures Valid() && Durable(file, Tables())
      ensures Ids(claims, releasing) <= old(Ids(claims, releasing))
    {
      ghost var m := Tables();
      if key !in claims || key in tentative || key in quarantined || !claims[key].Expired(a.now) {
        return true;
      }
      if a.expiring.None? {
        return false;
      }
      RenewSound(m, file, key, a.expiring.value);
      RenewSlots(m, key, a.now, a.expiring.value);
      var id := claims[key].id;
      if id in a.expiring.value {
        RefreshDeadline(key, id, a.expiring.value[id]);
      } else {
        DropClaim(key, id);
      }
      return true;
    }

    /** A stranded claim is returned before its key is used again, or the create fails. */
    method ClearStrandedClaim(key: Key, a: Answers) returns (ok: bool)
      requires Valid() && Durable(file, Tables())
      modifies `claims, `pods, `tentative, `quarantined, `released
      ensures ok <==> key !in old(tentative) || a.returned
      ensures SlotAt(Tables(), key) == if key in old(tentative) && ok then EMPTY else old(SlotAt(Tables(), key))
      ensures Elsewhere(old(Tables()), Tables(), key)
      ensures released == old(released) + if key !in old(tentative) then []
                else [Released(old(claims[key]).id, old(claims[key]).token, ok)]
      ensures Valid() && Durable(file, Tables())
      ensures key !in old(tentative) || !ok ==> Tables() == old(Tables())
      ensures Ids(claims, releasing) <= old(Ids(claims, releasing))
    {
      if key !in claims || key !in tentative {
        return true;
      }
      var c := claims[key];
      Release(c, a.returned);
      if !a.returned {
        return false;
      }
      WithdrawSound(Tables(), key);
      WithdrawSlots(Tables(), key);
      WithdrawClaim(key, c.id);
      return true;
    }

    /**
     Asks the node for a sandbox; the claim is durable and published, or undone, or its
     credential is kept in memory.
     */
    method ClaimFresh(key: Key, pod: Pod, g: Grant, a: Answers) returns (ok: bool)
      requires key !in claims && key !in quarantined
      modifies `pods, `claims, `tentative, `quarantined, `releasing, `file, `released, `pushed
      ensures ok == a.committed
      ensures SlotAt(Tables(), key) == AfterGrant(pod, g, a) && Elsewhere(old(Tables()), Tables(), key)
      ensures Wrote(old(file), file, Tables(), ok) && releasing == old(releasing)
      ensures released == old(released) + if ok then [] else [Released(g.id, g.token, a.undone)]
      ensures pushed == old(pushed) + if ok then [Published(pod.(claimId := Some(g.id)), Running, Some(a.now))] else []
      ensures Tables() == GrantLeaves(old(Tables()), key, pod, FreshClaim(pod, g, a.now), a)
      ensures ok ==> file == Snapshot(Sections.Install(old(Tables()), key, pod, FreshClaim(pod, g, a.now)), Some(key))
    {
      var c := FreshClaim(pod, g, a.now);
      Install(key, pod, c);
      CommitClaim(key, a.committed);
      if a.committed {
        pushed := pushed + [Published(pod.WithClaim(c.id), Running, c.claimedAt)];
        return true;
      }
      Release(c, a.undone);
      if a.undone {
        WithdrawClaim(key, c.id);
      }
      return false;
    }

    /**
     What a fresh claim owes: it is bound, on file and published once, or nothing is
     published and its credential is accounted for.
     */
    method ClaimNew(key: Key, pod: Pod, g: Grant, a: Answers) returns (ok: bool)
      requires Valid() && Durable(file, Tables()) && key !in claims && g.id !in Ids(claims, releasing)
               && a.grant == Some(g)
      modifies `pods, `claims, `tentative, `quarantined, `releasing, `file, `released, `pushed
      ensures ok == a.committed
      ensures SlotAt(Tables(), key) == AfterGrant(pod, g, a) && Elsewhere(old(Tables()), Tables(), key)
      ensures Wrote(old(file), file, Tables(), ok) && releasing == old(releasing)
      ensures released == old(released) + if ok then [] else [Released(g.id, g.token, a.undone)]
      ensures pushed == old(pushed) + if ok then [Published(pod.(claimId := Some(g.id)), Running, Some(a.now))] else []
      ensures Valid() && Durable(file, Tables())
    {
      ghost var m, c := Tables(), FreshClaim(pod, g, a.now);
      ok := ClaimFresh(key, pod, g, a);
      if ok {
        LandedSound(m, key, pod, c);
        LandedDurable(Sections.Install(m, key, pod, c), key);
      } else if a.undone {
        UndoneSound(m, file, key, pod, c);
      } else {
        InstallSound(m, key, pod, c);
      }
    }

    /** A malformed request is refused before the node is asked. */
    method ClaimIfValid(key: Key, pod: Pod, a: Answers) returns (ok: bool, asked: bool)
      requires Valid() && Durable(file, Tables()) && key !in claims
      requires a.grant.Some? ==> a.grant.value.id !in Ids(claims, releasing)
      modifies `pods, `claims, `tentative, `quarantined, `releasing, `file, `released, `pushed
      ensures asked <==> WellFormed(pod)
      ensures ok <==> asked && a.grant.Some? && a.committed
      ensures Elsewhere(old(Tables()), Tables(), key) && Serves(old(Seen()), Seen(), old(SlotAt(Tables(), key)), pod, a)
      ensures SlotAt(Tables(), key) == Left(old(SlotAt(Tables(), key)), pod, a)
      ensures Valid() && Durable(file, Tables())
    {
      if !pod.request.Valid() || a.grant.None? {
        return false, pod.request.Valid();
      }
      ok := ClaimNew(key, pod, a.grant.value, a);
      asked := true;
    }

    /** The create's last part, for a key whose row was not adopted: return what is stranded, then claim. */
    method ClaimAfresh(key: Key, pod: Pod, a: Answers) returns (ok: bool, asked: bool)
      requires Valid() && Durable(file, Tables())
      requires key in claims ==> key in tentative
      requires a.grant.Some? ==> a.grant.value.id !in Ids(claims, releasing)
      modifies `pods, `claims, `tentative, `quarantined, `releasing, `file, `released, `pushed
      ensures asked <==> (key in old(tentative) ==> a.returned) && WellFormed(pod)
      ensures ok <==> asked && a.grant.Some? && a.committed
      ensures Elsewhere(old(Tables()), Tables(), key) && Serves(old(Seen()), Seen(), old(SlotAt(Tables(), key)), pod, a)
      ensures SlotAt(Tables(), key) == Left(old(SlotAt(Tables(), key)), pod, a)
      ensures Valid() && Durable(file, Tables())
    {
      ghost var v := Seen();
      var cleared := ClearStrandedClaim(key, a);
      if !cleared {
        return false, false;
      }
      ghost var v1 := Seen();
      ok, asked := ClaimIfValid(key, pod, a);
      if IsStranded(SlotAt(v.m, key)) {
        ServedAfterReturn(v, v1, Seen(), SlotAt(v.m, key), pod, a);
      }
    }

    /** The create's first part: whatever the key holds is verified and unexpired, or the create fails. */
    method SettleKey(key: Key, a: Answers) returns (ok: bool)
      requires Valid() && Durable(file, Tables())
      modifies `claims, `quarantined
      ensures ok <==> !Blocked(old(SlotAt(Tables(), key)), a)
      ensures SlotAt(Tables(), key) == Finds(old(SlotAt(Tables(), key)), a)
      ensures forall k :: k != key ==>
                SlotAt(Tables(), k) == if key in old(quarantined) then Checked(old(SlotAt(Tables(), k)), a)
                                       else old(SlotAt(Tables(), k))
      ensures Valid() && Durable(file, Tables())
      ensures Ids(claims, releasing) <= old(Ids(claims, releasing))
      ensures ok ==> key !in quarantined
    {
      ok := ResolveUnverifiedClaim(key, a);
      if ok {
        ok := SettleExpiredClaim(key, a);
      }
    }

    /**
     Adopts the key's settled row for a Pod that is its own, or that answers to the recorded
     owner, or, with none on record, to the row's authority; a row for nobody is anybody's.
     The credential is on file already, so the save is log-only.
     */
    method TryAdopt(key: Key, pod: Pod, a: Answers) returns (ok: bool)
      requires Valid() && Durable(file, Tables()) && key !in quarantined
      modifies `claims, `pods, `releasing, `file, `pushed
      ensures var answersTo := if pod.controller.Some? then pod.controller.value.uid else pod.uid;
              ok <==> && key in old(claims) && key !in old(tentative) && key !in old(quarantined)
                      && var c := old(claims)[key];
                         || c.podUid == pod.uid
                         || (c.owner.Some? && c.owner.value.uid == answersTo)
                         || (c.owner.None? && (c.authority.None? || c.authority.value == answersTo))
      ensures ok ==> SlotAt(Tables(), key) == Slot(Some(pod), Some(BoundTo(old(claims)[key], pod)), false, false)
      ensures !ok ==> SlotAt(Tables(), key) == if key in old(tentative) then old(SlotAt(Tables(), key))
                else old(SlotAt(Tables(), key)).(row := None)
      ensures Elsewhere(old(Tables()), Tables(), key) && Wrote(old(file), file, Tables(), ok && a.adoptSaved)
      ensures releasing == old(releasing) + if ok || key !in old(claims) || key in old(tentative) then []
                else [old(claims)[key]]
      ensures pushed == old(pushed) + if ok then PushOf(SlotAt(Tables(), key), pod) else []
      ensures Valid() && Durable(file, Tables())
      ensures Ids(claims, releasing) <= old(Ids(claims, releasing))
      ensures !ok && key in claims ==> key in tentative
    {
      ghost var m := Tables();
      AdoptSound(m, key, pod);
      AdoptDurable(file, m, key, pod);
      AdoptIds(m, key, pod);
      AdoptSlots(m, key, pod);
      var adopted := AdoptExistingClaim(key, pod);
      if adopted.Some? {
        SaveState(a.adoptSaved);
        pushed := pushed + [Published(pod.WithClaim(adopted.value.id), Running, adopted.value.claimedAt)];
        return true;
      }
      return false;
    }

    method AdoptOrClaim(key: Key, pod: Pod, a: Answers) returns (ok: bool, asked: bool)
      requires Valid() && Durable(file, Tables()) && key !in quarantined
      requires a.grant.Some? ==> a.grant.value.id !in Ids(claims, releasing)
      modifies `pods, `claims, `tentative, `quarantined, `releasing, `file, `released, `pushed
      ensures Elsewhere(old(Tables()), Tables(), key) && Serves(old(Seen()), Seen(), old(SlotAt(Tables(), key)), pod, a)
      ensures SlotAt(Tables(), key) == Left(old(SlotAt(Tables(), key)), pod, a)
      ensures ok <==> Served(old(SlotAt(Tables(), key)), pod, a)
      ensures asked <==> Claims(old(SlotAt(Tables(), key)), pod, a)
      ensures Valid() && Durable(file, Tables())
    {
      ghost var v := Seen();
      ok := TryAdopt(key, pod, a);
      asked := false;
      if ok {
        ServedByTaking(v, Seen(), SlotAt(v.m, key), pod, a);
        return;
      }
      ghost var v1 := Seen();
      ok, asked := ClaimAfresh(key, pod, a);
      ServedAfterRefusal(v, v1, Seen(), SlotAt(v.m, key), pod, a);
    }

    /**
     CreatePod. `Creates` is all it leaves: the slot of its key, the slots of the
     others, the queue, the file, the releases it asked for and its push. That no
     credential is lost on the way, and what success and failure mean, follows from
     that (`Consequences`).
     */
    method CreatePod(key: Key, pod: Pod, a: Answers) returns (ok: bool, asked: bool)
      requires Valid() && Durable(file, Tables())
      requires a.grant.Some? ==> a.grant.value.id !in Ids(claims, releasing)
      modifies `pods, `claims, `tentative, `quarantined, `releasing, `file, `released, `pushed
      ensures Creates(old(Seen()), Seen(), key, pod, a)
      ensures ok <==> Succeeds(old(SlotAt(Tables(), key)), pod, a)
      ensures asked <==> Asks(old(SlotAt(Tables(), key)), pod, a)
      ensures Valid() && Durable(file, Tables())
    {
      if !pod.request.RightRuntime() {
        return false, false;
      }
      ok := SettleKey(key, a);
      if !ok {
        return false, false;
      }
      ok, asked := AdoptOrClaim(key, pod, a);
    }

    // --------------------------------------------------------- UpdatePod, DeletePod

    /** The request is of the Pod generation the key tracks, or the key tracks none. */
    predicate UidIsCurrent(key: Key, pod: Pod)
      reads this
    {
      key in pods ==> pods[key].uid == pod.uid
    }

    /**
     A request of a previous Pod generation is ignored; a tentative key goes through a
     create; otherwise the Pod is recorded.
     */
    method UpdatePod(key: Key, pod: Pod, a: Answers) returns (ok: bool)
      requires Valid() && Durable(file, Tables())
      requires a.grant.Some? ==> a.grant.value.id !in Ids(claims, releasing)
      modifies `pods, `claims, `tentative, `quarantined, `releasing, `file, `released, `pushed
      ensures Updates(old(Seen()), Seen(), key, pod, a)
      ensures var slot := old(SlotAt(Tables(), key));
              ok <==> Stale(slot, pod) || !slot.tentative || Succeeds(slot, pod, a)
      ensures Valid() && Durable(file, Tables())
    {
      if !UidIsCurrent(key, pod) {
        return true;
      }
      if key in tentative {
        var asked;
        ok, asked := CreatePod(key, pod, a);
        return;
      }
      pods := pods[key := pod];
      return true;
    }

    /**
     DeletePod. A Pod deletion is not authority over the sandbox: it is released
     only on a release verdict about the Pod's controller, and then forgotten
     only once the release succeeded; otherwise the row stays for a successor,
     with the controller on record.
     */
    method DeletePod(key: Key, pod: Pod, read: OwnerRead, releaseOk: bool, saved: bool) returns (ok: bool)
      requires Valid() && Durable(file, Tables())
      modifies `pods, `claims, `tentative, `quarantined, `releasing, `file, `released, `pushed
      ensures DeletesPod(old(Seen()), Seen(), key, pod, read, releaseOk, saved)
      ensures ok <==> !MayRelease(old(SlotAt(Tables(), key)), pod, read) || releaseOk
      ensures ok && !old(Stale(SlotAt(Tables(), key), pod)) ==> key !in pods
      ensures Valid() && Durable(file, Tables())
    {
      if !UidIsCurrent(key, pod) {
        return true;
      }
      if key !in claims {
        pods := pods - {key};
        return true;
      }
      ok := DeleteHeld(key, pod, read, releaseOk, saved);
    }

    /** A current delete at a key that holds a sandbox. */
    method DeleteHeld(key: Key, pod: Pod, read: OwnerRead, releaseOk: bool, saved: bool) returns (ok: bool)
      requires Valid() && Durable(file, Tables()) && UidIsCurrent(key, pod) && key in claims
      modifies `pods, `claims, `tentative, `quarantined, `file, `released
      ensures DeletesPod(old(Seen()), Seen(), key, pod, read, releaseOk, saved)
      ensures ok <==> !MayRelease(old(SlotAt(Tables(), key)), pod, read) || releaseOk
      ensures Valid() && Durable(file, Tables())
    {
      ghost var v := Seen();
      ReleaseIffOwnerRefuted(pod.controller, read);
      if DestroyAuthorized(pod.controller, read).Preserve? {
        PreserveAndSave(key, pod.controller, saved);
        DeletedByPreserving(v, Seen(), key, pod, read, releaseOk, saved);
        return true;
      }
      ok := ReleaseAndForget(key, releaseOk, saved);
      DeletedByRelease(v, Seen(), key, pod, read, releaseOk, saved);
    }

    /** Untracks the Pod and records its controller with the row. */
    method PreserveAndSave(key: Key, owner: Option<OwnerRef>, saved: bool)
      requires Valid() && Durable(file, Tables()) && key in claims
      modifies `claims, `pods, `file
      ensures Valid() && Durable(file, Tables())
      ensures SlotAt(Tables(), key) ==
              old(SlotAt(Tables(), key)).(pod := None, row := Some(old(claims[key]).(owner := owner)))
      ensures Elsewhere(old(Tables()), Tables(), key) && Wrote(old(file), file, Tables(), saved)
    {
      PreserveSound(Tables(), file, key, claims[key].id, owner);
      PreserveSlots(Tables(), key, owner);
      PreserveClaim(key, claims[key].id, owner);
      SaveState(saved);
    }

    /** Releases the row's sandbox; a failed release keeps the row, its credential and its Pod. */
    method ReleaseAndForget(key: Key, releaseOk: bool, saved: bool) returns (ok: bool)
      requires Valid() && Durable(file, Tables()) && key in claims
      modifies `claims, `pods, `tentative, `quarantined, `released, `file
      ensures Valid() && Durable(file, Tables()) && ok == releaseOk
      ensures released == old(released) + [Released(old(claims[key]).id, old(claims[key]).token, releaseOk)]
      ensures if ok then SlotAt(Tables(), key) == EMPTY && Elsewhere(old(Tables()), Tables(), key)
              else Tables() == old(Tables())
      ensures Wrote(old(file), file, Tables(), ok && saved)
    {
      var c := claims[key];
      Release(c, releaseOk);
      if releaseOk {
        WithdrawSound(Tables(), key);
        WithdrawSlots(Tables(), key);
        WithdrawClaim(key, c.id);
        SaveState(saved);
      }
      return releaseOk;
    }

    // -------------------------------------------------------------------- status

    /**
     Answers a status read. A key without a settled row is Pending, so nothing
     is reported of a claim that is not on file; a settled row is Failed from
     its cached deadline on and Running before it, started when it was claimed.
     */
    method GetPodStatus(key: Key, now: Time) returns (status: Option<Published>)
      ensures status.Some? <==> key in pods
      ensures status.Some? ==> status.value.pod == pods[key]
      ensures status.Some? ==>
                (status.value.phase.Pending? <==> key !in claims || key in tentative || key in quarantined)
      ensures status.Some? && !status.value.phase.Pending? ==>
                status.value.start == claims[key].claimedAt
                    && (status.value.phase.Failed? <==> claims[key].deadline.Some? && claims[key].deadline.value <= now)
      ensures status.Some? && !status.value.phase.Pending? && Durable(file, Tables()) ==>
                InFile(file, claims[key].id, claims[key].token)
    {
      if key !in pods {
        return None;
      }
      if key !in claims || key in tentative || key in quarantined {
        return Some(Published(pods[key], Pending, None));
      }
      var c := claims[key];
      return Some(Published(pods[key], if c.Expired(now) then Failed else Running, c.claimedAt));
    }
  }

  lemma AdoptIds(m: Mem, key: Key, pod: Pod)
    ensures var m' := Adopt(m, key, pod); Ids(m'.claims, m'.releasing) <= Ids(m.claims, m.releasing)
  {
    var m' := Adopt(m, key, pod);
    forall id | id in Ids(m'.claims, m'.releasing)
      ensures id in Ids(m.claims, m.releasing)
    {
      if id in TableIds(m'.claims) {
        var k :| k in m'.claims && m'.claims[k].id == id;
        assert m.claims[k].id == id;
      } else {
        var c :| c in m'.releasing && c.id == id;
        if c !in m.releasing { assert c == m.claims[key]; }
      }
    }
  }

  function RowJudged(m: Mem, key: Key, id: SandboxId, live: Listing): Mem {
    if !m.Row(key, id) then m
    else m.(claims := if id in live then m.claims[key := Backdated(m.claims[key], live)] else m.claims - {key},
            quarantined := m.quarantined - {key})
  }

  /** The tables after the rows of `done` were judged. */
  ghost predicate JudgedSoFar(m: Mem, before: map<Key, SandboxId>, live: Listing, done: set<Key>, m': Mem) {
    var judged := Judged(m, before);
    && m' == m.(claims := m'.claims, quarantined := m'.quarantined)
    && m'.quarantined == m.quarantined - (judged * done)
    && (forall k :: k in m'.claims <==> k in m.claims && (k in done && k in judged ==> m.claims[k].id in live))
    && (forall k :: k in m'.claims ==>
          m'.claims[k] == if k in done && k in judged then Backdated(m.claims[k], live) else m.claims[k])
  }

  lemma NoneJudged(m: Mem, before: map<Key, SandboxId>, live: Listing)
    ensures JudgedSoFar(m, before, live, before.Keys - before.Keys, m)
  {
  }

  lemma JudgesOne(m: Mem, before: map<Key, SandboxId>, live: Listing, done: set<Key>, m': Mem, key: Key)
    requires JudgedSoFar(m, before, live, done, m') && key in before && key !in done
    ensures JudgedSoFar(m, before, live, done + {key}, RowJudged(m', key, before[key], live))
  {
  }

  lemma JudgesAll(m: Mem, before: map<Key, SandboxId>, live: Listing, m': Mem)
    requires JudgedSoFar(m, before, live, before.Keys - {}, m')
    ensures m' == Verify(m, before, live)
  {
    assert m'.claims == Verify(m, before, live).claims;
  }

  lemma VerifyNothing(m: Mem, listing: Option<Listing>)
    requires Unverified(m) == map[]
    ensures listing.Some? ==> Verify(m, map[], listing.value) == m
  {
    if listing.Some? {
      assert Judged(m, map[]) == {};
      assert Verify(m, map[], listing.value).claims == m.claims;
    }
  }

  lemma VerifyUnverified(m: Mem, live: Listing)
    requires m.quarantined <= m.claims.Keys
    ensures Verify(m, Unverified(m), live).quarantined == {}
  {
    assert Judged(m, Unverified(m)) == m.quarantined;
  }
}
