/**
 The loops of the class and the threads of the machine agree as the calls do: what a
 pass of a loop leaves when nothing else runs is what a run of the machine leaves in
 which only that thread steps.
 */
module Loops {
  import opened Types
  import opened Ownership
  import opened Sections
  import opened Machine
  import opened Reachability
  import opened Solo
  import C = Custody
  import O = Outcome
  import D = Drain
  import R = Recheck
  import Scan
  import Slots

  // ------------------------------------------------------------------------ starting

  /**
   A start is a run of the machine: the file's rows are loaded and quarantined, a listing
   frees what it can, and the process serves once the table is on disk again.
   */
  lemma StartIsARun(s: State, now: Time, listing: Option<Listing>, landed: bool) returns (s': State)
    requires Reachable(s) && s.proc.Down? && (listing.Some? ==> listing.value.Keys == s.w.live)
    ensures Leads(s, s', Starting)
    ensures !landed ==> s'.proc.Down? && s'.disk == s.disk
    ensures landed ==> s'.proc.Up? && O.Mirrors(s'.disk, s'.mem) && s'.mem.releasing == s.disk.releasing
    ensures landed ==> forall k :: O.SlotAt(s'.mem, k) == if listing.None? then O.LoadedSlot(s.disk, k, now)
                                                          else O.Vouched(O.LoadedSlot(s.disk, k, now), listing.value)
  {
    var s1 := Boots(s, now);
    var s2 := s1;
    if s1.verifier.VList? {
      s2 := FirstVerifies(s, s1, s.disk, now, listing);
    } else {
      NothingLoaded(s.disk, now);
    }
    s' := ComesUp(s, s2, landed);
  }

  lemma Boots(s: State, now: Time) returns (s': State)
    requires Reachable(s) && s.proc.Down?
    ensures On(s, s', Starting) && s'.proc.Booting? && s'.disk == s.disk && s'.mem == Load(s.disk, now)
    ensures s'.w.live == s.w.live
    ensures var before := Unverified(s'.mem); s'.verifier == if before == map[] then VIdle else VList(before)
    ensures forall k :: O.SlotAt(s'.mem, k) == O.LoadedSlot(s.disk, k, now)
  {
    Stays(s, Starting);
    var mem := Load(s.disk, now);
    var before, claims := Unverified(mem), s.disk.claims;
    s' := s.(proc := Booting, mem := mem, verifier := if before == map[] then VIdle else VList(before),
             w := s.w.(book := Restamped(s.w.book, LegacyIds(claims), now)),
             life := Life(TableIds(claims), TableIds(claims) * s.w.released, {},
                          QueueIds(s.disk.releasing), HomeOf(claims)));
    assert ProcessStep(s, Boot(now), s');
    Onward(s, s, Boot(now), s', Starting);
  }

  lemma NothingLoaded(file: StateFile, now: Time)
    requires Unverified(Load(file, now)) == map[]
    ensures file.claims == map[]
  {
    assert Unverified(Load(file, now)).Keys == file.claims.Keys;
  }

  lemma FirstVerifies(s0: State, s: State, file: StateFile, now: Time, listing: Option<Listing>) returns (s': State)
    requires On(s0, s, Starting) && s.proc.Booting? && s.disk == file && s.mem == Load(file, now)
    requires s.verifier == VList(Unverified(s.mem)) && (listing.Some? ==> listing.value.Keys == s.w.live)
    requires forall k :: O.SlotAt(s.mem, k) == O.LoadedSlot(file, k, now)
    ensures On(s0, s', Starting) && s'.proc.Booting? && s'.verifier.VIdle? && s'.disk == s.disk
    ensures s'.mem.releasing == s.mem.releasing
    ensures forall k :: O.SlotAt(s'.mem, k) == if listing.None? then O.LoadedSlot(file, k, now)
                                               else O.Vouched(O.LoadedSlot(file, k, now), listing.value)
  {
    if listing.None? {
      s' := s.(verifier := VIdle);
      assert VerifyStep(s, VerifyFails, s');
      Onward(s0, s, VerifyFails, s', Starting);
    } else {
      s' := VerifiesAll(s0, s, Starting, Unverified(s.mem), listing.value);
      Slots.VerifySlots(s.mem, Unverified(s.mem), listing.value);
    }
  }

  lemma ComesUp(s0: State, s: State, landed: bool) returns (s': State)
    requires On(s0, s, Starting) && s.proc.Booting? && s.verifier.VIdle?
    ensures On(s0, s', Starting)
    ensures !landed ==> s'.proc.Down? && s'.disk == s.disk
    ensures landed ==> s'.proc.Up? && s'.mem == s.mem && O.Mirrors(s'.disk, s'.mem)
  {
    var file := Snapshot(s.mem, None);
    s' := if landed
          then s.(proc := Up, disk := file, w := s.w.(durable := s.w.durable + Ids(file.claims, file.releasing)))
          else State(Down, NoMem, s.disk, None, map[], VIdle, LIdle, RIdle, s.w, NoLife);
    assert ProcessStep(s, BootPersist(landed), s');
    Onward(s0, s, BootPersist(landed), s', Starting);
  }

  // ------------------------------------------------------------------- verification

  /** A verification is a run of the machine: a listing frees every quarantined slot, a failed one does nothing. */
  lemma VerificationIsARun(s: State, listing: Option<Listing>) returns (s': State)
    requires Reachable(s) && s.proc.Up? && s.verifier.VIdle? && (listing.Some? ==> listing.value.Keys == s.w.live)
    ensures Leads(s, s', Verifying) && s'.verifier.VIdle?
    ensures forall k :: O.SlotAt(s'.mem, k) == if listing.None? then O.SlotAt(s.mem, k)
                                               else O.Vouched(O.SlotAt(s.mem, k), listing.value)
    ensures ViewOf(s') == ViewOf(s).(m := s'.mem) && s'.mem.releasing == s.mem.releasing
  {
    Stays(s, Verifying);
    Sounds(s);
    var before := Unverified(s.mem);
    var s1 := s.(verifier := if before == map[] then VIdle else VList(before));
    assert VerifyStep(s, VerifyBegin, s1);
    Onward(s, s, VerifyBegin, s1, Verifying);
    s' := s1;
    if before == map[] {
      assert s.mem.quarantined == {} by {
        if k :| k in s.mem.quarantined { assert k in before; }
      }
    } else if listing.None? {
      s' := s1.(verifier := VIdle);
      assert VerifyStep(s1, VerifyFails, s');
      Onward(s, s1, VerifyFails, s', Verifying);
    } else {
      s' := VerifiesAll(s, s1, Verifying, before, listing.value);
      Slots.VerifySlots(s.mem, before, listing.value);
    }
  }

  lemma VerifiesAll(s0: State, s: State, thread: Thread, before: map<Key, SandboxId>, live: Listing) returns (s': State)
    requires On(s0, s, thread) && (thread.Verifying? || thread.Starting?)
    requires s.verifier == VList(before) && live.Keys == s.w.live
    ensures On(s0, s', thread) && s'.verifier.VIdle? && s'.proc == s.proc
    ensures ViewOf(s') == ViewOf(s).(m := Verify(s.mem, before, live))
  {
    var s1 := s.(verifier := VJudge(before, live), w := Observed(s.w, before.Values, live),
                 life := s.life.(vouched := s.life.vouched + (before.Values * live.Keys)));
    assert VerifyStep(s, VerifyListed(live), s1);
    Onward(s0, s, VerifyListed(live), s1, thread);
    s' := s1.(verifier := VIdle, mem := Verify(s1.mem, before, live));
    assert VerifyStep(s1, VerifyJudge, s');
    Onward(s0, s1, VerifyJudge, s', thread);
  }

  // --------------------------------------------------------------------- lease watch

  /** Nothing happens to the tables between two judgements. */
  function Untouched(): (Key, Mem) -> Mem {
    (k: Key, m: Mem) => m
  }

  /** The candidates that are left after the first `i` judgements. */
  function Remaining(candidates: map<Key, Claim>, judged: seq<Scan.Judgement>, i: nat): map<Key, Claim>
    requires i <= |judged|
  {
    candidates - set j | 0 <= j < i :: judged[j].key
  }

  /** The watch has judged the first `i` candidates. */
  ghost predicate Judged(s0: State, s: State, candidates: map<Key, Claim>, live: Listing,
                         judged: seq<Scan.Judgement>, i: nat)
    requires i <= |judged|
  {
    && On(s0, s, Watching) && s.lease == LJudge(Remaining(candidates, judged, i), live)
    && ViewOf(s) == ViewOf(s0).(m := Scan.AfterJudging(judged[..i], live, s0.mem),
                                pushed := Pushes(s0.w.log) + Scan.Notices(judged[..i], live))
  }

  /** Judging a candidate is one iteration of `PublishExpiredLeases`. */
  lemma JudgesLease(s0: State, s: State, key: Key, c: Claim, live: Listing) returns (s': State)
    requires On(s0, s, Watching) && s.lease.LJudge? && s.lease.live == live
    requires key in s.lease.candidates && s.lease.candidates[key] == c
    ensures On(s0, s', Watching) && s'.lease == LJudge(s.lease.candidates - {key}, live)
    ensures var j := Scan.Judgement(key, c, s.mem);
            ViewOf(s') == ViewOf(s).(m := j.After(live),
                                     pushed := Pushes(s.w.log) + if j.Ended(live) then [j.Notice()] else [])
  {
    var next := s.(lease := LJudge(s.lease.candidates - {key}, live));
    if c.id in live {
      s' := next.(mem := Refresh(s.mem, key, c.id, live[c.id]));
    } else if key in s.mem.pods && s.mem.Row(key, c.id) {
      var e := Status(key, s.mem.pods[key], c.id, true, false, c.claimedAt);
      s' := next.(w := Logged(s.w, e));
      LogShows(s.w.log, e);
    } else {
      s' := next;
    }
    TakesLease(s0, s, key, s');
  }

  lemma TakesLease(s0: State, s: State, key: Key, s': State)
    requires On(s0, s, Watching) && LeaseJudgeStep(s, s', key)
    ensures On(s0, s', Watching)
  {
    assert LeaseStep(s, LeaseJudge(key), s');
    Onward(s0, s, LeaseJudge(key), s', Watching);
  }

  lemma JudgesOne(s0: State, s: State, candidates: map<Key, Claim>, live: Listing, judged: seq<Scan.Judgement>, i: nat)
    returns (s': State)
    requires i < |judged| && Judged(s0, s, candidates, live, judged, i)
    requires var left, j := Remaining(candidates, judged, i), judged[i];
             j.key in left && left[j.key] == j.c && Remaining(candidates, judged, i + 1) == left - {j.key}
    requires judged[i].at == Scan.AfterJudging(judged[..i], live, s0.mem)
    requires Scan.AfterJudging(judged[..i + 1], live, s0.mem) == judged[i].After(live)
    requires Scan.Notices(judged[..i + 1], live) ==
             Scan.Notices(judged[..i], live) + if judged[i].Ended(live) then [judged[i].Notice()] else []
    ensures Judged(s0, s', candidates, live, judged, i + 1)
  {
    s' := JudgesLease(s0, s, judged[i].key, judged[i].c, live);
  }

  lemma NextJudged(judged: seq<Scan.Judgement>, live: Listing, m: Mem, i: nat)
    requires i < |judged| && Scan.JudgeChain(judged, live, m, Untouched())
    ensures judged[i].at == Scan.AfterJudging(judged[..i], live, m)
    ensures Scan.AfterJudging(judged[..i + 1], live, m) == judged[i].After(live)
    ensures Scan.Notices(judged[..i + 1], live) ==
            Scan.Notices(judged[..i], live) + if judged[i].Ended(live) then [judged[i].Notice()] else []
  {
    assert judged[..i + 1][..i] == judged[..i] && judged[..i + 1][i] == judged[i];
  }

  lemma StillThere(candidates: map<Key, Claim>, judged: seq<Scan.Judgement>, i: nat)
    requires i < |judged| && Scan.JudgedOnce(candidates, candidates.Keys, judged)
    ensures judged[i].key in Remaining(candidates, judged, i)
    ensures Remaining(candidates, judged, i)[judged[i].key] == candidates[judged[i].key]
    ensures Remaining(candidates, judged, i + 1) == Remaining(candidates, judged, i) - {judged[i].key}
  {
    var keys := Scan.JudgedKeys(judged);
    assert judged[i] in judged;
    forall j | 0 <= j < i
      ensures judged[j].key != judged[i].key
    {
      assert keys[j] != keys[i];
    }
  }

  lemma {:induction false} JudgesAll(s0: State, s: State, candidates: map<Key, Claim>, live: Listing,
                                     judged: seq<Scan.Judgement>, i: nat) returns (s': State)
    requires i <= |judged| && Judged(s0, s, candidates, live, judged, i)
    requires Scan.JudgedOnce(candidates, candidates.Keys, judged)
    requires Scan.JudgeChain(judged, live, s0.mem, Untouched())
    ensures Judged(s0, s', candidates, live, judged, |judged|)
    decreases |judged| - i
  {
    s' := s;
    if i < |judged| {
      assert judged[i] in judged;
      StillThere(candidates, judged, i);
      NextJudged(judged, live, s0.mem, i);
      var s1 := JudgesOne(s0, s, candidates, live, judged, i);
      s' := JudgesAll(s0, s1, candidates, live, judged, i + 1);
    }
  }

  lemma NoneRemain(candidates: map<Key, Claim>, judged: seq<Scan.Judgement>)
    requires Scan.JudgedOnce(candidates, candidates.Keys, judged)
    ensures Remaining(candidates, judged, |judged|) == map[]
  {
    var keys := Scan.JudgedKeys(judged);
    forall k | k in candidates
      ensures exists j :: 0 <= j < |judged| && judged[j].key == k
    {
      assert k in keys;
      var j :| 0 <= j < |keys| && keys[j] == k;
      assert judged[j].key == k;
    }
  }

  /** A pass of the lease watch is a run of the machine, in whatever order it judges its candidates. */
  lemma WatchIsARun(s: State, now: Time, live: Listing, judged: seq<Scan.Judgement>) returns (s': State)
    requires Reachable(s) && s.proc.Up? && s.lease.LIdle? && live.Keys == s.w.live
    requires var candidates := ExpiredRows(s.mem, now);
             Scan.JudgedOnce(candidates, candidates.Keys, judged) && Scan.JudgeChain(judged, live, s.mem, Untouched())
    ensures Leads(s, s', Watching) && s'.lease.LIdle?
    ensures ViewOf(s') == ViewOf(s).(m := Scan.AfterJudging(judged, live, s.mem),
                                     pushed := Pushes(s.w.log) + Scan.Notices(judged, live))
  {
    Stays(s, Watching);
    s' := s;
    if judged == [] {
      NoneRemain(ExpiredRows(s.mem, now), judged);
    } else {
      s' := Watches(s, now, live, judged);
    }
  }

  lemma Watches(s: State, now: Time, live: Listing, judged: seq<Scan.Judgement>) returns (s': State)
    requires Reachable(s) && s.proc.Up? && s.lease.LIdle? && live.Keys == s.w.live && judged != []
    requires var candidates := ExpiredRows(s.mem, now);
             Scan.JudgedOnce(candidates, candidates.Keys, judged) && Scan.JudgeChain(judged, live, s.mem, Untouched())
    ensures On(s, s', Watching) && s'.lease.LIdle?
    ensures ViewOf(s') == ViewOf(s).(m := Scan.AfterJudging(judged, live, s.mem),
                                     pushed := Pushes(s.w.log) + Scan.Notices(judged, live))
  {
    var candidates := ExpiredRows(s.mem, now);
    SomeCandidate(candidates, judged);
    var s1 := StartsWatch(s, now, live);
    NoneYet(s, s1, candidates, live, judged);
    var s2 := JudgesAll(s, s1, candidates, live, judged, 0);
    AllJudged(s, s2, candidates, live, judged);
    s' := EndsWatch(s, s2);
  }

  lemma SomeCandidate(candidates: map<Key, Claim>, judged: seq<Scan.Judgement>)
    requires judged != [] && Scan.JudgedOnce(candidates, candidates.Keys, judged)
    ensures candidates != map[]
  {
    assert judged[0] in judged;
  }

  lemma NoneYet(s0: State, s: State, candidates: map<Key, Claim>, live: Listing, judged: seq<Scan.Judgement>)
    requires On(s0, s, Watching) && s.lease == LJudge(candidates, live) && ViewOf(s) == ViewOf(s0)
    ensures Judged(s0, s, candidates, live, judged, 0)
  {
    assert judged[..0] == [] && Remaining(candidates, judged, 0) == candidates;
  }

  lemma AllJudged(s0: State, s: State, candidates: map<Key, Claim>, live: Listing, judged: seq<Scan.Judgement>)
    requires Scan.JudgedOnce(candidates, candidates.Keys, judged) && Judged(s0, s, candidates, live, judged, |judged|)
    ensures s.lease == LJudge(map[], live)
    ensures ViewOf(s) == ViewOf(s0).(m := Scan.AfterJudging(judged, live, s0.mem),
                                     pushed := Pushes(s0.w.log) + Scan.Notices(judged, live))
  {
    NoneRemain(candidates, judged);
    assert judged[..|judged|] == judged;
  }

  lemma EndsWatch(s0: State, s: State) returns (s': State)
    requires On(s0, s, Watching) && s.lease.LJudge? && s.lease.candidates == map[]
    ensures On(s0, s', Watching) && s' == s.(lease := LIdle)
  {
    s' := s.(lease := LIdle);
    assert LeaseStep(s, LeaseEnd, s');
    Onward(s0, s, LeaseEnd, s', Watching);
  }

  lemma StartsWatch(s: State, now: Time, live: Listing) returns (s': State)
    requires Reachable(s) && s.proc.Up? && s.lease.LIdle? && live.Keys == s.w.live && ExpiredRows(s.mem, now) != map[]
    ensures On(s, s', Watching) && s'.lease == LJudge(ExpiredRows(s.mem, now), live) && ViewOf(s') == ViewOf(s)
  {
    Stays(s, Watching);
    var candidates := ExpiredRows(s.mem, now);
    var s1 := s.(lease := LList(candidates));
    assert LeaseStep(s, LeaseBegin(now), s1);
    Onward(s, s, LeaseBegin(now), s1, Watching);
    s' := s1.(lease := LJudge(candidates, live), w := Observed(s1.w, TableIds(candidates), live));
    assert LeaseStep(s1, LeaseListed(live), s');
    Onward(s, s1, LeaseListed(live), s', Watching);
  }

  // ------------------------------------------------------------------ owner re-check

  function StoreOf(s: State): C.Store {
    C.Store(s.mem, s.disk)
  }

  /** Nothing happens to the store during a tick but what the tick does. */
  function NoOthers(): R.Others {
    R.Others((k: Key, w: C.Store) => w, (w: C.Store) => w, (i: nat, w: C.Store) => w, (w: C.Store) => w)
  }

  /** The rows that are left after the first `i` asks. */
  function Unasked(rows: map<Key, Claim>, asks: seq<R.Ask>, i: nat): map<Key, Claim>
    requires i <= |asks|
  {
    rows - set j | 0 <= j < i :: asks[j].key
  }

  /** The tick has come this far, with these releases asked. */
  ghost predicate Ticks(s0: State, s: State, w: C.Store, released: seq<C.Released>) {
    && On(s0, s, Ticking) && s.writer.None? && StoreOf(s) == w
    && Releases(s.w.log) == Releases(s0.w.log) + released && Pushes(s.w.log) == Pushes(s0.w.log)
  }

  /** One ask: the owner is read, and the row withdrawn when the verdict is release. */
  lemma AsksOne(s0: State, s: State, key: Key, c: Claim, read: OwnerRead) returns (s': State)
    requires Ticks(s0, s, StoreOf(s), []) && s.recheck.RAsk? && key in s.recheck.todo && s.recheck.todo[key] == c
    ensures var ask := R.Ask(key, c, read, StoreOf(s));
            && Ticks(s0, s', ask.After(), [])
            && s'.recheck == RAsk(s.recheck.todo - {key}, s.recheck.changed || ask.Moves())
  {
    var rest := s.recheck.todo - {key};
    var e := RecheckJudged(c.id, c.owner, read);
    Unseen(s.w.log, e);
    if DestroyAuthorized(c.owner, read).Release? {
      var s1 := s.(recheck := RWithdraw(key, c, rest, s.recheck.changed), w := Logged(s.w, e));
      ReadsOwner(s0, s, key, read, s1);
      s' := Withdraws(s0, s1);
    } else {
      s' := s.(recheck := RAsk(rest, s.recheck.changed), w := Logged(s.w, e));
      ReadsOwner(s0, s, key, read, s');
    }
  }

  lemma ReadsOwner(s0: State, s: State, key: Key, read: OwnerRead, s': State)
    requires On(s0, s, Ticking) && RecheckAskStep(s, s', key, read)
    ensures On(s0, s', Ticking)
  {
    assert RecheckStep(s, RecheckAsk(key, read), s');
    Onward(s0, s, RecheckAsk(key, read), s', Ticking);
  }

  lemma Withdraws(s0: State, s: State) returns (s': State)
    requires On(s0, s, Ticking) && s.recheck.RWithdraw?
    ensures var moves := Withdrawable(s.mem, s.recheck.key, s.recheck.c);
            && On(s0, s', Ticking)
            && s' == s.(recheck := RAsk(s.recheck.todo, s.recheck.changed || moves),
                        mem := WithdrawForRelease(s.mem, s.recheck.key, s.recheck.c), life := s'.life)
  {
    var RWithdraw(key, c, todo, changed) := s.recheck;
    var moves := Withdrawable(s.mem, key, c);
    s' := s.(recheck := RAsk(todo, changed || moves), mem := WithdrawForRelease(s.mem, key, c),
             life := if moves then s.life.(queued := s.life.queued + {c.id}) else s.life);
    assert RecheckStep(s, RecheckWithdraw, s');
    Onward(s0, s, RecheckWithdraw, s', Ticking);
  }

  /** The tick has asked the first `i` of its asks. */
  ghost predicate Asked(s0: State, s: State, rows: map<Key, Claim>, asks: seq<R.Ask>, i: nat)
    requires i <= |asks|
  {
    && Ticks(s0, s, R.AfterAsks(asks[..i], StoreOf(s0)), [])
    && s.recheck == RAsk(Unasked(rows, asks, i), R.AnyMoves(asks[..i]))
  }

  /** Ask `i` is of a row of the snapshot that no earlier one is about, and nothing happened since the one before it. */
  ghost predicate AskOf(rows: map<Key, Claim>, asks: seq<R.Ask>, w: C.Store, i: nat)
    requires i < |asks|
  {
    && asks[i].key in rows && asks[i].c == rows[asks[i].key] && asks[i].at == R.AfterAsks(asks[..i], w)
    && forall j :: 0 <= j < i ==> asks[j].key != asks[i].key
  }

  ghost predicate AsksOf(rows: map<Key, Claim>, asks: seq<R.Ask>, w: C.Store) {
    forall i :: 0 <= i < |asks| ==> AskOf(rows, asks, w, i)
  }

  lemma NextAsk(asks: seq<R.Ask>, w: C.Store, i: nat)
    requires i < |asks|
    ensures R.AfterAsks(asks[..i + 1], w) == asks[i].After()
    ensures R.AnyMoves(asks[..i + 1]) <==> R.AnyMoves(asks[..i]) || asks[i].Moves()
  {
    assert asks[..i + 1] == asks[..i] + [asks[i]];
    R.MovesNext(asks[..i], asks[i]);
  }

  lemma NextRow(rows: map<Key, Claim>, asks: seq<R.Ask>, w: C.Store, i: nat)
    requires i < |asks| && AskOf(rows, asks, w, i)
    ensures var left, ask := Unasked(rows, asks, i), asks[i];
            ask.key in left && left[ask.key] == ask.c && Unasked(rows, asks, i + 1) == left - {ask.key}
  {
  }

  lemma AsksNext(s0: State, s: State, rows: map<Key, Claim>, asks: seq<R.Ask>, i: nat) returns (s': State)
    requires i < |asks| && Asked(s0, s, rows, asks, i) && AskOf(rows, asks, StoreOf(s0), i)
    ensures Asked(s0, s', rows, asks, i + 1)
  {
    NextAsk(asks, StoreOf(s0), i);
    NextRow(rows, asks, StoreOf(s0), i);
    s' := AsksOne(s0, s, asks[i].key, asks[i].c, asks[i].read);
  }

  lemma {:induction false} AsksAll(s0: State, s: State, rows: map<Key, Claim>, asks: seq<R.Ask>, i: nat)
    returns (s': State)
    requires i <= |asks| && Asked(s0, s, rows, asks, i) && AsksOf(rows, asks, StoreOf(s0))
    ensures Asked(s0, s', rows, asks, |asks|)
    decreases |asks| - i
  {
    s' := s;
    if i < |asks| {
      assert AskOf(rows, asks, StoreOf(s0), i);
      var s1 := AsksNext(s0, s, rows, asks, i);
      s' := AsksAll(s0, s1, rows, asks, i + 1);
    }
  }

  /** The rows that are not due are passed over. */
  lemma {:induction false} SkipsAll(s0: State, s: State) returns (s': State)
    requires On(s0, s, Ticking) && s.recheck.RAsk?
    ensures On(s0, s', Ticking) && s' == s.(recheck := RAsk(map[], s.recheck.changed))
    decreases |s.recheck.todo|
  {
    s' := s;
    if s.recheck.todo != map[] {
      var key :| key in s.recheck.todo;
      var s1 := s.(recheck := RAsk(s.recheck.todo - {key}, s.recheck.changed));
      assert RecheckStep(s, RecheckSkip(key), s1);
      Onward(s0, s, RecheckSkip(key), s1, Ticking);
      assert s.recheck.todo.Keys == s1.recheck.todo.Keys + {key};
      s' := SkipsAll(s0, s1);
    }
  }

  // --------------------------------------------------------------------------- drain

  /** One release of the drain succeeds, and its claim leaves the queue. */
  lemma DrainsReleased(s0: State, s: State) returns (s': State)
    requires On(s0, s, Ticking) && s.recheck.RDrain? && s.recheck.queued != []
    ensures var c := s.recheck.queued[0];
            && On(s0, s', Ticking)
            && s' == s.(recheck := RDrain(s.recheck.queued[1..], true), mem := Dequeue(s.mem, c.id),
                        w := ReleaseDone(s.w, c))
  {
    var c, rest := s.recheck.queued[0], s.recheck.queued[1..];
    var s1 := s.(recheck := RRemove(c, rest, s.recheck.changed), w := ReleaseDone(s.w, c));
    TakesDrain(s0, s, DrainRelease(true), s1);
    s' := s1.(recheck := RDrain(rest, true), mem := Dequeue(s1.mem, c.id));
    TakesDrain(s0, s1, DrainRemove, s');
  }

  /** One release of the drain. */
  lemma DrainsOne(s0: State, s: State, released: seq<C.Released>, ok: bool) returns (s': State)
    requires Ticks(s0, s, StoreOf(s), released) && s.recheck.RDrain? && s.recheck.queued != []
    ensures var c := s.recheck.queued[0];
            && Ticks(s0, s', if ok then StoreOf(s).(m := Dequeue(s.mem, c.id)) else StoreOf(s),
                     released + [C.Released(c.id, c.token, ok)])
            && s'.recheck == RDrain(s.recheck.queued[1..], s.recheck.changed || ok)
  {
    var c := s.recheck.queued[0];
    ReleaseShows(s.w.log, c, ok);
    if ok {
      s' := DrainsReleased(s0, s);
    } else {
      s' := s.(recheck := RDrain(s.recheck.queued[1..], s.recheck.changed), w := ReleaseFailed(s.w, c));
      TakesDrain(s0, s, DrainRelease(false), s');
    }
  }

  lemma TakesDrain(s0: State, s: State, a: Action, s': State)
    requires On(s0, s, Ticking) && DrainStep(s, a, s')
    ensures On(s0, s', Ticking)
  {
    Onward(s0, s, a, s', Ticking);
  }

  /** Some of the first `i` releases succeeded. */
  ghost predicate AnyReleased(releases: nat -> bool, i: nat) {
    exists j :: 0 <= j < i && releases(j)
  }

  /** The drain has asked for the first `i` releases of its copy of the queue. */
  ghost predicate Drained(s0: State, s: State, w: C.Store, changed: bool, releases: nat -> bool, i: nat)
    requires i <= |w.m.releasing|
  {
    var queue := w.m.releasing;
    && Ticks(s0, s, D.DrainRun(w, queue, releases, NoOthers().draining, i),
             D.Calls(queue, D.Outcomes(|queue|, releases))[..i])
    && s.recheck == RDrain(queue[i..], changed || AnyReleased(releases, i))
  }

  lemma NextRelease(w: C.Store, releases: nat -> bool, i: nat)
    requires i < |w.m.releasing|
    ensures var queue := w.m.releasing;
            var run := D.DrainRun(w, queue, releases, NoOthers().draining, i);
            var calls := D.Calls(queue, D.Outcomes(|queue|, releases));
            && D.DrainRun(w, queue, releases, NoOthers().draining, i + 1) ==
               (if releases(i) then run.(m := Dequeue(run.m, queue[i].id)) else run)
            && calls[..i + 1] == calls[..i] + [C.Released(queue[i].id, queue[i].token, releases(i))]
            && queue[i..] == [queue[i]] + queue[i + 1..]
  {
    D.CallsNext(w.m.releasing, D.Outcomes(|w.m.releasing|, releases), i);
  }

  lemma NextOutcome(releases: nat -> bool, i: nat)
    ensures AnyReleased(releases, i + 1) <==> AnyReleased(releases, i) || releases(i)
  {
  }

  lemma {:induction false} DrainsAll(s0: State, s: State, w: C.Store, changed: bool, releases: nat -> bool, i: nat)
    returns (s': State)
    requires i <= |w.m.releasing| && Drained(s0, s, w, changed, releases, i)
    ensures Drained(s0, s', w, changed, releases, |w.m.releasing|)
    decreases |w.m.releasing| - i
  {
    s' := s;
    if i < |w.m.releasing| {
      NextRelease(w, releases, i);
      NextOutcome(releases, i);
      var queue := w.m.releasing;
      var s1 := DrainsOne(s0, s, D.Calls(queue, D.Outcomes(|queue|, releases))[..i], releases(i));
      s' := DrainsAll(s0, s1, w, changed, releases, i + 1);
    }
  }

  /** The tick ends, with a write of the tables if something changed. */
  lemma EndsTick(s0: State, s: State, released: seq<C.Released>, saved: bool) returns (s': State)
    requires Ticks(s0, s, StoreOf(s), released) && s.recheck.RDrain? && s.recheck.queued == []
    ensures var file := if s.recheck.changed && saved then Snapshot(s.mem, None) else s.disk;
            Ticks(s0, s', C.Store(s.mem, file), released) && s'.recheck.RIdle?
  {
    s' := s.(recheck := if s.recheck.changed then RSave else RIdle);
    assert DrainStep(s, DrainEnd, s');
    Onward(s0, s, DrainEnd, s', Ticking);
    if s.recheck.changed {
      s' := SavesTick(s0, s', saved);
    }
  }

  lemma SavesTick(s0: State, s: State, saved: bool) returns (s': State)
    requires On(s0, s, Ticking) && s.writer.None? && s.recheck.RSave?
    ensures On(s0, s', Ticking)
    ensures s' == s.(recheck := RIdle, disk := if saved then Snapshot(s.mem, None) else s.disk,
                     w := s.w.(durable := s'.w.durable))
  {
    var file := Snapshot(s.mem, None);
    var s1 := s.(writer := Some(Writer(ByRecheck, None, file, false)));
    assert SaveStep(s, SaveBegin(ByRecheck), s1);
    Onward(s0, s, SaveBegin(ByRecheck), s1, Ticking);
    if saved {
      var s2 := s1.(disk := file, writer := Some(s1.writer.value.(renamed := true)),
                    w := s1.w.(durable := s1.w.durable + Ids(file.claims, file.releasing)));
      assert SaveStep(s1, SaveRename, s2);
      Onward(s0, s1, SaveRename, s2, Ticking);
      s1 := s2;
    }
    s' := s1.(writer := None, recheck := RIdle);
    assert SaveStep(s1, SaveEnd(saved), s');
    Onward(s0, s1, SaveEnd(saved), s', Ticking);
  }

  /** The asks of a tick, each with the rows the snapshot has. */
  lemma TickAsks(t: R.Start, asks: seq<R.Ask>)
    requires t.Answered() && R.AskedOnce(t, t.Rows().Keys, asks) && R.AskChain(asks, t.w, NoOthers().asking)
    ensures AsksOf(t.Rows(), asks, t.w)
  {
    R.AskedExactly(t, asks);
    forall i | 0 <= i < |asks|
      ensures AskOf(t.Rows(), asks, t.w, i)
    {
      assert asks[i] in asks;
    }
  }

  /**
   A tick of the owner re-check is a run of the machine: in whatever order it asks, and
   whatever the owners, the node and the file system answer.
   */
  lemma TickIsARun(s: State, t: R.Start, asks: seq<R.Ask>, releases: nat -> bool, saved: bool) returns (s': State)
    requires Reachable(s) && s.proc.Up? && s.recheck.RIdle? && s.writer.None? && t.w == StoreOf(s) && t.Answered()
    requires R.AskedOnce(t, t.Rows().Keys, asks) && R.AskChain(asks, t.w, NoOthers().asking)
    ensures Leads(s, s', Ticking) && s'.recheck.RIdle?
    ensures StoreOf(s') == R.Ticked(asks, t.w, NoOthers(), releases, saved)
    ensures var queue := R.Drains(asks, t.w, NoOthers()).m.releasing;
            Releases(s'.w.log) == Releases(s.w.log) + D.Calls(queue, D.Outcomes(|queue|, releases))
    ensures Pushes(s'.w.log) == Pushes(s.w.log)
  {
    TickAsks(t, asks);
    var s1 := AsksTick(s, t.Rows(), asks);
    var w, changed := R.AfterAsks(asks, t.w), R.AnyMoves(asks);
    var s2 := s1.(recheck := RDrain(s1.mem.releasing, changed));
    assert DrainStep(s1, DrainBegin, s2);
    Onward(s, s1, DrainBegin, s2, Ticking);
    var s3 := DrainsAll(s, s2, w, changed, releases, 0);
    var queue := w.m.releasing;
    var calls := D.Calls(queue, D.Outcomes(|queue|, releases));
    assert calls[..|queue|] == calls;
    s' := EndsTick(s, s3, calls, saved);
  }

  lemma AsksTick(s: State, rows: map<Key, Claim>, asks: seq<R.Ask>) returns (s': State)
    requires Reachable(s) && s.proc.Up? && s.recheck.RIdle? && s.writer.None?
    requires rows == PreservedRows(s.mem) && AsksOf(rows, asks, StoreOf(s))
    ensures Ticks(s, s', R.AfterAsks(asks, StoreOf(s)), []) && s'.recheck == RAsk(map[], R.AnyMoves(asks))
  {
    Stays(s, Ticking);
    var s1 := s.(recheck := RAsk(rows, false));
    assert RecheckStep(s, RecheckBegin, s1);
    Onward(s, s, RecheckBegin, s1, Ticking);
    assert asks[..0] == [] && Unasked(rows, asks, 0) == rows;
    var s2 := AsksAll(s, s1, rows, asks, 0);
    assert asks[..|asks|] == asks;
    s' := SkipsAll(s, s2);
  }
}
