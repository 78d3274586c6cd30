/**
 One tick of the owner re-check: it asks about the owner of every due preserved
 row, moves the abandoned rows to the release queue, drains the queue and saves.
 The tables and the state file may become anything while the lock is not held;
 what they become is a parameter.
 */
module Recheck {
  import opened Types
  import opened Ownership
  import opened Sections
  import opened Custody
  import opened Provider
  import opened Drain
  import Backoff

  /** An owner that was read: about which row, with what answer, and the store by the time the answer was there. */
  datatype Ask = Ask(key: Key, c: Claim, read: OwnerRead, at: Store) {
    predicate Releases() {
      DestroyAuthorized(c.owner, read).Release?
    }

    /** The row leaves its key: the verdict is release, the key still holds that sandbox, and no Pod has it. */
    predicate Moves() {
      Releases() && Withdrawable(at.m, key, c)
    }

    function After(): Store {
      if Releases() then at.(m := WithdrawForRelease(at.m, key, c)) else at
    }
  }

  /** What a tick starts from: the store, the backoff, its time and base delay, and what the owner reads answer. */
  datatype Start = Start(
    w: Store,
    rechecks: map<Key, OwnerRecheck>,
    now: Time,
    base: int,
    answers: map<Key, OwnerRead>
  ) {
    /** The rows the tick may ask about. */
    function Rows(): map<Key, Claim> {
      PreservedRows(w.m)
    }

    predicate Due(k: Key) {
      k in Rows() && Backoff.Due(EntryOf(rechecks, k), now)
    }

    predicate Answered() {
      Rows().Keys <= answers.Keys
    }

    /** The entry of a key once the tick is through with it. */
    function EntryAfter(k: Key): Option<OwnerRecheck>
      requires k in Rows() && Answered()
    {
      if Due(k) && DestroyAuthorized(Rows()[k].owner, answers[k]).Release? then None
      else Backoff.Tick(EntryOf(rechecks, k), now, base)
    }
  }

  function EntryOf(rechecks: map<Key, OwnerRecheck>, k: Key): Option<OwnerRecheck> {
    if k in rechecks then Some(rechecks[k]) else None
  }

  function AskedKeys(asks: seq<Ask>): seq<Key> {
    KeysOf(asks, (ask: Ask) => ask.key)
  }

  /** Each due row of `done` was asked about once, as the snapshot has it, and no other row was. */
  ghost predicate AskedOnce(t: Start, done: set<Key>, asks: seq<Ask>)
    requires t.Answered()
  {
    && Visits(AskedKeys(asks), set k | k in done && t.Due(k))
    && (forall ask :: ask in asks ==>
          t.Due(ask.key) && ask.c == t.Rows()[ask.key] && ask.read == t.answers[ask.key])
  }

  /** The store after the asks. */
  function AfterAsks(asks: seq<Ask>, w: Store): Store {
    if asks == [] then w else asks[|asks| - 1].After()
  }

  /** Between two asks the store changes as the rest of the world likes, and in no other way. */
  ghost predicate AskChain(asks: seq<Ask>, w: Store, meanwhile: (Key, Store) -> Store) {
    forall i :: 0 <= i < |asks| ==> asks[i].at == meanwhile(asks[i].key, AfterAsks(asks[..i], w))
  }

  /** The backoff: of preserved keys only, and of those in `done` as the tick leaves them. */
  ghost predicate BackoffAfter(t: Start, done: set<Key>, rechecks: map<Key, OwnerRecheck>)
    requires t.Answered()
  {
    forall k :: EntryOf(rechecks, k) ==
      if k !in t.Rows() then None else if k in done then t.EntryAfter(k) else EntryOf(t.rechecks, k)
  }

  ghost predicate AnyMoves(asks: seq<Ask>) {
    exists ask :: ask in asks && ask.Moves()
  }

  /** The row of the key is one the tick asks about: it has an owner on record, no Pod, neither marker, and is due. */
  ghost predicate Askable(t: Start, k: Key) {
    && k in t.w.m.claims && t.w.m.claims[k].owner.Some? && k !in t.w.m.pods
    && k !in t.w.m.tentative && k !in t.w.m.quarantined
    && (k in t.rechecks ==> t.rechecks[k].at <= t.now)
  }

  /** Every key of that kind is asked about, no other is, and none is twice. */
  ghost predicate AsksExactly(t: Start, asks: seq<Ask>) {
    && (forall ask :: ask in asks ==> Askable(t, ask.key) && ask.c == t.w.m.claims[ask.key])
    && (forall k :: Askable(t, k) ==> exists ask :: ask in asks && ask.key == k)
    && (forall i, j :: 0 <= i < j < |asks| ==> asks[i].key != asks[j].key)
  }

  lemma AskedExactly(t: Start, asks: seq<Ask>)
    requires t.Answered() && AskedOnce(t, t.Rows().Keys, asks)
    ensures AsksExactly(t, asks)
  {
    var keys := AskedKeys(asks);
    forall k | Askable(t, k)
      ensures exists ask :: ask in asks && ask.key == k
    {
      assert k in t.Rows() && t.Due(k) && k in keys;
      var i :| 0 <= i < |keys| && keys[i] == k;
      assert asks[i].key == k && asks[i] in asks;
    }
    forall i, j | 0 <= i < j < |asks|
      ensures asks[i].key != asks[j].key
    {
      assert keys[i] != keys[j];
    }
  }

  // ---------------------------------------------------------------------- the loop

  /** Drops the backoff of keys that are no longer preserved. */
  method Prune(p: Provider, preserved: map<Key, Claim>)
    modifies p`ownerRechecks
    ensures forall k :: k in p.ownerRechecks <==> k in old(p.ownerRechecks) && k in preserved
    ensures forall k :: k in p.ownerRechecks ==> p.ownerRechecks[k] == old(p.ownerRechecks)[k]
  {
    var todo := p.ownerRechecks.Keys;
    ghost var before := p.ownerRechecks;
    while todo != {}
      invariant todo <= before.Keys
      invariant forall k :: k in p.ownerRechecks <==> k in before && (k in todo || k in preserved)
      invariant forall k :: k in p.ownerRechecks ==> p.ownerRechecks[k] == before[k]
      decreases |todo|
    {
      var k :| k in todo;
      if k !in preserved {
        p.ownerRechecks := p.ownerRechecks - {k};
      }
      todo := todo - {k};
    }
  }

  /** The settled rows with a recorded owner and no tracked Pod. */
  method SnapshotPreserved(p: Provider) returns (preserved: map<Key, Claim>)
    ensures preserved == PreservedRows(p.Tables())
  {
    preserved := map[];
    var todo := p.claims.Keys;
    while todo != {}
      invariant todo <= p.claims.Keys
      invariant forall k :: k in preserved <==>
                  && k in p.claims && k !in todo && p.claims[k].owner.Some?
                  && k !in p.pods && k !in p.tentative && k !in p.quarantined
      invariant forall k :: k in preserved ==> preserved[k] == p.claims[k]
      decreases |todo|
    {
      var k :| k in todo;
      if p.claims[k].owner.Some? && k !in p.pods && k !in p.tentative && k !in p.quarantined {
        preserved := preserved[k := p.claims[k]];
      }
      todo := todo - {k};
    }
    assert preserved == PreservedRows(p.Tables());
  }

  /** Moves the row off its key unless a Pod took it or another sandbox holds the key. */
  method WithdrawRow(p: Provider, key: Key, c: Claim) returns (moved: bool)
    modifies p`claims, p`releasing
    ensures moved <==> Withdrawable(old(p.Tables()), key, c)
    ensures p.Tables() == WithdrawForRelease(old(p.Tables()), key, c)
  {
    if key !in p.claims || p.claims[key].id != c.id || key in p.pods {
      return false;
    }
    p.claims := p.claims - {key};
    p.releasing := p.releasing + [c];
    return true;
  }

  /** Reads the owner of a due row and withdraws the row or backs off; the store is `now` when the read returns. */
  method AskOne(p: Provider, key: Key, c: Claim, time: Time, base: int, read: OwnerRead, now: Store)
    returns (moved: bool)
    modifies p`pods, p`claims, p`tentative, p`quarantined, p`releasing, p`file, p`ownerRechecks
    ensures p.Stored() == Ask(key, c, read, now).After() && (moved <==> Ask(key, c, read, now).Moves())
    ensures p.ownerRechecks ==
            if Ask(key, c, read, now).Releases() then old(p.ownerRechecks) - {key}
            else old(p.ownerRechecks)[key := Backoff.Asked(EntryOf(old(p.ownerRechecks), key), time, base)]
  {
    p.BecomeStore(now);
    if DestroyAuthorized(c.owner, read).Release? {
      moved := WithdrawRow(p, key, c);
      p.ownerRechecks := p.ownerRechecks - {key};
      return;
    }
    var delay := if key in p.ownerRechecks then Backoff.Min(2 * p.ownerRechecks[key].delay, Backoff.MAX_DELAY)
        else base;
    p.ownerRechecks := p.ownerRechecks[key := OwnerRecheck(time + delay, delay)];
    return false;
  }

  lemma AskedNext(t: Start, done: set<Key>, asks: seq<Ask>, ask: Ask)
    requires t.Answered() && AskedOnce(t, done, asks) && ask.key !in done && t.Due(ask.key)
    requires ask.c == t.Rows()[ask.key] && ask.read == t.answers[ask.key]
    ensures AskedOnce(t, done + {ask.key}, asks + [ask])
  {
    var keys := set k | k in done && t.Due(k);
    assert (set k | k in done + {ask.key} && t.Due(k)) == keys + {ask.key};
    assert AskedKeys(asks + [ask]) == AskedKeys(asks) + [ask.key];
    VisitsOne(AskedKeys(asks), keys, ask.key);
  }

  lemma SkippedNext(t: Start, done: set<Key>, asks: seq<Ask>, key: Key)
    requires t.Answered() && AskedOnce(t, done, asks) && !t.Due(key)
    ensures AskedOnce(t, done + {key}, asks)
  {
    assert (set k | k in done + {key} && t.Due(k)) == (set k | k in done && t.Due(k));
  }

  lemma AskChainNext(asks: seq<Ask>, w: Store, meanwhile: (Key, Store) -> Store, ask: Ask)
    requires AskChain(asks, w, meanwhile) && ask.at == meanwhile(ask.key, AfterAsks(asks, w))
    ensures AskChain(asks + [ask], w, meanwhile) && AfterAsks(asks + [ask], w) == ask.After()
  {
    forall i | 0 <= i < |asks + [ask]|
      ensures (asks + [ask])[i].at == meanwhile((asks + [ask])[i].key, AfterAsks((asks + [ask])[..i], w))
    {
      if i < |asks| {
        assert (asks + [ask])[..i] == asks[..i];
      } else {
        assert (asks + [ask])[..i] == asks;
      }
    }
  }

  lemma BackoffAsked(t: Start, done: set<Key>, rechecks: map<Key, OwnerRecheck>, key: Key)
    requires t.Answered() && BackoffAfter(t, done, rechecks) && key !in done && t.Due(key)
    ensures BackoffAfter(t, done + {key},
              if DestroyAuthorized(t.Rows()[key].owner, t.answers[key]).Release? then rechecks - {key}
              else rechecks[key := Backoff.Asked(EntryOf(rechecks, key), t.now, t.base)])
  {
    assert EntryOf(rechecks, key) == EntryOf(t.rechecks, key);
  }

  lemma BackoffSkipped(t: Start, done: set<Key>, rechecks: map<Key, OwnerRecheck>, key: Key)
    requires t.Answered() && BackoffAfter(t, done, rechecks) && key in t.Rows() && !t.Due(key)
    ensures BackoffAfter(t, done + {key}, rechecks)
  {
  }

  lemma MovesNext(asks: seq<Ask>, ask: Ask)
    ensures AnyMoves(asks + [ask]) <==> AnyMoves(asks) || ask.Moves()
  {
    if x :| x in asks && x.Moves() { assert x in asks + [ask]; }
    if ask.Moves() { assert ask in asks + [ask]; }
  }

  /** How far a tick is: which rows are done, whom it asked, and where that left the store and the backoff. */
  ghost predicate AskedSoFar(t: Start, done: set<Key>, asks: seq<Ask>, meanwhile: (Key, Store) -> Store,
                             w: Store, rechecks: map<Key, OwnerRecheck>)
    requires t.Answered()
  {
    && AskedOnce(t, done, asks) && AskChain(asks, t.w, meanwhile) && w == AfterAsks(asks, t.w)
    && BackoffAfter(t, done, rechecks)
  }

  /** One iteration: a row that is not due is passed over, another has its owner read. */
  method AskNext(p: Provider, ghost t: Start, ghost done: set<Key>, ghost asks: seq<Ask>, key: Key, c: Claim,
                 time: Time, base: int, read: OwnerRead, meanwhile: (Key, Store) -> Store)
    returns (moved: bool, ghost asks': seq<Ask>)
    requires t.Answered() && key in t.Rows() && key !in done
    requires c == t.Rows()[key] && time == t.now && base == t.base && read == t.answers[key]
    requires AskedSoFar(t, done, asks, meanwhile, p.Stored(), p.ownerRechecks)
    modifies p`pods, p`claims, p`tentative, p`quarantined, p`releasing, p`file, p`ownerRechecks
    ensures AskedSoFar(t, done + {key}, asks', meanwhile, p.Stored(), p.ownerRechecks)
    ensures AnyMoves(asks') <==> AnyMoves(asks) || moved
  {
    assert EntryOf(p.ownerRechecks, key) == EntryOf(t.rechecks, key);
    if key in p.ownerRechecks && time < p.ownerRechecks[key].at {
      SkippedNext(t, done, asks, key);
      BackoffSkipped(t, done, p.ownerRechecks, key);
      return false, asks;
    }
    var now := meanwhile(key, p.Stored());
    ghost var ask := Ask(key, c, read, now);
    AskedNext(t, done, asks, ask);
    AskChainNext(asks, t.w, meanwhile, ask);
    BackoffAsked(t, done, p.ownerRechecks, key);
    MovesNext(asks, ask);
    moved := AskOne(p, key, c, time, base, read, now);
    asks' := asks + [ask];
  }

  lemma NoneAsked(t: Start, meanwhile: (Key, Store) -> Store, rechecks: map<Key, OwnerRecheck>)
    requires t.Answered()
    requires forall k :: k in rechecks <==> k in t.rechecks && k in t.Rows()
    requires forall k :: k in rechecks ==> rechecks[k] == t.rechecks[k]
    ensures AskedSoFar(t, {}, [], meanwhile, t.w, rechecks)
  {
    assert (set k | k in {} && t.Due(k)) == {};
  }

  /**
   A tick up to its drain, the store becoming `meanwhile(k, _)` while the owner of
   row `k` is being read. Every due row of the snapshot is asked about once,
   as the snapshot has it. A row leaves its key exactly when its verdict is
   release and, at that moment, the key still holds that sandbox and no Pod;
   the tick changes nothing else in the store. The backoff is that of the
   preserved keys, one tick on, and gone for a key whose verdict is release.
   */
  method AskOwners(p: Provider, time: Time, base: int, answers: map<Key, OwnerRead>, meanwhile: (Key, Store) -> Store)
    returns (changed: bool, ghost asks: seq<Ask>)
    requires PreservedRows(p.Tables()).Keys <= answers.Keys
    modifies p`pods, p`claims, p`tentative, p`quarantined, p`releasing, p`file, p`ownerRechecks
    ensures var t := Start(old(p.Stored()), old(p.ownerRechecks), time, base, answers);
            AskedSoFar(t, t.Rows().Keys, asks, meanwhile, p.Stored(), p.ownerRechecks) && AsksExactly(t, asks)
    ensures changed <==> AnyMoves(asks)
  {
    ghost var t := Start(p.Stored(), p.ownerRechecks, time, base, answers);
    var preserved := SnapshotPreserved(p);
    Prune(p, preserved);
    NoneAsked(t, meanwhile, p.ownerRechecks);
    changed, asks := false, [];
    var todo := preserved.Keys;
    assert preserved.Keys - todo == {};
    while todo != {}
      invariant todo <= preserved.Keys && preserved == t.Rows()
      invariant AskedSoFar(t, preserved.Keys - todo, asks, meanwhile, p.Stored(), p.ownerRechecks)
      invariant changed <==> AnyMoves(asks)
      decreases |todo|
    {
      var key :| key in todo;
      assert preserved.Keys - (todo - {key}) == preserved.Keys - todo + {key};
      var moved;
      moved, asks := AskNext(p, t, preserved.Keys - todo, asks, key, preserved[key], time, base, answers[key],
          meanwhile);
      changed := changed || moved;
      todo := todo - {key};
    }
    assert preserved.Keys - todo == preserved.Keys;
    AskedExactly(t, asks);
  }

  // --------------------------------------------------------------- what the asks do

  /**
   An ask moves its row to the queue exactly when the owner was read and refuted and the
   key still holds that sandbox and no Pod; it changes nothing else.
   */
  lemma AskTouches(ask: Ask, k: Key)
    requires ask.c.owner.Some?
    ensures var m, m' := ask.at.m, ask.After().m;
            var moves := && OwnerRefuted(ask.c.owner.value, ask.read)
                         && ask.key in m.claims && m.claims[ask.key].id == ask.c.id && ask.key !in m.pods;
            && (ask.Moves() <==> moves)
            && ask.After().file == ask.at.file && m' == m.(claims := m'.claims, releasing := m'.releasing)
            && (k in m'.claims <==> k in m.claims && !(k == ask.key && moves))
            && (k in m'.claims ==> m'.claims[k] == m.claims[k])
            && m'.releasing == m.releasing + if moves then [ask.c] else []
  {
    ReleaseIffOwnerRefuted(ask.c.owner, ask.read);
  }

  /**
   The backoff after a tick, entry by entry: a key that is no longer preserved and one whose
   owner was refuted have none, one that was not due keeps its own, and one whose owner was
   asked in vain waits twice as long as before, up to ten minutes.
   */
  lemma BackoffIsExact(t: Start, rechecks: map<Key, OwnerRecheck>, k: Key)
    requires t.Answered() && BackoffAfter(t, t.Rows().Keys, rechecks)
    ensures var m, entry := t.w.m, EntryOf(rechecks, k);
            var preserved := && k in m.claims && m.claims[k].owner.Some? && k !in m.pods
                             && k !in m.tentative && k !in m.quarantined;
            if !preserved then entry.None?
            else if k in t.rechecks && t.now < t.rechecks[k].at then entry == Some(t.rechecks[k])
            else if OwnerRefuted(m.claims[k].owner.value, t.answers[k]) then entry.None?
            else
              var delay := if k !in t.rechecks then t.base
                           else if 2 * t.rechecks[k].delay < 600 then 2 * t.rechecks[k].delay else 600;
              entry == Some(OwnerRecheck(t.now + delay, delay))
  {
    if k in t.Rows() { ReleaseIffOwnerRefuted(t.Rows()[k].owner, t.answers[k]); }
  }

  /** A claim queued after the asks was queued before, joined while an owner was read, or was moved by an ask. */
  lemma {:induction false} QueueFrom(asks: seq<Ask>, w: Store, c: Claim)
    requires c in AfterAsks(asks, w).m.releasing
    ensures || c in w.m.releasing
            || (exists ask :: ask in asks && ask.Moves() && c == ask.c)
            || (exists i :: 0 <= i < |asks| && c in asks[i].at.m.releasing && c !in AfterAsks(asks[..i], w).m.releasing)
  {
    if asks != [] {
      var n := |asks| - 1;
      if c in asks[n].at.m.releasing {
        if c in AfterAsks(asks[..n], w).m.releasing {
          QueueFrom(asks[..n], w, c);
          forall i | 0 <= i < n
            ensures asks[..n][i] == asks[i] && asks[..n][..i] == asks[..i]
          {
          }
        }
      } else {
        assert asks[n] in asks && asks[n].Moves();
      }
    }
  }

  lemma AskChainPrefix(asks: seq<Ask>, w: Store, meanwhile: (Key, Store) -> Store, n: nat)
    requires AskChain(asks, w, meanwhile) && n <= |asks|
    ensures AskChain(asks[..n], w, meanwhile)
  {
    forall i | 0 <= i < n
      ensures asks[..n][i].at == meanwhile(asks[..n][i].key, AfterAsks(asks[..n][..i], w))
    {
      assert asks[..n][..i] == asks[..i];
    }
  }

  /** A credential that nobody else loses is held after the asks: in its row, or in the queue. */
  lemma {:induction false} AsksKeep(asks: seq<Ask>, w: Store, meanwhile: (Key, Store) -> Store,
                                    id: SandboxId, token: Token)
    requires AskChain(asks, w, meanwhile) && Holds(w.m, id, token)
    requires forall k, w': Store :: Holds(w'.m, id, token) ==> Holds(meanwhile(k, w').m, id, token)
    requires forall ask :: ask in asks && ask.c.id == id ==> ask.c.token == token
    ensures Holds(AfterAsks(asks, w).m, id, token)
  {
    if asks != [] {
      var n := |asks| - 1;
      AskChainPrefix(asks, w, meanwhile, n);
      AsksKeep(asks[..n], w, meanwhile, id, token);
      AskKeeps(asks[n], id, token);
    }
  }

  lemma AskKeeps(ask: Ask, id: SandboxId, token: Token)
    requires Holds(ask.at.m, id, token) && (ask.c.id == id ==> ask.c.token == token)
    ensures Holds(ask.After().m, id, token)
  {
    var m, m' := ask.at.m, ask.After().m;
    if c :| c in m.releasing && c.id == id && c.token == token {
      assert c in m'.releasing;
    } else {
      var k :| k in m.claims && m.claims[k].id == id && m.claims[k].token == token;
      if k in m'.claims {
        assert m'.claims[k].id == id && m'.claims[k].token == token;
      } else {
        assert m'.releasing[|m.releasing|] == ask.c;
      }
    }
  }

  /** A row of the snapshot that is still there is settled and has its token. */
  ghost predicate Intact(rows: map<Key, Claim>, m: Mem) {
    forall k :: k in rows && m.Row(k, rows[k].id) ==> m.Settled(k) && m.claims[k].token == rows[k].token
  }

  /** The tables are sound, every credential in them is on file, and the snapshot's rows are intact. */
  ghost predicate InOrder(rows: map<Key, Claim>, w: Store) {
    Sound(w.m) && Durable(w.file, w.m) && Intact(rows, w.m)
  }

  /** An ask leaves a store that is in order so. */
  lemma AskStaysSound(ask: Ask, rows: map<Key, Claim>)
    requires InOrder(rows, ask.at) && ask.key in rows && ask.c == rows[ask.key]
    ensures InOrder(rows, ask.After())
  {
    if ask.Moves() {
      QueueAppended(ask.at.m.releasing, ask.c);
    }
  }

  lemma {:induction false} AsksStaySound(asks: seq<Ask>, w: Store, meanwhile: (Key, Store) -> Store,
                                         rows: map<Key, Claim>)
    requires AskChain(asks, w, meanwhile) && InOrder(rows, w)
    requires forall k, w' :: InOrder(rows, w') ==> InOrder(rows, meanwhile(k, w'))
    requires forall ask :: ask in asks ==> ask.key in rows && ask.c == rows[ask.key]
    ensures InOrder(rows, AfterAsks(asks, w))
  {
    if asks != [] {
      var n := |asks| - 1;
      AskChainPrefix(asks, w, meanwhile, n);
      AsksStaySound(asks[..n], w, meanwhile, rows);
      AskStaysSound(asks[n], rows);
    }
  }

  lemma {:induction false} DrainStaysSound(w: Store, queue: seq<Claim>, releases: nat -> bool,
                                           meanwhile: (nat, Store) -> Store, i: nat, rows: map<Key, Claim>)
    requires i <= |queue| && InOrder(rows, w)
    requires forall j, w' :: InOrder(rows, w') ==> InOrder(rows, meanwhile(j, w'))
    ensures InOrder(rows, DrainRun(w, queue, releases, meanwhile, i))
  {
    if i > 0 {
      DrainStaysSound(w, queue, releases, meanwhile, i - 1, rows);
      var now := meanwhile(i - 1, DrainRun(w, queue, releases, meanwhile, i - 1));
      DequeueStaysSound(now.m, now.file, queue[i - 1].id);
    }
  }

  // ------------------------------------------------------------------ a whole tick

  /** What the rest of the provider does to the store during a tick, wherever the tick does not hold the lock. */
  datatype Others = Others(
    asking: (Key, Store) -> Store,     // while the owner of a row is read
    between: Store -> Store,           // from the last ask to the drain's copy of the queue
    draining: (nat, Store) -> Store,   // while a queued sandbox is released
    after: Store -> Store              // from the last release to the snapshot of the write
  )

  /** The store the drain finds. */
  function Drains(asks: seq<Ask>, w: Store, others: Others): Store {
    others.between(AfterAsks(asks, w))
  }

  /** The store the drain leaves. */
  function AfterDrain(asks: seq<Ask>, w: Store, others: Others, releases: nat -> bool): Store {
    var w' := Drains(asks, w, others);
    DrainRun(w', w'.m.releasing, releases, others.draining, |w'.m.releasing|)
  }

  /** The tick has something to save: a row moved or a release succeeded. */
  ghost predicate Dirty(asks: seq<Ask>, w: Store, others: Others, releases: nat -> bool) {
    AnyMoves(asks) || exists i :: 0 <= i < |Drains(asks, w, others).m.releasing| && releases(i)
  }

  /** The store a tick leaves, its write being of the tables as they are by then. */
  ghost function Ticked(asks: seq<Ask>, w: Store, others: Others, releases: nat -> bool, saved: bool): Store {
    var w' := AfterDrain(asks, w, others, releases);
    if !Dirty(asks, w, others, releases) then w'
    else if saved then others.after(w').(file := Snapshot(others.after(w').m, None))
    else others.after(w')
  }

  /**
   A whole tick, the store becoming anything at every point where the lock is not
   held up to the snapshot of its write: the asks, then the drain of what is
   queued by then, then a write if a row moved or a release succeeded.
   */
  method RecheckOwners(p: Provider, time: Time, base: int, answers: map<Key, OwnerRead>, others: Others,
                       releases: nat -> bool, saved: bool)
    returns (ghost asks: seq<Ask>)
    requires PreservedRows(p.Tables()).Keys <= answers.Keys
    modifies p`pods, p`claims, p`tentative, p`quarantined, p`releasing, p`ownerRechecks, p`released, p`file
    ensures var t := Start(old(p.Stored()), old(p.ownerRechecks), time, base, answers);
            var queue := Drains(asks, t.w, others).m.releasing;
            && AskedSoFar(t, t.Rows().Keys, asks, others.asking, AfterAsks(asks, t.w), p.ownerRechecks)
            && AsksExactly(t, asks)
            && p.Stored() == Ticked(asks, t.w, others, releases, saved)
            && p.released == old(p.released) + Calls(queue, Outcomes(|queue|, releases))
  {
    var changed;
    changed, asks := AskOwners(p, time, base, answers, others.asking);
    p.BecomeStore(others.between(p.Stored()));
    var any := DrainReleases(p, releases, others.draining);
    if any || changed {
      p.BecomeStore(others.after(p.Stored()));
      p.Write(None, saved);
    }
  }

  /** The rest of the provider does not lose the credential. */
  ghost predicate OthersKeep(others: Others, id: SandboxId, token: Token) {
    && (forall k, w: Store :: Holds(w.m, id, token) ==> Holds(others.asking(k, w).m, id, token))
    && (forall w: Store :: Holds(w.m, id, token) ==> Holds(others.between(w).m, id, token))
    && (forall i, w: Store :: Holds(w.m, id, token) ==> Holds(others.draining(i, w).m, id, token))
    && (forall w: Store :: Holds(w.m, id, token) ==> Holds(others.after(w).m, id, token))
  }

  /** No tick loses a credential: what nobody else loses is held when it ends, or a release of its sandbox succeeded. */
  lemma TickKeeps(t: Start, asks: seq<Ask>, others: Others, releases: nat -> bool, saved: bool,
                  id: SandboxId, token: Token)
    requires t.Answered() && OnePlaceEach(t.w.m.claims, t.w.m.releasing) && Holds(t.w.m, id, token)
    requires AskedOnce(t, t.Rows().Keys, asks) && AskChain(asks, t.w, others.asking) && OthersKeep(others, id, token)
    ensures var queue := Drains(asks, t.w, others).m.releasing;
            || Holds(Ticked(asks, t.w, others, releases, saved).m, id, token)
            || exists i :: 0 <= i < |queue| && releases(i) && queue[i].id == id
  {
    AsksKeep(asks, t.w, others.asking, id, token);
    var w := Drains(asks, t.w, others);
    DrainKeeps(w, w.m.releasing, releases, others.draining, |w.m.releasing|, id, token);
  }

  /** The rest of the provider leaves a store that is in order so, saves included. */
  ghost predicate OthersOrderly(others: Others, rows: map<Key, Claim>) {
    && (forall k, w :: InOrder(rows, w) ==> InOrder(rows, others.asking(k, w)))
    && (forall w :: InOrder(rows, w) ==> InOrder(rows, others.between(w)))
    && (forall i, w :: InOrder(rows, w) ==> InOrder(rows, others.draining(i, w)))
    && (forall w :: InOrder(rows, w) ==> InOrder(rows, others.after(w)))
  }

  /** Nor does it put the store out of order: the tables stay sound, and what they hold stays on file. */
  lemma TickStaysSound(t: Start, asks: seq<Ask>, others: Others, releases: nat -> bool, saved: bool)
    requires t.Answered() && Sound(t.w.m) && Durable(t.w.file, t.w.m) && OthersOrderly(others, t.Rows())
    requires AskedOnce(t, t.Rows().Keys, asks) && AskChain(asks, t.w, others.asking)
    ensures InOrder(t.Rows(), Ticked(asks, t.w, others, releases, saved))
  {
    AsksStaySound(asks, t.w, others.asking, t.Rows());
    var w := Drains(asks, t.w, others);
    DrainStaysSound(w, w.m.releasing, releases, others.draining, |w.m.releasing|, t.Rows());
    WriteDurable(others.after(AfterDrain(asks, t.w, others, releases)).m, None);
  }

  // -------------------------------------------------------------- successive ticks

  /** Over ticks at which a key stays preserved and is not released, its entry is the backoff schedule's. */
  lemma {:induction false} TicksFollowSchedule(rounds: seq<Start>, k: Key, base: int)
    requires forall i :: 0 <= i < |rounds| ==>
               && rounds[i].Answered() && k in rounds[i].Rows() && rounds[i].base == base
               && !(rounds[i].Due(k)
                   && DestroyAuthorized(rounds[i].Rows()[k].owner, rounds[i].answers[k]).Release?)
    requires forall i :: 0 < i < |rounds| ==>
               BackoffAfter(rounds[i - 1], rounds[i - 1].Rows().Keys, rounds[i].rechecks)
    requires rounds != [] && k !in rounds[0].rechecks
    ensures var last := rounds[|rounds| - 1];
            last.EntryAfter(k) == Backoff.Entry(seq(|rounds|, i requires 0 <= i < |rounds| => rounds[i].now), base)
  {
    var n := |rounds| - 1;
    var ticks := seq(|rounds|, i requires 0 <= i < |rounds| => rounds[i].now);
    var before := rounds[..n];
    var ticks' := seq(|before|, i requires 0 <= i < |before| => before[i].now);
    assert ticks[..n] == ticks';
    if n > 0 {
      TicksFollowSchedule(before, k, base);
      assert EntryOf(rounds[n].rechecks, k) == rounds[n - 1].EntryAfter(k);
    }
  }
}
