/**
 The two loops that compare the tables with a listing: the lease watch, which
 publishes the end of a lease, and the orphan audit, which only reports. The
 tables may have changed since the watch took its candidates.
 */
module Scan {
  import opened Types
  import opened Sections
  import opened Custody
  import opened Provider

  // ---------------------------------------------------------------- lease watch

  method SnapshotExpired(p: Provider, now: Time) returns (candidates: map<Key, Claim>)
    ensures candidates == ExpiredRows(p.Tables(), now)
    ensures forall k :: k in candidates <==>
              && k in p.claims && p.claims[k].deadline.Some? && p.claims[k].deadline.value <= now
              && k !in p.tentative && k !in p.quarantined && k in p.pods
    ensures forall k :: k in candidates ==> candidates[k] == p.claims[k]
  {
    candidates := map[];
    var todo := p.claims.Keys;
    while todo != {}
      invariant todo <= p.claims.Keys
      invariant forall k :: k in candidates <==>
                  && k in p.claims && k !in todo && p.claims[k].Expired(now)
                  && k !in p.tentative && k !in p.quarantined && k in p.pods
      invariant forall k :: k in candidates ==> candidates[k] == p.claims[k]
      decreases |todo|
    {
      var k :| k in todo;
      if p.claims[k].Expired(now) && k !in p.tentative && k !in p.quarantined && k in p.pods {
        candidates := candidates[k := p.claims[k]];
      }
      todo := todo - {k};
    }
    assert candidates == ExpiredRows(p.Tables(), now);
  }

  /** A candidate that was judged, and the tables at that moment. */
  datatype Judgement = Judgement(key: Key, c: Claim, at: Mem) {
    /** The lease ended: the listing lacks the sandbox, which still holds its key with a Pod. */
    predicate Ended(live: Listing) {
      c.id !in live && at.Row(key, c.id) && key in at.pods
    }

    /** A listed candidate has its deadline refreshed, unless its key was taken since. */
    function After(live: Listing): Mem {
      if c.id in live then Refresh(at, key, c.id, live[c.id]) else at
    }

    function Notice(): Published
      requires key in at.pods
    {
      Published(at.pods[key], Failed, c.claimedAt)
    }
  }

  function JudgedKeys(judged: seq<Judgement>): seq<Key> {
    KeysOf(judged, (j: Judgement) => j.key)
  }

  /** Each candidate of `done` was judged once, as the snapshot has it, and no other was. */
  ghost predicate JudgedOnce(candidates: map<Key, Claim>, done: set<Key>, judged: seq<Judgement>) {
    && Visits(JudgedKeys(judged), done)
    && forall j :: j in judged ==> j.key in candidates && j.c == candidates[j.key]
  }

  function AfterJudging(judged: seq<Judgement>, live: Listing, m: Mem): Mem {
    if judged == [] then m else judged[|judged| - 1].After(live)
  }

  /** Between two judgements the tables change as the rest of the world likes, and in no other way. */
  ghost predicate JudgeChain(judged: seq<Judgement>, live: Listing, m: Mem, meanwhile: (Key, Mem) -> Mem) {
    forall i :: 0 <= i < |judged| ==> judged[i].at == meanwhile(judged[i].key, AfterJudging(judged[..i], live, m))
  }

  /** The pushes of Failed, in the order of the judgements. */
  function Notices(judged: seq<Judgement>, live: Listing): seq<Published> {
    if judged == [] then []
    else
      var n := |judged| - 1;
      Notices(judged[..n], live) + if judged[n].Ended(live) then [judged[n].Notice()] else []
  }

  /** The listing lacks the candidate's sandbox, which at that moment still has its key, and the key a Pod. */
  ghost predicate LeaseEnded(j: Judgement, live: Listing) {
    j.c.id !in live && j.key in j.at.claims && j.at.claims[j.key].id == j.c.id && j.key in j.at.pods
  }

  /** The pushes are exactly those of Failed for the Pods of the leases that ended, with the candidate's start time. */
  lemma {:induction false} NoticesAreExact(judged: seq<Judgement>, live: Listing, x: Published)
    ensures x in Notices(judged, live) <==>
            exists j :: j in judged && LeaseEnded(j, live) && x == Published(j.at.pods[j.key], Failed, j.c.claimedAt)
  {
    if judged != [] {
      var n := |judged| - 1;
      NoticesAreExact(judged[..n], live, x);
      assert judged == judged[..n] + [judged[n]];
    }
  }

  /** A listed candidate that still has its key takes the listed deadline; a judgement changes nothing else. */
  lemma JudgementChanges(j: Judgement, live: Listing)
    ensures var m' := j.After(live);
            && m' == j.at.(claims := m'.claims) && m'.claims - {j.key} == j.at.claims - {j.key}
            && (j.key in m'.claims <==> j.key in j.at.claims)
            && (j.key in m'.claims ==>
                  m'.claims[j.key] == if j.c.id in live && j.at.claims[j.key].id == j.c.id
                                      then j.at.claims[j.key].(deadline := live[j.c.id]) else j.at.claims[j.key])
  {
  }

  lemma JudgeChainNext(judged: seq<Judgement>, live: Listing, m: Mem, meanwhile: (Key, Mem) -> Mem, j: Judgement)
    requires JudgeChain(judged, live, m, meanwhile) && j.at == meanwhile(j.key, AfterJudging(judged, live, m))
    ensures JudgeChain(judged + [j], live, m, meanwhile) && AfterJudging(judged + [j], live, m) == j.After(live)
    ensures Notices(judged + [j], live) == Notices(judged, live) + if j.Ended(live) then [j.Notice()] else []
  {
    assert (judged + [j])[..|judged|] == judged;
    forall i | 0 <= i < |judged|
      ensures (judged + [j])[..i] == judged[..i]
    {
    }
  }

  lemma JudgedNext(candidates: map<Key, Claim>, done: set<Key>, judged: seq<Judgement>, j: Judgement)
    requires JudgedOnce(candidates, done, judged) && j.key in candidates && j.c == candidates[j.key] && j.key !in done
    ensures JudgedOnce(candidates, done + {j.key}, judged + [j])
  {
    assert JudgedKeys(judged + [j]) == JudgedKeys(judged) + [j.key];
    VisitsOne(JudgedKeys(judged), done, j.key);
  }

  /** One candidate: refreshed when listed, published when it still holds its key, passed over when it was replaced. */
  method JudgeLease(p: Provider, key: Key, c: Claim, live: Listing, now: Mem)
    modifies p`pods, p`claims, p`tentative, p`quarantined, p`releasing, p`pushed
    ensures var j := Judgement(key, c, now);
            && p.Tables() == j.After(live)
            && p.pushed == old(p.pushed) + if j.Ended(live) then [j.Notice()] else []
  {
    p.Become(now);
    if c.id in live {
      p.RefreshDeadline(key, c.id, live[c.id]);
    } else if key in p.pods && key in p.claims && p.claims[key].id == c.id {
      p.pushed := p.pushed + [Published(p.pods[key], Failed, c.claimedAt)];
    }
  }

  /** How far the watch is: whom it judged, where that left the tables, and what it pushed. */
  ghost predicate JudgedSoFar(candidates: map<Key, Claim>, done: set<Key>, judged: seq<Judgement>, live: Listing,
                              m: Mem,
                              meanwhile: (Key, Mem) -> Mem, m': Mem, pushes: seq<Published>)
  {
    && JudgedOnce(candidates, done, judged) && JudgeChain(judged, live, m, meanwhile)
    && m' == AfterJudging(judged, live, m) && pushes == Notices(judged, live)
  }

  method JudgeNext(p: Provider, candidates: map<Key, Claim>, ghost done: set<Key>, ghost judged: seq<Judgement>,
                   live: Listing,
                   ghost m: Mem, meanwhile: (Key, Mem) -> Mem, ghost earlier: seq<Published>,
                       ghost pushes: seq<Published>, key: Key)
    returns (ghost judged': seq<Judgement>, ghost pushes': seq<Published>)
    requires key in candidates && key !in done && p.pushed == earlier + pushes
    requires JudgedSoFar(candidates, done, judged, live, m, meanwhile, p.Tables(), pushes)
    modifies p`pods, p`claims, p`tentative, p`quarantined, p`releasing, p`pushed
    ensures p.pushed == earlier + pushes'
    ensures JudgedSoFar(candidates, done + {key}, judged', live, m, meanwhile, p.Tables(), pushes')
  {
    var now := meanwhile(key, p.Tables());
    ghost var j := Judgement(key, candidates[key], now);
    JudgedNext(candidates, done, judged, j);
    JudgeChainNext(judged, live, m, meanwhile, j);
    JudgeLease(p, key, candidates[key], live, now);
    judged', pushes' := judged + [j], pushes + if j.Ended(live) then [j.Notice()] else [];
  }

  lemma NoneJudged(candidates: map<Key, Claim>, live: Listing, m: Mem, meanwhile: (Key, Mem) -> Mem)
    ensures JudgedSoFar(candidates, {}, [], live, m, meanwhile, m, [])
  {
  }

  /**
   Publishes the leases that ended, the tables becoming `meanwhile(k, _)` before
   candidate `k` is judged. A listed candidate has its deadline refreshed;
   Failed is pushed once for exactly the candidates the listing lacks that still
   hold their key with a Pod as they are judged, with the start time of the
   claim; a failed listing does nothing.
   */
  method PublishExpiredLeases(p: Provider, candidates: map<Key, Claim>, listing: Option<Listing>, meanwhile: (Key,
                              Mem) -> Mem)
    returns (ghost judged: seq<Judgement>, ghost pushes: seq<Published>)
    modifies p`pods, p`claims, p`tentative, p`quarantined, p`releasing, p`pushed
    ensures p.pushed == old(p.pushed) + pushes
    ensures listing.None? ==> p.Tables() == old(p.Tables()) && pushes == []
    ensures listing.Some? ==>
              JudgedSoFar(candidates, candidates.Keys, judged, listing.value, old(p.Tables()), meanwhile, p.Tables(),
                  pushes)
  {
    judged, pushes := [], [];
    if listing.None? {
      return;
    }
    ghost var m := p.Tables();
    NoneJudged(candidates, listing.value, m, meanwhile);
    var todo := candidates.Keys;
    assert candidates.Keys - todo == {};
    while todo != {}
      invariant todo <= candidates.Keys && p.pushed == old(p.pushed) + pushes
      invariant JudgedSoFar(candidates, candidates.Keys - todo, judged, listing.value, m, meanwhile, p.Tables(), pushes)
      decreases |todo|
    {
      var key :| key in todo;
      assert candidates.Keys - (todo - {key}) == candidates.Keys - todo + {key};
      judged, pushes := JudgeNext(p, candidates, candidates.Keys - todo, judged, listing.value, m, meanwhile,
                                  old(p.pushed), pushes, key);
      todo := todo - {key};
    }
    assert candidates.Keys - todo == candidates.Keys;
  }

  // ---------------------------------------------------------------- orphan audit

  /** One row of the node's index. */
  datatype Row = Row(id: SandboxId, claimRef: string)

  datatype Category = Claimed | Queued | External | Orphan

  const EXTERNAL := "external"
  const ORPHAN := "orphan"
  const STALE := "stale"

  function CategoryOf(m: Mem, row: Row): Category {
    if row.id in TableIds(m.claims) then Claimed
    else if row.id in QueueIds(m.releasing) then Queued
    else if row.claimRef != "" then External
    else Orphan
  }

  /** The orphans of a listing, in its order. */
  function Orphans(m: Mem, rows: seq<Row>): seq<SandboxId> {
    if rows == [] then []
    else
      var last := rows[|rows| - 1];
      Orphans(m, rows[..|rows| - 1]) + if CategoryOf(m, last).Orphan? then [last.id] else []
  }

  /** What the listed rows get; a later row for the same sandbox overrides. */
  function RowVerdicts(m: Mem, rows: seq<Row>): map<SandboxId, string> {
    if rows == [] then map[]
    else
      var last := rows[|rows| - 1];
      var before := RowVerdicts(m, rows[..|rows| - 1]);
      match CategoryOf(m, last)
      case External => before[last.id := EXTERNAL]
      case Orphan => before[last.id := ORPHAN]
      case _ => before
  }

  function Listed(rows: seq<Row>): set<SandboxId> {
    set row | row in rows :: row.id
  }

  ghost predicate ListedOnce(rows: seq<Row>) {
    forall i, j :: 0 <= i < j < |rows| ==> rows[i].id != rows[j].id
  }

  /** The sandbox is listed, in no row and no queue entry, with or without a claim reference. */
  ghost predicate Unheld(m: Mem, rows: seq<Row>, id: SandboxId, referred: bool) {
    && id !in TableIds(m.claims) && id !in QueueIds(m.releasing)
    && exists row :: row in rows && row.id == id && (row.claimRef != "" <==> referred)
  }

  lemma {:induction false} OrphansAreExact(m: Mem, rows: seq<Row>, id: SandboxId)
    ensures id in Orphans(m, rows) <==> Unheld(m, rows, id, false)
  {
    if rows != [] {
      var n := |rows| - 1;
      OrphansAreExact(m, rows[..n], id);
      assert rows == rows[..n] + [rows[n]];
    }
  }

  /** The sandbox has a row of the category. */
  ghost predicate ListedAs(m: Mem, rows: seq<Row>, id: SandboxId, category: Category) {
    exists row :: row in rows && row.id == id && CategoryOf(m, row) == category
  }

  lemma {:induction false} RowVerdictsAreExact(m: Mem, rows: seq<Row>, id: SandboxId)
    requires ListedOnce(rows)
    ensures id in RowVerdicts(m, rows) <==> ListedAs(m, rows, id, External) || ListedAs(m, rows, id, Orphan)
    ensures ListedAs(m, rows, id, External) ==> RowVerdicts(m, rows)[id] == EXTERNAL
    ensures ListedAs(m, rows, id, Orphan) ==> RowVerdicts(m, rows)[id] == ORPHAN
  {
    if rows != [] {
      var n := |rows| - 1;
      RowVerdictsAreExact(m, rows[..n], id);
      ListedLast(m, rows, id, External);
      ListedLast(m, rows, id, Orphan);
    }
  }

  /** The category of a sandbox's row, from its last row down. */
  lemma ListedLast(m: Mem, rows: seq<Row>, id: SandboxId, category: Category)
    requires ListedOnce(rows) && rows != []
    ensures var last := rows[|rows| - 1];
            ListedAs(m, rows, id, category) <==>
            if last.id == id then CategoryOf(m, last) == category else ListedAs(m, rows[..|rows| - 1], id, category)
  {
    var n := |rows| - 1;
    assert rows == rows[..n] + [rows[n]];
    if id == rows[n].id {
      assert forall row :: row in rows[..n] ==> row.id != id;
    }
  }

  /** A line of the audit log. */
  datatype Line = Line(id: SandboxId, verdict: string)

  /** The verdict differs from the previous scan's. */
  predicate Changed(previous: map<SandboxId, string>, x: Line) {
    x.id in previous ==> previous[x.id] != x.verdict
  }

  function RowLine(m: Mem, row: Row): Option<Line> {
    match CategoryOf(m, row)
    case External => Some(Line(row.id, EXTERNAL))
    case Orphan => Some(Line(row.id, ORPHAN))
    case _ => None
  }

  /** The lines the listed rows log, in order. */
  function RowLines(m: Mem, previous: map<SandboxId, string>, rows: seq<Row>): seq<Line> {
    if rows == [] then []
    else
      var line := RowLine(m, rows[|rows| - 1]);
      RowLines(m, previous, rows[..|rows| - 1]) + if line.Some? && Changed(previous, line.value) then [line.value]
          else []
  }

  /** The lines for the rows whose sandbox is gone. */
  function StaleLines(previous: map<SandboxId, string>, gone: seq<SandboxId>): seq<Line> {
    if gone == [] then []
    else
      var x := Line(gone[|gone| - 1], STALE);
      StaleLines(previous, gone[..|gone| - 1]) + if Changed(previous, x) then [x] else []
  }

  /** The verdicts a scan leaves for the next one. */
  function Verdicts(m: Mem, rows: seq<Row>): map<SandboxId, string> {
    MarkedStale(RowVerdicts(m, rows), TableIds(m.claims) - Listed(rows))
  }

  /** Each key of `stale` belongs to the sandbox at the same place in `gone`. */
  ghost predicate StaleKeys(claims: map<Key, Claim>, gone: seq<SandboxId>, stale: seq<Key>) {
    |stale| == |gone| && forall i :: 0 <= i < |gone| ==> stale[i] in claims && claims[stale[i]].id == gone[i]
  }

  /** Files a verdict for this scan and says whether it is new. */
  method RecordVerdict(p: Provider, verdicts: map<SandboxId, string>, x: Line)
    returns (verdicts': map<SandboxId, string>, lines: seq<Line>)
    ensures verdicts' == verdicts[x.id := x.verdict]
    ensures lines == if Changed(p.orphanVerdicts, x) then [x] else []
  {
    verdicts' := verdicts[x.id := x.verdict];
    lines := if x.id in p.orphanVerdicts && p.orphanVerdicts[x.id] == x.verdict then [] else [x];
  }

  method ClaimedIds(claims: map<Key, Claim>) returns (claimed: map<SandboxId, Key>)
    ensures claimed.Keys == TableIds(claims)
    ensures forall id :: id in claimed ==> claimed[id] in claims && claims[claimed[id]].id == id
  {
    claimed := map[];
    var todo := claims.Keys;
    while todo != {}
      invariant todo <= claims.Keys
      invariant forall id :: id in claimed ==> claimed[id] in claims && claims[claimed[id]].id == id
      invariant forall k :: k in claims && k !in todo ==> claims[k].id in claimed
      decreases |todo|
    {
      var k :| k in todo;
      claimed := claimed[claims[k].id := k];
      todo := todo - {k};
    }
    assert claimed.Keys == TableIds(claims);
  }

  method ScanRows(p: Provider, claimed: set<SandboxId>, queued: set<SandboxId>, rows: seq<Row>)
    returns (orphans: seq<SandboxId>, verdicts: map<SandboxId, string>, logged: seq<Line>)
    requires claimed == TableIds(p.claims) && queued == QueueIds(p.releasing)
    ensures orphans == Orphans(p.Tables(), rows) && verdicts == RowVerdicts(p.Tables(), rows)
    ensures logged == RowLines(p.Tables(), p.orphanVerdicts, rows)
  {
    orphans, verdicts, logged := [], map[], [];
    for i := 0 to |rows|
      invariant orphans == Orphans(p.Tables(), rows[..i]) && verdicts == RowVerdicts(p.Tables(), rows[..i])
      invariant logged == RowLines(p.Tables(), p.orphanVerdicts, rows[..i])
    {
      var row := rows[i];
      assert rows[..i + 1][..i] == rows[..i] && rows[..i + 1][i] == row;
      if row.id !in claimed && row.id !in queued {
        var verdict := if row.claimRef != "" then EXTERNAL else ORPHAN;
        var lines;
        verdicts, lines := RecordVerdict(p, verdicts, Line(row.id, verdict));
        logged := logged + lines;
        if row.claimRef == "" {
          orphans := orphans + [row.id];
        }
      }
    }
    assert rows[..|rows|] == rows;
  }

  /** The ids' verdicts are set to stale. */
  function MarkedStale(before: map<SandboxId, string>, ids: set<SandboxId>): map<SandboxId, string> {
    before + map id | id in ids :: STALE
  }

  lemma MarkedNext(before: map<SandboxId, string>, ids: set<SandboxId>, id: SandboxId)
    ensures MarkedStale(before, ids)[id := STALE] == MarkedStale(before, ids + {id})
  {
  }

  lemma StaleLinesNext(previous: map<SandboxId, string>, gone: seq<SandboxId>, id: SandboxId)
    ensures StaleLines(previous, gone + [id]) ==
            StaleLines(previous, gone) + if Changed(previous, Line(id, STALE)) then [Line(id, STALE)] else []
  {
    assert (gone + [id])[..|gone|] == gone;
  }

  /** How far the pass over the claims is, with `done` of them looked at. */
  ghost predicate StaleSoFar(previous: map<SandboxId, string>, before: map<SandboxId, string>, claimed: map<SandboxId,
                             Key>,
                             done: set<SandboxId>, gone: seq<SandboxId>, stale: seq<Key>,
                             verdicts: map<SandboxId, string>, logged: seq<Line>)
  {
    && Visits(gone, done) && done <= claimed.Keys && |stale| == |gone|
    && (forall i :: 0 <= i < |gone| ==> gone[i] in claimed && stale[i] == claimed[gone[i]])
    && verdicts == MarkedStale(before, done)
    && logged == StaleLines(previous, gone)
  }

  lemma StaleNext(previous: map<SandboxId, string>, before: map<SandboxId, string>, claimed: map<SandboxId, Key>,
                  done: set<SandboxId>, gone: seq<SandboxId>, stale: seq<Key>,
                  verdicts: map<SandboxId, string>, logged: seq<Line>, id: SandboxId)
    requires StaleSoFar(previous, before, claimed, done, gone, stale, verdicts, logged)
    requires id in claimed && id !in done
    ensures StaleSoFar(previous, before, claimed, done + {id}, gone + [id], stale + [claimed[id]],
            verdicts[id := STALE],
              logged + if Changed(previous, Line(id, STALE)) then [Line(id, STALE)] else [])
  {
    VisitsOne(gone, done, id);
    MarkedNext(before, done, id);
    StaleLinesNext(previous, gone, id);
  }

  lemma NoneStale(previous: map<SandboxId, string>, before: map<SandboxId, string>, claimed: map<SandboxId, Key>)
    ensures StaleSoFar(previous, before, claimed, {}, [], [], before, [])
  {
    assert before == MarkedStale(before, {});
  }

  /** One claim: stale when the listing lacks its sandbox, passed over when it has it. */
  method ScanClaim(p: Provider, before: map<SandboxId, string>, claimed: map<SandboxId, Key>, live: set<SandboxId>,
                   id: SandboxId,
                   ghost done: set<SandboxId>, ghost gone: seq<SandboxId>, stale: seq<Key>,
                   verdicts: map<SandboxId, string>, logged: seq<Line>)
    returns (stale': seq<Key>, verdicts': map<SandboxId, string>, logged': seq<Line>, ghost gone': seq<SandboxId>)
    requires id in claimed && id !in done
    requires StaleSoFar(p.orphanVerdicts, before, claimed, done, gone, stale, verdicts, logged)
    ensures var done' := if id in live then done else done + {id};
            StaleSoFar(p.orphanVerdicts, before, claimed, done', gone', stale', verdicts', logged')
  {
    if id in live {
      return stale, verdicts, logged, gone;
    }
    StaleNext(p.orphanVerdicts, before, claimed, done, gone, stale, verdicts, logged, id);
    var lines;
    verdicts', lines := RecordVerdict(p, verdicts, Line(id, STALE));
    stale', logged', gone' := stale + [claimed[id]], logged + lines, gone + [id];
  }

  /** The unlisted ids that are not to do. */
  ghost function Looked(ids: set<SandboxId>, live: set<SandboxId>, todo: set<SandboxId>): set<SandboxId> {
    ids - live - todo
  }

  lemma LookedNext(ids: set<SandboxId>, live: set<SandboxId>, todo: set<SandboxId>, id: SandboxId)
    requires id in todo && todo <= ids
    ensures var done := Looked(ids, live, todo);
            id !in done && Looked(ids, live, todo - {id}) == if id in live then done else done + {id}
  {
  }

  method ScanClaims(p: Provider, claimed: map<SandboxId, Key>, live: set<SandboxId>, before: map<SandboxId, string>)
    returns (stale: seq<Key>, verdicts: map<SandboxId, string>, logged: seq<Line>, ghost gone: seq<SandboxId>)
    ensures StaleSoFar(p.orphanVerdicts, before, claimed, claimed.Keys - live, gone, stale, verdicts, logged)
  {
    stale, verdicts, logged, gone := [], before, [], [];
    NoneStale(p.orphanVerdicts, before, claimed);
    var todo := claimed.Keys;
    assert Looked(claimed.Keys, live, todo) == {};
    while todo != {}
      invariant todo <= claimed.Keys
      invariant StaleSoFar(p.orphanVerdicts, before, claimed, Looked(claimed.Keys, live, todo), gone, stale, verdicts,
                logged)
      decreases |todo|
    {
      var id :| id in todo;
      ghost var done := Looked(claimed.Keys, live, todo);
      LookedNext(claimed.Keys, live, todo, id);
      stale, verdicts, logged, gone := ScanClaim(p, before, claimed, live, id, done, gone, stale, verdicts, logged);
      todo := todo - {id};
    }
    assert Looked(claimed.Keys, live, todo) == claimed.Keys - live;
  }

  /** An audit: the tables it saw, its listing, and the order in which it came upon the sandboxes that are gone. */
  datatype Audited = Audited(m: Mem, listing: Option<seq<Row>>, gone: seq<SandboxId>) {
    ghost predicate Proper() {
      listing.Some? ==> ListedOnce(listing.value) && Visits(gone, TableIds(m.claims) - Listed(listing.value))
    }

    /** The audit had a listing and gave the verdict. */
    predicate Gives(x: Line) {
      listing.Some? && x.id in Verdicts(m, listing.value) && Verdicts(m, listing.value)[x.id] == x.verdict
    }
  }

  /** The verdicts an audit leaves; one without a listing leaves those it found. */
  function NextVerdicts(previous: map<SandboxId, string>, a: Audited): map<SandboxId, string> {
    if a.listing.None? then previous else Verdicts(a.m, a.listing.value)
  }

  function LinesOf(previous: map<SandboxId, string>, a: Audited): seq<Line> {
    if a.listing.None? then [] else RowLines(a.m, previous, a.listing.value) + StaleLines(previous, a.gone)
  }

  /**
   One audit. It reports and nothing more: only the verdicts for the next scan
   change. A failed listing reports nothing and is not an empty one.
   */
  method OrphanScan(p: Provider, listing: Option<seq<Row>>)
    returns (orphans: seq<SandboxId>, stale: seq<Key>, ok: bool, logged: seq<Line>, ghost gone: seq<SandboxId>)
    modifies p`orphanVerdicts
    ensures ok <==> listing.Some?
    ensures !ok ==> orphans == [] && stale == []
    ensures ok ==>
              && orphans == Orphans(p.Tables(), listing.value)
              && (forall id :: id in orphans <==> Unheld(p.Tables(), listing.value, id, false))
              && Visits(gone, TableIds(p.claims) - Listed(listing.value)) && StaleKeys(p.claims, gone, stale)
    ensures p.orphanVerdicts == NextVerdicts(old(p.orphanVerdicts), Audited(p.Tables(), listing, gone))
    ensures logged == LinesOf(old(p.orphanVerdicts), Audited(p.Tables(), listing, gone))
  {
    if listing.None? {
      return [], [], false, [], [];
    }
    var rows := listing.value;
    var claimed := ClaimedIds(p.claims);
    var queued := set c | c in p.releasing :: c.id;
    var verdicts, more;
    orphans, verdicts, logged := ScanRows(p, claimed.Keys, queued, rows);
    stale, verdicts, more, gone := ScanClaims(p, claimed, Listed(rows), verdicts);
    forall id
      ensures id in orphans <==> Unheld(p.Tables(), rows, id, false)
    {
      OrphansAreExact(p.Tables(), rows, id);
    }
    p.orphanVerdicts := verdicts;
    ok, logged := true, logged + more;
  }

  // -------------------------------------------------------- what an audit reports

  /** With one row per sandbox in the tables, the stale keys are exactly the rows the listing lacks, once each. */
  lemma StaleIsExact(claims: map<Key, Claim>, live: set<SandboxId>, gone: seq<SandboxId>, stale: seq<Key>)
    requires Visits(gone, TableIds(claims) - live) && StaleKeys(claims, gone, stale)
    requires DistinctRows(claims)
    ensures Visits(stale, set k | k in claims && claims[k].id !in live)
  {
    forall k | k in claims && claims[k].id !in live
      ensures k in stale
    {
      assert claims[k].id in gone;
      var i :| 0 <= i < |gone| && gone[i] == claims[k].id;
      assert stale[i] == k;
    }
    forall k | k in stale
      ensures k in claims && claims[k].id !in live
    {
      var i :| 0 <= i < |stale| && stale[i] == k;
      assert gone[i] in gone;
    }
  }

  /** Every verdict of a scan, spelt out: each sandbox listed or held gets the one its place calls for, or none. */
  lemma VerdictsAreExact(m: Mem, rows: seq<Row>, id: SandboxId, verdict: string)
    requires ListedOnce(rows)
    ensures id in Verdicts(m, rows) && Verdicts(m, rows)[id] == verdict <==>
            || (verdict == "external" && Unheld(m, rows, id, true))
            || (verdict == "orphan" && Unheld(m, rows, id, false))
            || (verdict == "stale" && id in TableIds(m.claims) && id !in Listed(rows))
  {
    RowVerdictsAreExact(m, rows, id);
    UnheldIsListed(m, rows, id);
    assert ListedAs(m, rows, id, External) || ListedAs(m, rows, id, Orphan) ==> id in Listed(rows);
    OneCategory(m, rows, id);
  }

  lemma UnheldIsListed(m: Mem, rows: seq<Row>, id: SandboxId)
    ensures Unheld(m, rows, id, true) <==> ListedAs(m, rows, id, External)
    ensures Unheld(m, rows, id, false) <==> ListedAs(m, rows, id, Orphan)
  {
  }

  /** A listed sandbox has one category. */
  lemma OneCategory(m: Mem, rows: seq<Row>, id: SandboxId)
    requires ListedOnce(rows)
    ensures id in Listed(rows) <==> exists category :: ListedAs(m, rows, id, category)
    ensures forall x, y :: ListedAs(m, rows, id, x) && ListedAs(m, rows, id, y) ==> x == y
  {
    if id in Listed(rows) {
      var row :| row in rows && row.id == id;
      assert ListedAs(m, rows, id, CategoryOf(m, row));
    }
    forall x, y | ListedAs(m, rows, id, x) && ListedAs(m, rows, id, y)
      ensures x == y
    {
      var r1 :| r1 in rows && r1.id == id && CategoryOf(m, r1) == x;
      var r2 :| r2 in rows && r2.id == id && CategoryOf(m, r2) == y;
      var i :| 0 <= i < |rows| && rows[i] == r1;
      var j :| 0 <= j < |rows| && rows[j] == r2;
      assert i == j;
    }
  }

  lemma {:induction false} RowLinesAreExact(m: Mem, previous: map<SandboxId, string>, rows: seq<Row>, x: Line)
    ensures x in RowLines(m, previous, rows) <==>
            Changed(previous, x) && exists row :: row in rows && RowLine(m, row) == Some(x)
  {
    if rows != [] {
      var n := |rows| - 1;
      RowLinesAreExact(m, previous, rows[..n], x);
      assert rows == rows[..n] + [rows[n]];
    }
  }

  lemma {:induction false} StaleLinesAreExact(previous: map<SandboxId, string>, gone: seq<SandboxId>, x: Line)
    ensures x in StaleLines(previous, gone) <==> Changed(previous, x) && x.id in gone && x.verdict == STALE
  {
    if gone != [] {
      var n := |gone| - 1;
      StaleLinesAreExact(previous, gone[..n], x);
      assert gone == gone[..n] + [gone[n]];
    }
  }

  lemma RowLineIsVerdict(m: Mem, rows: seq<Row>, x: Line)
    ensures (exists row :: row in rows && RowLine(m, row) == Some(x)) <==>
            || (x.verdict == EXTERNAL && ListedAs(m, rows, x.id, External))
            || (x.verdict == ORPHAN && ListedAs(m, rows, x.id, Orphan))
  {
  }

  /**
   Each change of a verdict is logged, and nothing else: a line is a verdict of this
   scan that the previous one did not give.
   */
  lemma LogsTheChanges(m: Mem, previous: map<SandboxId, string>, rows: seq<Row>, gone: seq<SandboxId>, x: Line)
    requires ListedOnce(rows) && Visits(gone, TableIds(m.claims) - Listed(rows))
    ensures x in RowLines(m, previous, rows) + StaleLines(previous, gone) <==>
            Changed(previous, x) && x.id in Verdicts(m, rows) && Verdicts(m, rows)[x.id] == x.verdict
  {
    RowLinesAreExact(m, previous, rows, x);
    StaleLinesAreExact(previous, gone, x);
    RowLineIsVerdict(m, rows, x);
    UnheldIsListed(m, rows, x.id);
    VerdictsAreExact(m, rows, x.id, x.verdict);
  }

  /** So a second audit of an unchanged node and table is silent. */
  lemma RescanIsSilent(m: Mem, rows: seq<Row>, gone: seq<SandboxId>)
    requires ListedOnce(rows) && Visits(gone, TableIds(m.claims) - Listed(rows))
    ensures RowLines(m, Verdicts(m, rows), rows) + StaleLines(Verdicts(m, rows), gone) == []
  {
    var lines := RowLines(m, Verdicts(m, rows), rows) + StaleLines(Verdicts(m, rows), gone);
    if lines != [] {
      assert lines[0] in lines;
      LogsTheChanges(m, Verdicts(m, rows), rows, gone, lines[0]);
    }
  }

  // ------------------------------------------------------------- one audit after another

  /** The verdicts after the audits of a process, which starts without any. */
  function VerdictsAfter(audits: seq<Audited>): map<SandboxId, string> {
    if audits == [] then map[] else NextVerdicts(VerdictsAfter(audits[..|audits| - 1]), audits[|audits| - 1])
  }

  /** Audit `j` is the last before `i` that had a listing. */
  ghost predicate LastBefore(audits: seq<Audited>, i: nat, j: nat) {
    j < i <= |audits| && audits[j].listing.Some? && forall n :: j < n < i ==> audits[n].listing.None?
  }

  lemma {:induction false} VerdictsAreTheLast(audits: seq<Audited>, i: nat, x: Line)
    requires i <= |audits|
    ensures !Changed(VerdictsAfter(audits[..i]), x) <==> exists j: nat :: LastBefore(audits, i, j) && audits[j].Gives(x)
  {
    if i > 0 {
      assert audits[..i][..i - 1] == audits[..i - 1];
      if audits[i - 1].listing.Some? {
        assert LastBefore(audits, i, i - 1);
      } else {
        VerdictsAreTheLast(audits, i - 1, x);
        assert forall j: nat :: LastBefore(audits, i, j) <==> LastBefore(audits, i - 1, j);
      }
    }
  }

  /**
   Over the audits of a process, whatever listings failed between them, a line is
   logged if and only if the audit gives a verdict that the last audit with a
   listing did not give.
   */
  lemma LogsOverAudits(audits: seq<Audited>, i: nat, x: Line)
    requires i < |audits| && audits[i].Proper()
    ensures x in LinesOf(VerdictsAfter(audits[..i]), audits[i]) <==>
            audits[i].Gives(x) && !exists j: nat :: LastBefore(audits, i, j) && audits[j].Gives(x)
  {
    var a := audits[i];
    VerdictsAreTheLast(audits, i, x);
    if a.listing.Some? {
      LogsTheChanges(a.m, VerdictsAfter(audits[..i]), a.listing.value, a.gone, x);
    }
  }

  ghost predicate Distinct(lines: seq<Line>) {
    forall i, j :: 0 <= i < j < |lines| ==> lines[i] != lines[j]
  }

  lemma DistinctNext(lines: seq<Line>, x: Line)
    requires Distinct(lines) && x !in lines
    ensures Distinct(lines + [x])
  {
  }

  lemma {:induction false} RowLinesOnce(m: Mem, previous: map<SandboxId, string>, rows: seq<Row>)
    requires ListedOnce(rows)
    ensures Distinct(RowLines(m, previous, rows))
  {
    if rows != [] {
      var n := |rows| - 1;
      var line := RowLine(m, rows[n]);
      RowLinesOnce(m, previous, rows[..n]);
      if line.Some? && Changed(previous, line.value) {
        RowLinesAreExact(m, previous, rows[..n], line.value);
        DistinctNext(RowLines(m, previous, rows[..n]), line.value);
      }
    }
  }

  lemma {:induction false} StaleLinesOnce(previous: map<SandboxId, string>, gone: seq<SandboxId>)
    requires forall i, j :: 0 <= i < j < |gone| ==> gone[i] != gone[j]
    ensures Distinct(StaleLines(previous, gone))
  {
    if gone != [] {
      var n := |gone| - 1;
      var x := Line(gone[n], STALE);
      StaleLinesOnce(previous, gone[..n]);
      if Changed(previous, x) {
        StaleLinesAreExact(previous, gone[..n], x);
        DistinctNext(StaleLines(previous, gone[..n]), x);
      }
    }
  }

  /** And each change is logged once. */
  lemma LogsOnce(previous: map<SandboxId, string>, a: Audited)
    requires a.Proper()
    ensures Distinct(LinesOf(previous, a))
  {
    if a.listing.Some? {
      var listed, stale := RowLines(a.m, previous, a.listing.value), StaleLines(previous, a.gone);
      RowLinesOnce(a.m, previous, a.listing.value);
      StaleLinesOnce(previous, a.gone);
      assert |EXTERNAL| == 8 && |ORPHAN| == 6 && |STALE| == 5;
      forall x | x in listed
        ensures x !in stale
      {
        RowLinesAreExact(a.m, previous, a.listing.value, x);
        StaleLinesAreExact(previous, a.gone, x);
      }
      DistinctJoined(listed, stale);
    }
  }

  lemma DistinctJoined(xs: seq<Line>, ys: seq<Line>)
    requires Distinct(xs) && Distinct(ys) && forall x :: x in xs ==> x !in ys
    ensures Distinct(xs + ys)
  {
    forall i, j | 0 <= i < j < |xs + ys|
      ensures (xs + ys)[i] != (xs + ys)[j]
    {
      if i < |xs| <= j {
        assert xs[i] in xs && ys[j - |xs|] in ys;
      }
    }
  }
}
