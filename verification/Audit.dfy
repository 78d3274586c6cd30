/**
 The orphan audit over whole runs: what a scan of a node this provider claimed
 from can and cannot report.
 */
module Audit {
  import opened Types
  import opened Sections
  import Machine
  import Scan
  import Theorems

  /** The rows carry the references the node recorded at the claims. */
  ghost predicate Rows(w: Machine.World, rows: seq<Scan.Row>) {
    forall row :: row in rows ==> row.id in w.refs && row.claimRef == w.refs[row.id]
  }

  /**
   A scan never reports a sandbox issued to this provider as an orphan, also when the
   response that carried its credential was lost.
   */
  lemma OwnIsNeverOrphan(states: seq<Machine.State>, actions: seq<Machine.Action>, i: nat, m: Mem, rows: seq<Scan.Row>,
                         id: SandboxId)
    requires Machine.Run(states, actions) && i < |states| && Rows(states[i].w, rows) && id in states[i].w.own
    ensures id !in Scan.Orphans(m, rows)
  {
    Theorems.OwnAlwaysReferred(states, actions, i, id);
    Scan.OrphansAreExact(m, rows, id);
  }

  /** What it reports as stale is every row the listing lacks, once: in every reachable state a sandbox has one row. */
  lemma StaleInEveryRun(states: seq<Machine.State>, actions: seq<Machine.Action>, i: nat, rows: seq<Scan.Row>,
                        gone: seq<SandboxId>, stale: seq<Key>)
    requires Machine.Run(states, actions) && i < |states|
    requires var claims := states[i].mem.claims;
             Visits(gone, TableIds(claims) - Scan.Listed(rows)) && Scan.StaleKeys(claims, gone, stale)
    ensures var claims := states[i].mem.claims;
            Visits(stale, set k | k in claims && claims[k].id !in Scan.Listed(rows))
  {
    Theorems.Structure(states, actions, i);
    Scan.StaleIsExact(states[i].mem.claims, Scan.Listed(rows), gone, stale);
  }
}
