/** plan_deployment_retention and the passes that fill its _References object
    (src/homeops_ai/retention.py).  The paths of each directory are visited in no
    particular order: what a pass collects does not depend on it. */
module RetentionPlanner {
  import opened Wrappers
  import opened RetentionOrder
  import opened RetentionStore

  /** _References: what the passes add to, and whether anything blocks the plan. */
  class Ledger {
    var deployments: set<string>
    var runs: set<string>
    var snapshots: set<string>
    var failureDeployments: set<string>
    var failureRuns: set<string>
    var failureSnapshots: set<string>
    var bundles: seq<Bundle>
    var blocksAll: bool
    ghost var mentions: set<Mention>

    constructor ()
      ensures Valid() && mentions == {} && !blocksAll
    {
      deployments, runs, snapshots := {}, {}, {};
      failureDeployments, failureRuns, failureSnapshots := {}, {}, {};
      bundles, blocksAll, mentions := [], false, {};
    }

    function Collected(): References
      reads this
    {
      References(deployments, runs, snapshots, failureDeployments, failureRuns, failureSnapshots,
                 set b | b in bundles)
    }

    ghost predicate Valid()
      reads this
    {
      Collected() == ReferencesOf(mentions)
    }

    /** _unresolved: only some entries block. */
    method Unresolved(blocks: bool)
      modifies `blocksAll
      ensures blocksAll == (old(blocksAll) || blocks)
    {
      blocksAll := blocksAll || blocks;
    }

    /** The six sets and the bundle list of _add_identity_references. */
    method Extend(i: Ident, failure: bool)
      modifies this
      ensures Collected() == Plus(old(Collected()), Mention(i, failure))
      ensures blocksAll == old(blocksAll) && mentions == old(mentions)
    {
      deployments := deployments + Named(i.expected);
      if failure {
        failureDeployments := failureDeployments + Named(i.candidate);
        failureSnapshots := failureSnapshots + Named(i.snapshot);
        failureRuns := failureRuns + Named(i.run);
      } else {
        deployments := deployments + Named(i.candidate);
        snapshots := snapshots + Named(i.snapshot);
        runs := runs + Named(i.run);
      }
      if i.candidate.Some? && i.snapshot.Some? && i.run.Some? {
        bundles := bundles + [Bundle(i.candidate.value, i.run.value, i.snapshot.value)];
      }
      assert (set b | b in bundles) == (set b | b in old(bundles)) + BundleOf(i);
    }

    /** _add_identity_references: an expected deployment counts as a reference even in a
        failed result. */
    method AddIdentity(i: Ident, failure: bool)
      requires Valid()
      modifies this
      ensures Valid() && mentions == old(mentions) + {Mention(i, failure)} && blocksAll == old(blocksAll)
    {
      OneMore(mentions, Mention(i, failure));
      Extend(i, failure);
      mentions := mentions + {Mention(i, failure)};
    }
  }

  /** What one more mention adds to each set of references. */
  function Plus(r: References, m: Mention): References {
    if m.failure then
      r.(deployments := r.deployments + Named(m.ident.expected),
         failureDeployments := r.failureDeployments + Named(m.ident.candidate),
         failureRuns := r.failureRuns + Named(m.ident.run),
         failureSnapshots := r.failureSnapshots + Named(m.ident.snapshot),
         bundles := r.bundles + BundleOf(m.ident))
    else
      r.(deployments := r.deployments + Named(m.ident.expected) + Named(m.ident.candidate),
         runs := r.runs + Named(m.ident.run),
         snapshots := r.snapshots + Named(m.ident.snapshot),
         bundles := r.bundles + BundleOf(m.ident))
  }

  lemma OneMore(ms: set<Mention>, m: Mention)
    ensures ReferencesOf(ms + {m}) == Plus(ReferencesOf(ms), m)
  {
    var all := ms + {m};
    assert m in all;
    assert forall x :: x in all <==> x in ms || x == m;
    var n, o := ReferencesOf(all), Plus(ReferencesOf(ms), m);
    assert n.deployments == o.deployments && n.runs == o.runs && n.snapshots == o.snapshots;
    assert n.failureDeployments == o.failureDeployments && n.failureRuns == o.failureRuns;
    assert n.failureSnapshots == o.failureSnapshots && n.bundles == o.bundles;
  }

  // ------------------------------------------------------------------
  // The passes.
  // ------------------------------------------------------------------

  /** The inventory of the records looked at so far. */
  function InventoriedAmong(s: Store, done: set<string>): Inventory {
    map id | id in done && id in s.records && BundleOk(s, id) :: ItemOf(s, id)
  }

  /** One of them has a broken bundle. */
  predicate BrokenAmong(s: Store, done: set<string>) {
    exists id :: id in done && id in s.records && !BundleOk(s, id)
  }

  lemma OneMoreRecord(s: Store, done: set<string>, id: string)
    requires id in s.records
    ensures BundleOk(s, id) ==> InventoriedAmong(s, done + {id}) == InventoriedAmong(s, done)[id := ItemOf(s, id)]
    ensures !BundleOk(s, id) ==> InventoriedAmong(s, done + {id}) == InventoriedAmong(s, done)
    ensures BrokenAmong(s, done + {id}) <==> BrokenAmong(s, done) || !BundleOk(s, id)
  {
    var more := done + {id};
    assert id in more;
    assert forall x :: x in more <==> x in done || x == id;
  }

  lemma AllRecords(s: Store)
    ensures InventoriedAmong(s, s.records.Keys) == InventoryOf(s)
    ensures BrokenAmong(s, s.records.Keys) <==> !RecordsClear(s)
  {
  }

  /** _inventory_deployments: a broken bundle is left out and blocks. */
  method InventoryDeployments(s: Store, references: Ledger) returns (records: Inventory)
    modifies references`blocksAll
    ensures records == InventoryOf(s)
    ensures references.blocksAll == (old(references.blocksAll) || !RecordsClear(s))
  {
    records := map[];
    var todo := s.records.Keys;
    ghost var done: set<string> := {};
    while todo != {}
      invariant todo <= s.records.Keys && done == s.records.Keys - todo
      invariant records == InventoriedAmong(s, done)
      invariant references.blocksAll == (old(references.blocksAll) || BrokenAmong(s, done))
      decreases |todo|
    {
      var id :| id in todo;
      todo := todo - {id};
      OneMoreRecord(s, done, id);
      done := done + {id};
      if BundleOk(s, id) {
        records := records[id := ItemOf(s, id)];
      } else {
        references.Unresolved(true);
      }
    }
    assert done == s.records.Keys;
    AllRecords(s);
  }

  /** The owners of each build among the records looked at so far. */
  ghost predicate OwnersAmong(records: Inventory, done: set<string>, owners: map<string, set<string>>) {
    && (forall run :: run in owners <==> exists id :: id in done && id in records && records[id].runId == run)
    && (forall run <- owners :: owners[run] == set id | id in done && id in records && records[id].runId == run)
  }

  lemma OneMoreOwner(records: Inventory, done: set<string>, owners: map<string, set<string>>, id: string)
    requires OwnersAmong(records, done, owners) && id in records
    ensures var run := records[id].runId;
            OwnersAmong(records, done + {id}, owners[run := (if run in owners then owners[run] else {}) + {id}])
  {
    var run, more := records[id].runId, done + {id};
    var next := owners[run := (if run in owners then owners[run] else {}) + {id}];
    forall r | r in next ensures next[r] == set x | x in more && x in records && records[x].runId == r {
    }
    assert id in more;
  }

  /** One build has two owners. */
  predicate SharedAmong(owners: map<string, set<string>>, runs: set<string>) {
    exists run :: run in runs && run in owners && |owners[run]| > 1
  }

  /** _validate_build_ownership. */
  method ValidateBuildOwnership(records: Inventory, references: Ledger)
    modifies references`blocksAll
    ensures references.blocksAll == (old(references.blocksAll) || !OwnershipClear(records))
  {
    var owners := CollectOwners(records);
    var todo := owners.Keys;
    while todo != {}
      invariant todo <= owners.Keys
      invariant references.blocksAll == (old(references.blocksAll) || SharedAmong(owners, owners.Keys - todo))
      decreases |todo|
    {
      var run :| run in todo;
      assert owners.Keys - (todo - {run}) == owners.Keys - todo + {run};
      todo := todo - {run};
      if |owners[run]| > 1 { references.Unresolved(true); }
    }
    assert owners.Keys - todo == owners.Keys;
    SharedRunHasTwoOwners(records, owners);
  }

  method CollectOwners(records: Inventory) returns (owners: map<string, set<string>>)
    ensures OwnersAmong(records, records.Keys, owners)
  {
    owners := map[];
    var todo := records.Keys;
    ghost var done: set<string> := {};
    while todo != {}
      invariant todo <= records.Keys && done == records.Keys - todo
      invariant OwnersAmong(records, done, owners)
      decreases |todo|
    {
      var id :| id in todo;
      todo := todo - {id};
      OneMoreOwner(records, done, owners, id);
      done := done + {id};
      var run := records[id].runId;
      owners := owners[run := (if run in owners then owners[run] else {}) + {id}];
    }
    assert done == records.Keys;
  }

  lemma SharedRunHasTwoOwners(records: Inventory, owners: map<string, set<string>>)
    requires OwnersAmong(records, records.Keys, owners)
    ensures OwnershipClear(records) <==> !SharedAmong(owners, owners.Keys)
  {
    if a, b :| a in records && b in records && records[a].runId == records[b].runId && a != b {
      var run := records[a].runId;
      assert {a, b} <= owners[run] && |{a, b}| == 2;
      SubsetCount({a, b}, owners[run]);
      assert run in owners && |owners[run]| > 1;
    }
    if run :| run in owners && |owners[run]| > 1 {
      var a :| a in owners[run];
      assert |owners[run] - {a}| > 0;
      var b :| b in owners[run] - {a};
      assert records[a].runId == records[b].runId;
    }
  }

  /** What one result record adds. */
  method ReferToResult(r: Result, references: Ledger)
    requires references.Valid()
    modifies references
    ensures references.Valid() && references.blocksAll == old(references.blocksAll)
    ensures references.mentions == old(references.mentions) + ResultMentions(r)
  {
    if r.Ready? || (r.Failure? && r.retryable) {
      references.AddIdentity(r.ident, false);
      references.Unresolved(false);
    } else if r.Failure? && r.ident.candidate.Some? {
      references.AddIdentity(r.ident, true);
    }
  }

  /** The result loop of _pipeline_references.  An invalid record ends it and blocks. */
  method CollectResults(p: Pipeline, references: Ledger) returns (results: map<Key, Result>)
    requires references.Valid()
    modifies references
    ensures references.Valid()
    ensures references.blocksAll == (old(references.blocksAll) || exists k :: k in p.results && p.results[k].BadResult?)
    ensures (forall k <- p.results :: !p.results[k].BadResult?) ==>
              && results == p.results
              && references.mentions == old(references.mentions) + ResultMentionsAt(p.results, p.results.Keys)
  {
    results := map[];
    var todo, bad := p.results.Keys, false;
    while todo != {} && !bad
      invariant references.Valid() && todo <= p.results.Keys
      invariant if bad then exists k :: k in p.results && p.results[k].BadResult?
                else results.Keys == p.results.Keys - todo
      invariant references.blocksAll == (old(references.blocksAll) || bad)
      invariant forall k <- results :: k in p.results && results[k] == p.results[k] && !results[k].BadResult?
      invariant references.mentions == old(references.mentions) + ResultMentionsAt(p.results, results.Keys)
      decreases |todo|
    {
      var k :| k in todo;
      todo := todo - {k};
      if p.results[k].BadResult? {
        references.Unresolved(true);
        bad := true;
      } else {
        OneMoreResult(p.results, results.Keys, k);
        results := results[k := p.results[k]];
        ReferToResult(p.results[k], references);
      }
    }
    assert !bad ==> results == p.results;
  }

  lemma OneMoreResult(results: map<Key, Result>, done: set<Key>, k: Key)
    requires k in results
    ensures ResultMentionsAt(results, done + {k}) == ResultMentionsAt(results, done) + ResultMentions(results[k])
  {
    var more := done + {k};
    assert k in more;
    assert forall x :: x in more <==> x in done || x == k;
  }

  /** What a file with an unsettled request adds. */
  method ReferToQueued(results: map<Key, Result>, k: Key, q: Queued, references: Ledger)
    requires references.Valid() && q.Queued?
    modifies references
    ensures references.Valid() && references.blocksAll == old(references.blocksAll)
    ensures references.mentions == old(references.mentions) + QueuedMentions(results, k, q)
  {
    if Pending(results, k) {
      references.AddIdentity(q.ident, false);
      references.Unresolved(false);
    }
  }

  /** The loops over incoming requests, commit markers and commit journals. */
  method CollectQueued(queued: map<Key, Queued>, results: map<Key, Result>, references: Ledger)
    requires references.Valid()
    modifies references
    ensures references.Valid()
    ensures references.blocksAll == (old(references.blocksAll) || !NoneBad(queued))
    ensures NoneBad(queued) ==>
              references.mentions == old(references.mentions) + PendingMentions(results, queued)
  {
    ghost var start := references.mentions;
    var todo, bad := queued.Keys, false;
    ghost var done: set<Key> := {};
    while todo != {} && !bad
      invariant references.Valid()
      invariant todo <= queued.Keys
      invariant bad ==> exists k :: k in queued && !queued[k].Queued?
      invariant !bad ==> done == queued.Keys - todo
      invariant references.blocksAll == (old(references.blocksAll) || bad)
      invariant forall k :: k in done ==> k in queued && queued[k].Queued?
      invariant references.mentions == start + MentionsAt(results, queued, done)
      decreases |todo|
    {
      var k :| k in todo;
      todo := todo - {k};
      bad := queued[k].BadQueued?;
      if bad {
        references.Unresolved(true);
      } else {
        OneMoreQueued(results, queued, done, k);
        done := done + {k};
        ReferToQueued(results, k, queued[k], references);
      }
    }
    if !bad {
      assert done == queued.Keys;
    }
    assert bad <==> !NoneBad(queued);
  }

  lemma OneMoreQueued(results: map<Key, Result>, queued: map<Key, Queued>, done: set<Key>, k: Key)
    requires k in queued
    ensures MentionsAt(results, queued, done + {k})
         == MentionsAt(results, queued, done) + QueuedMentions(results, k, queued[k])
  {
    var more := done + {k};
    assert k in more;
    assert forall x :: x in more <==> x in done || x == k;
  }

  /** A rollback journal is referenced and blocks, whatever it says. */
  method CollectRollback(p: Pipeline, references: Ledger)
    requires references.Valid()
    modifies references
    ensures references.Valid()
    ensures references.blocksAll == (old(references.blocksAll) || !p.rollback.NoRollback?)
    ensures references.mentions == old(references.mentions)
              + if p.rollback.Rollback? then set i | i in p.rollback.states :: Mention(i, false) else {}
  {
    if p.rollback.Rollback? {
      var todo := p.rollback.states;
      while todo != {}
        invariant todo <= p.rollback.states
        invariant references.Valid() && references.blocksAll == old(references.blocksAll)
        invariant references.mentions ==
                    old(references.mentions) + set i | i in p.rollback.states - todo :: Mention(i, false)
        decreases |todo|
      {
        var i :| i in todo;
        todo := todo - {i};
        references.AddIdentity(i, false);
      }
    }
    references.Unresolved(!p.rollback.NoRollback?);
  }

  /** The three namespaces of queued files. */
  method CollectFiles(p: Pipeline, results: map<Key, Result>, references: Ledger)
    requires references.Valid()
    modifies references
    ensures references.Valid()
    ensures references.blocksAll ==
              (old(references.blocksAll) || !(NoneBad(p.incoming) && NoneBad(p.commits) && NoneBad(p.journals)))
    ensures NoneBad(p.incoming) && NoneBad(p.commits) && NoneBad(p.journals) ==>
              references.mentions == old(references.mentions)
                                     + PendingMentions(results, p.incoming) + PendingMentions(results, p.commits)
                                     + PendingMentions(results, p.journals)
  {
    CollectQueued(p.incoming, results, references);
    CollectQueued(p.commits, results, references);
    CollectQueued(p.journals, results, references);
  }

  /** _pipeline_references. */
  method CollectPipeline(p: Pipeline, references: Ledger)
    requires references.Valid() && references.mentions == {}
    modifies references
    ensures references.Valid()
    ensures references.blocksAll == (old(references.blocksAll) || !PipelineClear(p))
    ensures PipelineClear(p) ==> references.mentions == PipelineMentions(p)
  {
    var results := CollectResults(p, references);
    CollectFiles(p, results, references);
    CollectRollback(p, references);
    references.Unresolved(p.quarantined);
  }

  /** One loop of _validate_reference_integrity: everything named must be present. */
  method RequirePresent(named: set<string>, present: set<string>, references: Ledger)
    modifies references`blocksAll
    ensures references.blocksAll == (old(references.blocksAll) || !(named <= present))
  {
    var todo := named;
    while todo != {}
      invariant todo <= named
      invariant references.blocksAll == (old(references.blocksAll) || !(named - todo <= present))
      decreases |todo|
    {
      var x :| x in todo;
      todo := todo - {x};
      if x !in present { references.Unresolved(true); }
    }
    assert named - todo == named;
  }

  /** A bundle whose deployment exists with another build or snapshot. */
  predicate Disagrees(records: Inventory, b: Bundle) {
    b.deployment in records && (records[b.deployment].runId != b.run || records[b.deployment].snapshotId != b.snapshot)
  }

  /** One of these bundles names a deployment that exists with another build or snapshot. */
  predicate SomeDisagrees(records: Inventory, bundles: seq<Bundle>) {
    exists b <- bundles :: Disagrees(records, b)
  }

  lemma OneMoreBundle(records: Inventory, bundles: seq<Bundle>, i: nat)
    requires i < |bundles|
    ensures SomeDisagrees(records, bundles[..i + 1]) <==>
              SomeDisagrees(records, bundles[..i]) || Disagrees(records, bundles[i])
  {
    assert bundles[..i + 1] == bundles[..i] + [bundles[i]];
    if Disagrees(records, bundles[i]) { assert bundles[i] in bundles[..i + 1]; }
  }

  /** The last loop of _validate_reference_integrity: identities named together must agree. */
  method RequireAgreement(records: Inventory, references: Ledger)
    modifies references`blocksAll
    ensures references.blocksAll == (old(references.blocksAll) || SomeDisagrees(records, references.bundles))
  {
    for i := 0 to |references.bundles|
      invariant references.blocksAll ==
                  (old(references.blocksAll) || SomeDisagrees(records, references.bundles[..i]))
    {
      OneMoreBundle(records, references.bundles, i);
      if Disagrees(records, references.bundles[i]) { references.Unresolved(true); }
    }
    assert references.bundles[..|references.bundles|] == references.bundles;
  }

  /** _validate_reference_integrity. */
  method ValidateReferenceIntegrity(records: Inventory, references: Ledger)
    modifies references`blocksAll
    ensures references.blocksAll == (old(references.blocksAll) || !ReferencesClear(records, references.Collected()))
  {
    RequirePresent(references.deployments + references.failureDeployments, records.Keys, references);
    RequirePresent(references.runs + references.failureRuns, Runs(records), references);
    RequireAgreement(records, references);
  }

  /** _validate_active_state: the current and previous IDs, or none when it blocks. */
  method ValidateActiveState(s: Store, records: Inventory, references: Ledger)
    returns (current: Option<string>, previous: Option<string>)
    modifies references`blocksAll
    ensures references.blocksAll == (old(references.blocksAll) || !ActiveClear(s, records))
    ensures ActiveClear(s, records) ==> current == s.active.current && previous == s.active.previous
  {
    var ok := s.active.Active? && s.active.current.Some?
              && s.active.current.value in records
              && (s.active.previous.Some? ==> s.active.previous.value in records)
              && s.projection == Projection(s.active.current, s.active.promotedAt);
    current, previous := if ok then s.active.current else None, if ok then s.active.previous else None;
    references.Unresolved(!ok);
  }

  predicate Unassociated(s: Store, records: Inventory, asOf: int, run: string)
    requires run in s.builds
  {
    run !in Runs(records) && !(s.builds[run].FailedBuild? && s.builds[run].failedAt <= asOf)
  }

  predicate UnassociatedAmong(s: Store, records: Inventory, asOf: int, done: set<string>) {
    exists run :: run in done && run in s.builds && Unassociated(s, records, asOf, run)
  }

  /** The builds that have aged out, of those looked at so far. */
  function StaleAmong(s: Store, records: Inventory, refs: References, asOf: int, done: set<string>): set<string> {
    set run | run in done && StaleRun(s, records, refs, asOf, run)
  }

  lemma OneMoreBuild(s: Store, records: Inventory, refs: References, asOf: int, done: set<string>, run: string)
    requires run in s.builds
    ensures UnassociatedAmong(s, records, asOf, done + {run}) <==>
              UnassociatedAmong(s, records, asOf, done) || Unassociated(s, records, asOf, run)
    ensures StaleAmong(s, records, refs, asOf, done + {run})
         == StaleAmong(s, records, refs, asOf, done) + if StaleRun(s, records, refs, asOf, run) then {run} else {}
  {
    assert run in done + {run};
    assert forall x :: x in done + {run} <==> x in done || x == run;
  }

  /** One build without a deployment: whether it blocks, and whether it has aged out. */
  method InspectBuild(s: Store, records: Inventory, refs: References, asOf: int, run: string)
    returns (blocks: bool, stale: bool)
    requires run in s.builds
    ensures blocks <==> Unassociated(s, records, asOf, run)
    ensures stale <==> StaleRun(s, records, refs, asOf, run)
  {
    var b := s.builds[run];
    blocks, stale := false, false;
    if run !in Runs(records) {
      blocks := !(b.FailedBuild? && b.failedAt <= asOf);
      stale := !blocks && b.failedAt + FAILED_BUILD_RETENTION <= asOf && run !in refs.runs + refs.failureRuns;
    }
  }

  /** Builds without a deployment: failed ones age out, anything else blocks. */
  method OrphanBuilds(s: Store, records: Inventory, refs: References, references: Ledger, asOf: int)
    returns (stale: set<string>)
    modifies references`blocksAll
    ensures references.blocksAll ==
              (old(references.blocksAll) || UnassociatedAmong(s, records, asOf, s.builds.Keys))
    ensures stale == StaleAmong(s, records, refs, asOf, s.builds.Keys)
  {
    stale := {};
    var todo := s.builds.Keys;
    ghost var done: set<string> := {};
    while todo != {}
      invariant todo <= s.builds.Keys && done == s.builds.Keys - todo
      invariant references.blocksAll == (old(references.blocksAll) || UnassociatedAmong(s, records, asOf, done))
      invariant stale == StaleAmong(s, records, refs, asOf, done)
      decreases |todo|
    {
      var run :| run in todo;
      todo := todo - {run};
      OneMoreBuild(s, records, refs, asOf, done, run);
      done := done + {run};
      var blocks, aged := InspectBuild(s, records, refs, asOf, run);
      references.Unresolved(blocks);
      if aged { stale := stale + {run}; }
    }
    assert done == s.builds.Keys;
  }

  predicate BadUploadAt(s: Store, asOf: int, u: string)
    requires u in s.uploads
  {
    !(s.uploads[u].Upload? && s.uploads[u].seenAt <= asOf)
  }

  predicate BadUploadAmong(s: Store, asOf: int, done: set<string>) {
    exists u :: u in done && u in s.uploads && BadUploadAt(s, asOf, u)
  }

  function StaleUploadsAmong(s: Store, asOf: int, done: set<string>): set<string> {
    set u | u in done && StaleName(s, asOf, u)
  }

  lemma OneMoreUpload(s: Store, asOf: int, done: set<string>, u: string)
    requires u in s.uploads
    ensures BadUploadAmong(s, asOf, done + {u}) <==> BadUploadAmong(s, asOf, done) || BadUploadAt(s, asOf, u)
    ensures StaleUploadsAmong(s, asOf, done + {u})
         == StaleUploadsAmong(s, asOf, done) + if StaleName(s, asOf, u) then {u} else {}
  {
    assert u in done + {u};
    assert forall x :: x in done + {u} <==> x in done || x == u;
  }

  /** Interrupted uploads: an unreadable or future one ends the pass and blocks. */
  method OrphanUploads(s: Store, references: Ledger, asOf: int) returns (stale: set<string>)
    modifies references`blocksAll
    ensures references.blocksAll == (old(references.blocksAll) || BadUploadAmong(s, asOf, s.uploads.Keys))
    ensures !BadUploadAmong(s, asOf, s.uploads.Keys) ==> stale == StaleUploadsAmong(s, asOf, s.uploads.Keys)
  {
    stale := {};
    var todo := s.uploads.Keys;
    ghost var done: set<string> := {};
    while todo != {}
      invariant todo <= s.uploads.Keys && done == s.uploads.Keys - todo
      invariant references.blocksAll == old(references.blocksAll) && !BadUploadAmong(s, asOf, done)
      invariant stale == StaleUploadsAmong(s, asOf, done)
      decreases |todo|
    {
      var u :| u in todo;
      todo := todo - {u};
      OneMoreUpload(s, asOf, done, u);
      done := done + {u};
      if !(s.uploads[u].Upload? && s.uploads[u].seenAt <= asOf) {
        references.Unresolved(true);
        return;
      }
      if s.uploads[u].seenAt + INCOMPLETE_UPLOAD_RETENTION <= asOf { stale := stale + {u}; }
    }
    assert done == s.uploads.Keys;
  }

  /** What the orphan passes find is what blocks or ages out. */
  lemma OrphansAre(s: Store, records: Inventory, refs: References, asOf: int)
    ensures !OrphansClear(s, records, refs, asOf) <==>
              || UnassociatedAmong(s, records, asOf, s.builds.Keys)
              || !(s.snapshots.Keys <= Snapshots(records) + refs.snapshots)
              || !(s.histories.Keys <= records.Keys)
              || BadUploadAmong(s, asOf, s.uploads.Keys)
    ensures StaleTargets(s, records, refs, asOf)
         == (set run | run in StaleAmong(s, records, refs, asOf, s.builds.Keys) :: StaleBuild(run))
            + (set u | u in StaleUploadsAmong(s, asOf, s.uploads.Keys) :: StaleUpload(u))
  {
  }

  /** _inventory_orphans. */
  method InventoryOrphans(s: Store, records: Inventory, references: Ledger, asOf: int)
    returns (ageTargets: set<Target>)
    modifies references`blocksAll
    ensures references.blocksAll ==
              (old(references.blocksAll) || !OrphansClear(s, records, references.Collected(), asOf))
    ensures !references.blocksAll ==> ageTargets == StaleTargets(s, records, references.Collected(), asOf)
  {
    var refs := references.Collected();
    OrphansAre(s, records, refs, asOf);
    var builds := OrphanBuilds(s, records, refs, references, asOf);
    RequirePresent(s.snapshots.Keys, Snapshots(records) + references.snapshots, references);
    RequirePresent(s.histories.Keys, records.Keys, references);
    var uploads := OrphanUploads(s, references, asOf);
    ageTargets := (set run | run in builds :: StaleBuild(run)) + (set u | u in uploads :: StaleUpload(u));
  }

  predicate PinBad(s: Store, records: Inventory, id: string)
    requires id in records
  {
    records[id].runId in s.pins && s.pins[records[id].runId] == BadPin
  }

  predicate PinBadAmong(s: Store, records: Inventory, done: set<string>) {
    exists id :: id in done && id in records && PinBad(s, records, id)
  }

  predicate Pins(s: Store, records: Inventory, id: string) {
    id in records && records[id].runId in s.pins && s.pins[records[id].runId] == Pinned
  }

  function LiveAmong(s: Store, records: Inventory, done: set<string>): set<string> {
    set id | id in done && Pins(s, records, id)
  }

  lemma OneMorePin(s: Store, records: Inventory, done: set<string>, id: string)
    requires id in records
    ensures PinBadAmong(s, records, done + {id}) <==> PinBadAmong(s, records, done) || PinBad(s, records, id)
    ensures LiveAmong(s, records, done + {id})
         == LiveAmong(s, records, done) + if Pins(s, records, id) then {id} else {}
  {
    assert id in done + {id};
    assert forall x :: x in done + {id} <==> x in done || x == id;
  }

  lemma AllPins(s: Store, records: Inventory)
    ensures PinsClear(s, records) <==> !PinBadAmong(s, records, records.Keys)
    ensures LiveAmong(s, records, records.Keys) == Live(s, records)
  {
  }

  /** The live pins; one that cannot be read blocks. */
  method LivePins(s: Store, records: Inventory, references: Ledger) returns (live: set<string>)
    modifies references`blocksAll
    ensures references.blocksAll == (old(references.blocksAll) || !PinsClear(s, records))
    ensures live == Live(s, records)
  {
    live := {};
    var todo := records.Keys;
    ghost var done: set<string> := {};
    while todo != {}
      invariant todo <= records.Keys && done == records.Keys - todo
      invariant live == LiveAmong(s, records, done)
      invariant references.blocksAll == (old(references.blocksAll) || PinBadAmong(s, records, done))
      decreases |todo|
    {
      var id :| id in todo;
      todo := todo - {id};
      OneMorePin(s, records, done, id);
      done := done + {id};
      if Pins(s, records, id) { live := live + {id}; }
      references.Unresolved(PinBad(s, records, id));
    }
    assert done == records.Keys;
    AllPins(s, records);
  }

  /** Of these candidates k, or all there are, and none of the others is newer. */
  predicate Newest(records: Inventory, candidates: set<string>, kept: set<string>, k: nat) {
    && kept <= candidates <= records.Keys
    && |kept| == (if k < |candidates| then k else |candidates|)
    && forall c, d :: c in kept && d in candidates - kept ==> records[c].effective >= records[d].effective
  }

  lemma TopKIsNewest(records: Inventory, candidates: set<string>, k: nat)
    requires candidates <= records.Keys
    ensures Newest(records, candidates, TopK(TimesOf(records), candidates, k), k) == true
  {
    TopKCounts(TimesOf(records), candidates, k);
  }

  /** The candidates in order, and the first k of them. */
  method SelectAdditional(records: Inventory, candidates: set<string>, k: nat) returns (additional: set<string>)
    requires candidates <= records.Keys
    ensures additional == TopK(TimesOf(records), candidates, k)
    ensures Newest(records, candidates, additional, k) == true
  {
    TopKIsNewest(records, candidates, k);
    var times := TimesOf(records);
    var sorted: seq<string> := [];
    var todo := candidates;
    while todo != {}
      invariant todo <= candidates && Sorted(times, sorted)
      invariant Elements(sorted) == candidates - todo
      decreases |todo|
    {
      var c :| c in todo;
      todo := todo - {c};
      assert c !in Elements(sorted);
      ghost var before := sorted;
      sorted := Insert(times, sorted, c);
      assert Elements(sorted) == Elements(before) + {c};
    }
    assert Elements(sorted) == candidates;
    PrefixIsTopK(times, sorted, k);
    additional := Elements(sorted[..if k < |sorted| then k else |sorted|]);
  }

  // ------------------------------------------------------------------
  // The plan.
  // ------------------------------------------------------------------

  /** The reasons a deployment has to stay. */
  datatype Reasons = Reasons(
    current: bool, previous: bool, livePinned: bool,
    unresolvedPipeline: bool, failureEvidence: bool, additionalVerified: bool)

  /** Everything a deployment can be protected by. */
  datatype Protection = Protection(
    current: Option<string>, previous: Option<string>, live: set<string>, refs: References,
    evidence: set<string>, additional: set<string>)

  const NO_REASONS := Reasons(false, false, false, false, false, false)

  /** `decisions` gives each deployment's reasons to stay; none means removal. */
  datatype Plan = Plan(blocked: bool, decisions: map<string, Reasons>, targets: set<Target>)

  /** Why one deployment stays. */
  function ReasonsFor(item: Item, id: string, p: Protection): Reasons {
    Reasons(
      p.current == Some(id),
      p.previous == Some(id),
      id in p.live,
      id in p.refs.deployments || item.runId in p.refs.runs || item.snapshotId in p.refs.snapshots,
      id in p.evidence || item.runId in p.refs.failureRuns || item.snapshotId in p.refs.failureSnapshots,
      id in p.additional)
  }

  /** The decisions about the records looked at so far. */
  function DecidedAmong(records: Inventory, p: Protection, done: set<string>): map<string, Reasons> {
    map id | id in done && id in records :: ReasonsFor(records[id], id, p)
  }

  /** Of those, the ones without a reason to stay. */
  function Unprotected(records: Inventory, p: Protection, done: set<string>): set<string> {
    set id | id in done && id in records && ReasonsFor(records[id], id, p) == NO_REASONS
  }

  lemma OneMoreDecision(records: Inventory, p: Protection, done: set<string>, id: string)
    requires id in records
    ensures var reasons := ReasonsFor(records[id], id, p);
            && DecidedAmong(records, p, done + {id}) == DecidedAmong(records, p, done)[id := reasons]
            && Unprotected(records, p, done + {id})
               == Unprotected(records, p, done) + if reasons == NO_REASONS then {id} else {}
  {
    assert id in done + {id};
    assert forall x :: x in done + {id} <==> x in done || x == id;
  }

  /** The decision loop; the removable deployments are those without a reason. */
  method DecideEach(records: Inventory, protection: Protection)
    returns (decisions: map<string, Reasons>, removable: set<string>)
    ensures decisions == DecidedAmong(records, protection, records.Keys)
    ensures removable == Unprotected(records, protection, records.Keys)
  {
    decisions, removable := map[], {};
    var todo := records.Keys;
    ghost var done: set<string> := {};
    while todo != {}
      invariant todo <= records.Keys && done == records.Keys - todo
      invariant decisions == DecidedAmong(records, protection, done)
      invariant removable == Unprotected(records, protection, done)
      decreases |todo|
    {
      var id :| id in todo;
      todo := todo - {id};
      OneMoreDecision(records, protection, done, id);
      done := done + {id};
      var reasons := ReasonsFor(records[id], id, protection);
      decisions := decisions[id := reasons];
      removable := removable + if reasons == NO_REASONS then {id} else {};
    }
    assert done == records.Keys;
  }

  /** What protects deployments when these references, roles and pins were found. */
  function ProtectionOf(records: Inventory, refs: References, current: Option<string>, previous: Option<string>,
                        live: set<string>, k: nat): Protection
  {
    var roles := Named(current) + Named(previous);
    Protection(current, previous, live, refs, refs.failureDeployments + Unpromoted(records, roles),
               Additional(records, refs, roles, live, k))
  }

  /** A deployment has no reason to stay exactly when it may be removed. */
  lemma UnprotectedIsRemovable(records: Inventory, refs: References, current: Option<string>,
                               previous: Option<string>, live: set<string>, k: nat, id: string)
    requires id in records
    ensures var p := ProtectionOf(records, refs, current, previous, live, k);
            ReasonsFor(records[id], id, p) == NO_REASONS <==>
              id in Removable(records, refs, Named(current) + Named(previous), live, k)
  {
  }

  lemma UnprotectedAreRemovable(records: Inventory, refs: References, current: Option<string>,
                                previous: Option<string>, live: set<string>, k: nat)
    ensures Unprotected(records, ProtectionOf(records, refs, current, previous, live, k), records.Keys)
         == Removable(records, refs, Named(current) + Named(previous), live, k)
  {
    forall id | id in records
      ensures ReasonsFor(records[id], id, ProtectionOf(records, refs, current, previous, live, k)) == NO_REASONS <==>
                id in Removable(records, refs, Named(current) + Named(previous), live, k)
    {
      UnprotectedIsRemovable(records, refs, current, previous, live, k, id);
    }
  }

  /** Who is reserved, who is kept besides, and what that decides. */
  method Decide(records: Inventory, refs: References, current: Option<string>, previous: Option<string>,
                live: set<string>, k: nat)
    returns (decisions: map<string, Reasons>, removable: set<string>)
    ensures decisions == DecidedAmong(records, ProtectionOf(records, refs, current, previous, live, k), records.Keys)
    ensures decisions.Keys == records.Keys
    ensures forall id <- decisions :: id in removable <==> decisions[id] == NO_REASONS
    ensures removable == Removable(records, refs, Named(current) + Named(previous), live, k)
  {
    var roles := Named(current) + Named(previous);
    var evidence := refs.failureDeployments + Unpromoted(records, roles);
    var reserved := roles + live + refs.deployments + evidence;
    assert reserved == Reserved(records, refs, roles, live);
    var additional := SelectAdditional(records, records.Keys - reserved, k);
    decisions, removable := DecideEach(records, Protection(current, previous, live, refs, evidence, additional));
    UnprotectedAreRemovable(records, refs, current, previous, live, k);
  }

  /** Why a deployment stays, reason by reason. */
  lemma ReasonsAre(records: Inventory, refs: References, current: Option<string>, previous: Option<string>,
                   live: set<string>, k: nat, id: string)
    requires id in records
    ensures var r := DecidedAmong(records, ProtectionOf(records, refs, current, previous, live, k), records.Keys)[id];
            var item, roles := records[id], Named(current) + Named(previous);
            && (r.current <==> current == Some(id)) && (r.previous <==> previous == Some(id))
            && (r.livePinned <==> id in live)
            && (r.unresolvedPipeline <==>
                  id in refs.deployments || item.runId in refs.runs || item.snapshotId in refs.snapshots)
            && (r.failureEvidence <==>
                  || id in refs.failureDeployments || item.runId in refs.failureRuns
                  || item.snapshotId in refs.failureSnapshots
                  || (!item.promoted && current != Some(id) && previous != Some(id)))
            && (r.additionalVerified <==> id in Additional(records, refs, roles, live, k))
  {
  }

  /** The paths of one removable deployment. */
  function PathsOf(s: Store, records: Inventory, id: string): set<Target>
    requires id in records
  {
    {DeploymentRecord(id), Build(records[id].runId)} + (if id in s.histories then {DeploymentHistory(id)} else {})
  }

  /** Record, history if there is one, and build of every removable deployment. */
  method DeploymentPaths(s: Store, records: Inventory, removable: set<string>) returns (targets: set<Target>)
    requires removable <= records.Keys
    ensures targets == DeploymentTargets(s, records, removable)
  {
    targets := {};
    var todo := removable;
    while todo != {}
      invariant todo <= removable
      invariant targets == DeploymentTargets(s, records, removable - todo)
      decreases |todo|
    {
      var id :| id in todo;
      OneMoreDeployment(s, records, removable - todo, id);
      assert removable - (todo - {id}) == removable - todo + {id};
      todo := todo - {id};
      targets := targets + PathsOf(s, records, id);
    }
    assert removable - todo == removable;
  }

  lemma OneMoreDeployment(s: Store, records: Inventory, done: set<string>, id: string)
    requires id in records
    ensures DeploymentTargets(s, records, done + {id})
         == DeploymentTargets(s, records, done) + PathsOf(s, records, id)
  {
    var more := done + {id};
    assert id in more;
    assert forall x :: x in more <==> x in done || x == id;
  }

  /** The snapshot loop: only a copy all of whose owners go, and that nothing names. */
  method SnapshotPaths(records: Inventory, refs: References, removable: set<string>) returns (targets: set<Target>)
    ensures targets == SnapshotTargets(records, refs, removable)
  {
    targets := {};
    var todo := Snapshots(records);
    ghost var all := todo;
    while todo != {}
      invariant todo <= all
      invariant targets == set x | x in all && x !in todo && Abandoned(records, refs, removable, x) :: SnapshotCopy(x)
      decreases |todo|
    {
      var x :| x in todo;
      todo := todo - {x};
      if Owners(records, x) <= removable && x !in refs.snapshots && x !in refs.failureSnapshots {
        targets := targets + {SnapshotCopy(x)};
      }
    }
  }

  /** All passes of the planner, up to the decisions. */
  method Survey(s: Store, k: nat, asOf: int)
    returns (blocked: bool, records: Inventory, refs: References, ageTargets: set<Target>,
             decisions: map<string, Reasons>, removable: set<string>)
    ensures records == InventoryOf(s)
    ensures blocked <==> !Clear(s, asOf)
    ensures decisions.Keys == records.Keys && forall id <- decisions :: id in removable <==> decisions[id] == NO_REASONS
    ensures !blocked ==>
              && refs == PipelineReferences(s)
              && ageTargets == StaleTargets(s, records, refs, asOf)
              && removable == RemovableFrom(s, k)
  {
    var references := new Ledger();
    records := InventoryDeployments(s, references);
    ValidateBuildOwnership(records, references);
    CollectPipeline(s.pipeline, references);
    refs := references.Collected();
    ValidateReferenceIntegrity(records, references);
    var current, previous := ValidateActiveState(s, records, references);
    ageTargets := InventoryOrphans(s, records, references, asOf);
    var live := LivePins(s, records, references);
    decisions, removable := Decide(records, refs, current, previous, live, k);
    blocked := references.blocksAll;
  }

  /** The delete targets of the removable deployments and of the copies they leave. */
  method RemovalTargets(s: Store, records: Inventory, refs: References, ageTargets: set<Target>, removable: set<string>,
                        ghost asOf: int)
    returns (targets: set<Target>)
    requires removable <= records.Keys && ageTargets == StaleTargets(s, records, refs, asOf)
    ensures targets == TargetsFor(s, records, refs, removable, asOf)
  {
    var paths := DeploymentPaths(s, records, removable);
    var copies := SnapshotPaths(records, refs, removable);
    targets := ageTargets + paths + copies;
  }

  /** plan_deployment_retention: it deletes nothing when anything blocks, and otherwise
      exactly what the store, the clock and the keep count determine. */
  method PlanDeploymentRetention(s: Store, k: nat, asOf: int) returns (plan: Plan)
    ensures plan.blocked <==> !Clear(s, asOf)
    ensures plan.blocked ==> plan.targets == {}
    ensures !plan.blocked ==> plan.targets == Targets(s, asOf, k)
    ensures plan.decisions.Keys == InventoryOf(s).Keys
    ensures !plan.blocked ==>
              forall id <- plan.decisions :: plan.decisions[id] == NO_REASONS <==> id in RemovableFrom(s, k)
  {
    var blocked, records, refs, ageTargets, decisions, removable := Survey(s, k, asOf);
    var targets := {};
    if !blocked {
      targets := RemovalTargets(s, records, refs, ageTargets, removable, asOf);
    }
    plan := Plan(blocked, decisions, targets);
  }
}