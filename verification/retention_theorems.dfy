/** What carrying out an unblocked retention plan leaves behind. */
module RetentionTheorems {
  import opened Wrappers
  import opened Ordering
  import opened RetentionOrder
  import opened RetentionStore

  // ------------------------------------------------------------------
  // Which paths a plan takes away.
  // ------------------------------------------------------------------

  /** What is known of an unblocked store's inventory. */
  predicate Inventoried(s: Store, inv: Inventory) {
    && inv.Keys == s.records.Keys
    && s.histories.Keys <= inv.Keys
    && (forall id <- s.records :: BundleOk(s, id) && inv[id] == ItemOf(s, id))
  }

  lemma ClearIsInventoried(s: Store, asOf: int)
    requires Clear(s, asOf)
    ensures Inventoried(s, InventoryOf(s)) && OwnershipClear(InventoryOf(s))
  {
  }

  /** The deployments that remain. */
  function Remaining(inv: Inventory, ids: set<string>): Inventory {
    map id | id in inv && id !in ids :: inv[id]
  }

  predicate RunRemoved(inv: Inventory, ids: set<string>, run: string) {
    exists id :: id in ids && id in inv && inv[id].runId == run
  }

  /** The store a plan leaves, stated without its target list. */
  function After(s: Store, inv: Inventory, refs: References, ids: set<string>, asOf: int): Store {
    s.(records := map id | id in s.records && id !in ids :: s.records[id],
       histories := map id | id in s.histories && id !in ids :: s.histories[id],
       builds := map run | run in s.builds && !RunRemoved(inv, ids, run) && !StaleRun(s, inv, refs, asOf, run)
                   :: s.builds[run],
       snapshots := map x | x in s.snapshots && !Abandoned(inv, refs, ids, x) :: s.snapshots[x],
       uploads := map u | u in s.uploads && !StaleName(s, asOf, u) :: s.uploads[u])
  }

  lemma RecordsAndHistoriesTargeted(s: Store, inv: Inventory, refs: References, ids: set<string>, asOf: int)
    requires ids <= inv.Keys
    ensures RecordsIn(TargetsFor(s, inv, refs, ids, asOf)) == ids
    ensures HistoriesIn(TargetsFor(s, inv, refs, ids, asOf)) == ids * s.histories.Keys
  {
    var ts := TargetsFor(s, inv, refs, ids, asOf);
    forall id | id in ids ensures id in RecordsIn(ts) { assert DeploymentRecord(id) in ts; }
    forall id | id in ids && id in s.histories ensures id in HistoriesIn(ts) { assert DeploymentHistory(id) in ts; }
  }

  lemma BuildsTargeted(s: Store, inv: Inventory, refs: References, ids: set<string>, asOf: int, run: string)
    requires ids <= inv.Keys
    ensures run in BuildsIn(TargetsFor(s, inv, refs, ids, asOf)) <==>
              RunRemoved(inv, ids, run) || StaleRun(s, inv, refs, asOf, run)
  {
    var ts := TargetsFor(s, inv, refs, ids, asOf);
    if RunRemoved(inv, ids, run) {
      var id :| id in ids && id in inv && inv[id].runId == run;
      assert Build(inv[id].runId) in ts;
    }
    if StaleRun(s, inv, refs, asOf, run) { assert StaleBuild(run) in ts; }
  }

  lemma CopiesTargeted(s: Store, inv: Inventory, refs: References, ids: set<string>, asOf: int, x: string)
    ensures x in SnapshotsIn(TargetsFor(s, inv, refs, ids, asOf)) <==> Abandoned(inv, refs, ids, x)
    ensures x in UploadsIn(TargetsFor(s, inv, refs, ids, asOf)) <==> StaleName(s, asOf, x)
  {
    var ts := TargetsFor(s, inv, refs, ids, asOf);
    if Abandoned(inv, refs, ids, x) { assert SnapshotCopy(x) in ts; }
    if StaleName(s, asOf, x) { assert StaleUpload(x) in ts; }
  }

  lemma BuildsDeleted(s: Store, inv: Inventory, refs: References, ids: set<string>, asOf: int)
    requires ids <= inv.Keys
    ensures s.builds - BuildsIn(TargetsFor(s, inv, refs, ids, asOf)) == After(s, inv, refs, ids, asOf).builds
  {
    var gone := BuildsIn(TargetsFor(s, inv, refs, ids, asOf));
    forall run | run in s.builds
      ensures run in gone <==> RunRemoved(inv, ids, run) || StaleRun(s, inv, refs, asOf, run)
    {
      BuildsTargeted(s, inv, refs, ids, asOf, run);
    }
  }

  lemma CopiesDeleted(s: Store, inv: Inventory, refs: References, ids: set<string>, asOf: int)
    ensures s.snapshots - SnapshotsIn(TargetsFor(s, inv, refs, ids, asOf)) == After(s, inv, refs, ids, asOf).snapshots
    ensures s.uploads - UploadsIn(TargetsFor(s, inv, refs, ids, asOf)) == After(s, inv, refs, ids, asOf).uploads
  {
    var ts := TargetsFor(s, inv, refs, ids, asOf);
    var copies, uploads := SnapshotsIn(ts), UploadsIn(ts);
    forall x: string
      ensures x in copies <==> Abandoned(inv, refs, ids, x)
      ensures x in uploads <==> StaleName(s, asOf, x)
    {
      CopiesTargeted(s, inv, refs, ids, asOf, x);
    }
  }

  lemma WhatIsDeleted(s: Store, inv: Inventory, refs: References, ids: set<string>, asOf: int)
    requires ids <= inv.Keys
    ensures Execute(s, TargetsFor(s, inv, refs, ids, asOf)) == After(s, inv, refs, ids, asOf)
  {
    var ts := TargetsFor(s, inv, refs, ids, asOf);
    RecordsAndHistoriesTargeted(s, inv, refs, ids, asOf);
    BuildsDeleted(s, inv, refs, ids, asOf);
    CopiesDeleted(s, inv, refs, ids, asOf);
    var after := After(s, inv, refs, ids, asOf);
    assert s.records - RecordsIn(ts) == after.records;
    assert s.histories - HistoriesIn(ts) == after.histories;
  }

  // ------------------------------------------------------------------
  // What remains is whole.
  // ------------------------------------------------------------------

  /** A deployment that stays keeps its own build, its snapshot and its history. */
  lemma BundlesSurvive(s: Store, inv: Inventory, refs: References, ids: set<string>, asOf: int, id: string)
    requires Inventoried(s, inv) && OwnershipClear(inv) && id in s.records && id !in ids
    ensures var after := After(s, inv, refs, ids, asOf);
            id in after.records && BundleOk(after, id) && ItemOf(after, id) == ItemOf(s, id)
  {
    var r := s.records[id];
    assert BundleOk(s, id) && inv[id] == ItemOf(s, id);
    assert r.runId in Runs(inv) && id in Owners(inv, r.snapshotId);
    assert !RunRemoved(inv, ids, r.runId);
  }

  lemma InventoryIs(s: Store, inv: Inventory)
    requires Inventoried(s, inv)
    ensures InventoryOf(s) == inv
  {
    forall id | id in s.records ensures BundleOk(s, id) && inv[id] == ItemOf(s, id) {}
  }

  lemma InventoryAfter(s: Store, inv: Inventory, refs: References, ids: set<string>, asOf: int)
    requires Inventoried(s, inv) && OwnershipClear(inv)
    ensures Inventoried(After(s, inv, refs, ids, asOf), Remaining(inv, ids))
  {
    var after, rest := After(s, inv, refs, ids, asOf), Remaining(inv, ids);
    forall id <- after.records ensures BundleOk(after, id) && rest[id] == ItemOf(after, id) {
      BundlesSurvive(s, inv, refs, ids, asOf, id);
    }
  }

  // ------------------------------------------------------------------
  // The store stays sound, and a second plan has nothing to do.
  // ------------------------------------------------------------------

  /** What is reserved or referenced is never removed. */
  lemma ProtectedStay(inv: Inventory, refs: References, roles: set<string>, live: set<string>, k: nat)
    requires ReferencesClear(inv, refs) && roles <= inv.Keys
    ensures var rest := Remaining(inv, Removable(inv, refs, roles, live, k));
            ReferencesClear(rest, refs) && roles <= rest.Keys
  {
    var rest := Remaining(inv, Removable(inv, refs, roles, live, k));
    forall run | run in refs.runs + refs.failureRuns ensures run in Runs(rest) {
      var id :| id in inv && inv[id].runId == run;
      assert Referenced(inv[id], refs);
      assert id in rest && rest[id].runId == run;
    }
  }

  lemma OrphansAfter(s: Store, inv: Inventory, refs: References, ids: set<string>, asOf: int)
    requires Inventoried(s, inv) && OrphansClear(s, inv, refs, asOf)
    requires forall id :: id in ids && id in inv ==> !Referenced(inv[id], refs)
    ensures OrphansClear(After(s, inv, refs, ids, asOf), Remaining(inv, ids), refs, asOf)
  {
    var after, rest := After(s, inv, refs, ids, asOf), Remaining(inv, ids);
    forall run <- after.builds | run !in Runs(rest)
      ensures after.builds[run].FailedBuild? && after.builds[run].failedAt <= asOf
    {
      if run in Runs(inv) { RunKept(inv, ids, run); }
    }
    forall x <- after.snapshots | x !in Snapshots(rest) ensures x in refs.snapshots {
      if x in Snapshots(inv) { SnapshotKept(inv, refs, ids, x); }
    }
  }

  lemma RunKept(inv: Inventory, ids: set<string>, run: string)
    requires run in Runs(inv)
    ensures run in Runs(Remaining(inv, ids)) || RunRemoved(inv, ids, run)
  {
    var id :| id in inv && inv[id].runId == run;
    if id !in ids { assert Remaining(inv, ids)[id].runId == run; }
  }

  lemma SnapshotKept(inv: Inventory, refs: References, ids: set<string>, x: string)
    requires x in Snapshots(inv)
    ensures x in Snapshots(Remaining(inv, ids)) <==> !(Owners(inv, x) <= ids)
    ensures x in Snapshots(Remaining(inv, ids)) || Abandoned(inv, refs, ids, x)
            || x in refs.snapshots + refs.failureSnapshots
    ensures (forall id :: id in ids && id in inv ==> !Referenced(inv[id], refs)) ==>
              x in Snapshots(Remaining(inv, ids)) || Abandoned(inv, refs, ids, x)
  {
    var rest := Remaining(inv, ids);
    if !(Owners(inv, x) <= ids) {
      var id :| id in Owners(inv, x) && id !in ids;
      assert id in rest && rest[id].snapshotId == x;
    } else {
      var id :| id in inv && inv[id].snapshotId == x;
      assert id in Owners(inv, x);
    }
  }

  /** Nothing more is removable once the removable ones are gone. */
  lemma NothingLeftRemovable(inv: Inventory, refs: References, roles: set<string>, live: set<string>, k: nat,
                             live': set<string>)
    requires live' == live - Removable(inv, refs, roles, live, k)
    ensures Removable(Remaining(inv, Removable(inv, refs, roles, live, k)), refs, roles, live', k) == {}
  {
    var ids := Removable(inv, refs, roles, live, k);
    var rest := Remaining(inv, ids);
    var candidates := inv.Keys - Reserved(inv, refs, roles, live);
    var candidates' := rest.Keys - Reserved(rest, refs, roles, live');
    assert candidates' == candidates - ids;
    TopKIsStable(TimesOf(inv), candidates, k, candidates');
    SameTimesSameTop(TimesOf(inv), TimesOf(rest), candidates', k);
  }

  lemma SameTimesSameTop(t: Times, u: Times, s: set<string>, k: nat)
    requires s <= t.Keys && s <= u.Keys && forall c <- s :: t[c] == u[c]
    ensures TopK(t, s, k) == TopK(u, s, k)
  {
    forall c | c in s ensures Ahead(t, s, c) == Ahead(u, s, c) {
      forall d | d in s ensures Before(t, d, c) == Before(u, d, c) {}
    }
  }

  /** What was stale is gone. */
  lemma NothingLeftStale(s: Store, inv: Inventory, refs: References, ids: set<string>, asOf: int, name: string)
    ensures !StaleRun(After(s, inv, refs, ids, asOf), Remaining(inv, ids), refs, asOf, name)
    ensures !StaleName(After(s, inv, refs, ids, asOf), asOf, name)
  {
    if name in Runs(inv) { RunKept(inv, ids, name); }
  }

  /** With nothing removable and nothing stale, there is nothing to delete. */
  lemma NoTargets(s: Store, inv: Inventory, refs: References, asOf: int)
    requires forall run :: !StaleRun(s, inv, refs, asOf, run)
    requires forall u :: !StaleName(s, asOf, u)
    ensures TargetsFor(s, inv, refs, {}, asOf) == {}
  {
    forall x | x in Snapshots(inv) ensures !Abandoned(inv, refs, {}, x) {
      var id :| id in inv && inv[id].snapshotId == x;
      assert id in Owners(inv, x);
    }
  }

  /** Carrying out an unblocked plan leaves a store that still blocks nothing: every
      remaining deployment has its bundle, and the active state, the pins and every
      pipeline reference still resolve.  Planning again with the same clock, policy,
      pins and pipeline files then deletes nothing. */
  lemma StoreStaysSound(s: Store, asOf: int, k: nat)
    requires Clear(s, asOf)
    ensures var after := Execute(s, Targets(s, asOf, k));
            Clear(after, asOf) && Targets(after, asOf, k) == {}
  {
    var inv, refs, roles := InventoryOf(s), PipelineReferences(s), Roles(s.active);
    var live := Live(s, inv);
    var ids := Removable(inv, refs, roles, live, k);
    ClearIsInventoried(s, asOf);
    WhatIsDeleted(s, inv, refs, ids, asOf);
    SoundAfter(s, inv, refs, roles, live, k, asOf);
    SecondPlanIsEmpty(s, inv, refs, roles, live, k, asOf);
    SameReferences(s, After(s, inv, refs, ids, asOf), Remaining(inv, ids), asOf);
  }

  lemma SameReferences(s: Store, after: Store, rest: Inventory, asOf: int)
    requires after.pipeline == s.pipeline && PipelineClear(s.pipeline)
    requires Inventoried(after, rest) && OwnershipClear(rest) && ReferencesClear(rest, PipelineReferences(s))
    requires ActiveClear(after, rest) && PinsClear(after, rest)
    requires OrphansClear(after, rest, PipelineReferences(s), asOf)
    ensures Clear(after, asOf)
  {
    InventoryIs(after, rest);
  }

  lemma SecondPlanIsEmpty(s: Store, inv: Inventory, refs: References, roles: set<string>, live: set<string>,
                          k: nat, asOf: int)
    requires Inventoried(s, inv) && OwnershipClear(inv)
    requires refs == PipelineReferences(s) && roles == Roles(s.active) && live == Live(s, inv)
    ensures var ids := Removable(inv, refs, roles, live, k);
            var after := After(s, inv, refs, ids, asOf);
            Inventoried(after, Remaining(inv, ids)) && Targets(after, asOf, k) == {}
  {
    var ids := Removable(inv, refs, roles, live, k);
    var after, rest := After(s, inv, refs, ids, asOf), Remaining(inv, ids);
    InventoryAfter(s, inv, refs, ids, asOf);
    InventoryIs(after, rest);
    assert Live(after, rest) == live - ids;
    NothingLeftRemovable(inv, refs, roles, live, k, live - ids);
    assert RemovableFrom(after, k) == {};
    forall name: string
      ensures !StaleRun(after, rest, refs, asOf, name) && !StaleName(after, asOf, name)
    {
      NothingLeftStale(s, inv, refs, ids, asOf, name);
    }
    NoTargets(after, rest, refs, asOf);
  }

  lemma SoundAfter(s: Store, inv: Inventory, refs: References, roles: set<string>, live: set<string>,
                   k: nat, asOf: int)
    requires Inventoried(s, inv) && OwnershipClear(inv) && ReferencesClear(inv, refs)
    requires ActiveClear(s, inv) && roles == Roles(s.active)
    requires OrphansClear(s, inv, refs, asOf) && PinsClear(s, inv)
    ensures var ids := Removable(inv, refs, roles, live, k);
            var after, rest := After(s, inv, refs, ids, asOf), Remaining(inv, ids);
            && OwnershipClear(rest) && ReferencesClear(rest, refs) && ActiveClear(after, rest)
            && OrphansClear(after, rest, refs, asOf) && PinsClear(after, rest)
  {
    ProtectedStay(inv, refs, roles, live, k);
    OrphansAfter(s, inv, refs, Removable(inv, refs, roles, live, k), asOf);
  }

  /** A snapshot copy outlives the plan exactly when a remaining deployment owns it or a
      pipeline file that protects it names it. */
  lemma SharedSnapshotsSurvive(s: Store, asOf: int, k: nat, x: string)
    requires Clear(s, asOf) && x in s.snapshots
    ensures var inv, refs := InventoryOf(s), PipelineReferences(s);
            x in Execute(s, Targets(s, asOf, k)).snapshots <==>
              || x in Snapshots(Remaining(inv, RemovableFrom(s, k)))
              || x in refs.snapshots + refs.failureSnapshots
  {
    var inv, refs, ids := InventoryOf(s), PipelineReferences(s), RemovableFrom(s, k);
    ClearIsInventoried(s, asOf);
    WhatIsDeleted(s, inv, refs, ids, asOf);
    if x in Snapshots(inv) { SnapshotKept(inv, refs, ids, x); }
    if x in Snapshots(Remaining(inv, ids)) {
      var id :| id in Remaining(inv, ids) && inv[id].snapshotId == x;
      assert x in Snapshots(inv);
    }
  }

  /** Two promoted deployments that share a snapshot. */
  predicate TwoDeployments(s: Store) {
    && s.records == map["new" := Record("r2", "x", "b2", "m", 2), "old" := Record("r1", "x", "b1", "m", 1)]
    && s.histories == map["new" := Events([4]), "old" := Events([3])]
    && s.builds == map["r1" := VerifiedBuild("b1"), "r2" := VerifiedBuild("b2")]
    && s.snapshots == map["x" := Intact("m")]
  }

  const TWO: Inventory := map["new" := Item("r2", "x", true, 4), "old" := Item("r1", "x", true, 3)]
  const NOTHING := References({}, {}, {}, {}, {}, {}, {})

  lemma TwoAreInventoried(s: Store)
    requires TwoDeployments(s)
    ensures RecordsClear(s) && InventoryOf(s) == TWO
  {
    NewerIsWhole(s);
    OlderIsWhole(s);
    assert forall id :: id in s.records <==> id == "new" || id == "old";
    assert InventoryOf(s).Keys == {"new", "old"};
  }

  lemma NewerIsWhole(s: Store)
    requires TwoDeployments(s)
    ensures BundleOk(s, "new") && ItemOf(s, "new") == Item("r2", "x", true, 4)
  {
    ItemIs(s, "new", 2, 4);
  }

  lemma OlderIsWhole(s: Store)
    requires TwoDeployments(s)
    ensures BundleOk(s, "old") && ItemOf(s, "old") == Item("r1", "x", true, 3)
  {
    ItemIs(s, "old", 1, 3);
  }

  lemma ItemIs(s: Store, id: string, verifiedAt: int, promotedAt: int)
    requires id in s.records && BundleOk(s, id) && s.records[id].verifiedAt == verifiedAt < promotedAt
    requires id in s.histories && s.histories[id] == Events([promotedAt])
    ensures ItemOf(s, id) == Item(s.records[id].runId, s.records[id].snapshotId, true, promotedAt)
  {
    assert Latest(verifiedAt, [promotedAt]) == promotedAt;
  }

  lemma NothingMentioned(p: Pipeline)
    requires p == Pipeline(map[], map[], map[], map[], NoRollback, false)
    ensures PipelineClear(p) && ReferencesOf(PipelineMentions(p)) == NOTHING
  {
    assert PipelineMentions(p) == {};
  }

  lemma NoExtras(t: Times, s: set<string>)
    requires s <= t.Keys
    ensures TopK(t, s, 0) == {}
  {
  }

  lemma OlderIsRemovable(inv: Inventory)
    requires inv == TWO
    ensures Removable(inv, NOTHING, {"new"}, {}, 0) == {"old"}
  {
    assert inv.Keys == {"new", "old"} && inv["old"].promoted && inv["new"].promoted;
    assert Unpromoted(inv, {"new"}) == {};
    NoExtras(TimesOf(inv), inv.Keys - Reserved(inv, NOTHING, {"new"}, {}));
  }

  lemma TwoBlockNothing(s: Store, inv: Inventory, asOf: int)
    requires TwoDeployments(s) && inv == TWO && s.uploads == map[] && s.pins == map[]
    ensures OwnershipClear(inv) && ReferencesClear(inv, NOTHING) && PinsClear(s, inv) && Live(s, inv) == {}
    ensures OrphansClear(s, inv, NOTHING, asOf)
  {
    assert inv["new"].runId == "r2" && inv["old"].runId == "r1" && inv["new"].snapshotId == "x";
    assert "r1" in Runs(inv) && "r2" in Runs(inv) && "x" in Snapshots(inv);
  }

  /** The newer of the two is selected, and nothing else refers to either. */
  predicate NewerSelected(s: Store) {
    && TwoDeployments(s) && s.uploads == map[] && s.pins == map[]
    && s.active == Active(Some("new"), None, "t") && s.projection == Projection(Some("new"), "t")
    && s.pipeline == Pipeline(map[], map[], map[], map[], NoRollback, false)
  }

  lemma NewerIsActive(s: Store, inv: Inventory)
    requires NewerSelected(s) && inv == TWO
    ensures ActiveClear(s, inv) && Roles(s.active) == {"new"}
  {
  }

  lemma NothingBlocks(s: Store, inv: Inventory, asOf: int)
    requires NewerSelected(s) && InventoryOf(s) == inv == TWO && RecordsClear(s)
    ensures Clear(s, asOf) && PipelineReferences(s) == NOTHING && Live(s, inv) == {}
  {
    NothingMentioned(s.pipeline);
    TwoBlockNothing(s, inv, asOf);
    NewerIsActive(s, inv);
  }

  /** A store nothing blocks, from which keeping no extras removes the older of two
      deployments that share a snapshot. */
  lemma OlderDeploymentGoes(s: Store, asOf: int)
    requires NewerSelected(s)
    ensures Clear(s, asOf) && RemovableFrom(s, 0) == {"old"}
  {
    var inv := InventoryOf(s);
    TwoAreInventoried(s);
    NothingBlocks(s, inv, asOf);
    NewerIsActive(s, inv);
    OlderIsRemovable(inv);
  }

  // ------------------------------------------------------------------
  // Protection only ever protects.
  // ------------------------------------------------------------------

  predicate Within(a: References, b: References) {
    && a.deployments <= b.deployments && a.runs <= b.runs && a.snapshots <= b.snapshots
    && a.failureDeployments <= b.failureDeployments && a.failureRuns <= b.failureRuns
    && a.failureSnapshots <= b.failureSnapshots
  }

  /** More pins, more references or a larger keep count never add a removed deployment. */
  lemma RemovalIsAntitone(inv: Inventory, roles: set<string>,
                          refs: References, live: set<string>, k: nat,
                          refs': References, live': set<string>, k': nat)
    requires Within(refs, refs') && live <= live' && k <= k'
    ensures Removable(inv, refs', roles, live', k') <= Removable(inv, refs, roles, live, k)
  {
    var t := TimesOf(inv);
    var all := inv.Keys - Reserved(inv, refs, roles, live);
    var fewer := inv.Keys - Reserved(inv, refs', roles, live');
    forall id | id in Removable(inv, refs', roles, live', k')
      ensures id in Removable(inv, refs, roles, live, k)
    {
      if id in TopK(t, all, k) { TopKIsMonotone(t, all, k, fewer, k', id); }
    }
  }

  lemma MentionsOnlyAdd(a: set<Mention>, b: set<Mention>)
    requires a <= b
    ensures Within(ReferencesOf(a), ReferencesOf(b))
  {
  }

  /** Two stores with the same deployments, of which the second is protected by at least the
      pins and the mentions of the first. */
  predicate MoreProtected(s: Store, t: Store) {
    && t.records == s.records && t.histories == s.histories && t.builds == s.builds
    && t.snapshots == s.snapshots && t.active == s.active
    && (forall run <- s.pins :: s.pins[run] == Pinned ==> run in t.pins && t.pins[run] == Pinned)
    && PipelineMentions(s.pipeline) <= PipelineMentions(t.pipeline)
  }

  lemma SameInventory(s: Store, t: Store)
    requires t.records == s.records && t.histories == s.histories && t.builds == s.builds && t.snapshots == s.snapshots
    ensures InventoryOf(t) == InventoryOf(s)
  {
    forall id | id in s.records
      ensures BundleOk(t, id) <==> BundleOk(s, id)
      ensures BundleOk(s, id) ==> ItemOf(t, id) == ItemOf(s, id)
    {
    }
  }

  /** Of the whole store: another live pin, another mention or a larger keep count never adds
      a removed deployment. */
  lemma MoreProtectionRemovesLess(s: Store, t: Store, k: nat, k': nat)
    requires MoreProtected(s, t) && k <= k'
    ensures RemovableFrom(t, k') <= RemovableFrom(s, k)
  {
    SameInventory(s, t);
    MentionsOnlyAdd(PipelineMentions(s.pipeline), PipelineMentions(t.pipeline));
    var inv := InventoryOf(s);
    assert Live(s, inv) <= Live(t, inv);
    RemovalIsAntitone(inv, Roles(s.active), PipelineReferences(s), Live(s, inv), k,
                      PipelineReferences(t), Live(t, inv), k');
  }

  predicate MoreQueued(a: map<Key, Queued>, b: map<Key, Queued>) {
    forall key <- a :: key in b && b[key] == a[key]
  }

  lemma NewlyQueuedAdd(results: map<Key, Result>, a: map<Key, Queued>, b: map<Key, Queued>)
    requires MoreQueued(a, b)
    ensures PendingMentions(results, a) <= PendingMentions(results, b)
  {
    forall m | m in PendingMentions(results, a) ensures m in PendingMentions(results, b) {
      var key :| key in a && m in QueuedMentions(results, key, a[key]);
      assert key in b && m in QueuedMentions(results, key, b[key]);
    }
  }

  /** Requests, markers and journals only ever add mentions. */
  lemma NewFilesOnlyAdd(p: Pipeline, q: Pipeline)
    requires q.results == p.results && q.rollback == p.rollback
    requires MoreQueued(p.incoming, q.incoming) && MoreQueued(p.commits, q.commits)
    requires MoreQueued(p.journals, q.journals)
    ensures PipelineMentions(p) <= PipelineMentions(q)
  {
    NewlyQueuedAdd(p.results, p.incoming, q.incoming);
    NewlyQueuedAdd(p.results, p.commits, q.commits);
    NewlyQueuedAdd(p.results, p.journals, q.journals);
  }

  lemma SettledReleases(p: Pipeline, key: Key, queued: map<Key, Queued>)
    requires key !in p.results
    ensures PendingMentions(p.results[key := Success], queued) <= PendingMentions(p.results, queued)
  {
    var results := p.results[key := Success];
    forall m | m in PendingMentions(results, queued) ensures m in PendingMentions(p.results, queued) {
      var other :| other in queued && m in QueuedMentions(results, other, queued[other]);
      assert m in QueuedMentions(p.results, other, queued[other]);
    }
  }

  /** A result may take mentions away: a successful one adds none and releases the files
      of its own request. */
  lemma SuccessOnlyReleases(p: Pipeline, key: Key)
    requires key !in p.results
    ensures PipelineMentions(p.(results := p.results[key := Success])) <= PipelineMentions(p)
    ensures key in p.incoming ==>
              QueuedMentions(p.results[key := Success], key, p.incoming[key]) == {}
  {
    SettledReleases(p, key, p.incoming);
    SettledReleases(p, key, p.commits);
    SettledReleases(p, key, p.journals);
    var results := p.results[key := Success];
    forall m | m in ResultMentionsAt(results, results.Keys) ensures m in ResultMentionsAt(p.results, p.results.Keys) {
      var other :| other in results && m in ResultMentions(results[other]);
      assert other in p.results && m in ResultMentions(p.results[other]);
    }
  }

  /** The kept extras are min(k, candidates) many, and each removed deployment was a
      candidate older than all of them, or as old with a later ID. */
  lemma ExtrasAreTheNewest(inv: Inventory, refs: References, roles: set<string>, live: set<string>, k: nat)
    ensures var extras := Additional(inv, refs, roles, live, k);
            var candidates := inv.Keys - Reserved(inv, refs, roles, live);
            && extras <= candidates
            && |extras| == (if k < |candidates| then k else |candidates|)
            && (forall c, d :: c in extras && d in Removable(inv, refs, roles, live, k) ==>
                  inv[c].effective > inv[d].effective
                  || (inv[c].effective == inv[d].effective && Less(c, d)))
  {
    var t, candidates := TimesOf(inv), inv.Keys - Reserved(inv, refs, roles, live);
    TopKCounts(t, candidates, k);
    forall c, d | c in TopK(t, candidates, k) && d in Removable(inv, refs, roles, live, k)
      ensures inv[c].effective > inv[d].effective || (inv[c].effective == inv[d].effective && Less(c, d))
    {
      assert d in candidates - TopK(t, candidates, k);
    }
  }

  /** Of two candidates with one place, the newer stays, and the older goes unless a pipeline
      file names its build or snapshot. */
  lemma NewerOfTwoStays(inv: Inventory, refs: References, roles: set<string>, live: set<string>,
                        newer: string, older: string)
    requires newer in inv && older in inv && inv[newer].effective > inv[older].effective
    requires inv.Keys - Reserved(inv, refs, roles, live) == {newer, older}
    ensures Additional(inv, refs, roles, live, 1) == {newer}
    ensures Removable(inv, refs, roles, live, 1) == if Referenced(inv[older], refs) then {} else {older}
  {
    NewerOfTwo(TimesOf(inv), newer, older);
    assert Additional(inv, refs, roles, live, 1) == {newer};
    forall id | id in inv ensures id !in Reserved(inv, refs, roles, live) <==> id == newer || id == older {
      assert id in inv.Keys - Reserved(inv, refs, roles, live) <==> id in {newer, older};
    }
  }

  lemma NewerOfTwo(t: Times, newer: string, older: string)
    requires newer in t && older in t && t[newer] > t[older]
    ensures TopK(t, {newer, older}, 1) == {newer}
  {
    var both := {newer, older};
    TopKCounts(t, both, 1);
    var kept := TopK(t, both, 1);
    OneOfTwo(kept, newer, older);
    assert newer in both - kept <==> newer !in kept;
  }

  lemma OneOfTwo(s: set<string>, a: string, b: string)
    requires s <= {a, b} && |s| == 1 && a != b
    ensures s == {a} || s == {b}
  {
    assert |{a, b} - s| == 1;
    if a in s { assert s - {a} == {}; } else { assert s - {b} == {}; }
  }

  const THREE: Inventory :=
    map["new" := Item("r3", "x", true, 5), "mid" := Item("r2", "x", true, 4), "old" := Item("r1", "x", true, 3)]

  /** Keeping one extra beside the selected deployment removes the oldest of three. */
  lemma OldestOfThreeGoes(inv: Inventory)
    requires inv == THREE
    ensures Additional(inv, NOTHING, {"new"}, {}, 1) == {"mid"}
    ensures Removable(inv, NOTHING, {"new"}, {}, 1) == {"old"}
  {
    assert inv.Keys == {"new", "mid", "old"};
    assert Unpromoted(inv, {"new"}) == {};
    assert inv.Keys - Reserved(inv, NOTHING, {"new"}, {}) == {"mid", "old"};
    NewerOfTwoStays(inv, NOTHING, {"new"}, {}, "mid", "old");
  }
}
