/** The pipeline store as the retention planner inventories it, and which deployments
    and paths a plan removes (src/homeops_ai/retention.py).

    Every file is taken as already validated or as invalid; times are in seconds. */
module RetentionStore {
  import opened Wrappers
  import opened RetentionOrder

  const FAILED_BUILD_RETENTION := 7 * 24 * 3600
  const INCOMPLETE_UPLOAD_RETENTION := 24 * 3600

  // ------------------------------------------------------------------
  // The store.
  // ------------------------------------------------------------------

  /** A deployment record; `build` and `snapshot` are the facts its build manifest and
      snapshot manifest must repeat. */
  datatype RecordFile =
    | Record(runId: string, snapshotId: string, build: string, snapshot: string, verifiedAt: int)
    | BadRecord

  datatype History = Events(times: seq<int>) | BadHistory
  datatype BuildDir = VerifiedBuild(facts: string) | FailedBuild(failedAt: int) | OtherBuild
  datatype SnapshotDir = Intact(facts: string) | Damaged
  datatype Upload = Upload(seenAt: int) | BadUpload
  datatype Pin = Pinned | BadPin
  datatype Active = Active(current: Option<string>, previous: Option<string>, promotedAt: string) | BadActive
  datatype Projection = Projection(current: Option<string>, promotedAt: string)

  /** What a pipeline file may name. */
  datatype Ident = Ident(candidate: Option<string>, expected: Option<string>,
                         snapshot: Option<string>, run: Option<string>)

  datatype Result = Ready(ident: Ident) | Success | Failure(retryable: bool, ident: Ident) | BadResult
  datatype Queued = Queued(ident: Ident) | BadQueued
  datatype Rollback = NoRollback | Rollback(states: set<Ident>) | BadRollback

  /** A publisher and a request ID. */
  type Key = (string, string)

  datatype Pipeline = Pipeline(
    results: map<Key, Result>, incoming: map<Key, Queued>, commits: map<Key, Queued>,
    journals: map<Key, Queued>, rollback: Rollback, quarantined: bool)

  datatype Store = Store(
    records: map<string, RecordFile>, histories: map<string, History>, builds: map<string, BuildDir>,
    snapshots: map<string, SnapshotDir>, uploads: map<string, Upload>, pins: map<string, Pin>,
    active: Active, projection: Projection, pipeline: Pipeline)

  // ------------------------------------------------------------------
  // The inventory of deployments.
  // ------------------------------------------------------------------

  datatype Item = Item(runId: string, snapshotId: string, promoted: bool, effective: int)

  type Inventory = map<string, Item>

  function Latest(verified: int, times: seq<int>): int {
    if times == [] then verified
    else
      var rest := Latest(verified, times[1..]);
      if times[0] > rest then times[0] else rest
  }

  predicate BundleOk(s: Store, id: string)
    requires id in s.records
  {
    var r := s.records[id];
    && r.Record?
    && r.runId in s.builds && s.builds[r.runId] == VerifiedBuild(r.build)
    && r.snapshotId in s.snapshots && s.snapshots[r.snapshotId] == Intact(r.snapshot)
    && (id in s.histories ==> s.histories[id].Events?)
  }

  function ItemOf(s: Store, id: string): Item
    requires id in s.records && BundleOk(s, id)
  {
    var r := s.records[id];
    var times := if id in s.histories then s.histories[id].times else [];
    Item(r.runId, r.snapshotId, times != [], Latest(r.verifiedAt, times))
  }

  /** A deployment is inventoried exactly if its build is the verified one its record names,
      its snapshot is intact, and its history can be read; its effective time is the latest of
      its verification and its promotions. */
  lemma InventoryMeans(s: Store, id: string)
    ensures id in InventoryOf(s) <==>
              && id in s.records && s.records[id].Record?
              && var r := s.records[id];
                 && r.runId in s.builds && s.builds[r.runId] == VerifiedBuild(r.build)
                 && r.snapshotId in s.snapshots && s.snapshots[r.snapshotId] == Intact(r.snapshot)
                 && (id in s.histories ==> s.histories[id].Events?)
    ensures id in InventoryOf(s) ==>
              var r, item := s.records[id], InventoryOf(s)[id];
              && item.runId == r.runId && item.snapshotId == r.snapshotId
              && (item.promoted <==> id in s.histories && s.histories[id].times != [])
              && item.effective >= r.verifiedAt
              && (id in s.histories ==> forall t <- s.histories[id].times :: item.effective >= t)
              && (item.effective == r.verifiedAt || (id in s.histories && item.effective in s.histories[id].times))
  {
    if id in InventoryOf(s) && id in s.histories { LatestIs(s.records[id].verifiedAt, s.histories[id].times); }
  }

  lemma {:induction false} LatestIs(verified: int, times: seq<int>)
    ensures Latest(verified, times) >= verified && forall t <- times :: Latest(verified, times) >= t
    ensures Latest(verified, times) == verified || Latest(verified, times) in times
  {
    if times != [] {
      LatestIs(verified, times[1..]);
      assert times == [times[0]] + times[1..];
    }
  }

  function InventoryOf(s: Store): Inventory {
    map id | id in s.records && BundleOk(s, id) :: ItemOf(s, id)
  }

  function TimesOf(inv: Inventory): (t: Times)
    ensures t.Keys == inv.Keys
  {
    map id | id in inv :: inv[id].effective
  }

  // ------------------------------------------------------------------
  // What the pipeline files refer to.
  // ------------------------------------------------------------------

  /** One use of a file's identity; `failure` for a final failed result. */
  datatype Mention = Mention(ident: Ident, failure: bool)

  datatype Bundle = Bundle(deployment: string, run: string, snapshot: string)

  datatype References = References(
    deployments: set<string>, runs: set<string>, snapshots: set<string>,
    failureDeployments: set<string>, failureRuns: set<string>, failureSnapshots: set<string>,
    bundles: set<Bundle>)

  function Named(o: Option<string>): set<string> {
    if o.Some? then {o.value} else {}
  }

  function BundleOf(i: Ident): set<Bundle> {
    if i.candidate.Some? && i.run.Some? && i.snapshot.Some?
    then {Bundle(i.candidate.value, i.run.value, i.snapshot.value)} else {}
  }

  function ReferencesOf(ms: set<Mention>): References {
    References(
      (set m, d | m in ms && !m.failure && d in Named(m.ident.candidate) :: d)
      + (set m, d | m in ms && d in Named(m.ident.expected) :: d),
      set m, r | m in ms && !m.failure && r in Named(m.ident.run) :: r,
      set m, x | m in ms && !m.failure && x in Named(m.ident.snapshot) :: x,
      set m, d | m in ms && m.failure && d in Named(m.ident.candidate) :: d,
      set m, r | m in ms && m.failure && r in Named(m.ident.run) :: r,
      set m, x | m in ms && m.failure && x in Named(m.ident.snapshot) :: x,
      set m, b | m in ms && b in BundleOf(m.ident) :: b)
  }

  /** A request whose result is not final. */
  predicate Pending(results: map<Key, Result>, key: Key) {
    key in results ==> results[key].Ready? || (results[key].Failure? && results[key].retryable)
  }

  /** A request is settled by a final result, and by nothing else. */
  lemma PendingMeans(results: map<Key, Result>, key: Key)
    ensures !Pending(results, key) <==>
              key in results && !results[key].Ready? && !(results[key].Failure? && results[key].retryable)
  {
  }

  function ResultMentions(r: Result): set<Mention> {
    match r
    case Ready(i) => {Mention(i, false)}
    case Failure(true, i) => {Mention(i, false)}
    case Failure(false, i) => if i.candidate.Some? then {Mention(i, true)} else {}
    case _ => {}
  }

  function QueuedMentions(results: map<Key, Result>, key: Key, q: Queued): set<Mention> {
    if q.Queued? && Pending(results, key) then {Mention(q.ident, false)} else {}
  }

  /** What the given ones of a namespace's files mention. */
  function MentionsAt(results: map<Key, Result>, queued: map<Key, Queued>, keys: set<Key>): set<Mention> {
    set k, m | k in keys && k in queued && m in QueuedMentions(results, k, queued[k]) :: m
  }

  function PendingMentions(results: map<Key, Result>, queued: map<Key, Queued>): set<Mention> {
    MentionsAt(results, queued, queued.Keys)
  }

  function ResultMentionsAt(results: map<Key, Result>, keys: set<Key>): set<Mention> {
    set k, m | k in keys && k in results && m in ResultMentions(results[k]) :: m
  }

  function PipelineMentions(p: Pipeline): set<Mention> {
    ResultMentionsAt(p.results, p.results.Keys)
    + PendingMentions(p.results, p.incoming)
    + PendingMentions(p.results, p.commits)
    + PendingMentions(p.results, p.journals)
    + (if p.rollback.Rollback? then set i | i in p.rollback.states :: Mention(i, false) else {})
  }

  /** Where a mention comes from: a result, a pending file, or a rollback journal, and only a
      final failed result mentions for failure. */
  lemma MentionsMean(p: Pipeline, m: Mention)
    requires m in PipelineMentions(p)
    ensures || (exists k :: k in p.results && m in ResultMentions(p.results[k]))
            || (!m.failure
                && exists k :: Pending(p.results, k)
                               && (|| (k in p.incoming && p.incoming[k] == Queued(m.ident))
                                   || (k in p.commits && p.commits[k] == Queued(m.ident))
                                   || (k in p.journals && p.journals[k] == Queued(m.ident))))
            || (!m.failure && p.rollback.Rollback? && m.ident in p.rollback.states)
    ensures m.failure ==>
              exists k :: k in p.results && p.results[k] == Failure(false, m.ident) && m.ident.candidate.Some?
  {
  }

  function PipelineReferences(s: Store): References {
    ReferencesOf(PipelineMentions(s.pipeline))
  }

  // ------------------------------------------------------------------
  // What blocks a plan.
  // ------------------------------------------------------------------

  predicate RecordsClear(s: Store) {
    forall id <- s.records :: BundleOk(s, id)
  }

  predicate OwnershipClear(inv: Inventory) {
    forall a, b :: a in inv && b in inv && inv[a].runId == inv[b].runId ==> a == b
  }

  predicate NoneBad(queued: map<Key, Queued>) {
    forall k <- queued :: queued[k].Queued?
  }

  predicate PipelineClear(p: Pipeline) {
    && (forall k <- p.results :: !p.results[k].BadResult?)
    && NoneBad(p.incoming) && NoneBad(p.commits) && NoneBad(p.journals)
    && p.rollback.NoRollback?
    && !p.quarantined
  }

  function Runs(inv: Inventory): set<string> {
    set id | id in inv :: inv[id].runId
  }

  function Snapshots(inv: Inventory): set<string> {
    set id | id in inv :: inv[id].snapshotId
  }

  predicate ReferencesClear(inv: Inventory, refs: References) {
    && refs.deployments + refs.failureDeployments <= inv.Keys
    && refs.runs + refs.failureRuns <= Runs(inv)
    && (forall b <- refs.bundles | b.deployment in inv ::
          inv[b.deployment].runId == b.run && inv[b.deployment].snapshotId == b.snapshot)
  }

  predicate ActiveClear(s: Store, inv: Inventory) {
    && s.active.Active?
    && s.active.current.Some?
    && s.active.current.value in inv
    && (s.active.previous.Some? ==> s.active.previous.value in inv)
    && s.projection == Projection(s.active.current, s.active.promotedAt)
  }

  predicate OrphansClear(s: Store, inv: Inventory, refs: References, asOf: int) {
    && (forall run <- s.builds | run !in Runs(inv) ::
          s.builds[run].FailedBuild? && s.builds[run].failedAt <= asOf)
    && (forall x <- s.snapshots | x !in Snapshots(inv) :: x in refs.snapshots)
    && s.histories.Keys <= inv.Keys
    && (forall u <- s.uploads :: s.uploads[u].Upload? && s.uploads[u].seenAt <= asOf)
  }

  predicate PinsClear(s: Store, inv: Inventory) {
    forall id <- inv :: inv[id].runId in s.pins ==> s.pins[inv[id].runId] != BadPin
  }

  /** Nothing blocks the plan. */
  predicate Clear(s: Store, asOf: int) {
    var inv, refs := InventoryOf(s), PipelineReferences(s);
    && RecordsClear(s) && OwnershipClear(inv) && PipelineClear(s.pipeline) && ReferencesClear(inv, refs)
    && ActiveClear(s, inv) && OrphansClear(s, inv, refs, asOf) && PinsClear(s, inv)
  }

  // ------------------------------------------------------------------
  // Who stays.
  // ------------------------------------------------------------------

  function Live(s: Store, inv: Inventory): set<string> {
    set id | id in inv && inv[id].runId in s.pins && s.pins[inv[id].runId] == Pinned
  }

  function Unpromoted(inv: Inventory, roles: set<string>): set<string> {
    set id | id in inv && !inv[id].promoted && id !in roles
  }

  /** Deployments protected by their own ID; `roles` are the current and the previous one. */
  function Reserved(inv: Inventory, refs: References, roles: set<string>, live: set<string>): set<string> {
    roles + live + refs.deployments + refs.failureDeployments + Unpromoted(inv, roles)
  }

  function Additional(inv: Inventory, refs: References, roles: set<string>, live: set<string>, k: nat): set<string> {
    TopK(TimesOf(inv), inv.Keys - Reserved(inv, refs, roles, live), k)
  }

  /** Protected because a pipeline file names its build or its snapshot. */
  predicate Referenced(item: Item, refs: References) {
    item.runId in refs.runs + refs.failureRuns || item.snapshotId in refs.snapshots + refs.failureSnapshots
  }

  function Removable(inv: Inventory, refs: References, roles: set<string>, live: set<string>, k: nat): set<string> {
    set id | id in inv && id !in Reserved(inv, refs, roles, live)
             && id !in Additional(inv, refs, roles, live, k) && !Referenced(inv[id], refs)
  }

  function Roles(a: Active): set<string> {
    if a.Active? then Named(a.current) + Named(a.previous) else {}
  }

  function RemovableFrom(s: Store, k: nat): set<string> {
    var inv := InventoryOf(s);
    Removable(inv, PipelineReferences(s), Roles(s.active), Live(s, inv), k)
  }

  // ------------------------------------------------------------------
  // What is deleted.
  // ------------------------------------------------------------------

  datatype Target =
    | DeploymentRecord(id: string) | DeploymentHistory(id: string) | Build(run: string)
    | SnapshotCopy(id: string) | StaleBuild(run: string) | StaleUpload(name: string)

  predicate StaleRun(s: Store, inv: Inventory, refs: References, asOf: int, run: string) {
    && run in s.builds && run !in Runs(inv) && s.builds[run].FailedBuild?
    && s.builds[run].failedAt + FAILED_BUILD_RETENTION <= asOf
    && run !in refs.runs + refs.failureRuns
  }

  predicate StaleName(s: Store, asOf: int, u: string) {
    u in s.uploads && s.uploads[u].Upload? && s.uploads[u].seenAt + INCOMPLETE_UPLOAD_RETENTION <= asOf
  }

  function StaleTargets(s: Store, inv: Inventory, refs: References, asOf: int): set<Target> {
    (set run | run in s.builds && StaleRun(s, inv, refs, asOf, run) :: StaleBuild(run))
    + (set u | u in s.uploads && StaleName(s, asOf, u) :: StaleUpload(u))
  }

  function DeploymentTargets(s: Store, inv: Inventory, ids: set<string>): set<Target> {
    (set id | id in ids && id in inv :: DeploymentRecord(id))
    + (set id | id in ids && id in s.histories :: DeploymentHistory(id))
    + (set id | id in ids && id in inv :: Build(inv[id].runId))
  }

  function Owners(inv: Inventory, snapshot: string): set<string> {
    set id | id in inv && inv[id].snapshotId == snapshot
  }

  predicate Abandoned(inv: Inventory, refs: References, ids: set<string>, x: string) {
    x in Snapshots(inv) && Owners(inv, x) <= ids && x !in refs.snapshots + refs.failureSnapshots
  }

  function SnapshotTargets(inv: Inventory, refs: References, ids: set<string>): set<Target> {
    set x | x in Snapshots(inv) && Abandoned(inv, refs, ids, x) :: SnapshotCopy(x)
  }

  /** The delete targets when `ids` are removable and nothing blocks. */
  function TargetsFor(s: Store, inv: Inventory, refs: References, ids: set<string>, asOf: int): set<Target> {
    StaleTargets(s, inv, refs, asOf) + DeploymentTargets(s, inv, ids) + SnapshotTargets(inv, refs, ids)
  }

  /** The delete targets of a plan that nothing blocks. */
  function Targets(s: Store, asOf: int, k: nat): set<Target> {
    TargetsFor(s, InventoryOf(s), PipelineReferences(s), RemovableFrom(s, k), asOf)
  }

  function RecordsIn(ts: set<Target>): set<string> { set t | t in ts && t.DeploymentRecord? :: t.id }
  function HistoriesIn(ts: set<Target>): set<string> { set t | t in ts && t.DeploymentHistory? :: t.id }
  function BuildsIn(ts: set<Target>): set<string> { set t | t in ts && (t.Build? || t.StaleBuild?) :: t.run }
  function SnapshotsIn(ts: set<Target>): set<string> { set t | t in ts && t.SnapshotCopy? :: t.id }
  function UploadsIn(ts: set<Target>): set<string> { set t | t in ts && t.StaleUpload? :: t.name }

  /** The store once every target is gone. */
  function Execute(s: Store, targets: set<Target>): Store {
    s.(records := s.records - RecordsIn(targets),
       histories := s.histories - HistoriesIn(targets),
       builds := s.builds - BuildsIn(targets),
       snapshots := s.snapshots - SnapshotsIn(targets),
       uploads := s.uploads - UploadsIn(targets))
  }
}
