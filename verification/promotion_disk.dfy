/** The durable cells of the promotion store and what must hold of them
    (src/homeops_ai/build.py, the remote half of src/homeops_ai/pipeline.py).

    Every file the store reads or replaces is one cell of `Disk`.  Replacing a file
    is one atomic step; a policy ID is the SHA-256 of a policy, treated as injective,
    so a policy stands for its own ID. */
module PromotionDisk {
  import opened Wrappers
  import opened Deployment

  datatype Policy = Policy(
    homeopsVersion: string,
    sourceRevision: string,
    imageDigest: string,
    snapshotSchema: nat,
    snapshotContract: string,
    buildSchema: nat,
    buildContract: string,
    suites: seq<string>)

  function BasePolicy(p: Policy): Policy { p.(suites := []) }

  predicate MatchesPolicy(id: Identity, p: Policy) {
    && id.homeopsVersion == p.homeopsVersion
    && id.sourceRevision == p.sourceRevision
    && id.imageDigest == p.imageDigest
    && id.snapshotSchema == p.snapshotSchema
    && id.snapshotContract == p.snapshotContract
    && id.buildSchema == p.buildSchema
    && id.buildContract == p.buildContract
  }

  /** The fields a candidate-ready result carries into every later result. */
  datatype Candidate = Candidate(
    id: Identity,
    expected: Option<Identity>,
    releasePolicy: Policy,
    promotionPolicy: Policy)

  datatype Outcome =
    | PromotedOutcome | UnchangedOutcome | PromotionConflict | BuildFailed
    | EvaluationFailed | RemoteSnapshotInvalid | PostPromotionMismatch

  datatype Result =
    | Ready(candidate: Candidate)
    | Final(outcome: Outcome, retryable: bool, origin: Option<Candidate>, promotedAt: Option<Time>)

  datatype Marker = Marker(requestId: string, candidate: Identity, expected: Option<Identity>, archive: string)
  datatype Receipt = Receipt(archive: string, expected: Option<Identity>, releasePolicy: Policy)
  datatype Evaluation = Evaluation(passed: bool, policy: Policy)
  datatype CommitJournal = Applying(candidate: Identity, expected: Option<Identity>, policy: Policy)
  datatype RollbackJournal = RollbackJournal(source: State, target: State, startedAt: Time)

  /** The cells no rollback touches. */
  datatype Queue = Queue(
    commitJournals: map<string, CommitJournal>,
    deployments: map<Identity, Record>,
    builds: set<string>,
    evaluations: map<string, Evaluation>,
    results: map<string, Result>,
    receipts: map<string, Receipt>,
    markers: map<string, Marker>)

  datatype Disk = Disk(
    active: State,
    rollback: Option<RollbackJournal>,
    history: map<(Identity, Time), Record>,
    projection: Projection,
    queue: Queue)

  // ------------------------------------------------------------------
  // What a commit checks before it looks at its journal.
  // ------------------------------------------------------------------

  datatype Check =
    | Proceed(candidate: Record)
    | Reject            // PipelineError PROMOTION_CONFLICT
    | Missing           // an unreadable file: the error leaves process_remote

  predicate MarkerMatches(m: Marker, request: string, c: Candidate, archive: string) {
    && m.requestId == request
    && m.candidate == c.id
    && m.expected == c.expected
    && m.archive == archive
  }

  function CheckCommit(q: Queue, request: string, policy: Policy): Check
    requires request in q.markers && request in q.results && q.results[request].Ready?
  {
    var c := q.results[request].candidate;
    if request !in q.receipts then Missing
    else if !MarkerMatches(q.markers[request], request, c, q.receipts[request].archive) then Reject
    else if c.releasePolicy != BasePolicy(policy) || c.promotionPolicy != policy then Reject
    else if c.id !in q.deployments then Missing
    else if !MatchesPolicy(c.id, policy) then Reject
    else if c.id.runId !in q.evaluations then Missing
    else
      var e := q.evaluations[c.id.runId];
      if !e.passed || e.policy != policy then Reject else Proceed(q.deployments[c.id])
  }

  // ------------------------------------------------------------------
  // The invariant of every run.
  // ------------------------------------------------------------------

  type Deployments = map<Identity, Record>

  /** `r` is a stored deployment, up to its promotion time. */
  predicate Known(deployments: Deployments, r: Record) {
    r.id in deployments && r == deployments[r.id].(promotedAt := r.promotedAt)
  }

  predicate StateKnown(deployments: Deployments, s: State) {
    && ValidState(s)
    && DistinctIds(s)
    && (s.currentDeployment.Some? ==>
          Known(deployments, s.currentDeployment.value) && s.currentDeployment.value.promotedAt.Some?)
    && (s.previousDeployment.Some? ==> Known(deployments, s.previousDeployment.value))
  }

  predicate DeploymentsOk(deployments: Deployments, builds: set<string>) {
    forall id <- deployments ::
      deployments[id].id == id && deployments[id].promotedAt == None && id.runId in builds
  }

  predicate HistoryOk(history: map<(Identity, Time), Record>, deployments: Deployments) {
    forall k <- history ::
      k.0 in deployments && history[k] == deployments[k.0].(promotedAt := Some(k.1))
  }

  predicate ReadyOk(q: Queue) {
    forall r <- q.results | q.results[r].Ready? ::
      && q.results[r].candidate.id in q.deployments
      && q.results[r].candidate.id.runId in q.evaluations
      && r in q.receipts
  }

  predicate QueueOk(q: Queue) {
    && DeploymentsOk(q.deployments, q.builds)
    && q.evaluations.Keys <= q.builds
    && q.commitJournals.Keys <= q.markers.Keys
    && ReadyOk(q)
  }

  /** Each commit request has moved active.json at most once, and only after its
      journal became durable. */
  ghost predicate CommitsJournaled(journals: map<string, CommitJournal>, log: Log) {
    forall r :: Commits(log, r) <= if r in journals then 1 else 0
  }

  /** Each rollback journal ever started has moved active.json at most once. */
  ghost predicate MovesNumbered(log: Log, started: nat) {
    forall k: nat :: Moves(log, k) <= if k < started then 1 else 0
  }

  /** While a rollback journal exists, active.json is its source, not yet moved, or
      its target. */
  ghost predicate RollbackInv(active: State, rollback: Option<RollbackJournal>, deployments: Deployments,
                              log: Log, started: nat)
  {
    rollback.Some? ==>
      var j := rollback.value;
      && started > 0
      && StateKnown(deployments, j.source)
      && RollbackTransition(j.source, j.startedAt) == Some(j.target)
      && (active == j.target || (active == j.source && Moves(log, started - 1) == 0))
  }

  /** The whole invariant, kept as one fact: `== true` stops the verifier from
      unfolding it into its conjuncts wherever it is passed on. */
  ghost predicate Inv(genesis: State, d: Disk, log: Log, started: nat) {
    InvParts(genesis, d, log, started) == true
  }

  ghost predicate InvParts(genesis: State, d: Disk, log: Log, started: nat) {
    && Replay(genesis, log) == Some(d.active)
    && StateKnown(d.queue.deployments, d.active)
    && QueueOk(d.queue)
    && HistoryOk(d.history, d.queue.deployments)
    && CommitsJournaled(d.queue.commitJournals, log)
    && MovesNumbered(log, started)
    && RollbackInv(d.active, d.rollback, d.queue.deployments, log, started)
  }

  // ------------------------------------------------------------------
  // Bookkeeping that recovery must finish.
  // ------------------------------------------------------------------

  predicate Recorded(d: Disk, r: Record) {
    r.promotedAt.Some? && (r.id, r.promotedAt.value) in d.history && d.history[(r.id, r.promotedAt.value)] == r
  }

  predicate CurrentRecorded(d: Disk) {
    d.active.currentDeployment.Some? ==> Recorded(d, d.active.currentDeployment.value)
  }

  /** No unfinished work: the end state recovery promises. */
  predicate Settled(d: Disk) {
    && d.rollback.None?
    && CurrentRecorded(d)
    && d.projection == CurrentProjection(d.active)
  }

  predicate JournalMatches(j: CommitJournal, c: Candidate, policy: Policy) {
    j.candidate == c.id && j.expected == c.expected && j.policy == BasePolicy(policy)
  }

  /** An interrupted commit that a later pass under `policy` will take up again. */
  predicate Interrupted(q: Queue, r: string, policy: Policy) {
    && r in q.markers
    && r in q.results
    && q.results[r].Ready?
    && r in q.commitJournals
    && JournalMatches(q.commitJournals[r], q.results[r].candidate, policy)
    && CheckCommit(q, r, policy).Proceed?
  }

  predicate Unfinished(d: Disk, r: string, policy: Policy) {
    Interrupted(d.queue, r, policy) && Selects(d.active, d.queue.results[r].candidate.id)
  }

  /** Recovery has all it needs, not counting the commits in `done`. */
  ghost predicate RecoverableBut(d: Disk, policy: Policy, done: set<string>) {
    || d.rollback.Some?
    || CurrentRecorded(d)
    || exists r :: r !in done && Unfinished(d, r, policy)
  }

  ghost predicate Recoverable(d: Disk, policy: Policy) {
    RecoverableBut(d, policy, {})
  }

  /** Nothing recovery looks at in the selection cells changed. */
  predicate Unmoved(o: Disk, d: Disk) {
    d.active == o.active && d.rollback == o.rollback && d.history == o.history
  }

  /** Every way a step may leave the selection cells without needing recovery. */
  predicate Safe(o: Disk, d: Disk) {
    Unmoved(o, d) || d.rollback.Some? || CurrentRecorded(d)
  }

  /** Only `request` was journaled. */
  predicate OnlyJournaled(o: Queue, d: Queue, request: string) {
    || d == o
    || (&& request !in o.commitJournals && request in d.commitJournals
        && d == o.(commitJournals := o.commitJournals[request := d.commitJournals[request]]))
  }

  lemma SafeKeepsRecoverable(o: Disk, d: Disk, policy: Policy, done: set<string>, request: string)
    requires RecoverableBut(o, policy, done) && Safe(o, d)
    requires OnlyJournaled(o.queue, d.queue, request)
    ensures RecoverableBut(d, policy, done)
    ensures !Unfinished(o, request, policy) ==> RecoverableBut(d, policy, done + {request})
  {
    if d.rollback.None? && !CurrentRecorded(d) {
      var r :| r !in done && Unfinished(o, r, policy);
      assert Unfinished(d, r, policy);
    }
  }

  // ------------------------------------------------------------------
  // Each durable write keeps the invariant.
  // ------------------------------------------------------------------

  /** `d` is `o` after none, one or both of the selected record's bookkeeping writes. */
  ghost predicate Bookkept(o: Disk, d: Disk) {
    && d.active == o.active && d.rollback == o.rollback && d.queue == o.queue
    && (d.projection == o.projection || d.projection == CurrentProjection(o.active))
    && (d.history == o.history
        || (&& o.active.currentDeployment.Some?
            && var r := o.active.currentDeployment.value;
               && r.promotedAt.Some?
               && (r.id, r.promotedAt.value) !in o.history
               && d.history == o.history[(r.id, r.promotedAt.value) := r]))
  }

  /** What rollbacks and their recovery may change on disk. */
  ghost predicate RollbackEffect(o: Disk, d: Disk) {
    d.queue == o.queue && o.history.Keys <= d.history.Keys
  }

  lemma BookkeepingKeepsInv(genesis: State, o: Disk, d: Disk, log: Log, started: nat)
    requires Inv(genesis, o, log, started) && Bookkept(o, d)
    ensures Inv(genesis, d, log, started)
  {
  }

  /** The one write of a rollback that moves active.json. */
  lemma MoveKeepsInv(genesis: State, o: Disk, log: Log, started: nat)
    requires Inv(genesis, o, log, started) && o.rollback.Some? && o.active == o.rollback.value.source
    requires o.active != o.rollback.value.target
    ensures Inv(genesis, o.(active := o.rollback.value.target),
                After(log, RolledBack(started - 1, o.rollback.value.startedAt)), started)
  {
    var next := After(log, RolledBack(started - 1, o.rollback.value.startedAt));
    forall k: nat ensures Moves(next, k) <= if k < started then 1 else 0 {
      assert Moves(next, k) == Moves(log, k) + if k == started - 1 then 1 else 0;
    }
    assert InvParts(genesis, o.(active := o.rollback.value.target), next, started);
  }

  lemma RollbackTargetDiffers(s: State, at: Time)
    requires DistinctIds(s) && RollbackTransition(s, at).Some?
    ensures RollbackTransition(s, at).value != s
    ensures !(exists id :: Selects(s, id) && Selects(RollbackTransition(s, at).value, id))
  {
  }

  /** The one write of a commit that moves active.json. */
  lemma SelectKeepsInv(genesis: State, o: Disk, log: Log, started: nat,
                       request: string, candidate: Record, expected: Option<Identity>, at: Time)
    requires Inv(genesis, o, log, started) && o.rollback.None?
    requires request in o.queue.commitJournals && Commits(log, request) == 0
    requires candidate.id in o.queue.deployments && o.queue.deployments[candidate.id] == candidate
    requires SelectDeployment(o.active, candidate, expected, at).Promoted?
    ensures Inv(genesis, o.(active := SelectDeployment(o.active, candidate, expected, at).state),
                After(log, Committed(request, candidate, expected, at)), started)
  {
    assert InvParts(genesis, o.(active := SelectDeployment(o.active, candidate, expected, at).state),
                    After(log, Committed(request, candidate, expected, at)), started);
  }

  lemma ProjectionKeepsInv(genesis: State, o: Disk, log: Log, started: nat, p: Projection)
    requires Inv(genesis, o, log, started)
    ensures Inv(genesis, o.(projection := p), log, started)
  {
    assert InvParts(genesis, o.(projection := p), log, started);
  }

  // ------------------------------------------------------------------
  // What a pass adds to the queue.
  // ------------------------------------------------------------------

  predicate Extends<K, V(==)>(o: map<K, V>, d: map<K, V>) {
    forall k <- o :: k in d && d[k] == o[k]
  }

  /** Results the processor may still replace by queueing the request again. */
  predicate Requeued(r: Result) {
    r.Final? && r.retryable && r.outcome in {BuildFailed, EvaluationFailed}
  }

  /** New builds, deployments and evaluations only. */
  predicate OnlyBuilt(o: Queue, d: Queue) {
    && d == Queue(o.commitJournals, d.deployments, d.builds, d.evaluations, o.results, o.receipts, o.markers)
    && Extends(o.deployments, d.deployments)
    && o.builds <= d.builds
    && Extends(o.evaluations, d.evaluations)
  }

  /** One result replaced or added; a ready one has all its files. */
  predicate ResultOk(q: Queue, request: string, result: Result) {
    result.Ready? ==>
      && result.candidate.id in q.deployments
      && result.candidate.id.runId in q.evaluations
      && request in q.receipts
  }

  /** The candidate passes every release check of a commit under `policy`. */
  predicate Promotable(q: Queue, c: Candidate, policy: Policy) {
    && c.releasePolicy == BasePolicy(policy)
    && c.promotionPolicy == policy
    && c.id in q.deployments
    && MatchesPolicy(c.id, policy)
    && c.id.runId in q.evaluations
    && q.evaluations[c.id.runId].passed
    && q.evaluations[c.id.runId].policy == policy
  }

  /** A commit of `request` under `policy` gets as far as its journal exactly when its
      marker repeats the ready result and the candidate passes every release check. */
  lemma CommitChecks(q: Queue, request: string, policy: Policy)
    requires QueueOk(q) && request in q.markers && request in q.results && q.results[request].Ready?
    ensures CheckCommit(q, request, policy) !=  Missing
    ensures var c := q.results[request].candidate;
            CheckCommit(q, request, policy) == Proceed(q.deployments[c.id]) <==>
              && Promotable(q, c, policy)
              && q.markers[request] == Marker(request, c.id, c.expected, q.receipts[request].archive)
  {
    var m := q.markers[request];
    assert m == Marker(m.requestId, m.candidate, m.expected, m.archive);
  }

  /** A candidate is promotable exactly if request and result name this policy, field by field
      the build was made under it, and its evaluation passed under it. */
  lemma PromotableMeans(q: Queue, c: Candidate, policy: Policy)
    ensures Promotable(q, c, policy) <==>
              && c.promotionPolicy == policy && c.releasePolicy == policy.(suites := [])
              && c.id in q.deployments
              && c.id.homeopsVersion == policy.homeopsVersion && c.id.sourceRevision == policy.sourceRevision
              && c.id.imageDigest == policy.imageDigest
              && c.id.snapshotSchema == policy.snapshotSchema && c.id.snapshotContract == policy.snapshotContract
              && c.id.buildSchema == policy.buildSchema && c.id.buildContract == policy.buildContract
              && c.id.runId in q.evaluations && q.evaluations[c.id.runId] == Evaluation(true, policy)
  {
    if c.id.runId in q.evaluations {
      var e := q.evaluations[c.id.runId];
      assert e == Evaluation(e.passed, e.policy);
    }
  }

  lemma BuildsKeepInv(genesis: State, o: Disk, q: Queue, log: Log, started: nat)
    requires Inv(genesis, o, log, started) && OnlyBuilt(o.queue, q) && QueueOk(q)
    ensures Inv(genesis, o.(queue := q), log, started)
  {
    assert InvParts(genesis, o.(queue := q), log, started);
  }

  /** A new build directory. */
  lemma DirectoryKeepsInv(genesis: State, o: Disk, run: string, log: Log, started: nat)
    requires Inv(genesis, o, log, started)
    ensures var q := o.queue.(builds := o.queue.builds + {run});
            OnlyBuilt(o.queue, q) && Inv(genesis, o.(queue := q), log, started)
  {
    BuildsKeepInv(genesis, o, o.queue.(builds := o.queue.builds + {run}), log, started);
  }

  /** A new deployment record of a build that exists. */
  lemma RecordKeepsInv(genesis: State, o: Disk, record: Record, log: Log, started: nat)
    requires Inv(genesis, o, log, started) && record.promotedAt == None
    requires record.id.runId in o.queue.builds && record.id !in o.queue.deployments
    ensures var q := o.queue.(deployments := o.queue.deployments[record.id := record]);
            OnlyBuilt(o.queue, q) && Inv(genesis, o.(queue := q), log, started)
  {
    BuildsKeepInv(genesis, o, o.queue.(deployments := o.queue.deployments[record.id := record]), log, started);
  }

  lemma ResultKeepsInv(genesis: State, o: Disk, request: string, result: Result, log: Log, started: nat)
    requires Inv(genesis, o, log, started) && ResultOk(o.queue, request, result)
    ensures Inv(genesis, o.(queue := o.queue.(results := o.queue.results[request := result])), log, started)
  {
    assert InvParts(genesis, o.(queue := o.queue.(results := o.queue.results[request := result])), log, started);
  }

  lemma BuildsKeepRecoverable(o: Disk, d: Disk, policy: Policy, done: set<string>)
    requires RecoverableBut(o, policy, done) && Safe(o, d) && OnlyBuilt(o.queue, d.queue)
    ensures RecoverableBut(d, policy, done)
  {
    if d.rollback.None? && !CurrentRecorded(d) {
      var r :| r !in done && Unfinished(o, r, policy);
      assert Unfinished(d, r, policy);
    }
  }

  lemma ResultKeepsRecoverable(o: Disk, request: string, result: Result, policy: Policy, done: set<string>)
    requires RecoverableBut(o, policy, done)
    requires request in done || !Unfinished(o, request, policy)
    ensures RecoverableBut(o.(queue := o.queue.(results := o.queue.results[request := result])), policy, done)
  {
    var d := o.(queue := o.queue.(results := o.queue.results[request := result]));
    if d.rollback.None? && !CurrentRecorded(d) {
      var r :| r !in done && Unfinished(o, r, policy);
      assert Unfinished(d, r, policy);
    }
  }

  lemma ConcludedIsRecoverable(d: Disk, policy: Policy, done: set<string>, request: string)
    requires RecoverableBut(d, policy, done)
    requires !Unfinished(d, request, policy) || CurrentRecorded(d)
    ensures RecoverableBut(d, policy, done + {request})
  {
    if d.rollback.None? && !CurrentRecorded(d) {
      var r :| r !in done && Unfinished(d, r, policy);
    }
  }

  // ------------------------------------------------------------------
  // What no pass ever undoes.
  // ------------------------------------------------------------------

  /** The request has a result for good. */
  predicate Ended(q: Queue, r: string) {
    r in q.results && q.results[r].Final? && !q.results[r].retryable
  }

  /** Journals, builds, deployments and evaluations stay as they are, a terminal result
      is never rewritten, a candidate stays on offer until it has one, and no request
      journaled at the start commits again. */
  ghost predicate PassKeeps(o: Queue, before: Log, d: Queue, after: Log) {
    && d.markers == o.markers && d.receipts == o.receipts
    && Extends(o.commitJournals, d.commitJournals)
    && Extends(o.deployments, d.deployments)
    && Extends(o.evaluations, d.evaluations)
    && o.builds <= d.builds
    && (forall r <- o.results ::
          && r in d.results
          && (&& o.results[r].Final?
              && !(o.results[r].retryable
                    && (o.results[r].outcome.BuildFailed? || o.results[r].outcome.EvaluationFailed?))
              ==> d.results[r] == o.results[r])
          && (o.results[r].Ready? ==> d.results[r] == o.results[r] || Ended(d, r)))
    && (forall r <- o.commitJournals :: Commits(after, r) == Commits(before, r))
  }

  lemma PassesCompose(a: Queue, al: Log, b: Queue, bl: Log, c: Queue, cl: Log)
    requires PassKeeps(a, al, b, bl) && PassKeeps(b, bl, c, cl)
    ensures PassKeeps(a, al, c, cl)
  {
  }

  lemma RollbacksArePassSteps(o: Queue, before: Log, d: Queue, after: Log)
    requires OnlyBuilt(o, d) && OnlyRollbacks(before, after)
    ensures PassKeeps(o, before, d, after)
  {
    RollbacksKeepCommits(before, after);
  }

  lemma CommitKeeps(o: Queue, before: Log, d: Queue, after: Log, request: string)
    requires OnlyJournaled(o, d, request) && OnlyCommit(before, after, request)
    requires request in o.commitJournals ==> OnlyRollbacks(before, after)
    ensures PassKeeps(o, before, d, after)
  {
    OtherCommitsKept(before, after, request);
    if request in o.commitJournals { RollbacksKeepCommits(before, after); }
  }

  lemma ResultIsPassStep(o: Queue, request: string, result: Result, log: Log)
    requires request in o.results ==> o.results[request].Ready? || Requeued(o.results[request])
    requires request in o.results && o.results[request].Ready? ==> result.Final? && !result.retryable
    ensures PassKeeps(o, log, o.(results := o.results[request := result]), log)
  {
  }

  predicate ReportsPromotion(r: Result) {
    r.Final? && r.outcome == PromotedOutcome
  }

  /** What this result reports as promoted is in the promotion history. */
  predicate InHistory(d: Disk, r: Result) {
    r.Final? && r.origin.Some? && r.promotedAt.Some? && (r.origin.value.id, r.promotedAt.value) in d.history
  }

  /** The promotion history only grew, and every new result that reports a promotion names a
      record in it. */
  ghost predicate Honest(o: Disk, d: Disk) {
    && o.history.Keys <= d.history.Keys
    && forall r <- d.queue.results | ReportsPromotion(d.queue.results[r]) ::
         (r in o.queue.results && o.queue.results[r] == d.queue.results[r]) || InHistory(d, d.queue.results[r])
  }

  lemma HonestComposes(a: Disk, b: Disk, c: Disk)
    requires Honest(a, b) == true && Honest(b, c) == true
    ensures Honest(a, c) == true
  {
  }

  /** What a pass keeps, and what it may report. */
  ghost predicate PassEffect(o: Disk, before: Log, d: Disk, after: Log) {
    PassKeeps(o.queue, before, d.queue, after) && Honest(o, d)
  }

  lemma EffectsCompose(a: Disk, al: Log, b: Disk, bl: Log, c: Disk, cl: Log)
    requires PassEffect(a, al, b, bl) == true && PassEffect(b, bl, c, cl) == true
    ensures PassEffect(a, al, c, cl) == true
  {
    PassesCompose(a.queue, al, b.queue, bl, c.queue, cl);
    HonestComposes(a, b, c);
  }

  lemma CommitIsPassStep(o: Disk, before: Log, d: Disk, after: Log, request: string)
    requires OnlyJournaled(o.queue, d.queue, request) && OnlyCommit(before, after, request)
    requires request in o.queue.commitJournals ==> OnlyRollbacks(before, after)
    requires o.history.Keys <= d.history.Keys
    ensures PassEffect(o, before, d, after) == true
  {
    CommitKeeps(o.queue, before, d.queue, after, request);
  }

  /** One step of a pass: it keeps what passes keep, and recovery still has all it
      needs, where `done` are the commits concluded before and `now` after it. */
  ghost predicate PassStep(o: Disk, before: Log, d: Disk, after: Log,
                           policy: Policy, done: set<string>, now: set<string>)
  {
    && PassEffect(o, before, d, after)
    && (RecoverableBut(o, policy, done) ==> RecoverableBut(d, policy, now))
  }

  lemma StepsCompose(a: Disk, al: Log, b: Disk, bl: Log, c: Disk, cl: Log,
                     policy: Policy, x: set<string>, y: set<string>, z: set<string>)
    requires PassStep(a, al, b, bl, policy, x, y) == true && PassStep(b, bl, c, cl, policy, y, z) == true
    ensures PassStep(a, al, c, cl, policy, x, z) == true
  {
    EffectsCompose(a, al, b, bl, c, cl);
  }

  lemma BuildsArePassStep(o: Disk, before: Log, d: Disk, after: Log, policy: Policy, done: set<string>)
    requires OnlyBuilt(o.queue, d.queue) && Safe(o, d) && OnlyRollbacks(before, after)
    requires o.history.Keys <= d.history.Keys
    ensures PassStep(o, before, d, after, policy, done, done) == true
  {
    RollbacksArePassSteps(o.queue, before, d.queue, after);
    if RecoverableBut(o, policy, done) { BuildsKeepRecoverable(o, d, policy, done); }
  }

  lemma ResultIsStep(o: Disk, request: string, result: Result, log: Log, policy: Policy, done: set<string>)
    requires request in o.queue.results ==>
               Requeued(o.queue.results[request]) || (o.queue.results[request].Ready? && request in done)
    requires ReportsPromotion(result) ==> InHistory(o, result)
    requires request in o.queue.results && o.queue.results[request].Ready? ==> result.Final? && !result.retryable
    ensures PassStep(o, log, o.(queue := o.queue.(results := o.queue.results[request := result])), log,
                     policy, done, done)
  {
    ResultIsPassStep(o.queue, request, result, log);
    if RecoverableBut(o, policy, done) { ResultKeepsRecoverable(o, request, result, policy, done); }
  }

  /** An interrupted commit is taken up again under its own release policy and under no
      other: any other policy is refused before the journal is looked at. */
  lemma OnlySamePolicyResumes(q: Queue, r: string, p: Policy, other: Policy)
    requires Interrupted(q, r, p)
    ensures Interrupted(q, r, other) <==> other == p
    ensures other != p ==> CheckCommit(q, r, other) == Reject
  {
  }

  // ------------------------------------------------------------------
  // Commits that are refused for good.
  // ------------------------------------------------------------------

  /** The commit loop takes this request up. */
  predicate Committable(q: Queue, r: string) {
    r in q.markers && r in q.results && q.results[r].Ready?
  }

  /** Every listed commit fails a check before its journal is looked at. */
  predicate AllRefused(q: Queue, policy: Policy, requests: seq<string>) {
    forall r <- requests | Committable(q, r) :: CheckCommit(q, r, policy).Reject?
  }

  function Conflicted(q: Queue, r: string): Result
    requires Committable(q, r)
  {
    Final(PromotionConflict, false, Some(q.results[r].candidate), None)
  }

  function Answered(d: Disk, r: string, result: Result): Disk {
    d.(queue := d.queue.(results := d.queue.results[r := result]))
  }

  /** Candidates that await their commit are as they were, but for those named. */
  ghost predicate ReadyKept(o: Queue, d: Queue, but: set<string>) {
    forall r <- o.results | o.results[r].Ready? && r !in but :: r in d.results && d.results[r] == o.results[r]
  }

  lemma ReadyKeptComposes(a: Queue, b: Queue, c: Queue, x: set<string>, y: set<string>)
    requires ReadyKept(a, b, x) == true && ReadyKept(b, c, y) == true
    ensures ReadyKept(a, c, x + y) == true
  {
  }

  lemma BuiltKeepsReady(o: Queue, d: Queue)
    requires OnlyBuilt(o, d)
    ensures ReadyKept(o, d, {})
  {
  }

  lemma JournaledKeepsReady(o: Queue, d: Queue, request: string)
    requires OnlyJournaled(o, d, request)
    ensures ReadyKept(o, d, {})
  {
  }

  lemma AnsweredKeepsReady(o: Disk, d: Disk, request: string, result: Result)
    requires d.queue == o.queue || d.queue == Answered(o, request, result).queue
    ensures ReadyKept(o.queue, d.queue, {request})
    ensures (request in o.queue.results ==> !o.queue.results[request].Ready?) ==> ReadyKept(o.queue, d.queue, {})
  {
  }

  /** The commit ended as a terminal conflict. */
  predicate EndedInConflict(o: Queue, d: Queue, r: string)
    requires Committable(o, r)
  {
    r in d.results && d.results[r] == Conflicted(o, r)
  }

  /** The listed commits that fail a check at the start are terminal conflicts. */
  ghost predicate RefusedEnded(o: Queue, d: Queue, policy: Policy, requests: seq<string>) {
    forall r <- requests | Committable(o, r) && CheckCommit(o, r, policy).Reject? :: EndedInConflict(o, d, r)
  }

  /** What else a pass does cannot make a refused commit acceptable. */
  lemma RefusalStays(o: Queue, before: Log, d: Queue, after: Log, but: set<string>, r: string, policy: Policy)
    requires PassKeeps(o, before, d, after) && ReadyKept(o, d, but) && r !in but
    requires Committable(o, r) && CheckCommit(o, r, policy).Reject?
    ensures Committable(d, r) && CheckCommit(d, r, policy).Reject? && Conflicted(d, r) == Conflicted(o, r)
  {
    assert d.results[r] == o.results[r];
  }

  /** A terminal conflict stays one. */
  lemma ConflictStays(o: Queue, m: Queue, before: Log, d: Queue, after: Log, r: string)
    requires Committable(o, r) && EndedInConflict(o, m, r) && PassKeeps(m, before, d, after)
    ensures EndedInConflict(o, d, r)
  {
    assert r in m.results;
  }

  /** Commits refused at the start are still refused when the commit loop begins. */
  lemma RefusedFromStart(o: Queue, before: Log, m: Queue, middle: Log, d: Queue, policy: Policy, requests: seq<string>)
    requires PassKeeps(o, before, m, middle) && ReadyKept(o, m, {}) && RefusedEnded(m, d, policy, requests)
    ensures RefusedEnded(o, d, policy, requests)
  {
    forall r <- requests | Committable(o, r) && CheckCommit(o, r, policy).Reject? ensures EndedInConflict(o, d, r) {
      RefusalStays(o, before, m, middle, {}, r, policy);
    }
  }

  /** One more marker of the commit loop, from `m` to `d`. */
  lemma OneMoreEnded(o: Queue, first: Log, m: Queue, before: Log, d: Queue, after: Log, policy: Policy,
                     requests: seq<string>, i: nat, done: set<string>)
    requires i < |requests| && requests[i] !in done
    requires PassKeeps(o, first, m, before) && PassKeeps(m, before, d, after)
    requires ReadyKept(o, m, done) && RefusedEnded(o, m, policy, requests[..i])
    requires Committable(m, requests[i]) && CheckCommit(m, requests[i], policy).Reject? ==>
               EndedInConflict(m, d, requests[i])
    ensures RefusedEnded(o, d, policy, requests[..i + 1])
  {
    forall r <- requests[..i + 1] | Committable(o, r) && CheckCommit(o, r, policy).Reject?
      ensures EndedInConflict(o, d, r)
    {
      if r in requests[..i] {
        ConflictStays(o, m, before, d, after, r);
      } else {
        assert r == requests[i];
        RefusalStays(o, first, m, before, done, r, policy);
      }
    }
  }

  /** From `o` to `d` the listed commits became terminal conflicts; besides that at most the
      projection changed. */
  ghost predicate RefusedInto(o: Disk, d: Disk, requests: seq<string>) {
    && Unmoved(o, d)
    && d.queue == o.queue.(results := d.queue.results)
    && d.queue.results.Keys == o.queue.results.Keys
    && forall r <- o.queue.results ::
         d.queue.results[r] == if r in requests && Committable(o.queue, r) then Conflicted(o.queue, r)
                               else o.queue.results[r]
  }

  /** Of the listed commits those that could be taken up at `o` have ended. */
  ghost predicate AllEnded(o: Queue, d: Queue, requests: seq<string>) {
    forall r <- requests | Committable(o, r) :: Ended(d, r)
  }

  lemma OneMoreCommitEnded(o: Queue, first: Log, m: Queue, before: Log, d: Queue, after: Log,
                           requests: seq<string>, i: nat, done: set<string>)
    requires i < |requests| && requests[i] !in done
    requires PassKeeps(o, first, m, before) && PassKeeps(m, before, d, after) && ReadyKept(o, m, done)
    requires AllEnded(o, m, requests[..i]) && (Committable(m, requests[i]) ==> Ended(d, requests[i]))
    ensures AllEnded(o, d, requests[..i + 1]) == true
  {
    assert requests[..i + 1] == requests[..i] + [requests[i]];
  }

  /** What was on offer when the pass began still was when its commit loop began. */
  lemma EndedFromStart(o: Queue, before: Log, m: Queue, middle: Log, d: Queue, requests: seq<string>)
    requires PassKeeps(o, before, m, middle) && ReadyKept(o, m, {}) && AllEnded(m, d, requests)
    ensures AllEnded(o, d, requests) == true
  {
    forall r <- requests | Committable(o, r) ensures Ended(d, r) { assert m.results[r] == o.results[r]; }
  }

  lemma EndedStays(o: Queue, m: Queue, before: Log, d: Queue, after: Log, requests: seq<string>)
    requires AllEnded(o, m, requests) && PassKeeps(m, before, d, after)
    ensures AllEnded(o, d, requests) == true
  {
  }

  lemma OneMoreRefused(o: Disk, d: Disk, requests: seq<string>, i: nat)
    requires i < |requests| && requests[i] !in requests[..i] && RefusedInto(o, d, requests[..i])
    ensures Committable(d.queue, requests[i]) <==> Committable(o.queue, requests[i])
    ensures forall p :: Committable(o.queue, requests[i]) ==>
              CheckCommit(d.queue, requests[i], p) == CheckCommit(o.queue, requests[i], p)
    ensures !Committable(o.queue, requests[i]) ==> RefusedInto(o, d, requests[..i + 1])
    ensures Committable(o.queue, requests[i]) ==>
              RefusedInto(o, Answered(d, requests[i], Conflicted(o.queue, requests[i])), requests[..i + 1])
  {
    assert requests[..i + 1] == requests[..i] + [requests[i]];
  }

  /** Once every commit is refused, no release policy can take one up again: a selection
      that is not in history stays out of it. */
  lemma RefusedIsLost(o: Disk, d: Disk, requests: seq<string>)
    requires RefusedInto(o, d, requests) && forall r <- o.queue.markers :: r in requests
    requires o.rollback.None? && !CurrentRecorded(o)
    ensures d.rollback.None? && !CurrentRecorded(d)
    ensures forall r <- d.queue.markers :: !Committable(d.queue, r)
    ensures forall p :: !Recoverable(d, p)
  {
    forall p ensures !Recoverable(d, p) {
      if r :| Unfinished(d, r, p) { assert false; }
    }
  }

  function BuiltUnder(p: Policy): Record {
    Record(Identity("run", "snapshot", "s", "a", "l", p.homeopsVersion, p.sourceRevision, p.imageDigest,
                    p.snapshotSchema, p.snapshotContract, p.buildSchema, p.buildContract),
           "", "", "", "", None)
  }

  const NOTHING_SELECTED := State(None, None, None, None, None)

  /** A first commit under `p` that was killed right after it had replaced active.json. */
  function KilledCommit(p: Policy): Disk {
    var record := BuiltUnder(p);
    Disk(State(Some("run"), None, Some(record.(promotedAt := Some("t"))), None, Some("t")),
         None, map[], Projection(None, None),
         Queue(map["r" := Applying(record.id, None, BasePolicy(p))], map[record.id := record], {"run"},
               map["run" := Evaluation(true, p)], map["r" := Ready(Candidate(record.id, None, BasePolicy(p), p))],
               map["r" := Receipt("archive", None, BasePolicy(p))],
               map["r" := Marker("r", record.id, None, "archive")]))
  }

  /** It can be recovered under `p`, and meets every premise under which a pass under
      another policy loses it. */
  lemma KilledCommitCanBeLost(p: Policy, other: Policy)
    requires p != other
    ensures var d := KilledCommit(p);
            && Inv(NOTHING_SELECTED, d, After(Start, Committed("r", BuiltUnder(p), None, "t")), 0)
            && Recoverable(d, p) && d.rollback.None? && !CurrentRecorded(d)
            && AllRefused(d.queue, other, ["r"]) && d.queue.markers.Keys == {"r"}
  {
    var d, log := KilledCommit(p), After(Start, Committed("r", BuiltUnder(p), None, "t"));
    assert log.log == Start && Replay(NOTHING_SELECTED, log.log) == Some(NOTHING_SELECTED);
    assert InvParts(NOTHING_SELECTED, d, log, 0) by {
      forall r ensures Commits(log, r) <= if r in d.queue.commitJournals then 1 else 0 {
        assert Commits(Start, r) == 0;
      }
      forall k: nat ensures Moves(log, k) <= 0 { assert Moves(Start, k) == 0; }
    }
    assert Unfinished(d, "r", p);
  }

  // ------------------------------------------------------------------
  // What no run ever undoes.
  // ------------------------------------------------------------------

  /** Like PassKeeps, but the receiver may also have added receipts and markers. */
  ghost predicate RunKeeps(o: Queue, before: Log, d: Queue, after: Log) {
    && Extends(o.markers, d.markers) && Extends(o.receipts, d.receipts)
    && PassKeeps(o.(markers := d.markers, receipts := d.receipts), before, d, after)
  }

  lemma RunsCompose(a: Queue, al: Log, b: Queue, bl: Log, c: Queue, cl: Log)
    requires RunKeeps(a, al, b, bl) && RunKeeps(b, bl, c, cl)
    ensures RunKeeps(a, al, c, cl)
  {
    PassesCompose(a.(markers := c.markers, receipts := c.receipts), al,
                  b.(markers := c.markers, receipts := c.receipts), bl, c, cl);
  }

  /** The receiver's write-once publication of a receipt or a marker. */
  function Arrived(q: Queue, request: string, receipt: Option<Receipt>, marker: Option<Marker>): Queue {
    q.(receipts := if receipt.Some? && request !in q.receipts then q.receipts[request := receipt.value] else q.receipts,
       markers := if marker.Some? && request !in q.markers then q.markers[request := marker.value] else q.markers)
  }

  lemma ArrivalKeepsInv(genesis: State, o: Disk, log: Log, started: nat,
                        request: string, receipt: Option<Receipt>, marker: Option<Marker>)
    requires Inv(genesis, o, log, started)
    ensures Inv(genesis, o.(queue := Arrived(o.queue, request, receipt, marker)), log, started)
    ensures RunKeeps(o.queue, log, Arrived(o.queue, request, receipt, marker), log)
  {
    assert InvParts(genesis, o.(queue := Arrived(o.queue, request, receipt, marker)), log, started);
  }

  lemma ArrivalKeepsRecoverable(o: Disk, policy: Policy,
                                request: string, receipt: Option<Receipt>, marker: Option<Marker>)
    requires QueueOk(o.queue)
    ensures Recoverable(o, policy) ==>
              Recoverable(o.(queue := Arrived(o.queue, request, receipt, marker)), policy)
  {
    var d := o.(queue := Arrived(o.queue, request, receipt, marker));
    if Recoverable(o, policy) && o.rollback.None? && !CurrentRecorded(o) {
      var r :| Unfinished(o, r, policy);
      assert Unfinished(d, r, policy);
    }
  }

  /** No record of the history is ever changed or removed. */
  lemma HistoryStays(genesis: State, o: Disk, before: Log, begun: nat, d: Disk, after: Log, started: nat)
    requires Inv(genesis, o, before, begun) && Inv(genesis, d, after, started)
    requires RunKeeps(o.queue, before, d.queue, after) && Honest(o, d)
    ensures Extends(o.history, d.history)
  {
    assert InvParts(genesis, o, before, begun) && InvParts(genesis, d, after, started);
    forall k <- o.history ensures k in d.history && d.history[k] == o.history[k] {
      assert k in o.history.Keys;
    }
  }

  /** What the invariant says of every state a run can reach. */
  ghost predicate Refines(genesis: State, d: Disk, log: Log) {
    && Replay(genesis, log) == Some(d.active)
    && (forall r :: Commits(log, r) <= 1)
    && (forall r :: Commits(log, r) == 1 ==> r in d.queue.commitJournals && r in d.queue.markers)
    && (forall k: nat :: Moves(log, k) <= 1)
    && DistinctIds(d.active)
    && (d.rollback.Some? ==> d.active == d.rollback.value.source || d.active == d.rollback.value.target)
  }

  lemma InvRefines(genesis: State, d: Disk, log: Log, started: nat)
    requires Inv(genesis, d, log, started)
    ensures Refines(genesis, d, log)
  {
    assert InvParts(genesis, d, log, started);
    forall k: nat ensures Moves(log, k) <= 1 {
      assert Moves(log, k) <= if k < started then 1 else 0;
    }
  }
}
