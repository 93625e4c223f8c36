/** The promotion store as it runs: commits, rollbacks and their recovery, with a
    fault possible at every durable write and rollbacks by another process possible
    wherever the deployment lock is not held. */
module PromotionStore {
  import opened Wrappers
  import opened Deployment
  import opened PromotionDisk

  /** What happens to one durable write: it is done, the process is killed before it,
      or the write reports an I/O error before or after taking effect.  A kill after
      a write is a kill before the next one. */
  datatype Fate = Done | Killed | FailedBefore | FailedAfter

  /** How a step of the source ends: normally, by the process dying, by an OSError,
      or by a BuildError whose message does or does not contain "changed". */
  datatype Exit = Returned | Died | OsError | BuildError(changed: bool)

  /** The verdict of re-verifying the candidate's build and snapshot. */
  datatype Verdict = Verified | Unverified(changed: bool)

  /** A rollback started by another process, with the fates of its own writes. */
  datatype RollbackCall = RollbackCall(contended: bool, verdict: Verdict, now: Time, fates: seq<Fate>)

  /** What the environment does at one point where the running process does not hold
      the deployment lock, and what the process then meets. */
  datatype Turn = Turn(rollbacks: seq<RollbackCall>, contended: bool, verdict: Verdict, now: Time)

  const CALM := Turn([], false, Verified, "now")

  /** Nobody else rolls back or holds the lock; builds may still fail to verify. */
  predicate Quiet(turns: seq<Turn>) {
    forall t <- turns :: t.rollbacks == [] && !t.contended
  }

  /** What the next locked step meets. */
  function Head(turns: seq<Turn>): Turn {
    if turns == [] then CALM else turns[0]
  }

  /** How one queued submission turns out; validating, building and evaluating it are
      outside the model.  `facts` is what the build determines of the new identity. */
  datatype Submission =
    | Invalid
    | Unbuilt
    | SameBuild(snapshotId: string)
    | Built(facts: Identity, snapshotCreatedAt: string, snapshotReceivedAt: string,
            completedAt: string, verifiedAt: string, passed: bool)

  function BuiltRecord(s: Submission, p: Policy): Record
    requires s.Built?
  {
    Record(
      s.facts.(homeopsVersion := p.homeopsVersion, sourceRevision := p.sourceRevision,
               imageDigest := p.imageDigest, snapshotSchema := p.snapshotSchema,
               snapshotContract := p.snapshotContract, buildSchema := p.buildSchema,
               buildContract := p.buildContract),
      s.snapshotCreatedAt, s.snapshotReceivedAt, s.completedAt, s.verifiedAt, None)
  }

  /** The fate of the next durable write; without further fates it is done. */
  function HeadFate(fates: seq<Fate>): Fate {
    if fates == [] then Done else fates[0]
  }

  function RestOf(fates: seq<Fate>): seq<Fate> {
    if fates == [] then [] else fates[1..]
  }

  /** The write took effect. */
  predicate Effective(f: Fate) {
    f == Done || f == FailedAfter
  }

  /** Only the next write has a fate of its own. */
  predicate Once(fates: seq<Fate>) {
    |fates| == 1
  }

  /** How a write with this fate ends. */
  function WriteExit(f: Fate): Exit {
    match f
    case Done => Returned
    case Killed => Died
    case _ => OsError
  }

  /** What a promotion whose swap has this fate comes to: one that failed after taking effect
      is completed all the same. */
  function AfterFault(f: Fate): Exit {
    match f
    case Killed => Died
    case FailedBefore => OsError
    case _ => Returned
  }

  datatype CommitExit =
    | Concluded(result: Result)
    | PipelineError(outcome: Outcome)
    | Escaped(exit: Exit)

  /** What _promote_locked refuses before it writes anything. */
  function Refusal(d: Disk, candidate: Record, expected: Option<Identity>, now: Time, verdict: Verdict): Exit {
    if d.rollback.Some? then BuildError(false)
    else if verdict.Unverified? then BuildError(verdict.changed)
    else if candidate.id.runId !in d.queue.evaluations || !d.queue.evaluations[candidate.id.runId].passed
    then BuildError(false)
    else if SelectDeployment(d.active, candidate, expected, now).Conflict? then BuildError(true)
    else Returned
  }

  function SelectedSince(s: State): Option<Time> {
    if s.currentDeployment.Some? then s.currentDeployment.value.promotedAt else None
  }

  /** How a first commit ends when nothing interferes: `o` before, `d` after, `turn` what
      promote meets. */
  function CalmCommit(o: Disk, d: Disk, candidate: Candidate, record: Record, turn: Turn): CommitExit {
    match Refusal(o, record, candidate.expected, turn.now, turn.verdict)
    case BuildError(changed) => PipelineError(if changed then PromotionConflict else BuildFailed)
    case _ =>
      Concluded(Final(if Selects(o.active, candidate.id) then UnchangedOutcome else PromotedOutcome,
                      false, Some(candidate), SelectedSince(d.active)))
  }

  function Journaled(d: Disk, request: string, journal: CommitJournal): Disk {
    d.(queue := d.queue.(commitJournals := d.queue.commitJournals[request := journal]))
  }

  lemma JournalChangesNoEnd(o: Disk, d: Disk, request: string, journal: CommitJournal, candidate: Candidate,
                            record: Record, turn: Turn)
    ensures CalmCommit(Journaled(o, request, journal), d, candidate, record, turn)
         == CalmCommit(o, d, candidate, record, turn)
  {
  }

  /** How an undisturbed first commit ends: it cannot while a rollback is pending or its build
      does not verify; it is unchanged if the candidate is selected already; and otherwise it
      is promoted if exactly what it expects is selected and it was evaluated, and a
      conflict if something else is. */
  lemma CalmCommitEnds(o: Disk, d: Disk, c: Candidate, record: Record, turn: Turn)
    requires record.id == c.id
    ensures var selected := o.active.currentDeployment.Some? && o.active.currentDeployment.value.id == c.id;
            var free := if c.expected.None? then o.active.currentDeployment.None?
                        else o.active.currentDeployment.Some?
                             && o.active.currentDeployment.value.id == c.expected.value;
            var passed := c.id.runId in o.queue.evaluations && o.queue.evaluations[c.id.runId].passed;
            match CalmCommit(o, d, c, record, turn)
            case Concluded(result) =>
              && o.rollback.None? && turn.verdict.Verified? && passed && (selected || free)
              && result.Final? && !result.retryable && result.origin == Some(c)
              && result.outcome == if selected then UnchangedOutcome else PromotedOutcome
            case PipelineError(outcome) =>
              if o.rollback.Some? then outcome == BuildFailed
              else if turn.verdict.Unverified?
              then outcome == if turn.verdict.changed then PromotionConflict else BuildFailed
              else if !passed then outcome == BuildFailed
              else !selected && !free && outcome == PromotionConflict
            case Escaped(_) => false
  {
    CommitSelects(o.active, record, c.expected, turn.now);
  }

  /** A commit that is not refused comes to what the fate of its one disturbed write leaves. */
  predicate SurvivesFault(exit: CommitExit, fates: seq<Fate>)
    requires Once(fates)
  {
    match exit
    case Concluded(result) =>
      result.Final? && result.outcome == PromotedOutcome && AfterFault(fates[0]) == Returned
    case Escaped(why) => why == AfterFault(fates[0]) && why != Returned
    case PipelineError(_) => true
  }

  /** What a concluded commit reports is what is selected and recorded. */
  predicate ConcludesCommit(d: Disk, result: Result, candidate: Candidate) {
    && Selects(d.active, candidate.id)
    && CurrentRecorded(d)
    && result.Final?
    && result.outcome in {PromotedOutcome, UnchangedOutcome}
    && !result.retryable
    && result.origin == Some(candidate)
    && result.promotedAt == SelectedSince(d.active)
  }

  /** What an undisturbed commit of a candidate that is on offer ends with.  An earlier commit
      of it, which its journal shows, counts as promoted while it is selected. */
  function CommitOutcome(o: Disk, request: string, policy: Policy, turn: Turn): Outcome
    requires request in o.queue.markers && request in o.queue.results && o.queue.results[request].Ready?
  {
    var c, current := o.queue.results[request].candidate, o.active.currentDeployment;
    if CheckCommit(o.queue, request, policy).Reject? then PromotionConflict
    else if request in o.queue.commitJournals then
      if o.queue.commitJournals[request] == Applying(c.id, c.expected, policy.(suites := []))
         && current.Some? && current.value.id == c.id
      then PromotedOutcome else PromotionConflict
    else if o.rollback.Some? then BuildFailed
    else if turn.verdict.Unverified? then if turn.verdict.changed then PromotionConflict else BuildFailed
    else if current.Some? && current.value.id == c.id then UnchangedOutcome
    else if (if current.Some? then c.expected == Some(current.value.id) else c.expected.None?) then PromotedOutcome
    else PromotionConflict
  }

  /** The commit has its result, for good. */
  predicate RecordedAs(d: Disk, request: string, candidate: Candidate, outcome: Outcome) {
    && Ended(d.queue, request)
    && d.queue.results[request].outcome == outcome && d.queue.results[request].origin == Some(candidate)
  }

  predicate EndsWith(exit: CommitExit, outcome: Outcome) {
    match exit
    case Concluded(result) =>
      result.Final? && result.outcome == outcome && outcome in {PromotedOutcome, UnchangedOutcome}
    case PipelineError(told) => told == outcome && outcome in {PromotionConflict, BuildFailed}
    case Escaped(_) => false
  }

  lemma FirstEnds(o: Disk, d: Disk, request: string, policy: Policy, turn: Turn)
    requires QueueOk(o.queue) && request in o.queue.markers && request in o.queue.results
    requires o.queue.results[request].Ready? && request !in o.queue.commitJournals
    requires CheckCommit(o.queue, request, policy).Proceed?
    ensures EndsWith(CalmCommit(o, d, o.queue.results[request].candidate,
                                CheckCommit(o.queue, request, policy).candidate, turn),
                     CommitOutcome(o, request, policy, turn)) == true
  {
    CommitChecks(o.queue, request, policy);
    var c := o.queue.results[request].candidate;
    var record := CheckCommit(o.queue, request, policy).candidate;
    CommitSelects(o.active, record, c.expected, turn.now);
    assert record.id == c.id;
  }

  lemma ConcludedIsInHistory(d: Disk, result: Result, candidate: Candidate)
    requires ConcludesCommit(d, result, candidate)
    ensures InHistory(d, result) == true
  {
  }

  /** One operation on the store, with every fault and interference it meets. */
  datatype Operation =
    | Pass(policy: Policy, submissions: map<string, Submission>, incoming: seq<string>, commits: seq<string>,
           fates: seq<Fate>, turns: seq<Turn>)
    | RollBack(call: RollbackCall)
    | Arrival(request: string, receipt: Option<Receipt>, marker: Option<Marker>)

  /** A pass lists each commit marker once. */
  predicate WellFormed(op: Operation) {
    op.Pass? ==> forall i, j :: 0 <= i < j < |op.commits| ==> op.commits[i] != op.commits[j]
  }

  lemma ResumedIsRecoverable(o: Disk, d: Disk, request: string, policy: Policy, done: set<string>, exit: CommitExit)
    requires d.queue == o.queue && Safe(o, d)
    requires request in o.queue.results && o.queue.results[request].Ready?
    requires exit.Concluded? ==> CurrentRecorded(d)
    requires exit.PipelineError? ==> !Selects(d.active, o.queue.results[request].candidate.id)
    ensures RecoverableBut(o, policy, done) ==>
              RecoverableBut(d, policy, if exit.Escaped? then done else done + {request})
  {
    if RecoverableBut(o, policy, done) {
      SafeKeepsRecoverable(o, d, policy, done, request);
      if !exit.Escaped? { ConcludedIsRecoverable(d, policy, done, request); }
    }
  }

  lemma CommittedIsRecoverable(o: Disk, d: Disk, request: string, policy: Policy, steady: Policy,
                               done: set<string>, exit: CommitExit)
    requires request !in done && request in o.queue.markers && request in o.queue.results
    requires o.queue.results[request].Ready? && CheckCommit(o.queue, request, policy).Proceed?
    requires request !in o.queue.commitJournals && OnlyJournaled(o.queue, d.queue, request)
    requires var c := o.queue.results[request].candidate;
             && (request in d.queue.commitJournals ==>
                   d.queue.commitJournals[request] == Applying(c.id, c.expected, BasePolicy(policy)))
             && (Safe(o, d) || (Selects(d.active, c.id) && request in d.queue.commitJournals))
    requires exit.Concluded? ==> CurrentRecorded(d)
    requires exit.PipelineError? ==> Safe(o, d)
    ensures policy == steady && RecoverableBut(o, steady, done) ==>
              RecoverableBut(d, steady, if exit.Escaped? then done else done + {request})
  {
    if policy == steady && RecoverableBut(o, steady, done) {
      if Safe(o, d) {
        SafeKeepsRecoverable(o, d, steady, done, request);
      } else {
        assert Unfinished(d, request, policy);
      }
    }
  }

  class Store {
    var disk: Disk
    var fates: seq<Fate>
    var turns: seq<Turn>
    ghost const genesis: State
    ghost const steady: Policy       // the release policy recovery is considered under
    ghost var log: Log
    ghost var started: nat           // rollback journals ever written

    ghost predicate Valid()
      reads this
    {
      Inv(genesis, disk, log, started)
    }

    /** A store between operations, holding any quiescent disk. */
    constructor (initial: Disk, ghost policy: Policy)
      requires Inv(initial.active, initial, Start, 0)
      ensures Valid() && disk == initial && log == Start && started == 0
      ensures genesis == initial.active && steady == policy && fates == [] && turns == []
    {
      disk, fates, turns := initial, [], [];
      genesis, steady, log, started := initial.active, policy, Start, 0;
    }

    // ----------------------------------------------------------------
    // Faults and the environment.
    // ----------------------------------------------------------------

    method NextFate() returns (f: Fate)
      modifies `fates
      ensures f == HeadFate(old(fates)) && fates == RestOf(old(fates))
    {
      f := Done;
      if fates != [] {
        f, fates := fates[0], fates[1..];
      }
    }

    // ----------------------------------------------------------------
    // Sections that run under the deployment lock.
    // ----------------------------------------------------------------

    /** One durable_create_json: an existing identical record is accepted as it is. */
    method StorePromotedRecord() returns (exit: Exit)
      requires Valid() && disk.active.currentDeployment.Some?
      modifies `disk, `fates
      ensures Bookkept(old(disk), disk) && disk.projection == old(disk.projection)
      ensures !exit.BuildError?
      ensures exit.Returned? ==> CurrentRecorded(disk)
      ensures if old(CurrentRecorded(disk)) then disk == old(disk) && exit == Returned && fates == old(fates)
              else && (CurrentRecorded(disk) <==> Effective(HeadFate(old(fates))))
                   && (disk != old(disk) ==> CurrentRecorded(disk))
                   && exit == WriteExit(HeadFate(old(fates))) && fates == RestOf(old(fates))
    {
      var record := disk.active.currentDeployment.value;
      var key := (record.id, record.promotedAt.value);
      if key in disk.history {
        return if disk.history[key] == record then Returned else BuildError(false);
      }
      var f := NextFate();
      if f == Done || f == FailedAfter { disk := disk.(history := disk.history[key := record]); }
      return if f == Done then Returned else if f == Killed then Died else OsError;
    }

    method WriteProjection(p: Projection) returns (exit: Exit)
      modifies `disk, `fates
      ensures disk == if Effective(HeadFate(old(fates))) then old(disk).(projection := p) else old(disk)
      ensures exit == WriteExit(HeadFate(old(fates))) && fates == RestOf(old(fates))
    {
      var f := NextFate();
      if f == Done || f == FailedAfter { disk := disk.(projection := p); }
      return if f == Done then Returned else if f == Killed then Died else OsError;
    }

    /** _repair_selected_bookkeeping_locked: history first, then the projection. */
    method RepairSelectedBookkeepingLocked(expected: Identity) returns (exit: Exit)
      requires Valid()
      modifies `disk, `fates
      ensures Valid()
      ensures Bookkept(old(disk), disk)
      ensures old(!Selects(disk.active, expected)) ==> disk == old(disk) && exit == BuildError(true)
      ensures old(Selects(disk.active, expected)) ==> !exit.BuildError?
      ensures exit.Returned? ==> CurrentRecorded(disk) && disk.projection == CurrentProjection(disk.active)
      ensures disk == old(disk) || CurrentRecorded(disk)
      ensures old(fates) == [] ==> !exit.Died? && !exit.OsError? && fates == []
    {
      if !Selects(disk.active, expected) { return BuildError(true); }
      exit := StorePromotedRecord();
      BookkeepingKeepsInv(genesis, old(disk), disk, log, started);
      if exit.Returned? {
        exit := WriteProjection(CurrentProjection(disk.active));
        BookkeepingKeepsInv(genesis, old(disk), disk, log, started);
      }
    }

    /** The active.json write of _finish_rollback_locked. */
    method MoveToTarget() returns (exit: Exit)
      requires Valid() && disk.rollback.Some? && disk.active == disk.rollback.value.source
      requires disk.rollback.value.source != disk.rollback.value.target
      modifies `disk, `log, `fates
      ensures Valid()
      ensures var j := old(disk).rollback.value;
              if Effective(HeadFate(old(fates)))
              then disk == old(disk).(active := j.target)
                   && log == After(old(log), RolledBack(started - 1, j.startedAt))
              else disk == old(disk) && log == old(log)
      ensures exit == WriteExit(HeadFate(old(fates))) && fates == RestOf(old(fates))
    {
      var journal := disk.rollback.value;
      MoveKeepsInv(genesis, disk, log, started);
      var f := NextFate();
      if f == Done || f == FailedAfter {
        disk := disk.(active := journal.target);
        log := After(log, RolledBack(started - 1, journal.startedAt));
      }
      return if f == Done then Returned else if f == Killed then Died else OsError;
    }

    method ClearRollbackJournal() returns (exit: Exit)
      requires Valid()
      modifies `disk, `fates
      ensures Valid()
      ensures disk == if Effective(HeadFate(old(fates))) then old(disk).(rollback := None) else old(disk)
      ensures exit == WriteExit(HeadFate(old(fates))) && fates == RestOf(old(fates))
    {
      var f := NextFate();
      if f == Done || f == FailedAfter { disk := disk.(rollback := None); }
      return if f == Done then Returned else if f == Killed then Died else OsError;
    }

    /** The rest of _finish_rollback_locked: bookkeeping, then drop the journal. */
    method CompleteRollback() returns (exit: Exit)
      requires Valid() && disk.rollback.Some? && disk.active == disk.rollback.value.target
      modifies `disk, `fates
      ensures Valid()
      ensures RollbackEffect(old(disk), disk) && disk.active == old(disk).active
      ensures exit.Returned? ==> Settled(disk)
      ensures !exit.BuildError?
      ensures disk.rollback.Some? || Settled(disk)
      ensures old(fates) == [] ==> exit == Returned && fates == []
    {
      exit := RepairSelectedBookkeepingLocked(disk.active.currentDeployment.value.id);
      if exit.Returned? {
        exit := ClearRollbackJournal();
      }
    }

    /** _finish_rollback_locked: move active.json if it has not moved yet, then finish. */
    method FinishRollbackLocked() returns (exit: Exit)
      requires Valid() && disk.rollback.Some?
      modifies `disk, `log, `fates
      ensures Valid()
      ensures RollbackEffect(old(disk), disk)
      ensures log == old(log)
              || (&& log == After(old(log), RolledBack(started - 1, old(disk).rollback.value.startedAt))
                  && old(disk).active == old(disk).rollback.value.source
                  && disk.active == old(disk).rollback.value.target)
      ensures exit.Returned? ==> disk.active == old(disk).rollback.value.target && Settled(disk)
      ensures !exit.BuildError?
      ensures disk.rollback.Some? || Settled(disk)
      ensures old(fates) == [] ==> exit == Returned && fates == []
    {
      RollbackTargetDiffers(disk.rollback.value.source, disk.rollback.value.startedAt);
      exit := Returned;
      if disk.active == disk.rollback.value.source {
        exit := MoveToTarget();
      } else if disk.active != disk.rollback.value.target {
        return BuildError(true);
      }
      if exit.Returned? {
        exit := CompleteRollback();
      }
    }

    /** rollback: finish a pending journal, or write one and finish it. */
    method Rollback(call: RollbackCall) returns (exit: Exit)
      requires Valid()
      modifies `disk, `log, `fates, `started
      ensures Valid()
      ensures RollbackEffect(old(disk), disk)
      ensures OnlyRollbacks(old(log), log) == true
      ensures Safe(old(disk), disk)
      ensures exit.Returned? ==> Settled(disk)
      ensures exit.Returned? && old(disk).rollback.Some? ==> disk.active == old(disk).rollback.value.target
      ensures exit.Returned? && old(disk).rollback.None? ==>
                RollbackTransition(old(disk).active, call.now) == Some(disk.active)
      ensures exit.BuildError? ==> disk == old(disk)
      ensures old(fates) == [] ==>
                && fates == []
                && exit == if call.contended then BuildError(false)
                           else if old(disk).rollback.Some? then Returned
                           else if old(disk).active.previousDeployment.None? then BuildError(false)
                           else if call.verdict.Unverified? then BuildError(call.verdict.changed)
                           else Returned
      ensures old(disk).rollback.None? && started == old(started) ==> disk == old(disk) && log == old(log)
      ensures old(disk).rollback.None? && started != old(started) ==>
                started == old(started) + 1 && (disk.rollback.Some? || Settled(disk))
      ensures old(disk).rollback.None? && !exit.BuildError? ==>
                && (started != old(started) <==> Effective(HeadFate(old(fates))))
                && (HeadFate(old(fates)) != Done ==> exit == WriteExit(HeadFate(old(fates))))
    {
      if call.contended { return BuildError(false); }
      if disk.rollback.Some? {
        exit := FinishRollbackLocked();
        return;
      }
      if disk.active.previousDeployment.None? { return BuildError(false); }
      if call.verdict.Unverified? { return BuildError(call.verdict.changed); }
      var target := RollbackTransition(disk.active, call.now).value;
      var f := NextFate();
      if f == Done || f == FailedAfter {
        disk := disk.(rollback := Some(RollbackJournal(disk.active, target, call.now)));
        started := started + 1;
      }
      if f != Done { return if f == Killed then Died else OsError; }
      exit := FinishRollbackLocked();
    }

    /** The active.json write of _promote_locked. */
    method SwapActive(ghost request: string, ghost candidate: Record, ghost expected: Option<Identity>,
                      ghost now: Time, next: State)
      returns (exit: Exit)
      requires Valid() && disk.rollback.None?
      requires request in disk.queue.commitJournals && Commits(log, request) == 0
      requires candidate.id in disk.queue.deployments && disk.queue.deployments[candidate.id] == candidate
      requires SelectDeployment(disk.active, candidate, expected, now) == Promoted(next)
      modifies `disk, `log, `fates
      ensures Valid()
      ensures if Effective(HeadFate(old(fates)))
              then disk == old(disk).(active := next)
                   && log == After(old(log), Committed(request, candidate, expected, now))
              else disk == old(disk) && log == old(log)
      ensures exit == WriteExit(HeadFate(old(fates))) && fates == RestOf(old(fates))
    {
      SelectKeepsInv(genesis, disk, log, started, request, candidate, expected, now);
      var f := NextFate();
      if f == Done || f == FailedAfter {
        disk := disk.(active := next);
        log := After(log, Committed(request, candidate, expected, now));
      }
      return if f == Done then Returned else if f == Killed then Died else OsError;
    }

    /** _promote_locked: compare and swap, then the bookkeeping of whatever is selected. */
    method PromoteLocked(ghost request: string, candidate: Record, expected: Option<Identity>,
                         now: Time, verdict: Verdict)
      returns (exit: Exit, swapped: bool)
      requires Valid()
      requires request in disk.queue.commitJournals && Commits(log, request) == 0
      requires candidate.id in disk.queue.deployments && disk.queue.deployments[candidate.id] == candidate
      modifies `disk, `log, `fates
      ensures Valid()
      ensures old(disk).history.Keys <= disk.history.Keys
      ensures disk.queue == old(disk).queue && disk.rollback == old(disk).rollback
      ensures || (log == old(log) && disk.active == old(disk).active)
              || (&& log == After(old(log), Committed(request, candidate, expected, now))
                  && SelectDeployment(old(disk).active, candidate, expected, now) == Promoted(disk.active))
      ensures log != old(log) ==>
                && disk.active.currentDeployment == Some(candidate.(promotedAt := Some(now)))
                && disk.active.previousDeployment == old(disk).active.currentDeployment
                && SelectsInstead(old(disk).active, disk.active, candidate, now)
      ensures Refusal(old(disk), candidate, expected, now, verdict).BuildError? ==>
                exit == Refusal(old(disk), candidate, expected, now, verdict) && disk == old(disk)
      ensures !Refusal(old(disk), candidate, expected, now, verdict).BuildError? ==> !exit.BuildError?
      ensures exit.BuildError? <==>
                || old(disk).rollback.Some? || verdict.Unverified?
                || candidate.id.runId !in old(disk).queue.evaluations
                || !old(disk).queue.evaluations[candidate.id.runId].passed
                || !(Selects(old(disk).active, candidate.id) || CurrentId(old(disk).active) == expected)
      ensures disk == old(disk) || Selects(disk.active, candidate.id)
      ensures exit.Returned? ==>
                && Selects(disk.active, candidate.id)
                && CurrentRecorded(disk)
                && disk.projection == CurrentProjection(disk.active)
                && (swapped <==> log != old(log))
                && (swapped <==> !Selects(old(disk).active, candidate.id))
      ensures Once(old(fates)) && !exit.BuildError? && !Selects(old(disk).active, candidate.id) ==>
                && exit == WriteExit(old(fates)[0]) && fates == []
                && (log != old(log) <==> Effective(old(fates)[0]))
      ensures old(fates) == [] ==> !exit.Died? && !exit.OsError? && fates == []
    {
      exit, swapped := Refusal(disk, candidate, expected, now, verdict), false;
      if exit.BuildError? { return; }
      CommitSelects(disk.active, candidate, expected, now);
      var selection := SelectDeployment(disk.active, candidate, expected, now);
      if selection.Promoted? {
        exit := SwapActive(request, candidate, expected, now, selection.state);
        swapped := true;
      }
      if exit.Returned? {
        exit := RepairSelectedBookkeepingLocked(candidate.id);
      }
    }

    // ----------------------------------------------------------------
    // The environment.
    // ----------------------------------------------------------------

    /** Rollbacks by other processes, then what this process meets next. */
    method NextTurn() returns (turn: Turn)
      requires Valid()
      modifies `disk, `log, `fates, `started, `turns
      ensures Valid() && fates == old(fates)
      ensures RollbackEffect(old(disk), disk) && OnlyRollbacks(old(log), log) == true
      ensures Safe(old(disk), disk)
      ensures turn == Head(old(turns)) && turns == if old(turns) == [] then [] else old(turns)[1..]
      ensures Quiet(old(turns)) ==>
                Quiet(turns) && !turn.contended && disk == old(disk) && log == old(log)
    {
      turn := CALM;
      if turns == [] { return; }
      turn, turns := turns[0], turns[1..];
      var mine := fates;
      for i := 0 to |turn.rollbacks|
        invariant Valid()
        invariant RollbackEffect(old(disk), disk) && OnlyRollbacks(old(log), log)
        invariant Safe(old(disk), disk)
        invariant turn.rollbacks == [] ==> disk == old(disk) && log == old(log)
        invariant turns == if old(turns) == [] then [] else old(turns)[1..]
      {
        fates := turn.rollbacks[i].fates;
        ghost var before := log;
        var _ := Rollback(turn.rollbacks[i]);
        RollbacksCompose(old(log), before, log);
      }
      fates := mine;
    }

    // ----------------------------------------------------------------
    // One commit.
    // ----------------------------------------------------------------

    /** repair_selected_bookkeeping, which takes the lock itself. */
    method RepairSelectedBookkeeping(expected: Identity) returns (exit: Exit)
      requires Valid()
      modifies `disk, `log, `fates, `started, `turns
      ensures Valid()
      ensures RollbackEffect(old(disk), disk) && OnlyRollbacks(old(log), log) == true
      ensures Safe(old(disk), disk)
      ensures exit.Returned? ==> Selects(disk.active, expected) && CurrentRecorded(disk)
      ensures Quiet(old(turns)) && old(fates) == [] ==>
                && Quiet(turns) && fates == [] && Bookkept(old(disk), disk)
                && (exit == if old(Selects(disk.active, expected)) then Returned else BuildError(true))
      ensures Head(old(turns)).contended ==> exit == BuildError(false)
    {
      var turn := NextTurn();
      if turn.contended { return BuildError(false); }
      exit := RepairSelectedBookkeepingLocked(expected);
    }

    /** The branch of _process_commit that finds its APPLYING journal. */
    method ResumeCommit(request: string, candidate: Candidate) returns (exit: CommitExit)
      requires Valid()
      modifies `disk, `log, `fates, `started, `turns
      ensures Valid()
      ensures RollbackEffect(old(disk), disk) && OnlyRollbacks(old(log), log) == true
      ensures Safe(old(disk), disk)
      ensures exit.Concluded? ==>
                ConcludesCommit(disk, exit.result, candidate) == true && exit.result.outcome == PromotedOutcome
      ensures exit.Escaped? ==> !exit.exit.Returned?
      ensures exit.PipelineError? ==> exit.outcome == PromotionConflict && !Selects(disk.active, candidate.id)
      ensures Quiet(old(turns)) && old(fates) == [] ==>
                && Quiet(turns) && fates == [] && Bookkept(old(disk), disk)
                && (if old(Selects(disk.active, candidate.id)) then exit.Concluded? else exit.PipelineError?)
    {
      var _ := NextTurn();
      if !Selects(disk.active, candidate.id) {
        return PipelineError(PromotionConflict);
      }
      ghost var before := log;
      var repaired := RepairSelectedBookkeeping(candidate.id);
      RollbacksCompose(old(log), before, log);
      if !repaired.Returned? { return Escaped(repaired); }
      return Concluded(Final(PromotedOutcome, false, Some(candidate),
                             SelectedSince(disk.active)));
    }

    method WriteCommitJournal(request: string, journal: CommitJournal) returns (exit: Exit)
      requires Valid() && request !in disk.queue.commitJournals && request in disk.queue.markers
      modifies `disk, `fates
      ensures Valid()
      ensures disk == if Effective(HeadFate(old(fates))) then Journaled(old(disk), request, journal) else old(disk)
      ensures OnlyJournaled(old(disk).queue, disk.queue, request)
      ensures request in disk.queue.commitJournals ==> disk.queue.commitJournals[request] == journal
      ensures exit == WriteExit(HeadFate(old(fates))) && fates == RestOf(old(fates))
    {
      var f := NextFate();
      if f == Done || f == FailedAfter {
        disk := disk.(queue := disk.queue.(commitJournals := disk.queue.commitJournals[request := journal]));
      }
      return if f == Done then Returned else if f == Killed then Died else OsError;
    }

    /** promote, which takes the lock itself. */
    method Promote(ghost request: string, candidate: Record, expected: Option<Identity>)
      returns (exit: Exit, swapped: bool)
      requires Valid()
      requires request in disk.queue.commitJournals && Commits(log, request) == 0
      requires candidate.id in disk.queue.deployments && disk.queue.deployments[candidate.id] == candidate
      modifies `disk, `log, `fates, `started, `turns
      ensures Valid() && disk.queue == old(disk).queue
      ensures old(disk).history.Keys <= disk.history.Keys
      ensures OnlyCommit(old(log), log, request) == true
      ensures Safe(old(disk), disk) || Selects(disk.active, candidate.id)
      ensures exit.BuildError? ==> Safe(old(disk), disk)
      ensures exit.Returned? ==> Selects(disk.active, candidate.id) && CurrentRecorded(disk)
      ensures Quiet(old(turns)) && old(fates) == [] ==>
                && Quiet(turns) && fates == [] && disk.rollback == old(disk).rollback
                && exit == Refusal(old(disk), candidate, expected, Head(old(turns)).now, Head(old(turns)).verdict)
                && (exit.Returned? && swapped <==>
                      Refusal(old(disk), candidate, expected, Head(old(turns)).now, Head(old(turns)).verdict).Returned?
                      && !old(Selects(disk.active, candidate.id)))
      ensures Quiet(old(turns)) && Once(old(fates)) && !exit.BuildError?
              && !old(Selects(disk.active, candidate.id)) ==>
                && Quiet(turns) && fates == [] && exit == WriteExit(old(fates)[0])
                && (Selects(disk.active, candidate.id) <==> Effective(old(fates)[0]))
                && (exit.Returned? ==> swapped)
      ensures Head(old(turns)).contended ==> exit == BuildError(false) && OnlyRollbacks(old(log), log) == true
    {
      swapped := false;
      var turn := NextTurn();
      if turn.contended {
        exit := BuildError(false);
        RollbacksAreNoCommit(old(log), log, request);
        return;
      }
      ghost var before := log;
      RollbacksKeepCommits(old(log), log);
      RollbacksAreNoCommit(old(log), log, request);
      exit, swapped := PromoteLocked(request, candidate, expected, turn.now, turn.verdict);
      assert OnlyCommit(before, log, request);
      CommitsCompose(old(log), before, log, request);
    }

    /** The `except OSError` branch: active.json may already have been replaced. */
    method RepairAfterOsError(candidate: Identity) returns (exit: Exit)
      requires Valid()
      modifies `disk, `log, `fates, `started, `turns
      ensures Valid()
      ensures RollbackEffect(old(disk), disk) && OnlyRollbacks(old(log), log) == true
      ensures Safe(old(disk), disk)
      ensures exit.Returned? ==> Selects(disk.active, candidate) && CurrentRecorded(disk)
      ensures Quiet(old(turns)) && old(fates) == [] ==>
                exit == if old(Selects(disk.active, candidate)) then Returned else OsError
    {
      var _ := NextTurn();
      if !Selects(disk.active, candidate) { return OsError; }
      ghost var before := log;
      exit := RepairSelectedBookkeeping(candidate);
      RollbacksCompose(old(log), before, log);
    }

    /** promote with the OSError handling around it.  `handled` tells whether a
        BuildError came from promote itself, which _process_commit turns into an
        outcome, or from the repair, which escapes. */
    method PromoteOrRepair(ghost request: string, candidate: Record, expected: Option<Identity>)
      returns (exit: Exit, swapped: bool, handled: bool)
      requires Valid()
      requires request in disk.queue.commitJournals && Commits(log, request) == 0
      requires candidate.id in disk.queue.deployments && disk.queue.deployments[candidate.id] == candidate
      modifies `disk, `log, `fates, `started, `turns
      ensures Valid() && disk.queue == old(disk).queue
      ensures old(disk).history.Keys <= disk.history.Keys
      ensures OnlyCommit(old(log), log, request) == true
      ensures Safe(old(disk), disk) || Selects(disk.active, candidate.id)
      ensures handled ==> exit.BuildError? && Safe(old(disk), disk)
      ensures exit.Returned? ==> Selects(disk.active, candidate.id) && CurrentRecorded(disk)
      ensures Quiet(old(turns)) && old(fates) == [] ==>
                && Quiet(turns) && fates == [] && disk.rollback == old(disk).rollback
                && exit == Refusal(old(disk), candidate, expected, Head(old(turns)).now, Head(old(turns)).verdict)
                && handled == exit.BuildError?
                && (exit.Returned? ==> (swapped <==> !old(Selects(disk.active, candidate.id))))
      ensures Quiet(old(turns)) && Once(old(fates)) && !handled && !old(Selects(disk.active, candidate.id)) ==>
                exit == AfterFault(old(fates)[0]) && (exit.Returned? ==> swapped)
    {
      exit, swapped := Promote(request, candidate, expected);
      handled := exit.BuildError?;
      if exit == OsError {
        ghost var middle := log;
        exit := RepairAfterOsError(candidate.id);
        swapped := true;
        RollbacksAreNoCommit(middle, log, request);
        CommitsCompose(old(log), middle, log, request);
      }
    }

    /** promote, and what its outcome makes of the commit. */
    method PromoteCandidate(ghost request: string, candidate: Candidate, record: Record) returns (exit: CommitExit)
      requires Valid()
      requires request in disk.queue.commitJournals && Commits(log, request) == 0
      requires record.id == candidate.id
      requires record.id in disk.queue.deployments && disk.queue.deployments[record.id] == record
      modifies `disk, `log, `fates, `started, `turns
      ensures Valid() && disk.queue == old(disk).queue
      ensures old(disk).history.Keys <= disk.history.Keys
      ensures OnlyCommit(old(log), log, request) == true
      ensures exit.Concluded? ==> ConcludesCommit(disk, exit.result, candidate) == true
      ensures exit.Escaped? ==> !exit.exit.Returned?
      ensures exit.PipelineError? ==> Safe(old(disk), disk) && exit.outcome in {PromotionConflict, BuildFailed}
      ensures Safe(old(disk), disk) || Selects(disk.active, candidate.id)
      ensures Quiet(old(turns)) && old(fates) == [] ==>
                && Quiet(turns) && fates == [] && disk.rollback == old(disk).rollback
                && exit == CalmCommit(old(disk), disk, candidate, record, Head(old(turns)))
      ensures Quiet(old(turns)) && Once(old(fates)) && !old(Selects(disk.active, candidate.id)) ==>
                SurvivesFault(exit, old(fates)) == true
    {
      var promoted, swapped, handled := PromoteOrRepair(request, record, candidate.expected);
      if handled {
        exit := PipelineError(if promoted.changed then PromotionConflict else BuildFailed);
      } else if promoted.Returned? {
        exit := Concluded(Final(if swapped then PromotedOutcome else UnchangedOutcome, false, Some(candidate),
                                SelectedSince(disk.active)));
      } else {
        exit := Escaped(promoted);
      }
    }

    /** The branch of _process_commit without a journal: write it, then promote. */
    method FirstCommit(request: string, candidate: Candidate, record: Record, journal: CommitJournal)
      returns (exit: CommitExit)
      requires Valid()
      requires request !in disk.queue.commitJournals && request in disk.queue.markers
      requires record.id == candidate.id
      requires record.id in disk.queue.deployments && disk.queue.deployments[record.id] == record
      modifies `disk, `log, `fates, `started, `turns
      ensures Valid()
      ensures old(disk).history.Keys <= disk.history.Keys
      ensures OnlyJournaled(old(disk).queue, disk.queue, request)
      ensures request in disk.queue.commitJournals ==> disk.queue.commitJournals[request] == journal
      ensures OnlyCommit(old(log), log, request) == true
      ensures exit.Concluded? ==> ConcludesCommit(disk, exit.result, candidate) == true
      ensures exit.Escaped? ==> !exit.exit.Returned?
      ensures exit.PipelineError? ==> Safe(old(disk), disk) && exit.outcome in {PromotionConflict, BuildFailed}
      ensures Safe(old(disk), disk)
              || (Selects(disk.active, candidate.id) && request in disk.queue.commitJournals)
      ensures Quiet(old(turns)) && old(fates) == [] ==>
                && Quiet(turns) && fates == [] && disk.rollback == old(disk).rollback
                && request in disk.queue.commitJournals
                && exit == CalmCommit(old(disk), disk, candidate, record, Head(old(turns)))
    {
      var written := WriteCommitJournal(request, journal);
      if !written.Returned? { return Escaped(written); }
      exit := PromoteCandidate(request, candidate, record);
      JournalChangesNoEnd(old(disk), disk, request, journal, candidate, record, Head(old(turns)));
    }

    /** _process_commit.  Its journal, once durable, is never acted on again: a pass that
        finds it moves nothing, whatever else happens. */
    method ProcessCommit(request: string, policy: Policy, ghost done: set<string>) returns (exit: CommitExit)
      requires Valid() && request !in done
      requires request in disk.queue.markers && request in disk.queue.results
      requires disk.queue.results[request].Ready?
      modifies `disk, `log, `fates, `started, `turns
      ensures Valid()
      ensures old(disk).history.Keys <= disk.history.Keys
      ensures OnlyJournaled(old(disk).queue, disk.queue, request)
      ensures OnlyCommit(old(log), log, request) == true
      ensures request in old(disk).queue.commitJournals ==> OnlyRollbacks(old(log), log) == true
      ensures exit.Concluded? ==> ConcludesCommit(disk, exit.result, old(disk).queue.results[request].candidate) == true
      ensures exit.Escaped? ==> !exit.exit.Returned?
      ensures exit.PipelineError? ==> exit.outcome in {PromotionConflict, BuildFailed}
      ensures Quiet(old(turns)) && old(fates) == [] ==>
                EndsWith(exit, CommitOutcome(old(disk), request, policy, Head(old(turns)))) == true
      ensures policy == steady && RecoverableBut(old(disk), steady, done) ==>
                RecoverableBut(disk, steady, if exit.Escaped? then done else done + {request})
      ensures Quiet(old(turns)) && old(fates) == [] ==>
                Quiet(turns) && fates == [] && disk.rollback == old(disk).rollback && !exit.Escaped?
      ensures CheckCommit(old(disk).queue, request, policy).Reject? ==>
                && exit == PipelineError(PromotionConflict)
                && disk == old(disk) && log == old(log) && fates == old(fates) && turns == old(turns)
    {
      var c := disk.queue.results[request].candidate;
      var check := CheckCommit(disk.queue, request, policy);
      CommitChecks(disk.queue, request, policy);
      var journaled := request in disk.queue.commitJournals;
      if check.Reject? || (journaled && !JournalMatches(disk.queue.commitJournals[request], c, policy)) {
        exit := PipelineError(PromotionConflict);
        if policy == steady && RecoverableBut(disk, steady, done) {
          ConcludedIsRecoverable(disk, steady, done, request);
        }
      } else if journaled {
        exit := ResumeCommit(request, c);
        ResumedIsRecoverable(old(disk), disk, request, steady, done, exit);
        RollbacksAreNoCommit(old(log), log, request);
      } else {
        exit := FirstCommit(request, c, check.candidate, Applying(c.id, c.expected, BasePolicy(policy)));
        FirstEnds(old(disk), disk, request, policy, Head(old(turns)));
        CommittedIsRecoverable(old(disk), disk, request, policy, steady, done, exit);
      }
    }

    // ----------------------------------------------------------------
    // One submission.
    // ----------------------------------------------------------------

    method MakeBuildDirectory(run: string) returns (exit: Exit)
      requires Valid() && run !in disk.queue.builds
      modifies `disk, `fates
      ensures Valid() && OnlyBuilt(old(disk).queue, disk.queue) && disk == old(disk).(queue := disk.queue)
      ensures disk.queue.evaluations == old(disk).queue.evaluations
      ensures disk.queue.deployments == old(disk).queue.deployments
      ensures disk.queue.builds ==
                if Effective(HeadFate(old(fates))) then old(disk).queue.builds + {run} else old(disk).queue.builds
      ensures exit == WriteExit(HeadFate(old(fates))) && fates == RestOf(old(fates))
    {
      var f := NextFate();
      DirectoryKeepsInv(genesis, disk, run, log, started);
      if f == Done || f == FailedAfter {
        disk := disk.(queue := disk.queue.(builds := disk.queue.builds + {run}));
      }
      return if f == Done then Returned else if f == Killed then Died else OsError;
    }

    method StoreDeployment(record: Record) returns (exit: Exit)
      requires Valid() && record.promotedAt == None
      requires record.id.runId in disk.queue.builds && record.id !in disk.queue.deployments
      modifies `disk, `fates
      ensures Valid() && OnlyBuilt(old(disk).queue, disk.queue) && disk == old(disk).(queue := disk.queue)
      ensures disk.queue.evaluations == old(disk).queue.evaluations
      ensures disk.queue.deployments ==
                if Effective(HeadFate(old(fates))) then old(disk).queue.deployments[record.id := record]
                else old(disk).queue.deployments
      ensures disk.queue.builds == old(disk).queue.builds
      ensures exit == WriteExit(HeadFate(old(fates))) && fates == RestOf(old(fates))
    {
      var f := NextFate();
      RecordKeepsInv(genesis, disk, record, log, started);
      if f == Done || f == FailedAfter {
        disk := disk.(queue := disk.queue.(deployments := disk.queue.deployments[record.id := record]));
      }
      return if f == Done then Returned else if f == Killed then Died else OsError;
    }

    /** The build directory, then the immutable deployment record. */
    method StoreBuild(record: Record) returns (exit: Exit)
      requires Valid()
      requires record.promotedAt == None && record.id.runId !in disk.queue.builds
      modifies `disk, `fates
      ensures Valid() && OnlyBuilt(old(disk).queue, disk.queue) && disk == old(disk).(queue := disk.queue)
      ensures disk.queue.evaluations == old(disk).queue.evaluations
      ensures !exit.BuildError?
      ensures (exit.Died? ==> Killed in old(fates)) && (forall f <- fates :: f in old(fates))
      ensures exit.Returned? ==>
                && disk.queue.deployments == old(disk).queue.deployments[record.id := record]
                && record.id.runId in disk.queue.builds
      ensures old(fates) == [] ==> exit == Returned && fates == []
    {
      assert InvParts(genesis, disk, log, started);
      exit := MakeBuildDirectory(record.id.runId);
      if exit.Returned? {
        exit := StoreDeployment(record);
      }
    }

    method WriteEvaluation(run: string, policy: Policy) returns (exit: Exit)
      requires Valid() && run in disk.queue.builds && run !in disk.queue.evaluations
      modifies `disk, `fates
      ensures Valid() && OnlyBuilt(old(disk).queue, disk.queue) && disk == old(disk).(queue := disk.queue)
      ensures disk.queue.deployments == old(disk).queue.deployments
      ensures disk.queue.evaluations ==
                if Effective(HeadFate(old(fates))) then old(disk).queue.evaluations[run := Evaluation(true, policy)]
                else old(disk).queue.evaluations
      ensures exit == WriteExit(HeadFate(old(fates))) && fates == RestOf(old(fates))
    {
      var f := NextFate();
      if f == Done || f == FailedAfter {
        disk := disk.(queue := disk.queue.(evaluations := disk.queue.evaluations[run := Evaluation(true, policy)]));
      }
      BuildsKeepInv(genesis, old(disk), disk.queue, log, started);
      return if f == Done then Returned else if f == Killed then Died else OsError;
    }

    /** What rebuild and evaluate_candidate leave behind for one submission. */
    method BuildCandidate(record: Record, passed: bool, policy: Policy) returns (exit: Exit)
      requires Valid()
      requires record.promotedAt == None && record.id.runId !in disk.queue.builds
      modifies `disk, `fates
      ensures Valid() && OnlyBuilt(old(disk).queue, disk.queue) && disk == old(disk).(queue := disk.queue)
      ensures !exit.BuildError?
      ensures exit.Died? ==> Killed in old(fates)
      ensures exit.Returned? && passed ==>
                && record.id in disk.queue.deployments
                && record.id.runId in disk.queue.evaluations
                && disk.queue.evaluations[record.id.runId] == Evaluation(true, policy)
      ensures old(fates) == [] ==> exit == Returned && fates == []
    {
      exit := StoreBuild(record);
      if exit.Returned? && passed {
        exit := WriteEvaluation(record.id.runId, policy);
      }
    }

    /** A build is offered as ready only if its evaluation passed, with the identity that was
        built and the policies of the pass; a failed evaluation is reported as such, and
        anything else is a failed build. */
    predicate Evaluated(submission: Submission, receipt: Receipt, policy: Policy, result: Result)
      requires submission.Built?
    {
      || result == Final(BuildFailed, false, None, None)
      || (if submission.passed
          then result == Ready(Candidate(BuiltRecord(submission, policy).id, receipt.expected, receipt.releasePolicy,
                                         policy))
          else result == Final(EvaluationFailed, false, None, None))
    }

    /** The part of _process_submission that builds and evaluates under the lock. */
    method BuildAndEvaluate(request: string, policy: Policy, submission: Submission)
      returns (exit: Exit, result: Result)
      requires Valid() && request in disk.queue.receipts && submission.Built?
      requires disk.queue.receipts[request].releasePolicy == BasePolicy(policy)
      modifies `disk, `fates
      ensures Valid() && OnlyBuilt(old(disk).queue, disk.queue) && disk == old(disk).(queue := disk.queue)
      ensures exit.Returned? || (exit.Died? && Killed in old(fates))
      ensures exit.Returned? && result.Ready? ==>
                && Promotable(disk.queue, result.candidate, policy) == true
                && result.candidate.expected == disk.queue.receipts[request].expected
      ensures exit.Returned? ==> Evaluated(submission, old(disk).queue.receipts[request], policy, result) == true
      ensures old(fates) == [] ==>
                && exit.Returned? && fates == []
                && (result.Final? && result.outcome == BuildFailed <==>
                      BuiltRecord(submission, policy).id.runId in old(disk).queue.builds)
    {
      exit, result := Returned, Final(BuildFailed, false, None, None);
      var receipt := disk.queue.receipts[request];
      var record := BuiltRecord(submission, policy);
      if record.id.runId in disk.queue.builds { return; }
      exit := BuildCandidate(record, submission.passed, policy);
      if exit.Returned? {
        result := if submission.passed
                  then Ready(Candidate(record.id, receipt.expected, receipt.releasePolicy, policy))
                  else Final(EvaluationFailed, false, None, None);
      }
      exit := if exit == OsError then Returned else exit;
    }

    /** What a submission may be answered with; no later pass takes it up again. */
    predicate Fits(receipt: Receipt, submission: Submission, policy: Policy, result: Result) {
      && !Requeued(result)
      && if submission.Built? then Evaluated(submission, receipt, policy, result) else result.Final?
    }

    /** What a submission comes to when nothing interferes. */
    predicate AnswersQuietly(o: Disk, request: string, policy: Policy, submission: Submission, result: Result)
      requires request in o.queue.receipts
    {
      var failed := Final(BuildFailed, false, None, None);
      var receipt, current := o.queue.receipts[request], o.active.currentDeployment;
      if submission.Invalid? then result == Final(RemoteSnapshotInvalid, false, None, None)
      else if receipt.releasePolicy != policy.(suites := []) then result == failed
      else
        match submission
        case SameBuild(snapshotId) =>
          result == if current.Some? && current.value.id.snapshotId == snapshotId
                    then Final(UnchangedOutcome, false,
                               Some(Candidate(current.value.id, receipt.expected, receipt.releasePolicy, policy)), None)
                    else failed
        case Built(_, _, _, _, _, passed) =>
          if BuiltRecord(submission, policy).id.runId in o.queue.builds then result == failed
          else if passed then
            result ==
              Ready(Candidate(BuiltRecord(submission, policy).id, receipt.expected, receipt.releasePolicy, policy))
          else result == Final(EvaluationFailed, false, None, None)
        case _ => result == failed
    }

    /** _process_submission and the exception handling around it.  A ready candidate
        passes every release check of a commit under the same policy. */
    method ProcessSubmission(request: string, policy: Policy, submission: Submission)
      returns (exit: Exit, result: Result)
      requires Valid() && request in disk.queue.receipts
      modifies `disk, `log, `fates, `started, `turns
      ensures Valid()
      ensures old(disk).history.Keys <= disk.history.Keys
      ensures OnlyBuilt(old(disk).queue, disk.queue)
      ensures OnlyRollbacks(old(log), log) == true
      ensures Safe(old(disk), disk)
      ensures exit.Returned? || (exit.Died? && Killed in old(fates))
      ensures exit.Returned? ==> !ReportsPromotion(result)
      ensures exit.Returned? && result.Ready? ==>
                && Promotable(disk.queue, result.candidate, policy) == true
                && result.candidate.expected == disk.queue.receipts[request].expected
      ensures exit.Returned? ==> Fits(old(disk).queue.receipts[request], submission, policy, result) == true
      ensures Quiet(old(turns)) && old(fates) == [] ==>
                && exit.Returned? && Quiet(turns) && fates == [] && disk.rollback == old(disk).rollback
                && AnswersQuietly(old(disk), request, policy, submission, result) == true
    {
      exit, result := Returned, Final(BuildFailed, false, None, None);
      var receipt := disk.queue.receipts[request];
      if submission.Invalid? {
        result := Final(RemoteSnapshotInvalid, false, None, None);
      } else if receipt.releasePolicy == BasePolicy(policy) && !submission.Unbuilt? {
        var turn := NextTurn();
        if turn.contended {
        } else if submission.SameBuild? {
          var current := disk.active.currentDeployment;
          if current.Some? && current.value.id.snapshotId == submission.snapshotId {
            result := Final(UnchangedOutcome, false,
                            Some(Candidate(current.value.id, receipt.expected, receipt.releasePolicy, policy)), None);
          }
        } else {
          exit, result := BuildAndEvaluate(request, policy, submission);
        }
      }
    }

    method WriteResult(request: string, result: Result) returns (exit: Exit)
      requires Valid() && ResultOk(disk.queue, request, result)
      modifies `disk, `fates
      ensures Valid()
      ensures disk == if Effective(HeadFate(old(fates))) then Answered(old(disk), request, result) else old(disk)
      ensures exit == WriteExit(HeadFate(old(fates))) && fates == RestOf(old(fates))
    {
      ResultKeepsInv(genesis, disk, request, result, log, started);
      var f := NextFate();
      if f == Done || f == FailedAfter {
        disk := disk.(queue := disk.queue.(results := disk.queue.results[request := result]));
      }
      return if f == Done then Returned else if f == Killed then Died else OsError;
    }

    // ----------------------------------------------------------------
    // One pass.
    // ----------------------------------------------------------------

    /** publish_current_projection without a state: reads active.json outside the lock,
        so what it writes may be out of date by then. */
    method PublishCurrentProjection() returns (exit: Exit)
      requires Valid()
      modifies `disk, `log, `fates, `started, `turns
      ensures Valid() && disk.queue == old(disk).queue
      ensures old(disk).history.Keys <= disk.history.Keys
      ensures OnlyRollbacks(old(log), log) == true
      ensures Safe(old(disk), disk)
      ensures !exit.BuildError?
      ensures Quiet(old(turns)) && old(fates) == [] ==>
                && exit.Returned? && Quiet(turns) && fates == []
                && disk == old(disk).(projection := CurrentProjection(disk.active)) && log == old(log)
    {
      var p := CurrentProjection(disk.active);
      var _ := NextTurn();
      ProjectionKeepsInv(genesis, disk, log, started, p);
      exit := WriteProjection(p);
    }

    /** recover_pending_rollback: finish a rollback that has a journal, start none. */
    method RecoverPendingRollback() returns (exit: Exit)
      requires Valid()
      modifies `disk, `log, `fates, `started, `turns
      ensures Valid() && disk.queue == old(disk).queue
      ensures old(disk).history.Keys <= disk.history.Keys
      ensures OnlyRollbacks(old(log), log) == true
      ensures Safe(old(disk), disk)
      ensures Head(old(turns)).contended ==> exit == BuildError(false)
      ensures Quiet(old(turns)) && old(fates) == [] ==>
                && exit.Returned? && Quiet(turns) && fates == [] && disk.rollback.None?
                && (if old(disk).rollback.Some?
                    then disk.active == old(disk).rollback.value.target && Settled(disk)
                    else disk == old(disk) && log == old(log))
    {
      var turn := NextTurn();
      if turn.contended { return BuildError(false); }
      exit := Returned;
      if disk.rollback.Some? {
        ghost var before := log;
        exit := FinishRollbackLocked();
        RollbacksCompose(old(log), before, log);
      }
    }

    /** Nothing interfered so far: no faults, no other process. */
    predicate Calm()
      reads this
    {
      Quiet(turns) && fates == []
    }

    /** Only these requests' results changed. */
    ghost predicate OthersSame(o: Queue, d: Queue, requests: seq<string>) {
      forall r | r !in requests :: SameResult(o, d, r)
    }

    predicate SameResult(o: Queue, d: Queue, r: string) {
      (r in d.results <==> r in o.results) && (r in o.results ==> d.results[r] == o.results[r])
    }

    lemma OthersSameSince(o: Queue, m: Queue, d: Queue, requests: seq<string>)
      requires m.results == o.results && OthersSame(m, d, requests) == true
      ensures OthersSame(o, d, requests) == true
    {
      forall r | r !in requests ensures SameResult(o, d, r) { assert SameResult(m, d, r); }
    }

    /** The result file is replaced only where a pass may replace it. */
    method RecordResult(request: string, result: Result, ghost done: set<string>) returns (exit: Exit)
      requires Valid() && ResultOk(disk.queue, request, result)
      requires request in disk.queue.results ==>
                 || Requeued(disk.queue.results[request])
                 || (disk.queue.results[request].Ready? && request in done && result.Final? && !result.retryable)
      requires ReportsPromotion(result) ==> InHistory(disk, result)
      modifies `disk, `fates
      ensures Valid()
      ensures PassStep(old(disk), log, disk, log, steady, done, done) == true
      ensures disk == old(disk) || disk == Answered(old(disk), request, result)
      ensures ReadyKept(old(disk).queue, disk.queue, {request}) == true
      ensures OthersSame(old(disk).queue, disk.queue, [request]) == true
      ensures (request in old(disk).queue.results ==> !old(disk).queue.results[request].Ready?) ==>
                ReadyKept(old(disk).queue, disk.queue, {}) == true
      ensures exit.Returned? ==> request in disk.queue.results && disk.queue.results[request] == result
      ensures old(fates) == [] ==> exit == Returned && fates == []
    {
      ResultIsStep(disk, request, result, log, steady, done);
      exit := WriteResult(request, result);
      AnsweredKeepsReady(old(disk), disk, request, result);
    }

    /** The submission has its answer, and no later pass takes it up again. */
    predicate Answers(q: Queue, request: string, submission: Submission, policy: Policy) {
      && request in q.receipts && request in q.results
      && Fits(q.receipts[request], submission, policy, q.results[request])
    }

    lemma AnswersStay(o: Queue, before: Log, d: Queue, after: Log, request: string, submission: Submission,
                      policy: Policy)
      requires Answers(o, request, submission, policy) && PassKeeps(o, before, d, after) && ReadyKept(o, d, {})
      ensures Answers(d, request, submission, policy) == true
    {
    }

    /** Of the listed submissions those that wait for an answer at `o` have one at `d`, and
        no other result changed. */
    ghost predicate AllAnswered(o: Queue, d: Queue, policy: Policy, submissions: map<string, Submission>,
                                listed: seq<string>)
    {
      && (forall r <- listed | Awaits(o, submissions, r) :: Answers(d, r, submissions[r], policy))
      && OthersSame(o, d, listed)
    }

    /** The submission loop takes this request up. */
    predicate Awaits(q: Queue, submissions: map<string, Submission>, r: string) {
      r in submissions && r in q.receipts && (r in q.results ==> Requeued(q.results[r]))
    }

    /** One more listed request, from `m` to `d`: it was answered just now if it still waited. */
    lemma OneMoreAnswered(o: Queue, m: Queue, before: Log, d: Queue, after: Log, policy: Policy,
                          submissions: map<string, Submission>, order: seq<string>, i: nat)
      requires i < |order| && AllAnswered(o, m, policy, submissions, order[..i])
      requires PassKeeps(m, before, d, after) && ReadyKept(m, d, {})
      requires Awaits(m, submissions, order[i]) ==> Answers(d, order[i], submissions[order[i]], policy)
      requires m.receipts == o.receipts && OthersSame(m, d, [order[i]])
      ensures AllAnswered(o, d, policy, submissions, order[..i + 1]) == true
    {
      forall r <- order[..i + 1] | Awaits(o, submissions, r) ensures Answers(d, r, submissions[r], policy) {
        if r in order[..i] {
          AnswersStay(m, before, d, after, r, submissions[r], policy);
        } else {
          assert r == order[i] && SameResult(o, m, r);
        }
      }
      forall r | r !in order[..i + 1] ensures SameResult(o, d, r) {
        assert order[..i + 1] == order[..i] + [order[i]];
        assert SameResult(o, m, r) && SameResult(m, d, r);
      }
    }

    /** A submission was processed, from `o` to `m`, and its result recorded. */
    lemma SubmittedIsStep(o: Disk, before: Log, m: Disk, after: Log, d: Disk, request: string)
      requires PassStep(o, before, m, after, steady, {}, {}) == true
      requires PassStep(m, after, d, after, steady, {}, {}) == true
      requires ReadyKept(o.queue, m.queue, {}) == true && ReadyKept(m.queue, d.queue, {}) == true
      requires m.queue.results == o.queue.results && OthersSame(m.queue, d.queue, [request]) == true
      ensures PassStep(o, before, d, after, steady, {}, {}) == true
      ensures ReadyKept(o.queue, d.queue, {}) == true && OthersSame(o.queue, d.queue, [request]) == true
    {
      ReadyKeptComposes(o.queue, m.queue, d.queue, {}, {});
      OthersSameSince(o.queue, m.queue, d.queue, [request]);
      StepsCompose(o, before, m, after, d, after, steady, {}, {}, {});
    }

    /** One round of the submission loop. */
    method SubmitOne(request: string, policy: Policy, submission: Submission) returns (exit: Exit)
      requires Valid() && request in disk.queue.receipts
      requires request in disk.queue.results ==> Requeued(disk.queue.results[request])
      modifies `disk, `log, `fates, `started, `turns
      ensures Valid()
      ensures PassStep(old(disk), old(log), disk, log, steady, {}, {}) == true
      ensures ReadyKept(old(disk).queue, disk.queue, {}) == true
      ensures exit.Returned? ==> Answers(disk.queue, request, submission, policy) == true
      ensures OthersSame(old(disk).queue, disk.queue, [request]) == true
      ensures old(Calm()) ==>
                && exit.Returned? && Calm() && disk.rollback == old(disk).rollback
                && AnswersQuietly(old(disk), request, policy, submission, disk.queue.results[request]) == true
    {
      var result;
      exit, result := ProcessSubmission(request, policy, submission);
      BuiltKeepsReady(old(disk).queue, disk.queue);
      BuildsArePassStep(old(disk), old(log), disk, log, steady, {});
      if exit.Returned? {
        ghost var middle := disk;
        exit := RecordResult(request, result, {});
        SubmittedIsStep(old(disk), old(log), middle, log, disk, request);
      }
    }

    method ProcessSubmissions(policy: Policy, submissions: map<string, Submission>, order: seq<string>)
      returns (exit: Exit)
      requires Valid()
      modifies `disk, `log, `fates, `started, `turns
      ensures Valid()
      ensures PassStep(old(disk), old(log), disk, log, steady, {}, {}) == true
      ensures old(Calm()) ==> exit.Returned? && Calm() && disk.rollback == old(disk).rollback
      ensures ReadyKept(old(disk).queue, disk.queue, {}) == true
      ensures submissions == map[] ==> exit.Returned? && disk == old(disk) && log == old(log)
      ensures exit.Returned? ==> AllAnswered(old(disk).queue, disk.queue, policy, submissions, order) == true
    {
      exit := Returned;
      assert PassStep(disk, log, disk, log, steady, {}, {});
      for i := 0 to |order|
        invariant Valid()
        invariant ReadyKept(old(disk).queue, disk.queue, {}) == true
        invariant submissions == map[] ==> disk == old(disk) && log == old(log)
        invariant PassStep(old(disk), old(log), disk, log, steady, {}, {}) == true
        invariant exit.Returned?
        invariant AllAnswered(old(disk).queue, disk.queue, policy, submissions, order[..i]) == true
        invariant old(Calm()) ==> Calm() && disk.rollback == old(disk).rollback
      {
        var request := order[i];
        ghost var before, beforeLog := disk, log;
        if && request in submissions
           && request in disk.queue.receipts
           && (request in disk.queue.results ==> Requeued(disk.queue.results[request]))
        {
          exit := SubmitOne(request, policy, submissions[request]);
          StepsCompose(old(disk), old(log), before, beforeLog, disk, log, steady, {}, {}, {});
          ReadyKeptComposes(old(disk).queue, before.queue, disk.queue, {}, {});
          if !exit.Returned? { return; }
        }
        OneMoreAnswered(old(disk).queue, before.queue, beforeLog, disk.queue, log, policy, submissions, order, i);
      }
      assert order[..|order|] == order;
    }

    /** The terminal result of a commit, then the projection. */
    method ConcludeCommit(request: string, result: Result, ghost done: set<string>) returns (exit: Exit)
      requires Valid() && request in done && result.Final? && !result.retryable
      requires ReportsPromotion(result) ==> InHistory(disk, result)
      requires request in disk.queue.results && disk.queue.results[request].Ready?
      modifies `disk, `log, `fates, `started, `turns
      ensures Valid()
      ensures PassStep(old(disk), old(log), disk, log, steady, done, done) == true
      ensures exit.Returned? ==> request in disk.queue.results && disk.queue.results[request] == result
      ensures ReadyKept(old(disk).queue, disk.queue, {request}) == true
      ensures old(Calm()) ==> exit.Returned? && Calm() && disk.rollback == old(disk).rollback
      ensures old(Calm()) && result.outcome in {PromotedOutcome, UnchangedOutcome} ==>
                disk.projection == CurrentProjection(disk.active)
      ensures old(Calm()) && result.outcome == PromotionConflict ==>
                disk == Answered(old(disk), request, result) && log == old(log)
    {
      exit := RecordResult(request, result, done);
      if exit.Returned? && result.outcome in {PromotedOutcome, UnchangedOutcome} {
        ghost var written := disk;
        exit := PublishCurrentProjection();
        BuildsArePassStep(written, old(log), disk, log, steady, done);
        StepsCompose(old(disk), old(log), written, old(log), disk, log, steady, done, done, done);
      }
    }

    /** One round of the commit loop. */
    method CommitOne(request: string, policy: Policy, ghost done: set<string>) returns (exit: Exit)
      requires Valid() && request !in done
      requires request in disk.queue.markers && request in disk.queue.results
      requires disk.queue.results[request].Ready?
      modifies `disk, `log, `fates, `started, `turns
      ensures Valid()
      ensures PassEffect(old(disk), old(log), disk, log) == true
      ensures policy == steady && RecoverableBut(old(disk), steady, done) ==>
                RecoverableBut(disk, steady, if exit.Returned? then done + {request} else done)
      ensures exit.Returned? ==> Ended(disk.queue, request)
      ensures old(Calm()) ==> RecordedAs(disk, request, old(disk).queue.results[request].candidate,
                                         CommitOutcome(old(disk), request, policy, Head(old(turns)))) == true
      ensures ReadyKept(old(disk).queue, disk.queue, {request}) == true
      ensures exit.Returned? && CheckCommit(old(disk).queue, request, policy).Reject? ==>
                EndedInConflict(old(disk).queue, disk.queue, request)
      ensures old(Calm()) ==> exit.Returned? && Calm() && disk.rollback == old(disk).rollback
      ensures old(Calm()) && CheckCommit(old(disk).queue, request, policy).Reject? ==>
                disk == Answered(old(disk), request, Conflicted(old(disk).queue, request)) && log == old(log)
    {
      var candidate := disk.queue.results[request].candidate;
      var commit := ProcessCommit(request, policy, done);
      CommitIsPassStep(old(disk), old(log), disk, log, request);
      JournaledKeepsReady(old(disk).queue, disk.queue, request);
      if commit.Escaped? { return commit.exit; }
      if commit.Concluded? { ConcludedIsInHistory(disk, commit.result, candidate); }
      ghost var middle, middleLog := disk, log;
      exit := ConcludeCommit(request,
                             if commit.Concluded? then commit.result
                             else Final(commit.outcome, false, Some(candidate), None),
                             done + {request});
      ReadyKeptComposes(old(disk).queue, middle.queue, disk.queue, {}, {request});
      EffectsCompose(old(disk), old(log), middle, middleLog, disk, log);
    }

    /** One marker of the commit loop: its commit, if there is one to take up. */
    method ConsiderCommit(request: string, policy: Policy, ghost done: set<string>) returns (exit: Exit)
      requires Valid() && request !in done
      modifies `disk, `log, `fates, `started, `turns
      ensures Valid()
      ensures PassEffect(old(disk), old(log), disk, log) == true
      ensures policy == steady && RecoverableBut(old(disk), steady, done) ==>
                RecoverableBut(disk, steady, if exit.Returned? then done + {request} else done)
      ensures old(Calm()) ==> exit.Returned? && Calm() && disk.rollback == old(disk).rollback
      ensures ReadyKept(old(disk).queue, disk.queue, {request}) == true
      ensures old(Calm()) && Committable(old(disk).queue, request) ==>
                RecordedAs(disk, request, old(disk).queue.results[request].candidate,
                           CommitOutcome(old(disk), request, policy, Head(old(turns)))) == true
      ensures exit.Returned? && Committable(old(disk).queue, request) ==> Ended(disk.queue, request)
      ensures && exit.Returned? && Committable(old(disk).queue, request)
              && CheckCommit(old(disk).queue, request, policy).Reject?
              ==> EndedInConflict(old(disk).queue, disk.queue, request)
      ensures !Committable(old(disk).queue, request) ==> exit.Returned? && disk == old(disk) && log == old(log)
      ensures && old(Calm()) && Committable(old(disk).queue, request)
              && CheckCommit(old(disk).queue, request, policy).Reject?
              ==> disk == Answered(old(disk), request, Conflicted(old(disk).queue, request)) && log == old(log)
    {
      if && request in disk.queue.markers
         && request in disk.queue.results
         && disk.queue.results[request].Ready?
      {
        exit := CommitOne(request, policy, done);
      } else {
        exit := Returned;
        assert PassEffect(disk, log, disk, log);
        if policy == steady && RecoverableBut(disk, steady, done) {
          ConcludedIsRecoverable(disk, steady, done, request);
        }
      }
    }

    method ProcessCommits(policy: Policy, order: seq<string>) returns (exit: Exit)
      requires Valid()
      requires forall i, j :: 0 <= i < j < |order| ==> order[i] != order[j]
      modifies `disk, `log, `fates, `started, `turns
      ensures Valid()
      ensures PassEffect(old(disk), old(log), disk, log) == true
      ensures policy == steady && Recoverable(old(disk), steady) ==> Recoverable(disk, steady)
      ensures old(Calm()) ==> exit.Returned? && Calm() && disk.rollback == old(disk).rollback
      ensures && old(Calm()) && policy == steady && Recoverable(old(disk), steady)
              && old(disk).rollback.None? && (forall r <- old(disk).queue.markers :: r in order)
              ==> CurrentRecorded(disk)
      ensures exit.Returned? ==> RefusedEnded(old(disk).queue, disk.queue, policy, order)
      ensures exit.Returned? ==> AllEnded(old(disk).queue, disk.queue, order) == true
      ensures old(Calm()) && AllRefused(old(disk).queue, policy, order) ==>
                RefusedInto(old(disk), disk, order) && log == old(log)
    {
      exit := Returned;
      ghost var done: set<string> := {};
      assert PassEffect(disk, log, disk, log);
      for i := 0 to |order|
        invariant Valid()
        invariant forall r :: r in done <==> r in order[..i]
        invariant PassEffect(old(disk), old(log), disk, log) == true
        invariant policy == steady && Recoverable(old(disk), steady) ==> RecoverableBut(disk, steady, done)
        invariant exit.Returned?
        invariant ReadyKept(old(disk).queue, disk.queue, done) == true
        invariant RefusedEnded(old(disk).queue, disk.queue, policy, order[..i]) == true
        invariant AllEnded(old(disk).queue, disk.queue, order[..i]) == true
        invariant old(Calm()) ==> Calm() && disk.rollback == old(disk).rollback
        invariant old(Calm()) && AllRefused(old(disk).queue, policy, order) ==>
                    RefusedInto(old(disk), disk, order[..i]) == true && log == old(log)
      {
        var request := order[i];
        assert request !in order[..i];
        if RefusedInto(old(disk), disk, order[..i]) { OneMoreRefused(old(disk), disk, order, i); }
        ghost var before, beforeLog := disk, log;
        exit := ConsiderCommit(request, policy, done);
        EffectsCompose(old(disk), old(log), before, beforeLog, disk, log);
        if !exit.Returned? { return; }
        OneMoreEnded(old(disk).queue, old(log), before.queue, beforeLog, disk.queue, log, policy, order, i, done);
        OneMoreCommitEnded(old(disk).queue, old(log), before.queue, beforeLog, disk.queue, log, order, i, done);
        ReadyKeptComposes(old(disk).queue, before.queue, disk.queue, done, {request});
        done := done + {request};
      }
    }

    /** Of the listed submissions those that wait for an answer at `o` wait no more. */
    ghost predicate NoneWaits(o: Queue, d: Queue, submissions: map<string, Submission>, listed: seq<string>) {
      forall r <- listed | Awaits(o, submissions, r) :: r in d.results && !Requeued(d.results[r])
    }

    lemma NoneWaitsLater(o: Queue, m: Queue, before: Log, d: Queue, after: Log, policy: Policy,
                         submissions: map<string, Submission>, listed: seq<string>)
      requires AllAnswered(o, m, policy, submissions, listed) && PassKeeps(m, before, d, after)
      ensures NoneWaits(o, d, submissions, listed) == true
    {
      forall r <- listed | Awaits(o, submissions, r) ensures r in d.results && !Requeued(d.results[r]) {
        assert Answers(m, r, submissions[r], policy);
      }
    }

    /** process_remote: one idempotent pass under `policy`. */
    method ProcessRemote(policy: Policy, submissions: map<string, Submission>,
                         incoming: seq<string>, commits: seq<string>)
      returns (exit: Exit)
      requires Valid()
      requires forall i, j :: 0 <= i < j < |commits| ==> commits[i] != commits[j]
      modifies `disk, `log, `fates, `started, `turns
      ensures Valid()
      ensures PassEffect(old(disk), old(log), disk, log) == true
      ensures policy == steady && Recoverable(old(disk), steady) ==> Recoverable(disk, steady)
      ensures && old(Calm()) && policy == steady && Recoverable(old(disk), steady)
              && (forall r <- old(disk).queue.markers :: r in commits)
              ==> exit.Returned? && Settled(disk)
      ensures exit.Returned? ==> RefusedEnded(old(disk).queue, disk.queue, policy, commits)
      ensures exit.Returned? ==>
                && AllEnded(old(disk).queue, disk.queue, commits) == true
                && NoneWaits(old(disk).queue, disk.queue, submissions, incoming) == true
      ensures old(Calm()) ==> exit.Returned?
      ensures Head(old(turns)).contended ==> exit == BuildError(false) && disk.queue == old(disk).queue
      ensures && old(Calm()) && old(disk).rollback.None? && submissions == map[]
              && AllRefused(old(disk).queue, policy, commits)
              ==> exit.Returned? && Calm() && log == old(log) && RefusedInto(old(disk), disk, commits)
    {
      exit := RecoverPendingRollback();
      BuildsArePassStep(old(disk), old(log), disk, log, steady, {});
      ghost var d1, l1 := disk, log;
      if !exit.Returned? { return; }
      exit := PublishCurrentProjection();
      BuildsArePassStep(d1, l1, disk, log, steady, {});
      StepsCompose(old(disk), old(log), d1, l1, disk, log, steady, {}, {}, {});
      ghost var d2, l2 := disk, log;
      if !exit.Returned? { return; }
      exit := ProcessSubmissions(policy, submissions, incoming);
      StepsCompose(old(disk), old(log), d2, l2, disk, log, steady, {}, {}, {});
      ghost var d3, l3 := disk, log;
      if !exit.Returned? { return; }
      exit := ProcessCommits(policy, commits);
      EffectsCompose(old(disk), old(log), d3, l3, disk, log);
      ghost var d4, l4 := disk, log;
      if !exit.Returned? { return; }
      RefusedFromStart(old(disk).queue, old(log), d3.queue, l3, disk.queue, policy, commits);
      EndedFromStart(old(disk).queue, old(log), d3.queue, l3, disk.queue, commits);
      NoneWaitsLater(old(disk).queue, d3.queue, l3, disk.queue, log, policy, submissions, incoming);
      exit := PublishCurrentProjection();
      BuildsArePassStep(d4, l4, disk, log, steady, {});
      EffectsCompose(old(disk), old(log), d4, l4, disk, log);
    }

    // ----------------------------------------------------------------
    // Whole runs.
    // ----------------------------------------------------------------

    /** One operation, from whatever the last one left. */
    method Perform(op: Operation)
      requires Valid() && WellFormed(op)
      modifies this
      ensures Valid()
      ensures op.Arrival? ==>
                && disk == old(disk).(queue := Arrived(old(disk).queue, op.request, op.receipt, op.marker))
                && log == old(log)
      ensures RunKeeps(old(disk).queue, old(log), disk.queue, log) == true && Honest(old(disk), disk) == true
      ensures (op.Pass? ==> op.policy == steady) && Recoverable(old(disk), steady) ==> Recoverable(disk, steady)
    {
      match op
      case Pass(policy, submissions, incoming, commits, faults, meets) =>
        fates, turns := faults, meets;
        var _ := ProcessRemote(policy, submissions, incoming, commits);
      case RollBack(call) =>
        fates := call.fates;
        var _ := Rollback(call);
        BuildsArePassStep(old(disk), old(log), disk, log, steady, {});
      case Arrival(request, receipt, marker) =>
        ArrivalKeepsInv(genesis, disk, log, started, request, receipt, marker);
        ArrivalKeepsRecoverable(disk, steady, request, receipt, marker);
        disk := disk.(queue := Arrived(disk.queue, request, receipt, marker));
    }

    /** Any run of serialised passes, rollbacks and arrivals. */
    method Run(ops: seq<Operation>)
      requires Valid() && forall op <- ops :: WellFormed(op)
      modifies this
      ensures Valid() && Refines(genesis, disk, log)
      ensures RunKeeps(old(disk).queue, old(log), disk.queue, log) == true
      ensures Honest(old(disk), disk) && Extends(old(disk).history, disk.history)
      ensures (forall op <- ops :: op.Pass? ==> op.policy == steady) && Recoverable(old(disk), steady)
              ==> Recoverable(disk, steady)
    {
      for i := 0 to |ops|
        invariant Valid()
        invariant RunKeeps(old(disk).queue, old(log), disk.queue, log) == true && Honest(old(disk), disk) == true
        invariant (forall op <- ops :: op.Pass? ==> op.policy == steady) && Recoverable(old(disk), steady)
                  ==> Recoverable(disk, steady)
      {
        ghost var before, beforeLog := disk, log;
        Perform(ops[i]);
        RunsCompose(old(disk).queue, old(log), before.queue, beforeLog, disk.queue, log);
        HonestComposes(old(disk), before, disk);
      }
      HistoryStays(genesis, old(disk), old(log), old(started), disk, log, started);
      InvRefines(genesis, disk, log, started);
    }

    /** However a run under one policy was interrupted, one uninterrupted pass that lists
        every marker finishes all of its unfinished work, whatever builds still verify. */
    method RunThenRecover(ops: seq<Operation>, policy: Policy, submissions: map<string, Submission>,
                          incoming: seq<string>, commits: seq<string>, quiet: seq<Turn>)
      requires Valid() && Recoverable(disk, steady) && policy == steady
      requires forall op <- ops :: WellFormed(op) && (op.Pass? ==> op.policy == policy)
      requires forall i, j :: 0 <= i < j < |commits| ==> commits[i] != commits[j]
      requires Quiet(quiet)
      modifies this
      ensures Valid() && Refines(genesis, disk, log)
      ensures (forall r <- disk.queue.markers :: r in commits) ==> Settled(disk)
    {
      Run(ops);
      fates, turns := [], quiet;
      var _ := ProcessRemote(policy, submissions, incoming, commits);
      InvRefines(genesis, disk, log, started);
    }

    /** A commit interrupted between its swap and its history record, met by a pass under
        another release policy: if that pass refuses every commit it lists, it turns each
        into a terminal conflict.  From then on no pass takes one up again, under whatever
        policy: the selected record stays out of history. */
    method OtherPolicyLosesCommit(other: Policy, policy: Policy, incoming: seq<string>, commits: seq<string>)
      requires Valid() && Calm() && disk.rollback.None? && !CurrentRecorded(disk)
      requires forall i, j :: 0 <= i < j < |commits| ==> commits[i] != commits[j]
      requires (forall r <- disk.queue.markers :: r in commits) && AllRefused(disk.queue, other, commits)
      modifies `disk, `log, `fates, `started, `turns
      ensures Valid() && log == old(log) && disk.active == old(disk).active && !CurrentRecorded(disk)
      ensures forall r <- old(disk).queue.markers | Committable(old(disk).queue, r) ::
                r in disk.queue.results && disk.queue.results[r] == Conflicted(old(disk).queue, r)
      ensures forall p :: !Recoverable(disk, p)
    {
      var _ := ProcessRemote(other, map[], incoming, commits);
      RefusedIsLost(old(disk), disk, commits);
      ghost var refused := disk;
      var _ := ProcessRemote(policy, map[], incoming, commits);
      RefusedIsLost(refused, disk, commits);
    }
  }
}
