/** Deployment records, the selected state, and the two pure transitions that may
    change it (src/homeops_ai/deployment.py).

    A deployment ID is the SHA-256 of the record's identity fields.  The hash is
    treated as injective, so here the identity value stands for its own ID. */
module Deployment {

  import opened Wrappers

  /** A non-empty timestamp; producing one is outside the model. */
  type Time = s: string | s != "" witness "t"

  datatype Identity = Identity(
    runId: string,
    snapshotId: string,
    sourceFingerprint: string,
    artifactFingerprint: string,
    logicalFingerprint: string,
    homeopsVersion: string,
    sourceRevision: string,
    imageDigest: string,
    snapshotSchema: nat,
    snapshotContract: string,
    buildSchema: nat,
    buildContract: string)

  datatype Record = Record(
    id: Identity,
    snapshotCreatedAt: string,
    snapshotReceivedAt: string,
    buildCompletedAt: string,
    buildVerifiedAt: string,
    promotedAt: Option<Time>)

  /** Schema-v2 content of active.json.  The run IDs repeat what the records say. */
  datatype State = State(
    current: Option<string>,
    previous: Option<string>,
    currentDeployment: Option<Record>,
    previousDeployment: Option<Record>,
    promotedAt: Option<Time>)

  predicate ValidState(s: State) {
    && (if s.currentDeployment.None?
        then s.current.None? && s.previousDeployment.None? && s.previous.None?
        else s.current == Some(s.currentDeployment.value.id.runId))
    && (if s.previousDeployment.None?
        then s.previous.None?
        else s.previous == Some(s.previousDeployment.value.id.runId))
  }

  predicate DistinctIds(s: State) {
    s.currentDeployment.Some? && s.previousDeployment.Some? ==>
      s.currentDeployment.value.id != s.previousDeployment.value.id
  }

  predicate Selects(s: State, id: Identity) {
    s.currentDeployment.Some? && s.currentDeployment.value.id == id
  }

  function CurrentId(s: State): Option<Identity> {
    if s.currentDeployment.Some? then Some(s.currentDeployment.value.id) else None
  }

  function RunOf(r: Option<Record>): Option<string> {
    if r.Some? then Some(r.value.id.runId) else None
  }

  datatype Selection = Promoted(state: State) | Unchanged(state: State) | Conflict

  /** The compare-and-swap.  Re-selecting the selected ID is answered before the
      expected ID is looked at. */
  function SelectDeployment(s: State, candidate: Record, expected: Option<Identity>, at: Time): Selection {
    if Selects(s, candidate.id) then Unchanged(s)
    else if CurrentId(s) != expected then Conflict
    else
      Promoted(State(
        Some(candidate.id.runId),
        RunOf(s.currentDeployment),
        Some(candidate.(promotedAt := Some(at))),
        s.currentDeployment,
        Some(at)))
  }

  function RollbackTransition(s: State, at: Time): Option<State> {
    if s.currentDeployment.None? || s.previousDeployment.None? then None
    else
      Some(State(
        Some(s.previousDeployment.value.id.runId),
        Some(s.currentDeployment.value.id.runId),
        Some(s.previousDeployment.value.(promotedAt := Some(at))),
        s.currentDeployment,
        Some(at)))
  }

  /** The redacted identity published in current.json; None is the empty projection. */
  datatype Projection = Projection(id: Option<Identity>, promotedAt: Option<Time>)

  function CurrentProjection(s: State): Projection {
    if s.currentDeployment.None? then Projection(None, None)
    else Projection(Some(s.currentDeployment.value.id), s.currentDeployment.value.promotedAt)
  }

  // ------------------------------------------------------------------
  // The abstract machine: a log of transitions, replayed from a start.
  // ------------------------------------------------------------------

  /** One change of active.json.  `request` names the commit that caused it and
      `serial` numbers the rollback journal that caused it. */
  datatype Transition =
    | Committed(request: string, candidate: Record, expected: Option<Identity>, at: Time)
    | RolledBack(serial: nat, at: Time)

  function Step(s: State, t: Transition): Option<State> {
    match t
    case Committed(_, candidate, expected, at) =>
      (match SelectDeployment(s, candidate, expected, at)
       case Promoted(next) => Some(next)
       case _ => None)
    case RolledBack(_, at) => RollbackTransition(s, at)
  }

  /** Every change of active.json so far, latest last. */
  datatype Log = Start | After(log: Log, last: Transition)

  function Replay(s: State, log: Log): Option<State> {
    match log
    case Start => Some(s)
    case After(before, t) =>
      var m := Replay(s, before);
      if m.None? then None else Step(m.value, t)
  }

  function Commits(log: Log, request: string): nat {
    match log
    case Start => 0
    case After(before, t) =>
      Commits(before, request) + if t.Committed? && t.request == request then 1 else 0
  }

  function Moves(log: Log, serial: nat): nat {
    match log
    case Start => 0
    case After(before, t) =>
      Moves(before, serial) + if t.RolledBack? && t.serial == serial then 1 else 0
  }

  /** Only rollbacks were logged since `before`. */
  predicate OnlyRollbacks(before: Log, after: Log) {
    after == before
    || (after.After? && after.last.RolledBack? && OnlyRollbacks(before, after.log))
  }

  /** Only rollbacks and commits of `request` were logged since `before`. */
  predicate OnlyCommit(before: Log, after: Log, request: string) {
    after == before
    || (&& after.After?
        && (after.last.Committed? ==> after.last.request == request)
        && OnlyCommit(before, after.log, request))
  }

  lemma {:induction false} RollbacksKeepCommits(before: Log, after: Log)
    requires OnlyRollbacks(before, after)
    ensures forall r :: Commits(after, r) == Commits(before, r)
  {
    if after != before { RollbacksKeepCommits(before, after.log); }
  }

  lemma {:induction false} RollbacksCompose(a: Log, b: Log, c: Log)
    requires OnlyRollbacks(a, b) && OnlyRollbacks(b, c)
    ensures OnlyRollbacks(a, c)
  {
    if c != b { RollbacksCompose(a, b, c.log); }
  }

  lemma {:induction false} RollbacksAreNoCommit(before: Log, after: Log, request: string)
    requires OnlyRollbacks(before, after)
    ensures OnlyCommit(before, after, request)
  {
    if after != before { RollbacksAreNoCommit(before, after.log, request); }
  }

  lemma {:induction false} CommitsCompose(a: Log, b: Log, c: Log, request: string)
    requires OnlyCommit(a, b, request) && OnlyCommit(b, c, request)
    ensures OnlyCommit(a, c, request)
  {
    if c != b { CommitsCompose(a, b, c.log, request); }
  }

  lemma {:induction false} OtherCommitsKept(before: Log, after: Log, request: string)
    requires OnlyCommit(before, after, request)
    ensures forall r :: r != request ==> Commits(after, r) == Commits(before, r)
  {
    if after != before { OtherCommitsKept(before, after.log, request); }
  }

  /** One record, whenever it was promoted. */
  predicate SameDeployment(a: Record, b: Record) {
    a.(promotedAt := None) == b.(promotedAt := None)
  }

  /** A change of active.json selects `r`, promoted at `at`, and keeps what was selected
      before as the previous deployment. */
  predicate SelectsInstead(o: State, d: State, r: Record, at: Time) {
    && d.currentDeployment.Some? && SameDeployment(d.currentDeployment.value, r)
    && d.currentDeployment.value.promotedAt == Some(at) && d.promotedAt == Some(at)
    && d.previousDeployment == o.currentDeployment
    && d.current == Some(r.id.runId)
    && (o.currentDeployment.Some? ==> d.previous == Some(o.currentDeployment.value.id.runId))
    && (o.currentDeployment.None? ==> d.previous.None?)
  }

  /** A commit selects its candidate, if exactly what it expects is selected. */
  lemma CommitSelects(s: State, candidate: Record, expected: Option<Identity>, at: Time)
    ensures var r := SelectDeployment(s, candidate, expected, at);
            var selected := s.currentDeployment.Some? && s.currentDeployment.value.id == candidate.id;
            && (r.Unchanged? <==> selected)
            && (r.Conflict? <==>
                  && !selected
                  && (if expected.Some?
                      then s.currentDeployment.None? || s.currentDeployment.value.id != expected.value
                      else s.currentDeployment.Some?))
            && (r.Unchanged? ==> r.state == s)
            && (r.Promoted? ==> SelectsInstead(s, r.state, candidate, at))
  {
  }

  /** A rollback selects the previous deployment again, if there are two. */
  lemma RollbackSelects(s: State, at: Time)
    ensures RollbackTransition(s, at).None? <==> s.currentDeployment.None? || s.previousDeployment.None?
    ensures RollbackTransition(s, at).Some? ==>
              SelectsInstead(s, RollbackTransition(s, at).value, s.previousDeployment.value, at)
  {
  }

  /** A rollback undoes a promotion: what was selected before it is selected again, and
      what it had selected becomes the previous deployment. */
  lemma RollbackUndoes(s: State, candidate: Record, expected: Option<Identity>, at: Time, later: Time)
    requires SelectDeployment(s, candidate, expected, at).Promoted? && s.currentDeployment.Some?
    ensures var back := RollbackTransition(SelectDeployment(s, candidate, expected, at).state, later);
            && back.Some?
            && back.value.currentDeployment == Some(s.currentDeployment.value.(promotedAt := Some(later)))
            && back.value.previousDeployment == Some(candidate.(promotedAt := Some(at)))
  {
    var promoted := SelectDeployment(s, candidate, expected, at).state;
    CommitSelects(s, candidate, expected, at);
    RollbackSelects(promoted, later);
  }

  /** Every state the machine can reach from a valid one is valid, never has the same
      deployment as both current and previous, and every single transition changes
      which deployment is selected, keeps the one selected before as the previous one,
      and is what the projection then shows. */
  lemma {:induction false} ReachableStates(s: State, log: Log)
    requires ValidState(s) && DistinctIds(s)
    requires Replay(s, log).Some?
    ensures ValidState(Replay(s, log).value) && DistinctIds(Replay(s, log).value)
    ensures log.After? ==>
              var o, d := Replay(s, log.log).value, Replay(s, log).value;
              && CurrentId(d) != CurrentId(o)
              && d.previousDeployment == o.currentDeployment
              && (match log.last
                  case Committed(_, candidate, expected, at) =>
                    CurrentId(o) == expected && SelectsInstead(o, d, candidate, at)
                  case RolledBack(_, at) =>
                    o.previousDeployment.Some? && SelectsInstead(o, d, o.previousDeployment.value, at))
              && CurrentProjection(d) == Projection(Some(d.currentDeployment.value.id), Some(log.last.at))
  {
    if log.After? {
      ReachableStates(s, log.log);
      var o := Replay(s, log.log).value;
      match log.last
      case Committed(_, candidate, expected, at) => CommitSelects(o, candidate, expected, at);
      case RolledBack(_, at) => RollbackSelects(o, at);
    }
  }

  function Length(log: Log): nat {
    if log.Start? then 0 else 1 + Length(log.log)
  }

  /** A run of rollbacks alternates between the two deployments it started with. */
  lemma {:induction false} RollbacksAlternate(s: State, before: Log, after: Log)
    requires OnlyRollbacks(before, after)
    requires Replay(s, before).Some? && Replay(s, after).Some?
    requires Replay(s, before).value.previousDeployment.Some?
    requires ValidState(s) && DistinctIds(s)
    ensures Length(after) >= Length(before)
    ensures var b, a := Replay(s, before).value, Replay(s, after).value;
            && a.previousDeployment.Some?
            && b.currentDeployment.Some?
            && (if (Length(after) - Length(before)) % 2 == 0
                then CurrentId(a) == CurrentId(b) && a.previousDeployment.value.id == b.previousDeployment.value.id
                else CurrentId(a) == Some(b.previousDeployment.value.id)
                     && Some(a.previousDeployment.value.id) == CurrentId(b))
  {
    ReachableStates(s, before);
    if after != before { RollbacksAlternate(s, before, after.log); }
  }
}
