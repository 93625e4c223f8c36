/** What the workstation, the receiver and the processor keep on disk while one
    publication attempt runs, and how the three must agree
    (src/homeops_ai/pipeline.py, internal/receiver/server.go).

    An archive stands for its own SHA-256 and a policy for its own ID. */
module PublicationState {
  import opened Wrappers

  datatype Outcome =
    | CandidateReady
    | Promoted | Unchanged | LocalVaultInvalid | LocalSourceChanged | PromotedSourceMoved | AuthorizationFailed
    | TransferFailed | RemoteSnapshotInvalid | BuildFailed | EvaluationFailed | PromotionConflict
    | PostPromotionMismatch | HomeopsUnavailable | Timeout | InternalError

  /** A snapshot by its ID and the fingerprints a later look at the vault is compared on. */
  datatype Snapshot = Snapshot(id: string, source: string, artifacts: string, logical: string)

  predicate SameIdentity(a: Snapshot, b: Snapshot) {
    a.source == b.source && a.artifacts == b.artifacts && a.logical == b.logical
  }

  datatype Request = Request(
    id: string, publisher: string, capability: string, releasePolicy: string,
    snapshotId: string, expected: string)

  datatype Archive = Archive(request: Request, snapshot: Snapshot)

  /** What the processor publishes for a request; absent fields are None. */
  datatype RemoteResult = RemoteResult(
    outcome: Outcome, retryable: bool, candidate: Option<string>, runId: Option<string>,
    snapshotId: Option<string>, expected: Option<string>, releasePolicy: Option<string>,
    promotionPolicy: Option<string>)

  /** What the workstation records as the outcome of an attempt. */
  datatype Report = Report(outcome: Outcome, requestId: string, remote: Option<RemoteResult>)

  datatype Phase = Prepared | Submitting | Submitted | Committing | CommitRequested | Terminal

  /** Nothing has been asked to be committed. */
  predicate Early(p: Phase) {
    p.Prepared? || p.Submitting? || p.Submitted?
  }

  predicate Authorizing(p: Phase) {
    p.Committing? || p.CommitRequested?
  }

  function Rank(p: Phase): nat {
    match p
    case Prepared => 0 case Submitting => 1 case Submitted => 2
    case Committing => 3 case CommitRequested => 4 case Terminal => 5
  }

  datatype Attempt = Attempt(
    phase: Phase, request: Request, snapshot: Snapshot, policy: string, archive: Archive,
    candidate: Option<string>, promotionPolicy: Option<string>, terminal: Option<Report>)

  /** _validate_pending_attempt. */
  predicate ValidAttempt(a: Attempt) {
    && a.snapshot.id == a.request.snapshotId
    && a.request.releasePolicy == a.policy
    && (Authorizing(a.phase) ==> a.candidate.Some? && a.promotionPolicy.Some?)
    && (a.phase == Terminal <==> a.terminal.Some?)
    && (a.terminal.Some? ==> a.terminal.value.outcome != CandidateReady)
  }

  /** The workstation's state directory. */
  datatype Local = Local(attempt: Option<Attempt>, archive: Option<Archive>, lastReport: Option<Report>)

  datatype Load = NoAttempt | Loaded(attempt: Attempt) | Broken

  /** _load_pending_attempt: Broken is its INTERNAL_ERROR. */
  function LoadPending(l: Local): Load {
    if l.attempt.None? then NoAttempt
    else if !ValidAttempt(l.attempt.value) then Broken
    else if l.attempt.value.phase != Terminal && l.archive != Some(l.attempt.value.archive) then Broken
    else Loaded(l.attempt.value)
  }

  /** An attempt is taken up exactly if it agrees with itself, names a candidate from the
      commit on and its result at the end, and its archive is there until then. */
  lemma LoadsExactly(l: Local)
    ensures LoadPending(l) == NoAttempt <==> l.attempt.None?
    ensures LoadPending(l).Loaded? <==>
              && l.attempt.Some?
              && var a := l.attempt.value;
                 && a.request.snapshotId == a.snapshot.id && a.request.releasePolicy == a.policy
                 && (a.phase in {Committing, CommitRequested} ==> a.candidate.Some? && a.promotionPolicy.Some?)
                 && (if a.phase == Terminal
                     then a.terminal.Some? && a.terminal.value.outcome != CandidateReady
                     else a.terminal.None? && l.archive == Some(a.archive))
    ensures LoadPending(l).Loaded? ==> l.attempt == Some(LoadPending(l).attempt)
  {
  }

  datatype Marker = Marker(candidate: string, expected: string, archive: Archive)

  datatype Current = Current(deployment: string, snapshot: Snapshot, policy: string, runId: string)

  /** The receiver's namespaces, what the processor has promoted, and current.json. */
  datatype Remote = Remote(
    incoming: map<string, Archive>,
    results: map<string, RemoteResult>,
    markers: map<string, Marker>,
    promoted: set<string>,
    current: Current)

  // ------------------------------------------------------------------
  // The processor, as the protocol sees it.
  // ------------------------------------------------------------------

  const SUBMISSION_OUTCOMES := {CandidateReady, Unchanged, RemoteSnapshotInvalid, BuildFailed, EvaluationFailed}
  const COMMIT_OUTCOMES := {Promoted, Unchanged, PromotionConflict, BuildFailed, PostPromotionMismatch}

  datatype Action =
    | SourceBecomes(source: Option<Snapshot>)
    | CurrentBecomes(current: Current)
    | AnswerSubmission(request: string, result: RemoteResult)
    | Promote(request: string)
    | AnswerCommit(request: string, result: RemoteResult)

  /** An action of the processor; one it could not take changes nothing.  It promotes
      and concludes only what has a marker and a candidate-ready result. */
  function Act(r: Remote, a: Action): Remote {
    match a
    case SourceBecomes(_) => r
    case CurrentBecomes(c) => r.(current := c)
    case AnswerSubmission(id, result) =>
      if && id in r.incoming && result.outcome in SUBMISSION_OUTCOMES
         && (id in r.results ==>
               && r.results[id].retryable
               && (r.results[id].outcome.BuildFailed? || r.results[id].outcome.EvaluationFailed?))
      then r.(results := r.results[id := result]) else r
    case Promote(id) =>
      if id in r.markers && id in r.results && r.results[id].outcome == CandidateReady
      then r.(promoted := r.promoted + {id}) else r
    case AnswerCommit(id, result) =>
      if && id in r.markers && id in r.results && r.results[id].outcome == CandidateReady
         && result.outcome in COMMIT_OUTCOMES
      then r.(results := r.results[id := result]) else r
  }

  /** The processor promotes a request only under a marker and a candidate-ready result, and
      replaces a result only by concluding such a commit or by trying a failed build or
      evaluation again; what it may do it can do. */
  lemma ActsInOrder(r: Remote, a: Action, id: string)
    ensures id in Act(r, a).promoted && id !in r.promoted ==>
              id in r.markers && id in r.results && r.results[id].outcome == CandidateReady
    ensures id in Act(r, a).results && (id !in r.results || Act(r, a).results[id] != r.results[id]) ==>
              || (&& id in r.markers && id in r.results && r.results[id].outcome == CandidateReady
                  && Act(r, a).results[id].outcome in COMMIT_OUTCOMES)
              || (&& id in r.incoming && Act(r, a).results[id].outcome in SUBMISSION_OUTCOMES
                  && (id !in r.results
                      || (r.results[id].retryable && r.results[id].outcome in {BuildFailed, EvaluationFailed})))
    ensures r.promoted <= Act(r, a).promoted && r.results.Keys <= Act(r, a).results.Keys
    ensures && a.AnswerSubmission? && a.request in r.incoming && a.result.outcome in SUBMISSION_OUTCOMES
            && (a.request in r.results ==>
                  && r.results[a.request].retryable
                  && r.results[a.request].outcome in {BuildFailed, EvaluationFailed})
            ==> Act(r, a) == r.(results := r.results[a.request := a.result])
  {
  }

  /** What holds of the remote side by itself. */
  predicate RemoteOk(r: Remote) {
    && r.results.Keys <= r.incoming.Keys
    && r.markers.Keys <= r.incoming.Keys
    && r.promoted <= r.markers.Keys
    && (forall id <- r.results ::
          && r.results[id].outcome in SUBMISSION_OUTCOMES + COMMIT_OUTCOMES
          && (r.results[id].outcome == Promoted ==> id in r.markers))
  }

  lemma ActKeepsRemoteOk(r: Remote, a: Action)
    requires RemoteOk(r)
    ensures RemoteOk(Act(r, a))
    ensures Act(r, a).incoming == r.incoming && Act(r, a).markers == r.markers
  {
  }

  // ------------------------------------------------------------------
  // The receiver.
  // ------------------------------------------------------------------

  datatype Reply = Accepted | Refused(outcome: Outcome)

  /** What the receiver's configured limits make of an archive: whether receiveArchive's own
      checks pass it, and whether its receipt fits the bound receipts are read back under. */
  datatype Limits = Limits(receivable: Archive -> bool, readable: Archive -> bool)

  /** An archive is published under this ID and its receipt can be read. */
  predicate Known(r: Remote, limits: Limits, id: string) {
    id in r.incoming && limits.readable(r.incoming[id])
  }

  /** The receiver takes this archive: its own checks pass it, and if it was published already,
      its receipt can be read. */
  predicate Takes(r: Remote, limits: Limits, a: Archive) {
    limits.receivable(a) && (a.request.id in r.incoming ==> limits.readable(a))
  }

  /** handleSubmit: publish once; the same bytes again are accepted where the receipt of the
      first time can be read. */
  function Submit(r: Remote, limits: Limits, a: Archive): (Remote, Reply) {
    if !limits.receivable(a) then (r, Refused(TransferFailed))
    else if a.request.id !in r.incoming then (r.(incoming := r.incoming[a.request.id := a]), Accepted)
    else if Known(r, limits, a.request.id) && r.incoming[a.request.id] == a then (r, Accepted)
    else (r, Refused(TransferFailed))
  }

  /** handleCommit, as one step (its interleavings are treated apart). */
  function Commit(r: Remote, limits: Limits, request: Request, candidate: string): (Remote, Reply) {
    var id := request.id;
    if !Known(r, limits, id) || r.incoming[id].request.capability != request.capability then
      (r, Refused(AuthorizationFailed))
    else if r.incoming[id].request.expected != request.expected then
      (r, Refused(PromotionConflict))
    else
      var marker := Marker(candidate, request.expected, r.incoming[id]);
      if id in r.markers then
        (r, if r.markers[id] == marker then Accepted else Refused(PromotionConflict))
      else if id !in r.results then (r, Refused(Timeout))
      else if && r.results[id].outcome == CandidateReady
              && r.results[id].candidate == Some(candidate)
              && r.results[id].expected == Some(request.expected)
      then (r.(markers := r.markers[id := marker]), Accepted)
      else (r, Refused(PromotionConflict))
  }

  /** A commit is accepted for a readable submission with its capability and expected
      deployment, if its marker already says the same, or if there is none and the result
      is ready with exactly this candidate; each other case has its own refusal. */
  lemma CommitAnswers(r: Remote, limits: Limits, request: Request, candidate: string)
    ensures var id, (next, reply) := request.id, Commit(r, limits, request, candidate);
            if id !in r.incoming || !limits.readable(r.incoming[id])
               || r.incoming[id].request.capability != request.capability
            then reply == Refused(AuthorizationFailed) && next == r
            else if r.incoming[id].request.expected != request.expected then
              reply == Refused(PromotionConflict) && next == r
            else if id in r.markers then
              && next == r
              && reply == if r.markers[id].candidate == candidate && r.markers[id].expected == request.expected
                             && r.markers[id].archive == r.incoming[id]
                          then Accepted else Refused(PromotionConflict)
            else if id !in r.results then reply == Refused(Timeout) && next == r
            else if r.results[id].outcome == CandidateReady && r.results[id].candidate == Some(candidate)
                    && r.results[id].expected == Some(request.expected)
            then
              && reply == Accepted
              && next == r.(markers := r.markers[id := Marker(candidate, request.expected, r.incoming[id])])
            else reply == Refused(PromotionConflict) && next == r
  {
  }

  // ------------------------------------------------------------------
  // Agreement between an attempt and the remote side.
  // ------------------------------------------------------------------

  /** What an attempt knows must be so remotely, and what is remote must be known. */
  predicate Agrees(a: Attempt, incoming: map<string, Archive>, markers: map<string, Marker>) {
    var id := a.request.id;
    && ValidAttempt(a)
    && a.archive == Archive(a.request, a.snapshot)
    && (Early(a.phase) ==> a.candidate.None?)
    && (id in incoming ==> incoming[id] == a.archive)
    && ((a.phase.Submitted? || a.phase.Committing? || a.phase.CommitRequested?) ==> id in incoming)
    && (a.phase == CommitRequested ==> id in markers)
    && (id in markers ==>
          && (a.phase.Committing? || a.phase.CommitRequested? || a.phase.Terminal?)
          && a.candidate == Some(markers[id].candidate)
          && markers[id].expected == a.request.expected
          && markers[id].archive == a.archive)
    && (a.terminal.Some? ==> a.terminal.value.requestId == id && Justified(a.terminal.value, id in markers))
  }

  /** Which outcomes an attempt may end with, given whether it has a marker. */
  predicate Justified(r: Report, committed: bool) {
    && (committed ==> r.outcome != LocalSourceChanged)
    && ((r.outcome.Promoted? || r.outcome.PromotedSourceMoved?) ==> committed)
  }

  /** The latest durable state of every attempt ever made. */
  type Progress = map<string, Attempt>

  predicate AllAgree(progress: Progress, incoming: map<string, Archive>, markers: map<string, Marker>) {
    forall id <- progress :: progress[id].request.id == id && Agrees(progress[id], incoming, markers)
  }

  ghost predicate Inv(l: Local, r: Remote, progress: Progress) {
    InvParts(l, r, progress) == true
  }

  ghost predicate InvParts(l: Local, r: Remote, progress: Progress) {
    && RemoteOk(r)
    && r.incoming.Keys <= progress.Keys
    && AllAgree(progress, r.incoming, r.markers) == true
    && (forall id <- progress :: progress[id].phase != Terminal ==> l.attempt == Some(progress[id]))
    && (l.attempt.Some? ==>
          && l.attempt.value.request.id in progress
          && progress[l.attempt.value.request.id] == l.attempt.value
          && (l.attempt.value.phase != Terminal ==> l.archive == Some(l.attempt.value.archive)))
    && (l.lastReport.Some? && l.lastReport.value.outcome == LocalSourceChanged ==>
          l.lastReport.value.requestId in progress ==>
            progress[l.lastReport.value.requestId].terminal == l.lastReport)
  }

  /** Every request ID on record was drawn, that of a run which began no attempt included. */
  predicate Accounted(l: Local, progress: Progress, drawn: set<string>) {
    progress.Keys <= drawn && (l.lastReport.Some? ==> l.lastReport.value.requestId in drawn)
  }

  /** How an attempt may change: what was agreed stays, phases only advance, and a
      terminal attempt is final. */
  predicate Forward(o: Attempt, d: Attempt) {
    && d.request == o.request && d.snapshot == o.snapshot && d.policy == o.policy && d.archive == o.archive
    && (o.candidate.Some? ==> d.candidate == o.candidate)
    && Rank(o.phase) <= Rank(d.phase)
    && (o.phase == Terminal ==> d == o)
  }

  predicate Kept(o: Progress, d: Progress) {
    forall id <- o :: id in d && Forward(o[id], d[id])
  }

  /** The same for the work on an attempt that exists already. */
  predicate Progresses(o: Progress, d: Progress) {
    d.Keys == o.Keys && Kept(o, d)
  }

  lemma ProgressStays(p: Progress)
    ensures Progresses(p, p) == true && Kept(p, p) == true
  {
  }

  lemma KeptComposes(a: Progress, b: Progress, c: Progress)
    requires Kept(a, b) && Kept(b, c)
    ensures Kept(a, c)
  {
    forall id <- a ensures id in c && Forward(a[id], c[id]) {
      assert Forward(a[id], b[id]) && Forward(b[id], c[id]);
    }
  }

  lemma ProgressComposes(a: Progress, b: Progress, c: Progress)
    requires Progresses(a, b) && Progresses(b, c)
    ensures Progresses(a, c)
  {
    KeptComposes(a, b, c);
  }

  /** The point of the whole protocol: an attempt recorded as LOCAL_SOURCE_CHANGED has no
      commit marker and was never promoted, and one recorded as promoted was committed. */
  ghost predicate Sound(l: Local, r: Remote, progress: Progress) {
    && (forall id <- progress | progress[id].terminal.Some? ::
          var outcome := progress[id].terminal.value.outcome;
          && (outcome == LocalSourceChanged ==> id !in r.markers && id !in r.promoted)
          && ((outcome.Promoted? || outcome.PromotedSourceMoved?) ==> id in r.markers))
    && (l.lastReport.Some? && l.lastReport.value.outcome == LocalSourceChanged ==>
          l.lastReport.value.requestId !in r.markers && l.lastReport.value.requestId !in r.promoted)
    && LoadPending(l) != Broken
  }

  lemma InvIsSound(l: Local, r: Remote, progress: Progress)
    requires Inv(l, r, progress)
    ensures Sound(l, r, progress)
  {
    assert InvParts(l, r, progress);
    if l.attempt.Some? {
      assert Agrees(progress[l.attempt.value.request.id], r.incoming, r.markers);
    }
  }

  // ------------------------------------------------------------------
  // Each durable step keeps the invariant.
  // ------------------------------------------------------------------

  lemma RemoteStepKeepsInv(l: Local, o: Remote, d: Remote, progress: Progress)
    requires Inv(l, o, progress)
    requires RemoteOk(d) && d.incoming == o.incoming && d.markers == o.markers
    ensures Inv(l, d, progress)
  {
    assert InvParts(l, d, progress);
  }

  lemma OneUpdated(progress: Progress, incoming: map<string, Archive>, markers: map<string, Marker>, next: Attempt)
    requires AllAgree(progress, incoming, markers) && Agrees(next, incoming, markers)
    ensures AllAgree(progress[next.request.id := next], incoming, markers)
  {
    var after := progress[next.request.id := next];
    forall id <- after ensures Agrees(after[id], incoming, markers) && after[id].request.id == id {
      if id != next.request.id { assert id in progress; }
    }
  }

  lemma UpdateKeepsInv(l: Local, r: Remote, progress: Progress, next: Attempt)
    requires Inv(l, r, progress) && l.attempt.Some?
    requires Forward(l.attempt.value, next) && Agrees(next, r.incoming, r.markers)
    ensures Inv(l.(attempt := Some(next)), r, progress[next.request.id := next])
    ensures Progresses(progress, progress[next.request.id := next])
  {
    var after := progress[next.request.id := next];
    OneUpdated(progress, r.incoming, r.markers, next);
    assert Progresses(progress, after) by {
      assert after.Keys == progress.Keys;
    }
    assert InvParts(l.(attempt := Some(next)), r, after);
  }

  lemma FirstAttemptKeepsInv(l: Local, r: Remote, progress: Progress, next: Attempt)
    requires Inv(l, r, progress) && l.attempt.None?
    requires next.request.id !in progress && next.phase == Prepared && ValidAttempt(next)
    requires l.lastReport.Some? ==> l.lastReport.value.requestId != next.request.id
    requires next.candidate.None? && next.archive == Archive(next.request, next.snapshot)
    requires l.archive == Some(next.archive)
    ensures Inv(l.(attempt := Some(next)), r, progress[next.request.id := next])
    ensures Kept(progress, progress[next.request.id := next])
  {
    assert InvParts(l.(attempt := Some(next)), r, progress[next.request.id := next]);
  }

  lemma OneMorePublished(progress: Progress, incoming: map<string, Archive>, markers: map<string, Marker>, id: string)
    requires AllAgree(progress, incoming, markers) && id in progress
    ensures AllAgree(progress, incoming[id := progress[id].archive], markers)
  {
    var more := incoming[id := progress[id].archive];
    forall other <- progress ensures Agrees(progress[other], more, markers) {
      assert Agrees(progress[other], incoming, markers);
    }
  }

  lemma OneMoreMarked(progress: Progress, incoming: map<string, Archive>, markers: map<string, Marker>, id: string,
                      m: Marker)
    requires AllAgree(progress, incoming, markers) && id in progress && progress[id].phase == Committing
    requires progress[id].candidate == Some(m.candidate) && m.expected == progress[id].request.expected
    requires m.archive == progress[id].archive
    ensures AllAgree(progress, incoming, markers[id := m])
  {
    forall other <- progress ensures Agrees(progress[other], incoming, markers[id := m]) {
      assert Agrees(progress[other], incoming, markers);
    }
  }

  /** The pending archive is accepted exactly when it passes the receiver's checks and
      either was not published yet or left a receipt that can be read. */
  lemma SubmitKeepsInv(l: Local, r: Remote, limits: Limits, progress: Progress, a: Attempt)
    requires Inv(l, r, progress) && l.attempt == Some(a) && a.phase != Terminal
    ensures Inv(l, Submit(r, limits, a.archive).0, progress)
    ensures Submit(r, limits, a.archive).0.markers == r.markers
    ensures Submit(r, limits, a.archive).1 == if Takes(r, limits, a.archive) then Accepted else Refused(TransferFailed)
    ensures Takes(r, limits, a.archive) ==> a.request.id in Submit(r, limits, a.archive).0.incoming
  {
    AttemptAgrees(l, r, progress);
    var next := Submit(r, limits, a.archive).0;
    assert InvParts(l, next, progress) by {
      assert InvParts(l, r, progress);
      OneMorePublished(progress, r.incoming, r.markers, a.request.id);
    }
  }

  lemma CommitKeepsInv(l: Local, r: Remote, limits: Limits, progress: Progress, a: Attempt)
    requires Inv(l, r, progress) && l.attempt == Some(a) && a.phase == Committing
    ensures a.candidate.Some?
    ensures Inv(l, Commit(r, limits, a.request, a.candidate.value).0, progress)
    ensures var reply := Commit(r, limits, a.request, a.candidate.value);
            && (reply.1.Accepted? ==> a.request.id in reply.0.markers)
            && (reply.1.Refused? ==> reply.1.outcome != LocalSourceChanged)
  {
    AttemptAgrees(l, r, progress);
    var next := Commit(r, limits, a.request, a.candidate.value).0;
    if next != r {
      var marker := Marker(a.candidate.value, a.request.expected, a.archive);
      assert InvParts(l, next, progress) by {
        assert InvParts(l, r, progress);
        OneMoreMarked(progress, r.incoming, r.markers, a.request.id, marker);
      }
    }
  }

  // ------------------------------------------------------------------
  // Each phase change may be made.
  // ------------------------------------------------------------------

  lemma AttemptAgrees(l: Local, r: Remote, progress: Progress)
    requires Inv(l, r, progress) && l.attempt.Some?
    ensures Agrees(l.attempt.value, r.incoming, r.markers) == true
  {
    assert InvParts(l, r, progress);
  }

  lemma ResultIsTerminal(l: Local, r: Remote, progress: Progress, id: string)
    requires Inv(l, r, progress) && id in r.results
    ensures (!r.results[id].outcome.LocalSourceChanged? && !r.results[id].outcome.PromotedSourceMoved?)
    ensures r.results[id].outcome == Promoted ==> id in r.markers
  {
    assert InvParts(l, r, progress);
  }

  lemma MaySubmit(a: Attempt, next: Attempt, incoming: map<string, Archive>, markers: map<string, Marker>)
    requires Agrees(a, incoming, markers)
    requires || ((a.phase.Prepared? || a.phase.Submitting?) && next == a.(phase := Submitting))
             || (a.phase == Submitting && next == a.(phase := Submitted) && a.request.id in incoming)
    ensures Agrees(next, incoming, markers) == true && Forward(a, next) == true
  {
  }

  lemma MayCommit(a: Attempt, candidate: Option<string>, promotionPolicy: Option<string>,
                  incoming: map<string, Archive>, markers: map<string, Marker>)
    requires Agrees(a, incoming, markers) && a.phase == Submitted
    requires candidate.Some? && promotionPolicy.Some?
    ensures a.request.id !in markers
    ensures var next := a.(phase := Committing, candidate := candidate, promotionPolicy := promotionPolicy);
            Agrees(next, incoming, markers) == true && Forward(a, next) == true
  {
  }

  lemma MayRequest(a: Attempt, incoming: map<string, Archive>, markers: map<string, Marker>)
    requires Agrees(a, incoming, markers) && a.phase == Committing && a.request.id in markers
    ensures Agrees(a.(phase := CommitRequested), incoming, markers) == true
    ensures Forward(a, a.(phase := CommitRequested)) == true
  {
  }

  lemma MayEnd(a: Attempt, report: Report, incoming: map<string, Archive>, markers: map<string, Marker>)
    requires Agrees(a, incoming, markers) && report.outcome != CandidateReady && report.requestId == a.request.id
    requires a.phase == Terminal ==> a.terminal == Some(report)
    requires Justified(report, a.request.id in markers)
    ensures var next := a.(phase := Terminal, terminal := Some(report));
            Agrees(next, incoming, markers) == true && Forward(a, next) == true
  {
  }
}
