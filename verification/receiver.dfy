/** Concurrent receiver processes as a state machine over their file operations
    (internal/receiver/server.go, archive.go, fs.go).

    Each submit, status or commit process is a thread; one event runs one file operation
    of one thread, makes it fail before or after taking effect, kills the thread, or
    replaces a result file.  Digests stand for the bytes they are taken of. */
module Receiver {
  import opened Wrappers

  /** What receipt.json records; `size` is the length of its rendering. */
  datatype Receipt = Receipt(capability: string, archive: string, expected: string, snapshotId: string,
                             releasePolicy: string, size: nat)

  /** What a result file says; absent fields are None. */
  datatype ResultFile = ResultFile(ready: bool, candidate: string, expected: string, archive: Option<string>,
                                   snapshotId: Option<string>, releasePolicy: Option<string>)

  datatype Authorization = Authorization(candidate: string, expected: string, archive: string)

  datatype CommitRequest = CommitRequest(id: string, capability: string, candidate: string, expected: string)

  datatype Refusal = NotFound | Mismatch | Conflict | NotReady | Internal

  datatype Reply =
    | Accepted(id: string, authorization: Authorization)
    | Stored(id: string, archive: string, idempotent: bool)
    | Status(id: string, accepted: bool)
    | Refused(why: Refusal)

  /** Where a process is, with everything it has read so far. */
  datatype Thread =
    | CommitStart(request: CommitRequest)
    | CommitAuthorized(id: string, authorization: Authorization, receipt: Receipt)
    | CommitUnmarked(id: string, authorization: Authorization, receipt: Receipt)
    | CommitLinking(id: string, authorization: Authorization)
    | CommitLost(id: string, authorization: Authorization)
    | StatusStart(id: string, capability: string)
    | StatusAuthorized(id: string, receipt: Receipt)
    | StatusMarked(id: string, receipt: Receipt, accepted: bool)
    | SubmitStaged(id: string, receipt: Receipt)
    | SubmitLocked(id: string, receipt: Receipt)
    | SubmitFound(id: string, receipt: Receipt)
    | SubmitFree(id: string, receipt: Receipt)
    | Replied(reply: Reply)
    | Dead

  /** The published files, and which candidates were ever read as CANDIDATE_READY for
      which request. */
  datatype Files = Files(
    incoming: map<string, Receipt>,
    markers: map<string, Authorization>,
    results: map<string, ResultFile>,
    readAsReady: set<(string, string)>)

  /** The files, the holder of the namespace lock, and every process so far. */
  datatype State = State(files: Files, lock: Option<nat>, threads: seq<Thread>)

  const EMPTY := State(Files(map[], map[], map[], {}), None, [])

  // ------------------------------------------------------------------
  // Single file operations.
  // ------------------------------------------------------------------

  /** authorizedReceipt: receipts are read back under a bound. */
  predicate Authorized(f: Files, limit: nat, id: string, capability: string) {
    id in f.incoming && f.incoming[id].size <= limit && f.incoming[id].capability == capability
  }

  /** validateResultReceipt. */
  predicate ResultMatches(r: ResultFile, receipt: Receipt) {
    && (r.archive.Some? ==> r.archive.value == receipt.archive)
    && (r.snapshotId.Some? ==> r.snapshotId.value == receipt.snapshotId)
    && (r.releasePolicy.Some? ==> r.releasePolicy.value == receipt.releasePolicy)
    && (r.candidate != "" ==> r.expected == receipt.expected)
  }

  /** What one operation leaves: the files, whether it released the lock, the thread. */
  datatype Effect = Effect(files: Files, thread: Thread)

  function Answer(f: Files, r: Reply): Effect {
    Effect(f, Replied(r))
  }

  /** The next file operation of a thread; `free` tells whether nobody holds the lock. */
  function Next(f: Files, limit: nat, free: bool, t: Thread): Effect {
    match t
    case CommitStart(q) =>
      if !Authorized(f, limit, q.id, q.capability) then Answer(f, Refused(NotFound))
      else if f.incoming[q.id].expected != q.expected then Answer(f, Refused(Mismatch))
      else
        var receipt := f.incoming[q.id];
        Effect(f, CommitAuthorized(q.id, Authorization(q.candidate, q.expected, receipt.archive), receipt))
    case CommitAuthorized(id, a, receipt) =>
      if id !in f.markers then Effect(f, CommitUnmarked(id, a, receipt))
      else if f.markers[id] == a then Answer(f, Accepted(id, a))
      else Answer(f, Refused(Conflict))
    case CommitUnmarked(id, a, receipt) =>
      if id !in f.results then Answer(f, Refused(NotReady))
      else if !ResultMatches(f.results[id], receipt) then Answer(f, Refused(Internal))
      else if f.results[id].ready && f.results[id].candidate == a.candidate && f.results[id].expected == a.expected
      then Effect(f.(readAsReady := f.readAsReady + {(id, a.candidate)}), CommitLinking(id, a))
      else Answer(f, Refused(Mismatch))
    case CommitLinking(id, a) =>
      if id in f.markers then Effect(f, CommitLost(id, a))
      else Answer(f.(markers := f.markers[id := a]), Accepted(id, a))
    case CommitLost(id, a) =>
      if id in f.markers && f.markers[id] == a then Answer(f, Accepted(id, a))
      else Answer(f, Refused(Conflict))
    case StatusStart(id, capability) =>
      if Authorized(f, limit, id, capability) then Effect(f, StatusAuthorized(id, f.incoming[id]))
      else Answer(f, Refused(NotFound))
    case StatusAuthorized(id, receipt) =>
      if id !in f.markers then Effect(f, StatusMarked(id, receipt, false))
      else if f.markers[id].expected == receipt.expected && f.markers[id].archive == receipt.archive
      then Effect(f, StatusMarked(id, receipt, true))
      else Answer(f, Refused(Internal))
    case StatusMarked(id, receipt, accepted) =>
      if id in f.results && !ResultMatches(f.results[id], receipt) then Answer(f, Refused(Internal))
      else Answer(f, Status(id, accepted))
    case SubmitStaged(id, receipt) =>
      if free then Effect(f, SubmitLocked(id, receipt)) else Answer(f, Refused(Internal))
    case SubmitLocked(id, receipt) =>
      Effect(f, if id in f.incoming then SubmitFound(id, receipt) else SubmitFree(id, receipt))
    case SubmitFound(id, receipt) =>
      Answer(f, if id in f.incoming && f.incoming[id].size <= limit && f.incoming[id].archive == receipt.archive
                then Stored(id, receipt.archive, true) else Refused(Conflict))
    case SubmitFree(id, receipt) =>
      if id in f.incoming then Answer(f, Refused(Internal))
      else Answer(f.(incoming := f.incoming[id := receipt]), Stored(id, receipt.archive, false))
    case _ => Effect(f, t)
  }

  /** A thread holds the lock from its second to its last operation of a submission. */
  predicate Holding(t: Thread) {
    t.SubmitLocked? || t.SubmitFound? || t.SubmitFree?
  }

  function Put(s: State, i: nat, e: Effect): State
    requires i < |s.threads|
  {
    State(e.files,
          if Holding(e.thread) then Some(i) else if s.lock == Some(i) then None else s.lock,
          s.threads[i := e.thread])
  }

  function Go(s: State, limit: nat, i: nat): State
    requires i < |s.threads|
  {
    Put(s, i, Next(s.files, limit, s.lock == None, s.threads[i]))
  }

  datatype Event =
    | Arrive(start: Thread)
    | Run(i: nat)
    | Break(i: nat, after: bool)      // an I/O error, before or after taking effect
    | Kill(i: nat)
    | Publish(id: string, result: ResultFile)

  /** One event; an impossible one changes nothing. */
  function Step(s: State, limit: nat, e: Event): State {
    match e
    case Arrive(t) =>
      if t.CommitStart? || t.StatusStart? || t.SubmitStaged? then s.(threads := s.threads + [t]) else s
    case Run(i) => if i < |s.threads| then Go(s, limit, i) else s
    case Break(i, after) =>
      if i < |s.threads| && !s.threads[i].Replied? && !s.threads[i].Dead? then
        var f := if after then Next(s.files, limit, s.lock == None, s.threads[i]).files else s.files;
        Put(s, i, Answer(f, Refused(Internal)))
      else s
    case Kill(i) =>
      if i < |s.threads| && !s.threads[i].Replied? then Put(s, i, Effect(s.files, Dead)) else s
    case Publish(id, result) => s.(files := s.files.(results := s.files.results[id := result]))
  }

  /** An operation that fails leaves the files as they were or as it would have, answers with
      an internal error and gives the lock back. */
  lemma BreakMeans(s: State, limit: nat, i: nat, after: bool)
    requires i < |s.threads| && !s.threads[i].Replied? && !s.threads[i].Dead?
    ensures var d := Step(s, limit, Break(i, after));
            && d.files == (if after then Go(s, limit, i).files else s.files)
            && d.threads == s.threads[i := Replied(Refused(Internal))]
            && d.lock == if s.lock == Some(i) then None else s.lock
  {
  }

  function Steps(s: State, limit: nat, events: seq<Event>): State
    decreases |events|
  {
    if events == [] then s else Steps(Step(s, limit, events[0]), limit, events[1..])
  }

  // ------------------------------------------------------------------
  // The invariant.
  // ------------------------------------------------------------------

  /** An authorisation repeats the published receipt of its request. */
  predicate Repeats(f: Files, id: string, a: Authorization) {
    id in f.incoming && a.archive == f.incoming[id].archive && a.expected == f.incoming[id].expected
  }

  /** What a thread has read is still so. */
  predicate ThreadOk(f: Files, t: Thread) {
    match t
    case CommitAuthorized(id, a, receipt) => Repeats(f, id, a) && f.incoming[id] == receipt
    case CommitUnmarked(id, a, receipt) => Repeats(f, id, a) && f.incoming[id] == receipt
    case CommitLinking(id, a) => Repeats(f, id, a) && (id, a.candidate) in f.readAsReady
    case CommitLost(id, _) => id in f.markers
    case StatusAuthorized(id, receipt) => id in f.incoming && f.incoming[id] == receipt
    case StatusMarked(id, receipt, accepted) =>
      id in f.incoming && f.incoming[id] == receipt && (accepted ==> id in f.markers)
    case SubmitFound(id, _) => id in f.incoming
    case Replied(Accepted(id, a)) => id in f.markers && f.markers[id] == a
    case Replied(Stored(id, archive, _)) => id in f.incoming && f.incoming[id].archive == archive
    case Replied(Status(id, accepted)) => accepted ==> id in f.markers
    case _ => true
  }

  predicate MarkersOk(f: Files) {
    forall id <- f.markers :: Repeats(f, id, f.markers[id]) && (id, f.markers[id].candidate) in f.readAsReady
  }

  predicate Inv(s: State) {
    && MarkersOk(s.files)
    && (forall t <- s.threads :: ThreadOk(s.files, t))
    && (forall i :: 0 <= i < |s.threads| && Holding(s.threads[i]) ==> s.lock == Some(i))
    && (forall i :: 0 <= i < |s.threads| && s.threads[i].SubmitFree? ==> s.threads[i].id !in s.files.incoming)
  }

  /** Published files never change and never go. */
  predicate Grows(o: Files, d: Files) {
    && (forall id <- o.incoming :: id in d.incoming && d.incoming[id] == o.incoming[id])
    && (forall id <- o.markers :: id in d.markers && d.markers[id] == o.markers[id])
    && o.readAsReady <= d.readAsReady
  }

  /** Growth disturbs no thread. */
  lemma OthersKept(o: Files, d: Files, t: Thread)
    requires Grows(o, d) && ThreadOk(o, t)
    ensures ThreadOk(d, t)
  {
  }

  /** One operation keeps what its own thread knows and what the markers repeat. */
  predicate NextOk(f: Files, limit: nat, free: bool, t: Thread) {
    var e := Next(f, limit, free, t);
    && Grows(f, e.files) && MarkersOk(e.files) && ThreadOk(e.files, e.thread)
    && (Holding(e.thread) ==> free || Holding(t))
    && (e.thread.SubmitFree? ==> e.thread.id !in e.files.incoming)
    && (e.files.incoming != f.incoming ==> t.SubmitFree?)
    && e.files.results == f.results
  }

  lemma CommitKeeps(f: Files, limit: nat, free: bool, t: Thread)
    requires MarkersOk(f) && ThreadOk(f, t)
    requires t.CommitStart? || t.CommitAuthorized? || t.CommitUnmarked? || t.CommitLinking? || t.CommitLost?
    ensures NextOk(f, limit, free, t) == true
  {
  }

  lemma SubmitKeeps(f: Files, limit: nat, free: bool, t: Thread)
    requires MarkersOk(f) && ThreadOk(f, t)
    requires t.SubmitStaged? || t.SubmitLocked? || t.SubmitFound? || t.SubmitFree?
    ensures NextOk(f, limit, free, t) == true
  {
  }

  lemma NextKeeps(f: Files, limit: nat, free: bool, t: Thread)
    requires MarkersOk(f) && ThreadOk(f, t)
    ensures NextOk(f, limit, free, t) == true
  {
    if t.CommitStart? || t.CommitAuthorized? || t.CommitUnmarked? || t.CommitLinking? || t.CommitLost? {
      CommitKeeps(f, limit, free, t);
    } else if t.SubmitStaged? || t.SubmitLocked? || t.SubmitFound? || t.SubmitFree? {
      SubmitKeeps(f, limit, free, t);
    }
  }

  /** A thread takes a step whose effect is sound by itself. */
  lemma PutKeeps(s: State, i: nat, e: Effect)
    requires Inv(s) && i < |s.threads|
    requires Grows(s.files, e.files) && MarkersOk(e.files) && ThreadOk(e.files, e.thread)
    requires Holding(e.thread) ==> s.lock == None || Holding(s.threads[i])
    requires e.thread.SubmitFree? ==> e.thread.id !in e.files.incoming
    requires e.files.incoming != s.files.incoming ==> s.threads[i].SubmitFree?
    ensures Inv(Put(s, i, e))
  {
    var d := Put(s, i, e);
    forall t <- d.threads ensures ThreadOk(d.files, t) {
      var j :| 0 <= j < |d.threads| && d.threads[j] == t;
      if j != i { OthersKept(s.files, e.files, s.threads[j]); }
    }
  }

  lemma StepKeeps(s: State, limit: nat, e: Event)
    requires Inv(s)
    ensures Inv(Step(s, limit, e)) && Grows(s.files, Step(s, limit, e).files)
  {
    if (e.Run? || e.Break? || e.Kill?) && e.i < |s.threads| {
      var t := s.threads[e.i];
      assert t in s.threads;
      NextKeeps(s.files, limit, s.lock == None, t);
      var n := Next(s.files, limit, s.lock == None, t);
      if e.Run? {
        PutKeeps(s, e.i, n);
      } else {
        PutKeeps(s, e.i, Effect(if e.Break? && e.after then n.files else s.files,
                                if e.Kill? then Dead else Replied(Refused(Internal))));
      }
    } else if e.Publish? {
      var d := Step(s, limit, e);
      forall t <- d.threads ensures ThreadOk(d.files, t) { OthersKept(s.files, d.files, t); }
    } else if e.Arrive? {
      var d := Step(s, limit, e);
      forall t <- d.threads ensures ThreadOk(d.files, t) {
        if t in s.threads { assert ThreadOk(s.files, t); }
      }
    }
  }

  /** Over every interleaving, with any failures and kills, the published receipts and
      markers only ever grow. */
  lemma {:induction false} StepsKeep(s: State, limit: nat, events: seq<Event>)
    requires Inv(s)
    ensures Inv(Steps(s, limit, events)) && Grows(s.files, Steps(s, limit, events).files)
    decreases |events|
  {
    if events != [] {
      var next := Step(s, limit, events[0]);
      StepKeeps(s, limit, events[0]);
      StepsKeep(next, limit, events[1..]);
      GrowthComposes(s.files, next.files, Steps(next, limit, events[1..]).files);
    }
  }

  lemma GrowthComposes(a: Files, b: Files, c: Files)
    requires Grows(a, b) && Grows(b, c)
    ensures Grows(a, c)
  {
  }

  // ------------------------------------------------------------------
  // Commits.
  // ------------------------------------------------------------------

  /** Every COMMIT_ACCEPTED of a run names, for one request, the same candidate, expected
      deployment and archive: those of the one marker, whose candidate was read as ready. */
  lemma AcceptedAgree(limit: nat, events: seq<Event>, id: string, a: Authorization, b: Authorization)
    requires Replied(Accepted(id, a)) in Steps(EMPTY, limit, events).threads
    requires Replied(Accepted(id, b)) in Steps(EMPTY, limit, events).threads
    ensures var f := Steps(EMPTY, limit, events).files;
            a == b && id in f.markers && f.markers[id] == a && Repeats(f, id, a) && (id, a.candidate) in f.readAsReady
  {
    StepsKeep(EMPTY, limit, events);
    var s := Steps(EMPTY, limit, events);
    assert ThreadOk(s.files, Replied(Accepted(id, a))) && ThreadOk(s.files, Replied(Accepted(id, b)));
  }

  /** A marker appears only after its candidate was read as ready, and a candidate counts
      as read only where the result file then said so. */
  lemma MarkedAfterReady(s: State, limit: nat, e: Event, id: string)
    requires Inv(s)
    ensures id in Step(s, limit, e).files.markers && id !in s.files.markers ==>
              (id, Step(s, limit, e).files.markers[id].candidate) in s.files.readAsReady
    ensures forall c :: (id, c) in Step(s, limit, e).files.readAsReady && (id, c) !in s.files.readAsReady ==>
              id in s.files.results && s.files.results[id].ready && s.files.results[id].candidate == c
  {
    if (e.Run? || e.Break?) && e.i < |s.threads| {
      assert ThreadOk(s.files, s.threads[e.i]);
      NextMarks(s.files, limit, s.lock == None, s.threads[e.i], id);
    }
  }

  lemma NextMarks(f: Files, limit: nat, free: bool, t: Thread, id: string)
    requires ThreadOk(f, t)
    ensures var d := Next(f, limit, free, t).files;
            && (id in d.markers && id !in f.markers ==> (id, d.markers[id].candidate) in f.readAsReady)
            && (forall c :: (id, c) in d.readAsReady && (id, c) !in f.readAsReady ==>
                  id in f.results && f.results[id].ready && f.results[id].candidate == c)
  {
  }

  // ------------------------------------------------------------------
  // Replies answer their own requests.
  // ------------------------------------------------------------------

  /** The requests of a run, in the order of their processes. */
  function Starts(events: seq<Event>): seq<Thread> {
    if events == [] then []
    else
      var e := events[0];
      (if e.Arrive? && (e.start.CommitStart? || e.start.StatusStart? || e.start.SubmitStaged?) then [e.start] else [])
      + Starts(events[1..])
  }

  /** The request has the capability of the receipt published under its ID, which can be
      read back. */
  predicate Permitted(f: Files, limit: nat, id: string, capability: string) {
    id in f.incoming && f.incoming[id].capability == capability && f.incoming[id].size <= limit
  }

  /** The authorisation is the one this commit asked for. */
  predicate Grants(f: Files, limit: nat, start: Thread, id: string, a: Authorization) {
    && start.CommitStart? && start.request.id == id
    && a.candidate == start.request.candidate && a.expected == start.request.expected
    && Permitted(f, limit, id, start.request.capability)
  }

  predicate Shows(f: Files, limit: nat, start: Thread, id: string) {
    start.StatusStart? && start.id == id && Permitted(f, limit, id, start.capability)
  }

  /** What a process does and replies is about its own request, and with its capability. */
  predicate Answers(f: Files, limit: nat, start: Thread, t: Thread) {
    match t
    case CommitStart(_) => t == start
    case StatusStart(_, _) => t == start
    case SubmitStaged(_, _) => t == start
    case CommitAuthorized(id, a, _) => Grants(f, limit, start, id, a)
    case CommitUnmarked(id, a, _) => Grants(f, limit, start, id, a)
    case CommitLinking(id, a) => Grants(f, limit, start, id, a)
    case CommitLost(id, a) => Grants(f, limit, start, id, a)
    case StatusAuthorized(id, _) => Shows(f, limit, start, id)
    case StatusMarked(id, _, _) => Shows(f, limit, start, id)
    case SubmitLocked(id, receipt) => start == SubmitStaged(id, receipt)
    case SubmitFound(id, receipt) => start == SubmitStaged(id, receipt)
    case SubmitFree(id, receipt) => start == SubmitStaged(id, receipt)
    case Replied(Accepted(id, a)) => Grants(f, limit, start, id, a)
    case Replied(Status(id, _)) => Shows(f, limit, start, id)
    case Replied(Stored(id, archive, _)) =>
      start.SubmitStaged? && start.id == id && start.receipt.archive == archive
    case _ => true
  }

  lemma NextAnswers(f: Files, limit: nat, free: bool, start: Thread, t: Thread)
    requires Answers(f, limit, start, t)
    ensures Answers(Next(f, limit, free, t).files, limit, start, Next(f, limit, free, t).thread)
  {
  }

  lemma AnswerStands(o: Files, d: Files, limit: nat, start: Thread, t: Thread)
    requires Grows(o, d) && Answers(o, limit, start, t)
    ensures Answers(d, limit, start, t)
  {
  }

  predicate AllAnswer(s: State, limit: nat, starts: seq<Thread>) {
    |starts| == |s.threads| && forall i :: 0 <= i < |starts| ==> Answers(s.files, limit, starts[i], s.threads[i])
  }

  lemma StartsOne(e: Event)
    ensures Starts([e]) == if e.Arrive? && (e.start.CommitStart? || e.start.StatusStart? || e.start.SubmitStaged?)
                           then [e.start] else []
  {
    assert [e][1..] == [];
  }

  lemma StepAnswers(s: State, limit: nat, e: Event, starts: seq<Thread>)
    requires Inv(s) && AllAnswer(s, limit, starts)
    ensures AllAnswer(Step(s, limit, e), limit, starts + Starts([e]))
  {
    var d, all := Step(s, limit, e), starts + Starts([e]);
    StartsOne(e);
    StepKeeps(s, limit, e);
    forall i | 0 <= i < |all| ensures Answers(d.files, limit, all[i], d.threads[i]) {
      if i < |starts| {
        if d.threads[i] == s.threads[i] {
          AnswerStands(s.files, d.files, limit, starts[i], s.threads[i]);
        } else {
          NextAnswers(s.files, limit, s.lock == None, starts[i], s.threads[i]);
        }
      }
    }
  }

  lemma StartsSplit(starts: seq<Thread>, events: seq<Event>)
    requires events != []
    ensures starts + Starts(events) == (starts + Starts([events[0]])) + Starts(events[1..])
  {
    StartsOne(events[0]);
  }

  lemma {:induction false} StepsAnswer(s: State, limit: nat, events: seq<Event>, starts: seq<Thread>)
    requires Inv(s) && AllAnswer(s, limit, starts)
    ensures AllAnswer(Steps(s, limit, events), limit, starts + Starts(events))
    decreases |events|
  {
    if events == [] {
      assert starts + Starts(events) == starts;
    } else {
      StepAnswers(s, limit, events[0], starts);
      StepKeeps(s, limit, events[0]);
      StepsAnswer(Step(s, limit, events[0]), limit, events[1..], starts + Starts([events[0]]));
      StartsSplit(starts, events);
    }
  }

  /** Over every run each process answers its own request: an accepted commit names what it
      asked for, a stored submission its own archive, and neither a commit is accepted nor
      a status reported without the capability of the published receipt. */
  lemma RepliesAnswerRequests(limit: nat, events: seq<Event>)
    ensures AllAnswer(Steps(EMPTY, limit, events), limit, Starts(events))
  {
    StepsAnswer(EMPTY, limit, events, []);
    assert [] + Starts(events) == Starts(events);
  }

  // ------------------------------------------------------------------
  // What a status reports.
  // ------------------------------------------------------------------

  /** What process `i` reports or is about to report of the marker of `id`. */
  predicate Reports(t: Thread, id: string, accepted: bool) {
    (t.StatusMarked? && t.id == id && t.accepted == accepted) || t == Replied(Status(id, accepted))
  }

  /** One step of a status: it reads the marker once, and replies what it read. */
  lemma StatusStep(s: State, limit: nat, e: Event, i: nat, id: string, accepted: bool)
    requires i < |s.threads| && Reports(Step(s, limit, e).threads[i], id, accepted)
    ensures || Reports(s.threads[i], id, accepted)
            || (s.threads[i].StatusAuthorized? && s.threads[i].id == id && (accepted <==> id in s.files.markers))
  {
  }

  lemma StartsUnread(s: State, limit: nat, e: Event, i: nat, id: string, accepted: bool)
    requires |s.threads| <= i < |Step(s, limit, e).threads|
    ensures !Reports(Step(s, limit, e).threads[i], id, accepted)
  {
  }

  lemma StepsSplit(s: State, limit: nat, events: seq<Event>, n: nat)
    requires 0 < n <= |events|
    ensures Steps(s, limit, events[..n]) == Steps(Step(s, limit, events[0]), limit, events[1..][..n - 1])
  {
    assert events[..n][0] == events[0] && events[..n][1..] == events[1..][..n - 1];
  }

  lemma ReportsOne(t: Thread, id: string, a: bool, b: bool)
    requires Reports(t, id, a) && Reports(t, id, b)
    ensures a == b
  {
  }

  /** A status that has read the marker reports that and nothing else. */
  lemma {:induction false} ReportStays(s: State, limit: nat, events: seq<Event>, i: nat, id: string, read: bool,
                                       accepted: bool)
    requires i < |s.threads| && Reports(s.threads[i], id, read)
    requires i < |Steps(s, limit, events).threads| && Reports(Steps(s, limit, events).threads[i], id, accepted)
    ensures accepted == read
    decreases |events|
  {
    if events == [] {
      ReportsOne(s.threads[i], id, read, accepted);
    } else {
      var next := Step(s, limit, events[0]);
      if Reports(next.threads[i], id, read) {
        ReportStays(next, limit, events[1..], i, id, read, accepted);
      } else {
        GoneStays(next, limit, events[1..], i, id, accepted);
      }
    }
  }

  /** A process that has ended stays as it ended. */
  lemma {:induction false} GoneStays(s: State, limit: nat, events: seq<Event>, i: nat, id: string, accepted: bool)
    requires i < |s.threads| && (s.threads[i].Dead? || (s.threads[i].Replied? && !s.threads[i].reply.Status?))
    ensures i < |Steps(s, limit, events).threads| && !Reports(Steps(s, limit, events).threads[i], id, accepted)
    decreases |events|
  {
    if events != [] { GoneStays(Step(s, limit, events[0]), limit, events[1..], i, id, accepted); }
  }

  /** A status reply is the truth at some moment between its request and the reply: it says
      the commit was accepted exactly if the marker was there then. */
  lemma {:induction false} StatusIsRead(s: State, limit: nat, events: seq<Event>, i: nat, id: string, accepted: bool)
    returns (n: nat)
    requires i < |s.threads| ==> !Reports(s.threads[i], id, true) && !Reports(s.threads[i], id, false)
    requires i < |Steps(s, limit, events).threads| && Reports(Steps(s, limit, events).threads[i], id, accepted)
    ensures n <= |events|
    ensures var read := Steps(s, limit, events[..n]);
            && i < |read.threads| && read.threads[i].StatusAuthorized? && read.threads[i].id == id
            && (accepted <==> id in read.files.markers)
    decreases |events|
  {
    var next := Step(s, limit, events[0]);
    if i < |s.threads| && (Reports(next.threads[i], id, true) || Reports(next.threads[i], id, false)) {
      var read := Reports(next.threads[i], id, true);
      StatusStep(s, limit, events[0], i, id, read);
      ReportStays(next, limit, events[1..], i, id, read, accepted);
      n := 0;
    } else {
      if |s.threads| <= i < |next.threads| {
        StartsUnread(s, limit, events[0], i, id, true);
        StartsUnread(s, limit, events[0], i, id, false);
      }
      n := StatusIsRead(next, limit, events[1..], i, id, accepted);
      StepsSplit(s, limit, events, n + 1);
      n := n + 1;
    }
  }

  /** Once a reply said the commit was accepted, every status that starts later and replies
      without refusing says so too, whatever happens in between. */
  lemma AcceptanceNeverReverts(s: State, limit: nat, events: seq<Event>, reply: Reply, i: nat, accepted: bool)
    requires Inv(s) && Replied(reply) in s.threads
    requires reply.Accepted? || (reply.Status? && reply.accepted)
    requires |s.threads| <= i < |Steps(s, limit, events).threads|
    requires Steps(s, limit, events).threads[i] == Replied(Status(reply.id, accepted))
    ensures accepted
  {
    var n := StatusIsRead(s, limit, events, i, reply.id, accepted);
    StepsKeep(s, limit, events[..n]);
    assert ThreadOk(s.files, Replied(reply));
  }

  /** The result file contradicts the receipt in something it says. */
  predicate Disagrees(r: ResultFile, receipt: Receipt) {
    || r.archive !in {None, Some(receipt.archive)}
    || r.snapshotId !in {None, Some(receipt.snapshotId)}
    || r.releasePolicy !in {None, Some(receipt.releasePolicy)}
    || (r.candidate != "" && r.expected != receipt.expected)
  }

  lemma DisagreesIff(r: ResultFile, receipt: Receipt)
    ensures Disagrees(r, receipt) <==> !ResultMatches(r, receipt)
  {
  }

  /** A status left alone ends in three operations: not found without the capability of a
      readable receipt, an internal error where marker or result disagree with the receipt,
      and otherwise a report of whether there is a marker. */
  lemma StatusAlone(s: State, limit: nat, i: nat)
    requires i < |s.threads| && s.threads[i].StatusStart?
    ensures var id, capability, f := s.threads[i].id, s.threads[i].capability, s.files;
            var d := Go(Go(Go(s, limit, i), limit, i), limit, i);
            && d.files == f
            && d.threads[i] == Replied(
                 if !Permitted(f, limit, id, capability) then Refused(NotFound)
                 else if || (id in f.markers && (f.markers[id].expected != f.incoming[id].expected
                                                 || f.markers[id].archive != f.incoming[id].archive))
                         || (id in f.results && Disagrees(f.results[id], f.incoming[id]))
                 then Refused(Internal)
                 else Status(id, id in f.markers))
  {
    var a := Go(s, limit, i);
    var b := Go(a, limit, i);
    var id, f := s.threads[i].id, s.files;
    assert a.files == f && b.files == f;
    if Permitted(f, limit, id, s.threads[i].capability) {
      assert a.threads[i] == StatusAuthorized(id, f.incoming[id]);
      assert b.threads[i] == (if id !in f.markers then StatusMarked(id, f.incoming[id], false)
                              else if f.markers[id].expected == f.incoming[id].expected
                                      && f.markers[id].archive == f.incoming[id].archive
                              then StatusMarked(id, f.incoming[id], true) else Replied(Refused(Internal)));
      if id in f.results { DisagreesIff(f.results[id], f.incoming[id]); }
    }
  }

  lemma GoOn(s: State, limit: nat, i: nat)
    requires i < |s.threads|
    ensures var e := Next(s.files, limit, s.lock == None, s.threads[i]);
            Go(s, limit, i).files == e.files && |Go(s, limit, i).threads| == |s.threads|
            && Go(s, limit, i).threads[i] == e.thread
    ensures s.threads[i].Replied? ==> Go(s, limit, i).files == s.files && Go(s, limit, i).threads[i] == s.threads[i]
  {
  }

  /** How a commit left alone goes on once the capability was checked. */
  function CommitVerdict(f: Files, q: CommitRequest): (Files, Reply)
    requires q.id in f.incoming
  {
    var a := Authorization(q.candidate, q.expected, f.incoming[q.id].archive);
    if f.incoming[q.id].expected != q.expected then (f, Refused(Mismatch))
    else if q.id in f.markers then (f, if f.markers[q.id] == a then Accepted(q.id, a) else Refused(Conflict))
    else if q.id !in f.results then (f, Refused(NotReady))
    else if Disagrees(f.results[q.id], f.incoming[q.id]) then (f, Refused(Internal))
    else if f.results[q.id].ready && f.results[q.id].candidate == q.candidate && f.results[q.id].expected == q.expected
    then (f.(markers := f.markers[q.id := a], readAsReady := f.readAsReady + {(q.id, q.candidate)}), Accepted(q.id, a))
    else (f, Refused(Mismatch))
  }

  lemma UnmarkedAlone(s: State, limit: nat, i: nat, q: CommitRequest)
    requires i < |s.threads| && q.id in s.files.incoming && q.id !in s.files.markers
    requires s.files.incoming[q.id].expected == q.expected
    requires s.threads[i] == CommitUnmarked(q.id, Authorization(q.candidate, q.expected,
                                                                s.files.incoming[q.id].archive),
                                            s.files.incoming[q.id])
    ensures var d := Go(Go(s, limit, i), limit, i);
            d.files == CommitVerdict(s.files, q).0 && d.threads[i] == Replied(CommitVerdict(s.files, q).1)
  {
    var a := Go(s, limit, i);
    GoOn(s, limit, i);
    GoOn(a, limit, i);
    if q.id in s.files.results { DisagreesIff(s.files.results[q.id], s.files.incoming[q.id]); }
  }

  lemma AuthorizedAlone(s: State, limit: nat, i: nat, q: CommitRequest)
    requires i < |s.threads| && q.id in s.files.incoming && s.files.incoming[q.id].expected == q.expected
    requires s.threads[i] == CommitAuthorized(q.id, Authorization(q.candidate, q.expected,
                                                                  s.files.incoming[q.id].archive),
                                              s.files.incoming[q.id])
    ensures var d := Go(Go(Go(s, limit, i), limit, i), limit, i);
            d.files == CommitVerdict(s.files, q).0 && d.threads[i] == Replied(CommitVerdict(s.files, q).1)
  {
    var a := Go(s, limit, i);
    GoOn(s, limit, i);
    if q.id in s.files.markers {
      GoOn(a, limit, i);
      GoOn(Go(a, limit, i), limit, i);
    } else {
      UnmarkedAlone(a, limit, i, q);
    }
  }

  /** A commit left alone ends in at most four operations: not found without the capability
      of a readable receipt; otherwise the marker decides if there is one, and the result
      file if not. */
  lemma CommitAlone(s: State, limit: nat, i: nat)
    requires i < |s.threads| && s.threads[i].CommitStart?
    ensures var q, f := s.threads[i].request, s.files;
            var d := Go(Go(Go(Go(s, limit, i), limit, i), limit, i), limit, i);
            if Permitted(f, limit, q.id, q.capability)
            then d.files == CommitVerdict(f, q).0 && d.threads[i] == Replied(CommitVerdict(f, q).1)
            else d.files == f && d.threads[i] == Replied(Refused(NotFound))
  {
    var q := s.threads[i].request;
    var a := Go(s, limit, i);
    GoOn(s, limit, i);
    if Permitted(s.files, limit, q.id, q.capability) && s.files.incoming[q.id].expected == q.expected {
      AuthorizedAlone(a, limit, i, q);
    } else {
      GoOn(a, limit, i);
      GoOn(Go(a, limit, i), limit, i);
      GoOn(Go(Go(a, limit, i), limit, i), limit, i);
    }
  }

  // ------------------------------------------------------------------
  // Submissions.
  // ------------------------------------------------------------------

  /** Every ACCEPTED submission of a run reports, for one request, the archive that is
      published under it. */
  lemma StoredAgree(limit: nat, events: seq<Event>, id: string, a: string, b: string, again: bool, more: bool)
    requires Replied(Stored(id, a, again)) in Steps(EMPTY, limit, events).threads
    requires Replied(Stored(id, b, more)) in Steps(EMPTY, limit, events).threads
    ensures var f := Steps(EMPTY, limit, events).files;
            a == b && id in f.incoming && f.incoming[id].archive == a
  {
    StepsKeep(EMPTY, limit, events);
    var s := Steps(EMPTY, limit, events);
    assert ThreadOk(s.files, Replied(Stored(id, a, again))) && ThreadOk(s.files, Replied(Stored(id, b, more)));
  }

  /** A submission left alone while the lock is free ends in three operations.  Submitted
      again, the same archive is accepted as already stored exactly when the receipt of
      the first submission fits the bound it is read back under, and any other archive
      conflicts. */
  lemma Resubmission(s: State, limit: nat, i: nat)
    requires i < |s.threads| && s.threads[i].SubmitStaged? && s.lock == None
    ensures var id, receipt := s.threads[i].id, s.threads[i].receipt;
            var d := Go(Go(Go(s, limit, i), limit, i), limit, i);
            && d.lock == None && |d.threads| == |s.threads|
            && (forall j :: 0 <= j < |s.threads| && j != i ==> d.threads[j] == s.threads[j])
            && (if id !in s.files.incoming then
                  && d.files == s.files.(incoming := s.files.incoming[id := receipt])
                  && d.threads[i] == Replied(Stored(id, receipt.archive, false))
                else
                  && d.files == s.files
                  && d.threads[i] == Replied(if receipt.archive == s.files.incoming[id].archive
                                                && s.files.incoming[id].size <= limit
                                             then Stored(id, receipt.archive, true) else Refused(Conflict)))
  {
    var a := Go(s, limit, i);
    assert a.threads[i] == SubmitLocked(s.threads[i].id, s.threads[i].receipt) && a.lock == Some(i);
    var b := Go(a, limit, i);
    assert b.files == s.files && b.lock == Some(i);
  }

  /** While another process holds the lock a submission is refused and changes nothing. */
  lemma BusyIsRefused(s: State, limit: nat, i: nat)
    requires i < |s.threads| && s.threads[i].SubmitStaged? && s.lock.Some? && s.lock != Some(i)
    ensures Go(s, limit, i) == s.(threads := s.threads[i := Replied(Refused(Internal))])
  {
  }

  /** A receipt is written without a bound and read back under one: identical bytes can
      conflict with themselves. */
  lemma OversizeReceiptConflicts()
    ensures exists s: State, limit: nat ::
              && |s.threads| == 2 && s.threads[0].SubmitStaged? && s.threads[1] == s.threads[0] && s.lock == None
              && var first := Go(Go(Go(s, limit, 0), limit, 0), limit, 0);
                 var second := Go(Go(Go(first, limit, 1), limit, 1), limit, 1);
                 && first.threads[0] == Replied(Stored(s.threads[0].id, s.threads[0].receipt.archive, false))
                 && second.threads[1] == Replied(Refused(Conflict))
  {
    var t := SubmitStaged("r", Receipt("c", "a", "", "s", "p", 2));
    var s := EMPTY.(threads := [t, t]);
    Resubmission(s, 1, 0);
    Resubmission(Go(Go(Go(s, 1, 0), 1, 0), 1, 0), 1, 1);
  }
}
