/** How the parts fit together: every run of concurrent receiver processes is a run of the
    atomic submit and commit calls the publication protocol is proved over, and the
    promotion store promotes only where that protocol's processor may. */
module Protocol {
  import opened Wrappers
  import R = Receiver
  import P = PublicationState
  import D = Deployment
  import S = PromotionDisk

  /** What a digest is the digest of, and what a result file says. */
  datatype Reading = Reading(archive: string -> P.Archive, result: R.ResultFile -> P.RemoteResult)

  ghost predicate Faithful(m: Reading) {
    forall f: R.ResultFile ::
      && (m.result(f).outcome == P.CandidateReady <==> f.ready)
      && m.result(f).candidate == Some(f.candidate)
      && m.result(f).expected == Some(f.expected)
  }

  /** The receiver's files as the protocol sees them. */
  function View(f: R.Files, m: Reading, promoted: set<string>, current: P.Current): P.Remote {
    P.Remote(
      map id | id in f.incoming :: m.archive(f.incoming[id].archive),
      map id | id in f.results :: m.result(f.results[id]),
      map id | id in f.markers ::
        P.Marker(f.markers[id].candidate, f.markers[id].expected, m.archive(f.markers[id].archive)),
      promoted,
      current)
  }

  /** A receipt records what its archive asks for; it is readable when it fits the bound. */
  predicate Records(m: Reading, limits: P.Limits, limit: nat, id: string, r: R.Receipt) {
    var a := m.archive(r.archive);
    && a.request.id == id && a.request.capability == r.capability && a.request.expected == r.expected
    && limits.receivable(a)
    && (limits.readable(a) <==> r.size <= limit)
  }

  predicate ReadyFor(f: R.Files, id: string, a: R.Authorization) {
    && id in f.results
    && f.results[id].ready && f.results[id].candidate == a.candidate && f.results[id].expected == a.expected
  }

  /** The request of a process is published and readable. */
  predicate Readable(f: R.Files, limit: nat, id: string) {
    id in f.incoming && f.incoming[id].size <= limit
  }

  /** What a process relies on beyond what it has read. */
  predicate ThreadLinked(f: R.Files, m: Reading, limits: P.Limits, limit: nat, t: R.Thread) {
    match t
    case CommitAuthorized(id, _, _) => Readable(f, limit, id)
    case CommitUnmarked(id, _, _) => Readable(f, limit, id)
    case CommitLinking(id, a) => Readable(f, limit, id) && (id in f.markers || ReadyFor(f, id, a))
    case CommitLost(id, _) => Readable(f, limit, id)
    case StatusAuthorized(id, _) => Readable(f, limit, id)
    case StatusMarked(id, _, _) => Readable(f, limit, id)
    case SubmitStaged(id, receipt) => Records(m, limits, limit, id, receipt)
    case SubmitLocked(id, receipt) => Records(m, limits, limit, id, receipt)
    case SubmitFound(id, receipt) => Records(m, limits, limit, id, receipt)
    case SubmitFree(id, receipt) => Records(m, limits, limit, id, receipt)
    case _ => true
  }

  predicate FilesLinked(f: R.Files, m: Reading, limits: P.Limits, limit: nat) {
    forall id <- f.incoming :: Records(m, limits, limit, id, f.incoming[id])
  }

  predicate Linked(s: R.State, m: Reading, limits: P.Limits, limit: nat) {
    && R.Inv(s)
    && FilesLinked(s.files, m, limits, limit)
    && forall t <- s.threads :: ThreadLinked(s.files, m, limits, limit, t)
  }

  /** What the outside keeps to: a staged receipt records its archive, and the processor
      replaces a ready result only under a marker. */
  predicate Orderly(s: R.State, m: Reading, limits: P.Limits, limit: nat, e: R.Event) {
    match e
    case Arrive(SubmitStaged(id, receipt)) => Records(m, limits, limit, id, receipt)
    case Publish(id, result) =>
      id in s.files.results && s.files.results[id].ready ==> id in s.files.markers || result == s.files.results[id]
    case _ => true
  }

  // ------------------------------------------------------------------
  // One file operation.
  // ------------------------------------------------------------------

  /** The protocol's receiver answers Accepted and changes the remote side like this. */
  ghost predicate Accepts(o: P.Remote, limits: P.Limits, d: P.Remote) {
    || (exists a :: P.Submit(o, limits, a) == (d, P.Accepted))
    || (exists request, candidate :: P.Commit(o, limits, request, candidate) == (d, P.Accepted))
  }

  /** Linking a marker is an accepted commit call. */
  lemma LinkIsCommit(f: R.Files, m: Reading, limits: P.Limits, limit: nat, id: string, a: R.Authorization,
                     promoted: set<string>, current: P.Current)
    requires Faithful(m) && FilesLinked(f, m, limits, limit)
    requires R.Repeats(f, id, a) && Readable(f, limit, id) && id !in f.markers && ReadyFor(f, id, a)
    ensures P.Commit(View(f, m, promoted, current), limits, m.archive(a.archive).request, a.candidate)
         == (View(f.(markers := f.markers[id := a]), m, promoted, current), P.Accepted)
  {
    var o, request := View(f, m, promoted, current), m.archive(a.archive).request;
    var marker := P.Marker(a.candidate, a.expected, m.archive(a.archive));
    assert Records(m, limits, limit, id, f.incoming[id]);
    assert o.incoming[id] == m.archive(a.archive) && request.id == id && request.expected == a.expected;
    assert View(f.(markers := f.markers[id := a]), m, promoted, current).markers == o.markers[id := marker];
  }

  /** Finding the same marker is an accepted commit call that changes nothing. */
  lemma FoundIsCommit(f: R.Files, m: Reading, limits: P.Limits, limit: nat, id: string, a: R.Authorization,
                      promoted: set<string>, current: P.Current)
    requires FilesLinked(f, m, limits, limit) && R.Repeats(f, id, a) && Readable(f, limit, id)
    requires id in f.markers && f.markers[id] == a
    ensures P.Commit(View(f, m, promoted, current), limits, m.archive(a.archive).request, a.candidate)
         == (View(f, m, promoted, current), P.Accepted)
  {
    assert Records(m, limits, limit, id, f.incoming[id]);
  }

  /** Renaming a staged submission into place is an accepted submit call. */
  lemma RenameIsSubmit(f: R.Files, m: Reading, limits: P.Limits, limit: nat, id: string, receipt: R.Receipt,
                       promoted: set<string>, current: P.Current)
    requires Records(m, limits, limit, id, receipt) && id !in f.incoming
    ensures P.Submit(View(f, m, promoted, current), limits, m.archive(receipt.archive))
         == (View(f.(incoming := f.incoming[id := receipt]), m, promoted, current), P.Accepted)
  {
    var o := View(f, m, promoted, current);
    assert View(f.(incoming := f.incoming[id := receipt]), m, promoted, current).incoming
        == o.incoming[id := m.archive(receipt.archive)];
  }

  /** Finding the same archive is an accepted submit call that changes nothing. */
  lemma AgainIsSubmit(f: R.Files, m: Reading, limits: P.Limits, limit: nat, id: string, receipt: R.Receipt,
                      promoted: set<string>, current: P.Current)
    requires FilesLinked(f, m, limits, limit) && Records(m, limits, limit, id, receipt) && Readable(f, limit, id)
    requires f.incoming[id].archive == receipt.archive
    ensures P.Submit(View(f, m, promoted, current), limits, m.archive(receipt.archive))
         == (View(f, m, promoted, current), P.Accepted)
  {
    assert Records(m, limits, limit, id, f.incoming[id]);
  }

  /** The reply is that of the accepted call it names: the commit of this request, candidate
      and archive, or the submit of this archive, which changes nothing when it is one more
      time and publishes it when it is the first.  A status changes nothing, is of a request
      it may see, and reports no commit without its marker. */
  ghost predicate Acknowledges(o: P.Remote, m: Reading, limits: P.Limits, d: P.Remote, reply: R.Reply) {
    match reply
    case Accepted(id, a) =>
      var request := m.archive(a.archive).request;
      && request.id == id && request.expected == a.expected
      && P.Commit(o, limits, request, a.candidate) == (d, P.Accepted)
    case Stored(id, archive, idempotent) =>
      && m.archive(archive).request.id == id
      && P.Submit(o, limits, m.archive(archive)) == (d, P.Accepted)
      && (idempotent <==> id in o.incoming)
      && (idempotent ==> d == o)
    case Status(id, accepted) =>
      d == o && P.Known(o, limits, id) && (accepted ==> id in o.markers)
    case Refused(_) => true
  }

  lemma AcknowledgedIsAccepted(o: P.Remote, m: Reading, limits: P.Limits, d: P.Remote, reply: R.Reply)
    requires Acknowledges(o, m, limits, d, reply) && (reply.Accepted? || reply.Stored?)
    ensures Accepts(o, limits, d)
  {
    if reply.Accepted? {
      var request := m.archive(reply.authorization.archive).request;
      assert P.Commit(o, limits, request, reply.authorization.candidate) == (d, P.Accepted);
    } else {
      assert P.Submit(o, limits, m.archive(reply.archive)) == (d, P.Accepted);
    }
  }

  /** One file operation changes nothing the protocol sees, or does what one accepted call
      does; and a reply of acceptance is that call's reply. */
  ghost predicate Simulates(f: R.Files, m: Reading, limits: P.Limits, e: R.Effect,
                            promoted: set<string>, current: P.Current)
  {
    var o, d := View(f, m, promoted, current), View(e.files, m, promoted, current);
    && (d == o || Accepts(o, limits, d))
    && (e.thread.Replied? ==> Acknowledges(o, m, limits, d, e.thread.reply))
    && (e.thread.StatusMarked? ==> Learns(o, limits, e.thread.id, e.thread.accepted))
  }

  /** What a status call learns of the marker of a request it may see. */
  predicate Learns(o: P.Remote, limits: P.Limits, id: string, accepted: bool) {
    P.Known(o, limits, id) && (accepted <==> id in o.markers)
  }

  lemma CommitSimulates(f: R.Files, m: Reading, limits: P.Limits, limit: nat, free: bool, t: R.Thread,
                        promoted: set<string>, current: P.Current)
    requires Faithful(m) && FilesLinked(f, m, limits, limit) && R.MarkersOk(f)
    requires R.ThreadOk(f, t) && ThreadLinked(f, m, limits, limit, t)
    requires t.CommitStart? || t.CommitAuthorized? || t.CommitUnmarked? || t.CommitLinking? || t.CommitLost?
    ensures Simulates(f, m, limits, R.Next(f, limit, free, t), promoted, current)
  {
    match t
    case CommitAuthorized(id, a, _) =>
      if id in f.markers && f.markers[id] == a { FoundIsCommit(f, m, limits, limit, id, a, promoted, current); }
    case CommitLinking(id, a) =>
      if id !in f.markers { LinkIsCommit(f, m, limits, limit, id, a, promoted, current); }
    case CommitLost(id, a) =>
      if f.markers[id] == a { FoundIsCommit(f, m, limits, limit, id, a, promoted, current); }
    case _ =>
  }

  lemma SubmitSimulates(f: R.Files, m: Reading, limits: P.Limits, limit: nat, free: bool, t: R.Thread,
                        promoted: set<string>, current: P.Current)
    requires FilesLinked(f, m, limits, limit) && ThreadLinked(f, m, limits, limit, t)
    requires t.SubmitStaged? || t.SubmitLocked? || t.SubmitFound? || t.SubmitFree?
    ensures Simulates(f, m, limits, R.Next(f, limit, free, t), promoted, current)
  {
    match t
    case SubmitFound(id, receipt) =>
      if Readable(f, limit, id) && f.incoming[id].archive == receipt.archive {
        AgainIsSubmit(f, m, limits, limit, id, receipt, promoted, current);
      }
    case SubmitFree(id, receipt) =>
      if id !in f.incoming { RenameIsSubmit(f, m, limits, limit, id, receipt, promoted, current); }
    case _ =>
  }

  lemma StatusSimulates(f: R.Files, m: Reading, limits: P.Limits, limit: nat, free: bool, t: R.Thread,
                        promoted: set<string>, current: P.Current)
    requires FilesLinked(f, m, limits, limit) && R.ThreadOk(f, t) && ThreadLinked(f, m, limits, limit, t)
    requires t.StatusStart? || t.StatusAuthorized? || t.StatusMarked? || t.Dead?
    ensures Simulates(f, m, limits, R.Next(f, limit, free, t), promoted, current)
  {
    if t.StatusAuthorized? || t.StatusMarked? {
      assert Records(m, limits, limit, t.id, f.incoming[t.id]);
      assert P.Known(View(f, m, promoted, current), limits, t.id);
    }
  }

  lemma NextSimulates(s: R.State, m: Reading, limits: P.Limits, limit: nat, free: bool, t: R.Thread,
                      promoted: set<string>, current: P.Current)
    requires Faithful(m) && Linked(s, m, limits, limit) && t in s.threads && !t.Replied?
    ensures Simulates(s.files, m, limits, R.Next(s.files, limit, free, t), promoted, current)
  {
    assert R.ThreadOk(s.files, t) && ThreadLinked(s.files, m, limits, limit, t);
    if t.CommitStart? || t.CommitAuthorized? || t.CommitUnmarked? || t.CommitLinking? || t.CommitLost? {
      CommitSimulates(s.files, m, limits, limit, free, t, promoted, current);
    } else if t.SubmitStaged? || t.SubmitLocked? || t.SubmitFound? || t.SubmitFree? {
      SubmitSimulates(s.files, m, limits, limit, free, t, promoted, current);
    } else {
      StatusSimulates(s.files, m, limits, limit, free, t, promoted, current);
    }
  }

  // ------------------------------------------------------------------
  // Whole runs.
  // ------------------------------------------------------------------

  lemma CommitLinked(f: R.Files, m: Reading, limits: P.Limits, limit: nat, free: bool, t: R.Thread)
    requires FilesLinked(f, m, limits, limit) && ThreadLinked(f, m, limits, limit, t)
    requires t.CommitStart? || t.CommitAuthorized? || t.CommitUnmarked? || t.CommitLinking? || t.CommitLost?
    ensures var e := R.Next(f, limit, free, t);
            FilesLinked(e.files, m, limits, limit) && ThreadLinked(e.files, m, limits, limit, e.thread)
  {
  }

  lemma SubmitLinked(f: R.Files, m: Reading, limits: P.Limits, limit: nat, free: bool, t: R.Thread)
    requires FilesLinked(f, m, limits, limit) && ThreadLinked(f, m, limits, limit, t)
    requires t.SubmitStaged? || t.SubmitLocked? || t.SubmitFound? || t.SubmitFree?
    ensures var e := R.Next(f, limit, free, t);
            FilesLinked(e.files, m, limits, limit) && ThreadLinked(e.files, m, limits, limit, e.thread)
  {
  }

  /** One operation keeps the links of its own process. */
  lemma NextLinked(f: R.Files, m: Reading, limits: P.Limits, limit: nat, free: bool, t: R.Thread)
    requires FilesLinked(f, m, limits, limit) && ThreadLinked(f, m, limits, limit, t)
    ensures var e := R.Next(f, limit, free, t);
            FilesLinked(e.files, m, limits, limit) && ThreadLinked(e.files, m, limits, limit, e.thread)
  {
    if t.CommitStart? || t.CommitAuthorized? || t.CommitUnmarked? || t.CommitLinking? || t.CommitLost? {
      CommitLinked(f, m, limits, limit, free, t);
    } else if t.SubmitStaged? || t.SubmitLocked? || t.SubmitFound? || t.SubmitFree? {
      SubmitLinked(f, m, limits, limit, free, t);
    }
  }

  /** Growth of the published files breaks no link. */
  lemma LinkStays(o: R.Files, d: R.Files, m: Reading, limits: P.Limits, limit: nat, t: R.Thread)
    requires R.Grows(o, d) && ThreadLinked(o, m, limits, limit, t)
    requires forall id <- o.results | o.results[id].ready && id !in o.markers ::
               id in d.results && d.results[id] == o.results[id]
    ensures ThreadLinked(d, m, limits, limit, t)
  {
  }

  lemma OthersLinked(s: R.State, d: R.State, m: Reading, limits: P.Limits, limit: nat, i: nat)
    requires Linked(s, m, limits, limit) && i < |s.threads| == |d.threads| && R.Grows(s.files, d.files)
    requires forall j :: 0 <= j < |s.threads| && j != i ==> d.threads[j] == s.threads[j]
    requires d.files.results == s.files.results && ThreadLinked(d.files, m, limits, limit, d.threads[i])
    ensures forall t <- d.threads :: ThreadLinked(d.files, m, limits, limit, t)
  {
    forall t <- d.threads ensures ThreadLinked(d.files, m, limits, limit, t) {
      var j :| 0 <= j < |d.threads| && d.threads[j] == t;
      if j != i { LinkStays(s.files, d.files, m, limits, limit, s.threads[j]); }
    }
  }

  /** A process takes a step: whatever its effect, if the files and its own thread stay
      linked, everything does. */
  lemma PutLinked(s: R.State, m: Reading, limits: P.Limits, limit: nat, i: nat, e: R.Effect)
    requires Linked(s, m, limits, limit) && i < |s.threads|
    requires R.Inv(R.Put(s, i, e)) && R.Grows(s.files, e.files) && e.files.results == s.files.results
    requires FilesLinked(e.files, m, limits, limit) && ThreadLinked(e.files, m, limits, limit, e.thread)
    ensures Linked(R.Put(s, i, e), m, limits, limit)
  {
    OthersLinked(s, R.Put(s, i, e), m, limits, limit, i);
  }

  lemma ThreadStepLinked(s: R.State, m: Reading, limits: P.Limits, limit: nat, e: R.Event)
    requires Linked(s, m, limits, limit) && (e.Run? || e.Break? || e.Kill?)
    ensures Linked(R.Step(s, limit, e), m, limits, limit)
  {
    if e.i < |s.threads| {
      var t, free := s.threads[e.i], s.lock == None;
      assert t in s.threads;
      R.StepKeeps(s, limit, e);
      NextLinked(s.files, m, limits, limit, free, t);
      R.NextKeeps(s.files, limit, free, t);
      var n := R.Next(s.files, limit, free, t);
      if R.Step(s, limit, e) != s {
        var effect := if e.Run? then n
                      else if e.Kill? then R.Effect(s.files, R.Dead)
                      else R.Effect(if e.after then n.files else s.files, R.Replied(R.Refused(R.Internal)));
        PutLinked(s, m, limits, limit, e.i, effect);
      }
    }
  }

  lemma StepLinked(s: R.State, m: Reading, limits: P.Limits, limit: nat, e: R.Event)
    requires Linked(s, m, limits, limit) && Orderly(s, m, limits, limit, e)
    ensures Linked(R.Step(s, limit, e), m, limits, limit)
  {
    if e.Run? || e.Break? || e.Kill? {
      ThreadStepLinked(s, m, limits, limit, e);
    } else {
      R.StepKeeps(s, limit, e);
      var d := R.Step(s, limit, e);
      forall t <- d.threads ensures ThreadLinked(d.files, m, limits, limit, t) {
        if t in s.threads { LinkStays(s.files, d.files, m, limits, limit, t); }
      }
    }
  }

  ghost predicate AllOrderly(s: R.State, m: Reading, limits: P.Limits, limit: nat, events: seq<R.Event>)
    decreases |events|
  {
    events == []
    || (Orderly(s, m, limits, limit, events[0])
        && AllOrderly(R.Step(s, limit, events[0]), m, limits, limit, events[1..]))
  }

  /** From one view to the next: the processor's results, or one accepted call. */
  ghost predicate Moves(o: P.Remote, limits: P.Limits, d: P.Remote) {
    d == o.(results := d.results) || Accepts(o, limits, d)
  }

  /** From `o` to `d` by accepted calls and by results of the processor. */
  ghost predicate Reaches(o: P.Remote, limits: P.Limits, d: P.Remote, steps: nat)
    decreases steps
  {
    if steps == 0 then d == o
    else exists next: P.Remote :: Moves(o, limits, next) && Reaches(next, limits, d, steps - 1)
  }

  lemma StepSimulates(s: R.State, m: Reading, limits: P.Limits, limit: nat, e: R.Event,
                      promoted: set<string>, current: P.Current)
    requires Faithful(m) && Linked(s, m, limits, limit)
    ensures Moves(View(s.files, m, promoted, current), limits, View(R.Step(s, limit, e).files, m, promoted, current))
  {
    var o := View(s.files, m, promoted, current);
    if (e.Run? || e.Break?) && e.i < |s.threads| && !s.threads[e.i].Replied? {
      NextSimulates(s, m, limits, limit, s.lock == None, s.threads[e.i], promoted, current);
      var n := R.Next(s.files, limit, s.lock == None, s.threads[e.i]);
      assert o == o.(results := o.results);
      assert R.Step(s, limit, e).files == n.files || R.Step(s, limit, e).files == s.files;
    }
  }

  /** Over every interleaving of receiver processes, with failures and kills anywhere, the
      published requests and markers change as atomic submit and commit calls change them. */
  lemma {:induction false} RunsAreCalls(s: R.State, m: Reading, limits: P.Limits, limit: nat, events: seq<R.Event>,
                                        promoted: set<string>, current: P.Current)
    requires Faithful(m) && Linked(s, m, limits, limit) && AllOrderly(s, m, limits, limit, events)
    ensures Linked(R.Steps(s, limit, events), m, limits, limit)
    ensures Reaches(View(s.files, m, promoted, current), limits,
                    View(R.Steps(s, limit, events).files, m, promoted, current), |events|)
    decreases |events|
  {
    if events != [] {
      var next := R.Step(s, limit, events[0]);
      StepLinked(s, m, limits, limit, events[0]);
      StepSimulates(s, m, limits, limit, events[0], promoted, current);
      RunsAreCalls(next, m, limits, limit, events[1..], promoted, current);
    }
  }

  /** A reply of acceptance is the reply of the very call it names, made atomically at that
      moment.  When a status is called is said by StatusIsCall. */
  lemma RepliesAreCalls(s: R.State, m: Reading, limits: P.Limits, limit: nat, i: nat,
                        promoted: set<string>, current: P.Current)
    requires Faithful(m) && Linked(s, m, limits, limit) && i < |s.threads| && !s.threads[i].Replied?
    requires R.Go(s, limit, i).threads[i].Replied?
    ensures Acknowledges(View(s.files, m, promoted, current), m, limits,
                         View(R.Go(s, limit, i).files, m, promoted, current), R.Go(s, limit, i).threads[i].reply)
    ensures R.Go(s, limit, i).threads[i].reply.Accepted? || R.Go(s, limit, i).threads[i].reply.Stored? ==>
              Accepts(View(s.files, m, promoted, current), limits,
                      View(R.Go(s, limit, i).files, m, promoted, current))
  {
    NextSimulates(s, m, limits, limit, s.lock == None, s.threads[i], promoted, current);
    var reply := R.Go(s, limit, i).threads[i].reply;
    if reply.Accepted? || reply.Stored? {
      AcknowledgedIsAccepted(View(s.files, m, promoted, current), m, limits,
                             View(R.Go(s, limit, i).files, m, promoted, current), reply);
    }
  }

  lemma {:induction false} PrefixOrderly(s: R.State, m: Reading, limits: P.Limits, limit: nat,
                                         events: seq<R.Event>, n: nat)
    requires n <= |events| && AllOrderly(s, m, limits, limit, events)
    ensures AllOrderly(s, m, limits, limit, events[..n])
    decreases |events|
  {
    if n > 0 {
      PrefixOrderly(R.Step(s, limit, events[0]), m, limits, limit, events[1..], n - 1);
      assert events[..n][1..] == events[1..][..n - 1];
    }
  }

  /** A status reply is that of an atomic status call made between the request and the
      reply: the request was known then, and accepted exactly if its marker was there. */
  lemma StatusIsCall(s: R.State, m: Reading, limits: P.Limits, limit: nat, events: seq<R.Event>, i: nat, id: string,
                     accepted: bool, promoted: set<string>, current: P.Current)
    returns (n: nat)
    requires Faithful(m) && Linked(s, m, limits, limit) && AllOrderly(s, m, limits, limit, events)
    requires |s.threads| <= i < |R.Steps(s, limit, events).threads|
    requires R.Steps(s, limit, events).threads[i] == R.Replied(R.Status(id, accepted))
    ensures n <= |events|
    ensures Learns(View(R.Steps(s, limit, events[..n]).files, m, promoted, current), limits, id, accepted)
  {
    n := R.StatusIsRead(s, limit, events, i, id, accepted);
    PrefixOrderly(s, m, limits, limit, events, n);
    RunsAreCalls(s, m, limits, limit, events[..n], promoted, current);
    var read := R.Steps(s, limit, events[..n]);
    assert ThreadLinked(read.files, m, limits, limit, read.threads[i]);
    assert Records(m, limits, limit, id, read.files.incoming[id]);
  }

  // ------------------------------------------------------------------
  // The processor.
  // ------------------------------------------------------------------

  /** What the store has promoted for whom. */
  ghost predicate PromotedBy(log: D.Log, promoted: set<string>) {
    forall r :: r in promoted <==> D.Commits(log, r) > 0
  }

  /** The promotion store promotes only requests that have a marker, each once: what the
      protocol's processor is allowed. */
  lemma StorePromotesMarked(genesis: D.State, d: S.Disk, log: D.Log, started: nat, promoted: set<string>)
    requires S.Inv(genesis, d, log, started) && PromotedBy(log, promoted)
    ensures promoted <= d.queue.markers.Keys
    ensures forall r <- promoted :: D.Commits(log, r) == 1
  {
    S.InvRefines(genesis, d, log, started);
  }
}
