/** The workstation's publication attempt as it runs against the receiver and the
    processor (reconcile and _resume_pending_attempt in src/homeops_ai/pipeline.py).

    Before every durable write, transport call and look at the vault the environment
    acts, and the step may be lost, may fail after taking effect, or may be the one at
    which the process is killed.  A transport call takes effect before it returns or
    fails, or never. */
module Publication {
  import opened Wrappers
  import opened PublicationState

  datatype Fate = Done | Killed | FailedBefore | FailedAfter

  datatype Turn = Turn(actions: seq<Action>, fate: Fate)

  /** The fate of the next step; without further turns it is done. */
  function HeadFate(turns: seq<Turn>): Fate {
    if turns == [] then Done else turns[0].fate
  }

  /** The step took effect. */
  predicate Effective(f: Fate) {
    f == Done || f == FailedAfter
  }

  /** What the others do before the next step. */
  function HeadActions(turns: seq<Turn>): seq<Action> {
    if turns == [] then [] else turns[0].actions
  }

  /** The remote side and the vault after these actions, one after the other. */
  function Acted(r: Remote, source: Option<Snapshot>, actions: seq<Action>): (Remote, Option<Snapshot>) {
    if actions == [] then (r, source)
    else
      var (before, looked) := Acted(r, source, actions[..|actions| - 1]);
      var last := actions[|actions| - 1];
      (Act(before, last), if last.SourceBecomes? then last.source else looked)
  }

  /** How far a step of the workstation got: it goes on, it ended the attempt, it
      recorded a failure and kept the attempt, it raised, or the process died. */
  datatype Exit = Going | Ended(report: Report) | Failed(report: Report) | Raised(outcome: Outcome) | Dead

  /** _terminal_matches_attempt. */
  predicate TerminalMatches(result: RemoteResult, a: Attempt) {
    && result.snapshotId == Some(a.snapshot.id)
    && (a.candidate.None? || result.candidate == a.candidate)
    && result.expected == Some(a.request.expected)
    && result.releasePolicy == Some(a.request.releasePolicy)
    && (a.promotionPolicy.None? || result.promotionPolicy == a.promotionPolicy)
  }

  /** _current_matches; the policy carries the release identity. */
  predicate CurrentMatches(c: Current, s: Snapshot, policy: string, deployment: Option<string>, run: Option<string>) {
    && (deployment.None? || c.deployment == deployment.value)
    && (run.None? || c.runId == run.value)
    && c.snapshot == s
    && c.policy == policy
  }

  /** This look found the vault with the snapshot's content. */
  predicate Shows(look: Option<Snapshot>, s: Snapshot) {
    && look.Some?
    && look.value.source == s.source && look.value.artifacts == s.artifacts && look.value.logical == s.logical
  }

  /** What looks at the vault found, in order. */
  type Looks = seq<Option<Snapshot>>

  /** One of the looks since `before` found something else. */
  ghost predicate SawChange(before: Looks, now: Looks, s: Snapshot) {
    exists n :: |before| <= n < |now| && !Shows(now[n], s)
  }

  ghost predicate SawSame(before: Looks, now: Looks, s: Snapshot) {
    exists n :: |before| <= n < |now| && Shows(now[n], s)
  }

  /** What an attempt may end with, given what was seen since `before`: it is given up, or
      its promotion reported as overtaken, only if the policy differs or the vault was seen
      to, and reported as promoted only if the vault was seen unchanged. */
  ghost predicate Grounds(outcome: Outcome, s: Snapshot, samePolicy: bool, before: Looks, now: Looks) {
    && ((outcome.LocalSourceChanged? || outcome.PromotedSourceMoved?) ==> !samePolicy || SawChange(before, now, s))
    && (outcome == Promoted ==> SawSame(before, now, s))
  }

  lemma NoGroundsNeeded(outcome: Outcome, s: Snapshot, samePolicy: bool, before: Looks, now: Looks)
    requires (!outcome.Promoted? && !outcome.PromotedSourceMoved? && !outcome.LocalSourceChanged?)
    ensures Grounds(outcome, s, samePolicy, before, now) == true
  {
  }

  /** A submitted attempt has no marker, and so no result of a commit. */
  lemma SubmittedIsNotPromoted(l: Local, r: Remote, p: Progress, a: Attempt)
    requires Inv(l, r, p) && l.attempt == Some(a) && a.phase == Submitted && a.request.id in r.results
    ensures var outcome := r.results[a.request.id].outcome;
            !outcome.Promoted? && !outcome.PromotedSourceMoved? && !outcome.LocalSourceChanged?
  {
    ResultIsTerminal(l, r, p, a.request.id);
    AttemptAgrees(l, r, p);
  }

  lemma RequestedIsMarked(l: Local, r: Remote, p: Progress, a: Attempt)
    requires Inv(l, r, p) && l.attempt == Some(a) && a.phase == CommitRequested
    ensures a.request.id in r.markers
  {
    AttemptAgrees(l, r, p);
  }

  /** What an attempt recorded as its end may be reported. */
  lemma RecordedIsJustified(l: Local, r: Remote, p: Progress, a: Attempt)
    requires Inv(l, r, p) && l.attempt == Some(a) && a.phase == Terminal
    ensures a.terminal.Some? && a.terminal.value.outcome != CandidateReady
    ensures a.terminal.value.requestId == a.request.id
    ensures Justified(a.terminal.value, a.request.id in r.markers)
  {
    AttemptAgrees(l, r, p);
  }

  lemma SubmittedIsPublished(l: Local, r: Remote, p: Progress, a: Attempt)
    requires Inv(l, r, p) && l.attempt == Some(a) && a.phase == Submitted
    ensures a.request.id in r.incoming && r.incoming[a.request.id] == a.archive
  {
    AttemptAgrees(l, r, p);
  }

  lemma SawMore(before: Looks, middle: Looks, now: Looks, s: Snapshot)
    requires before <= middle <= now
    ensures SawChange(middle, now, s) || SawChange(before, middle, s) ==> SawChange(before, now, s)
    ensures SawSame(middle, now, s) || SawSame(before, middle, s) ==> SawSame(before, now, s)
  {
    if n :| |before| <= n < |middle| && !Shows(middle[n], s) { assert !Shows(now[n], s); }
    if n :| |before| <= n < |middle| && Shows(middle[n], s) { assert Shows(now[n], s); }
  }

  lemma SawLast(before: Looks, look: Option<Snapshot>, s: Snapshot)
    ensures SawChange(before, before + [look], s) <==> !Shows(look, s)
    ensures SawSame(before, before + [look], s) <==> Shows(look, s)
  {
    assert (before + [look])[|before|] == look;
  }

  /** However far the work on this attempt got, what it ended with has its grounds in what
      was seen since `before`. */
  ghost predicate Grounded(p: Progress, a: Attempt, samePolicy: bool, before: Looks, now: Looks) {
    && before <= now && a.request.id in p
    && (p[a.request.id].terminal.Some? ==>
          Grounds(p[a.request.id].terminal.value.outcome, a.snapshot, samePolicy, before, now))
  }

  /** An attempt that is being worked on has not ended. */
  lemma NotEnded(l: Local, r: Remote, p: Progress, a: Attempt, samePolicy: bool, before: Looks, now: Looks)
    requires Inv(l, r, p) && l.attempt.Some? && l.attempt.value.phase != Terminal && before <= now
    requires l.attempt.value.request == a.request
    ensures Grounded(p, a, samePolicy, before, now) == true
  {
    AttemptAgrees(l, r, p);
    assert InvParts(l, r, p);
  }

  /** Grounds seen later are grounds, and so are stronger ones. */
  lemma GroundedSince(p: Progress, a: Attempt, at: Attempt, same: bool, samePolicy: bool,
                      before: Looks, middle: Looks, now: Looks)
    requires before <= middle && Grounded(p, at, same, middle, now)
    requires Continues(a, at) && (samePolicy ==> same)
    ensures Grounded(p, a, samePolicy, before, now) == true
  {
    SawMore(before, middle, now, a.snapshot);
  }

  lemma EndedGrounded(o: Progress, d: Progress, a: Attempt, end: Attempt, samePolicy: bool, before: Looks, now: Looks)
    requires Grounded(o, a, samePolicy, before, now) && (d == o || d == o[a.request.id := end])
    requires end.terminal.Some? && Grounds(end.terminal.value.outcome, a.snapshot, samePolicy, before, now)
    ensures Grounded(d, a, samePolicy, before, now) == true
  {
  }

  /** This attempt ended since `o`. */
  predicate EndedSince(o: Progress, d: Progress, id: string) {
    id in d && d[id].terminal.Some? && (id in o ==> o[id].terminal.None?)
  }

  /** Every attempt that ended since `o` had its grounds. */
  ghost predicate AllGrounded(o: Progress, d: Progress, policy: string, before: Looks, now: Looks) {
    && before <= now
    && forall id :: EndedSince(o, d, id) ==>
         Grounds(d[id].terminal.value.outcome, d[id].snapshot, d[id].policy == policy, before, now)
  }

  predicate OnePolicy(launches: seq<Launch>, policy: string) {
    forall l <- launches :: l.policy == policy
  }

  lemma OnePolicyMore(launches: seq<Launch>, l: Launch, policy: string)
    ensures OnePolicy(launches + [l], policy) <==> OnePolicy(launches, policy) && l.policy == policy
  {
    assert l in launches + [l];
    if OnePolicy(launches + [l], policy) {
      forall x <- launches ensures x.policy == policy { assert x in launches + [l]; }
    }
  }

  /** An attempt with a terminal result is in its last phase. */
  predicate EndedAreTerminal(p: Progress) {
    forall id <- p | p[id].terminal.Some? :: p[id].phase == Terminal
  }

  lemma InvEndsTerminal(l: Local, r: Remote, p: Progress)
    requires Inv(l, r, p)
    ensures EndedAreTerminal(p) == true
  {
    assert InvParts(l, r, p);
    forall id <- p | p[id].terminal.Some? ensures p[id].phase == Terminal {
      assert Agrees(p[id], r.incoming, r.markers);
    }
  }

  /** The same over several runs, each under its own policy. */
  ghost predicate RunsGrounded(o: Progress, d: Progress, launches: seq<Launch>, before: Looks, now: Looks) {
    && before <= now
    && forall id :: EndedSince(o, d, id) ==>
         Grounds(d[id].terminal.value.outcome, d[id].snapshot, OnePolicy(launches, d[id].policy), before, now)
  }

  /** Only the pending attempt can still end. */
  lemma OnlyPendingEnds(l: Local, r: Remote, p: Progress, id: string)
    requires Inv(l, r, p) && id in p && p[id].terminal.None?
    ensures l.attempt == Some(p[id]) && p[id].request.id == id
  {
    assert InvParts(l, r, p);
    assert Agrees(p[id], r.incoming, r.markers);
  }

  /** The work on the pending attempt is all that can end one. */
  lemma ResumedGrounded(l: Local, r: Remote, o: Progress, d: Progress, a: Attempt, policy: string,
                        before: Looks, now: Looks)
    requires Inv(l, r, o) && l.attempt == Some(a) && Progresses(o, d) && before <= now
    requires a.phase != Terminal ==> Grounded(d, a, a.policy == policy, before, now)
    ensures AllGrounded(o, d, policy, before, now) == true
  {
    forall id | EndedSince(o, d, id)
      ensures Grounds(d[id].terminal.value.outcome, d[id].snapshot, d[id].policy == policy, before, now)
    {
      OnlyPendingEnds(l, r, o, id);
      assert Forward(o[id], d[id]);
    }
  }

  /** Without a pending attempt only the new one can end. */
  lemma BegunGrounded(l: Local, r: Remote, o: Progress, d: Progress, begun: string, policy: string,
                      before: Looks, now: Looks)
    requires Inv(l, r, o) && l.attempt.None? && d.Keys <= o.Keys + {begun} && before <= now
    requires begun in d && d[begun].terminal.Some? ==>
               Grounds(d[begun].terminal.value.outcome, d[begun].snapshot, d[begun].policy == policy, before, now)
    ensures AllGrounded(o, d, policy, before, now) == true
  {
    forall id | EndedSince(o, d, id)
      ensures Grounds(d[id].terminal.value.outcome, d[id].snapshot, d[id].policy == policy, before, now)
    {
      if id in o { OnlyPendingEnds(l, r, o, id); }
    }
  }

  lemma RunsCompose(o: Progress, m: Progress, d: Progress, launches: seq<Launch>, l: Launch,
                    before: Looks, middle: Looks, now: Looks)
    requires RunsGrounded(o, m, launches, before, middle) && AllGrounded(m, d, l.policy, middle, now)
    requires Kept(m, d) && EndedAreTerminal(m)
    ensures RunsGrounded(o, d, launches + [l], before, now) == true
  {
    forall id | EndedSince(o, d, id)
      ensures Grounds(d[id].terminal.value.outcome, d[id].snapshot, OnePolicy(launches + [l], d[id].policy),
                      before, now)
    {
      SawMore(before, middle, now, d[id].snapshot);
      OnePolicyMore(launches, l, d[id].policy);
      if id in m && m[id].terminal.Some? {
        assert Forward(m[id], d[id]);
        assert EndedSince(o, m, id);
      } else {
        assert EndedSince(m, d, id);
      }
    }
  }

  /** The same attempt, further on. */
  predicate Continues(a: Attempt, next: Attempt) {
    next.request == a.request && next.snapshot == a.snapshot && next.policy == a.policy
  }

  /** The report of an attempt that ends with a result. */
  function EndOutcome(result: RemoteResult, moved: bool): Outcome {
    if result.outcome == Promoted && moved then PromotedSourceMoved else result.outcome
  }

  /** One invocation of reconcile; `id` and `capability` are what it would draw. */
  datatype Launch = Launch(id: string, publisher: string, capability: string, policy: string,
                           patience: nat, turns: seq<Turn>)

  class Coordinator {
    var local: Local
    var remote: Remote
    const limits: Limits
    var source: Option<Snapshot>       // what a look at the vault finds; None has errors
    var turns: seq<Turn>
    var patience: nat                  // polls left before the deadline
    ghost var progress: Progress
    ghost var drawn: set<string>       // the request IDs of all runs so far
    ghost var seen: Looks              // what every look at the vault found

    ghost predicate Valid()
      reads this
    {
      Inv(local, remote, progress) && Accounted(local, progress, drawn) == true
    }

    /** A workstation without an attempt, facing a receiver it has not used yet. */
    constructor (current: Current, vault: Option<Snapshot>, bounds: Limits)
      ensures Valid() && local == Local(None, None, None) && progress == map[] && drawn == {} && seen == []
      ensures limits == bounds
    {
      limits := bounds;
      local := Local(None, None, None);
      remote := Remote(map[], map[], map[], {}, current);
      source, turns, patience, progress, drawn, seen := vault, [], 0, map[], {}, [];
    }

    /** What everyone else does before the next step, and what becomes of that step. */
    method NextTurn() returns (f: Fate)
      requires Valid()
      modifies `remote, `source, `turns
      ensures Valid()
      ensures remote.incoming == old(remote).incoming && remote.markers == old(remote).markers
      ensures f == HeadFate(old(turns)) && turns == if old(turns) == [] then [] else old(turns)[1..]
      ensures (remote, source) == Acted(old(remote), old(source), HeadActions(old(turns)))
      ensures old(turns) == [] ==> f == Done && turns == [] && remote == old(remote) && source == old(source)
    {
      f := Done;
      if turns == [] { return; }
      var turn := turns[0];
      turns, f := turns[1..], turn.fate;
      for i := 0 to |turn.actions|
        invariant Valid()
        invariant remote.incoming == old(remote).incoming && remote.markers == old(remote).markers
        invariant (remote, source) == Acted(old(remote), old(source), turn.actions[..i])
        invariant turns == old(turns)[1..]
      {
        assert turn.actions[..i + 1][..i] == turn.actions[..i];
        ActKeepsRemoteOk(remote, turn.actions[i]);
        RemoteStepKeepsInv(local, remote, Act(remote, turn.actions[i]), progress);
        if turn.actions[i].SourceBecomes? { source := turn.actions[i].source; }
        remote := Act(remote, turn.actions[i]);
      }
      assert turn.actions[..|turn.actions|] == turn.actions;
    }

    function Failure(f: Fate, outcome: Outcome): (exit: Exit)
      ensures match f
              case Done => exit == Going
              case Killed => exit == Dead
              case _ => exit == Raised(outcome)
    {
      if f == Done then Going else if f == Killed then Dead else Raised(outcome)
    }

    // ----------------------------------------------------------------
    // The state directory.
    // ----------------------------------------------------------------

    /** How a write of the attempt ends: it took effect, or it did not, as its fate says. */
    predicate Written(f: Fate, o: Local, before: Progress, next: Attempt, d: Local, after: Progress, exit: Exit) {
      && exit == Failure(f, InternalError)
      && if Effective(f) then d == o.(attempt := Some(next)) && after == before[next.request.id := next]
         else d == o && after == before
    }

    /** _update_pending_attempt. */
    method Update(next: Attempt) returns (exit: Exit)
      requires Valid() && local.attempt.Some? && Forward(local.attempt.value, next) == true
      requires Agrees(next, remote.incoming, remote.markers) == true
      modifies `local, `remote, `source, `turns, `progress
      ensures Valid() && Progresses(old(progress), progress) == true
      ensures remote.incoming == old(remote).incoming && remote.markers == old(remote).markers
      ensures local == old(local) || local == old(local).(attempt := Some(next))
      ensures exit.Going? || exit.Raised? || exit.Dead?
      ensures exit.Raised? ==> exit.outcome == InternalError
      ensures exit.Going? ==> local.attempt == Some(next) && progress == old(progress)[next.request.id := next]
      ensures progress == old(progress) || progress == old(progress)[next.request.id := next]
      ensures Written(HeadFate(old(turns)), old(local), old(progress), next, local, progress, exit) == true
      ensures old(turns) == [] ==> exit.Going? && turns == [] && remote == old(remote) && source == old(source)
    {
      ProgressStays(progress);
      var f := NextTurn();
      UpdateKeepsInv(local, remote, progress, next);
      if f == Done || f == FailedAfter {
        local, progress := local.(attempt := Some(next)), progress[next.request.id := next];
      }
      exit := Failure(f, InternalError);
    }

    method WriteLastReport(report: Report) returns (exit: Exit)
      requires Valid() && report.requestId in drawn
      requires report.outcome == LocalSourceChanged && report.requestId in progress ==>
                 progress[report.requestId].terminal == Some(report)
      modifies `local, `remote, `source, `turns
      ensures Valid()
      ensures local == if Effective(HeadFate(old(turns))) then old(local).(lastReport := Some(report)) else old(local)
      ensures remote.incoming == old(remote).incoming && remote.markers == old(remote).markers
      ensures exit == Failure(HeadFate(old(turns)), InternalError)
      ensures old(turns) == [] ==> exit.Going? && turns == []
    {
      var f := NextTurn();
      if f == Done || f == FailedAfter { local := local.(lastReport := Some(report)); }
      exit := Failure(f, InternalError);
    }

    /** _retire_pending_attempt: the archive goes first, the attempt after it. */
    method Retire() returns (exit: Exit)
      requires Valid() && local.attempt.Some? && local.attempt.value.phase == Terminal
      modifies `local, `remote, `source, `turns
      ensures Valid()
      ensures local.attempt == old(local).attempt || local.attempt == None
      ensures local.archive == old(local).archive || local.archive == None
      ensures local.attempt == None ==> local.archive == None
      ensures local.lastReport == old(local).lastReport
      ensures exit.Going? || exit.Raised? || exit.Dead?
      ensures exit.Raised? ==> exit.outcome == InternalError
      ensures exit.Going? ==> local.attempt == None && local.archive == None
      ensures local.archive == if Effective(HeadFate(old(turns))) then None else old(local).archive
      ensures HeadFate(old(turns)) != Done ==> local.attempt == old(local).attempt
                                               && exit == Failure(HeadFate(old(turns)), InternalError)
      ensures HeadFate(old(turns)) == Done ==>
                var second := if |old(turns)| <= 1 then Done else old(turns)[1].fate;
                exit == Failure(second, InternalError)
                && local.attempt == if Effective(second) then None else old(local).attempt
      ensures old(turns) == [] ==> exit.Going? && turns == []
    {
      var f := NextTurn();
      if f == Done || f == FailedAfter { local := local.(archive := None); }
      if f != Done { return Failure(f, InternalError); }
      f := NextTurn();
      if f == Done || f == FailedAfter { local := local.(attempt := None); }
      exit := Failure(f, InternalError);
    }

    /** The attempt is durably terminal with this report. */
    ghost predicate Concluded(report: Report)
      reads this
    {
      report.requestId in progress && progress[report.requestId].terminal == Some(report)
    }

    /** The attempt ended with this report, and nothing is left to resume. */
    ghost predicate Reported(report: Report)
      reads this
    {
      local == Local(None, None, Some(report)) && Concluded(report)
    }

    /** The pending attempt as it ends. */
    function Ending(l: Local, report: Report): Attempt
      requires l.attempt.Some?
    {
      l.attempt.value.(phase := Terminal, terminal := Some(report))
    }

    /** The pending attempt becomes terminal. */
    method EndAttempt(report: Report) returns (exit: Exit)
      requires Valid() && local.attempt.Some? && report.outcome != CandidateReady
      requires local.attempt.value.phase == Terminal ==> local.attempt.value.terminal == Some(report)
      requires report.requestId == local.attempt.value.request.id
      requires Justified(report, local.attempt.value.request.id in remote.markers)
      modifies `local, `remote, `source, `turns, `progress
      ensures Valid() && Progresses(old(progress), progress) == true
      ensures exit.Going? || exit.Raised? || exit.Dead?
      ensures exit.Raised? ==> exit.outcome == InternalError
      ensures local == old(local).(attempt := local.attempt) && local.attempt.Some?
      ensures local.attempt == old(local).attempt || local.attempt.value.phase == Terminal
      ensures exit.Going? ==> Concluded(report) && local.attempt.value.phase == Terminal
      ensures progress == old(progress) || progress == old(progress)[report.requestId := Ending(old(local), report)]
      ensures old(turns) == [] ==> exit.Going? && turns == []
    {
      var a := local.attempt.value;
      AttemptAgrees(local, remote, progress);
      MayEnd(a, report, remote.incoming, remote.markers);
      exit := Update(a.(phase := Terminal, terminal := Some(report)));
    }

    /** The report of a terminal attempt, then the removal of the pair. */
    method Conclude(report: Report) returns (exit: Exit)
      requires Valid() && local.attempt.Some? && local.attempt.value.phase == Terminal && Concluded(report)
      modifies `local, `remote, `source, `turns
      ensures Valid()
      ensures exit.Going? || exit.Raised? || exit.Dead?
      ensures exit.Raised? ==> exit.outcome == InternalError
      ensures exit.Going? ==> local == Local(None, None, Some(report))
      ensures local.lastReport == old(local).lastReport || local.lastReport == Some(report)
      ensures local.archive == old(local).archive || (local.archive == None && local.lastReport == Some(report))
      ensures local.attempt == None ==> local.archive == None && local.lastReport == Some(report)
      ensures local.attempt == None || local.attempt == old(local).attempt
      ensures old(turns) == [] ==> exit.Going? && turns == []
    {
      exit := WriteLastReport(report);
      if exit.Going? { exit := Retire(); }
    }

    /** _resolve_pending_attempt: the terminal attempt first, then its report, then
        nothing is left to resume.  Wherever this stops, a report was written only for an
        attempt that is durably terminal, nothing was removed before the report, and the
        attempt not before the archive. */
    method Resolve(report: Report) returns (exit: Exit)
      requires Valid() && local.attempt.Some? && report.outcome != CandidateReady
      requires local.attempt.value.phase == Terminal ==> local.attempt.value.terminal == Some(report)
      requires report.requestId == local.attempt.value.request.id
      requires Justified(report, local.attempt.value.request.id in remote.markers)
      modifies `local, `remote, `source, `turns, `progress
      ensures Valid() && Progresses(old(progress), progress) == true
      ensures exit.Ended? || exit.Raised? || exit.Dead?
      ensures exit.Raised? ==> exit.outcome == InternalError
      ensures exit.Ended? ==> exit.report == report && Reported(report) == true
      ensures local.lastReport == old(local).lastReport || (local.lastReport == Some(report) && Concluded(report))
      ensures local.archive == old(local).archive || (local.archive == None && local.lastReport == Some(report))
      ensures local.attempt == None ==> local.archive == None && local.lastReport == Some(report)
      ensures local.attempt.None? || local.attempt == old(local).attempt || local.attempt.value.phase == Terminal
      ensures progress == old(progress) || progress == old(progress)[report.requestId := Ending(old(local), report)]
      ensures old(turns) == [] ==> exit.Ended? && turns == []
    {
      exit := EndAttempt(report);
      if !exit.Going? { return; }
      exit := Conclude(report);
      if exit.Going? { exit := Ended(report); }
    }

    // ----------------------------------------------------------------
    // Looks and calls.
    // ----------------------------------------------------------------

    /** inspect_vault over the vault as it is now. */
    method Look() returns (exit: Exit, found: Option<Snapshot>)
      requires Valid()
      modifies `remote, `source, `turns, `seen
      ensures Valid()
      ensures remote.incoming == old(remote).incoming && remote.markers == old(remote).markers
      ensures exit == Failure(HeadFate(old(turns)), InternalError)
      ensures found == source && seen == old(seen) + [source]
      ensures old(turns) == [] ==> exit == Going && turns == [] && source == old(source) && remote == old(remote)
    {
      var f := NextTurn();
      exit, found := Failure(f, InternalError), source;
      seen := seen + [source];
    }

    /** export_candidate: the vault, the copy made of it, and the vault once more.  A vault
        that moves meanwhile ends the run before anything is begun. */
    method Export() returns (exit: Exit, snapshot: Snapshot)
      requires Valid()
      modifies `remote, `source, `turns, `seen
      ensures Valid() && old(seen) <= seen
      ensures remote.incoming == old(remote).incoming && remote.markers == old(remote).markers
      ensures exit.Going? || exit.Raised? || exit.Dead?
      ensures exit.Raised? ==>
                exit.outcome.InternalError? || exit.outcome.LocalVaultInvalid? || exit.outcome.LocalSourceChanged?
      ensures exit.Going? ==>
                Shows(source, snapshot) && forall n :: |old(seen)| <= n < |seen| ==> Shows(seen[n], snapshot)
      ensures exit.Going? ==> |seen| == |old(seen)| + 3
      ensures HeadFate(old(turns)) != Done ==>
                exit == Failure(HeadFate(old(turns)), InternalError) && |seen| == |old(seen)| + 1
      ensures old(turns) == [] ==>
                && turns == [] && exit == (if old(source).Some? then Going else Raised(LocalVaultInvalid))
                && (exit.Going? ==> Some(snapshot) == old(source))
    {
      snapshot := Snapshot("", "", "", "");
      var before, copy, after;
      exit, before := Look();
      if !exit.Going? { return; }
      if before.None? { return Raised(LocalVaultInvalid), snapshot; }
      exit, copy := Look();
      if !exit.Going? { return; }
      if copy.None? { return Raised(LocalVaultInvalid), snapshot; }
      snapshot := copy.value;
      exit, after := Look();
      if !exit.Going? { return; }
      if after.None? || !SameIdentity(before.value, snapshot) || !SameIdentity(snapshot, after.value) {
        exit := Raised(LocalSourceChanged);
      }
    }

    /** _source_matches_pending. */
    method SourceMatches(a: Attempt) returns (exit: Exit, matches: bool)
      requires Valid()
      modifies `remote, `source, `turns, `seen
      ensures Valid()
      ensures remote.incoming == old(remote).incoming && remote.markers == old(remote).markers
      ensures exit.Going? || exit.Raised? || exit.Dead?
      ensures exit.Raised? ==> exit.outcome == InternalError
      ensures exit == Failure(HeadFate(old(turns)), InternalError)
      ensures seen == old(seen) + [source] && (matches <==> Shows(source, a.snapshot))
      ensures old(turns) == [] ==> exit.Going? && turns == [] && source == old(source) && remote == old(remote)
    {
      var found;
      exit, found := Look();
      matches := found.Some? && SameIdentity(found.value, a.snapshot);
    }

    /** The receiver answers a status call of this request. */
    predicate Visible(r: Remote, request: Request) {
      && request.id in r.incoming && limits.readable(r.incoming[request.id])
      && r.incoming[request.id].request.capability == request.capability
    }

    function Published(r: Remote, id: string): Option<RemoteResult> {
      if id in r.results then Some(r.results[id]) else None
    }

    /** One status call: the receiver reads the marker first and the result later. */
    method Status(request: Request) returns (exit: Exit, accepted: bool, result: Option<RemoteResult>)
      requires Valid()
      modifies `remote, `source, `turns
      ensures Valid()
      ensures remote.incoming == old(remote).incoming && remote.markers == old(remote).markers
      ensures exit.Going? || exit.Raised? || exit.Dead?
      ensures exit.Raised? ==> (exit.outcome.HomeopsUnavailable? || exit.outcome.AuthorizationFailed?)
      ensures exit.Going? ==> Known(remote, limits, request.id)
      ensures accepted <==> request.id in remote.markers
      ensures result.Some? ==> request.id in remote.results && remote.results[request.id] == result.value
      ensures exit.Going? ==> remote.incoming[request.id].request.capability == request.capability
      ensures HeadFate(old(turns)) != Done ==> exit == Failure(HeadFate(old(turns)), HomeopsUnavailable)
      ensures exit.Going? ==> turns == if |old(turns)| < 2 then [] else old(turns)[2..]
      ensures old(turns) == [] ==>
                && turns == [] && remote == old(remote) && source == old(source)
                && exit == (if Visible(remote, request) then Going else Raised(AuthorizationFailed))
                && (exit.Going? ==> result == Published(remote, request.id))
    {
      var f := NextTurn();
      accepted := request.id in remote.markers;
      if f != Done { return Failure(f, HomeopsUnavailable), accepted, None; }
      if !Known(remote, limits, request.id) || remote.incoming[request.id].request.capability != request.capability {
        return Raised(AuthorizationFailed), accepted, None;
      }
      f := NextTurn();
      exit := Failure(f, HomeopsUnavailable);
      result := if request.id in remote.results then Some(remote.results[request.id]) else None;
    }

    /** A poll would find what it waits for. */
    predicate Polled(r: Remote, id: string, terminalOnly: bool) {
      id in r.results && (terminalOnly ==> r.results[id].outcome != CandidateReady)
    }

    /** _poll. */
    method Poll(request: Request, terminalOnly: bool)
      returns (exit: Exit, accepted: bool, result: Option<RemoteResult>)
      requires Valid()
      modifies `remote, `source, `turns, `patience
      ensures Valid()
      ensures remote.incoming == old(remote).incoming && remote.markers == old(remote).markers
      ensures exit.Going? || exit.Raised? || exit.Dead?
      ensures exit.Raised? ==>
                exit.outcome.HomeopsUnavailable? || exit.outcome.AuthorizationFailed? || exit.outcome.Timeout?
      ensures exit.Going? ==>
                && result.Some? && Known(remote, limits, request.id)
                && (accepted <==> request.id in remote.markers)
                && request.id in remote.results && remote.results[request.id] == result.value
                && (terminalOnly ==> result.value.outcome != CandidateReady)
      ensures old(turns) == [] ==>
                && turns == [] && remote == old(remote) && source == old(source)
                && exit == (if old(patience) == 0 then Raised(Timeout)
                            else if !Visible(remote, request) then Raised(AuthorizationFailed)
                            else if Polled(remote, request.id, terminalOnly) then Going
                            else Raised(Timeout))
                && (exit.Going? ==> patience == old(patience))
    {
      while patience > 0
        invariant Valid()
        invariant remote.incoming == old(remote).incoming && remote.markers == old(remote).markers
        invariant old(turns) == [] ==>
                    && turns == [] && remote == old(remote) && source == old(source)
                    && (patience == old(patience)
                        || (patience < old(patience) && Visible(remote, request)
                            && !Polled(remote, request.id, terminalOnly)))
      {
        exit, accepted, result := Status(request);
        if !exit.Going? { return; }
        if result.Some? && (!terminalOnly || result.value.outcome != CandidateReady) { return; }
        patience := patience - 1;
      }
      return Raised(Timeout), false, None;
    }

    method GetCurrent() returns (exit: Exit, current: Current)
      requires Valid()
      modifies `remote, `source, `turns
      ensures Valid()
      ensures remote.incoming == old(remote).incoming && remote.markers == old(remote).markers
      ensures exit.Going? || exit.Raised? || exit.Dead?
      ensures exit.Raised? ==> exit.outcome == HomeopsUnavailable
      ensures exit == Failure(HeadFate(old(turns)), HomeopsUnavailable)
      ensures current == remote.current
      ensures old(turns) == [] ==> exit == Going && turns == [] && remote == old(remote) && source == old(source)
    {
      var f := NextTurn();
      exit, current := Failure(f, HomeopsUnavailable), remote.current;
    }

    /** A promoted or unchanged result repeats every identity of the attempt, and what the
        receiver has selected is that result's deployment. */
    predicate Believable(a: Attempt, result: RemoteResult, c: Current) {
      (result.outcome.Promoted? || result.outcome.Unchanged?) ==>
        && result.snapshotId == Some(a.snapshot.id) && result.expected == Some(a.request.expected)
        && result.releasePolicy == Some(a.request.releasePolicy)
        && (a.candidate.Some? ==> result.candidate == a.candidate)
        && (a.promotionPolicy.Some? ==> result.promotionPolicy == a.promotionPolicy)
        && c.snapshot == a.snapshot && c.policy == a.policy
        && (result.candidate.Some? ==> result.candidate == Some(c.deployment))
        && (result.runId.Some? ==> result.runId == Some(c.runId))
    }

    /** _validate_remote_terminal. */
    method ValidateTerminal(a: Attempt, result: RemoteResult) returns (exit: Exit)
      requires Valid()
      modifies `remote, `source, `turns
      ensures Valid()
      ensures remote.incoming == old(remote).incoming && remote.markers == old(remote).markers
      ensures exit.Going? || exit.Raised? || exit.Dead?
      ensures exit.Raised? ==> (exit.outcome.HomeopsUnavailable? || exit.outcome.PostPromotionMismatch?)
      ensures exit.Going? ==> Believable(a, result, remote.current)
      ensures old(turns) == [] ==>
                && turns == [] && remote == old(remote) && source == old(source)
                && exit == (if Believable(a, result, remote.current) then Going else Raised(PostPromotionMismatch))
    {
      if (!result.outcome.Promoted? && !result.outcome.Unchanged?) { return Going; }
      if !TerminalMatches(result, a) { return Raised(PostPromotionMismatch); }
      var current;
      exit, current := GetCurrent();
      if exit.Going? && !CurrentMatches(current, a.snapshot, a.policy, result.candidate, result.runId) {
        exit := Raised(PostPromotionMismatch);
      }
    }

    // ----------------------------------------------------------------
    // The phases of an attempt.
    // ----------------------------------------------------------------

    /** The attempt on disk, while it can still be worked on. */
    ghost predicate Working(a: Attempt)
      reads this
    {
      Valid() && local.attempt == Some(a) && !a.phase.Terminal?
    }

    /** The receiver as the next call finds it. */
    function Met(r: Remote, looked: Option<Snapshot>, turns: seq<Turn>): Remote {
      Acted(r, looked, HeadActions(turns)).0
    }

    /** How a call ends whose reply this is: the call took effect, or it did not, as its fate
        says, and only the fate and the reply decide what the workstation learns. */
    predicate CallEnds(f: Fate, met: Remote, called: Remote, reply: Reply, refused: Outcome, after: Remote, exit: Exit)
    {
      && after == (if Effective(f) then called else met)
      && match f
         case Killed => exit == Dead
         case Done => exit == if reply.Accepted? then Going else Raised(refused)
         case _ => exit == Raised(HomeopsUnavailable)
    }

    /** The submit call, by its fate and the receiver's reply. */
    predicate SubmitEnds(f: Fate, met: Remote, a: Attempt, after: Remote, exit: Exit) {
      var (called, reply) := Submit(met, limits, a.archive);
      CallEnds(f, met, called, reply, TransferFailed, after, exit)
    }

    /** The commit call, likewise. */
    predicate CommitEnds(f: Fate, met: Remote, a: Attempt, after: Remote, exit: Exit)
      requires a.candidate.Some?
    {
      var (called, reply) := Commit(met, limits, a.request, a.candidate.value);
      CallEnds(f, met, called, reply, if reply.Refused? then reply.outcome else TransferFailed, after, exit)
    }

    /** The receiver's side of the submit call. */
    method DeliverSubmit(a: Attempt) returns (accepted: bool)
      requires Working(a) && a.phase.Submitting?
      modifies `remote
      ensures Valid() && remote.markers == old(remote).markers
      ensures accepted <==> Takes(old(remote), limits, a.archive)
      ensures accepted ==> a.request.id in remote.incoming
      ensures (remote, accepted) == (Submit(old(remote), limits, a.archive).0,
                                     Submit(old(remote), limits, a.archive).1.Accepted?)
    {
      SubmitKeepsInv(local, remote, limits, progress, a);
      var reply := Submit(remote, limits, a.archive);
      remote, accepted := reply.0, reply.1.Accepted?;
    }

    /** The submit call itself, which takes effect before it fails or not at all. */
    method CallSubmit(a: Attempt) returns (exit: Exit)
      requires Working(a) && a.phase.Submitting?
      modifies `remote, `source, `turns
      ensures Valid()
      ensures remote.markers == old(remote).markers
      ensures exit.Going? || exit.Raised? || exit.Dead?
      ensures exit.Raised? ==> (exit.outcome.HomeopsUnavailable? || exit.outcome.TransferFailed?)
      ensures exit.Going? ==> a.request.id in remote.incoming && Takes(old(remote), limits, a.archive)
      ensures SubmitEnds(HeadFate(old(turns)), Met(old(remote), old(source), old(turns)), a, remote, exit) == true
      ensures old(turns) == [] ==> turns == [] && (exit.Going? <==> Takes(old(remote), limits, a.archive))
    {
      var f := NextTurn();
      assert Takes(remote, limits, a.archive) == Takes(old(remote), limits, a.archive);
      var accepted := false;
      if f == Done || f == FailedAfter { accepted := DeliverSubmit(a); }
      exit := if f == Killed then Dead
              else if f != Done then Raised(HomeopsUnavailable)
              else if accepted then Going else Raised(TransferFailed);
    }

    /** A phase change of the submission. */
    method MovePhase(a: Attempt, next: Attempt) returns (exit: Exit)
      requires Working(a) && (next == a.(phase := Submitting) || next == a.(phase := Submitted))
      requires if next.phase.Submitting? then a.phase.Prepared? || a.phase.Submitting?
               else a.phase.Submitting? && a.request.id in remote.incoming
      modifies `local, `remote, `source, `turns, `progress
      ensures Valid() && Progresses(old(progress), progress) == true
      ensures remote.incoming == old(remote).incoming && remote.markers == old(remote).markers
      ensures exit.Going? || exit.Raised? || exit.Dead?
      ensures exit.Raised? ==> exit.outcome == InternalError
      ensures local.attempt == if Effective(HeadFate(old(turns))) then Some(next) else Some(a)
      ensures exit.Going? ==> Working(next)
      ensures old(turns) == [] ==> exit.Going? && turns == []
    {
      AttemptAgrees(local, remote, progress);
      MaySubmit(a, next, remote.incoming, remote.markers);
      exit := Update(next);
    }

    /** The submit call and the two phase changes around it: wherever this stops, the
        receiver was not called before SUBMITTING was durable, and SUBMITTED is durable
        only after the receiver accepted.  It gets through exactly when the receiver takes
        the archive: one whose receipt cannot be read back is refused the second time. */
    method SubmitPhase(a: Attempt) returns (exit: Exit, next: Attempt)
      requires Working(a) && (a.phase.Prepared? || a.phase.Submitting?)
      modifies `local, `remote, `source, `turns, `progress
      ensures Valid() && Progresses(old(progress), progress) == true
      ensures exit.Going? || exit.Raised? || exit.Dead?
      ensures exit.Raised? ==> exit.outcome != LocalSourceChanged
      ensures exit.Going? ==> Working(next) && next.phase.Submitted? && Continues(a, next)
      ensures || local.attempt == Some(a) || local.attempt == Some(a.(phase := Submitting))
              || local.attempt == Some(a.(phase := Submitted))
      ensures remote.incoming != old(remote).incoming ==> local.attempt != Some(a) || a.phase == Submitting
      ensures local.attempt == Some(a.(phase := Submitted)) ==> a.request.id in remote.incoming
      ensures exit.Going? ==> Takes(old(remote), limits, a.archive)
      ensures old(turns) == [] ==> (exit.Going? <==> Takes(old(remote), limits, a.archive))
    {
      next := a;
      var submitting := a.(phase := Submitting);
      exit := MovePhase(a, submitting);
      if !exit.Going? { return; }
      exit := CallSubmit(submitting);
      if !exit.Going? { return; }
      ghost var middle := progress;
      next := submitting.(phase := Submitted);
      exit := MovePhase(submitting, next);
      ProgressComposes(old(progress), middle, progress);
    }

    /** End an attempt with the remote result, unless it must not be believed. */
    method EndWith(a: Attempt, result: RemoteResult, moved: bool, ghost samePolicy: bool, ghost before: Looks)
      returns (exit: Exit)
      requires Valid() && local.attempt == Some(a) && a.phase != Terminal
      requires result.outcome != CandidateReady && result.outcome != LocalSourceChanged
      requires result.outcome != PromotedSourceMoved
      requires result.outcome == Promoted ==> a.request.id in remote.markers
      requires before <= seen && Grounds(EndOutcome(result, moved), a.snapshot, samePolicy, before, seen) == true
      modifies `local, `remote, `source, `turns, `progress
      ensures Valid() && Progresses(old(progress), progress) == true
      ensures exit.Ended? || exit.Raised? || exit.Dead?
      ensures exit.Raised? ==> exit.outcome != LocalSourceChanged
      ensures exit.Ended? ==> Reported(exit.report) == true
      ensures exit.Ended? ==> exit.report == Report(EndOutcome(result, moved), a.request.id, Some(result))
      ensures local.attempt.Some? ==> local.attempt == Some(a) || local.attempt.value.phase == Terminal
      ensures Grounded(progress, a, samePolicy, before, seen) == true
      ensures old(turns) == [] ==> exit.Ended?
    {
      ProgressStays(progress);
      NotEnded(local, remote, progress, a, samePolicy, before, seen);
      ghost var report := Report(EndOutcome(result, moved), a.request.id, Some(result));
      exit := Resolve(Report(EndOutcome(result, moved), a.request.id, Some(result)));
      EndedGrounded(old(progress), progress, a, Ending(old(local), report), samePolicy, before, seen);
    }

    /** Give the attempt up. */
    method GiveUp(a: Attempt, ghost samePolicy: bool, ghost before: Looks) returns (exit: Exit)
      requires Valid() && local.attempt == Some(a) && a.phase != Terminal && a.request.id !in remote.markers
      requires before <= seen && (!samePolicy || SawChange(before, seen, a.snapshot))
      modifies `local, `remote, `source, `turns, `progress
      ensures Valid() && Progresses(old(progress), progress) == true
      ensures exit.Ended? || exit.Raised? || exit.Dead?
      ensures exit.Raised? ==> exit.outcome != LocalSourceChanged
      ensures exit.Ended? ==> Reported(exit.report) == true
      ensures exit.Ended? ==> exit.report == Report(LocalSourceChanged, a.request.id, None)
      ensures local.attempt.Some? ==> local.attempt == Some(a) || local.attempt.value.phase == Terminal
      ensures Grounded(progress, a, samePolicy, before, seen) == true
      ensures old(turns) == [] ==> exit.Ended?
    {
      ProgressStays(progress);
      NotEnded(local, remote, progress, a, samePolicy, before, seen);
      exit := Resolve(Report(LocalSourceChanged, a.request.id, None));
      EndedGrounded(old(progress), progress, a, Ending(old(local), Report(LocalSourceChanged, a.request.id, None)),
                    samePolicy, before, seen);
    }

    /** The remote side offers a candidate the attempt can go on with. */
    predicate Offered(r: Remote, a: Attempt) {
      && Visible(r, a.request) && a.request.id in r.results
      && var ready := r.results[a.request.id];
         && ready.outcome == CandidateReady && ready.candidate.Some? && ready.promotionPolicy.Some?
         && ready.releasePolicy == Some(a.request.releasePolicy)
    }

    /** How an attempt with a terminal result ends when nothing interferes. */
    function EndQuietly(a: Attempt, result: RemoteResult, current: Current, moved: bool): Exit {
      if Believable(a, result, current) then Ended(Report(EndOutcome(result, moved), a.request.id, Some(result)))
      else Raised(PostPromotionMismatch)
    }

    /** SUBMITTED, and the remote side has refused or finished it already. */
    method EndSubmitted(a: Attempt, result: RemoteResult) returns (exit: Exit)
      requires Working(a) && a.phase.Submitted? && result.outcome != CandidateReady
      requires a.request.id in remote.results && remote.results[a.request.id] == result
      modifies `local, `remote, `source, `turns, `progress
      ensures Valid() && Progresses(old(progress), progress) == true
      ensures exit.Ended? || exit.Raised? || exit.Dead?
      ensures exit.Raised? ==> exit.outcome != LocalSourceChanged
      ensures exit.Ended? ==> Reported(exit.report) == true && exit.report.requestId == a.request.id
      ensures local.attempt.Some? ==> local.attempt == Some(a) || local.attempt.value.phase == Terminal
      ensures Grounded(progress, a, true, seen, seen) == true
      ensures old(turns) == [] ==> exit == EndQuietly(a, result, old(remote).current, false)
    {
      ProgressStays(progress);
      NotEnded(local, remote, progress, a, true, seen, seen);
      SubmittedIsNotPromoted(local, remote, progress, a);
      NoGroundsNeeded(EndOutcome(result, false), a.snapshot, true, seen, seen);
      exit := ValidateTerminal(a, result);
      if exit.Going? { exit := EndWith(a, result, false, true, seen); }
    }

    /** SUBMITTED: the result that lets the attempt go on to its commit. */
    method AwaitCandidate(a: Attempt) returns (exit: Exit, ready: RemoteResult)
      requires Working(a) && a.phase.Submitted?
      modifies `local, `remote, `source, `turns, `patience, `progress
      ensures Valid() && Progresses(old(progress), progress) == true
      ensures !exit.Failed? && (exit.Raised? ==> exit.outcome != LocalSourceChanged)
      ensures exit.Ended? ==> Reported(exit.report) == true && exit.report.requestId == a.request.id
      ensures exit.Going? ==>
                && local == old(local) && progress == old(progress)
                && ready.outcome == CandidateReady && ready.candidate.Some? && ready.promotionPolicy.Some?
                && ready.releasePolicy == Some(a.request.releasePolicy)
      ensures !Known(old(remote), limits, a.request.id) ==> (exit.Raised? || exit.Dead?) && local == old(local)
      ensures local.attempt.Some? ==> local.attempt == Some(a) || local.attempt.value.phase == Terminal
      ensures Grounded(progress, a, true, seen, seen) == true
      ensures old(turns) == [] && old(patience) > 0 && Offered(old(remote), a) ==>
                exit == Going && ready == old(remote).results[a.request.id]
      ensures && old(turns) == [] && old(patience) > 0 && Visible(old(remote), a.request) == true
              && Published(old(remote), a.request.id).Some?
              && old(remote).results[a.request.id].outcome == CandidateReady && !Offered(old(remote), a)
              ==> exit == Raised(HomeopsUnavailable)
      ensures old(turns) == [] && exit.Going? ==>
                turns == [] && remote == old(remote) && source == old(source) && patience == old(patience)
    {
      ProgressStays(progress);
      NotEnded(local, remote, progress, a, true, seen, seen);
      var accepted, result;
      exit, accepted, result := Poll(a.request, false);
      ready := RemoteResult(CandidateReady, false, None, None, None, None, None, None);
      if !exit.Going? { return; }
      ready := result.value;
      if ready.outcome != CandidateReady {
        exit := EndSubmitted(a, ready);
      } else if ready.candidate.None? || ready.promotionPolicy.None?
                || ready.releasePolicy != Some(a.request.releasePolicy)
      {
        exit := Raised(HomeopsUnavailable);
      }
    }

    /** How a decision for or against the commit ends when nothing interferes: given up if
        the policy differs or the vault is seen to. */
    function WantQuietly(a: Attempt, samePolicy: bool, source: Option<Snapshot>): Exit {
      if samePolicy && Shows(source, a.snapshot) then Going else Ended(Report(LocalSourceChanged, a.request.id, None))
    }

    /** The attempt with the candidate it goes to commit. */
    function ForCommit(a: Attempt, ready: RemoteResult): Attempt {
      a.(phase := Committing, candidate := ready.candidate, promotionPolicy := ready.promotionPolicy)
    }

    /** SUBMITTED, with a candidate: the last look at the vault before the commit. */
    method DecideCommit(a: Attempt, ready: RemoteResult) returns (exit: Exit)
      requires Working(a) && a.phase.Submitted? && ready.candidate.Some? && ready.promotionPolicy.Some?
      modifies `local, `remote, `source, `turns, `progress, `seen
      ensures Valid() && Progresses(old(progress), progress) == true
      ensures !exit.Failed? && (exit.Raised? ==> exit.outcome != LocalSourceChanged)
      ensures exit.Ended? ==> Reported(exit.report) == true && exit.report.requestId == a.request.id
      ensures exit.Going? ==> local.attempt == Some(ForCommit(a, ready))
      ensures Grounded(progress, a, true, old(seen), seen) == true
      ensures local.attempt.Some? && local.attempt.value.phase == Committing ==>
                SawSame(old(seen), seen, a.snapshot) == true
      ensures HeadFate(old(turns)) != Done ==>
                exit == Failure(HeadFate(old(turns)), InternalError) && local == old(local)
      ensures old(turns) == [] ==> exit == WantQuietly(a, true, old(source))
      ensures old(turns) == [] && exit.Going? ==> turns == [] && remote == old(remote) && source == old(source)
    {
      ProgressStays(progress);
      var matches;
      exit, matches := SourceMatches(a);
      NotEnded(local, remote, progress, a, true, old(seen), seen);
      SawLast(old(seen), source, a.snapshot);
      if !exit.Going? { return; }
      AttemptAgrees(local, remote, progress);
      MayCommit(a, ready.candidate, ready.promotionPolicy, remote.incoming, remote.markers);
      if !matches {
        exit := GiveUp(a, true, old(seen));
      } else {
        exit := Update(ForCommit(a, ready));
        NotEnded(local, remote, progress, a, true, old(seen), seen);
      }
    }

    /** SUBMITTED: look at the vault once more, then go for the commit or give up. */
    method SubmittedPhase(a: Attempt) returns (exit: Exit, next: Attempt)
      requires Working(a) && a.phase.Submitted?
      modifies `local, `remote, `source, `turns, `patience, `progress, `seen
      ensures Valid() && Progresses(old(progress), progress) == true
      ensures !exit.Failed? && (exit.Raised? ==> exit.outcome != LocalSourceChanged)
      ensures exit.Ended? ==> Reported(exit.report) == true && exit.report.requestId == a.request.id
      ensures exit.Going? ==> Working(next) && next.phase.Committing? && Continues(a, next)
      ensures Stuck(a, old(remote)) ==> (exit.Raised? || exit.Dead?) && local == old(local)
      ensures Grounded(progress, a, true, old(seen), seen) == true
      ensures local.attempt.Some? && local.attempt.value.phase == Committing ==>
                SawSame(old(seen), seen, a.snapshot) == true
      ensures old(turns) == [] && old(patience) > 0 && Offered(old(remote), a) ==>
                exit == WantQuietly(a, true, old(source)) && next == ForCommit(a, old(remote).results[a.request.id])
      ensures old(turns) == [] && exit.Going? ==>
                turns == [] && remote == old(remote) && source == old(source) && patience == old(patience)
    {
      SubmittedIsPublished(local, remote, progress, a);
      var ready;
      exit, ready := AwaitCandidate(a);
      next := ForCommit(a, ready);
      if exit.Going? { exit := DecideCommit(a, ready); }
    }

    /** Whether the commit may still be authorised: the policy, then the vault. */
    method MayAuthorize(a: Attempt, policy: string) returns (exit: Exit, may: bool)
      requires Valid()
      modifies `remote, `source, `turns, `seen
      ensures Valid() && old(seen) <= seen
      ensures remote.incoming == old(remote).incoming && remote.markers == old(remote).markers
      ensures exit.Going? || exit.Raised? || exit.Dead?
      ensures exit == if a.policy == policy then Failure(HeadFate(old(turns)), InternalError) else Going
      ensures exit.Going? ==> (may <==> a.policy == policy && Shows(source, a.snapshot))
      ensures exit.Going? ==> if may then SawSame(old(seen), seen, a.snapshot)
                              else a.policy != policy || SawChange(old(seen), seen, a.snapshot)
      ensures old(turns) == [] ==> exit.Going? && turns == [] && remote == old(remote) && source == old(source)
    {
      exit, may := Going, false;
      if a.policy == policy {
        exit, may := SourceMatches(a);
        SawLast(old(seen), source, a.snapshot);
      }
    }

    /** COMMITTING, and the remote side already has a terminal result. */
    method EndCommitting(a: Attempt, policy: string, result: RemoteResult) returns (exit: Exit)
      requires Working(a) && a.phase.Committing? && result.outcome != CandidateReady
      requires (!result.outcome.LocalSourceChanged? && !result.outcome.PromotedSourceMoved?)
      requires result.outcome == Promoted ==> a.request.id in remote.markers
      modifies `local, `remote, `source, `turns, `progress, `seen
      ensures Valid() && Progresses(old(progress), progress) == true
      ensures exit.Ended? || exit.Raised? || exit.Dead?
      ensures exit.Raised? ==> exit.outcome != LocalSourceChanged
      ensures exit.Ended? ==> Reported(exit.report) == true && exit.report.requestId == a.request.id
      ensures Grounded(progress, a, a.policy == policy, old(seen), seen) == true
      ensures old(turns) == [] ==>
                exit == EndQuietly(a, result, old(remote).current,
                                   a.policy != policy || !Shows(old(source), a.snapshot))
    {
      ProgressStays(progress);
      NotEnded(local, remote, progress, a, a.policy == policy, seen, seen);
      var may := true;
      exit := ValidateTerminal(a, result);
      if exit.Going? && result.outcome == Promoted {
        exit, may := MayAuthorize(a, policy);
        NotEnded(local, remote, progress, a, a.policy == policy, old(seen), seen);
      }
      if exit.Going? { exit := EndWith(a, result, !may, a.policy == policy, old(seen)); }
    }

    /** COMMITTING, and no earlier run's commit call got through: go on only while policy
        and vault still match, give up otherwise. */
    method StillWanted(a: Attempt, policy: string) returns (exit: Exit)
      requires Working(a) && a.phase.Committing? && a.request.id !in remote.markers
      modifies `local, `remote, `source, `turns, `progress, `seen
      ensures Valid() && Progresses(old(progress), progress) == true
      ensures !exit.Failed? && (exit.Raised? ==> exit.outcome != LocalSourceChanged)
      ensures exit.Ended? ==> Reported(exit.report) == true && exit.report.requestId == a.request.id
      ensures exit.Going? ==>
                && local == old(local) && progress == old(progress) && remote.markers == old(remote).markers
                && a.policy == policy && Shows(source, a.snapshot) == true
      ensures Grounded(progress, a, a.policy == policy, old(seen), seen) == true
      ensures exit.Going? ==> SawSame(old(seen), seen, a.snapshot) == true
      ensures old(turns) == [] ==> exit == WantQuietly(a, a.policy == policy, old(source))
      ensures old(turns) == [] && exit.Going? ==> turns == [] && remote == old(remote) && source == old(source)
    {
      ProgressStays(progress);
      var may;
      exit, may := MayAuthorize(a, policy);
      NotEnded(local, remote, progress, a, a.policy == policy, old(seen), seen);
      if exit.Going? && !may {
        exit := GiveUp(a, a.policy == policy, old(seen));
      }
    }

    /** What COMMITTING comes to before its commit call when nothing interferes. */
    function LearnQuietly(a: Attempt, policy: string, r: Remote, source: Option<Snapshot>): Exit {
      var id, same := a.request.id, a.policy == policy && Shows(source, a.snapshot);
      if id !in r.results then Raised(Timeout)
      else if r.results[id].outcome != CandidateReady then EndQuietly(a, r.results[id], r.current, !same)
      else if id in r.markers then Going
      else WantQuietly(a, a.policy == policy, source)
    }

    /** COMMITTING, and the remote side has a result: end with it if it is terminal, and go on
        to the commit only if it got through already or is still wanted. */
    method Weigh(a: Attempt, policy: string, accepted: bool, result: RemoteResult) returns (exit: Exit)
      requires Working(a) && a.phase.Committing? && (accepted <==> a.request.id in remote.markers)
      requires a.request.id in remote.results && remote.results[a.request.id] == result
      modifies `local, `remote, `source, `turns, `progress, `seen
      ensures Valid() && Progresses(old(progress), progress) == true
      ensures !exit.Failed? && (exit.Raised? ==> exit.outcome != LocalSourceChanged)
      ensures exit.Ended? ==> Reported(exit.report) == true && exit.report.requestId == a.request.id
      ensures exit.Going? ==>
                && local == old(local) && progress == old(progress) && remote.markers == old(remote).markers
                && (!accepted ==>
                      && a.policy == policy && Shows(source, a.snapshot) == true
                      && SawSame(old(seen), seen, a.snapshot) == true)
      ensures Grounded(progress, a, a.policy == policy, old(seen), seen) == true
      ensures old(turns) == [] ==> exit == LearnQuietly(a, policy, old(remote), old(source))
      ensures old(turns) == [] && exit.Going? ==> turns == [] && remote == old(remote) && source == old(source)
    {
      ProgressStays(progress);
      NotEnded(local, remote, progress, a, a.policy == policy, seen, seen);
      exit := Going;
      if result.outcome != CandidateReady {
        ResultIsTerminal(local, remote, progress, a.request.id);
        exit := EndCommitting(a, policy, result);
      } else if !accepted {
        exit := StillWanted(a, policy);
      }
    }

    /** COMMITTING, before the commit call: learn whether an earlier run's call got
        through, and give up only if it did not. */
    method LearnCommit(a: Attempt, policy: string) returns (exit: Exit, accepted: bool)
      requires Working(a) && a.phase.Committing?
      modifies `local, `remote, `source, `turns, `patience, `progress, `seen
      ensures Valid() && Progresses(old(progress), progress) == true
      ensures !exit.Failed? && (exit.Raised? ==> exit.outcome != LocalSourceChanged)
      ensures exit.Ended? ==> Reported(exit.report) == true && exit.report.requestId == a.request.id
      ensures exit.Going? ==>
                && local == old(local) && progress == old(progress)
                && (accepted <==> a.request.id in remote.markers)
                && (!accepted ==>
                      && a.policy == policy && Shows(source, a.snapshot) == true
                      && SawSame(old(seen), seen, a.snapshot) == true)
      ensures Grounded(progress, a, a.policy == policy, old(seen), seen) == true
      ensures old(turns) == [] && old(patience) > 0 && Visible(old(remote), a.request) ==>
                exit == LearnQuietly(a, policy, old(remote), old(source))
      ensures old(turns) == [] && exit.Going? ==>
                turns == [] && remote == old(remote) && source == old(source) && patience == old(patience)
    {
      ProgressStays(progress);
      NotEnded(local, remote, progress, a, a.policy == policy, seen, seen);
      var result;
      exit, accepted, result := Poll(a.request, false);
      if exit.Going? { exit := Weigh(a, policy, accepted, result.value); }
    }

    /** The commit call of this attempt is accepted, or was. */
    predicate Commits(r: Remote, a: Attempt) {
      a.request.id in r.markers || Authorizes(r, a)
    }

    /** The receiver accepts the commit of this attempt's candidate. */
    predicate Authorizes(r: Remote, a: Attempt) {
      var id := a.request.id;
      && Visible(r, a.request) && id !in r.markers && id in r.results
      && r.results[id].outcome == CandidateReady
      && r.results[id].candidate == a.candidate && r.results[id].expected == Some(a.request.expected)
    }

    /** The receiver's side of the commit call. */
    method DeliverCommit(a: Attempt) returns (reply: Reply)
      requires Working(a) && a.phase.Committing?
      modifies `remote
      ensures Valid() && remote == old(remote).(markers := remote.markers)
      ensures reply.Accepted? ==> a.request.id in remote.markers
      ensures reply.Refused? ==> reply.outcome != LocalSourceChanged
      ensures a.candidate.Some? && (remote, reply) == Commit(old(remote), limits, a.request, a.candidate.value)
      ensures Authorizes(old(remote), a) ==> reply.Accepted?
    {
      CommitKeepsInv(local, remote, limits, progress, a);
      var (after, answer) := Commit(remote, limits, a.request, a.candidate.value);
      remote, reply := after, answer;
    }

    /** The commit call itself. */
    method CallCommit(a: Attempt) returns (exit: Exit)
      requires Working(a) && a.phase.Committing?
      modifies `remote, `source, `turns
      ensures Valid()
      ensures exit.Going? || exit.Raised? || exit.Dead?
      ensures exit.Raised? ==> exit.outcome != LocalSourceChanged
      ensures exit.Going? ==> a.request.id in remote.markers
      ensures old(turns) == [] ==>
                turns == [] && source == old(source) && remote == old(remote).(markers := remote.markers) && !exit.Dead?
      ensures old(turns) == [] && Authorizes(old(remote), a) ==> exit == Going
      ensures a.candidate.Some?
              && CommitEnds(HeadFate(old(turns)), Met(old(remote), old(source), old(turns)), a, remote, exit) == true
    {
      var f := NextTurn();
      var reply := Accepted;
      if f == Done || f == FailedAfter { reply := DeliverCommit(a); }
      exit := if f == Killed then Dead
              else if f != Done then Raised(HomeopsUnavailable)
              else if reply.Accepted? then Going else Raised(reply.outcome);
    }

    /** The attempt once its commit is asked for. */
    function CommitAsked(a: Attempt): Attempt {
      a.(phase := CommitRequested)
    }

    /** The commit call, unless it already got through, and the phase that records it. */
    method RequestCommit(a: Attempt, accepted: bool, ghost samePolicy: bool) returns (exit: Exit)
      requires Working(a) && a.phase.Committing? && (accepted <==> a.request.id in remote.markers)
      modifies `local, `remote, `source, `turns, `progress
      ensures Valid() && Progresses(old(progress), progress) == true
      ensures exit.Going? || exit.Raised? || exit.Dead?
      ensures exit.Raised? ==> exit.outcome != LocalSourceChanged
      ensures exit.Going? ==> local.attempt == Some(CommitAsked(a)) && a.request.id in remote.markers
      ensures Grounded(progress, a, samePolicy, seen, seen) == true
      ensures old(turns) == [] ==>
                && turns == [] && source == old(source) && remote == old(remote).(markers := remote.markers)
                && (Commits(old(remote), a) == true ==> exit == Going)
    {
      ProgressStays(progress);
      NotEnded(local, remote, progress, a, samePolicy, seen, seen);
      if !accepted {
        exit := CallCommit(a);
        if !exit.Going? { return; }
      }
      AttemptAgrees(local, remote, progress);
      MayRequest(a, remote.incoming, remote.markers);
      exit := Update(CommitAsked(a));
      NotEnded(local, remote, progress, a, samePolicy, seen, seen);
    }

    /** COMMITTING: the commit call, unless it already got through. */
    method CommittingPhase(a: Attempt, policy: string) returns (exit: Exit, ghost learnt: Exit)
      requires Working(a) && a.phase.Committing?
      modifies `local, `remote, `source, `turns, `patience, `progress, `seen
      ensures Valid() && Progresses(old(progress), progress) == true
      ensures !exit.Failed? && (exit.Raised? ==> exit.outcome != LocalSourceChanged)
      ensures exit.Ended? ==> Reported(exit.report) == true && exit.report.requestId == a.request.id
      ensures exit.Going? ==> local.attempt == Some(CommitAsked(a)) && a.request.id in remote.markers
      ensures Grounded(progress, a, a.policy == policy, old(seen), seen) == true
      ensures !learnt.Going? ==> exit == learnt
      ensures old(turns) == [] && old(patience) > 0 && Visible(old(remote), a.request) == true ==>
                learnt == LearnQuietly(a, policy, old(remote), old(source))
      ensures old(turns) == [] && learnt.Going? && Commits(old(remote), a) == true ==> exit == Going
      ensures old(turns) == [] && exit.Going? ==>
                && turns == [] && source == old(source) && patience == old(patience)
                && remote == old(remote).(markers := remote.markers)
    {
      var accepted;
      exit, accepted := LearnCommit(a, policy);
      learnt := exit;
      if exit.Going? {
        ghost var looked := seen;
        exit := RequestCommit(a, accepted, a.policy == policy);
        GroundedSince(progress, a, a, a.policy == policy, a.policy == policy, old(seen), looked, seen);
      }
    }

    /** COMMIT_REQUESTED, and the terminal result is believed: look at the vault if it was
        promoted, and end with it. */
    method FinishWith(a: Attempt, result: RemoteResult) returns (exit: Exit)
      requires Working(a) && a.phase.CommitRequested? && a.request.id in remote.markers
      requires var outcome := result.outcome;
               !outcome.CandidateReady? && !outcome.LocalSourceChanged? && !outcome.PromotedSourceMoved?
      modifies `local, `remote, `source, `turns, `progress, `seen
      ensures Valid() && Progresses(old(progress), progress) == true
      ensures exit.Ended? || exit.Raised? || exit.Dead?
      ensures exit.Raised? ==> exit.outcome != LocalSourceChanged
      ensures exit.Ended? ==> Reported(exit.report) == true && exit.report.requestId == a.request.id
      ensures Grounded(progress, a, true, old(seen), seen) == true
      ensures old(turns) == [] ==>
                exit == Ended(Report(EndOutcome(result, !Shows(old(source), a.snapshot)), a.request.id, Some(result)))
    {
      ProgressStays(progress);
      NotEnded(local, remote, progress, a, true, seen, seen);
      var matches := true;
      exit := Going;
      if result.outcome == Promoted {
        exit, matches := SourceMatches(a);
        SawLast(old(seen), source, a.snapshot);
        NotEnded(local, remote, progress, a, true, old(seen), seen);
      }
      if exit.Going? { exit := EndWith(a, result, !matches, true, old(seen)); }
    }

    /** COMMIT_REQUESTED: wait for the terminal result. */
    method FinalPhase(a: Attempt) returns (exit: Exit)
      requires Working(a) && a.phase.CommitRequested?
      modifies `local, `remote, `source, `turns, `patience, `progress, `seen
      ensures Valid() && Progresses(old(progress), progress) == true
      ensures exit.Ended? || exit.Raised? || exit.Dead?
      ensures exit.Raised? ==> exit.outcome != LocalSourceChanged
      ensures exit.Ended? ==> Reported(exit.report) == true && exit.report.requestId == a.request.id
      ensures Grounded(progress, a, true, old(seen), seen) == true
      ensures old(turns) == [] && old(patience) > 0 && Visible(old(remote), a.request) ==>
                exit == FinishQuietly(a, old(remote), old(source))
      ensures old(turns) == [] && exit.Raised? ==> local == old(local) && remote == old(remote)
    {
      ProgressStays(progress);
      NotEnded(local, remote, progress, a, true, seen, seen);
      RequestedIsMarked(local, remote, progress, a);
      var accepted, result;
      exit, accepted, result := Poll(a.request, true);
      if !exit.Going? { return; }
      ResultIsTerminal(local, remote, progress, a.request.id);
      exit := ValidateTerminal(a, result.value);
      if exit.Going? { exit := FinishWith(a, result.value); }
    }

    /** What COMMIT_REQUESTED comes to when nothing interferes. */
    function FinishQuietly(a: Attempt, r: Remote, source: Option<Snapshot>): Exit {
      var id := a.request.id;
      if !Polled(r, id, true) then Raised(Timeout)
      else EndQuietly(a, r.results[id], r.current, !Shows(source, a.snapshot))
    }

    // ----------------------------------------------------------------
    // One run.
    // ----------------------------------------------------------------

    /** The archive is published, and its receipt cannot be read back. */
    predicate Stuck(a: Attempt, r: Remote) {
      && Early(a.phase)
      && a.request.id in r.incoming && !limits.readable(a.archive)
    }

    /** The pending attempt has not got past SUBMITTED. */
    predicate HeldBack(l: Local) {
      l.attempt.Some? && Early(l.attempt.value.phase)
    }

    /** The phases up to the durable intent to commit. */
    method ReachCommitting(a: Attempt) returns (exit: Exit, at: Attempt)
      requires Valid() && local.attempt == Some(a) && a.phase != Terminal
      modifies `local, `remote, `source, `turns, `patience, `progress, `seen
      ensures Valid() && Progresses(old(progress), progress) == true
      ensures !exit.Failed? && (exit.Raised? ==> exit.outcome != LocalSourceChanged)
      ensures exit.Ended? ==> Reported(exit.report) == true && exit.report.requestId == a.request.id
      ensures exit.Going? ==> Working(at) && Authorizing(at.phase) && Continues(a, at)
      ensures Stuck(a, old(remote)) ==> (exit.Raised? || exit.Dead?) && HeldBack(local)
      ensures Grounded(progress, a, true, old(seen), seen) == true
      ensures Authorizing(a.phase) ==>
                && exit == Going && at == a && turns == old(turns) && remote == old(remote) && source == old(source)
                && patience == old(patience) && local == old(local)
      ensures old(turns) == [] && old(patience) > 0 && a.phase == Submitted && Offered(old(remote), a) ==>
                && exit == WantQuietly(a, true, old(source)) && at == ForCommit(a, old(remote).results[a.request.id])
                && (exit.Going? ==>
                      turns == [] && remote == old(remote) && source == old(source) && patience == old(patience))
    {
      ProgressStays(progress);
      NotEnded(local, remote, progress, a, true, seen, seen);
      at, exit := a, Going;
      if (at.phase.Prepared? || at.phase.Submitting?) {
        exit, at := SubmitPhase(at);
        NotEnded(local, remote, progress, a, true, seen, seen);
      }
      if exit.Going? && at.phase == Submitted {
        ghost var submitted := progress;
        ghost var from := at;
        exit, at := SubmittedPhase(at);
        ProgressComposes(old(progress), submitted, progress);
        GroundedSince(progress, a, from, true, true, old(seen), old(seen), seen);
      }
    }

    /** How COMMITTING and COMMIT_REQUESTED end when nothing interferes. */
    predicate CommitsQuietly(a: Attempt, policy: string, r: Remote, source: Option<Snapshot>, after: Remote, l: Local,
                             exit: Exit)
    {
      if a.phase == CommitRequested then exit == FinishQuietly(a, r, source)
      else
        var learnt := LearnQuietly(a, policy, r, source);
        && (!learnt.Going? ==> exit == learnt)
        && (learnt.Going? && Commits(r, a) ==> Requested(a, after, l) && exit == Raised(Timeout))
    }

    /** The commit of the pending attempt is asked for. */
    predicate Requested(a: Attempt, r: Remote, l: Local) {
      && a.request.id in r.markers
      && l.attempt.Some? && l.attempt.value.phase == CommitRequested && Continues(a, l.attempt.value)
    }

    /** As long as the candidate is only ready, waiting for its commit ends with the deadline. */
    lemma ReadyTimesOut(a: Attempt, r: Remote, after: Remote, source: Option<Snapshot>)
      requires Visible(r, a.request) && after == r.(markers := after.markers)
      requires a.request.id in r.results && r.results[a.request.id].outcome == CandidateReady
      ensures var at := a.(phase := CommitRequested);
              Visible(after, at.request) && FinishQuietly(at, after, source) == Raised(Timeout)
    {
    }

    /** The commit phase ended like `middle`, and what follows it like `exit`. */
    lemma CommitsAsLearnt(a: Attempt, policy: string, r: Remote, source: Option<Snapshot>, committed: Remote,
                          after: Remote, l: Local, learnt: Exit, middle: Exit, exit: Exit)
      requires a.phase == Committing && Visible(r, a.request)
      requires learnt == LearnQuietly(a, policy, r, source) && (!learnt.Going? ==> middle == learnt)
      requires learnt.Going? && Commits(r, a) ==> middle == Going
      requires !middle.Going? ==> exit == middle
      requires middle.Going? ==>
                 && committed == r.(markers := committed.markers) && a.request.id in committed.markers
                 && (Visible(committed, a.request) ==>
                       exit == FinishQuietly(a.(phase := CommitRequested), committed, source))
                 && (exit.Raised? ==> after == committed && l.attempt == Some(a.(phase := CommitRequested)))
      ensures CommitsQuietly(a, policy, r, source, after, l, exit) == true
    {
      if LearnQuietly(a, policy, r, source).Going? && middle.Going? { ReadyTimesOut(a, r, committed, source); }
    }

    /** COMMITTING, and then its result. */
    method CommitFirst(a: Attempt, policy: string) returns (exit: Exit)
      requires Working(a) && a.phase.Committing?
      modifies `local, `remote, `source, `turns, `patience, `progress, `seen
      ensures Valid() && Progresses(old(progress), progress) == true
      ensures exit.Ended? || exit.Raised? || exit.Dead?
      ensures exit.Raised? ==> exit.outcome != LocalSourceChanged
      ensures exit.Ended? ==> Reported(exit.report) == true && exit.report.requestId == a.request.id
      ensures Grounded(progress, a, a.policy == policy, old(seen), seen) == true
      ensures old(turns) == [] && old(patience) > 0 && Visible(old(remote), a.request) ==>
                CommitsQuietly(a, policy, old(remote), old(source), remote, local, exit) == true
    {
      ProgressStays(progress);
      NotEnded(local, remote, progress, a, a.policy == policy, seen, seen);
      var at := CommitAsked(a);
      ghost var learnt;
      exit, learnt := CommittingPhase(a, policy);
      ghost var middle, committed, so, looked := exit, remote, progress, seen;
      if exit.Going? {
        exit := FinalPhase(at);
        ProgressComposes(old(progress), so, progress);
        GroundedSince(progress, a, at, true, a.policy == policy, old(seen), looked, seen);
      }
      if old(turns) == [] && old(patience) > 0 && Visible(old(remote), a.request) {
        CommitsAsLearnt(a, policy, old(remote), old(source), committed, remote, local, learnt, middle, exit);
      }
    }

    /** The commit unless it is asked for already, and then its result. */
    method CommitAndFinish(a: Attempt, policy: string) returns (exit: Exit)
      requires Working(a) && Authorizing(a.phase)
      modifies `local, `remote, `source, `turns, `patience, `progress, `seen
      ensures Valid() && Progresses(old(progress), progress) == true
      ensures exit.Ended? || exit.Raised? || exit.Dead?
      ensures exit.Raised? ==> exit.outcome != LocalSourceChanged
      ensures exit.Ended? ==> Reported(exit.report) == true && exit.report.requestId == a.request.id
      ensures Grounded(progress, a, a.policy == policy, old(seen), seen) == true
      ensures old(turns) == [] && old(patience) > 0 && Visible(old(remote), a.request) ==>
                CommitsQuietly(a, policy, old(remote), old(source), remote, local, exit) == true
    {
      if a.phase == Committing {
        exit := CommitFirst(a, policy);
      } else {
        exit := FinalPhase(a);
        GroundedSince(progress, a, a, true, a.policy == policy, old(seen), old(seen), seen);
      }
    }

    /** The phases of _resume_pending_attempt that follow its first look at the vault. */
    method Advance(a: Attempt, policy: string) returns (exit: Exit)
      requires Valid() && local.attempt == Some(a) && a.phase != Terminal
      modifies `local, `remote, `source, `turns, `patience, `progress, `seen
      ensures Valid() && Progresses(old(progress), progress) == true
      ensures exit.Ended? || exit.Raised? || exit.Dead?
      ensures exit.Raised? ==> exit.outcome != LocalSourceChanged
      ensures exit.Ended? ==> Reported(exit.report) == true && exit.report.requestId == a.request.id
      ensures Stuck(a, old(remote)) ==> (exit.Raised? || exit.Dead?) && HeldBack(local)
      ensures Grounded(progress, a, a.policy == policy, old(seen), seen) == true
      ensures old(turns) == [] && old(patience) > 0 ==>
                AdvancesQuietly(a, policy, old(remote), old(source), remote, local, exit) == true
    {
      ProgressStays(progress);
      var at;
      exit, at := ReachCommitting(a);
      GroundedSince(progress, a, a, true, a.policy == policy, old(seen), old(seen), seen);
      ghost var reached, committing, middle := exit, progress, seen;
      if exit.Going? {
        exit := CommitAndFinish(at, policy);
        ProgressComposes(old(progress), committing, progress);
        GroundedSince(progress, a, at, a.policy == policy, a.policy == policy, old(seen), middle, seen);
      }
      if old(turns) == [] && old(patience) > 0 {
        AdvancesAsReached(a, at, policy, old(remote), old(source), remote, local, reached, exit);
      }
    }

    /** The early phases ended like `reached`, and what follows them like `exit`. */
    lemma AdvancesAsReached(a: Attempt, at: Attempt, policy: string, r: Remote, source: Option<Snapshot>, after: Remote,
                            l: Local, reached: Exit, exit: Exit)
      requires !reached.Going? ==> exit == reached
      requires Authorizing(a.phase) ==> reached == Going && at == a
      requires Authorizing(a.phase) && Visible(r, a.request) ==>
                 CommitsQuietly(a, policy, r, source, after, l, exit)
      requires a.phase == Submitted && Offered(r, a) ==>
                 && reached == WantQuietly(a, true, source) && at == ForCommit(a, r.results[a.request.id])
                 && (reached.Going? ==> CommitsQuietly(at, policy, r, source, after, l, exit))
      ensures AdvancesQuietly(a, policy, r, source, after, l, exit) == true
    {
    }

    /** How an attempt goes on when nothing interferes, after the first look at the vault:
        from SUBMITTED with a candidate on offer it gives up if the vault was seen to
        differ, and otherwise asks for the commit. */
    predicate AdvancesQuietly(a: Attempt, policy: string, r: Remote, source: Option<Snapshot>, after: Remote, l: Local,
                              exit: Exit)
    {
      && (Authorizing(a.phase) && Visible(r, a.request) ==>
            CommitsQuietly(a, policy, r, source, after, l, exit))
      && (a.phase == Submitted && Offered(r, a) && !Shows(source, a.snapshot) ==>
            exit == Ended(Report(LocalSourceChanged, a.request.id, None)))
      && (a.phase == Submitted && Offered(r, a) && Shows(source, a.snapshot) && a.policy == policy
          && r.results[a.request.id].expected == Some(a.request.expected) ==>
            Requested(a, after, l) && exit == Raised(Timeout))
    }

    /** _resume_pending_attempt for an attempt that has not ended. */
    method Continue(a: Attempt, policy: string) returns (exit: Exit)
      requires Valid() && local.attempt == Some(a) && a.phase != Terminal
      modifies `local, `remote, `source, `turns, `patience, `progress, `seen
      ensures Valid() && Progresses(old(progress), progress) == true
      ensures exit.Ended? || exit.Raised? || exit.Dead?
      ensures exit.Raised? ==> exit.outcome != LocalSourceChanged
      ensures exit.Ended? ==> Reported(exit.report) == true && exit.report.requestId == a.request.id
      ensures exit.Ended? && Stuck(a, old(remote)) ==> exit.report.outcome == LocalSourceChanged
      ensures Stuck(a, old(remote)) && local.attempt.Some? ==> HeldBack(local) || local.attempt.value.phase == Terminal
      ensures Grounded(progress, a, a.policy == policy, old(seen), seen) == true
      ensures HeadFate(old(turns)) != Done ==>
                exit == Failure(HeadFate(old(turns)), InternalError) && local == old(local)
      ensures old(turns) == [] && GivesUp(a, policy, old(source)) ==>
                exit == Ended(Report(LocalSourceChanged, a.request.id, None))
      ensures old(turns) == [] && old(patience) > 0 && !GivesUp(a, policy, old(source)) ==>
                AdvancesQuietly(a, policy, old(remote), old(source), remote, local, exit) == true
    {
      ProgressStays(progress);
      var matches;
      exit, matches := SourceMatches(a);
      SawLast(old(seen), source, a.snapshot);
      NotEnded(local, remote, progress, a, a.policy == policy, old(seen), seen);
      if !exit.Going? { return; }
      ghost var looked := seen;
      assert patience == old(patience);
      if !(a.policy == policy && matches) && Early(a.phase) {
        AttemptAgrees(local, remote, progress);
        exit := GiveUp(a, a.policy == policy, old(seen));
      } else {
        exit := Advance(a, policy);
        GroundedSince(progress, a, a, a.policy == policy, a.policy == policy, old(seen), looked, seen);
      }
    }

    /** An early attempt is given up at once if policy or vault differ. */
    predicate GivesUp(a: Attempt, policy: string, source: Option<Snapshot>) {
      Early(a.phase) && (a.policy != policy || !Shows(source, a.snapshot))
    }

    /** _resume_pending_attempt. */
    method Resume(a: Attempt, policy: string) returns (exit: Exit)
      requires Valid() && local.attempt == Some(a)
      modifies `local, `remote, `source, `turns, `patience, `progress, `seen
      ensures Valid() && Progresses(old(progress), progress) == true
      ensures exit.Ended? || exit.Raised? || exit.Dead?
      ensures exit.Raised? ==> exit.outcome != LocalSourceChanged
      ensures exit.Ended? ==> Reported(exit.report) == true && exit.report.requestId == a.request.id
      ensures exit.Ended? && a.phase == Terminal ==> Some(exit.report) == a.terminal
      ensures old(seen) <= seen
      ensures exit.Ended? && Stuck(a, old(remote)) ==> exit.report.outcome == LocalSourceChanged
      ensures Stuck(a, old(remote)) && local.attempt.Some? ==> HeldBack(local) || local.attempt.value.phase == Terminal
      ensures old(turns) == [] && a.phase == Terminal ==> exit.Ended?
      ensures a.phase != Terminal ==> Grounded(progress, a, a.policy == policy, old(seen), seen) == true
      ensures old(turns) == [] && GivesUp(a, policy, old(source)) ==>
                exit == Ended(Report(LocalSourceChanged, a.request.id, None))
      ensures old(turns) == [] && old(patience) > 0 && !GivesUp(a, policy, old(source)) ==>
                AdvancesQuietly(a, policy, old(remote), old(source), remote, local, exit) == true
    {
      if a.phase == Terminal {
        RecordedIsJustified(local, remote, progress, a);
        exit := Resolve(a.terminal.value);
      } else {
        exit := Continue(a, policy);
      }
    }

    /** The request ID this run has drawn, as long as nothing is recorded under it. */
    ghost predicate Unused(id: string)
      reads this
    {
      id in drawn && id !in progress && (local.lastReport.Some? ==> local.lastReport.value.requestId != id)
    }

    /** The archive replaces whatever an earlier run left behind; then the attempt. */
    method Prepare(request: Request, snapshot: Snapshot) returns (exit: Exit)
      requires Valid() && local.attempt.None?
      requires Unused(request.id) && request.snapshotId == snapshot.id
      modifies `local, `remote, `source, `turns, `progress
      ensures Valid() && Kept(old(progress), progress) == true && progress.Keys <= old(progress).Keys + {request.id}
      ensures exit.Going? || exit.Raised? || exit.Dead?
      ensures exit.Raised? ==> exit.outcome == InternalError
      ensures exit.Going? ==>
                && local.attempt.Some? && local.attempt.value.phase == Prepared
                && local.attempt.value.request == request && local.attempt.value.snapshot == snapshot
                && local.attempt.value.policy == request.releasePolicy
      ensures request.id in progress ==> progress[request.id].terminal.None?
      ensures local.archive == if Effective(HeadFate(old(turns))) then Some(Archive(request, snapshot))
                               else old(local).archive
      ensures local.attempt.Some? ==> HeadFate(old(turns)) == Done && local.archive == Some(Archive(request, snapshot))
      ensures HeadFate(old(turns)) != Done ==> exit == Failure(HeadFate(old(turns)), InternalError)
      ensures HeadFate(old(turns)) == Done ==>
                var second := if |old(turns)| <= 1 then Done else old(turns)[1].fate;
                exit == Failure(second, InternalError) && (local.attempt.Some? <==> Effective(second))
    {
      ProgressStays(progress);
      var archive := Archive(request, snapshot);
      var f := NextTurn();
      if f == Done || f == FailedAfter { local := local.(archive := Some(archive)); }
      if f != Done { return Failure(f, InternalError); }
      f := NextTurn();
      var a := Attempt(Prepared, request, snapshot, request.releasePolicy, archive, None, None, None);
      FirstAttemptKeepsInv(local, remote, progress, a);
      if f == Done || f == FailedAfter {
        local, progress := local.(attempt := Some(a)), progress[request.id := a];
      }
      exit := Failure(f, InternalError);
    }

    /** If the attempt of this ID has ended, it had its grounds. */
    ghost predicate EndsGrounded(id: string, policy: string, before: Looks)
      reads this
    {
      id in progress && progress[id].terminal.Some? ==>
        Grounds(progress[id].terminal.value.outcome, progress[id].snapshot, progress[id].policy == policy,
                before, seen) == true
    }

    /** The branch of reconcile without a pending attempt; `id` is a fresh UUID.  It raises
        LOCAL_SOURCE_CHANGED only before there is an attempt. */
    method Begin(id: string, publisher: string, capability: string, policy: string) returns (exit: Exit)
      requires Valid() && local.attempt.None? && Unused(id)
      modifies `local, `remote, `source, `turns, `patience, `progress, `seen
      ensures Valid() && Kept(old(progress), progress) == true && progress.Keys <= old(progress).Keys + {id}
      ensures old(seen) <= seen && EndsGrounded(id, policy, old(seen)) == true
      ensures exit.Ended? || exit.Raised? || exit.Dead?
      ensures exit == Raised(LocalSourceChanged) ==>
                && local == old(local) && progress == old(progress)
                && remote.incoming == old(remote).incoming && remote.markers == old(remote).markers
      ensures exit.Ended? && exit.report.outcome == LocalSourceChanged ==> Reported(exit.report) == true
    {
      ProgressStays(progress);
      var snapshot, current;
      exit, snapshot := Export();
      if !exit.Going? { return; }
      exit, current := GetCurrent();
      if !exit.Going? { return; }
      if CurrentMatches(current, snapshot, policy, None, None) {
        var report := Report(Unchanged, id, None);
        exit := WriteLastReport(report);
        exit := if exit.Going? then Ended(report) else exit;
        return;
      }
      exit := Prepare(Request(id, publisher, capability, policy, snapshot.id, current.deployment), snapshot);
      if !exit.Going? { return; }
      ghost var prepared, exported := progress, seen;
      ghost var a := local.attempt.value;
      exit := Resume(local.attempt.value, policy);
      KeptComposes(old(progress), prepared, progress);
      GroundedSince(progress, a, a, true, true, old(seen), exported, seen);
    }

    /** The receiver offers what lets a submitted attempt ask for its commit. */
    predicate Promising(r: Remote, a: Attempt) {
      a.phase.Submitted? && Offered(r, a) && r.results[a.request.id].expected == Some(a.request.expected)
    }

    /** The branch of reconcile with a pending attempt: only its own publisher resumes it. */
    method ResumeOwn(a: Attempt, publisher: string, policy: string) returns (exit: Exit)
      requires Valid() && local.attempt == Some(a)
      modifies `local, `remote, `source, `turns, `patience, `progress, `seen
      ensures Valid() && Progresses(old(progress), progress) == true
      ensures AllGrounded(old(progress), progress, policy, old(seen), seen) == true
      ensures exit.Ended? || exit.Raised? || exit.Dead?
      ensures exit.Raised? ==> exit.outcome != LocalSourceChanged
      ensures exit.Ended? ==> Reported(exit.report) == true && exit.report.requestId == a.request.id
      ensures exit.Ended? && a.phase == Terminal ==> Some(exit.report) == a.terminal
      ensures AttemptedQuietly(a, publisher, policy, old(turns) == [], old(patience) > 0, old(source), old(remote),
                               remote, local, exit) == true
    {
      if a.request.publisher != publisher {
        ProgressStays(progress);
        return Raised(InternalError);
      }
      exit := Resume(a, policy);
      ResumedGrounded(old(local), old(remote), old(progress), progress, a, policy, old(seen), seen);
    }

    /** The part of reconcile that may raise: load, then resume or begin.  `named` is the ID a
        failure is recorded under. */
    method Attempted(id: string, publisher: string, capability: string, policy: string)
      returns (exit: Exit, named: string)
      requires Valid() && Unused(id)
      modifies `local, `remote, `source, `turns, `patience, `progress, `seen
      ensures Valid() && Kept(old(progress), progress) == true && progress.Keys <= old(progress).Keys + {id}
      ensures AllGrounded(old(progress), progress, policy, old(seen), seen) == true
      ensures exit.Ended? || exit.Raised? || exit.Dead?
      ensures exit.Ended? && exit.report.outcome == LocalSourceChanged ==> Reported(exit.report) == true
      ensures named == if old(local).attempt.Some? then old(local).attempt.value.request.id else id
      ensures named in drawn
      ensures exit == Raised(LocalSourceChanged) ==>
                old(local).attempt.None? && id !in progress && id !in remote.incoming
      ensures exit.Ended? && old(local).attempt.Some? ==>
                && Reported(exit.report) == true && exit.report.requestId == named
                && (old(local).attempt.value.phase == Terminal ==>
                      Some(exit.report) == old(local).attempt.value.terminal)
      ensures old(local).attempt.Some? ==>
                AttemptedQuietly(old(local).attempt.value, publisher, policy, old(turns) == [], old(patience) > 0,
                                 old(source), old(remote), remote, local, exit) == true
    {
      ProgressStays(progress);
      InvIsSound(local, remote, progress);
      named := id;
      match LoadPending(local) {
        case NoAttempt =>
          exit := Begin(id, publisher, capability, policy);
          BegunGrounded(old(local), old(remote), old(progress), progress, id, policy, old(seen), seen);
        case Loaded(a) =>
          named := a.request.id;
          exit := ResumeOwn(a, publisher, policy);
          NamedIsDrawn(old(local), old(remote), old(progress), drawn);
      }
    }

    lemma NamedIsDrawn(l: Local, r: Remote, p: Progress, drawn: set<string>)
      requires Inv(l, r, p) && l.attempt.Some? && p.Keys <= drawn
      ensures l.attempt.value.request.id in drawn
    {
      assert InvParts(l, r, p);
    }

    /** How a pending attempt of this publisher is resumed when nothing interferes. */
    predicate AttemptedQuietly(a: Attempt, publisher: string, policy: string, quiet: bool, patient: bool,
                               source: Option<Snapshot>, r: Remote, after: Remote, l: Local, exit: Exit)
    {
      quiet && a.request.publisher == publisher ==>
        && (a.phase == Terminal ==> exit.Ended?)
        && (GivesUp(a, policy, source) ==> exit == Ended(Report(LocalSourceChanged, a.request.id, None)))
        && (patient && !GivesUp(a, policy, source) && Promising(r, a) ==>
              exit == Raised(Timeout) && Requested(a, after, l))
    }

    /** reconcile: load, resume or begin, and record whatever was raised. */
    method Reconcile(id: string, publisher: string, capability: string, policy: string) returns (exit: Exit)
      requires Valid() && id !in drawn
      modifies `local, `remote, `source, `turns, `patience, `progress, `drawn, `seen
      ensures Valid() && Kept(old(progress), progress) == true && progress.Keys <= old(progress).Keys + {id}
      ensures drawn == old(drawn) + {id} && !exit.Going?
      ensures exit.Ended? && exit.report.outcome == LocalSourceChanged ==> Reported(exit.report) == true
      ensures exit.Failed? && exit.report.outcome == LocalSourceChanged ==>
                && old(local).attempt.None? && exit.report.requestId == id
                && id !in progress && id !in remote.incoming
      ensures AllGrounded(old(progress), progress, policy, old(seen), seen) == true
      ensures exit.Ended? && old(local).attempt.Some? ==>
                && Reported(exit.report) == true
                && exit.report.requestId == old(local).attempt.value.request.id
                && (old(local).attempt.value.phase == Terminal ==>
                      Some(exit.report) == old(local).attempt.value.terminal)
      ensures old(turns) == [] && old(local).attempt.Some?
              && old(local).attempt.value.request.publisher == publisher ==>
                ReconcilesQuietly(old(local).attempt.value, policy, old(patience) > 0, old(source), old(remote),
                                  remote, local, exit) == true
    {
      drawn := drawn + {id};
      var named;
      exit, named := Attempted(id, publisher, capability, policy);
      ghost var attempted := exit;
      if exit.Raised? {
        var report := Report(exit.outcome, named, None);
        exit := WriteLastReport(report);
        exit := if exit.Going? then Failed(report) else exit;
      }
      if old(turns) == [] && old(local).attempt.Some? && old(local).attempt.value.request.publisher == publisher {
        ReconcilesAsAttempted(old(local).attempt.value, publisher, policy, old(patience) > 0, old(source), old(remote),
                              remote, local, attempted, exit);
      }
    }

    /** What one run comes to for a pending attempt of its publisher when nothing interferes: a
        terminal attempt is reported, one whose policy or vault differ is given up, and one
        whose candidate is on offer has its commit asked for. */
    predicate ReconcilesQuietly(a: Attempt, policy: string, patient: bool, source: Option<Snapshot>, r: Remote,
                                after: Remote, l: Local, exit: Exit)
    {
      && (a.phase == Terminal ==> exit.Ended?)
      && (GivesUp(a, policy, source) ==> exit == Ended(Report(LocalSourceChanged, a.request.id, None)))
      && (patient && !GivesUp(a, policy, source) && Promising(r, a) ==> !exit.Ended? && Requested(a, after, l))
    }

    lemma ReconcilesAsAttempted(a: Attempt, publisher: string, policy: string, patient: bool,
                                source: Option<Snapshot>, r: Remote, after: Remote, l: Local,
                                attempted: Exit, exit: Exit)
      requires a.request.publisher == publisher
      requires AttemptedQuietly(a, publisher, policy, true, patient, source, r, after, l, attempted)
      requires if attempted.Raised? then !exit.Ended? else exit == attempted
      ensures ReconcilesQuietly(a, policy, patient, source, r, after, l, exit) == true
    {
    }

    /** Any number of runs, each with its own release policy, patience and interference. */
    method Run(launches: seq<Launch>)
      requires Valid()
      requires forall l <- launches :: l.id !in drawn
      requires forall i, j :: 0 <= i < j < |launches| ==> launches[i].id != launches[j].id
      modifies this
      ensures Valid() && Kept(old(progress), progress) == true
      ensures Sound(local, remote, progress)
      ensures RunsGrounded(old(progress), progress, launches, old(seen), seen)
    {
      ProgressStays(progress);
      for i := 0 to |launches|
        invariant Valid() && Kept(old(progress), progress) == true
        invariant RunsGrounded(old(progress), progress, launches[..i], old(seen), seen) == true
        invariant forall j :: i <= j < |launches| ==> launches[j].id !in drawn
      {
        var l := launches[i];
        patience, turns := l.patience, l.turns;
        ghost var before, looked := progress, seen;
        InvEndsTerminal(local, remote, progress);
        var _ := Reconcile(l.id, l.publisher, l.capability, l.policy);
        KeptComposes(old(progress), before, progress);
        RunsCompose(old(progress), before, progress, launches[..i], l, old(seen), looked, seen);
        assert launches[..i + 1] == launches[..i] + [l];
      }
      assert launches[..|launches|] == launches;
      InvIsSound(local, remote, progress);
    }
  }
}
