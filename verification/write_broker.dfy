/** The write broker: durable intents, durable results and create-only publication of a
    note into a vault that other programs edit (src/homeops_ai/write_broker.py:533-849).

    Notes stand for their own hash, rendered bytes for theirs.  Every step may be lost,
    may fail after taking effect, or may be the one at which the process is killed, and
    the vault may be edited from outside before each step. */
module WriteBroker {
  import opened Wrappers

  // ------------------------------------------------------------------
  // The vault and its history.
  // ------------------------------------------------------------------

  type Vault = map<string, string>

  /** What happened to the vault: an edit from outside, or a note the broker published. */
  datatype Event =
    | Outside(path: string, now: Option<string>)
    | Published(id: string, path: string, content: string)

  datatype History = Start | Then(before: History, last: Event)

  function Replay(v: Vault, h: History): Vault {
    match h
    case Start => v
    case Then(before, Outside(path, Some(c))) => Replay(v, before)[path := c]
    case Then(before, Outside(path, None)) => Replay(v, before) - {path}
    case Then(before, Published(_, path, c)) => Replay(v, before)[path := c]
  }

  /** How often the broker published for `id`. */
  function Publications(h: History, id: string): nat {
    match h
    case Start => 0
    case Then(before, e) => Publications(before, id) + if e.Published? && e.id == id then 1 else 0
  }

  /** At some time the vault held exactly this file. */
  predicate Held(v: Vault, h: History, path: string, content: string) {
    (path in Replay(v, h) && Replay(v, h)[path] == content)
    || (h.Then? && Held(v, h.before, path, content))
  }

  /** Everything the broker published is its intent's own note, at a path free until then. */
  predicate Faithful(v: Vault, h: History, intents: map<string, Intent>) {
    match h
    case Start => true
    case Then(before, e) =>
      && Faithful(v, before, intents)
      && (e.Published? ==>
            && e.path !in Replay(v, before)
            && e.id in intents
            && e.path == intents[e.id].core.target
            && e.content == intents[e.id].content)
  }

  /** Nothing but outside edits happened since. */
  predicate OnlyOutside(a: History, b: History) {
    b == a || (b.Then? && b.last.Outside? && OnlyOutside(a, b.before))
  }

  /** Outside edits, and publications for `id` alone, happened since. */
  predicate OnlyFor(a: History, b: History, id: string) {
    b == a || (b.Then? && (b.last.Published? ==> b.last.id == id) && OnlyFor(a, b.before, id))
  }

  lemma {:induction false} FaithfulKept(v: Vault, h: History, o: map<string, Intent>, d: map<string, Intent>)
    requires Faithful(v, h, o) && forall id <- o :: id in d && d[id] == o[id]
    ensures Faithful(v, h, d)
  {
    if h.Then? { FaithfulKept(v, h.before, o, d); }
  }

  lemma {:induction false} OutsideCompose(a: History, b: History, c: History)
    requires OnlyOutside(a, b) && OnlyOutside(b, c)
    ensures OnlyOutside(a, c)
  {
    if c != b { OutsideCompose(a, b, c.before); }
  }

  lemma {:induction false} OutsideIsFor(a: History, b: History, id: string)
    requires OnlyOutside(a, b)
    ensures OnlyFor(a, b, id) && Publications(b, id) == Publications(a, id)
  {
    if b != a { OutsideIsFor(a, b.before, id); }
  }

  lemma {:induction false} ForCompose(a: History, b: History, c: History, id: string)
    requires OnlyFor(a, b, id) && OnlyFor(b, c, id)
    ensures OnlyFor(a, c, id)
  {
    if c != b { ForCompose(a, b, c.before, id); }
  }

  lemma {:induction false} OthersUntouched(a: History, b: History, id: string, other: string)
    requires OnlyFor(a, b, id) && other != id
    ensures Publications(b, other) == Publications(a, other)
  {
    if b != a { OthersUntouched(a, b.before, id, other); }
  }

  /** At most one publication, and that for `id`. */
  predicate Attempt(a: History, b: History, id: string) {
    OnlyFor(a, b, id) && Publications(b, id) <= Publications(a, id) + 1
  }

  lemma OutsideIsAttempt(a: History, b: History, id: string)
    requires OnlyOutside(a, b)
    ensures Attempt(a, b, id)
  {
    OutsideIsFor(a, b, id);
  }

  lemma AttemptCompose(a: History, b: History, c: History, id: string)
    requires (OnlyOutside(a, b) && Attempt(b, c, id)) || (Attempt(a, b, id) && OnlyOutside(b, c))
    ensures Attempt(a, c, id)
  {
    if OnlyOutside(a, b) { OutsideIsFor(a, b, id); }
    if OnlyOutside(b, c) { OutsideIsFor(b, c, id); }
    ForCompose(a, b, c, id);
  }

  lemma {:induction false} HeldKept(v: Vault, a: History, b: History, id: string, path: string, content: string)
    requires OnlyFor(a, b, id) && Held(v, a, path, content)
    ensures Held(v, b, path, content)
  {
    if b != a { HeldKept(v, a, b.before, id, path, content); }
  }

  // ------------------------------------------------------------------
  // Intents, results, responses.
  // ------------------------------------------------------------------

  datatype Note = Note(title: string, body: string, categories: seq<string>, tags: seq<string>)

  /** What an intent fixes before its bytes are rendered. */
  datatype Core = Core(
    requestId: string, actor: string, client: string, createdAt: string, documentId: string,
    target: string, note: Note)

  datatype Intent = Intent(core: Core, content: string)

  /** One reported validation error, its texts cut to what a result may hold. */
  datatype Problem = Problem(code: string, path: string, message: string)

  datatype Result =
    | Applied(documentId: string, path: string, content: string, fingerprint: string, appliedAt: string,
              recovered: bool, concurrentChange: bool)
    | TargetTaken
    | WouldBreakVault(problems: seq<Problem>)

  datatype Waiting = ReadableVault | ValidVault | StableVault | WritableVault | CapturePresent | CaptureRetry

  /** How a request ends: a durable result, no durable result yet, a refusal that records
      nothing, an error, or a kill. */
  datatype Exit =
    | Stored(result: Result, idempotent: bool)
    | Pending(why: Waiting)
    | NotFound
    | Conflict
    | Taken           // status only: reported, not recorded
    | Failed
    | Died

  /** What inspect_vault reports, as far as _validation_errors looks at it. */
  datatype Inspection = Inspection(identity: string, problems: seq<Problem>) {
    predicate Clean() {
      problems == []
    }
  }

  datatype Fate = Done | Killed | FailedBefore | FailedAfter

  datatype Turn = Turn(edits: seq<(string, Option<string>)>, fate: Fate)

  /** The fate of the next step; without further turns it is done. */
  function HeadFate(turns: seq<Turn>): Fate {
    if turns == [] then Done else turns[0].fate
  }

  function RestOf(turns: seq<Turn>): seq<Turn> {
    if turns == [] then [] else turns[1..]
  }

  /** The fate of the step after `n` others. */
  function FateAt(turns: seq<Turn>, n: nat): Fate {
    if n < |turns| then turns[n].fate else Done
  }

  /** The step took effect. */
  predicate Effective(f: Fate) {
    f == Done || f == FailedAfter
  }

  /** From `o` to `d` turns were used up in order, and it was at the last of them that the
      process was killed, if it was. */
  predicate Ends(o: seq<Turn>, d: seq<Turn>, died: bool) {
    && |d| <= |o| && d == o[|o| - |d|..]
    && (died <==> |d| < |o| && o[|o| - |d| - 1].fate == Killed)
  }

  lemma OneTurnEnds(o: seq<Turn>)
    ensures Ends(o, RestOf(o), HeadFate(o) == Killed) == true
  {
  }

  lemma EndsCompose(a: seq<Turn>, b: seq<Turn>, c: seq<Turn>, died: bool)
    requires Ends(a, b, false) && Ends(b, c, died)
    ensures Ends(a, c, died) == true
  {
    if |c| < |b| { assert b[|b| - |c| - 1] == a[|a| - |c| - 1]; }
  }

  /** These edits happened, one after the other. */
  function Edited(h: History, edits: seq<(string, Option<string>)>): History {
    if edits == [] then h
    else Then(Edited(h, edits[..|edits| - 1]), Outside(edits[|edits| - 1].0, edits[|edits| - 1].1))
  }

  function Shorter(a: nat, b: nat): (m: nat)
    ensures m <= a && m <= b && (m == a || m == b)
  {
    if a <= b then a else b
  }

  function Prefix(id: string): string {
    if |id| <= 8 then id else id[..8]
  }

  /** A bare file name with the Markdown suffix. */
  predicate PlainName(name: string) {
    '/' !in name && |name| > 3 && name[|name| - 3..] == ".md"
  }

  // ------------------------------------------------------------------
  // How long requests and what is kept of them are.
  // ------------------------------------------------------------------

  const MAX_REQUEST_BYTES: nat := 0x2_0000

  const MAX_RESPONSE_BYTES: nat := 0x1_0000

  const MAX_BODY_BYTES: nat := 0x1_0000

  /** One character in canonical JSON: UTF-8, but for what json.dumps escapes. */
  function CharBytes(c: char): nat {
    if c in "\"\\\n\r\t\U{8}\U{C}" then 2
    else if c as int < 0x20 then 6
    else if c as int < 0x80 then 1
    else if c as int < 0x800 then 2
    else if c as int < 0x1_0000 then 3
    else 4
  }

  function CharsBytes(s: string): nat {
    if s == "" then 0 else CharsBytes(s[..|s| - 1]) + CharBytes(s[|s| - 1])
  }

  /** A string with its quotes. */
  function TextBytes(s: string): nat {
    2 + CharsBytes(s)
  }

  /** The items of a list, with a comma before each but the first. */
  function ItemsBytes(items: seq<string>): nat {
    if items == [] then 0
    else ItemsBytes(items[..|items| - 1]) + TextBytes(items[|items| - 1]) + if |items| == 1 then 0 else 1
  }

  function NoteBytes(n: Note): nat {
    44 + TextBytes(n.body) + TextBytes(n.title) + ItemsBytes(n.categories) + ItemsBytes(n.tags)
  }

  /** The frame that asks for a capture; the note is as the client sent it. */
  function FrameBytes(subject: string, client: string, id: string, note: Note): nat {
    134 + TextBytes(subject) + TextBytes(client) + TextBytes(id) + NoteBytes(note)
  }

  /** The stored intent; its fingerprints and hashes have 64 digits each. */
  function IntentBytes(core: Core): nat {
    453 + TextBytes(core.createdAt) + TextBytes(core.documentId) + NoteBytes(core.note)
    + TextBytes(core.requestId) + TextBytes(core.target)
  }

  /** _load_json takes the stored intent. */
  predicate Readable(core: Core) {
    IntentBytes(core) <= MAX_REQUEST_BYTES
  }

  function ProblemsBytes(problems: seq<Problem>): nat {
    if problems == [] then 0
    else
      var p := problems[|problems| - 1];
      ProblemsBytes(problems[..|problems| - 1]) + 35 + TextBytes(p.code) + TextBytes(p.path) + TextBytes(p.message)
      + if |problems| == 1 then 0 else 1
  }

  /** The stored result of request `id`. */
  function ResultBytes(id: string, r: Result): nat {
    match r
    case Applied(documentId, path, _, _, appliedAt, recovered, concurrent) =>
      370 + TextBytes(appliedAt) + TextBytes(documentId) + TextBytes(id) + TextBytes(path)
      - (if recovered then 1 else 0) - if concurrent then 1 else 0
    case TargetTaken => 169 + TextBytes(id)
    case WouldBreakVault(problems) => 191 + TextBytes(id) + ProblemsBytes(problems)
  }

  /** _result takes the stored result. */
  predicate Legible(id: string, r: Result) {
    ResultBytes(id, r) <= MAX_RESPONSE_BYTES
  }

  /** The intent is for this actor and note. */
  predicate Asked(core: Core, actor: string, note: Note) {
    core.actor == actor && core.note == note
  }

  /** The tag every capture carries. */
  const CAPTURE_TAG := "mcp-capture"

  /** The stored intent is longer than the frame that asked for it, by what the broker adds:
      a frame within the bound leaves an intent within the bound exactly when it leaves room
      for that. */
  lemma IntentOutgrowsFrame(core: Core, sent: Note, subject: string, client: string)
    requires core.note == sent.(tags := sent.tags + [CAPTURE_TAG])
    ensures var frame := FrameBytes(subject, client, core.requestId, sent);
            var added := 332 + TextBytes(core.createdAt) + TextBytes(core.documentId) + TextBytes(core.target)
                         + if sent.tags == [] then 0 else 1;
            && IntentBytes(core) + TextBytes(subject) + TextBytes(client) == frame + added
            && (Readable(core) <==> frame + added <= MAX_REQUEST_BYTES + TextBytes(subject) + TextBytes(client))
  {
    assert (sent.tags + [CAPTURE_TAG])[..|sent.tags|] == sent.tags;
    PlainChars(CAPTURE_TAG);
  }

  /** A text of printable ASCII without quotes or backslashes. */
  predicate Plain(s: string) {
    forall i :: 0 <= i < |s| ==> ' ' <= s[i] <= '~' && s[i] != '"' && s[i] != '\\'
  }

  /** Such a text takes a byte a character. */
  lemma {:induction false} PlainChars(s: string)
    requires Plain(s)
    ensures CharsBytes(s) == |s|
  {
    if s != "" { PlainChars(s[..|s| - 1]); }
  }

  function Quotes(n: nat): (s: string)
    ensures |s| == n
  {
    if n == 0 then "" else Quotes(n - 1) + ['"']
  }

  lemma CharsAppend(s: string, c: char)
    ensures CharsBytes(s + [c]) == CharsBytes(s) + CharBytes(c)
  {
    assert (s + [c])[..|s|] == s;
  }

  lemma {:induction false} QuotesBytes(n: nat)
    ensures CharsBytes(Quotes(n)) == 2 * n
  {
    if n > 0 {
      QuotesBytes(n - 1);
      CharsAppend(Quotes(n - 1), '"');
    }
  }

  /** Intents and results are written once: what is durable never changes. */
  predicate Keeps(oi: map<string, Intent>, or: map<string, Result>, di: map<string, Intent>, dr: map<string, Result>) {
    && (forall id <- oi :: id in di && di[id] == oi[id])
    && (forall id <- or :: id in dr && dr[id] == or[id])
  }

  /** One request with the interference it meets; `documentId` and `now` are what the
      broker would draw. */
  datatype Call =
    | Captures(id: string, actor: string, client: string, note: Note, documentId: string, now: string,
               turns: seq<Turn>)
    | Asks(id: string, actor: string, turns: seq<Turn>)

  /** At most the result of `id` was added. */
  predicate ResultFor(o: map<string, Result>, d: map<string, Result>, id: string) {
    d == o || (id !in o && id in d && d == o[id := d[id]])
  }

  /** Nothing was published or recorded for what has an intent that cannot be read back. */
  predicate LeftAlone(intents: map<string, Intent>, or: map<string, Result>, oh: History,
                      dr: map<string, Result>, dh: History)
  {
    forall id <- intents | !Readable(intents[id].core) ::
      (id in or <==> id in dr) && Publications(dh, id) == Publications(oh, id)
  }

  lemma CapturesLeaveAlone(intents: map<string, Intent>, or: map<string, Result>, oh: History,
                           dr: map<string, Result>, dh: History, id: string)
    requires OnlyFor(oh, dh, id) && ResultFor(or, dr, id)
    requires id in intents && !Readable(intents[id].core) ==> dr == or && dh == oh
    ensures LeftAlone(intents, or, oh, dr, dh)
  {
    forall other <- intents | other != id ensures Publications(dh, other) == Publications(oh, other) {
      OthersUntouched(oh, dh, id, other);
    }
  }

  lemma OutsideLeavesAlone(intents: map<string, Intent>, r: map<string, Result>, oh: History, dh: History)
    requires OnlyOutside(oh, dh)
    ensures LeftAlone(intents, r, oh, r, dh)
  {
    forall id <- intents ensures Publications(dh, id) == Publications(oh, id) { OutsideIsFor(oh, dh, id); }
  }

  lemma AloneComposes(oi: map<string, Intent>, or: map<string, Result>, oh: History,
                      intents: map<string, Intent>, r: map<string, Result>, h: History,
                      dr: map<string, Result>, dh: History)
    requires Keeps(oi, or, intents, r) && LeftAlone(oi, or, oh, r, h) && LeftAlone(intents, r, h, dr, dh)
    ensures LeftAlone(oi, or, oh, dr, dh)
  {
  }

  lemma AddedKeeps(oi: map<string, Intent>, or: map<string, Result>, di: map<string, Intent>, dr: map<string, Result>,
                   id: string, intent: Intent)
    requires id !in oi && (di == oi || di == oi[id := intent]) && ResultFor(or, dr, id)
    ensures Keeps(oi, or, di, dr) == true
  {
  }

  class Broker {
    var vault: Vault
    var intents: map<string, Intent>
    var results: map<string, Result>
    var turns: seq<Turn>
    const render: Core -> string
    const inspect: Vault -> Inspection
    const safeTitle: string -> string
    ghost const genesis: Vault
    ghost var history: History

    /** An intent found on disk is the one its file name says, with its own bytes. */
    ghost predicate IntentsOk()
      reads this
    {
      forall id <- intents ::
        intents[id].core.requestId == id && intents[id].content == render(intents[id].core)
    }

    /** An applied result names its intent's file, which the vault did hold. */
    ghost predicate ResultsOk()
      reads this
    {
      forall id <- results | results[id].Applied? ::
        && id in intents
        && results[id].documentId == intents[id].core.documentId
        && results[id].path == intents[id].core.target
        && results[id].content == intents[id].content
        && Held(genesis, history, intents[id].core.target, intents[id].content)
    }

    ghost predicate Valid()
      reads this
    {
      && vault == Replay(genesis, history)
      && Faithful(genesis, history, intents) == true
      && results.Keys <= intents.Keys
      && IntentsOk() == true
      && ResultsOk() == true
    }

    constructor (v: Vault, render: Core -> string, inspect: Vault -> Inspection, safeTitle: string -> string)
      ensures Valid() && vault == v && intents == map[] && results == map[] && history == Start && turns == []
      ensures this.render == render && this.inspect == inspect && this.safeTitle == safeTitle
    {
      vault, intents, results, turns := v, map[], map[], [];
      this.render, this.inspect, this.safeTitle := render, inspect, safeTitle;
      genesis, history := v, Start;
    }

    /** Outside edits, then the next step's fate. */
    method NextTurn() returns (f: Fate)
      requires Valid()
      modifies `vault, `turns, `history
      ensures Valid() && OnlyOutside(old(history), history) == true
      ensures f == HeadFate(old(turns)) && turns == RestOf(old(turns))
      ensures history == if old(turns) == [] then old(history) else Edited(old(history), old(turns)[0].edits)
      ensures old(turns) == [] ==> f == Done && turns == [] && vault == old(vault) && history == old(history)
    {
      f := Done;
      if turns == [] { return; }
      var turn := turns[0];
      turns, f := turns[1..], turn.fate;
      for i := 0 to |turn.edits|
        invariant Valid() && OnlyOutside(old(history), history) == true
        invariant history == Edited(old(history), turn.edits[..i]) && turns == RestOf(old(turns))
      {
        Edit(turn.edits[i].0, turn.edits[i].1);
        assert turn.edits[..i + 1][..i] == turn.edits[..i];
      }
      assert turn.edits[..|turn.edits|] == turn.edits;
    }

    method Edit(path: string, content: Option<string>)
      requires Valid()
      modifies `vault, `history
      ensures Valid() && history == Then(old(history), Outside(path, content))
    {
      ghost var before := history;
      vault := if content.Some? then vault[path := content.value] else vault - {path};
      history := Then(history, Outside(path, content));
      forall id <- results | results[id].Applied?
        ensures Held(genesis, history, intents[id].core.target, intents[id].content)
      {
        HeldKept(genesis, before, history, id, intents[id].core.target, intents[id].content);
      }
    }

    function Missed(f: Fate): Exit {
      if f == Killed then Died else Failed
    }

    // ----------------------------------------------------------------
    // The three durable writes.
    // ----------------------------------------------------------------

    /** The intent file, created once. */
    method WriteIntent(id: string, intent: Intent) returns (ok: bool, exit: Exit)
      requires Valid() && id !in intents
      requires intent.core.requestId == id && intent.content == render(intent.core)
      modifies `vault, `turns, `history, `intents
      ensures Valid() && OnlyOutside(old(history), history) == true
      ensures intents == if Effective(HeadFate(old(turns))) then old(intents)[id := intent] else old(intents)
      ensures ok <==> HeadFate(old(turns)) == Done
      ensures !ok ==> exit == if HeadFate(old(turns)) == Killed then Died else Failed
      ensures turns == RestOf(old(turns))
      ensures old(turns) == [] ==> ok && turns == [] && vault == old(vault)
    {
      var f := NextTurn();
      if f == Done || f == FailedAfter {
        FaithfulKept(genesis, history, intents, intents[id := intent]);
        intents := intents[id := intent];
      }
      ok, exit := f == Done, Missed(f);
    }

    /** _publish_result: a result file is created once. */
    method PublishResult(id: string, result: Result, idempotent: bool) returns (exit: Exit)
      requires Valid() && id in intents && id !in results
      requires result.Applied? ==>
                 && result.documentId == intents[id].core.documentId
                 && result.path == intents[id].core.target
                 && result.content == intents[id].content
                 && Held(genesis, history, intents[id].core.target, intents[id].content)
      modifies `vault, `turns, `history, `results
      ensures Valid() && OnlyOutside(old(history), history) == true
      ensures results == if Effective(HeadFate(old(turns))) then old(results)[id := result] else old(results)
      ensures exit == if HeadFate(old(turns)) == Done then Stored(result, idempotent)
                      else if HeadFate(old(turns)) == Killed then Died else Failed
      ensures Ends(old(turns), turns, exit == Died) == true
      ensures old(turns) == [] ==> exit.Stored? && turns == [] && vault == old(vault) && history == old(history)
    {
      ghost var before := history;
      var f := NextTurn();
      if result.Applied? {
        OutsideIsFor(before, history, id);
        HeldKept(genesis, before, history, id, intents[id].core.target, intents[id].content);
      }
      OneTurnEnds(old(turns));
      if f == Done || f == FailedAfter { results := results[id := result]; }
      exit := if f == Done then Stored(result, idempotent) else Missed(f);
    }

    /** The link of _publish_note: it never replaces a file. */
    method PublishNote(id: string) returns (f: Fate, existed: bool)
      requires Valid() && id in intents
      modifies `vault, `turns, `history
      ensures Valid() && Attempt(old(history), history, id) == true
      ensures f == HeadFate(old(turns)) && turns == RestOf(old(turns))
      ensures Publications(history, id) == Publications(old(history), id) + if !existed && Effective(f) then 1 else 0
      ensures f == Done && !existed ==>
                Held(genesis, history, intents[id].core.target, intents[id].content) == true
      ensures old(turns) == [] ==>
                && f == Done && turns == [] && existed == (intents[id].core.target in old(vault))
                && vault == if existed then old(vault) else old(vault)[intents[id].core.target := intents[id].content]
    {
      f := NextTurn();
      OutsideIsFor(old(history), history, id);
      var target, content := intents[id].core.target, intents[id].content;
      existed := target in vault;
      if !existed && (f == Done || f == FailedAfter) {
        ghost var before := history;
        vault, history := vault[target := content], Then(history, Published(id, target, content));
        forall x <- results | results[x].Applied?
          ensures Held(genesis, history, intents[x].core.target, intents[x].content)
        {
          HeldKept(genesis, before, history, id, intents[x].core.target, intents[x].content);
        }
      }
    }

    /** inspect_vault over the vault as it is now. */
    method Inspect() returns (f: Fate, found: Inspection)
      requires Valid()
      modifies `vault, `turns, `history
      ensures Valid() && OnlyOutside(old(history), history) == true
      ensures found == inspect(vault)
      ensures f == HeadFate(old(turns)) && turns == RestOf(old(turns))
      ensures old(turns) == [] ==> f == Done && turns == [] && vault == old(vault) && history == old(history)
    {
      f := NextTurn();
      found := inspect(vault);
    }

    // ----------------------------------------------------------------
    // Working on an intent.
    // ----------------------------------------------------------------

    function AppliedResult(intent: Intent, fingerprint: string, at: string, recovered: bool, concurrent: bool): Result {
      Applied(intent.core.documentId, intent.core.target, intent.content, fingerprint, at, recovered, concurrent)
    }

    /** What an undisturbed attempt to publish at a free target comes to: `o` is the vault
        before, `d` after. */
    predicate QuietFirst(o: Vault, d: Vault, intent: Intent, now: string, idempotent: bool, exit: Exit) {
      var staged := inspect(o[intent.core.target := intent.content]);
      if !inspect(o).Clean() then d == o && exit == Pending(ValidVault)
      else if !staged.Clean() then d == o && exit == Stored(WouldBreakVault(staged.problems), false)
      else
        && d == o[intent.core.target := intent.content]
        && exit == Stored(AppliedResult(intent, staged.identity, now, false, false), idempotent)
    }

    /** What an undisturbed attempt comes to when the target exists already. */
    function QuietRecovery(o: Vault, intent: Intent, now: string): Exit
      requires intent.core.target in o
    {
      if o[intent.core.target] != intent.content then Stored(TargetTaken, false)
      else if !inspect(o).Clean() then Pending(ValidVault)
      else Stored(AppliedResult(intent, inspect(o).identity, now, true, false), true)
    }

    /** What one undisturbed attempt comes to. */
    predicate QuietWork(o: Vault, d: Vault, intent: Intent, now: string, idempotent: bool, exit: Exit) {
      if !PlainName(intent.core.target) then d == o && exit == Failed
      else if intent.core.target in o then d == o && exit == QuietRecovery(o, intent, now)
      else QuietFirst(o, d, intent, now, idempotent, exit)
    }

    /** The target exists: it is this capture's own note, or the capture is refused. */
    method RecoverPublished(id: string, now: string) returns (exit: Exit)
      requires Valid() && id in intents && id !in results
      modifies `vault, `turns, `history, `results
      ensures Valid() && OnlyOutside(old(history), history) == true
      ensures ResultFor(old(results), results, id) == true
      ensures exit.Stored? ==> id in results && results[id] == exit.result
      ensures exit.Stored? || exit.Pending? || exit == Failed || exit == Died
      ensures exit.Stored? && exit.result.Applied? ==> FateAt(old(turns), 0) == FateAt(old(turns), 1) == Done
      ensures exit.Pending? ==> exit.why == if FateAt(old(turns), 1) == Done then ValidVault else ReadableVault
      ensures Ends(old(turns), turns, exit == Died) == true
      ensures old(turns) == [] && intents[id].core.target in old(vault) ==>
                vault == old(vault) && exit == QuietRecovery(old(vault), intents[id], now)
    {
      var intent := intents[id];
      var f := NextTurn();
      OneTurnEnds(old(turns));
      if f == Killed { return Died; }
      ghost var read, first := history, turns;
      if f != Done || intent.core.target !in vault || vault[intent.core.target] != intent.content {
        exit := PublishResult(id, TargetTaken, false);
        OutsideCompose(old(history), read, history);
        EndsCompose(old(turns), first, turns, exit == Died);
        return;
      }
      var found;
      f, found := Inspect();
      OneTurnEnds(first);
      EndsCompose(old(turns), first, turns, f == Killed);
      OutsideCompose(old(history), read, history);
      OutsideIsFor(read, history, id);
      HeldKept(genesis, read, history, id, intent.core.target, intent.content);
      if f == Killed { return Died; }
      if f != Done { return Pending(ReadableVault); }
      if !found.Clean() { return Pending(ValidVault); }
      ghost var looked, second := history, turns;
      exit := PublishResult(id, AppliedResult(intent, found.identity, now, true, false), true);
      OutsideCompose(old(history), looked, history);
      EndsCompose(old(turns), second, turns, exit == Died);
    }

    /** The vault is as valid, and the same, as it was at some time since. */
    ghost predicate Unmoved(before: History)
      reads this
    {
      exists h :: OnlyOutside(before, h) && inspect(Replay(genesis, h)).Clean()
                  && inspect(Replay(genesis, h)).identity == inspect(vault).identity
    }

    /** At some time since, this is what the vault looked like. */
    ghost predicate StagedAfter(before: History, found: Inspection) {
      exists h :: OnlyOutside(before, h) && found == inspect(Replay(genesis, h))
    }

    lemma SameAsStaged(before: History, found: Inspection)
      requires StagedAfter(before, found) && found.Clean() && found.identity == inspect(vault).identity
      ensures Unmoved(before) == true
    {
    }

    /** At some time since, a copy of the vault with the note in it validated. */
    ghost predicate Rehearsed(before: History, intent: Intent) {
      exists h :: OnlyOutside(before, h) && inspect(Replay(genesis, h)[intent.core.target := intent.content]).Clean()
    }

    /** At some time since, this is what a copy with the note in it looked like. */
    ghost predicate CopyLooked(before: History, intent: Intent, candidate: Inspection) {
      exists h :: OnlyOutside(before, h)
                  && candidate == inspect(Replay(genesis, h)[intent.core.target := intent.content])
    }

    lemma LookedIsRehearsed(before: History, intent: Intent, candidate: Inspection)
      requires CopyLooked(before, intent, candidate) && candidate.Clean()
      ensures Rehearsed(before, intent) == true
    {
    }

    lemma RehearsedSince(before: History, middle: History, intent: Intent)
      requires OnlyOutside(before, middle) && Rehearsed(middle, intent)
      ensures Rehearsed(before, intent) == true
    {
      var h :| OnlyOutside(middle, h) && inspect(Replay(genesis, h)[intent.core.target := intent.content]).Clean();
      OutsideCompose(before, middle, h);
    }

    /** Look at the vault, and at what a copy of it with the note would report. */
    method Stage(id: string) returns (ok: bool, exit: Exit, baseline: Inspection, candidate: Inspection)
      requires Valid() && id in intents
      modifies `vault, `turns, `history
      ensures Valid() && OnlyOutside(old(history), history) == true
      ensures ok ==> baseline.Clean() && StagedAfter(old(history), baseline) == true
      ensures ok ==> candidate == inspect(vault[intents[id].core.target := intents[id].content])
                     && CopyLooked(old(history), intents[id], candidate) == true
      ensures if FateAt(old(turns), 0) == Killed then !ok && exit == Died
              else if FateAt(old(turns), 0) != Done then !ok && exit == Pending(ReadableVault)
              else if !baseline.Clean() then !ok && exit == Pending(ValidVault)
              else if FateAt(old(turns), 1) == Killed then !ok && exit == Died
              else if FateAt(old(turns), 1) != Done then !ok && exit == Pending(StableVault)
              else ok && turns == old(turns)[if |old(turns)| < 2 then |old(turns)| else 2..]
      ensures Ends(old(turns), turns, !ok && exit == Died) == true
      ensures old(turns) == [] ==>
                && (ok <==> inspect(old(vault)).Clean()) && (!ok ==> exit == Pending(ValidVault))
                && turns == [] && vault == old(vault) && history == old(history)
                && (ok ==> baseline == inspect(old(vault)))
    {
      candidate := Inspection("", []);
      var f;
      f, baseline := Inspect();
      ok := false;
      OneTurnEnds(old(turns));
      if f == Killed { return false, Died, baseline, candidate; }
      if f != Done { return false, Pending(ReadableVault), baseline, candidate; }
      if !baseline.Clean() { return false, Pending(ValidVault), baseline, candidate; }
      ghost var based, first := history, turns;
      f := NextTurn();
      OneTurnEnds(first);
      EndsCompose(old(turns), first, turns, f == Killed);
      OutsideCompose(old(history), based, history);
      candidate := inspect(vault[intents[id].core.target := intents[id].content]);
      if f == Killed { return false, Died, baseline, candidate; }
      if f != Done { return false, Pending(StableVault), baseline, candidate; }
      assert StagedAfter(old(history), baseline) by {
        assert OnlyOutside(old(history), based) && baseline == inspect(Replay(genesis, based));
      }
      ok, exit := true, Pending(StableVault);
    }

    /** Rehearse the capture on a copy of the vault: what the copy must then report, and
        that the vault has not moved meanwhile. */
    method Rehearse(id: string) returns (go: bool, exit: Exit, candidate: Inspection)
      requires Valid() && id in intents && id !in results
      modifies `vault, `turns, `history, `results
      ensures Valid() && OnlyOutside(old(history), history) == true
      ensures ResultFor(old(results), results, id) == true && (id in results ==> results[id].WouldBreakVault?)
      ensures go ==> results == old(results) && candidate.Clean()
                     && CopyLooked(old(history), intents[id], candidate) == true
      ensures go ==> inspect(vault).Clean() && Unmoved(old(history)) == true
      ensures go ==> FateAt(old(turns), 0) == FateAt(old(turns), 1) == FateAt(old(turns), 2) == Done
      ensures !go && exit.Pending? ==>
                exit.why == if FateAt(old(turns), 0) != Done then ReadableVault
                            else if exit.why == ValidVault then ValidVault else StableVault
      ensures Ends(old(turns), turns, !go && exit == Died) == true
      ensures !go ==> exit.Pending? || exit == Failed || exit == Died
                      || (exit.Stored? && exit.result.WouldBreakVault? && id in results && results[id] == exit.result)
      ensures var staged := inspect(old(vault)[intents[id].core.target := intents[id].content]);
              old(turns) == [] && inspect(old(vault)).Clean() && staged.Clean() ==>
                go && candidate == staged && turns == [] && vault == old(vault) && history == old(history)
      ensures var staged := inspect(old(vault)[intents[id].core.target := intents[id].content]);
              old(turns) == [] && !(inspect(old(vault)).Clean() && staged.Clean()) ==>
                && !go && vault == old(vault)
                && exit == if inspect(old(vault)).Clean() then Stored(WouldBreakVault(staged.problems), false)
                           else Pending(ValidVault)
    {
      var baseline;
      go, exit, baseline, candidate := Stage(id);
      if !go { return; }
      ghost var staged, second := history, turns;
      if !candidate.Clean() {
        go := false;
        exit := PublishResult(id, WouldBreakVault(candidate.problems), false);
        OutsideCompose(old(history), staged, history);
        EndsCompose(old(turns), second, turns, exit == Died);
        return;
      }
      var f, before := Inspect();
      OneTurnEnds(second);
      EndsCompose(old(turns), second, turns, f == Killed);
      OutsideCompose(old(history), staged, history);
      if f == Killed { return false, Died, candidate; }
      if f != Done || before.identity != baseline.identity || !before.Clean() {
        return false, Pending(StableVault), candidate;
      }
      SameAsStaged(old(history), baseline);
    }

    /** Publish, look once more, and record the capture as applied. */
    method PublishAndRecord(id: string, candidate: Inspection, now: string, idempotent: bool) returns (exit: Exit)
      requires Valid() && id in intents && id !in results
      modifies `vault, `turns, `history, `results
      ensures Valid() && Attempt(old(history), history, id) == true
      ensures ResultFor(old(results), results, id) == true
      ensures exit.Stored? ==> id in results && results[id] == exit.result && exit.result.Applied?
      ensures exit.Stored? || exit.Pending? || exit == Failed || exit == Died
      ensures exit.Pending? ==>
                exit.why == if FateAt(old(turns), 0) == Done || exit.why == StableVault then StableVault
                            else WritableVault
      ensures exit.Stored? ==>
                FateAt(old(turns), 0) == Done && Publications(history, id) == Publications(old(history), id) + 1
      ensures Ends(old(turns), turns, exit == Died) == true
      ensures var target, content := intents[id].core.target, intents[id].content;
              old(turns) == [] && target !in old(vault) ==>
                && vault == old(vault)[target := content]
                && exit == Stored(AppliedResult(intents[id], candidate.identity, now, false,
                                                inspect(vault).identity != candidate.identity
                                                || !inspect(vault).Clean()),
                                  idempotent)
    {
      var f, existed := PublishNote(id);
      OneTurnEnds(old(turns));
      if f == Killed { return Died; }
      if existed { return Pending(StableVault); }
      if f != Done { return Pending(WritableVault); }
      ghost var linked, first := history, turns;
      var published;
      f, published := Inspect();
      OneTurnEnds(first);
      EndsCompose(old(turns), first, turns, f == Killed);
      AttemptCompose(old(history), linked, history, id);
      OutsideIsFor(linked, history, id);
      HeldKept(genesis, linked, history, id, intents[id].core.target, intents[id].content);
      if f == Killed { return Died; }
      ghost var looked, second := history, turns;
      var concurrent := f != Done || !published.Clean() || published.identity != candidate.identity;
      exit := PublishResult(id, AppliedResult(intents[id], candidate.identity, now, false, concurrent), idempotent);
      OutsideIsFor(looked, history, id);
      AttemptCompose(old(history), looked, history, id);
      EndsCompose(old(turns), second, turns, exit == Died);
    }

    /** _process_intent once its target is known to be free. */
    method FirstPublication(id: string, now: string, idempotent: bool) returns (exit: Exit)
      requires Valid() && id in intents && id !in results
      modifies `vault, `turns, `history, `results
      ensures Valid() && Attempt(old(history), history, id) == true
      ensures ResultFor(old(results), results, id) == true
      ensures exit.Stored? ==> id in results && results[id] == exit.result
      ensures exit.Stored? || exit.Pending? || exit == Failed || exit == Died
      ensures Ends(old(turns), turns, exit == Died) == true
      ensures Publications(history, id) != Publications(old(history), id) ==>
                Rehearsed(old(history), intents[id]) == true
      ensures old(turns) == [] && intents[id].core.target !in old(vault) ==>
                QuietFirst(old(vault), vault, intents[id], now, idempotent, exit) == true
    {
      var go, candidate;
      go, exit, candidate := Rehearse(id);
      OutsideIsAttempt(old(history), history, id);
      OutsideIsFor(old(history), history, id);
      if go {
        ghost var rehearsed, used := history, turns;
        LookedIsRehearsed(old(history), intents[id], candidate);
        exit := PublishAndRecord(id, candidate, now, idempotent);
        AttemptCompose(old(history), rehearsed, history, id);
        EndsCompose(old(turns), used, turns, exit == Died);
      }
    }

    /** _process_intent for an intent without a durable result. */
    method Work(id: string, now: string, idempotent: bool) returns (exit: Exit)
      requires Valid() && id in intents && id !in results
      modifies `vault, `turns, `history, `results
      ensures Valid() && Attempt(old(history), history, id) == true
      ensures ResultFor(old(results), results, id) == true
      ensures exit.Stored? ==> id in results && results[id] == exit.result
      ensures exit != Conflict && exit != NotFound && exit != Taken
      ensures PlainName(intents[id].core.target) && FateAt(old(turns), 0) != Done ==>
                exit == if FateAt(old(turns), 0) == Killed then Died else Pending(ReadableVault)
      ensures Ends(old(turns), turns, exit == Died) == true
      ensures Publications(history, id) != Publications(old(history), id) ==>
                Rehearsed(old(history), intents[id]) == true
      ensures old(turns) == [] ==> QuietWork(old(vault), vault, intents[id], now, idempotent, exit) == true
    {
      if !PlainName(intents[id].core.target) { return Failed; }
      var f := NextTurn();
      OutsideIsAttempt(old(history), history, id);
      OutsideIsFor(old(history), history, id);
      OneTurnEnds(old(turns));
      if f != Done { return if f == Killed then Died else Pending(ReadableVault); }
      ghost var seen, used := history, turns;
      if intents[id].core.target in vault {
        exit := RecoverPublished(id, now);
        OutsideIsAttempt(seen, history, id);
        OutsideIsFor(seen, history, id);
      } else {
        exit := FirstPublication(id, now, idempotent);
        if Publications(history, id) != Publications(seen, id) { RehearsedSince(old(history), seen, intents[id]); }
      }
      AttemptCompose(old(history), seen, history, id);
      EndsCompose(old(turns), used, turns, exit == Died);
    }

    // ----------------------------------------------------------------
    // Requests.
    // ----------------------------------------------------------------

    /** The intent of a request ID seen for the first time. */
    function NewIntent(id: string, actor: string, client: string, note: Note, documentId: string, now: string)
      : (i: Intent)
      ensures && i.core.requestId == id && i.core.actor == actor && i.core.client == client && i.core.note == note
              && i.core.documentId == documentId && i.core.createdAt == now && i.content == render(i.core)
              && i.core.target == "Capture - " + safeTitle(note.title) + " - " + id[..Shorter(|id|, 8)] + ".md"
    {
      var target := "Capture - " + safeTitle(note.title) + " - " + Prefix(id) + ".md";
      var core := Core(id, actor, client, now, documentId, target, note);
      Intent(core, render(core))
    }

    /** The part of _capture that follows a new intent. */
    method Begin(id: string, intent: Intent) returns (exit: Exit)
      requires Valid() && id !in intents
      requires intent.core.requestId == id && intent.content == render(intent.core)
      modifies this
      ensures Valid() && Keeps(old(intents), old(results), intents, results) == true
      ensures intents == old(intents) || intents == old(intents)[id := intent]
      ensures Attempt(old(history), history, id) == true
      ensures ResultFor(old(results), results, id) == true
      ensures exit.Stored? ==> id in results && results[id] == exit.result
      ensures exit != Conflict && exit != NotFound && exit != Taken
      ensures exit.Stored? || exit.Pending? ==> intents == old(intents)[id := intent]
      ensures Ends(old(turns), turns, exit == Died) == true
      ensures Publications(history, id) != Publications(old(history), id) ==>
                intents == old(intents)[id := intent] && Rehearsed(old(history), intent) == true
      ensures old(turns) == [] ==>
                intents == old(intents)[id := intent]
                && QuietWork(old(vault), vault, intent, intent.core.createdAt, false, exit) == true
    {
      var ok;
      ok, exit := WriteIntent(id, intent);
      OutsideIsAttempt(old(history), history, id);
      OutsideIsFor(old(history), history, id);
      OneTurnEnds(old(turns));
      if ok {
        ghost var written, used := history, turns;
        exit := Work(id, intent.core.createdAt, false);
        AttemptCompose(old(history), written, history, id);
        EndsCompose(old(turns), used, turns, exit == Died);
        if Publications(history, id) != Publications(written, id) { RehearsedSince(old(history), written, intent); }
      }
      AddedKeeps(old(intents), old(results), intents, results, id, intent);
    }

    /** What the durable result of a request is answered with: itself, if it can be read. */
    function Repeated(id: string, result: Result): (exit: Exit)
      ensures exit == if ResultBytes(id, result) <= 0x1_0000 then Stored(result, true) else Failed
    {
      if Legible(id, result) then Stored(result, true) else Failed
    }

    /** _capture, for an allowed subject and a normalised note.  Its first attempt works on
        the intent it has just written; every later one has to read it back. */
    method Capture(id: string, actor: string, client: string, note: Note, documentId: string, now: string)
      returns (exit: Exit)
      requires Valid()
      modifies this
      ensures Valid() && Keeps(old(intents), old(results), intents, results) == true
      ensures Attempt(old(history), history, id) == true && ResultFor(old(results), results, id) == true
      ensures intents == old(intents)
              || (id !in old(intents)
                  && intents == old(intents)[id := NewIntent(id, actor, client, note, documentId, now)])
      ensures id in old(results) ==> history == old(history) && vault == old(vault)
      ensures Ends(old(turns), turns, exit == Died) == true
      ensures Publications(history, id) != Publications(old(history), id) ==>
                id in intents && Rehearsed(old(history), intents[id]) == true
      ensures id in old(results) && Readable(old(intents)[id].core)
              && old(intents)[id].core.actor == actor && old(intents)[id].core.note == note ==>
                exit == Repeated(id, old(results)[id])
      ensures exit == Conflict <==>
                && id in old(intents) && Readable(old(intents)[id].core)
                && (old(intents)[id].core.actor != actor || old(intents)[id].core.note != note)
      ensures exit.Stored? || exit.Pending? ==>
                id in intents && intents[id].core.actor == actor && intents[id].core.note == note
      ensures id in old(intents) && !Readable(old(intents)[id].core) ==>
                exit == Failed && results == old(results) && vault == old(vault) && history == old(history)
      ensures exit.Stored? ==> id in results && results[id] == exit.result
      ensures old(turns) == [] && id !in old(intents) ==>
                QuietWork(old(vault), vault, NewIntent(id, actor, client, note, documentId, now), now, false, exit)
                && id in intents
      ensures old(turns) == [] && id in old(intents) && id !in old(results) && Readable(old(intents)[id].core)
              && old(intents)[id].core.actor == actor && old(intents)[id].core.note == note ==>
                QuietWork(old(vault), vault, old(intents)[id], now, true, exit)
    {
      if id !in intents {
        exit := Begin(id, NewIntent(id, actor, client, note, documentId, now));
      } else if !Readable(intents[id].core) {
        exit := Failed;
      } else if !Asked(intents[id].core, actor, note) {
        exit := Conflict;
      } else if id in results {
        exit := Repeated(id, results[id]);
      } else {
        exit := Work(id, now, true);
      }
    }

    /** What an undisturbed status says of a capture without a result. */
    function QuietStatus(v: Vault, intent: Intent): Exit {
      if !PlainName(intent.core.target) then Failed
      else if intent.core.target !in v then Pending(CaptureRetry)
      else if v[intent.core.target] == intent.content then Pending(CapturePresent)
      else Taken
    }

    /** _status: it reads, and writes nothing. */
    method Status(id: string, actor: string) returns (exit: Exit)
      requires Valid()
      modifies `vault, `turns, `history
      ensures Valid() && OnlyOutside(old(history), history) == true
      ensures id in results && intents[id].core.actor == actor && Readable(intents[id].core) ==>
                exit == Repeated(id, results[id]) && vault == old(vault) && history == old(history)
      ensures exit == NotFound <==>
                id !in intents || (Readable(intents[id].core) && intents[id].core.actor != actor)
      ensures id in intents && !Readable(intents[id].core) ==>
                exit == Failed && vault == old(vault) && history == old(history)
      ensures exit.Stored? ==> id in results && results[id] == exit.result
      ensures exit.Stored? || exit.Pending? || exit == Taken ==> id in intents && intents[id].core.actor == actor
      ensures Ends(old(turns), turns, exit == Died) == true
      ensures && old(turns) == [] && id in intents && id !in results
              && intents[id].core.actor == actor && Readable(intents[id].core)
              ==> exit == QuietStatus(old(vault), intents[id])
    {
      if id !in intents { return NotFound; }
      if !Readable(intents[id].core) { return Failed; }
      if intents[id].core.actor != actor { return NotFound; }
      if id in results { return Repeated(id, results[id]); }
      var intent := intents[id];
      if !PlainName(intent.core.target) { return Failed; }
      var f := NextTurn();
      OneTurnEnds(old(turns));
      if f != Done { return Missed(f); }
      if intent.core.target !in vault { return Pending(CaptureRetry); }
      ghost var seen, used := history, turns;
      f := NextTurn();
      OneTurnEnds(used);
      EndsCompose(old(turns), used, turns, f == Killed);
      OutsideCompose(old(history), seen, history);
      if f == Killed { return Died; }
      exit := if f != Done || intent.core.target !in vault || vault[intent.core.target] != intent.content
              then Taken else Pending(CapturePresent);
    }

    /** One request, against whatever the last one left. */
    method Serve(r: Call)
      requires Valid()
      modifies this
      ensures Valid() && Keeps(old(intents), old(results), intents, results) == true
      ensures LeftAlone(old(intents), old(results), old(history), results, history) == true
      ensures |turns| <= |r.turns| && turns == r.turns[|r.turns| - |turns|..]
    {
      turns := r.turns;
      if r.Captures? {
        var _ := Capture(r.id, r.actor, r.client, r.note, r.documentId, r.now);
        CapturesLeaveAlone(old(intents), old(results), old(history), results, history, r.id);
      } else {
        var _ := Status(r.id, r.actor);
        OutsideLeavesAlone(old(intents), old(results), old(history), history);
      }
    }

    /** Any number of requests.  What has an intent that cannot be read back is never worked
        on again. */
    method Run(requests: seq<Call>)
      requires Valid()
      modifies this
      ensures Valid() && Keeps(old(intents), old(results), intents, results) == true
      ensures LeftAlone(old(intents), old(results), old(history), results, history)
    {
      for i := 0 to |requests|
        invariant Valid() && Keeps(old(intents), old(results), intents, results) == true
        invariant LeftAlone(old(intents), old(results), old(history), results, history) == true
      {
        ghost var before, done, so := intents, results, history;
        Serve(requests[i]);
        AloneComposes(old(intents), old(results), old(history), before, done, so, results, history);
      }
    }
  }

  // ------------------------------------------------------------------
  // What the history of any run shows.
  // ------------------------------------------------------------------

  /** No publication changes or removes a file that was there. */
  lemma {:induction false} NothingIsOverwritten(v: Vault, h: History, intents: map<string, Intent>)
    requires Faithful(v, h, intents) && h.Then? && h.last.Published?
    ensures forall path <- Replay(v, h.before) ::
              path in Replay(v, h) && Replay(v, h)[path] == Replay(v, h.before)[path]
    ensures forall path <- Replay(v, h) :: path !in Replay(v, h.before) ==>
              path == intents[h.last.id].core.target && Replay(v, h)[path] == intents[h.last.id].content
  {
    assert Replay(v, h) == Replay(v, h.before)[h.last.path := h.last.content];
  }

  predicate NeverRemoved(h: History, path: string) {
    h.Then? ==> h.last != Outside(path, None) && NeverRemoved(h.before, path)
  }

  /** However often a capture is retried, its note is published a second time only after
      somebody else removed it. */
  lemma {:induction false} PublishedOnceUnlessRemoved(v: Vault, h: History, intents: map<string, Intent>, id: string)
    requires Faithful(v, h, intents) && id in intents && NeverRemoved(h, intents[id].core.target)
    ensures Publications(h, id) <= 1
    ensures Publications(h, id) == 1 ==> intents[id].core.target in Replay(v, h)
  {
    if h.Then? { PublishedOnceUnlessRemoved(v, h.before, intents, id); }
  }

  // ------------------------------------------------------------------
  // A capture that can be made and not be asked about.
  // ------------------------------------------------------------------

  /** A note with a body of quotes, each of which takes two bytes. */
  function LongNote(quotes: nat): Note {
    Note("T", Quotes(quotes), ["C"], [CAPTURE_TAG])
  }

  lemma OneItemBytes(item: string)
    ensures ItemsBytes([item]) == TextBytes(item)
  {
    assert [item][..0] == [];
  }

  lemma ShortTexts()
    ensures TextBytes("T") == ItemsBytes(["C"]) == 3 && ItemsBytes([CAPTURE_TAG]) == 13
  {
    PlainChars("T");
    PlainChars("C");
    PlainChars(CAPTURE_TAG);
    OneItemBytes("C");
    OneItemBytes(CAPTURE_TAG);
  }

  lemma {:induction false} LongNoteBytes(quotes: nat)
    ensures NoteBytes(LongNote(quotes)) == 65 + 2 * quotes
    ensures NoteBytes(LongNote(quotes).(tags := [])) == 52 + 2 * quotes
  {
    QuotesBytes(quotes);
    ShortTexts();
  }

  lemma CaptureNamePlain(title: string, id: string)
    requires '/' !in title && '/' !in id
    ensures PlainName("Capture - " + title + " - " + Prefix(id) + ".md")
  {
    var stem := "Capture - " + title + " - " + Prefix(id);
    assert (stem + ".md")[|stem|..] == ".md";
  }

  lemma LongFrameFits(quotes: nat, id: string)
    requires quotes <= 65_421 && TextBytes(id) == 38
    ensures FrameBytes("s", "c", id, LongNote(quotes).(tags := [])) <= MAX_REQUEST_BYTES
  {
    LongNoteBytes(quotes);
    PlainChars("s");
    PlainChars("c");
  }

  lemma LongIntentUnreadable(quotes: nat, core: Core)
    requires quotes >= 65_256 && core.note == LongNote(quotes) && TextBytes(core.requestId) == 38
    ensures !Readable(core)
  {
    LongNoteBytes(quotes);
  }

  /** Undisturbed, a vault that stays clean takes the capture at once. */
  lemma CleanIsApplied(b: Broker, d: Vault, intent: Intent, now: string, exit: Exit)
    requires forall v :: b.inspect(v).Clean()
    requires PlainName(intent.core.target) && b.QuietWork(map[], d, intent, now, false, exit)
    ensures exit.Stored? && exit.result.Applied? && exit.result.content == intent.content
  {
  }

  /** The first capture of an undisturbed broker over an empty vault that stays clean. */
  method FirstCapture(b: Broker, id: string, actor: string, note: Note, documentId: string, now: string)
    returns (exit: Exit)
    requires b.Valid() && b.turns == [] && b.vault == map[] && id !in b.intents
    requires forall v :: b.inspect(v).Clean()
    requires '/' !in b.safeTitle(note.title) && '/' !in id
    modifies b
    ensures b.Valid() && id in b.intents && b.intents[id].core.note == note
    ensures exit.Stored? && exit.result.Applied? && exit.result.content == b.intents[id].content
  {
    ghost var intent := b.NewIntent(id, actor, "client", note, documentId, now);
    CaptureNamePlain(b.safeTitle(note.title), id);
    exit := b.Capture(id, actor, "client", note, documentId, now);
    assert b.intents[id] == intent;
    CleanIsApplied(b, b.vault, intent, now, exit);
  }

  /** Its frame and its body are within their bounds, and its first capture is applied to an
      empty vault; yet the same capture again, and any question about it, fails. */
  method LongCaptureIsLost(quotes: nat, id: string, documentId: string, now: string)
    returns (note: Note, first: Exit, again: Exit, status: Exit)
    requires 65_256 <= quotes <= 65_421 && TextBytes(id) == 38 && '/' !in id
    ensures |note.body| <= MAX_BODY_BYTES && FrameBytes("s", "c", id, note.(tags := [])) <= MAX_REQUEST_BYTES
    ensures first.Stored? && first.result.Applied? && again == Failed && status == Failed
  {
    note := LongNote(quotes);
    LongFrameFits(quotes, id);
    var b := new Broker(map[], (c: Core) => c.note.body, (v: Vault) => Inspection("", []), (t: string) => t);
    first := FirstCapture(b, id, "actor", note, documentId, now);
    LongIntentUnreadable(quotes, b.intents[id].core);
    again := b.Capture(id, "actor", "client", note, documentId, now);
    status := b.Status(id, "actor");
  }
}
