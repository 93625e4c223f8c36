/** The JSON texts the write broker's bounds are about: the frame of a request, the stored
    intent and the stored result (src/homeops_ai/write_broker.py:57-66, 388-403, 470-476,
    558-572, 642-654, 697-705, 738-747, 836-848).

    WriteBroker counts their bytes; here they are written out, and the counts are theirs. */
module WriteText {
  import opened WriteBroker

  // ------------------------------------------------------------------
  // UTF-8 and what json.dumps escapes.
  // ------------------------------------------------------------------

  /** The length of a character in UTF-8. */
  function Utf8Char(c: char): nat {
    if c as int < 0x80 then 1 else if c as int < 0x800 then 2 else if c as int < 0x1_0000 then 3 else 4
  }

  function Utf8(s: string): nat {
    if s == "" then 0 else Utf8(s[..|s| - 1]) + Utf8Char(s[|s| - 1])
  }

  lemma {:induction false} Utf8Append(a: string, b: string)
    ensures Utf8(a + b) == Utf8(a) + Utf8(b)
  {
    if b == "" {
      assert a + b == a;
    } else {
      Utf8Append(a, b[..|b| - 1]);
      assert (a + b)[..|a + b| - 1] == a + b[..|b| - 1];
    }
  }

  predicate Ascii(s: string) {
    forall i :: 0 <= i < |s| ==> s[i] as int < 0x80
  }

  lemma {:induction false} AsciiBytes(s: string)
    requires Ascii(s)
    ensures Utf8(s) == |s|
  {
    if s != "" { AsciiBytes(s[..|s| - 1]); }
  }

  function HexDigit(n: int): char
    requires 0 <= n < 16
  {
    if n < 10 then n as char + '0' else (n - 10) as char + 'a'
  }

  /** One character inside a JSON string. */
  function EscapedChar(c: char): string {
    match c
    case '"' => "\\\""
    case '\\' => "\\\\"
    case '\n' => "\\n"
    case '\r' => "\\r"
    case '\t' => "\\t"
    case '\U{8}' => "\\b"
    case '\U{C}' => "\\f"
    case _ => if c as int < 0x20 then "\\u00" + [HexDigit(c as int / 16), HexDigit(c as int % 16)] else [c]
  }

  function Escaped(s: string): string {
    if s == "" then "" else Escaped(s[..|s| - 1]) + EscapedChar(s[|s| - 1])
  }

  function Quoted(s: string): string {
    "\"" + Escaped(s) + "\""
  }

  lemma EscapedCharBytes(c: char)
    ensures Utf8(EscapedChar(c)) == CharBytes(c)
  {
    if EscapedChar(c) == [c] {
      assert [c][..0] == "";
    } else {
      AsciiBytes(EscapedChar(c));
    }
  }

  lemma {:induction false} EscapedBytes(s: string)
    ensures Utf8(Escaped(s)) == CharsBytes(s)
  {
    if s != "" {
      EscapedBytes(s[..|s| - 1]);
      EscapedCharBytes(s[|s| - 1]);
      Utf8Append(Escaped(s[..|s| - 1]), EscapedChar(s[|s| - 1]));
    }
  }

  lemma QuotedBytes(s: string)
    ensures Utf8(Quoted(s)) == TextBytes(s)
  {
    EscapedBytes(s);
    AsciiBytes("\"");
    Utf8Append("\"", Escaped(s));
    Utf8Append("\"" + Escaped(s), "\"");
  }

  // ------------------------------------------------------------------
  // JSON values.
  // ------------------------------------------------------------------

  /** The members of an object are in the order of their keys, as json.dumps sorts them. */
  datatype Json = Text(s: string) | Word(w: string) | Array(items: Items) | Object(members: Members)
  datatype Items = NoItems | Item(before: Items, last: Json)
  datatype Members = NoMembers | Member(others: Members, key: string, value: Json)

  function Show(j: Json): string {
    match j
    case Text(s) => Quoted(s)
    case Word(w) => w
    case Array(items) => "[" + ShowItems(items) + "]"
    case Object(members) => "{" + ShowMembers(members) + "}"
  }

  function ShowItems(i: Items): string {
    if i.NoItems? then "" else ShowItems(i.before) + (if i.before.NoItems? then "" else ",") + Show(i.last)
  }

  function ShowMembers(m: Members): string {
    if m.NoMembers? then ""
    else ShowMembers(m.others) + (if m.others.NoMembers? then "" else ",") + Quoted(m.key) + ":" + Show(m.value)
  }

  function Bytes(j: Json): nat {
    match j
    case Text(s) => TextBytes(s)
    case Word(w) => Utf8(w)
    case Array(items) => 2 + ItemsLength(items)
    case Object(members) => 2 + MembersLength(members)
  }

  function ItemsLength(i: Items): nat {
    if i.NoItems? then 0 else ItemsLength(i.before) + (if i.before.NoItems? then 0 else 1) + Bytes(i.last)
  }

  function MembersLength(m: Members): nat {
    if m.NoMembers? then 0
    else MembersLength(m.others) + (if m.others.NoMembers? then 1 else 2) + TextBytes(m.key) + Bytes(m.value)
  }

  /** How long a value is when it is written out. */
  lemma {:induction false} ShowBytes(j: Json)
    ensures Utf8(Show(j)) == Bytes(j)
  {
    match j
    case Text(s) => QuotedBytes(s);
    case Word(_) =>
    case Array(items) =>
      ShowItemsBytes(items);
      Bracketed("[", ShowItems(items), "]");
    case Object(members) =>
      ShowMembersBytes(members);
      Bracketed("{", ShowMembers(members), "}");
  }

  lemma Bracketed(before: string, s: string, after: string)
    requires Ascii(before) && Ascii(after)
    ensures Utf8(before + s + after) == |before| + Utf8(s) + |after|
  {
    AsciiBytes(before);
    AsciiBytes(after);
    Utf8Append(before, s);
    Utf8Append(before + s, after);
  }

  lemma {:induction false} ShowItemsBytes(i: Items)
    ensures Utf8(ShowItems(i)) == ItemsLength(i)
  {
    if i.Item? {
      var comma := if i.before.NoItems? then "" else ",";
      ShowItemsBytes(i.before);
      ShowBytes(i.last);
      AsciiBytes(comma);
      Utf8Append(ShowItems(i.before), comma);
      Utf8Append(ShowItems(i.before) + comma, Show(i.last));
    }
  }

  lemma {:induction false} ShowMembersBytes(m: Members)
    ensures Utf8(ShowMembers(m)) == MembersLength(m)
  {
    if m.Member? {
      var comma := if m.others.NoMembers? then "" else ",";
      ShowMembersBytes(m.others);
      ShowBytes(m.value);
      QuotedBytes(m.key);
      MemberBytes(ShowMembers(m.others), comma, Quoted(m.key), Show(m.value));
    }
  }

  lemma MemberBytes(before: string, comma: string, key: string, value: string)
    requires Ascii(comma)
    ensures Utf8(before + comma + key + ":" + value) == Utf8(before) + |comma| + Utf8(key) + 1 + Utf8(value)
  {
    AsciiBytes(comma);
    AsciiBytes(":");
    Utf8Append(before, comma);
    Utf8Append(before + comma, key);
    Utf8Append(before + comma + key, ":");
    Utf8Append(before + comma + key + ":", value);
  }

  /** A line of canonical JSON. */
  function Line(j: Json): string {
    Show(j) + "\n"
  }

  lemma LineBytes(j: Json)
    ensures Utf8(Line(j)) == Bytes(j) + 1
  {
    ShowBytes(j);
    AsciiBytes("\n");
    Utf8Append(Show(j), "\n");
  }

  function Texts(items: seq<string>): Items {
    if items == [] then NoItems else Item(Texts(items[..|items| - 1]), Text(items[|items| - 1]))
  }

  lemma {:induction false} TextsBytes(items: seq<string>)
    ensures ItemsLength(Texts(items)) == ItemsBytes(items)
  {
    if items != [] { TextsBytes(items[..|items| - 1]); }
  }

  // ------------------------------------------------------------------
  // What the broker writes and reads.
  // ------------------------------------------------------------------

  const PROTOCOL := Text("homeops.write/v1")

  const VERSION := Word("1")

  lemma PlainBytes(s: string)
    requires Plain(s)
    ensures TextBytes(s) == |s| + 2
  {
    PlainChars(s);
  }

  /** What a member adds to the members before it. */
  lemma Adds(m: Members, key: string, value: Json)
    ensures MembersLength(Member(m, key, value)) ==
              MembersLength(m) + (if m.NoMembers? then 1 else 2) + TextBytes(key) + Bytes(value)
  {
  }

  lemma NoteNames()
    ensures TextBytes("body") == TextBytes("tags") == 6 && TextBytes("title") == 7 && TextBytes("categories") == 12
  {
    PlainBytes("body");
    PlainBytes("tags");
    PlainBytes("title");
    PlainBytes("categories");
  }

  lemma ActorNames()
    ensures TextBytes("actor") == 7 && TextBytes("client_id") == 11 && TextBytes("subject") == 9
    ensures TextBytes("operation") == 11
  {
    PlainBytes("actor");
    PlainBytes("client_id");
    PlainBytes("subject");
    PlainBytes("operation");
  }

  lemma MessageNames()
    ensures TextBytes("note") == 6 && TextBytes("capture_note") == 14 && TextBytes("request_id") == 12
  {
    PlainBytes("note");
    PlainBytes("capture_note");
    PlainBytes("request_id");
  }

  lemma ProtocolNames()
    ensures TextBytes("protocol") == 10 && TextBytes("homeops.write/v1") == 18
    ensures TextBytes("schema_version") == 16 && Utf8("1") == 1
  {
    PlainBytes("protocol");
    PlainBytes("homeops.write/v1");
    PlainBytes("schema_version");
    AsciiBytes("1");
  }

  lemma HashNames()
    ensures TextBytes("actor_fingerprint") == 19 && TextBytes("client_fingerprint") == 20
    ensures TextBytes("request_hash") == 14
  {
    PlainBytes("actor_fingerprint");
    PlainBytes("client_fingerprint");
    PlainBytes("request_hash");
  }

  lemma DocumentNames()
    ensures TextBytes("created_at") == 12 && TextBytes("document_id") == 13 && TextBytes("target") == 8
    ensures TextBytes("content_sha256") == 16
  {
    PlainBytes("created_at");
    PlainBytes("document_id");
    PlainBytes("target");
    PlainBytes("content_sha256");
  }

  // ------------------------------------------------------------------
  // Notes, frames and stored intents.
  // ------------------------------------------------------------------

  function NoteJson(n: Note): Json {
    var body := Member(NoMembers, "body", Text(n.body));
    var categories := Member(body, "categories", Array(Texts(n.categories)));
    var tags := Member(categories, "tags", Array(Texts(n.tags)));
    Object(Member(tags, "title", Text(n.title)))
  }

  lemma NoteLength(n: Note)
    ensures Bytes(NoteJson(n)) == NoteBytes(n)
  {
    NoteNames();
    TextsBytes(n.categories);
    TextsBytes(n.tags);
    var m := NoteJson(n).members;
    Adds(m.others, "title", m.value);
    Adds(m.others.others, "tags", m.others.value);
    Adds(m.others.others.others, "categories", m.others.others.value);
    Adds(NoMembers, "body", Text(n.body));
  }

  function ActorJson(subject: string, client: string): Json {
    Object(Member(Member(NoMembers, "client_id", Text(client)), "subject", Text(subject)))
  }

  lemma ActorLength(subject: string, client: string)
    ensures Bytes(ActorJson(subject, client)) == 25 + TextBytes(client) + TextBytes(subject)
  {
    ActorNames();
    Adds(NoMembers, "client_id", Text(client));
    Adds(Member(NoMembers, "client_id", Text(client)), "subject", Text(subject));
  }

  function FrameJson(subject: string, client: string, id: string, note: Note): Json {
    var actor := Member(NoMembers, "actor", ActorJson(subject, client));
    var noted := Member(actor, "note", NoteJson(note));
    var operation := Member(noted, "operation", Text("capture_note"));
    var protocol := Member(operation, "protocol", PROTOCOL);
    var identified := Member(protocol, "request_id", Text(id));
    Object(Member(identified, "schema_version", VERSION))
  }

  /** The frame of a capture has as many bytes as the bound on it counts. */
  lemma FrameLength(subject: string, client: string, id: string, note: Note)
    ensures Utf8(Line(FrameJson(subject, client, id, note))) == FrameBytes(subject, client, id, note)
  {
    ActorNames();
    MessageNames();
    ProtocolNames();
    ActorLength(subject, client);
    NoteLength(note);
    var identified := FrameJson(subject, client, id, note).members.others;
    var protocol := identified.others;
    var operation := protocol.others;
    Adds(identified, "schema_version", VERSION);
    Adds(protocol, "request_id", Text(id));
    Adds(operation, "protocol", protocol.value);
    Adds(operation.others, "operation", operation.value);
    Adds(operation.others.others, "note", NoteJson(note));
    Adds(NoMembers, "actor", ActorJson(subject, client));
    LineBytes(FrameJson(subject, client, id, note));
  }

  /** A SHA-256 in hexadecimal. */
  predicate Digest(s: string) {
    |s| == 64 && forall i :: 0 <= i < |s| ==> s[i] in "0123456789abcdef"
  }

  lemma DigestBytes(s: string)
    requires Digest(s)
    ensures TextBytes(s) == 66
  {
    PlainBytes(s);
  }

  /** The hashes an intent is stored with. */
  datatype Hashes = Hashes(actor: string, client: string, content: string, request: string) {
    predicate Valid() {
      Digest(actor) && Digest(client) && Digest(content) && Digest(request)
    }
  }

  /** The members of an intent up to its note. */
  function IntentHead(core: Core, h: Hashes): Members {
    var actor := Member(NoMembers, "actor_fingerprint", Text(h.actor));
    var client := Member(actor, "client_fingerprint", Text(h.client));
    var content := Member(client, "content_sha256", Text(h.content));
    var created := Member(content, "created_at", Text(core.createdAt));
    Member(created, "document_id", Text(core.documentId))
  }

  function IntentJson(core: Core, h: Hashes): Json {
    var note := Member(IntentHead(core, h), "note", NoteJson(core.note));
    var protocol := Member(note, "protocol", PROTOCOL);
    var hashed := Member(protocol, "request_hash", Text(h.request));
    var identified := Member(hashed, "request_id", Text(core.requestId));
    var versioned := Member(identified, "schema_version", VERSION);
    Object(Member(versioned, "target", Text(core.target)))
  }

  lemma IntentHeadLength(core: Core, h: Hashes)
    requires h.Valid()
    ensures MembersLength(IntentHead(core, h)) == 287 + TextBytes(core.createdAt) + TextBytes(core.documentId)
  {
    HashNames();
    DocumentNames();
    DigestBytes(h.actor);
    DigestBytes(h.client);
    DigestBytes(h.content);
    var created := IntentHead(core, h).others;
    var content := created.others;
    Adds(created, "document_id", Text(core.documentId));
    Adds(content, "created_at", Text(core.createdAt));
    Adds(content.others, "content_sha256", Text(h.content));
    Adds(content.others.others, "client_fingerprint", Text(h.client));
    Adds(NoMembers, "actor_fingerprint", Text(h.actor));
  }

  /** The stored intent has as many bytes as Readable counts. */
  lemma IntentLength(core: Core, h: Hashes)
    requires h.Valid()
    ensures Utf8(Line(IntentJson(core, h))) == IntentBytes(core)
  {
    MessageNames();
    ProtocolNames();
    HashNames();
    DocumentNames();
    NoteLength(core.note);
    IntentHeadLength(core, h);
    DigestBytes(h.request);
    var versioned := IntentJson(core, h).members.others;
    var hashed := versioned.others.others;
    Adds(versioned, "target", Text(core.target));
    Adds(versioned.others, "schema_version", VERSION);
    Adds(hashed, "request_id", Text(core.requestId));
    Adds(hashed.others, "request_hash", Text(h.request));
    Adds(hashed.others.others, "protocol", hashed.others.value);
    Adds(IntentHead(core, h), "note", NoteJson(core.note));
    LineBytes(IntentJson(core, h));
  }

  // ------------------------------------------------------------------
  // Stored results.
  // ------------------------------------------------------------------

  lemma ResultNames()
    ensures TextBytes("message") == 9 && TextBytes("outcome") == 9 && TextBytes("retryable") == 11
    ensures Utf8("true") == 4 && Utf8("false") == 5
  {
    PlainBytes("message");
    PlainBytes("outcome");
    PlainBytes("retryable");
    AsciiBytes("true");
    AsciiBytes("false");
  }

  lemma AppliedNames()
    ensures TextBytes("applied_at") == 12 && TextBytes("recovered") == 11
    ensures TextBytes("source_path") == 13 && TextBytes("APPLIED") == 9
  {
    PlainBytes("applied_at");
    PlainBytes("recovered");
    PlainBytes("source_path");
    PlainBytes("APPLIED");
  }

  lemma ChangeNames()
    ensures TextBytes("concurrent_source_change") == 26 && TextBytes("source_fingerprint") == 20
  {
    PlainBytes("concurrent_source_change");
    PlainBytes("source_fingerprint");
  }

  function Truth(b: bool): Json {
    Word(if b then "true" else "false")
  }

  /** The members of an applied result up to its outcome. */
  function AppliedHead(r: Result, content: string): Members
    requires r.Applied?
  {
    var at := Member(NoMembers, "applied_at", Text(r.appliedAt));
    var concurrent := Member(at, "concurrent_source_change", Truth(r.concurrentChange));
    var hashed := Member(concurrent, "content_sha256", Text(content));
    var document := Member(hashed, "document_id", Text(r.documentId));
    Member(document, "outcome", Text("APPLIED"))
  }

  function AppliedJson(id: string, r: Result, content: string, source: string): Json
    requires r.Applied?
  {
    var protocol := Member(AppliedHead(r, content), "protocol", PROTOCOL);
    var recovered := Member(protocol, "recovered", Truth(r.recovered));
    var identified := Member(recovered, "request_id", Text(id));
    var retryable := Member(identified, "retryable", Truth(false));
    var versioned := Member(retryable, "schema_version", VERSION);
    var fingerprint := Member(versioned, "source_fingerprint", Text(source));
    Object(Member(fingerprint, "source_path", Text(r.path)))
  }

  lemma AppliedHeadLength(r: Result, content: string)
    requires r.Applied? && Digest(content)
    ensures MembersLength(AppliedHead(r, content)) ==
              165 + TextBytes(r.appliedAt) + TextBytes(r.documentId) - if r.concurrentChange then 1 else 0
  {
    AppliedNames();
    ChangeNames();
    ResultNames();
    DocumentNames();
    DigestBytes(content);
    var document := AppliedHead(r, content).others;
    var hashed := document.others;
    Adds(document, "outcome", Text("APPLIED"));
    Adds(hashed, "document_id", Text(r.documentId));
    Adds(hashed.others, "content_sha256", Text(content));
    Adds(hashed.others.others, "concurrent_source_change", Truth(r.concurrentChange));
    Adds(NoMembers, "applied_at", Text(r.appliedAt));
  }

  lemma AppliedLength(id: string, r: Result, content: string, source: string)
    requires r.Applied? && Digest(content) && Digest(source)
    ensures Utf8(Line(AppliedJson(id, r, content, source))) == ResultBytes(id, r)
  {
    AppliedNames();
    ChangeNames();
    ResultNames();
    MessageNames();
    ProtocolNames();
    AppliedHeadLength(r, content);
    DigestBytes(source);
    var fingerprint := AppliedJson(id, r, content, source).members.others;
    var retryable := fingerprint.others.others;
    var recovered := retryable.others.others;
    Adds(fingerprint, "source_path", Text(r.path));
    Adds(fingerprint.others, "source_fingerprint", Text(source));
    Adds(retryable, "schema_version", VERSION);
    Adds(retryable.others, "retryable", Truth(false));
    Adds(recovered, "request_id", Text(id));
    Adds(recovered.others, "recovered", Truth(r.recovered));
    Adds(AppliedHead(r, content), "protocol", recovered.others.value);
    LineBytes(AppliedJson(id, r, content, source));
  }

  /** The members every rejection has. */
  function RejectedMembers(id: string, message: string): Members {
    var outcome := Member(Member(NoMembers, "message", Text(message)), "outcome", Text("REJECTED"));
    var protocol := Member(outcome, "protocol", PROTOCOL);
    var identified := Member(protocol, "request_id", Text(id));
    var retryable := Member(identified, "retryable", Truth(false));
    Member(retryable, "schema_version", VERSION)
  }

  lemma RejectedLength(id: string, message: string)
    requires Plain(message)
    ensures MembersLength(RejectedMembers(id, message)) == 114 + |message| + TextBytes(id)
  {
    ResultNames();
    MessageNames();
    ProtocolNames();
    PlainBytes("REJECTED");
    PlainBytes(message);
    var retryable := RejectedMembers(id, message).others;
    var protocol := retryable.others.others;
    Adds(retryable, "schema_version", VERSION);
    Adds(retryable.others, "retryable", Truth(false));
    Adds(protocol, "request_id", Text(id));
    Adds(protocol.others, "protocol", protocol.value);
    Adds(protocol.others.others, "outcome", protocol.others.value);
    Adds(NoMembers, "message", Text(message));
  }

  lemma ProblemNames()
    ensures TextBytes("code") == 6 && TextBytes("message") == 9 && TextBytes("source_path") == 13
  {
    PlainBytes("code");
    PlainBytes("message");
    PlainBytes("source_path");
  }

  function ProblemJson(p: Problem): Json {
    Object(Member(Member(Member(NoMembers, "code", Text(p.code)), "message", Text(p.message)),
                  "source_path", Text(p.path)))
  }

  lemma ProblemLength(p: Problem)
    ensures Bytes(ProblemJson(p)) == 35 + TextBytes(p.code) + TextBytes(p.message) + TextBytes(p.path)
  {
    ProblemNames();
    var m := ProblemJson(p).members;
    Adds(m.others, "source_path", Text(p.path));
    Adds(m.others.others, "message", Text(p.message));
    Adds(NoMembers, "code", Text(p.code));
  }

  function ProblemItems(problems: seq<Problem>): Items {
    if problems == [] then NoItems
    else Item(ProblemItems(problems[..|problems| - 1]), ProblemJson(problems[|problems| - 1]))
  }

  lemma {:induction false} ProblemsLength(problems: seq<Problem>)
    ensures ItemsLength(ProblemItems(problems)) == ProblemsBytes(problems)
  {
    if problems != [] {
      ProblemsLength(problems[..|problems| - 1]);
      ProblemLength(problems[|problems| - 1]);
    }
  }

  const TAKEN := "capture target already exists" + " with different content"

  const BROKEN := "capture would violate the" + " vault validation contract"

  lemma TakenIsPlain()
    ensures Plain(TAKEN) && |TAKEN| == 52
  {
    assert Plain("capture target already exists");
    assert Plain(" with different content");
  }

  lemma BrokenIsPlain()
    ensures Plain(BROKEN) && |BROKEN| == 51
  {
    assert Plain("capture would violate the");
    assert Plain(" vault validation contract");
  }

  function ResultJson(id: string, r: Result, content: string, source: string): Json {
    match r
    case Applied(_, _, _, _, _, _, _) => AppliedJson(id, r, content, source)
    case TargetTaken => Object(RejectedMembers(id, TAKEN))
    case WouldBreakVault(problems) =>
      Object(Member(RejectedMembers(id, BROKEN), "validation_errors", Array(ProblemItems(problems))))
  }

  /** A stored result has as many bytes as Legible counts. */
  lemma ResultLength(id: string, r: Result, content: string, source: string)
    requires Digest(content) && Digest(source)
    ensures Utf8(Line(ResultJson(id, r, content, source))) == ResultBytes(id, r)
  {
    match r
    case Applied(_, _, _, _, _, _, _) => AppliedLength(id, r, content, source);
    case TargetTaken =>
      TakenIsPlain();
      RejectedLength(id, TAKEN);
      LineBytes(ResultJson(id, r, content, source));
    case WouldBreakVault(problems) =>
      BrokenIsPlain();
      RejectedLength(id, BROKEN);
      PlainBytes("validation_errors");
      ProblemsLength(problems);
      Adds(RejectedMembers(id, BROKEN), "validation_errors", Array(ProblemItems(problems)));
      LineBytes(ResultJson(id, r, content, source));
  }
}
