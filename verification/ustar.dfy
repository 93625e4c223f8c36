/** The submission archive as both sides account for it: the entries and blocks a USTAR
    stream consists of (the "ustar Interchange Format" of the pax utility, IEEE Std
    1003.1-2017), what the receiver accepts, and what the workstation writes
    (internal/receiver/archive.go, src/homeops_ai/snapshot.py).

    Contents stand for their own SHA-256. */
module Ustar {
  import opened Wrappers
  import opened Ordering

  const BLOCK := 512
  const RECORD := 10 * 1024
  const REQUEST_FILE_MAX := 64 * 1024
  const SNAPSHOT_MANIFEST_MAX := 8 * 1024 * 1024

  /** The largest size eleven octal digits can hold. */
  const MAX_SIZE := 0x1_FFFF_FFFF

  newtype int64 = x: int | -0x8000_0000_0000_0000 <= x < 0x8000_0000_0000_0000

  datatype Config = Config(maxArchive: int64, maxExtracted: int64, maxFile: int64, maxFiles: int64)

  /** What the configuration checks: every limit is positive. */
  predicate Configured(c: Config) {
    c.maxArchive > 0 && c.maxExtracted > 0 && c.maxFile > 0 && c.maxFiles > 0 && c.maxFile <= c.maxExtracted
  }

  /** A complete entry: its name, whether its header carries nothing but the canonical
      metadata of a regular file, and its content. */
  datatype Entry = Entry(name: string, canonical: bool, content: string)

  /** How a stream goes on after its complete entries: the two zero blocks and whatever
      follows them, nothing, one zero block, a header whose body is cut short, or bytes
      that are no header. */
  datatype Ending =
    | Marked(tail: seq<bool>)          // each byte of the tail: is it zero
    | Bare
    | HalfMarked
    | Truncated(name: string, canonical: bool, size: nat)
    | Unreadable

  datatype Archive = Archive(entries: seq<Entry>, ending: Ending)

  /** Header sizes fit their field. */
  predicate Encodable(a: Archive) {
    && (forall e <- a.entries :: |e.content| <= MAX_SIZE)
    && (a.ending.Truncated? ==> a.ending.size <= MAX_SIZE)
  }

  function Blocks(size: nat): nat {
    BLOCK + (size + 511) / 512 * 512
  }

  /** Bytes of the complete entries. */
  function Length(entries: seq<Entry>): nat {
    if entries == [] then 0
    else Length(entries[..|entries| - 1]) + Blocks(|entries[|entries| - 1].content|)
  }

  function Extracted(entries: seq<Entry>): nat {
    if entries == [] then 0
    else Extracted(entries[..|entries| - 1]) + |entries[|entries| - 1].content|
  }

  lemma {:induction false} LengthGrows(entries: seq<Entry>, i: nat)
    requires i <= |entries|
    ensures Length(entries[..i]) <= Length(entries) && Extracted(entries[..i]) <= Extracted(entries)
    decreases |entries| - i
  {
    if i < |entries| {
      LengthGrows(entries, i + 1);
      assert entries[..i + 1][..i] == entries[..i];
    } else {
      assert entries[..i] == entries;
    }
  }

  // ------------------------------------------------------------------
  // Paths.
  // ------------------------------------------------------------------

  predicate Printable(p: string) {
    forall c <- p :: ' ' <= c <= '~' && c != '\\'
  }

  function Components(p: string): seq<string> {
    if p == "" then [""]
    else
      var rest := Components(p[1..]);
      if p[0] == '/' then [""] + rest else [[p[0]] + rest[0]] + rest[1..]
  }

  /** A canonical relative path in printable ASCII: what validateArchivePath and
      safe_relative_path both accept. */
  predicate SafePath(p: string) {
    Printable(p) && forall part <- Components(p) :: part !in {"", ".", ".."}
  }

  function PerPathLimit(name: string): nat {
    if name == "request.json" then REQUEST_FILE_MAX
    else if name == "snapshot.json" then SNAPSHOT_MANIFEST_MAX
    else 0x7FFF_FFFF_FFFF_FFFF
  }

  predicate HasPrefix(name: string, prefix: string) {
    prefix <= name
  }

  /** validateArchiveHeader: `index` counts from one. */
  predicate HeaderOk(name: string, canonical: bool, index: nat, previous: string) {
    && canonical
    && SafePath(name)
    && (previous != "" ==> Less(previous, name))
    && (if index == 1 then name == "request.json"
        else if index == 2 then name == "snapshot.json"
        else HasPrefix(name, "vault/") && name != "vault/")
  }

  function Previous(entries: seq<Entry>, i: nat): string
    requires i <= |entries|
  {
    if i == 0 then "" else entries[i - 1].name
  }

  // ------------------------------------------------------------------
  // What the receiver accepts.
  // ------------------------------------------------------------------

  datatype Request = Request(
    id: string, publisher: string, token: string, releasePolicy: string, snapshotId: string,
    expected: string, manifest: string)

  /** How requests are written, canonical JSON, and back; and what the request's checks make
      of its other fields. */
  datatype Codec = Codec(decode: string -> Option<Request>, render: Request -> string, fieldsOk: Request -> bool)

  /** A capability token: 64 lowercase hexadecimal digits. */
  predicate IsToken(t: string) {
    |t| == 64 && forall c <- t :: c in "0123456789abcdef"
  }

  /** validate_request_message. */
  predicate ValidRequest(k: Codec, r: Request) {
    IsToken(r.token) && k.fieldsOk(r)
  }

  datatype Proof = Proof(path: string, size: nat, digest: string)

  datatype Receipt = Receipt(
    request: Request, archiveBytes: nat, extractedBytes: nat, fileCount: nat, vaultFileCount: nat, files: seq<Proof>)

  function ProofsOf(entries: seq<Entry>): seq<Proof> {
    seq(|entries|, i requires 0 <= i < |entries| =>
      Proof(entries[i].name, |entries[i].content|, entries[i].content))
  }

  /** One entry passes the header and size checks, given those before it. */
  predicate EntryOk(c: Config, k: Codec, entries: seq<Entry>, i: nat)
    requires i < |entries|
  {
    var e := entries[i];
    && i + 1 <= c.maxFiles as int
    && HeaderOk(e.name, e.canonical, i + 1, Previous(entries, i))
    && |e.content| <= c.maxFile as int && |e.content| <= PerPathLimit(e.name)
    && Extracted(entries[..i + 1]) <= c.maxExtracted as int
    && (i == 0 ==> k.decode(e.content).Some?)
  }

  /** A safe path is printable ASCII without backslashes, and none of its parts is empty, `.`
      or `..`. */
  lemma SafePathMeans(p: string)
    ensures SafePath(p) <==>
              && (forall i :: 0 <= i < |p| ==> 0x20 <= p[i] as int <= 0x7E && p[i] != '\\')
              && "" !in Components(p) && "." !in Components(p) && ".." !in Components(p)
  {
    if forall i :: 0 <= i < |p| ==> 0x20 <= p[i] as int <= 0x7E && p[i] != '\\' {
      forall c <- p ensures ' ' <= c <= '~' && c != '\\' {
        var i :| 0 <= i < |p| && p[i] == c;
      }
    } else {
      var i :| 0 <= i < |p| && !(0x20 <= p[i] as int <= 0x7E && p[i] != '\\');
      assert p[i] in p;
    }
  }

  /** What an entry that passes looks like. */
  lemma EntryMeans(c: Config, k: Codec, entries: seq<Entry>, i: nat)
    requires i < |entries| && EntryOk(c, k, entries, i)
    ensures entries[i].canonical && SafePath(entries[i].name)
    ensures i == 0 ==> entries[i].name == "request.json" && |entries[i].content| <= REQUEST_FILE_MAX
    ensures i == 1 ==> entries[i].name == "snapshot.json" && |entries[i].content| <= SNAPSHOT_MANIFEST_MAX
    ensures i >= 2 ==> "vault/" < entries[i].name
    ensures i > 0 && entries[i - 1].name != "" ==> Less(entries[i - 1].name, entries[i].name)
    ensures |entries[i].content| <= c.maxFile as int && i < c.maxFiles as int
  {
  }

  function Padding(length: nat): nat {
    (RECORD - length % RECORD) % RECORD
  }

  predicate TailOk(tail: seq<bool>, length: nat) {
    (tail == [] || |tail| == Padding(length)) && forall zero <- tail :: zero
  }

  /** receiveArchive accepts: canonical entries in order and within the limits, the end
      marker, nothing after it but the zero bytes of the last record, and a manifest that
      hashes to what the request says. */
  predicate Acceptable(c: Config, k: Codec, a: Archive) {
    && (forall i :: 0 <= i < |a.entries| ==> EntryOk(c, k, a.entries, i))
    && a.ending.Marked?
    && TailOk(a.ending.tail, Length(a.entries) + 2 * BLOCK)
    && Length(a.entries) + 2 * BLOCK + |a.ending.tail| <= c.maxArchive as int
    && |a.entries| >= 3
    && k.decode(a.entries[0].content).Some?
    && k.decode(a.entries[0].content).value.manifest == a.entries[1].content
  }

  /** How much of the stream there is beyond the complete entries, at least. */
  function EndLength(ending: Ending): nat {
    match ending
    case Marked(tail) => 2 * BLOCK + |tail|
    case HalfMarked => BLOCK
    case Truncated(_, _, _) => BLOCK
    case _ => 0
  }

  /** Everything in the stream, and what a cut-off header announces, is within the limits. */
  predicate WithinLimits(c: Config, a: Archive) {
    && |a.entries| + (if a.ending.Truncated? then 1 else 0) <= c.maxFiles as int
    && (forall e <- a.entries :: |e.content| <= c.maxFile as int && |e.content| <= PerPathLimit(e.name))
    && (a.ending.Truncated? ==> a.ending.size <= c.maxFile as int && a.ending.size <= PerPathLimit(a.ending.name))
    && Extracted(a.entries) + (if a.ending.Truncated? then a.ending.size else 0) <= c.maxExtracted as int
    && Length(a.entries) + EndLength(a.ending) <= c.maxArchive as int
  }

  /** The header of entry `i` arrives whole, and it is the first to exceed a limit on files
      or sizes. */
  predicate Exceeds(c: Config, k: Codec, entries: seq<Entry>, i: nat)
    requires i < |entries|
  {
    var e := entries[i];
    && (forall j :: 0 <= j < i ==> EntryOk(c, k, entries, j))
    && Length(entries[..i]) + BLOCK <= c.maxArchive as int + 1
    && (i + 1 > c.maxFiles as int
        || (&& HeaderOk(e.name, e.canonical, i + 1, Previous(entries, i))
            && (|e.content| > c.maxFile as int || |e.content| > PerPathLimit(e.name)
                || Extracted(entries[..i]) + |e.content| > c.maxExtracted as int)))
  }

  function ReceiptOf(k: Codec, a: Archive): Receipt
    requires a.ending.Marked? && |a.entries| >= 3 && k.decode(a.entries[0].content).Some?
  {
    Receipt(
      k.decode(a.entries[0].content).value,
      Length(a.entries) + 2 * BLOCK + |a.ending.tail|,
      Extracted(a.entries),
      |a.entries|,
      |a.entries| - 2,
      ProofsOf(a.entries))
  }
}
