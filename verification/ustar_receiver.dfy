/** receiveArchive up to the publication, in the machine integers it uses
    (internal/receiver/archive.go:67-204). */
module UstarReceiver {
  import opened Wrappers
  import opened Ordering
  import opened Ustar

  datatype Verdict = Received(receipt: Receipt) | Invalid | OverLimit

  const MAX_INT64 := 0x7FFF_FFFF_FFFF_FFFF

  /** Addition as Go's int64 does it, where the sum is above the type's range by less than
      the range itself. */
  function Wrapped(sum: int): (r: int64)
    requires -MAX_INT64 - 1 <= sum <= 2 * MAX_INT64
    ensures r as int == sum || r as int == sum - 0x1_0000_0000_0000_0000
  {
    if sum <= MAX_INT64 then sum as int64 else (sum - 2 * MAX_INT64 - 2) as int64
  }

  /** The entry loop's counters; `canonicalBytes` may wrap around. */
  datatype Progress = Progress(fileCount: int64, extracted: int64, canonicalBytes: int64, vaultFiles: int64)

  predicate Counts(p: Progress, entries: seq<Entry>, i: nat)
    requires i <= |entries|
  {
    && p.fileCount as int == i
    && p.extracted as int == Extracted(entries[..i])
    && Length(entries[..i]) <= MAX_INT64
    && p.canonicalBytes == Wrapped(2 * BLOCK + Length(entries[..i]))
    && p.vaultFiles as int == if i <= 2 then 0 else i - 2
  }

  /** The byte counter is exact wherever the archive limit leaves room for one more header,
      and where it wraps around it is negative, so that it equals no position in the stream. */
  lemma WrapsHarmlessly(c: Config, entries: seq<Entry>, size: nat)
    requires size <= MAX_SIZE && Length(entries) <= c.maxArchive as int + 1 <= MAX_INT64
    ensures var sum := 2 * BLOCK + Length(entries) + Blocks(size);
            && (c.maxArchive as int <= MAX_INT64 - MAX_SIZE - 4 * BLOCK ==> Wrapped(sum) as int == sum)
            && (Wrapped(sum) as int != sum ==> Wrapped(sum) < 0)
  {
    assert (size + 511) / 512 * 512 <= size + 511;
  }

  lemma {:induction false} ManyEntriesAreLong(entries: seq<Entry>)
    ensures Length(entries) >= BLOCK * |entries|
  {
    if entries != [] { ManyEntriesAreLong(entries[..|entries| - 1]); }
  }

  /** One round of the loop for a header of `size` bytes: the counters, then the checks. */
  method Header(c: Config, p: Progress, name: string, canonical: bool, size: nat, previous: string)
    returns (next: Progress, verdict: Option<Verdict>)
    requires Configured(c) && size <= MAX_SIZE
    requires 0 <= BLOCK * p.fileCount as int <= MAX_INT64 && 0 <= p.extracted <= c.maxExtracted
    requires 0 <= p.vaultFiles <= p.fileCount
    ensures verdict.None? <==>
              && p.fileCount as int + 1 <= c.maxFiles as int
              && HeaderOk(name, canonical, p.fileCount as int + 1, previous)
              && size <= c.maxFile as int && size <= PerPathLimit(name)
              && p.extracted as int + size <= c.maxExtracted as int
    ensures verdict.Some? ==> !verdict.value.Received?
    ensures verdict == Some(OverLimit) <==>
              || p.fileCount as int + 1 > c.maxFiles as int
              || (HeaderOk(name, canonical, p.fileCount as int + 1, previous)
                  && (size > c.maxFile as int || size > PerPathLimit(name)
                      || p.extracted as int + size > c.maxExtracted as int))
    ensures verdict.None? ==>
              && next.fileCount as int == p.fileCount as int + 1
              && next.extracted as int == p.extracted as int + size
              && next.canonicalBytes == Wrapped(p.canonicalBytes as int + Blocks(size))
              && next.vaultFiles as int ==
                   p.vaultFiles as int + if name in {"request.json", "snapshot.json"} then 0 else 1
  {
    next, verdict := p, None;
    var fileCount := p.fileCount + 1;
    if fileCount > c.maxFiles { return p, Some(OverLimit); }
    if !HeaderOk(name, canonical, fileCount as int, previous) { return p, Some(Invalid); }
    var headerSize := size as int64;
    var canonicalBytes := Wrapped(p.canonicalBytes as int + 512 + (size + 511) / 512 * 512);
    if headerSize > c.maxFile || size > PerPathLimit(name) { return p, Some(OverLimit); }
    if headerSize > c.maxExtracted - p.extracted { return p, Some(OverLimit); }
    next := Progress(fileCount, p.extracted + headerSize, canonicalBytes,
                     if name in {"request.json", "snapshot.json"} then p.vaultFiles else p.vaultFiles + 1);
  }

  /** The entries pass every check and are all within what the limited reader delivers. */
  predicate EntriesFit(c: Config, k: Codec, entries: seq<Entry>) {
    && (forall i :: 0 <= i < |entries| ==> EntryOk(c, k, entries, i))
    && Length(entries) <= c.maxArchive as int + 1
  }

  /** Where the loop stands before entry `i`. */
  predicate At(c: Config, k: Codec, entries: seq<Entry>, i: nat, p: Progress, remaining: int64)
    requires i <= |entries|
  {
    && Counts(p, entries, i)
    && EntriesFit(c, k, entries[..i])
    && remaining as int == c.maxArchive as int + 1 - Length(entries[..i])
    && p.extracted <= c.maxExtracted && p.vaultFiles <= p.fileCount
  }

  /** Whether an entry passes depends on it and those before it. */
  lemma EntryInPrefix(c: Config, k: Codec, entries: seq<Entry>, n: nat, j: nat)
    requires j < n <= |entries|
    ensures EntryOk(c, k, entries[..n], j) <==> EntryOk(c, k, entries, j)
  {
    assert entries[..n][..j + 1] == entries[..j + 1];
  }

  lemma PrefixFits(c: Config, k: Codec, entries: seq<Entry>, i: nat)
    requires i < |entries|
    ensures EntriesFit(c, k, entries[..i + 1]) <==>
              && EntriesFit(c, k, entries[..i])
              && EntryOk(c, k, entries, i)
              && Length(entries[..i]) + Blocks(|entries[i].content|) <= c.maxArchive as int + 1
    ensures EntriesFit(c, k, entries) ==> EntriesFit(c, k, entries[..i + 1])
    ensures Length(entries[..i + 1]) == Length(entries[..i]) + Blocks(|entries[i].content|)
    ensures Extracted(entries[..i + 1]) == Extracted(entries[..i]) + |entries[i].content|
  {
    var a, b := entries[..i], entries[..i + 1];
    assert b[..i] == a;
    forall j | 0 <= j <= i ensures EntryOk(c, k, b, j) <==> EntryOk(c, k, entries, j) {
      EntryInPrefix(c, k, entries, i + 1, j);
    }
    forall j | 0 <= j < i ensures EntryOk(c, k, a, j) <==> EntryOk(c, k, entries, j) {
      EntryInPrefix(c, k, entries, i, j);
    }
    LengthGrows(entries, i + 1);
  }

  lemma FitsMeans(c: Config, k: Codec, entries: seq<Entry>, i: nat)
    requires i <= |entries|
    ensures EntriesFit(c, k, entries[..i]) <==>
              && (forall j :: 0 <= j < i ==> EntryOk(c, k, entries, j))
              && Length(entries[..i]) <= c.maxArchive as int + 1
  {
    forall j | 0 <= j < i ensures EntryOk(c, k, entries[..i], j) <==> EntryOk(c, k, entries, j) {
      EntryInPrefix(c, k, entries, i, j);
    }
  }

  lemma PassingExceedsNothing(c: Config, k: Codec, entries: seq<Entry>, j: nat)
    requires j < |entries| && EntryOk(c, k, entries, j)
    ensures !Exceeds(c, k, entries, j)
  {
    PrefixFits(c, k, entries, j);
  }

  /** Where the loop ends with a verdict no other entry is the first to exceed a limit. */
  lemma NoOtherExceeds(c: Config, k: Codec, entries: seq<Entry>, i: nat, j: nat)
    requires i < |entries| && j < |entries| && i != j
    requires EntriesFit(c, k, entries[..i]) && !EntriesFit(c, k, entries[..i + 1])
    ensures !Exceeds(c, k, entries, j)
  {
    FitsMeans(c, k, entries, i);
    FitsMeans(c, k, entries, i + 1);
    if i < j {
      LengthGrows(entries[..j], i + 1);
      assert entries[..j][..i + 1] == entries[..i + 1];
    } else {
      PassingExceedsNothing(c, k, entries, j);
    }
  }

  lemma VaultNames(name: string)
    ensures HasPrefix(name, "vault/") ==> name !in {"request.json", "snapshot.json"}
  {
    assert "vault/"[0] == 'v' && "request.json"[0] == 'r' && "snapshot.json"[0] == 's';
  }

  /** The loop moves on over an entry that fits. */
  lemma OneMoreEntry(c: Config, k: Codec, entries: seq<Entry>, i: nat, p: Progress, remaining: int64,
                     next: Progress, left: int64)
    requires Configured(c) && c.maxArchive as int < MAX_INT64 && i < |entries| && |entries[i].content| <= MAX_SIZE
    requires At(c, k, entries, i, p, remaining) && EntriesFit(c, k, entries[..i + 1])
    requires next.fileCount as int == p.fileCount as int + 1
    requires next.extracted as int == p.extracted as int + |entries[i].content| <= c.maxExtracted as int
    requires next.canonicalBytes == Wrapped(p.canonicalBytes as int + Blocks(|entries[i].content|))
    requires next.vaultFiles as int ==
               p.vaultFiles as int + if entries[i].name in {"request.json", "snapshot.json"} then 0 else 1
    requires left as int == remaining as int - Blocks(|entries[i].content|)
    ensures At(c, k, entries, i + 1, next, left)
  {
    PrefixFits(c, k, entries, i);
    VaultNames(entries[i].name);
  }

  /** One complete entry: header, body, padding. */
  method ReadEntry(c: Config, k: Codec, entries: seq<Entry>, i: nat, p: Progress, remaining: int64)
    returns (next: Progress, left: int64, verdict: Option<Verdict>)
    requires Configured(c) && c.maxArchive as int < MAX_INT64 && i < |entries| && |entries[i].content| <= MAX_SIZE
    requires At(c, k, entries, i, p, remaining)
    ensures verdict.None? <==> EntriesFit(c, k, entries[..i + 1])
    ensures verdict.None? ==> At(c, k, entries, i + 1, next, left)
    ensures verdict.Some? ==> !verdict.value.Received?
    ensures verdict == Some(OverLimit) <==>
              Exceeds(c, k, entries, i) || Length(entries[..i]) == c.maxArchive as int + 1
  {
    var e := entries[i];
    PrefixFits(c, k, entries, i);
    FitsMeans(c, k, entries, i);
    ManyEntriesAreLong(entries[..i]);
    next, left := p, remaining;
    if remaining < 512 { return next, left, Some(if remaining == 0 then OverLimit else Invalid); }
    next, verdict := Header(c, p, e.name, e.canonical, |e.content|, Previous(entries, i));
    if verdict.Some? { return; }
    var body := Blocks(|e.content|) as int64;
    if body > remaining || (i == 0 && k.decode(e.content).None?) { return next, left, Some(Invalid); }
    left := remaining - body;
    OneMoreEntry(c, k, entries, i, p, remaining, next, left);
  }

  /** The entry loop: it ends without a verdict exactly when every entry passes and the
      limited reader delivers them all. */
  method ReadEntries(c: Config, k: Codec, entries: seq<Entry>)
    returns (p: Progress, remaining: int64, verdict: Option<Verdict>)
    requires Configured(c) && c.maxArchive as int < MAX_INT64 && forall e <- entries :: |e.content| <= MAX_SIZE
    ensures verdict.None? <==> EntriesFit(c, k, entries)
    ensures verdict.None? ==> At(c, k, entries, |entries|, p, remaining)
    ensures verdict.Some? ==> !verdict.value.Received?
    ensures verdict == Some(OverLimit) ==>
              exists i :: 0 <= i < |entries| &&
                          (Exceeds(c, k, entries, i) || Length(entries[..i]) == c.maxArchive as int + 1)
    ensures forall i :: 0 <= i < |entries| && Exceeds(c, k, entries, i) ==> verdict == Some(OverLimit)
  {
    p, remaining, verdict := Progress(0, 0, 1024, 0), c.maxArchive + 1, None;
    for i := 0 to |entries|
      invariant verdict.None? && At(c, k, entries, i, p, remaining)
    {
      PrefixFits(c, k, entries, i);
      p, remaining, verdict := ReadEntry(c, k, entries, i, p, remaining);
      if verdict.Some? {
        forall j | 0 <= j < |entries| && j != i ensures !Exceeds(c, k, entries, j) {
          NoOtherExceeds(c, k, entries, i, j);
        }
        return;
      }
    }
    assert entries[..|entries|] == entries;
    FitsMeans(c, k, entries, |entries|);
    forall j | 0 <= j < |entries| ensures !Exceeds(c, k, entries, j) { PassingExceedsNothing(c, k, entries, j); }
  }

  /** A header whose body is cut short: its size still goes through the counters. */
  method ReadTruncated(c: Config, a: Archive, p: Progress, remaining: int64) returns (verdict: Verdict)
    requires Configured(c) && c.maxArchive as int < MAX_INT64 && a.ending.Truncated? && a.ending.size <= MAX_SIZE
    requires Counts(p, a.entries, |a.entries|) && 0 <= remaining as int == c.maxArchive as int + 1 - Length(a.entries)
    requires p.extracted <= c.maxExtracted && p.vaultFiles <= p.fileCount
    ensures !verdict.Received? && (WithinLimits(c, a) ==> verdict == Invalid)
  {
    assert a.entries[..|a.entries|] == a.entries;
    ManyEntriesAreLong(a.entries);
    if remaining < 512 { return if remaining == 0 then OverLimit else Invalid; }
    var previous := Previous(a.entries, |a.entries|);
    var next, refused := Header(c, p, a.ending.name, a.ending.canonical, a.ending.size, previous);
    verdict := if refused.Some? then refused.value else Invalid;
  }

  /** The end marker is delivered, and with what follows it the stream is too long. */
  predicate TooLong(c: Config, a: Archive) {
    && Length(a.entries) + 2 * BLOCK <= c.maxArchive as int + 1
    && Length(a.entries) + EndLength(a.ending) > c.maxArchive as int
  }

  /** The checks after the loop. */
  method Finish(c: Config, k: Codec, a: Archive, p: Progress, remaining: int64) returns (verdict: Verdict)
    requires Configured(c) && c.maxArchive as int < MAX_INT64 && Encodable(a)
    requires EntriesFit(c, k, a.entries) && At(c, k, a.entries, |a.entries|, p, remaining)
    ensures verdict.Received? <==> Acceptable(c, k, a)
    ensures Acceptable(c, k, a) ==> verdict == Received(ReceiptOf(k, a))
    ensures WithinLimits(c, a) ==> verdict != OverLimit
    ensures a.ending.Marked? && TooLong(c, a) ==> verdict == OverLimit
  {
    assert a.entries[..|a.entries|] == a.entries;
    if a.ending.Unreadable? { return Invalid; }
    if a.ending.Truncated? {
      verdict := ReadTruncated(c, a, p, remaining);
      return;
    }
    var marker: int64 := if a.ending.Marked? then 1024 else if a.ending.HalfMarked? then 512 else 0;
    if marker > remaining { return if remaining == 0 || remaining == 512 then OverLimit else Invalid; }
    var endMarkerBytes := c.maxArchive + 1 - remaining + marker;
    var room := remaining - marker;
    var tail := if a.ending.Marked? then a.ending.tail else [];
    var extra := if |tail| <= room as int then tail else tail[..room as int];
    if endMarkerBytes + |extra| as int64 > c.maxArchive { return OverLimit; }
    assert extra == tail;
    if endMarkerBytes != p.canonicalBytes { return Invalid; }
    var expectedPadding := (10240 - endMarkerBytes % 10240) % 10240;
    if (|extra| != 0 && |extra| != expectedPadding as int) || !(forall zero <- extra :: zero) { return Invalid; }
    if p.fileCount < 3 || p.vaultFiles == 0 { return Invalid; }
    assert EntryOk(c, k, a.entries, 0);
    if k.decode(a.entries[0].content).value.manifest != a.entries[1].content { return Invalid; }
    verdict := Received(ReceiptOf(k, a));
  }

  lemma WithinExceedsNothing(c: Config, k: Codec, a: Archive, i: nat)
    requires WithinLimits(c, a) && i < |a.entries|
    ensures !Exceeds(c, k, a.entries, i) && Length(a.entries[..i]) <= c.maxArchive as int
  {
    LengthGrows(a.entries, i);
    LengthGrows(a.entries, i + 1);
    PrefixFits(c, k, a.entries, i);
    assert a.entries[i] in a.entries;
  }

  /** receiveArchive accepts exactly the acceptable archives, whatever the stream, under
      every archive limit but the largest, whose successor wraps around to a reader that
      delivers nothing.  Of a refused one it blames a limit only if some limit is exceeded,
      and always if that is the first thing wrong with it. */
  method ReceiveArchive(c: Config, k: Codec, a: Archive) returns (verdict: Verdict)
    requires Configured(c) && Encodable(a)
    ensures verdict.Received? <==> Acceptable(c, k, a) && c.maxArchive as int < MAX_INT64
    ensures verdict.Received? ==> verdict == Received(ReceiptOf(k, a))
    ensures WithinLimits(c, a) ==> verdict != OverLimit
    ensures forall i :: 0 <= i < |a.entries| && Exceeds(c, k, a.entries, i) && c.maxArchive as int < MAX_INT64 ==>
              verdict == OverLimit
    ensures EntriesFit(c, k, a.entries) && a.ending.Marked? && TooLong(c, a) && c.maxArchive as int < MAX_INT64 ==>
              verdict == OverLimit
  {
    forall i | 0 <= i < |a.entries| && WithinLimits(c, a)
      ensures !Exceeds(c, k, a.entries, i) && Length(a.entries[..i]) <= c.maxArchive as int
    {
      WithinExceedsNothing(c, k, a, i);
    }
    var limit := Wrapped(c.maxArchive as int + 1);
    if limit <= 0 { return Invalid; }
    var p, remaining, refused := ReadEntries(c, k, a.entries);
    if refused.Some? { return refused.value; }
    verdict := Finish(c, k, a, p, remaining);
  }
}
