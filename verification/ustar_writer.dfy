/** write_submission_archive, and why the receiver accepts and the processor confirms what
    it writes (src/homeops_ai/snapshot.py:382-424, src/homeops_ai/pipeline.py:1530-1620). */
module UstarWriter {
  import opened Wrappers
  import opened Ordering
  import opened Ustar
  import UstarReceiver

  datatype Item = Item(path: string, content: string)

  datatype Manifest = Manifest(content: string, snapshotId: string, items: seq<Item>)

  /** What validate_snapshot_manifest promises of an inventory. */
  predicate ManifestOk(m: Manifest) {
    && (forall i <- m.items :: SafePath(i.path))
    && (forall i, j :: 0 <= i < j < |m.items| ==> m.items[i].path != m.items[j].path)
  }

  /** Valid requests are read back as written, and as long whatever token they carry. */
  ghost predicate CodecOk(k: Codec) {
    && (forall r | ValidRequest(k, r) :: k.decode(k.render(r)) == Some(r))
    && (forall r, t | ValidRequest(k, r) && IsToken(t) :: |k.render(r.(token := t))| == |k.render(r)|)
  }

  // ------------------------------------------------------------------
  // Paths and order under the vault prefix.
  // ------------------------------------------------------------------

  lemma {:induction false} ComponentsOfJoin(a: string, b: string)
    requires forall i :: 0 <= i < |a| ==> a[i] != '/'
    ensures Components(a + "/" + b) == [a] + Components(b)
    ensures Components(b) != []
  {
    if a == "" {
      assert (a + "/" + b)[1..] == b;
    } else {
      assert (a + "/" + b)[1..] == a[1..] + "/" + b;
      ComponentsOfJoin(a[1..], b);
      assert [a[0]] + a[1..] == a;
    }
  }

  lemma VaultPathSafe(p: string)
    ensures SafePath("vault/" + p) <==> SafePath(p)
    ensures SafePath(p) ==> "vault/" + p != "vault/"
  {
    assert "vault/" + p == "vault" + "/" + p;
    ComponentsOfJoin("vault", p);
    var whole := Components("vault/" + p);
    assert forall part :: part in whole <==> part == "vault" || part in Components(p);
    assert forall c :: c in "vault/" + p <==> c in "vault/" || c in p;
    if p == "" { assert Components(p) == [""]; assert "" in Components(p); }
  }

  lemma {:induction false} LessUnderPrefix(prefix: string, a: string, b: string)
    ensures Less(prefix + a, prefix + b) <==> Less(a, b)
  {
    if prefix == "" {
      assert prefix + a == a && prefix + b == b;
    } else {
      assert (prefix + a)[1..] == prefix[1..] + a && (prefix + b)[1..] == prefix[1..] + b;
      LessUnderPrefix(prefix[1..], a, b);
    }
  }

  // ------------------------------------------------------------------
  // Writing.
  // ------------------------------------------------------------------

  function VaultEntry(i: Item): Entry {
    Entry("vault/" + i.path, true, i.content)
  }

  predicate SortedByName(es: seq<Entry>) {
    forall i, j :: 0 <= i < j < |es| ==> Less(es[i].name, es[j].name)
  }

  function InsertByName(es: seq<Entry>, e: Entry): (r: seq<Entry>)
    requires SortedByName(es) && forall x <- es :: x.name != e.name
    ensures SortedByName(r) && |r| == |es| + 1
    ensures forall x :: x in r <==> x in es || x == e
  {
    if es == [] then [e]
    else if Less(e.name, es[0].name) then
      assert forall i :: 0 < i < |es| ==> Less(e.name, es[i].name) by {
        forall i | 0 < i < |es| ensures Less(e.name, es[i].name) { LessIsTransitive(e.name, es[0].name, es[i].name); }
      }
      [e] + es
    else
      LessIsTotal(e.name, es[0].name);
      var rest := InsertByName(es[1..], e);
      assert forall x <- rest :: Less(es[0].name, x.name) by {
        forall x <- rest ensures Less(es[0].name, x.name) {
          if x != e { var i :| 0 <= i < |es[1..]| && es[1..][i] == x; assert es[i + 1] == x; }
        }
      }
      [es[0]] + rest
  }

  /** The sorted vault entries hold exactly the inventory. */
  ghost predicate VaultEntries(m: Manifest, es: seq<Entry>) {
    && SortedByName(es)
    && |es| == |m.items|
    && forall e :: e in es <==> exists i :: i in m.items && e == VaultEntry(i)
  }

  method SortVault(items: seq<Item>) returns (es: seq<Entry>)
    requires forall i, j :: 0 <= i < j < |items| ==> items[i].path != items[j].path
    ensures SortedByName(es) && |es| == |items|
    ensures forall e :: e in es <==> exists i :: i in items && e == VaultEntry(i)
  {
    es := [];
    for n := 0 to |items|
      invariant SortedByName(es) && |es| == n
      invariant forall e :: e in es <==> exists j :: 0 <= j < n && e == VaultEntry(items[j])
    {
      forall x <- es ensures x.name != VaultEntry(items[n]).name {
        var j :| 0 <= j < n && x == VaultEntry(items[j]);
        assert items[j].path != items[n].path;
        assert ("vault/" + items[j].path)[6..] == items[j].path && ("vault/" + items[n].path)[6..] == items[n].path;
      }
      es := InsertByName(es, VaultEntry(items[n]));
    }
    forall e ensures e in es <==> exists i :: i in items && e == VaultEntry(i) {
      if e in es {
        var j :| 0 <= j < |items| && e == VaultEntry(items[j]);
        assert items[j] in items;
      }
      if i :| i in items && e == VaultEntry(i) {
        var j :| 0 <= j < |items| && items[j] == i;
      }
    }
  }

  /** What the writer emits for a request and its manifest. */
  ghost predicate Written(k: Codec, r: Request, m: Manifest, a: Archive) {
    && ValidRequest(k, r)
    && |a.entries| == |m.items| + 2
    && a.entries[0] == Entry("request.json", true, k.render(r))
    && a.entries[1] == Entry("snapshot.json", true, m.content)
    && VaultEntries(m, a.entries[2..])
    && a.ending == Marked(seq(Padding(Length(a.entries) + 2 * BLOCK), i => true))
  }

  /** write_submission_archive; None where it raises before writing. */
  method WriteSubmission(k: Codec, r: Request, m: Manifest) returns (a: Option<Archive>)
    requires ManifestOk(m)
    ensures a.Some? <==>
              && |r.token| == 64 && (forall c <- r.token :: c in "0123456789abcdef") && k.fieldsOk(r)
              && r.manifest == m.content && r.snapshotId == m.snapshotId
    ensures a.Some? ==> Written(k, r, m, a.value)
  {
    if !ValidRequest(k, r) || r.manifest != m.content || r.snapshotId != m.snapshotId { return None; }
    var vault := SortVault(m.items);
    var entries := [Entry("request.json", true, k.render(r)), Entry("snapshot.json", true, m.content)] + vault;
    assert entries[2..] == vault;
    a := Some(Archive(entries, Marked(seq(Padding(Length(entries) + 2 * BLOCK), i => true))));
  }

  // ------------------------------------------------------------------
  // The receiver accepts it.
  // ------------------------------------------------------------------

  /** A non-empty vault within every configured limit. */
  predicate Fits(c: Config, entries: seq<Entry>) {
    && 3 <= |entries| <= c.maxFiles as int
    && (forall e <- entries :: |e.content| <= c.maxFile as int && |e.content| <= PerPathLimit(e.name))
    && Extracted(entries) <= c.maxExtracted as int
    && Length(entries) + 2 * BLOCK + Padding(Length(entries) + 2 * BLOCK) <= c.maxArchive as int
  }

  lemma HeadersOk(k: Codec, r: Request, m: Manifest, a: Archive, i: nat)
    requires ManifestOk(m) && Written(k, r, m, a) && i < |a.entries|
    ensures HeaderOk(a.entries[i].name, a.entries[i].canonical, i + 1, Previous(a.entries, i))
  {
    FixedPathsSafe(a.entries[0].name, a.entries[1].name);
    var vault := a.entries[2..];
    if i >= 2 {
      assert vault[i - 2] == a.entries[i] && vault[i - 2] in vault;
      var item :| item in m.items && a.entries[i] == VaultEntry(item);
      VaultPathSafe(item.path);
      assert a.entries[i].name[..6] == "vault/";
      if i == 2 {
        assert "snapshot.json"[0] == 's' && a.entries[2].name[0] == 'v';
      } else {
        assert vault[i - 3] == a.entries[i - 1];
      }
    }
  }

  lemma {:induction false} NoSlash(p: string)
    requires forall i :: 0 <= i < |p| ==> p[i] != '/'
    ensures Components(p) == [p]
  {
    if p != "" {
      NoSlash(p[1..]);
      assert [p[0]] + p[1..] == p;
    }
  }

  lemma PlainPathSafe(p: string)
    requires Printable(p) && p !in {"", ".", ".."} && forall i :: 0 <= i < |p| ==> p[i] != '/'
    ensures SafePath(p)
  {
    NoSlash(p);
  }

  lemma FixedPathsSafe(request: string, snapshot: string)
    requires request == "request.json" && snapshot == "snapshot.json"
    ensures SafePath(request) && SafePath(snapshot) && Less(request, snapshot)
  {
    PlainPathSafe(request);
    PlainPathSafe(snapshot);
    assert request[0] == 'r' && snapshot[0] == 's';
  }

  /** The receiver accepts what the writer emits exactly when the vault is not empty and
      everything is within its limits. */
  lemma WrittenIsAcceptable(c: Config, k: Codec, r: Request, m: Manifest, a: Archive)
    requires CodecOk(k) && ManifestOk(m) && Written(k, r, m, a) && r.manifest == m.content
    ensures Acceptable(c, k, a) <==> Fits(c, a.entries)
  {
    var es := a.entries;
    forall i | 0 <= i < |es|
      ensures Fits(c, es) ==> EntryOk(c, k, es, i)
    {
      HeadersOk(k, r, m, a, i);
      LengthGrows(es, i + 1);
      assert es[i] in es;
    }
    if Acceptable(c, k, a) {
      forall e <- es ensures |e.content| <= c.maxFile as int && |e.content| <= PerPathLimit(e.name) {
        var i :| 0 <= i < |es| && es[i] == e;
        assert EntryOk(c, k, es, i);
      }
      assert EntryOk(c, k, es, |es| - 1);
      assert es[..|es|] == es;
    }
  }

  // ------------------------------------------------------------------
  // The processor confirms it.
  // ------------------------------------------------------------------

  const ZERO_TOKEN := seq(64, i => '0')

  function TotalSize(proofs: seq<Proof>): nat {
    if proofs == [] then 0 else TotalSize(proofs[..|proofs| - 1]) + proofs[|proofs| - 1].size
  }

  /** A path has one proof, of this size and digest. */
  predicate Proves(proofs: seq<Proof>, path: string, size: nat, digest: string) {
    exists p :: p in proofs && p == Proof(path, size, digest)
  }

  /** The identity, count and byte checks of _validate_untrusted_payload over the receipt,
      the stored request and the stored manifest. */
  predicate PayloadPasses(k: Codec, receipt: Receipt, request: Request, m: Manifest) {
    var files := receipt.files;
    && receipt.request == request.(token := receipt.request.token)
    && (forall i, j :: 0 <= i < j < |files| ==> files[i].path != files[j].path)
    && (set p | p in files :: p.path) == {"request.json", "snapshot.json"} + (set i | i in m.items :: "vault/" + i.path)
    && (forall p <- files :: p.path == "request.json" ==> p.size == |k.render(request.(token := ZERO_TOKEN))|)
    && Proves(files, "snapshot.json", |m.content|, m.content)
    && (forall i <- m.items :: Proves(files, "vault/" + i.path, |i.content|, i.content))
    && receipt.vaultFileCount == |m.items|
    && receipt.fileCount == |files|
    && TotalSize(files) == receipt.extractedBytes
    && receipt.fileCount == |m.items| + 2
    && receipt.archiveBytes >= receipt.extractedBytes
  }

  lemma {:induction false} ProofsAddUp(entries: seq<Entry>)
    ensures TotalSize(ProofsOf(entries)) == Extracted(entries) <= Length(entries)
  {
    if entries != [] {
      var n := |entries| - 1;
      ProofsAddUp(entries[..n]);
      assert ProofsOf(entries)[..n] == ProofsOf(entries[..n]);
    }
  }

  /** Every entry is one of the two fixed ones or an inventory item, and each of those is
      an entry. */
  lemma EntriesCover(k: Codec, r: Request, m: Manifest, a: Archive, e: Entry)
    requires Written(k, r, m, a)
    ensures e in a.entries <==>
              e == a.entries[0] || e == a.entries[1] || exists i :: i in m.items && e == VaultEntry(i)
  {
    assert a.entries == a.entries[..2] + a.entries[2..];
    assert a.entries[..2] == [a.entries[0], a.entries[1]];
  }

  lemma ProofIn(entries: seq<Entry>, e: Entry)
    ensures e in entries ==> Proves(ProofsOf(entries), e.name, |e.content|, e.content)
    ensures forall p <- ProofsOf(entries) :: exists x :: x in entries && p == Proof(x.name, |x.content|, x.content)
  {
    var proofs := ProofsOf(entries);
    if e in entries {
      var i :| 0 <= i < |entries| && entries[i] == e;
      assert proofs[i] == Proof(e.name, |e.content|, e.content) && proofs[i] in proofs;
    }
    forall p <- proofs ensures exists x :: x in entries && p == Proof(x.name, |x.content|, x.content) {
      var i :| 0 <= i < |proofs| && proofs[i] == p;
      assert entries[i] in entries;
    }
  }

  lemma NamesDistinct(k: Codec, r: Request, m: Manifest, a: Archive)
    requires ManifestOk(m) && Written(k, r, m, a)
    ensures forall i, j :: 0 <= i < j < |a.entries| ==> a.entries[i].name != a.entries[j].name
  {
    forall i, j | 0 <= i < j < |a.entries| ensures a.entries[i].name != a.entries[j].name {
      assert "request.json"[0] == 'r' && "snapshot.json"[0] == 's' && "vault/"[0] == 'v';
      if j >= 2 {
        assert a.entries[2..][j - 2] in a.entries[2..];
        var item :| item in m.items && a.entries[j] == VaultEntry(item);
        if i >= 2 {
          assert Less(a.entries[2..][i - 2].name, a.entries[2..][j - 2].name);
          LessIsTotal(a.entries[i].name, a.entries[j].name);
        }
      }
    }
  }

  lemma PathsCover(k: Codec, r: Request, m: Manifest, a: Archive)
    requires Written(k, r, m, a)
    ensures (set p | p in ProofsOf(a.entries) :: p.path)
         == {"request.json", "snapshot.json"} + (set i | i in m.items :: "vault/" + i.path)
  {
    var paths := set p | p in ProofsOf(a.entries) :: p.path;
    var expected := {"request.json", "snapshot.json"} + (set i | i in m.items :: "vault/" + i.path);
    forall x | x in paths ensures x in expected {
      var p :| p in ProofsOf(a.entries) && p.path == x;
      ProofIn(a.entries, a.entries[0]);
      var e :| e in a.entries && p == Proof(e.name, |e.content|, e.content);
      EntriesCover(k, r, m, a, e);
    }
    ProofIn(a.entries, a.entries[0]);
    ProofIn(a.entries, a.entries[1]);
    forall i <- m.items ensures "vault/" + i.path in paths {
      EntriesCover(k, r, m, a, VaultEntry(i));
      ProofIn(a.entries, VaultEntry(i));
    }
  }

  /** The receipt of every accepted submission passes all the processor's checks against
      the request and manifest it was written from. */
  lemma ReceiptPasses(k: Codec, r: Request, m: Manifest, a: Archive)
    requires CodecOk(k) && ManifestOk(m) && Written(k, r, m, a)
    requires |a.entries| >= 3
    ensures k.decode(a.entries[0].content).Some?
    ensures PayloadPasses(k, ReceiptOf(k, a), r, m)
  {
    var proofs := ProofsOf(a.entries);
    assert IsToken(ZERO_TOKEN);
    NamesDistinct(k, r, m, a);
    PathsCover(k, r, m, a);
    ProofsAddUp(a.entries);
    ProofIn(a.entries, a.entries[1]);
    forall i <- m.items ensures Proves(proofs, "vault/" + i.path, |i.content|, i.content) {
      EntriesCover(k, r, m, a, VaultEntry(i));
      ProofIn(a.entries, VaultEntry(i));
    }
    forall p <- proofs ensures p.path == "request.json" ==> p.size == |k.render(r.(token := ZERO_TOKEN))| {
      var i :| 0 <= i < |proofs| && proofs[i] == p;
      if i != 0 { assert a.entries[0].name != a.entries[i].name; }
    }
  }

  lemma SumsOfThree(es: seq<Entry>)
    requires |es| == 3
    ensures Length(es) == Blocks(|es[0].content|) + Blocks(|es[1].content|) + Blocks(|es[2].content|)
    ensures Extracted(es) == |es[0].content| + |es[1].content| + |es[2].content|
  {
    var two, one := es[..2], es[..1];
    assert two[..1] == one && one[..0] == [];
    assert Length(one) == Blocks(|es[0].content|) && Extracted(one) == |es[0].content|;
    assert Length(two) == Length(one) + Blocks(|es[1].content|) && Extracted(two) == Extracted(one) + |es[1].content|;
  }

  lemma SmallNamesSafe(a: string, vaultA: string)
    requires a == "a" && vaultA == "vault/" + a
    ensures SafePath(vaultA) && vaultA != "vault/" && HasPrefix(vaultA, "vault/") && vaultA[0] == 'v'
  {
    PlainPathSafe(a);
    VaultPathSafe(a);
  }

  predicate LargestLimits(c: Config) {
    c.maxArchive as int == c.maxFile as int == c.maxExtracted as int == c.maxFiles as int == UstarReceiver.MAX_INT64
  }

  /** A request, its manifest and one empty vault file. */
  function SmallArchive(request: string, manifest: string): Archive {
    Archive([Entry("request.json", true, request), Entry("snapshot.json", true, manifest),
             Entry("vault/" + "a", true, "")], Marked([]))
  }

  /** A request that decodes to one for the manifest beside it, both within their limits. */
  predicate SmallRequest(k: Codec, request: string, manifest: string) {
    && k.decode(request).Some? && k.decode(request).value.manifest == manifest
    && |request| <= REQUEST_FILE_MAX && |manifest| <= SNAPSHOT_MANIFEST_MAX
  }

  /** Every check admits it under the largest limits. */
  lemma SmallArchiveAcceptable(c: Config, k: Codec, request: string, manifest: string, a: Archive)
    requires LargestLimits(c) && SmallRequest(k, request, manifest) && a == SmallArchive(request, manifest)
    ensures Configured(c) && Encodable(a) && Acceptable(c, k, a)
  {
    var es := a.entries;
    FixedPathsSafe(es[0].name, es[1].name);
    SmallNamesSafe("a", es[2].name);
    assert es[1].name[0] == 's';
    SumsOfThree(es);
    forall i | 0 <= i < 3 ensures EntryOk(c, k, es, i) {
      LengthGrows(es, i + 1);
    }
  }

  /** And the receiver refuses it there all the same. */
  method LargestLimitRefuses(c: Config, k: Codec, request: string, manifest: string)
    returns (verdict: UstarReceiver.Verdict)
    requires LargestLimits(c) && SmallRequest(k, request, manifest)
    ensures Acceptable(c, k, SmallArchive(request, manifest)) && !verdict.Received?
  {
    var a := SmallArchive(request, manifest);
    SmallArchiveAcceptable(c, k, request, manifest, a);
    verdict := UstarReceiver.ReceiveArchive(c, k, a);
  }

  /** End to end: a submission written for a request and its manifest is received exactly
      when it fits the limits (and the archive limit is not the largest integer), and then
      the processor confirms its receipt. */
  method Submit(c: Config, k: Codec, r: Request, m: Manifest) returns (archive: Archive, receipt: Option<Receipt>)
    requires Configured(c) && CodecOk(k) && ManifestOk(m) && ValidRequest(k, r)
    requires r.manifest == m.content && r.snapshotId == m.snapshotId
    requires |k.render(r)| <= MAX_SIZE && |m.content| <= MAX_SIZE && forall i <- m.items :: |i.content| <= MAX_SIZE
    ensures Written(k, r, m, archive)
    ensures receipt.Some? <==> Fits(c, archive.entries) && c.maxArchive as int < UstarReceiver.MAX_INT64
    ensures receipt.Some? ==> PayloadPasses(k, receipt.value, r, m)
  {
    var a := WriteSubmission(k, r, m);
    archive := a.value;
    forall e <- archive.entries ensures |e.content| <= MAX_SIZE { EntriesCover(k, r, m, archive, e); }
    var verdict := UstarReceiver.ReceiveArchive(c, k, archive);
    WrittenIsAcceptable(c, k, r, m, archive);
    receipt := if verdict.Received? then Some(verdict.receipt) else None;
    if Fits(c, archive.entries) { ReceiptPasses(k, r, m, archive); }
  }
}
