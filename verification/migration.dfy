/** Planning, applying and restoring a migration (src/homeops_ai/migration.py:248-436).

    Parsing and rendering are parameters; file bytes stand for their own hash. */
module Migration {
  import opened Wrappers
  import opened MigrationTransform

  datatype Note = Note(frontmatter: Frontmatter, body: string)

  /** How notes are read, written and recognised. */
  datatype Codec = Codec(parse: string -> Option<Note>, render: Note -> string, canonical: string -> bool)

  ghost predicate RoundTrips(c: Codec) {
    forall n :: c.parse(c.render(n)) == Some(n)
  }

  datatype Source = Source(path: string, kind: Kind)

  /** _transform on a file: its new bytes and its ID. */
  datatype FileOutcome = Unreadable | BadId | File(after: string, id: string)

  function TransformFile(c: Codec, bytes: string, kind: Kind, proposed: string): FileOutcome {
    match c.parse(bytes)
    case None => Unreadable
    case Some(note) =>
      match Transform(note.frontmatter, kind, proposed, c.canonical)
      case InvalidId => BadId
      case Migrated(g, changes) =>
        File(if changes == [] then bytes else c.render(note.(frontmatter := g)),
             if g.id.Some? then g.id.value.text else proposed)
  }

  /** A file is refused exactly if it cannot be parsed, or carries an ID that is no canonical
      UUIDv4 string. */
  lemma FileRefused(c: Codec, bytes: string, kind: Kind, proposed: string)
    ensures TransformFile(c, bytes, kind, proposed).Unreadable? <==> c.parse(bytes).None?
    ensures TransformFile(c, bytes, kind, proposed).BadId? <==>
              && c.parse(bytes).Some?
              && var id := c.parse(bytes).value.frontmatter.id;
                 id.Some? && !(id.value.Str? && c.canonical(id.value.text))
  {
  }

  /** A migrated file is left alone by every later plan. */
  lemma FileSettles(c: Codec, bytes: string, kind: Kind, proposed: string, other: string)
    requires RoundTrips(c) && c.canonical(proposed) && TransformFile(c, bytes, kind, proposed).File?
    ensures var f := TransformFile(c, bytes, kind, proposed);
            TransformFile(c, f.after, kind, other) == f
  {
    var note := c.parse(bytes).value;
    TransformIsIdempotent(note.frontmatter, kind, proposed, other, c.canonical);
    IdStays(note.frontmatter, kind, proposed, c.canonical);
    var o := Transform(note.frontmatter, kind, proposed, c.canonical);
    if o.changes == [] {
      NoChangeMeansSame(note.frontmatter, kind, proposed, c.canonical);
    }
  }

  lemma IdStays(f: Frontmatter, kind: Kind, proposed: string, canonical: string -> bool)
    requires Transform(f, kind, proposed, canonical).Migrated?
    ensures Transform(f, kind, proposed, canonical).frontmatter.id.Some?
  {
    StatusIsKept(WithDefaults(WithId(f, proposed).frontmatter, kind).frontmatter);
    StatusIsKept(WithStatus(WithDefaults(WithId(f, proposed).frontmatter, kind).frontmatter).frontmatter);
  }

  /** An empty change list means the frontmatter is as it was. */
  lemma NoChangeMeansSame(f: Frontmatter, kind: Kind, proposed: string, canonical: string -> bool)
    requires Transform(f, kind, proposed, canonical).Migrated? && Transform(f, kind, proposed, canonical).changes == []
    ensures Transform(f, kind, proposed, canonical).frontmatter == f
  {
    var a := WithId(f, proposed);
    var b := WithDefaults(a.frontmatter, kind);
    var c := WithStatus(b.frontmatter);
    var d := WithTags(c.frontmatter);
    var e := WithAuthority(d.frontmatter);
    assert |a.changes + b.changes + c.changes + d.changes + e.changes| == 0;
    assert a.frontmatter == f && b.frontmatter == f && c.frontmatter == f && d.frontmatter == f;
  }

  // ------------------------------------------------------------------
  // The plan.
  // ------------------------------------------------------------------

  type Vault = map<string, string>

  datatype FileMigration = FileMigration(path: string, kind: Kind, before: string, after: string, id: string)

  predicate Changed(f: FileMigration) {
    f.before != f.after
  }

  /** The ID proposed for each path: from a reviewed report, or drawn. */
  type Proposals = string -> string

  /** What planning finds for one source: a file entry, or an error. */
  type Planner = Source -> Option<FileMigration>

  function PlanFile(c: Codec, vault: Vault, p: Proposals, s: Source): Option<FileMigration> {
    if s.path !in vault then None
    else
      match TransformFile(c, vault[s.path], s.kind, p(s.path))
      case File(after, id) => Some(FileMigration(s.path, s.kind, vault[s.path], after, id))
      case _ => None
  }

  function PlanOver(c: Codec, vault: Vault, p: Proposals): Planner {
    (s: Source) => PlanFile(c, vault, p, s)
  }

  predicate SourcesOk(vault: Vault, sources: seq<Source>) {
    && (forall s <- sources :: s.path in vault)
    && (forall i, j :: 0 <= i < j < |sources| ==> sources[i].path != sources[j].path)
  }

  function Items(plan: Planner, sources: seq<Source>): seq<FileMigration> {
    if sources == [] then []
    else
      var n := |sources| - 1;
      var item := plan(sources[n]);
      Items(plan, sources[..n]) + if item.Some? then [item.value] else []
  }

  /** Sources that cannot be read or carry a bad ID. */
  function Skipped(plan: Planner, sources: seq<Source>): nat {
    if sources == [] then 0
    else
      var n := |sources| - 1;
      Skipped(plan, sources[..n]) + if plan(sources[n]).None? then 1 else 0
  }

  predicate DistinctIds(files: seq<FileMigration>) {
    forall i, j :: 0 <= i < j < |files| ==> files[i].id != files[j].id
  }

  /** The plan has no errors. */
  predicate Sound(plan: Planner, sources: seq<Source>) {
    Skipped(plan, sources) == 0 && DistinctIds(Items(plan, sources))
  }

  /** plan_migration. */
  method PlanMigration(plan: Planner, sources: seq<Source>) returns (files: seq<FileMigration>, errors: nat)
    ensures files == Items(plan, sources)
    ensures errors == 0 <==> Sound(plan, sources)
  {
    files, errors := [], 0;
    var seen: map<string, string> := map[];
    for i := 0 to |sources|
      invariant files == Items(plan, sources[..i])
      invariant forall id :: id in seen <==> exists f :: f in files && f.id == id
      invariant errors == 0 <==> Skipped(plan, sources[..i]) == 0 && DistinctIds(files)
    {
      assert sources[..i + 1][..i] == sources[..i];
      var item := plan(sources[i]);
      if item.None? {
        errors := errors + 1;
      } else {
        OneMoreId(files, item.value);
        if item.value.id in seen {
          errors := errors + 1;
        } else {
          seen := seen[item.value.id := item.value.path];
        }
        files := files + [item.value];
      }
    }
    assert sources[..|sources|] == sources;
  }

  lemma OneMoreId(files: seq<FileMigration>, f: FileMigration)
    ensures DistinctIds(files + [f]) <==> DistinctIds(files) && forall g <- files :: g.id != f.id
    ensures forall g :: g in files + [f] <==> g in files || g == f
  {
    var more := files + [f];
    if DistinctIds(more) {
      forall i, j | 0 <= i < j < |files| ensures files[i].id != files[j].id { assert more[i].id != more[j].id; }
      forall g <- files ensures g.id != f.id {
        var i :| 0 <= i < |files| && files[i] == g;
        assert more[i].id != more[|files|].id;
      }
    }
  }

  /** Without skipped sources, entry and source go together. */
  lemma {:induction false} ItemsMirror(plan: Planner, sources: seq<Source>)
    requires Skipped(plan, sources) == 0
    ensures var files := Items(plan, sources);
            && |files| == |sources|
            && forall i :: 0 <= i < |files| ==> plan(sources[i]) == Some(files[i])
  {
    if sources != [] { ItemsMirror(plan, sources[..|sources| - 1]); }
  }

  lemma {:induction false} ItemsFrom(plan: Planner, sources: seq<Source>, files: seq<FileMigration>)
    requires |files| == |sources|
    requires forall i :: 0 <= i < |sources| ==> plan(sources[i]) == Some(files[i])
    ensures Items(plan, sources) == files && Skipped(plan, sources) == 0
  {
    if sources != [] {
      var n := |sources| - 1;
      ItemsFrom(plan, sources[..n], files[..n]);
      assert files == files[..n] + [files[n]];
    }
  }

  // ------------------------------------------------------------------
  // What the vault becomes.
  // ------------------------------------------------------------------

  /** The vault after the changed files among these were written. */
  function Overlay(v: Vault, files: seq<FileMigration>): Vault {
    if files == [] then v
    else
      var n := |files| - 1;
      if Changed(files[n]) then Overlay(v, files[..n])[files[n].path := files[n].after] else Overlay(v, files[..n])
  }

  predicate DistinctPaths(files: seq<FileMigration>) {
    forall i, j :: 0 <= i < j < |files| ==> files[i].path != files[j].path
  }

  /** Each entry describes the vault it was planned over. */
  predicate Describes(v: Vault, files: seq<FileMigration>) {
    DistinctPaths(files) && forall f <- files :: f.path in v && v[f.path] == f.before
  }

  /** The last entry's path is not among the earlier ones'. */
  lemma LastPathIsNew(files: seq<FileMigration>)
    requires files != [] && DistinctPaths(files)
    ensures forall f <- files[..|files| - 1] :: f.path != files[|files| - 1].path
  {
    var n := |files| - 1;
    forall f <- files[..n] ensures f.path != files[n].path {
      var j :| 0 <= j < n && files[..n][j] == f;
      assert files[j].path != files[n].path;
    }
  }

  lemma DescribesPrefix(v: Vault, files: seq<FileMigration>, n: nat)
    requires Describes(v, files) && n <= |files|
    ensures Describes(v, files[..n])
  {
    assert forall f <- files[..n] :: f in files;
  }

  lemma {:induction false} OverlayAt(v: Vault, files: seq<FileMigration>)
    requires Describes(v, files)
    ensures Overlay(v, files).Keys == v.Keys
    ensures forall f <- files :: Overlay(v, files)[f.path] == f.after
    ensures forall p <- v :: (forall f <- files :: f.path != p) ==> Overlay(v, files)[p] == v[p]
  {
    if files != [] {
      var n := |files| - 1;
      var rest, last := files[..n], files[n];
      DescribesPrefix(v, files, n);
      LastPathIsNew(files);
      OverlayAt(v, rest);
      assert last in files && Overlay(v, rest)[last.path] == last.before;
      assert forall f :: f in files <==> f in rest || f == last;
    }
  }

  /** Writing one more changed entry. */
  lemma OneMoreWritten(v: Vault, files: seq<FileMigration>, i: nat)
    requires i < |files| && Changed(files[i])
    ensures Overlay(v, files[..i + 1]) == Overlay(v, files[..i])[files[i].path := files[i].after]
  {
    assert files[..i + 1][..i] == files[..i];
  }

  /** A planner's entries keep their source's path and what the vault held there. */
  ghost predicate Faithful(plan: Planner, vault: Vault) {
    forall s :: plan(s).Some? ==>
      s.path in vault && plan(s).value.path == s.path && plan(s).value.before == vault[s.path]
  }

  lemma PlansAreFaithful(c: Codec, vault: Vault, p: Proposals)
    ensures Faithful(PlanOver(c, vault, p), vault)
  {
    forall s | PlanOver(c, vault, p)(s).Some?
      ensures var f := PlanOver(c, vault, p)(s).value; s.path in vault && f.path == s.path && f.before == vault[s.path]
    {
      assert PlanOver(c, vault, p)(s) == PlanFile(c, vault, p, s);
    }
  }

  lemma {:induction false} ItemsDescribe(plan: Planner, vault: Vault, sources: seq<Source>)
    requires SourcesOk(vault, sources) && Faithful(plan, vault)
    ensures Describes(vault, Items(plan, sources))
    ensures forall f <- Items(plan, sources) :: exists s :: s in sources && s.path == f.path
  {
    if sources != [] {
      var n := |sources| - 1;
      var rest := Items(plan, sources[..n]);
      ItemsDescribe(plan, vault, sources[..n]);
      assert sources == sources[..n] + [sources[n]];
      forall f <- rest ensures f.path != sources[n].path {
        var s :| s in sources[..n] && s.path == f.path;
        var i :| 0 <= i < n && sources[..n][i] == s;
        assert sources[i].path != sources[n].path;
      }
    }
  }

  /** The plan for one source over a vault where its migrated bytes are in place. */
  lemma SettledPlan(c: Codec, v: Vault, after: Vault, s: Source, p: Proposals, q: Proposals)
    requires RoundTrips(c) && c.canonical(p(s.path)) && PlanFile(c, v, p, s).Some?
    requires s.path in after && after[s.path] == PlanFile(c, v, p, s).value.after
    ensures var f := PlanFile(c, v, p, s).value;
            PlanOver(c, after, q)(s) == Some(FileMigration(f.path, f.kind, f.after, f.after, f.id))
  {
    FileSettles(c, v[s.path], s.kind, p(s.path), q(s.path));
  }

  function Settle(f: FileMigration): FileMigration {
    f.(before := f.after)
  }

  /** Planning again over the migrated vault finds no errors and nothing to change,
      whatever IDs it would propose. */
  lemma ReplanIsQuiet(c: Codec, v: Vault, sources: seq<Source>, p: Proposals, q: Proposals)
    requires RoundTrips(c) && SourcesOk(v, sources) && Sound(PlanOver(c, v, p), sources)
    requires forall s <- sources :: c.canonical(p(s.path))
    ensures var after := Overlay(v, Items(PlanOver(c, v, p), sources));
            && SourcesOk(after, sources) && Sound(PlanOver(c, after, q), sources)
            && forall f <- Items(PlanOver(c, after, q), sources) :: !Changed(f)
  {
    var plan := PlanOver(c, v, p);
    var files := Items(plan, sources);
    var after := Overlay(v, files);
    PlansAreFaithful(c, v, p);
    ItemsDescribe(plan, v, sources);
    ItemsMirror(plan, sources);
    OverlayAt(v, files);
    var again := seq(|files|, i requires 0 <= i < |files| => Settle(files[i]));
    forall i | 0 <= i < |sources| ensures PlanOver(c, after, q)(sources[i]) == Some(again[i]) {
      assert plan(sources[i]) == Some(files[i]) && files[i] in files && sources[i] in sources;
      SettledPlan(c, v, after, sources[i], p, q);
    }
    ItemsFrom(PlanOver(c, after, q), sources, again);
    SettledKeepIds(files, again);
  }

  lemma SettledKeepIds(files: seq<FileMigration>, again: seq<FileMigration>)
    requires DistinctIds(files) && |again| == |files|
    requires forall i :: 0 <= i < |files| ==> again[i] == Settle(files[i])
    ensures DistinctIds(again) && forall f <- again :: !Changed(f)
  {
    forall i, j | 0 <= i < j < |again| ensures again[i].id != again[j].id {
      assert files[i].id != files[j].id;
    }
  }

  // ------------------------------------------------------------------
  // Applying and restoring.
  // ------------------------------------------------------------------

  datatype Report = Report(id: string, files: seq<FileMigration>, errors: nat)

  /** What apply_migration keeps: the reviewed entries and the original bytes. */
  datatype Snapshot = Snapshot(files: seq<FileMigration>, originals: map<string, string>)

  /** What becomes of one atomic write: it is done, it raises without effect, or it raises
      although the file was replaced, where removing the temporary name fails. */
  datatype Fate = Written | FailedBefore | FailedAfter

  /** What becomes of write number `i`; nothing goes wrong past the end of the list. */
  function FateAt(fates: seq<Fate>, i: nat): Fate {
    if i < |fates| then fates[i] else Written
  }

  /** The fates left after `i` writes. */
  function Later(fates: seq<Fate>, i: nat): seq<Fate> {
    if i < |fates| then fates[i..] else []
  }

  /** The first `n` rounds of the write loop go through: each file has a reviewed ID, and
      its write is done. */
  predicate GoesThrough(fates: seq<Fate>, files: seq<FileMigration>, ids: map<string, string>, n: nat)
    requires n <= |files|
  {
    forall i :: 0 <= i < n ==> files[i].path in ids && FateAt(fates, i) == Written
  }

  /** The first `n` writes are done. */
  predicate AllWritten(fates: seq<Fate>, n: nat) {
    forall k :: 0 <= k < n ==> FateAt(fates, k) == Written
  }

  /** The loop gets as far as entry `k`, whose write raises after taking effect. */
  predicate StaysAt(fates: seq<Fate>, files: seq<FileMigration>, ids: map<string, string>, k: nat) {
    k < |files| && GoesThrough(fates, files, ids, k) && files[k].path in ids && FateAt(fates, k) == FailedAfter
  }

  /** How the write loop ends, as the faults and the reviewed IDs determine it. */
  ghost predicate EndsAs(fates: seq<Fate>, files: seq<FileMigration>, ids: map<string, string>, raised: bool,
                         left: Option<FileMigration>)
  {
    && (raised <==> !GoesThrough(fates, files, ids, |files|))
    && (left.Some? <==> exists k: nat :: StaysAt(fates, files, ids, k))
    && (forall k: nat :: StaysAt(fates, files, ids, k) ==> left == Some(files[k]))
  }

  lemma StopsOnce(fates: seq<Fate>, files: seq<FileMigration>, ids: map<string, string>, i: nat, k: nat)
    requires i < |files| && GoesThrough(fates, files, ids, i)
    requires !(files[i].path in ids && FateAt(fates, i) == Written) && StaysAt(fates, files, ids, k)
    ensures k == i
  {
  }

  /** A round that raises ends the loop. */
  lemma RaisingEnds(fates: seq<Fate>, files: seq<FileMigration>, ids: map<string, string>, i: nat,
                    left: Option<FileMigration>)
    requires i < |files| && GoesThrough(fates, files, ids, i)
    requires !(files[i].path in ids && FateAt(fates, i) == Written)
    requires left == if files[i].path in ids && FateAt(fates, i) == FailedAfter then Some(files[i]) else None
    ensures EndsAs(fates, files, ids, true, left)
  {
    if left.Some? { assert StaysAt(fates, files, ids, i); }
    forall k: nat | StaysAt(fates, files, ids, k) ensures left == Some(files[k]) { StopsOnce(fates, files, ids, i, k); }
  }

  lemma GoingThroughEnds(fates: seq<Fate>, files: seq<FileMigration>, ids: map<string, string>)
    requires GoesThrough(fates, files, ids, |files|)
    ensures EndsAs(fates, files, ids, false, None)
  {
  }

  /** `left` is the file whose write raised after it had taken effect. */
  datatype Exit = Refused | Raised(left: Option<FileMigration>) | Completed

  function Left(exit: Exit): Option<FileMigration> {
    if exit.Raised? then exit.left else None
  }

  /** A vault in which at most one file was migrated all the same. */
  function Leaving(v: Vault, left: Option<FileMigration>): Vault {
    if left.None? then v else v[left.value.path := left.value.after]
  }

  /** The originals of every changed file. */
  predicate Originals(v: Vault, files: seq<FileMigration>, originals: map<string, string>) {
    forall f <- files | Changed(f) :: f.path in originals && originals[f.path] == f.before
  }

  /** What apply_migration keeps: the bytes of each changed file before the migration. */
  function OriginalsOf(changed: seq<FileMigration>): map<string, string>
    requires DistinctPaths(changed)
  {
    map f | f in changed :: f.path := f.before
  }

  class Workspace {
    var vault: Vault
    var snapshots: map<string, Snapshot>
    var fates: seq<Fate>                  // what becomes of each atomic write of the vault
    const codec: Codec
    const sources: seq<Source>

    predicate Valid()
      reads this
    {
      SourcesOk(vault, sources)
    }

    constructor (v: Vault, c: Codec, sources: seq<Source>)
      requires SourcesOk(v, sources)
      ensures Valid() && vault == v && snapshots == map[] && codec == c && this.sources == sources
    {
      vault, snapshots, fates, codec := v, map[], [], c;
      this.sources := sources;
    }

    /** _atomic_write. */
    method Write(path: string, content: string) returns (f: Fate)
      modifies `vault, `fates
      ensures f == FateAt(old(fates), 0) && fates == Later(old(fates), 1)
      ensures vault == if f == FailedBefore then old(vault) else old(vault)[path := content]
    {
      f := Written;
      if fates != [] { f, fates := fates[0], fates[1..]; }
      if f != FailedBefore { vault := vault[path := content]; }
    }

    /** The except branch: every file written so far gets its original bytes back; these
        writes succeed.  A file whose own write raised is not among them. */
    method Undo(files: seq<FileMigration>, n: nat, originals: map<string, string>, ghost before: Vault,
                ghost left: Option<FileMigration>)
      requires n <= |files| && Describes(before, files) && Originals(before, files, originals)
      requires forall f <- files :: Changed(f)
      requires left.Some? ==> n < |files| && left.value == files[n]
      requires vault == Leaving(Overlay(before, files[..n]), left)
      modifies `vault
      ensures vault == Leaving(before, left)
    {
      WrittenOnly(before, files, n);
      ghost var goal := Leaving(before, left);
      StartUndo(before, files, n, left);
      for i := 0 to n
        invariant UndoneTo(vault, goal, files, i, n) == true
      {
        assert files[i] in files;
        OneMoreUndone(vault, before, left, files, i, n);
        vault := vault[files[i].path := originals[files[i].path]];
      }
      assert vault == goal;
    }

    /** One round of the write loop: the file is transformed again from its current bytes. */
    method WriteOne(f: FileMigration, ids: map<string, string>) returns (raised: bool, left: Option<FileMigration>)
      requires f.path in vault && vault[f.path] == f.before
      requires f.path in ids ==> TransformFile(codec, f.before, f.kind, ids[f.path]) == File(f.after, f.id)
      modifies `vault, `fates
      ensures vault == if raised then Leaving(old(vault), left) else old(vault)[f.path := f.after]
      ensures raised <==> !(f.path in ids && FateAt(old(fates), 0) == Written)
      ensures left == if f.path in ids && FateAt(old(fates), 0) == FailedAfter then Some(f) else None
      ensures fates == if f.path in ids then Later(old(fates), 1) else old(fates)
    {
      raised, left := true, None;
      if f.path !in ids { return; }
      var t := TransformFile(codec, vault[f.path], f.kind, ids[f.path]);
      var fate := Write(f.path, t.after);
      raised := fate != Written;
      left := if fate == FailedAfter then Some(f) else None;
    }

    /** The round for entry `i`, over the vault the earlier rounds left. */
    method WriteNext(files: seq<FileMigration>, ids: map<string, string>, i: nat, ghost before: Vault)
      returns (raised: bool, left: Option<FileMigration>)
      requires i < |files| && Describes(before, files) && Changed(files[i])
      requires files[i].path in ids ==>
                 var f := files[i];
                 TransformFile(codec, f.before, f.kind, ids[f.path]) == File(f.after, f.id)
      requires vault == Overlay(before, files[..i])
      modifies `vault, `fates
      ensures raised ==> vault == Leaving(Overlay(before, files[..i]), left)
      ensures !raised ==> vault == Overlay(before, files[..i + 1]) && fates == Later(old(fates), 1)
      ensures raised <==> !(files[i].path in ids && FateAt(old(fates), 0) == Written)
      ensures left == if files[i].path in ids && FateAt(old(fates), 0) == FailedAfter then Some(files[i]) else None
    {
      UnwrittenYet(before, files, i);
      OneMoreWritten(before, files, i);
      raised, left := WriteOne(files[i], ids);
    }

    /** The write loop of apply_migration: whatever raises undoes what was written. */
    method WriteAll(files: seq<FileMigration>, ids: map<string, string>, originals: map<string, string>)
      returns (raised: bool, left: Option<FileMigration>)
      requires Describes(vault, files) && Originals(vault, files, originals)
      requires forall f <- files :: Changed(f)
      requires forall f <- files | f.path in ids ::
                 TransformFile(codec, f.before, f.kind, ids[f.path]) == File(f.after, f.id)
      modifies `vault, `fates
      ensures vault == if raised then Leaving(old(vault), left) else Overlay(old(vault), files)
      ensures EndsAs(old(fates), files, ids, raised, left) == true
      ensures !raised ==> fates == Later(old(fates), |files|)
    {
      for i := 0 to |files|
        invariant vault == Overlay(old(vault), files[..i])
        invariant GoesThrough(old(fates), files, ids, i) && fates == Later(old(fates), i)
      {
        assert files[i] in files;
        assert FateAt(fates, 0) == FateAt(old(fates), i);
        raised, left := WriteNext(files, ids, i, old(vault));
        if raised {
          RaisingEnds(old(fates), files, ids, i, left);
          Undo(files, i, originals, old(vault), left);
          return;
        }
      }
      raised, left := false, None;
      GoingThroughEnds(old(fates), files, ids);
      assert files[..|files|] == files;
    }

    /** The part of apply_migration after its checks: keep the originals, then write. */
    method KeepAndWrite(report: Report, files: seq<FileMigration>, ghost p: Proposals) returns (exit: Exit)
      requires Describes(vault, files) && files == Items(PlanOver(codec, vault, p), sources)
      requires forall path <- Ids(report.files) :: p(path) == Ids(report.files)[path]
      requires forall f <- report.files :: f in files
      modifies `vault, `snapshots, `fates
      ensures exit.Raised? || exit.Completed?
      ensures EndsAs(old(fates), ChangedOnly(files), Ids(report.files), exit.Raised?, Left(exit)) == true
      ensures exit.Raised? ==> vault == Leaving(old(vault), exit.left)
      ensures report.id in snapshots && snapshots[report.id].files == report.files
      ensures exit == Completed ==>
                && vault == Overlay(old(vault), files)
                && (forall f <- files | Changed(f) :: f in report.files)
                && Originals(old(vault), files, snapshots[report.id].originals)
    {
      ChangedAreReady(codec, vault, p, sources, files, Ids(report.files));
      OriginalsKept(vault, files);
      var originals := OriginalsOf(ChangedOnly(files));
      snapshots := snapshots[report.id := Snapshot(report.files, originals)];
      var raised, left := WriteAll(ChangedOnly(files), Ids(report.files), originals);
      OverlayOfChanged(old(vault), files);
      if !raised { CompletedAreReviewed(old(fates), files, report.files); }
      exit := if raised then Raised(left) else Completed;
    }

    /** apply_migration: refuse what changed since review, keep the originals, then write.
        The faults and the reviewed IDs determine how it ends: it completes exactly when
        every changed file has a reviewed ID and every write is done; one file stays
        migrated exactly when the loop reaches a write that raises after taking effect, and
        otherwise every byte is as before. */
    method Apply(report: Report, drawn: string -> string) returns (exit: Exit)
      requires Valid()
      modifies `vault, `snapshots, `fates
      ensures Valid()
      ensures exit == Refused <==> !old(AsReviewed(report, drawn)) || report.id in old(snapshots)
      ensures exit == Refused ==> vault == old(vault) && snapshots == old(snapshots) && fates == old(fates)
      ensures exit != Refused ==>
                && EndsAs(old(fates), ChangedOnly(old(Planned(report, drawn))), Ids(report.files),
                          exit.Raised?, Left(exit)) == true
                && report.id in snapshots && snapshots[report.id].files == report.files
      ensures exit.Raised? ==> vault == Leaving(old(vault), exit.left)
      ensures exit.Raised? && exit.left.Some? ==>
                && exit.left.value in old(Planned(report, drawn)) && Changed(exit.left.value)
                && FailedAfter in old(fates) && vault != old(vault)
      ensures exit == Completed ==>
                && vault == Overlay(old(vault), old(Planned(report, drawn)))
                && (forall f <- old(Planned(report, drawn)) | Changed(f) :: f in report.files)
                && Originals(old(vault), old(Planned(report, drawn)), snapshots[report.id].originals)
    {
      var refused, files := Review(report, drawn);
      if refused { return Refused; }
      ReviewedAreProposed(report, drawn);
      exit := KeepAndWrite(report, files, Proposed(report, drawn));
      OverlayAt(old(vault), files);
      LeftIsPlanned(old(vault), old(fates), files, Ids(report.files), exit);
    }

    /** The checks of apply_migration: plan again, and compare with the report. */
    method Review(report: Report, drawn: string -> string) returns (refused: bool, files: seq<FileMigration>)
      requires Valid()
      ensures refused <==> !AsReviewed(report, drawn) || report.id in snapshots
      ensures files == Planned(report, drawn) && Describes(vault, files)
      ensures !refused ==> forall f <- report.files :: f in files
    {
      var p := Proposed(report, drawn);
      var plan, errors := PlanOver(codec, vault, p), 0;
      files, errors := PlanMigration(plan, sources);
      PlansAreFaithful(codec, vault, p);
      ItemsDescribe(plan, vault, sources);
      refused := report.errors > 0 || errors > 0 || !(forall f <- report.files :: f in files) || report.id in snapshots;
    }

    /** The entries planned now. */
    function Planned(report: Report, drawn: string -> string): seq<FileMigration>
      reads this
    {
      Items(PlanOver(codec, vault, Proposed(report, drawn)), sources)
    }

    /** The changed entries whose files no longer hold what the migration wrote. */
    method Conflicts(files: seq<FileMigration>) returns (conflicts: seq<string>)
      ensures conflicts == [] <==>
                forall f <- files | Changed(f) :: f.path in vault && vault[f.path] == f.after
    {
      conflicts := [];
      for i := 0 to |files|
        invariant conflicts == [] <==>
                    forall j :: 0 <= j < i && Changed(files[j]) ==>
                      files[j].path in vault && vault[files[j].path] == files[j].after
      {
        if Changed(files[i]) && !(files[i].path in vault && vault[files[i].path] == files[i].after) {
          conflicts := conflicts + [files[i].path];
        }
      }
    }

    /** The write loop of restore_migration; what it wrote before a write raised stays. */
    method PutBack(files: seq<FileMigration>, originals: map<string, string>) returns (raised: bool)
      requires forall f <- files | Changed(f) :: f.path in originals
      modifies `vault, `fates
      ensures raised <==> !AllWritten(old(fates), |ChangedOnly(files)|)
      ensures !raised ==> vault == Reverted(old(vault), files, originals)
      ensures raised ==> PartlyReverted(old(vault), vault, files, originals)
      ensures old(fates) == [] ==> !raised && fates == []
    {
      ghost var done := 0;
      for i := 0 to |files|
        invariant vault == Reverted(old(vault), files[..i], originals)
        invariant done == |ChangedOnly(files[..i])|
        invariant AllWritten(old(fates), done) && fates == Later(old(fates), done)
      {
        OneMoreReverted(old(vault), files, originals, i);
        if Changed(files[i]) {
          assert FateAt(fates, 0) == FateAt(old(fates), done);
          var fate := Write(files[i].path, originals[files[i].path]);
          if fate != Written {
            FewerChanged(files, i + 1);
            return true;
          }
          done := done + 1;
        }
      }
      raised := false;
      assert files[..|files|] == files;
    }

    /** restore_migration: refuse if a migrated file changed afterward, then put every
        original back. */
    method Restore(id: string) returns (exit: Exit)
      requires Valid()
      requires id in snapshots ==>
                 forall f <- snapshots[id].files | Changed(f) :: f.path in snapshots[id].originals
      modifies `vault, `fates
      ensures exit == Refused <==>
                old(id !in snapshots
                    || exists f :: f in snapshots[id].files && Changed(f)
                                   && !(f.path in vault && vault[f.path] == f.after))
      ensures exit == Refused ==> vault == old(vault)
      ensures exit != Refused ==> (exit == Completed <==> AllWritten(old(fates), |ChangedOnly(snapshots[id].files)|))
      ensures exit == Completed ==> vault == Reverted(old(vault), snapshots[id].files, snapshots[id].originals)
      ensures old(fates) == [] ==> !exit.Raised? && fates == []
      ensures exit.Raised? ==> PartlyReverted(old(vault), vault, snapshots[id].files, snapshots[id].originals)
    {
      if id !in snapshots { return Refused; }
      var conflicts := Conflicts(snapshots[id].files);
      if conflicts != [] { return Refused; }
      var raised := PutBack(snapshots[id].files, snapshots[id].originals);
      exit := if raised then Raised(None) else Completed;
    }

    /** Apply, then restore without faults: whatever becomes of the first, every byte of
        the vault is as it was, unless a write raised after it had taken effect. */
    method ApplyThenRestore(report: Report, drawn: string -> string) returns (applied: Exit, restored: Exit)
      requires Valid()
      modifies `vault, `snapshots, `fates
      ensures restored == if applied == Completed then Completed else Refused
      ensures !applied.Raised? ==> vault == old(vault)
      ensures applied.Raised? ==> vault == Leaving(old(vault), applied.left)
      ensures applied.Raised? && applied.left.Some? ==> FailedAfter in old(fates)
      ensures applied == Refused <==> !old(AsReviewed(report, drawn)) || report.id in old(snapshots)
      ensures applied != Refused ==>
                EndsAs(old(fates), ChangedOnly(old(Planned(report, drawn))), Ids(report.files),
                       applied.Raised?, Left(applied)) == true
      ensures old(fates) == [] && applied != Refused ==>
                (applied == Completed <==>
                   forall f <- old(Planned(report, drawn)) | Changed(f) :: f.path in Ids(report.files))
    {
      ghost var files := Planned(report, drawn);
      PlansAreFaithful(codec, vault, Proposed(report, drawn));
      ItemsDescribe(PlanOver(codec, vault, Proposed(report, drawn)), vault, sources);
      ghost var faults := fates;
      applied := Apply(report, drawn);
      restored := Refused;
      if faults == [] && applied != Refused {
        UndisturbedEnds(files, Ids(report.files), applied.Raised?, Left(applied));
      }
      if applied == Completed {
        fates := [];
        ReviewedAreApplied(files, report.files, old(vault), snapshots[report.id].originals);
        restored := Restore(report.id);
      }
    }

    /** The report still describes the vault. */
    predicate AsReviewed(report: Report, drawn: string -> string)
      reads this
    {
      && report.errors == 0
      && Sound(PlanOver(codec, vault, Proposed(report, drawn)), sources)
      && forall f <- report.files :: f in Planned(report, drawn)
    }
  }

  /** The vault after the originals of the changed files were put back. */
  function Reverted(v: Vault, files: seq<FileMigration>, originals: map<string, string>): Vault
    requires forall f <- files | Changed(f) :: f.path in originals
  {
    if files == [] then v
    else
      var n := |files| - 1;
      if Changed(files[n]) then Reverted(v, files[..n], originals)[files[n].path := originals[files[n].path]]
      else Reverted(v, files[..n], originals)
  }

  /** Putting back got as far as some entry. */
  ghost predicate PartlyReverted(v: Vault, w: Vault, files: seq<FileMigration>, originals: map<string, string>)
    requires forall f <- files | Changed(f) :: f.path in originals
  {
    exists n :: 0 <= n <= |files| && w == Reverted(v, files[..n], originals)
  }

  lemma OneMoreReverted(v: Vault, files: seq<FileMigration>, originals: map<string, string>, i: nat)
    requires i < |files| && forall f <- files | Changed(f) :: f.path in originals
    ensures var before := Reverted(v, files[..i], originals);
            Reverted(v, files[..i + 1], originals)
            == if Changed(files[i]) then before[files[i].path := originals[files[i].path]] else before
    ensures |ChangedOnly(files[..i + 1])| == |ChangedOnly(files[..i])| + if Changed(files[i]) then 1 else 0
  {
    assert files[..i + 1][..i] == files[..i];
  }

  lemma {:induction false} RevertedAt(v: Vault, files: seq<FileMigration>, originals: map<string, string>)
    requires forall f <- files | Changed(f) :: f.path in originals && f.path in v
    ensures Reverted(v, files, originals).Keys == v.Keys
    ensures forall p <- v :: Reverted(v, files, originals)[p] ==
              if exists f :: f in files && Changed(f) && f.path == p then originals[p] else v[p]
  {
    if files != [] {
      var n := |files| - 1;
      RevertedAt(v, files[..n], originals);
      assert files == files[..n] + [files[n]];
    }
  }

  /** Reverting what was overlaid leaves the vault it was planned over. */
  lemma ReviewedAreApplied(files: seq<FileMigration>, reviewed: seq<FileMigration>, v: Vault,
                           originals: map<string, string>)
    requires Describes(v, files) && (forall f <- reviewed :: f in files)
    requires forall f <- files | Changed(f) :: f in reviewed
    requires Originals(v, files, originals)
    ensures forall f <- reviewed | Changed(f) ::
              && f.path in originals
              && f.path in Overlay(v, files) && Overlay(v, files)[f.path] == f.after
    ensures Reverted(Overlay(v, files), reviewed, originals) == v
  {
    OverlayAt(v, files);
    var after := Overlay(v, files);
    RevertedAt(after, reviewed, originals);
    var back := Reverted(after, reviewed, originals);
    forall p <- v ensures back[p] == v[p] {
      if f :| f in reviewed && Changed(f) && f.path == p {
        assert originals[p] == f.before == v[p];
      } else if g :| g in files && g.path == p {
        assert !Changed(g);
      }
    }
  }

  /** The file that stays migrated is a changed one of the plan, and the vault shows it. */
  lemma LeftIsPlanned(v: Vault, fates: seq<Fate>, files: seq<FileMigration>, ids: map<string, string>, exit: Exit)
    requires Describes(v, files) && EndsAs(fates, ChangedOnly(files), ids, exit.Raised?, Left(exit))
    ensures exit.Raised? && exit.left.Some? ==>
              && exit.left.value in files && Changed(exit.left.value)
              && FailedAfter in fates && Leaving(v, exit.left) != v
  {
    if exit.Raised? && exit.left.Some? {
      var k: nat :| StaysAt(fates, ChangedOnly(files), ids, k);
      assert ChangedOnly(files)[k] in ChangedOnly(files) && fates[k] == FailedAfter;
      ChangedAre(files);
      assert Leaving(v, exit.left)[exit.left.value.path] != v[exit.left.value.path];
    }
  }

  /** Without faults the loop ends as the reviewed IDs alone decide. */
  lemma UndisturbedEnds(files: seq<FileMigration>, ids: map<string, string>, raised: bool, left: Option<FileMigration>)
    requires EndsAs([], ChangedOnly(files), ids, raised, left)
    ensures left.None?
    ensures !raised <==> forall f <- files | Changed(f) :: f.path in ids
  {
    var changed := ChangedOnly(files);
    ChangedAre(files);
    if !raised {
      forall f <- files | Changed(f) ensures f.path in ids {
        var i :| 0 <= i < |changed| && changed[i] == f;
      }
    } else {
      var i :| 0 <= i < |changed| && changed[i].path !in ids;
      assert changed[i] in changed;
    }
  }

  /** Reviewed entries keep the IDs they were reviewed with. */
  lemma ReviewedAreProposed(report: Report, drawn: string -> string)
    ensures var p := Proposed(report, drawn);
            && (forall f <- report.files :: f.path in Ids(report.files) && p(f.path) == Ids(report.files)[f.path])
            && (forall path <- Ids(report.files) :: p(path) == Ids(report.files)[path])
  {
    forall f <- report.files ensures f.path in Ids(report.files) { IdsAre(report.files, f.path); }
  }

  /** What the write loop is given: each entry with the bytes it was planned over and, where
      its ID was reviewed, with what that ID makes of them. */
  lemma ChangedAreReady(c: Codec, v: Vault, p: Proposals, sources: seq<Source>, files: seq<FileMigration>,
                        ids: map<string, string>)
    requires Describes(v, files) && files == Items(PlanOver(c, v, p), sources)
    requires forall path <- ids :: p(path) == ids[path]
    ensures Describes(v, ChangedOnly(files)) && forall f <- ChangedOnly(files) :: Changed(f)
    ensures forall f <- ChangedOnly(files) | f.path in ids ::
              TransformFile(c, f.before, f.kind, ids[f.path]) == File(f.after, f.id)
  {
    ChangedAre(files);
    ItemsAreTransforms(c, v, p, sources);
  }

  lemma OriginalsKept(v: Vault, files: seq<FileMigration>)
    requires Describes(v, files)
    ensures DistinctPaths(ChangedOnly(files))
    ensures Originals(v, files, OriginalsOf(ChangedOnly(files))) == true
    ensures Originals(v, ChangedOnly(files), OriginalsOf(ChangedOnly(files))) == true
  {
    ChangedAre(files);
  }

  /** Every file that was written is a reviewed one. */
  lemma WrittenAreReviewed(files: seq<FileMigration>, reviewed: seq<FileMigration>)
    requires DistinctPaths(files) && forall f <- reviewed :: f in files
    requires forall f <- ChangedOnly(files) :: f.path in Ids(reviewed)
    ensures forall f <- files | Changed(f) :: f in reviewed
  {
    ChangedAre(files);
    forall f <- files | Changed(f) ensures f in reviewed {
      IdsAre(reviewed, f.path);
      var g :| g in reviewed && g.path == f.path;
      var i :| 0 <= i < |files| && files[i] == f;
      var j :| 0 <= j < |files| && files[j] == g;
    }
  }

  lemma CompletedAreReviewed(fates: seq<Fate>, files: seq<FileMigration>, reviewed: seq<FileMigration>)
    requires DistinctPaths(files) && forall f <- reviewed :: f in files
    requires EndsAs(fates, ChangedOnly(files), Ids(reviewed), false, None)
    ensures forall f <- files | Changed(f) :: f in reviewed
  {
    WrittenAreReviewed(files, reviewed);
  }

  lemma {:induction false} IdsAre(files: seq<FileMigration>, path: string)
    ensures path in Ids(files) <==> exists f :: f in files && f.path == path
  {
    if files != [] {
      var n := |files| - 1;
      IdsAre(files[..n], path);
      assert files == files[..n] + [files[n]];
      assert files[n] in files;
    }
  }

  lemma WrittenOnly(v: Vault, files: seq<FileMigration>, n: nat)
    requires Describes(v, files) && n <= |files|
    ensures Overlay(v, files[..n]).Keys == v.Keys
    ensures forall p <- v :: Overlay(v, files[..n])[p] == v[p] || PathAmong(files, 0, n, p)
  {
    assert forall f <- files[..n] :: f in files;
    OverlayAt(v, files[..n]);
    forall p <- v ensures Overlay(v, files[..n])[p] == v[p] || PathAmong(files, 0, n, p) {
      if f :| f in files[..n] && f.path == p {
        var j :| 0 <= j < n && files[..n][j] == f;
        assert files[j].path == p;
      }
    }
  }

  predicate PathAmong(files: seq<FileMigration>, i: nat, n: nat, p: string)
    requires i <= n <= |files|
  {
    exists j :: i <= j < n && files[j].path == p
  }

  /** Undoing has reached entry `i`: what differs from the goal is still to be undone. */
  ghost predicate UndoneTo(v: Vault, goal: Vault, files: seq<FileMigration>, i: nat, n: nat)
    requires i <= n <= |files|
  {
    v.Keys == goal.Keys && forall p <- goal :: v[p] == goal[p] || PathAmong(files, i, n, p)
  }

  lemma StartUndo(v: Vault, files: seq<FileMigration>, n: nat, left: Option<FileMigration>)
    requires Describes(v, files) && n <= |files| && (left.Some? ==> n < |files| && left.value == files[n])
    ensures UndoneTo(Leaving(Overlay(v, files[..n]), left), Leaving(v, left), files, 0, n)
  {
    WrittenOnly(v, files, n);
    if left.Some? { assert files[n] in files; }
  }

  lemma OneMoreUndone(v: Vault, before: Vault, left: Option<FileMigration>, files: seq<FileMigration>, i: nat, n: nat)
    requires Describes(before, files) && i < n <= |files|
    requires left.Some? ==> n < |files| && left.value == files[n]
    requires UndoneTo(v, Leaving(before, left), files, i, n)
    ensures UndoneTo(v[files[i].path := files[i].before], Leaving(before, left), files, i + 1, n)
  {
    var goal, next := Leaving(before, left), v[files[i].path := files[i].before];
    assert files[i] in files && goal[files[i].path] == files[i].before;
    forall p <- goal ensures next[p] == goal[p] || PathAmong(files, i + 1, n, p) {
      if p != files[i].path && v[p] != goal[p] {
        var j :| i <= j < n && files[j].path == p;
        assert j != i;
      }
    }
  }

  function Ids(files: seq<FileMigration>): map<string, string> {
    if files == [] then map[] else Ids(files[..|files| - 1])[files[|files| - 1].path := files[|files| - 1].id]
  }

  function Proposed(report: Report, drawn: string -> string): Proposals {
    (path: string) => if path in Ids(report.files) then Ids(report.files)[path] else drawn(path)
  }

  function ChangedOnly(files: seq<FileMigration>): seq<FileMigration> {
    if files == [] then []
    else
      var n := |files| - 1;
      ChangedOnly(files[..n]) + if Changed(files[n]) then [files[n]] else []
  }

  lemma {:induction false} ChangedAre(files: seq<FileMigration>)
    ensures forall f :: f in ChangedOnly(files) <==> f in files && Changed(f)
    ensures DistinctPaths(files) ==> DistinctPaths(ChangedOnly(files))
  {
    if files != [] {
      var n := |files| - 1;
      ChangedAre(files[..n]);
      assert files == files[..n] + [files[n]];
      if DistinctPaths(files) {
        forall f <- ChangedOnly(files[..n]) ensures f.path != files[n].path {
          var i :| 0 <= i < n && files[..n][i] == f;
          assert files[i].path != files[n].path;
        }
      }
    }
  }

  lemma {:induction false} FewerChanged(files: seq<FileMigration>, i: nat)
    requires i <= |files|
    ensures |ChangedOnly(files[..i])| <= |ChangedOnly(files)|
    decreases |files| - i
  {
    if i < |files| {
      FewerChanged(files, i + 1);
      assert files[..i + 1][..i] == files[..i];
    } else {
      assert files[..i] == files;
    }
  }

  lemma {:induction false} OverlayOfChanged(v: Vault, files: seq<FileMigration>)
    ensures Overlay(v, ChangedOnly(files)) == Overlay(v, files)
  {
    if files != [] {
      var n := |files| - 1;
      OverlayOfChanged(v, files[..n]);
      var c := ChangedOnly(files);
      if Changed(files[n]) { assert c[..|c| - 1] == ChangedOnly(files[..n]); }
      else { assert c == ChangedOnly(files[..n]); }
    }
  }

  /** A file further down the list still holds what it was planned over. */
  lemma UnwrittenYet(v: Vault, files: seq<FileMigration>, i: nat)
    requires Describes(v, files) && i < |files|
    ensures files[i].path in Overlay(v, files[..i]) && Overlay(v, files[..i])[files[i].path] == files[i].before
  {
    assert forall f <- files[..i] :: f in files;
    OverlayAt(v, files[..i]);
    forall f <- files[..i] ensures f.path != files[i].path {
      var j :| 0 <= j < i && files[..i][j] == f;
      assert files[j].path != files[i].path;
    }
    assert files[i] in files;
  }

  lemma {:induction false} ItemsAreTransforms(c: Codec, v: Vault, p: Proposals, sources: seq<Source>)
    ensures forall f <- Items(PlanOver(c, v, p), sources) ::
              f.path in v && TransformFile(c, v[f.path], f.kind, p(f.path)) == File(f.after, f.id)
  {
    if sources != [] {
      var n := |sources| - 1;
      ItemsAreTransforms(c, v, p, sources[..n]);
      assert PlanOver(c, v, p)(sources[n]) == PlanFile(c, v, p, sources[n]);
    }
  }

  // ------------------------------------------------------------------
  // One file, and a write that raises after taking effect.
  // ------------------------------------------------------------------

  const PLAIN := Frontmatter(None, None, None, None, NoTags, "")

  /** A note without an ID, which a migration gives one. */
  const NUMBERING :=
    Codec((bytes: string) => Some(Note(PLAIN, bytes)), (n: Note) => "id" + n.body, (id: string) => true)

  const NUMBERED := FileMigration("a.md", Knowledge, "note", "idnote", "1")

  lemma NotesGetNumbered(p: Proposals)
    requires p("a.md") == "1"
    ensures var plan := PlanOver(NUMBERING, map["a.md" := "note"], p);
            var sources := [Source("a.md", Knowledge)];
            Items(plan, sources) == [NUMBERED] && Sound(plan, sources)
  {
    var plan, source := PlanOver(NUMBERING, map["a.md" := "note"], p), Source("a.md", Knowledge);
    assert Transform(PLAIN, Knowledge, "1", NUMBERING.canonical) == Migrated(PLAIN.(id := Some(Str("1"))), [AddId]);
    assert "id" + "note" == "idnote";
    assert TransformFile(NUMBERING, "note", Knowledge, "1") == File("idnote", "1");
    assert plan(source) == Some(NUMBERED);
    ItemsFrom(plan, [source], [NUMBERED]);
  }

  /** The loop over the one note ends with the note left migrated. */
  lemma NumberedStays(ids: map<string, string>, raised: bool, left: Option<FileMigration>)
    requires ids == map["a.md" := "1"] && EndsAs([FailedAfter], ChangedOnly([NUMBERED]), ids, raised, left)
    ensures raised && left == Some(NUMBERED)
  {
    assert ChangedOnly([NUMBERED]) == [NUMBERED];
    assert StaysAt([FailedAfter], [NUMBERED], ids, 0);
  }

  lemma NumberedProposal(report: Report, drawn: string -> string)
    requires report.files == [NUMBERED]
    ensures Ids(report.files) == map["a.md" := "1"] && Proposed(report, drawn)("a.md") == "1"
  {
    assert report.files[..0] == [];
  }

  lemma NumberedIsReviewed(workspace: Workspace, report: Report, drawn: string -> string)
    requires workspace.vault == map["a.md" := "note"] && workspace.codec == NUMBERING
    requires workspace.sources == [Source("a.md", Knowledge)]
    requires report.files == [NUMBERED] && report.errors == 0
    ensures workspace.Planned(report, drawn) == [NUMBERED] && workspace.AsReviewed(report, drawn)
  {
    NumberedProposal(report, drawn);
    NotesGetNumbered(Proposed(report, drawn));
  }

  /** Applies a report whose only write raises after taking effect. */
  method ApplyFaulty(workspace: Workspace, report: Report, drawn: string -> string) returns (exit: Exit)
    requires workspace.vault == map["a.md" := "note"] && workspace.codec == NUMBERING
    requires workspace.sources == [Source("a.md", Knowledge)]
    requires workspace.fates == [FailedAfter] && workspace.snapshots == map[]
    requires report.files == [NUMBERED] && report.errors == 0
    modifies workspace`vault, workspace`snapshots, workspace`fates
    ensures exit == Raised(Some(NUMBERED)) && workspace.vault == map["a.md" := "idnote"]
  {
    NumberedProposal(report, drawn);
    NumberedIsReviewed(workspace, report, drawn);
    exit := workspace.Apply(report, drawn);
    NumberedStays(Ids(report.files), exit.Raised?, Left(exit));
  }

  /** The reviewed migration of one note raises, and the note stays migrated. */
  method MigratedAllTheSame() returns (before: Vault, exit: Exit, after: Vault)
    ensures exit == Raised(Some(NUMBERED))
    ensures before == map["a.md" := "note"] && after == map["a.md" := "idnote"]
  {
    before := map["a.md" := "note"];
    var workspace := new Workspace(before, NUMBERING, [Source("a.md", Knowledge)]);
    workspace.fates := [FailedAfter];
    exit := ApplyFaulty(workspace, Report("m", [NUMBERED], 0), (path: string) => "2");
    after := workspace.vault;
  }
}
