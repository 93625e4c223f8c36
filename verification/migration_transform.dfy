/** What a migration does to one note's frontmatter (src/homeops_ai/migration.py:74-245).

    UUID syntax is a parameter: `canonical` recognises a canonical lowercase UUIDv4. */
module MigrationTransform {
  import opened Wrappers

  datatype Kind = Knowledge | Category

  /** A YAML scalar: a string, or anything else by its str() form. */
  datatype Value = Str(text: string) | Other(text: string)

  datatype Tags = NoTags | NotList | Tags(items: seq<Value>)

  datatype Frontmatter = Frontmatter(
    id: Option<Value>, kind: Option<Value>, status: Option<Value>, authority: Option<Value>, tags: Tags, rest: string)

  datatype Change =
    | AddId | AddCategoryType | AddCategoryStatus | NormalizeStatus(before: string)
    | SeedStatus | RemoveLifecycleTags(removed: seq<string>) | NormalizeAuthority

  const STATUS_MAPPING: map<string, string> := map[
    "active" := "current", "implemented" := "done", "reference" := "current", "current" := "current",
    "planned" := "planned", "in-progress" := "in-progress", "done" := "done", "superseded" := "superseded",
    "abandoned" := "abandoned", "historical" := "historical"]

  const LIFECYCLE_TAGS := {"current", "planned", "done", "reference"}

  /** What one stage makes of the frontmatter. */
  datatype Stage = Stage(frontmatter: Frontmatter, changes: seq<Change>)

  datatype Outcome = Migrated(frontmatter: Frontmatter, changes: seq<Change>) | InvalidId

  /** Normalising a status twice is normalising it once. */
  lemma MappingIsIdempotent(s: string)
    requires s in STATUS_MAPPING
    ensures STATUS_MAPPING[s] in STATUS_MAPPING && STATUS_MAPPING[STATUS_MAPPING[s]] == STATUS_MAPPING[s]
  {
  }

  /** The approved statuses stay as they are; of the others three have a canonical form, and
      no further one is understood.  The lifecycle tags are among them. */
  lemma StatusesMap(s: string)
    ensures s in STATUS_MAPPING && STATUS_MAPPING[s] == s <==>
              s in {"current", "planned", "in-progress", "done", "superseded", "abandoned", "historical"}
    ensures s in STATUS_MAPPING && STATUS_MAPPING[s] != s <==> s in {"active", "implemented", "reference"}
    ensures s == "active" || s == "reference" ==> STATUS_MAPPING[s] == "current"
    ensures s == "implemented" ==> STATUS_MAPPING[s] == "done"
    ensures s in LIFECYCLE_TAGS <==> s in {"current", "planned", "done", "reference"}
    ensures s in LIFECYCLE_TAGS ==> s in STATUS_MAPPING && STATUS_MAPPING[s] in {"current", "planned", "done"}
  {
  }

  // ------------------------------------------------------------------
  // The stages, as functions.
  // ------------------------------------------------------------------

  predicate IdOk(f: Frontmatter, canonical: string -> bool) {
    f.id.Some? ==> f.id.value.Str? && canonical(f.id.value.text)
  }

  function WithId(f: Frontmatter, proposed: string): Stage {
    if f.id.None? then Stage(f.(id := Some(Str(proposed))), [AddId]) else Stage(f, [])
  }

  function WithDefaults(f: Frontmatter, kind: Kind): Stage {
    if kind == Knowledge then Stage(f, [])
    else
      Stage(
        f.(kind := if f.kind.None? then Some(Str("category")) else f.kind,
           status := if f.status.None? then Some(Str("current")) else f.status),
        (if f.kind.None? then [AddCategoryType] else []) + (if f.status.None? then [AddCategoryStatus] else []))
  }

  /** The canonical form of the status, if it is an approved value. */
  function CanonicalStatus(f: Frontmatter): Option<string> {
    if f.status.Some? && f.status.value.Str? && f.status.value.text in STATUS_MAPPING
    then Some(STATUS_MAPPING[f.status.value.text]) else None
  }

  function WithStatus(f: Frontmatter): Stage {
    var c := CanonicalStatus(f);
    if c.Some? && c.value != f.status.value.text
    then Stage(f.(status := Some(Str(c.value))), [NormalizeStatus(f.status.value.text)])
    else Stage(f, [])
  }

  function Lifecycle(items: seq<Value>): seq<string> {
    if items == [] then []
    else
      Lifecycle(items[..|items| - 1])
      + if items[|items| - 1].text in LIFECYCLE_TAGS then [items[|items| - 1].text] else []
  }

  function Remaining(items: seq<Value>): seq<Value> {
    if items == [] then []
    else
      Remaining(items[..|items| - 1])
      + if items[|items| - 1].text in LIFECYCLE_TAGS then [] else [items[|items| - 1]]
  }

  lemma {:induction false} LifecycleAreTags(items: seq<Value>)
    ensures forall t <- Lifecycle(items) :: t in LIFECYCLE_TAGS && t in STATUS_MAPPING
  {
    if items != [] { LifecycleAreTags(items[..|items| - 1]); }
  }

  /** The statuses the lifecycle tags stand for. */
  function TagStatuses(lifecycle: seq<string>): set<string> {
    set t | t in lifecycle && t in STATUS_MAPPING :: STATUS_MAPPING[t]
  }

  /** The status a note ends up with: its own, or the only one its tags agree on. */
  function StatusOrSeed(f: Frontmatter, lifecycle: seq<string>): Option<string> {
    var c := CanonicalStatus(f);
    if c.None? && |TagStatuses(lifecycle)| == 1 then Some(STATUS_MAPPING[AnyOf(lifecycle)]) else c
  }

  /** A tag to read the one status off (any will do, they all agree). */
  function AnyOf(lifecycle: seq<string>): (t: string)
    ensures t in STATUS_MAPPING
  {
    if lifecycle != [] && lifecycle[0] in STATUS_MAPPING then lifecycle[0] else "current"
  }

  function WithTags(f: Frontmatter): Stage {
    if !f.tags.Tags? then Stage(f, [])
    else
      var lifecycle := Lifecycle(f.tags.items);
      var status := StatusOrSeed(f, lifecycle);
      var seeded := CanonicalStatus(f).None? && status.Some?;
      var g := if seeded then f.(status := Some(Str(status.value))) else f;
      var seed := if seeded then [SeedStatus] else [];
      if lifecycle != [] && status.Some? && TagStatuses(lifecycle) == {status.value}
      then Stage(g.(tags := Tags(Remaining(f.tags.items))), seed + [RemoveLifecycleTags(lifecycle)])
      else Stage(g, seed)
  }

  function WithAuthority(f: Frontmatter): Stage {
    if f.authority == Some(Str("historical"))
    then Stage(f.(authority := Some(Str("supporting"))), [NormalizeAuthority])
    else Stage(f, [])
  }

  /** _transform on frontmatter. */
  function Transform(f: Frontmatter, kind: Kind, proposed: string, canonical: string -> bool): Outcome {
    if !IdOk(f, canonical) then InvalidId
    else
      var a := WithId(f, proposed);
      var b := WithDefaults(a.frontmatter, kind);
      var c := WithStatus(b.frontmatter);
      var d := WithTags(c.frontmatter);
      var e := WithAuthority(d.frontmatter);
      Migrated(e.frontmatter, a.changes + b.changes + c.changes + d.changes + e.changes)
  }

  // ------------------------------------------------------------------
  // Migrating what was migrated changes nothing.
  // ------------------------------------------------------------------

  lemma {:induction false} RemainingHasNoLifecycle(items: seq<Value>)
    ensures Lifecycle(Remaining(items)) == []
  {
    if items != [] {
      var n := |items| - 1;
      var rest := Remaining(items[..n]);
      RemainingHasNoLifecycle(items[..n]);
      if items[n].text !in LIFECYCLE_TAGS {
        var r := Remaining(items);
        assert r[..|r| - 1] == rest && r[|r| - 1] == items[n];
      } else {
        assert Remaining(items) == rest;
      }
    }
  }

  /** What the status and tag stages leave needs neither again. */
  predicate Settled(f: Frontmatter) {
    && (CanonicalStatus(f).Some? ==> f.status == Some(Str(CanonicalStatus(f).value)))
    && WithTags(f) == Stage(f, [])
  }

  lemma OneStatus(lifecycle: seq<string>)
    requires |TagStatuses(lifecycle)| == 1 && lifecycle != [] && forall x <- lifecycle :: x in STATUS_MAPPING
    ensures TagStatuses(lifecycle) == {STATUS_MAPPING[AnyOf(lifecycle)]}
  {
    var s := TagStatuses(lifecycle);
    var x :| x in s;
    assert |s - {x}| == 0;
    assert lifecycle[0] in lifecycle && STATUS_MAPPING[lifecycle[0]] in s;
  }

  lemma NoTagsNoStatus()
    ensures TagStatuses([]) == {}
  {
  }

  lemma TagsSettle(f: Frontmatter)
    requires CanonicalStatus(f).Some? ==> f.status == Some(Str(CanonicalStatus(f).value))
    ensures Settled(WithTags(f).frontmatter)
  {
    if f.tags.Tags? {
      var items := f.tags.items;
      var lifecycle := Lifecycle(items);
      LifecycleAreTags(items);
      RemainingHasNoLifecycle(items);
      var status := StatusOrSeed(f, lifecycle);
      if CanonicalStatus(f).None? && status.Some? {
        MappingIsIdempotent(AnyOf(lifecycle));
        NoTagsNoStatus();
        OneStatus(lifecycle);
      }
      var g := WithTags(f).frontmatter;
      assert CanonicalStatus(g) == status;
      NoTagsNoStatus();
    }
  }

  lemma StatusSettles(f: Frontmatter)
    ensures var g := WithStatus(f).frontmatter;
            CanonicalStatus(g) == CanonicalStatus(f)
            && (CanonicalStatus(g).Some? ==> g.status == Some(Str(CanonicalStatus(g).value)))
  {
    if CanonicalStatus(f).Some? { MappingIsIdempotent(f.status.value.text); }
  }

  /** A category that has a type and a status keeps both. */
  lemma StatusIsKept(f: Frontmatter)
    ensures f.status.Some? ==> WithStatus(f).frontmatter.status.Some? && WithTags(f).frontmatter.status.Some?
    ensures WithStatus(f).frontmatter.kind == f.kind && WithTags(f).frontmatter.kind == f.kind
    ensures WithStatus(f).frontmatter.id == f.id && WithTags(f).frontmatter.id == f.id
    ensures WithStatus(f).frontmatter.authority == f.authority && WithTags(f).frontmatter.authority == f.authority
  {
  }

  /** _transform is idempotent: transforming its own output proposes no change, whatever
      ID is proposed then. */
  lemma TransformIsIdempotent(f: Frontmatter, kind: Kind, proposed: string, other: string, canonical: string -> bool)
    requires canonical(proposed) && Transform(f, kind, proposed, canonical).Migrated?
    ensures var g := Transform(f, kind, proposed, canonical).frontmatter;
            Transform(g, kind, other, canonical) == Migrated(g, [])
  {
    var a := WithId(f, proposed).frontmatter;
    var b := WithDefaults(a, kind).frontmatter;
    var c := WithStatus(b).frontmatter;
    var d := WithTags(c).frontmatter;
    var g := WithAuthority(d).frontmatter;
    StatusSettles(b);
    TagsSettle(c);
    StatusIsKept(b);
    StatusIsKept(c);
    assert Transform(f, kind, proposed, canonical).frontmatter == g;
    assert Settled(g) by { AuthorityApart(d); }
    assert WithId(g, other) == Stage(g, []) && WithDefaults(g, kind) == Stage(g, []);
    assert WithStatus(g) == Stage(g, []) && WithAuthority(g) == Stage(g, []);
  }

  lemma AuthorityApart(d: Frontmatter)
    requires Settled(d)
    ensures Settled(WithAuthority(d).frontmatter)
  {
  }

  /** The tag stage replaces a status it cannot read, although the warning says it is
      preserved: exactly when the lifecycle tags agree on one status. */
  lemma UnreadableStatusReplaced(f: Frontmatter)
    requires f.status.Some? && CanonicalStatus(f).None?
    ensures WithTags(f).frontmatter.status != f.status <==>
              f.tags.Tags? && |TagStatuses(Lifecycle(f.tags.items))| == 1
  {
    if f.tags.Tags? {
      LifecycleAreTags(f.tags.items);
      MappingIsIdempotent(AnyOf(Lifecycle(f.tags.items)));
    }
  }

  // ------------------------------------------------------------------
  // The stages, as they run.
  // ------------------------------------------------------------------

  /** The tag pass of _migrate_tags over a YAML list. */
  method SplitTags(items: seq<Value>) returns (lifecycle: seq<string>, statuses: set<string>, filtered: seq<Value>)
    ensures lifecycle == Lifecycle(items) && filtered == Remaining(items) && statuses == TagStatuses(lifecycle)
  {
    lifecycle, statuses, filtered := [], {}, [];
    for i := 0 to |items|
      invariant lifecycle == Lifecycle(items[..i]) && filtered == Remaining(items[..i])
      invariant statuses == TagStatuses(lifecycle)
    {
      assert items[..i + 1][..i] == items[..i];
      var t := items[i].text;
      if t in LIFECYCLE_TAGS {
        statuses := statuses + {STATUS_MAPPING[t]};
        assert forall x :: x in lifecycle + [t] <==> x in lifecycle || x == t;
        lifecycle := lifecycle + [t];
      } else {
        filtered := filtered + [items[i]];
      }
    }
    assert items[..|items|] == items;
  }

  /** _migrate_tags. */
  method MigrateTags(f: Frontmatter) returns (g: Frontmatter, changes: seq<Change>)
    ensures WithTags(f) == Stage(g, changes)
  {
    g, changes := f, [];
    if f.tags.Tags? {
      var lifecycle, statuses, filtered := SplitTags(f.tags.items);
      var status := CanonicalStatus(f);
      LifecycleAreTags(f.tags.items);
      if status.None? && |statuses| == 1 {
        status := Some(STATUS_MAPPING[AnyOf(lifecycle)]);
        g, changes := g.(status := Some(Str(status.value))), changes + [SeedStatus];
      }
      if lifecycle != [] && status.Some? && statuses == {status.value} {
        g, changes := g.(tags := Tags(filtered)), changes + [RemoveLifecycleTags(lifecycle)];
      }
    }
  }

  /** The ID and the category defaults of _transform. */
  method MigrateIdentity(f: Frontmatter, kind: Kind, proposed: string) returns (g: Frontmatter, changes: seq<Change>)
    ensures var a := WithId(f, proposed);
            var b := WithDefaults(a.frontmatter, kind);
            g == b.frontmatter && changes == a.changes + b.changes
  {
    g, changes := f, [];
    if g.id.None? { g, changes := g.(id := Some(Str(proposed))), changes + [AddId]; }
    if kind == Category {
      if g.kind.None? { g, changes := g.(kind := Some(Str("category"))), changes + [AddCategoryType]; }
      if g.status.None? { g, changes := g.(status := Some(Str("current"))), changes + [AddCategoryStatus]; }
    }
  }

  /** The status and authority stages of _transform around the tag pass. */
  method MigrateLifecycle(f: Frontmatter) returns (g: Frontmatter, changes: seq<Change>)
    ensures var c := WithStatus(f);
            var d := WithTags(c.frontmatter);
            var e := WithAuthority(d.frontmatter);
            g == e.frontmatter && changes == c.changes + d.changes + e.changes
  {
    g, changes := f, [];
    var status := CanonicalStatus(g);
    if status.Some? && status.value != g.status.value.text {
      g, changes := g.(status := Some(Str(status.value))), [NormalizeStatus(g.status.value.text)];
    }
    assert Stage(g, changes) == WithStatus(f);
    var more;
    g, more := MigrateTags(g);
    changes := changes + more;
    if g.authority == Some(Str("historical")) {
      g, changes := g.(authority := Some(Str("supporting"))), changes + [NormalizeAuthority];
    }
  }

  /** _transform: the frontmatter is changed in place and every change listed. */
  method TransformNote(f: Frontmatter, kind: Kind, proposed: string, canonical: string -> bool) returns (o: Outcome)
    ensures o == Transform(f, kind, proposed, canonical)
  {
    if !IdOk(f, canonical) { return InvalidId; }
    var g, changes := MigrateIdentity(f, kind, proposed);
    var more;
    g, more := MigrateLifecycle(g);
    o := Migrated(g, changes + more);
  }
}
