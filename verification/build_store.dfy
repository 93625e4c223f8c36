/** The loaded relations, the manifest counts and the verifier's checks over them
    (src/homeops_ai/loader.py:138-326, src/homeops_ai/build.py:201-228,
    src/homeops_ai/verifier.py:79-132). */
module BuildStore {
  import opened Wrappers
  import opened Relations
  import opened Documents

  datatype Database = Database(
    sources: map<string, Source>,
    knowledge: map<string, ()>,
    categories: map<string, ()>,
    content: map<string, ()>,
    tags: map<(string, string), ()>,
    assignments: map<(string, string), string>,
    sections: map<(string, nat), Option<nat>>,
    links: map<(string, nat), LinkRow>)

  function AssignmentsOf(docs: seq<Document>, key: Fold): Document -> seq<((string, string), string)> {
    (d: Document) => AssignmentRows(d, docs, key)
  }

  function LinksOf(docs: seq<Document>, known: set<string>, key: Fold): Document -> seq<((string, nat), LinkRow)> {
    (d: Document) => LinkRows(d, docs, known, key)
  }

  /** Every relation after its rows were put. */
  function Loaded(docs: seq<Document>, known: set<string>, key: Fold): Database {
    Database(
      PutAll(Flatten(docs, SourceRow)),
      PutAll(Flatten(docs, KnowledgeRow)),
      PutAll(Flatten(docs, CategoryRow)),
      PutAll(Flatten(docs, ContentRow)),
      PutAll(Flatten(docs, TagRows)),
      PutAll(Flatten(docs, AssignmentsOf(docs, key))),
      PutAll(Flatten(docs, SectionRows)),
      PutAll(Flatten(docs, LinksOf(docs, known, key))))
  }

  // ------------------------------------------------------------------
  // Loading the parsed documents: IDs become UUIDs on the way in.
  // ------------------------------------------------------------------

  /** to_uuid: the canonical text of the UUID a string spells, if it spells one. */
  type Uuids = string -> Option<string>

  function IdAs<V>(uuid: Uuids): ((string, V)) -> Option<(string, V)> {
    (r: (string, V)) => var id := uuid(r.0); if id.Some? then Some((id.value, r.1)) else None
  }

  function OwnerAs<K, V>(uuid: Uuids): (((string, K), V)) -> Option<((string, K), V)> {
    (r: ((string, K), V)) => var id := uuid(r.0.0); if id.Some? then Some(((id.value, r.0.1), r.1)) else None
  }

  function AssignmentAs(uuid: Uuids): (((string, string), string)) -> Option<((string, string), string)> {
    (r: ((string, string), string)) =>
      var id, category := uuid(r.0.0), uuid(r.0.1);
      if id.Some? && category.Some? then Some(((id.value, category.value), r.1)) else None
  }

  /** The target column is the one that may be null. */
  function LinkAs(uuid: Uuids): (((string, nat), LinkRow)) -> Option<((string, nat), LinkRow)> {
    (r: ((string, nat), LinkRow)) =>
      var id, target := uuid(r.0.0), if r.1.target.Some? then uuid(r.1.target.value) else None;
      if id.Some? && (r.1.target.Some? ==> target.Some?)
      then Some(((id.value, r.0.1), r.1.(target := target))) else None
  }

  /** One _put into an empty relation. */
  function PutAs<R, K, V>(rows: seq<R>, convert: R -> Option<(K, V)>): Option<map<K, V>> {
    var converted := Convert(rows, convert);
    if converted.Some? then Some(PutAll(converted.value)) else None
  }

  predicate PathsUnique(docs: seq<Document>) {
    forall i, j :: 0 <= i < j < |docs| ==> docs[i].path != docs[j].path
  }

  /** load_documents; None where it raises: on a missing or repeated ID, a repeated path,
      or an ID that is no UUID. */
  function LoadedAs(docs: seq<Document>, known: set<string>, key: Fold, uuid: Uuids): Option<Database> {
    var sources := PutAs(Flatten(docs, SourceRow), IdAs(uuid));
    var knowledge := PutAs(Flatten(docs, KnowledgeRow), IdAs(uuid));
    var categories := PutAs(Flatten(docs, CategoryRow), IdAs(uuid));
    var content := PutAs(Flatten(docs, ContentRow), IdAs(uuid));
    var tags := PutAs(Flatten(docs, TagRows), OwnerAs(uuid));
    var assignments := PutAs(Flatten(docs, AssignmentsOf(docs, key)), AssignmentAs(uuid));
    var sections := PutAs(Flatten(docs, SectionRows), OwnerAs(uuid));
    var links := PutAs(Flatten(docs, LinksOf(docs, known, key)), LinkAs(uuid));
    if && IdsUnique(docs) && PathsUnique(docs)
       && sources.Some? && knowledge.Some? && categories.Some? && content.Some? && tags.Some?
       && assignments.Some? && sections.Some? && links.Some?
    then Some(Database(sources.value, knowledge.value, categories.value, content.value, tags.value,
                       assignments.value, sections.value, links.value))
    else None
  }

  /** Every ID spells a UUID. */
  predicate IdsParse(docs: seq<Document>, uuid: Uuids) {
    forall d <- docs :: d.id.Some? && uuid(d.id.value).Some?
  }

  /** No two IDs spell one UUID. */
  predicate UuidsDistinct(docs: seq<Document>, uuid: Uuids) {
    forall i, j :: 0 <= i < j < |docs| ==> uuid(Id(docs[i])) != uuid(Id(docs[j]))
  }

  /** The manifest's expected counts; only link states that occur have an entry. */
  datatype Counts = Counts(
    sources: nat, knowledge: nat, categories: nat, content: nat, tags: nat, assignments: nat,
    sections: nat, links: nat, states: map<LinkState, nat>)

  function Total(docs: seq<Document>, n: Document -> nat): nat {
    if docs == [] then 0 else Total(docs[..|docs| - 1], n) + n(docs[|docs| - 1])
  }

  /** How many of a note's category assignments name an existing category. */
  function ResolvedAssignments(d: Document, docs: seq<Document>, key: Fold, n: nat): nat
    requires n <= |d.categories|
  {
    if n == 0 then 0
    else ResolvedAssignments(d, docs, key, n - 1) + if IsCategory(docs, key, d.categories[n - 1]) then 1 else 0
  }

  function LinksIn(d: Document, docs: seq<Document>, known: set<string>, key: Fold, state: LinkState, n: nat): nat
    requires n <= |d.links|
  {
    if n == 0 then 0
    else LinksIn(d, docs, known, key, state, n - 1)
         + if ResolveLink(d.links[n - 1], d, docs, known, key).state == state then 1 else 0
  }

  function StateCount(docs: seq<Document>, known: set<string>, key: Fold, state: LinkState): nat {
    Total(docs, LinksWith(docs, known, key, state))
  }

  function LinksWith(docs: seq<Document>, known: set<string>, key: Fold, state: LinkState): Document -> nat {
    (d: Document) => LinksIn(d, docs, known, key, state, |d.links|)
  }

  function ResolvedIn(docs: seq<Document>, key: Fold): Document -> nat {
    (d: Document) => ResolvedAssignments(d, docs, key, |d.categories|)
  }

  function IsKnowledge(d: Document): nat { if d.kind == Knowledge then 1 else 0 }
  function IsCategoryNote(d: Document): nat { if d.kind == Category then 1 else 0 }
  function TagCount(d: Document): nat { |d.tags| }
  function SectionCount(d: Document): nat { |d.sections| }
  function LinkCount(d: Document): nat { |d.links| }
  function One(d: Document): nat { 1 }

  const STATES := {Resolved, Unresolved, Ambiguous, Excluded}

  /** _counts. */
  function CountsOf(docs: seq<Document>, known: set<string>, key: Fold): Counts {
    Counts(
      |docs|,
      Total(docs, IsKnowledge),
      Total(docs, IsCategoryNote),
      |docs|,
      Total(docs, TagCount),
      Total(docs, ResolvedIn(docs, key)),
      Total(docs, SectionCount),
      Total(docs, LinkCount),
      map s | s in STATES && StateCount(docs, known, key, s) > 0 :: StateCount(docs, known, key, s))
  }

  // ------------------------------------------------------------------
  // What the verifier checks.
  // ------------------------------------------------------------------

  predicate CountsAgree(db: Database, c: Counts) {
    && |db.sources| == c.sources
    && |db.knowledge| == c.knowledge
    && |db.categories| == c.categories
    && |db.content| == c.content
    && |db.tags| == c.tags
    && |db.assignments| == c.assignments
    && |db.sections| == c.sections
    && |db.links| == c.links
    && (forall s <- c.states :: |set k | k in db.links && db.links[k].state == s| == c.states[s])
  }

  predicate ReferencesAgree(db: Database, fold: Fold) {
    && (forall a, b :: a in db.sources && b in db.sources && a != b ==>
          && db.sources[a].path != db.sources[b].path
          && !(db.sources[a].kind == db.sources[b].kind && fold(db.sources[a].title) == fold(db.sources[b].title)))
    && db.knowledge.Keys <= db.sources.Keys
    && db.categories.Keys <= db.sources.Keys
    && db.content.Keys == db.sources.Keys
    && (forall k <- db.tags :: k.0 in db.sources)
    && (forall k <- db.assignments :: k.0 in db.sources && k.1 in db.categories)
    && (forall k <- db.sections :: k.0 in db.sources)
    && (forall k <- db.sections :: db.sections[k].Some? ==> (k.0, db.sections[k].value) in db.sections)
  }

  predicate LinkAgrees(db: Database, source: string, l: LinkRow) {
    && source in db.sources
    && l.state != Ambiguous
    && (l.target.Some? ==> l.target.value in db.sources)
    && (l.state == Resolved && l.kind in {Internal, SameDocument} ==> l.target.Some?)
    && (l.state != Resolved ==> l.target.None?)
    && (l.kind == SameDocument ==> l.target.None? || l.target.value == source)
  }

  predicate LinksAgree(db: Database) {
    forall k <- db.links :: LinkAgrees(db, k.0, db.links[k])
  }

  /** The verifier reports no errors about the loaded documents. */
  predicate Verified(db: Database, c: Counts, fold: Fold) {
    CountsAgree(db, c) && ReferencesAgree(db, fold) && LinksAgree(db)
  }

  /** What it means for the links of a database to pass: known sources and targets, none
      ambiguous, a target exactly where a resolved link within the vault has one. */
  lemma LinksAgreeMeans(db: Database, k: (string, nat))
    requires LinksAgree(db) && k in db.links
    ensures var l := db.links[k];
            && k.0 in db.sources && l.state != Ambiguous
            && (l.target.Some? ==> l.target.value in db.sources && l.state == Resolved)
            && (l.kind == Internal && l.state == Resolved ==> l.target.Some?)
            && (l.kind == SameDocument && l.state == Resolved ==> l.target == Some(k.0))
  {
    assert LinkAgrees(db, k.0, db.links[k]);
  }

  // ------------------------------------------------------------------
  // What the parser promises of each document.
  // ------------------------------------------------------------------

  predicate WellParsed(d: Document) {
    && Distinct(SectionRows(d))
    && (forall i, j :: 0 <= i < j < |d.links| ==> d.links[i].ordinal != d.links[j].ordinal)
    && (forall s <- d.sections :: s.parent.Some? ==> exists p :: p in d.sections && p.ordinal == s.parent.value)
  }

  /** Equal case-folded titles have equal title keys. */
  ghost predicate Coherent(key: Fold, fold: Fold) {
    forall a, b :: fold(a) == fold(b) ==> key(a) == key(b)
  }

  /** No note repeats a tag, and none names one category twice. */
  predicate NoRepeats(docs: seq<Document>, key: Fold) {
    && (forall d <- docs :: forall i, j :: 0 <= i < j < |d.tags| ==> d.tags[i] != d.tags[j])
    && (forall d <- docs :: forall i, j :: 0 <= i < j < |d.categories| ==> key(d.categories[i]) != key(d.categories[j]))
  }
}
