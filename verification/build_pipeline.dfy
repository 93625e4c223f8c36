/** The loops that validate, load and verify a build, each proved against what the
    agreement theorem is stated over (src/homeops_ai/build.py:104-198,
    src/homeops_ai/loader.py:25-59 and 287-326, src/homeops_ai/verifier.py:79-132). */
module BuildPipeline {
  import opened Wrappers
  import opened Relations
  import opened Documents
  import opened BuildStore
  import opened BuildTheorems
  import opened DocumentIds

  datatype Problem =
    | MissingDocumentId(path: string)
    | DuplicateDocumentId(path: string)
    | AmbiguousTitle(path: string)
    | UnresolvedCategory(path: string)
    | AmbiguousLink

  // ------------------------------------------------------------------
  // Validation.
  // ------------------------------------------------------------------

  /** The paths recorded under one kind and title key. */
  function PathsOf(docs: seq<Document>, key: Fold, kind: Kind, title: string): seq<string> {
    if docs == [] then []
    else
      var d := docs[|docs| - 1];
      PathsOf(docs[..|docs| - 1], key, kind, title)
      + if d.kind == kind && key(d.title) == title then [d.path] else []
  }

  lemma {:induction false} PathsFound(docs: seq<Document>, key: Fold, kind: Kind, title: string)
    ensures PathsOf(docs, key, kind, title) != [] <==> exists d :: d in docs && d.kind == kind && key(d.title) == title
  {
    if docs != [] {
      var n := |docs| - 1;
      PathsFound(docs[..n], key, kind, title);
      assert docs == docs[..n] + [docs[n]];
      assert docs[n] in docs;
    }
  }

  /** Titles are unique exactly when no key has two paths. */
  lemma {:induction false} TitlesUniqueIff(docs: seq<Document>, key: Fold)
    ensures TitlesUnique(docs, key) <==> forall kind, title :: |PathsOf(docs, key, kind, title)| <= 1
  {
    if docs != [] {
      var n := |docs| - 1;
      var d, rest := docs[n], docs[..n];
      TitlesUniqueIff(rest, key);
      PathsFound(rest, key, d.kind, key(d.title));
      if TitlesUnique(docs, key) {
        assert TitlesUnique(rest, key);
        forall kind, title ensures |PathsOf(docs, key, kind, title)| <= 1 {
          assert |PathsOf(rest, key, kind, title)| <= 1;
        }
      } else {
        var i, j :| 0 <= i < j < |docs| && docs[i].kind == docs[j].kind && key(docs[i].title) == key(docs[j].title);
        if j == n {
          assert rest[i] in rest;
          assert |PathsOf(docs, key, d.kind, key(d.title))| >= 2;
        } else {
          assert !TitlesUnique(rest, key) by { assert rest[i] == docs[i] && rest[j] == docs[j]; }
          var kind, title :| |PathsOf(rest, key, kind, title)| > 1;
          assert |PathsOf(docs, key, kind, title)| > 1;
        }
      }
    }
  }

  lemma IdsStep(docs: seq<Document>, i: nat)
    requires i < |docs|
    ensures IdsUnique(docs[..i + 1]) <==>
              && IdsUnique(docs[..i])
              && docs[i].id.Some? && docs[i].id.value != ""
              && forall j :: 0 <= j < i ==> docs[j].id != docs[i].id
  {
    var a, b := docs[..i], docs[..i + 1];
    assert b == a + [docs[i]];
    if IdsUnique(b) {
      assert docs[i] in b;
      forall j | 0 <= j < i ensures docs[j].id != docs[i].id { assert b[j].id != b[i].id; }
      forall d <- a ensures d.id.Some? && d.id.value != "" { assert d in b; }
      forall j, k | 0 <= j < k < i ensures a[j].id != a[k].id { assert b[j].id != b[k].id; }
    }
  }

  lemma PathsStep(docs: seq<Document>, key: Fold, i: nat)
    requires i < |docs|
    ensures forall kind, title ::
              PathsOf(docs[..i + 1], key, kind, title)
              == PathsOf(docs[..i], key, kind, title)
                 + if docs[i].kind == kind && key(docs[i].title) == title then [docs[i].path] else []
  {
    assert docs[..i + 1][..i] == docs[..i];
  }

  type TitlePaths = map<(Kind, string), seq<string>>

  ghost predicate IdsRecorded(ids: map<string, string>, docs: seq<Document>) {
    forall id :: id in ids <==> id != "" && exists d :: d in docs && d.id == Some(id)
  }

  ghost predicate TitlesRecorded(titlePaths: TitlePaths, docs: seq<Document>, key: Fold) {
    && (forall x :: x in titlePaths <==> PathsOf(docs, key, x.0, x.1) != [])
    && (forall x <- titlePaths :: titlePaths[x] == PathsOf(docs, key, x.0, x.1))
  }

  /** One document's ID: present, and new. */
  method RecordId(docs: seq<Document>, i: nat, ids: map<string, string>)
    returns (errors: seq<Problem>, more: map<string, string>)
    requires i < |docs| && IdsRecorded(ids, docs[..i])
    ensures IdsRecorded(more, docs[..i + 1]) == true
    ensures errors == [] ==> (IdsUnique(docs[..i]) ==> IdsUnique(docs[..i + 1]))
    ensures errors != [] ==> !IdsUnique(docs[..i + 1])
  {
    var d := docs[i];
    errors, more := [], ids;
    IdsStep(docs, i);
    assert docs[..i + 1] == docs[..i] + [d];
    if d.id.None? || d.id.value == "" {
      errors := [MissingDocumentId(d.path)];
    } else if d.id.value in ids {
      var e :| e in docs[..i] && e.id == d.id;
      errors := [DuplicateDocumentId(d.path)];
    } else {
      forall j | 0 <= j < i ensures docs[j].id != d.id { assert docs[..i][j] in docs[..i]; }
      more := ids[d.id.value := d.path];
    }
  }

  method RecordTitle(docs: seq<Document>, i: nat, key: Fold, titlePaths: TitlePaths) returns (more: TitlePaths)
    requires i < |docs| && TitlesRecorded(titlePaths, docs[..i], key)
    ensures TitlesRecorded(more, docs[..i + 1], key) == true
  {
    PathsStep(docs, key, i);
    var x := (docs[i].kind, key(docs[i].title));
    more := titlePaths[x := (if x in titlePaths then titlePaths[x] else []) + [docs[i].path]];
  }

  /** The first loop: missing and duplicate IDs, and the paths of each title. */
  method CheckIds(docs: seq<Document>, key: Fold) returns (errors: seq<Problem>, titlePaths: TitlePaths)
    ensures errors == [] <==> IdsUnique(docs)
    ensures TitlesRecorded(titlePaths, docs, key)
  {
    errors, titlePaths := [], map[];
    var ids: map<string, string> := map[];
    for i := 0 to |docs|
      invariant errors == [] <==> IdsUnique(docs[..i]) == true
      invariant IdsRecorded(ids, docs[..i]) == true
      invariant TitlesRecorded(titlePaths, docs[..i], key) == true
    {
      var found;
      IdsStep(docs, i);
      found, ids := RecordId(docs, i, ids);
      errors := errors + found;
      titlePaths := RecordTitle(docs, i, key, titlePaths);
    }
    assert docs[..|docs|] == docs;
  }

  /** The second loop: one error a shared title. */
  method CheckTitles(titlePaths: TitlePaths) returns (errors: seq<Problem>)
    ensures errors == [] <==> forall x <- titlePaths :: |titlePaths[x]| <= 1
  {
    errors := [];
    var todo := titlePaths.Keys;
    while todo != {}
      invariant todo <= titlePaths.Keys
      invariant errors == [] <==> forall x <- titlePaths :: x !in todo ==> |titlePaths[x]| <= 1
      decreases |todo|
    {
      var x :| x in todo;
      todo := todo - {x};
      if |titlePaths[x]| > 1 { errors := errors + [AmbiguousTitle(titlePaths[x][0])]; }
    }
  }

  /** The third loop, for one document: its categories. */
  method CheckCategories(d: Document, docs: seq<Document>, key: Fold) returns (errors: seq<Problem>)
    ensures errors == [] <==> forall c <- d.categories :: IsCategory(docs, key, c)
  {
    errors := [];
    for i := 0 to |d.categories|
      invariant errors == [] <==> forall j :: 0 <= j < i ==> IsCategory(docs, key, d.categories[j])
    {
      CategoryFound(docs, key, d.categories[i]);
      if CategoryId(docs, key, d.categories[i]).None? {
        errors := errors + [UnresolvedCategory(d.path)];
      }
    }
  }

  /** The third loop, for one document: how its links resolve. */
  method CountLinks(d: Document, docs: seq<Document>, known: set<string>, key: Fold, states: map<LinkState, nat>)
    returns (more: map<LinkState, nat>)
    requires forall s :: s in states ==> states[s] > 0
    ensures forall s :: At(more, s) == At(states, s) + LinksIn(d, docs, known, key, s, |d.links|)
    ensures forall s :: s in more ==> more[s] > 0
  {
    more := states;
    for i := 0 to |d.links|
      invariant forall s :: At(more, s) == At(states, s) + LinksIn(d, docs, known, key, s, i)
      invariant forall s :: s in more ==> more[s] > 0
    {
      var state := ResolveLink(d.links[i], d, docs, known, key).state;
      more := more[state := At(more, state) + 1];
    }
  }

  /** A counter's entry; absent is zero. */
  function At(counter: map<LinkState, nat>, s: LinkState): nat {
    if s in counter then counter[s] else 0
  }

  lemma SharedTitlesFound(titlePaths: TitlePaths, docs: seq<Document>, key: Fold)
    requires TitlesRecorded(titlePaths, docs, key)
    ensures (forall x <- titlePaths :: |titlePaths[x]| <= 1) <==> TitlesUnique(docs, key)
  {
    TitlesUniqueIff(docs, key);
    forall kind, title
      ensures |PathsOf(docs, key, kind, title)| <= 1 <==>
                ((kind, title) in titlePaths ==> |titlePaths[(kind, title)]| <= 1)
    {
      var x := (kind, title);
      assert x in titlePaths ==> titlePaths[x] == PathsOf(docs, key, x.0, x.1);
      assert x !in titlePaths ==> PathsOf(docs, key, x.0, x.1) == [];
    }
    if TitlesUnique(docs, key) {
      forall x <- titlePaths ensures |titlePaths[x]| <= 1 {
        assert |PathsOf(docs, key, x.0, x.1)| <= 1;
      }
    } else {
      var kind, title :| |PathsOf(docs, key, kind, title)| > 1;
      var x := (kind, title);
      assert x in titlePaths && |titlePaths[x]| > 1;
    }
  }

  /** _validate_documents: no errors exactly when the documents are clean, and the link
      counts the manifest will expect. */
  method ValidateDocuments(docs: seq<Document>, known: set<string>, key: Fold)
    returns (errors: seq<Problem>, states: map<LinkState, nat>)
    ensures errors == [] <==> Clean(docs, key)
    ensures states == CountsOf(docs, known, key).states
  {
    var titlePaths, titleErrors, found;
    errors, titlePaths := CheckIds(docs, key);
    titleErrors := CheckTitles(titlePaths);
    SharedTitlesFound(titlePaths, docs, key);
    errors := errors + titleErrors;
    states, found := CheckDocuments(docs, known, key);
    errors := errors + found;
    if At(states, Ambiguous) > 0 { errors := errors + [AmbiguousLink]; }
    if TitlesUnique(docs, key) { NoneAmbiguous(docs, docs, known, key); }
  }

  method CheckDocuments(docs: seq<Document>, known: set<string>, key: Fold)
    returns (states: map<LinkState, nat>, errors: seq<Problem>)
    ensures errors == [] <==> CategoriesResolve(docs, key)
    ensures states == CountsOf(docs, known, key).states
    ensures forall s :: At(states, s) == StateCount(docs, known, key, s)
  {
    states, errors := map[], [];
    for i := 0 to |docs|
      invariant errors == [] <==> forall j :: 0 <= j < i ==> forall c <- docs[j].categories :: IsCategory(docs, key, c)
      invariant forall s :: At(states, s) == Total(docs[..i], LinksWith(docs, known, key, s))
      invariant forall s :: s in states ==> states[s] > 0
    {
      var found := CheckCategories(docs[i], docs, key);
      states := CountLinks(docs[i], docs, known, key, states);
      errors := errors + found;
      assert docs[..i + 1][..i] == docs[..i];
    }
    assert docs[..|docs|] == docs;
    assert forall s :: At(states, s) == StateCount(docs, known, key, s);
    forall s: LinkState ensures s in STATES { match s case Resolved => case _ => }
    assert states.Keys == CountsOf(docs, known, key).states.Keys;
  }

  /** With unique titles the ambiguous count is zero. */
  lemma {:induction false} NoneAmbiguous(part: seq<Document>, docs: seq<Document>, known: set<string>, key: Fold)
    requires TitlesUnique(docs, key)
    ensures Total(part, LinksWith(docs, known, key, Ambiguous)) == 0
  {
    if part != [] {
      var n := |part| - 1;
      NoneAmbiguous(part[..n], docs, known, key);
      NoneAmbiguousIn(part[n], docs, known, key, |part[n].links|);
    }
  }

  lemma {:induction false} NoneAmbiguousIn(d: Document, docs: seq<Document>, known: set<string>, key: Fold, n: nat)
    requires TitlesUnique(docs, key) && n <= |d.links|
    ensures LinksIn(d, docs, known, key, Ambiguous, n) == 0
  {
    if n > 0 {
      NoneAmbiguousIn(d, docs, known, key, n - 1);
      NeverAmbiguous(d.links[n - 1], d, docs, known, key);
    }
  }

  // ------------------------------------------------------------------
  // Loading.
  // ------------------------------------------------------------------

  /** _put: rows in order, with their ID columns converted, into a relation that has just
      been created. */
  method Put<R, K(==), V>(rows: seq<R>, convert: R -> Option<(K, V)>) returns (relation: Option<map<K, V>>)
    ensures relation == PutAs(rows, convert)
  {
    var converted: seq<(K, V)> := [];
    for i := 0 to |rows|
      invariant Convert(rows[..i], convert) == Some(converted)
    {
      assert rows[..i + 1][..i] == rows[..i];
      var row := convert(rows[i]);
      if row.None? {
        ConvertFails(rows, convert, rows[i]);
        return None;
      }
      converted := converted + [row.value];
    }
    assert rows[..|rows|] == rows;
    var stored: map<K, V> := map[];
    for i := 0 to |converted|
      invariant stored == PutAll(converted[..i])
    {
      stored := stored[converted[i].0 := converted[i].1];
      assert converted[..i + 1][..i] == converted[..i];
    }
    assert converted[..|converted|] == converted;
    relation := Some(stored);
  }

  predicate IdFresh(docs: seq<Document>, i: nat, ids: set<string>)
    requires i < |docs|
  {
    docs[i].id.Some? && docs[i].id.value != "" && docs[i].id.value !in ids
  }

  function IdSet(docs: seq<Document>, i: nat): set<string>
    requires i <= |docs|
  {
    set j | 0 <= j < i :: Id(docs[j])
  }

  function PathSet(docs: seq<Document>, i: nat): set<string>
    requires i <= |docs|
  {
    set j | 0 <= j < i :: docs[j].path
  }

  lemma IdFreshStep(docs: seq<Document>, i: nat)
    requires i < |docs|
    ensures IdsUnique(docs[..i + 1]) <==> IdsUnique(docs[..i]) && IdFresh(docs, i, IdSet(docs, i))
  {
    IdsStep(docs, i);
    if IdsUnique(docs[..i]) {
      forall j | 0 <= j < i ensures docs[j].id == Some(Id(docs[j])) { assert docs[..i][j] in docs[..i]; }
    }
  }

  /** The loader's own check: IDs present and new, paths new. */
  method CheckLoadable(docs: seq<Document>) returns (ok: bool)
    ensures ok <==> IdsUnique(docs) && PathsUnique(docs)
  {
    var ids, paths: set<string> := {}, {};
    ok := true;
    for i := 0 to |docs|
      invariant ids == IdSet(docs, i) && paths == PathSet(docs, i)
      invariant ok == (IdsUnique(docs[..i]) && PathsUnique(docs[..i]))
    {
      IdFreshStep(docs, i);
      SourcePathsStep(docs, i);
      ok := ok && IdFresh(docs, i, ids) && docs[i].path !in paths;
      ids, paths := ids + {Id(docs[i])}, paths + {docs[i].path};
    }
    assert docs[..|docs|] == docs;
  }

  lemma SourcePathsStep(docs: seq<Document>, i: nat)
    requires i < |docs|
    ensures PathsUnique(docs[..i + 1]) <==>
              PathsUnique(docs[..i]) && docs[i].path !in PathSet(docs, i)
  {
    var a, b := docs[..i], docs[..i + 1];
    assert b == a + [docs[i]];
    if PathsUnique(b) {
      forall j | 0 <= j < i ensures docs[j].path != docs[i].path { assert b[j].path != b[i].path; }
      forall j, k | 0 <= j < k < i ensures a[j].path != a[k].path { assert b[j].path != b[k].path; }
    }
  }

  /** The nested loop that builds the link rows. */
  method BuildLinkRows(docs: seq<Document>, known: set<string>, key: Fold)
    returns (rows: seq<((string, nat), LinkRow)>)
    ensures rows == Flatten(docs, LinksOf(docs, known, key))
  {
    rows := [];
    for i := 0 to |docs|
      invariant rows == Flatten(docs[..i], LinksOf(docs, known, key))
    {
      var d, before := docs[i], rows;
      for j := 0 to |d.links|
        invariant rows == before + LinkRows(d, docs, known, key)[..j]
      {
        var r := ResolveLink(d.links[j], d, docs, known, key);
        rows := rows + [((Id(d), d.links[j].ordinal), LinkRow(d.links[j].kind, r.state, r.target))];
      }
      assert docs[..i + 1][..i] == docs[..i];
    }
    assert docs[..|docs|] == docs;
  }

  /** load_documents; None where it raises. */
  method LoadDocuments(docs: seq<Document>, known: set<string>, key: Fold, uuid: Uuids) returns (db: Option<Database>)
    ensures db == LoadedAs(docs, known, key, uuid)
  {
    var ok := CheckLoadable(docs);
    if !ok { return None; }
    var sources := Put(Flatten(docs, SourceRow), IdAs(uuid));
    var content := Put(Flatten(docs, ContentRow), IdAs(uuid));
    var knowledge := Put(Flatten(docs, KnowledgeRow), IdAs(uuid));
    var categories := Put(Flatten(docs, CategoryRow), IdAs(uuid));
    var tags := Put(Flatten(docs, TagRows), OwnerAs(uuid));
    var assignments := Put(Flatten(docs, AssignmentsOf(docs, key)), AssignmentAs(uuid));
    var sections := Put(Flatten(docs, SectionRows), OwnerAs(uuid));
    var linkRows := BuildLinkRows(docs, known, key);
    var links := Put(linkRows, LinkAs(uuid));
    if sources.None? || content.None? || knowledge.None? || categories.None? || tags.None? || assignments.None?
       || sections.None? || links.None?
    {
      return None;
    }
    db := Some(Database(sources.value, knowledge.value, categories.value, content.value, tags.value,
                        assignments.value, sections.value, links.value));
  }

  // ------------------------------------------------------------------
  // Verification.
  // ------------------------------------------------------------------

  datatype Complaint =
    | CountMismatch | StateMismatch(state: LinkState) | PathsNotUnique | TitlesNotUnique | UnknownDocument
    | ContentNotCovered | BadAssignment | BadParent | BadLink(source: string)
    | WrongDirectory | NotOneRun | RunMismatch

  /** A column has as many values as the relation has rows exactly when none repeats. */
  lemma {:induction false} ColumnCount<K, V>(m: map<K, V>)
    ensures |m.Values| <= |m|
    ensures |m.Values| == |m| <==> forall a, b :: a in m && b in m && a != b ==> m[a] != m[b]
    decreases |m|
  {
    if m.Keys != {} {
      var x :| x in m;
      var rest := m - {x};
      assert rest.Keys == m.Keys - {x};
      ColumnCount(rest);
      forall v ensures v in m.Values <==> v in rest.Values || v == m[x] {
        if v in m.Values && v != m[x] { var k :| k in m && m[k] == v; assert rest[k] == v; }
      }
      assert m.Values == rest.Values + {m[x]};
      if m[x] in rest.Values {
        assert m.Values == rest.Values;
        var y :| y in rest && rest[y] == m[x];
      } else {
        assert |m.Values| == |rest.Values| + 1;
        forall a, b | a in m && b in m && a != b && |rest.Values| == |rest| ensures m[a] != m[b] {
          if a == x { assert rest[b] in rest.Values; }
          else if b == x { assert rest[a] in rest.Values; }
          else { assert rest[a] != rest[b]; }
        }
        forall a, b | a in rest && b in rest && a != b && |m.Values| == |m| ensures rest[a] != rest[b] {
        }
      }
    }
  }

  /** The count checks. */
  method CheckCounts(db: Database, c: Counts) returns (errors: seq<Complaint>)
    ensures errors == [] <==> CountsAgree(db, c)
  {
    errors := [];
    if |db.sources| != c.sources || |db.knowledge| != c.knowledge || |db.categories| != c.categories
       || |db.content| != c.content || |db.tags| != c.tags || |db.assignments| != c.assignments
       || |db.sections| != c.sections || |db.links| != c.links
    {
      errors := [CountMismatch];
    }
    var todo := c.states.Keys;
    ghost var start := errors;
    while todo != {}
      invariant todo <= c.states.Keys
      invariant errors == [] <==>
                  (&& start == []
                   && forall s :: s in c.states && s !in todo ==>
                        |set k | k in db.links && db.links[k].state == s| == c.states[s])
      decreases |todo|
    {
      var s :| s in todo;
      todo := todo - {s};
      if |set k | k in db.links && db.links[k].state == s| != c.states[s] { errors := errors + [StateMismatch(s)]; }
    }
  }

  /** The uniqueness checks compare the length of a list with that of a set. */
  method CheckPaths(sources: map<string, Source>) returns (errors: seq<Complaint>)
    ensures errors == [] <==>
              forall a, b :: a in sources && b in sources && a != b ==> sources[a].path != sources[b].path
  {
    var paths := map k | k in sources :: sources[k].path;
    ColumnCount(paths);
    errors := if |paths.Values| != |paths| then [PathsNotUnique] else [];
    if forall a, b :: a in paths && b in paths && a != b ==> paths[a] != paths[b] {
      forall a, b | a in sources && b in sources && a != b ensures sources[a].path != sources[b].path {
        assert paths[a] != paths[b];
      }
    }
  }

  method CheckFoldedTitles(sources: map<string, Source>, fold: Fold) returns (errors: seq<Complaint>)
    ensures errors == [] <==>
              forall a, b :: a in sources && b in sources && a != b ==>
                !(sources[a].kind == sources[b].kind && fold(sources[a].title) == fold(sources[b].title))
  {
    var titles := map k | k in sources :: (sources[k].kind, fold(sources[k].title));
    ColumnCount(titles);
    errors := if |titles.Values| != |titles| then [TitlesNotUnique] else [];
    if forall a, b :: a in titles && b in titles && a != b ==> titles[a] != titles[b] {
      forall a, b | a in sources && b in sources && a != b
        ensures !(sources[a].kind == sources[b].kind && fold(sources[a].title) == fold(sources[b].title))
      {
        assert titles[a] != titles[b];
      }
    }
  }

  /** The reference and parent checks, given what the uniqueness checks found. */
  method CheckReferences(db: Database, fold: Fold) returns (errors: seq<Complaint>)
    ensures errors == [] <==> ReferencesAgree(db, fold)
  {
    errors := CheckPaths(db.sources);
    var titles := CheckFoldedTitles(db.sources, fold);
    errors := errors + titles;
    var documents := CheckDocumentRows(db);
    var parents := CheckSectionRows(db);
    errors := errors + documents + parents;
  }

  method CheckDocumentRows(db: Database) returns (errors: seq<Complaint>)
    ensures errors == [] <==>
              && db.knowledge.Keys <= db.sources.Keys
              && db.categories.Keys <= db.sources.Keys
              && db.content.Keys == db.sources.Keys
              && (forall k <- db.tags :: k.0 in db.sources)
              && (forall k <- db.assignments :: k.0 in db.sources && k.1 in db.categories)
  {
    errors := [];
    if !(db.knowledge.Keys <= db.sources.Keys && db.categories.Keys <= db.sources.Keys) {
      errors := errors + [UnknownDocument];
    }
    if db.content.Keys != db.sources.Keys { errors := errors + [ContentNotCovered]; }
    if !(forall k <- db.tags :: k.0 in db.sources) { errors := errors + [UnknownDocument]; }
    if !(forall k <- db.assignments :: k.0 in db.sources && k.1 in db.categories) {
      errors := errors + [BadAssignment];
    }
  }

  method CheckSectionRows(db: Database) returns (errors: seq<Complaint>)
    ensures errors == [] <==>
              && (forall k <- db.sections :: k.0 in db.sources)
              && (forall k <- db.sections :: db.sections[k].Some? ==> (k.0, db.sections[k].value) in db.sections)
  {
    errors := [];
    if !(forall k <- db.sections :: k.0 in db.sources) { errors := errors + [UnknownDocument]; }
    if !(forall k <- db.sections :: db.sections[k].Some? ==> (k.0, db.sections[k].value) in db.sections) {
      errors := errors + [BadParent];
    }
  }

  /** The link loop. */
  method CheckLinks(db: Database) returns (errors: seq<Complaint>)
    ensures errors == [] <==> LinksAgree(db)
  {
    errors := [];
    var todo := db.links.Keys;
    while todo != {}
      invariant todo <= db.links.Keys
      invariant errors == [] <==> forall k <- db.links :: k !in todo ==> LinkAgrees(db, k.0, db.links[k])
      decreases |todo|
    {
      var k :| k in todo;
      todo := todo - {k};
      if !LinkAgrees(db, k.0, db.links[k]) { errors := errors + [BadLink(k.0)]; }
    }
  }

  /** verify's checks of what was loaded from documents. */
  method VerifyDocuments(db: Database, c: Counts, fold: Fold) returns (errors: seq<Complaint>)
    ensures errors == [] <==> Verified(db, c, fold)
  {
    errors := CheckCounts(db, c);
    var references := CheckReferences(db, fold);
    var links := CheckLinks(db);
    errors := errors + references + links;
  }

  /** The ingestion run and what the manifest repeats of it. */
  datatype Run = Run(root: string, source: string, logical: string, result: string)

  datatype Manifest = Manifest(id: string, directory: string, run: Run)

  /** The manifest names its directory, and the one ingestion run is the manifest's. */
  predicate RunAgrees(runs: map<string, Run>, m: Manifest) {
    m.id == m.directory && runs == map[m.id := m.run]
  }

  lemma OnlyRun(runs: map<string, Run>, id: string)
    requires |runs| == 1 && id in runs
    ensures runs == map[id := runs[id]]
  {
    assert |runs.Keys - {id}| == 0;
  }

  /** verify's checks of the ingestion run. */
  method CheckRun(runs: map<string, Run>, m: Manifest) returns (errors: seq<Complaint>)
    ensures errors == [] <==> RunAgrees(runs, m)
  {
    errors := if m.id != m.directory then [WrongDirectory] else [];
    if |runs| != 1 {
      errors := errors + [NotOneRun];
    } else {
      var id :| id in runs;
      OnlyRun(runs, id);
      if id != m.id || runs[id] != m.run { errors := errors + [RunMismatch]; }
    }
  }

  /** verify. */
  method Verify(db: Database, runs: map<string, Run>, m: Manifest, c: Counts, fold: Fold)
    returns (errors: seq<Complaint>)
    ensures errors == [] <==> RunAgrees(runs, m) && Verified(db, c, fold)
  {
    errors := VerifyDocuments(db, c, fold);
    var run := CheckRun(runs, m);
    errors := errors + run;
  }

  /** rebuild's two looks at what it loaded: at the candidate run, then at the verified one
      that replaces it. */
  method VerifyTwice(db: Database, candidate: Manifest, c: Counts, fold: Fold, uuid: Uuids) returns (verified: bool)
    requires candidate.id == candidate.directory && uuid(candidate.id) == Some(candidate.id)
    ensures verified <==> Verified(db, c, fold)
  {
    var runs := map[uuid(candidate.id).value := candidate.run];
    var first := Verify(db, runs, candidate, c, fold);
    if first != [] { return false; }
    var final := candidate.(run := candidate.run.(result := "verified"));
    runs := runs[uuid(final.id).value := final.run];
    assert runs == map[final.id := final.run];
    var second := Verify(db, runs, final, c, fold);
    verified := second == [];
  }

  /** The document side of rebuild: refuse what does not validate, load the rest and a
      candidate run, verify, replace the run by a verified one and verify again, each time
      against the counts taken before.  A build of valid documents is verified exactly when
      no two share a path, every ID is a UUID, no two IDs are one UUID, and no note repeats
      a tag or a category; the second look never overturns the first. */
  method BuildDocuments(docs: seq<Document>, known: set<string>, key: Fold, fold: Fold, uuid: Uuids,
                        candidate: Manifest)
    returns (valid: bool, verified: bool)
    requires Coherent(key, fold) && forall d <- docs :: WellParsed(d)
    requires candidate.id == candidate.directory && uuid(candidate.id) == Some(candidate.id)
    ensures valid <==> Clean(docs, key)
    ensures verified <==>
              && valid && PathsUnique(docs) && IdsParse(docs, uuid) && UuidsDistinct(docs, uuid)
              && NoRepeats(docs, key)
  {
    var errors, states := ValidateDocuments(docs, known, key);
    valid, verified := errors == [], false;
    if valid {
      var counts := CountsOf(docs, known, key);
      BuildsIff(docs, known, key, fold, uuid);
      var db := LoadDocuments(docs, known, key, uuid);
      if db.Some? {
        verified := VerifyTwice(db.value, candidate, counts, fold, uuid);
      }
    }
  }
}
