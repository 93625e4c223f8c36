/** Validation, loading and verification agree with each other, for documents that carry
    the IDs their rows are keyed by. */
module BuildTheorems {
  import opened Wrappers
  import opened Relations
  import opened Documents
  import opened BuildStore

  // ------------------------------------------------------------------
  // Counts.
  // ------------------------------------------------------------------

  lemma {:induction false} FlattenLength<R>(docs: seq<Document>, f: Document -> seq<R>, n: Document -> nat)
    requires forall d <- docs :: |f(d)| == n(d)
    ensures |Flatten(docs, f)| == Total(docs, n)
  {
    if docs != [] { FlattenLength(docs[..|docs| - 1], f, n); }
  }

  lemma {:induction false} TotalOne(docs: seq<Document>)
    ensures Total(docs, One) == |docs|
  {
    if docs != [] { TotalOne(docs[..|docs| - 1]); }
  }

  /** A relation over the documents has as many rows as expected exactly when no document
      repeats one of its keys. */
  lemma RelationCount<K, V>(docs: seq<Document>, f: Document -> seq<(K, V)>, owner: K -> string, n: Document -> nat)
    requires IdsDistinct(docs)
    requires forall d <- docs :: |f(d)| == n(d) && forall r <- f(d) :: owner(r.0) == Id(d)
    ensures |PutAll(Flatten(docs, f))| <= Total(docs, n)
    ensures |PutAll(Flatten(docs, f))| == Total(docs, n) <==> forall d <- docs :: Distinct(f(d))
  {
    FlattenLength(docs, f, n);
    FlattenDistinct(docs, f, owner);
    PutAllCounts(Flatten(docs, f));
  }

  lemma TagsDistinct(d: Document)
    ensures Distinct(TagRows(d)) <==> forall i, j :: 0 <= i < j < |d.tags| ==> d.tags[i] != d.tags[j]
  {
    var rows := TagRows(d);
    forall i, j | 0 <= i < j < |d.tags| ensures rows[i].0 != rows[j].0 <==> d.tags[i] != d.tags[j] {
      assert rows[i].0 == (Id(d), d.tags[i]) && rows[j].0 == (Id(d), d.tags[j]);
    }
  }

  // ------------------------------------------------------------------
  // Category assignments.
  // ------------------------------------------------------------------

  /** The category index finds a category exactly when there is one, and it is a loaded one. */
  lemma {:induction false} CategoryFound(docs: seq<Document>, key: Fold, title: string)
    ensures CategoryId(docs, key, title).Some? <==> IsCategory(docs, key, title)
    ensures CategoryId(docs, key, title).Some? ==>
              exists d :: d in docs && d.kind == Category && key(d.title) == key(title)
                          && Id(d) == CategoryId(docs, key, title).value
  {
    if docs != [] {
      var n := |docs| - 1;
      CategoryFound(docs[..n], key, title);
      assert docs == docs[..n] + [docs[n]];
      assert docs[n] in docs;
    }
  }

  /** Two titles lead to one category exactly when their keys are equal. */
  lemma CategoryByKey(docs: seq<Document>, key: Fold, a: string, b: string)
    requires IdsDistinct(docs) && TitlesUnique(docs, key)
    requires IsCategory(docs, key, a) && IsCategory(docs, key, b)
    ensures CategoryId(docs, key, a) == CategoryId(docs, key, b) <==> key(a) == key(b)
  {
    CategoryFound(docs, key, a);
    CategoryFound(docs, key, b);
    var d :| d in docs && d.kind == Category && key(d.title) == key(a) && Id(d) == CategoryId(docs, key, a).value;
    var e :| e in docs && e.kind == Category && key(e.title) == key(b) && Id(e) == CategoryId(docs, key, b).value;
    var i :| 0 <= i < |docs| && docs[i] == d;
    var j :| 0 <= j < |docs| && docs[j] == e;
    if i < j { assert docs[i].id != docs[j].id; }
    if j < i { assert docs[j].id != docs[i].id; }
  }

  /** When every assignment resolves, a note's assignment rows mirror its categories. */
  lemma {:induction false} AssignmentsMirror(d: Document, docs: seq<Document>, key: Fold, n: nat)
    requires n <= |d.categories| && forall c <- d.categories :: IsCategory(docs, key, c)
    ensures var rows := AssignmentsUpTo(d, docs, key, n);
            && |rows| == n == ResolvedAssignments(d, docs, key, n)
            && forall i :: 0 <= i < n ==>
                 CategoryId(docs, key, d.categories[i]).Some?
                 && rows[i] == ((Id(d), CategoryId(docs, key, d.categories[i]).value), d.categories[i])
  {
    if n > 0 {
      AssignmentsMirror(d, docs, key, n - 1);
      assert d.categories[n - 1] in d.categories;
      CategoryFound(docs, key, d.categories[n - 1]);
    }
  }

  lemma AssignmentsDistinct(d: Document, docs: seq<Document>, key: Fold)
    requires Sound(docs, key) && d in docs
    ensures Distinct(AssignmentRows(d, docs, key)) <==>
              forall i, j :: 0 <= i < j < |d.categories| ==> key(d.categories[i]) != key(d.categories[j])
  {
    AssignmentsMirror(d, docs, key, |d.categories|);
    var rows := AssignmentRows(d, docs, key);
    forall i, j | 0 <= i < j < |d.categories|
      ensures rows[i].0 != rows[j].0 <==> key(d.categories[i]) != key(d.categories[j])
    {
      assert d.categories[i] in d.categories && d.categories[j] in d.categories;
      CategoryByKey(docs, key, d.categories[i], d.categories[j]);
    }
  }

  // ------------------------------------------------------------------
  // What is found in a loaded relation.
  // ------------------------------------------------------------------

  /** With distinct keys a relation holds exactly the documents' rows. */
  lemma RelationHolds<K, V>(docs: seq<Document>, f: Document -> seq<(K, V)>, owner: K -> string)
    requires IdsDistinct(docs)
    requires forall d <- docs :: Distinct(f(d)) && forall r <- f(d) :: owner(r.0) == Id(d)
    ensures var m := PutAll(Flatten(docs, f));
            && (forall d <- docs :: forall r <- f(d) :: r.0 in m && m[r.0] == r.1)
            && (forall k <- m :: exists d :: d in docs && (k, m[k]) in f(d))
  {
    FlattenDistinct(docs, f, owner);
    var rows := Flatten(docs, f);
    var m := PutAll(rows);
    forall d <- docs, r <- f(d) ensures r.0 in m && m[r.0] == r.1 {
      FlattenHolds(docs, f, d, r);
      var i :| 0 <= i < |rows| && rows[i] == r;
      PutAllFinds(rows, i);
    }
    forall k <- m ensures exists d :: d in docs && (k, m[k]) in f(d) {
      PutAllHolds(rows, k);
    }
  }

  /** The document a row of a relation came from. */
  lemma RowSource<K, V>(docs: seq<Document>, f: Document -> seq<(K, V)>, owner: K -> string, k: K) returns (d: Document)
    requires IdsDistinct(docs) && k in PutAll(Flatten(docs, f))
    requires forall d <- docs :: forall r <- f(d) :: owner(r.0) == Id(d)
    ensures d in docs && (k, PutAll(Flatten(docs, f))[k]) in f(d) && owner(k) == Id(d)
  {
    FlattenDistinct(docs, f, owner);
    PutAllHolds(Flatten(docs, f), k);
    var row := (k, PutAll(Flatten(docs, f))[k]);
    d :| d in docs && row in f(d);
  }

  /** A document has this ID. */
  predicate Owned(docs: seq<Document>, id: string) {
    exists d :: d in docs && Id(d) == id
  }

  predicate OwnedBy(docs: seq<Document>, kind: Kind, id: string) {
    exists d :: d in docs && d.kind == kind && Id(d) == id
  }

  function Itself(id: string): string { id }
  function OwnerOf(k: (string, string)): string { k.0 }
  function SectionOwner(k: (string, nat)): string { k.0 }

  lemma SourceCount(docs: seq<Document>)
    requires IdsDistinct(docs)
    ensures |PutAll(Flatten(docs, SourceRow))| == |docs|
  {
    TotalOne(docs);
    RelationCount(docs, SourceRow, Itself, One);
  }

  lemma ContentCount(docs: seq<Document>)
    requires IdsDistinct(docs)
    ensures |PutAll(Flatten(docs, ContentRow))| == |docs|
  {
    TotalOne(docs);
    RelationCount(docs, ContentRow, Itself, One);
  }

  lemma KnowledgeCount(docs: seq<Document>)
    requires IdsDistinct(docs)
    ensures |PutAll(Flatten(docs, KnowledgeRow))| == Total(docs, IsKnowledge)
  {
    RelationCount(docs, KnowledgeRow, Itself, IsKnowledge);
  }

  lemma CategoryCount(docs: seq<Document>)
    requires IdsDistinct(docs)
    ensures |PutAll(Flatten(docs, CategoryRow))| == Total(docs, IsCategoryNote)
  {
    RelationCount(docs, CategoryRow, Itself, IsCategoryNote);
  }

  /** The relations keyed by document alone: one row a document, one row a document of
      the kind. */
  lemma DocumentRelations(docs: seq<Document>, known: set<string>, key: Fold)
    requires IdsDistinct(docs)
    ensures var db, c := Loaded(docs, known, key), CountsOf(docs, known, key);
            && |db.sources| == c.sources && |db.content| == c.content
            && |db.knowledge| == c.knowledge && |db.categories| == c.categories
  {
    SourceCount(docs);
    ContentCount(docs);
    KnowledgeCount(docs);
    CategoryCount(docs);
  }

  lemma SourceKeys(docs: seq<Document>)
    requires IdsDistinct(docs)
    ensures var m := PutAll(Flatten(docs, SourceRow));
            && (forall d <- docs :: Id(d) in m && m[Id(d)] == Source(d.path, d.kind, d.title))
            && (forall k <- m :: Owned(docs, k))
  {
    RelationHolds(docs, SourceRow, Itself);
    forall d <- docs ensures (Id(d), Source(d.path, d.kind, d.title)) in SourceRow(d) {
      assert SourceRow(d)[0] == (Id(d), Source(d.path, d.kind, d.title));
    }
  }

  lemma ContentKeys(docs: seq<Document>, k: string)
    requires IdsDistinct(docs)
    ensures k in PutAll(Flatten(docs, ContentRow)) <==> Owned(docs, k)
  {
    RelationHolds(docs, ContentRow, Itself);
    if d :| d in docs && Id(d) == k { assert ContentRow(d)[0] in ContentRow(d); }
    if k in PutAll(Flatten(docs, ContentRow)) { var d := RowSource(docs, ContentRow, Itself, k); }
  }

  lemma KnowledgeKeys(docs: seq<Document>, k: string)
    requires IdsDistinct(docs)
    ensures k in PutAll(Flatten(docs, KnowledgeRow)) <==> OwnedBy(docs, Knowledge, k)
  {
    RelationHolds(docs, KnowledgeRow, Itself);
    if d :| d in docs && d.kind == Knowledge && Id(d) == k { assert KnowledgeRow(d)[0] in KnowledgeRow(d); }
    if k in PutAll(Flatten(docs, KnowledgeRow)) { var d := RowSource(docs, KnowledgeRow, Itself, k); }
  }

  lemma CategoryKeys(docs: seq<Document>, k: string)
    requires IdsDistinct(docs)
    ensures k in PutAll(Flatten(docs, CategoryRow)) <==> OwnedBy(docs, Category, k)
  {
    RelationHolds(docs, CategoryRow, Itself);
    if d :| d in docs && d.kind == Category && Id(d) == k { assert CategoryRow(d)[0] in CategoryRow(d); }
    if k in PutAll(Flatten(docs, CategoryRow)) { var d := RowSource(docs, CategoryRow, Itself, k); }
  }

  // ------------------------------------------------------------------
  // Tags, assignments, sections, links.
  // ------------------------------------------------------------------

  lemma TagRelation(docs: seq<Document>, known: set<string>, key: Fold)
    requires IdsDistinct(docs)
    ensures |Loaded(docs, known, key).tags| == CountsOf(docs, known, key).tags <==>
              forall d <- docs :: forall i, j :: 0 <= i < j < |d.tags| ==> d.tags[i] != d.tags[j]
    ensures forall k <- Loaded(docs, known, key).tags :: Owned(docs, k.0)
  {
    RelationCount(docs, TagRows, OwnerOf, TagCount);
    forall d <- docs ensures Distinct(TagRows(d)) <==> forall i, j :: 0 <= i < j < |d.tags| ==> d.tags[i] != d.tags[j] {
      TagsDistinct(d);
    }
    forall k <- Loaded(docs, known, key).tags ensures Owned(docs, k.0) {
      var d := RowSource(docs, TagRows, OwnerOf, k);
    }
  }

  lemma AssignmentShape(d: Document, docs: seq<Document>, key: Fold)
    requires Sound(docs, key) && d in docs
    ensures var rows := AssignmentRows(d, docs, key);
            && |rows| == ResolvedIn(docs, key)(d)
            && forall r <- rows :: r.0.0 == Id(d) && OwnedBy(docs, Category, r.0.1)
  {
    AssignmentsMirror(d, docs, key, |d.categories|);
    var rows := AssignmentRows(d, docs, key);
    forall r <- rows ensures r.0.0 == Id(d) && OwnedBy(docs, Category, r.0.1) {
      var i :| 0 <= i < |rows| && rows[i] == r;
      CategoryFound(docs, key, d.categories[i]);
    }
  }

  lemma AssignmentRelation(docs: seq<Document>, known: set<string>, key: Fold)
    requires Sound(docs, key)
    ensures |Loaded(docs, known, key).assignments| == CountsOf(docs, known, key).assignments <==>
              forall d <- docs :: forall i, j :: 0 <= i < j < |d.categories| ==>
                key(d.categories[i]) != key(d.categories[j])
    ensures forall k <- Loaded(docs, known, key).assignments ::
              Owned(docs, k.0)
              && OwnedBy(docs, Category, k.1)
  {
    var f := AssignmentsOf(docs, key);
    forall d <- docs
      ensures |f(d)| == ResolvedIn(docs, key)(d) && forall r <- f(d) :: OwnerOf(r.0) == Id(d)
      ensures Distinct(f(d)) <==>
                forall i, j :: 0 <= i < j < |d.categories| ==> key(d.categories[i]) != key(d.categories[j])
    {
      AssignmentShape(d, docs, key);
      AssignmentsDistinct(d, docs, key);
    }
    RelationCount(docs, f, OwnerOf, ResolvedIn(docs, key));
    forall k <- Loaded(docs, known, key).assignments
      ensures Owned(docs, k.0)
      ensures OwnedBy(docs, Category, k.1)
    {
      var d := RowSource(docs, f, OwnerOf, k);
      AssignmentShape(d, docs, key);
    }
  }

  lemma ParentRow(d: Document, i: nat)
    requires WellParsed(d) && i < |d.sections| && d.sections[i].parent.Some?
    ensures exists r :: r in SectionRows(d) && r.0 == (Id(d), d.sections[i].parent.value)
  {
    assert d.sections[i] in d.sections;
    var p :| p in d.sections && p.ordinal == d.sections[i].parent.value;
    var j :| 0 <= j < |d.sections| && d.sections[j] == p;
    assert SectionRows(d)[j] in SectionRows(d) && SectionRows(d)[j].0 == (Id(d), p.ordinal);
  }

  lemma SectionRelation(docs: seq<Document>, known: set<string>, key: Fold)
    requires IdsDistinct(docs) && forall d <- docs :: WellParsed(d)
    ensures |Loaded(docs, known, key).sections| == CountsOf(docs, known, key).sections
    ensures var m := Loaded(docs, known, key).sections;
            && (forall k <- m :: Owned(docs, k.0))
            && (forall k <- m :: m[k].Some? ==> (k.0, m[k].value) in m)
  {
    RelationCount(docs, SectionRows, SectionOwner, SectionCount);
    SectionsHold(docs);
  }

  lemma SectionsOwned(docs: seq<Document>, k: (string, nat))
    requires IdsDistinct(docs) && k in PutAll(Flatten(docs, SectionRows))
    ensures Owned(docs, k.0)
  {
    var d := RowSource(docs, SectionRows, SectionOwner, k);
  }

  /** The parent of a document's section row is one of its rows. */
  lemma ParentOfRow(d: Document, k: (string, nat), parent: Option<nat>) returns (r: ((string, nat), Option<nat>))
    requires WellParsed(d) && (k, parent) in SectionRows(d) && parent.Some?
    ensures r in SectionRows(d) && r.0 == (k.0, parent.value)
  {
    var i :| 0 <= i < |d.sections| && SectionRows(d)[i] == (k, parent);
    ParentRow(d, i);
    r :| r in SectionRows(d) && r.0 == (Id(d), d.sections[i].parent.value);
  }

  lemma ParentsHold(docs: seq<Document>, k: (string, nat))
    requires IdsDistinct(docs) && (forall d <- docs :: WellParsed(d)) && k in PutAll(Flatten(docs, SectionRows))
    ensures var m := PutAll(Flatten(docs, SectionRows)); m[k].Some? ==> (k.0, m[k].value) in m
  {
    RelationHolds(docs, SectionRows, SectionOwner);
    var m := PutAll(Flatten(docs, SectionRows));
    if m[k].Some? {
      var d := RowSource(docs, SectionRows, SectionOwner, k);
      var r := ParentOfRow(d, k, m[k]);
      assert r.0 in m;
    }
  }

  lemma SectionsHold(docs: seq<Document>)
    requires IdsDistinct(docs) && forall d <- docs :: WellParsed(d)
    ensures var m := PutAll(Flatten(docs, SectionRows));
            && (forall k <- m :: Owned(docs, k.0))
            && (forall k <- m :: m[k].Some? ==> (k.0, m[k].value) in m)
  {
    var m := PutAll(Flatten(docs, SectionRows));
    forall k <- m ensures Owned(docs, k.0) { SectionsOwned(docs, k); }
    forall k <- m | m[k].Some? ensures (k.0, m[k].value) in m { ParentsHold(docs, k); }
  }

  lemma LinkRowsDistinct(d: Document, docs: seq<Document>, known: set<string>, key: Fold)
    requires WellParsed(d)
    ensures Distinct(LinksOf(docs, known, key)(d))
    ensures |LinksOf(docs, known, key)(d)| == LinkCount(d)
    ensures forall r <- LinksOf(docs, known, key)(d) :: SectionOwner(r.0) == Id(d)
  {
    var rows := LinksOf(docs, known, key)(d);
    forall i, j | 0 <= i < j < |d.links| ensures rows[i].0 != rows[j].0 {
      assert rows[i].0 == (Id(d), d.links[i].ordinal) && rows[j].0 == (Id(d), d.links[j].ordinal);
    }
  }

  lemma LinkRelation(docs: seq<Document>, known: set<string>, key: Fold)
    requires IdsDistinct(docs) && forall d <- docs :: WellParsed(d)
    ensures |Loaded(docs, known, key).links| == CountsOf(docs, known, key).links
    ensures Distinct(Flatten(docs, LinksOf(docs, known, key)))
    ensures var m := Loaded(docs, known, key).links;
            forall k <- m :: exists d :: d in docs && (k, m[k]) in LinksOf(docs, known, key)(d)
  {
    var f := LinksOf(docs, known, key);
    forall d <- docs
      ensures Distinct(f(d)) && |f(d)| == LinkCount(d) && forall r <- f(d) :: SectionOwner(r.0) == Id(d)
    {
      LinkRowsDistinct(d, docs, known, key);
    }
    RelationCount(docs, f, SectionOwner, LinkCount);
    RelationHolds(docs, f, SectionOwner);
    FlattenDistinct(docs, f, SectionOwner);
  }

  /** One loaded link passes the verifier's checks. */
  lemma LinkHolds(docs: seq<Document>, known: set<string>, key: Fold, d: Document, i: nat, db: Database)
    requires Sound(docs, key) && d in docs && i < |d.links|
    requires forall e <- docs :: Id(e) in db.sources
    ensures LinkAgrees(db, Id(d), LinkRows(d, docs, known, key)[i].1)
  {
    NeverAmbiguous(d.links[i], d, docs, known, key);
    ResolvesInside(d.links[i], d, docs, known, key);
  }

  lemma LinksHold(docs: seq<Document>, known: set<string>, key: Fold)
    requires Sound(docs, key) && forall d <- docs :: WellParsed(d)
    ensures LinksAgree(Loaded(docs, known, key))
  {
    LinkRelation(docs, known, key);
    SourceKeys(docs);
    var db := Loaded(docs, known, key);
    forall k <- db.links ensures LinkAgrees(db, k.0, db.links[k]) {
      var d :| d in docs && (k, db.links[k]) in LinksOf(docs, known, key)(d);
      var rows := LinkRows(d, docs, known, key);
      var i :| 0 <= i < |rows| && rows[i] == (k, db.links[k]);
      LinkHolds(docs, known, key, d, i, db);
    }
  }

  // ------------------------------------------------------------------
  // Link states.
  // ------------------------------------------------------------------

  function HasState(s: LinkState): (((string, nat), LinkRow)) -> bool {
    (r: ((string, nat), LinkRow)) => r.1.state == s
  }

  lemma {:induction false} CountIfSplit<R>(a: seq<R>, b: seq<R>, p: R -> bool)
    ensures CountIf(a + b, p) == CountIf(a, p) + CountIf(b, p)
  {
    if b == [] {
      assert a + b == a;
    } else {
      var n := |b| - 1;
      CountIfSplit(a, b[..n], p);
      assert (a + b)[..|a + b| - 1] == a + b[..n];
    }
  }

  lemma {:induction false} LinksInCount(d: Document, docs: seq<Document>, known: set<string>, key: Fold, s: LinkState,
                                        n: nat)
    requires n <= |d.links|
    ensures CountIf(LinkRows(d, docs, known, key)[..n], HasState(s)) == LinksIn(d, docs, known, key, s, n)
  {
    if n > 0 {
      LinksInCount(d, docs, known, key, s, n - 1);
      var rows := LinkRows(d, docs, known, key);
      assert rows[..n][..n - 1] == rows[..n - 1];
    }
  }

  lemma {:induction false} StatesCount(part: seq<Document>, docs: seq<Document>, known: set<string>, key: Fold,
                                       s: LinkState)
    ensures CountIf(Flatten(part, LinksOf(docs, known, key)), HasState(s))
         == Total(part, LinksWith(docs, known, key, s))
  {
    if part != [] {
      var n := |part| - 1;
      var f := LinksOf(docs, known, key);
      StatesCount(part[..n], docs, known, key, s);
      CountIfSplit(Flatten(part[..n], f), f(part[n]), HasState(s));
      LinksInCount(part[n], docs, known, key, s, |part[n].links|);
      assert LinkRows(part[n], docs, known, key)[..|part[n].links|] == f(part[n]);
    }
  }

  lemma StateRelation(docs: seq<Document>, known: set<string>, key: Fold, s: LinkState)
    requires Distinct(Flatten(docs, LinksOf(docs, known, key)))
    ensures var links := Loaded(docs, known, key).links;
            |set k | k in links && links[k].state == s| == StateCount(docs, known, key, s)
  {
    var rows := Flatten(docs, LinksOf(docs, known, key));
    var m := PutAll(rows);
    PutAllCountsIf(rows, HasState(s));
    StatesCount(docs, docs, known, key, s);
    assert KeysWith(m, HasState(s)) == set k | k in m && m[k].state == s;
  }

  // ------------------------------------------------------------------
  // The theorem.
  // ------------------------------------------------------------------

  lemma SourcesUnique(docs: seq<Document>, key: Fold, fold: Fold, m: map<string, Source>)
    requires IdsDistinct(docs) && TitlesUnique(docs, key) && PathsUnique(docs) && Coherent(key, fold)
    requires forall d <- docs :: Id(d) in m && m[Id(d)] == Source(d.path, d.kind, d.title)
    requires forall k <- m :: Owned(docs, k)
    ensures forall a, b :: a in m && b in m && a != b ==>
              m[a].path != m[b].path && !(m[a].kind == m[b].kind && fold(m[a].title) == fold(m[b].title))
  {
    forall a, b | a in m && b in m && a != b
      ensures m[a].path != m[b].path && !(m[a].kind == m[b].kind && fold(m[a].title) == fold(m[b].title))
    {
      var d :| d in docs && Id(d) == a;
      var e :| e in docs && Id(e) == b;
      var i :| 0 <= i < |docs| && docs[i] == d;
      var j :| 0 <= j < |docs| && docs[j] == e;
    }
  }

  lemma SourceOwns(docs: seq<Document>, k: string)
    requires IdsDistinct(docs)
    ensures k in PutAll(Flatten(docs, SourceRow)) <==> Owned(docs, k)
  {
    SourceKeys(docs);
  }

  /** The relations keyed by document alone name loaded documents. */
  lemma DocumentKeysHold(docs: seq<Document>, known: set<string>, key: Fold)
    requires IdsDistinct(docs)
    ensures var db := Loaded(docs, known, key);
            && db.knowledge.Keys <= db.sources.Keys
            && db.categories.Keys <= db.sources.Keys
            && db.content.Keys == db.sources.Keys
  {
    var db := Loaded(docs, known, key);
    forall k
      ensures k in db.knowledge ==> k in db.sources
      ensures k in db.categories ==> k in db.sources
      ensures k in db.content <==> k in db.sources
    {
      SourceOwns(docs, k);
      ContentKeys(docs, k);
      KnowledgeKeys(docs, k);
      CategoryKeys(docs, k);
    }
  }

  lemma TagsHold(docs: seq<Document>, known: set<string>, key: Fold)
    requires IdsDistinct(docs)
    ensures var db := Loaded(docs, known, key); forall k <- db.tags :: k.0 in db.sources
  {
    TagRelation(docs, known, key);
    var db := Loaded(docs, known, key);
    forall k <- db.tags ensures k.0 in db.sources { SourceOwns(docs, k.0); }
  }

  lemma AssignmentsHold(docs: seq<Document>, known: set<string>, key: Fold)
    requires Sound(docs, key)
    ensures var db := Loaded(docs, known, key);
            forall k <- db.assignments :: k.0 in db.sources && k.1 in db.categories
  {
    AssignmentRelation(docs, known, key);
    var db := Loaded(docs, known, key);
    forall k <- db.assignments ensures k.0 in db.sources && k.1 in db.categories {
      SourceOwns(docs, k.0);
      CategoryKeys(docs, k.1);
    }
  }

  /** The rows that name documents name loaded ones. */
  lemma DocumentRowsHold(docs: seq<Document>, known: set<string>, key: Fold)
    requires Sound(docs, key)
    ensures var db := Loaded(docs, known, key);
            && db.knowledge.Keys <= db.sources.Keys
            && db.categories.Keys <= db.sources.Keys
            && db.content.Keys == db.sources.Keys
            && (forall k <- db.tags :: k.0 in db.sources)
            && (forall k <- db.assignments :: k.0 in db.sources && k.1 in db.categories)
  {
    DocumentKeysHold(docs, known, key);
    TagsHold(docs, known, key);
    AssignmentsHold(docs, known, key);
  }

  lemma ReferencesHold(docs: seq<Document>, known: set<string>, key: Fold, fold: Fold)
    requires Sound(docs, key) && PathsUnique(docs) && Coherent(key, fold)
    requires forall d <- docs :: WellParsed(d)
    ensures ReferencesAgree(Loaded(docs, known, key), fold)
  {
    DocumentRowsHold(docs, known, key);
    SourceKeys(docs);
    SectionRelation(docs, known, key);
    SourcesUnique(docs, key, fold, Loaded(docs, known, key).sources);
  }

  lemma StatesAgree(docs: seq<Document>, known: set<string>, key: Fold)
    requires Distinct(Flatten(docs, LinksOf(docs, known, key)))
    ensures var db, c := Loaded(docs, known, key), CountsOf(docs, known, key);
            forall s <- c.states :: |set k | k in db.links && db.links[k].state == s| == c.states[s]
  {
    var db, c := Loaded(docs, known, key), CountsOf(docs, known, key);
    forall s <- c.states ensures |set k | k in db.links && db.links[k].state == s| == c.states[s] {
      StateRelation(docs, known, key, s);
    }
  }

  lemma CountsAgreeIff(docs: seq<Document>, known: set<string>, key: Fold)
    requires Sound(docs, key) && forall d <- docs :: WellParsed(d)
    ensures CountsAgree(Loaded(docs, known, key), CountsOf(docs, known, key)) <==> NoRepeats(docs, key)
  {
    DocumentRelations(docs, known, key);
    TagRelation(docs, known, key);
    AssignmentRelation(docs, known, key);
    SectionRelation(docs, known, key);
    LinkRelation(docs, known, key);
    StatesAgree(docs, known, key);
  }

  /** If the rest of validation reports no errors, the loaded relations pass every one of
      the verifier's count, reference, parent and link checks exactly when no note repeats a
      tag or names one category twice. */
  lemma VerifiedIffNoRepeats(docs: seq<Document>, known: set<string>, key: Fold, fold: Fold)
    requires Sound(docs, key) && PathsUnique(docs) && Coherent(key, fold)
    requires forall d <- docs :: WellParsed(d)
    ensures Verified(Loaded(docs, known, key), CountsOf(docs, known, key), fold) <==> NoRepeats(docs, key)
  {
    CountsAgreeIff(docs, known, key);
    LinksHold(docs, known, key);
    ReferencesHold(docs, known, key, fold);
  }
}
