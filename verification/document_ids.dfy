/** From parsed IDs to stored ones: loading converts every ID column to a UUID, and what it
    stores is what the documents give under their UUIDs (src/homeops_ai/loader.py:23-59,
    132-326). */
module DocumentIds {
  import opened Wrappers
  import opened Relations
  import opened Documents
  import opened BuildStore
  import opened BuildTheorems

  /** The document under its UUID. */
  function Stored(d: Document, uuid: Uuids): Document {
    d.(id := Target(d.id, uuid))
  }

  function Target(id: Option<string>, uuid: Uuids): Option<string> {
    if id.Some? then uuid(id.value) else None
  }

  function StoredAll(docs: seq<Document>, uuid: Uuids): (r: seq<Document>)
    ensures |r| == |docs|
  {
    seq(|docs|, i requires 0 <= i < |docs| => Stored(docs[i], uuid))
  }

  lemma StoredIn(docs: seq<Document>, uuid: Uuids)
    ensures forall d <- docs :: Stored(d, uuid) in StoredAll(docs, uuid)
    ensures forall e <- StoredAll(docs, uuid) :: exists d :: d in docs && e == Stored(d, uuid)
  {
    var all := StoredAll(docs, uuid);
    forall d <- docs ensures Stored(d, uuid) in all {
      var i :| 0 <= i < |docs| && docs[i] == d;
      assert all[i] == Stored(d, uuid);
    }
  }

  lemma StoredStep(docs: seq<Document>, uuid: Uuids)
    requires docs != []
    ensures var n := |docs| - 1;
            StoredAll(docs, uuid) == StoredAll(docs[..n], uuid) + [Stored(docs[n], uuid)]
    ensures StoredAll(docs, uuid)[..|docs| - 1] == StoredAll(docs[..|docs| - 1], uuid)
  {
  }

  lemma StoredJoins(a: seq<Document>, b: seq<Document>, uuid: Uuids)
    ensures StoredAll(a + b, uuid) == StoredAll(a, uuid) + StoredAll(b, uuid)
  {
  }

  // ------------------------------------------------------------------
  // Resolution looks at titles, not at IDs.
  // ------------------------------------------------------------------

  lemma {:induction false} StoredMatches(docs: seq<Document>, uuid: Uuids, key: Fold, title: string)
    ensures Matches(StoredAll(docs, uuid), key, title) == StoredAll(Matches(docs, key, title), uuid)
  {
    if docs != [] {
      var n := |docs| - 1;
      StoredMatches(docs[..n], uuid, key, title);
      StoredStep(docs, uuid);
      StoredJoins(Matches(docs[..n], key, title), [docs[n]], uuid);
    }
  }

  lemma {:induction false} StoredKnowledge(docs: seq<Document>, uuid: Uuids)
    ensures KnowledgeOnly(StoredAll(docs, uuid)) == StoredAll(KnowledgeOnly(docs), uuid)
  {
    if docs != [] {
      var n := |docs| - 1;
      StoredKnowledge(docs[..n], uuid);
      StoredStep(docs, uuid);
      StoredJoins(KnowledgeOnly(docs[..n]), [docs[n]], uuid);
    }
  }

  lemma StoredResolves(l: Link, d: Document, docs: seq<Document>, known: set<string>, key: Fold, uuid: Uuids)
    ensures var r := ResolveLink(l, d, docs, known, key);
            ResolveLink(l, Stored(d, uuid), StoredAll(docs, uuid), known, key)
            == Resolution(r.state, Target(r.target, uuid))
  {
    if l.target.Some? {
      var title := key(l.target.value);
      StoredMatches(docs, uuid, key, title);
      StoredKnowledge(Matches(docs, key, title), uuid);
    }
  }

  lemma {:induction false} StoredCategory(docs: seq<Document>, uuid: Uuids, key: Fold, title: string)
    requires IdsParse(docs, uuid)
    ensures CategoryId(StoredAll(docs, uuid), key, title) == Target(CategoryId(docs, key, title), uuid)
    ensures CategoryId(docs, key, title).Some? ==> uuid(CategoryId(docs, key, title).value).Some?
    ensures IsCategory(StoredAll(docs, uuid), key, title) <==> IsCategory(docs, key, title)
  {
    if docs != [] {
      var n := |docs| - 1;
      StoredCategory(docs[..n], uuid, key, title);
      StoredStep(docs, uuid);
      assert docs[n] in docs;
    }
    CategoryFound(docs, key, title);
    CategoryFound(StoredAll(docs, uuid), key, title);
  }

  // ------------------------------------------------------------------
  // The converted rows are the stored documents' rows.
  // ------------------------------------------------------------------

  lemma {:induction false} FlattenConverts<R, S>(docs: seq<Document>, f: Document -> seq<R>, g: Document -> seq<S>,
                                                 convert: R -> Option<S>, uuid: Uuids)
    requires forall d <- docs :: Convert(f(d), convert) == Some(g(Stored(d, uuid)))
    ensures Convert(Flatten(docs, f), convert) == Some(Flatten(StoredAll(docs, uuid), g))
  {
    if docs != [] {
      var n := |docs| - 1;
      FlattenConverts(docs[..n], f, g, convert, uuid);
      StoredStep(docs, uuid);
      ConvertJoins(Flatten(docs[..n], f), f(docs[n]), convert);
    }
  }

  lemma DocumentRowsConvert(docs: seq<Document>, uuid: Uuids)
    requires IdsParse(docs, uuid)
    ensures var s := StoredAll(docs, uuid);
            && Convert(Flatten(docs, SourceRow), IdAs(uuid)) == Some(Flatten(s, SourceRow))
            && Convert(Flatten(docs, ContentRow), IdAs(uuid)) == Some(Flatten(s, ContentRow))
  {
    forall d <- docs
      ensures Convert(SourceRow(d), IdAs(uuid)) == Some(SourceRow(Stored(d, uuid)))
      ensures Convert(ContentRow(d), IdAs(uuid)) == Some(ContentRow(Stored(d, uuid)))
    {
      ConvertIs(SourceRow(d), IdAs(uuid), SourceRow(Stored(d, uuid)));
      ConvertIs(ContentRow(d), IdAs(uuid), ContentRow(Stored(d, uuid)));
    }
    FlattenConverts(docs, SourceRow, SourceRow, IdAs(uuid), uuid);
    FlattenConverts(docs, ContentRow, ContentRow, IdAs(uuid), uuid);
  }

  lemma KindRowsConvert(docs: seq<Document>, uuid: Uuids)
    requires IdsParse(docs, uuid)
    ensures var s := StoredAll(docs, uuid);
            && Convert(Flatten(docs, KnowledgeRow), IdAs(uuid)) == Some(Flatten(s, KnowledgeRow))
            && Convert(Flatten(docs, CategoryRow), IdAs(uuid)) == Some(Flatten(s, CategoryRow))
  {
    forall d <- docs
      ensures Convert(KnowledgeRow(d), IdAs(uuid)) == Some(KnowledgeRow(Stored(d, uuid)))
      ensures Convert(CategoryRow(d), IdAs(uuid)) == Some(CategoryRow(Stored(d, uuid)))
    {
      ConvertIs(KnowledgeRow(d), IdAs(uuid), KnowledgeRow(Stored(d, uuid)));
      ConvertIs(CategoryRow(d), IdAs(uuid), CategoryRow(Stored(d, uuid)));
    }
    FlattenConverts(docs, KnowledgeRow, KnowledgeRow, IdAs(uuid), uuid);
    FlattenConverts(docs, CategoryRow, CategoryRow, IdAs(uuid), uuid);
  }

  lemma OwnedRowsConvert(docs: seq<Document>, uuid: Uuids)
    requires IdsParse(docs, uuid)
    ensures var s := StoredAll(docs, uuid);
            && Convert(Flatten(docs, TagRows), OwnerAs(uuid)) == Some(Flatten(s, TagRows))
            && Convert(Flatten(docs, SectionRows), OwnerAs(uuid)) == Some(Flatten(s, SectionRows))
  {
    forall d <- docs
      ensures Convert(TagRows(d), OwnerAs(uuid)) == Some(TagRows(Stored(d, uuid)))
      ensures Convert(SectionRows(d), OwnerAs(uuid)) == Some(SectionRows(Stored(d, uuid)))
    {
      var tags, sections := TagRows(d), SectionRows(d);
      forall i | 0 <= i < |tags| ensures OwnerAs(uuid)(tags[i]) == Some(TagRows(Stored(d, uuid))[i]) {
        assert tags[i] == ((Id(d), d.tags[i]), ());
        var e := Stored(d, uuid);
        assert e.tags == d.tags && Id(e) == uuid(Id(d)).value;
        assert TagRows(e)[i] == ((Id(e), e.tags[i]), ());
        assert OwnerAs(uuid)(((Id(d), d.tags[i]), ())) == Some(((uuid(Id(d)).value, d.tags[i]), ()));
      }
      assert forall i :: 0 <= i < |sections| ==> sections[i].0.0 == Id(d);
      ConvertIs(TagRows(d), OwnerAs(uuid), TagRows(Stored(d, uuid)));
      ConvertIs(SectionRows(d), OwnerAs(uuid), SectionRows(Stored(d, uuid)));
    }
    FlattenConverts(docs, TagRows, TagRows, OwnerAs(uuid), uuid);
    FlattenConverts(docs, SectionRows, SectionRows, OwnerAs(uuid), uuid);
  }

  lemma {:induction false} AssignmentsConvert(d: Document, docs: seq<Document>, key: Fold, uuid: Uuids, n: nat)
    requires IdsParse(docs, uuid) && d in docs && n <= |d.categories|
    ensures Convert(AssignmentsUpTo(d, docs, key, n), AssignmentAs(uuid))
         == Some(AssignmentsUpTo(Stored(d, uuid), StoredAll(docs, uuid), key, n))
  {
    if n > 0 {
      AssignmentsConvert(d, docs, key, uuid, n - 1);
      StoredCategory(docs, uuid, key, d.categories[n - 1]);
      var c := CategoryId(docs, key, d.categories[n - 1]);
      if c.Some? {
        var row := ((Id(d), c.value), d.categories[n - 1]);
        ConvertIs([row], AssignmentAs(uuid), [AssignmentAs(uuid)(row).value]);
        ConvertJoins(AssignmentsUpTo(d, docs, key, n - 1), [row], AssignmentAs(uuid));
      } else {
        var rows := AssignmentsUpTo(d, docs, key, n - 1);
        var stored := AssignmentsUpTo(Stored(d, uuid), StoredAll(docs, uuid), key, n - 1);
        assert rows + [] == rows && stored + [] == stored;
      }
    }
  }

  lemma AssignmentRowsConvert(docs: seq<Document>, key: Fold, uuid: Uuids)
    requires IdsParse(docs, uuid)
    ensures var s := StoredAll(docs, uuid);
            Convert(Flatten(docs, AssignmentsOf(docs, key)), AssignmentAs(uuid))
            == Some(Flatten(s, AssignmentsOf(s, key)))
  {
    forall d <- docs
      ensures Convert(AssignmentsOf(docs, key)(d), AssignmentAs(uuid))
           == Some(AssignmentsOf(StoredAll(docs, uuid), key)(Stored(d, uuid)))
    {
      AssignmentsConvert(d, docs, key, uuid, |d.categories|);
    }
    FlattenConverts(docs, AssignmentsOf(docs, key), AssignmentsOf(StoredAll(docs, uuid), key), AssignmentAs(uuid),
                    uuid);
  }

  lemma LinkConverts(d: Document, i: nat, docs: seq<Document>, known: set<string>, key: Fold, uuid: Uuids)
    requires IdsParse(docs, uuid) && d in docs && i < |d.links|
    ensures LinkAs(uuid)(LinkRows(d, docs, known, key)[i])
         == Some(LinkRows(Stored(d, uuid), StoredAll(docs, uuid), known, key)[i])
  {
    StoredResolves(d.links[i], d, docs, known, key, uuid);
    ResolvesInside(d.links[i], d, docs, known, key);
  }

  lemma LinkRowsConvert(docs: seq<Document>, known: set<string>, key: Fold, uuid: Uuids)
    requires IdsParse(docs, uuid)
    ensures var s := StoredAll(docs, uuid);
            Convert(Flatten(docs, LinksOf(docs, known, key)), LinkAs(uuid))
            == Some(Flatten(s, LinksOf(s, known, key)))
  {
    var s := StoredAll(docs, uuid);
    var f, g := LinksOf(docs, known, key), LinksOf(s, known, key);
    forall d <- docs ensures Convert(f(d), LinkAs(uuid)) == Some(g(Stored(d, uuid))) {
      forall i | 0 <= i < |d.links| ensures LinkAs(uuid)(f(d)[i]) == Some(g(Stored(d, uuid))[i]) {
        LinkConverts(d, i, docs, known, key, uuid);
      }
      ConvertIs(f(d), LinkAs(uuid), g(Stored(d, uuid)));
    }
    FlattenConverts(docs, f, g, LinkAs(uuid), uuid);
  }

  /** An ID that is no UUID stops the load. */
  lemma BadIdStops(docs: seq<Document>, uuid: Uuids)
    requires (forall d <- docs :: d.id.Some?) && !IdsParse(docs, uuid)
    ensures PutAs(Flatten(docs, SourceRow), IdAs(uuid)).None?
  {
    var d :| d in docs && uuid(d.id.value).None?;
    var row := SourceRow(d)[0];
    FlattenHolds(docs, SourceRow, d, row);
    ConvertFails(Flatten(docs, SourceRow), IdAs(uuid), row);
  }

  /** What loading stores: the relations of the documents under their UUIDs, exactly when
      IDs and paths are unique as texts and every ID is a UUID. */
  lemma LoadsStored(docs: seq<Document>, known: set<string>, key: Fold, uuid: Uuids)
    ensures LoadedAs(docs, known, key, uuid)
         == if IdsUnique(docs) && PathsUnique(docs) && IdsParse(docs, uuid)
            then Some(Loaded(StoredAll(docs, uuid), known, key)) else None
  {
    if IdsUnique(docs) {
      if IdsParse(docs, uuid) {
        DocumentRowsConvert(docs, uuid);
        KindRowsConvert(docs, uuid);
        OwnedRowsConvert(docs, uuid);
        AssignmentRowsConvert(docs, key, uuid);
        LinkRowsConvert(docs, known, key, uuid);
      } else {
        BadIdStops(docs, uuid);
      }
    }
  }

  // ------------------------------------------------------------------
  // Counts and conditions do not depend on IDs.
  // ------------------------------------------------------------------

  lemma {:induction false} TotalStored(docs: seq<Document>, uuid: Uuids, m: Document -> nat, n: Document -> nat)
    requires forall d <- docs :: m(Stored(d, uuid)) == n(d)
    ensures Total(StoredAll(docs, uuid), m) == Total(docs, n)
  {
    if docs != [] {
      TotalStored(docs[..|docs| - 1], uuid, m, n);
      StoredStep(docs, uuid);
    }
  }

  lemma {:induction false} LinksInSame(d: Document, e: Document, docs: seq<Document>, all: seq<Document>,
                                       known: set<string>, key: Fold, state: LinkState, n: nat)
    requires n <= |d.links| && e.links == d.links
    requires forall i :: 0 <= i < n ==>
               ResolveLink(d.links[i], e, all, known, key).state == ResolveLink(d.links[i], d, docs, known, key).state
    ensures LinksIn(e, all, known, key, state, n) == LinksIn(d, docs, known, key, state, n)
  {
    if n > 0 { LinksInSame(d, e, docs, all, known, key, state, n - 1); }
  }

  lemma LinksInStored(d: Document, docs: seq<Document>, known: set<string>, key: Fold, uuid: Uuids, state: LinkState)
    ensures LinksIn(Stored(d, uuid), StoredAll(docs, uuid), known, key, state, |d.links|)
         == LinksIn(d, docs, known, key, state, |d.links|)
  {
    var e, all := Stored(d, uuid), StoredAll(docs, uuid);
    forall i | 0 <= i < |d.links|
      ensures ResolveLink(d.links[i], e, all, known, key).state == ResolveLink(d.links[i], d, docs, known, key).state
    {
      StoredResolves(d.links[i], d, docs, known, key, uuid);
    }
    LinksInSame(d, e, docs, all, known, key, state, |d.links|);
  }

  lemma {:induction false} AssignedStored(d: Document, docs: seq<Document>, key: Fold, uuid: Uuids, n: nat)
    requires IdsParse(docs, uuid) && n <= |d.categories|
    ensures ResolvedAssignments(Stored(d, uuid), StoredAll(docs, uuid), key, n) == ResolvedAssignments(d, docs, key, n)
  {
    if n > 0 {
      AssignedStored(d, docs, key, uuid, n - 1);
      StoredCategory(docs, uuid, key, d.categories[n - 1]);
    }
  }

  lemma StatesStored(docs: seq<Document>, known: set<string>, key: Fold, uuid: Uuids, s: LinkState)
    ensures StateCount(StoredAll(docs, uuid), known, key, s) == StateCount(docs, known, key, s)
  {
    var all := StoredAll(docs, uuid);
    forall d <- docs ensures LinksWith(all, known, key, s)(Stored(d, uuid)) == LinksWith(docs, known, key, s)(d) {
      LinksInStored(d, docs, known, key, uuid, s);
    }
    TotalStored(docs, uuid, LinksWith(all, known, key, s), LinksWith(docs, known, key, s));
  }

  lemma CountsStored(docs: seq<Document>, known: set<string>, key: Fold, uuid: Uuids)
    requires IdsParse(docs, uuid)
    ensures CountsOf(StoredAll(docs, uuid), known, key) == CountsOf(docs, known, key)
  {
    var all := StoredAll(docs, uuid);
    TotalStored(docs, uuid, IsKnowledge, IsKnowledge);
    TotalStored(docs, uuid, IsCategoryNote, IsCategoryNote);
    TotalStored(docs, uuid, TagCount, TagCount);
    TotalStored(docs, uuid, SectionCount, SectionCount);
    TotalStored(docs, uuid, LinkCount, LinkCount);
    forall d <- docs ensures ResolvedIn(all, key)(Stored(d, uuid)) == ResolvedIn(docs, key)(d) {
      AssignedStored(d, docs, key, uuid, |d.categories|);
    }
    TotalStored(docs, uuid, ResolvedIn(all, key), ResolvedIn(docs, key));
    forall s ensures StateCount(all, known, key, s) == StateCount(docs, known, key, s) {
      StatesStored(docs, known, key, uuid, s);
    }
    assert CountsOf(all, known, key).states == CountsOf(docs, known, key).states;
  }

  lemma WellParsedStored(d: Document, uuid: Uuids)
    requires WellParsed(d)
    ensures WellParsed(Stored(d, uuid))
  {
    var rows, stored := SectionRows(d), SectionRows(Stored(d, uuid));
    forall i, j | 0 <= i < j < |stored| ensures stored[i].0 != stored[j].0 {
      assert rows[i].0 != rows[j].0;
    }
  }

  lemma RepeatsStored(docs: seq<Document>, key: Fold, uuid: Uuids)
    ensures NoRepeats(StoredAll(docs, uuid), key) <==> NoRepeats(docs, key)
  {
    StoredIn(docs, uuid);
    forall d <- docs
      ensures Stored(d, uuid).tags == d.tags && Stored(d, uuid).categories == d.categories
      ensures Stored(d, uuid) in StoredAll(docs, uuid)
    {
    }
  }

  lemma SoundStored(docs: seq<Document>, key: Fold, uuid: Uuids)
    requires Clean(docs, key) && IdsParse(docs, uuid) && UuidsDistinct(docs, uuid)
    ensures Sound(StoredAll(docs, uuid), key)
  {
    var all := StoredAll(docs, uuid);
    StoredIn(docs, uuid);
    forall i, j | 0 <= i < j < |all| ensures all[i].id != all[j].id {
      assert docs[i] in docs && docs[j] in docs;
      assert uuid(Id(docs[i])) != uuid(Id(docs[j]));
    }
    forall e <- all, c <- e.categories ensures IsCategory(all, key, c) {
      var d :| d in docs && e == Stored(d, uuid);
      StoredCategory(docs, uuid, key, c);
    }
  }

  // ------------------------------------------------------------------
  // The theorem.
  // ------------------------------------------------------------------

  lemma SharedIdLosesRow(docs: seq<Document>, i: nat, j: nat)
    requires i < j < |docs| && Id(docs[i]) == Id(docs[j])
    ensures |PutAll(Flatten(docs, SourceRow))| < |docs|
  {
    var rows := Flatten(docs, SourceRow);
    SourceRowsInOrder(docs);
    assert rows[i].0 == rows[j].0;
    PutAllCounts(rows);
  }

  /** Two IDs that spell one UUID lose a row of the source relation. */
  lemma SharedUuidLosesRow(docs: seq<Document>, uuid: Uuids)
    requires IdsParse(docs, uuid) && !UuidsDistinct(docs, uuid)
    ensures |PutAll(Flatten(StoredAll(docs, uuid), SourceRow))| < |docs|
  {
    var i, j :| 0 <= i < j < |docs| && uuid(Id(docs[i])) == uuid(Id(docs[j]));
    assert docs[i] in docs && docs[j] in docs;
    SharedIdLosesRow(StoredAll(docs, uuid), i, j);
  }

  lemma {:induction false} SourceRowsInOrder(docs: seq<Document>)
    ensures |Flatten(docs, SourceRow)| == |docs|
    ensures forall i :: 0 <= i < |docs| ==> Flatten(docs, SourceRow)[i] == SourceRow(docs[i])[0]
  {
    if docs != [] { SourceRowsInOrder(docs[..|docs| - 1]); }
  }

  /** The documents load, and what was loaded passes the verifier. */
  predicate Builds(docs: seq<Document>, known: set<string>, key: Fold, fold: Fold, uuid: Uuids) {
    var db := LoadedAs(docs, known, key, uuid);
    db.Some? && Verified(db.value, CountsOf(docs, known, key), fold)
  }

  /** What the verifier says of the loaded relations. */
  predicate Passes(docs: seq<Document>, known: set<string>, key: Fold, fold: Fold, uuid: Uuids) {
    Verified(Loaded(StoredAll(docs, uuid), known, key), CountsOf(docs, known, key), fold)
  }

  lemma SharedUuidFailsCounts(docs: seq<Document>, known: set<string>, key: Fold, fold: Fold, uuid: Uuids)
    requires IdsParse(docs, uuid) && !UuidsDistinct(docs, uuid)
    ensures !Passes(docs, known, key, fold, uuid)
  {
    SharedUuidLosesRow(docs, uuid);
    assert CountsOf(docs, known, key).sources == |docs|;
  }

  lemma DistinctUuidsPass(docs: seq<Document>, known: set<string>, key: Fold, fold: Fold, uuid: Uuids)
    requires Clean(docs, key) && Coherent(key, fold) && forall d <- docs :: WellParsed(d)
    requires PathsUnique(docs) && IdsParse(docs, uuid) && UuidsDistinct(docs, uuid)
    ensures Passes(docs, known, key, fold, uuid) <==> NoRepeats(docs, key)
  {
    CountsStored(docs, known, key, uuid);
    RepeatsStored(docs, key, uuid);
    SoundStored(docs, key, uuid);
    AllWellParsedStored(docs, uuid);
    VerifiedIffNoRepeats(StoredAll(docs, uuid), known, key, fold);
  }

  lemma AllWellParsedStored(docs: seq<Document>, uuid: Uuids)
    requires forall d <- docs :: WellParsed(d)
    ensures forall e <- StoredAll(docs, uuid) :: WellParsed(e)
  {
    StoredIn(docs, uuid);
    forall e <- StoredAll(docs, uuid) ensures WellParsed(e) {
      var d :| d in docs && e == Stored(d, uuid);
      WellParsedStored(d, uuid);
    }
  }

  lemma BuildsIsPasses(docs: seq<Document>, known: set<string>, key: Fold, fold: Fold, uuid: Uuids)
    requires IdsUnique(docs)
    ensures Builds(docs, known, key, fold, uuid) <==>
              PathsUnique(docs) && IdsParse(docs, uuid) && Passes(docs, known, key, fold, uuid)
  {
    LoadsStored(docs, known, key, uuid);
  }

  /** Documents that validate load and verify exactly when no two share a path, every ID is
      a UUID, no two IDs are one UUID, and no note repeats a tag or names one category
      twice. */
  lemma BuildsIff(docs: seq<Document>, known: set<string>, key: Fold, fold: Fold, uuid: Uuids)
    requires Clean(docs, key) && Coherent(key, fold) && forall d <- docs :: WellParsed(d)
    ensures Builds(docs, known, key, fold, uuid) <==>
              PathsUnique(docs) && IdsParse(docs, uuid) && UuidsDistinct(docs, uuid) && NoRepeats(docs, key)
  {
    BuildsIsPasses(docs, known, key, fold, uuid);
    if PathsUnique(docs) && IdsParse(docs, uuid) {
      if UuidsDistinct(docs, uuid) {
        DistinctUuidsPass(docs, known, key, fold, uuid);
      } else {
        SharedUuidFailsCounts(docs, known, key, fold, uuid);
      }
    }
  }

  // ------------------------------------------------------------------
  // Inputs that validate and do not build.
  // ------------------------------------------------------------------

  function Note(path: string, id: string, title: string, tags: seq<string>): Document {
    Document(path, Knowledge, Some(id), title, tags, [], [], [])
  }

  /** One note with a repeated tag: it validates and loads, and does not verify. */
  lemma RepeatedTagFails(docs: seq<Document>, id: string, known: set<string>, key: Fold, fold: Fold, uuid: Uuids)
    requires docs == [Note("a.md", id, "A", ["t", "t"])] && Coherent(key, fold)
    requires id != "" && uuid(id).Some?
    ensures Clean(docs, key) && WellParsed(docs[0])
    ensures LoadedAs(docs, known, key, uuid).Some? && !Builds(docs, known, key, fold, uuid)
  {
    assert docs[0].tags[0] == docs[0].tags[1];
    LoadsStored(docs, known, key, uuid);
    BuildsIff(docs, known, key, fold, uuid);
  }

  /** Two notes whose IDs spell one UUID differently, in letter case say: they validate,
      repeat nothing and load, and do not verify. */
  lemma SharedUuidFails(docs: seq<Document>, a: string, b: string, known: set<string>, key: Fold, fold: Fold,
                        uuid: Uuids)
    requires docs == [Note("a.md", a, "A", []), Note("b.md", b, "B", [])]
    requires a != "" && b != "" && a != b && uuid(a).Some? && uuid(a) == uuid(b)
    requires Coherent(key, fold) && key("A") != key("B")
    ensures Clean(docs, key) && (forall d <- docs :: WellParsed(d)) && NoRepeats(docs, key)
    ensures LoadedAs(docs, known, key, uuid).Some? && !Builds(docs, known, key, fold, uuid)
  {
    TwoNotes(docs, docs[0], docs[1], key);
    assert !UuidsDistinct(docs, uuid) by { assert uuid(Id(docs[0])) == uuid(Id(docs[1])); }
    LoadsStored(docs, known, key, uuid);
    BuildsIff(docs, known, key, fold, uuid);
  }

  lemma TwoNotes(docs: seq<Document>, d: Document, e: Document, key: Fold)
    requires docs == [d, e] && d == Note("a.md", Id(d), "A", []) && e == Note("b.md", Id(e), "B", [])
    requires Id(d) != "" && Id(e) != "" && Id(d) != Id(e) && key("A") != key("B")
    ensures Clean(docs, key) && (forall d <- docs :: WellParsed(d)) && PathsUnique(docs) && NoRepeats(docs, key)
  {
    assert d.path[0] != e.path[0];
    assert WellParsed(d) && WellParsed(e);
    assert forall x <- docs :: x == d || x == e;
  }
}
