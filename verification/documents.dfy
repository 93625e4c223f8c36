/** Parsed vault documents, how their links resolve, and the rows and counts a build
    derives from them (src/homeops_ai/build.py:104-228, src/homeops_ai/loader.py).

    Case folding is a parameter: `key` stands for _title_key and `fold` for casefold. */
module Documents {
  import opened Wrappers
  import opened Relations

  datatype Kind = Knowledge | Category

  datatype LinkKind = Internal | SameDocument | Attachment | External

  datatype Link = Link(ordinal: nat, kind: LinkKind, target: Option<string>)

  datatype Section = Section(ordinal: nat, parent: Option<nat>)

  datatype Document = Document(
    path: string, kind: Kind, id: Option<string>, title: string, tags: seq<string>,
    categories: seq<string>, sections: seq<Section>, links: seq<Link>)

  type Fold = string -> string

  function Id(d: Document): string {
    if d.id.Some? then d.id.value else ""
  }

  // ------------------------------------------------------------------
  // Resolving a link.
  // ------------------------------------------------------------------

  datatype LinkState = Resolved | Unresolved | Ambiguous | Excluded

  datatype Resolution = Resolution(state: LinkState, target: Option<string>)

  /** Documents whose title has this key, in order (_title_index). */
  function Matches(docs: seq<Document>, key: Fold, title: string): seq<Document> {
    if docs == [] then []
    else
      var n := |docs| - 1;
      Matches(docs[..n], key, title) + if key(docs[n].title) == title then [docs[n]] else []
  }

  function KnowledgeOnly(docs: seq<Document>): seq<Document> {
    if docs == [] then []
    else
      var n := |docs| - 1;
      KnowledgeOnly(docs[..n]) + if docs[n].kind == Knowledge then [docs[n]] else []
  }

  /** _resolve_link: a knowledge note wins over a category of the same title. */
  function ResolveLink(link: Link, source: Document, docs: seq<Document>, known: set<string>, key: Fold): Resolution {
    if link.kind == External then Resolution(Resolved, None)
    else if link.kind == Attachment then Resolution(Excluded, None)
    else if link.kind == SameDocument then Resolution(Resolved, source.id)
    else if link.target.None? then Resolution(Unresolved, None)
    else
      var matches := Matches(docs, key, key(link.target.value));
      var knowledge := KnowledgeOnly(matches);
      if |knowledge| == 1 then Resolution(Resolved, knowledge[0].id)
      else if |knowledge| > 1 then Resolution(Ambiguous, None)
      else if |matches| == 1 then Resolution(Resolved, matches[0].id)
      else if |matches| > 1 then Resolution(Ambiguous, None)
      else if key(link.target.value) in known then Resolution(Excluded, None)
      else Resolution(Unresolved, None)
  }

  // ------------------------------------------------------------------
  // What validation accepts.
  // ------------------------------------------------------------------

  predicate IdsDistinct(docs: seq<Document>) {
    && (forall d <- docs :: d.id.Some?)
    && (forall i, j :: 0 <= i < j < |docs| ==> docs[i].id != docs[j].id)
  }

  /** Every document has an ID, and no two are the same text. */
  predicate IdsUnique(docs: seq<Document>) {
    IdsDistinct(docs) && forall d <- docs :: d.id != Some("")
  }

  predicate TitlesUnique(docs: seq<Document>, key: Fold) {
    forall i, j :: 0 <= i < j < |docs| ==>
      !(docs[i].kind == docs[j].kind && key(docs[i].title) == key(docs[j].title))
  }

  predicate IsCategory(docs: seq<Document>, key: Fold, title: string) {
    exists d :: d in docs && d.kind == Category && key(d.title) == key(title)
  }

  predicate CategoriesResolve(docs: seq<Document>, key: Fold) {
    forall d <- docs :: forall c <- d.categories :: IsCategory(docs, key, c)
  }

  predicate Sound(docs: seq<Document>, key: Fold) {
    IdsDistinct(docs) && TitlesUnique(docs, key) && CategoriesResolve(docs, key)
  }

  /** _validate_documents reports no errors (that links are then never ambiguous is a
      lemma). */
  predicate Clean(docs: seq<Document>, key: Fold) {
    IdsUnique(docs) && TitlesUnique(docs, key) && CategoriesResolve(docs, key)
  }

  lemma {:induction false} MatchesAre(docs: seq<Document>, key: Fold, title: string, d: Document)
    ensures d in Matches(docs, key, title) <==> d in docs && key(d.title) == title
  {
    if docs != [] {
      var n := |docs| - 1;
      MatchesAre(docs[..n], key, title, d);
      assert docs == docs[..n] + [docs[n]];
    }
  }

  lemma {:induction false} KnowledgeAre(docs: seq<Document>, d: Document)
    ensures d in KnowledgeOnly(docs) <==> d in docs && d.kind == Knowledge
    ensures |KnowledgeOnly(docs)| <= |docs|
  {
    if docs != [] {
      var n := |docs| - 1;
      KnowledgeAre(docs[..n], d);
      assert docs == docs[..n] + [docs[n]];
    }
  }

  /** With unique titles, whatever shares a title with the last document is of the other kind. */
  lemma OtherKind(docs: seq<Document>, key: Fold, d: Document)
    requires docs != [] && TitlesUnique(docs, key)
    requires d in Matches(docs[..|docs| - 1], key, key(docs[|docs| - 1].title))
    ensures d.kind != docs[|docs| - 1].kind
  {
    var n := |docs| - 1;
    MatchesAre(docs[..n], key, key(docs[n].title), d);
    var i :| 0 <= i < n && docs[..n][i] == d;
    assert docs[i] == d;
  }

  /** Of documents with unique titles at most two share a key, one of each kind. */
  lemma {:induction false} FewMatches(docs: seq<Document>, key: Fold, title: string)
    requires TitlesUnique(docs, key)
    ensures var m := Matches(docs, key, title);
            |KnowledgeOnly(m)| <= 1 && |m| <= |KnowledgeOnly(m)| + 1
  {
    if docs != [] {
      var n := |docs| - 1;
      var before, m := Matches(docs[..n], key, title), Matches(docs, key, title);
      FewMatches(docs[..n], key, title);
      if key(docs[n].title) == title {
        forall d | d in before ensures d.kind != docs[n].kind { OtherKind(docs, key, d); }
        assert m[..|m| - 1] == before && m[|m| - 1] == docs[n];
        OneOfEachKind(before, docs[n]);
      }
    }
  }

  lemma OneOfEachKind(before: seq<Document>, last: Document)
    requires |KnowledgeOnly(before)| <= 1 && |before| <= |KnowledgeOnly(before)| + 1
    requires forall d <- before :: d.kind != last.kind
    ensures if last.kind == Knowledge then KnowledgeOnly(before) == [] else |before| == |KnowledgeOnly(before)|
  {
    if last.kind == Knowledge {
      if KnowledgeOnly(before) != [] { KnowledgeAre(before, KnowledgeOnly(before)[0]); }
    } else {
      AllKnowledge(before);
    }
  }

  lemma {:induction false} AllKnowledge(docs: seq<Document>)
    requires forall d <- docs :: d.kind == Knowledge
    ensures |KnowledgeOnly(docs)| == |docs|
  {
    if docs != [] { AllKnowledge(docs[..|docs| - 1]); }
  }

  /** Unique titles within each kind are enough: no link is ever ambiguous. */
  lemma NeverAmbiguous(link: Link, source: Document, docs: seq<Document>, known: set<string>, key: Fold)
    requires TitlesUnique(docs, key)
    ensures ResolveLink(link, source, docs, known, key).state != Ambiguous
  {
    if link.target.Some? { FewMatches(docs, key, key(link.target.value)); }
  }

  /** A resolved link leads to a selected document, and a document-internal one to its own. */
  lemma ResolvesInside(link: Link, source: Document, docs: seq<Document>, known: set<string>, key: Fold)
    requires source in docs && forall d <- docs :: d.id.Some?
    ensures var r := ResolveLink(link, source, docs, known, key);
            && (r.target.Some? ==> exists d :: d in docs && d.id == r.target)
            && (r.state == Resolved && link.kind in {Internal, SameDocument} ==> r.target.Some?)
            && (r.state != Resolved ==> r.target.None?)
            && (link.kind == SameDocument ==> r.target == source.id)
  {
    if link.kind == Internal && link.target.Some? {
      var m := Matches(docs, key, key(link.target.value));
      var k := KnowledgeOnly(m);
      if |k| == 1 {
        KnowledgeAre(m, k[0]);
        MatchesAre(docs, key, key(link.target.value), k[0]);
      } else if |m| == 1 {
        MatchesAre(docs, key, key(link.target.value), m[0]);
      }
    }
  }

  /** The one knowledge note of this title key is what an internal link leads to. */
  lemma KnowledgeWins(link: Link, source: Document, docs: seq<Document>, known: set<string>, key: Fold, d: Document)
    requires TitlesUnique(docs, key) && link.kind == Internal && link.target.Some?
    requires d in docs && d.kind == Knowledge && key(d.title) == key(link.target.value)
    ensures ResolveLink(link, source, docs, known, key) == Resolution(Resolved, d.id)
  {
    var m := Matches(docs, key, key(link.target.value));
    MatchesAre(docs, key, key(link.target.value), d);
    KnowledgeAre(m, d);
    FewMatches(docs, key, key(link.target.value));
  }

  /** Without one it leads to the category of that title key. */
  lemma CategoryElse(link: Link, source: Document, docs: seq<Document>, known: set<string>, key: Fold, d: Document)
    requires TitlesUnique(docs, key) && link.kind == Internal && link.target.Some?
    requires d in docs && key(d.title) == key(link.target.value)
    requires forall k <- docs | k.kind == Knowledge :: key(k.title) != key(link.target.value)
    ensures ResolveLink(link, source, docs, known, key) == Resolution(Resolved, d.id)
  {
    var m := Matches(docs, key, key(link.target.value));
    var k := KnowledgeOnly(m);
    MatchesAre(docs, key, key(link.target.value), d);
    FewMatches(docs, key, key(link.target.value));
    if k != [] {
      KnowledgeAre(m, k[0]);
      MatchesAre(docs, key, key(link.target.value), k[0]);
    }
  }

  /** And without either it is excluded if the title belongs to a source left out of the
      profile, and unresolved if not. */
  lemma NothingMatches(link: Link, source: Document, docs: seq<Document>, known: set<string>, key: Fold)
    requires link.kind == Internal && link.target.Some?
    requires forall d <- docs :: key(d.title) != key(link.target.value)
    ensures ResolveLink(link, source, docs, known, key)
         == Resolution(if key(link.target.value) in known then Excluded else Unresolved, None)
  {
    var m := Matches(docs, key, key(link.target.value));
    if m != [] { MatchesAre(docs, key, key(link.target.value), m[0]); }
    assert m == [] && KnowledgeOnly(m) == [];
  }

  /** What every link resolves to over documents with unique titles. */
  lemma LinksResolve(link: Link, source: Document, docs: seq<Document>, known: set<string>, key: Fold)
    requires TitlesUnique(docs, key)
    ensures var r := ResolveLink(link, source, docs, known, key);
            match link.kind
            case External => r == Resolution(Resolved, None)
            case Attachment => r == Resolution(Excluded, None)
            case SameDocument => r == Resolution(Resolved, source.id)
            case Internal =>
              if link.target.None? then r == Resolution(Unresolved, None)
              else
                var title := key(link.target.value);
                && (forall d <- docs | d.kind == Knowledge && key(d.title) == title :: r == Resolution(Resolved, d.id))
                && ((forall k <- docs | k.kind == Knowledge :: key(k.title) != title) ==>
                      forall d <- docs | key(d.title) == title :: r == Resolution(Resolved, d.id))
                && ((forall d <- docs :: key(d.title) != title) ==>
                      r == Resolution(if title in known then Excluded else Unresolved, None))
  {
    if link.kind == Internal && link.target.Some? {
      var title := key(link.target.value);
      forall d <- docs | d.kind == Knowledge && key(d.title) == title
        ensures ResolveLink(link, source, docs, known, key) == Resolution(Resolved, d.id)
      {
        KnowledgeWins(link, source, docs, known, key, d);
      }
      if forall k <- docs | k.kind == Knowledge :: key(k.title) != title {
        forall d <- docs | key(d.title) == title
          ensures ResolveLink(link, source, docs, known, key) == Resolution(Resolved, d.id)
        {
          CategoryElse(link, source, docs, known, key, d);
        }
      }
      if forall d <- docs :: key(d.title) != title { NothingMatches(link, source, docs, known, key); }
    }
  }

  // ------------------------------------------------------------------
  // The rows.
  // ------------------------------------------------------------------

  function Flatten<R>(docs: seq<Document>, f: Document -> seq<R>): seq<R> {
    if docs == [] then []
    else Flatten(docs[..|docs| - 1], f) + f(docs[|docs| - 1])
  }

  datatype Source = Source(path: string, kind: Kind, title: string)
  datatype LinkRow = LinkRow(kind: LinkKind, state: LinkState, target: Option<string>)

  function SourceRow(d: Document): seq<(string, Source)> {
    [(Id(d), Source(d.path, d.kind, d.title))]
  }

  function KnowledgeRow(d: Document): seq<(string, ())> {
    if d.kind == Knowledge then [(Id(d), ())] else []
  }

  function CategoryRow(d: Document): seq<(string, ())> {
    if d.kind == Category then [(Id(d), ())] else []
  }

  function ContentRow(d: Document): seq<(string, ())> {
    [(Id(d), ())]
  }

  function TagRows(d: Document): seq<((string, string), ())> {
    seq(|d.tags|, i requires 0 <= i < |d.tags| => ((Id(d), d.tags[i]), ()))
  }

  function SectionRows(d: Document): seq<((string, nat), Option<nat>)> {
    seq(|d.sections|, i requires 0 <= i < |d.sections| =>
      ((Id(d), d.sections[i].ordinal), d.sections[i].parent))
  }

  /** The category index: the last category of each title key. */
  function CategoryId(docs: seq<Document>, key: Fold, title: string): Option<string> {
    if docs == [] then None
    else
      var d := docs[|docs| - 1];
      if d.kind == Category && key(d.title) == key(title) then Some(Id(d))
      else CategoryId(docs[..|docs| - 1], key, title)
  }

  /** The rows of the assignments that resolve; the value is the raw target. */
  function AssignmentsUpTo(d: Document, docs: seq<Document>, key: Fold, n: nat): seq<((string, string), string)>
    requires n <= |d.categories|
  {
    if n == 0 then []
    else
      var c := CategoryId(docs, key, d.categories[n - 1]);
      AssignmentsUpTo(d, docs, key, n - 1)
      + if c.Some? then [((Id(d), c.value), d.categories[n - 1])] else []
  }

  function AssignmentRows(d: Document, docs: seq<Document>, key: Fold): seq<((string, string), string)> {
    AssignmentsUpTo(d, docs, key, |d.categories|)
  }

  function LinkRows(d: Document, docs: seq<Document>, known: set<string>, key: Fold): seq<((string, nat), LinkRow)> {
    seq(|d.links|, i requires 0 <= i < |d.links| =>
      var r := ResolveLink(d.links[i], d, docs, known, key);
      ((Id(d), d.links[i].ordinal), LinkRow(d.links[i].kind, r.state, r.target)))
  }

  /** Rows of different documents never share a key, so only repetitions within one
      document can. */
  lemma {:induction false} FlattenDistinct<K, V>(docs: seq<Document>, f: Document -> seq<(K, V)>, owner: K -> string)
    requires IdsDistinct(docs)
    requires forall d <- docs :: forall r <- f(d) :: owner(r.0) == Id(d)
    ensures Distinct(Flatten(docs, f)) <==> forall d <- docs :: Distinct(f(d))
    ensures forall r <- Flatten(docs, f) :: exists d :: d in docs && r in f(d)
  {
    if docs != [] {
      var n := |docs| - 1;
      var before, own := Flatten(docs[..n], f), f(docs[n]);
      FlattenDistinct(docs[..n], f, owner);
      assert docs == docs[..n] + [docs[n]];
      forall i, j | 0 <= i < |before| && 0 <= j < |own| ensures before[i].0 != own[j].0 {
        assert before[i] in before;
        var d :| d in docs[..n] && before[i] in f(d);
        assert own[j] in f(docs[n]);
        var x :| 0 <= x < n && docs[..n][x] == d;
        assert docs[x].id != docs[n].id;
      }
      DistinctSplit(before, own);
    }
  }

  lemma DistinctSplit<K, V>(a: seq<(K, V)>, b: seq<(K, V)>)
    requires forall i, j :: 0 <= i < |a| && 0 <= j < |b| ==> a[i].0 != b[j].0
    ensures Distinct(a + b) <==> Distinct(a) && Distinct(b)
  {
    var c := a + b;
    if Distinct(c) {
      forall i, j | 0 <= i < j < |b| ensures b[i].0 != b[j].0 {
        assert c[|a| + i].0 != c[|a| + j].0;
      }
      forall i, j | 0 <= i < j < |a| ensures a[i].0 != a[j].0 {
        assert c[i].0 != c[j].0;
      }
    }
  }

  lemma {:induction false} FlattenHolds<R>(docs: seq<Document>, f: Document -> seq<R>, d: Document, r: R)
    requires d in docs && r in f(d)
    ensures r in Flatten(docs, f)
  {
    var n := |docs| - 1;
    if d in docs[..n] {
      FlattenHolds(docs[..n], f, d, r);
    } else {
      assert docs == docs[..n] + [docs[n]];
    }
  }
}
