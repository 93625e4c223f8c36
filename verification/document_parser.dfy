/** From tokenised sources to the documents a build takes
    (src/homeops_ai/markdown_parser.py:288-393, src/homeops_ai/build.py:231-260).

    Frontmatter comes as read, and so does what a raw target says about a link. */
module DocumentParser {
  import opened Wrappers
  import opened Documents
  import Markdown = MarkdownSections
  import BuildStore
  import BuildPipeline

  datatype Tokens = Tokens(
    lines: seq<Markdown.Line>, headings: seq<Markdown.Heading>, inlines: seq<Markdown.Inline>)

  /** A source: everything but sections and links, and the tokens of its body. */
  datatype Source = Source(front: Document, tokens: Tokens)

  /** The kind of a link and the title it names. */
  type Classifier = Markdown.Occurrence -> (LinkKind, Option<string>)

  function SectionOf(s: Markdown.Section): Section {
    Section(s.ordinal, s.parent)
  }

  function LinkOf(l: Markdown.Occurrence, classify: Classifier): Link {
    Link(l.ordinal, classify(l).0, classify(l).1)
  }

  function SectionsFrom(records: seq<Markdown.Section>): (r: seq<Section>)
    ensures |r| == |records| && forall i :: 0 <= i < |r| ==> r[i] == SectionOf(records[i])
  {
    seq(|records|, i requires 0 <= i < |records| => SectionOf(records[i]))
  }

  function LinksFrom(links: seq<Markdown.Occurrence>, classify: Classifier): (r: seq<Link>)
    ensures |r| == |links| && forall i :: 0 <= i < |r| ==> r[i] == LinkOf(links[i], classify)
  {
    seq(|links|, i requires 0 <= i < |links| => LinkOf(links[i], classify))
  }

  predicate Tokenised(s: Source) {
    Markdown.Tokenised(s.tokens.lines, s.tokens.headings)
  }

  /** These are the sections and the links of the source's body. */
  ghost predicate Found(t: Tokens, records: seq<Markdown.Section>, links: seq<Markdown.Occurrence>,
                        from: seq<Markdown.Origin>)
    requires Markdown.Tokenised(t.lines, t.headings)
  {
    && Markdown.SectionsOf(t.lines, t.headings, records)
    && Markdown.DocumentLinks(t.inlines, |t.inlines|, Markdown.StartsOf(t.lines, t.headings), links, from)
  }

  /** The document has the source's own fields, sections and links. */
  ghost predicate ParsedFrom(s: Source, classify: Classifier, d: Document)
    requires Tokenised(s)
  {
    && d == s.front.(sections := d.sections, links := d.links)
    && exists records, links, from ::
         && Found(s.tokens, records, links, from)
         && d.sections == SectionsFrom(records) && d.links == LinksFrom(links, classify)
  }

  /** Section ordinals count up from zero, and a parent comes before its child. */
  lemma SectionsInOrder(t: Tokens, records: seq<Markdown.Section>, i: nat)
    requires Markdown.Tokenised(t.lines, t.headings) && Markdown.SectionsOf(t.lines, t.headings, records)
    requires i < |records|
    ensures records[i].ordinal == i
    ensures records[i].parent.Some? ==> records[i].parent.value < i
  {
    var offset := Markdown.Offset(t.lines, t.headings);
    if i >= offset {
      assert Markdown.HeadingSection(t.lines, t.headings, offset, i - offset, records[i]);
    }
  }

  /** Sections and links are numbered as they come, and parents come first. */
  predicate Numbered(d: Document) {
    && (forall i :: 0 <= i < |d.sections| ==>
          && d.sections[i].ordinal == i
          && (d.sections[i].parent.Some? ==> d.sections[i].parent.value < i))
    && (forall i :: 0 <= i < |d.links| ==> d.links[i].ordinal == i)
  }

  lemma NumberedIsWellParsed(d: Document)
    requires Numbered(d)
    ensures BuildStore.WellParsed(d)
  {
    forall s <- d.sections | s.parent.Some? ensures exists p :: p in d.sections && p.ordinal == s.parent.value {
      var i :| 0 <= i < |d.sections| && d.sections[i] == s;
      assert d.sections[s.parent.value] in d.sections;
    }
  }

  lemma SectionsNumbered(t: Tokens, records: seq<Markdown.Section>)
    requires Markdown.Tokenised(t.lines, t.headings) && Markdown.SectionsOf(t.lines, t.headings, records)
    ensures forall i :: 0 <= i < |records| ==>
              records[i].ordinal == i && (records[i].parent.Some? ==> records[i].parent.value < i)
  {
    forall i | 0 <= i < |records|
      ensures records[i].ordinal == i && (records[i].parent.Some? ==> records[i].parent.value < i)
    {
      SectionsInOrder(t, records, i);
    }
  }

  lemma LinksNumbered(inlines: seq<Markdown.Inline>, starts: Markdown.Starts, links: seq<Markdown.Occurrence>,
                      from: seq<Markdown.Origin>)
    requires Markdown.DocumentLinks(inlines, |inlines|, starts, links, from)
    ensures forall i :: 0 <= i < |links| ==> links[i].ordinal == i
  {
    forall i | 0 <= i < |links| ensures links[i].ordinal == i {
      assert Markdown.ComesFrom(inlines, starts, links[i], i, from[i]);
    }
  }

  lemma FoundIsNumbered(t: Tokens, records: seq<Markdown.Section>, links: seq<Markdown.Occurrence>,
                        from: seq<Markdown.Origin>, classify: Classifier, d: Document)
    requires Markdown.Tokenised(t.lines, t.headings) && Found(t, records, links, from)
    requires d.sections == SectionsFrom(records) && d.links == LinksFrom(links, classify)
    ensures Numbered(d) == true
  {
    SectionsNumbered(t, records);
    LinksNumbered(t.inlines, Markdown.StartsOf(t.lines, t.headings), links, from);
  }

  /** What the build takes for granted of its documents is what parsing produces. */
  lemma ParsedIsWellParsed(s: Source, classify: Classifier, d: Document)
    requires Tokenised(s) && ParsedFrom(s, classify, d)
    ensures BuildStore.WellParsed(d)
  {
    var records, links, from :|
      && Found(s.tokens, records, links, from)
      && d.sections == SectionsFrom(records) && d.links == LinksFrom(links, classify);
    FoundIsNumbered(s.tokens, records, links, from, classify, d);
    NumberedIsWellParsed(d);
  }

  /** parse_source. */
  method ParseSource(s: Source, classify: Classifier) returns (d: Document)
    requires Tokenised(s)
    ensures ParsedFrom(s, classify, d)
  {
    var records := Markdown.BuildSections(s.tokens.lines, s.tokens.headings);
    var starts := Markdown.SectionStarts(s.tokens.lines, s.tokens.headings, records);
    var links;
    ghost var from;
    links, from := Markdown.LinkOccurrences(s.tokens.inlines, starts);
    assert Found(s.tokens, records, links, from);
    d := s.front.(sections := SectionsFrom(records), links := LinksFrom(links, classify));
  }

  /** parse_sources. */
  method ParseSources(sources: seq<Source>, classify: Classifier) returns (docs: seq<Document>)
    requires forall s <- sources :: Tokenised(s)
    ensures |docs| == |sources|
    ensures forall i :: 0 <= i < |docs| ==> ParsedFrom(sources[i], classify, docs[i])
  {
    docs := [];
    for i := 0 to |sources|
      invariant |docs| == i && forall j :: 0 <= j < i ==> ParsedFrom(sources[j], classify, docs[j])
    {
      var d := ParseSource(sources[i], classify);
      docs := docs + [d];
    }
  }

  /** Parse, validate, load and verify: whatever the sources, nothing else decides whether
      their build is verified. */
  method BuildSources(sources: seq<Source>, classify: Classifier, known: set<string>, key: Fold, fold: Fold,
                      uuid: BuildStore.Uuids, candidate: BuildPipeline.Manifest)
    returns (docs: seq<Document>, valid: bool, verified: bool)
    requires BuildStore.Coherent(key, fold) && forall s <- sources :: Tokenised(s)
    requires candidate.id == candidate.directory && uuid(candidate.id) == Some(candidate.id)
    ensures |docs| == |sources| && forall i :: 0 <= i < |docs| ==> ParsedFrom(sources[i], classify, docs[i])
    ensures valid <==> Clean(docs, key)
    ensures verified <==>
              && valid && BuildStore.PathsUnique(docs) && BuildStore.IdsParse(docs, uuid)
              && BuildStore.UuidsDistinct(docs, uuid) && BuildStore.NoRepeats(docs, key)
  {
    docs := ParseSources(sources, classify);
    forall d <- docs ensures BuildStore.WellParsed(d) {
      var i :| 0 <= i < |docs| && docs[i] == d;
      ParsedIsWellParsed(sources[i], classify, d);
    }
    valid, verified := BuildPipeline.BuildDocuments(docs, known, key, fold, uuid, candidate);
  }
}
