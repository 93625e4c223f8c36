/** Sections of a Markdown body: their nesting, their bodies, and which section a line
    belongs to (src/homeops_ai/markdown_parser.py:215-285).

    Tokenising is outside the model: headings come as the line each starts on, with
    strictly increasing lines, and a line knows whether it is blank. */
module MarkdownSections {
  import opened Wrappers

  datatype Line = Line(text: string, blank: bool)

  datatype Heading = Heading(line: nat, level: nat, text: string)

  datatype Section = Section(ordinal: nat, parent: Option<nat>, level: nat, heading: Option<string>, body: seq<Line>)

  predicate Tokenised(lines: seq<Line>, hs: seq<Heading>) {
    && (forall i :: 0 <= i < |hs| ==> hs[i].line < |lines| && hs[i].level >= 1)
    && (forall i, j :: 0 <= i < j < |hs| ==> hs[i].line < hs[j].line)
  }

  /** Where the preamble ends. */
  function FirstHeading(lines: seq<Line>, hs: seq<Heading>): nat {
    if hs == [] then |lines| else hs[0].line
  }

  /** There is a preamble section: something to keep before the first heading, or no
      heading at all. */
  predicate HasPreamble(lines: seq<Line>, hs: seq<Heading>)
    requires Tokenised(lines, hs)
  {
    && FirstHeading(lines, hs) > 0
    && (hs == [] || exists i :: 0 <= i < hs[0].line && !lines[i].blank)
  }

  /** Ordinal of the first heading section. */
  function Offset(lines: seq<Line>, hs: seq<Heading>): nat
    requires Tokenised(lines, hs)
  {
    if HasPreamble(lines, hs) then 1 else 0
  }

  function NextLine(lines: seq<Line>, hs: seq<Heading>, i: nat): nat
    requires i < |hs|
  {
    if i + 1 < |hs| then hs[i + 1].line else |lines|
  }

  /** `j` is the latest heading before `i` of strictly lower level. */
  predicate IsParent(hs: seq<Heading>, i: nat, j: nat) {
    && j < i < |hs| && hs[j].level < hs[i].level
    && forall k :: j < k < i ==> hs[k].level >= hs[i].level
  }

  predicate HasNoParent(hs: seq<Heading>, i: nat)
    requires i < |hs|
  {
    forall k :: 0 <= k < i ==> hs[k].level >= hs[i].level
  }

  /** The section record of heading `i`. */
  predicate HeadingSection(lines: seq<Line>, hs: seq<Heading>, offset: nat, i: nat, s: Section)
    requires Tokenised(lines, hs) && i < |hs|
  {
    && s.ordinal == offset + i
    && s.level == hs[i].level
    && s.heading == Some(hs[i].text)
    && s.body == lines[hs[i].line + 1..NextLine(lines, hs, i)]
    && (match s.parent
        case None => HasNoParent(hs, i)
        case Some(p) => p >= offset && IsParent(hs, i, p - offset))
  }

  predicate PreambleSection(lines: seq<Line>, hs: seq<Heading>, s: Section)
    requires Tokenised(lines, hs)
  {
    s == Section(0, None, 0, None, lines[..FirstHeading(lines, hs)])
  }

  /** A list of sections is the one the body calls for. */
  predicate SectionsOf(lines: seq<Line>, hs: seq<Heading>, s: seq<Section>)
    requires Tokenised(lines, hs)
  {
    var offset := Offset(lines, hs);
    && |s| == offset + |hs|
    && (offset == 1 ==> PreambleSection(lines, hs, s[0]))
    && (forall i :: offset <= i < |s| ==> HeadingSection(lines, hs, offset, i - offset, s[i]))
  }

  /** The levels of the records are those of the headings, and the levels alone say which
      section is whose parent: the nearest earlier one of lower level, if there is one. */
  lemma NestingMeans(lines: seq<Line>, hs: seq<Heading>, records: seq<Section>, i: nat)
    requires Tokenised(lines, hs) && SectionsOf(lines, hs, records)
    requires i < |records| && records[i].heading.Some?
    ensures var first := |records| - |hs|;
            && i >= first && records[i].level == hs[i - first].level
            && records[i].heading == Some(hs[i - first].text)
            && (forall k :: first <= k < |records| ==> records[k].level == hs[k - first].level)
            && (match records[i].parent
                case None => forall k :: first <= k < i ==> records[k].level >= records[i].level
                case Some(p) =>
                  && first <= p < i && records[p].level < records[i].level
                  && forall k :: p < k < i ==> records[k].level >= records[i].level)
  {
    var first := Offset(lines, hs);
    forall k | first <= k < |records| ensures HeadingSection(lines, hs, first, k - first, records[k]) {}
    assert first == 1 ==> PreambleSection(lines, hs, records[0]);
  }

  /** There is a preamble exactly if the body has text before its first heading, or lines and
      no heading at all; it holds every line before the first heading. */
  lemma PreambleMeans(lines: seq<Line>, hs: seq<Heading>, records: seq<Section>)
    requires Tokenised(lines, hs) && SectionsOf(lines, hs, records)
    ensures |records| > |hs| <==>
              if hs == [] then lines != [] else exists i :: 0 <= i < hs[0].line && !lines[i].blank
    ensures |records| > |hs| ==>
              records[0] == Section(0, None, 0, None, if hs == [] then lines else lines[..hs[0].line])
    ensures |records| <= |hs| + 1
  {
    if hs == [] { assert lines[..|lines|] == lines; }
  }

  // ------------------------------------------------------------------
  // Building the sections.
  // ------------------------------------------------------------------

  /** The stack of open headings as (level, ordinal). */
  type Stack = seq<(nat, nat)>

  /** The stack names earlier headings, outermost first, levels increasing; every earlier
      heading is on it or closed by one at least as high. */
  ghost predicate StackOk(hs: seq<Heading>, offset: nat, n: nat, stack: Stack) {
    && n <= |hs|
    && (forall e :: 0 <= e < |stack| ==>
          offset <= stack[e].1 < offset + n && stack[e].0 == hs[stack[e].1 - offset].level)
    && (forall e, f :: 0 <= e < f < |stack| ==> stack[e].1 < stack[f].1 && stack[e].0 < stack[f].0)
    && (forall k :: 0 <= k < n ==> Closed(hs, offset, k, stack))
  }

  ghost predicate Closed(hs: seq<Heading>, offset: nat, k: nat, stack: Stack)
    requires k < |hs|
  {
    exists e :: 0 <= e < |stack| && stack[e].1 >= offset + k && stack[e].0 <= hs[k].level
  }

  /** What popping has established: everything after the top is at least as deep. */
  ghost predicate Popped(hs: seq<Heading>, offset: nat, n: nat, whole: Stack, stack: Stack)
    requires n < |hs|
  {
    && stack <= whole
    && (forall e :: |stack| <= e < |whole| ==> whole[e].0 >= hs[n].level)
  }

  /** The heading left on top is the parent. */
  lemma TopIsParent(hs: seq<Heading>, offset: nat, n: nat, whole: Stack, stack: Stack)
    requires n < |hs| && StackOk(hs, offset, n, whole) && Popped(hs, offset, n, whole, stack)
    requires stack != [] ==> stack[|stack| - 1].0 < hs[n].level
    ensures stack == [] ==> HasNoParent(hs, n)
    ensures stack != [] ==> IsParent(hs, n, stack[|stack| - 1].1 - offset)
  {
    assert forall e :: 0 <= e < |stack| ==> whole[e] == stack[e] && stack[e].1 <= stack[|stack| - 1].1;
    forall k | 0 <= k < n && (stack == [] || k > stack[|stack| - 1].1 - offset)
      ensures hs[k].level >= hs[n].level
    {
      assert Closed(hs, offset, k, whole);
      var e :| 0 <= e < |whole| && whole[e].1 >= offset + k && whole[e].0 <= hs[k].level;
      assert e >= |stack|;
    }
  }

  /** Pushing the new heading keeps the stack in order. */
  lemma PushKeepsStack(hs: seq<Heading>, offset: nat, n: nat, whole: Stack, stack: Stack)
    requires n < |hs| && StackOk(hs, offset, n, whole) && Popped(hs, offset, n, whole, stack)
    requires stack != [] ==> stack[|stack| - 1].0 < hs[n].level
    ensures StackOk(hs, offset, n + 1, stack + [(hs[n].level, offset + n)])
  {
    var next := stack + [(hs[n].level, offset + n)];
    forall k | 0 <= k < n + 1 ensures Closed(hs, offset, k, next) {
      if k < n {
        assert Closed(hs, offset, k, whole);
        var e :| 0 <= e < |whole| && whole[e].1 >= offset + k && whole[e].0 <= hs[k].level;
        if e < |stack| { assert next[e] == whole[e]; } else { assert next[|stack|].0 <= hs[k].level; }
      } else {
        assert next[|stack|].1 >= offset + k;
      }
    }
    forall e, f | 0 <= e < f < |next| ensures next[e].1 < next[f].1 && next[e].0 < next[f].0 {
      if f == |stack| { assert next[e] == whole[e] && stack[|stack| - 1] == whole[|stack| - 1]; }
    }
  }

  /** The inner loop: close every heading that is not shallower. */
  method CloseDeeper(hs: seq<Heading>, ghost offset: nat, n: nat, stack: Stack) returns (open: Stack)
    requires n < |hs| && StackOk(hs, offset, n, stack)
    ensures Popped(hs, offset, n, stack, open) == true
    ensures open != [] ==> open[|open| - 1].0 < hs[n].level
  {
    open := stack;
    while open != [] && open[|open| - 1].0 >= hs[n].level
      invariant Popped(hs, offset, n, stack, open)
    {
      open := open[..|open| - 1];
    }
  }

  /** One round of the loop over the headings: close, attach, open. */
  method OneSection(lines: seq<Line>, hs: seq<Heading>, offset: nat, n: nat, stack: Stack)
    returns (record: Section, open: Stack)
    requires Tokenised(lines, hs) && n < |hs| && StackOk(hs, offset, n, stack)
    ensures HeadingSection(lines, hs, offset, n, record) == true
    ensures StackOk(hs, offset, n + 1, open) == true
  {
    var h := hs[n];
    open := CloseDeeper(hs, offset, n, stack);
    TopIsParent(hs, offset, n, stack, open);
    PushKeepsStack(hs, offset, n, stack, open);
    var parent := if open == [] then None else Some(open[|open| - 1].1);
    if open != [] { assert open[|open| - 1] == stack[|open| - 1]; }
    record := Section(offset + n, parent, h.level, Some(h.text), lines[h.line + 1..NextLine(lines, hs, n)]);
    open := open + [(h.level, offset + n)];
  }

  /** _sections: a preamble if there is one, then one section a heading, with a stack of
      the headings still open. */
  method BuildSections(lines: seq<Line>, hs: seq<Heading>) returns (records: seq<Section>)
    requires Tokenised(lines, hs)
    ensures SectionsOf(lines, hs, records)
  {
    records := [];
    if HasPreamble(lines, hs) {
      records := [Section(0, None, 0, None, lines[..FirstHeading(lines, hs)])];
    }
    var stack: Stack := [];
    var offset := |records|;
    for n := 0 to |hs|
      invariant |records| == offset + n && StackOk(hs, offset, n, stack) == true
      invariant offset == 1 ==> PreambleSection(lines, hs, records[0]) == true
      invariant forall i :: offset <= i < |records| ==>
                  HeadingSection(lines, hs, offset, i - offset, records[i]) == true
    {
      var record;
      record, stack := OneSection(lines, hs, offset, n, stack);
      records := records + [record];
    }
  }

  // ------------------------------------------------------------------
  // Which section a line belongs to.
  // ------------------------------------------------------------------

  type Starts = seq<(nat, nat)>

  /** Where each section starts: the preamble at line 0, a heading on its own line. */
  function StartsOf(lines: seq<Line>, hs: seq<Heading>): Starts
    requires Tokenised(lines, hs)
  {
    (if HasPreamble(lines, hs) then [(0, 0)] else [])
    + seq(|hs|, i requires 0 <= i < |hs| => (hs[i].line, Offset(lines, hs) + i))
  }

  /** _section_for_line: the last start that is not after the line. */
  function SectionForLine(starts: Starts, line: nat): Option<nat> {
    if starts == [] then None
    else if starts[|starts| - 1].0 <= line then Some(starts[|starts| - 1].1)
    else SectionForLine(starts[..|starts| - 1], line)
  }

  /** _section_starts: walks the heading tokens and the heading sections together. */
  method SectionStarts(lines: seq<Line>, hs: seq<Heading>, records: seq<Section>) returns (starts: Starts)
    requires Tokenised(lines, hs) && SectionsOf(lines, hs, records)
    ensures starts == StartsOf(lines, hs)
  {
    starts := if records != [] && records[0].heading.None? then [(0, records[0].ordinal)] else [];
    var next := |starts|;
    assert next == Offset(lines, hs);
    for i := 0 to |hs|
      invariant |starts| == next + i && (next == 1 ==> starts[0] == (0, 0))
      invariant forall j :: next <= j < |starts| ==> starts[j] == (hs[j - next].line, j)
    {
      assert HeadingSection(lines, hs, next, i, records[next + i]);
      starts := starts + [(hs[i].line, records[next + i].ordinal)];
    }
  }

  /** Line `line` is in the body of section `o`. */
  predicate InBody(lines: seq<Line>, hs: seq<Heading>, o: nat, line: nat)
    requires Tokenised(lines, hs)
  {
    var offset := Offset(lines, hs);
    if o < offset then line < FirstHeading(lines, hs)
    else o - offset < |hs| && hs[o - offset].line < line < NextLine(lines, hs, o - offset)
  }

  predicate IsHeadingLine(lines: seq<Line>, hs: seq<Heading>, o: nat, line: nat)
    requires Tokenised(lines, hs)
  {
    var offset := Offset(lines, hs);
    offset <= o && o - offset < |hs| && hs[o - offset].line == line
  }

  /** The search finds the last start at or before the line. */
  lemma {:induction false} SearchFinds(starts: Starts, line: nat)
    requires forall i, j :: 0 <= i < j < |starts| ==> starts[i].0 < starts[j].0
    ensures SectionForLine(starts, line).None? ==> forall i :: 0 <= i < |starts| ==> starts[i].0 > line
    ensures SectionForLine(starts, line).Some? ==>
              exists i :: 0 <= i < |starts| && starts[i].1 == SectionForLine(starts, line).value
                          && starts[i].0 <= line && (i + 1 < |starts| ==> line < starts[i + 1].0)
  {
    if starts != [] && starts[|starts| - 1].0 > line {
      var n := |starts| - 1;
      SearchFinds(starts[..n], line);
      if SectionForLine(starts, line).Some? {
        var i :| 0 <= i < n && starts[..n][i].1 == SectionForLine(starts, line).value
                 && starts[..n][i].0 <= line && (i + 1 < n ==> line < starts[..n][i + 1].0);
        assert starts[i] == starts[..n][i];
      }
    } else if starts != [] {
      assert starts[|starts| - 1].1 == SectionForLine(starts, line).value;
    }
  }

  lemma StartsIncrease(lines: seq<Line>, hs: seq<Heading>)
    requires Tokenised(lines, hs)
    ensures var s := StartsOf(lines, hs);
            && |s| == Offset(lines, hs) + |hs|
            && (HasPreamble(lines, hs) ==> s[0] == (0, 0))
            && (forall i :: 0 <= i < |s| ==> s[i].1 == i)
            && (forall i, j :: 0 <= i < j < |s| ==> s[i].0 < s[j].0)
  {
  }

  /** Belonging to a section is lying between two starts. */
  lemma BelongsBetween(lines: seq<Line>, hs: seq<Heading>, o: nat, line: nat)
    requires Tokenised(lines, hs) && line < |lines|
    ensures var s := StartsOf(lines, hs);
            InBody(lines, hs, o, line) || IsHeadingLine(lines, hs, o, line) <==>
              o < |s| && s[o].0 <= line && (o + 1 < |s| ==> line < s[o + 1].0)
    ensures !(InBody(lines, hs, o, line) && IsHeadingLine(lines, hs, o, line))
  {
    StartsIncrease(lines, hs);
  }

  /** A section that holds a line is the one the search names. */
  lemma HolderIsFound(lines: seq<Line>, hs: seq<Heading>, o: nat, line: nat)
    requires Tokenised(lines, hs) && line < |lines|
    requires InBody(lines, hs, o, line) || IsHeadingLine(lines, hs, o, line)
    ensures SectionForLine(StartsOf(lines, hs), line) == Some(o)
  {
    StartsIncrease(lines, hs);
    BelongsBetween(lines, hs, o, line);
    OnlyBetween(StartsOf(lines, hs), line, o);
  }

  /** The section the search names holds the line. */
  lemma FoundHolds(lines: seq<Line>, hs: seq<Heading>, line: nat)
    requires Tokenised(lines, hs) && line < |lines|
    ensures var found := SectionForLine(StartsOf(lines, hs), line);
            found.Some? ==> InBody(lines, hs, found.value, line) != IsHeadingLine(lines, hs, found.value, line)
  {
    StartsIncrease(lines, hs);
    SearchFinds(StartsOf(lines, hs), line);
    var found := SectionForLine(StartsOf(lines, hs), line);
    if found.Some? { BelongsBetween(lines, hs, found.value, line); }
  }

  lemma NotFoundIsBefore(lines: seq<Line>, hs: seq<Heading>, line: nat)
    requires Tokenised(lines, hs) && line < |lines| && SectionForLine(StartsOf(lines, hs), line).None?
    ensures lines[line].blank && line < FirstHeading(lines, hs)
  {
    StartsIncrease(lines, hs);
    SearchFinds(StartsOf(lines, hs), line);
    BeforeFirst(lines, hs, line);
  }

  /** Every line is a heading line, or in exactly one section's body, or a blank line
      before the first heading; and the search names the section it belongs to. */
  lemma LineBelongs(lines: seq<Line>, hs: seq<Heading>, line: nat)
    requires Tokenised(lines, hs) && line < |lines|
    ensures var found := SectionForLine(StartsOf(lines, hs), line);
            && (found.None? ==> lines[line].blank && line < FirstHeading(lines, hs))
            && (found.Some? ==> InBody(lines, hs, found.value, line) != IsHeadingLine(lines, hs, found.value, line))
            && (forall o: nat :: InBody(lines, hs, o, line) || IsHeadingLine(lines, hs, o, line) ==> found == Some(o))
  {
    FoundHolds(lines, hs, line);
    if SectionForLine(StartsOf(lines, hs), line).None? { NotFoundIsBefore(lines, hs, line); }
    forall o: nat | InBody(lines, hs, o, line) || IsHeadingLine(lines, hs, o, line)
      ensures SectionForLine(StartsOf(lines, hs), line) == Some(o)
    {
      HolderIsFound(lines, hs, o, line);
    }
  }

  lemma OnlyBetween(starts: Starts, line: nat, o: nat)
    requires forall i, j :: 0 <= i < j < |starts| ==> starts[i].0 < starts[j].0
    requires forall i :: 0 <= i < |starts| ==> starts[i].1 == i
    requires o < |starts| && starts[o].0 <= line && (o + 1 < |starts| ==> line < starts[o + 1].0)
    ensures SectionForLine(starts, line) == Some(o)
  {
    SearchFinds(starts, line);
    var i :| 0 <= i < |starts| && starts[i].1 == SectionForLine(starts, line).value
             && starts[i].0 <= line && (i + 1 < |starts| ==> line < starts[i + 1].0);
  }

  lemma BeforeFirst(lines: seq<Line>, hs: seq<Heading>, line: nat)
    requires Tokenised(lines, hs) && line < |lines|
    requires forall i :: 0 <= i < |StartsOf(lines, hs)| ==> StartsOf(lines, hs)[i].0 > line
    ensures lines[line].blank && line < FirstHeading(lines, hs)
  {
    var s := StartsOf(lines, hs);
    StartsIncrease(lines, hs);
    if hs != [] { assert s[0].0 == hs[0].line; }
  }

  /** The section that owns a line holds its text at the right place. */
  lemma BodyHoldsLine(lines: seq<Line>, hs: seq<Heading>, records: seq<Section>, o: nat, line: nat)
    requires Tokenised(lines, hs) && SectionsOf(lines, hs, records)
    requires InBody(lines, hs, o, line)
    ensures o < |records| && records[o].ordinal == o
    ensures var start := if o < Offset(lines, hs) then 0 else hs[o - Offset(lines, hs)].line + 1;
            line - start < |records[o].body| && records[o].body[line - start] == lines[line]
  {
    if o >= Offset(lines, hs) {
      assert HeadingSection(lines, hs, Offset(lines, hs), o - Offset(lines, hs), records[o]);
    }
  }

  // ------------------------------------------------------------------
  // Link occurrences.
  // ------------------------------------------------------------------

  datatype Child = LinkOpen(href: Option<string>) | LinkClose | Text(content: string) | Wikilink(content: string)

  datatype Occurrence = Occurrence(ordinal: nat, section: Option<nat>, raw: string, text: string, wiki: bool)

  /** The link opened at token `a` is still open before token `i`. */
  predicate Pending(children: seq<Child>, a: nat, i: nat) {
    && a < i <= |children|
    && children[a].LinkOpen? && children[a].href.Some?
    && forall k :: a < k < i ==> !children[k].LinkOpen? && !children[k].LinkClose?
  }

  /** The text collected since token `a`. */
  function TextSince(children: seq<Child>, a: nat, i: nat): string
    requires a < i <= |children|
  {
    if i == a + 1 then ""
    else TextSince(children, a, i - 1) + if children[i - 1].Text? then children[i - 1].content else ""
  }

  /** Token `j` makes a link: a wikilink, or the end of an open Markdown link. */
  ghost predicate Makes(children: seq<Child>, j: nat) {
    && j < |children|
    && (children[j].Wikilink? || (children[j].LinkClose? && exists a: nat :: Pending(children, a, j)))
  }

  /** The link token `j` makes. */
  ghost predicate Made(children: seq<Child>, j: nat, l: Occurrence) {
    && j < |children|
    && (children[j].Wikilink? ==> l.wiki && l.raw == children[j].content && l.text == "")
    && (children[j].LinkClose? ==>
          && !l.wiki
          && exists a: nat ::
               Pending(children, a, j) && Some(l.raw) == children[a].href && l.text == TextSince(children, a, j))
  }

  predicate Increasing(s: seq<nat>) {
    forall i, j :: 0 <= i < j < |s| ==> s[i] < s[j]
  }

  /** The links of the tokens before `i`, made at the tokens `at`, all in one section. */
  ghost predicate LinksUpTo(children: seq<Child>, i: nat, section: Option<nat>, start: nat,
                            links: seq<Occurrence>, at: seq<nat>)
  {
    && |at| == |links| && Increasing(at)
    && (forall n :: 0 <= n < |links| ==>
          && at[n] < i && Makes(children, at[n]) && Made(children, at[n], links[n])
          && links[n].ordinal == start + n && links[n].section == section)
    && (forall j :: 0 <= j < i && Makes(children, j) ==> j in at)
  }

  /** What the loop carries: the open link, if there is one, and its text so far. */
  ghost predicate Carried(children: seq<Child>, i: nat, href: Option<string>, text: string) {
    && i <= |children|
    && (href.None? ==> forall a: nat :: !Pending(children, a, i))
    && (href.Some? ==> exists a: nat ::
          Pending(children, a, i) && children[a].href == href && text == TextSince(children, a, i))
  }

  /** At most one link is open. */
  lemma OnePending(children: seq<Child>, a: nat, b: nat, i: nat)
    requires Pending(children, a, i) && Pending(children, b, i)
    ensures a == b
  {
  }

  lemma PendingStep(children: seq<Child>, a: nat, i: nat)
    requires i < |children|
    ensures Pending(children, a, i + 1) <==>
              || (Pending(children, a, i) && !children[i].LinkOpen? && !children[i].LinkClose?)
              || (a == i && children[i].LinkOpen? && children[i].href.Some?)
  {
  }

  /** The link state after one more token. */
  lemma CarriedStep(children: seq<Child>, i: nat, href: Option<string>, text: string)
    requires i < |children| && Carried(children, i, href, text)
    ensures match children[i]
            case LinkOpen(target) => Carried(children, i + 1, target, "")
            case LinkClose => Carried(children, i + 1, None, text)
            case Text(content) => Carried(children, i + 1, href, text + content)
            case Wikilink(_) => Carried(children, i + 1, href, text)
    ensures href.None? && children[i].Text? ==> Carried(children, i + 1, href, text)
  {
    var next := i + 1;
    forall a: nat
      ensures Pending(children, a, next) <==>
                || (Pending(children, a, i) && !children[i].LinkOpen? && !children[i].LinkClose?)
                || (a == i && children[i].LinkOpen? && children[i].href.Some?)
    {
      PendingStep(children, a, i);
    }
    if children[i].LinkOpen? && children[i].href.Some? {
      assert Pending(children, i, i + 1) && TextSince(children, i, i + 1) == "";
    } else if href.Some? && !children[i].LinkOpen? && !children[i].LinkClose? {
      var a: nat :| Pending(children, a, i) && children[a].href == href && text == TextSince(children, a, i);
      assert Pending(children, a, i + 1) && text + "" == text;
      var more := text + if children[i].Text? then children[i].content else "";
      assert TextSince(children, a, i + 1) == more;
      assert Carried(children, i + 1, href, more);
    }
  }

  lemma OneMoreLink(children: seq<Child>, i: nat, section: Option<nat>, start: nat, links: seq<Occurrence>,
                    at: seq<nat>, l: Occurrence)
    requires LinksUpTo(children, i, section, start, links, at)
    requires Makes(children, i) && Made(children, i, l) && l.ordinal == start + |links| && l.section == section
    ensures LinksUpTo(children, i + 1, section, start, links + [l], at + [i])
  {
  }

  lemma NoMoreLink(children: seq<Child>, i: nat, section: Option<nat>, start: nat, links: seq<Occurrence>, at: seq<nat>)
    requires LinksUpTo(children, i, section, start, links, at) && !Makes(children, i)
    ensures LinksUpTo(children, i + 1, section, start, links, at)
  {
  }

  /** A close makes a link exactly when one is open: that one. */
  lemma CloseMakes(children: seq<Child>, i: nat, href: Option<string>, text: string, l: Occurrence)
    requires i < |children| && children[i].LinkClose? && Carried(children, i, href, text)
    ensures Makes(children, i) <==> href.Some?
    ensures href.Some? && !l.wiki && l.raw == href.value && l.text == text ==> Made(children, i, l)
  {
  }

  /** _inline_links: link state carried from token to token, ordinals carried on.  Every
      wikilink and every close of an open link makes one link, in order, with its target
      and the text since the opening. */
  method InlineLinks(children: seq<Child>, section: Option<nat>, start: nat)
    returns (links: seq<Occurrence>, ghost at: seq<nat>)
    ensures LinksUpTo(children, |children|, section, start, links, at)
  {
    links, at := [], [];
    var href: Option<string>, text := None, "";
    for i := 0 to |children|
      invariant Carried(children, i, href, text) == true
      invariant LinksUpTo(children, i, section, start, links, at) == true
    {
      CarriedStep(children, i, href, text);
      match children[i] {
        case LinkOpen(target) =>
          NoMoreLink(children, i, section, start, links, at);
          href, text := target, "";
        case LinkClose =>
          var l := Occurrence(start + |links|, section, if href.Some? then href.value else "", text, false);
          CloseMakes(children, i, href, text, l);
          if href.Some? {
            OneMoreLink(children, i, section, start, links, at, l);
            links, at := links + [l], at + [i];
            href := None;
          } else {
            NoMoreLink(children, i, section, start, links, at);
          }
        case Text(content) =>
          NoMoreLink(children, i, section, start, links, at);
          if href.Some? { text := text + content; }
        case Wikilink(content) =>
          var l := Occurrence(start + |links|, section, content, "", true);
          OneMoreLink(children, i, section, start, links, at, l);
          links, at := links + [l], at + [i];
      }
    }
  }

  /** An inline token: its line and its children. */
  datatype Inline = Inline(line: nat, children: seq<Child>)

  /** Where a link comes from: the inline token and the child that made it. */
  datatype Origin = Origin(inline: nat, child: nat)

  predicate Earlier(a: Origin, b: Origin) {
    a.inline < b.inline || (a.inline == b.inline && a.child < b.child)
  }

  predicate InOrder(from: seq<Origin>) {
    forall n, m :: 0 <= n < m < |from| ==> Earlier(from[n], from[m])
  }

  ghost predicate MadeAt(inlines: seq<Inline>, o: Origin) {
    o.inline < |inlines| && Makes(inlines[o.inline].children, o.child)
  }

  /** Link `n` of the document is what its origin made, in the section of its line. */
  ghost predicate ComesFrom(inlines: seq<Inline>, starts: Starts, l: Occurrence, n: nat, o: Origin) {
    && MadeAt(inlines, o) && Made(inlines[o.inline].children, o.child, l)
    && l.ordinal == n && l.section == SectionForLine(starts, inlines[o.inline].line)
  }

  /** The links of the first `i` inline tokens: one for each token that makes one, in order. */
  ghost predicate DocumentLinks(inlines: seq<Inline>, i: nat, starts: Starts, links: seq<Occurrence>,
                                from: seq<Origin>)
  {
    && |from| == |links|
    && InOrder(from)
    && (forall n :: 0 <= n < |links| ==> from[n].inline < i && ComesFrom(inlines, starts, links[n], n, from[n]))
    && (forall o: Origin :: o.inline < i && MadeAt(inlines, o) ==> o in from)
  }

  function OriginsAt(i: nat, at: seq<nat>): (r: seq<Origin>)
    ensures |r| == |at| && forall n :: 0 <= n < |at| ==> r[n] == Origin(i, at[n])
  {
    seq(|at|, n requires 0 <= n < |at| => Origin(i, at[n]))
  }

  lemma OriginsInOrder(from: seq<Origin>, i: nat, at: seq<nat>)
    requires InOrder(from) && forall n :: 0 <= n < |from| ==> from[n].inline < i
    requires Increasing(at)
    ensures InOrder(from + OriginsAt(i, at))
  {
    var all, last := from + OriginsAt(i, at), OriginsAt(i, at);
    forall n, m | 0 <= n < m < |all| ensures Earlier(all[n], all[m]) {
      if m >= |from| {
        assert all[m] == last[m - |from|];
        if n >= |from| { assert all[n] == last[n - |from|]; }
      }
    }
  }

  lemma OriginsComplete(inlines: seq<Inline>, from: seq<Origin>, i: nat, at: seq<nat>, o: Origin)
    requires i < |inlines| && o.inline <= i && MadeAt(inlines, o)
    requires o.inline < i ==> o in from
    requires o.inline == i ==> o.child in at
    ensures o in from + OriginsAt(i, at)
  {
    if o.inline == i {
      var n :| 0 <= n < |at| && at[n] == o.child;
      assert OriginsAt(i, at)[n] == o;
    }
  }

  lemma OneMoreInline(inlines: seq<Inline>, i: nat, starts: Starts, links: seq<Occurrence>, from: seq<Origin>,
                      more: seq<Occurrence>, at: seq<nat>)
    requires i < |inlines| && DocumentLinks(inlines, i, starts, links, from)
    requires LinksUpTo(inlines[i].children, |inlines[i].children|, SectionForLine(starts, inlines[i].line), |links|,
                       more, at)
    ensures DocumentLinks(inlines, i + 1, starts, links + more, from + OriginsAt(i, at))
  {
    var all, origins := links + more, from + OriginsAt(i, at);
    OriginsInOrder(from, i, at);
    forall n | 0 <= n < |all| ensures origins[n].inline < i + 1 && ComesFrom(inlines, starts, all[n], n, origins[n]) {
      if n >= |links| { assert all[n] == more[n - |links|] && origins[n] == Origin(i, at[n - |links|]); }
    }
    forall o: Origin | o.inline < i + 1 && MadeAt(inlines, o) ensures o in origins {
      OriginsComplete(inlines, from, i, at, o);
    }
  }

  /** _link_occurrences: over a whole document the ordinals count up from zero, one link for
      each token that makes one, each in the section of its inline token's line. */
  method LinkOccurrences(inlines: seq<Inline>, starts: Starts) returns (links: seq<Occurrence>, ghost from: seq<Origin>)
    ensures DocumentLinks(inlines, |inlines|, starts, links, from)
  {
    links, from := [], [];
    for i := 0 to |inlines|
      invariant DocumentLinks(inlines, i, starts, links, from) == true
    {
      var more;
      ghost var at;
      more, at := InlineLinks(inlines[i].children, SectionForLine(starts, inlines[i].line), |links|);
      OneMoreInline(inlines, i, starts, links, from, more, at);
      links, from := links + more, from + OriginsAt(i, at);
    }
  }

  // ------------------------------------------------------------------
  // The tokens determine the links.
  // ------------------------------------------------------------------

  /** What a token makes is determined, but for its place in the list. */
  lemma MadeOnce(children: seq<Child>, j: nat, l: Occurrence, m: Occurrence)
    requires Makes(children, j) && Made(children, j, l) && Made(children, j, m)
    ensures l.wiki == m.wiki && l.raw == m.raw && l.text == m.text
  {
    if children[j].LinkClose? {
      var a: nat :| Pending(children, a, j) && Some(l.raw) == children[a].href && l.text == TextSince(children, a, j);
      var b: nat :| Pending(children, b, j) && Some(m.raw) == children[b].href && m.text == TextSince(children, b, j);
      OnePending(children, a, b, j);
    }
  }

  lemma LastIsLast(a: seq<Origin>, b: seq<Origin>)
    requires InOrder(a) && InOrder(b) && a != [] && b != []
    requires a[|a| - 1] in b && b[|b| - 1] in a
    ensures a[|a| - 1] == b[|b| - 1]
  {
    var i :| 0 <= i < |a| && a[i] == b[|b| - 1];
    var j :| 0 <= j < |b| && b[j] == a[|a| - 1];
  }

  lemma WithoutLast(a: seq<Origin>, o: Origin)
    requires InOrder(a) && a != []
    ensures o in a[..|a| - 1] <==> o in a && o != a[|a| - 1]
  {
    var n := |a| - 1;
    if o in a && o != a[n] {
      var i :| 0 <= i < |a| && a[i] == o;
      assert a[..n][i] == o;
    }
    if o in a[..n] {
      var i :| 0 <= i < n && a[..n][i] == o;
      assert Earlier(a[i], a[n]);
    }
  }

  /** Two lists of the same origins in order are the same list. */
  lemma {:induction false} SameOrigins(a: seq<Origin>, b: seq<Origin>)
    requires InOrder(a) && InOrder(b) && forall o :: o in a <==> o in b
    ensures a == b
  {
    assert b != [] ==> b[0] in b;
    if a != [] {
      var n, m := |a| - 1, |b| - 1;
      assert a[n] in a && b[m] in b;
      LastIsLast(a, b);
      forall o ensures o in a[..n] <==> o in b[..m] {
        WithoutLast(a, o);
        WithoutLast(b, o);
      }
      SameOrigins(a[..n], b[..m]);
      assert a == a[..n] + [a[n]] && b == b[..m] + [b[m]];
    }
  }

  /** Only one list of links answers the description of a document's links. */
  lemma LinksDetermined(inlines: seq<Inline>, starts: Starts, links: seq<Occurrence>, from: seq<Origin>,
                        others: seq<Occurrence>, origins: seq<Origin>)
    requires DocumentLinks(inlines, |inlines|, starts, links, from)
    requires DocumentLinks(inlines, |inlines|, starts, others, origins)
    ensures links == others && from == origins
  {
    forall o ensures o in from <==> o in origins {
      if o in from {
        var n :| 0 <= n < |from| && from[n] == o;
        assert ComesFrom(inlines, starts, links[n], n, o);
      }
      if o in origins {
        var n :| 0 <= n < |origins| && origins[n] == o;
        assert ComesFrom(inlines, starts, others[n], n, o);
      }
    }
    SameOrigins(from, origins);
    forall n | 0 <= n < |links| ensures links[n] == others[n] {
      assert ComesFrom(inlines, starts, links[n], n, from[n]) && ComesFrom(inlines, starts, others[n], n, from[n]);
      MadeOnce(inlines[from[n].inline].children, from[n].child, links[n], others[n]);
    }
  }
}
