/** The context compiler's greedy selection under its three budgets
    (src/homeops_ai/context_compiler.py:81-91, 135-206). */
module ContextCompiler {

  /** A retrieved section.  `terms` are its informative matched terms, `anchored` says that
      its document's title occurs in the question, `canonical` that its document is the
      canonical current state, `forbidden` that its lifecycle must not guide. */
  datatype Candidate = Candidate(
    document: string, sectionRank: nat, documentRank: nat, ordinal: nat, terms: set<string>,
    forbidden: bool, anchored: bool, canonical: bool, chars: nat)

  datatype Budgets = Budgets(documents: nat, sections: nat, chars: nat)

  datatype Reason = ForbiddenLifecycle | RedundantEvidence | DocumentBudget | SectionBudget | CharacterBudget

  datatype Verdict = Selected | Omitted(reason: Reason)

  /** The loop's accumulators. */
  datatype Selection = Selection(
    selected: seq<Candidate>, documents: set<string>, terms: set<string>, canonical: bool, chars: nat,
    omitted: map<Reason, nat>)

  const NOTHING := Selection([], {}, {}, false, 0, map[])

  function Count(omitted: map<Reason, nat>, r: Reason): nat {
    if r in omitted then omitted[r] else 0
  }

  /** What the loop decides about one candidate. */
  function Decide(s: Selection, c: Candidate, b: Budgets): Verdict {
    if c.forbidden then Omitted(ForbiddenLifecycle)
    else if && s.selected != []
            && c.terms - s.terms == {}
            && !(c.canonical && !s.canonical)
            && !(c.document !in s.documents && c.anchored)
    then Omitted(RedundantEvidence)
    else if c.document !in s.documents && |s.documents| >= b.documents then Omitted(DocumentBudget)
    else if |s.selected| >= b.sections then Omitted(SectionBudget)
    else if s.chars + c.chars > b.chars then Omitted(CharacterBudget)
    else Selected
  }

  function Advance(s: Selection, c: Candidate, b: Budgets): Selection {
    match Decide(s, c, b)
    case Omitted(r) => s.(omitted := s.omitted[r := Count(s.omitted, r) + 1])
    case Selected =>
      Selection(s.selected + [c], s.documents + {c.document}, s.terms + c.terms, s.canonical || c.canonical,
                s.chars + c.chars, s.omitted)
  }

  /** The selection after the first `n` candidates. */
  function After(cs: seq<Candidate>, b: Budgets, n: nat): Selection
    requires n <= |cs|
  {
    if n == 0 then NOTHING else Advance(After(cs, b, n - 1), cs[n - 1], b)
  }

  function VerdictAt(cs: seq<Candidate>, b: Budgets, i: nat): Verdict
    requires i < |cs|
  {
    Decide(After(cs, b, i), cs[i], b)
  }

  // ------------------------------------------------------------------
  // What any candidate list comes to.
  // ------------------------------------------------------------------

  function Chars(cs: seq<Candidate>): nat {
    if cs == [] then 0 else Chars(cs[..|cs| - 1]) + cs[|cs| - 1].chars
  }

  /** The accumulated sets are those of the selected sections. */
  ghost predicate AddsUp(s: Selection) {
    && s.documents == (set c | c in s.selected :: c.document)
    && (s.canonical <==> exists c :: c in s.selected && c.canonical)
    && (forall t :: t in s.terms <==> exists c :: c in s.selected && t in c.terms)
  }

  lemma AdvanceAddsUp(s: Selection, c: Candidate, b: Budgets)
    requires AddsUp(s)
    ensures AddsUp(Advance(s, c, b)) == true
  {
    if Decide(s, c, b).Selected? { SelectedSets(s.selected, c); }
  }

  lemma {:induction false} SetsAddUp(cs: seq<Candidate>, b: Budgets, n: nat)
    requires n <= |cs|
    ensures AddsUp(After(cs, b, n)) == true
  {
    if n > 0 {
      SetsAddUp(cs, b, n - 1);
      AdvanceAddsUp(After(cs, b, n - 1), cs[n - 1], b);
    }
  }

  predicate Within(s: Selection, b: Budgets) {
    |s.selected| <= b.sections && |s.documents| <= b.documents && s.chars == Chars(s.selected) <= b.chars
  }

  lemma AdvanceWithin(s: Selection, c: Candidate, b: Budgets)
    requires Within(s, b)
    ensures Within(Advance(s, c, b), b) == true
  {
    if Decide(s, c, b).Selected? {
      assert (s.selected + [c])[..|s.selected|] == s.selected;
      if c.document in s.documents { assert s.documents + {c.document} == s.documents; }
    }
  }

  lemma {:induction false} CountsHold(cs: seq<Candidate>, b: Budgets, n: nat)
    requires n <= |cs|
    ensures Within(After(cs, b, n), b) == true
  {
    if n > 0 {
      CountsHold(cs, b, n - 1);
      AdvanceWithin(After(cs, b, n - 1), cs[n - 1], b);
    }
  }

  /** The accumulators are what the selected sections add up to, and within budget. */
  lemma BudgetsHold(cs: seq<Candidate>, b: Budgets, n: nat)
    requires n <= |cs|
    ensures var s := After(cs, b, n);
            && |s.selected| <= b.sections
            && |set c | c in s.selected :: c.document| <= b.documents
            && Chars(s.selected) <= b.chars
            && (s.canonical <==> exists c :: c in s.selected && c.canonical)
            && (forall t :: t in s.terms <==> exists c :: c in s.selected && t in c.terms)
  {
    SetsAddUp(cs, b, n);
    CountsHold(cs, b, n);
  }

  lemma SelectedSets(selected: seq<Candidate>, c: Candidate)
    ensures var more := selected + [c];
            && (set x | x in more :: x.document) == (set x | x in selected :: x.document) + {c.document}
            && ((exists x :: x in more && x.canonical) <==> c.canonical || exists x :: x in selected && x.canonical)
            && (forall t :: (exists x :: x in more && t in x.terms) <==>
                  t in c.terms || exists x :: x in selected && t in x.terms)
  {
    var more := selected + [c];
    assert forall x :: x in more <==> x in selected || x == c;
    assert c in more;
  }

  function Sum(omitted: map<Reason, nat>): nat {
    Count(omitted, ForbiddenLifecycle) + Count(omitted, RedundantEvidence) + Count(omitted, DocumentBudget)
    + Count(omitted, SectionBudget) + Count(omitted, CharacterBudget)
  }

  lemma OneMore(omitted: map<Reason, nat>, r: Reason)
    ensures Sum(omitted[r := Count(omitted, r) + 1]) == Sum(omitted) + 1
  {
  }

  /** Every candidate is selected or counted under one reason. */
  lemma {:induction false} EveryCandidateCounts(cs: seq<Candidate>, b: Budgets, n: nat)
    requires n <= |cs|
    ensures |After(cs, b, n).selected| + Sum(After(cs, b, n).omitted) == n
  {
    if n > 0 {
      EveryCandidateCounts(cs, b, n - 1);
      var before := After(cs, b, n - 1);
      var v := Decide(before, cs[n - 1], b);
      if v.Omitted? { OneMore(before.omitted, v.reason); }
    }
  }

  /** What has been taken is never given up. */
  lemma {:induction false} SelectionGrows(cs: seq<Candidate>, b: Budgets, i: nat, n: nat)
    requires i <= n <= |cs|
    ensures After(cs, b, i).selected <= After(cs, b, n).selected
    ensures After(cs, b, i).terms <= After(cs, b, n).terms
    ensures After(cs, b, i).canonical ==> After(cs, b, n).canonical
  {
    if i < n { SelectionGrows(cs, b, i, n - 1); }
  }

  predicate DroppedByBudget(v: Verdict) {
    v.Omitted? && v.reason in {DocumentBudget, SectionBudget, CharacterBudget}
  }

  /** Every informative term of a permitted candidate that no budget dropped is covered by
      the selection. */
  lemma TermsAreCovered(cs: seq<Candidate>, b: Budgets, i: nat)
    requires i < |cs| && !cs[i].forbidden && !DroppedByBudget(VerdictAt(cs, b, i))
    ensures cs[i].terms <= After(cs, b, |cs|).terms
  {
    SelectionGrows(cs, b, i, |cs|);
    SelectionGrows(cs, b, i + 1, |cs|);
    var before := After(cs, b, i);
    if VerdictAt(cs, b, i).Omitted? {
      forall t | t in cs[i].terms ensures t in before.terms { assert t !in cs[i].terms - before.terms; }
    }
  }

  /** Canonical current state is missing only if each permitted candidate for it hit a
      budget. */
  lemma CanonicalOnlyLostToBudgets(cs: seq<Candidate>, b: Budgets, i: nat)
    requires i < |cs| && cs[i].canonical && !cs[i].forbidden
    requires !After(cs, b, |cs|).canonical
    ensures DroppedByBudget(VerdictAt(cs, b, i))
  {
    if After(cs, b, i).canonical { SelectionGrows(cs, b, i, |cs|); }
    if After(cs, b, i + 1).canonical { SelectionGrows(cs, b, i + 1, |cs|); }
    assert After(cs, b, i + 1) == Advance(After(cs, b, i), cs[i], b);
  }

  predicate Untouched(s: Selection) {
    s.selected == [] ==> s.documents == {} && s.chars == 0
  }

  /** The first selection: any permitted candidate that fits by itself. */
  lemma FirstSelection(s: Selection, c: Candidate, b: Budgets)
    requires b.documents >= 1 && b.sections >= 1 && Untouched(s)
    ensures Advance(s, c, b).selected == [] <==> s.selected == [] && (c.forbidden || c.chars > b.chars)
    ensures Untouched(Advance(s, c, b)) == true
  {
  }

  /** Nothing is selected exactly when no permitted candidate fits the character budget
      by itself: then compile_context raises. */
  lemma {:induction false} EmptyIff(cs: seq<Candidate>, b: Budgets, n: nat)
    requires n <= |cs| && b.documents >= 1 && b.sections >= 1
    ensures After(cs, b, n).selected == [] <==>
              forall i :: 0 <= i < n ==> cs[i].forbidden || cs[i].chars > b.chars
    ensures Untouched(After(cs, b, n)) == true
  {
    if n > 0 {
      EmptyIff(cs, b, n - 1);
      FirstSelection(After(cs, b, n - 1), cs[n - 1], b);
    }
  }

  // ------------------------------------------------------------------
  // The order candidates are offered in.
  // ------------------------------------------------------------------

  /** The sort key of _selection_order, compared. */
  predicate Before(a: Candidate, c: Candidate) {
    if (a.sectionRank != 1) != (c.sectionRank != 1) then a.sectionRank == 1
    else if a.documentRank != c.documentRank then a.documentRank < c.documentRank
    else if a.sectionRank != c.sectionRank then a.sectionRank < c.sectionRank
    else a.ordinal <= c.ordinal
  }

  predicate Ordered(cs: seq<Candidate>) {
    forall i, j :: 0 <= i < j < |cs| ==> Before(cs[i], cs[j])
  }

  /** The best section of each document comes before any other section; among the best, and
      among the others, documents come by rank, then sections by rank, then by position. */
  predicate BestFirst(cs: seq<Candidate>) {
    forall i, j :: 0 <= i < j < |cs| ==>
      var a, c := cs[i], cs[j];
      && (c.sectionRank == 1 ==> a.sectionRank == 1)
      && ((a.sectionRank == 1 <==> c.sectionRank == 1) ==>
            && a.documentRank <= c.documentRank
            && (a.documentRank == c.documentRank ==> a.sectionRank <= c.sectionRank)
            && (a.documentRank == c.documentRank && a.sectionRank == c.sectionRank ==> a.ordinal <= c.ordinal))
  }

  lemma OrderedIsBestFirst(cs: seq<Candidate>)
    ensures Ordered(cs) <==> BestFirst(cs)
  {
    forall i, j | 0 <= i < j < |cs|
      ensures var a, c := cs[i], cs[j];
              Before(a, c) <==>
                && (c.sectionRank == 1 ==> a.sectionRank == 1)
                && ((a.sectionRank == 1 <==> c.sectionRank == 1) ==>
                      && a.documentRank <= c.documentRank
                      && (a.documentRank == c.documentRank ==> a.sectionRank <= c.sectionRank)
                      && (a.documentRank == c.documentRank && a.sectionRank == c.sectionRank ==>
                            a.ordinal <= c.ordinal))
    {
    }
  }

  /** Appending what nothing comes after keeps the order. */
  lemma AppendKeepsOrder(cs: seq<Candidate>, last: Candidate)
    requires Ordered(cs) && forall x <- cs :: Before(x, last)
    ensures Ordered(cs + [last])
  {
  }

  lemma PrefixBefore(cs: seq<Candidate>)
    requires Ordered(cs) && cs != []
    ensures var rest, last := cs[..|cs| - 1], cs[|cs| - 1];
            Ordered(rest) && cs == rest + [last] && forall x <- rest :: Before(x, last)
  {
  }

  /** Insertion after everything that does not come later, as a stable sort would. */
  function Insert(cs: seq<Candidate>, c: Candidate): (r: seq<Candidate>)
    requires Ordered(cs)
    ensures Ordered(r) && multiset(r) == multiset(cs) + multiset{c}
  {
    if cs == [] then [c]
    else
      var n := |cs| - 1;
      PrefixBefore(cs);
      if Before(cs[n], c) then
        AppendedAfter(cs, c);
        cs + [c]
      else
        var r := Insert(cs[..n], c);
        assert forall x <- r :: Before(x, cs[n]) by {
          forall x <- r ensures Before(x, cs[n]) { assert x in multiset(r); }
        }
        AppendKeepsOrder(r, cs[n]);
        r + [cs[n]]
  }

  lemma AppendedAfter(cs: seq<Candidate>, c: Candidate)
    requires Ordered(cs) && cs != [] && Before(cs[|cs| - 1], c)
    ensures Ordered(cs + [c])
  {
    forall x <- cs ensures Before(x, c) {
      var i :| 0 <= i < |cs| && cs[i] == x;
      if i < |cs| - 1 { assert Before(cs[i], cs[|cs| - 1]); }
    }
  }

  predicate SameKey(a: Candidate, c: Candidate) {
    Before(a, c) && Before(c, a)
  }

  /** One more candidate, if it has this key. */
  function WithKey(cs: seq<Candidate>, c: Candidate, k: Candidate): seq<Candidate> {
    if SameKey(c, k) then cs + [c] else cs
  }

  /** The candidates of one sort key, in order. */
  function OfKey(cs: seq<Candidate>, k: Candidate): seq<Candidate> {
    if cs == [] then [] else WithKey(OfKey(cs[..|cs| - 1], k), cs[|cs| - 1], k)
  }

  lemma OfKeyAppend(cs: seq<Candidate>, c: Candidate, k: Candidate)
    ensures OfKey(cs + [c], k) == WithKey(OfKey(cs, k), c, k)
  {
    assert (cs + [c])[..|cs|] == cs;
  }

  /** What belongs after another candidate does not have its key. */
  lemma DifferentKeys(a: Candidate, c: Candidate, k: Candidate)
    requires !Before(a, c)
    ensures !SameKey(a, k) || !SameKey(c, k)
  {
  }

  /** Candidates with one key keep their order. */
  lemma {:induction false} InsertIsStable(cs: seq<Candidate>, c: Candidate, k: Candidate)
    requires Ordered(cs)
    ensures OfKey(Insert(cs, c), k) == WithKey(OfKey(cs, k), c, k)
  {
    if cs == [] || Before(cs[|cs| - 1], c) {
      OfKeyAppend(cs, c, k);
      assert cs + [c] == Insert(cs, c);
    } else {
      var rest, last := cs[..|cs| - 1], cs[|cs| - 1];
      InsertIsStable(rest, c, k);
      OfKeyAppend(Insert(rest, c), last, k);
      DifferentKeys(last, c, k);
    }
  }

  /** _selection_order and the selection loop: a stable sort by the key, then the greedy
      selection over it. */
  method Compile(candidates: seq<Candidate>, b: Budgets) returns (order: seq<Candidate>, s: Selection)
    ensures BestFirst(order) && multiset(order) == multiset(candidates)
    ensures forall k :: OfKey(order, k) == OfKey(candidates, k)
    ensures s == After(order, b, |order|)
  {
    order := [];
    for i := 0 to |candidates|
      invariant Ordered(order) && multiset(order) == multiset(candidates[..i])
      invariant forall k :: OfKey(order, k) == OfKey(candidates[..i], k)
    {
      assert candidates[..i + 1] == candidates[..i] + [candidates[i]];
      forall k ensures OfKey(Insert(order, candidates[i]), k) == OfKey(candidates[..i + 1], k) {
        InsertIsStable(order, candidates[i], k);
        OfKeyAppend(candidates[..i], candidates[i], k);
      }
      order := Insert(order, candidates[i]);
    }
    assert candidates[..|candidates|] == candidates;
    OrderedIsBestFirst(order);
    s := Select(order, b);
  }

  /** The checks of one round, in the loop's order. */
  method Judge(c: Candidate, s: Selection, b: Budgets) returns (v: Verdict)
    ensures v == Decide(s, c, b)
  {
    if c.forbidden { return Omitted(ForbiddenLifecycle); }
    var addsTerms := c.terms - s.terms != {};
    var exactTitleAnchor := c.document !in s.documents && c.anchored;
    var requiredForTrust := c.canonical && !s.canonical;
    if s.selected != [] && !addsTerms && !requiredForTrust && !exactTitleAnchor {
      return Omitted(RedundantEvidence);
    }
    if c.document !in s.documents && |s.documents| >= b.documents { return Omitted(DocumentBudget); }
    if |s.selected| >= b.sections { return Omitted(SectionBudget); }
    if s.chars + c.chars > b.chars { return Omitted(CharacterBudget); }
    v := Selected;
  }

  /** The selection loop. */
  method Select(order: seq<Candidate>, b: Budgets) returns (s: Selection)
    ensures s == After(order, b, |order|)
  {
    s := NOTHING;
    for i := 0 to |order|
      invariant s == After(order, b, i)
    {
      var c := order[i];
      var v := Judge(c, s, b);
      match v {
        case Omitted(r) =>
          s := s.(omitted := s.omitted[r := Count(s.omitted, r) + 1]);
        case Selected =>
          s := s.(selected := s.selected + [c], documents := s.documents + {c.document}, terms := s.terms + c.terms,
                  canonical := s.canonical || c.canonical, chars := s.chars + c.chars);
      }
    }
  }
}
