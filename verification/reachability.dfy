/** Documents reachable over resolved links: the query's worklist and the verifier's
    recursive rule (src/homeops_ai/query.py:249-263, src/homeops_ai/verifier.py:151-161). */
module Reachability {

  /** Targets of each document's resolved links; every target is a loaded document. */
  type Links = map<string, set<string>>

  function Targets(links: Links, id: string): set<string> {
    if id in links then links[id] else {}
  }

  /** A chain of links from the first to the last document of `path`. */
  predicate Chain(links: Links, path: seq<string>) {
    && path != []
    && forall i :: 0 <= i < |path| - 1 ==> path[i + 1] in Targets(links, path[i])
  }

  ghost predicate Reachable(links: Links, root: string, id: string) {
    exists path :: Chain(links, path) && path[0] == root && path[|path| - 1] == id
  }

  /** `s` satisfies the recursive rule: it holds the root and follows every link. */
  predicate Closed(links: Links, root: string, s: set<string>) {
    root in s && forall id <- s :: Targets(links, id) <= s
  }

  lemma {:induction false} ClosedHoldsChains(links: Links, root: string, s: set<string>, path: seq<string>)
    requires Closed(links, root, s) && Chain(links, path) && path[0] == root
    ensures path[|path| - 1] in s
  {
    if |path| > 1 {
      var shorter := path[..|path| - 1];
      assert Chain(links, shorter) by {
        forall i | 0 <= i < |shorter| - 1 ensures shorter[i + 1] in Targets(links, shorter[i]) {
          assert path[i + 1] in Targets(links, path[i]);
        }
      }
      ClosedHoldsChains(links, root, s, shorter);
      assert path[|path| - 2 + 1] in Targets(links, path[|path| - 2]);
    }
  }

  lemma StepReaches(links: Links, root: string, id: string, next: string)
    requires Reachable(links, root, id) && next in Targets(links, id)
    ensures Reachable(links, root, next)
  {
    var path :| Chain(links, path) && path[0] == root && path[|path| - 1] == id;
    var longer := path + [next];
    assert Chain(links, longer) by {
      forall i | 0 <= i < |longer| - 1 ensures longer[i + 1] in Targets(links, longer[i]) {
        if i < |path| - 1 { assert path[i + 1] in Targets(links, path[i]); }
      }
    }
    assert longer[0] == root && longer[|longer| - 1] == next;
  }

  /** What the reachable documents are: exactly the ends of chains, and the least set the
      recursive rule allows. */
  ghost predicate IsReachableSet(links: Links, root: string, s: set<string>) {
    && (forall id :: id in s <==> Reachable(links, root, id))
    && Closed(links, root, s)
    && (forall t :: Closed(links, root, t) ==> s <= t)
  }

  lemma ReachableIsLeast(links: Links, root: string, s: set<string>)
    requires Closed(links, root, s) && forall id <- s :: Reachable(links, root, id)
    ensures IsReachableSet(links, root, s)
  {
    forall t, id | Closed(links, root, t) && Reachable(links, root, id) ensures id in t {
      var path :| Chain(links, path) && path[0] == root && path[|path| - 1] == id;
      ClosedHoldsChains(links, root, t, path);
    }
  }

  /** Every document a link graph names. */
  function Nodes(links: Links, root: string): set<string> {
    {root} + links.Keys + (set id, t | id in links && t in links[id] :: t)
  }

  /** _reachable_from: a set and a queue, each document queued once. */
  method ReachableFrom(links: Links, root: string) returns (reachable: set<string>)
    ensures IsReachableSet(links, root, reachable)
  {
    reachable := {root};
    var pending := [root];
    assert Reachable(links, root, root) by { assert Chain(links, [root]); }
    while pending != []
      invariant root in reachable && reachable <= Nodes(links, root)
      invariant forall id <- pending :: id in reachable
      invariant forall id <- reachable :: Reachable(links, root, id)
      invariant forall id <- reachable :: id in pending || Targets(links, id) <= reachable
      decreases Nodes(links, root) - reachable, |pending|
    {
      var current := pending[0];
      var rest := pending[1..];
      ghost var before := reachable;
      TargetsReach(links, root, current);
      reachable, pending := Visit(Targets(links, current), reachable, rest);
      if reachable == before { assert pending == rest; }
    }
    ReachableIsLeast(links, root, reachable);
  }

  lemma TargetsReach(links: Links, root: string, current: string)
    requires Reachable(links, root, current)
    ensures forall id <- Targets(links, current) :: Reachable(links, root, id)
    ensures Targets(links, current) <= Nodes(links, root)
  {
    forall id | id in Targets(links, current) ensures Reachable(links, root, id) {
      StepReaches(links, root, current, id);
    }
  }

  /** The inner loop: every target not seen before is added and queued. */
  method Visit(targets: set<string>, seen: set<string>, queue: seq<string>)
    returns (reachable: set<string>, pending: seq<string>)
    requires forall id <- queue :: id in seen
    ensures reachable == seen + targets
    ensures queue <= pending && forall id <- pending :: id in reachable
    ensures forall id <- reachable :: id in seen || id in pending
    ensures reachable == seen ==> pending == queue
  {
    reachable, pending := seen, queue;
    var todo := targets;
    while todo != {}
      invariant todo <= targets && reachable == seen + (targets - todo)
      invariant queue <= pending && forall id <- pending :: id in reachable
      invariant forall id <- reachable :: id in seen || id in pending
      invariant reachable == seen ==> pending == queue
      decreases |todo|
    {
      var target :| target in todo;
      todo := todo - {target};
      if target !in reachable {
        reachable, pending := reachable + {target}, pending + [target];
      }
    }
  }
}
