/**
 The walk from a client to the internet over the active edges, under its budget, and what
 it finds: exactly the simple paths, and "complete" exactly when there is no doubt.
 */
module PathWalk {
  import opened Topology

  const MAX_WORK := 2048
  const MAX_PATHS := 64

  /** The edges followed from the root; the nodes and mediums of a path are read off it. */
  type Trail = seq<Edge>

  datatype Gap = Cycle(node: string) | NoParent(node: string) | ManyParents(node: string) | Note(edge: int, text: string) | Truncated

  datatype Budget = Budget(work: nat, paths: nat, truncated: bool)

  datatype Found = Found(trails: seq<Trail>, gaps: set<Gap>, budget: Budget)

  const FULL := Budget(0, 0, false)

  predicate Spent(b: Budget) {
    b.work >= MAX_WORK || b.paths >= MAX_PATHS
  }

  function Left(b: Budget): nat {
    if b.work >= MAX_WORK then 0 else MAX_WORK - b.work
  }

  function NodeAt(root: string, t: Trail, k: nat): string
    requires k <= |t|
  {
    if k == 0 then root else t[k - 1].parent
  }

  function EndOf(root: string, t: Trail): string {
    NodeAt(root, t, |t|)
  }

  predicate Passed(root: string, t: Trail, node: string) {
    exists k :: 0 <= k < |t| && NodeAt(root, t, k) == node
  }

  function Notes(e: Edge): set<Gap> {
    set k | 0 <= k < |e.ambiguities| :: Note(e.id, e.ambiguities[k])
  }

  function Walk(active: seq<Edge>, root: string, t: Trail, b: Budget): (f: Found)
    ensures f.budget.work >= b.work
    decreases Left(b), 0
  {
    var node := EndOf(root, t);
    if Spent(b) then Found([], {}, b.(truncated := true)) else
    var b1 := b.(work := b.work + 1);
    if node == INTERNET then Found([t], {}, b1.(paths := b1.paths + 1))
    else if Passed(root, t, node) then Found([], {Cycle(node)}, b1)
    else
      var parents := Parents(active, node);
      if parents == [] then Found([t], {NoParent(node)}, b1.(paths := b1.paths + 1)) else
      var f := Branch(active, root, t, parents, b1);
      if |parents| > 1 then f.(gaps := {ManyParents(node)} + f.gaps) else f
  }

  function Branch(active: seq<Edge>, root: string, t: Trail, parents: seq<Edge>, b: Budget): (f: Found)
    ensures f.budget.work >= b.work
    decreases Left(b), |parents| + 1
  {
    if parents == [] then Found([], {}, b)
    else if Spent(b) then Found([], {}, b.(truncated := true))
    else
      var f := Walk(active, root, t + [parents[0]], b);
      var r := Branch(active, root, t, parents[1..], f.budget);
      Found(f.trails + r.trails, Notes(parents[0]) + f.gaps + r.gaps, r.budget)
  }

  // ---- budgets ------------------------------------------------------------------

  /** Work and paths never run past their limits, and every path is paid for. */
  predicate Metered(b: Budget, f: Found) {
    && b.work <= f.budget.work <= MAX_WORK && f.budget.paths == b.paths + |f.trails| <= MAX_PATHS
    && (b.truncated ==> f.budget.truncated)
  }

  lemma {:induction false} WalkIsMetered(active: seq<Edge>, root: string, t: Trail, b: Budget)
    requires b.work <= MAX_WORK && b.paths <= MAX_PATHS
    ensures Metered(b, Walk(active, root, t, b))
    decreases Left(b), 0
  {
    var node := EndOf(root, t);
    if !Spent(b) && node != INTERNET && !Passed(root, t, node) && Parents(active, node) != [] {
      BranchIsMetered(active, root, t, Parents(active, node), b.(work := b.work + 1));
    }
  }

  lemma {:induction false} BranchIsMetered(active: seq<Edge>, root: string, t: Trail, parents: seq<Edge>, b: Budget)
    requires b.work <= MAX_WORK && b.paths <= MAX_PATHS
    ensures Metered(b, Branch(active, root, t, parents, b))
    decreases Left(b), |parents| + 1
  {
    if parents != [] && !Spent(b) {
      WalkIsMetered(active, root, t + [parents[0]], b);
      BranchIsMetered(active, root, t, parents[1..], Walk(active, root, t + [parents[0]], b).budget);
    }
  }

  // ---- what a path is --------------------------------------------------------------

  predicate Step(active: seq<Edge>, root: string, t: Trail, k: nat)
    requires k < |t|
  {
    t[k] in Parents(active, NodeAt(root, t, k)) && NodeAt(root, t, k) != INTERNET
  }

  /** A way from the root over active edges that visits nothing twice before its last node. */
  predicate Heading(active: seq<Edge>, root: string, t: Trail) {
    && (forall k :: 0 <= k < |t| ==> Step(active, root, t, k))
    && (forall i, j :: 0 <= i < j < |t| ==> NodeAt(root, t, i) != NodeAt(root, t, j))
  }

  /** A simple path that has arrived, or cannot go on. */
  predicate IsPath(active: seq<Edge>, root: string, t: Trail) {
    && Heading(active, root, t) && !Passed(root, t, EndOf(root, t))
    && (EndOf(root, t) == INTERNET || Parents(active, EndOf(root, t)) == [])
  }

  predicate Extends(t: Trail, p: Trail) {
    |t| <= |p| && p[..|t|] == t
  }

  predicate Takes(t: Trail, parents: seq<Edge>, p: Trail) {
    |t| < |p| && p[..|t|] == t && p[|t|] in parents
  }

  lemma StepIsHeading(active: seq<Edge>, root: string, t: Trail, e: Edge)
    requires Heading(active, root, t) && EndOf(root, t) != INTERNET && !Passed(root, t, EndOf(root, t))
    requires e in Parents(active, EndOf(root, t))
    ensures Heading(active, root, t + [e])
  {
    var u := t + [e];
    assert forall k :: 0 <= k <= |t| ==> NodeAt(root, u, k) == NodeAt(root, t, k);
    forall k | 0 <= k < |u|
      ensures Step(active, root, u, k)
    {
      if k < |t| {
        assert Step(active, root, t, k);
      }
    }
  }

  /** A walk, given the parents of its node and what their branches come to. */
  function Unfolded(root: string, t: Trail, parents: seq<Edge>, b: Budget, f: Found): Found {
    var node, b1 := EndOf(root, t), b.(work := b.work + 1);
    if Spent(b) then Found([], {}, b.(truncated := true))
    else if node == INTERNET then Found([t], {}, b1.(paths := b1.paths + 1))
    else if Passed(root, t, node) then Found([], {Cycle(node)}, b1)
    else if parents == [] then Found([t], {NoParent(node)}, b1.(paths := b1.paths + 1))
    else if |parents| > 1 then f.(gaps := {ManyParents(node)} + f.gaps) else f
  }

  lemma WalkUnfolds(active: seq<Edge>, root: string, t: Trail, parents: seq<Edge>, b: Budget, w: Found)
    requires parents == Parents(active, EndOf(root, t)) && w == Walk(active, root, t, b)
    ensures w == Unfolded(root, t, parents, b, Branch(active, root, t, parents, b.(work := b.work + 1)))
  {}

  /** Everything found is a simple path that goes on from where the walk was. */
  lemma {:induction false} WalkIsSound(active: seq<Edge>, root: string, t: Trail, b: Budget)
    requires Heading(active, root, t)
    ensures forall p :: p in Walk(active, root, t, b).trails ==> IsPath(active, root, p) && Extends(t, p)
    decreases Left(b), 0
  {
    var node, w := EndOf(root, t), Walk(active, root, t, b);
    var parents := Parents(active, node);
    WalkUnfolds(active, root, t, parents, b, w);
    if Spent(b) || (node != INTERNET && Passed(root, t, node)) {
      assert w.trails == [];
    } else if node == INTERNET || parents == [] {
      NotThroughTheInternet(active, root, t);
      assert w.trails == [t] && Extends(t, t);
    } else {
      BranchIsSound(active, root, t, parents, b.(work := b.work + 1));
      assert w.trails == Branch(active, root, t, parents, b.(work := b.work + 1)).trails;
    }
  }

  lemma NotThroughTheInternet(active: seq<Edge>, root: string, t: Trail)
    requires Heading(active, root, t)
    ensures !Passed(root, t, INTERNET)
  {
    forall k | 0 <= k < |t|
      ensures NodeAt(root, t, k) != INTERNET
    {
      assert Step(active, root, t, k);
    }
  }

  lemma {:induction false} BranchIsSound(active: seq<Edge>, root: string, t: Trail, parents: seq<Edge>, b: Budget)
    requires Heading(active, root, t) && EndOf(root, t) != INTERNET && !Passed(root, t, EndOf(root, t))
    requires forall e :: e in parents ==> e in Parents(active, EndOf(root, t))
    ensures forall p :: p in Branch(active, root, t, parents, b).trails ==> IsPath(active, root, p) && Takes(t, parents, p)
    decreases Left(b), |parents| + 1
  {
    if parents != [] && !Spent(b) {
      var u := t + [parents[0]];
      StepIsHeading(active, root, t, parents[0]);
      WalkIsSound(active, root, u, b);
      var f := Walk(active, root, u, b);
      BranchIsSound(active, root, t, parents[1..], f.budget);
      assert parents == [parents[0]] + parents[1..];
      forall p | p in f.trails
        ensures Takes(t, parents, p)
      {
        assert p[..|u|] == u;
        assert p[..|t|] == u[..|t|] == t && p[|t|] == u[|t|];
      }
    }
  }

  /** With budget to spare, every simple path that goes on from here is found. */
  lemma {:induction false} WalkIsComplete(active: seq<Edge>, root: string, t: Trail, b: Budget, p: Trail)
    requires IsPath(active, root, p) && Extends(t, p) && !Walk(active, root, t, b).budget.truncated
    requires b.work <= MAX_WORK && b.paths <= MAX_PATHS
    ensures p in Walk(active, root, t, b).trails
    decreases Left(b), 0
  {
    var node := EndOf(root, t);
    assert node == NodeAt(root, p, |t|);
    PassedEarlier(root, t, p);
    if |t| == |p| {
      assert t == p;
    } else {
      assert Step(active, root, p, |t|);
      var parents := Parents(active, node);
      WalkUnfolds(active, root, t, parents, b, Walk(active, root, t, b));
      BranchIsComplete(active, root, t, parents, b.(work := b.work + 1), p);
    }
  }

  lemma PassedEarlier(root: string, t: Trail, p: Trail)
    requires Extends(t, p) && !Passed(root, p, EndOf(root, p))
    requires forall i, j :: 0 <= i < j < |p| ==> NodeAt(root, p, i) != NodeAt(root, p, j)
    ensures !Passed(root, t, EndOf(root, t))
  {
    assert forall k :: 0 <= k <= |t| ==> NodeAt(root, t, k) == NodeAt(root, p, k);
  }

  lemma {:induction false} BranchIsComplete(active: seq<Edge>, root: string, t: Trail, parents: seq<Edge>, b: Budget, p: Trail)
    requires IsPath(active, root, p) && Takes(t, parents, p) && !Branch(active, root, t, parents, b).budget.truncated
    requires b.work <= MAX_WORK && b.paths <= MAX_PATHS
    ensures p in Branch(active, root, t, parents, b).trails
    decreases Left(b), |parents| + 1
  {
    var u := t + [parents[0]];
    var f := Walk(active, root, u, b);
    WalkIsMetered(active, root, u, b);
    BranchIsMetered(active, root, t, parents[1..], f.budget);
    if p[|t|] == parents[0] {
      assert p[..|u|] == u;
      WalkIsComplete(active, root, u, b, p);
    } else {
      BranchIsComplete(active, root, t, parents[1..], f.budget, p);
    }
  }

  /** No path is found twice. */
  lemma {:induction false} WalkIsDistinct(active: seq<Edge>, root: string, t: Trail, b: Budget)
    requires Heading(active, root, t) && Distinct(active)
    ensures Distinct(Walk(active, root, t, b).trails)
    decreases Left(b), 0
  {
    var node := EndOf(root, t);
    if !Spent(b) && node != INTERNET && !Passed(root, t, node) && Parents(active, node) != [] {
      ParentsAre(active, node);
      BranchIsDistinct(active, root, t, Parents(active, node), b.(work := b.work + 1));
    }
  }

  lemma {:induction false} BranchIsDistinct(active: seq<Edge>, root: string, t: Trail, parents: seq<Edge>, b: Budget)
    requires Heading(active, root, t) && EndOf(root, t) != INTERNET && !Passed(root, t, EndOf(root, t)) && Distinct(active)
    requires (forall e :: e in parents ==> e in Parents(active, EndOf(root, t))) && Distinct(parents)
    ensures Distinct(Branch(active, root, t, parents, b).trails)
    decreases Left(b), |parents| + 1
  {
    if parents != [] && !Spent(b) {
      var u := t + [parents[0]];
      StepIsHeading(active, root, t, parents[0]);
      var f := Walk(active, root, u, b);
      var r := Branch(active, root, t, parents[1..], f.budget);
      WalkIsDistinct(active, root, u, b);
      assert forall k :: 0 <= k < |parents| - 1 ==> parents[1..][k] == parents[k + 1];
      BranchIsDistinct(active, root, t, parents[1..], f.budget);
      WalkIsSound(active, root, u, b);
      BranchIsSound(active, root, t, parents[1..], f.budget);
      ApartByEdge(t, parents, f.trails, r.trails);
    }
  }

  lemma ApartByEdge(t: Trail, parents: seq<Edge>, these: seq<Trail>, those: seq<Trail>)
    requires parents != [] && Distinct(parents) && Distinct(these) && Distinct(those)
    requires forall p :: p in these ==> Extends(t + [parents[0]], p)
    requires forall p :: p in those ==> Takes(t, parents[1..], p)
    ensures Distinct(these + those)
  {
    var u := t + [parents[0]];
    forall i, j | 0 <= i < |these| && 0 <= j < |those|
      ensures these[i] != those[j]
    {
      assert these[i] in these && those[j] in those;
      assert these[i][|t|] == these[i][..|u|][|t|] == parents[0];
      var k :| 0 <= k < |parents[1..]| && parents[1..][k] == those[j][|t|];
      assert parents[k + 1] != parents[0];
    }
  }

  // ---- completeness of the picture -------------------------------------------------------

  predicate Arrives(root: string, trails: seq<Trail>) {
    forall k :: 0 <= k < |trails| ==> EndOf(root, trails[k]) == INTERNET
  }

  function Explore(active: seq<Edge>, root: string): Found {
    var f := Walk(active, root, [], FULL);
    if f.budget.truncated then f.(gaps := f.gaps + {Truncated}) else f
  }

  predicate Complete(root: string, f: Found) {
    f.trails != [] && f.gaps == {} && Arrives(root, f.trails)
  }

  predicate Certain(active: seq<Edge>, root: string, p: Trail, from: nat) {
    forall k :: from <= k < |p| ==> Only(active, root, p, k)
  }

  predicate Only(active: seq<Edge>, root: string, p: Trail, k: nat)
    requires k < |p|
  {
    Parents(active, NodeAt(root, p, k)) == [p[k]] && p[k].ambiguities == []
  }

  /** A single unambiguous way to the internet. */
  predicate Unambiguous(active: seq<Edge>, root: string, p: Trail) {
    IsPath(active, root, p) && EndOf(root, p) == INTERNET && Certain(active, root, p, 0)
  }

  lemma BranchOfOne(active: seq<Edge>, root: string, t: Trail, e: Edge, b: Budget)
    requires !Spent(b)
    ensures var f := Walk(active, root, t + [e], b);
            Branch(active, root, t, [e], b) == Found(f.trails, Notes(e) + f.gaps, f.budget)
  {}

  lemma NotesTellAll(e: Edge)
    ensures Notes(e) == {} <==> e.ambiguities == []
  {
    if e.ambiguities != [] {
      assert Note(e.id, e.ambiguities[0]) in Notes(e);
    }
  }

  /** One parent, and budget for it: the walk is the parent's walk. */
  lemma WalkOfOne(active: seq<Edge>, root: string, t: Trail, e: Edge, b: Budget)
    requires EndOf(root, t) != INTERNET && !Passed(root, t, EndOf(root, t)) && Parents(active, EndOf(root, t)) == [e]
    requires !Spent(b) && !Spent(b.(work := b.work + 1))
    ensures var f := Walk(active, root, t + [e], b.(work := b.work + 1));
            Walk(active, root, t, b) == Found(f.trails, Notes(e) + f.gaps, f.budget)
  {
    BranchOfOne(active, root, t, e, b.(work := b.work + 1));
  }

  lemma OnlyOneParent(active: seq<Edge>, root: string, t: Trail, b: Budget)
    requires Walk(active, root, t, b).gaps == {} && !Walk(active, root, t, b).budget.truncated && EndOf(root, t) != INTERNET
    ensures !Spent(b) && !Spent(b.(work := b.work + 1)) && !Passed(root, t, EndOf(root, t))
    ensures |Parents(active, EndOf(root, t))| == 1
  {}

  lemma OneStepBack(active: seq<Edge>, root: string, t: Trail, e: Edge, p: Trail)
    requires Extends(t + [e], p) && Certain(active, root, p, |t| + 1)
    requires Parents(active, EndOf(root, t)) == [e] && e.ambiguities == []
    ensures Extends(t, p) && Certain(active, root, p, |t|)
  {}

  lemma {:induction false} NoGapsNoDoubt(active: seq<Edge>, root: string, t: Trail, b: Budget)
    requires Walk(active, root, t, b).gaps == {} && !Walk(active, root, t, b).budget.truncated
    ensures |Walk(active, root, t, b).trails| == 1
    ensures var p := Walk(active, root, t, b).trails[0];
            Extends(t, p) && EndOf(root, p) == INTERNET && Certain(active, root, p, |t|) && b.work + (|p| - |t|) < MAX_WORK
    decreases Left(b)
  {
    var node := EndOf(root, t);
    if node == INTERNET {
      assert Walk(active, root, t, b).trails == [t] && Extends(t, t);
    } else {
      OnlyOneParent(active, root, t, b);
      var e := Parents(active, node)[0];
      WalkOfOne(active, root, t, e, b);
      NotesTellAll(e);
      NoGapsNoDoubt(active, root, t + [e], b.(work := b.work + 1));
      OneStepBack(active, root, t, e, Walk(active, root, t, b).trails[0]);
    }
  }

  lemma {:induction false} CertainIsFound(active: seq<Edge>, root: string, p: Trail, k: nat)
    requires Unambiguous(active, root, p) && k <= |p| < MAX_WORK
    ensures Walk(active, root, p[..k], Budget(k, 0, false)) == Found([p], {}, Budget(|p| + 1, 1, false))
    decreases |p| - k
  {
    var t := p[..k];
    assert EndOf(root, t) == NodeAt(root, p, k);
    PassedEarlier(root, t, p);
    if k == |p| {
      assert t == p;
    } else {
      assert Step(active, root, p, k) && Only(active, root, p, k);
      assert t + [p[k]] == p[..k + 1];
      NotesTellAll(p[k]);
      CertainIsFound(active, root, p, k + 1);
      WalkOfOne(active, root, t, p[k], Budget(k, 0, false));
    }
  }

  /** "Complete" says exactly that there is one unambiguous way, within the budget, and then it is the one shown. */
  lemma CompleteMeansOneWay(active: seq<Edge>, root: string)
    ensures var f := Explore(active, root);
            && (Complete(root, f) <==> exists p :: Unambiguous(active, root, p) && |p| < MAX_WORK)
            && (forall p :: Unambiguous(active, root, p) && |p| < MAX_WORK ==> f.trails == [p])
  {
    var f := Explore(active, root);
    if Complete(root, f) {
      NoGapsNoDoubt(active, root, [], FULL);
      WalkIsSound(active, root, [], FULL);
      assert f.trails[0] in f.trails;
      assert Unambiguous(active, root, f.trails[0]);
    }
    forall p | Unambiguous(active, root, p) && |p| < MAX_WORK
      ensures f == Found([p], {}, Budget(|p| + 1, 1, false))
    {
      assert p[..0] == [];
      CertainIsFound(active, root, p, 0);
    }
  }

  /** The paths shown: simple, each once, and all of them unless the truncation is admitted. */
  lemma PathsAreExact(active: seq<Edge>, root: string)
    requires Distinct(active)
    ensures var f := Explore(active, root);
            && (forall p :: p in f.trails ==> IsPath(active, root, p)) && Distinct(f.trails)
            && (Truncated !in f.gaps ==> forall p :: IsPath(active, root, p) ==> p in f.trails)
            && f.budget.work <= MAX_WORK && |f.trails| <= MAX_PATHS
  {
    var f := Walk(active, root, [], FULL);
    WalkIsSound(active, root, [], FULL);
    WalkIsDistinct(active, root, [], FULL);
    WalkIsMetered(active, root, [], FULL);
    if !f.budget.truncated {
      forall p | IsPath(active, root, p)
        ensures p in f.trails
      {
        WalkIsComplete(active, root, [], FULL, p);
      }
    }
  }

  // ---- the edges that matter -----------------------------------------------------------------

  predicate Closed(active: seq<Edge>, nodes: set<string>) {
    forall e :: e in active && e.child in nodes ==> e.parent in nodes
  }

  predicate Agree(these: seq<Edge>, those: seq<Edge>, nodes: set<string>) {
    forall n :: n in nodes ==> Parents(these, n) == Parents(those, n)
  }

  /** One step of both walks. */
  lemma SameStep(these: seq<Edge>, those: seq<Edge>, root: string, t: Trail, parents: seq<Edge>, b: Budget, v: Found, w: Found)
    requires parents == Parents(these, EndOf(root, t)) == Parents(those, EndOf(root, t))
    requires var b1 := b.(work := b.work + 1);
             Spent(b) || Branch(these, root, t, parents, b1) == Branch(those, root, t, parents, b1)
    requires v == Walk(these, root, t, b) && w == Walk(those, root, t, b)
    ensures v == w
  {
    WalkUnfolds(these, root, t, parents, b, v);
    WalkUnfolds(those, root, t, parents, b, w);
  }

  /** Edges outside what the root can reach change nothing. */
  lemma {:induction false} WalkSeesOnlyTheReachable(these: seq<Edge>, those: seq<Edge>, nodes: set<string>, root: string, t: Trail, b: Budget)
    requires Closed(these, nodes) && Agree(these, those, nodes) && EndOf(root, t) in nodes
    ensures Walk(these, root, t, b) == Walk(those, root, t, b)
    decreases Left(b), 0
  {
    var node := EndOf(root, t);
    ParentsAre(these, node);
    if !Spent(b) {
      BranchSeesOnlyTheReachable(these, those, nodes, root, t, Parents(these, node), b.(work := b.work + 1));
    }
    SameStep(these, those, root, t, Parents(these, node), b, Walk(these, root, t, b), Walk(those, root, t, b));
  }

  lemma {:induction false} BranchSeesOnlyTheReachable(
    these: seq<Edge>, those: seq<Edge>, nodes: set<string>, root: string, t: Trail, parents: seq<Edge>, b: Budget)
    requires Closed(these, nodes) && Agree(these, those, nodes)
    requires forall e :: e in parents ==> e.parent in nodes
    ensures Branch(these, root, t, parents, b) == Branch(those, root, t, parents, b)
    decreases Left(b), |parents| + 1
  {
    if parents != [] && !Spent(b) {
      WalkSeesOnlyTheReachable(these, those, nodes, root, t + [parents[0]], b);
      BranchSeesOnlyTheReachable(these, those, nodes, root, t, parents[1..], Walk(these, root, t + [parents[0]], b).budget);
    }
  }
}
