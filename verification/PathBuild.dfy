/**
 buildClientPathIntervals: the walk with its shared budget, the slices of time, and the
 merged intervals, which are the one way to write down the picture at every instant.
 */
module PathBuild {
  import opened Options
  import opened Topology
  import opened PathWalk
  import opened PathIntervals

  // ---- the walk -------------------------------------------------------------

  class Meter {
    var work: nat
    var paths: nat
    var truncated: bool

    constructor ()
      ensures Seen() == FULL
    {
      work, paths, truncated := 0, 0, false;
    }

    function Seen(): Budget
      reads this
    {
      Budget(work, paths, truncated)
    }
  }

  ghost predicate Indexes(index: map<string, seq<Edge>>, active: seq<Edge>) {
    forall n :: Get(index, n) == Parents(active, n)
  }

  /** What the walk carries along is read off the edges it has followed. */
  ghost predicate Carries(active: seq<Edge>, root: string, t: Trail, seen: set<string>, path: Path) {
    path == Render(active, root, t) && forall n :: n in seen <==> Passed(root, t, n)
  }

  lemma StepCarries(active: seq<Edge>, root: string, t: Trail, seen: set<string>, path: Path, e: Edge, c: Confidence)
    requires Carries(active, root, t, seen, path)
    requires c == StepConfidence(|Parents(active, EndOf(root, t))| > 1, path.confidence, e)
    ensures Carries(active, root, t + [e], seen + {EndOf(root, t)}, Path(path.nodes + [e.parent], path.mediums + [e.medium], c))
  {
    var u := t + [e];
    assert u[..|t|] == t;
    assert forall k :: 0 <= k <= |t| ==> NodeAt(root, u, k) == NodeAt(root, t, k);
    assert NodesOf(root, u) == NodesOf(root, t) + [e.parent];
    assert MediumsOf(u) == MediumsOf(t) + [e.medium];
    forall n
      ensures n in seen + {EndOf(root, t)} <==> Passed(root, u, n)
    {
      if Passed(root, t, n) {
        var k :| 0 <= k < |t| && NodeAt(root, t, k) == n;
        assert NodeAt(root, u, k) == n;
      }
      assert NodeAt(root, u, |t|) == EndOf(root, t);
    }
  }

  lemma RenderedTogether(active: seq<Edge>, root: string, a: seq<Trail>, b: seq<Trail>)
    ensures RenderAll(active, root, a + b) == RenderAll(active, root, a) + RenderAll(active, root, b)
  {}

  lemma RenderedAlone(active: seq<Edge>, root: string, t: Trail)
    ensures RenderAll(active, root, [t]) == [Render(active, root, t)]
  {}

  /** Out of budget, arrived, or back where it was: the walk ends here. Otherwise its step has been counted. */
  method EndsHere(ghost active: seq<Edge>, ghost root: string, ghost t: Trail, node: string, seen: set<string>, path: Path, meter: Meter)
    returns (ended: bool, paths: seq<Path>, gaps: set<Gap>)
    requires Carries(active, root, t, seen, path) && node == EndOf(root, t)
    modifies meter
    ensures ended == (Spent(old(meter.Seen())) || node == INTERNET || Passed(root, t, node))
    ensures var b := old(meter.Seen());
            if Spent(b) then paths == [] && gaps == {} && meter.Seen() == b.(truncated := true)
            else if node == INTERNET then paths == [path] && gaps == {} && meter.Seen() == b.(work := b.work + 1, paths := b.paths + 1)
            else if ended then paths == [] && gaps == {Cycle(node)} && meter.Seen() == b.(work := b.work + 1)
            else meter.Seen() == b.(work := b.work + 1)
  {
    if meter.work >= MAX_WORK || meter.paths >= MAX_PATHS {
      meter.truncated := true;
      return true, [], {};
    }
    meter.work := meter.work + 1;
    if node == INTERNET {
      meter.paths := meter.paths + 1;
      return true, [path], {};
    }
    if node in seen {
      return true, [], {Cycle(node)};
    }
    return false, [], {};
  }

  method WalkPaths(index: map<string, seq<Edge>>, ghost active: seq<Edge>, ghost root: string, ghost t: Trail,
                   node: string, seen: set<string>, path: Path, meter: Meter)
    returns (paths: seq<Path>, gaps: set<Gap>)
    requires Indexes(index, active) && Carries(active, root, t, seen, path) && node == EndOf(root, t)
    modifies meter
    ensures var f := Walk(active, root, t, old(meter.Seen()));
            paths == RenderAll(active, root, f.trails) && gaps == f.gaps && meter.Seen() == f.budget
    decreases Left(meter.Seen()), 0
  {
    RenderedAlone(active, root, t);
    var ended;
    ended, paths, gaps := EndsHere(active, root, t, node, seen, path, meter);
    if ended {
      return;
    }
    var parents := Get(index, node);
    if parents == [] {
      meter.paths := meter.paths + 1;
      return [path], {NoParent(node)};
    }
    paths, gaps := WalkParents(index, active, root, t, node, seen, path, parents, 0, meter);
    if |parents| > 1 {
      gaps := {ManyParents(node)} + gaps;
    }
  }

  /** The loop over the candidate parents, from the k-th on. */
  method WalkParents(index: map<string, seq<Edge>>, ghost active: seq<Edge>, ghost root: string, ghost t: Trail,
                     node: string, seen: set<string>, path: Path, parents: seq<Edge>, from: nat, meter: Meter)
    returns (paths: seq<Path>, gaps: set<Gap>)
    requires Indexes(index, active) && Carries(active, root, t, seen, path) && node == EndOf(root, t)
    requires parents == Parents(active, node) && from <= |parents|
    modifies meter
    ensures var f := Branch(active, root, t, parents[from..], old(meter.Seen()));
            paths == RenderAll(active, root, f.trails) && gaps == f.gaps && meter.Seen() == f.budget
    decreases Left(meter.Seen()), |parents| - from + 1
  {
    if from == |parents| {
      return [], {};
    }
    if meter.work >= MAX_WORK || meter.paths >= MAX_PATHS {
      meter.truncated := true;
      return [], {};
    }
    var edge := parents[from];
    assert parents[from..][0] == edge && parents[from..][1..] == parents[from + 1..];
    var confidence, notes := WalkStep(|parents| > 1, path.confidence, edge);
    StepCarries(active, root, t, seen, path, edge, confidence);
    ghost var f := Walk(active, root, t + [edge], meter.Seen());
    var next := Path(path.nodes + [edge.parent], path.mediums + [edge.medium], confidence);
    var branchPaths, branchGaps := WalkPaths(index, active, root, t + [edge], edge.parent, seen + {node}, next, meter);
    var morePaths, moreGaps := WalkParents(index, active, root, t, node, seen, path, parents, from + 1, meter);
    RenderedTogether(active, root, f.trails, Branch(active, root, t, parents[from + 1..], f.budget).trails);
    return branchPaths + morePaths, notes + branchGaps + moreGaps;
  }

  method WalkStep(many: bool, before: Confidence, edge: Edge) returns (confidence: Confidence, notes: set<Gap>)
    ensures confidence == StepConfidence(many, before, edge) && notes == Notes(edge)
  {
    confidence := Weaker(if many then Weaker(before, Ambiguous) else before, edge.confidence);
    notes := {};
    for i := 0 to |edge.ambiguities|
      invariant notes == set k | 0 <= k < i :: Note(edge.id, edge.ambiguities[k])
      invariant confidence == if i > 0 then Ambiguous
                              else Weaker(if many then Weaker(before, Ambiguous) else before, edge.confidence)
    {
      notes := notes + {Note(edge.id, edge.ambiguities[i])};
      confidence := Weaker(confidence, Ambiguous);
    }
  }

  /** The edges active at one time, each child's in order. */
  method IndexActive(edges: seq<Edge>, at: int) returns (index: map<string, seq<Edge>>)
    ensures Indexes(index, ActiveAt(edges, at))
  {
    var active: seq<Edge> := [];
    for i := 0 to |edges|
      invariant active == ActiveAt(edges[..i], at)
    {
      ActiveAppend(edges[..i], [edges[i]], at);
      assert edges[..i + 1] == edges[..i] + [edges[i]];
      if edges[i].validFrom <= at && (edges[i].validTo.None? || edges[i].validTo.value > at) {
        active := active + [edges[i]];
      }
    }
    assert edges[..|edges|] == edges;
    var byChild := ByChild(active);
    index := map n | n in byChild :: Sorted(byChild[n]);
    assert forall n :: Get(byChild, n) == From(active, n);
  }

  method Paint(root: string, edges: seq<Edge>, at: int) returns (p: Picture)
    ensures p == PictureAt(edges, root, at)
  {
    var index := IndexActive(edges, at);
    var meter := new Meter();
    ghost var active := ActiveAt(edges, at);
    var start := Path([root], [], Unknown);
    assert start == Render(active, root, []);
    var paths, gaps := WalkPaths(index, active, root, [], root, {}, start, meter);
    if meter.truncated {
      gaps := gaps + {Truncated};
    }
    ghost var f := Explore(active, root);
    var arrive := AllArrive(active, root, Explore(active, root).trails, paths);
    p := Picture(|paths| > 0 && gaps == {} && arrive, paths, gaps);
  }

  method AllArrive(ghost active: seq<Edge>, ghost root: string, ghost trails: seq<Trail>, paths: seq<Path>) returns (all: bool)
    requires paths == RenderAll(active, root, trails)
    ensures all == Arrives(root, trails)
  {
    for i := 0 to |paths|
      invariant Arrives(root, trails[..i])
    {
      ghost var t := trails[i];
      assert paths[i].nodes == NodesOf(root, t);
      assert trails[..i + 1] == trails[..i] + [t];
      if |paths[i].nodes| == 0 || paths[i].nodes[|paths[i].nodes| - 1] != INTERNET {
        return false;
      }
    }
    assert trails[..|paths|] == trails;
    return true;
  }

  // ---- intervals -------------------------------------------------------------------

  predicate Tiles(s: seq<Interval>, from: int, to: int) {
    && s != [] && s[0].from == from && s[|s| - 1].to == to
    && (forall k :: 0 <= k < |s| ==> s[k].from < s[k].to)
    && (forall k :: 0 < k < |s| ==> s[k].from == s[k - 1].to)
  }

  predicate Merged(s: seq<Interval>) {
    forall k :: 0 < k < |s| ==> s[k].picture != s[k - 1].picture
  }

  ghost predicate Faithful(s: seq<Interval>, edges: seq<Edge>, root: string) {
    forall k, t :: 0 <= k < |s| && s[k].from <= t < s[k].to ==> Shows(s[k].picture, edges, root, t)
  }

  ghost predicate Shows(p: Picture, edges: seq<Edge>, root: string, t: int) {
    p == PictureAt(edges, root, t)
  }

  /** The intervals cover [from, to) without gap or overlap, say what was so, and never say the same twice running. */
  ghost predicate Encodes(s: seq<Interval>, from: int, to: int, edges: seq<Edge>, root: string) {
    Tiles(s, from, to) && Merged(s) && Faithful(s, edges, root)
  }

  ghost predicate SameHistory(edges: seq<Edge>, others: seq<Edge>, root: string, from: int, to: int) {
    && (forall t :: from <= t < to ==> Shows(PictureAt(edges, root, t), others, root, t))
    && (forall t :: from <= t < to ==> Shows(PictureAt(others, root, t), edges, root, t))
  }

  lemma {:induction false} EndsWithin(s: seq<Interval>, from: int, to: int, k: nat)
    requires Tiles(s, from, to) && k < |s|
    ensures s[k].to <= to && (k + 1 < |s| ==> s[k].to < to)
    decreases |s| - k
  {
    if k + 1 < |s| {
      EndsWithin(s, from, to, k + 1);
    }
  }

  /** The encoding is canonical: interval by interval, there is no other. */
  lemma {:induction false} SameSoFar(a: seq<Interval>, b: seq<Interval>, from: int, to: int,
                                     edges: seq<Edge>, others: seq<Edge>, root: string, k: nat)
    requires Encodes(a, from, to, edges, root) && Encodes(b, from, to, others, root)
    requires SameHistory(edges, others, root, from, to)
    requires k <= |a| && k <= |b|
    ensures a[..k] == b[..k]
  {
    if k > 0 {
      SameSoFar(a, b, from, to, edges, others, root, k - 1);
      var i := k - 1;
      if i > 0 {
        assert a[i - 1] == a[..i][i - 1] == b[..i][i - 1] == b[i - 1];
      }
      StartsWithin(a, from, to, i);
      SamePicture(a[i], b[i], from, to, edges, others, root);
      EndsWithin(a, from, to, i);
      EndsWithin(b, from, to, i);
      NotBefore(a, b, from, to, edges, others, root, i);
      NotBefore(b, a, from, to, others, edges, root, i);
      assert a[..k] == a[..i] + [a[i]] && b[..k] == b[..i] + [b[i]];
    }
  }

  lemma ShownAt(s: seq<Interval>, edges: seq<Edge>, root: string, k: nat, t: int)
    requires Faithful(s, edges, root) && k < |s|
    ensures s[k].from <= t < s[k].to ==> s[k].picture == PictureAt(edges, root, t)
  {
    assert s[k].from <= t < s[k].to ==> Shows(s[k].picture, edges, root, t);
  }

  /** One list cannot change its picture while the other does not. */
  lemma NotBefore(a: seq<Interval>, b: seq<Interval>, from: int, to: int, edges: seq<Edge>, others: seq<Edge>, root: string, i: nat)
    requires Encodes(a, from, to, edges, root) && Encodes(b, from, to, others, root)
    requires SameHistory(edges, others, root, from, to)
    requires i < |a| && i < |b| && a[i].from == b[i].from && a[i].picture == b[i].picture
    ensures a[i].to >= b[i].to
  {
    EndsWithin(a, from, to, i);
    EndsWithin(b, from, to, i);
    StartsWithin(a, from, to, i);
    ShownAt(b, others, root, i, a[i].to);
    if i + 1 < |a| {
      ShownAt(a, edges, root, i + 1, a[i].to);
      assert Shows(PictureAt(edges, root, a[i].to), others, root, a[i].to);
    }
  }

  lemma {:induction false} StartsWithin(s: seq<Interval>, from: int, to: int, k: nat)
    requires Tiles(s, from, to) && k < |s|
    ensures from <= s[k].from < to
  {
    EndsWithin(s, from, to, k);
    if k > 0 {
      StartsWithin(s, from, to, k - 1);
    }
  }

  lemma SamePicture(a: Interval, b: Interval, from: int, to: int, edges: seq<Edge>, others: seq<Edge>, root: string)
    requires a.from == b.from && a.from < a.to && b.from < b.to && from <= a.from < to
    requires Faithful([a], edges, root) && Faithful([b], others, root)
    requires SameHistory(edges, others, root, from, to)
    ensures a.picture == b.picture
  {
    assert [a][0] == a && [b][0] == b;
    assert Shows([a][0].picture, edges, root, a.from) && Shows([b][0].picture, others, root, a.from);
    assert Shows(PictureAt(edges, root, a.from), others, root, a.from);
  }

  /** Two encodings of one history are the same list. */
  lemma EncodingIsUnique(a: seq<Interval>, b: seq<Interval>, from: int, to: int, edges: seq<Edge>, others: seq<Edge>, root: string)
    requires Encodes(a, from, to, edges, root) && Encodes(b, from, to, others, root)
    requires SameHistory(edges, others, root, from, to)
    ensures a == b
  {
    if |a| <= |b| {
      SameSoFar(a, b, from, to, edges, others, root, |a|);
      SameLength(a, b, from, to);
    } else {
      SameSoFar(a, b, from, to, edges, others, root, |b|);
      SameLength(b, a, from, to);
    }
  }

  lemma SameLength(a: seq<Interval>, b: seq<Interval>, from: int, to: int)
    requires Tiles(a, from, to) && Tiles(b, from, to) && |a| <= |b| && a[..|a|] == b[..|a|]
    ensures a == b
  {
    var n := |a| - 1;
    assert a[n] == a[..|a|][n] == b[..|a|][n] == b[n];
    EndsWithin(b, from, to, n);
    assert a == a[..|a|] && b == b[..|b|];
  }

  lemma ExtendingEncodes(before: seq<Interval>, next: Interval, from: int, edges: seq<Edge>, root: string)
    requires Encodes(before, from, next.from, edges, root) && before[|before| - 1].picture == next.picture
    requires next.from < next.to && Faithful([next], edges, root)
    ensures var n := |before| - 1; Encodes(before[n := before[n].(to := next.to)], from, next.to, edges, root)
  {
    var n := |before| - 1;
    var s := before[n := before[n].(to := next.to)];
    assert [next][0] == next;
    forall k, t | 0 <= k < |s| && s[k].from <= t < s[k].to
      ensures Shows(s[k].picture, edges, root, t)
    {
      assert t < before[k].to ==> Shows(before[k].picture, edges, root, t);
      assert next.from <= t < next.to ==> Shows([next][0].picture, edges, root, t);
    }
  }

  lemma AppendingEncodes(before: seq<Interval>, next: Interval, from: int, edges: seq<Edge>, root: string)
    requires if before == [] then next.from == from else Encodes(before, from, next.from, edges, root)
    requires before != [] ==> before[|before| - 1].picture != next.picture
    requires next.from < next.to && Faithful([next], edges, root)
    ensures Encodes(before + [next], from, next.to, edges, root)
  {
    var s := before + [next];
    assert [next][0] == next;
    forall k, t | 0 <= k < |s| && s[k].from <= t < s[k].to
      ensures Shows(s[k].picture, edges, root, t)
    {
      if k < |before| {
        assert Shows(before[k].picture, edges, root, t);
      } else {
        assert Shows([next][0].picture, edges, root, t);
      }
    }
  }

  /** Extends the last interval, or starts the next one. */
  method Append(before: seq<Interval>, next: Interval, ghost from: int, ghost edges: seq<Edge>, ghost root: string)
    returns (s: seq<Interval>)
    requires if before == [] then next.from == from else Encodes(before, from, next.from, edges, root)
    requires next.from < next.to && Faithful([next], edges, root)
    ensures Encodes(s, from, next.to, edges, root)
  {
    var n := |before|;
    if n > 0 && before[n - 1].to == next.from && before[n - 1].picture == next.picture {
      ExtendingEncodes(before, next, from, edges, root);
      s := before[n - 1 := before[n - 1].(to := next.to)];
    } else {
      AppendingEncodes(before, next, from, edges, root);
      s := before + [next];
    }
  }

  lemma SliceIsFaithful(b: seq<int>, from: int, to: int, edges: seq<Edge>, root: string, i: nat, p: Picture)
    requires Divides(b, from, to, edges) && i + 1 < |b| && p == PictureAt(edges, root, b[i])
    ensures Faithful([Interval(b[i], b[i + 1], p)], edges, root)
  {
    forall t | b[i] <= t < b[i + 1]
      ensures Shows(p, edges, root, t)
    {
      ActiveBetween(b, from, to, edges, i, t);
    }
  }

  /** The loop over the slices, whatever edges it is given. */
  method PaintIntervals(root: string, from: int, to: int, edges: seq<Edge>) returns (intervals: seq<Interval>)
    requires from < to
    ensures Encodes(intervals, from, to, edges, root)
  {
    var b := Boundaries(from, to, edges);
    intervals := [];
    for i := 0 to |b| - 1
      invariant if i == 0 then intervals == [] else Encodes(intervals, from, b[i], edges, root)
    {
      var picture := Paint(root, edges, b[i]);
      SliceIsFaithful(b, from, to, edges, root, i, picture);
      intervals := Append(intervals, Interval(b[i], b[i + 1], picture), from, edges, root);
    }
  }

  lemma RelevantIsEnough(s: seq<Interval>, from: int, to: int, edges: seq<Edge>, relevant: seq<Edge>, nodes: set<string>, root: string)
    requires Encodes(s, from, to, relevant, root) && Covers(edges, relevant, nodes) && root in nodes
    ensures Encodes(s, from, to, edges, root)
  {
    forall k, t | 0 <= k < |s| && s[k].from <= t < s[k].to
      ensures Shows(s[k].picture, edges, root, t)
    {
      ShownAt(s, relevant, root, k, t);
      PictureNeedsOnlyTheRelevant(edges, relevant, nodes, root, t);
    }
  }

  /** Painted with or without the pre-filter, the intervals are the same. */
  lemma PrefilterPreservesMeaning(a: seq<Interval>, b: seq<Interval>, from: int, to: int, edges: seq<Edge>, relevant: seq<Edge>,
                                  nodes: set<string>, root: string)
    requires Encodes(a, from, to, edges, root) && Encodes(b, from, to, relevant, root)
    requires Covers(edges, relevant, nodes) && root in nodes
    ensures a == b
  {
    RelevantIsEnough(b, from, to, edges, relevant, nodes, root);
    EncodingIsUnique(a, b, from, to, edges, edges, root);
  }

  /** From the edges the client can reach, what all of them say. */
  method BuildIntervals(root: string, from: int, to: int, edges: seq<Edge>) returns (intervals: seq<Interval>)
    requires from < to
    ensures Encodes(intervals, from, to, edges, root)
  {
    var relevant;
    ghost var nodes;
    relevant, nodes := RelevantEdges(root, edges);
    intervals := PaintIntervals(root, from, to, relevant);
    RelevantIsEnough(intervals, from, to, edges, relevant, nodes, root);
  }

  lemma RenderedMembers(active: seq<Edge>, root: string, trails: seq<Trail>)
    ensures forall p :: p in trails ==> Render(active, root, p) in RenderAll(active, root, trails)
    ensures forall x :: x in RenderAll(active, root, trails) ==> Drawn(active, root, trails, x)
  {
    var all := RenderAll(active, root, trails);
    forall p | p in trails
      ensures Render(active, root, p) in all
    {
      var i :| 0 <= i < |trails| && trails[i] == p;
      assert all[i] == Render(active, root, p);
    }
    forall x | x in all
      ensures Drawn(active, root, trails, x)
    {
      var i :| 0 <= i < |all| && all[i] == x;
      assert trails[i] in trails;
    }
  }

  predicate Drawn(active: seq<Edge>, root: string, trails: seq<Trail>, x: Path) {
    exists p :: p in trails && x == Render(active, root, p)
  }

  ghost predicate ShowsThePaths(s: Picture, active: seq<Edge>, root: string) {
    && (Truncated !in s.gaps ==> forall p :: IsPath(active, root, p) ==> Render(active, root, p) in s.paths)
    && (forall x :: x in s.paths ==> exists p :: IsPath(active, root, p) && x == Render(active, root, p))
    && |s.paths| <= MAX_PATHS
  }

  /** The paths drawn are real and, unless the picture admits otherwise, all there are. */
  lemma PathsDrawnAreThePaths(active: seq<Edge>, root: string)
    requires Distinct(active)
    ensures ShowsThePaths(PictureOf(active, root), active, root)
  {
    PathsAreExact(active, root);
    RenderedMembers(active, root, Explore(active, root).trails);
  }

  /** What an interval says holds at every instant in it. */
  lemma IntervalsTellTheTruth(s: seq<Interval>, from: int, to: int, edges: seq<Edge>, root: string, k: nat, t: int)
    requires Encodes(s, from, to, edges, root) && k < |s| && s[k].from <= t < s[k].to
    ensures var active := ActiveAt(edges, t);
            && (s[k].picture.complete <==> exists p :: Unambiguous(active, root, p) && |p| < MAX_WORK)
            && (forall p :: Unambiguous(active, root, p) && |p| < MAX_WORK ==> s[k].picture.paths == [Render(active, root, p)])
  {
    assert Shows(s[k].picture, edges, root, t);
    CompleteMeansOneWay(ActiveAt(edges, t), root);
  }

  /** And the paths an interval shows are those of any instant in it. */
  lemma IntervalPathsAreThePaths(s: seq<Interval>, from: int, to: int, edges: seq<Edge>, root: string, k: nat, t: int)
    requires Encodes(s, from, to, edges, root) && Distinct(edges) && k < |s| && s[k].from <= t < s[k].to
    ensures ShowsThePaths(s[k].picture, ActiveAt(edges, t), root)
  {
    assert Shows(s[k].picture, edges, root, t);
    ActiveStaysDistinct(edges, t);
    PathsDrawnAreThePaths(ActiveAt(edges, t), root);
  }
}
