/**
 A client's path over time: the picture at one instant, the walk that paints it, and the
 intervals buildClientPathIntervals cuts [from, to) into.
 */
module PathIntervals {
  import opened Options
  import opened Topology
  import opened PathWalk

  datatype Path = Path(nodes: seq<string>, mediums: seq<string>, confidence: Confidence)

  datatype Picture = Picture(complete: bool, paths: seq<Path>, gaps: set<Gap>)

  datatype Interval = Interval(from: int, to: int, picture: Picture)

  // ---- rendering ------------------------------------------------------------

  function Weaker(current: Confidence, next: Confidence): Confidence {
    if current == Unknown then next
    else if current == Ambiguous || next == Ambiguous then Ambiguous
    else if current == Inferred || next == Inferred then Inferred
    else Measured
  }

  function StepConfidence(many: bool, before: Confidence, e: Edge): Confidence {
    var c := Weaker(if many then Weaker(before, Ambiguous) else before, e.confidence);
    if e.ambiguities != [] then Ambiguous else c
  }

  function ConfidenceOf(active: seq<Edge>, root: string, t: Trail): Confidence {
    if t == [] then Unknown else
    var n := |t| - 1;
    StepConfidence(|Parents(active, NodeAt(root, t, n))| > 1, ConfidenceOf(active, root, t[..n]), t[n])
  }

  function NodesOf(root: string, t: Trail): seq<string> {
    seq(|t| + 1, k requires 0 <= k <= |t| => NodeAt(root, t, k))
  }

  function MediumsOf(t: Trail): seq<string> {
    seq(|t|, k requires 0 <= k < |t| => t[k].medium)
  }

  function Render(active: seq<Edge>, root: string, t: Trail): Path {
    Path(NodesOf(root, t), MediumsOf(t), ConfidenceOf(active, root, t))
  }

  function RenderAll(active: seq<Edge>, root: string, trails: seq<Trail>): seq<Path> {
    seq(|trails|, k requires 0 <= k < |trails| => Render(active, root, trails[k]))
  }

  predicate Doubtful(active: seq<Edge>, root: string, t: Trail, k: nat)
    requires k < |t|
  {
    |Parents(active, NodeAt(root, t, k))| > 1 || t[k].ambiguities != [] || t[k].confidence == Ambiguous
  }

  predicate AnyDoubt(active: seq<Edge>, root: string, t: Trail) {
    exists k :: 0 <= k < |t| && Doubtful(active, root, t, k)
  }

  predicate AnyInferred(t: Trail) {
    exists k :: 0 <= k < |t| && t[k].confidence == Inferred
  }

  lemma DoubtOneMore(active: seq<Edge>, root: string, t: Trail)
    requires t != []
    ensures var n := |t| - 1;
            && (AnyDoubt(active, root, t) <==> AnyDoubt(active, root, t[..n]) || Doubtful(active, root, t, n))
            && (AnyInferred(t) <==> AnyInferred(t[..n]) || t[n].confidence == Inferred)
  {
    var n := |t| - 1;
    forall k | 0 <= k < n
      ensures Doubtful(active, root, t[..n], k) == Doubtful(active, root, t, k)
    {
      assert NodeAt(root, t[..n], k) == NodeAt(root, t, k);
    }
    assert forall k :: 0 <= k < n ==> t[..n][k] == t[k];
  }

  /** A path is only as good as its weakest step. */
  lemma {:induction false} ConfidenceIsTheWeakest(active: seq<Edge>, root: string, t: Trail)
    ensures ConfidenceOf(active, root, t) == Ambiguous <==> AnyDoubt(active, root, t)
    ensures ConfidenceOf(active, root, t) == Inferred <==> !AnyDoubt(active, root, t) && AnyInferred(t)
  {
    if t != [] {
      ConfidenceIsTheWeakest(active, root, t[..|t| - 1]);
      DoubtOneMore(active, root, t);
    }
  }

  function PictureOf(active: seq<Edge>, root: string): Picture {
    var f := Explore(active, root);
    Picture(Complete(root, f), RenderAll(active, root, f.trails), f.gaps)
  }

  function PictureAt(edges: seq<Edge>, root: string, t: int): Picture {
    PictureOf(ActiveAt(edges, t), root)
  }

  // ---- the pre-filter ------------------------------------------------------------

  /** `relevant` holds everything there is about a set of nodes nothing leads out of. */
  ghost predicate Covers(edges: seq<Edge>, relevant: seq<Edge>, nodes: set<string>) {
    && Closed(edges, nodes)
    && forall n :: n in nodes ==> From(relevant, n) == From(edges, n)
  }

  lemma {:induction false} TrailStaysInside(active: seq<Edge>, nodes: set<string>, root: string, t: Trail, k: nat)
    requires Closed(active, nodes) && root in nodes && Heading(active, root, t) && k <= |t|
    ensures NodeAt(root, t, k) in nodes
  {
    if k > 0 {
      TrailStaysInside(active, nodes, root, t, k - 1);
      assert Step(active, root, t, k - 1);
      ParentsAre(active, NodeAt(root, t, k - 1));
    }
  }

  lemma {:induction false} SameConfidence(these: seq<Edge>, those: seq<Edge>, nodes: set<string>, root: string, t: Trail)
    requires Agree(these, those, nodes) && forall k :: 0 <= k <= |t| ==> NodeAt(root, t, k) in nodes
    ensures ConfidenceOf(these, root, t) == ConfidenceOf(those, root, t)
  {
    if t != [] {
      var n := |t| - 1;
      assert forall k :: 0 <= k <= n ==> NodeAt(root, t[..n], k) == NodeAt(root, t, k);
      SameConfidence(these, those, nodes, root, t[..n]);
    }
  }

  /** Dropping what the root cannot reach leaves the picture as it was, at every time. */
  lemma PictureNeedsOnlyTheRelevant(edges: seq<Edge>, relevant: seq<Edge>, nodes: set<string>, root: string, t: int)
    requires Covers(edges, relevant, nodes) && root in nodes
    ensures PictureAt(relevant, root, t) == PictureAt(edges, root, t)
  {
    var these, those := ActiveAt(edges, t), ActiveAt(relevant, t);
    ActiveKeeps(edges, t);
    forall n | n in nodes
      ensures Parents(these, n) == Parents(those, n)
    {
      FromActive(edges, n, t);
      FromActive(relevant, n, t);
    }
    WalkSeesOnlyTheReachable(these, those, nodes, root, [], FULL);
    WalkIsSound(these, root, [], FULL);
    var f := Explore(these, root);
    forall k | 0 <= k < |f.trails|
      ensures Render(these, root, f.trails[k]) == Render(those, root, f.trails[k])
    {
      var p := f.trails[k];
      assert IsPath(these, root, p);
      forall i | 0 <= i <= |p|
        ensures NodeAt(root, p, i) in nodes
      {
        TrailStaysInside(these, nodes, root, p, i);
      }
      SameConfidence(these, those, nodes, root, p);
    }
    assert RenderAll(these, root, f.trails) == RenderAll(those, root, f.trails);
  }

  function Get(m: map<string, seq<Edge>>, n: string): seq<Edge> {
    if n in m then m[n] else []
  }

  method ByChild(edges: seq<Edge>) returns (byChild: map<string, seq<Edge>>)
    ensures forall n :: Get(byChild, n) == From(edges, n)
  {
    byChild := map[];
    for i := 0 to |edges|
      invariant forall n :: Get(byChild, n) == From(edges[..i], n)
    {
      var e := edges[i];
      assert edges[..i + 1] == edges[..i] + [e];
      forall n
        ensures From(edges[..i + 1], n) == From(edges[..i], n) + From([e], n)
      {
        FromAppend(edges[..i], [e], n);
      }
      ghost var before := byChild;
      byChild := byChild[e.child := Get(byChild, e.child) + [e]];
      forall n
        ensures Get(byChild, n) == From(edges[..i + 1], n)
      {
        assert Get(byChild, n) == Get(before, n) + From([e], n);
      }
    }
    assert edges[..|edges|] == edges;
  }

  function Members(edges: seq<Edge>, root: string): set<string> {
    {root} + set k | 0 <= k < |edges| :: edges[k].parent
  }

  /** From the root, edge by edge towards the internet, to this node. */
  predicate Leads(edges: seq<Edge>, root: string, way: Trail, n: string) {
    if way == [] then n == root
    else
      var e := way[|way| - 1];
      e in edges && e.parent == n && Leads(edges, root, way[..|way| - 1], e.child)
  }

  ghost predicate Reaches(edges: seq<Edge>, root: string, n: string) {
    exists way :: Leads(edges, root, way, n)
  }

  ghost predicate AllReached(edges: seq<Edge>, root: string, nodes: set<string>) {
    forall n :: n in nodes ==> Reaches(edges, root, n)
  }

  lemma OneFurther(edges: seq<Edge>, root: string, e: Edge)
    requires e in edges && Reaches(edges, root, e.child)
    ensures Reaches(edges, root, e.parent)
  {
    var way :| Leads(edges, root, way, e.child);
    assert (way + [e])[..|way|] == way;
    assert Leads(edges, root, way + [e], e.parent);
  }

  /** Nodes closed under going on hold all that can be reached. */
  lemma {:induction false} ReachStaysInside(edges: seq<Edge>, root: string, nodes: set<string>, way: Trail, n: string)
    requires root in nodes && Closed(edges, nodes) && Leads(edges, root, way, n)
    ensures n in nodes
    decreases |way|
  {
    if way != [] {
      ReachStaysInside(edges, root, nodes, way[..|way| - 1], way[|way| - 1].child);
    }
  }

  /** What the queue of the search stands for: the rest of what is seen has been copied. */
  ghost predicate Searched(edges: seq<Edge>, out: seq<Edge>, seen: set<string>, queue: seq<string>, root: string) {
    && root in seen && seen <= Members(edges, root) && Waiting(seen, queue) && AllReached(edges, root, seen)
    && Copied(edges, out, seen, queue) && Spread(edges, seen, queue)
  }

  ghost predicate Waiting(seen: set<string>, queue: seq<string>) {
    && (forall i, j :: 0 <= i < j < |queue| ==> queue[i] != queue[j])
    && (forall n :: n in queue ==> n in seen)
  }

  ghost predicate Copied(edges: seq<Edge>, out: seq<Edge>, seen: set<string>, queue: seq<string>) {
    forall n :: From(out, n) == if n in seen && n !in queue then From(edges, n) else []
  }

  ghost predicate Spread(edges: seq<Edge>, seen: set<string>, queue: seq<string>) {
    forall e :: e in edges && e.child in seen && e.child !in queue ==> e.parent in seen
  }

  lemma SearchEnds(edges: seq<Edge>, out: seq<Edge>, seen: set<string>, root: string)
    requires Searched(edges, out, seen, [], root)
    ensures Covers(edges, out, seen) && forall n :: n !in seen ==> From(out, n) == []
    ensures forall n :: n in seen <==> Reaches(edges, root, n)
  {
    forall n | Reaches(edges, root, n)
      ensures n in seen
    {
      var way :| Leads(edges, root, way, n);
      ReachStaysInside(edges, root, seen, way, n);
    }
  }

  method RelevantEdges(root: string, edges: seq<Edge>) returns (out: seq<Edge>, ghost nodes: set<string>)
    ensures Covers(edges, out, nodes) && root in nodes
    ensures forall n :: n in nodes <==> Reaches(edges, root, n)
    ensures forall n :: Reaches(edges, root, n) ==> From(out, n) == From(edges, n)
    ensures forall n :: !Reaches(edges, root, n) ==> From(out, n) == []
  {
    var byChild := ByChild(edges);
    var seen, queue := {root}, [root];
    out := [];
    assert Leads(edges, root, [], root);
    while queue != []
      invariant Searched(edges, out, seen, queue, root)
      decreases Unseen(edges, root, seen), |queue|
    {
      out, seen, queue := Visit(edges, Get(byChild, queue[0]), out, seen, queue, root);
    }
    nodes := seen;
    SearchEnds(edges, out, seen, root);
  }

  ghost function Unseen(edges: seq<Edge>, root: string, seen: set<string>): nat {
    |Members(edges, root) - seen|
  }

  lemma SeesMore(all: set<string>, was: set<string>, now: set<string>)
    requires was <= now <= all
    ensures was != now ==> |all - now| < |all - was|
  {
    if was != now {
      assert all - now <= all - was;
      assert all - now != all - was;
      SmallerSet(all - now, all - was);
    }
  }

  lemma SmallerSet<T>(a: set<T>, b: set<T>)
    requires a < b
    ensures |a| < |b|
  {
    var c := b - a;
    assert b == a + c && |b| == |a| + |c|;
    var x :| x in b && x !in a;
    assert x in c;
  }

  /** Parents not seen before join the queue, once each. */
  ghost predicate Queued(mine: seq<Edge>, known: set<string>, waiting: seq<string>, seen: set<string>, queue: seq<string>) {
    && (forall k :: 0 <= k < |mine| ==> mine[k].parent in seen)
    && (forall n :: n in seen ==> n in known || exists k :: 0 <= k < |mine| && mine[k].parent == n)
    && (forall i, j :: 0 <= i < j < |queue| ==> queue[i] != queue[j])
    && (forall n :: n in queue <==> n in waiting || n in seen - known)
    && (forall n :: n in queue ==> n in seen)
    && known <= seen && (seen == known ==> queue == waiting)
  }

  /** Copies one node's edges and queues the parents not seen before. */
  method Visit(edges: seq<Edge>, mine: seq<Edge>, before: seq<Edge>, known: set<string>, line: seq<string>, root: string)
    returns (out: seq<Edge>, seen: set<string>, queue: seq<string>)
    requires line != [] && mine == From(edges, line[0])
    requires Searched(edges, before, known, line, root)
    ensures Searched(edges, out, seen, queue, root)
    ensures Unseen(edges, root, seen) < Unseen(edges, root, known)
            || (Unseen(edges, root, seen) == Unseen(edges, root, known) && queue == line[1..])
  {
    out := before + mine;
    seen, queue := QueueParents(mine, known, line);
    VisitKeeps(edges, before, known, line, root, seen, queue);
    SeesMore(Members(edges, root), known, seen);
  }

  method QueueParents(mine: seq<Edge>, known: set<string>, line: seq<string>) returns (seen: set<string>, queue: seq<string>)
    requires line != [] && Waiting(known, line)
    ensures Queued(mine, known, line[1..], seen, queue)
  {
    var waiting := line[1..];
    seen, queue := known, waiting;
    assert forall k :: 0 <= k < |waiting| ==> waiting[k] == line[k + 1];
    assert mine[..0] == [];
    for i := 0 to |mine|
      invariant Queued(mine[..i], known, waiting, seen, queue)
    {
      seen, queue := QueueParent(mine[..i], mine[i], known, waiting, seen, queue);
      assert mine[..i + 1] == mine[..i] + [mine[i]];
    }
    assert mine[..|mine|] == mine;
  }

  method QueueParent(done: seq<Edge>, e: Edge, known: set<string>, waiting: seq<string>, was: set<string>, before: seq<string>)
    returns (seen: set<string>, queue: seq<string>)
    requires Queued(done, known, waiting, was, before)
    ensures Queued(done + [e], known, waiting, seen, queue)
  {
    seen, queue := was, before;
    if e.parent !in seen {
      seen := seen + {e.parent};
      queue := queue + [e.parent];
    }
    assert (done + [e])[|done|] == e;
    assert forall k :: 0 <= k < |done| ==> (done + [e])[k] == done[k];
  }

  lemma VisitKeeps(edges: seq<Edge>, before: seq<Edge>, known: set<string>, line: seq<string>, root: string,
                   seen: set<string>, queue: seq<string>)
    requires line != [] && Searched(edges, before, known, line, root)
    requires Queued(From(edges, line[0]), known, line[1..], seen, queue)
    ensures Searched(edges, before + From(edges, line[0]), seen, queue, root)
  {
    FromKeeps(edges, line[0]);
    VisitStaysWithin(edges, known, line, root, seen, queue);
    VisitReaches(edges, known, line, root, seen, queue);
    VisitCopies(edges, before, known, line, seen, queue);
    VisitSpreads(edges, known, line, seen, queue);
  }

  lemma VisitReaches(edges: seq<Edge>, known: set<string>, line: seq<string>, root: string, seen: set<string>, queue: seq<string>)
    requires line != [] && line[0] in known && AllReached(edges, root, known)
    requires Queued(From(edges, line[0]), known, line[1..], seen, queue)
    ensures AllReached(edges, root, seen)
  {
    var mine := From(edges, line[0]);
    FromKeeps(edges, line[0]);
    forall n | n in seen
      ensures Reaches(edges, root, n)
    {
      if n !in known {
        var k :| 0 <= k < |mine| && mine[k].parent == n;
        assert mine[k] in mine;
        OneFurther(edges, root, mine[k]);
      }
    }
  }

  lemma VisitStaysWithin(edges: seq<Edge>, known: set<string>, line: seq<string>, root: string, seen: set<string>, queue: seq<string>)
    requires line != [] && known <= Members(edges, root) && Queued(From(edges, line[0]), known, line[1..], seen, queue)
    ensures seen <= Members(edges, root)
  {
    var mine := From(edges, line[0]);
    FromKeeps(edges, line[0]);
    forall n | n in seen
      ensures n in Members(edges, root)
    {
      if n !in known {
        var k :| 0 <= k < |mine| && mine[k].parent == n;
        assert mine[k] in edges;
      }
    }
  }

  lemma HeadLeavesTheLine(known: set<string>, line: seq<string>)
    requires line != [] && Waiting(known, line)
    ensures line[0] in known && line[0] !in line[1..]
    ensures forall n :: n in line <==> n == line[0] || n in line[1..]
  {}

  lemma VisitCopies(edges: seq<Edge>, before: seq<Edge>, known: set<string>, line: seq<string>, seen: set<string>, queue: seq<string>)
    requires line != [] && Waiting(known, line) && Copied(edges, before, known, line)
    requires Queued(From(edges, line[0]), known, line[1..], seen, queue)
    ensures Copied(edges, before + From(edges, line[0]), seen, queue)
  {
    var node, mine := line[0], From(edges, line[0]);
    HeadLeavesTheLine(known, line);
    forall n
      ensures From(before + mine, n) == if n in seen && n !in queue then From(edges, n) else []
    {
      FromAppend(before, mine, n);
      FromTwice(edges, node, n);
      assert From(before, n) == if n in known && n !in line then From(edges, n) else [];
    }
  }

  lemma VisitSpreads(edges: seq<Edge>, known: set<string>, line: seq<string>, seen: set<string>, queue: seq<string>)
    requires line != [] && Waiting(known, line) && Spread(edges, known, line)
    requires Queued(From(edges, line[0]), known, line[1..], seen, queue)
    ensures Spread(edges, seen, queue)
  {
    var mine := From(edges, line[0]);
    FromKeeps(edges, line[0]);
    HeadLeavesTheLine(known, line);
    forall e | e in edges && e.child in seen && e.child !in queue
      ensures e.parent in seen
    {
      if e.child == line[0] {
        assert e in mine;
      }
    }
  }

  lemma {:induction false} FromTwice(edges: seq<Edge>, child: string, n: string)
    ensures From(From(edges, child), n) == if n == child then From(edges, child) else []
  {
    if edges != [] {
      FromTwice(edges[1..], child, n);
      var head := if edges[0].child == child then [edges[0]] else [];
      FromAppend(head, From(edges[1..], child), n);
    }
  }

  // ---- boundaries ---------------------------------------------------------------------

  function Place(sorted: seq<int>, x: int): seq<int> {
    if sorted == [] || x < sorted[0] then [x] + sorted else [sorted[0]] + Place(sorted[1..], x)
  }

  function SortInts(s: seq<int>): seq<int> {
    if s == [] then [] else Place(SortInts(s[1..]), s[0])
  }

  predicate Rising(s: seq<int>) {
    forall k :: 0 < k < |s| ==> s[k - 1] <= s[k]
  }

  predicate StrictlyRising(s: seq<int>) {
    forall i, j :: 0 <= i < j < |s| ==> s[i] < s[j]
  }

  lemma {:induction false} PlaceIsRising(sorted: seq<int>, x: int)
    requires Rising(sorted)
    ensures Rising(Place(sorted, x)) && forall y :: y in Place(sorted, x) <==> y == x || y in sorted
    ensures Place(sorted, x) != [] && (Place(sorted, x)[0] == x || (sorted != [] && Place(sorted, x)[0] == sorted[0]))
  {
    if sorted != [] && x >= sorted[0] {
      var rest := Place(sorted[1..], x);
      assert forall k :: 0 < k < |sorted| ==> sorted[1..][k - 1] == sorted[k];
      PlaceIsRising(sorted[1..], x);
      assert sorted == [sorted[0]] + sorted[1..];
      forall k | 0 < k < |rest| + 1
        ensures ([sorted[0]] + rest)[k - 1] <= ([sorted[0]] + rest)[k]
      {
        if k > 1 {
          assert rest[k - 2] <= rest[k - 1];
        }
      }
    }
  }

  lemma {:induction false} SortIsRising(s: seq<int>)
    ensures Rising(SortInts(s)) && forall y :: y in SortInts(s) <==> y in s
  {
    if s != [] {
      SortIsRising(s[1..]);
      PlaceIsRising(SortInts(s[1..]), s[0]);
      assert s == [s[0]] + s[1..];
    }
  }

  function Unique(s: seq<int>): seq<int> {
    if s == [] then [] else
    var n := |s| - 1;
    var u := Unique(s[..n]);
    if u != [] && u[|u| - 1] == s[n] then u else u + [s[n]]
  }

  lemma {:induction false} UniqueIsStrict(s: seq<int>)
    requires Rising(s)
    ensures StrictlyRising(Unique(s)) && forall y :: y in Unique(s) <==> y in s
    ensures s != [] ==> Unique(s) != [] && Unique(s)[|Unique(s)| - 1] == s[|s| - 1]
  {
    if s != [] {
      var n := |s| - 1;
      UniqueIsStrict(s[..n]);
      assert s == s[..n] + [s[n]];
      if n > 0 {
        assert s[..n][n - 1] == s[n - 1] <= s[n];
      }
      StrictOneMore(Unique(s[..n]), s[n]);
    }
  }

  lemma StrictOneMore(u: seq<int>, x: int)
    requires StrictlyRising(u) && (u != [] ==> u[|u| - 1] <= x)
    ensures StrictlyRising(if u != [] && u[|u| - 1] == x then u else u + [x])
  {}

  method UniqueInPlace(values: array<int>) returns (n: nat)
    modifies values
    ensures n <= values.Length && values[..n] == Unique(old(values[..]))
  {
    n := 0;
    ghost var was := values[..];
    for i := 0 to values.Length
      invariant n <= i && values[..n] == Unique(was[..i]) && values[i..] == was[i..]
    {
      var value := values[i];
      assert value == values[i..][0] == was[i..][0];
      assert was[..i + 1][..i] == was[..i];
      assert values[i + 1..] == values[i..][1..] == was[i + 1..];
      if n == 0 || values[n - 1] != value {
        values[n] := value;
        n := n + 1;
        assert values[..n] == Unique(was[..i]) + [value];
        assert values[i + 1..] == was[i + 1..];
      }
    }
    assert was[..values.Length] == was;
  }

  /** Strictly between the ends, every start and end of an edge is a boundary. */
  ghost predicate Divides(b: seq<int>, from: int, to: int, edges: seq<Edge>) {
    && StrictlyRising(b) && |b| >= 2 && b[0] == from && b[|b| - 1] == to
    && forall e :: e in edges ==>
                     (from < e.validFrom < to ==> e.validFrom in b)
                     && (e.validTo.Some? && from < e.validTo.value < to ==> e.validTo.value in b)
  }

  /** The ends of every validity that fall strictly inside. */
  ghost predicate Noted(all: seq<int>, from: int, to: int, edges: seq<Edge>, n: nat)
    requires n <= |edges|
  {
    && (forall y :: y in all ==> from <= y <= to) && from in all && to in all
    && forall k :: 0 <= k < n ==>
                     (from < edges[k].validFrom < to ==> edges[k].validFrom in all)
                     && (edges[k].validTo.Some? && from < edges[k].validTo.value < to ==> edges[k].validTo.value in all)
  }

  method NoteEnds(from: int, to: int, edges: seq<Edge>) returns (all: seq<int>)
    requires from < to
    ensures Noted(all, from, to, edges, |edges|)
  {
    all := [from, to];
    for i := 0 to |edges|
      invariant Noted(all, from, to, edges, i)
    {
      if edges[i].validFrom > from && edges[i].validFrom < to {
        all := all + [edges[i].validFrom];
      }
      if edges[i].validTo.Some? && edges[i].validTo.value > from && edges[i].validTo.value < to {
        all := all + [edges[i].validTo.value];
      }
    }
  }

  method Boundaries(from: int, to: int, edges: seq<Edge>) returns (b: seq<int>)
    requires from < to
    ensures Divides(b, from, to, edges)
  {
    var all := NoteEnds(from, to, edges);
    var sorted := SortInts(all);
    SortIsRising(all);
    UniqueIsStrict(sorted);
    var values := new int[|sorted|](k requires 0 <= k < |sorted| => sorted[k]);
    assert values[..] == sorted;
    var n := UniqueInPlace(values);
    b := values[..n];
    EndsAre(b, from, to);
  }

  lemma EndsAre(b: seq<int>, from: int, to: int)
    requires StrictlyRising(b) && from in b && to in b && from < to && forall y :: y in b ==> from <= y <= to
    ensures |b| >= 2 && b[0] == from && b[|b| - 1] == to
  {
    var i :| 0 <= i < |b| && b[i] == from;
    var j :| 0 <= j < |b| && b[j] == to;
    assert b[0] in b && b[|b| - 1] in b;
  }

  /** Between two boundaries nothing begins or ends: the active edges stay as they are. */
  lemma ActiveBetween(b: seq<int>, from: int, to: int, edges: seq<Edge>, i: nat, t: int)
    requires Divides(b, from, to, edges) && i + 1 < |b| && b[i] <= t < b[i + 1]
    ensures ActiveAt(edges, t) == ActiveAt(edges, b[i])
  {}

}
