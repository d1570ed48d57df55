/**
 What the intervals say, in terms of the edges alone: which ways are drawn, with which confidence,
 in which order, and which gaps are admitted.
 */
module PathEffects {
  import opened Options
  import opened Topology
  import opened PathWalk
  import opened PathIntervals
  import opened PathBuild

  // ---- edges -----------------------------------------------------------------------

  /** Begun, and not yet ended. */
  predicate Stands(e: Edge, t: int) {
    e.validFrom <= t && (e.validTo.Some? ==> t < e.validTo.value)
  }

  lemma ActiveExactly(edges: seq<Edge>, t: int)
    ensures forall e :: e in ActiveAt(edges, t) <==> e in edges && Stands(e, t)
  {
    ActiveKeeps(edges, t);
  }

  /** Two edges lead on from the node. */
  predicate Forks(active: seq<Edge>, node: string) {
    exists i, j :: 0 <= i < j < |active| && active[i].child == node && active[j].child == node
  }

  lemma {:induction false} ForksExactly(active: seq<Edge>, node: string)
    ensures |From(active, node)| > 1 <==> Forks(active, node)
    ensures |From(active, node)| > 0 <==> exists i :: 0 <= i < |active| && active[i].child == node
  {
    if active != [] {
      var rest := active[1..];
      ForksExactly(rest, node);
      if Forks(rest, node) {
        var i, j :| 0 <= i < j < |rest| && rest[i].child == node && rest[j].child == node;
        assert active[i + 1].child == node && active[j + 1].child == node;
      }
      if Forks(active, node) {
        var i, j :| 0 <= i < j < |active| && active[i].child == node && active[j].child == node;
        assert rest[j - 1].child == node;
        if i > 0 {
          assert rest[i - 1].child == node;
        }
      }
      if i :| 0 <= i < |rest| && rest[i].child == node {
        assert active[i + 1].child == node;
      }
      if i :| 0 <= i < |active| && active[i].child == node {
        assert i > 0 ==> rest[i - 1].child == node;
      }
    }
  }

  lemma ParentsFork(active: seq<Edge>, node: string)
    ensures |Parents(active, node)| > 1 <==> Forks(active, node)
    ensures Parents(active, node) == [] <==> forall e :: e in active ==> e.child != node
  {
    ForksExactly(active, node);
    SortedIsThePermutation(From(active, node));
    FromKeeps(active, node);
  }

  /** At the first difference the smaller character, or the end of the text. */
  predicate Lexicographic(a: string, b: string) {
    exists k :: 0 <= k < |b| && k <= |a| && a[..k] == b[..k] && (k == |a| || a[k] < b[k])
  }

  lemma {:induction false} TextLessIsLexicographic(a: string, b: string)
    ensures TextLess(a, b) <==> Lexicographic(a, b)
  {
    if a != "" && b != "" && a[0] == b[0] {
      var c, d := a[1..], b[1..];
      TextLessIsLexicographic(c, d);
      if Lexicographic(c, d) {
        var k :| 0 <= k < |d| && k <= |c| && c[..k] == d[..k] && (k == |c| || c[k] < d[k]);
        assert a[..k + 1] == [a[0]] + c[..k] && b[..k + 1] == [b[0]] + d[..k];
        assert a[..k + 1] == b[..k + 1];
      }
      if Lexicographic(a, b) {
        var k :| 0 <= k < |b| && k <= |a| && a[..k] == b[..k] && (k == |a| || a[k] < b[k]);
        assert c[..k - 1] == a[..k][1..] && d[..k - 1] == b[..k][1..];
      }
    } else if b != "" {
      assert a[..0] == b[..0];
      if Lexicographic(a, b) {
        var k :| 0 <= k < |b| && k <= |a| && a[..k] == b[..k] && (k == |a| || a[k] < b[k]);
      }
    }
  }

  // ---- confidence -------------------------------------------------------------------

  /** The first step that is not unknown. */
  predicate FirstKnown(t: Trail, m: nat) {
    m < |t| && t[m].confidence != Unknown && forall k :: 0 <= k < m ==> t[k].confidence == Unknown
  }

  /** Without doubt and inference: unknown all along, or what the first known step says, if it is the last, or measured. */
  lemma {:induction false} ConfidenceInFull(active: seq<Edge>, root: string, t: Trail)
    requires !AnyDoubt(active, root, t) && !AnyInferred(t)
    ensures ConfidenceOf(active, root, t) == Unknown <==> forall k :: 0 <= k < |t| ==> t[k].confidence == Unknown
    ensures forall m: nat :: FirstKnown(t, m) ==> ConfidenceOf(active, root, t) == if m == |t| - 1 then t[m].confidence else Measured
  {
    if t != [] {
      var n := |t| - 1;
      var u := t[..n];
      DoubtOneMore(active, root, t);
      ConfidenceInFull(active, root, u);
      assert !Doubtful(active, root, t, n) && t[n].confidence != Inferred;
      assert ConfidenceOf(active, root, t) == Weaker(ConfidenceOf(active, root, u), t[n].confidence);
      ConfidenceIsTheWeakest(active, root, u);
      assert forall k :: 0 <= k < n ==> u[k] == t[k];
      forall m: nat | FirstKnown(t, m)
        ensures ConfidenceOf(active, root, t) == if m == |t| - 1 then t[m].confidence else Measured
      {
        assert m < n ==> FirstKnown(u, m);
      }
      if ConfidenceOf(active, root, u) != Unknown {
        var k :| 0 <= k < n && u[k].confidence != Unknown;
        assert t[k].confidence != Unknown;
      }
    }
  }

  /** Said of a way without the walk: any doubt makes it ambiguous, any inference inferred. */
  ghost predicate Rated(active: seq<Edge>, root: string, t: Trail, c: Confidence) {
    var doubt := exists k :: 0 <= k < |t| && InDoubt(active, root, t, k);
    var inferred := exists k :: 0 <= k < |t| && t[k].confidence == Inferred;
    var unknown := forall k :: 0 <= k < |t| ==> t[k].confidence == Unknown;
    if doubt then c == Ambiguous
    else if inferred then c == Inferred
    else if unknown then c == Unknown
    else forall m: nat :: FirstKnown(t, m) ==> c == if m == |t| - 1 then t[m].confidence else Measured
  }

  predicate InDoubt(active: seq<Edge>, root: string, t: Trail, k: nat)
    requires k < |t|
  {
    Forks(active, NodeAt(root, t, k)) || t[k].ambiguities != [] || t[k].confidence == Ambiguous
  }

  lemma ConfidenceIsRated(active: seq<Edge>, root: string, t: Trail)
    ensures Rated(active, root, t, ConfidenceOf(active, root, t))
  {
    forall k | 0 <= k < |t|
      ensures InDoubt(active, root, t, k) <==> Doubtful(active, root, t, k)
    {
      ParentsFork(active, NodeAt(root, t, k));
    }
    ConfidenceIsTheWeakest(active, root, t);
    if !AnyDoubt(active, root, t) && !AnyInferred(t) {
      ConfidenceInFull(active, root, t);
    }
  }

  // ---- ways -------------------------------------------------------------------------

  /** Edge by edge from the root, over edges standing at t, through no node twice, to the internet or as far as it goes. */
  ghost predicate Way(edges: seq<Edge>, root: string, p: Trail, t: int) {
    && (forall k :: 0 <= k < |p| ==> p[k] in edges && Stands(p[k], t) && p[k].child == NodeAt(root, p, k) != "synthetic:internet")
    && (forall i, j :: 0 <= i < j <= |p| ==> NodeAt(root, p, i) != NodeAt(root, p, j))
    && (EndOf(root, p) == "synthetic:internet" || forall e :: e in edges && Stands(e, t) ==> e.child != EndOf(root, p))
  }

  lemma WaysAreThePaths(edges: seq<Edge>, root: string, p: Trail, t: int)
    ensures Way(edges, root, p, t) <==> IsPath(ActiveAt(edges, t), root, p)
  {
    var active := ActiveAt(edges, t);
    ActiveExactly(edges, t);
    forall k | 0 <= k < |p|
      ensures Step(active, root, p, k) <==>
              p[k] in edges && Stands(p[k], t) && p[k].child == NodeAt(root, p, k) != "synthetic:internet"
    {
      ParentsAre(active, NodeAt(root, p, k));
    }
    ParentsFork(active, EndOf(root, p));
    NoNodeTwice(root, p);
  }

  lemma NoNodeTwice(root: string, p: Trail)
    ensures (forall i, j :: 0 <= i < j <= |p| ==> NodeAt(root, p, i) != NodeAt(root, p, j)) <==>
            (forall i, j :: 0 <= i < j < |p| ==> NodeAt(root, p, i) != NodeAt(root, p, j)) && !Passed(root, p, EndOf(root, p))
  {}

  /** The nodes and mediums in turn, and the confidence the way deserves. */
  ghost predicate Depicts(x: Path, active: seq<Edge>, root: string, p: Trail) {
    && |x.nodes| == |p| + 1 && x.nodes[0] == root && (forall k :: 0 <= k < |p| ==> x.nodes[k + 1] == p[k].parent)
    && |x.mediums| == |p| && (forall k :: 0 <= k < |p| ==> x.mediums[k] == p[k].medium)
    && Rated(active, root, p, x.confidence)
  }

  lemma RenderDepicts(active: seq<Edge>, root: string, p: Trail)
    ensures Depicts(Render(active, root, p), active, root, p)
  {
    ConfidenceIsRated(active, root, p);
  }

  ghost predicate DepictsAWay(x: Path, edges: seq<Edge>, root: string, t: int) {
    exists p :: Way(edges, root, p, t) && Depicts(x, ActiveAt(edges, t), root, p)
  }

  ghost predicate IsDepicted(paths: seq<Path>, edges: seq<Edge>, root: string, p: Trail, t: int) {
    exists x :: x in paths && Depicts(x, ActiveAt(edges, t), root, p)
  }

  /** Every path of an interval depicts a way, at every instant in it, and every way is depicted unless truncation is admitted. */
  lemma IntervalsDepictTheWays(s: seq<Interval>, from: int, to: int, edges: seq<Edge>, root: string, k: nat, t: int)
    requires Encodes(s, from, to, edges, root) && Topology.Distinct(edges) && k < |s| && s[k].from <= t < s[k].to
    ensures forall x :: x in s[k].picture.paths ==> DepictsAWay(x, edges, root, t)
    ensures Truncated !in s[k].picture.gaps ==>
              forall p :: Way(edges, root, p, t) ==> IsDepicted(s[k].picture.paths, edges, root, p, t)
  {
    var active, paths := ActiveAt(edges, t), s[k].picture.paths;
    IntervalPathsAreThePaths(s, from, to, edges, root, k, t);
    forall x | x in paths
      ensures DepictsAWay(x, edges, root, t)
    {
      var p :| IsPath(active, root, p) && x == Render(active, root, p);
      WaysAreThePaths(edges, root, p, t);
      RenderDepicts(active, root, p);
    }
    forall p | Truncated !in s[k].picture.gaps && Way(edges, root, p, t)
      ensures IsDepicted(paths, edges, root, p, t)
    {
      WaysAreThePaths(edges, root, p, t);
      RenderDepicts(active, root, p);
      assert Render(active, root, p) in paths;
    }
  }

  // ---- gaps -------------------------------------------------------------------------

  /** What is admitted of a stretch that leads so far: a cycle, an end, a fork, or what the last edge notes. */
  predicate Due(active: seq<Edge>, root: string, t: Trail, g: Gap) {
    var node := EndOf(root, t);
    match g
    case Cycle(n) => n == node && n != "synthetic:internet" && Passed(root, t, n)
    case NoParent(n) => n == node && n != "synthetic:internet" && !Passed(root, t, n) && !exists e :: e in active && e.child == n
    case ManyParents(n) => n == node && n != "synthetic:internet" && !Passed(root, t, n) && Forks(active, n)
    case Note(id, text) => t != [] && t[|t| - 1].id == id && text in t[|t| - 1].ambiguities
    case Truncated => false
  }

  lemma NotesAreDue(active: seq<Edge>, root: string, t: Trail, e: Edge)
    ensures forall g: Gap :: g in Notes(e) <==> g.Note? && Due(active, root, t + [e], g)
  {
    assert (t + [e])[|t|] == e;
    forall g: Gap | g.Note? && Due(active, root, t + [e], g)
      ensures g in Notes(e)
    {
      var k :| 0 <= k < |e.ambiguities| && e.ambiguities[k] == g.text;
      assert Note(e.id, e.ambiguities[k]) in Notes(e);
    }
  }

  ghost predicate DueBeyond(active: seq<Edge>, root: string, t: Trail, g: Gap) {
    exists u :: Heading(active, root, u) && Extends(t, u) && Due(active, root, u, g)
  }

  lemma DueFurther(active: seq<Edge>, root: string, t: Trail, e: Edge, g: Gap)
    requires DueBeyond(active, root, t + [e], g)
    ensures DueBeyond(active, root, t, g)
  {
    var u :| Heading(active, root, u) && Extends(t + [e], u) && Due(active, root, u, g);
    assert u[..|t|] == u[..|t| + 1][..|t|] == t;
  }

  /** No gap is admitted without a reason. */
  lemma {:induction false} GapsAreDue(active: seq<Edge>, root: string, t: Trail, b: Budget)
    requires Heading(active, root, t)
    ensures forall g :: g in Walk(active, root, t, b).gaps ==> DueBeyond(active, root, t, g)
    decreases Left(b), 0
  {
    var node := EndOf(root, t);
    var parents := Parents(active, node);
    ParentsFork(active, node);
    if !Spent(b) && node != INTERNET {
      assert Extends(t, t);
      if !Passed(root, t, node) && parents != [] {
        BranchGapsAreDue(active, root, t, parents, b.(work := b.work + 1));
        assert |parents| > 1 ==> Due(active, root, t, ManyParents(node));
      } else if Passed(root, t, node) {
        assert Due(active, root, t, Cycle(node));
      } else {
        assert Due(active, root, t, NoParent(node));
      }
    }
  }

  lemma {:induction false} BranchGapsAreDue(active: seq<Edge>, root: string, t: Trail, parents: seq<Edge>, b: Budget)
    requires Heading(active, root, t) && EndOf(root, t) != INTERNET && !Passed(root, t, EndOf(root, t))
    requires forall e :: e in parents ==> e in Parents(active, EndOf(root, t))
    ensures forall g :: g in Branch(active, root, t, parents, b).gaps ==> DueBeyond(active, root, t, g)
    decreases Left(b), |parents| + 1
  {
    if parents != [] && !Spent(b) {
      var e := parents[0];
      var u := t + [e];
      StepIsHeading(active, root, t, e);
      GapsAreDue(active, root, u, b);
      NotesAreDue(active, root, t, e);
      BranchGapsAreDue(active, root, t, parents[1..], Walk(active, root, u, b).budget);
      forall g | g in Notes(e) + Walk(active, root, u, b).gaps
        ensures DueBeyond(active, root, t, g)
      {
        assert g in Notes(e) ==> Extends(u, u) && Due(active, root, u, g);
        DueFurther(active, root, t, e, g);
      }
    }
  }

  /** And, unless the walk was cut short, none that has one is kept back. */
  lemma {:induction false} DueIsAdmitted(active: seq<Edge>, root: string, t: Trail, b: Budget, u: Trail, g: Gap)
    requires Heading(active, root, u) && Extends(t, u) && Due(active, root, u, g) && (g.Note? ==> |t| < |u|)
    requires !Walk(active, root, t, b).budget.truncated && b.work <= MAX_WORK && b.paths <= MAX_PATHS
    ensures g in Walk(active, root, t, b).gaps
    decreases Left(b), 0
  {
    var node := EndOf(root, t);
    var parents := Parents(active, node);
    ParentsFork(active, node);
    if |t| == |u| {
      assert t == u;
    } else {
      assert node == NodeAt(root, u, |t|) && Step(active, root, u, |t|);
      NotPassedYet(active, root, t, u);
      WalkUnfolds(active, root, t, parents, b, Walk(active, root, t, b));
      DueInBranch(active, root, t, parents, b.(work := b.work + 1), u, g);
    }
  }

  lemma NotPassedYet(active: seq<Edge>, root: string, t: Trail, u: Trail)
    requires Heading(active, root, u) && Extends(t, u) && |t| < |u|
    ensures !Passed(root, t, EndOf(root, t))
  {
    assert forall k :: 0 <= k <= |t| ==> NodeAt(root, t, k) == NodeAt(root, u, k);
  }

  lemma {:induction false} DueInBranch(active: seq<Edge>, root: string, t: Trail, parents: seq<Edge>, b: Budget, u: Trail, g: Gap)
    requires Heading(active, root, u) && Takes(t, parents, u) && Due(active, root, u, g)
    requires !Branch(active, root, t, parents, b).budget.truncated && b.work <= MAX_WORK && b.paths <= MAX_PATHS
    ensures g in Branch(active, root, t, parents, b).gaps
    decreases Left(b), |parents| + 1
  {
    var e := parents[0];
    var v := t + [e];
    var f := Walk(active, root, v, b);
    WalkIsMetered(active, root, v, b);
    BranchIsMetered(active, root, t, parents[1..], f.budget);
    if u[|t|] == e {
      assert u[..|v|] == v;
      if g.Note? && |u| == |v| {
        assert u == v;
        NotesAreDue(active, root, t, e);
      } else {
        DueIsAdmitted(active, root, v, b, u, g);
      }
    } else {
      DueInBranch(active, root, t, parents[1..], f.budget, u, g);
    }
  }

  /** The gaps a picture admits are those due somewhere along the way, and that it was cut short exactly when it was. */
  lemma GapsExactly(active: seq<Edge>, root: string)
    ensures var s := PictureOf(active, root);
            && (forall g :: g in s.gaps && g != Truncated ==> DueBeyond(active, root, [], g))
            && (Truncated !in s.gaps ==> forall g :: DueBeyond(active, root, [], g) ==> g in s.gaps)
            && (Truncated in s.gaps ==> |s.paths| == 64 || Walk(active, root, [], FULL).budget.work == 2048)
  {
    var f := Walk(active, root, [], FULL);
    GapsAreDue(active, root, [], FULL);
    CutShortWhenSpent(active, root, [], FULL);
    WalkIsMetered(active, root, [], FULL);
    forall g | !f.budget.truncated && DueBeyond(active, root, [], g)
      ensures g in f.gaps
    {
      var u :| Heading(active, root, u) && Extends([], u) && Due(active, root, u, g);
      DueIsAdmitted(active, root, [], FULL, u, g);
    }
  }

  lemma {:induction false} CutShortWhenSpent(active: seq<Edge>, root: string, t: Trail, b: Budget)
    requires b.truncated ==> Spent(b)
    ensures var f := Walk(active, root, t, b); (f.budget.truncated ==> Spent(f.budget)) && Truncated !in f.gaps
    ensures Spent(b) ==> Spent(Walk(active, root, t, b).budget)
    decreases Left(b), 0
  {
    var node := EndOf(root, t);
    if !Spent(b) && node != INTERNET && !Passed(root, t, node) && Parents(active, node) != [] {
      BranchCutShortWhenSpent(active, root, t, Parents(active, node), b.(work := b.work + 1));
    }
  }

  lemma {:induction false} BranchCutShortWhenSpent(active: seq<Edge>, root: string, t: Trail, parents: seq<Edge>, b: Budget)
    requires b.truncated ==> Spent(b)
    ensures var f := Branch(active, root, t, parents, b); (f.budget.truncated ==> Spent(f.budget)) && Truncated !in f.gaps
    decreases Left(b), |parents| + 1
  {
    if parents != [] && !Spent(b) {
      CutShortWhenSpent(active, root, t + [parents[0]], b);
      BranchCutShortWhenSpent(active, root, t, parents[1..], Walk(active, root, t + [parents[0]], b).budget);
    }
  }

  // ---- order ------------------------------------------------------------------------

  lemma {:induction false} TextLessIsTransitive(a: string, b: string, c: string)
    requires !TextLess(b, a) && !TextLess(c, b)
    ensures !TextLess(c, a)
  {
    if a != "" && b != "" && c != "" && a[0] == b[0] == c[0] {
      TextLessIsTransitive(a[1..], b[1..], c[1..]);
    }
  }

  lemma {:induction false} TextLessIsTotal(a: string, b: string)
    requires !TextLess(a, b) && !TextLess(b, a)
    ensures a == b
  {
    if a != "" && b != "" {
      TextLessIsTotal(a[1..], b[1..]);
      assert a == [a[0]] + a[1..] && b == [b[0]] + b[1..];
    }
  }

  lemma NotBeforeIsTransitive(a: Edge, b: Edge, c: Edge)
    requires !Precedes(b, a) && !Precedes(c, b)
    ensures !Precedes(c, a)
  {
    TextLessIsStrict(a.parent, b.parent);
    TextLessIsStrict(b.parent, c.parent);
    TextLessIsStrict(a.parent, c.parent);
    if !TextLess(b.parent, a.parent) && !TextLess(c.parent, b.parent) {
      TextLessIsTransitive(a.parent, b.parent, c.parent);
    }
    if !TextLess(a.parent, c.parent) && !TextLess(c.parent, a.parent) {
      TextLessIsTotal(a.parent, c.parent);
    }
    if a.parent == c.parent && a.parent != b.parent {
      TextLessIsTotal(a.parent, b.parent);
    }
  }

  lemma {:induction false} NoneBeforeTheFirst(parents: seq<Edge>, k: nat)
    requires InOrder(parents) && k < |parents|
    ensures !Precedes(parents[k], parents[0])
  {
    TextLessIsStrict(parents[k].parent, parents[k].parent);
    if k > 0 {
      NoneBeforeTheFirst(parents, k - 1);
      NotBeforeIsTransitive(parents[0], parents[k - 1], parents[k]);
    }
  }

  /** Where the two part, the first takes the earlier edge: the one with the smaller parent, or the smaller id. */
  predicate Earlier(p: Trail, q: Trail) {
    exists k :: 0 <= k < |p| && k < |q| && p[..k] == q[..k] && p[k] != q[k] && !Precedes(q[k], p[k])
  }

  ghost predicate Ranked(trails: seq<Trail>) {
    forall i, j :: 0 <= i < j < |trails| ==> Earlier(trails[i], trails[j])
  }

  /** The paths come in the order of the edges they take. */
  lemma {:induction false} WalkIsRanked(active: seq<Edge>, root: string, t: Trail, b: Budget)
    requires Heading(active, root, t) && Topology.Distinct(active)
    ensures Ranked(Walk(active, root, t, b).trails)
    decreases Left(b), 0
  {
    var node := EndOf(root, t);
    var parents := Parents(active, node);
    if !Spent(b) && node != INTERNET && !Passed(root, t, node) && parents != [] {
      ParentsInOrder(active, node, parents);
      BranchIsRanked(active, root, t, parents, b.(work := b.work + 1));
    }
  }

  lemma ParentsInOrder(active: seq<Edge>, node: string, parents: seq<Edge>)
    requires Topology.Distinct(active) && parents == Parents(active, node)
    ensures Topology.Distinct(parents) && InOrder(parents)
  {
    ParentsAre(active, node);
    SortedIsThePermutation(From(active, node));
  }

  lemma {:induction false} BranchIsRanked(active: seq<Edge>, root: string, t: Trail, parents: seq<Edge>, b: Budget)
    requires Heading(active, root, t) && EndOf(root, t) != INTERNET && !Passed(root, t, EndOf(root, t)) && Topology.Distinct(active)
    requires (forall e :: e in parents ==> e in Parents(active, EndOf(root, t))) && Topology.Distinct(parents) && InOrder(parents)
    ensures Ranked(Branch(active, root, t, parents, b).trails)
    decreases Left(b), |parents| + 1
  {
    if parents != [] && !Spent(b) {
      var u := t + [parents[0]];
      StepIsHeading(active, root, t, parents[0]);
      var f := Walk(active, root, u, b);
      var r := Branch(active, root, t, parents[1..], f.budget);
      WalkIsRanked(active, root, u, b);
      assert forall k :: 0 <= k < |parents| - 1 ==> parents[1..][k] == parents[k + 1];
      BranchIsRanked(active, root, t, parents[1..], f.budget);
      WalkIsSound(active, root, u, b);
      BranchIsSound(active, root, t, parents[1..], f.budget);
      RankedTogether(t, parents, f.trails, r.trails);
    }
  }

  lemma RankedTogether(t: Trail, parents: seq<Edge>, these: seq<Trail>, those: seq<Trail>)
    requires parents != [] && Topology.Distinct(parents) && InOrder(parents) && Ranked(these) && Ranked(those)
    requires forall p :: p in these ==> Extends(t + [parents[0]], p)
    requires forall p :: p in those ==> Takes(t, parents[1..], p)
    ensures Ranked(these + those)
  {
    forall i, j | 0 <= i < |these| && 0 <= j < |those|
      ensures Earlier(these[i], those[j])
    {
      PartsHere(t, parents, these[i], those[j]);
    }
  }

  lemma PartsHere(t: Trail, parents: seq<Edge>, p: Trail, q: Trail)
    requires parents != [] && Topology.Distinct(parents) && InOrder(parents)
    requires Extends(t + [parents[0]], p) && Takes(t, parents[1..], q)
    ensures Earlier(p, q)
  {
    var u := t + [parents[0]];
    assert p[|t|] == p[..|u|][|t|] == parents[0] && p[..|t|] == p[..|u|][..|t|] == t;
    var k :| 0 <= k < |parents[1..]| && parents[1..][k] == q[|t|];
    assert parents[k + 1] != parents[0];
    NoneBeforeTheFirst(parents, k + 1);
  }

  ghost predicate ShownInOrder(paths: seq<Path>, active: seq<Edge>, root: string) {
    exists trails :: Ranked(trails) && paths == RenderAll(active, root, trails)
  }

  /** What an interval admits, and in which order it shows its paths, at every instant in it. */
  lemma IntervalsAdmitTheGaps(s: seq<Interval>, from: int, to: int, edges: seq<Edge>, root: string, k: nat, t: int)
    requires Encodes(s, from, to, edges, root) && Topology.Distinct(edges) && k < |s| && s[k].from <= t < s[k].to
    ensures var p, active := s[k].picture, ActiveAt(edges, t);
            && (forall g :: g in p.gaps && g != Truncated ==> DueBeyond(active, root, [], g))
            && (Truncated !in p.gaps ==> forall g :: DueBeyond(active, root, [], g) ==> g in p.gaps)
            && ShownInOrder(p.paths, active, root)
  {
    var active := ActiveAt(edges, t);
    assert Shows(s[k].picture, edges, root, t);
    GapsExactly(active, root);
    ActiveStaysDistinct(edges, t);
    WalkIsRanked(active, root, [], FULL);
    assert s[k].picture.paths == RenderAll(active, root, Explore(active, root).trails);
  }
}
