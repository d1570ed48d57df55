/**
 Topology edges, what of them is active at a time, and the parents of a node in the order
 the walk of internal/api/client_observability_path.go takes them.
 */
module Topology {
  import opened Options

  /** Any other text counts as measured once it is weighed against a second one. */
  datatype Confidence = Unknown | Measured | Inferred | Ambiguous | Unlisted(text: string)

  datatype Edge = Edge(
    id: int, child: string, parent: string, medium: string, confidence: Confidence, ambiguities: seq<string>,
    validFrom: int, validTo: Option<int>)

  const INTERNET := "synthetic:internet"

  predicate IsActive(e: Edge, t: int) {
    e.validFrom <= t && (e.validTo.None? || e.validTo.value > t)
  }

  function ActiveAt(edges: seq<Edge>, t: int): seq<Edge> {
    if edges == [] then []
    else (if IsActive(edges[0], t) then [edges[0]] else []) + ActiveAt(edges[1..], t)
  }

  /** The edges of one child, in their given order. */
  function From(edges: seq<Edge>, child: string): seq<Edge> {
    if edges == [] then []
    else (if edges[0].child == child then [edges[0]] else []) + From(edges[1..], child)
  }

  lemma {:induction false} FromAppend(a: seq<Edge>, b: seq<Edge>, child: string)
    ensures From(a + b, child) == From(a, child) + From(b, child)
  {
    if a == [] {
      assert a + b == b;
    } else {
      FromAppend(a[1..], b, child);
      assert (a + b)[1..] == a[1..] + b;
      var head := if a[0].child == child then [a[0]] else [];
      assert head + (From(a[1..], child) + From(b, child)) == (head + From(a[1..], child)) + From(b, child);
    }
  }

  lemma {:induction false} ActiveAppend(a: seq<Edge>, b: seq<Edge>, t: int)
    ensures ActiveAt(a + b, t) == ActiveAt(a, t) + ActiveAt(b, t)
  {
    if a == [] {
      assert a + b == b;
    } else {
      ActiveAppend(a[1..], b, t);
      assert (a + b)[1..] == a[1..] + b;
      var head := if IsActive(a[0], t) then [a[0]] else [];
      assert head + (ActiveAt(a[1..], t) + ActiveAt(b, t)) == (head + ActiveAt(a[1..], t)) + ActiveAt(b, t);
    }
  }

  lemma {:induction false} FromKeeps(edges: seq<Edge>, child: string)
    ensures forall e :: e in From(edges, child) <==> e in edges && e.child == child
  {
    if edges != [] {
      FromKeeps(edges[1..], child);
      assert edges == [edges[0]] + edges[1..];
    }
  }

  lemma {:induction false} ActiveKeeps(edges: seq<Edge>, t: int)
    ensures forall e :: e in ActiveAt(edges, t) <==> e in edges && IsActive(e, t)
  {
    if edges != [] {
      ActiveKeeps(edges[1..], t);
      assert edges == [edges[0]] + edges[1..];
    }
  }

  /** Slicing by time and by child commute. */
  lemma {:induction false} FromActive(edges: seq<Edge>, child: string, t: int)
    ensures From(ActiveAt(edges, t), child) == ActiveAt(From(edges, child), t)
  {
    if edges != [] {
      FromActive(edges[1..], child, t);
      var head := if IsActive(edges[0], t) then [edges[0]] else [];
      var mine := if edges[0].child == child then [edges[0]] else [];
      FromAppend(head, ActiveAt(edges[1..], t), child);
      ActiveAppend(mine, From(edges[1..], child), t);
    }
  }

  // ---- the order of parents ------------------------------------------------------

  predicate TextLess(a: string, b: string) {
    b != "" && (a == "" || a[0] < b[0] || (a[0] == b[0] && TextLess(a[1..], b[1..])))
  }

  lemma {:induction false} TextLessIsStrict(a: string, b: string)
    ensures !(TextLess(a, b) && TextLess(b, a))
    ensures TextLess(a, b) ==> a != b
  {
    if a != "" && b != "" {
      TextLessIsStrict(a[1..], b[1..]);
    }
  }

  predicate Precedes(a: Edge, b: Edge) {
    if a.parent != b.parent then TextLess(a.parent, b.parent) else a.id < b.id
  }

  function Insert(sorted: seq<Edge>, e: Edge): seq<Edge> {
    if sorted == [] || Precedes(e, sorted[0]) then [e] + sorted else [sorted[0]] + Insert(sorted[1..], e)
  }

  /** A stable sort; edges that agree on child, parent and id keep their order. */
  function Sorted(edges: seq<Edge>): seq<Edge> {
    if edges == [] then [] else Insert(Sorted(edges[..|edges| - 1]), edges[|edges| - 1])
  }

  predicate InOrder(edges: seq<Edge>) {
    forall k :: 0 < k < |edges| ==> !Precedes(edges[k], edges[k - 1])
  }

  lemma {:induction false} InsertInOrder(sorted: seq<Edge>, e: Edge)
    requires InOrder(sorted)
    ensures InOrder(Insert(sorted, e)) && multiset(Insert(sorted, e)) == multiset(sorted) + multiset{e}
    ensures Insert(sorted, e)[0] == e || (sorted != [] && Insert(sorted, e)[0] == sorted[0])
  {
    if sorted == [] {
    } else if Precedes(e, sorted[0]) {
      TextLessIsStrict(e.parent, sorted[0].parent);
    } else {
      assert forall k :: 0 <= k < |sorted| - 1 ==> sorted[1..][k] == sorted[k + 1];
      InsertInOrder(sorted[1..], e);
      assert sorted == [sorted[0]] + sorted[1..];
      var rest := Insert(sorted[1..], e);
      forall k | 0 < k < |rest| + 1
        ensures !Precedes(([sorted[0]] + rest)[k], ([sorted[0]] + rest)[k - 1])
      {
        if k == 1 && rest[0] != e {
          assert rest[0] == sorted[1];
        } else if k > 1 {
          assert !Precedes(rest[k - 1], rest[k - 2]);
        }
      }
    }
  }

  /** Nothing is lost, added or left out of order. */
  lemma {:induction false} SortedIsThePermutation(edges: seq<Edge>)
    ensures InOrder(Sorted(edges)) && multiset(Sorted(edges)) == multiset(edges) && |Sorted(edges)| == |edges|
    ensures forall e :: e in Sorted(edges) <==> e in edges
  {
    if edges != [] {
      var n := |edges| - 1;
      SortedIsThePermutation(edges[..n]);
      InsertInOrder(Sorted(edges[..n]), edges[n]);
      assert edges == edges[..n] + [edges[n]];
      assert multiset(Sorted(edges)) == multiset(edges);
      SameMembers(Sorted(edges), edges);
    }
  }

  lemma SameMembers<T>(a: seq<T>, b: seq<T>)
    requires multiset(a) == multiset(b)
    ensures |a| == |b| && forall e :: e in a <==> e in b
  {
    assert |multiset(a)| == |multiset(b)|;
    forall e
      ensures e in a <==> e in b
    {
      assert e in multiset(a) <==> e in multiset(b);
    }
  }

  function Parents(active: seq<Edge>, node: string): seq<Edge> {
    Sorted(From(active, node))
  }

  predicate Distinct<T(==)>(s: seq<T>) {
    forall i, j :: 0 <= i < j < |s| ==> s[i] != s[j]
  }

  lemma ParentsAre(active: seq<Edge>, node: string)
    ensures forall e :: e in Parents(active, node) <==> e in active && e.child == node
    ensures Distinct(active) ==> Distinct(Parents(active, node))
  {
    FromKeeps(active, node);
    SortedIsThePermutation(From(active, node));
    if Distinct(active) {
      OncePerEdge(active);
      FromOnce(active, node);
      DistinctIfOnce(Parents(active, node));
    }
  }

  lemma {:induction false} OncePerEdge(edges: seq<Edge>)
    requires Distinct(edges)
    ensures forall e :: multiset(edges)[e] <= 1
  {
    if edges != [] {
      assert forall k :: 0 <= k < |edges| - 1 ==> edges[1..][k] == edges[k + 1];
      OncePerEdge(edges[1..]);
      assert edges == [edges[0]] + edges[1..];
      assert edges[0] !in edges[1..];
      assert edges[0] !in multiset(edges[1..]);
    }
  }

  lemma {:induction false} FromOnce(edges: seq<Edge>, child: string)
    ensures forall e :: multiset(From(edges, child))[e] <= multiset(edges)[e]
  {
    if edges != [] {
      FromOnce(edges[1..], child);
      assert edges == [edges[0]] + edges[1..];
    }
  }

  lemma DistinctIfOnce(edges: seq<Edge>)
    requires forall e :: multiset(edges)[e] <= 1
    ensures Distinct(edges)
  {
    forall i, j | 0 <= i < j < |edges|
      ensures edges[i] != edges[j]
    {
      assert edges == edges[..j] + edges[j..];
      assert edges[..j][i] == edges[i] && edges[j..][0] == edges[j];
      assert multiset(edges) == multiset(edges[..j]) + multiset(edges[j..]);
      assert edges[i] in multiset(edges[..j]) && edges[j] in multiset(edges[j..]);
      assert multiset(edges)[edges[i]] <= 1;
    }
  }

  lemma {:induction false} ActiveStaysDistinct(edges: seq<Edge>, t: int)
    requires Distinct(edges)
    ensures Distinct(ActiveAt(edges, t))
  {
    if edges != [] {
      assert forall k :: 0 <= k < |edges| - 1 ==> edges[1..][k] == edges[k + 1];
      ActiveStaysDistinct(edges[1..], t);
      ActiveKeeps(edges[1..], t);
    }
  }
}
