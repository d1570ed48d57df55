/**
 The bucket and window arithmetic of internal/api/client_observability.go: which whole
 buckets a range holds, which gaps a series has, and when each device was on the path.
 */
module Windows {
  import opened Options
  import opened Topology
  import opened PathIntervals
  import opened PathBuild

  newtype int64 = x: int | -0x8000_0000_0000_0000 <= x < 0x8000_0000_0000_0000

  const MAX_INT64: int64 := 0x7fff_ffff_ffff_ffff

  // ---- buckets --------------------------------------------------------------

  predicate Aligned(x: int, bucket: int)
    requires bucket > 0
  {
    x % bucket == 0
  }

  /** A bucket start whose whole bucket lies in the range. */
  predicate WholeBucket(x: int, from: int, to: int, bucket: int)
    requires bucket > 0
  {
    from <= x && Aligned(x, bucket) && x + bucket <= to
  }

  lemma MultiplesGrow(p: int, q: int, bucket: int)
    requires bucket > 0 && p <= q
    ensures bucket * p <= bucket * q
  {}

  lemma MultipleIsAligned(p: int, bucket: int)
    requires bucket > 0
    ensures Aligned(bucket * p, bucket)
  {
    var x := bucket * p;
    var q, r := x / bucket, x % bucket;
    var d := p - q;
    assert x == bucket * q + r && 0 <= r < bucket;
    assert bucket * d == r;
    if d > 0 {
      MultiplesGrow(1, d, bucket);
    } else if d < 0 {
      MultiplesGrow(d, -1, bucket);
    }
  }

  lemma NextAligned(x: int, y: int, bucket: int)
    requires bucket > 0 && Aligned(x, bucket) && Aligned(y, bucket)
    ensures Aligned(x + bucket, bucket)
    ensures x < y ==> x + bucket <= y
  {
    var p, q := x / bucket, y / bucket;
    assert x == bucket * p && y == bucket * q;
    assert bucket * p + bucket == bucket * (p + 1);
    MultipleIsAligned(p + 1, bucket);
    if q <= p {
      MultiplesGrow(q, p, bucket);
    } else {
      MultiplesGrow(p + 1, q, bucket);
    }
  }

  /** The first multiple at or after `from`. */
  lemma AlignedUp(from: int, bucket: int)
    requires bucket > 0
    ensures var delta := if from % bucket == 0 then 0 else bucket - from % bucket;
            Aligned(from + delta, bucket) && forall y :: from <= y && Aligned(y, bucket) ==> from + delta <= y
  {
    var p := from / bucket;
    var delta := if from % bucket == 0 then 0 else bucket - from % bucket;
    assert from == bucket * p + from % bucket;
    MultipleIsAligned(p, bucket);
    NextAligned(bucket * p, bucket * p, bucket);
    forall y | from <= y && Aligned(y, bucket)
      ensures from + delta <= y
    {
      NextAligned(bucket * p, y, bucket);
    }
  }

  /** Whole buckets end at or before the last multiple. */
  lemma AlignedDown(to: int, bucket: int)
    requires bucket > 0
    ensures Aligned(to / bucket * bucket, bucket) && to / bucket * bucket <= to
    ensures forall x :: Aligned(x, bucket) ==> (x < to / bucket * bucket <==> x + bucket <= to)
  {
    var end := bucket * (to / bucket);
    assert end == to / bucket * bucket;
    MultipleIsAligned(to / bucket, bucket);
    assert to == end + to % bucket;
    forall x | Aligned(x, bucket)
      ensures x < end <==> x + bucket <= to
    {
      NextAligned(x, end, bucket);
    }
  }

  lemma NoneInside(ts: int, bucket: int)
    requires bucket > 0 && Aligned(ts, bucket)
    ensures forall x :: Aligned(x, bucket) ==> (x < ts + bucket <==> x < ts || x == ts)
  {
    forall x | Aligned(x, bucket)
      ensures x < ts + bucket <==> x < ts || x == ts
    {
      NextAligned(ts, x, bucket);
    }
  }

  /** No bucket starts from `from` on but before `start`. */
  ghost predicate NoneBefore(from: int, start: int, bucket: int)
    requires bucket > 0
  {
    forall y :: from <= y && Aligned(y, bucket) ==> start <= y
  }

  /** The first bucket start at or after `from`, if 64 bits hold it. */
  method FirstBucket(from: int64, bucketMS: int64) returns (start: Option<int64>)
    requires from >= 0 && bucketMS > 0
    ensures start.Some? ==> from <= start.value && Aligned(start.value as int, bucketMS as int)
    ensures start.Some? ==> NoneBefore(from as int, start.value as int, bucketMS as int)
    ensures start.None? ==> NoneBefore(from as int, MAX_INT64 as int + 1, bucketMS as int)
  {
    AlignedUp(from as int, bucketMS as int);
    var remainder := from % bucketMS;
    if remainder == 0 {
      return Some(from);
    }
    var delta := bucketMS - remainder;
    if from > MAX_INT64 - delta {
      return None;
    }
    return Some(from + delta);
  }

  /** Every operation is checked to stay within 64 bits. */
  method ObservabilityTimestamps(from: int64, to: int64, bucketMS: int64) returns (out: seq<int64>)
    requires from >= 0 && to >= 0 && bucketMS > 0
    ensures forall x: int64 :: x in out <==> WholeBucket(x as int, from as int, to as int, bucketMS as int)
    ensures forall k :: 0 < k < |out| ==> out[k] as int == out[k - 1] as int + bucketMS as int
  {
    var start := FirstBucket(from, bucketMS);
    if start.None? {
      return [];
    }
    AlignedDown(to as int, bucketMS as int);
    out := BucketsBetween(start.value, to / bucketMS * bucketMS, bucketMS);
  }

  method BucketsBetween(start: int64, end: int64, bucketMS: int64) returns (out: seq<int64>)
    requires bucketMS > 0 && Aligned(start as int, bucketMS as int) && Aligned(end as int, bucketMS as int)
    ensures forall x: int64 :: x in out <==> start <= x < end && Aligned(x as int, bucketMS as int)
    ensures forall k :: 0 < k < |out| ==> out[k] as int == out[k - 1] as int + bucketMS as int
  {
    ghost var bucket := bucketMS as int;
    out := [];
    var ts := start;
    while ts < end
      invariant start <= ts && Aligned(ts as int, bucket)
      invariant forall x: int64 :: x in out <==> start <= x < ts && Aligned(x as int, bucket) && x < end
      invariant out != [] ==> out[|out| - 1] as int + bucket == ts as int
      invariant forall k :: 0 < k < |out| ==> out[k] as int == out[k - 1] as int + bucket
      decreases end as int - ts as int
    {
      NextAligned(ts as int, end as int, bucket);
      NoneInside(ts as int, bucket);
      out := out + [ts];
      ts := ts + bucketMS;
    }
  }

  // ---- gaps of a series ------------------------------------------------------------

  datatype Span = Span(from: int, to: int)

  datatype Availability = Available | Partial | Unavailable

  predicate Within(t: int, s: Span) { s.from <= t < s.to }

  predicate InAny(t: int, spans: seq<Span>) {
    exists k :: 0 <= k < |spans| && Within(t, spans[k])
  }

  /** Sorted, nonempty, and never touching. */
  predicate Separate(spans: seq<Span>) {
    && (forall k :: 0 <= k < |spans| ==> spans[k].from < spans[k].to)
    && (forall i, j :: 0 <= i < j < |spans| ==> spans[i].to < spans[j].from)
  }

  predicate Evenly(timestamps: seq<int>, bucket: int) {
    forall k :: 0 < k < |timestamps| ==> timestamps[k] == timestamps[k - 1] + bucket
  }

  predicate InBucket(timestamps: seq<int>, bucket: int, k: nat, t: int)
    requires k < |timestamps|
  {
    timestamps[k] <= t < timestamps[k] + bucket
  }

  /** In one of the buckets from `start` up to `end`. */
  predicate InRun(timestamps: seq<int>, bucket: int, start: nat, end: nat, t: int)
    requires end <= |timestamps|
  {
    exists k :: start <= k < end && InBucket(timestamps, bucket, k, t)
  }

  /** In one of the first n buckets, and that one is missing. */
  predicate MissingBefore(values: seq<Option<real>>, timestamps: seq<int>, bucket: int, n: nat, t: int)
    requires |values| == |timestamps| && n <= |values|
  {
    exists k :: 0 <= k < n && values[k].None? && InBucket(timestamps, bucket, k, t)
  }

  predicate AllMissing(values: seq<Option<real>>, start: nat, end: nat)
    requires end <= |values|
  {
    forall k :: start <= k < end ==> values[k].None?
  }

  /** Consecutive buckets make one span. */
  lemma {:induction false} RunIsASpan(timestamps: seq<int>, bucket: int, start: nat, end: nat)
    requires Evenly(timestamps, bucket) && bucket > 0 && start < end <= |timestamps|
    ensures timestamps[start] <= timestamps[end - 1]
    ensures forall t :: InRun(timestamps, bucket, start, end, t) <==> timestamps[start] <= t < timestamps[end - 1] + bucket
    decreases end
  {
    if start + 1 < end {
      RunIsASpan(timestamps, bucket, start, end - 1);
    }
    forall t
      ensures InRun(timestamps, bucket, start, end, t) <==> timestamps[start] <= t < timestamps[end - 1] + bucket
    {
      if InBucket(timestamps, bucket, end - 1, t) {
        assert InRun(timestamps, bucket, start, end, t);
      } else if start + 1 < end {
        assert InRun(timestamps, bucket, start, end, t) <==> InRun(timestamps, bucket, start, end - 1, t);
      }
    }
  }

  /** A run of missing buckets is one gap, exactly as long as the run. */
  method NextGap(values: seq<Option<real>>, timestamps: seq<int>, bucket: int, to: int, start: nat) returns (gap: Span, end: nat)
    requires |values| == |timestamps| && bucket > 0 && Evenly(timestamps, bucket) && start < |values| && values[start].None?
    requires forall k :: 0 <= k < |timestamps| ==> timestamps[k] + bucket <= to
    ensures start < end <= |values| && (end < |values| ==> values[end].Some?) && AllMissing(values, start, end)
    ensures gap == Span(timestamps[start], timestamps[end - 1] + bucket) && gap.from < gap.to
  {
    end := start + 1;
    while end < |values| && values[end].None?
      invariant start < end <= |values| && AllMissing(values, start, end)
    {
      end := end + 1;
    }
    var gapTo := timestamps[end - 1] + bucket;
    if gapTo > to {
      gapTo := to;
    }
    RunIsASpan(timestamps, bucket, start, end);
    gap := Span(timestamps[start], gapTo);
  }

  function Observed(values: seq<Option<real>>): nat {
    if values == [] then 0 else Observed(values[..|values| - 1]) + if values[|values| - 1].Some? then 1 else 0
  }

  lemma {:induction false} ObservedAllOrNone(values: seq<Option<real>>)
    ensures Observed(values) <= |values|
    ensures Observed(values) == |values| <==> forall k :: 0 <= k < |values| ==> values[k].Some?
    ensures Observed(values) == 0 <==> AllMissing(values, 0, |values|)
  {
    if values != [] {
      var n := |values| - 1;
      ObservedAllOrNone(values[..n]);
      assert forall k :: 0 <= k < n ==> values[..n][k] == values[k];
      assert AllMissing(values[..n], 0, n) <==> AllMissing(values, 0, n);
      assert AllMissing(values, 0, n + 1) <==> AllMissing(values, 0, n) && values[n].None?;
    }
  }

  function ObservedAt(values: seq<Option<real>>): set<nat> {
    set k: nat | k < |values| && values[k].Some?
  }

  lemma {:induction false} ObservedCounts(values: seq<Option<real>>)
    ensures Observed(values) == |ObservedAt(values)|
  {
    if values != [] {
      var n := |values| - 1;
      ObservedCounts(values[..n]);
      assert ObservedAt(values) == ObservedAt(values[..n]) + if values[n].Some? then {n as nat} else {};
    }
  }

  /** The gaps so far tell of the first `start` buckets, and cannot touch what comes next. */
  ghost predicate Told(values: seq<Option<real>>, timestamps: seq<int>, bucket: int, start: nat, gaps: seq<Span>)
    requires |values| == |timestamps|
  {
    && start <= |values| && Separate(gaps)
    && (gaps != [] ==> start > 0 && gaps[|gaps| - 1].to <= timestamps[start - 1] + bucket
                       && (start < |values| && values[start].None? ==> gaps[|gaps| - 1].to < timestamps[start - 1] + bucket))
    && (forall t :: InAny(t, gaps) <==> MissingBefore(values, timestamps, bucket, start, t))
    && (gaps == [] <==> forall k :: 0 <= k < start ==> values[k].Some?)
  }

  lemma PresentIsTold(values: seq<Option<real>>, timestamps: seq<int>, bucket: int, start: nat, gaps: seq<Span>)
    requires |values| == |timestamps| && bucket > 0 && Evenly(timestamps, bucket)
    requires Told(values, timestamps, bucket, start, gaps) && start < |values| && values[start].Some?
    ensures Told(values, timestamps, bucket, start + 1, gaps)
  {}

  lemma GapIsTold(values: seq<Option<real>>, timestamps: seq<int>, bucket: int, start: nat, end: nat, gaps: seq<Span>)
    requires |values| == |timestamps| && bucket > 0 && Evenly(timestamps, bucket)
    requires Told(values, timestamps, bucket, start, gaps) && start < end <= |values| && AllMissing(values, start, end)
    requires end < |values| ==> values[end].Some?
    ensures Told(values, timestamps, bucket, end, gaps + [Span(timestamps[start], timestamps[end - 1] + bucket)])
  {
    var gap := Span(timestamps[start], timestamps[end - 1] + bucket);
    RunIsASpan(timestamps, bucket, start, end);
    assert values[start].None? && (start > 0 ==> timestamps[start] == timestamps[start - 1] + bucket);
    assert Separate(gaps + [gap]);
    forall t
      ensures InAny(t, gaps + [gap]) <==> MissingBefore(values, timestamps, bucket, end, t)
    {
      AnyOneMore(t, gaps, gap);
      assert MissingBefore(values, timestamps, bucket, end, t) <==>
             MissingBefore(values, timestamps, bucket, start, t) || InRun(timestamps, bucket, start, end, t);
    }
  }

  lemma AnyOneMore(t: int, spans: seq<Span>, s: Span)
    ensures InAny(t, spans + [s]) <==> InAny(t, spans) || Within(t, s)
  {
    var more := spans + [s];
    assert more[|spans|] == s;
    if InAny(t, spans) {
      var k :| 0 <= k < |spans| && Within(t, spans[k]);
      assert more[k] == spans[k];
    }
  }

  /** The gaps are exactly the missing buckets, joined where they touch. */
  method MetricAvailability(values: seq<Option<real>>, timestamps: seq<int>, bucket: int, to: int)
    returns (state: Availability, observed: nat, gaps: seq<Span>)
    requires |values| == |timestamps| && bucket > 0 && Evenly(timestamps, bucket)
    requires forall k :: 0 <= k < |timestamps| ==> timestamps[k] + bucket <= to
    ensures Separate(gaps) && forall t :: InAny(t, gaps) <==> MissingBefore(values, timestamps, bucket, |values|, t)
    ensures state == Available <==> values != [] && gaps == []
    ensures state == Unavailable <==> AllMissing(values, 0, |values|)
    ensures observed == |ObservedAt(values)|
  {
    observed := 0;
    for i := 0 to |values|
      invariant observed == Observed(values[..i])
    {
      assert values[..i + 1][..i] == values[..i];
      if values[i].Some? {
        observed := observed + 1;
      }
    }
    assert values[..|values|] == values;
    ObservedAllOrNone(values);
    ObservedCounts(values);
    state := Unavailable;
    if observed == |values| && |values| > 0 {
      state := Available;
    } else if observed > 0 {
      state := Partial;
    }
    gaps := [];
    var start := 0;
    while start < |values|
      invariant Told(values, timestamps, bucket, start, gaps)
    {
      if values[start].Some? {
        PresentIsTold(values, timestamps, bucket, start, gaps);
        start := start + 1;
      } else {
        var gap, end := NextGap(values, timestamps, bucket, to, start);
        GapIsTold(values, timestamps, bucket, start, end, gaps);
        gaps := gaps + [gap];
        start := end;
      }
    }
  }

  // ---- devices on the path ----------------------------------------------------------

  predicate OnPath(i: Interval, devices: map<string, int>, id: int) {
    exists p :: 0 <= p < |i.picture.paths| && PathVisits(i.picture.paths[p].nodes, devices, id)
  }

  function WindowsOf(s: seq<Interval>, devices: map<string, int>, id: int): seq<Span> {
    if s == [] then [] else
    var n := |s| - 1;
    var w := WindowsOf(s[..n], devices, id);
    if !OnPath(s[n], devices, id) then w
    else if w != [] && w[|w| - 1].to == s[n].from then w[|w| - 1 := Span(w[|w| - 1].from, s[n].to)]
    else w + [Span(s[n].from, s[n].to)]
  }

  predicate OnPathAt(s: seq<Interval>, devices: map<string, int>, id: int, t: int) {
    exists k :: 0 <= k < |s| && s[k].from <= t < s[k].to && OnPath(s[k], devices, id)
  }

  predicate Ordered(s: seq<Interval>) {
    && (forall k :: 0 <= k < |s| ==> s[k].from < s[k].to)
    && (forall i, j :: 0 <= i < j < |s| ==> s[i].to <= s[j].from)
  }

  lemma OnPathOneMore(s: seq<Interval>, devices: map<string, int>, id: int, t: int)
    requires s != []
    ensures var n := |s| - 1;
            OnPathAt(s, devices, id, t) <==>
            OnPathAt(s[..n], devices, id, t) || (s[n].from <= t < s[n].to && OnPath(s[n], devices, id))
  {}

  /** The windows cover exactly the time the device was on a path, apart from one another. */
  lemma {:induction false} WindowsAreExact(s: seq<Interval>, devices: map<string, int>, id: int)
    requires Ordered(s)
    ensures var w := WindowsOf(s, devices, id);
            && Separate(w) && (w != [] ==> s != [] && w[|w| - 1].to <= s[|s| - 1].to)
            && forall t :: InAny(t, w) <==> OnPathAt(s, devices, id, t)
  {
    if s != [] {
      var n := |s| - 1;
      WindowsAreExact(s[..n], devices, id);
      var v, w := WindowsOf(s[..n], devices, id), WindowsOf(s, devices, id);
      forall t
        ensures InAny(t, w) <==> OnPathAt(s, devices, id, t)
      {
        OnPathOneMore(s, devices, id, t);
        if OnPath(s[n], devices, id) {
          if v != [] && v[|v| - 1].to == s[n].from {
            LastGrows(t, v, s[n].to);
          } else {
            AnyOneMore(t, v, Span(s[n].from, s[n].to));
          }
        }
      }
    }
  }

  lemma LastGrows(t: int, spans: seq<Span>, to: int)
    requires spans != [] && spans[|spans| - 1].from < spans[|spans| - 1].to <= to
    ensures var n := |spans| - 1;
            InAny(t, spans[n := Span(spans[n].from, to)]) <==> InAny(t, spans) || spans[n].to <= t < to
  {
    var n := |spans| - 1;
    var more := spans[n := Span(spans[n].from, to)];
    if InAny(t, spans) {
      var k :| 0 <= k < |spans| && Within(t, spans[k]);
      assert Within(t, more[k]);
    }
    if InAny(t, more) {
      var k :| 0 <= k < |more| && Within(t, more[k]);
      if k < n {
        assert Within(t, spans[k]);
      } else {
        assert Within(t, spans[n]) || spans[n].to <= t;
      }
    }
    if spans[n].to <= t < to {
      assert Within(t, more[n]);
    }
  }

  function WindowsIn(m: map<int, seq<Span>>, id: int): seq<Span> {
    if id in m then m[id] else []
  }

  predicate PathVisits(nodes: seq<string>, devices: map<string, int>, id: int) {
    exists k :: 0 <= k < |nodes| && nodes[k] in devices && devices[nodes[k]] == id
  }

  method DevicesOf(nodes: seq<string>, devices: map<string, int>) returns (found: set<int>)
    ensures forall id :: id in found <==> id > 0 && PathVisits(nodes, devices, id)
  {
    found := {};
    for k := 0 to |nodes|
      invariant forall id :: id in found <==> id > 0 && PathVisits(nodes[..k], devices, id)
    {
      assert nodes[..k + 1] == nodes[..k] + [nodes[k]];
      var id := if nodes[k] in devices then devices[nodes[k]] else 0;
      forall other
        ensures PathVisits(nodes[..k + 1], devices, other) <==>
                PathVisits(nodes[..k], devices, other) || (nodes[k] in devices && other == devices[nodes[k]])
      {
        VisitsOneMore(nodes[..k], nodes[k], devices, other);
      }
      if id > 0 {
        found := found + {id};
      }
    }
    assert nodes[..|nodes|] == nodes;
  }

  lemma VisitsOneMore(nodes: seq<string>, node: string, devices: map<string, int>, id: int)
    ensures PathVisits(nodes + [node], devices, id) <==>
            PathVisits(nodes, devices, id) || (node in devices && id == devices[node])
  {
    var more := nodes + [node];
    assert more[|nodes|] == node;
    if PathVisits(nodes, devices, id) {
      var k :| 0 <= k < |nodes| && nodes[k] in devices && devices[nodes[k]] == id;
      assert more[k] == nodes[k];
    }
  }

  method PresentDevices(i: Interval, devices: map<string, int>) returns (present: set<int>)
    ensures forall id :: id in present <==> id > 0 && OnPath(i, devices, id)
  {
    present := {};
    var paths := i.picture.paths;
    for p := 0 to |paths|
      invariant forall id :: id in present <==> id > 0 && exists q :: 0 <= q < p && PathVisits(paths[q].nodes, devices, id)
    {
      var found := DevicesOf(paths[p].nodes, devices);
      present := present + found;
    }
  }

  /** One interval's devices: each window grows or a new one starts. */
  method ExtendWindows(before: map<int, seq<Span>>, ids: set<int>, i: Interval) returns (after: map<int, seq<Span>>)
    ensures forall id :: WindowsIn(after, id) == if id in ids then Grown(WindowsIn(before, id), i) else WindowsIn(before, id)
    ensures forall id :: id in after <==> id in before || id in ids
  {
    after := before;
    var left := ids;
    while left != {}
      invariant left <= ids
      invariant forall id :: WindowsIn(after, id) == if id in ids - left then Grown(WindowsIn(before, id), i) else WindowsIn(before, id)
      invariant forall id :: id in after <==> id in before || id in ids - left
      decreases left
    {
      var id := AnyOf(left);
      after := after[id := Grown(WindowsIn(after, id), i)];
      left := left - {id};
    }
  }

  method AnyOf<T>(s: set<T>) returns (x: T)
    requires s != {}
    ensures x in s
  {
    x :| x in s;
  }

  function Grown(w: seq<Span>, i: Interval): seq<Span> {
    if w != [] && w[|w| - 1].to == i.from then w[|w| - 1 := Span(w[|w| - 1].from, i.to)] else w + [Span(i.from, i.to)]
  }

  /** Every device's windows, as WindowsOf has them, and no device without one. */
  method ClientIncidentWindows(intervals: seq<Interval>, devices: map<string, int>) returns (byDevice: map<int, seq<Span>>)
    ensures forall id :: id > 0 ==> WindowsIn(byDevice, id) == WindowsOf(intervals, devices, id)
    ensures forall id :: id in byDevice <==> id > 0 && WindowsOf(intervals, devices, id) != []
  {
    byDevice := map[];
    for n := 0 to |intervals|
      invariant forall id :: id > 0 ==> WindowsIn(byDevice, id) == WindowsOf(intervals[..n], devices, id)
      invariant forall id :: id in byDevice ==> id > 0 && byDevice[id] != []
    {
      var present := PresentDevices(intervals[n], devices);
      assert intervals[..n + 1][..n] == intervals[..n] && intervals[..n + 1][n] == intervals[n];
      byDevice := ExtendWindows(byDevice, present, intervals[n]);
      assert forall id :: id in byDevice ==> byDevice[id] == WindowsIn(byDevice, id);
    }
    assert intervals[..|intervals|] == intervals;
  }

  /** The intervals of a client's path are in order, so its windows are exact: at t a path shown then has a node of the device. */
  lemma PathWindowsAreExact(s: seq<Interval>, from: int, to: int, devices: map<string, int>, id: int, t: int)
    requires Tiles(s, from, to)
    ensures Separate(WindowsOf(s, devices, id))
    ensures (exists w :: 0 <= w < |WindowsOf(s, devices, id)| && WindowsOf(s, devices, id)[w].from <= t < WindowsOf(s, devices, id)[w].to) <==>
            exists k, p, n :: 0 <= k < |s| && s[k].from <= t < s[k].to && 0 <= p < |s[k].picture.paths|
                              && 0 <= n < |s[k].picture.paths[p].nodes| && s[k].picture.paths[p].nodes[n] in devices
                              && devices[s[k].picture.paths[p].nodes[n]] == id
  {
    forall i, j | 0 <= i < j < |s|
      ensures s[i].to <= s[j].from
    {
      TilesAreOrdered(s, from, to, i, j);
    }
    WindowsAreExact(s, devices, id);
    assert InAny(t, WindowsOf(s, devices, id)) <==> OnPathAt(s, devices, id, t);
    if OnPathAt(s, devices, id, t) {
      var k :| 0 <= k < |s| && s[k].from <= t < s[k].to && OnPath(s[k], devices, id);
      var p :| 0 <= p < |s[k].picture.paths| && PathVisits(s[k].picture.paths[p].nodes, devices, id);
    }
  }

  lemma {:induction false} TilesAreOrdered(s: seq<Interval>, from: int, to: int, i: nat, j: nat)
    requires Tiles(s, from, to) && i < j < |s|
    ensures s[i].to <= s[j].from
    decreases j
  {
    if i + 1 < j {
      TilesAreOrdered(s, from, to, i, j - 1);
    }
  }
}
