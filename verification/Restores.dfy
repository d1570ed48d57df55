/**
 The restore manager of internal/api/restores.go, one step for each of its critical
 sections, and what holds of it however uploads, previews and confirmations interleave.
 */
module Restores {
  import opened Options

  const LIMIT := 5
  const RETENTION := 86400000

  /** Random tokens; only their identity matters. */
  type Id = nat

  datatype Upload = Upload(sha: string, expiresAt: int)

  datatype JobState = Queued | Running | Completed | Failed | Cancelled

  datatype Job = Job(
    upload: Id, sha: string, state: JobState, plan: string, createdAt: int, expiresAt: Option<int>, cancelRequested: bool)

  /** A map and the order its keys came in. */
  datatype Shelf<V> = Shelf(order: seq<Id>, items: map<Id, V>)

  datatype State = State(
    closed: bool, cleaned: bool, uploads: Shelf<Upload>, previews: Shelf<Job>, active: Option<Id>, confirming: Option<Id>,
    uploading: int, running: int)

  datatype Refusal = Closed | DirectoryChanged | Retention | PreviewInProgress | ConfirmInProgress | UploadNotFound
                   | PreviewNotFound | PreviewNotReady | PreviewTerminal

  // ---- shelves -----------------------------------------------------------------

  predicate Distinct(order: seq<Id>) {
    forall i, j :: 0 <= i < j < |order| ==> order[i] != order[j]
  }

  /** The order lists the keys, each once. */
  ghost predicate Keyed<V>(s: Shelf<V>) {
    Distinct(s.order) && |s.order| == |s.items| && forall id :: id in s.order <==> id in s.items
  }

  function Put<V>(s: Shelf<V>, id: Id, v: V): Shelf<V> {
    Shelf(s.order + [id], s.items[id := v])
  }

  function Without<V>(s: Shelf<V>, i: nat): Shelf<V>
    requires i < |s.order|
  {
    Shelf(s.order[..i] + s.order[i + 1..], s.items - {s.order[i]})
  }

  /** The oldest entry that nothing holds on to. */
  function FirstLoose(order: seq<Id>, held: set<Id>): (i: nat)
    ensures i <= |order|
    ensures forall k :: 0 <= k < i ==> order[k] in held
    ensures i < |order| ==> order[i] !in held
  {
    if order == [] || order[0] !in held then 0 else
    var r := FirstLoose(order[1..], held);
    assert forall k :: 0 < k < |order| ==> order[k] == order[1..][k - 1];
    r + 1
  }

  /** Evicts oldest first until there is room for one more, or only held entries are left. */
  function MakeRoom<V>(s: Shelf<V>, held: set<Id>, extra: int): Shelf<V>
    decreases |s.order|
  {
    var i := FirstLoose(s.order, held);
    if |s.items| + extra < LIMIT || i == |s.order| then s else MakeRoom(Without(s, i), held, extra)
  }

  function Expire<V>(s: Shelf<V>, gone: set<Id>): Shelf<V> {
    Shelf(Remaining(s.order, gone), s.items - gone)
  }

  function Remaining(order: seq<Id>, gone: set<Id>): seq<Id> {
    if order == [] then [] else
    var n := |order| - 1;
    Remaining(order[..n], gone) + if order[n] in gone then [] else [order[n]]
  }

  ghost predicate Fewer<V>(s: Shelf<V>, t: Shelf<V>) {
    Keyed(t) && (forall id :: id in t.items ==> id in s.items && t.items[id] == s.items[id]) && |t.items| <= |s.items|
  }

  lemma PutIsKeyed<V>(s: Shelf<V>, id: Id, v: V)
    requires Keyed(s) && id !in s.items
    ensures Keyed(Put(s, id, v)) && |Put(s, id, v).items| == |s.items| + 1
  {}

  lemma WithoutIsKeyed<V>(s: Shelf<V>, i: nat)
    requires Keyed(s) && i < |s.order|
    ensures Fewer(s, Without(s, i)) && |Without(s, i).items| == |s.items| - 1
    ensures forall id :: id in s.items && id != s.order[i] ==> id in Without(s, i).items
  {
    WithoutIsDistinct(s.order, i);
    assert s.order[i] in s.items;
    assert (s.items - {s.order[i]}).Keys == s.items.Keys - {s.order[i]};
    assert |Without(s, i).items| == |Without(s, i).items.Keys| && |s.items| == |s.items.Keys|;
  }

  lemma WithoutIsDistinct(order: seq<Id>, i: nat)
    requires Distinct(order) && i < |order|
    ensures var left := order[..i] + order[i + 1..];
            Distinct(left) && forall id :: id in left <==> id in order && id != order[i]
  {}

  lemma {:induction false} MakeRoomIsKeyed<V>(s: Shelf<V>, held: set<Id>, extra: int)
    requires Keyed(s)
    ensures Fewer(s, MakeRoom(s, held, extra))
    ensures forall id :: id in s.items && id in held ==> id in MakeRoom(s, held, extra).items
    ensures |MakeRoom(s, held, extra).items| + extra < LIMIT
            || forall id :: id in MakeRoom(s, held, extra).items ==> id in held
    decreases |s.order|
  {
    var i := FirstLoose(s.order, held);
    if |s.items| + extra >= LIMIT {
      if i < |s.order| {
        WithoutIsKeyed(s, i);
        MakeRoomIsKeyed(Without(s, i), held, extra);
      }
    }
  }

  /** Never more is evicted than the room asked for needs. */
  lemma {:induction false} MakeRoomIsFrugal<V>(s: Shelf<V>, held: set<Id>, extra: int)
    requires Keyed(s)
    ensures |MakeRoom(s, held, extra).items| < |s.items| ==> |MakeRoom(s, held, extra).items| + extra >= LIMIT - 1
    decreases |s.order|
  {
    var n := FirstLoose(s.order, held);
    if |s.items| + extra >= LIMIT && n < |s.order| {
      WithoutIsKeyed(s, n);
      MakeRoomIsFrugal(Without(s, n), held, extra);
    }
  }

  lemma {:induction false} RemainingAre(order: seq<Id>, gone: set<Id>)
    requires Distinct(order)
    ensures Distinct(Remaining(order, gone))
    ensures forall id :: id in Remaining(order, gone) <==> id in order && id !in gone
  {
    if order != [] {
      var n := |order| - 1;
      RemainingAre(order[..n], gone);
      assert order == order[..n] + [order[n]];
      forall k | 0 <= k < |Remaining(order[..n], gone)|
        ensures Remaining(order[..n], gone)[k] != order[n]
      {
        assert Remaining(order[..n], gone)[k] in order[..n];
      }
    }
  }

  lemma ExpireIsKeyed<V>(s: Shelf<V>, gone: set<Id>)
    requires Keyed(s)
    ensures Fewer(s, Expire(s, gone))
    ensures forall id :: id in s.items && id !in gone ==> id in Expire(s, gone).items
  {
    var t := Expire(s, gone);
    RemainingAre(s.order, gone);
    OrderCounts(t.order, t.items.Keys);
    OrderCounts(s.order, s.items.Keys);
    assert t.items.Keys <= s.items.Keys;
    SubsetCounts(t.items.Keys, s.items.Keys);
  }

  lemma {:induction false} OrderCounts(order: seq<Id>, keys: set<Id>)
    requires Distinct(order) && forall id :: id in order <==> id in keys
    ensures |order| == |keys|
  {
    if order != [] {
      var n := |order| - 1;
      assert order == order[..n] + [order[n]];
      assert order[n] in keys;
      forall id
        ensures id in order[..n] <==> id in keys - {order[n]}
      {
        if id in order[..n] {
          var k :| 0 <= k < n && order[..n][k] == id;
          assert order[k] == id;
        }
      }
      OrderCounts(order[..n], keys - {order[n]});
    }
  }

  lemma SubsetCounts<T>(a: set<T>, b: set<T>)
    requires a <= b
    ensures |a| <= |b|
  {
    assert b == a + (b - a) && |b| == |a| + |b - a|;
  }

  // ---- the manager's steps ---------------------------------------------------------

  function Busy(s: State): set<Id> {
    (if s.active.Some? then {s.active.value} else {}) + (if s.confirming.Some? then {s.confirming.value} else {})
  }

  function Referenced(s: State): set<Id> {
    set id | id in s.previews.items :: s.previews.items[id].upload
  }

  function StalePreviews(s: State, now: int): set<Id> {
    set id | id in s.previews.items && s.previews.items[id].expiresAt.Some? && now >= s.previews.items[id].expiresAt.value
             && id !in Busy(s)
  }

  /** `stuck` are the uploads whose file will not go away. */
  function StaleUploads(s: State, now: int, stuck: set<Id>): set<Id> {
    set id | id in s.uploads.items && now >= s.uploads.items[id].expiresAt && id !in Referenced(s) && id !in stuck
  }

  function MakePreviewRoom(s: State): State {
    s.(previews := MakeRoom(s.previews, Busy(s), 0))
  }

  function MakeUploadRoom(s: State, stuck: set<Id>): State {
    s.(uploads := MakeRoom(s.uploads, Referenced(s) + stuck, s.uploading))
  }

  function Prune(s: State, now: int, stuck: set<Id>): State {
    var a := s.(previews := Expire(s.previews, StalePreviews(s, now)));
    var b := a.(uploads := Expire(a.uploads, StaleUploads(a, now, stuck)));
    MakeUploadRoom(MakePreviewRoom(b), stuck)
  }

  /** After pruning: whether an upload may be received, and what then is reserved. */
  function ReserveVerdict(s: State, current: bool): Option<Refusal> {
    if s.closed then Some(Closed)
    else if !current then Some(DirectoryChanged)
    else if |s.uploads.items| + s.uploading >= LIMIT then Some(Retention)
    else None
  }

  function Reserved(s: State): State {
    s.(uploading := s.uploading + 1, running := s.running + 1)
  }

  function Published(s: State, id: Id, u: Upload): State {
    s.(uploads := Put(s.uploads, id, u))
  }

  function UploadDone(s: State): State {
    s.(uploading := s.uploading - 1, running := s.running - 1)
  }

  function PreviewVerdict(s: State, upload: Id): Option<Refusal> {
    if s.closed then Some(Closed)
    else if s.active.Some? || s.confirming.Some? then Some(PreviewInProgress)
    else if upload !in s.uploads.items then Some(UploadNotFound)
    else if |MakePreviewRoom(s).previews.items| >= LIMIT then Some(Retention)
    else None
  }

  function PreviewAdded(s: State, id: Id, job: Job): State {
    s.(previews := Put(s.previews, id, job), active := Some(id), running := s.running + 1)
  }

  function PreviewStarted(s: State, id: Id, upload: Id, now: int): State
    requires upload in s.uploads.items
  {
    PreviewAdded(MakePreviewRoom(s), id, Job(upload, s.uploads.items[upload].sha, Queued, "", now, None, false))
  }

  datatype Outcome = Interrupted | Rejected | PlanFailed | Ready(plan: string)

  /** How a preview ends; a completed one keeps its upload at least as long as itself. */
  function PreviewEnded(s: State, id: Id, outcome: Outcome, now: int): State {
    if id !in s.previews.items then s.(running := s.running - 1) else
    var job := s.previews.items[id];
    var finished := if now < job.createdAt then job.createdAt else now;
    var expires := finished + RETENTION;
    var ready := !job.cancelRequested && outcome.Ready?;
    var ended := job.(expiresAt := Some(expires),
                      state := if job.cancelRequested then Cancelled else if ready then Completed else Failed,
                      plan := if ready then outcome.plan else job.plan);
    var uploads := if ready && job.upload in s.uploads.items && s.uploads.items[job.upload].expiresAt < expires
                   then s.uploads.(items := s.uploads.items[job.upload := s.uploads.items[job.upload].(expiresAt := expires)])
                   else s.uploads;
    s.(previews := s.previews.(items := s.previews.items[id := ended]), uploads := uploads,
       active := if s.active == Some(id) then None else s.active, running := s.running - 1)
  }

  function ConfirmVerdict(s: State, id: Id): Option<Refusal> {
    if s.closed then Some(Closed)
    else if s.confirming.Some? then Some(ConfirmInProgress)
    else if s.active.Some? then Some(PreviewInProgress)
    else if id !in s.previews.items then Some(PreviewNotFound)
    else
      var job := s.previews.items[id];
      if job.state != Completed || job.plan == "" then Some(PreviewNotReady)
      else if job.upload !in s.uploads.items || s.uploads.items[job.upload].sha != job.sha then Some(UploadNotFound)
      else None
  }

  function ConfirmBegun(s: State, id: Id): State {
    s.(confirming := Some(id), running := s.running + 1)
  }

  function ConfirmEnded(s: State, id: Id): State {
    s.(confirming := if s.confirming == Some(id) then None else s.confirming, running := s.running - 1)
  }

  function CancelVerdict(s: State, id: Id): Option<Refusal> {
    if id !in s.previews.items then Some(PreviewNotFound)
    else if s.previews.items[id].state in {Completed, Failed, Cancelled} then Some(PreviewTerminal)
    else None
  }

  function CancelMarked(s: State, id: Id): State
    requires id in s.previews.items
  {
    s.(previews := s.previews.(items := s.previews.items[id := s.previews.items[id].(cancelRequested := true)]))
  }

  function Emptied(s: State): State {
    s.(uploads := Shelf([], map[]), previews := Shelf([], map[]), active := None, confirming := None, cleaned := true)
  }

  // ---- every interleaving ---------------------------------------------------------------

  /** The manager and the work under way: each upload, and whether it has been published. */
  datatype World = World(m: State, receiving: map<nat, bool>, runner: Option<Id>, confirmer: Option<Id>)

  const START := World(State(false, false, Shelf([], map[]), Shelf([], map[]), None, None, 0, 0), map[], None, None)

  datatype Step =
    | Receiving(op: nat, now: int, stuck: set<Id>)
    | Publishing(op: nat, id: Id, stored: Upload)
    | Finishing(op: nat)
    | Previewing(id: Id, upload: Id, now: int, stuck: set<Id>)
    | Phasing(state: JobState)
    | Ending(outcome: Outcome, now: int, stuck: set<Id>)
    | Confirming(id: Id, now: int, stuck: set<Id>)
    | Concluding(now: int, stuck: set<Id>)
    | Pruning(now: int, stuck: set<Id>)
    | Cancelling(id: Id)
    | Closing
    | Emptying

  predicate Allowed(w: World, x: Step) {
    match x
    case Receiving(op, now, stuck) => op !in w.receiving && ReserveVerdict(Prune(w.m, now, stuck), true).None?
    case Publishing(op, id, _) => op in w.receiving && !w.receiving[op] && !w.m.closed && id !in w.m.uploads.items
    case Finishing(op) => op in w.receiving
    case Previewing(id, upload, now, stuck) =>
      var s := Prune(w.m, now, stuck);
      id !in s.previews.items && PreviewVerdict(s, upload).None?
    case Phasing(state) => w.runner.Some? && w.runner.value in w.m.previews.items && (state == Queued || state == Running)
    case Ending(_, _, _) => w.runner.Some?
    case Confirming(id, now, stuck) => ConfirmVerdict(Prune(w.m, now, stuck), id).None?
    case Concluding(_, _) => w.confirmer.Some?
    case Pruning(_, _) => true
    case Cancelling(id) => CancelVerdict(w.m, id).None?
    case Closing => true
    case Emptying => w.m.closed && w.m.running == 0
  }

  function Next(w: World, x: Step): World
    requires Allowed(w, x)
  {
    match x
    case Receiving(op, now, stuck) => w.(m := Reserved(Prune(w.m, now, stuck)), receiving := w.receiving[op := false])
    case Publishing(op, id, u) => w.(m := Published(w.m, id, u), receiving := w.receiving[op := true])
    case Finishing(op) => w.(m := UploadDone(w.m), receiving := w.receiving - {op})
    case Previewing(id, upload, now, stuck) => w.(m := PreviewStarted(Prune(w.m, now, stuck), id, upload, now), runner := Some(id))
    case Phasing(state) =>
      var items := w.m.previews.items;
      w.(m := w.m.(previews := w.m.previews.(items := items[w.runner.value := items[w.runner.value].(state := state)])))
    case Ending(outcome, now, stuck) => w.(m := Prune(PreviewEnded(w.m, w.runner.value, outcome, now), now, stuck), runner := None)
    case Confirming(id, now, stuck) => w.(m := ConfirmBegun(Prune(w.m, now, stuck), id), confirmer := Some(id))
    case Concluding(now, stuck) => w.(m := Prune(ConfirmEnded(w.m, w.confirmer.value), now, stuck), confirmer := None)
    case Pruning(now, stuck) => w.(m := Prune(w.m, now, stuck))
    case Cancelling(id) => w.(m := CancelMarked(w.m, id))
    case Closing => w.(m := w.m.(closed := true))
    case Emptying => w.(m := Emptied(w.m))
  }

  function PublishedOps(receiving: map<nat, bool>): set<nat> {
    set op | op in receiving && receiving[op]
  }

  ghost predicate Stocked(s: State) {
    var keyed := Keyed(s.uploads) && Keyed(s.previews) && |s.previews.items| <= LIMIT;
    var backed := forall id :: id in s.previews.items ==> s.previews.items[id].upload in s.uploads.items;
    var busy := !(s.active.Some? && s.confirming.Some?) && Busy(s) <= s.previews.items.Keys;
    keyed && backed && busy
  }

  /** The counters stand for the work under way, and what is stored and what is promised fits. */
  ghost predicate Accounted(w: World) {
    && w.m.active == w.runner && w.m.confirming == w.confirmer
    && w.m.uploading == |w.receiving|
    && w.m.running == w.m.uploading + (if w.m.active.Some? then 1 else 0) + (if w.m.confirming.Some? then 1 else 0)
    && |w.m.uploads.items| + (|w.receiving| - |PublishedOps(w.receiving)|) <= LIMIT
    && (w.m.cleaned ==> w.m.closed && w.m.running == 0 && w.m.uploads.items == map[] && w.m.previews.items == map[])
  }

  ghost predicate Sound(w: World) {
    Stocked(w.m) && Accounted(w)
  }

  /** What no step may touch, and what may only shrink. */
  ghost predicate Slimmer(s: State, t: State) {
    && Fewer(s.uploads, t.uploads) && Fewer(s.previews, t.previews)
    && t.closed == s.closed && t.cleaned == s.cleaned && t.active == s.active && t.confirming == s.confirming
    && t.uploading == s.uploading && t.running == s.running
  }

  lemma PreviewRoomKeeps(s: State)
    requires Stocked(s)
    ensures Stocked(MakePreviewRoom(s)) && Slimmer(s, MakePreviewRoom(s))
    ensures |MakePreviewRoom(s).previews.items| < LIMIT
  {
    var t := MakePreviewRoom(s);
    MakeRoomIsKeyed(s.previews, Busy(s), 0);
    assert |t.previews.items| == |t.previews.items.Keys|;
    if |t.previews.items| >= LIMIT {
      assert t.previews.items.Keys <= Busy(s);
      SubsetCounts(t.previews.items.Keys, Busy(s));
    }
    assert Keyed(s.uploads);
  }

  lemma UploadRoomKeeps(s: State, stuck: set<Id>)
    requires Stocked(s)
    ensures Stocked(MakeUploadRoom(s, stuck)) && Slimmer(s, MakeUploadRoom(s, stuck))
  {
    MakeRoomIsKeyed(s.uploads, Referenced(s) + stuck, s.uploading);
  }

  lemma PreviewExpiryKeeps(s: State, now: int)
    requires Stocked(s)
    ensures var t := s.(previews := Expire(s.previews, StalePreviews(s, now))); Stocked(t) && Slimmer(s, t)
  {
    ExpireIsKeyed(s.previews, StalePreviews(s, now));
  }

  lemma UploadExpiryKeeps(s: State, now: int, stuck: set<Id>)
    requires Stocked(s)
    ensures var t := s.(uploads := Expire(s.uploads, StaleUploads(s, now, stuck))); Stocked(t) && Slimmer(s, t)
  {
    ExpireIsKeyed(s.uploads, StaleUploads(s, now, stuck));
    forall id | id in s.previews.items
      ensures s.previews.items[id].upload in Referenced(s)
    {}
  }

  lemma StillSlimmer(s: State, t: State, u: State)
    requires Slimmer(s, t) && Slimmer(t, u)
    ensures Slimmer(s, u)
  {}

  /** Pruning keeps every promise: it only takes what nothing refers to. */
  lemma PruneKeeps(s: State, now: int, stuck: set<Id>)
    requires Stocked(s)
    ensures Stocked(Prune(s, now, stuck)) && Slimmer(s, Prune(s, now, stuck))
    ensures |Prune(s, now, stuck).previews.items| < LIMIT
  {
    var a := s.(previews := Expire(s.previews, StalePreviews(s, now)));
    var b := a.(uploads := Expire(a.uploads, StaleUploads(a, now, stuck)));
    var c := MakePreviewRoom(b);
    PreviewExpiryKeeps(s, now);
    UploadExpiryKeeps(a, now, stuck);
    StillSlimmer(s, a, b);
    PreviewRoomKeeps(b);
    StillSlimmer(s, b, c);
    UploadRoomKeeps(c, stuck);
    StillSlimmer(s, c, MakeUploadRoom(c, stuck));
  }

  /** There is always room for a preview: only one can be held, so one of five can go. */
  lemma PreviewsNeverLackRoom(s: State, upload: Id)
    requires Stocked(s)
    ensures PreviewVerdict(s, upload) != Some(Retention)
  {
    PreviewRoomKeeps(s);
  }

  function HeldIn<V>(s: Shelf<V>, held: set<Id>): set<Id> {
    set id | id in s.items && id in held
  }

  /** Room is made exactly when the entries held, with what is promised, leave some. */
  lemma RoomExactly<V>(s: Shelf<V>, held: set<Id>, extra: int)
    requires Keyed(s)
    ensures |MakeRoom(s, held, extra).items| + extra < LIMIT <==> |HeldIn(s, held)| + extra < LIMIT
  {
    var t := MakeRoom(s, held, extra);
    MakeRoomIsKeyed(s, held, extra);
    assert |t.items| == |t.items.Keys|;
    SubsetCounts(HeldIn(s, held), t.items.Keys);
    if |t.items| + extra >= LIMIT {
      assert t.items.Keys <= HeldIn(s, held);
      SubsetCounts(t.items.Keys, HeldIn(s, held));
    }
  }

  /** An upload is refused for want of room exactly when the uploads that cannot go, and those under way, fill it. */
  lemma UploadRoomExactly(s: State, stuck: set<Id>)
    requires Stocked(s)
    ensures var t := MakeUploadRoom(s, stuck);
            |t.uploads.items| + t.uploading >= LIMIT <==> |HeldIn(s.uploads, Referenced(s) + stuck)| + s.uploading >= LIMIT
  {
    RoomExactly(s.uploads, Referenced(s) + stuck, s.uploading);
  }

  /** Asking again changes nothing. */
  lemma RoomIsIdempotent<V>(s: Shelf<V>, held: set<Id>, extra: int)
    requires Keyed(s)
    ensures MakeRoom(MakeRoom(s, held, extra), held, extra) == MakeRoom(s, held, extra)
  {
    var t := MakeRoom(s, held, extra);
    MakeRoomIsKeyed(s, held, extra);
    var i := FirstLoose(t.order, held);
    assert i < |t.order| ==> t.order[i] in t.order;
  }

  lemma SlimmerIsAccounted(w: World, t: State)
    requires Accounted(w) && Slimmer(w.m, t)
    ensures Accounted(w.(m := t))
  {}

  lemma OpsGrow(receiving: map<nat, bool>, op: nat)
    requires op !in receiving
    ensures |receiving[op := false]| == |receiving| + 1
    ensures PublishedOps(receiving[op := false]) == PublishedOps(receiving)
  {}

  lemma OpsPublish(receiving: map<nat, bool>, op: nat)
    requires op in receiving && !receiving[op]
    ensures |receiving[op := true]| == |receiving|
    ensures |PublishedOps(receiving[op := true])| == |PublishedOps(receiving)| + 1
  {
    var more := receiving[op := true];
    assert more.Keys == receiving.Keys && |more| == |more.Keys| && |receiving| == |receiving.Keys|;
    assert PublishedOps(more) == PublishedOps(receiving) + {op};
  }

  lemma OpsShrink(receiving: map<nat, bool>, op: nat)
    requires op in receiving
    ensures |receiving - {op}| == |receiving| - 1
    ensures |PublishedOps(receiving - {op})| == |PublishedOps(receiving)| - (if receiving[op] then 1 else 0)
  {
    var less := receiving - {op};
    assert less.Keys == receiving.Keys - {op} && |less| == |less.Keys| && |receiving| == |receiving.Keys|;
    assert PublishedOps(less) == PublishedOps(receiving) - {op};
  }

  lemma PrunedIsSound(w: World, now: int, stuck: set<Id>)
    requires Sound(w)
    ensures Sound(w.(m := Prune(w.m, now, stuck)))
  {
    PruneKeeps(w.m, now, stuck);
    SlimmerIsAccounted(w, Prune(w.m, now, stuck));
  }

  lemma ReserveIsSound(w: World, op: nat)
    requires Sound(w) && op !in w.receiving && ReserveVerdict(w.m, true).None?
    ensures Sound(w.(m := Reserved(w.m), receiving := w.receiving[op := false]))
  {
    OpsGrow(w.receiving, op);
  }

  lemma PublishedIsStocked(s: State, id: Id, u: Upload)
    requires Stocked(s) && id !in s.uploads.items
    ensures Stocked(Published(s, id, u))
  {
    PutIsKeyed(s.uploads, id, u);
  }

  lemma PublishIsSound(w: World, op: nat, id: Id, u: Upload)
    requires Sound(w) && op in w.receiving && !w.receiving[op] && !w.m.closed && id !in w.m.uploads.items
    ensures Sound(w.(m := Published(w.m, id, u), receiving := w.receiving[op := true]))
  {
    PublishedIsStocked(w.m, id, u);
    PutIsKeyed(w.m.uploads, id, u);
    OpsPublish(w.receiving, op);
  }

  lemma FinishIsSound(w: World, op: nat)
    requires Sound(w) && op in w.receiving
    ensures Sound(w.(m := UploadDone(w.m), receiving := w.receiving - {op}))
  {
    OpsShrink(w.receiving, op);
  }

  lemma PreviewStartIsSound(w: World, id: Id, upload: Id, now: int)
    requires Sound(w) && id !in w.m.previews.items && PreviewVerdict(w.m, upload).None?
    ensures Sound(w.(m := PreviewStarted(w.m, id, upload, now), runner := Some(id)))
  {
    var t := MakePreviewRoom(w.m);
    PreviewRoomKeeps(w.m);
    SlimmerIsAccounted(w, t);
    AddedPreviewIsStocked(t, id, Job(upload, w.m.uploads.items[upload].sha, Queued, "", now, None, false));
  }

  lemma AddedPreviewIsStocked(s: State, id: Id, job: Job)
    requires Stocked(s) && |s.previews.items| < LIMIT && id !in s.previews.items && job.upload in s.uploads.items
    requires s.active.None? && s.confirming.None?
    ensures Stocked(PreviewAdded(s, id, job))
  {
    PutIsKeyed(s.previews, id, job);
  }

  lemma SameKeys<V>(s: Shelf<V>, id: Id, v: V)
    requires Keyed(s) && id in s.items
    ensures Keyed(s.(items := s.items[id := v])) && |s.items[id := v]| == |s.items| && s.items[id := v].Keys == s.items.Keys
  {}

  /** Rewriting a preview in place changes nothing that is counted. */
  lemma RewrittenPreviewIsSound(w: World, id: Id, job: Job)
    requires Sound(w) && id in w.m.previews.items && job.upload == w.m.previews.items[id].upload
    ensures Sound(w.(m := w.m.(previews := w.m.previews.(items := w.m.previews.items[id := job]))))
  {
    RewrittenPreviewIsStocked(w.m, id, job);
    SameKeys(w.m.previews, id, job);
  }

  lemma RewrittenPreviewIsStocked(s: State, id: Id, job: Job)
    requires Stocked(s) && id in s.previews.items && job.upload == s.previews.items[id].upload
    ensures Stocked(s.(previews := s.previews.(items := s.previews.items[id := job])))
  {
    SameKeys(s.previews, id, job);
  }

  lemma PreviewEndIsStocked(s: State, id: Id, outcome: Outcome, now: int)
    requires Stocked(s) && s.active == Some(id)
    ensures var t := PreviewEnded(s, id, outcome, now);
            && Stocked(t) && |t.uploads.items| == |s.uploads.items| && t.active.None? && t.running == s.running - 1
            && t.confirming == s.confirming && t.closed == s.closed && t.cleaned == s.cleaned && t.uploading == s.uploading
  {
    var t := PreviewEnded(s, id, outcome, now);
    var upload := s.previews.items[id].upload;
    SameKeys(s.previews, id, t.previews.items[id]);
    SameKeys(s.uploads, upload, t.uploads.items[upload]);
    assert t.uploads == s.uploads.(items := s.uploads.items[upload := t.uploads.items[upload]]);
  }

  lemma PreviewEndIsSound(w: World, outcome: Outcome, now: int)
    requires Sound(w) && w.runner.Some?
    ensures Sound(w.(m := PreviewEnded(w.m, w.runner.value, outcome, now), runner := None))
  {
    PreviewEndIsStocked(w.m, w.runner.value, outcome, now);
  }

  lemma ConfirmationIsSound(w: World, id: Id)
    requires Sound(w) && ConfirmVerdict(w.m, id).None?
    ensures Sound(w.(m := ConfirmBegun(w.m, id), confirmer := Some(id)))
  {}

  lemma ConclusionIsStocked(s: State, id: Id)
    requires Stocked(s)
    ensures Stocked(ConfirmEnded(s, id))
  {}

  lemma ConclusionIsSound(w: World)
    requires Sound(w) && w.confirmer.Some?
    ensures Sound(w.(m := ConfirmEnded(w.m, w.confirmer.value), confirmer := None))
  {
    ConclusionIsStocked(w.m, w.confirmer.value);
  }

  lemma ClosingIsSound(w: World)
    requires Sound(w)
    ensures Sound(w.(m := w.m.(closed := true)))
  {}

  lemma EmptiedIsStocked(s: State)
    ensures Stocked(Emptied(s))
  {}

  lemma EmptyingIsSound(w: World)
    requires Sound(w) && w.m.closed && w.m.running == 0
    ensures Sound(w.(m := Emptied(w.m)))
  {}

  /** Steps that begin with a pruning. */
  lemma PruningStepIsSound(w: World, x: Step)
    requires Sound(w) && Allowed(w, x) && (x.Receiving? || x.Previewing? || x.Confirming? || x.Pruning?)
    ensures Sound(Next(w, x))
  {
    var v := w.(m := Prune(w.m, x.now, x.stuck));
    PrunedIsSound(w, x.now, x.stuck);
    if x.Receiving? {
      ReserveIsSound(v, x.op);
    } else if x.Previewing? {
      PreviewStartIsSound(v, x.id, x.upload, x.now);
    } else if x.Confirming? {
      ConfirmationIsSound(v, x.id);
    }
  }

  lemma EndingStepIsSound(w: World, x: Step)
    requires Sound(w) && Allowed(w, x) && (x.Ending? || x.Concluding?)
    ensures Sound(Next(w, x))
  {
    if x.Ending? {
      PreviewEndIsSound(w, x.outcome, x.now);
      PrunedIsSound(w.(m := PreviewEnded(w.m, w.runner.value, x.outcome, x.now), runner := None), x.now, x.stuck);
    } else {
      ConclusionIsSound(w);
      PrunedIsSound(w.(m := ConfirmEnded(w.m, w.confirmer.value), confirmer := None), x.now, x.stuck);
    }
  }

  lemma NextIsSound(w: World, x: Step)
    requires Sound(w) && Allowed(w, x)
    ensures Sound(Next(w, x))
  {
    match x
    case Publishing(op, id, u) => { PublishIsSound(w, op, id, u); }
    case Finishing(op) => { FinishIsSound(w, op); }
    case Phasing(state) => { RewrittenPreviewIsSound(w, w.runner.value, w.m.previews.items[w.runner.value].(state := state)); }
    case Ending(_, _, _) => { EndingStepIsSound(w, x); }
    case Concluding(_, _) => { EndingStepIsSound(w, x); }
    case Cancelling(id) => { RewrittenPreviewIsSound(w, id, w.m.previews.items[id].(cancelRequested := true)); }
    case Closing => { ClosingIsSound(w); }
    case Emptying => { EmptyingIsSound(w); }
    case _ => { PruningStepIsSound(w, x); }
  }

  predicate Runs(w: World, steps: seq<Step>, v: World)
    decreases |steps|
  {
    if steps == [] then w == v else Allowed(w, steps[0]) && Runs(Next(w, steps[0]), steps[1..], v)
  }

  lemma {:induction false} EveryInterleavingIsSound(w: World, steps: seq<Step>, v: World)
    requires Sound(w) && Runs(w, steps, v)
    ensures Sound(v)
    decreases |steps|
  {
    if steps != [] {
      NextIsSound(w, steps[0]);
      EveryInterleavingIsSound(Next(w, steps[0]), steps[1..], v);
    }
  }

  /** The store stays within five, whole and referenced, through every interleaving. */
  lemma StoreStaysWithinLimits(steps: seq<Step>, w: World)
    requires Runs(START, steps, w)
    ensures |w.m.uploads.items| <= LIMIT && |w.m.previews.items| <= LIMIT
    ensures Keyed(w.m.uploads) && Keyed(w.m.previews)
    ensures forall id :: id in w.m.previews.items ==> w.m.previews.items[id].upload in w.m.uploads.items
    ensures !(w.m.active.Some? && w.m.confirming.Some?)
    ensures w.m.running == w.m.uploading + (if w.m.active.Some? then 1 else 0) + (if w.m.confirming.Some? then 1 else 0)
  {
    EveryInterleavingIsSound(START, steps, w);
    SubsetCounts(PublishedOps(w.receiving), w.receiving.Keys);
    assert |w.receiving| == |w.receiving.Keys|;
  }

  /** The preview under confirmation, and the upload it is of. */
  ghost predicate Holds(w: World, id: Id, upload: Id) {
    && w.confirmer == Some(id) && id in w.m.previews.items && w.m.previews.items[id].upload == upload
    && upload in w.m.uploads.items
  }

  lemma SlimmerHolds(w: World, t: State, id: Id, upload: Id)
    requires Sound(w) && Holds(w, id, upload) && Stocked(t) && Slimmer(w.m, t)
    ensures Holds(w.(m := t), id, upload)
  {
    assert id in Busy(t);
  }

  lemma PrunedHolds(w: World, now: int, stuck: set<Id>, id: Id, upload: Id)
    requires Sound(w) && Holds(w, id, upload)
    ensures Holds(w.(m := Prune(w.m, now, stuck)), id, upload)
  {
    PruneKeeps(w.m, now, stuck);
    SlimmerHolds(w, Prune(w.m, now, stuck), id, upload);
  }

  /** A confirmation keeps its preview and its upload until it concludes. */
  lemma ConfirmedArtefactsStay(w: World, x: Step, id: Id, upload: Id)
    requires Sound(w) && Allowed(w, x) && Holds(w, id, upload) && !x.Concluding?
    ensures Holds(Next(w, x), id, upload)
  {
    match x
    case Receiving(_, now, stuck) => { PrunedHolds(w, now, stuck, id, upload); }
    case Previewing(_, _, now, stuck) => { PrunedHolds(w, now, stuck, id, upload); }
    case Confirming(_, now, stuck) => { PrunedHolds(w, now, stuck, id, upload); }
    case Pruning(now, stuck) => { PrunedHolds(w, now, stuck, id, upload); }
    case _ => {}
  }
}
