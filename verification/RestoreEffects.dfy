/**
 What the restore manager's steps come to, said of the previews and uploads themselves: which
 preview may be confirmed, what a preview ends as, and what pruning takes and in which order.
 */
module RestoreEffects {
  import opened Options
  import opened Restores

  // ---- confirmations ---------------------------------------------------------------

  /** Completed with a plan, and its upload stored under the digest the preview was made of. */
  predicate ReadyToConfirm(s: State, id: Id) {
    && id in s.previews.items
    && var job := s.previews.items[id];
       && job.state == Completed && |job.plan| > 0
       && job.upload in s.uploads.items && s.uploads.items[job.upload].sha == job.sha
  }

  /** A confirmation is granted exactly for such a preview, by an open manager with nothing else under way. */
  lemma ConfirmationsExactly(s: State, id: Id)
    ensures ConfirmVerdict(s, id).None? <==> !s.closed && s.active.None? && s.confirming.None? && ReadyToConfirm(s, id)
  {}

  /** Why it is refused: the first of the reasons that hold, in this order. */
  lemma RefusalsExactly(s: State, id: Id)
    ensures ConfirmVerdict(s, id) == Some(Closed) <==> s.closed
    ensures ConfirmVerdict(s, id) == Some(ConfirmInProgress) <==> !s.closed && s.confirming.Some?
    ensures !s.closed && s.confirming.None? ==>
              && (ConfirmVerdict(s, id) == Some(PreviewInProgress) <==> s.active.Some?)
              && (s.active.None? ==>
                    && (ConfirmVerdict(s, id) == Some(PreviewNotFound) <==> id !in s.previews.items)
                    && (id in s.previews.items ==>
                          (ConfirmVerdict(s, id) == Some(PreviewNotReady) <==>
                           s.previews.items[id].state != Completed || |s.previews.items[id].plan| == 0)))
  {}

  /** What is under confirmation is fit for it. */
  predicate Warranted(w: World) {
    w.confirmer.Some? ==> ReadyToConfirm(w.m, w.confirmer.value)
  }

  lemma SlimmerStaysReady(s: State, t: State, id: Id)
    requires Stocked(t) && Slimmer(s, t) && ReadyToConfirm(s, id) && id in Busy(t)
    ensures ReadyToConfirm(t, id)
  {}

  lemma PrunedStaysReady(s: State, now: int, stuck: set<Id>, id: Id)
    requires Stocked(s) && ReadyToConfirm(s, id) && id in Busy(s)
    ensures ReadyToConfirm(Prune(s, now, stuck), id)
  {
    PruneKeeps(s, now, stuck);
    SlimmerStaysReady(s, Prune(s, now, stuck), id);
  }

  lemma NextIsWarranted(w: World, x: Step)
    requires Sound(w) && Warranted(w) && Allowed(w, x)
    ensures Warranted(Next(w, x))
  {
    match x
    case Receiving(_, now, stuck) => { PrunedIsWarranted(w, now, stuck); }
    case Pruning(now, stuck) => { PrunedIsWarranted(w, now, stuck); }
    case Previewing(id, upload, now, stuck) => { PruneKeeps(w.m, now, stuck); }
    case Confirming(id, now, stuck) => { ConfirmationsExactly(Prune(w.m, now, stuck), id); }
    case Ending(_, _, _) => {}
    case _ => {}
  }

  lemma PrunedIsWarranted(w: World, now: int, stuck: set<Id>)
    requires Sound(w) && Warranted(w)
    ensures Warranted(w.(m := Prune(w.m, now, stuck)))
  {
    if w.confirmer.Some? {
      PrunedStaysReady(w.m, now, stuck, w.confirmer.value);
    }
  }

  lemma {:induction false} EveryRunIsWarranted(w: World, steps: seq<Step>, v: World)
    requires Sound(w) && Warranted(w) && Runs(w, steps, v)
    ensures Warranted(v)
    decreases |steps|
  {
    if steps != [] {
      NextIsSound(w, steps[0]);
      NextIsWarranted(w, steps[0]);
      EveryRunIsWarranted(Next(w, steps[0]), steps[1..], v);
    }
  }

  /** Whatever is interleaved with it, what is being confirmed is a completed preview of the very bytes stored. */
  lemma OnlyCompletedPreviewsAreConfirmed(steps: seq<Step>, w: World, id: Id)
    requires Runs(START, steps, w) && w.confirmer == Some(id)
    ensures ReadyToConfirm(w.m, id) && w.m.confirming == Some(id) && w.m.active.None?
  {
    EveryRunIsWarranted(START, steps, w);
    EveryInterleavingIsSound(START, steps, w);
  }

  // ---- uploads and previews ----------------------------------------------------------

  /** Room is asked for once the directory is found to be the one opened; only then is a slot taken. */
  lemma ReservationsExactly(s: State, current: bool)
    ensures ReserveVerdict(s, current).None? <==> !s.closed && current && |s.uploads.items| + s.uploading < 5
    ensures ReserveVerdict(s, current) == Some(Closed) <==> s.closed
    ensures ReserveVerdict(s, current) == Some(DirectoryChanged) <==> !s.closed && !current
  {}

  /** A preview starts of an upload that is stored, with nothing else under way; room there always is. */
  lemma PreviewsExactly(s: State, upload: Id)
    requires Stocked(s)
    ensures PreviewVerdict(s, upload).None? <==> !s.closed && s.active.None? && s.confirming.None? && upload in s.uploads.items
    ensures PreviewVerdict(s, upload) == Some(Closed) <==> s.closed
    ensures PreviewVerdict(s, upload) == Some(PreviewInProgress) <==> !s.closed && (s.active.Some? || s.confirming.Some?)
  {
    PreviewsNeverLackRoom(s, upload);
  }

  /** It waits, of the digest its upload has now, and nothing is promised of it yet. */
  lemma StartingDoes(s: State, id: Id, upload: Id, now: int)
    requires Stocked(s) && id !in s.previews.items && PreviewVerdict(s, upload).None?
    ensures var t := PreviewStarted(s, id, upload, now);
            && t.active == Some(id) && t.confirming == s.confirming && t.running == s.running + 1 && t.uploads == s.uploads
            && id in t.previews.items && t.previews.order != [] && t.previews.order[|t.previews.order| - 1] == id
            && t.previews.items[id] == Job(upload, s.uploads.items[upload].sha, Queued, "", now, None, false)
            && forall other :: other in t.previews.items && other != id ==>
                                 other in s.previews.items && t.previews.items[other] == s.previews.items[other]
  {
    PreviewRoomKeeps(s);
  }

  /** A request to cancel wins, then the failure; a preview lives a day from its end, which is not before its start. */
  lemma EndingDoes(s: State, id: Id, outcome: Outcome, now: int)
    requires id in s.previews.items
    ensures var t := PreviewEnded(s, id, outcome, now);
            var job, ended := s.previews.items[id], t.previews.items[id];
            && (ended.state == Cancelled <==> job.cancelRequested)
            && (ended.state == Completed <==> !job.cancelRequested && outcome.Ready?)
            && (ended.state == Failed <==> !job.cancelRequested && !outcome.Ready?)
            && ended.plan == (if ended.state == Completed then outcome.plan else job.plan)
            && ended.expiresAt == Some((if now >= job.createdAt then now else job.createdAt) + 24 * 60 * 60 * 1000)
            && ended.upload == job.upload && ended.sha == job.sha && ended.createdAt == job.createdAt && ended.cancelRequested == job.cancelRequested
            && t.previews.order == s.previews.order && t.previews.items == s.previews.items[id := ended]
            && t.running == s.running - 1 && (s.active == Some(id) ==> t.active.None?)
  {}

  /** Of a preview that is gone only the slot is left to give back, and emptying leaves nothing. */
  lemma NothingElseEnds(s: State, id: Id, outcome: Outcome, now: int)
    ensures id !in s.previews.items ==> PreviewEnded(s, id, outcome, now) == s.(running := s.running - 1)
    ensures var t := Emptied(s);
            && t.uploads.items == map[] && t.uploads.order == [] && t.previews.items == map[] && t.previews.order == []
            && t.active.None? && t.confirming.None? && t.cleaned && t.closed == s.closed && t.uploading == s.uploading && t.running == s.running
  {}

  /** A completed preview's upload lives at least as long as the preview; no other upload is touched. */
  lemma CompletionProlongs(s: State, id: Id, outcome: Outcome, now: int)
    requires id in s.previews.items
    ensures var t, upload := PreviewEnded(s, id, outcome, now), s.previews.items[id].upload;
            && t.uploads.items.Keys == s.uploads.items.Keys && t.uploads.order == s.uploads.order
            && (forall u :: u in s.uploads.items && u != upload ==> t.uploads.items[u] == s.uploads.items[u])
            && (upload in s.uploads.items ==>
                  && t.uploads.items[upload].sha == s.uploads.items[upload].sha
                  && t.uploads.items[upload].expiresAt >= s.uploads.items[upload].expiresAt
                  && (t.previews.items[id].state == Completed ==>
                        t.uploads.items[upload].expiresAt >= t.previews.items[id].expiresAt.value)
                  && (t.previews.items[id].state != Completed ==> t.uploads == s.uploads))
  {}

  /** A preview can be cancelled until it has ended, and then only asks for it. */
  lemma CancellationsExactly(s: State, id: Id)
    ensures CancelVerdict(s, id).None? <==>
            id in s.previews.items && (s.previews.items[id].state == Queued || s.previews.items[id].state == Running)
    ensures CancelVerdict(s, id) == Some(PreviewNotFound) <==> id !in s.previews.items
    ensures CancelVerdict(s, id).None? ==>
              var t := CancelMarked(s, id);
              t.previews.items[id].cancelRequested && t.previews.items[id] == s.previews.items[id].(cancelRequested := true)
  {}

  // ---- pruning -----------------------------------------------------------------------

  /** Past its day, and neither running nor being confirmed. */
  predicate Outlived(s: State, id: Id, now: int)
    requires id in s.previews.items
  {
    s.previews.items[id].expiresAt.Some? && s.previews.items[id].expiresAt.value <= now
    && s.active != Some(id) && s.confirming != Some(id)
  }

  /** The two halves of pruning, for previews and for uploads. */
  lemma PrunedShelves(s: State, now: int, stuck: set<Id>) returns (held: set<Id>)
    ensures Prune(s, now, stuck).previews == MakeRoom(Expire(s.previews, StalePreviews(s, now)), Busy(s), 0)
    ensures var a := s.(previews := Expire(s.previews, StalePreviews(s, now)));
            Prune(s, now, stuck).uploads == MakeRoom(Expire(s.uploads, StaleUploads(a, now, stuck)), held, s.uploading)
  {
    var a := s.(previews := Expire(s.previews, StalePreviews(s, now)));
    var b := a.(uploads := Expire(a.uploads, StaleUploads(a, now, stuck)));
    held := Referenced(MakePreviewRoom(b)) + stuck;
  }

  /** Expired previews go; of the rest one goes only while five are left, and then down to four. */
  lemma PruningTakesPreviews(s: State, now: int, stuck: set<Id>)
    requires Stocked(s)
    ensures var t := Prune(s, now, stuck);
            && (forall id :: id in t.previews.items ==>
                               id in s.previews.items && t.previews.items[id] == s.previews.items[id] && !Outlived(s, id, now))
            && (forall id :: id in s.previews.items && id !in t.previews.items && !Outlived(s, id, now) ==>
                               |t.previews.items| == 4 && s.active != Some(id) && s.confirming != Some(id))
  {
    var gone := StalePreviews(s, now);
    var _ := PrunedShelves(s, now, stuck);
    PruneKeeps(s, now, stuck);
    ExpireIsKeyed(s.previews, gone);
    RoomTakes(Expire(s.previews, gone), Busy(s), 0);
    PreviewsTaken(s, now, gone, Prune(s, now, stuck).previews.items);
  }

  lemma PreviewsTaken(s: State, now: int, gone: set<Id>, left: map<Id, Job>)
    requires gone == StalePreviews(s, now) && |left| < LIMIT
    requires forall id :: id in left ==> id in s.previews.items - gone && left[id] == (s.previews.items - gone)[id]
    requires forall id :: id in s.previews.items - gone && id !in left ==> id !in Busy(s) && |left| >= 4
    ensures forall id :: id in left ==> id in s.previews.items && left[id] == s.previews.items[id] && !Outlived(s, id, now)
    ensures forall id :: id in s.previews.items && id !in left && !Outlived(s, id, now) ==>
                           |left| == 4 && s.active != Some(id) && s.confirming != Some(id)
  {
    assert forall id :: id in s.previews.items ==> (id in gone <==> Outlived(s, id, now));
    assert forall id :: id in s.previews.items ==> (id in Busy(s) <==> s.active == Some(id) || s.confirming == Some(id));
  }

  /** Making room takes nothing held, and nothing at all unless it is needed. */
  lemma RoomTakes<V>(s: Shelf<V>, held: set<Id>, extra: int)
    requires Keyed(s)
    ensures var t := MakeRoom(s, held, extra);
            && (forall id :: id in t.items ==> id in s.items && t.items[id] == s.items[id])
            && (forall id :: id in s.items && id !in t.items ==> id !in held && |t.items| + extra >= 4)
  {
    var t := MakeRoom(s, held, extra);
    MakeRoomIsKeyed(s, held, extra);
    MakeRoomIsFrugal(s, held, extra);
    forall id | id in s.items && id !in t.items
      ensures |t.items| + extra >= 4
    {
      FewerIfOneIsGone(s, t, id);
    }
  }

  lemma FewerIfOneIsGone<V>(s: Shelf<V>, t: Shelf<V>, id: Id)
    requires Fewer(s, t) && id in s.items && id !in t.items
    ensures |t.items| < |s.items|
  {
    assert t.items.Keys <= s.items.Keys - {id};
    SubsetCounts(t.items.Keys, s.items.Keys - {id});
    assert |t.items| == |t.items.Keys| && |s.items| == |s.items.Keys|;
  }

  /** An upload goes only if no preview is left of it and its file goes; then if it has expired, or for the room of one more. */
  lemma PruningTakesUploads(s: State, now: int, stuck: set<Id>)
    requires Stocked(s)
    ensures var t := Prune(s, now, stuck);
            && (forall id :: id in t.uploads.items ==> id in s.uploads.items && t.uploads.items[id] == s.uploads.items[id])
            && (forall id :: id in s.uploads.items && id !in t.uploads.items ==>
                               && id !in stuck && (forall p :: p in t.previews.items ==> t.previews.items[p].upload != id)
                               && (s.uploads.items[id].expiresAt <= now || |t.uploads.items| + t.uploading >= 4))
  {
    var a := s.(previews := Expire(s.previews, StalePreviews(s, now)));
    var b := a.(uploads := Expire(a.uploads, StaleUploads(a, now, stuck)));
    PreviewExpiryKeeps(s, now);
    UploadExpiryKeeps(a, now, stuck);
    PreviewRoomKeeps(b);
    PruneKeeps(s, now, stuck);
    UploadsTaken(a, MakePreviewRoom(b), Prune(s, now, stuck), now, stuck);
  }

  lemma UploadsTaken(a: State, c: State, t: State, now: int, stuck: set<Id>)
    requires Keyed(c.uploads) && c.uploads == Expire(a.uploads, StaleUploads(a, now, stuck)) && t == MakeUploadRoom(c, stuck)
    requires forall p :: p in c.previews.items ==> p in a.previews.items && c.previews.items[p] == a.previews.items[p]
    ensures forall id :: id in t.uploads.items ==> id in a.uploads.items && t.uploads.items[id] == a.uploads.items[id]
    ensures forall id :: id in a.uploads.items && id !in t.uploads.items ==>
                           && id !in stuck && (forall p :: p in t.previews.items ==> t.previews.items[p].upload != id)
                           && (a.uploads.items[id].expiresAt <= now || |t.uploads.items| + t.uploading >= 4)
  {
    RoomTakes(c.uploads, Referenced(c) + stuck, c.uploading);
    assert forall p :: p in t.previews.items ==> t.previews.items[p].upload in Referenced(c) && t.previews.items[p].upload in Referenced(a);
  }

  /** An expired upload that nothing refers to, and whose file goes, is gone. */
  lemma ExpiredUploadsGo(s: State, now: int, stuck: set<Id>, id: Id)
    requires Stocked(s) && id in s.uploads.items && s.uploads.items[id].expiresAt <= now && id !in stuck
    requires forall p :: p in s.previews.items ==> s.previews.items[p].upload != id || Outlived(s, p, now)
    ensures id !in Prune(s, now, stuck).uploads.items
  {
    var a := s.(previews := Expire(s.previews, StalePreviews(s, now)));
    var gone := StaleUploads(a, now, stuck);
    IsStale(s, now, stuck, id, a);
    ExpireIsKeyed(s.uploads, gone);
    var held := PrunedShelves(s, now, stuck);
    RoomTakes(Expire(s.uploads, gone), held, s.uploading);
  }

  lemma IsStale(s: State, now: int, stuck: set<Id>, id: Id, a: State)
    requires a == s.(previews := Expire(s.previews, StalePreviews(s, now)))
    requires id in s.uploads.items && s.uploads.items[id].expiresAt <= now && id !in stuck
    requires forall p :: p in s.previews.items ==> s.previews.items[p].upload != id || Outlived(s, p, now)
    ensures id in StaleUploads(a, now, stuck)
  {
    assert forall p :: p in a.previews.items ==> p in s.previews.items && !Outlived(s, p, now);
  }

  // ---- oldest first ------------------------------------------------------------------

  predicate Before(order: seq<Id>, a: Id, b: Id) {
    exists i, j :: 0 <= i < j < |order| && order[i] == a && order[j] == b
  }

  /** What is left stands in the order it stood in. */
  ghost predicate InOrder(s: seq<Id>, t: seq<Id>) {
    forall a, b :: Before(t, a, b) ==> Before(s, a, b)
  }

  lemma {:induction false} RemainingInOrder(order: seq<Id>, gone: set<Id>)
    ensures InOrder(order, Remaining(order, gone)) && forall id :: id in Remaining(order, gone) ==> id in order
  {
    if order != [] {
      var n := |order| - 1;
      var left := Remaining(order[..n], gone);
      RemainingInOrder(order[..n], gone);
      forall a, b | Before(Remaining(order, gone), a, b)
        ensures Before(order, a, b)
      {
        var i, j :| 0 <= i < j < |Remaining(order, gone)| && Remaining(order, gone)[i] == a && Remaining(order, gone)[j] == b;
        if j < |left| {
          assert Before(left, a, b);
          var k, l :| 0 <= k < l < n && order[..n][k] == a && order[..n][l] == b;
          assert order[k] == a && order[l] == b;
        } else {
          assert left[i] == a && a in order[..n];
          var k :| 0 <= k < n && order[..n][k] == a;
          assert order[k] == a && order[n] == b;
        }
      }
    }
  }

  lemma WithoutInOrder(order: seq<Id>, i: nat)
    requires i < |order|
    ensures InOrder(order, order[..i] + order[i + 1..])
  {
    var left := order[..i] + order[i + 1..];
    forall a, b | Before(left, a, b)
      ensures Before(order, a, b)
    {
      var k, l :| 0 <= k < l < |left| && left[k] == a && left[l] == b;
      assert order[if k < i then k else k + 1] == a && order[if l < i then l else l + 1] == b;
    }
  }

  /** Whatever makes room evicts the oldest first: an entry that stays, and could have gone, is younger than all that went. */
  lemma {:induction false} OldestGoFirst<V>(s: Shelf<V>, held: set<Id>, extra: int, gone: Id, kept: Id)
    requires Keyed(s) && gone in s.items && gone !in MakeRoom(s, held, extra).items
    requires kept in MakeRoom(s, held, extra).items && kept !in held
    ensures Before(s.order, gone, kept)
    decreases |s.order|
  {
    var i := FirstLoose(s.order, held);
    assert |s.items| + extra >= LIMIT && i < |s.order|;
    WithoutIsKeyed(s, i);
    MakeRoomIsKeyed(Without(s, i), held, extra);
    assert kept in s.items && kept != s.order[i];
    if gone == s.order[i] {
      assert kept in s.order;
      var k :| 0 <= k < |s.order| && s.order[k] == kept;
      assert i < k;
    } else {
      OldestGoFirst(Without(s, i), held, extra, gone, kept);
      WithoutInOrder(s.order, i);
    }
  }
}
