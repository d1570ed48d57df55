/**
 The restore manager as the source has it: maps and order lists changed in place under one
 mutex, each method one critical section.
 */
module RestoreManager {
  import opened Options
  import opened Restores
  import opened RestoreEffects

  class Manager {
    var closed: bool
    var cleaned: bool
    var uploads: map<Id, Upload>
    var uploadOrder: seq<Id>
    var previews: map<Id, Job>
    var previewOrder: seq<Id>
    var active: Option<Id>
    var confirming: Option<Id>
    var uploading: int
    var running: int

    function Seen(): State
      reads this
    {
      State(closed, cleaned, Shelf(uploadOrder, uploads), Shelf(previewOrder, previews), active, confirming, uploading, running)
    }

    ghost predicate Valid()
      reads this
    {
      Stocked(Seen())
    }

    constructor ()
      ensures Seen() == START.m
    {
      closed, cleaned, uploads, uploadOrder, previews, previewOrder := false, false, map[], [], map[], [];
      active, confirming, uploading, running := None, None, 0, 0;
    }

    method FindLoose(order: seq<Id>, held: set<Id>) returns (i: nat)
      ensures i == FirstLoose(order, held)
    {
      i := 0;
      while i < |order| && order[i] in held
        invariant i <= |order| && forall k :: 0 <= k < i ==> order[k] in held
      {
        i := i + 1;
      }
    }

    /** Removal takes the entry from its map and from its order. */
    method MakeUploadRoomLocked(stuck: set<Id>) returns (ok: bool)
      modifies this`uploads, this`uploadOrder
      ensures Seen() == MakeUploadRoom(old(Seen()), stuck)
      ensures ok == (|uploads| + uploading < LIMIT)
    {
      var held := Referenced(Seen()) + stuck;
      while |uploads| + uploading >= LIMIT
        invariant Seen() == old(Seen()).(uploads := Shelf(uploadOrder, uploads))
        invariant MakeRoom(Shelf(uploadOrder, uploads), held, uploading) == MakeRoom(old(Seen()).uploads, held, uploading)
        decreases |uploadOrder|
      {
        var i := FindLoose(uploadOrder, held);
        if i == |uploadOrder| {
          return false;
        }
        uploads, uploadOrder := uploads - {uploadOrder[i]}, uploadOrder[..i] + uploadOrder[i + 1..];
      }
      return true;
    }

    method MakePreviewRoomLocked() returns (ok: bool)
      modifies this`previews, this`previewOrder
      ensures Seen() == MakePreviewRoom(old(Seen()))
      ensures ok == (|previews| < LIMIT)
    {
      var held := Busy(Seen());
      while |previews| >= LIMIT
        invariant Seen() == old(Seen()).(previews := Shelf(previewOrder, previews))
        invariant MakeRoom(Shelf(previewOrder, previews), held, 0) == MakeRoom(old(Seen()).previews, held, 0)
        decreases |previewOrder|
      {
        var i := FindLoose(previewOrder, held);
        if i == |previewOrder| {
          return false;
        }
        previews, previewOrder := previews - {previewOrder[i]}, previewOrder[..i] + previewOrder[i + 1..];
      }
      return true;
    }

    method ExpirePreviews(now: int)
      requires Valid()
      modifies this`previews, this`previewOrder
      ensures Seen() == old(Seen()).(previews := Expire(old(Seen()).previews, StalePreviews(old(Seen()), now)))
    {
      var kept := DropAll(Shelf(previewOrder, previews), StalePreviews(Seen(), now));
      previews, previewOrder := kept.items, kept.order;
    }

    method ExpireUploads(now: int, stuck: set<Id>)
      requires Valid()
      modifies this`uploads, this`uploadOrder
      ensures Seen() == old(Seen()).(uploads := Expire(old(Seen()).uploads, StaleUploads(old(Seen()), now, stuck)))
    {
      var kept := DropAll(Shelf(uploadOrder, uploads), StaleUploads(Seen(), now, stuck));
      uploads, uploadOrder := kept.items, kept.order;
    }

    method PruneLocked(now: int, stuck: set<Id>)
      requires Valid()
      modifies this
      ensures Seen() == Prune(old(Seen()), now, stuck) && Valid() && |previews| < LIMIT
    {
      PruneKeeps(Seen(), now, stuck);
      PreviewExpiryKeeps(Seen(), now);
      ExpirePreviews(now);
      ExpireUploads(now, stuck);
      var previewRoom := MakePreviewRoomLocked();
      var uploadRoom := MakeUploadRoomLocked(stuck);
    }

    /** The first critical section of receiving an upload. */
    method ReserveUpload(now: int, current: bool, stuck: set<Id>) returns (refusal: Option<Refusal>)
      requires Valid()
      modifies this
      ensures Valid() && refusal == ReserveVerdict(Prune(old(Seen()), now, stuck), current)
      ensures Seen() == if refusal.None? then Reserved(Prune(old(Seen()), now, stuck)) else Prune(old(Seen()), now, stuck)
    {
      PrunedHasRoom(Seen(), now, stuck);
      PruneLocked(now, stuck);
      refusal := Reserve(current, stuck);
    }

    method Reserve(current: bool, stuck: set<Id>) returns (refusal: Option<Refusal>)
      requires Valid() && MakeUploadRoom(Seen(), stuck) == Seen()
      modifies this
      ensures Valid() && refusal == ReserveVerdict(old(Seen()), current)
      ensures Seen() == if refusal.None? then Reserved(old(Seen())) else old(Seen())
    {
      if closed {
        return Some(Closed);
      }
      if !current {
        return Some(DirectoryChanged);
      }
      if |uploads| + uploading >= LIMIT {
        var ok := MakeUploadRoomLocked(stuck);
        if !ok {
          return Some(Retention);
        }
      }
      uploading, running := uploading + 1, running + 1;
      return None;
    }

    /** The second: false once the manager is closed. */
    method PublishUpload(id: Id, upload: Upload) returns (ok: bool)
      requires Valid() && id !in uploads
      modifies this
      ensures Valid() && ok == !old(closed)
      ensures Seen() == if ok then Published(old(Seen()), id, upload) else old(Seen())
    {
      if closed {
        return false;
      }
      PublishedIsStocked(Seen(), id, upload);
      uploads, uploadOrder := uploads[id := upload], uploadOrder + [id];
      return true;
    }

    /** The last, on every way out. */
    method FinishUpload()
      requires Valid()
      modifies this`uploading, this`running
      ensures Valid() && Seen() == UploadDone(old(Seen()))
    {
      uploading, running := uploading - 1, running - 1;
    }

    method StartPreview(id: Id, upload: Id, now: int, stuck: set<Id>) returns (refusal: Option<Refusal>)
      requires Valid() && id !in previews
      modifies this
      ensures Valid() && refusal == PreviewVerdict(Prune(old(Seen()), now, stuck), upload) && refusal != Some(Retention)
      ensures Seen() == PreviewTried(Prune(old(Seen()), now, stuck), id, upload, now)
    {
      PruneKeeps(Seen(), now, stuck);
      PruneLocked(now, stuck);
      refusal := TryPreview(id, upload, now);
    }

    method TryPreview(id: Id, upload: Id, now: int) returns (refusal: Option<Refusal>)
      requires Valid() && id !in previews
      modifies this
      ensures Valid() && refusal == PreviewVerdict(old(Seen()), upload) && refusal != Some(Retention)
      ensures Seen() == PreviewTried(old(Seen()), id, upload, now)
    {
      PreviewsNeverLackRoom(Seen(), upload);
      PreviewRoomKeeps(Seen());
      if closed {
        return Some(Closed);
      }
      if active.Some? || confirming.Some? {
        return Some(PreviewInProgress);
      }
      if upload !in uploads {
        return Some(UploadNotFound);
      }
      var ok := MakePreviewRoomLocked();
      if !ok {
        return Some(Retention);
      }
      AddPreview(id, Job(upload, uploads[upload].sha, Queued, "", now, None, false));
      return None;
    }

    method AddPreview(id: Id, job: Job)
      requires Valid() && |previews| < LIMIT && id !in previews && job.upload in uploads && active.None? && confirming.None?
      modifies this
      ensures Valid() && Seen() == PreviewAdded(old(Seen()), id, job)
    {
      AddedPreviewIsStocked(Seen(), id, job);
      previews, previewOrder := previews[id := job], previewOrder + [id];
      active, running := Some(id), running + 1;
      assert Seen() == PreviewAdded(old(Seen()), id, job);
    }

    /** A finished preview, and the life of its upload, before the pruning that follows. */
    method EndPreview(id: Id, outcome: Outcome, now: int)
      modifies this
      ensures Seen() == PreviewEnded(old(Seen()), id, outcome, now)
    {
      if id !in previews {
        running := running - 1;
        return;
      }
      var job := previews[id];
      var finished := now;
      if finished < job.createdAt {
        finished := job.createdAt;
      }
      var expires := finished + RETENTION;
      job := job.(expiresAt := Some(expires));
      if job.cancelRequested {
        job := job.(state := Cancelled);
      } else if !outcome.Ready? {
        job := job.(state := Failed);
      } else {
        job := job.(state := Completed, plan := outcome.plan);
        if job.upload in uploads && uploads[job.upload].expiresAt < expires {
          uploads := uploads[job.upload := uploads[job.upload].(expiresAt := expires)];
        }
      }
      previews := previews[id := job];
      if active == Some(id) {
        active := None;
      }
      running := running - 1;
    }

    method FinishPreview(id: Id, outcome: Outcome, now: int, stuck: set<Id>)
      requires Valid() && active == Some(id)
      modifies this
      ensures Valid() && Seen() == Prune(PreviewEnded(old(Seen()), id, outcome, now), now, stuck)
    {
      PreviewEndIsStocked(Seen(), id, outcome, now);
      EndPreview(id, outcome, now);
      PruneLocked(now, stuck);
    }

    method BeginConfirmation(id: Id, now: int, stuck: set<Id>) returns (refusal: Option<Refusal>)
      requires Valid()
      modifies this
      ensures Valid() && refusal == ConfirmVerdict(Prune(old(Seen()), now, stuck), id)
      ensures Seen() == if refusal.None? then ConfirmBegun(Prune(old(Seen()), now, stuck), id) else Prune(old(Seen()), now, stuck)
      ensures refusal.None? <==>
              var s := Prune(old(Seen()), now, stuck); !s.closed && s.active.None? && s.confirming.None? && ReadyToConfirm(s, id)
    {
      ConfirmationsExactly(Prune(Seen(), now, stuck), id);
      PruneLocked(now, stuck);
      refusal := TryConfirmation(id);
    }

    method TryConfirmation(id: Id) returns (refusal: Option<Refusal>)
      requires Valid()
      modifies this
      ensures Valid() && refusal == ConfirmVerdict(old(Seen()), id)
      ensures Seen() == if refusal.None? then ConfirmBegun(old(Seen()), id) else old(Seen())
    {
      if closed {
        return Some(Closed);
      }
      if confirming.Some? {
        return Some(ConfirmInProgress);
      }
      if active.Some? {
        return Some(PreviewInProgress);
      }
      if id !in previews {
        return Some(PreviewNotFound);
      }
      var job := previews[id];
      if job.state != Completed || job.plan == "" {
        return Some(PreviewNotReady);
      }
      if job.upload !in uploads || uploads[job.upload].sha != job.sha {
        return Some(UploadNotFound);
      }
      confirming, running := Some(id), running + 1;
      return None;
    }

    method FinishConfirmation(id: Id, now: int, stuck: set<Id>)
      requires Valid() && confirming == Some(id)
      modifies this
      ensures Valid() && Seen() == Prune(ConfirmEnded(old(Seen()), id), now, stuck)
    {
      EndConfirmation(id);
      PruneLocked(now, stuck);
    }

    method EndConfirmation(id: Id)
      requires Valid()
      modifies this`confirming, this`running
      ensures Valid() && Seen() == ConfirmEnded(old(Seen()), id)
    {
      ConclusionIsStocked(Seen(), id);
      if confirming == Some(id) {
        confirming := None;
      }
      running := running - 1;
    }

    method CancelPreview(id: Id, now: int, stuck: set<Id>) returns (refusal: Option<Refusal>)
      requires Valid()
      modifies this
      ensures Valid() && refusal == CancelVerdict(Prune(old(Seen()), now, stuck), id)
      ensures Seen() == CancelTried(Prune(old(Seen()), now, stuck), id)
    {
      PruneLocked(now, stuck);
      refusal := TryCancel(id);
    }

    method TryCancel(id: Id) returns (refusal: Option<Refusal>)
      requires Valid()
      modifies this
      ensures Valid() && refusal == CancelVerdict(old(Seen()), id) && Seen() == CancelTried(old(Seen()), id)
    {
      if id !in previews {
        return Some(PreviewNotFound);
      }
      var state := previews[id].state;
      if state == Completed || state == Failed || state == Cancelled {
        return Some(PreviewTerminal);
      }
      SameKeys(Seen().previews, id, previews[id].(cancelRequested := true));
      previews := previews[id := previews[id].(cancelRequested := true)];
      return None;
    }

    method FenceOff()
      requires Valid()
      modifies this`closed
      ensures Valid() && Seen() == old(Seen()).(closed := true)
    {
      closed := true;
    }

    method AllCanGo(stuck: set<Id>) returns (ok: bool)
      requires Keyed(Shelf(uploadOrder, uploads))
      ensures ok == UploadsClear(uploads, stuck)
    {
      var i := 0;
      while i < |uploadOrder|
        invariant i <= |uploadOrder| && forall k :: 0 <= k < i ==> uploadOrder[k] !in stuck
      {
        assert uploadOrder[i] in uploadOrder;
        if uploadOrder[i] in stuck {
          return false;
        }
        i := i + 1;
      }
      return true;
    }

    /** The rest of `close`, once nothing runs; files that will not go leave the record as it was. */
    method Empty(current: bool, stuck: set<Id>, leftoversGo: bool, rootsClose: bool) returns (ok: bool)
      requires Valid()
      modifies this
      ensures Valid()
      ensures var clear := current && UploadsClear(old(uploads), stuck) && leftoversGo;
              && ok == (clear && rootsClose)
              && Seen() == if clear then Emptied(old(Seen())) else old(Seen())
    {
      ok := AllCanGo(stuck);
      if !current || !ok || !leftoversGo {
        return false;
      }
      EmptiedIsStocked(Seen());
      uploads, uploadOrder, previews, previewOrder := map[], [], map[], [];
      active, confirming, cleaned := None, None, true;
      return rootsClose;
    }
  }

  function PreviewTried(s: State, id: Id, upload: Id, now: int): State {
    if PreviewVerdict(s, upload).None? then PreviewStarted(s, id, upload, now) else s
  }

  function CancelTried(s: State, id: Id): State {
    if CancelVerdict(s, id).None? then CancelMarked(s, id) else s
  }

  /** Takes the entries of `gone` off the shelf, in place. */
  method DropAll<V>(s: Shelf<V>, gone: set<Id>) returns (t: Shelf<V>)
    requires Keyed(s) && forall id :: id in gone ==> id in s.items
    ensures t == Expire(s, gone)
  {
    var order, items := TakeOff(s.order, s.items, gone);
    AllFirsts(s.order, s.items.Keys);
    t := Shelf(order, items);
  }

  method TakeOff<V>(order: seq<Id>, items: map<Id, V>, gone: set<Id>) returns (left: seq<Id>, kept: map<Id, V>)
    ensures left == Remaining(order, gone) && kept == items - (gone * Firsts(order, |order|))
  {
    left, kept := [], items;
    for i := 0 to |order|
      invariant left == Remaining(order[..i], gone) && kept == items - (gone * Firsts(order, i))
    {
      FirstsGrow(order, i, gone);
      if order[i] in gone {
        MinusTwice(items, gone * Firsts(order, i), order[i]);
        kept := kept - {order[i]};
      } else {
        left := left + [order[i]];
      }
    }
    assert order[..|order|] == order;
  }

  lemma MinusTwice<V>(m: map<Id, V>, done: set<Id>, id: Id)
    ensures (m - done) - {id} == m - (done + {id})
  {}

  lemma FirstsGrow(order: seq<Id>, i: nat, gone: set<Id>)
    requires i <= |order|
    ensures order[..|order|] == order
    ensures i < |order| ==> Remaining(order[..i + 1], gone) == Remaining(order[..i], gone) + (if order[i] in gone then [] else [order[i]])
    ensures i < |order| ==> gone * Firsts(order, i + 1) == gone * Firsts(order, i) + (if order[i] in gone then {order[i]} else {})
  {
    if i < |order| {
      assert order[..i + 1][..i] == order[..i];
      assert Firsts(order, i + 1) == Firsts(order, i) + {order[i]};
    }
  }

  predicate UploadsClear(uploads: map<Id, Upload>, stuck: set<Id>) {
    forall id :: id in uploads ==> id !in stuck
  }

  ghost function Firsts(order: seq<Id>, n: nat): set<Id> {
    set k | 0 <= k < n && k < |order| :: order[k]
  }

  lemma AllFirsts(order: seq<Id>, keys: set<Id>)
    requires forall id :: id in order <==> id in keys
    ensures Firsts(order, |order|) == keys && forall gone :: gone <= keys ==> gone * Firsts(order, |order|) == gone
  {}

  lemma PrunedHasRoom(s: State, now: int, stuck: set<Id>)
    requires Stocked(s)
    ensures MakeUploadRoom(Prune(s, now, stuck), stuck) == Prune(s, now, stuck)
  {
    var a := s.(previews := Expire(s.previews, StalePreviews(s, now)));
    var b := a.(uploads := Expire(a.uploads, StaleUploads(a, now, stuck)));
    var c := MakePreviewRoom(b);
    PreviewExpiryKeeps(s, now);
    UploadExpiryKeeps(a, now, stuck);
    PreviewRoomKeeps(b);
    RoomIsIdempotent(c.uploads, Referenced(c) + stuck, c.uploading);
  }
}
