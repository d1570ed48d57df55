/**
 The restore confirmation handler of internal/api/restores.go: a chain of acquisitions, each
 given back, traded in or handed on exactly once, whatever fails along the way.
 */
module RestoreConfirmation {
  import opened Options
  import Admission
  import Restores

  datatype Use = Never | Held | GivenBack | Traded

  datatype Prepared = Absent | Live | CleanedUp | CleanupFailed | Transferred

  datatype Failure = Interrupted | BadPassphrase | OtherFailure

  /** Everything the handler asks of the rest of the server, in the order it asks. */
  datatype Outside = Outside(
    transportOk: bool, bodyOk: bool, previewIdOk: bool, planIdOk: bool, acknowledged: bool,
    exportPassphraseOk: bool, runtimePassphraseOk: bool, restartable: bool, suppressed: bool,
    begin: Option<Restores.Refusal>, samePlan: bool, hashSlot: bool, admitted: bool,
    uploadOk: bool, preparedGiven: bool, prepareFailure: Option<Failure>, cleanupOk: bool,
    inTime: bool, uploadStillOk: bool, planStillSame: bool, upgrade: Option<Admission.Refusal>, audited: bool,
    transferred: bool, transferFailure: Option<Failure>, retained: bool, intentIdOk: bool)

  datatype Response =
    | TransportRequired | BadBody | PreviewNotFound | PlanInvalid | Incomplete | ExportPassphraseInvalid
    | RuntimePassphraseInvalid | Unavailable | ReviewRequired | PreviewNotReady | PreviewActive | ConfirmationActive
    | RestoresUnavailable | PlanChanged | CapacityBusy | NotAdmitted
    | UploadChanged | ConfirmationInterrupted | AuthenticationFailed | PrepareFailed | RestoreCleanupFailed
    | OperationConflict | ShuttingDown | AuditFailed | IntentFailed | FinalizeFailed | IntentInvalid | Accepted

  /** The one way to an accepted restore. */
  predicate AllClear(o: Outside) {
    && o.transportOk && o.bodyOk && o.previewIdOk && o.planIdOk && o.acknowledged
    && o.exportPassphraseOk && o.runtimePassphraseOk && o.restartable && !o.suppressed
    && o.begin.None? && o.samePlan && o.hashSlot && o.admitted && o.uploadOk && o.preparedGiven && o.prepareFailure.None?
    && o.inTime && o.uploadStillOk && o.planStillSame && o.upgrade.None? && o.audited
    && o.transferred && o.transferFailure.None? && !o.retained && o.intentIdOk
  }

  /** How a confirmation that may not begin, a failed preparation and a refused upgrade are answered. */
  function BeginAnswer(refusal: Restores.Refusal): Response {
    match refusal
    case PreviewNotFound => PreviewNotFound
    case PreviewNotReady => PreviewNotReady
    case PreviewInProgress => PreviewActive
    case ConfirmInProgress => ConfirmationActive
    case UploadNotFound => UploadChanged
    case _ => RestoresUnavailable
  }

  function PrepareAnswer(f: Failure): Response {
    match f
    case Interrupted => ConfirmationInterrupted
    case BadPassphrase => AuthenticationFailed
    case OtherFailure => PrepareFailed
  }

  function UpgradeAnswer(refusal: Admission.Refusal): Response {
    match refusal
    case Suppressed => ReviewRequired
    case Busy => OperationConflict
    case ExclusiveHeld => OperationConflict
    case _ => ShuttingDown
  }

  /** A question that did not come out well is answered, once the pair, if it is ours then, has been cleaned up. */
  function Ask(o: Outside, well: bool, answer: Response, pairIsOurs: bool, otherwise: Response): Response {
    if well then otherwise else if pairIsOurs && !o.cleanupOk then RestoreCleanupFailed else answer
  }

  /** With the exclusive lease. */
  function ExclusiveAnswer(o: Outside): Response {
    Ask(o, o.audited, AuditFailed, true,
    Ask(o, o.transferred, if o.transferFailure == Some(Interrupted) then ConfirmationInterrupted else IntentFailed, true,
    Ask(o, o.transferFailure.None? && !o.retained, FinalizeFailed, false,
    Ask(o, o.intentIdOk, IntentInvalid, false, Accepted))))
  }

  /** With the prepared pair. */
  function PairAnswer(o: Outside): Response {
    Ask(o, o.inTime, ConfirmationInterrupted, true,
    Ask(o, o.uploadStillOk, UploadChanged, true,
    Ask(o, o.planStillSame, PlanChanged, true,
    Ask(o, o.upgrade.None?, if o.upgrade.Some? then UpgradeAnswer(o.upgrade.value) else ShuttingDown, true, ExclusiveAnswer(o)))))
  }

  /** With the ordinary lease. */
  function LeaseAnswer(o: Outside): Response {
    Ask(o, o.uploadOk, UploadChanged, false,
    Ask(o, o.prepareFailure.None?, if o.prepareFailure.Some? then PrepareAnswer(o.prepareFailure.value) else PrepareFailed, o.preparedGiven,
    Ask(o, o.preparedGiven, PrepareFailed, false, PairAnswer(o))))
  }

  /** With the confirmation begun. */
  function ConfirmationAnswer(o: Outside): Response {
    Ask(o, o.samePlan, PlanChanged, false, Ask(o, o.hashSlot, CapacityBusy, false, Ask(o, o.admitted, NotAdmitted, false, LeaseAnswer(o))))
  }

  function Answer(o: Outside): Response {
    Ask(o, o.transportOk, TransportRequired, false,
    Ask(o, o.bodyOk, BadBody, false,
    Ask(o, o.previewIdOk, PreviewNotFound, false,
    Ask(o, o.planIdOk, PlanInvalid, false,
    Ask(o, o.acknowledged, Incomplete, false,
    Ask(o, o.exportPassphraseOk, ExportPassphraseInvalid, false,
    Ask(o, o.runtimePassphraseOk, RuntimePassphraseInvalid, false,
    Ask(o, o.restartable, Unavailable, false,
    Ask(o, !o.suppressed, ReviewRequired, false,
    Ask(o, o.begin.None?, if o.begin.Some? then BeginAnswer(o.begin.value) else RestoresUnavailable, false, ConfirmationAnswer(o)))))))))))
  }

  // ---- why each answer is given ------------------------------------------------------

  predicate Understood(o: Outside) {
    o.transportOk && o.bodyOk && o.previewIdOk && o.planIdOk && o.acknowledged && o.exportPassphraseOk && o.runtimePassphraseOk
  }

  /** It comes to asking for the confirmation. */
  predicate Asks(o: Outside) {
    Understood(o) && o.restartable && !o.suppressed
  }

  predicate Begun(o: Outside) {
    Asks(o) && o.begin.None?
  }

  predicate GotTheLease(o: Outside) {
    Begun(o) && o.samePlan && o.hashSlot && o.admitted
  }

  predicate GotThePair(o: Outside) {
    GotTheLease(o) && o.uploadOk && o.prepareFailure.None? && o.preparedGiven
  }

  predicate CheckedAgain(o: Outside) {
    GotThePair(o) && o.inTime && o.uploadStillOk && o.planStillSame
  }

  predicate HandedOn(o: Outside) {
    CheckedAgain(o) && o.upgrade.None? && o.audited && o.transferred
  }

  /** What comes later is never answered like a request that is not understood. */
  lemma LaterAnswers(o: Outside)
    ensures var r := ConfirmationAnswer(o);
            && r !in {TransportRequired, BadBody, PreviewNotFound, PlanInvalid, Incomplete, ExportPassphraseInvalid, RuntimePassphraseInvalid}
            && r !in {Unavailable, PreviewNotReady, PreviewActive, ConfirmationActive, RestoresUnavailable}
  {}

  lemma WhyRequestsAreRefused(o: Outside)
    ensures Answer(o) == TransportRequired <==> !o.transportOk
    ensures Answer(o) == BadBody <==> o.transportOk && !o.bodyOk
    ensures Answer(o) == PreviewNotFound <==>
            (o.transportOk && o.bodyOk && !o.previewIdOk) || (Asks(o) && o.begin == Some(Restores.PreviewNotFound))
  {
    LaterAnswers(o);
  }

  lemma WhyItIsIncomplete(o: Outside)
    ensures Answer(o) == PlanInvalid <==> o.transportOk && o.bodyOk && o.previewIdOk && !o.planIdOk
    ensures Answer(o) == Incomplete <==> o.transportOk && o.bodyOk && o.previewIdOk && o.planIdOk && !o.acknowledged
    ensures Answer(o) == ExportPassphraseInvalid <==>
            o.transportOk && o.bodyOk && o.previewIdOk && o.planIdOk && o.acknowledged && !o.exportPassphraseOk
    ensures Answer(o) == RuntimePassphraseInvalid <==>
            o.transportOk && o.bodyOk && o.previewIdOk && o.planIdOk && o.acknowledged && o.exportPassphraseOk && !o.runtimePassphraseOk
  {
    LaterAnswers(o);
  }

  lemma WhyItIsNotBegun(o: Outside)
    ensures Answer(o) == Unavailable <==> Understood(o) && !o.restartable
    ensures Answer(o) == PreviewNotReady <==> Asks(o) && o.begin == Some(Restores.PreviewNotReady)
    ensures Answer(o) == PreviewActive <==> Asks(o) && o.begin == Some(Restores.PreviewInProgress)
  {
    LaterAnswers(o);
  }

  lemma WhyTheManagerRefuses(o: Outside)
    ensures Answer(o) == ConfirmationActive <==> Asks(o) && o.begin == Some(Restores.ConfirmInProgress)
    ensures Answer(o) == RestoresUnavailable <==>
            Asks(o) && (o.begin == Some(Restores.Closed) || o.begin == Some(Restores.DirectoryChanged) || o.begin == Some(Restores.Retention)
                        || o.begin == Some(Restores.PreviewTerminal))
  {
    LaterAnswers(o);
  }

  lemma WhyItIsNotAdmitted(o: Outside)
    ensures Answer(o) == CapacityBusy <==> Begun(o) && o.samePlan && !o.hashSlot
    ensures Answer(o) == NotAdmitted <==> Begun(o) && o.samePlan && o.hashSlot && !o.admitted
  {}

  /** Answers that come from more than one question. */
  lemma WhyChangesAreReported(o: Outside)
    ensures Answer(o) == ReviewRequired <==>
            || (Understood(o) && o.restartable && o.suppressed)
            || (CheckedAgain(o) && o.cleanupOk && o.upgrade == Some(Admission.Suppressed))
    ensures Answer(o) == PlanChanged <==>
            (Begun(o) && !o.samePlan) || (GotThePair(o) && o.inTime && o.uploadStillOk && !o.planStillSame && o.cleanupOk)
  {}

  lemma WhyUploadsAreReported(o: Outside)
    ensures Answer(o) == UploadChanged <==>
            (Asks(o) && o.begin == Some(Restores.UploadNotFound)) || (GotTheLease(o) && !o.uploadOk) || (GotThePair(o) && o.inTime && !o.uploadStillOk && o.cleanupOk)
  {}

  lemma WhyPreparationFails(o: Outside)
    ensures Answer(o) == AuthenticationFailed <==>
            GotTheLease(o) && o.uploadOk && o.prepareFailure == Some(BadPassphrase) && (o.preparedGiven ==> o.cleanupOk)
    ensures Answer(o) == PrepareFailed <==>
            GotTheLease(o) && o.uploadOk
            && ((o.prepareFailure == Some(OtherFailure) && (o.preparedGiven ==> o.cleanupOk)) || (o.prepareFailure.None? && !o.preparedGiven))
    ensures Answer(o) == ConfirmationInterrupted <==>
            || (GotTheLease(o) && o.uploadOk && o.prepareFailure == Some(Interrupted) && (o.preparedGiven ==> o.cleanupOk))
            || (GotThePair(o) && !o.inTime && o.cleanupOk)
            || (CheckedAgain(o) && o.upgrade.None? && o.audited && !o.transferred && o.transferFailure == Some(Interrupted) && o.cleanupOk)
  {}

  lemma WhyLateAnswers(o: Outside)
    ensures Answer(o) == OperationConflict <==>
            CheckedAgain(o) && o.cleanupOk && (o.upgrade == Some(Admission.Busy) || o.upgrade == Some(Admission.ExclusiveHeld))
    ensures Answer(o) == ShuttingDown <==>
            CheckedAgain(o) && o.cleanupOk && (o.upgrade == Some(Admission.Closed) || o.upgrade == Some(Admission.KindInvalid))
    ensures Answer(o) == AuditFailed <==> CheckedAgain(o) && o.upgrade.None? && !o.audited && o.cleanupOk
    ensures Answer(o) == IntentFailed <==>
            CheckedAgain(o) && o.upgrade.None? && o.audited && !o.transferred && o.transferFailure != Some(Interrupted) && o.cleanupOk
  {}

  lemma WhatFollowsTheHandOver(o: Outside)
    ensures Answer(o) == FinalizeFailed <==> HandedOn(o) && (o.transferFailure.Some? || o.retained)
    ensures Answer(o) == IntentInvalid <==> HandedOn(o) && o.transferFailure.None? && !o.retained && !o.intentIdOk
    ensures Answer(o) == Accepted <==> HandedOn(o) && o.transferFailure.None? && !o.retained && o.intentIdOk
  {}

  lemma WhyCleanupFails(o: Outside)
    ensures Answer(o) == RestoreCleanupFailed <==>
            GotTheLease(o) && o.uploadOk && o.preparedGiven && !o.cleanupOk && !HandedOn(o)
  {}

  /** What the handler holds, and what it has done to the operation gate. */
  class Resources {
    var confirmation: Use
    var hash: Use
    var ordinary: Use
    var exclusive: Use
    var prepared: Prepared
    var authorized: bool
    var admissionClosed: bool
    var restarts: nat
    /** Its leases, by the names the gate's other callers know them not to use. */
    ghost const id: nat
    ghost const ex: nat
    ghost var gate: seq<Admission.Step>

    constructor (ghost id: nat, ghost ex: nat)
      requires id != ex
      ensures Untouched() && this.id == id && this.ex == ex
    {
      this.id, this.ex := id, ex;
      confirmation, hash, ordinary, exclusive, prepared := Never, Never, Never, Never, Absent;
      authorized, admissionClosed, restarts, gate := false, false, 0, [];
    }

    ghost predicate Untouched()
      reads this
    {
      && confirmation == Never && hash == Never && BeforeLease()
    }

    ghost predicate BeforeLease()
      reads this`ordinary, this`exclusive, this`prepared, this`authorized, this`admissionClosed, this`restarts, this`gate
    {
      ordinary == Never && exclusive == Never && prepared == Absent && !authorized && !admissionClosed && restarts == 0 && gate == []
    }

    method Begin()
      requires confirmation == Never
      modifies this`confirmation
      ensures confirmation == Held
    {
      confirmation := Held;
    }

    method Finish()
      requires confirmation == Held
      modifies this`confirmation
      ensures confirmation == GivenBack
    {
      confirmation := GivenBack;
    }

    method TakeHash()
      requires hash == Never
      modifies this`hash
      ensures hash == Held
    {
      hash := Held;
    }

    method ReleaseHash()
      requires hash == Held
      modifies this`hash
      ensures hash == GivenBack
    {
      hash := GivenBack;
    }

    method Admit()
      requires ordinary == Never
      modifies this`ordinary, this`gate
      ensures ordinary == Held && gate == old(gate) + [Enters(id)]
    {
      ordinary, gate := Held, gate + [Enters(id)];
    }

    method ReleaseOrdinary()
      requires ordinary == Held
      modifies this`ordinary, this`gate
      ensures ordinary == GivenBack && gate == old(gate) + [Leaves(id)]
    {
      ordinary, gate := GivenBack, gate + [Leaves(id)];
    }

    /** The ordinary lease becomes the exclusive one. */
    method Upgrade()
      requires ordinary == Held && exclusive == Never
      modifies this`ordinary, this`exclusive, this`gate
      ensures ordinary == Traded && exclusive == Held && gate == old(gate) + [Trades(id, ex)]
    {
      ordinary, exclusive, gate := Traded, Held, gate + [Trades(id, ex)];
    }

    method ReleaseExclusive()
      requires exclusive == Held
      modifies this`exclusive, this`gate
      ensures exclusive == GivenBack && gate == old(gate) + [Leaves(ex)]
    {
      exclusive, gate := GivenBack, gate + [Leaves(ex)];
    }

    method Receive()
      requires prepared == Absent
      modifies this`prepared
      ensures prepared == Live
    {
      prepared := Live;
    }

    method Cleanup(works: bool) returns (ok: bool)
      requires prepared == Live
      modifies this`prepared
      ensures ok == works && prepared == if ok then CleanedUp else CleanupFailed
    {
      ok := works;
      prepared := if ok then CleanedUp else CleanupFailed;
    }

    method HandOn()
      requires prepared == Live && exclusive == Held && authorized
      modifies this`prepared
      ensures prepared == Transferred
    {
      prepared := Transferred;
    }

    method Authorize()
      requires exclusive == Held
      modifies this`authorized
      ensures authorized
    {
      authorized := true;
    }

    method CloseAdmission()
      modifies this`admissionClosed, this`gate
      ensures admissionClosed && gate == old(gate) + [Admission.Closing]
    {
      admissionClosed, gate := true, gate + [Admission.Closing];
    }

    /** Only with the pair handed on, nobody else at work and nobody else coming. */
    method Restart(ghost intentIdOk: bool)
      requires prepared == Transferred && exclusive == Held && admissionClosed && authorized && intentIdOk
      modifies this`restarts
      ensures restarts == old(restarts) + 1
    {
      restarts := restarts + 1;
    }

    // ---- the handler, one method for each thing held ---------------------------------

    ghost predicate Settled(use: Use)
    {
      use == Never || use == GivenBack
    }

    /** The pair is gone, one way only; the leases are back, once; a restart had its reasons. */
    ghost predicate Squared(o: Outside, r: Response)
      reads this`ordinary, this`exclusive, this`prepared, this`authorized, this`admissionClosed, this`restarts, this`gate
    {
      var leases := (ordinary == GivenBack || ordinary == Traded) && exclusive == if ordinary == Traded then GivenBack else Never;
      var pair := prepared != Live && (r == RestoreCleanupFailed <==> prepared == CleanupFailed);
      var restart := && restarts == (if r == Accepted then 1 else 0) && (r == Accepted <==> AllClear(o))
                     && (r == Accepted ==> prepared == Transferred && authorized && admissionClosed);
      var steps := gate == if r == Accepted then [Enters(id), Trades(id, ex), Admission.Closing, Leaves(ex)]
                           else if ordinary == Traded then [Enters(id), Trades(id, ex), Leaves(ex)]
                           else [Enters(id), Leaves(id)];
      leases && pair && restart && steps
    }

    method CleanThen(o: Outside, r: Response) returns (response: Response)
      requires prepared == Live
      modifies this`prepared
      ensures prepared == if o.cleanupOk then CleanedUp else CleanupFailed
      ensures response == if o.cleanupOk then r else RestoreCleanupFailed
    {
      var ok := Cleanup(o.cleanupOk);
      response := if ok then r else RestoreCleanupFailed;
    }

    ghost predicate MayUpgrade(o: Outside)
    {
      && o.transportOk && o.bodyOk && o.previewIdOk && o.planIdOk && o.acknowledged
      && o.exportPassphraseOk && o.runtimePassphraseOk && o.restartable && !o.suppressed
      && o.begin.None? && o.samePlan && o.hashSlot && o.admitted
    }

    /** With the exclusive lease. */
    method Exclusively(o: Outside) returns (response: Response)
      requires ordinary == Traded && exclusive == Held && prepared == Live && !authorized && !admissionClosed && restarts == 0
      requires gate == [Enters(id), Trades(id, ex)]
      modifies this`prepared, this`authorized, this`admissionClosed, this`restarts, this`gate
      ensures prepared != Live && restarts == (if response == Accepted then 1 else 0)
      ensures response == Accepted ==> prepared == Transferred && authorized && admissionClosed
      ensures response == Accepted <==>
              o.audited && o.transferred && o.transferFailure.None? && !o.retained && o.intentIdOk
      ensures gate == if response == Accepted then [Enters(id), Trades(id, ex), Admission.Closing] else [Enters(id), Trades(id, ex)]
      ensures response == RestoreCleanupFailed <==> prepared == CleanupFailed
      ensures response == ExclusiveAnswer(o)
    {
      if !o.audited {
        response := CleanThen(o, AuditFailed);
        return;
      }
      Authorize();
      if !o.transferred {
        response := CleanThen(o, if o.transferFailure == Some(Interrupted) then ConfirmationInterrupted else IntentFailed);
        return;
      }
      HandOn();
      if o.transferFailure.Some? || o.retained {
        return FinalizeFailed;
      }
      if !o.intentIdOk {
        return IntentInvalid;
      }
      CloseAdmission();
      Restart(o.intentIdOk);
      return Accepted;
    }

    /** With the prepared pair, and still the ordinary lease. */
    method WithPair(o: Outside) returns (response: Response)
      requires ordinary == Held && exclusive == Never && prepared == Live && !authorized && !admissionClosed && restarts == 0
      requires gate == [Enters(id)] && MayUpgrade(o) && o.uploadOk && o.preparedGiven && o.prepareFailure.None?
      modifies this`ordinary, this`exclusive, this`prepared, this`authorized, this`admissionClosed, this`restarts, this`gate
      ensures Squared(o, response) && response == PairAnswer(o)
    {
      if !o.inTime {
        response := CleanThen(o, ConfirmationInterrupted);
      } else if !o.uploadStillOk {
        response := CleanThen(o, UploadChanged);
      } else if !o.planStillSame {
        response := CleanThen(o, PlanChanged);
      } else if o.upgrade.Some? {
        response := CleanThen(o, match o.upgrade.value
                                 case Suppressed => ReviewRequired
                                 case Busy => OperationConflict
                                 case ExclusiveHeld => OperationConflict
                                 case _ => ShuttingDown);
      } else {
        Upgrade();
        response := Exclusively(o);
        ReleaseExclusive();
        return;
      }
      ReleaseOrdinary();
    }

    /** With the ordinary lease. */
    method Leased(o: Outside) returns (response: Response)
      requires ordinary == Held && exclusive == Never && prepared == Absent && !authorized && !admissionClosed && restarts == 0
      requires gate == [Enters(id)] && MayUpgrade(o)
      modifies this`ordinary, this`exclusive, this`prepared, this`authorized, this`admissionClosed, this`restarts, this`gate
      ensures Squared(o, response) && response == LeaseAnswer(o)
    {
      if !o.uploadOk {
        response := UploadChanged;
      } else if o.prepareFailure.Some? {
        match o.prepareFailure.value {
          case Interrupted => response := ConfirmationInterrupted;
          case BadPassphrase => response := AuthenticationFailed;
          case OtherFailure => response := PrepareFailed;
        }
        if o.preparedGiven {
          Receive();
          response := CleanThen(o, response);
        }
      } else if !o.preparedGiven {
        response := PrepareFailed;
      } else {
        Receive();
        response := WithPair(o);
        return;
      }
      ReleaseOrdinary();
    }

    /** Whether the lease was ever taken. */
    ghost predicate Over(o: Outside, r: Response)
      reads this`ordinary, this`exclusive, this`prepared, this`authorized, this`admissionClosed, this`restarts, this`gate
    {
      var early := BeforeLease() && r != Accepted && r != RestoreCleanupFailed && !AllClear(o);
      early || Squared(o, r)
    }

    method Confirmed(o: Outside) returns (response: Response)
      requires confirmation == Held && hash == Never && BeforeLease()
      requires o.transportOk && o.bodyOk && o.previewIdOk && o.planIdOk && o.acknowledged
      requires o.exportPassphraseOk && o.runtimePassphraseOk && o.restartable && !o.suppressed && o.begin.None?
      modifies this
      ensures confirmation == Held && Settled(hash) && Over(o, response) && response == ConfirmationAnswer(o)
    {
      if !o.samePlan {
        return PlanChanged;
      }
      if !o.hashSlot {
        return CapacityBusy;
      }
      TakeHash();
      if !o.admitted {
        response := NotAdmitted;
      } else {
        Admit();
        response := Leased(o);
      }
      ReleaseHash();
    }

    method RefuseEarly(o: Outside) returns (refusal: Option<Response>)
      ensures refusal.None? <==>
              && o.transportOk && o.bodyOk && o.previewIdOk && o.planIdOk && o.acknowledged
              && o.exportPassphraseOk && o.runtimePassphraseOk && o.restartable && !o.suppressed && o.begin.None?
      ensures refusal != Some(Accepted) && refusal != Some(RestoreCleanupFailed)
      ensures Answer(o) == if refusal.Some? then refusal.value else ConfirmationAnswer(o)
    {
      if !o.transportOk {
        return Some(TransportRequired);
      }
      if !o.bodyOk {
        return Some(BadBody);
      }
      if !o.previewIdOk {
        return Some(PreviewNotFound);
      }
      if !o.planIdOk {
        return Some(PlanInvalid);
      }
      if !o.acknowledged {
        return Some(Incomplete);
      }
      if !o.exportPassphraseOk {
        return Some(ExportPassphraseInvalid);
      }
      if !o.runtimePassphraseOk {
        return Some(RuntimePassphraseInvalid);
      }
      if !o.restartable {
        return Some(Unavailable);
      }
      if o.suppressed {
        return Some(ReviewRequired);
      }
      if o.begin.Some? {
        return Some(BeginAnswer(o.begin.value));
      }
      return None;
    }

    /** However it ends: nothing held, nothing given back twice, and a restart only for an accepted restore. */
    method HandleConfirmRestore(o: Outside) returns (response: Response)
      requires Untouched()
      modifies this
      ensures Settled(confirmation) && Settled(hash) && Over(o, response)
      ensures response == Accepted <==> AllClear(o)
      ensures response == Answer(o)
    {
      var refusal := RefuseEarly(o);
      if refusal.Some? {
        return refusal.value;
      }
      Begin();
      response := Confirmed(o);
      Finish();
    }
  }

  function Enters(id: nat): Admission.Step { Admission.Beginning(id, Admission.RESTORE_PREPARE) }
  function Leaves(id: nat): Admission.Step { Admission.Releasing(id) }
  function Trades(id: nat, ex: nat): Admission.Step { Admission.Upgrading(id, ex) }

  /** Others between two steps of the handler: any run of theirs, from any sound world, that leaves its leases alone. */
  ghost predicate Meanwhile(w: Admission.World, v: Admission.World, id: nat, ex: nat, others: seq<Admission.Step>) {
    Admission.Runs(w, others, v) && Admission.Silent(others, id) && Admission.Silent(others, ex)
  }

  /** On a gate shared with anybody: what the handler takes it may give back, and it is gone then. */
  lemma GivingUpKeepsTheDiscipline(w: Admission.World, id: nat, ex: nat, others: seq<Admission.Step>, v: Admission.World)
    requires Admission.Sound(w) && Admission.Allowed(w, Enters(id)) && Meanwhile(Admission.Next(w, Enters(id)), v, id, ex, others)
    ensures Admission.Sound(v) && Admission.Allowed(v, Leaves(id))
    ensures Admission.Sound(Admission.Next(v, Leaves(id))) && id !in Admission.Next(v, Leaves(id)).leases
  {
    var u := Admission.Next(w, Enters(id));
    Admission.NextIsCounted(w, Enters(id));
    Admission.NextIsAttended(w, Enters(id));
    Admission.HolderMayGiveBack(u, others, v, id);
  }

  /** It may trade it exactly when the gate says so, and give back what it got for it. */
  lemma FailingLateKeepsTheDiscipline(w: Admission.World, id: nat, ex: nat, first: seq<Admission.Step>, v: Admission.World,
                                      second: seq<Admission.Step>, z: Admission.World)
    requires Admission.Sound(w) && Admission.Allowed(w, Enters(id)) && id != ex && ex !in w.leases
    requires Meanwhile(Admission.Next(w, Enters(id)), v, id, ex, first)
    ensures |v.g.active| == Admission.KINDS
    ensures Admission.Allowed(v, Trades(id, ex)) <==> Admission.UpgradeVerdict(v.g, Admission.RESTORE_PREPARE).None?
    ensures Admission.Allowed(v, Trades(id, ex)) && Meanwhile(Admission.Next(v, Trades(id, ex)), z, id, ex, second) ==>
              && Admission.Sound(z) && Admission.Allowed(z, Leaves(ex))
              && var end := Admission.Next(z, Leaves(ex));
                 Admission.Sound(end) && id !in end.leases && ex !in end.leases
  {
    var u := Admission.Next(w, Enters(id));
    Admission.NextIsCounted(w, Enters(id));
    Admission.NextIsAttended(w, Enters(id));
    Admission.LeaseStays(u, first, v, ex);
    Admission.HolderMayUpgradeExactly(u, first, v, id, ex);
    if Admission.Allowed(v, Trades(id, ex)) && Meanwhile(Admission.Next(v, Trades(id, ex)), z, id, ex, second) {
      var y := Admission.Next(v, Trades(id, ex));
      Admission.HolderMayGiveBack(y, second, z, ex);
      Admission.LeaseStays(y, second, z, id);
    }
  }

  /** An accepted restore closes the gate in between; it stays closed, and the exclusive lease still goes back. */
  lemma AcceptingKeepsTheDiscipline(w: Admission.World, id: nat, ex: nat, second: seq<Admission.Step>, y: Admission.World,
                                    third: seq<Admission.Step>, z: Admission.World)
    requires Admission.Sound(w) && Admission.Allowed(w, Trades(id, ex)) && id != ex
    requires Meanwhile(Admission.Next(w, Trades(id, ex)), y, id, ex, second)
    requires Meanwhile(y.(g := y.g.(closed := true)), z, id, ex, third)
    ensures |y.g.active| == Admission.KINDS && Admission.Next(y, Admission.Closing) == y.(g := y.g.(closed := true))
    ensures Admission.Sound(z) && z.g.closed && Admission.Allowed(z, Leaves(ex))
    ensures var end := Admission.Next(z, Leaves(ex));
            Admission.Sound(end) && end.g.closed && id !in end.leases && ex !in end.leases
  {
    var u, c := Admission.Next(w, Trades(id, ex)), y.(g := y.g.(closed := true));
    Admission.NextIsCounted(w, Trades(id, ex));
    Admission.NextIsAttended(w, Trades(id, ex));
    Admission.LeaseStays(u, second, y, id);
    Admission.LeaseStays(u, second, y, ex);
    Admission.NextIsCounted(y, Admission.Closing);
    Admission.NextIsAttended(y, Admission.Closing);
    Admission.LeaseStays(c, third, z, id);
    Admission.HolderMayGiveBack(c, third, z, ex);
  }
}
