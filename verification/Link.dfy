/**
 One controller's line to one device, with everything that may go wrong on it: requests
 and replies are lost, time passes, other sessions come and go, the watchdog fires, and
 rpcd restarts. Three ghost flags record which of the hypotheses of a theorem a run broke.
 */
module Link {
  import opened Options
  import opened UciDevice

  datatype Reply<+T> = Answered(value: T) | Refused(status: Status) | Lost

  /** A reading of one option. A list value does not decode into a string. */
  datatype Reading = Got(text: string) | Missing | Unreadable

  /** `blank` is a firmware that answers a missing option with an empty value. */
  function ReadOption(cfg: Option<Config>, section: string, option: string, blank: bool): Reading {
    if cfg.None? then Missing
    else if section in cfg.value && option in cfg.value[section] then
      match cfg.value[section][option]
      case Text(t) => Got(t)
      case Items(_) => Unreadable
    else if blank then Got("") else Missing
  }

  datatype Event =
    | ApplySent(at: nat)
    | HealthRan(passed: bool, at: nat)
    | ConfirmSent(at: nat)
    | CheckStarted(at: nat)

  /** The watchdog never lets an armed rollback outlive its deadline by `lag`. */
  ghost predicate Punctual(s: State, lag: nat) {
    s.rollback.Some? && s.rollback.value.deadline != 0 ==> s.now < s.rollback.value.deadline + lag
  }

  /**
   What an undisturbed environment may do to a device between two of our calls. The
   tokens in `ours` are held by nobody else.
   */
  ghost predicate Drift(s: State, t: State, ours: set<Sid>, timerLost: bool) {
    var alive := timerLost || forall o :: o in ours && o in s.sessions ==> o in t.sessions;
    var moved := Untouched(s, t, ours) || Fired(s, t, ours) || (Dropped(s, t, ours) && (timerLost || s.rollback.value.owner !in ours));
    s.now <= t.now && s.nextSid <= t.nextSid && alive && moved
  }

  /** The pending rollback is called off, and what was applied stays. */
  ghost predicate Dropped(s: State, t: State, ours: set<Sid>) {
    && s.rollback.Some? && t.rollback.None? && t.committed == s.committed
    && forall o :: o in ours ==> Mine(t, o) == Mine(s, o)
  }

  ghost predicate Untouched(s: State, t: State, ours: set<Sid>) {
    && t.committed == s.committed && t.rollback == s.rollback
    && forall o :: o in ours ==> Mine(t, o) == Mine(s, o)
  }

  ghost predicate Fired(s: State, t: State, ours: set<Sid>) {
    && s.rollback.Some? && t.rollback.None?
    && s.rollback.value.deadline != 0 && s.rollback.value.deadline < t.now
    && t.committed == s.rollback.value.snapshot
    && forall o :: o in ours ==> Mine(t, o) == if o == s.rollback.value.owner then s.rollback.value.deltas else Mine(s, o)
  }

  lemma DriftComposes(s: State, t: State, u: State, ours: set<Sid>, lost: bool, lost': bool)
    requires Drift(s, t, ours, lost) && Drift(t, u, ours, lost') && (lost ==> lost')
    ensures Drift(s, u, ours, lost')
  {}

  /** Actions of the environment that no theorem needs to exclude. */
  predicate Harmless(a: Action, ours: set<Sid>) {
    match a
    case DoStage(sid, _, _) => sid !in ours
    case DoRevert(sid, _) => sid !in ours
    case DoConfirm(sid) => sid !in ours
    case DoDestroy(sid) => sid !in ours
    case DoWatchdog | DoAdvance(_) | DoLogin => true
    case DoRestart | DoCommit(_, _) | DoApply(_, _, _) | DoRollback => false
  }

  lemma HarmlessDrifts(s: State, a: Action, ours: set<Sid>, lost: bool)
    requires s.Valid() && (forall o :: o in ours ==> o < s.nextSid)
    requires Harmless(a, ours) || (a.DoRestart? && lost)
    ensures Drift(s, Next(s, a), ours, lost)
  {
    var t := Next(s, a);
    if a.DoWatchdog? && Expired(s) {
      assert Fired(s, t, ours);
    } else if t.rollback == s.rollback {
      assert Untouched(s, t, ours);
    }
  }

  lemma FiringDrifts(s: State, ripe: State, ours: set<Sid>, lost: bool)
    requires s.Valid() && ripe == s.(now := ripe.now) && s.now <= ripe.now && Expired(ripe)
    ensures var t := Watchdog(ripe);
            && t.Valid() && t.rollback.None? && t.now == ripe.now && t.nextSid == s.nextSid && t.sessions == s.sessions
            && Drift(s, t, ours, lost)
  {
    assert Fired(s, Watchdog(ripe), ours);
  }

  lemma ActionKeeps(s: State, a: Action, ours: set<Sid>, lag: nat, lost: bool, sid: Sid)
    requires s.Valid() && (forall o :: o in ours ==> o < s.nextSid)
    requires a.DoAdvance? ==> !(s.rollback.Some? && s.rollback.value.deadline != 0) || s.now + a.millis < s.rollback.value.deadline + lag
    requires a.DoRestart? ==> lost
    ensures var t := Next(s, a);
            && t.Valid() && s.now <= t.now && (t.now == s.now || a.DoAdvance?) && s.nextSid <= t.nextSid
            && (Harmless(a, ours) || a.DoRestart? ==>
                  && Drift(s, t, ours, lost)
                  && (Punctual(s, lag) ==> Punctual(t, lag))
                  && (sid in ours && sid in s.sessions && !a.DoRestart? ==> sid in t.sessions))
            && (Harmless(a, ours) ==> Drift(s, t, ours, false))
  {
    NextIsValid(s, a);
    if Harmless(a, ours) || a.DoRestart? {
      HarmlessDrifts(s, a, ours, lost);
    }
    if Harmless(a, ours) {
      HarmlessDrifts(s, a, ours, false);
    }
  }

  /** What a proof may know of a line at one moment. */
  datatype View = View(
    s: State, ours: set<Sid>, cancelled: bool, dropped: bool, timerLost: bool, mishaps: nat, interfered: bool)
  {
    /** Nothing was lost, the timer survived and nobody meddled. */
    ghost predicate Clean() {
      !dropped && !timerLost && !interfered
    }
  }

  /** Flags and time only go one way. */
  ghost predicate Onward(a: View, b: View) {
    && (a.dropped ==> b.dropped) && (a.timerLost ==> b.timerLost) && (a.interfered ==> b.interfered)
    && (a.cancelled ==> b.cancelled) && a.s.now <= b.s.now && a.ours <= b.ours && a.mishaps <= b.mishaps
  }

  /** Between the two nothing was lost and nothing restarted, whatever may have been lost before. */
  predicate Quiet(a: View, b: View) {
    b.mishaps == a.mishaps && !b.interfered
  }

  /** Only the environment acted. */
  ghost predicate Drifts(a: View, b: View) {
    && Onward(a, b) && b.ours == a.ours && (b.interfered || Drift(a.s, b.s, a.ours, b.timerLost))
    && (Quiet(a, b) ==> Drift(a.s, b.s, a.ours, false))
  }

  lemma DriftsCompose(a: View, b: View, c: View)
    requires Drifts(a, b) && Drifts(b, c)
    ensures Drifts(a, c)
  {
    if !c.interfered {
      DriftComposes(a.s, b.s, c.s, a.ours, b.timerLost, c.timerLost);
      if Quiet(a, c) {
        DriftComposes(a.s, b.s, c.s, a.ours, false, false);
      }
    }
  }

  /**
   The story of one call: the device was in `s` when the request reached it, or when the
   request was given up, and in `t` right after.
   */
  ghost predicate Called(a: View, s: State, t: State, b: View) {
    && Onward(a, b) && b.ours == a.ours
    && (b.interfered || (Drift(a.s, s, a.ours, b.timerLost) && Drift(t, b.s, a.ours, b.timerLost)))
    && a.s.now <= s.now <= b.s.now
  }

  /** Before an action that is not harmless something is put on record. */
  ghost predicate Noted(a: View, b: View, harmless: bool) {
    && b == a.(timerLost := b.timerLost, mishaps := b.mishaps, interfered := b.interfered)
    && Onward(a, b) && (harmless || b.mishaps > a.mishaps || b.interfered)
  }

  lemma Acted(a: View, noted: View, b: View, harmless: bool)
    requires Noted(a, noted, harmless)
    requires b == noted.(s := b.s) && a.s.now <= b.s.now
    requires b.interfered || Drift(a.s, b.s, a.ours, b.timerLost)
    requires harmless ==> Drift(a.s, b.s, a.ours, false)
    ensures Drifts(a, b)
  {}

  /** The way there, the device's own step, and the way back make one call. */
  lemma Assembled(a: View, reached: View, served: View, b: View)
    requires Drifts(a, reached) && Drifts(served, b)
    requires served == reached.(s := served.s) && served.s.now == reached.s.now
    ensures Called(a, reached.s, served.s, b) && CalledQuietly(a, reached.s, served.s, b)
  {}

  lemma NeverServed(a: View, b: View)
    requires Drifts(a, b)
    ensures Called(a, b.s, b.s, b)
  {}

  /** The same, sharper, for a call on which nothing was lost and nothing restarted. */
  ghost predicate CalledQuietly(a: View, s: State, t: State, b: View) {
    Quiet(a, b) ==> Drift(a.s, s, a.ours, false) && Drift(t, b.s, b.ours, false)
  }

  /** A call the device never saw, or refused because the token is dead. */
  ghost predicate Unserved<T>(r: Reply<T>, s: State, t: State, b: View) {
    s == t && ((r == Lost && b.dropped) || (r == Refused(Denied) && (b.timerLost || b.interfered)))
  }

  class Line {
    const dev: Device
    const sid: Sid
    const lag: nat
    const blank: bool
    /** The caller's context: it may carry a deadline and may be cancelled at any moment. */
    const ctxDeadline: Option<nat>
    var cancelled: bool
    /** The wire itself loses nothing: a call can only fail for want of its context. */
    const reliable: bool

    ghost var ours: set<Sid>
    ghost var log: seq<Event>
    /** A request or a reply was lost, or was never sent because the context had ended. */
    ghost var dropped: bool
    /** rpcd restarted: the timer and the sessions died with it. */
    ghost var timerLost: bool
    /** How often either has happened. */
    ghost var mishaps: nat
    /** A third party committed, applied, forced a rollback, or acted on one of our tokens. */
    ghost var interfered: bool

    constructor (dev: Device, sid: Sid, lag: nat, blank: bool, ctxDeadline: Option<nat>, reliable: bool)
      requires dev.Now().Valid() && Punctual(dev.Now(), lag) && sid in dev.sessions && lag > 0
      ensures Valid() && fresh(this) && this.dev == dev && this.sid == sid && ours == {sid} && this.reliable == reliable
      ensures !dropped && !timerLost && !interfered && log == []
    {
      this.dev, this.sid, this.lag, this.blank, this.ctxDeadline, this.reliable := dev, sid, lag, blank, ctxDeadline, reliable;
      cancelled, ours, log := false, {sid}, [];
      dropped, timerLost, mishaps, interfered := false, false, 0, false;
    }

    ghost predicate Valid()
      reads this, dev
    {
      && dev.Now().Valid() && lag > 0
      && (interfered || Punctual(dev.Now(), lag))
      && sid in ours && (forall o :: o in ours ==> o < dev.nextSid)
      && (interfered || timerLost || sid in dev.sessions)
    }

    predicate CtxDone()
      reads this, dev
    {
      cancelled || (ctxDeadline.Some? && dev.now >= ctxDeadline.value)
    }

    ghost function Seen(): View
      reads this, dev
    {
      View(dev.Now(), ours, cancelled, dropped, timerLost, mishaps, interfered)
    }

    /** The environment acts, any number of times; while `frozen` it acts in no time at all. */
    method Pass(frozen: bool := false)
      requires Valid()
      modifies this`cancelled, this`timerLost, this`mishaps, this`interfered, dev
      ensures Valid() && Drifts(old(Seen()), Seen()) && (frozen ==> dev.now == old(dev.now))
    {
      var steps: nat := *;
      while steps > 0
        invariant Valid() && Drifts(old(Seen()), Seen()) && (frozen ==> dev.now == old(dev.now))
      {
        var a: Action := *;
        ghost var mid := Seen();
        Act(a, frozen);
        DriftsCompose(old(Seen()), mid, Seen());
        steps := steps - 1;
      }
    }

    /** One action of somebody else's, provided it does not starve the watchdog. */
    method Act(a: Action, frozen: bool)
      requires Valid()
      modifies this`cancelled, this`timerLost, this`mishaps, this`interfered, dev
      ensures Valid() && Drifts(old(Seen()), Seen()) && (frozen ==> dev.now == old(dev.now))
    {
      var cancel: bool := *;
      cancelled := cancelled || cancel;
      var starves := a.DoAdvance? && dev.rollback.Some? && dev.rollback.value.deadline != 0
        && dev.now + a.millis >= dev.rollback.value.deadline + lag;
      if starves || (frozen && a.DoAdvance?) {
        return;
      }
      Undergo(a);
    }

    method Undergo(a: Action)
      requires Valid()
      requires a.DoAdvance? ==> !(dev.rollback.Some? && dev.rollback.value.deadline != 0)
                                || dev.now + a.millis < dev.rollback.value.deadline + lag
      modifies this`timerLost, this`mishaps, this`interfered, dev
      ensures Valid() && Drifts(old(Seen()), Seen()) && (a.DoAdvance? || dev.now == old(dev.now))
    {
      Note(a);
      ghost var noted := Seen();
      Happen(a);
      Acted(old(Seen()), noted, Seen(), Harmless(a, ours));
    }

    /** What the action breaks goes on record first. */
    method Note(a: Action)
      requires Valid()
      modifies this`timerLost, this`mishaps, this`interfered
      ensures Valid() && Noted(old(Seen()), Seen(), Harmless(a, ours))
      ensures (a.DoRestart? ==> timerLost) && (Harmless(a, ours) || a.DoRestart? || interfered)
    {
      if a.DoRestart? {
        timerLost, mishaps := true, mishaps + 1;
      } else if !Harmless(a, ours) {
        interfered := true;
      }
    }

    /** The action itself, once it has been noted what it breaks. */
    method Happen(a: Action)
      requires Valid() && (a.DoRestart? ==> timerLost) && (Harmless(a, ours) || a.DoRestart? || interfered)
      requires a.DoAdvance? ==> !(dev.rollback.Some? && dev.rollback.value.deadline != 0)
                                || dev.now + a.millis < dev.rollback.value.deadline + lag
      modifies dev
      ensures Valid() && Seen() == old(Seen()).(s := dev.Now()) && old(dev.now) <= dev.now
      ensures a.DoAdvance? || dev.now == old(dev.now)
      ensures interfered || Drift(old(dev.Now()), dev.Now(), ours, timerLost)
      ensures Harmless(a, ours) ==> Drift(old(dev.Now()), dev.Now(), ours, false)
    {
      ActionKeeps(dev.Now(), a, ours, lag, timerLost, sid);
      dev.Perform(a);
    }

    /** A request travels to the device, or is lost on the way. */
    method Arrive(detached: bool) returns (there: bool)
      requires Valid()
      modifies this`cancelled, this`timerLost, this`mishaps, this`interfered, this`dropped, dev
      ensures Valid() && Drifts(old(Seen()), Seen())
      ensures there || (dropped && mishaps > old(mishaps))
      ensures !detached && old(CtxDone()) ==> !there
      ensures detached && reliable ==> there
    {
      Pass();
      there := *;
      if reliable {
        there := true;
      }
      if CtxDone() && !detached {
        there := false;
      }
      if !there {
        dropped, mishaps := true, mishaps + 1;
      }
    }

    /** A reply travels back, or is lost. */
    method Return(detached: bool := false) returns (back: bool)
      requires Valid()
      modifies this`cancelled, this`timerLost, this`mishaps, this`interfered, this`dropped, dev
      ensures Valid() && Drifts(old(Seen()), Seen())
      ensures back || (dropped && mishaps > old(mishaps))
      ensures detached && reliable ==> back
    {
      Pass();
      back := *;
      if reliable && (detached || !CtxDone()) {
        back := true;
      }
      if !back {
        dropped, mishaps := true, mishaps + 1;
      }
    }

    /** What the device makes of a `uci.add`, `set` or `delete`. */
    method ServeStage(config: string, delta: Delta) returns (r: Reply<()>)
      requires Valid()
      modifies dev
      ensures Valid() && Seen() == old(Seen()).(s := dev.Now()) && dev.now == old(dev.now)
      ensures r == if sid !in old(dev.sessions) then Refused(Denied) else if config !in old(dev.committed) then Refused(NotFound) else Answered(())
      ensures dev.Now() == if r.Answered? then Stage(old(dev.Now()), sid, config, delta) else old(dev.Now())
    {
      if sid !in dev.sessions {
        r := Refused(Denied);
      } else if config !in dev.committed {
        r := Refused(NotFound);
      } else {
        r := Answered(());
        dev.StageOp(sid, config, delta);
      }
    }

    method StageCall(config: string, delta: Delta) returns (r: Reply<()>, ghost s: State, ghost t: State)
      requires Valid()
      modifies this`cancelled, this`timerLost, this`mishaps, this`interfered, this`dropped, dev
      ensures Valid() && Called(old(Seen()), s, t, Seen())
      ensures Unserved(r, s, t, Seen())
        || (config !in s.committed && t == s && (r == Refused(NotFound) || (r == Lost && dropped)))
        || (config in s.committed && t == Stage(s, sid, config, delta) && (r == Answered(()) || (r == Lost && dropped)))
    {
      var there := Arrive(false);
      s, t := dev.Now(), dev.Now();
      ghost var reached := Seen();
      NeverServed(old(Seen()), reached);
      if !there {
        return Lost, s, t;
      }
      r := ServeStage(config, delta);
      t := dev.Now();
      ghost var served := Seen();
      var back := Return();
      Assembled(old(Seen()), reached, served, Seen());
      if !back {
        r := Lost;
      }
    }

    method ChangesCall() returns (r: Reply<Deltas>, ghost s: State)
      requires Valid()
      modifies this`cancelled, this`timerLost, this`mishaps, this`interfered, this`dropped, dev
      ensures Valid() && Called(old(Seen()), s, s, Seen())
      ensures Unserved(r, s, s, Seen()) || r == Answered(Mine(s, sid))
    {
      var there := Arrive(false);
      s := dev.Now();
      if !there {
        return Lost, s;
      }
      r := if sid in dev.sessions then Answered(dev.Own(sid)) else Refused(Denied);
      var back := Return();
      if !back {
        r := Lost;
      }
    }

    method RevertCall(config: string, detached: bool) returns (r: Reply<()>, ghost s: State, ghost t: State)
      requires Valid()
      modifies this`cancelled, this`timerLost, this`mishaps, this`interfered, this`dropped, dev
      ensures Valid() && Called(old(Seen()), s, t, Seen())
      ensures !detached && old(CtxDone()) ==> dropped
      ensures detached && reliable && !timerLost && !interfered ==> r.Answered?
      ensures Unserved(r, s, t, Seen())
        || (t == Revert(s, sid, config) && (r == Answered(()) || (r == Lost && dropped)))
    {
      var there := Arrive(detached);
      s, t := dev.Now(), dev.Now();
      ghost var reached := Seen();
      NeverServed(old(Seen()), reached);
      if !there {
        return Lost, s, t;
      }
      r := Refused(Denied);
      if sid in dev.sessions {
        r := Answered(());
        dev.RevertConfig(sid, config);
      }
      t := dev.Now();
      ghost var served := Seen();
      var back := Return(detached);
      Assembled(old(Seen()), reached, served, Seen());
      if !back {
        r := Lost;
      }
    }

    method CommitCall(config: string) returns (r: Reply<()>, ghost s: State, ghost t: State)
      requires Valid()
      modifies this`cancelled, this`timerLost, this`mishaps, this`interfered, this`dropped, dev
      ensures Valid() && Called(old(Seen()), s, t, Seen())
      ensures Unserved(r, s, t, Seen())
        || (t == Commit(s, sid, config) && (r == Answered(()) || (r == Lost && dropped)))
    {
      var there := Arrive(false);
      s, t := dev.Now(), dev.Now();
      ghost var reached := Seen();
      NeverServed(old(Seen()), reached);
      if !there {
        return Lost, s, t;
      }
      r := Refused(Denied);
      if sid in dev.sessions {
        r := Answered(());
        dev.CommitConfig(sid, config);
      }
      t := dev.Now();
      ghost var served := Seen();
      var back := Return();
      Assembled(old(Seen()), reached, served, Seen());
      if !back {
        r := Lost;
      }
    }

    method ServeApply(timeout: nat) returns (r: Reply<()>)
      requires Valid()
      modifies dev
      ensures Valid() && Seen() == old(Seen()).(s := dev.Now()) && dev.now == old(dev.now)
      ensures r == if sid !in old(dev.sessions) then Refused(Denied)
                   else if ApplyRefused(old(dev.Now()), sid) then Refused(PermissionDenied) else Answered(())
      ensures dev.Now() == if r.Answered? then Apply(old(dev.Now()), sid, true, timeout) else old(dev.Now())
    {
      r := Refused(Denied);
      if sid in dev.sessions {
        var status := dev.ApplyAll(sid, true, timeout);
        r := if status == Success then Answered(()) else Refused(status);
      }
    }

    method ApplyCall(timeout: nat) returns (r: Reply<()>, ghost s: State, ghost t: State)
      requires Valid()
      modifies this`cancelled, this`timerLost, this`mishaps, this`interfered, this`dropped, this`log, dev
      ensures Valid() && Called(old(Seen()), s, t, Seen()) && log == old(log) + [ApplySent(old(dev.now))]
      ensures Unserved(r, s, t, Seen())
        || (ApplyRefused(s, sid) && t == s && (r == Refused(PermissionDenied) || (r == Lost && dropped)))
        || (!ApplyRefused(s, sid) && t == Apply(s, sid, true, timeout) && (r == Answered(()) || (r == Lost && dropped)))
    {
      log := log + [ApplySent(dev.now)];
      var there := Arrive(false);
      s, t := dev.Now(), dev.Now();
      ghost var reached := Seen();
      NeverServed(old(Seen()), reached);
      if !there {
        return Lost, s, t;
      }
      r := ServeApply(timeout);
      t := dev.Now();
      ghost var served := Seen();
      var back := Return();
      Assembled(old(Seen()), reached, served, Seen());
      if !back {
        r := Lost;
      }
    }

    method ServeConfirm() returns (r: Reply<()>)
      requires Valid()
      modifies dev
      ensures Valid() && Seen() == old(Seen()).(s := dev.Now()) && dev.now == old(dev.now)
      ensures r == if sid !in old(dev.sessions) then Refused(Denied)
                   else if ConfirmStatus(old(dev.Now()), sid) == Success then Answered(()) else Refused(ConfirmStatus(old(dev.Now()), sid))
      ensures dev.Now() == if sid in old(dev.sessions) then Confirm(old(dev.Now()), sid) else old(dev.Now())
    {
      r := Refused(Denied);
      if sid in dev.sessions {
        var status := dev.ConfirmApply(sid);
        r := if status == Success then Answered(()) else Refused(status);
      }
    }

    method ConfirmCall() returns (r: Reply<()>, ghost s: State, ghost t: State)
      requires Valid()
      modifies this`cancelled, this`timerLost, this`mishaps, this`interfered, this`dropped, this`log, dev
      ensures Valid() && Called(old(Seen()), s, t, Seen()) && log == old(log) + [ConfirmSent(old(dev.now))]
      ensures Unserved(r, s, t, Seen())
        || (t == Confirm(s, sid) && ((r == Lost && dropped)
              || r == (if ConfirmStatus(s, sid) == Success then Answered(()) else Refused(ConfirmStatus(s, sid)))))
    {
      log := log + [ConfirmSent(dev.now)];
      var there := Arrive(false);
      s, t := dev.Now(), dev.Now();
      ghost var reached := Seen();
      NeverServed(old(Seen()), reached);
      if !there {
        return Lost, s, t;
      }
      r := ServeConfirm();
      t := dev.Now();
      ghost var served := Seen();
      var back := Return();
      Assembled(old(Seen()), reached, served, Seen());
      if !back {
        r := Lost;
      }
    }

    /** `uci.get` of one option on the token `token`, which is ours. */
    method GetCall(token: Sid, config: string, section: string, option: string)
      returns (r: Reply<Reading>, ghost s: State)
      requires Valid()
      modifies this`cancelled, this`timerLost, this`mishaps, this`interfered, this`dropped, dev
      ensures Valid() && Called(old(Seen()), s, s, Seen())
      ensures CalledQuietly(old(Seen()), s, s, Seen()) && (r == Lost ==> mishaps > old(mishaps))
      ensures (r == Lost && dropped) || (r == Refused(Denied) && token !in s.sessions)
        || r == Answered(ReadOption(Effective(s, token, config), section, option, blank))
    {
      var there := Arrive(false);
      s := dev.Now();
      ghost var reached := Seen();
      NeverServed(old(Seen()), reached);
      if !there {
        return Lost, s;
      }
      if token in dev.sessions {
        var cfg := dev.EffectiveConfig(token, config);
        r := Answered(ReadOption(cfg, section, option, blank));
      } else {
        r := Refused(Denied);
      }
      var back := Return();
      Assembled(old(Seen()), reached, reached, Seen());
      if !back {
        r := Lost;
      }
    }

    /** `file.list` of the system savedir: what other people have staged there is theirs to choose. */
    method ListCall() returns (r: Reply<seq<(string, nat)>>)
      requires Valid()
      modifies this`cancelled, this`timerLost, this`mishaps, this`interfered, this`dropped, dev
      ensures Valid() && Drifts(old(Seen()), Seen())
      ensures r == Lost ==> dropped
      ensures r.Refused? ==> r.status == NotFound || (r.status == Denied && (timerLost || interfered))
    {
      var there := Arrive(false);
      ghost var mid := Seen();
      var absent: bool := *;
      var entries: seq<(string, nat)> := *;
      r := if !there then Lost
           else if sid !in dev.sessions then Refused(Denied)
           else if absent then Refused(NotFound) else Answered(entries);
      var back := Return();
      DriftsCompose(old(Seen()), mid, Seen());
      if !back {
        r := Lost;
      }
    }

    /** A second login with the same credential: the verification session. */
    method LoginCall() returns (r: Reply<Sid>, ghost s: State, ghost t: State)
      requires Valid()
      modifies this`cancelled, this`timerLost, this`mishaps, this`interfered, this`dropped, this`ours, dev
      ensures Valid() && Onward(old(Seen()), Seen()) && old(dev.now) <= s.now <= dev.now
      ensures interfered || (Drift(old(dev.Now()), s, old(ours), timerLost) && Drift(t, dev.Now(), ours, timerLost))
      ensures CalledQuietly(old(Seen()), s, t, Seen())
      ensures r.Refused? ==> false
      ensures r == Lost ==> dropped && mishaps > old(mishaps)
      ensures old(CtxDone()) ==> r == Lost
      ensures s.Valid() && (t == s || t == Login(s))
      ensures r.Answered? ==> t == Login(s) && r.value == LoginToken(s) && r.value in t.sessions && ours == old(ours) + {r.value}
      ensures r == Lost ==> ours == old(ours)
    {
      var there := Arrive(false);
      s, t := dev.Now(), dev.Now();
      if !there {
        return Lost, s, t;
      }
      var token := ServeLogin();
      t := dev.Now();
      r := HandOver(token);
    }

    method ServeLogin() returns (token: Sid)
      requires Valid()
      modifies dev
      ensures Valid() && Seen() == old(Seen()).(s := Login(old(dev.Now()))) && dev.now == old(dev.now)
      ensures token == LoginToken(old(dev.Now())) && token in dev.sessions && token < dev.nextSid
    {
      NextIsValid(dev.Now(), DoLogin);
      token := dev.NewLogin();
    }

    /** The token becomes ours if the reply comes back. */
    method HandOver(token: Sid) returns (r: Reply<Sid>)
      requires Valid() && token < dev.nextSid
      modifies this`cancelled, this`timerLost, this`mishaps, this`interfered, this`dropped, this`ours, dev
      ensures Valid() && Onward(old(Seen()), Seen()) && (interfered || Drift(old(dev.Now()), dev.Now(), ours, timerLost))
      ensures Quiet(old(Seen()), Seen()) ==> Drift(old(dev.Now()), dev.Now(), ours, false)
      ensures (r == Answered(token) && ours == old(ours) + {token})
              || (r == Lost && dropped && mishaps > old(mishaps) && ours == old(ours))
    {
      ghost var held := ours;
      ours := ours + {token};
      var back := Return();
      if back {
        r := Answered(token);
      } else {
        ours := held;
        r := Lost;
      }
    }

    /** `time.After` raced against the end of the context; a tie may go either way. */
    method Wait(until: nat) returns (woke: bool)
      requires Valid()
      modifies this`cancelled, this`timerLost, this`mishaps, this`interfered, dev
      ensures Valid() && Drifts(old(Seen()), Seen())
      ensures woke ==> dev.now >= until
      ensures !woke ==> CtxDone()
      ensures (old(dev.now) <= until && !cancelled && (ctxDeadline.None? || until < ctxDeadline.value)) ==>
                woke && dev.now == until
    {
      Pass(true);
      var target := if ctxDeadline.Some? && ctxDeadline.value < until then ctxDeadline.value else until;
      if dev.now < target && !cancelled {
        ghost var mid := Seen();
        TickUntil(target);
        DriftsCompose(old(Seen()), mid, Seen());
      }
      ghost var mid := Seen();
      Pass(true);
      DriftsCompose(old(Seen()), mid, Seen());
      woke := dev.now >= until;
      var lose: bool := *;
      if CtxDone() && lose {
        woke := false;
      }
    }

    /** Time reaches `until`; an overdue watchdog runs before the clock may pass it. */
    method TickUntil(until: nat)
      requires Valid() && dev.now < until
      modifies this`timerLost, this`mishaps, this`interfered, dev
      ensures Valid() && Drifts(old(Seen()), Seen()) && dev.now == until
    {
      ghost var s0 := dev.Now();
      if dev.rollback.Some? && dev.rollback.value.deadline != 0 && until >= dev.rollback.value.deadline + lag {
        var fire := dev.rollback.value.deadline + 1;
        if dev.now < fire {
          dev.now := fire;
        }
        ghost var ripe := dev.Now();
        dev.WatchdogPass();
        FiringDrifts(s0, ripe, ours, timerLost);
        FiringDrifts(s0, ripe, ours, false);
      }
      ghost var mid := dev.Now();
      dev.now := until;
      assert interfered || Drift(s0, mid, ours, timerLost);
      assert Drift(s0, mid, ours, false);
    }
  }
}
