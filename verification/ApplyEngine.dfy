/**
 The apply engine of internal/applyengine/engine.go: preflight, stage, verify, arm,
 health, confirm, await the revert. The engine is an object whose methods drive one lossy
 `Line` to one device; their contracts speak of every run of that line.
 */
module ApplyEngine {
  import opened Options
  import opened UciDevice
  import opened Link
  import opened Plans
  import opened PlanEffects

  datatype Outcome = Applied | Reverted | Unknown

  datatype Error =
    | EmptyPlan
    | SavedirUnreadable
    | ForeignEdits(configs: seq<string>)
    | TraversalNotAcknowledged
    | StageFailed
    | NothingStaged(config: string)
    | UnexpectedStaged
    | ChangesUnreadable
    | ContextEnded
    | BudgetTooShort
    | AnotherApplyArmed
    | ApplyFailed

  datatype Verdict = Failed(error: Error) | Decided(outcome: Outcome, stranded: bool)

  // ---- the device before we arm it ---------------------------------------------

  ghost predicate Unarmed(s: State, sid: Sid) {
    s.rollback.Some? ==> s.rollback.value.owner != sid
  }

  ghost predicate Idle(s: State, sid: Sid, d: Deltas) {
    Unarmed(s, sid) && Mine(s, sid) == d
  }

  ghost predicate ReadsCommitted(s: State, sid: Sid) {
    s.rollback.None? && Mine(s, sid) == map[]
  }

  /** Nothing moves committed configuration but a rollback that somebody else had pending. */
  ghost predicate Calm(s: State, t: State) {
    || (t.rollback == s.rollback && t.committed == s.committed)
    || (s.rollback.Some? && t.rollback.None? && (t.committed == s.committed || t.committed == s.rollback.value.snapshot))
  }

  ghost predicate PreStep(a: View, b: View, sid: Sid) {
    && Onward(a, b) && b.ours == a.ours
    && (!b.interfered && Unarmed(a.s, sid) ==> Unarmed(b.s, sid) && Calm(a.s, b.s))
  }

  /** Nothing the plan stages is left, under whatever context. */
  ghost predicate CleanedAway(a: View, b: View, sid: Sid, plan: Plan) {
    !b.interfered && Unarmed(a.s, sid) ==> forall c :: c in Configs(plan.ops) ==> c !in Mine(b.s, sid)
  }

  lemma UnarmedDrifts(s: State, t: State, sid: Sid, ours: set<Sid>, lost: bool)
    requires Drift(s, t, ours, lost) && sid in ours && Unarmed(s, sid)
    ensures Unarmed(t, sid) && Mine(t, sid) == Mine(s, sid) && Calm(s, t)
  {}

  lemma DriftsArePreSteps(a: View, b: View, sid: Sid)
    requires Drifts(a, b) && sid in a.ours
    ensures PreStep(a, b, sid)
    ensures !b.interfered && Unarmed(a.s, sid) ==> Mine(b.s, sid) == Mine(a.s, sid)
  {}

  lemma PreStepsCompose(a: View, b: View, c: View, sid: Sid)
    requires PreStep(a, b, sid) && PreStep(b, c, sid)
    ensures PreStep(a, c, sid)
  {}

  // ---- the device once we have armed it -------------------------------------------

  /** What an armed apply put at stake: the store before it, the delta, the device's deadline. */
  datatype Stake = Stake(pre: Store, deltas: Deltas, deadline: nat) {
    function Post(): Store { CommitAll(pre, deltas) }
  }

  ghost predicate Armed(s: State, sid: Sid, k: Stake) {
    && s.rollback == Some(Pending(k.pre, k.deltas, sid, k.deadline)) && k.deadline != 0
    && s.committed == k.Post() && Mine(s, sid) == map[]
  }

  ghost predicate Restored(s: State, sid: Sid, k: Stake) {
    s.rollback.None? && s.committed == k.pre && Mine(s, sid).Keys <= k.deltas.Keys
  }

  ghost predicate Kept(s: State, sid: Sid, k: Stake) {
    s.rollback.None? && s.committed == k.Post() && Mine(s, sid) == map[]
  }

  /** The change stands, for the time being or for good. */
  ghost predicate Standing(s: State, sid: Sid, k: Stake) {
    Armed(s, sid, k) || Kept(s, sid, k)
  }

  /** Every state a device can be in once our apply has armed it. */
  ghost predicate After(s: State, sid: Sid, k: Stake, kept: bool) {
    Armed(s, sid, k) || Restored(s, sid, k) || (kept && Kept(s, sid, k))
  }

  lemma AfterDrifts(s: State, t: State, sid: Sid, ours: set<Sid>, k: Stake, kept: bool, lost: bool)
    requires Drift(s, t, ours, lost) && sid in ours && After(s, sid, k, kept)
    ensures After(t, sid, k, kept || lost)
    ensures Restored(s, sid, k) ==> Restored(t, sid, k) && Mine(t, sid) == Mine(s, sid)
    ensures Kept(s, sid, k) ==> Kept(t, sid, k)
    ensures Armed(s, sid, k) && Restored(t, sid, k) && !lost ==> Mine(t, sid) == k.deltas || Armed(t, sid, k)
    ensures forall v :: v in ours && v != sid ==> Mine(t, v) == Mine(s, v)
  {}

  /** Steps of the engine on an armed device. */
  ghost predicate PostStep(a: View, b: View, sid: Sid, k: Stake, kept: bool, kept': bool) {
    && Onward(a, b)
    && (!b.interfered && After(a.s, sid, k, kept) ==> After(b.s, sid, k, kept' || b.timerLost))
  }

  // ---- reading -----------------------------------------------------------

  /** A token that lays nothing over committed state unless it is the applier's own. */
  ghost predicate Reader(s: State, v: Sid, sid: Sid) {
    v == sid || Mine(s, v) == map[]
  }

  lemma CleanReaderReadsCommitted(s: State, v: Sid, key: Key, blank: bool)
    requires Mine(s, v) == map[]
    ensures ReadOption(Effective(s, v, key.0), key.1, key.2, blank) == ReadFrom(s.committed, key, blank)
  {}

  /** In every state but the restored one, any reader reads the new state. */
  lemma UnrestoredReadsPost(s: State, v: Sid, sid: Sid, k: Stake, kept: bool, key: Key, blank: bool)
    requires After(s, sid, k, kept) && !Restored(s, sid, k) && Reader(s, v, sid)
    ensures ReadOption(Effective(s, v, key.0), key.1, key.2, blank) == ReadFrom(k.Post(), key, blank)
  {}

  // ---- steps of the staging ------------------------------------------------

  function Piled(d: Deltas, c: string, delta: Delta): Deltas {
    d[c := (if c in d then d[c] else []) + [delta]]
  }

  predicate Stageable(ops: seq<Op>, store: Store) {
    forall i :: 0 <= i < |ops| ==> WellShaped(ops[i]) && ops[i].config in store
  }

  /** The config is there, and is so still if a pending rollback fires. */
  predicate Lasting(c: string, s: State) {
    c in s.committed && (s.rollback.Some? ==> c in s.rollback.value.snapshot)
  }

  predicate StageableThroughout(ops: seq<Op>, s: State) {
    forall i :: 0 <= i < |ops| ==> WellShaped(ops[i]) && Lasting(ops[i].config, s)
  }

  /** One operation staged, or refused, or of unknown fate. */
  ghost predicate OneStaged(a: View, b: View, sid: Sid, c: string, delta: Delta, answered: bool) {
    var staged := !b.interfered && Unarmed(a.s, sid) ==>
                    || Mine(b.s, sid) == Piled(Mine(a.s, sid), c, delta)
                    || (!answered && Mine(b.s, sid) == Mine(a.s, sid));
    var clean := && (b.Clean() && a.s.rollback.None? ==> (answered <==> c in a.s.committed))
                 && (b.Clean() && Unarmed(a.s, sid) && Lasting(c, a.s) ==> answered);
    PreStep(a, b, sid) && staged && clean
  }

  /** The first `n` operations have been tried; `ok` says that all of them are staged. */
  ghost predicate SomeStaged(a: View, b: View, sid: Sid, ops: seq<Op>, n: nat, names: seq<string>, ok: bool)
    requires n <= |ops|
  {
    var staged := !b.interfered && Idle(a.s, sid, map[]) ==>
                    && (forall c :: c in Mine(b.s, sid) ==> c in Configs(ops))
                    && (ok ==> |names| == n && Mine(b.s, sid) == PlanDeltas(ops[..n], names));
    var clean := && (b.Clean() && a.s.rollback.None? ==> (ok <==> forall j :: 0 <= j < n ==> ops[j].config in a.s.committed))
                 && (b.Clean() && Unarmed(a.s, sid) && (forall j :: 0 <= j < n ==> Lasting(ops[j].config, a.s)) ==> ok);
    PreStep(a, b, sid) && staged && clean
  }

  lemma StagingStep(a: View, b: View, c: View, sid: Sid, ops: seq<Op>, n: nat, names: seq<string>, name: string,
                    ok: bool, answered: bool)
    requires n < |ops| && SomeStaged(a, b, sid, ops, n, names, ok)
    requires OneStaged(b, c, sid, ops[n].config, DeltaOf(ops[n], name), answered)
    ensures SomeStaged(a, c, sid, ops, n + 1, names + [name], ok && answered)
  {
    ConfigsAreTheConfigs(ops);
    assert ops[n].config in Configs(ops);
    PreStepsCompose(a, b, c, sid);
    if !c.interfered && Idle(a.s, sid, map[]) && ok && answered {
      StagingOneMore(ops[..n], names, ops[n], name);
      assert ops[..n + 1] == ops[..n] + [ops[n]];
    }
    StagingStepCleanly(a, b, c, sid, ops, n, names, name, ok, answered);
  }

  lemma StagingStepCleanly(a: View, b: View, c: View, sid: Sid, ops: seq<Op>, n: nat, names: seq<string>, name: string,
                           ok: bool, answered: bool)
    requires n < |ops| && SomeStaged(a, b, sid, ops, n, names, ok)
    requires OneStaged(b, c, sid, ops[n].config, DeltaOf(ops[n], name), answered)
    ensures c.Clean() && a.s.rollback.None? ==> (ok && answered <==> forall j :: 0 <= j < n + 1 ==> ops[j].config in a.s.committed)
    ensures c.Clean() && Unarmed(a.s, sid) && (forall j :: 0 <= j < n + 1 ==> Lasting(ops[j].config, a.s)) ==> ok && answered
  {}

  lemma NamesGrow(ops: seq<Op>, n: nat, names: seq<string>, name: string)
    requires n < |ops| && (ops[n].name != "" ==> name == ops[n].name)
    ensures Names(ops[..n], names) ==> Names(ops[..n + 1], names + [name])
  {}

  /** The whole plan tried. */
  ghost predicate AllStaged(a: View, b: View, sid: Sid, ops: seq<Op>, names: seq<string>, ok: bool) {
    && PreStep(a, b, sid)
    && (ok ==> Names(ops, names) && Shaped(ops))
    && (!b.interfered && Idle(a.s, sid, map[]) ==>
          && (forall c :: c in Mine(b.s, sid) ==> c in Configs(ops))
          && (ok ==> Mine(b.s, sid) == PlanDeltas(ops, names)))
    && (b.Clean() && a.s.rollback.None? ==> (ok <==> Stageable(ops, a.s.committed)))
    && (b.Clean() && Unarmed(a.s, sid) && StageableThroughout(ops, a.s) ==> ok)
  }

  predicate CoversExactly(d: Deltas, configs: seq<string>) {
    && (forall c :: c in configs ==> c in d && d[c] != [])
    && (forall c :: c in d ==> c in configs)
  }

  ghost predicate StagedVerified(a: View, b: View, sid: Sid, configs: seq<string>, passed: bool) {
    && PreStep(a, b, sid)
    && (!b.interfered && Unarmed(a.s, sid) ==>
          && Mine(b.s, sid) == Mine(a.s, sid)
          && (passed ==> CoversExactly(Mine(a.s, sid), configs))
          && (b.Clean() && CoversExactly(Mine(a.s, sid), configs) ==> passed))
  }

  // ---- steps of giving the delta up --------------------------------------------

  function Elements(configs: seq<string>): set<string> {
    set c | c in configs
  }

  /** What reverting the staged deltas of `configs` may have done, armed or not. */
  ghost predicate Discards(a: View, b: View, sid: Sid, configs: set<string>, ok: bool, k: Stake, kept: bool) {
    var steps := PreStep(a, b, sid) && PostStep(a, b, sid, k, kept, kept);
    var gone := !b.interfered && Unarmed(a.s, sid) ==>
                  && Mine(b.s, sid).Keys <= Mine(a.s, sid).Keys
                  && (ok ==> Mine(b.s, sid) == Mine(a.s, sid) - configs);
    steps && (b.Clean() ==> ok) && gone
  }

  lemma OneDiscarded(a: View, s: State, t: State, b: View, sid: Sid, config: string, ok: bool, k: Stake, kept: bool)
    requires Called(a, s, t, b) && sid in a.ours && (b.Clean() ==> ok) && (ok ==> t == Revert(s, sid, config))
    requires t == s || t == Revert(s, sid, config)
    ensures Discards(a, b, sid, {config}, ok, k, kept)
  {
    RevertingKeeps(a, s, t, b, sid, config, k, kept);
    if !b.interfered && Unarmed(a.s, sid) {
      UnarmedDrifts(a.s, s, sid, a.ours, b.timerLost);
      UnarmedDrifts(t, b.s, sid, a.ours, b.timerLost);
    }
  }

  lemma RevertingKeeps(a: View, s: State, t: State, b: View, sid: Sid, config: string, k: Stake, kept: bool)
    requires Called(a, s, t, b) && sid in a.ours && (t == s || t == Revert(s, sid, config))
    ensures PostStep(a, b, sid, k, kept, kept)
  {
    if !b.interfered && After(a.s, sid, k, kept) {
      AfterDrifts(a.s, s, sid, a.ours, k, kept, b.timerLost);
      AfterDrifts(t, b.s, sid, a.ours, k, kept || b.timerLost, b.timerLost);
    }
  }

  lemma DiscardsCompose(a: View, b: View, c: View, sid: Sid, first: set<string>, second: set<string>, ok: bool, ok': bool,
                        k: Stake, kept: bool)
    requires Discards(a, b, sid, first, ok, k, kept) && Discards(b, c, sid, second, ok', k, kept || b.timerLost)
    ensures Discards(a, c, sid, first + second, ok && ok', k, kept)
  {}

  // ---- steps of the confirmation ---------------------------------------------

  /** `confirmed` says whether the device has taken a confirm of ours. */
  ghost predicate Confirms(a: View, b: View, sid: Sid, k: Stake, kept: bool, confirmed: bool, learned: bool) {
    var steps := PostStep(a, b, sid, k, kept, kept || confirmed) && b.ours == a.ours;
    var told := (learned ==> confirmed) && (b.Clean() ==> (confirmed <==> learned));
    var stays := !b.interfered && After(a.s, sid, k, kept) && (confirmed || Kept(a.s, sid, k)) ==> Kept(b.s, sid, k);
    steps && told && stays
  }

  lemma ConfirmsCompose(a: View, b: View, c: View, sid: Sid, k: Stake, kept: bool, confirmed: bool, confirmed': bool,
                        learned: bool)
    requires Confirms(a, b, sid, k, kept, confirmed, false)
    requires Confirms(b, c, sid, k, kept || confirmed || b.timerLost, confirmed', learned)
    ensures Confirms(a, c, sid, k, kept, confirmed || confirmed', learned)
  {}

  lemma WaitingConfirms(a: View, b: View, sid: Sid, k: Stake, kept: bool)
    requires Drifts(a, b) && sid in a.ours
    ensures Confirms(a, b, sid, k, kept, false, false)
  {}

  // ---- steps of the verification ------------------------------------------------------

  datatype Answer = StillThere | Gone | NoAnswer

  /** Who looks: the applier `sid`, the verification session `v`, and what was at stake. */
  datatype Look = Look(sid: Sid, v: Sid, st: Stake)

  /** The verification session looks at a device we armed. */
  ghost predicate Checking(s: State, l: Look, kept: bool) {
    After(s, l.sid, l.st, kept) && Reader(s, l.v, l.sid)
  }

  /** The revert has happened and the verification session is one of its own. */
  ghost predicate Verifying(s: State, l: Look) {
    Restored(s, l.sid, l.st) && l.v != l.sid && Mine(s, l.v) == map[] && l.v in s.sessions
  }

  /** The change stands, and the verification session is alive and lays nothing over it. */
  ghost predicate Keeping(s: State, l: Look) {
    Standing(s, l.sid, l.st) && Mine(s, l.v) == map[] && l.v in s.sessions
  }

  /** Every recorded option was recorded as it was before the apply. */
  ghost predicate Honest(before: Snapshot, pre: Store, blank: bool) {
    forall key :: key in before ==>
      ReadFrom(pre, key, blank) == match before[key] case Some(v) => Got(v) case None => Missing
  }

  /**
   What a reading, or several, leaves of what was known about the device: if none held the
   planned value, and not all the options read were `fooled`, the device has reverted; an
   `honest` look at a reverted device finds no planned value; and an undisturbed look at a
   device on which the change stands throughout finds none exactly if all were fooled.
   */
  ghost predicate Looked(a: View, b: View, l: Look, kept: bool, fooled: bool, honest: bool, answer: Answer) {
    var steps := PostStep(a, b, l.sid, l.st, kept, kept) && b.ours == a.ours;
    var sound := !b.interfered ==>
                   && (Checking(a.s, l, kept) ==> Checking(b.s, l, kept || b.timerLost))
                   && (Restored(a.s, l.sid, l.st) ==> Restored(b.s, l.sid, l.st) && Mine(b.s, l.sid) == Mine(a.s, l.sid))
                   && (Checking(a.s, l, kept) && !fooled && answer == Gone ==> Restored(b.s, l.sid, l.st));
    var clean := b.Clean() && Verifying(a.s, l) ==> Verifying(b.s, l) && (honest ==> answer == Gone);
    var stays := Quiet(a, b) && Kept(a.s, l.sid, l.st) ==> Kept(b.s, l.sid, l.st);
    var exact := Quiet(a, b) && Keeping(a.s, l) && Standing(b.s, l.sid, l.st) ==> Keeping(b.s, l) && (answer == Gone <==> fooled);
    steps && sound && clean && stays && exact
  }

  lemma LookedComposes(a: View, b: View, c: View, l: Look, kept: bool, fooled: bool, fooled': bool, honest: bool, answer: Answer)
    requires Looked(a, b, l, kept, fooled, honest, Gone)
    requires Looked(b, c, l, kept || b.timerLost, fooled', honest, answer)
    ensures Looked(a, c, l, kept, fooled && fooled', honest, answer)
  {}

  /** Once an answer has settled it, what else would have been read does not matter. */
  lemma LookedEnough(a: View, b: View, l: Look, kept: bool, fooled: bool, fooled': bool, honest: bool, answer: Answer)
    requires Looked(a, b, l, kept, fooled, honest, answer) && answer != Gone
    requires fooled' ==> fooled
    ensures Looked(a, b, l, kept, fooled', honest, answer)
  {}

  lemma LessHonest(a: View, b: View, l: Look, kept: bool, fooled: bool, honest: bool, honest': bool, answer: Answer)
    requires Looked(a, b, l, kept, fooled, honest, answer) && (honest' ==> honest)
    ensures Looked(a, b, l, kept, fooled, honest', answer)
  {}

  lemma NotLooking(a: View, l: Look, kept: bool, honest: bool)
    ensures Looked(a, a, l, kept, true, honest, Gone)
  {}

  // ---- the order of what was sent ------------------------------------------

  /**
   Nothing is sent before the apply, nothing but the health check comes next, confirms
   follow only a passed check and only inside the window, and the verification comes last,
   not before the window and the grace are over.
   */
  predicate WellOrdered(log: seq<Event>, window: nat, grace: nat) {
    && (|log| > 0 ==> log[0].ApplySent?)
    && (|log| > 1 ==> log[1].HealthRan?)
    && forall i :: 2 <= i < |log| ==>
         || (log[i].ConfirmSent? && log[1].passed && log[i].at < log[0].at + window)
         || (log[i].CheckStarted? && i == |log| - 1 && log[i].at >= log[0].at + window + grace)
  }

  function AnswerOf(r: Reply<Reading>, want: string): Answer {
    if !r.Answered? || r.value.Unreadable? then NoAnswer
    else if r.value == Got(want) then StillThere else Gone
  }

  /** A clean reading of committed state. */
  lemma VoteReadCleanly(a: View, s: State, b: View, v: Sid, sid: Sid, st: Stake, kept: bool, key: Key, want: string, blank: bool,
                 r: Reply<Reading>)
    requires Called(a, s, s, b) && v in a.ours && sid in a.ours
    requires (r == Lost && b.dropped) || (r == Refused(Denied) && v !in s.sessions)
             || r == Answered(ReadOption(Effective(s, v, key.0), key.1, key.2, blank))
    requires b.Clean() && Verifying(a.s, Look(sid, v, st))
    ensures Verifying(b.s, Look(sid, v, st))
    ensures ReadFrom(st.pre, key, blank) != Unreadable && ReadFrom(st.pre, key, blank) != Got(want) ==> AnswerOf(r, want) == Gone
  {}

  /** A reading of a device that the apply has been through. */
  lemma VoteReadAfter(a: View, s: State, b: View, v: Sid, sid: Sid, st: Stake, kept: bool, key: Key, want: string, blank: bool,
                 r: Reply<Reading>)
    requires Called(a, s, s, b) && v in a.ours && sid in a.ours
    requires (r == Lost && b.dropped) || (r == Refused(Denied) && v !in s.sessions)
             || r == Answered(ReadOption(Effective(s, v, key.0), key.1, key.2, blank))
    requires !b.interfered && After(a.s, sid, st, kept)
    ensures var l := Look(sid, v, st);
            && PostStep(a, b, sid, st, kept, kept)
            && (Checking(a.s, l, kept) ==> Checking(b.s, l, kept || b.timerLost))
            && (Restored(a.s, sid, st) ==> Restored(b.s, sid, st) && Mine(b.s, sid) == Mine(a.s, sid))
            && (Checking(a.s, l, kept) && !ReadsOtherwise(ReadFrom(st.Post(), key, blank), want) && AnswerOf(r, want) == Gone ==>
                  Restored(b.s, sid, st))
  {
    AfterDrifts(a.s, s, sid, a.ours, st, kept, b.timerLost);
    AfterDrifts(s, b.s, sid, a.ours, st, kept || b.timerLost, b.timerLost);
    if Reader(a.s, v, sid) && !Restored(s, sid, st) {
      UnrestoredReadsPost(s, v, sid, st, kept || b.timerLost, key, blank);
    }
  }

  /** An undisturbed reading of a device on which the change stands before and after. */
  lemma VoteReadOnStanding(a: View, s: State, b: View, v: Sid, sid: Sid, st: Stake, key: Key, want: string, blank: bool, r: Reply<Reading>)
    requires CalledQuietly(a, s, s, b) && Quiet(a, b) && v in a.ours && sid in a.ours && b.ours == a.ours
    requires r != Lost && Keeping(a.s, Look(sid, v, st)) && Standing(b.s, sid, st)
    requires (r == Refused(Denied) && v !in s.sessions) || r == Answered(ReadOption(Effective(s, v, key.0), key.1, key.2, blank))
    ensures Keeping(b.s, Look(sid, v, st))
    ensures AnswerOf(r, want) == Gone <==> ReadsOtherwise(ReadFrom(st.Post(), key, blank), want)
  {
    StandsThroughout(a.s, s, b.s, a.ours, v, sid, st);
    CleanReaderReadsCommitted(s, v, key, blank);
  }

  lemma KeptStaysKept(a: View, s: State, b: View, sid: Sid, k: Stake)
    requires CalledQuietly(a, s, s, b) && sid in a.ours && b.ours == a.ours
    ensures Quiet(a, b) && Kept(a.s, sid, k) ==> Kept(b.s, sid, k)
  {}

  /** If the change stands before and after, it did in between, and nobody's reading was covered. */
  lemma StandsThroughout(s: State, t: State, u: State, ours: set<Sid>, v: Sid, sid: Sid, k: Stake)
    requires Drift(s, t, ours, false) && Drift(t, u, ours, false) && v in ours && sid in ours
    requires Standing(s, sid, k) && Mine(s, v) == map[] && Standing(u, sid, k)
    ensures t.committed == k.Post() && Mine(t, v) == map[] && Mine(u, v) == map[]
  {}

  /** What one reading, answered or not, leaves of what was known. */
  lemma VoteRead(a: View, s: State, b: View, v: Sid, sid: Sid, st: Stake, kept: bool, key: Key, want: string, blank: bool,
                 r: Reply<Reading>, answer: Answer)
    requires Called(a, s, s, b) && CalledQuietly(a, s, s, b) && (r == Lost ==> b.mishaps > a.mishaps) && v in a.ours && sid in a.ours
    requires (r == Lost && b.dropped) || (r == Refused(Denied) && v !in s.sessions)
             || r == Answered(ReadOption(Effective(s, v, key.0), key.1, key.2, blank))
    requires answer == AnswerOf(r, want)
    ensures Looked(a, b, Look(sid, v, st), kept, ReadsOtherwise(ReadFrom(st.Post(), key, blank), want),
                   ReadFrom(st.pre, key, blank) != Unreadable && ReadFrom(st.pre, key, blank) != Got(want), answer)
  {
    KeptStaysKept(a, s, b, sid, st);
    if !b.interfered && After(a.s, sid, st, kept) {
      VoteReadAfter(a, s, b, v, sid, st, kept, key, want, blank, r);
    }
    if b.Clean() && Verifying(a.s, Look(sid, v, st)) {
      VoteReadCleanly(a, s, b, v, sid, st, kept, key, want, blank, r);
    }
    if Quiet(a, b) && Keeping(a.s, Look(sid, v, st)) && Standing(b.s, sid, st) {
      VoteReadOnStanding(a, s, b, v, sid, st, key, want, blank, r);
    }
    if !b.interfered && Restored(a.s, sid, st) {
      StaysRestored(a, s, b, sid, st);
    }
  }

  lemma StaysRestored(a: View, s: State, b: View, sid: Sid, k: Stake)
    requires Called(a, s, s, b) && sid in a.ours && !b.interfered && Restored(a.s, sid, k)
    ensures Restored(b.s, sid, k) && Mine(b.s, sid) == Mine(a.s, sid)
  {}

  /** The files of the savedir, and their lengths. */
  type Entries = seq<(string, nat)>

  predicate Staged(entries: Entries, config: string) {
    exists j :: 0 <= j < |entries| && entries[j].0 == config && entries[j].1 > 0
  }

  /** A savedir that cannot be read refuses, so does one with anything in it, so does an unacknowledged traversal. */
  ghost predicate Screened(listing: Reply<Entries>, plan: Plan, err: Option<Error>) {
    var unread := !listing.Answered? && listing != Refused(NotFound);
    var staged := listing.Answered? && exists c :: Staged(listing.value, c);
    var untold := !KeepsOff(plan.ops) && !plan.acknowledged;
    && (err.None? <==> !unread && !staged && !untold)
    && (err == Some(SavedirUnreadable) <==> unread)
    && (staged ==> err.Some? && err.value.ForeignEdits? && forall c :: c in err.value.configs <==> Staged(listing.value, c))
    && (!unread && !staged && untold ==> err == Some(TraversalNotAcknowledged))
  }

  class Engine {
    const confirmInterval: nat
    const revertGrace: nat

    constructor (confirmInterval: nat, revertGrace: nat)
      requires confirmInterval > 0
      ensures this.confirmInterval == confirmInterval && this.revertGrace == revertGrace
    {
      this.confirmInterval, this.revertGrace := confirmInterval, revertGrace;
    }

    // ---- preflight ---------------------------------------------------------

    method Preflight(line: Line, plan: Plan) returns (err: Option<Error>, ghost listing: Reply<Entries>)
      requires line.Valid()
      modifies line`cancelled, line`timerLost, line`mishaps, line`interfered, line`dropped, line.dev
      ensures line.Valid() && Drifts(old(line.Seen()), line.Seen())
      ensures Screened(listing, plan, err)
      ensures err == Some(SavedirUnreadable) ==> !line.Seen().Clean()
    {
      var r := line.ListCall();
      listing := r;
      err := Screen(r, plan);
    }

    /** Without a savedir nothing is staged anywhere. */
    method Screen(listing: Reply<Entries>, plan: Plan) returns (err: Option<Error>)
      ensures Screened(listing, plan, err)
    {
      if !listing.Answered? && listing != Refused(NotFound) {
        return Some(SavedirUnreadable);
      }
      if listing.Answered? {
        var dirty := Dirty(listing.value);
        if dirty != [] {
          assert dirty[0] in dirty;
          return Some(ForeignEdits(dirty));
        }
      }
      var touches := Touches(plan.ops);
      KeepsOffExactly(plan.ops);
      if touches && !plan.acknowledged {
        return Some(TraversalNotAcknowledged);
      }
      return None;
    }

    /** Zero-length files are stale leftovers. */
    method Dirty(entries: Entries) returns (dirty: seq<string>)
      ensures forall c :: c in dirty <==> Staged(entries, c)
    {
      dirty := [];
      for i := 0 to |entries|
        invariant forall c :: c in dirty <==> exists j :: 0 <= j < i && entries[j].0 == c && entries[j].1 > 0
      {
        if entries[i].1 > 0 {
          dirty := dirty + [entries[i].0];
        }
      }
    }

    method Touches(ops: seq<Op>) returns (touches: bool)
      ensures touches == TouchesManagementPath(ops)
    {
      for i := 0 to |ops|
        invariant forall j :: 0 <= j < i ==> !OnManagementPath(ops[j])
      {
        if OnManagementPath(ops[i]) {
          return true;
        }
      }
      touches := false;
    }

    // ---- the snapshot of the planned options -------------------------------

    method SnapshotOne(line: Line, key: Key, earlier: Snapshot, ghost keys: set<Key>) returns (before: Snapshot)
      requires line.Valid()
      modifies line`cancelled, line`timerLost, line`mishaps, line`interfered, line`dropped, line.dev
      ensures line.Valid() && Drifts(old(line.Seen()), line.Seen())
      ensures Recorded(old(line.Seen()), line.Seen(), line.sid, line.blank, keys, earlier, keys + {key}, before)
    {
      var r, s := line.GetCall(line.sid, key.0, key.1, key.2);
      before := earlier;
      if r.Answered? && r.value.Got? {
        before := before[key := Some(r.value.text)];
      } else if r.Answered? && r.value.Missing? {
        before := before[key := None];
      }
      ghost var a, b := old(line.Seen()), line.Seen();
      if !b.interfered {
        DriftComposes(a.s, s, b.s, a.ours, b.timerLost, b.timerLost);
      }
      if b.Clean() && ReadsCommitted(a.s, line.sid) {
        UnarmedDrifts(a.s, s, line.sid, a.ours, b.timerLost);
        CleanReaderReadsCommitted(s, line.sid, key, line.blank);
        SnapshotGrows(keys, key, a.s.committed, line.blank);
      }
    }

    method SnapshotOp(line: Line, op: Op, earlier: Snapshot, ghost keys: set<Key>) returns (before: Snapshot)
      requires line.Valid() && Readable(op)
      modifies line`cancelled, line`timerLost, line`mishaps, line`interfered, line`dropped, line.dev
      ensures line.Valid() && Drifts(old(line.Seen()), line.Seen())
      ensures Recorded(old(line.Seen()), line.Seen(), line.sid, line.blank, keys, earlier, keys + OpKeys(op), before)
    {
      before := earlier;
      var todo := op.values.Keys;
      ghost var now := keys;
      while todo != {}
        invariant todo <= op.values.Keys
        invariant line.Valid() && Drifts(old(line.Seen()), line.Seen())
        invariant now == keys + set k | k in op.values.Keys - todo :: KeyOf(op, k)
        invariant Recorded(old(line.Seen()), line.Seen(), line.sid, line.blank, keys, earlier, now, before)
      {
        var k :| k in todo;
        ghost var mid, was := line.Seen(), before;
        before := SnapshotOne(line, KeyOf(op, k), before, now);
        DriftsCompose(old(line.Seen()), mid, line.Seen());
        RecordedComposes(old(line.Seen()), mid, line.Seen(), line.sid, line.blank, keys, earlier, now, was,
                         now + {KeyOf(op, k)}, before);
        now := now + {KeyOf(op, k)};
        todo := todo - {k};
      }
      assert now == keys + OpKeys(op);
    }

    method SnapshotPlanned(line: Line, plan: Plan) returns (before: Snapshot)
      requires line.Valid()
      modifies line`cancelled, line`timerLost, line`mishaps, line`interfered, line`dropped, line.dev
      ensures line.Valid() && Drifts(old(line.Seen()), line.Seen())
      ensures Recorded(old(line.Seen()), line.Seen(), line.sid, line.blank, {}, map[], PlanKeys(plan.ops), before)
    {
      before := map[];
      for i := 0 to |plan.ops|
        invariant line.Valid() && Drifts(old(line.Seen()), line.Seen())
        invariant Recorded(old(line.Seen()), line.Seen(), line.sid, line.blank, {}, map[], PlanKeys(plan.ops[..i]), before)
      {
        before := SnapshotNext(line, plan, i, before, old(line.Seen()));
      }
      assert plan.ops[..|plan.ops|] == plan.ops;
    }

    method SnapshotNext(line: Line, plan: Plan, i: nat, earlier: Snapshot, ghost a: View) returns (before: Snapshot)
      requires line.Valid() && Drifts(a, line.Seen()) && i < |plan.ops|
      requires Recorded(a, line.Seen(), line.sid, line.blank, {}, map[], PlanKeys(plan.ops[..i]), earlier)
      modifies line`cancelled, line`timerLost, line`mishaps, line`interfered, line`dropped, line.dev
      ensures line.Valid() && Drifts(a, line.Seen())
      ensures Recorded(a, line.Seen(), line.sid, line.blank, {}, map[], PlanKeys(plan.ops[..i + 1]), before)
    {
      before := earlier;
      PlanKeysGrow(plan.ops, i);
      ghost var keys, more := PlanKeys(plan.ops[..i]), PlanKeys(plan.ops[..i + 1]);
      if Readable(plan.ops[i]) {
        ghost var mid := line.Seen();
        before := SnapshotOp(line, plan.ops[i], earlier, keys);
        DriftsCompose(a, mid, line.Seen());
        RecordedComposes(a, mid, line.Seen(), line.sid, line.blank, {}, map[], keys, earlier, more, before);
      } else {
        assert more == keys;
      }
    }

    // ---- staging -------------------------------------------------------------

    /** One staged operation. An unnamed section gets whatever name the device makes up. */
    method StageOne(line: Line, op: Op) returns (r: Reply<()>, name: string)
      requires line.Valid()
      modifies line`cancelled, line`timerLost, line`mishaps, line`interfered, line`dropped, line.dev
      ensures line.Valid() && (op.name != "" ==> name == op.name)
      ensures OneStaged(old(line.Seen()), line.Seen(), line.sid, op.config, DeltaOf(op, name), r.Answered?)
    {
      name := *;
      if op.name != "" {
        name := op.name;
      }
      ghost var s, t;
      r, s, t := line.StageCall(op.config, DeltaOf(op, name));
      ghost var a, b := old(line.Seen()), line.Seen();
      if !b.interfered && Unarmed(a.s, line.sid) {
        UnarmedDrifts(a.s, s, line.sid, a.ours, b.timerLost);
        UnarmedDrifts(t, b.s, line.sid, a.ours, b.timerLost);
      }
    }

    method StageNext(line: Line, plan: Plan, i: nat, ghost a: View, okay: bool, ghost before: seq<string>)
      returns (ok: bool, gone: bool, ghost names: seq<string>)
      requires line.Valid() && i < |plan.ops| && Shaped(plan.ops)
      requires SomeStaged(a, line.Seen(), line.sid, plan.ops, i, before, okay) && (okay ==> Names(plan.ops[..i], before))
      modifies line`cancelled, line`timerLost, line`mishaps, line`interfered, line`dropped, line.dev
      ensures line.Valid() && (gone ==> !ok) && (ok ==> Names(plan.ops[..i + 1], names))
      ensures SomeStaged(a, line.Seen(), line.sid, plan.ops, i + 1, names, ok)
    {
      ghost var mid := line.Seen();
      var r, name := StageOne(line, plan.ops[i]);
      names := before + [name];
      ok := okay && r.Answered?;
      gone := r.Lost?;
      StagingStep(a, mid, line.Seen(), line.sid, plan.ops, i, before, name, okay, r.Answered?);
      NamesGrow(plan.ops, i, before, name);
    }

    /** The batch. A transport failure ends it; a refused operation does not. */
    method StageShaped(line: Line, plan: Plan) returns (ok: bool, ghost names: seq<string>)
      requires line.Valid() && Shaped(plan.ops)
      modifies line`cancelled, line`timerLost, line`mishaps, line`interfered, line`dropped, line.dev
      ensures line.Valid() && AllStaged(old(line.Seen()), line.Seen(), line.sid, plan.ops, names, ok)
    {
      ok, names := true, [];
      var i, gone := 0, false;
      while i < |plan.ops| && !gone
        invariant 0 <= i <= |plan.ops| && (gone ==> !ok)
        invariant line.Valid() && (ok ==> Names(plan.ops[..i], names))
        invariant SomeStaged(old(line.Seen()), line.Seen(), line.sid, plan.ops, i, names, ok)
      {
        ok, gone, names := StageNext(line, plan, i, old(line.Seen()), ok, names);
        i := i + 1;
      }
      assert plan.ops[..|plan.ops|] == plan.ops;
    }

    method StageAll(line: Line, plan: Plan) returns (ok: bool, ghost names: seq<string>)
      requires line.Valid()
      modifies line`cancelled, line`timerLost, line`mishaps, line`interfered, line`dropped, line.dev
      ensures line.Valid() && AllStaged(old(line.Seen()), line.Seen(), line.sid, plan.ops, names, ok)
    {
      names := [];
      ok := AllShaped(plan.ops);
      if ok {
        ok, names := StageShaped(line, plan);
      }
    }

    method AllShaped(ops: seq<Op>) returns (ok: bool)
      ensures ok <==> Shaped(ops)
    {
      for i := 0 to |ops|
        invariant forall j :: 0 <= j < i ==> WellShaped(ops[j])
      {
        if !WellShaped(ops[i]) {
          return false;
        }
      }
      ok := true;
    }

    /** The device must hold deltas for every config of the plan and for no other. */
    method VerifyStaged(line: Line, plan: Plan) returns (err: Option<Error>)
      requires line.Valid()
      modifies line`cancelled, line`timerLost, line`mishaps, line`interfered, line`dropped, line.dev
      ensures line.Valid() && StagedVerified(old(line.Seen()), line.Seen(), line.sid, Configs(plan.ops), err.None?)
      ensures err.Some? ==> LateError(err.value)
    {
      var r, s := line.ChangesCall();
      ghost var a, b := old(line.Seen()), line.Seen();
      if !b.interfered && Unarmed(a.s, line.sid) {
        UnarmedDrifts(a.s, s, line.sid, a.ours, b.timerLost);
        UnarmedDrifts(s, b.s, line.sid, a.ours, b.timerLost);
      }
      if !r.Answered? {
        return Some(ChangesUnreadable);
      }
      var want := DistinctConfigs(plan.ops);
      err := CompareStaged(r.value, want);
    }

    method CompareStaged(staged: Deltas, want: seq<string>) returns (err: Option<Error>)
      ensures err.None? <==> CoversExactly(staged, want)
      ensures err.Some? ==> LateError(err.value)
    {
      for i := 0 to |want|
        invariant forall j :: 0 <= j < i ==> want[j] in staged && staged[want[j]] != []
      {
        if want[i] !in staged || staged[want[i]] == [] {
          return Some(NothingStaged(want[i]));
        }
      }
      var todo := staged.Keys;
      while todo != {}
        invariant todo <= staged.Keys
        invariant forall c :: c in staged && c !in todo ==> c in want
      {
        var c :| c in todo;
        if c !in want {
          return Some(UnexpectedStaged);
        }
        todo := todo - {c};
      }
      err := None;
    }

    // ---- giving the delta up ---------------------------------------------------

    method RevertOne(line: Line, config: string, detached: bool, ghost k: Stake, ghost kept: bool) returns (ok: bool)
      requires line.Valid()
      modifies line`cancelled, line`timerLost, line`mishaps, line`interfered, line`dropped, line.dev
      ensures line.Valid() && Discards(old(line.Seen()), line.Seen(), line.sid, {config}, ok, k, kept)
      ensures !detached && old(line.CtxDone()) ==> line.dropped
      ensures detached && line.reliable && !line.timerLost && !line.interfered ==> ok
    {
      var r, s, t := line.RevertCall(config, detached);
      ok := r.Answered?;
      OneDiscarded(old(line.Seen()), s, t, line.Seen(), line.sid, config, ok, k, kept);
    }

    /** `revertStaged` and `discardStaged`: every config of the plan is tried, whatever fails. */
    method RevertAll(line: Line, plan: Plan, detached: bool, ghost k: Stake, ghost kept: bool) returns (ok: bool)
      requires line.Valid()
      modifies line`cancelled, line`timerLost, line`mishaps, line`interfered, line`dropped, line.dev
      ensures line.Valid() && Discards(old(line.Seen()), line.Seen(), line.sid, Elements(Configs(plan.ops)), ok, k, kept)
      ensures !detached && old(line.CtxDone()) && plan.ops != [] ==> line.dropped
      ensures detached && line.reliable && !line.timerLost && !line.interfered ==> ok
    {
      var configs := DistinctConfigs(plan.ops);
      ok := true;
      for i := 0 to |configs|
        invariant line.Valid() && Discards(old(line.Seen()), line.Seen(), line.sid, Elements(configs[..i]), ok, k, kept)
        invariant !detached && old(line.CtxDone()) && i > 0 ==> line.dropped
        invariant detached && line.reliable && !line.timerLost && !line.interfered ==> ok
      {
        ghost var mid, okay := line.Seen(), ok;
        var done := RevertOne(line, configs[i], detached, k, kept || mid.timerLost);
        ok := ok && done;
        DiscardsCompose(old(line.Seen()), mid, line.Seen(), line.sid, Elements(configs[..i]), {configs[i]}, okay, done, k, kept);
        assert Elements(configs[..i + 1]) == Elements(configs[..i]) + {configs[i]};
      }
      assert configs[..|configs|] == configs;
    }

    // ---- the budget --------------------------------------------------------------

    /** The last guard before the device is armed. Equality is accepted. */
    method RequireRollbackBudget(line: Line, armed: nat, window: nat) returns (err: Option<Error>)
      requires line.Valid() && armed == line.dev.now
      ensures err == Some(ContextEnded) <==> line.CtxDone()
      ensures err == Some(BudgetTooShort) <==>
                !line.CtxDone() && line.ctxDeadline.Some? && armed + window + revertGrace > line.ctxDeadline.value
      ensures err.Some? ==> err == Some(ContextEnded) || err == Some(BudgetTooShort)
    {
      if line.CtxDone() {
        return Some(ContextEnded);
      }
      if line.ctxDeadline.None? || line.ctxDeadline.value - armed >= window + revertGrace {
        return None;
      }
      err := Some(BudgetTooShort);
    }

    // ---- confirm --------------------------------------------------------------------

    method ConfirmOnce(line: Line, ghost k: Stake, ghost kept: bool) returns (r: Reply<()>, ghost confirmed: bool)
      requires line.Valid()
      modifies line`cancelled, line`timerLost, line`mishaps, line`interfered, line`dropped, line`log, line.dev
      ensures line.Valid() && line.log == old(line.log) + [ConfirmSent(old(line.dev.now))]
      ensures Confirms(old(line.Seen()), line.Seen(), line.sid, k, kept, confirmed, r.Answered?)
      ensures !line.interfered && After(old(line.dev.Now()), line.sid, k, kept) ==> r != Refused(PermissionDenied)
    {
      ghost var s, t;
      r, s, t := line.ConfirmCall();
      confirmed := t != s || r.Answered?;
      ghost var a, b := old(line.Seen()), line.Seen();
      if !b.interfered && After(a.s, line.sid, k, kept) {
        AfterDrifts(a.s, s, line.sid, a.ours, k, kept, b.timerLost);
        AfterDrifts(t, b.s, line.sid, a.ours, k, kept || confirmed || b.timerLost, b.timerLost);
      }
    }

    /** One turn of the poll: a confirm, and unless that settled it, a pause. */
    method ConfirmTurn(line: Line, ghost k: Stake, ghost kept: bool) returns (ok: bool, done: bool, ghost confirmed: bool)
      requires line.Valid() && confirmInterval > 0
      modifies line`cancelled, line`timerLost, line`mishaps, line`interfered, line`dropped, line`log, line.dev
      ensures line.Valid() && line.log == old(line.log) + [ConfirmSent(old(line.dev.now))]
      ensures Confirms(old(line.Seen()), line.Seen(), line.sid, k, kept, confirmed, ok)
      ensures (ok ==> done) && (done || line.dev.now >= old(line.dev.now) + confirmInterval)
      ensures done && !line.interfered && After(old(line.dev.Now()), line.sid, k, kept) ==> ok || line.CtxDone()
    {
      var r;
      r, confirmed := ConfirmOnce(line, k, kept);
      ok := r.Answered?;
      done := ok || r == Refused(PermissionDenied);
      if !done {
        ghost var sent := line.Seen();
        var woke := line.Wait(line.dev.now + confirmInterval);
        WaitingConfirms(sent, line.Seen(), line.sid, k, kept || confirmed || sent.timerLost);
        ConfirmsCompose(old(line.Seen()), sent, line.Seen(), line.sid, k, kept, confirmed, false, false);
        done := !woke;
      }
    }

    /** `ok` is what the engine learned; `confirmed` is whether the device took a confirm from us. */
    method ConfirmPoll(line: Line, deadline: nat, ghost k: Stake, ghost kept: bool) returns (ok: bool, ghost confirmed: bool)
      requires line.Valid() && confirmInterval > 0
      modifies line`cancelled, line`timerLost, line`mishaps, line`interfered, line`dropped, line`log, line.dev
      ensures line.Valid() && Polled(old(line.log), line.log, old(line.dev.now), deadline)
      ensures Confirms(old(line.Seen()), line.Seen(), line.sid, k, kept, confirmed, ok)
      ensures confirmed ==> line.log != old(line.log)
      ensures !line.interfered && After(old(line.dev.Now()), line.sid, k, kept) ==> ok || line.dev.now >= deadline || line.CtxDone()
      ensures Spaced(line.log, |old(line.log)|, confirmInterval)
    {
      ok, confirmed := false, false;
      var done := false;
      NotYetConfirming(line.Seen(), line.sid, k, kept);
      while !done && line.dev.now < deadline
        invariant line.Valid() && (ok ==> done)
        invariant PolledSoFar(old(line.log), line.log, old(line.dev.now), line.dev.now, deadline)
        invariant done || confirmed ==> line.log != old(line.log)
        invariant done && !line.interfered && After(old(line.dev.Now()), line.sid, k, kept) ==> ok || line.CtxDone()
        invariant Spaced(line.log, |old(line.log)|, confirmInterval)
        invariant done || Rested(line.log, |old(line.log)|, confirmInterval, line.dev.now)
        invariant Confirms(old(line.Seen()), line.Seen(), line.sid, k, kept, confirmed, ok)
        decreases !done, deadline - line.dev.now
      {
        ghost var mid, log, had, landed := line.Seen(), line.log, confirmed, false;
        ok, done, landed := ConfirmTurn(line, k, kept || had || mid.timerLost);
        ConfirmsCompose(old(line.Seen()), mid, line.Seen(), line.sid, k, kept, had, landed, ok);
        PollingOn(old(line.log), log, old(line.dev.now), mid.s.now, line.dev.now, deadline);
        SpacedFurther(log, |old(line.log)|, confirmInterval, mid.s.now);
        confirmed := had || landed;
      }
    }

    // ---- awaiting the revert ----------------------------------------------------------

    /** One reading that may tell the new state from the old. */
    method ReadVote(line: Line, v: Sid, key: Key, want: string, ghost st: Stake, ghost kept: bool) returns (answer: Answer)
      requires line.Valid() && v in line.ours
      modifies line`cancelled, line`timerLost, line`mishaps, line`interfered, line`dropped, line.dev
      ensures line.Valid()
      ensures Looked(old(line.Seen()), line.Seen(), Look(line.sid, v, st), kept,
                     ReadsOtherwise(ReadFrom(st.Post(), key, line.blank), want),
                     ReadFrom(st.pre, key, line.blank) != Unreadable && ReadFrom(st.pre, key, line.blank) != Got(want), answer)
    {
      var r, s := line.GetCall(v, key.0, key.1, key.2);
      answer := AnswerOf(r, want);
      VoteRead(old(line.Seen()), s, line.Seen(), v, line.sid, st, kept, key, want, line.blank, r, answer);
    }

    /** A vote, and what it is worth. */
    method CastVote(line: Line, v: Sid, op: Op, k: string, before: Snapshot, ghost l: Look, ghost kept: bool) returns (answer: Answer)
      requires line.Valid() && v in line.ours && l == Look(line.sid, v, l.st) && Votes(op, before, k)
      modifies line`cancelled, line`timerLost, line`mishaps, line`interfered, line`dropped, line.dev
      ensures line.Valid() && line.ours == old(line.ours)
      ensures Looked(old(line.Seen()), line.Seen(), l, kept, Fooled(op, before, k, l.st.Post(), line.blank),
                     Honest(before, l.st.pre, line.blank), answer)
    {
      var key := KeyOf(op, k);
      answer := ReadVote(line, v, key, op.values[k], l.st, kept);
      var read := ReadFrom(l.st.pre, key, line.blank);
      LessHonest(old(line.Seen()), line.Seen(), l, kept, Fooled(op, before, k, l.st.Post(), line.blank),
                 read != Unreadable && read != Got(op.values[k]), Honest(before, l.st.pre, line.blank), answer);
    }

    /** Goes on from what has been read since `a`. An option that does not vote is not read at all. */
    method CheckOption(line: Line, v: Sid, op: Op, k: string, before: Snapshot, ghost l: Look, ghost a: View,
                       ghost kept: bool, ghost fooled: bool)
      returns (answer: Answer, checked: bool)
      requires line.Valid() && v in line.ours && l == Look(line.sid, v, l.st) && Readable(op) && k in op.values
      requires Looked(a, line.Seen(), l, kept, fooled, Honest(before, l.st.pre, line.blank), Gone)
      modifies line`cancelled, line`timerLost, line`mishaps, line`interfered, line`dropped, line.dev
      ensures line.Valid() && line.ours == old(line.ours) && (answer == Gone ==> (checked <==> Votes(op, before, k)))
      ensures Looked(a, line.Seen(), l, kept, fooled && Fooled(op, before, k, l.st.Post(), line.blank),
                     Honest(before, l.st.pre, line.blank), answer)
    {
      var key := KeyOf(op, k);
      answer, checked := Gone, false;
      if key in before && before[key] != Some(op.values[k]) {
        ghost var mid := line.Seen();
        answer := CastVote(line, v, op, k, before, l, kept || mid.timerLost);
        checked := answer == Gone;
        LookedComposes(a, mid, line.Seen(), l, kept, fooled, Fooled(op, before, k, l.st.Post(), line.blank),
                       Honest(before, l.st.pre, line.blank), answer);
      }
    }

    /** The options of one operation, in whatever order. */
    method CheckOptions(line: Line, v: Sid, op: Op, before: Snapshot, ghost l: Look, ghost a: View, ghost kept: bool)
      returns (answer: Answer, checked: bool, ghost read: set<string>)
      requires line.Valid() && v in line.ours && l == Look(line.sid, v, l.st) && Readable(op)
      requires Looked(a, line.Seen(), l, kept, true, Honest(before, l.st.pre, line.blank), Gone)
      modifies line`cancelled, line`timerLost, line`mishaps, line`interfered, line`dropped, line.dev
      ensures line.Valid() && line.ours == old(line.ours)
      ensures answer == Gone ==> read == op.values.Keys && (checked <==> VotesAmong(op, before, read))
      ensures Looked(a, line.Seen(), l, kept, FooledAmong(op, before, read, l.st.Post(), line.blank),
                     Honest(before, l.st.pre, line.blank), answer)
    {
      answer, checked, read := Gone, false, {};
      var todo := op.values.Keys;
      while todo != {} && answer == Gone
        invariant line.Valid() && line.ours == old(line.ours)
        invariant todo <= op.values.Keys && read == op.values.Keys - todo
        invariant answer == Gone ==> (checked <==> VotesAmong(op, before, read))
        invariant Looked(a, line.Seen(), l, kept, FooledAmong(op, before, read, l.st.Post(), line.blank),
                         Honest(before, l.st.pre, line.blank), answer)
      {
        var k :| k in todo;
        OneMoreVoter(op, before, read, k, l.st.Post(), line.blank);
        var some;
        answer, some := CheckOption(line, v, op, k, before, l, a, kept, FooledAmong(op, before, read, l.st.Post(), line.blank));
        checked := checked || some;
        read := read + {k};
        todo := todo - {k};
      }
    }

    method CheckOp(line: Line, v: Sid, op: Op, before: Snapshot, ghost l: Look, ghost kept: bool)
      returns (answer: Answer, checked: bool)
      requires line.Valid() && v in line.ours && l == Look(line.sid, v, l.st)
      modifies line`cancelled, line`timerLost, line`mishaps, line`interfered, line`dropped, line.dev
      ensures line.Valid() && line.ours == old(line.ours) && (answer == Gone ==> (checked <==> OpVotes(op, before)))
      ensures Looked(old(line.Seen()), line.Seen(), l, kept, OpFooled(op, before, l.st.Post(), line.blank),
                     Honest(before, l.st.pre, line.blank), answer)
    {
      ghost var a, read, honest := line.Seen(), {}, Honest(before, l.st.pre, line.blank);
      NotLooking(a, l, kept, honest);
      answer, checked := Gone, false;
      if Readable(op) {
        answer, checked, read := CheckOptions(line, v, op, before, l, a, kept);
        if answer != Gone {
          LookedEnough(a, line.Seen(), l, kept, FooledAmong(op, before, read, l.st.Post(), line.blank),
                      OpFooled(op, before, l.st.Post(), line.blank), honest, answer);
        }
      }
    }

    /** Goes on from what operations before the `i`th have told since `a`. */
    method CheckNextOp(line: Line, v: Sid, plan: Plan, i: nat, before: Snapshot, ghost l: Look, ghost a: View, ghost kept: bool)
      returns (answer: Answer, checked: bool)
      requires line.Valid() && v in line.ours && l == Look(line.sid, v, l.st) && i < |plan.ops|
      requires Looked(a, line.Seen(), l, kept, FooledBelow(plan.ops, i, before, l.st.Post(), line.blank),
                      Honest(before, l.st.pre, line.blank), Gone)
      modifies line`cancelled, line`timerLost, line`mishaps, line`interfered, line`dropped, line.dev
      ensures line.Valid() && line.ours == old(line.ours)
      ensures answer == Gone ==> (checked || VoteBelow(plan.ops, i, before) <==> VoteBelow(plan.ops, i + 1, before))
      ensures Looked(a, line.Seen(), l, kept, FooledBelow(plan.ops, i + 1, before, l.st.Post(), line.blank),
                     Honest(before, l.st.pre, line.blank), answer)
    {
      ghost var mid, post, honest := line.Seen(), l.st.Post(), Honest(before, l.st.pre, line.blank);
      answer, checked := CheckOp(line, v, plan.ops[i], before, l, kept || mid.timerLost);
      OneMoreOp(plan.ops, i, before, post, line.blank);
      LookedComposes(a, mid, line.Seen(), l, kept, FooledBelow(plan.ops, i, before, post, line.blank),
                     OpFooled(plan.ops[i], before, post, line.blank), honest, answer);
    }

    method PlanStillApplied(line: Line, v: Sid, plan: Plan, before: Snapshot, ghost l: Look, ghost kept: bool)
      returns (answer: Answer, checked: bool)
      requires line.Valid() && v in line.ours && l == Look(line.sid, v, l.st)
      modifies line`cancelled, line`timerLost, line`mishaps, line`interfered, line`dropped, line.dev
      ensures line.Valid() && (answer == Gone ==> (checked <==> SomeVote(plan.ops, before)))
      ensures Looked(old(line.Seen()), line.Seen(), l, kept, AllFooled(plan.ops, before, l.st.Post(), line.blank),
                     Honest(before, l.st.pre, line.blank), answer)
    {
      ghost var read: nat;
      answer, checked, read := CheckOps(line, v, plan, before, l, kept);
      if answer != Gone {
        LookedEnough(old(line.Seen()), line.Seen(), l, kept, FooledBelow(plan.ops, read, before, l.st.Post(), line.blank),
                    AllFooled(plan.ops, before, l.st.Post(), line.blank), Honest(before, l.st.pre, line.blank), answer);
      }
    }

    method CheckOps(line: Line, v: Sid, plan: Plan, before: Snapshot, ghost l: Look, ghost kept: bool)
      returns (answer: Answer, checked: bool, ghost read: nat)
      requires line.Valid() && v in line.ours && l == Look(line.sid, v, l.st)
      modifies line`cancelled, line`timerLost, line`mishaps, line`interfered, line`dropped, line.dev
      ensures line.Valid() && read <= |plan.ops| && (answer == Gone ==> read == |plan.ops|)
      ensures answer == Gone ==> (checked <==> VoteBelow(plan.ops, read, before))
      ensures Looked(old(line.Seen()), line.Seen(), l, kept, FooledBelow(plan.ops, read, before, l.st.Post(), line.blank),
                     Honest(before, l.st.pre, line.blank), answer)
    {
      answer, checked := Gone, false;
      var i := 0;
      ghost var a, honest := line.Seen(), Honest(before, l.st.pre, line.blank);
      NotLooking(a, l, kept, honest);
      while i < |plan.ops| && answer == Gone
        invariant 0 <= i <= |plan.ops| && line.Valid() && line.ours == old(line.ours)
        invariant answer == Gone ==> (checked <==> VoteBelow(plan.ops, i, before))
        invariant Looked(a, line.Seen(), l, kept, FooledBelow(plan.ops, i, before, l.st.Post(), line.blank), honest, answer)
      {
        var some;
        answer, some := CheckNextOp(line, v, plan, i, before, l, a, kept);
        checked := checked || some;
        i := i + 1;
      }
      read := i;
    }

    /** The verification session: a second login, never destroyed. */
    method OpenVerification(line: Line, ghost k: Stake, ghost kept: bool) returns (r: Reply<Sid>)
      requires line.Valid()
      modifies line`cancelled, line`timerLost, line`mishaps, line`interfered, line`dropped, line`ours, line.dev
      ensures line.Valid() && PostStep(old(line.Seen()), line.Seen(), line.sid, k, kept, kept)
      ensures r.Answered? ==> r.value in line.ours
      ensures line.Seen().Clean() ==> r.Answered?
      ensures Opened(old(line.Seen()), line.Seen(), line.sid, k, kept, r)
      ensures old(line.CtxDone()) ==> r == Lost
    {
      ghost var s, t;
      r, s, t := line.LoginCall();
      LoginOpens(old(line.Seen()), s, t, line.Seen(), line.sid, k, kept, r);
      LoginOpensQuietly(old(line.Seen()), s, t, line.Seen(), line.sid, k, r);
    }

    /** Looks at the device from a second session. */
    method LookAround(line: Line, plan: Plan, before: Snapshot, ghost k: Stake, ghost kept: bool) returns (outcome: Outcome)
      requires line.Valid()
      modifies line`cancelled, line`timerLost, line`mishaps, line`interfered, line`dropped, line`ours, line.dev
      ensures line.Valid() && outcome != Applied
      ensures PostStep(old(line.Seen()), line.Seen(), line.sid, k, kept, kept)
      ensures Judged(old(line.Seen()), line.Seen(), line.sid, k, kept, plan.ops, before, line.blank, outcome)
      ensures old(line.CtxDone()) ==> outcome == Unknown
    {
      var r := OpenVerification(line, k, kept);
      if !r.Answered? {
        return Unknown;
      }
      ghost var mid := line.Seen();
      var answer, checked := PlanStillApplied(line, r.value, plan, before, Look(line.sid, r.value, k), kept || mid.timerLost);
      outcome := if answer == Gone && checked then Reverted else Unknown;
      Judging(old(line.Seen()), mid, line.Seen(), line.sid, r.value, k, kept, plan.ops, before, line.blank, answer, outcome);
    }

    /** Waits out what is left of the window and the grace, then looks. */
    method AwaitRevert(line: Line, plan: Plan, before: Snapshot, armed: nat, window: nat, ghost k: Stake, ghost kept: bool)
      returns (outcome: Outcome, ghost vigil: Vigil)
      requires line.Valid()
      modifies line`cancelled, line`timerLost, line`mishaps, line`interfered, line`dropped, line`ours, line`log, line.dev
      ensures line.Valid() && outcome != Applied
      ensures Awaited(old(line.Seen()), line.Seen(), line.sid, k, kept, plan.ops, before, line.blank, outcome)
      ensures k.deadline + line.lag <= armed + window + revertGrace && !line.CtxDone() ==>
                Settled(old(line.Seen()), line.Seen(), line.sid, k, kept, plan.ops, before, line.blank, outcome)
      ensures vigil.from == old(line.Seen()) && vigil.till == line.Seen() && line.log == old(line.log) + vigil.sent
      ensures Watched(vigil, armed + window + revertGrace, line.ctxDeadline, line.sid, k, plan.ops, before, line.blank, outcome)
    {
      var until := armed + window + revertGrace;
      var woke := WaitFor(line, until);
      if woke {
        outcome, vigil := Inspect(line, plan, before, until, k, kept, old(line.Seen()));
      } else {
        outcome, vigil := Unknown, Vigil(old(line.Seen()), line.Seen(), []);
        WaitingKeeps(old(line.Seen()), line.Seen(), line.sid, k, kept, line.lag, until);
        WatchedInVain(old(line.Seen()), line.Seen(), until, line.ctxDeadline, line.sid, k, plan.ops, before, line.blank);
      }
    }

    /** The look itself; `a` is how things stood when the wait began. */
    method Inspect(line: Line, plan: Plan, before: Snapshot, until: nat, ghost k: Stake, ghost kept: bool, ghost a: View)
      returns (outcome: Outcome, ghost vigil: Vigil)
      requires line.Valid() && line.sid in a.ours
      requires WaitedFor(a, line.Seen(), until, line.ctxDeadline, line.lag, true)
      modifies line`cancelled, line`timerLost, line`mishaps, line`interfered, line`dropped, line`ours, line`log, line.dev
      ensures line.Valid() && outcome != Applied
      ensures vigil.from == a && line.log == old(line.log) + vigil.sent
      ensures Finished(vigil, line.Seen(), until, line.ctxDeadline, line.lag, line.sid, k, kept, plan.ops, before, line.blank, outcome)
    {
      ghost var mid, check := line.Seen(), CheckStarted(line.dev.now);
      line.log := line.log + [check];
      outcome := LookAround(line, plan, before, k, kept || mid.timerLost);
      Inspected(a, mid, line.Seen(), until, line.ctxDeadline, line.lag, line.sid, k, kept, plan.ops, before, line.blank, outcome);
      vigil := Vigil(a, line.Seen(), [check]);
    }

    method WaitFor(line: Line, until: nat) returns (woke: bool)
      requires line.Valid()
      modifies line`cancelled, line`timerLost, line`mishaps, line`interfered, line.dev
      ensures line.Valid() && WaitedFor(old(line.Seen()), line.Seen(), until, line.ctxDeadline, line.lag, woke)
    {
      woke := true;
      if line.dev.now < until {
        woke := line.Wait(until);
      }
    }

    /** A context that ends with window and grace passes the guard, and then no revert is ever verified. */
    method EqualityIsAcceptedYetUnknown(line: Line, plan: Plan, before: Snapshot, armed: nat, ghost k: Stake, ghost kept: bool)
      returns (refusal: Option<Error>, outcome: Outcome)
      requires line.Valid() && line.dev.now == armed && !line.CtxDone()
      requires line.ctxDeadline == Some(armed + Window(plan) + revertGrace)
      modifies line`cancelled, line`timerLost, line`mishaps, line`interfered, line`dropped, line`ours, line`log, line.dev
      ensures refusal == None && outcome == Unknown
    {
      refusal := RequireRollbackBudget(line, armed, Window(plan));
      ghost var vigil;
      outcome, vigil := AwaitRevert(line, plan, before, armed, Window(plan), k, kept);
    }

    /**
     The run in which "Reverted" is wrong: the device takes the confirm, the reply is lost, and
     every option that votes is deleted, unset or rewritten later in the plan. An undisturbed
     look then says that the change is gone, on a device that keeps it for good.
     */
    method ConfirmReplyLost(line: Line, plan: Plan, names: seq<string>, before: Snapshot, window: nat)
      returns (outcome: Outcome, ghost k: Stake, ghost lost: View)
      requires line.Valid() && line.sid in line.dev.sessions && line.dev.rollback.None?
      requires |names| == |plan.ops| && Mine(line.dev.Now(), line.sid) == PlanDeltas(plan.ops, names)
      requires AllUndone(plan.ops, names, before, line.blank) && SomeVote(plan.ops, before)
      modifies line`cancelled, line`timerLost, line`mishaps, line`interfered, line`dropped, line`ours, line.dev
      ensures k.pre == old(line.dev.committed) && k.deltas == PlanDeltas(plan.ops, names)
      ensures Kept(lost.s, line.sid, k) && lost.mishaps == old(line.mishaps) + 1
      ensures Quiet(lost, line.Seen()) ==> outcome == Reverted && line.dev.committed == k.Post()
    {
      k := Stake(line.dev.committed, PlanDeltas(plan.ops, names), line.dev.now + window);
      var taken := line.dev.ApplyAll(line.sid, true, window);
      taken := line.dev.ConfirmApply(line.sid);
      line.dropped, line.mishaps := true, line.mishaps + 1;
      lost := line.Seen();
      RewrittenOptionsCannotTell(k.pre, plan.ops, names, before, line.blank);
      outcome := LookAround(line, plan, before, k, true);
    }

    // ---- the state machine --------------------------------------------------------------

    method StageAndVerify(line: Line, plan: Plan) returns (err: Option<Error>, ghost names: seq<string>)
      requires line.Valid()
      modifies line`cancelled, line`timerLost, line`mishaps, line`interfered, line`dropped, line.dev
      ensures line.Valid() && StagedOrNot(old(line.Seen()), line.Seen(), line.sid, plan, err, names)
      ensures err.Some? ==> LateError(err.value)
    {
      ghost var a, nothing := line.Seen(), Stake(map[], map[], 0);
      var ok;
      ok, names := StageAll(line, plan);
      ghost var b := line.Seen();
      if !ok {
        ok := RevertAll(line, plan, false, nothing, false);
        StagingGivenUp(a, b, line.Seen(), line.sid, plan, names, ok);
        return Some(StageFailed), names;
      }
      err := VerifyStaged(line, plan);
      ghost var c := line.Seen();
      if err.Some? {
        ok := RevertAll(line, plan, false, nothing, false);
      }
      StagingVerified(a, b, c, line.Seen(), line.sid, plan, names, err, ok);
    }

    /** Everything before the point of no return. On an error the session is left with no delta. */
    method Prepare(line: Line, plan: Plan) returns (err: Option<Error>, before: Snapshot, ghost names: seq<string>)
      requires line.Valid() && plan.ops != []
      modifies line`cancelled, line`timerLost, line`mishaps, line`interfered, line`dropped, line.dev
      ensures line.Valid()
      ensures Prepared(old(line.Seen()), line.Seen(), line.sid, plan, line.blank, err, before, names)
      ensures err == Some(ContextEnded) ==> line.CtxDone()
      ensures err == Some(BudgetTooShort) ==>
                line.ctxDeadline.Some? && line.dev.now + Window(plan) + revertGrace > line.ctxDeadline.value
      ensures err.None? ==> !line.CtxDone()
      ensures err.None? && line.ctxDeadline.Some? ==> line.dev.now + Window(plan) + revertGrace <= line.ctxDeadline.value
      ensures (err == Some(ContextEnded) || err == Some(BudgetTooShort)) && line.reliable && !line.timerLost ==>
                CleanedAway(old(line.Seen()), line.Seen(), line.sid, plan)
    {
      before, names := map[], [];
      ghost var a := line.Seen();
      ghost var listing;
      err, listing := Preflight(line, plan);
      ghost var b := line.Seen();
      if err.Some? {
        PreflightFailed(a, b, line.sid, plan, line.blank, err.value, names);
        return;
      }
      before := SnapshotPlanned(line, plan);
      ghost var c := line.Seen();
      err, names := StageAndVerify(line, plan);
      SnapshotThenStaged(a, b, c, line.Seen(), line.sid, plan, line.blank, before, err, names);
      if err.None? {
        err := GuardBudget(line, plan, before, names, a);
      }
    }

    /** The last check before the point of no return; `a` is how things stood when the run began. */
    method GuardBudget(line: Line, plan: Plan, before: Snapshot, ghost names: seq<string>, ghost a: View) returns (err: Option<Error>)
      requires line.Valid() && plan.ops != [] && Prepared(a, line.Seen(), line.sid, plan, line.blank, None, before, names)
      modifies line`cancelled, line`timerLost, line`mishaps, line`interfered, line`dropped, line.dev
      ensures line.Valid() && Prepared(a, line.Seen(), line.sid, plan, line.blank, err, before, names)
      ensures err == Some(ContextEnded) ==> line.CtxDone()
      ensures err == Some(BudgetTooShort) ==>
                line.ctxDeadline.Some? && line.dev.now + Window(plan) + revertGrace > line.ctxDeadline.value
      ensures err.Some? ==> err == Some(ContextEnded) || err == Some(BudgetTooShort)
      ensures err.None? ==> !line.CtxDone()
      ensures err.None? && line.ctxDeadline.Some? ==> line.dev.now + Window(plan) + revertGrace <= line.ctxDeadline.value
      ensures (err == Some(ContextEnded) || err == Some(BudgetTooShort)) && line.reliable && !line.timerLost ==>
                CleanedAway(a, line.Seen(), line.sid, plan)
    {
      err := RequireRollbackBudget(line, line.dev.now, Window(plan));
      if err.Some? {
        ghost var d := line.Seen();
        var ok := RevertAll(line, plan, true, Stake(map[], map[], 0), false);
        StagedThenGivenUp(a, d, line.Seen(), line.sid, plan, line.blank, before, names, err.value, ok);
      }
    }

    /** The point of no return. `stake` is what was put at stake if the device took the call. */
    method Arm(line: Line, plan: Plan, ghost names: seq<string>) returns (err: Option<Error>, ghost stake: Option<Stake>)
      requires line.Valid()
      modifies line`cancelled, line`timerLost, line`mishaps, line`interfered, line`dropped, line`log, line.dev
      ensures line.Valid() && line.log == old(line.log) + [ApplySent(old(line.dev.now))]
      ensures Arming(old(line.Seen()), line.Seen(), line.sid, err, stake)
      ensures err.Some? ==> err == Some(AnotherApplyArmed) || err == Some(ApplyFailed)
      ensures err.Some? ==> Unstaged(old(line.Seen()), line.Seen(), line.sid, Elements(Configs(plan.ops)))
      ensures stake.Some? ==> old(line.dev.now) + WholeSeconds(Window(plan)) <= stake.value.deadline
    {
      var window := WholeSeconds(Window(plan));
      var r, s, t := line.ApplyCall(window);
      ghost var a, b := old(line.Seen()), line.Seen();
      stake := if t != s || r.Answered? then Some(Stake(s.committed, Mine(s, line.sid), s.now + window)) else None;
      Armament(a, s, t, b, line.sid, r, window, stake);
      err := FailureOf(r);
      if err.Some? {
        ghost var k := if stake.Some? then stake.value else Stake(map[], map[], 0);
        var ok := RevertAll(line, plan, false, k, b.timerLost);
        ArmamentGivenUp(a, b, line.Seen(), line.sid, Elements(Configs(plan.ops)), err, ok, k, stake);
      }
    }

    /** The caller's check: an arbitrary verdict after an arbitrary time. */
    method RunHealth(line: Line) returns (passed: bool)
      requires line.Valid()
      modifies line`cancelled, line`timerLost, line`mishaps, line`interfered, line`log, line.dev
      ensures line.Valid() && Drifts(old(line.Seen()), line.Seen())
      ensures line.log == old(line.log) + [HealthRan(passed, line.dev.now)]
    {
      line.Pass();
      passed := *;
      line.log := line.log + [HealthRan(passed, line.dev.now)];
    }

    /** The revert path: wait, look, and clear the delta that came back with the snapshot. */
    method Withdraw(line: Line, plan: Plan, before: Snapshot, armed: nat, ghost k: Stake, ghost kept: bool)
      returns (outcome: Outcome, ghost vigil: Vigil)
      requires line.Valid() && plan.ops != []
      modifies line`cancelled, line`timerLost, line`mishaps, line`interfered, line`dropped, line`ours, line`log, line.dev
      ensures line.Valid() && outcome != Applied
      ensures Awaited(old(line.Seen()), line.Seen(), line.sid, k, kept, plan.ops, before, line.blank, outcome)
      ensures k.deadline + line.lag <= armed + Window(plan) + revertGrace ==>
                Cleared(old(line.Seen()), line.Seen(), line.sid, k, kept, plan.ops, before, line.blank, outcome)
      ensures vigil.from == old(line.Seen()) && line.log == old(line.log) + vigil.sent
      ensures Watched(vigil, armed + Window(plan) + revertGrace, line.ctxDeadline, line.sid, k, plan.ops, before, line.blank, outcome)
    {
      outcome, vigil := AwaitRevert(line, plan, before, armed, Window(plan), k, kept);
      ghost var mid, done := line.Seen(), line.CtxDone();
      var ok := RevertAll(line, plan, false, k, kept || mid.timerLost);
      Withdrawn(old(line.Seen()), mid, line.Seen(), line.sid, k, kept, plan.ops, before, line.blank, outcome, ok, done);
    }

    /** Health while the timer runs, then confirm on the applying session. */
    method HealthAndConfirm(line: Line, deadline: nat, ghost k: Stake, ghost kept: bool) returns (ok: bool, ghost confirmed: bool)
      requires line.Valid() && confirmInterval > 0
      modifies line`cancelled, line`timerLost, line`mishaps, line`interfered, line`dropped, line`log, line.dev
      ensures line.Valid() && Confirms(old(line.Seen()), line.Seen(), line.sid, k, kept, confirmed, ok)
      ensures Tried(old(line.log), line.log, deadline, confirmed)
    {
      var passed := RunHealth(line);
      ghost var mid, log := line.Seen(), line.log;
      WaitingConfirms(old(line.Seen()), mid, line.sid, k, kept);
      ok, confirmed := false, false;
      if passed {
        ok, confirmed := ConfirmPoll(line, deadline, k, kept || mid.timerLost);
        ConfirmsCompose(old(line.Seen()), mid, line.Seen(), line.sid, k, kept, false, confirmed, ok);
      }
      TriedOut(old(line.log), log, line.log, deadline, passed, mid.s.now, confirmed);
    }

    /** Not confirmed; `a` is how things stood before the health check. */
    method Decline(line: Line, plan: Plan, before: Snapshot, armed: nat, ghost k: Stake, ghost kept: bool, ghost confirmed: bool,
                   ghost a: View)
      returns (outcome: Outcome, ghost vigil: Vigil)
      requires line.Valid() && plan.ops != [] && Confirms(a, line.Seen(), line.sid, k, kept, confirmed, false)
      modifies line`cancelled, line`timerLost, line`mishaps, line`interfered, line`dropped, line`ours, line`log, line.dev
      ensures line.Valid() && outcome != Applied && line.log == old(line.log) + vigil.sent
      ensures Decision(a, line.Seen(), line.sid, k, kept, plan.ops, before, line.blank, outcome, confirmed)
      ensures k.deadline + line.lag <= armed + Window(plan) + revertGrace ==>
                Clearance(a, line.Seen(), line.sid, k, kept, plan.ops, before, line.blank, outcome)
      ensures Watched(vigil, armed + Window(plan) + revertGrace, line.ctxDeadline, line.sid, k, plan.ops, before, line.blank, outcome)
    {
      ghost var mid := line.Seen();
      outcome, vigil := Withdraw(line, plan, before, armed, k, kept || confirmed || mid.timerLost);
      Declined(a, mid, line.Seen(), line.sid, k, kept, plan.ops, before, line.blank, outcome, confirmed);
    }

    /** Health, confirm, and what follows when either falls through. */
    method Decide(line: Line, plan: Plan, before: Snapshot, armed: nat, ghost k: Stake, ghost kept: bool)
      returns (outcome: Outcome, ghost confirmed: bool, ghost vigil: Option<Vigil>)
      requires line.Valid() && confirmInterval > 0 && plan.ops != []
      requires |line.log| > 0 && line.log[|line.log| - 1] == ApplySent(armed)
      modifies line`cancelled, line`timerLost, line`mishaps, line`interfered, line`dropped, line`ours, line`log, line.dev
      ensures line.Valid()
      ensures Decision(old(line.Seen()), line.Seen(), line.sid, k, kept, plan.ops, before, line.blank, outcome, confirmed)
      ensures k.deadline + line.lag <= armed + Window(plan) + revertGrace ==>
                Clearance(old(line.Seen()), line.Seen(), line.sid, k, kept, plan.ops, before, line.blank, outcome)
      ensures FollowedThrough(old(line.log), line.log, Window(plan), revertGrace, confirmed)
      ensures VigilKept(vigil, armed + Window(plan) + revertGrace, line.ctxDeadline, line.sid, k, plan.ops, before, line.blank, outcome)
      ensures vigil.Some? ==> EndsWith(line.log[|old(line.log)|..], vigil.value.sent)
    {
      var ok;
      ok, confirmed := HealthAndConfirm(line, armed + Window(plan), k, kept);
      ghost var mid, log := line.Seen(), line.log;
      if ok {
        Accepted(old(line.Seen()), mid, line.sid, k, kept, plan.ops, before, line.blank);
        outcome, vigil := Applied, None;
      } else {
        ghost var watch: Vigil;
        outcome, watch := Decline(line, plan, before, armed, k, kept, confirmed, old(line.Seen()));
        vigil := Some(watch);
      }
      DecisionLogged(old(line.log), log, line.log, if vigil.Some? then vigil.value.sent else [], armed, Window(plan), revertGrace,
                     confirmed);
    }

    /** From the armed device on; `a` and `b` are how things stood at the start and before arming. */
    method DecideArmed(line: Line, plan: Plan, before: Snapshot, armed: nat, ghost names: seq<string>, ghost stake: Stake,
                       ghost a: View, ghost b: View)
      returns (verdict: Verdict, ghost run: Report)
      requires line.Valid() && confirmInterval > 0 && plan.ops != [] && Idle(a.s, line.sid, map[])
      requires Prepared(a, b, line.sid, plan, line.blank, None, before, names)
      requires Arming(b, line.Seen(), line.sid, None, Some(stake))
      requires |line.log| > 0 && line.log[|line.log| - 1] == ApplySent(armed)
      modifies line`cancelled, line`timerLost, line`mishaps, line`interfered, line`dropped, line`ours, line`log, line.dev
      ensures line.Valid() && verdict.Decided? && (verdict.stranded <==> verdict.outcome == Unknown)
      ensures Believable(a, line.Seen(), line.sid, plan, line.blank, verdict, run)
      ensures run.stake.Some? && (Timely(run, Window(plan), revertGrace, line.lag) ==>
                                    NoResidue(a, line.Seen(), line.sid, plan, line.blank, verdict, run))
      ensures line.log == old(line.log[..|line.log| - 1]) + run.sent && InOrder(run, verdict, Window(plan), revertGrace)
      ensures run.sent[0] == ApplySent(armed)
      ensures Attended(run, verdict, plan, line.sid, armed + Window(plan) + revertGrace, line.ctxDeadline, line.blank)
    {
      ghost var c, log := line.Seen(), line.log;
      var outcome;
      ghost var confirmed, vigil;
      outcome, confirmed, vigil := Decide(line, plan, before, armed, stake, c.timerLost);
      verdict := Decided(outcome, outcome == Unknown);
      run := Report(Some(stake), names, before, confirmed, line.log[|log| - 1..], vigil);
      assert line.log[|log| - 1..][1..] == line.log[|log|..];
      SentInOrder(log, line.log, armed, Window(plan), revertGrace, run, verdict);
      RunDecided(a, b, c, line.Seen(), line.sid, plan, line.blank, before, names, outcome, confirmed, run);
    }

    /** From the apply call on; `a` is how things stood when the whole run began. */
    method ArmAndDecide(line: Line, plan: Plan, before: Snapshot, ghost names: seq<string>, ghost a: View)
      returns (verdict: Verdict, ghost run: Report)
      requires line.Valid() && confirmInterval > 0 && plan.ops != [] && Idle(a.s, line.sid, map[])
      requires Prepared(a, line.Seen(), line.sid, plan, line.blank, None, before, names)
      modifies line`cancelled, line`timerLost, line`mishaps, line`interfered, line`dropped, line`ours, line`log, line.dev
      ensures line.Valid() && (verdict.Decided? ==> (verdict.stranded <==> verdict.outcome == Unknown))
      ensures verdict.Failed? ==> verdict.error == AnotherApplyArmed || verdict.error == ApplyFailed
      ensures Believable(a, line.Seen(), line.sid, plan, line.blank, verdict, run)
      ensures run.stake.Some? && Timely(run, Window(plan), revertGrace, line.lag) ==>
                NoResidue(a, line.Seen(), line.sid, plan, line.blank, verdict, run)
      ensures line.log == old(line.log) + run.sent && InOrder(run, verdict, Window(plan), revertGrace)
      ensures run.sent != [] && run.sent[0] == ApplySent(old(line.dev.now))
      ensures Attended(run, verdict, plan, line.sid, old(line.dev.now) + Window(plan) + revertGrace, line.ctxDeadline, line.blank)
    {
      var armed := line.dev.now;
      ghost var b := line.Seen();
      var err;
      ghost var stake;
      err, stake := Arm(line, plan, names);
      if err.Some? {
        run := Report(stake, names, before, false, [ApplySent(armed)], None);
        ArmingFailed(a, b, line.Seen(), line.sid, plan, line.blank, before, names, err.value, stake, run);
        return Failed(err.value), run;
      }
      verdict, run := DecideArmed(line, plan, before, armed, names, stake.value, a, b);
    }

    /**
     The whole run: preflight, stage, verify, arm, health, confirm, await the revert.

     `Believable` is `Sound`, which holds of every run in which no third party committed,
     applied or acted on our token, and `Exact`, which adds what a run without losses does;
     so does `NoResidue`. `InOrder` holds of every run at all.
     */
    method Apply(line: Line, plan: Plan) returns (verdict: Verdict, ghost run: Report)
      requires line.Valid() && confirmInterval > 0
      requires Idle(line.dev.Now(), line.sid, map[])
      modifies line`cancelled, line`timerLost, line`mishaps, line`interfered, line`dropped, line`ours, line`log, line.dev
      ensures line.Valid() && (verdict.Decided? ==> (verdict.stranded <==> verdict.outcome == Unknown))
      ensures Believable(old(line.Seen()), line.Seen(), line.sid, plan, line.blank, verdict, run)
      ensures line.log == old(line.log) + run.sent && InOrder(run, verdict, Window(plan), revertGrace)
      ensures run.stake.Some? && Timely(run, Window(plan), revertGrace, line.lag) ==>
                NoResidue(old(line.Seen()), line.Seen(), line.sid, plan, line.blank, verdict, run)
      ensures run.sent != [] && line.ctxDeadline.Some? ==>
                run.sent[0].at + Window(plan) + revertGrace <= line.ctxDeadline.value
      ensures run.sent != [] ==>
                Attended(run, verdict, plan, line.sid, run.sent[0].at + Window(plan) + revertGrace, line.ctxDeadline, line.blank)
      ensures verdict == Failed(ContextEnded) ==> line.CtxDone()
      ensures verdict == Failed(BudgetTooShort) ==>
                line.ctxDeadline.Some? && line.dev.now + Window(plan) + revertGrace > line.ctxDeadline.value
      ensures run.sent != [] ==> KeepsOff(plan.ops) || plan.acknowledged
      ensures verdict.Decided? && verdict.outcome == Applied && !line.interfered ==>
                CarriedOut(run.stake.value.pre, line.dev.committed, plan.ops, run.names)
      ensures (verdict == Failed(ContextEnded) || verdict == Failed(BudgetTooShort)) && line.reliable && !line.timerLost ==>
                CleanedAway(old(line.Seen()), line.Seen(), line.sid, plan)
    {
      run := Report(None, [], map[], false, [], None);
      if plan.ops == [] {
        return Failed(EmptyPlan), run;
      }
      ghost var a := line.Seen();
      var err, before;
      ghost var names;
      err, before, names := Prepare(line, plan);
      if err.Some? {
        run := Report(None, names, before, false, [], None);
        return Failed(err.value), run;
      }
      verdict, run := ArmAndDecide(line, plan, before, names, a);
      AppliedIsCarriedOut(a, line.Seen(), line.sid, plan, line.blank, verdict, run);
    }
  }

  // ---- steps of the state machine ----------------------------------------------------

  /** Up to the point of no return: nothing is armed, and either the whole plan is staged or it is given up. */
  ghost predicate Prepared(a: View, b: View, sid: Sid, plan: Plan, blank: bool, err: Option<Error>, before: Snapshot,
                           names: seq<string>) {
    && PreStep(a, b, sid)
    && (err.None? ==> Names(plan.ops, names) && Shaped(plan.ops) && (KeepsOff(plan.ops) || plan.acknowledged))
    && (!b.interfered && Idle(a.s, sid, map[]) && err.None? ==> Mine(b.s, sid) == PlanDeltas(plan.ops, names))
    && (b.Clean() && Idle(a.s, sid, map[]) && err.Some? ==> Mine(b.s, sid) == map[] && Justified(err.value, plan, a.s))
    && (b.Clean() && ReadsCommitted(a.s, sid) ==>
          before == SnapshotOf(if err.Some? && PreflightError(err.value) then {} else PlanKeys(plan.ops), a.s.committed, blank))
  }

  predicate PreflightError(err: Error) {
    err.SavedirUnreadable? || err.ForeignEdits? || err.TraversalNotAcknowledged?
  }

  /** The reasons for which a clean run that began in `s` may end in an error. */
  predicate Justified(err: Error, plan: Plan, s: State) {
    match err
    case EmptyPlan => plan.ops == []
    case ForeignEdits(configs) => configs != []
    case TraversalNotAcknowledged => !KeepsOff(plan.ops) && !plan.acknowledged
    case StageFailed => !StageableThroughout(plan.ops, s)
    case ContextEnded => true
    case BudgetTooShort => true
    case AnotherApplyArmed => s.rollback.Some?
    case _ => false
  }

  predicate LateError(err: Error) {
    err.StageFailed? || err.NothingStaged? || err.UnexpectedStaged? || err.ChangesUnreadable?
  }

  ghost predicate StagedOrNot(a: View, b: View, sid: Sid, plan: Plan, err: Option<Error>, names: seq<string>) {
    && PreStep(a, b, sid)
    && (err.None? ==> Names(plan.ops, names) && Shaped(plan.ops))
    && (!b.interfered && Idle(a.s, sid, map[]) && err.None? ==> Mine(b.s, sid) == PlanDeltas(plan.ops, names))
    && (b.Clean() && Idle(a.s, sid, map[]) && err.Some? ==>
          Mine(b.s, sid) == map[] && err == Some(StageFailed) && !StageableThroughout(plan.ops, a.s))
  }

  lemma StagingGivenUp(a: View, b: View, c: View, sid: Sid, plan: Plan, names: seq<string>, ok: bool)
    requires AllStaged(a, b, sid, plan.ops, names, false)
    requires Discards(b, c, sid, Elements(Configs(plan.ops)), ok, Stake(map[], map[], 0), false)
    ensures StagedOrNot(a, c, sid, plan, Some(StageFailed), names)
  {
    PreStepsCompose(a, b, c, sid);
    if c.Clean() && Idle(a.s, sid, map[]) {
      assert Mine(c.s, sid) == map[];
    }
  }

  lemma StagingVerified(a: View, b: View, c: View, d: View, sid: Sid, plan: Plan, names: seq<string>, err: Option<Error>, ok: bool)
    requires AllStaged(a, b, sid, plan.ops, names, true)
    requires StagedVerified(b, c, sid, Configs(plan.ops), err.None?)
    requires if err.None? then d == c else Discards(c, d, sid, Elements(Configs(plan.ops)), ok, Stake(map[], map[], 0), false)
    ensures StagedOrNot(a, d, sid, plan, err, names)
  {
    PreStepsCompose(a, b, c, sid);
    PreStepsCompose(a, c, d, sid);
    PlanDeltasCoverTheConfigs(plan.ops, names);
  }

  lemma PreflightFailed(a: View, b: View, sid: Sid, plan: Plan, blank: bool, err: Error, names: seq<string>)
    requires Drifts(a, b) && sid in a.ours && PreflightError(err)
    requires b.Clean() ==> Justified(err, plan, a.s)
    ensures Prepared(a, b, sid, plan, blank, Some(err), map[], names)
  {
    DriftsArePreSteps(a, b, sid);
    assert SnapshotOf({}, a.s.committed, blank) == map[];
  }

  lemma SnapshotThenStaged(a: View, b: View, c: View, d: View, sid: Sid, plan: Plan, blank: bool, before: Snapshot,
                           err: Option<Error>, names: seq<string>)
    requires Drifts(a, b) && Drifts(b, c) && sid in a.ours
    requires KeepsOff(plan.ops) || plan.acknowledged
    requires Recorded(b, c, sid, blank, {}, map[], PlanKeys(plan.ops), before)
    requires StagedOrNot(c, d, sid, plan, err, names) && (err.Some? ==> LateError(err.value))
    ensures Prepared(a, d, sid, plan, blank, err, before, names)
  {
    DriftsCompose(a, b, c);
    DriftsArePreSteps(a, b, sid);
    DriftsArePreSteps(a, c, sid);
    PreStepsCompose(a, c, d, sid);
    assert SnapshotOf({}, b.s.committed, blank) == map[];
  }

  lemma StagedThenGivenUp(a: View, b: View, c: View, sid: Sid, plan: Plan, blank: bool, before: Snapshot, names: seq<string>,
                          err: Error, ok: bool)
    requires Prepared(a, b, sid, plan, blank, None, before, names)
    requires Discards(b, c, sid, Elements(Configs(plan.ops)), ok, Stake(map[], map[], 0), false)
    requires err == ContextEnded || err == BudgetTooShort
    ensures Prepared(a, c, sid, plan, blank, Some(err), before, names)
  {
    PreStepsCompose(a, b, c, sid);
    PlanDeltasCoverTheConfigs(plan.ops, names);
    if c.Clean() && Idle(a.s, sid, map[]) {
      assert Mine(c.s, sid) == map[];
    }
  }

  /** What the apply call did: nothing, or it armed the device with this session's delta. */
  ghost predicate Arming(a: View, b: View, sid: Sid, err: Option<Error>, stake: Option<Stake>) {
    && Onward(a, b) && b.ours == a.ours
    && (err.None? ==> stake.Some?)
    && (stake.None? ==> PreStep(a, b, sid))
    && (stake.Some? && !b.interfered && Unarmed(a.s, sid) ==>
          && After(b.s, sid, stake.value, b.timerLost)
          && stake.value.deltas == Mine(a.s, sid)
          && (a.s.rollback.None? ==> stake.value.pre == a.s.committed))
    && (b.Clean() && Unarmed(a.s, sid) && err.Some? ==>
          a.s.rollback.Some? && stake.None? && err == Some(AnotherApplyArmed) && Mine(b.s, sid).Keys <= Mine(a.s, sid).Keys)
  }

  /** On a clean run a failed call leaves nothing staged on the configs of the plan. */
  ghost predicate Unstaged(a: View, b: View, sid: Sid, configs: set<string>) {
    b.Clean() && Unarmed(a.s, sid) ==> Mine(b.s, sid).Keys <= Mine(a.s, sid).Keys - configs
  }

  function FailureOf(r: Reply<()>): Option<Error> {
    if r.Answered? then None else if r == Refused(PermissionDenied) then Some(AnotherApplyArmed) else Some(ApplyFailed)
  }

  lemma Armament(a: View, s: State, t: State, b: View, sid: Sid, r: Reply<()>, window: nat, stake: Option<Stake>)
    requires Called(a, s, t, b) && sid in a.ours && a.s.Valid()
    requires Unserved(r, s, t, b)
             || (ApplyRefused(s, sid) && t == s && (r == Refused(PermissionDenied) || (r == Lost && b.dropped)))
             || (!ApplyRefused(s, sid) && t == Apply(s, sid, true, window) && (r == Answered(()) || (r == Lost && b.dropped)))
    requires stake == if t != s || r.Answered? then Some(Stake(s.committed, Mine(s, sid), s.now + window)) else None
    ensures Arming(a, b, sid, FailureOf(r), stake)
  {
    if !b.interfered && Unarmed(a.s, sid) {
      UnarmedDrifts(a.s, s, sid, a.ours, b.timerLost);
      if stake.Some? {
        assert Armed(t, sid, stake.value);
        AfterDrifts(t, b.s, sid, a.ours, stake.value, false, b.timerLost);
      } else {
        UnarmedDrifts(t, b.s, sid, a.ours, b.timerLost);
      }
    }
  }

  lemma ArmamentGivenUp(a: View, b: View, c: View, sid: Sid, configs: set<string>, err: Option<Error>, ok: bool, k: Stake,
                        stake: Option<Stake>)
    requires Arming(a, b, sid, err, stake) && err.Some?
    requires stake.Some? ==> k == stake.value
    requires Discards(b, c, sid, configs, ok, k, b.timerLost)
    ensures Arming(a, c, sid, err, stake) && Unstaged(a, c, sid, configs)
  {}

  /** On a clean run the revert path leaves the session with no delta on a config of the plan. */
  ghost predicate Cleared(a: View, b: View, sid: Sid, k: Stake, kept: bool, ops: seq<Op>, before: Snapshot, blank: bool,
                          outcome: Outcome) {
    b.Clean() && !kept && After(a.s, sid, k, kept) ==>
      && Restored(b.s, sid, k)
      && (Honest(before, k.pre, blank) ==> (outcome == Reverted <==> SomeVote(ops, before)))
      && (k.deltas.Keys <= Elements(Configs(ops)) ==> Mine(b.s, sid) == map[])
  }

  lemma Withdrawn(a: View, b: View, c: View, sid: Sid, k: Stake, kept: bool, ops: seq<Op>, before: Snapshot, blank: bool,
                  outcome: Outcome, ok: bool, done: bool)
    requires Awaited(a, b, sid, k, kept, ops, before, blank, outcome)
    requires Discards(b, c, sid, Elements(Configs(ops)), ok, k, kept || b.timerLost)
    requires done ==> c.dropped
    ensures Awaited(a, c, sid, k, kept, ops, before, blank, outcome)
    ensures (done || Settled(a, b, sid, k, kept, ops, before, blank, outcome)) ==>
              Cleared(a, c, sid, k, kept, ops, before, blank, outcome)
  {
    if !c.interfered && Restored(b.s, sid, k) {
      assert Unarmed(b.s, sid) && Restored(c.s, sid, k);
    }
  }

  /**
   Verdict soundness from the armed device on. "Applied" is only said of a device that took
   this session's confirm and keeps the whole plan; "Reverted" only of a device that is back
   where it was, provided not all the options that voted are fooled.
   */
  ghost predicate Decision(a: View, b: View, sid: Sid, k: Stake, kept: bool, ops: seq<Op>, before: Snapshot, blank: bool,
                           outcome: Outcome, confirmed: bool) {
    var said := && (outcome == Applied ==> confirmed) && (outcome == Reverted ==> SomeVote(ops, before))
                && (b.Clean() ==> (outcome == Applied <==> confirmed));
    var sound := !b.interfered && After(a.s, sid, k, kept) ==>
                   && (outcome == Applied ==> Kept(b.s, sid, k))
                   && (outcome == Reverted && !AllFooled(ops, before, k.Post(), blank) ==> Restored(b.s, sid, k));
    PostStep(a, b, sid, k, kept, kept || confirmed) && said && sound
  }

  /** On a clean run everything but "Applied" ends in a reverted device and a session without residue. */
  ghost predicate Clearance(a: View, b: View, sid: Sid, k: Stake, kept: bool, ops: seq<Op>, before: Snapshot, blank: bool,
                            outcome: Outcome) {
    outcome != Applied ==> Cleared(a, b, sid, k, kept, ops, before, blank, outcome)
  }

  lemma Accepted(a: View, b: View, sid: Sid, k: Stake, kept: bool, ops: seq<Op>, before: Snapshot, blank: bool)
    requires Confirms(a, b, sid, k, kept, true, true)
    ensures Decision(a, b, sid, k, kept, ops, before, blank, Applied, true)
  {}

  lemma Declined(a: View, b: View, c: View, sid: Sid, k: Stake, kept: bool, ops: seq<Op>, before: Snapshot,
                 blank: bool, outcome: Outcome, confirmed: bool)
    requires outcome != Applied && Confirms(a, b, sid, k, kept, confirmed, false)
    requires Awaited(b, c, sid, k, kept || confirmed || b.timerLost, ops, before, blank, outcome)
    ensures Decision(a, c, sid, k, kept, ops, before, blank, outcome, confirmed)
    ensures Cleared(b, c, sid, k, kept || confirmed || b.timerLost, ops, before, blank, outcome) ==>
              Clearance(a, c, sid, k, kept, ops, before, blank, outcome)
  {}

  // ---- the whole run ------------------------------------------------------------------

  /** What really happened: known to the proof, not to the engine. */
  datatype Report = Report(
    stake: Option<Stake>, names: seq<string>, before: Snapshot, confirmed: bool, sent: seq<Event>, vigil: Option<Vigil>)

  /**
   Whatever is lost, whenever the timer dies: an error before arming changed nothing; what
   was armed is the plan and nothing but the plan; and the verdict is sound.
   */
  ghost predicate Sound(a: View, b: View, sid: Sid, plan: Plan, blank: bool, verdict: Verdict, run: Report) {
    && Onward(a, b)
    && (run.stake.None? ==> verdict.Failed?)
    && (!b.interfered && run.stake.None? ==> Unarmed(b.s, sid) && Calm(a.s, b.s))
    && (!b.interfered && run.stake.Some? ==> AtStake(a, b, sid, plan, run))
    && (verdict.Decided? && verdict.outcome == Applied ==>
          run.confirmed && (!b.interfered ==> Kept(b.s, sid, run.stake.value)))
    && (verdict.Decided? && verdict.outcome == Reverted ==> SomeVote(plan.ops, run.before))
    && (verdict.Decided? && verdict.outcome == Reverted && !b.interfered
        && !AllFooled(plan.ops, run.before, run.stake.value.Post(), blank) ==>
          Restored(b.s, sid, run.stake.value))
  }

  ghost predicate AtStake(a: View, b: View, sid: Sid, plan: Plan, run: Report)
    requires run.stake.Some?
  {
    && After(b.s, sid, run.stake.value, run.confirmed || b.timerLost)
    && Names(plan.ops, run.names) && Shaped(plan.ops)
    && run.stake.value.deltas == PlanDeltas(plan.ops, run.names)
    && (a.s.rollback.None? ==> run.stake.value.pre == a.s.committed)
    && (a.s.rollback.None? ==> forall c :: c !in Configs(plan.ops) ==>
          (c in b.s.committed <==> c in a.s.committed) && ConfigOr(b.s.committed, c) == ConfigOr(a.s.committed, c))
  }

  /**
   Without losses the engine learns exactly what happened: "Applied" if and only if the
   device took the confirm, and an error only for a reason that can be named, with nothing
   armed, nothing left staged, and nothing committed unless a rollback of somebody else's did.
   */
  ghost predicate Exact(a: View, b: View, sid: Sid, plan: Plan, blank: bool, verdict: Verdict, run: Report) {
    b.Clean() ==>
      && (verdict.Decided? ==> (verdict.outcome == Applied <==> run.confirmed))
      && (Idle(a.s, sid, map[]) && verdict.Failed? ==>
            && run.stake.None? && Mine(b.s, sid) == map[] && Justified(verdict.error, plan, a.s)
            && (a.s.rollback.None? ==> b.s.committed == a.s.committed))
      && (ReadsCommitted(a.s, sid) && verdict.Decided? ==>
            run.before == SnapshotOf(PlanKeys(plan.ops), a.s.committed, blank))
  }

  /** "Applied" means that the device holds what the plan asked for, and nothing else has changed. */
  lemma AppliedIsCarriedOut(a: View, b: View, sid: Sid, plan: Plan, blank: bool, verdict: Verdict, run: Report)
    requires Sound(a, b, sid, plan, blank, verdict, run)
    ensures verdict.Decided? && verdict.outcome == Applied && !b.interfered ==>
              CarriedOut(run.stake.value.pre, b.s.committed, plan.ops, run.names)
  {
    if verdict.Decided? && verdict.outcome == Applied && !b.interfered {
      PlanIsCarriedOut(run.stake.value.pre, plan.ops, run.names);
    }
  }

  ghost predicate Believable(a: View, b: View, sid: Sid, plan: Plan, blank: bool, verdict: Verdict, run: Report) {
    Sound(a, b, sid, plan, blank, verdict, run) && Exact(a, b, sid, plan, blank, verdict, run)
  }

  /** The run waited for the revert unless it was accepted, and its wait was as `Watched` says. */
  ghost predicate Attended(run: Report, verdict: Verdict, plan: Plan, sid: Sid, until: nat, ctxDeadline: Option<nat>, blank: bool) {
    verdict.Decided? ==>
      && run.stake.Some?
      && VigilKept(run.vigil, until, ctxDeadline, sid, run.stake.value, plan.ops, run.before, blank, verdict.outcome)
      && (run.vigil.Some? ==> EndsWith(run.sent, run.vigil.value.sent))
  }

  /** So whatever the run, a context that ends with window and grace never hears "Reverted". */
  lemma NothingIsVerifiedAtTheLimit(run: Report, verdict: Verdict, plan: Plan, sid: Sid, until: nat, blank: bool)
    requires Attended(run, verdict, plan, sid, until, Some(until), blank) && verdict.Decided?
    ensures if run.vigil.None? then verdict.outcome == Applied else verdict.outcome == Unknown
  {}

  /**
   And every run that looks, undisturbed, at a change that stands, says "Reverted" of it if the
   plan undoes all its votes later, whether the confirm's reply was lost or the revert is late.
   */
  lemma StandingChangesAreMistaken(a: View, b: View, sid: Sid, plan: Plan, blank: bool, verdict: Verdict, run: Report, until: nat,
                                   ctxDeadline: Option<nat>)
    requires Sound(a, b, sid, plan, blank, verdict, run) && !b.interfered && verdict.Decided?
    requires Attended(run, verdict, plan, sid, until, ctxDeadline, blank)
    requires run.vigil.Some? && run.vigil.value.sent != [] && Quiet(run.vigil.value.from, run.vigil.value.till)
    requires Standing(run.vigil.value.from.s, sid, run.stake.value) && Standing(run.vigil.value.till.s, sid, run.stake.value)
    ensures verdict.outcome == Reverted <==>
              SomeVote(plan.ops, run.before) && AllFooled(plan.ops, run.before, run.stake.value.Post(), blank)
    ensures SomeVote(plan.ops, run.before) && AllUndone(plan.ops, run.names, run.before, blank) ==> verdict.outcome == Reverted
  {
    if AllUndone(plan.ops, run.names, run.before, blank) {
      RewrittenOptionsCannotTell(run.stake.value.pre, plan.ops, run.names, run.before, blank);
    }
  }

  ghost predicate InOrder(run: Report, verdict: Verdict, window: nat, grace: nat) {
    && WellOrdered(run.sent, window, grace)
    && (verdict.Decided? <==> |run.sent| > 1)
    && (run.stake.Some? ==> run.sent != [])
    && (run.confirmed ==> |run.sent| > 2 && run.sent[1].passed && run.sent[2].ConfirmSent?)
    && (|run.sent| > 1 && run.sent[1].passed && run.sent[1].at < run.sent[0].at + window ==>
          |run.sent| > 2 && run.sent[2] == ConfirmSent(run.sent[1].at))
  }

  /** The device armed so soon after the call was sent that its timer and its lag fit into the grace. */
  ghost predicate Timely(run: Report, window: nat, grace: nat, lag: nat)
    requires run.stake.Some?
  {
    run.sent != [] && run.stake.value.deadline + lag <= run.sent[0].at + window + grace
  }

  /**
   A timely run without losses leaves the session with no delta at all and no rollback of
   its own pending; and when it did not end in "Applied", committed configuration is back
   to what it was, and that is said exactly if some option of the plan could tell.
   */
  ghost predicate NoResidue(a: View, b: View, sid: Sid, plan: Plan, blank: bool, verdict: Verdict, run: Report)
    requires run.stake.Some?
  {
    b.Clean() && verdict.Decided? ==>
      && Mine(b.s, sid) == map[] && b.s.rollback.None?
      && (verdict.outcome != Applied && ReadsCommitted(a.s, sid) ==>
            && b.s.committed == a.s.committed
            && (verdict.outcome == Reverted <==>
                  SomeVote(plan.ops, SnapshotOf(PlanKeys(plan.ops), a.s.committed, blank))))
  }

  lemma SentInOrder(log: seq<Event>, log': seq<Event>, armed: nat, window: nat, grace: nat, run: Report, verdict: Verdict)
    requires |log| > 0 && log[|log| - 1] == ApplySent(armed)
    requires FollowedThrough(log, log', window, grace, run.confirmed)
    requires run.sent == log'[|log| - 1..] && verdict.Decided? && run.stake.Some?
    ensures log' == log[..|log| - 1] + run.sent && InOrder(run, verdict, window, grace) && run.sent[0] == ApplySent(armed)
  {
    assert log'[..|log|] == log;
    assert log'[|log| - 1] == log[|log| - 1];
    assert log'[..|log| - 1] == log[..|log| - 1];
  }

  lemma FrameOfThePlan(s: State, sid: Sid, k: Stake, kept: bool, ops: seq<Op>, names: seq<string>, c: string)
    requires After(s, sid, k, kept) && |names| == |ops| && k.deltas == PlanDeltas(ops, names) && c !in Configs(ops)
    ensures (c in s.committed <==> c in k.pre) && ConfigOr(s.committed, c) == ConfigOr(k.pre, c)
  {}

  lemma AtStakeSoFar(a: View, b: View, c: View, d: View, sid: Sid, plan: Plan, blank: bool, before: Snapshot, names: seq<string>,
                     err: Option<Error>, run: Report)
    requires Idle(a.s, sid, map[]) && !d.interfered && Onward(c, d)
    requires Prepared(a, b, sid, plan, blank, None, before, names)
    requires Arming(b, c, sid, err, run.stake) && run.stake.Some? && run.names == names
    requires PostStep(c, d, sid, run.stake.value, c.timerLost, c.timerLost || run.confirmed)
    ensures AtStake(a, d, sid, plan, run)
  {
    assert After(d.s, sid, run.stake.value, run.confirmed || d.timerLost);
    if a.s.rollback.None? {
      forall e | e !in Configs(plan.ops)
        ensures (e in d.s.committed <==> e in a.s.committed) && ConfigOr(d.s.committed, e) == ConfigOr(a.s.committed, e)
      {
        FrameOfThePlan(d.s, sid, run.stake.value, run.confirmed || d.timerLost, plan.ops, names, e);
      }
    }
  }

  lemma ArmingFailed(a: View, b: View, c: View, sid: Sid, plan: Plan, blank: bool, before: Snapshot, names: seq<string>,
                     err: Error, stake: Option<Stake>, run: Report)
    requires Idle(a.s, sid, map[]) && Prepared(a, b, sid, plan, blank, None, before, names)
    requires Arming(b, c, sid, Some(err), stake) && Unstaged(b, c, sid, Elements(Configs(plan.ops)))
    requires run.stake == stake && run.names == names && run.before == before && !run.confirmed
    ensures Believable(a, c, sid, plan, blank, Failed(err), run)
  {
    PlanDeltasCoverTheConfigs(plan.ops, names);
    if stake.None? {
      PreStepsCompose(a, b, c, sid);
    } else if !c.interfered {
      AtStakeSoFar(a, b, c, c, sid, plan, blank, before, names, Some(err), run);
    }
  }

  lemma RunDecided(a: View, b: View, c: View, d: View, sid: Sid, plan: Plan, blank: bool, before: Snapshot, names: seq<string>,
                   outcome: Outcome, confirmed: bool, run: Report)
    requires Idle(a.s, sid, map[]) && Prepared(a, b, sid, plan, blank, None, before, names)
    requires Arming(b, c, sid, None, run.stake)
    requires Decision(c, d, sid, run.stake.value, c.timerLost, plan.ops, before, blank, outcome, confirmed)
    requires run.names == names && run.before == before && run.confirmed == confirmed
    ensures var verdict := Decided(outcome, outcome == Unknown);
            && Believable(a, d, sid, plan, blank, verdict, run)
            && (Clearance(c, d, sid, run.stake.value, c.timerLost, plan.ops, before, blank, outcome) ==>
                  NoResidue(a, d, sid, plan, blank, verdict, run))
  {
    if !d.interfered {
      AtStakeSoFar(a, b, c, d, sid, plan, blank, before, names, None, run);
    }
    PlanDeltasCoverTheConfigs(plan.ops, names);
    if ReadsCommitted(a.s, sid) && d.Clean() {
      SnapshotsAreHonest(PlanKeys(plan.ops), a.s.committed, blank);
    }
  }

  /**
   The hypothesis of "Reverted" in terms of the plan: if no operation undoes or misplaces an
   option that votes, then any vote at all tells the states apart.
   */
  lemma SurvivingVotesTell(ops: seq<Op>, names: seq<string>, before: Snapshot, pre: Store, blank: bool)
    requires |names| == |ops| && SomeVote(ops, before)
    requires forall i, k :: 0 <= i < |ops| && k in ops[i].values && Votes(ops[i], before, k) ==> Survives(ops, names, i, k)
    ensures SomeVoteTells(ops, before, CommitAll(pre, PlanDeltas(ops, names)), blank)
  {
    var i :| 0 <= i < |ops| && OpVotes(ops[i], before);
    var k :| k in ops[i].values.Keys && Votes(ops[i], before, k);
    SurvivorIsCommitted(pre, ops, names, i, k, blank);
    assert OpTells(ops[i], before, CommitAll(pre, PlanDeltas(ops, names)), blank);
  }

  /**
   Why "no residue" needs the apply's reply: while the device is armed there is nothing to
   discard, and the timer brings the whole delta back after the discard.
   */
  lemma EarlyDiscardIsUndone(s: State, sid: Sid, k: Stake, c: string, later: State)
    requires Armed(s, sid, k)
    requires later == Revert(s, sid, c).(now := later.now) && later.now > k.deadline
    ensures Revert(s, sid, c).committed == s.committed && Mine(Revert(s, sid, c), sid) == map[]
    ensures Mine(Watchdog(later), sid) == k.deltas && Watchdog(later).committed == k.pre
  {
    assert Expired(later);
  }

  lemma SnapshotsAreHonest(keys: set<Key>, store: Store, blank: bool)
    ensures Honest(SnapshotOf(keys, store, blank), store, blank)
  {}

  // ---- what is sent, and when ------------------------------------------------------

  /** A health check and, only if it passed, confirms; a first confirm goes out at once. */
  ghost predicate Tried(before: seq<Event>, log: seq<Event>, deadline: nat, confirmed: bool) {
    && |log| > |before| && log[..|before|] == before && log[|before|].HealthRan?
    && (forall i :: |before| < i < |log| ==> log[i].ConfirmSent? && log[|before|].passed && log[i].at < deadline)
    && (confirmed ==> |log| > |before| + 1)
    && (log[|before|].passed && log[|before|].at < deadline ==>
          |log| > |before| + 1 && log[|before| + 1] == ConfirmSent(log[|before|].at))
  }

  lemma TriedOut(before: seq<Event>, ran: seq<Event>, log: seq<Event>, deadline: nat, passed: bool, at: nat, confirmed: bool)
    requires ran == before + [HealthRan(passed, at)]
    requires if passed then Polled(ran, log, at, deadline) && (confirmed ==> log != ran) else log == ran && !confirmed
    ensures Tried(before, log, deadline, confirmed)
  {
    assert log[..|ran|] == ran && ran[..|before|] == before;
    assert log[|before|] == ran[|before|];
  }

  /** From the apply call on, everything was sent in order. */
  ghost predicate FollowedThrough(before: seq<Event>, log: seq<Event>, window: nat, grace: nat, confirmed: bool)
    requires |before| > 0
  {
    && |log| > |before| && log[..|before|] == before
    && var sent := log[|before| - 1..];
       && WellOrdered(sent, window, grace) && sent[1].HealthRan?
       && (confirmed ==> |sent| > 2 && sent[2].ConfirmSent?)
       && (sent[1].passed && sent[1].at < sent[0].at + window ==> |sent| > 2 && sent[2] == ConfirmSent(sent[1].at))
  }

  lemma LoggedInOrder(before: seq<Event>, tried: seq<Event>, log: seq<Event>, armed: nat, window: nat, grace: nat,
                      confirmed: bool)
    requires |before| > 0 && before[|before| - 1] == ApplySent(armed)
    requires Tried(before, tried, armed + window, confirmed)
    requires log == tried || LoggedCheck(tried, log, armed + window + grace)
    ensures FollowedThrough(before, log, window, grace, confirmed)
  {
    var n := |before| - 1;
    assert log[..|tried|] == tried && tried[..|before|] == before;
    assert forall i :: 0 <= i < |tried| ==> log[i] == tried[i];
    assert log[n] == before[n];
  }

  predicate LoggedCheck(before: seq<Event>, log: seq<Event>, earliest: nat) {
    |log| == |before| + 1 && log[..|before|] == before && log[|before|].CheckStarted? && log[|before|].at >= earliest
  }

  /** The story of a login: what the device served, and what is ours after it. */
  ghost predicate LoggedIn(a: View, s: State, t: State, b: View, sid: Sid, r: Reply<Sid>) {
    && Onward(a, b) && sid in a.ours && sid < a.s.nextSid && s.Valid() && (r.Answered? || (r == Lost && b.dropped))
    && (b.interfered || (Drift(a.s, s, a.ours, b.timerLost) && Drift(t, b.s, b.ours, b.timerLost)))
    && (t == s || t == Login(s))
    && (r.Answered? ==> t == Login(s) && r.value == LoginToken(s) && r.value in t.sessions && r.value in b.ours)
  }

  lemma LoginOpens(a: View, s: State, t: State, b: View, sid: Sid, k: Stake, kept: bool, r: Reply<Sid>)
    requires LoggedIn(a, s, t, b, sid, r)
    ensures PostStep(a, b, sid, k, kept, kept) && OpenedSoundly(a, b, sid, k, kept, r)
  {
    if !b.interfered && After(a.s, sid, k, kept) {
      AfterDrifts(a.s, s, sid, a.ours, k, kept, b.timerLost);
      LoginReads(s, sid, k, kept || b.timerLost);
      AfterDrifts(t, b.s, sid, b.ours, k, kept || b.timerLost, b.timerLost);
    }
  }

  lemma LoginOpensQuietly(a: View, s: State, t: State, b: View, sid: Sid, k: Stake, r: Reply<Sid>)
    requires LoggedIn(a, s, t, b, sid, r) && CalledQuietly(a, s, t, b) && (r == Lost ==> b.mishaps > a.mishaps)
    ensures OpenedQuietly(a, b, sid, k, r)
  {
    if Quiet(a, b) && Standing(s, sid, k) {
      LoginReadsStanding(s, sid, k);
    }
  }

  /** The second session reads what the device holds; once reverted, it is a session of its own. */
  ghost predicate Opened(a: View, b: View, sid: Sid, k: Stake, kept: bool, r: Reply<Sid>) {
    a.mishaps <= b.mishaps && OpenedSoundly(a, b, sid, k, kept, r) && OpenedQuietly(a, b, sid, k, r)
  }

  ghost predicate OpenedSoundly(a: View, b: View, sid: Sid, k: Stake, kept: bool, r: Reply<Sid>) {
    var sound := !b.interfered && After(a.s, sid, k, kept) && r.Answered? ==>
                   Checking(b.s, Look(sid, r.value, k), kept || b.timerLost);
    var restored := && (!b.interfered && Restored(a.s, sid, k) ==> Restored(b.s, sid, k) && Mine(b.s, sid) == Mine(a.s, sid))
                    && (b.Clean() && Restored(a.s, sid, k) && r.Answered? ==> Verifying(b.s, Look(sid, r.value, k)));
    sound && restored
  }

  ghost predicate OpenedQuietly(a: View, b: View, sid: Sid, k: Stake, r: Reply<Sid>) {
    Quiet(a, b) ==>
      && r.Answered? && (Kept(a.s, sid, k) ==> Kept(b.s, sid, k))
      && (Standing(a.s, sid, k) && Standing(b.s, sid, k) ==> Keeping(b.s, Look(sid, r.value, k)))
  }

  lemma LoginReads(s: State, sid: Sid, k: Stake, kept: bool)
    requires s.Valid() && sid < s.nextSid && After(s, sid, k, kept)
    ensures var t := Login(s);
            && Checking(t, Look(sid, LoginToken(s), k), kept)
            && (Restored(s, sid, k) ==> Verifying(t, Look(sid, LoginToken(s), k)) && Mine(t, sid) == Mine(s, sid))
  {
    assert s.nextSid !in s.staged;
  }

  /** While the change stands the second session lays nothing over it, even if it is the applier's. */
  lemma LoginReadsStanding(s: State, sid: Sid, k: Stake)
    requires s.Valid() && sid < s.nextSid && Standing(s, sid, k)
    ensures Keeping(Login(s), Look(sid, LoginToken(s), k))
  {
    assert s.nextSid !in s.staged;
  }

  /**
   What a look from a second session is worth. "Reverted" is only said of a device that is
   back where it was, unless every vote is fooled; and on a clean run a device that is back
   is said to have reverted exactly if some option of the plan could tell.
   */
  ghost predicate Judged(a: View, b: View, sid: Sid, k: Stake, kept: bool, ops: seq<Op>, before: Snapshot, blank: bool,
                         outcome: Outcome) {
    var sound := && (outcome == Reverted ==> SomeVote(ops, before))
                 && (!b.interfered && After(a.s, sid, k, kept) && outcome == Reverted && !AllFooled(ops, before, k.Post(), blank) ==>
                       Restored(b.s, sid, k));
    var restored := && (!b.interfered && Restored(a.s, sid, k) ==> Restored(b.s, sid, k) && Mine(b.s, sid) == Mine(a.s, sid))
                    && (b.Clean() && Restored(a.s, sid, k) && Honest(before, k.pre, blank) ==>
                          (outcome == Reverted <==> SomeVote(ops, before)));
    a.mishaps <= b.mishaps && sound && restored && Deceives(a, b, sid, k, ops, before, blank, outcome)
  }

  /**
   An undisturbed look at a device on which the change stands, before and after it, says
   "Reverted" exactly if there are votes and all are fooled; and what is kept stays kept.
   */
  ghost predicate Deceives(a: View, b: View, sid: Sid, k: Stake, ops: seq<Op>, before: Snapshot, blank: bool, outcome: Outcome) {
    Quiet(a, b) ==>
      && (Kept(a.s, sid, k) ==> Kept(b.s, sid, k))
      && (Standing(a.s, sid, k) && Standing(b.s, sid, k) ==>
            (outcome == Reverted <==> SomeVote(ops, before) && AllFooled(ops, before, k.Post(), blank)))
  }

  lemma Judging(a: View, b: View, c: View, sid: Sid, v: Sid, k: Stake, kept: bool, ops: seq<Op>,
                before: Snapshot, blank: bool, answer: Answer, outcome: Outcome)
    requires PostStep(a, b, sid, k, kept, kept) && Opened(a, b, sid, k, kept, Answered(v))
    requires Looked(b, c, Look(sid, v, k), kept || b.timerLost, AllFooled(ops, before, k.Post(), blank),
                    Honest(before, k.pre, blank), answer)
    requires outcome == Reverted <==> answer == Gone && SomeVote(ops, before)
    ensures PostStep(a, c, sid, k, kept, kept) && Judged(a, c, sid, k, kept, ops, before, blank, outcome)
  {}

  /** The wait for the revert: how things stood when health and polling had ended, and after the look; and what was sent. */
  datatype Vigil = Vigil(from: View, till: View, sent: seq<Event>)

  /**
   A wait that can end before the context looks at the device exactly when window and grace
   are over, or at once if they already are; one that cannot never verifies anything; and a
   look on which nothing was lost says of a change that stands what `Deceives` says.
   */
  ghost predicate Watched(w: Vigil, until: nat, ctxDeadline: Option<nat>, sid: Sid, k: Stake, ops: seq<Op>, before: Snapshot,
                          blank: bool, outcome: Outcome) {
    var one := w.sent == [] || (|w.sent| == 1 && w.sent[0].CheckStarted? && w.sent[0].at >= until);
    var none := w.sent == [] ==> outcome == Unknown && Over(w.till, ctxDeadline);
    var punctual := && (InTime(w.from, w.till, until, ctxDeadline) ==> w.sent == [CheckStarted(until)])
                    && (w.from.s.now >= until ==> w.sent == [CheckStarted(w.from.s.now)]);
    var late := ctxDeadline.Some? && ctxDeadline.value <= until ==> outcome == Unknown;
    var fooled := w.sent != [] ==> Deceives(w.from, w.till, sid, k, ops, before, blank, outcome);
    outcome != Applied && one && none && punctual && late && fooled
  }

  predicate InTime(a: View, b: View, until: nat, ctxDeadline: Option<nat>) {
    a.s.now <= until && !b.cancelled && (ctxDeadline.None? || until < ctxDeadline.value)
  }

  predicate Over(v: View, ctxDeadline: Option<nat>) {
    v.cancelled || (ctxDeadline.Some? && v.s.now >= ctxDeadline.value)
  }

  /** Slept until it was time, unless it already was, or the context ended first. */
  ghost predicate WaitedFor(a: View, b: View, until: nat, ctxDeadline: Option<nat>, lag: nat, woke: bool) {
    var drifted := Drifts(a, b) && (b.interfered || Punctual(b.s, lag));
    var ended := if woke then b.s.now >= until else a.s.now < until && Over(b, ctxDeadline) && !InTime(a, b, until, ctxDeadline);
    var punctual := && (InTime(a, b, until, ctxDeadline) ==> b.s.now == until)
                    && (a.s.now >= until ==> b.s.now == a.s.now);
    drifted && ended && punctual
  }

  lemma WatchedInVain(a: View, mid: View, until: nat, ctxDeadline: Option<nat>, sid: Sid, k: Stake, ops: seq<Op>, before: Snapshot,
                      blank: bool)
    requires a.s.now < until && Over(mid, ctxDeadline) && !InTime(a, mid, until, ctxDeadline)
    ensures Watched(Vigil(a, mid, []), until, ctxDeadline, sid, k, ops, before, blank, Unknown)
  {}

  lemma WatchedToTheEnd(a: View, mid: View, b: View, until: nat, ctxDeadline: Option<nat>, sid: Sid, k: Stake, ops: seq<Op>,
                        before: Snapshot, blank: bool, outcome: Outcome)
    requires Drifts(a, mid) && sid in a.ours && mid.s.now >= until && (mid.cancelled ==> b.cancelled) && (mid.interfered ==> b.interfered)
    requires a.s.now >= until ==> mid.s.now == a.s.now
    requires InTime(a, mid, until, ctxDeadline) ==> mid.s.now == until
    requires outcome != Applied && (ctxDeadline.Some? && ctxDeadline.value <= mid.s.now ==> outcome == Unknown)
    requires Deceives(a, b, sid, k, ops, before, blank, outcome)
    ensures Watched(Vigil(a, b, [CheckStarted(mid.s.now)]), until, ctxDeadline, sid, k, ops, before, blank, outcome)
  {}

  /** If the change stands before the wait and after the look, it did in between. */
  lemma DeceivesAfterWaiting(a: View, mid: View, b: View, sid: Sid, k: Stake, ops: seq<Op>, before: Snapshot, blank: bool, outcome: Outcome)
    requires Drifts(a, mid) && sid in a.ours && (mid.interfered ==> b.interfered)
    requires mid.mishaps <= b.mishaps && Deceives(mid, b, sid, k, ops, before, blank, outcome)
    requires !b.interfered && Restored(mid.s, sid, k) ==> Restored(b.s, sid, k) && Mine(b.s, sid) == Mine(mid.s, sid)
    ensures Deceives(a, b, sid, k, ops, before, blank, outcome)
  {}

  /** Everything the end of a wait says. */
  ghost predicate Finished(w: Vigil, b: View, until: nat, ctxDeadline: Option<nat>, lag: nat, sid: Sid, k: Stake, kept: bool,
                           ops: seq<Op>, before: Snapshot, blank: bool, outcome: Outcome) {
    var sound := Awaited(w.from, b, sid, k, kept, ops, before, blank, outcome);
    var settled := k.deadline + lag <= until ==> Settled(w.from, b, sid, k, kept, ops, before, blank, outcome);
    var watched := Watched(w, until, ctxDeadline, sid, k, ops, before, blank, outcome);
    w.till == b && sound && settled && watched
  }

  /** A wait and a look, put together. */
  lemma Inspected(a: View, mid: View, b: View, until: nat, ctxDeadline: Option<nat>, lag: nat, sid: Sid, k: Stake, kept: bool,
                  ops: seq<Op>, before: Snapshot, blank: bool, outcome: Outcome)
    requires sid in a.ours && WaitedFor(a, mid, until, ctxDeadline, lag, true) && outcome != Applied
    requires PostStep(mid, b, sid, k, kept || mid.timerLost, kept || mid.timerLost)
    requires Judged(mid, b, sid, k, kept || mid.timerLost, ops, before, blank, outcome)
    requires Over(mid, ctxDeadline) ==> outcome == Unknown
    ensures Finished(Vigil(a, b, [CheckStarted(mid.s.now)]), b, until, ctxDeadline, lag, sid, k, kept, ops, before, blank, outcome)
  {
    WaitingKeeps(a, mid, sid, k, kept, lag, until);
    Waited(a, mid, b, sid, k, kept, ops, before, blank, outcome);
    DeceivesAfterWaiting(a, mid, b, sid, k, ops, before, blank, outcome);
    WatchedToTheEnd(a, mid, b, until, ctxDeadline, sid, k, ops, before, blank, outcome);
  }

  ghost predicate VigilKept(w: Option<Vigil>, until: nat, ctxDeadline: Option<nat>, sid: Sid, k: Stake, ops: seq<Op>, before: Snapshot,
                            blank: bool, outcome: Outcome) {
    var watched := w.Some? ==> Watched(w.value, until, ctxDeadline, sid, k, ops, before, blank, outcome);
    (w.None? <==> outcome == Applied) && watched
  }

  predicate EndsWith(log: seq<Event>, sent: seq<Event>) {
    |sent| <= |log| && log[|log| - |sent|..] == sent
  }

  /** Health, confirms and the wait, all in order and the wait last. */
  lemma DecisionLogged(before: seq<Event>, tried: seq<Event>, log: seq<Event>, sent: seq<Event>, armed: nat, window: nat, grace: nat,
                       confirmed: bool)
    requires |before| > 0 && before[|before| - 1] == ApplySent(armed) && Tried(before, tried, armed + window, confirmed)
    requires log == tried + sent
    requires sent == [] || (|sent| == 1 && sent[0].CheckStarted? && sent[0].at >= armed + window + grace)
    ensures FollowedThrough(before, log, window, grace, confirmed) && EndsWith(log[|before|..], sent)
  {
    LoggedInOrder(before, tried, log, armed, window, grace, confirmed);
  }

  ghost predicate Awaited(a: View, b: View, sid: Sid, k: Stake, kept: bool, ops: seq<Op>, before: Snapshot, blank: bool,
                          outcome: Outcome) {
    var sound := !b.interfered && After(a.s, sid, k, kept) && outcome == Reverted && !AllFooled(ops, before, k.Post(), blank) ==>
                   Restored(b.s, sid, k);
    PostStep(a, b, sid, k, kept, kept) && (outcome == Reverted ==> SomeVote(ops, before)) && sound
  }

  /** On a clean run the wait outlasts the device's own timer. */
  ghost predicate Settled(a: View, b: View, sid: Sid, k: Stake, kept: bool, ops: seq<Op>, before: Snapshot, blank: bool,
                          outcome: Outcome) {
    b.Clean() && !kept && After(a.s, sid, k, kept) ==>
      && Restored(b.s, sid, k)
      && (Honest(before, k.pre, blank) ==> (outcome == Reverted <==> SomeVote(ops, before)))
  }

  lemma WaitingKeeps(a: View, b: View, sid: Sid, k: Stake, kept: bool, lag: nat, until: nat)
    requires Drifts(a, b) && sid in a.ours
    ensures PostStep(a, b, sid, k, kept, kept)
    ensures b.Clean() && !kept && After(a.s, sid, k, kept) && Punctual(b.s, lag) && k.deadline + lag <= until <= b.s.now ==>
              Restored(b.s, sid, k)
  {
    if !b.interfered && After(a.s, sid, k, kept) {
      AfterDrifts(a.s, b.s, sid, a.ours, k, kept, b.timerLost);
    }
  }

  lemma Waited(a: View, b: View, c: View, sid: Sid, k: Stake, kept: bool, ops: seq<Op>, before: Snapshot, blank: bool,
               outcome: Outcome)
    requires PostStep(a, b, sid, k, kept, kept)
    requires PostStep(b, c, sid, k, kept || b.timerLost, kept || b.timerLost)
    requires Judged(b, c, sid, k, kept || b.timerLost, ops, before, blank, outcome)
    ensures Awaited(a, c, sid, k, kept, ops, before, blank, outcome)
    ensures (b.Clean() && !kept && After(a.s, sid, k, kept) ==> Restored(b.s, sid, k)) ==>
              Settled(a, c, sid, k, kept, ops, before, blank, outcome)
  {}

  lemma OneMoreOp(ops: seq<Op>, i: nat, before: Snapshot, post: Store, blank: bool)
    requires i < |ops|
    ensures VoteBelow(ops, i + 1, before) <==> VoteBelow(ops, i, before) || OpVotes(ops[i], before)
    ensures FooledBelow(ops, i + 1, before, post, blank) <==> FooledBelow(ops, i, before, post, blank) && OpFooled(ops[i], before, post, blank)
  {}

  lemma NotYetConfirming(a: View, sid: Sid, k: Stake, kept: bool)
    ensures Confirms(a, a, sid, k, kept, false, false)
  {}

  ghost predicate PolledSoFar(before: seq<Event>, log: seq<Event>, start: nat, now: nat, deadline: nat) {
    && start <= now
    && if log == before then now == start else start < deadline && Polled(before, log, start, deadline)
  }

  lemma PollingOn(before: seq<Event>, log: seq<Event>, start: nat, now: nat, later: nat, deadline: nat)
    requires PolledSoFar(before, log, start, now, deadline) && now < deadline && now <= later
    ensures PolledSoFar(before, log + [ConfirmSent(now)], start, later, deadline)
    ensures log + [ConfirmSent(now)] != before
  {}

  /** Between two confirms lies the interval, whatever the replies take. */
  ghost predicate Spaced(log: seq<Event>, from: nat, interval: nat) {
    forall i :: from < i < |log| ==> log[i].at >= log[i - 1].at + interval
  }

  /** The last confirm is an interval ago. */
  ghost predicate Rested(log: seq<Event>, from: nat, interval: nat, now: nat) {
    from < |log| ==> now >= log[|log| - 1].at + interval
  }

  lemma SpacedFurther(log: seq<Event>, from: nat, interval: nat, now: nat)
    requires from <= |log| && Spaced(log, from, interval) && Rested(log, from, interval, now)
    ensures Spaced(log + [ConfirmSent(now)], from, interval)
    ensures forall later: nat :: later >= now + interval ==> Rested(log + [ConfirmSent(now)], from, interval, later)
  {}

  /** What a poll adds to the log: confirms inside the window, the first of them at once. */
  ghost predicate Polled(before: seq<Event>, log: seq<Event>, start: nat, deadline: nat) {
    && |before| <= |log| && log[..|before|] == before
    && (forall i :: |before| <= i < |log| ==> log[i].ConfirmSent? && log[i].at < deadline)
    && (start < deadline ==> |log| > |before| && log[|before|] == ConfirmSent(start))
  }

  // ---- steps of the snapshot ---------------------------------------------------

  /** If `earlier` was the faithful record of `keys`, `before` is the faithful record of `more`. */
  ghost predicate Recorded(a: View, b: View, sid: Sid, blank: bool, keys: set<Key>, earlier: Snapshot,
                           more: set<Key>, before: Snapshot) {
    b.Clean() && ReadsCommitted(a.s, sid) && earlier == SnapshotOf(keys, a.s.committed, blank) ==>
      before == SnapshotOf(more, a.s.committed, blank) && ReadsCommitted(b.s, sid) && b.s.committed == a.s.committed
  }

  lemma RecordedComposes(a: View, b: View, c: View, sid: Sid, blank: bool, keys: set<Key>, earlier: Snapshot,
                         more: set<Key>, mid: Snapshot, most: set<Key>, before: Snapshot)
    requires Onward(b, c)
    requires Recorded(a, b, sid, blank, keys, earlier, more, mid) && Recorded(b, c, sid, blank, more, mid, most, before)
    ensures Recorded(a, c, sid, blank, keys, earlier, most, before)
  {}

  lemma SnapshotGrows(keys: set<Key>, key: Key, store: Store, blank: bool)
    ensures SnapshotOf(keys + {key}, store, blank) ==
            match ReadFrom(store, key, blank)
            case Got(v) => SnapshotOf(keys, store, blank)[key := Some(v)]
            case Missing => SnapshotOf(keys, store, blank)[key := None]
            case Unreadable => SnapshotOf(keys, store, blank)
  {}

  lemma PlanKeysGrow(ops: seq<Op>, i: nat)
    requires i < |ops|
    ensures PlanKeys(ops[..i + 1]) == PlanKeys(ops[..i]) + OpKeys(ops[i])
  {
    forall key | key in OpKeys(ops[i])
      ensures key in PlanKeys(ops[..i + 1])
    {
      assert ops[..i + 1][i] == ops[i];
    }
    forall key | key in PlanKeys(ops[..i])
      ensures key in PlanKeys(ops[..i + 1])
    {
      var j :| 0 <= j < i && key in OpKeys(ops[..i][j]);
      assert ops[..i + 1][j] == ops[..i][j];
    }
  }
}
