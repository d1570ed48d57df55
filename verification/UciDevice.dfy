/**
 The UCI device of tools/mock_ubus.py: committed configuration, deltas staged per
 session token, and one timed rollback that only the applying session may confirm.

 Every operation appears twice: as a function on a `State` value, about which the
 laws are proved, and as a method of the class `Device`, which changes the fields in
 place as the simulator changes its module-level dictionaries.
 */
module UciDevice {
  import opened Options

  type Sid = nat

  datatype Value = Text(text: string) | Items(items: seq<string>)
  type Section = map<string, Value>
  type Config = map<string, Section>
  type Store = map<string, Config>

  const TYPE := ".type"

  /** One staged operation. `Unset` is the option-level delete the engine sends. */
  datatype Delta =
    | Add(section: string, kind: string, values: Section)
    | Set(section: string, kind: string, values: Section)
    | Delete(section: string)
    | Unset(section: string, option: string)

  type Deltas = map<string, seq<Delta>>

  /** The armed rollback. A zero deadline is what `uci.rollback` leaves behind. */
  datatype Pending = Pending(snapshot: Store, deltas: Deltas, owner: Sid, deadline: nat)

  datatype State = State(
    committed: Store,
    staged: map<Sid, Deltas>,
    rollback: Option<Pending>,
    sessions: set<Sid>,
    nextSid: Sid,
    now: nat)
  {
    /** Tokens are never reissued, so a new session finds no delta waiting for it. */
    ghost predicate Valid() {
      && now > 0
      && (forall sid :: sid in staged ==> sid < nextSid)
      && (forall sid :: sid in sessions ==> sid < nextSid)
      && (rollback.Some? ==> rollback.value.owner < nextSid)
    }
  }

  datatype Status = Success | NotFound | NoData | PermissionDenied | Denied

  // ---- one config -----------------------------------------------------

  function ApplyDelta(cfg: Config, d: Delta): Config {
    match d
    case Add(s, kind, values) => cfg[s := map[TYPE := Text(kind)] + values]
    case Set(s, kind, values) =>
      var found := if s in cfg then cfg[s] else map[TYPE := Text(if kind == "" then "unknown" else kind)];
      var typed := if kind == "" then found else found[TYPE := Text(kind)];
      cfg[s := typed + values]
    case Delete(s) => cfg - {s}
    case Unset(s, o) => if s in cfg then cfg[s := cfg[s] - {o}] else cfg
  }

  function Overlay(cfg: Config, ds: seq<Delta>): Config {
    if |ds| == 0 then cfg else ApplyDelta(Overlay(cfg, ds[..|ds| - 1]), ds[|ds| - 1])
  }

  function ConfigOr(store: Store, c: string): Config {
    if c in store then store[c] else map[]
  }

  /** What committing `deltas` for the configs in `configs` makes of a store. */
  function CommitSome(store: Store, deltas: Deltas, configs: set<string>): Store {
    store + map c | c in Touched(deltas, configs) :: Committed(store, deltas, c)
  }

  function Touched(deltas: Deltas, configs: set<string>): set<string> {
    set c | c in configs && c in deltas && deltas[c] != []
  }

  function Committed(store: Store, deltas: Deltas, c: string): Config
    requires c in deltas
  {
    Overlay(ConfigOr(store, c), deltas[c])
  }

  function CommitAll(store: Store, deltas: Deltas): Store {
    CommitSome(store, deltas, deltas.Keys)
  }

  lemma CommitOne(store: Store, deltas: Deltas, c: string)
    ensures CommitSome(store, deltas, {c}) ==
            if c in deltas && deltas[c] != [] then store[c := Overlay(ConfigOr(store, c), deltas[c])] else store
  {}

  lemma CommitOneMore(store: Store, deltas: Deltas, done: set<string>, rest: Deltas, c: string)
    requires c in deltas && c !in done && c in rest && rest[c] == deltas[c]
    ensures CommitSome(CommitSome(store, deltas, done), rest, {c}) == CommitSome(store, deltas, done + {c})
  {
    var midway := CommitSome(store, deltas, done);
    assert Committed(midway, rest, c) == Committed(store, deltas, c) by {
      assert ConfigOr(midway, c) == ConfigOr(store, c);
    }
    var first := map k | k in Touched(deltas, done) :: Committed(store, deltas, k);
    var second := map k | k in Touched(rest, {c}) :: Committed(midway, rest, k);
    var both := map k | k in Touched(deltas, done + {c}) :: Committed(store, deltas, k);
    assert Touched(deltas, done + {c}) == Touched(deltas, done) + Touched(rest, {c});
    assert forall k :: k in second ==> k == c;
    MergeTwice(store, first, second, both);
  }

  lemma MergeTwice<K, V>(base: map<K, V>, first: map<K, V>, second: map<K, V>, both: map<K, V>)
    requires both.Keys == first.Keys + second.Keys
    requires forall k :: k in first && k !in second ==> both[k] == first[k]
    requires forall k :: k in second ==> both[k] == second[k]
    ensures base + first + second == base + both
  {}

  // ---- the device -----------------------------------------------------

  function Mine(s: State, sid: Sid): Deltas {
    if sid in s.staged then s.staged[sid] else map[]
  }

  function Pile(s: State, sid: Sid, c: string): seq<Delta> {
    if c in Mine(s, sid) then Mine(s, sid)[c] else []
  }

  /** What a session reads: committed state with its own delta laid over it. */
  function Effective(s: State, sid: Sid, c: string): Option<Config> {
    if c !in s.committed && Pile(s, sid, c) == [] then None
    else Some(Overlay(ConfigOr(s.committed, c), Pile(s, sid, c)))
  }

  function Stage(s: State, sid: Sid, c: string, d: Delta): State {
    s.(staged := s.staged[sid := Mine(s, sid)[c := Pile(s, sid, c) + [d]]])
  }

  function Revert(s: State, sid: Sid, c: string): State {
    if sid in s.staged then s.(staged := s.staged[sid := s.staged[sid] - {c}]) else s
  }

  function Commit(s: State, sid: Sid, c: string): State {
    Revert(s, sid, c).(committed := CommitSome(s.committed, Mine(s, sid), {c}))
  }

  predicate ApplyRefused(s: State, sid: Sid) {
    s.rollback.Some? && s.rollback.value.owner != sid && s.rollback.value.deadline > s.now
  }

  function Apply(s: State, sid: Sid, arm: bool, timeout: nat): State {
    if ApplyRefused(s, sid) then s else
    var armed := if arm then s.(rollback := Some(Pending(s.committed, Mine(s, sid), sid, s.now + timeout))) else s;
    armed.(committed := CommitAll(s.committed, Mine(s, sid)),
           staged := if sid in s.staged then s.staged[sid := map[]] else s.staged)
  }

  function ConfirmStatus(s: State, sid: Sid): Status {
    if s.rollback.None? then NoData
    else if s.rollback.value.owner != sid then PermissionDenied
    else Success
  }

  function Confirm(s: State, sid: Sid): State {
    if ConfirmStatus(s, sid) == Success then s.(rollback := None) else s
  }

  predicate Expired(s: State) {
    s.rollback.Some? && s.rollback.value.deadline != 0 && s.now > s.rollback.value.deadline
  }

  /** One pass of the watchdog: the owner's delta comes back with the snapshot. */
  function Watchdog(s: State): State {
    if !Expired(s) then s else
    var p := s.rollback.value;
    s.(committed := p.snapshot, staged := s.staged[p.owner := p.deltas], rollback := None)
  }

  /** `uci.rollback` only zeroes the deadline and leaves the rest to the watchdog. */
  function ForceRollback(s: State): State {
    if s.rollback.Some? && s.rollback.value.deadline != 0
    then s.(rollback := Some(s.rollback.value.(deadline := 0)))
    else s
  }

  /** The token rule: while a rollback is armed every login gets the owner's token. */
  function LoginToken(s: State): Sid {
    if s.rollback.Some? && s.rollback.value.owner in s.sessions then s.rollback.value.owner else s.nextSid
  }

  function Login(s: State): State {
    if LoginToken(s) == s.nextSid
    then s.(sessions := s.sessions + {s.nextSid}, nextSid := s.nextSid + 1)
    else s
  }

  function Destroy(s: State, sid: Sid): State {
    s.(sessions := s.sessions - {sid}, staged := s.staged - {sid})
  }

  /** An rpcd restart: the timer and every session token are gone. */
  function Restart(s: State): State {
    s.(rollback := None, sessions := {})
  }

  // ---- laws of one operation ------------------------------------------

  /** A set makes the section it does not find; an add starts it anew. */
  lemma SectionsSpringUp(cfg: Config, section: string, kind: string, values: Section)
    requires TYPE !in values
    ensures var t := ApplyDelta(cfg, Set(section, kind, values));
            section in t && TYPE in t[section] <==> section !in cfg || kind != "" || TYPE in cfg[section]
    ensures section !in cfg ==> ApplyDelta(cfg, Set(section, "", values)) == ApplyDelta(cfg, Add(section, "unknown", values))
    ensures section !in cfg && kind != "" ==> ApplyDelta(cfg, Set(section, kind, values)) == ApplyDelta(cfg, Add(section, kind, values))
    ensures ApplyDelta(cfg, Add(section, kind, values))[section][TYPE] == Text(kind)
  {
    assert map[TYPE := Text(kind)][TYPE := Text(kind)] == map[TYPE := Text(kind)];
  }

  /** A session that ends takes its delta with it; after a restart there are no sessions and no timer, but the deltas stay. */
  lemma EndingsDo(s: State, sid: Sid)
    ensures Destroy(s, sid).sessions == set other | other in s.sessions && other != sid
    ensures forall other, c :: Pile(Destroy(s, sid), other, c) == if other == sid then [] else Pile(s, other, c)
    ensures Destroy(s, sid).committed == s.committed && Destroy(s, sid).rollback == s.rollback
    ensures Restart(s).rollback.None? && Restart(s).sessions == {} && Restart(s).committed == s.committed && Restart(s).staged == s.staged
  {}

  /** Committing a session's delta makes committed exactly what that session was reading. */
  lemma CommitYieldsWhatWasRead(s: State, sid: Sid, c: string)
    ensures Effective(Commit(s, sid, c), sid, c) == Effective(s, sid, c)
    ensures forall other: Sid {:trigger Effective(Commit(s, sid, c), other, c)} ::
              Pile(s, other, c) == [] && other != sid ==> Effective(Commit(s, sid, c), other, c) == Effective(s, sid, c)
    ensures forall other: Sid, e: string {:trigger Effective(Commit(s, sid, c), other, e)} ::
              e != c ==> Effective(Commit(s, sid, c), other, e) == Effective(s, other, e)
  {
    var t := Commit(s, sid, c);
    assert Pile(t, sid, c) == [];
    if Pile(s, sid, c) == [] {
      assert CommitSome(s.committed, Mine(s, sid), {c}) == s.committed;
    }
    forall other: Sid, e: string | e != c
      ensures Effective(t, other, e) == Effective(s, other, e)
    {
      assert Pile(t, other, e) == Pile(s, other, e);
    }
  }

  /** After `apply` everyone without a delta of their own reads what the applier was reading. */
  lemma ApplyYieldsWhatWasRead(s: State, sid: Sid, arm: bool, timeout: nat, c: string)
    requires !ApplyRefused(s, sid)
    ensures var t := Apply(s, sid, arm, timeout);
            Effective(t, sid, c) == Effective(s, sid, c)
            && forall other: Sid {:trigger Effective(t, other, c)} ::
                 other != sid && Pile(s, other, c) == [] ==> Effective(t, other, c) == Effective(s, sid, c)
  {
    var t := Apply(s, sid, arm, timeout);
    assert Pile(t, sid, c) == [];
    forall other: Sid | other != sid && Pile(s, other, c) == []
      ensures Effective(t, other, c) == Effective(s, sid, c)
    {
      assert Pile(t, other, c) == [];
    }
  }

  /**
   The timer firing: the session that applied goes on reading the value it failed to
   set, while a session with no delta reads the configuration from before the apply.
   */
  lemma FiringSplitsTheReaders(s: State, sid: Sid, timeout: nat, late: State, c: string)
    requires !ApplyRefused(s, sid)
    requires var t := Apply(s, sid, true, timeout);
             late.rollback == t.rollback && late.committed == t.committed && Expired(late)
    ensures var fired := Watchdog(late);
            && Effective(fired, sid, c) == Effective(Apply(s, sid, true, timeout), sid, c)
            && fired.committed == s.committed
            && forall other: Sid {:trigger Effective(fired, other, c)} ::
                 other != sid && Pile(late, other, c) == [] ==>
                   Effective(fired, other, c) == (if c in s.committed then Some(s.committed[c]) else None)
  {
    ApplyYieldsWhatWasRead(s, sid, true, timeout, c);
    var fired := Watchdog(late);
    assert Mine(fired, sid) == Mine(s, sid);
    assert Effective(fired, sid, c) == Effective(s, sid, c);
    forall other: Sid | other != sid && Pile(late, other, c) == []
      ensures Effective(fired, other, c) == (if c in s.committed then Some(s.committed[c]) else None)
    {
      assert Pile(fired, other, c) == [];
    }
  }

  /** A token handed out while nothing is armed reads committed state and nothing else. */
  lemma FreshTokenReadsCommitted(s: State, c: string)
    requires s.Valid() && s.rollback.None?
    ensures var t := Login(s);
            && LoginToken(s) !in s.sessions
            && Effective(t, LoginToken(s), c) == (if c in s.committed then Some(s.committed[c]) else None)
  {
    assert Pile(Login(s), LoginToken(s), c) == [];
  }

  // ---- runs -----------------------------------------------------------

  datatype Action =
    | DoStage(sid: Sid, config: string, delta: Delta)
    | DoRevert(sid: Sid, config: string)
    | DoCommit(sid: Sid, config: string)
    | DoApply(sid: Sid, arm: bool, timeout: nat)
    | DoConfirm(sid: Sid)
    | DoRollback
    | DoWatchdog
    | DoAdvance(millis: nat)
    | DoLogin
    | DoDestroy(sid: Sid)
    | DoRestart

  function Next(s: State, a: Action): State {
    match a
    case DoStage(sid, c, d) => if sid < s.nextSid then Stage(s, sid, c, d) else s
    case DoRevert(sid, c) => Revert(s, sid, c)
    case DoCommit(sid, c) => Commit(s, sid, c)
    case DoApply(sid, arm, timeout) => if sid < s.nextSid then Apply(s, sid, arm, timeout) else s
    case DoConfirm(sid) => Confirm(s, sid)
    case DoRollback => ForceRollback(s)
    case DoWatchdog => Watchdog(s)
    case DoAdvance(millis) => s.(now := s.now + millis)
    case DoLogin => Login(s)
    case DoDestroy(sid) => Destroy(s, sid)
    case DoRestart => Restart(s)
  }

  function Run(s: State, actions: seq<Action>): State
    decreases actions
  {
    if actions == [] then s else Run(Next(s, actions[0]), actions[1..])
  }

  lemma NextIsValid(s: State, a: Action)
    requires s.Valid()
    ensures Next(s, a).Valid()
  {}

  /** Nothing but the applying session, the watchdog and the sessions' own staging acts. */
  predicate Undisturbed(a: Action) {
    !a.DoCommit? && !a.DoApply? && !a.DoRollback? && !a.DoRestart?
  }

  /** The owner confirms before the watchdog first finds the rollback expired. */
  predicate ConfirmedInTime(s: State, actions: seq<Action>)
    decreases actions
  {
    actions != [] && s.rollback.Some? &&
    if actions[0] == DoConfirm(s.rollback.value.owner) then true
    else if actions[0] == DoWatchdog && Expired(s) then false
    else ConfirmedInTime(Next(s, actions[0]), actions[1..])
  }

  /**
   Permanence. Once the watchdog has run past the deadline, the armed change is what is
   committed if and only if the session that applied it confirmed in time; otherwise the
   snapshot is back. This holds over every undisturbed run, whoever else logs in, stages,
   reverts or tries to confirm.
   */
  lemma {:induction false} ChangeIsPermanentOnlyIfConfirmed(s: State, actions: seq<Action>)
    requires s.rollback.Some? && s.rollback.value.deadline != 0
    requires forall i :: 0 <= i < |actions| ==> Undisturbed(actions[i])
    requires Run(s, actions).now > s.rollback.value.deadline
    ensures var t := Watchdog(Run(s, actions));
            && t.rollback.None?
            && t.committed == if ConfirmedInTime(s, actions) then s.committed else s.rollback.value.snapshot
    decreases actions
  {
    if actions != [] {
      var s', rest := Next(s, actions[0]), actions[1..];
      if s'.rollback.None? {
        DisarmedStaysPut(s', rest);
      } else {
        ChangeIsPermanentOnlyIfConfirmed(s', rest);
      }
    }
  }

  lemma {:induction false} DisarmedStaysPut(s: State, actions: seq<Action>)
    requires s.rollback.None?
    requires forall i :: 0 <= i < |actions| ==> Undisturbed(actions[i])
    ensures Run(s, actions).rollback.None? && Run(s, actions).committed == s.committed
    decreases actions
  {
    if actions != [] {
      DisarmedStaysPut(Next(s, actions[0]), actions[1..]);
    }
  }

  /**
   The simulator's comment says the watchdog restores after `uci.rollback`. It does not:
   the zeroed deadline reads as "no deadline", so the change stays for ever, however long
   the run, unless a session applies or commits again.
   */
  lemma ForcedRollbackNeverRestores(s: State, actions: seq<Action>)
    requires s.rollback.Some?
    requires forall i :: 0 <= i < |actions| ==> Undisturbed(actions[i]) || actions[i].DoRestart?
    ensures Run(ForceRollback(s), actions).committed == s.committed
  {
    ZeroedNeverRestores(ForceRollback(s), actions);
  }

  lemma {:induction false} ZeroedNeverRestores(s: State, actions: seq<Action>)
    requires s.rollback.Some?
    requires forall i :: 0 <= i < |actions| ==> Undisturbed(actions[i]) || actions[i].DoRestart?
    requires s.rollback.value.deadline == 0
    ensures Run(s, actions).committed == s.committed
    decreases actions
  {
    if actions != [] {
      var s' := Next(s, actions[0]);
      var rest := actions[1..];
      assert forall i :: 0 <= i < |rest| ==> rest[i] == actions[i + 1];
      if s'.rollback.None? {
        DisarmedThroughRestarts(s', rest);
      } else {
        ZeroedNeverRestores(s', rest);
      }
    }
  }

  lemma {:induction false} DisarmedThroughRestarts(s: State, actions: seq<Action>)
    requires s.rollback.None?
    requires forall i :: 0 <= i < |actions| ==> Undisturbed(actions[i]) || actions[i].DoRestart?
    ensures Run(s, actions).rollback.None? && Run(s, actions).committed == s.committed
    decreases actions
  {
    if actions != [] {
      DisarmedThroughRestarts(Next(s, actions[0]), actions[1..]);
    }
  }

  // ---- the device as an object ----------------------------------------

  class Device {
    var committed: Store
    var staged: map<Sid, Deltas>
    var rollback: Option<Pending>
    var sessions: set<Sid>
    var nextSid: Sid
    var now: nat

    constructor (initial: Store, clock: nat)
      requires clock > 0
      ensures Now() == State(initial, map[], None, {}, 0, clock) && Now().Valid()
    {
      committed, staged, rollback, sessions, nextSid, now := initial, map[], None, {}, 0, clock;
    }

    ghost function Now(): State
      reads this
    {
      State(committed, staged, rollback, sessions, nextSid, now)
    }

    function Own(sid: Sid): Deltas
      reads this
    {
      if sid in staged then staged[sid] else map[]
    }

    method StageOp(sid: Sid, config: string, d: Delta)
      modifies this
      ensures Now() == Stage(old(Now()), sid, config, d)
    {
      var mine := Own(sid);
      var pile := if config in mine then mine[config] else [];
      staged := staged[sid := mine[config := pile + [d]]];
    }

    method EffectiveConfig(sid: Sid, config: string) returns (r: Option<Config>)
      ensures r == Effective(Now(), sid, config)
    {
      r := if config in committed then Some(committed[config]) else None;
      var mine := Own(sid);
      var pile := if config in mine then mine[config] else [];
      for i := 0 to |pile|
        invariant i == 0 ==> r == if config in committed then Some(committed[config]) else None
        invariant i > 0 ==> r == Some(Overlay(ConfigOr(committed, config), pile[..i]))
      {
        assert pile[..i + 1][..i] == pile[..i];
        var cfg := if r.None? then map[] else r.value;
        r := Some(ApplyDelta(cfg, pile[i]));
      }
      assert pile[..|pile|] == pile;
    }

    method RevertConfig(sid: Sid, config: string)
      modifies this`staged
      ensures Now() == Revert(old(Now()), sid, config)
    {
      if sid in staged {
        staged := staged[sid := staged[sid] - {config}];
      }
    }

    method CommitConfig(sid: Sid, config: string)
      modifies this`staged, this`committed
      ensures Now() == Commit(old(Now()), sid, config)
    {
      ghost var before := committed;
      var mine := Own(sid);
      var pile := if config in mine then mine[config] else [];
      RevertConfig(sid, config);
      ghost var reverted := staged;
      for i := 0 to |pile|
        invariant staged == reverted
        invariant i == 0 ==> committed == before
        invariant i > 0 ==> committed == before[config := Overlay(ConfigOr(before, config), pile[..i])]
      {
        assert pile[..i + 1][..i] == pile[..i];
        committed := committed[config := ApplyDelta(ConfigOr(committed, config), pile[i])];
      }
      assert pile[..|pile|] == pile;
      CommitOne(before, mine, config);
    }

    /** The commit loop of `apply`: one config after another, in whatever order. */
    method CommitEvery(sid: Sid)
      modifies this`staged, this`committed
      ensures committed == CommitAll(old(committed), Mine(old(Now()), sid))
      ensures staged == if sid in old(staged) then old(staged)[sid := map[]] else old(staged)
    {
      ghost var before := Now();
      ghost var mine := Mine(before, sid);
      var todo := Own(sid).Keys;
      while todo != {}
        invariant todo <= mine.Keys
        invariant committed == CommitSome(before.committed, mine, mine.Keys - todo)
        invariant sid in before.staged ==> staged == before.staged[sid := Own(sid)]
        invariant sid !in before.staged ==> staged == before.staged
        invariant Own(sid) == mine - (mine.Keys - todo)
      {
        var c :| c in todo;
        CommitOneMore(before.committed, mine, mine.Keys - todo, Own(sid), c);
        CommitConfig(sid, c);
        assert mine.Keys - todo + {c} == mine.Keys - (todo - {c});
        todo := todo - {c};
      }
      assert mine.Keys - todo == mine.Keys;
      assert Own(sid) == map[];
    }

    method ApplyAll(sid: Sid, arm: bool, timeout: nat) returns (status: Status)
      modifies this`rollback, this`staged, this`committed
      ensures Now() == Apply(old(Now()), sid, arm, timeout)
      ensures status == if old(rollback.Some? && rollback.value.owner != sid && now < rollback.value.deadline) then PermissionDenied else Success
    {
      if rollback.Some? && rollback.value.owner != sid && rollback.value.deadline > now {
        return PermissionDenied;
      }
      if arm {
        rollback := Some(Pending(committed, Own(sid), sid, now + timeout));
      }
      CommitEvery(sid);
      status := Success;
    }

    method ConfirmApply(sid: Sid) returns (status: Status)
      modifies this`rollback
      ensures Now() == Confirm(old(Now()), sid) && status == ConfirmStatus(old(Now()), sid)
    {
      if rollback.None? {
        return NoData;
      }
      if rollback.value.owner != sid {
        return PermissionDenied;
      }
      rollback := None;
      status := Success;
    }

    method WatchdogPass()
      modifies this
      ensures Now() == Watchdog(old(Now()))
    {
      if rollback.Some? && rollback.value.deadline != 0 && now > rollback.value.deadline {
        var p := rollback.value;
        committed := p.snapshot;
        staged := staged[p.owner := p.deltas];
        rollback := None;
      }
    }

    method NewLogin() returns (token: Sid)
      modifies this`sessions, this`nextSid
      ensures Now() == Login(old(Now())) && token == LoginToken(old(Now()))
    {
      if rollback.Some? && rollback.value.owner in sessions && rollback.value.owner != nextSid {
        return rollback.value.owner;
      }
      token := nextSid;
      sessions := sessions + {token};
      nextSid := nextSid + 1;
    }

    /** Any one action of the transition system, on the object. */
    method Perform(a: Action)
      modifies this
      ensures Now() == Next(old(Now()), a)
    {
      match a
      case DoStage(sid, c, d) => if sid < nextSid { StageOp(sid, c, d); }
      case DoRevert(sid, c) => RevertConfig(sid, c);
      case DoCommit(sid, c) => CommitConfig(sid, c);
      case DoApply(sid, arm, timeout) => if sid < nextSid { var _ := ApplyAll(sid, arm, timeout); }
      case DoConfirm(sid) => var _ := ConfirmApply(sid);
      case DoRollback =>
        if rollback.Some? && rollback.value.deadline != 0 {
          rollback := Some(rollback.value.(deadline := 0));
        }
      case DoWatchdog => WatchdogPass();
      case DoAdvance(millis) => now := now + millis;
      case DoLogin => var _ := NewLogin();
      case DoDestroy(sid) =>
        sessions, staged := sessions - {sid}, staged - {sid};
      case DoRestart =>
        rollback, sessions := None, {};
    }
  }
}
