/**
 The operation gate of internal/api/admission.go: ordinary leases of ten kinds, one
 restore-exclusive lease, and the close-and-drain protocol around them.
 */
module Admission {
  import opened Options

  const KINDS := 10
  const RESTORE_PREPARE := 7
  /** Stands for the restore itself among the conflicts. */
  const RESTORE := KINDS
  const WIDTH := 0x1_0000_0000_0000_0000

  datatype Refusal = Closed | ExclusiveHeld | Busy | Suppressed | KindInvalid

  /** One gate; a wait channel is a number, given out afresh. */
  datatype Gate = Gate(
    closed: bool, exclusive: bool, suppressed: bool, active: seq<int>, idle: Option<nat>, channels: nat)

  const OPEN := Gate(false, false, false, seq(KINDS, k => 0), None, 0)

  /** uint64 arithmetic. */
  function Up(n: int): int { (n + 1) % WIDTH }

  function Down(n: int): int { (n + WIDTH - 1) % WIDTH }

  predicate WritesRouter(kind: nat) {
    kind == 0 || kind == 1 || kind == 2 || kind == 3 || kind == 8 || kind == 9
  }

  predicate Idle(active: seq<int>) {
    forall k :: 0 <= k < |active| ==> active[k] == 0
  }

  predicate Resting(g: Gate) {
    !g.exclusive && Idle(g.active)
  }

  /** The kinds in use, in order. */
  function Conflicts(active: seq<int>): seq<nat> {
    if active == [] then [] else
    var n := |active| - 1;
    Conflicts(active[..n]) + if active[n] != 0 then [n] else []
  }

  lemma {:induction false} ConflictsAreTheBusy(active: seq<int>)
    ensures forall k :: k in Conflicts(active) <==> 0 <= k < |active| && active[k] != 0
    ensures forall i, j :: 0 <= i < j < |Conflicts(active)| ==> Conflicts(active)[i] < Conflicts(active)[j]
  {
    if active != [] {
      var n := |active| - 1;
      var before := Conflicts(active[..n]);
      ConflictsAreTheBusy(active[..n]);
      forall i | 0 <= i < |before|
        ensures before[i] < n
      {
        assert before[i] in before;
      }
    }
  }

  /** What a refusal names: the restore, or the kinds in use besides the caller's own lease. */
  predicate Named(refusal: Option<Refusal>, others: seq<int>, conflicts: seq<nat>) {
    conflicts == if refusal == Some(ExclusiveHeld) then [RESTORE] else if refusal == Some(Busy) then Conflicts(others) else []
  }

  lemma NoConflictsAtRest(active: seq<int>)
    ensures Conflicts(active) == [] <==> Idle(active)
  {}

  /** `signalIdleLocked`. */
  function Signal(g: Gate): Gate {
    if Resting(g) then g.(idle := None) else g
  }

  function BeginVerdict(g: Gate, kind: nat): Option<Refusal> {
    if kind >= KINDS then Some(KindInvalid)
    else if g.closed then Some(Closed)
    else if g.exclusive then Some(ExclusiveHeld)
    else if g.suppressed && WritesRouter(kind) then Some(Suppressed)
    else None
  }

  function Begun(g: Gate, kind: nat): Gate
    requires kind < |g.active|
  {
    g.(active := g.active[kind := Up(g.active[kind])])
  }

  function Released(g: Gate, kind: nat): Gate
    requires kind < |g.active|
  {
    Signal(g.(active := g.active[kind := Down(g.active[kind])]))
  }

  function ExclusiveReleased(g: Gate): Gate {
    Signal(g.(exclusive := false))
  }

  function UpgradeVerdict(g: Gate, kind: nat): Option<Refusal>
    requires |g.active| == KINDS
  {
    if kind >= KINDS then Some(KindInvalid)
    else if g.closed then Some(Closed)
    else if g.exclusive then Some(ExclusiveHeld)
    else if g.suppressed then Some(Suppressed)
    else if g.active[kind] == 0 then Some(KindInvalid)
    else if !Idle(g.active[kind := Down(g.active[kind])]) then Some(Busy)
    else None
  }

  function Upgraded(g: Gate, kind: nat): Gate
    requires kind < |g.active|
  {
    g.(active := g.active[kind := Down(g.active[kind])], exclusive := true)
  }

  function ExclusiveVerdict(g: Gate): Option<Refusal> {
    if g.closed then Some(Closed)
    else if g.exclusive then Some(ExclusiveHeld)
    else if !Idle(g.active) then Some(Busy)
    else None
  }

  /** `wait` joins the channel of those already waiting. */
  function Joined(g: Gate): Gate {
    if g.idle.Some? then g else g.(idle := Some(g.channels), channels := g.channels + 1)
  }

  // ---- the gate in place ---------------------------------------------------------

  class OperationGate {
    var closed: bool
    var exclusive: bool
    var suppressed: bool
    var active: array<int>
    var idle: Option<nat>
    var channels: nat

    /** Ten counters of 64 bits. */
    ghost predicate Valid()
      reads this, active
    {
      active.Length == KINDS && forall k :: 0 <= k < KINDS ==> 0 <= active[k] < WIDTH
    }

    function Seen(): Gate
      reads this, active
    {
      Gate(closed, exclusive, suppressed, active[..], idle, channels)
    }

    constructor ()
      ensures Valid() && fresh(active) && Seen() == OPEN
    {
      closed, exclusive, suppressed, idle, channels := false, false, false, None, 0;
      active := new int[KINDS](k => 0);
      new;
      assert active[..] == OPEN.active;
    }

    method HasActive() returns (busy: bool)
      ensures busy == !Idle(active[..])
    {
      for i := 0 to active.Length
        invariant forall k :: 0 <= k < i ==> active[k] == 0
      {
        if active[i] != 0 {
          assert active[..][i] != 0;
          return true;
        }
      }
      return false;
    }

    method SignalIdle()
      requires Valid()
      modifies this`idle
      ensures Valid() && active == old(active) && Seen() == Signal(old(Seen()))
    {
      var busy := HasActive();
      if !exclusive && !busy && idle.Some? {
        idle := None;
      }
    }

    method ListConflicts() returns (conflicts: seq<nat>)
      requires Valid()
      ensures conflicts == Conflicts(active[..])
    {
      conflicts := [];
      for i := 0 to active.Length
        invariant conflicts == Conflicts(active[..i])
      {
        assert active[..i + 1][..i] == active[..i];
        if active[i] != 0 {
          conflicts := conflicts + [i];
        }
      }
      assert active[..active.Length] == active[..];
    }

    method Begin(kind: nat) returns (refusal: Option<Refusal>)
      requires Valid()
      modifies this, active
      ensures Valid() && active == old(active) && refusal == BeginVerdict(old(Seen()), kind)
      ensures Seen() == if refusal.None? then Begun(old(Seen()), kind) else old(Seen())
    {
      if kind >= KINDS {
        return Some(KindInvalid);
      }
      if closed {
        return Some(Closed);
      }
      if exclusive {
        return Some(ExclusiveHeld);
      }
      if suppressed && WritesRouter(kind) {
        return Some(Suppressed);
      }
      active[kind] := Up(active[kind]);
      return None;
    }

    method Release(kind: nat)
      requires Valid() && kind < KINDS
      modifies this, active
      ensures Valid() && active == old(active) && Seen() == Released(old(Seen()), kind)
    {
      active[kind] := Down(active[kind]);
      SignalIdle();
    }

    method Upgrade(kind: nat) returns (refusal: Option<Refusal>, conflicts: seq<nat>)
      requires Valid()
      modifies this, active
      ensures Valid() && active == old(active) && refusal == UpgradeVerdict(old(Seen()), kind)
      ensures Seen() == if refusal.None? then Upgraded(old(Seen()), kind) else old(Seen())
      ensures Named(refusal, if kind < KINDS then old(Seen()).active[kind := Down(old(Seen()).active[kind])] else [], conflicts)
    {
      conflicts := [];
      if kind >= KINDS {
        return Some(KindInvalid), [];
      }
      if closed {
        return Some(Closed), [];
      }
      if exclusive {
        return Some(ExclusiveHeld), [RESTORE];
      }
      if suppressed {
        return Some(Suppressed), [];
      }
      if active[kind] == 0 {
        return Some(KindInvalid), [];
      }
      active[kind] := Down(active[kind]);
      conflicts := ListConflicts();
      NoConflictsAtRest(active[..]);
      if conflicts == [] {
        exclusive := true;
        return None, [];
      }
      PutBack(kind, old(active[..]));
      return Some(Busy), conflicts;
    }

    /** Undoes the trial decrement. */
    method PutBack(kind: nat, ghost before: seq<int>)
      requires Valid() && kind < KINDS && |before| == KINDS && 0 <= before[kind] < WIDTH
      requires active[..] == before[kind := Down(before[kind])]
      modifies active
      ensures Valid() && active[..] == before
    {
      assert active[kind] == active[..][kind];
      active[kind] := Up(active[kind]);
    }

    method BeginExclusive() returns (refusal: Option<Refusal>, conflicts: seq<nat>)
      requires Valid()
      modifies this
      ensures Valid() && active == old(active) && refusal == ExclusiveVerdict(old(Seen()))
      ensures Seen() == if refusal.None? then old(Seen()).(exclusive := true) else old(Seen())
      ensures Named(refusal, old(Seen()).active, conflicts)
    {
      if closed {
        return Some(Closed), [];
      }
      if exclusive {
        return Some(ExclusiveHeld), [RESTORE];
      }
      conflicts := ListConflicts();
      NoConflictsAtRest(active[..]);
      if conflicts != [] {
        return Some(Busy), conflicts;
      }
      exclusive := true;
      return None, [];
    }

    method ReleaseExclusive()
      requires Valid()
      modifies this
      ensures Valid() && active == old(active) && Seen() == ExclusiveReleased(old(Seen()))
    {
      exclusive := false;
      SignalIdle();
    }

    /** What stands in the way of a restore, for display. */
    method ListHolders() returns (conflicts: seq<nat>)
      requires Valid()
      ensures conflicts == if exclusive then [RESTORE] else Conflicts(active[..])
    {
      if exclusive {
        return [RESTORE];
      }
      conflicts := ListConflicts();
    }

    method Close()
      requires Valid()
      modifies this`closed
      ensures Valid() && Seen() == old(Seen()).(closed := true)
    {
      closed := true;
    }

    /** The first half of `wait`: done at once, or on a channel. */
    method Enter() returns (done: bool, channel: nat)
      requires Valid()
      modifies this
      ensures Valid() && active == old(active) && done == Resting(old(Seen()))
      ensures Seen() == if done then old(Seen()) else Joined(old(Seen()))
      ensures !done ==> idle == Some(channel)
    {
      var busy := HasActive();
      if !exclusive && !busy {
        return true, 0;
      }
      if idle.None? {
        idle := Some(channels);
        channels := channels + 1;
      }
      return false, idle.value;
    }
  }

  // ---- every interleaving -------------------------------------------------------------

  datatype Lease = Ordinary(kind: nat) | Exclusive

  /** A waiter, and whether the gate was closed when it began to wait. */
  datatype Waiter = Waiter(channel: nat, fenced: bool)

  /** The gate, the leases held, and who waits; each critical section is one step. */
  datatype World = World(g: Gate, leases: map<nat, Lease>, waiters: map<nat, Waiter>)

  datatype Step =
    | Beginning(id: nat, kind: nat)
    | Releasing(id: nat)
    | Upgrading(id: nat, exclusive: nat)
    | Excluding(id: nat)
    | Suppressing(on: bool)
    | Closing
    | Waiting(id: nat)
    | Leaving(id: nat)

  /** A channel that is no longer the gate's own has been closed. */
  predicate Woken(w: World, id: nat) {
    id in w.waiters && w.g.idle != Some(w.waiters[id].channel)
  }

  function HeldOf(leases: map<nat, Lease>, l: Lease): set<nat> {
    set id | id in leases && leases[id] == l
  }

  /** What callers do: fresh leases, a lease given back at most once, and only while it is held. */
  predicate Allowed(w: World, x: Step)
    requires |w.g.active| == KINDS
  {
    match x
    case Beginning(id, kind) => id !in w.leases && BeginVerdict(w.g, kind).None? && |HeldOf(w.leases, Ordinary(kind))| + 1 < WIDTH
    case Releasing(id) => id in w.leases && (w.leases[id].Ordinary? ==> w.leases[id].kind < KINDS)
    case Upgrading(id, exclusive) =>
      id in w.leases && w.leases[id].Ordinary? && exclusive !in w.leases && UpgradeVerdict(w.g, w.leases[id].kind).None?
    case Excluding(id) => id !in w.leases && ExclusiveVerdict(w.g).None?
    case Suppressing(_) => true
    case Closing => true
    case Waiting(id) => id !in w.waiters && !Resting(w.g)
    case Leaving(id) => id in w.waiters
  }

  function Next(w: World, x: Step): World
    requires |w.g.active| == KINDS && Allowed(w, x)
  {
    match x
    case Beginning(id, kind) => w.(g := Begun(w.g, kind), leases := w.leases[id := Ordinary(kind)])
    case Releasing(id) =>
      w.(g := if w.leases[id].Ordinary? then Released(w.g, w.leases[id].kind) else ExclusiveReleased(w.g), leases := w.leases - {id})
    case Upgrading(id, exclusive) =>
      w.(g := Upgraded(w.g, w.leases[id].kind), leases := (w.leases - {id})[exclusive := Exclusive])
    case Excluding(id) => w.(g := w.g.(exclusive := true), leases := w.leases[id := Exclusive])
    case Suppressing(on) => w.(g := w.g.(suppressed := on))
    case Closing => w.(g := w.g.(closed := true))
    case Waiting(id) => w.(g := Joined(w.g), waiters := w.waiters[id := Waiter(Joined(w.g).idle.value, w.g.closed)])
    case Leaving(id) => w.(waiters := w.waiters - {id})
  }

  /** The counters are the leases, and exclusive means alone. */
  predicate Counted(w: World) {
    && |w.g.active| == KINDS
    && var ordinary := && (forall k :: 0 <= k < KINDS ==> w.g.active[k] == |HeldOf(w.leases, Ordinary(k))| < WIDTH)
                       && (forall id :: id in w.leases && w.leases[id].Ordinary? ==> w.leases[id].kind < KINDS);
       var alone := && (w.g.exclusive ==> Idle(w.g.active))
                    && |HeldOf(w.leases, Exclusive)| == (if w.g.exclusive then 1 else 0);
       ordinary && alone
  }

  /** A channel stands only while the gate is busy, so nobody waits on one that will not be closed. */
  predicate Attended(w: World) {
    && (w.g.idle.Some? ==> !Resting(w.g) && w.g.idle.value < w.g.channels)
    && (forall id :: id in w.waiters ==> w.waiters[id].channel < w.g.channels)
    && (forall id :: id in w.waiters && w.waiters[id].fenced ==> w.g.closed && (Woken(w, id) ==> Resting(w.g)))
  }

  predicate Sound(w: World) {
    Counted(w) && Attended(w)
  }

  const START := World(OPEN, map[], map[])

  lemma HeldGrows(leases: map<nat, Lease>, id: nat, l: Lease)
    requires id !in leases
    ensures HeldOf(leases[id := l], l) == HeldOf(leases, l) + {id} && |HeldOf(leases[id := l], l)| == |HeldOf(leases, l)| + 1
    ensures forall o :: o != l ==> HeldOf(leases[id := l], o) == HeldOf(leases, o)
  {}

  lemma HeldShrinks(leases: map<nat, Lease>, id: nat)
    requires id in leases
    ensures var l := leases[id];
            && HeldOf(leases - {id}, l) == HeldOf(leases, l) - {id} && |HeldOf(leases - {id}, l)| == |HeldOf(leases, l)| - 1
            && forall o :: o != l ==> HeldOf(leases - {id}, o) == HeldOf(leases, o)
  {}

  lemma NextIsCounted(w: World, x: Step)
    requires Counted(w) && Allowed(w, x)
    ensures Counted(Next(w, x))
  {
    match x
    case Beginning(id, kind) => {
      BeginIsCounted(w, id, kind);
    }
    case Releasing(id) => {
      ReleaseIsCounted(w, id);
    }
    case Upgrading(id, exclusive) => {
      UpgradeIsCounted(w, id, exclusive);
    }
    case Excluding(id) => {
      HeldGrows(w.leases, id, Exclusive);
    }
    case _ => {
      OthersAreCounted(w, x);
    }
  }

  lemma OthersAreCounted(w: World, x: Step)
    requires Counted(w) && Allowed(w, x) && (x.Suppressing? || x.Closing? || x.Waiting? || x.Leaving?)
    ensures Counted(Next(w, x))
  {}

  lemma BeginIsCounted(w: World, id: nat, kind: nat)
    requires Counted(w) && Allowed(w, Beginning(id, kind))
    ensures Counted(Next(w, Beginning(id, kind)))
  {
    HeldGrows(w.leases, id, Ordinary(kind));
  }

  lemma HeldIsCounted(leases: map<nat, Lease>, id: nat)
    requires id in leases
    ensures |HeldOf(leases, leases[id])| > 0
  {
    assert id in HeldOf(leases, leases[id]);
  }

  lemma ReleaseIsCounted(w: World, id: nat)
    requires Counted(w) && id in w.leases && Allowed(w, Releasing(id))
    ensures Counted(Next(w, Releasing(id)))
  {
    HeldShrinks(w.leases, id);
    var l := w.leases[id];
    HeldIsCounted(w.leases, id);
  }

  lemma UpgradeIsCounted(w: World, id: nat, exclusive: nat)
    requires Counted(w) && Allowed(w, Upgrading(id, exclusive))
    ensures Counted(Next(w, Upgrading(id, exclusive)))
  {
    var l := w.leases[id];
    HeldShrinks(w.leases, id);
    HeldGrows(w.leases - {id}, exclusive, Exclusive);
    HeldIsCounted(w.leases, id);
  }

  lemma NextIsAttended(w: World, x: Step)
    requires Sound(w) && Allowed(w, x)
    ensures Attended(Next(w, x))
  {
    var v := Next(w, x);
    match x
    case Beginning(id, kind) => {
      assert v.g.active[kind] != 0 && !Resting(v.g);
    }
    case Releasing(id) => {
      ReleaseIsAttended(w, id);
    }
    case Upgrading(id, exclusive) => {
      UpgradeIsAttended(w, id, exclusive);
    }
    case Excluding(_) => {}
    case Suppressing(_) => {}
    case Closing => {}
    case Waiting(_) => {}
    case Leaving(_) => {}
  }

  lemma ReleaseIsAttended(w: World, id: nat)
    requires Sound(w) && id in w.leases && Allowed(w, Releasing(id))
    ensures Attended(Next(w, Releasing(id)))
  {
    HeldIsCounted(w.leases, id);
    assert !Resting(w.g);
  }

  lemma UpgradeIsAttended(w: World, id: nat, exclusive: nat)
    requires Sound(w) && Allowed(w, Upgrading(id, exclusive))
    ensures Attended(Next(w, Upgrading(id, exclusive)))
  {}

  /** No wake-up is lost: whenever the gate rests, everyone still waiting has been woken. */
  lemma NobodySleepsThroughRest(w: World)
    requires Sound(w) && Resting(w.g)
    ensures forall id :: id in w.waiters ==> Woken(w, id)
    ensures w.leases == map[]
  {
    NothingHeld(w);
  }

  lemma NothingHeld(w: World)
    requires Counted(w) && Resting(w.g)
    ensures w.leases == map[]
  {
    forall id | id in w.leases
      ensures false
    {
      HeldIsCounted(w.leases, id);
    }
  }

  predicate Runs(w: World, steps: seq<Step>, v: World)
    decreases |steps|
  {
    if steps == [] then w == v
    else |w.g.active| == KINDS && Allowed(w, steps[0]) && Runs(Next(w, steps[0]), steps[1..], v)
  }

  lemma {:induction false} EveryInterleavingIsSound(w: World, steps: seq<Step>, v: World)
    requires Sound(w) && Runs(w, steps, v)
    ensures Sound(v)
    decreases |steps|
  {
    if steps != [] {
      NextIsCounted(w, steps[0]);
      NextIsAttended(w, steps[0]);
      EveryInterleavingIsSound(Next(w, steps[0]), steps[1..], v);
    }
  }

  /** Once closed and at rest, at rest for good. */
  lemma {:induction false} ClosedStaysAtRest(w: World, steps: seq<Step>, v: World)
    requires Sound(w) && Runs(w, steps, v) && w.g.closed && Resting(w.g)
    ensures Sound(v) && v.g.closed && Resting(v.g) && v.leases == map[]
    decreases |steps|
  {
    NothingHeld(w);
    if steps != [] {
      NextIsCounted(w, steps[0]);
      NextIsAttended(w, steps[0]);
      ClosedStaysAtRest(Next(w, steps[0]), steps[1..], v);
    }
  }

  /** After `close`, a wait that comes back true means no lease is held, then or ever after. */
  lemma TrueWaitIsFinal(before: seq<Step>, w: World, id: nat, after: seq<Step>, v: World)
    requires Runs(START, before, w) && Runs(w, after, v)
    requires w.g.closed && (Resting(w.g) || (Woken(w, id) && w.waiters[id].fenced))
    ensures w.leases == map[] && v.leases == map[] && Resting(v.g)
  {
    StartIsSound();
    EveryInterleavingIsSound(START, before, w);
    NothingHeld(w);
    ClosedStaysAtRest(w, after, v);
  }

  lemma StartIsSound()
    ensures Sound(START)
  {}

  /** A release runs a counter below zero exactly if no lease of the kind is held. */
  lemma ReleaseUnderflowsExactly(w: World, kind: nat)
    requires Counted(w) && kind < KINDS
    ensures Released(w.g, kind).active[kind] > w.g.active[kind] <==> HeldOf(w.leases, Ordinary(kind)) == {}
  {}

  /** So giving the ordinary lease back once it was upgraded always does: the upgrade left none of any kind. */
  lemma DoubleReleaseUnderflows(w: World, id: nat, exclusive: nat)
    requires Counted(w) && Allowed(w, Upgrading(id, exclusive))
    ensures var v, kind := Next(w, Upgrading(id, exclusive)), w.leases[id].kind;
            HeldOf(v.leases, Ordinary(kind)) == {} && Released(v.g, kind).active[kind] == WIDTH - 1
  {
    UpgradeIsCounted(w, id, exclusive);
    assert Idle(Next(w, Upgrading(id, exclusive)).g.active);
  }

  // ---- one holder among others ------------------------------------------------------------

  /** The step gives, takes or trades the lease. */
  predicate Names(x: Step, id: nat) {
    match x
    case Beginning(i, _) => i == id
    case Releasing(i) => i == id
    case Upgrading(i, e) => i == id || e == id
    case Excluding(i) => i == id
    case _ => false
  }

  predicate Silent(steps: seq<Step>, id: nat) {
    forall k :: 0 <= k < |steps| ==> !Names(steps[k], id)
  }

  /** Whatever others do, a lease is held until its holder names it, and is not held before. */
  lemma {:induction false} LeaseStays(w: World, steps: seq<Step>, v: World, id: nat)
    requires Sound(w) && Runs(w, steps, v) && Silent(steps, id)
    ensures Sound(v) && (id in v.leases <==> id in w.leases) && (id in w.leases ==> v.leases[id] == w.leases[id])
    ensures w.g.closed ==> v.g.closed
    decreases |steps|
  {
    if steps != [] {
      var u := Next(w, steps[0]);
      NextIsCounted(w, steps[0]);
      NextIsAttended(w, steps[0]);
      assert forall k :: 0 <= k < |steps| - 1 ==> steps[1..][k] == steps[k + 1];
      LeaseStays(u, steps[1..], v, id);
    }
  }

  /** A lease held can be given back at any time, and is gone then. */
  lemma HolderMayGiveBack(w: World, others: seq<Step>, v: World, id: nat)
    requires Sound(w) && id in w.leases && Runs(w, others, v) && Silent(others, id)
    ensures Sound(v) && Allowed(v, Releasing(id)) && v.leases[id] == w.leases[id]
    ensures Sound(Next(v, Releasing(id))) && id !in Next(v, Releasing(id)).leases
  {
    LeaseStays(w, others, v, id);
    NextIsCounted(v, Releasing(id));
    NextIsAttended(v, Releasing(id));
  }

  /** It can be traded for the exclusive one exactly when the gate says so. */
  lemma HolderMayUpgradeExactly(w: World, others: seq<Step>, v: World, id: nat, exclusive: nat)
    requires Sound(w) && id in w.leases && w.leases[id].Ordinary? && Runs(w, others, v) && Silent(others, id)
    requires exclusive !in v.leases
    ensures |v.g.active| == KINDS && (Allowed(v, Upgrading(id, exclusive)) <==> UpgradeVerdict(v.g, w.leases[id].kind).None?)
    ensures Allowed(v, Upgrading(id, exclusive)) ==>
              var u := Next(v, Upgrading(id, exclusive));
              Sound(u) && (id == exclusive || id !in u.leases) && exclusive in u.leases && u.leases[exclusive] == Exclusive
  {
    LeaseStays(w, others, v, id);
    if Allowed(v, Upgrading(id, exclusive)) {
      NextIsCounted(v, Upgrading(id, exclusive));
      NextIsAttended(v, Upgrading(id, exclusive));
    }
  }

  /** In every run the counters mean what they say. */
  lemma CountersAreTheLeases(steps: seq<Step>, w: World)
    requires Runs(START, steps, w)
    ensures |w.g.active| == KINDS && forall k :: 0 <= k < KINDS ==> w.g.active[k] == |HeldOf(w.leases, Ordinary(k))|
    ensures w.g.exclusive ==> forall k :: 0 <= k < KINDS ==> HeldOf(w.leases, Ordinary(k)) == {}
    ensures w.g.idle.Some? ==> w.leases != map[]
  {
    StartIsSound();
    EveryInterleavingIsSound(START, steps, w);
    if w.leases == map[] {
      forall k | 0 <= k < KINDS
        ensures HeldOf(w.leases, Ordinary(k)) == {}
      {}
      assert HeldOf(w.leases, Exclusive) == {};
    }
  }

  // ---- the site mutex ------------------------------------------------------------------------

  /** A mutex made of one token; `holders` is who has it. */
  class SiteMutex {
    var token: bool
    ghost var holders: nat

    ghost predicate Valid()
      reads this
    {
      holders == if token then 0 else 1
    }

    constructor ()
      ensures Valid() && holders == 0
    {
      token, holders := true, 0;
    }

    method TryLock() returns (ok: bool)
      requires Valid()
      modifies this
      ensures Valid() && ok == (old(holders) == 0) && holders == 1
    {
      ok := token;
      if ok {
        token, holders := false, 1;
      }
    }

    /** The token may arrive together with shutdown; looking again keeps shutdown first. */
    method LockContext(cancelled: bool, stopping: bool, picksToken: bool, stoppingThen: bool) returns (ok: bool)
      requires Valid() && (stopping ==> stoppingThen)
      requires picksToken ==> token
      requires !picksToken ==> cancelled || stopping
      modifies this
      ensures Valid() && ok == (picksToken && !stoppingThen)
      ensures holders == if ok then 1 else old(holders)
      ensures ok ==> old(holders) == 0 && !stopping
    {
      if !picksToken {
        return false;
      }
      token, holders := false, holders + 1;
      if stoppingThen {
        var unlocked := Unlock();
        return false;
      }
      return true;
    }

    /** False is the source's panic: nobody holds it. */
    method Unlock() returns (ok: bool)
      requires Valid()
      modifies this
      ensures Valid() && ok == (old(holders) == 1) && holders == 0
    {
      ok := !token;
      if ok {
        token, holders := true, 0;
      }
    }
  }
}
