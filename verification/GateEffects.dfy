/**
 What the operation gate admits, said of the leases that are held: who may begin, trade or
 take the restore's lease, who is named as standing in the way, and when a waiter is woken.
 */
module GateEffects {
  import opened Options
  import opened Admission

  /** Speed tests, diagnostics, backups and the preparation of a restore leave the routers alone; everything else writes to them. */
  predicate LeavesRoutersAlone(kind: nat) {
    4 <= kind <= 7
  }

  predicate ExclusivelyHeld(leases: map<nat, Lease>) {
    exists id :: id in leases && leases[id] == Exclusive
  }

  lemma ExclusiveIsHeld(w: World)
    requires Counted(w)
    ensures w.g.exclusive <==> ExclusivelyHeld(w.leases)
  {
    if w.g.exclusive {
      var id :| id in HeldOf(w.leases, Exclusive);
    } else {
      assert HeldOf(w.leases, Exclusive) == {};
      assert forall id :: id in w.leases && w.leases[id] == Exclusive ==> id in HeldOf(w.leases, Exclusive);
    }
  }

  /** An operation begins exactly if the gate is open, no restore holds it, and while writes are suppressed it writes to no router. */
  lemma BeginsExactly(w: World, kind: nat)
    requires Counted(w)
    ensures BeginVerdict(w.g, kind).None? <==>
            kind < 10 && !w.g.closed && !ExclusivelyHeld(w.leases) && (w.g.suppressed ==> LeavesRoutersAlone(kind))
    ensures BeginVerdict(w.g, kind) == Some(KindInvalid) <==> kind >= 10
    ensures BeginVerdict(w.g, kind) == Some(Closed) <==> kind < 10 && w.g.closed
    ensures BeginVerdict(w.g, kind) == Some(ExclusiveHeld) <==> kind < 10 && !w.g.closed && ExclusivelyHeld(w.leases)
    ensures BeginVerdict(w.g, kind) == Some(Suppressed) <==>
            kind < 10 && !w.g.closed && !ExclusivelyHeld(w.leases) && w.g.suppressed && !LeavesRoutersAlone(kind)
  {
    ExclusiveIsHeld(w);
  }

  /** The restore's lease is alone. */
  lemma ExclusiveIsAlone(w: World, id: nat)
    requires Counted(w) && id in w.leases && w.leases[id] == Exclusive
    ensures w.leases.Keys == {id}
  {
    ExclusiveIsHeld(w);
    assert id in HeldOf(w.leases, Exclusive) && |HeldOf(w.leases, Exclusive)| == 1;
    forall other | other in w.leases
      ensures other == id
    {
      OnlyExclusivesBesides(w, other);
      SingletonOnly(HeldOf(w.leases, Exclusive), id, other);
    }
  }

  lemma OnlyExclusivesBesides(w: World, id: nat)
    requires Counted(w) && w.g.exclusive && id in w.leases
    ensures id in HeldOf(w.leases, Exclusive)
  {
    HeldIsCounted(w.leases, id);
  }

  lemma SingletonOnly<T>(s: set<T>, x: T, y: T)
    requires |s| == 1 && x in s && y in s
    ensures x == y
  {
    var rest := s - {x};
    assert |rest| == 0;
    assert x == y || y in rest;
  }

  lemma NothingHeldAtRest(w: World)
    requires Counted(w)
    ensures w.leases == map[] <==> !w.g.exclusive && Idle(w.g.active)
  {
    if w.leases == map[] {
      assert HeldOf(w.leases, Exclusive) == {};
      forall k | 0 <= k < KINDS
        ensures w.g.active[k] == 0
      {
        assert HeldOf(w.leases, Ordinary(k)) == {};
      }
    } else if !w.g.exclusive && Idle(w.g.active) {
      NothingHeld(w);
    }
  }

  /** The restore's lease is granted at once exactly if the gate is open and nothing at all is held. */
  lemma ExcludesExactly(w: World)
    requires Counted(w)
    ensures ExclusiveVerdict(w.g).None? <==> !w.g.closed && w.leases == map[]
    ensures ExclusiveVerdict(w.g) == Some(Closed) <==> w.g.closed
    ensures ExclusiveVerdict(w.g) == Some(ExclusiveHeld) <==> !w.g.closed && ExclusivelyHeld(w.leases)
    ensures ExclusiveVerdict(w.g) == Some(Busy) <==> !w.g.closed && !ExclusivelyHeld(w.leases) && w.leases != map[]
  {
    NothingHeldAtRest(w);
    ExclusiveIsHeld(w);
  }

  lemma KeptByTheOthers(w: World, id: nat)
    requires Counted(w) && id in w.leases && w.leases[id].Ordinary? && !w.g.exclusive
    ensures var k := w.leases[id].kind;
            && k < KINDS && w.g.active[k] > 0
            && (Idle(w.g.active[k := Down(w.g.active[k])]) <==> w.leases.Keys == {id})
  {
    var k := w.leases[id].kind;
    HeldShrinks(w.leases, id);
    HeldIsCounted(w.leases, id);
    var v := w.(g := w.g.(active := w.g.active[k := Down(w.g.active[k])]), leases := w.leases - {id});
    assert Counted(v);
    NothingHeldAtRest(v);
    assert (w.leases - {id}).Keys == w.leases.Keys - {id};
    assert v.leases == map[] <==> v.leases.Keys == {};
  }

  /** An ordinary lease is traded for the restore's exactly if it is the only one, the gate open, and writes not suppressed. */
  lemma TradesExactly(w: World, id: nat)
    requires Counted(w) && id in w.leases && w.leases[id].Ordinary?
    ensures var refusal := UpgradeVerdict(w.g, w.leases[id].kind);
            && (refusal.None? <==> !w.g.closed && !w.g.suppressed && w.leases.Keys == {id})
            && (refusal == Some(Closed) <==> w.g.closed)
            && (refusal == Some(Suppressed) <==> !w.g.closed && w.g.suppressed)
            && (refusal == Some(Busy) <==> !w.g.closed && !w.g.suppressed && w.leases.Keys != {id})
  {
    if w.g.exclusive {
      OnlyExclusivesBesides(w, id);
    }
    KeptByTheOthers(w, id);
  }

  /** What a refused trade names: every kind of which somebody else holds a lease, in order. */
  lemma ConflictsAreTheOthers(w: World, id: nat, conflicts: seq<nat>)
    requires Counted(w) && id in w.leases && w.leases[id].Ordinary? && w.leases[id].kind < KINDS
    requires var k := w.leases[id].kind;
             UpgradeVerdict(w.g, k) == Some(Busy) && Named(Some(Busy), w.g.active[k := Down(w.g.active[k])], conflicts)
    ensures forall k: nat :: k in conflicts <==> exists other :: other in w.leases && other != id && w.leases[other] == Ordinary(k)
    ensures forall i, j :: 0 <= i < j < |conflicts| ==> conflicts[i] < conflicts[j]
  {
    var mine := w.leases[id].kind;
    var active := w.g.active[mine := Down(w.g.active[mine])];
    ConflictsAreTheBusy(active);
    HeldShrinks(w.leases, id);
    HeldIsCounted(w.leases, id);
    forall k: nat
      ensures k in conflicts <==> exists other :: other in w.leases && other != id && w.leases[other] == Ordinary(k)
    {
      var others := HeldOf(w.leases - {id}, Ordinary(k));
      if k < KINDS {
        assert active[k] == |others|;
      }
      if others != {} {
        var other :| other in others;
      }
      if other :| other in w.leases && other != id && w.leases[other] == Ordinary(k) {
        assert other in others;
      }
    }
  }

  /** Nobody waiting is woken before the gate has come to rest. */
  lemma WokenOnlyAtRest(w: World, x: Step, id: nat)
    requires Sound(w) && Allowed(w, x) && id in w.waiters && !Woken(w, id) && id in Next(w, x).waiters && Woken(Next(w, x), id)
    ensures Next(w, x).leases == map[]
  {
    NextIsCounted(w, x);
    NothingHeldAtRest(Next(w, x));
  }

  /** What a step does to the leases: it gives, takes or trades the ones it names. */
  lemma StepsOnLeases(w: World, x: Step)
    requires Counted(w) && Allowed(w, x)
    ensures var v := Next(w, x).leases;
            match x
            case Beginning(id, kind) => v == w.leases[id := Ordinary(kind)]
            case Releasing(id) => v == w.leases - {id}
            case Upgrading(id, ex) => v == (w.leases - {id})[ex := Exclusive]
            case Excluding(id) => v == w.leases[id := Exclusive]
            case _ => v == w.leases
    ensures Next(w, x).g.closed == (w.g.closed || x.Closing?)
    ensures Next(w, x).g.suppressed == if x.Suppressing? then x.on else w.g.suppressed
  {}
}
