/**
 The sign-in throttle of internal/api/auth.go, and how many failures one address can fit
 into any window of time.
 */
module Throttle {
  import opened Options

  /** A zero `until` is no lockout at all. */
  datatype Count = Count(n: nat, first: int, until: Option<int>)

  type Fails = map<string, Count>

  datatype Limits = Limits(max: nat, window: nat, lockout: nat)

  const STANDARD := Limits(10, 300000, 300000)

  predicate Locked(f: Count, now: int) {
    f.until.Some? && now < f.until.value
  }

  predicate Stale(f: Count, now: int, l: Limits) {
    now - f.first > l.window
  }

  predicate Swept(f: Count, now: int, l: Limits) {
    (f.until.None? || now > f.until.value) && Stale(f, now, l)
  }

  predicate Allows(fails: Fails, addr: string, now: int) {
    addr in fails ==> !Locked(fails[addr], now)
  }

  function Asked(fails: Fails, addr: string, now: int, l: Limits): Fails {
    if addr in fails && !Locked(fails[addr], now) && Stale(fails[addr], now, l) then fails - {addr} else fails
  }

  function Failed(fails: Fails, addr: string, now: int, l: Limits): Fails {
    var f := if addr !in fails || Stale(fails[addr], now, l) then Count(0, now, None) else fails[addr];
    var n := f.n + 1;
    fails[addr := Count(n, f.first, if n >= l.max then Some(now + l.lockout) else f.until)]
  }

  function Forgiven(fails: Fails, addr: string): Fails {
    fails - {addr}
  }

  function Cleaned(fails: Fails, now: int, l: Limits): Fails {
    map addr | addr in fails && !Swept(fails[addr], now, l) :: fails[addr]
  }

  class Throttler {
    var fails: Fails
    const l: Limits

    constructor (l: Limits)
      ensures this.l == l && fails == map[]
    {
      this.l, fails := l, map[];
    }

    method Allow(addr: string, now: int) returns (ok: bool, wait: int)
      modifies this
      ensures ok == Allows(old(fails), addr, now) && fails == Asked(old(fails), addr, now, l)
      ensures !ok ==> wait > 0 && Allows(fails, addr, now + wait) && forall t :: now <= t < now + wait ==> !Allows(fails, addr, t)
      ensures ok ==> wait == 0
    {
      if addr !in fails {
        return true, 0;
      }
      var f := fails[addr];
      if f.until.Some? && now < f.until.value {
        return false, f.until.value - now;
      }
      if now - f.first > l.window {
        fails := fails - {addr};
      }
      return true, 0;
    }

    method Fail(addr: string, now: int)
      modifies this
      ensures fails == Failed(old(fails), addr, now, l)
    {
      if addr !in fails || now - fails[addr].first > l.window {
        fails := fails[addr := Count(0, now, None)];
      }
      var f := fails[addr];
      f := f.(n := f.n + 1);
      if f.n >= l.max {
        f := f.(until := Some(now + l.lockout));
      }
      fails := fails[addr := f];
    }

    method Succeed(addr: string)
      modifies this
      ensures fails == Forgiven(old(fails), addr)
    {
      fails := fails - {addr};
    }

    method Sweep(now: int)
      modifies this
      ensures fails == Cleaned(old(fails), now, l)
    {
      ghost var was := fails;
      var left := fails.Keys;
      while left != {}
        invariant left <= was.Keys
        invariant fails.Keys == set a | a in was && (a in left || !Swept(was[a], now, l))
        invariant forall a :: a in fails ==> fails[a] == was[a]
        decreases left
      {
        var addr :| addr in left;
        if Swept(fails[addr], now, l) {
          fails := fails - {addr};
        }
        left := left - {addr};
      }
      assert fails == Cleaned(was, now, l);
    }
  }

  // ---- runs --------------------------------------------------------------------

  /** A failure, and its place among those counted together. */
  datatype Failure = Failure(at: int, place: nat)

  /** One attempt at a time for each address: an answer is asked for, then the sign-in fails, succeeds or is given up. The history is that since the last success. */
  datatype World = World(fails: Fails, asking: set<string>, clock: int, history: map<string, seq<Failure>>)

  const START := World(map[], {}, 0, map[])

  datatype Step = Asking(addr: string, now: int) | Failing(addr: string, now: int) | Succeeding(addr: string, now: int) | GivingUp(addr: string, now: int) | Sweeping(now: int)

  function HistoryOf(w: World, addr: string): seq<Failure> {
    if addr in w.history then w.history[addr] else []
  }

  predicate Allowed(w: World, x: Step) {
    w.clock <= x.now
    && match x
       case Asking(addr, _) => addr !in w.asking
       case Failing(addr, _) => addr in w.asking
       case Succeeding(addr, _) => addr in w.asking
       case GivingUp(addr, _) => addr in w.asking
       case Sweeping(_) => true
  }

  function Next(w: World, x: Step, l: Limits): World {
    match x
    case Asking(addr, now) =>
      World(Asked(w.fails, addr, now, l), if Allows(w.fails, addr, now) then w.asking + {addr} else w.asking, now, w.history)
    case Failing(addr, now) =>
      var fails := Failed(w.fails, addr, now, l);
      World(fails, w.asking - {addr}, now, w.history[addr := HistoryOf(w, addr) + [Failure(now, fails[addr].n)]])
    case Succeeding(addr, now) => World(Forgiven(w.fails, addr), w.asking - {addr}, now, w.history - {addr})
    case GivingUp(addr, now) => w.(asking := w.asking - {addr}, clock := now)
    case Sweeping(now) => w.(fails := Cleaned(w.fails, now, l), clock := now)
  }

  predicate Runs(w: World, steps: seq<Step>, v: World, l: Limits)
    decreases |steps|
  {
    if steps == [] then w == v else Allowed(w, steps[0]) && Runs(Next(w, steps[0], l), steps[1..], v, l)
  }

  /** The k-th failure comes after the one before: counted with it unless the window is over; later, if that one locked. */
  predicate Follows(h: seq<Failure>, k: nat, l: Limits)
    requires 0 < k < |h|
  {
    && h[k - 1].at <= h[k].at && 1 <= h[k - 1].place <= k
    && h[k].place == (if h[k].at - h[k - h[k - 1].place].at > l.window then 1 else h[k - 1].place + 1)
    && (h[k - 1].place >= l.max ==> h[k].at - h[k - 1].at >= l.lockout)
  }

  predicate Paced(h: seq<Failure>, l: Limits) {
    && (h != [] ==> h[0].place == 1)
    && (forall k :: 0 < k < |h| ==> Follows(h, k, l))
  }

  function Last(h: seq<Failure>): Failure
    requires h != []
  {
    h[|h| - 1]
  }

  /** The counter stands for the last failures counted together, or they are over. */
  predicate Tracks(f: Option<Count>, h: seq<Failure>, asking: bool, clock: int, l: Limits) {
    && (h == [] ==> f.None?)
    && (h != [] ==>
          var last := Last(h);
          && last.at <= clock && 1 <= last.place <= |h|
          && (f.Some? ==> f.value == Count(last.place, h[|h| - last.place].at, if last.place >= l.max then Some(last.at + l.lockout) else None))
          && (f.None? ==> clock - h[|h| - last.place].at > l.window)
          && ((f.None? || asking) && last.place >= l.max ==> clock >= last.at + l.lockout))
  }

  function Entry(fails: Fails, addr: string): Option<Count> {
    if addr in fails then Some(fails[addr]) else None
  }

  predicate SoundAt(w: World, addr: string, l: Limits) {
    Paced(HistoryOf(w, addr), l) && Tracks(Entry(w.fails, addr), HistoryOf(w, addr), addr in w.asking, w.clock, l)
  }

  ghost predicate Sound(w: World, l: Limits) {
    forall addr :: SoundAt(w, addr, l)
  }

  lemma FailingIsPaced(f: Option<Count>, h: seq<Failure>, clock: int, now: int, l: Limits)
    requires Paced(h, l) && Tracks(f, h, true, clock, l) && clock <= now && l.max > 0
    ensures var c := if f.None? || Stale(f.value, now, l) then Count(0, now, None) else f.value;
            var n := c.n + 1;
            var g := h + [Failure(now, n)];
            && Paced(g, l)
            && Tracks(Some(Count(n, c.first, if n >= l.max then Some(now + l.lockout) else c.until)), g, false, now, l)
  {
    var c := if f.None? || Stale(f.value, now, l) then Count(0, now, None) else f.value;
    var n := c.n + 1;
    var g := h + [Failure(now, n)];
    assert Last(g) == Failure(now, n);
    if h != [] {
      assert g[|h| - Last(h).place] == h[|h| - Last(h).place];
      if |h| > 1 {
        assert Follows(h, |h| - 1, l);
      }
      assert Follows(g, |h|, l);
    }
    forall k | 0 < k < |h|
      ensures Follows(g, k, l)
    {
      assert Follows(h, k, l);
    }
  }

  lemma NextIsSoundAt(w: World, x: Step, addr: string, l: Limits)
    requires Sound(w, l) && Allowed(w, x) && l.max > 0
    ensures SoundAt(Next(w, x, l), addr, l)
  {
    assert SoundAt(w, addr, l);
    if x.Failing? && x.addr == addr {
      FailingIsPaced(Entry(w.fails, addr), HistoryOf(w, addr), w.clock, x.now, l);
    }
  }

  lemma {:induction false} EveryRunIsSound(w: World, steps: seq<Step>, v: World, l: Limits)
    requires Sound(w, l) && Runs(w, steps, v, l) && l.max > 0
    ensures Sound(v, l)
    decreases |steps|
  {
    if steps != [] {
      forall addr
        ensures SoundAt(Next(w, steps[0], l), addr, l)
      {
        NextIsSoundAt(w, steps[0], addr, l);
      }
      EveryRunIsSound(Next(w, steps[0], l), steps[1..], v, l);
    }
  }

  /** Over every run: refused exactly until the lockout of a last failure that was the maximum's is over. */
  lemma RefusedExactly(steps: seq<Step>, w: World, addr: string, t: int, l: Limits)
    requires Runs(START, steps, w, l) && l.max > 0 && w.clock <= t
    ensures !Allows(w.fails, addr, t) <==>
            var h := HistoryOf(w, addr);
            h != [] && Last(h).place >= l.max && t < Last(h).at + l.lockout
  {
    EveryRunIsSound(START, steps, w, l);
    assert SoundAt(w, addr, l);
  }

  /** A sweep keeps the counts that are young or still locked, and a success forgets one address. */
  lemma WhatIsForgotten(fails: Fails, now: int, who: string, addr: string, l: Limits)
    ensures addr in Cleaned(fails, now, l) <==>
            addr in fails && (now <= fails[addr].first + l.window || (fails[addr].until.Some? && now <= fails[addr].until.value))
    ensures addr in Cleaned(fails, now, l) ==> Cleaned(fails, now, l)[addr] == fails[addr]
    ensures addr in Forgiven(fails, who) <==> addr in fails && addr != who
    ensures addr in Forgiven(fails, who) ==> Forgiven(fails, who)[addr] == fails[addr]
  {}

  /** What one step does to the history everything above speaks of. */
  lemma HistoriesGrow(w: World, x: Step, addr: string, l: Limits)
    ensures var h, g := HistoryOf(w, addr), HistoryOf(Next(w, x, l), addr);
            if x == Failing(addr, x.now) then |g| == |h| + 1 && g[..|h|] == h && Last(g).at == x.now
            else if x == Succeeding(addr, x.now) then g == []
            else g == h
    ensures addr in Next(w, x, l).asking <==>
            if x == Asking(addr, x.now) then addr in w.asking || Allows(w.fails, addr, x.now)
            else addr in w.asking && x != Failing(addr, x.now) && x != Succeeding(addr, x.now) && x != GivingUp(addr, x.now)
    ensures Next(w, x, l).clock == x.now
    ensures x.Sweeping? || x == Succeeding(addr, x.now) ==>
              (addr in Next(w, x, l).fails <==>
               addr in w.fails && x.Sweeping?
               && (x.now <= w.fails[addr].first + l.window || (w.fails[addr].until.Some? && x.now <= w.fails[addr].until.value)))
  {}

  lemma {:induction false} TimesRise(h: seq<Failure>, l: Limits, i: nat, j: nat)
    requires Paced(h, l) && i <= j < |h|
    ensures h[i].at <= h[j].at
    decreases j
  {
    if i < j {
      assert Follows(h, j, l);
      TimesRise(h, l, i, j - 1);
    }
  }

  /** Going on from i: the count restarts somewhere in the next `steps` failures, or just keeps growing. */
  lemma {:induction false} RestartsOrGrows(h: seq<Failure>, l: Limits, i: nat, steps: nat)
    requires Paced(h, l) && i + steps < |h|
    ensures (exists k :: i < k <= i + steps && h[k].place == 1) || h[i + steps].place == h[i].place + steps
    decreases steps
  {
    if steps > 0 {
      RestartsOrGrows(h, l, i, steps - 1);
      assert Follows(h, i + steps, l);
    }
  }

  /** From the first of a count, window and all is over within max failures. */
  lemma FirstIsFarFromMax(h: seq<Failure>, l: Limits, i: nat)
    requires Paced(h, l) && l.lockout >= l.window && l.max > 0 && i + l.max < |h| && h[i].place == 1
    ensures exists k :: i < k <= i + l.max && h[k].at - h[i].at >= l.window
  {
    RestartsOrGrows(h, l, i, l.max - 1);
    if h[i + l.max - 1].place == l.max {
      assert Follows(h, i + l.max, l);
      TimesRise(h, l, i, i + l.max - 1);
    } else {
      var k :| i < k <= i + l.max - 1 && h[k].place == 1;
      RestartIsFar(h, l, i, k);
    }
  }

  /** The first restart after the first of a count comes a window later. */
  lemma {:induction false} RestartIsFar(h: seq<Failure>, l: Limits, i: nat, k: nat)
    requires Paced(h, l) && i < k < |h| && h[i].place == 1 && h[k].place == 1
    ensures h[k].at - h[i].at > l.window
    decreases k
  {
    assert Follows(h, k, l);
    if m :| i < m < k && h[m].place == 1 {
      RestartIsFar(h, l, i, m);
      TimesRise(h, l, m, k);
    } else {
      RestartsOrGrows(h, l, i, k - 1 - i);
      assert h[k - 1].place == k - i;
    }
  }

  /** Any 2*max - 1 failures of one address, in a row, take at least the window. */
  lemma FailuresAreSpread(h: seq<Failure>, l: Limits, i: nat)
    requires Paced(h, l) && l.lockout >= l.window && l.max >= 2 && i + 2 * l.max - 2 < |h|
    ensures h[i + 2 * l.max - 2].at - h[i].at >= l.window
  {
    var end := i + 2 * l.max - 2;
    if h[i].place == 1 {
      FirstIsFarFromMax(h, l, i);
      var k :| i < k <= i + l.max && h[k].at - h[i].at >= l.window;
      TimesRise(h, l, k, end);
    } else {
      RestartsOrGrows(h, l, i, l.max - 2);
      if k :| i < k <= i + l.max - 2 && h[k].place == 1 {
        FirstIsFarFromMax(h, l, k);
        var m :| k < m <= k + l.max && h[m].at - h[k].at >= l.window;
        TimesRise(h, l, i, k);
        TimesRise(h, l, m, end);
      } else {
        PlacesArePositive(h, l, i);
        var j := i + l.max - 2;
        assert Follows(h, j + 1, l);
        TimesRise(h, l, i, j);
        TimesRise(h, l, j + 1, end);
      }
    }
  }

  lemma PlacesArePositive(h: seq<Failure>, l: Limits, i: nat)
    requires Paced(h, l) && i < |h|
    ensures h[i].place >= 1
  {
    if i > 0 {
      assert Follows(h, i, l);
    }
  }

  /** With a maximum of one every failure locks. */
  lemma EachIsFar(h: seq<Failure>, l: Limits, i: nat, j: nat)
    requires Paced(h, l) && l.lockout >= l.window && l.max == 1 && i < j < |h|
    ensures h[j].at - h[i].at >= l.window
  {
    assert Follows(h, i + 1, l);
    TimesRise(h, l, i + 1, j);
  }

  function Most(l: Limits): int {
    if l.max == 1 then 1 else 2 * l.max - 2
  }

  /** Whatever runs, no window of time holds more than 2*max - 2 failures of one address, or one if the maximum is one. */
  lemma NoWindowHoldsMore(steps: seq<Step>, w: World, addr: string, l: Limits, i: nat, j: nat, from: int)
    requires Runs(START, steps, w, l) && l.lockout >= l.window && l.max > 0
    requires i <= j < |HistoryOf(w, addr)|
    requires from <= HistoryOf(w, addr)[i].at && HistoryOf(w, addr)[j].at < from + l.window
    ensures j - i + 1 <= Most(l)
  {
    EveryRunIsSound(START, steps, w, l);
    assert SoundAt(w, addr, l);
    var h := HistoryOf(w, addr);
    if j - i + 1 > Most(l) {
      if l.max == 1 {
        EachIsFar(h, l, i, j);
      } else {
        FailuresAreSpread(h, l, i);
        TimesRise(h, l, i + 2 * l.max - 2, j);
      }
    }
  }

  /** With ten attempts, a window and a lockout of five minutes each: at most eighteen failures in five minutes. */
  lemma ShippedLimitsHold(steps: seq<Step>, w: World, addr: string, i: nat, j: nat, from: int)
    requires Runs(START, steps, w, STANDARD) && i <= j < |HistoryOf(w, addr)|
    requires from <= HistoryOf(w, addr)[i].at && HistoryOf(w, addr)[j].at < from + 300000
    ensures j - i + 1 <= 18
  {
    NoWindowHoldsMore(steps, w, addr, STANDARD, i, j, from);
  }

  // ---- the bound is reached --------------------------------------------------------

  function After(addr: string, c: Option<Count>, clock: int, h: seq<Failure>): World {
    World(if c.Some? then map[addr := c.value] else map[], {}, clock, if h == [] then map[] else map[addr := h])
  }

  function Counted(c: Option<Count>, at: int, l: Limits): Count {
    var f := if c.None? || Stale(c.value, at, l) then Count(0, at, None) else c.value;
    Count(f.n + 1, f.first, if f.n + 1 >= l.max then Some(at + l.lockout) else f.until)
  }

  lemma TryIs(addr: string, c: Option<Count>, clock: int, h: seq<Failure>, at: int, l: Limits)
    requires c.Some? ==> !Locked(c.value, at)
    ensures var w := After(addr, c, clock, h);
            && Allows(w.fails, addr, at)
            && After(addr, Some(Counted(c, at, l)), at, h + [Failure(at, Counted(c, at, l).n)])
               == Next(Next(w, Asking(addr, at), l), Failing(addr, at), l)
  {
    var w := After(addr, c, clock, h);
    var asked := Next(w, Asking(addr, at), l);
    assert asked.asking - {addr} == {};
    assert Failed(asked.fails, addr, at, l) == map[addr := Counted(c, at, l)];
    assert HistoryOf(asked, addr) == h;
    var g := h + [Failure(at, Counted(c, at, l).n)];
    assert asked.history[addr := g] == map[addr := g];
  }

  /** The worst an address can do: one failure, max - 2 when the window is almost over, max right after it. */
  function At(k: nat, l: Limits): int {
    if k == 0 then 0 else if k < l.max - 1 then l.window else l.window + 1
  }

  function CountAt(k: nat, l: Limits): Count
    requires l.max >= 2
  {
    if k < l.max - 1 then Count(k + 1, 0, None)
    else var n := k - l.max + 2; Count(n, l.window + 1, if n >= l.max then Some(l.window + 1 + l.lockout) else None)
  }

  function Worst(n: nat, l: Limits): seq<Failure>
    requires l.max >= 2
  {
    if n == 0 then [] else Worst(n - 1, l) + [Failure(At(n - 1, l), CountAt(n - 1, l).n)]
  }

  function Stage(addr: string, k: nat, l: Limits): World
    requires l.max >= 2
  {
    if k == 0 then START else After(addr, Some(CountAt(k - 1, l)), At(k - 1, l), Worst(k, l))
  }

  function Tries(addr: string, k: nat, l: Limits): seq<Step>
    decreases 2 * l.max - k
  {
    if k >= 2 * l.max - 1 then [] else [Asking(addr, At(k, l)), Failing(addr, At(k, l))] + Tries(addr, k + 1, l)
  }

  lemma StageLeadsOn(addr: string, k: nat, l: Limits)
    requires l.max >= 2 && k < 2 * l.max - 1
    ensures var w := Stage(addr, k, l);
            && Allows(w.fails, addr, At(k, l)) && w.clock <= At(k, l) && w.asking == {}
            && Stage(addr, k + 1, l) == Next(Next(w, Asking(addr, At(k, l)), l), Failing(addr, At(k, l)), l)
  {
    var c := if k == 0 then None else Some(CountAt(k - 1, l));
    assert Counted(c, At(k, l), l) == CountAt(k, l);
    TryIs(addr, c, if k == 0 then 0 else At(k - 1, l), Worst(k, l), At(k, l), l);
  }

  lemma OneTry(w: World, addr: string, at: int, rest: seq<Step>, v: World, l: Limits)
    requires w.clock <= at && w.asking == {} && Allows(w.fails, addr, at)
    requires Runs(Next(Next(w, Asking(addr, at), l), Failing(addr, at), l), rest, v, l)
    ensures Runs(w, [Asking(addr, at), Failing(addr, at)] + rest, v, l)
  {}

  lemma {:induction false} StagesRun(addr: string, k: nat, l: Limits)
    requires l.max >= 2 && k <= 2 * l.max - 1
    ensures Runs(Stage(addr, k, l), Tries(addr, k, l), Stage(addr, 2 * l.max - 1, l), l)
    decreases 2 * l.max - k
  {
    if k < 2 * l.max - 1 {
      StageLeadsOn(addr, k, l);
      StagesRun(addr, k + 1, l);
      OneTry(Stage(addr, k, l), addr, At(k, l), Tries(addr, k + 1, l), Stage(addr, 2 * l.max - 1, l), l);
    }
  }

  lemma {:induction false} WorstTimes(n: nat, l: Limits)
    requires l.max >= 2
    ensures |Worst(n, l)| == n && forall k :: 0 <= k < n ==> Worst(n, l)[k].at == At(k, l)
  {
    if n > 0 {
      WorstTimes(n - 1, l);
    }
  }

  /** And that many do fit, whatever the limits: all failures but the first lie in one window. */
  lemma TheBoundIsReached(addr: string, l: Limits)
    requires l.max >= 2 && l.window > 1
    ensures exists steps, w :: Runs(START, steps, w, l) && |HistoryOf(w, addr)| == 2 * l.max - 1
                               && forall k :: 1 <= k < 2 * l.max - 1 ==> l.window <= HistoryOf(w, addr)[k].at < 2 * l.window
  {
    StagesRun(addr, 0, l);
    WorstTimes(2 * l.max - 1, l);
    var w := Stage(addr, 2 * l.max - 1, l);
    assert HistoryOf(w, addr) == Worst(2 * l.max - 1, l);
  }
}
