/**
 Un-adoption of internal/adoption/adopt.go: the user's configuration is handed back one
 config at a time, and the footprint goes only once every owned section is gone.
 */
module Unadopt {
  import opened Options
  import opened UciDevice
  import opened Link

  datatype Owned = Owned(config: string, section: string)

  datatype Problem = RevertFailed(s: Owned) | DiscardFailed(config: string) | CommitFailed(config: string)
                   | ControllerMissing | FootprintFailed

  datatype Verdict = Done | NoController | NotStaged(config: string) | NotProven(config: string) | OperatorRequired | WithErrors

  // ---- lists of sections --------------------------------------------------------

  function InConfig(owned: seq<Owned>, c: string): seq<Owned> {
    if owned == [] then [] else
    var n := |owned| - 1;
    InConfig(owned[..n], c) + if owned[n].config == c then [owned[n]] else []
  }

  function OutsideConfig(owned: seq<Owned>, c: string): seq<Owned> {
    if owned == [] then [] else
    var n := |owned| - 1;
    OutsideConfig(owned[..n], c) + if owned[n].config == c then [] else [owned[n]]
  }

  /** Configs in the order of their first section. */
  function ConfigsOf(owned: seq<Owned>): seq<string> {
    if owned == [] then [] else
    var n := |owned| - 1;
    var before := ConfigsOf(owned[..n]);
    if owned[n].config in before then before else before + [owned[n].config]
  }

  lemma {:induction false} InConfigAre(owned: seq<Owned>, c: string)
    ensures forall s :: s in InConfig(owned, c) <==> s in owned && s.config == c
  {
    if owned != [] {
      InConfigAre(owned[..|owned| - 1], c);
      assert owned == owned[..|owned| - 1] + [owned[|owned| - 1]];
    }
  }

  lemma {:induction false} ConfigsAreDistinct(owned: seq<Owned>)
    ensures forall i, j :: 0 <= i < j < |ConfigsOf(owned)| ==> ConfigsOf(owned)[i] != ConfigsOf(owned)[j]
    ensures forall s :: s in owned ==> s.config in ConfigsOf(owned)
  {
    if owned != [] {
      ConfigsAreDistinct(owned[..|owned| - 1]);
      assert owned == owned[..|owned| - 1] + [owned[|owned| - 1]];
    }
  }

  /** Splitting by config loses and doubles nothing. */
  lemma {:induction false} SplitIsAPartition(owned: seq<Owned>, c: string)
    ensures multiset(InConfig(owned, c)) + multiset(OutsideConfig(owned, c)) == multiset(owned)
    ensures forall s :: s in OutsideConfig(owned, c) <==> s in owned && s.config != c
  {
    if owned != [] {
      SplitIsAPartition(owned[..|owned| - 1], c);
      assert owned == owned[..|owned| - 1] + [owned[|owned| - 1]];
    }
  }

  method DistinctConfigs(owned: seq<Owned>) returns (out: seq<string>)
    ensures out == ConfigsOf(owned)
  {
    var seen: set<string> := {};
    out := [];
    for i := 0 to |owned|
      invariant out == ConfigsOf(owned[..i]) && forall c :: c in seen <==> c in out
    {
      assert owned[..i + 1][..i] == owned[..i];
      if owned[i].config !in seen {
        seen := seen + {owned[i].config};
        out := out + [owned[i].config];
      }
    }
    assert owned[..|owned|] == owned;
  }

  method SectionsInConfig(owned: seq<Owned>, c: string) returns (out: seq<Owned>)
    ensures out == InConfig(owned, c)
  {
    out := [];
    for i := 0 to |owned|
      invariant out == InConfig(owned[..i], c)
    {
      assert owned[..i + 1][..i] == owned[..i];
      if owned[i].config == c {
        out := out + [owned[i]];
      }
    }
    assert owned[..|owned|] == owned;
  }

  lemma OutsideOneMore(owned: seq<Owned>, i: nat, c: string)
    requires i < |owned|
    ensures OutsideConfig(owned[..i + 1], c) == OutsideConfig(owned[..i], c) + if owned[i].config != c then [owned[i]] else []
  {
    assert owned[..i + 1][..i] == owned[..i];
  }

  /** Filters the slice where it lies. */
  method RemoveSections(sections: array<Owned>, n: nat, c: string) returns (left: nat)
    requires n <= sections.Length
    modifies sections
    ensures left <= n && sections[..left] == OutsideConfig(old(sections[..n]), c)
  {
    ghost var was := sections[..n];
    left := 0;
    for i := 0 to n
      invariant left <= i && sections[..left] == OutsideConfig(was[..i], c) && sections[i..n] == was[i..]
    {
      assert sections[i] == sections[i..n][0] == was[i];
      assert sections[i + 1..n] == sections[i..n][1..] == was[i + 1..];
      OutsideOneMore(was, i, c);
      if sections[i].config != c {
        sections[left] := sections[i];
        left := left + 1;
        assert sections[..left] == OutsideConfig(was[..i], c) + [was[i]];
      }
    }
    assert was[..n] == was;
  }

  // ---- what the device holds -------------------------------------------------------

  /** The part of a device that matters here; it is all ours while nothing is armed and nobody meddles. */
  datatype Core = Core(committed: Store, mine: Deltas)

  function CoreOf(v: View, sid: Sid): Core {
    Core(v.s.committed, Mine(v.s, sid))
  }

  predicate Calm(v: View, sid: Sid) {
    v.s.rollback.None? && sid in v.ours && !v.interfered
  }

  function PileAt(k: Core, c: string): seq<Delta> {
    if c in k.mine then k.mine[c] else []
  }

  function Staged(k: Core, c: string, d: Delta): Core {
    k.(mine := k.mine[c := PileAt(k, c) + [d]])
  }

  function Discarded(k: Core, c: string): Core {
    k.(mine := k.mine - {c})
  }

  function Landed(k: Core, c: string): Core {
    Core(CommitSome(k.committed, k.mine, {c}), k.mine - {c})
  }

  /** Between the ends of a call the core moves as the device did. */
  lemma CalledMoves(a: View, s: State, t: State, b: View, sid: Sid)
    requires Called(a, s, t, b) && Calm(a, sid) && !b.interfered && t.rollback == s.rollback
    ensures Core(s.committed, Mine(s, sid)) == CoreOf(a, sid)
    ensures Calm(b, sid) && CoreOf(b, sid) == Core(t.committed, Mine(t, sid))
  {}

  predicate IsMissing<T>(r: Reply<T>) {
    r.Refused? && (r.status == NotFound || r.status == NoData)
  }

  ghost predicate DeleteOutcome(a: View, b: View, sid: Sid, s: Owned, r: Reply<()>) {
    b.interfered || (Calm(b, sid)
                     && var k := CoreOf(a, sid);
                        if r.Answered? then CoreOf(b, sid) == Staged(k, s.config, UciDevice.Delete(s.section)) && s.config in k.committed
                        else if IsMissing(r) then CoreOf(b, sid) == k && s.config !in k.committed
                        else CoreOf(b, sid) == k
                             || (CoreOf(b, sid) == Staged(k, s.config, UciDevice.Delete(s.section)) && s.config in k.committed))
  }

  ghost predicate DiscardOutcome(a: View, b: View, sid: Sid, c: string, r: Reply<()>) {
    b.interfered || (Calm(b, sid)
                     && (CoreOf(b, sid) == Discarded(CoreOf(a, sid), c) || (!r.Answered? && CoreOf(b, sid) == CoreOf(a, sid))))
  }

  ghost predicate CommitOutcome(a: View, b: View, sid: Sid, c: string, r: Reply<()>) {
    b.interfered || (Calm(b, sid)
                     && if r.Answered? then CoreOf(b, sid) == Landed(CoreOf(a, sid), c)
                        else CoreOf(b, sid) == CoreOf(a, sid) || CoreOf(b, sid) == Landed(CoreOf(a, sid), c))
  }

  ghost predicate Settled(v: View, sid: Sid) {
    v.interfered || Calm(v, sid)
  }

  method DeleteSection(line: Line, s: Owned) returns (r: Reply<()>)
    requires line.Valid() && Settled(line.Seen(), line.sid)
    modifies line`cancelled, line`timerLost, line`mishaps, line`interfered, line`dropped, line.dev
    ensures line.Valid() && DeleteOutcome(old(line.Seen()), line.Seen(), line.sid, s, r)
    ensures Onward(old(line.Seen()), line.Seen()) && (line.Seen().Clean() ==> r.Answered? || IsMissing(r))
    ensures old(line.interfered) ==> line.interfered
  {
    ghost var a := line.Seen();
    ghost var before, after;
    r, before, after := line.StageCall(s.config, UciDevice.Delete(s.section));
    if !line.interfered {
      CalledMoves(a, before, after, line.Seen(), line.sid);
    }
  }

  method DiscardConfig(line: Line, c: string) returns (r: Reply<()>)
    requires line.Valid() && Settled(line.Seen(), line.sid)
    modifies line`cancelled, line`timerLost, line`mishaps, line`interfered, line`dropped, line.dev
    ensures line.Valid() && DiscardOutcome(old(line.Seen()), line.Seen(), line.sid, c, r) && Onward(old(line.Seen()), line.Seen())
    ensures old(line.interfered) ==> line.interfered
  {
    ghost var a := line.Seen();
    ghost var before, after;
    r, before, after := line.RevertCall(c, false);
    if !line.interfered {
      CalledMoves(a, before, after, line.Seen(), line.sid);
      assert Mine(Revert(before, line.sid, c), line.sid) == Mine(before, line.sid) - {c};
    }
  }

  method CommitConfig(line: Line, c: string) returns (r: Reply<()>)
    requires line.Valid() && Settled(line.Seen(), line.sid)
    modifies line`cancelled, line`timerLost, line`mishaps, line`interfered, line`dropped, line.dev
    ensures line.Valid() && CommitOutcome(old(line.Seen()), line.Seen(), line.sid, c, r)
    ensures Onward(old(line.Seen()), line.Seen()) && (line.Seen().Clean() ==> r.Answered?)
    ensures old(line.interfered) ==> line.interfered
  {
    ghost var a := line.Seen();
    ghost var before, after;
    r, before, after := line.CommitCall(c);
    if !line.interfered {
      CalledMoves(a, before, after, line.Seen(), line.sid);
      assert Mine(Revert(before, line.sid, c), line.sid) == Mine(before, line.sid) - {c};
    }
  }

  // ---- one config ---------------------------------------------------------------------

  function At(k: Core, c: string): Option<Config> {
    if c in k.committed then Some(k.committed[c]) else None
  }

  function SectionsOf(group: seq<Owned>): set<string> {
    set k | 0 <= k < |group| :: group[k].section
  }

  /** A config without the sections that are ours; whatever this session had staged on it goes in too. */
  function After(k: Core, owned: seq<Owned>, c: string): Option<Config> {
    if c in k.committed then Some(Overlay(k.committed[c], PileAt(k, c)) - SectionsOf(InConfig(owned, c))) else None
  }

  /** The device stages nothing on a config it does not have. */
  predicate Sensible(k: Core) {
    forall c :: c in k.mine && k.mine[c] != [] ==> c in k.committed
  }

  function Deletes(group: seq<Owned>): seq<Delta> {
    seq(|group|, k requires 0 <= k < |group| => UciDevice.Delete(group[k].section))
  }

  lemma {:induction false} OverlayDeletes(cfg: Config, pile: seq<Delta>, group: seq<Owned>)
    ensures Overlay(cfg, pile + Deletes(group)) == Overlay(cfg, pile) - SectionsOf(group)
  {
    if group == [] {
      assert pile + Deletes(group) == pile;
    } else {
      var n := |group| - 1;
      var all := pile + Deletes(group);
      OverlayDeletes(cfg, pile, group[..n]);
      assert all[..|all| - 1] == pile + Deletes(group[..n]);
      assert SectionsOf(group) == SectionsOf(group[..n]) + {group[n].section};
      MinusMore(Overlay(cfg, pile), SectionsOf(group[..n]), group[n].section);
    }
  }

  lemma MinusMore<K, V>(m: map<K, V>, a: set<K>, x: K)
    ensures (m - a) - {x} == m - (a + {x})
  {}

  /** Only this session's own pile on one config is different. */
  ghost predicate OnlyPile(k: Core, l: Core, c: string) {
    && l.committed == k.committed && (c in k.committed || PileAt(l, c) == PileAt(k, c))
    && forall e :: e != c ==> PileAt(l, e) == PileAt(k, e)
  }

  /** Every section of the group is marked for deletion, or there is no such config. */
  ghost predicate Marked(k: Core, l: Core, c: string, group: seq<Owned>) {
    OnlyPile(k, l, c) && (c in k.committed ==> PileAt(l, c) == PileAt(k, c) + Deletes(group))
  }

  /** What a landed commit of the marked config leaves. */
  ghost predicate HandedBack(k: Core, l: Core, owned: seq<Owned>, c: string) {
    && At(l, c) == After(k, owned, c)
    && forall e :: e != c ==> At(l, e) == At(k, e) && PileAt(l, e) == PileAt(k, e)
  }

  ghost predicate Untouched(k: Core, l: Core, c: string) {
    (forall e :: At(l, e) == At(k, e)) && forall e :: e != c ==> PileAt(l, e) == PileAt(k, e)
  }

  lemma LandingHandsBack(k: Core, l: Core, owned: seq<Owned>, c: string)
    requires Sensible(k) && Marked(k, l, c, InConfig(owned, c))
    ensures HandedBack(k, Landed(l, c), owned, c) && Sensible(Landed(l, c))
  {
    var m := Landed(l, c);
    CommittedAt(l, c);
    assert forall e :: e != c ==> PileAt(m, e) == PileAt(l, e);
    if c in k.committed {
      OverlayDeletes(k.committed[c], PileAt(k, c), InConfig(owned, c));
    } else {
      assert PileAt(k, c) == [];
    }
    forall e | e in m.mine && m.mine[e] != []
      ensures e in m.committed
    {
      assert PileAt(m, e) == PileAt(k, e);
    }
  }

  lemma CommittedAt(l: Core, c: string)
    requires c in l.committed || PileAt(l, c) == []
    ensures var m := Landed(l, c);
            && (c in l.committed ==> c in m.committed && m.committed[c] == Overlay(l.committed[c], PileAt(l, c)))
            && (c !in l.committed ==> c !in m.committed)
            && forall e :: e != c ==> At(m, e) == At(l, e)
  {}

  /** One more section marked, or not. */
  lemma MarkOneMore(k: Core, l: Core, m: Core, c: string, group: seq<Owned>, i: nat)
    requires i < |group| && OnlyPile(k, l, c)
    requires m == l || (c in k.committed && m == Staged(l, c, UciDevice.Delete(group[i].section)))
    ensures OnlyPile(k, m, c)
    ensures Marked(k, l, c, group[..i]) && (m != l || c !in k.committed) ==> Marked(k, m, c, group[..i + 1])
  {
    assert forall e :: e != c ==> PileAt(m, e) == PileAt(l, e);
    assert Deletes(group[..i + 1]) == Deletes(group[..i]) + [UciDevice.Delete(group[i].section)];
    assert PileAt(k, c) + Deletes(group[..i + 1]) == (PileAt(k, c) + Deletes(group[..i])) + [UciDevice.Delete(group[i].section)];
    StagedIsLonger(l, c, UciDevice.Delete(group[i].section));
  }

  lemma StagedIsLonger(l: Core, c: string, d: Delta)
    ensures PileAt(Staged(l, c, d), c) == PileAt(l, c) + [d] && Staged(l, c, d) != l
  {
    assert |PileAt(Staged(l, c, d), c)| == |PileAt(l, c)| + 1;
  }

  /** What marking has come to: `staged` says whether the first i sections all are. */
  ghost predicate Marking(k: Core, v: View, sid: Sid, c: string, group: seq<Owned>, i: nat, staged: bool)
    requires i <= |group|
  {
    v.interfered || (Calm(v, sid) && OnlyPile(k, CoreOf(v, sid), c) && (staged ==> Marked(k, CoreOf(v, sid), c, group[..i])))
  }

  lemma MarkingGoesOn(k: Core, a: View, b: View, sid: Sid, c: string, group: seq<Owned>, i: nat, staged: bool, r: Reply<()>)
    requires i < |group| && group[i].config == c && Marking(k, a, sid, c, group, i, staged)
    requires DeleteOutcome(a, b, sid, group[i], r) && (a.interfered ==> b.interfered)
    ensures Marking(k, b, sid, c, group, i + 1, staged && (r.Answered? || IsMissing(r)))
  {
    if !b.interfered {
      var l, m := CoreOf(a, sid), CoreOf(b, sid);
      StagedIsLonger(l, c, UciDevice.Delete(group[i].section));
      MarkOneMore(k, l, m, c, group, i);
    }
  }

  method MarkSections(line: Line, group: seq<Owned>, c: string) returns (staged: bool, problems: seq<Problem>)
    requires line.Valid() && Settled(line.Seen(), line.sid) && forall k :: 0 <= k < |group| ==> group[k].config == c
    modifies line`cancelled, line`timerLost, line`mishaps, line`interfered, line`dropped, line.dev
    ensures line.Valid() && (old(line.interfered) ==> line.interfered)
    ensures Marking(CoreOf(old(line.Seen()), line.sid), line.Seen(), line.sid, c, group, |group|, staged)
    ensures staged <==> problems == []
    ensures forall p :: p in problems ==> p.RevertFailed? && p.s in group
    ensures Onward(old(line.Seen()), line.Seen()) && (line.Seen().Clean() ==> staged)
  {
    ghost var k := CoreOf(line.Seen(), line.sid);
    staged, problems := true, [];
    assert PileAt(k, c) + Deletes([]) == PileAt(k, c);
    assert group[..0] == [];
    for i := 0 to |group|
      invariant line.Valid() && (old(line.interfered) ==> line.interfered)
      invariant Marking(k, line.Seen(), line.sid, c, group, i, staged) && (staged <==> problems == [])
      invariant forall p :: p in problems ==> p.RevertFailed? && p.s in group
      invariant Onward(old(line.Seen()), line.Seen()) && (line.Seen().Clean() ==> staged)
    {
      ghost var before := line.Seen();
      var r := DeleteSection(line, group[i]);
      MarkingGoesOn(k, before, line.Seen(), line.sid, c, group, i, staged, r);
      if !r.Answered? && !IsMissing(r) {
        problems := problems + [RevertFailed(group[i])];
        staged := false;
      }
    }
  }

  datatype Handover = Returned | StageFailed | CommitUnproven

  ghost predicate HandedOver(k: Core, v: View, sid: Sid, owned: seq<Owned>, c: string, h: Handover) {
    v.interfered || (Calm(v, sid) && var l := CoreOf(v, sid);
                     match h
                     case Returned => HandedBack(k, l, owned, c) && Sensible(l)
                     case StageFailed => Untouched(k, l, c)
                     case CommitUnproven => Untouched(k, l, c) || HandedBack(k, l, owned, c))
  }

  /** What went wrong is named: the sections that could not be marked, or the commit that was not answered. */
  predicate Explains(owned: seq<Owned>, c: string, h: Handover, problems: seq<Problem>) {
    && FootprintFailed !in problems
    && match h
    case Returned => problems == []
    case StageFailed => problems != [] && problems[0].RevertFailed? && problems[0].s in owned && problems[0].s.config == c
    case CommitUnproven => problems != [] && problems[0] == CommitFailed(c)
  }

  /** No delta of ours is left on a config that was not handed back, unless the report says that discarding it failed. */
  ghost predicate CleanedUp(v: View, sid: Sid, c: string, problems: seq<Problem>) {
    v.interfered || DiscardFailed(c) in problems || PileAt(CoreOf(v, sid), c) == []
  }

  lemma DiscardingIsHarmless(k: Core, a: View, b: View, sid: Sid, owned: seq<Owned>, c: string, r: Reply<()>)
    requires DiscardOutcome(a, b, sid, c, r) && (a.interfered ==> b.interfered)
    ensures !b.interfered && Calm(a, sid) ==>
              && Calm(b, sid)
              && (OnlyPile(k, CoreOf(a, sid), c) ==> Untouched(k, CoreOf(b, sid), c))
              && (Untouched(k, CoreOf(a, sid), c) ==> Untouched(k, CoreOf(b, sid), c))
              && (HandedBack(k, CoreOf(a, sid), owned, c) ==> HandedBack(k, CoreOf(b, sid), owned, c))
    ensures r.Answered? ==> CleanedUp(b, sid, c, [])
  {
    if !b.interfered && Calm(a, sid) {
      var l, m := CoreOf(a, sid), CoreOf(b, sid);
      assert m.committed == l.committed;
      forall e | e != c
        ensures PileAt(m, e) == PileAt(l, e)
      {}
    }
  }

  /** All of a config's sections, or none: a reply that never came proves neither. */
  method HandBack(line: Line, owned: seq<Owned>, c: string) returns (h: Handover, problems: seq<Problem>)
    requires line.Valid() && Settled(line.Seen(), line.sid)
    requires line.interfered || Sensible(CoreOf(line.Seen(), line.sid))
    modifies line`cancelled, line`timerLost, line`mishaps, line`interfered, line`dropped, line.dev
    ensures line.Valid() && (old(line.interfered) ==> line.interfered)
    ensures HandedOver(CoreOf(old(line.Seen()), line.sid), line.Seen(), line.sid, owned, c, h)
    ensures h == Returned <==> problems == []
    ensures h != Returned ==> CleanedUp(line.Seen(), line.sid, c, problems)
    ensures Onward(old(line.Seen()), line.Seen()) && (line.Seen().Clean() ==> h == Returned) && Explains(owned, c, h, problems)
  {
    ghost var k := CoreOf(line.Seen(), line.sid);
    var group := SectionsInConfig(owned, c);
    InConfigAre(owned, c);
    assert forall i :: 0 <= i < |group| ==> group[i] in group;
    var staged;
    staged, problems := MarkSections(line, group, c);
    assert group[..|group|] == group;
    if staged {
      h, problems := CommitMarked(line, owned, c, k);
    } else {
      h := StageFailed;
      assert problems[0] in problems;
      ghost var before := line.Seen();
      var r := DiscardConfig(line, c);
      DiscardingIsHarmless(k, before, line.Seen(), line.sid, owned, c, r);
      if !r.Answered? {
        problems := problems + [DiscardFailed(c)];
      }
    }
  }

  method CommitMarked(line: Line, owned: seq<Owned>, c: string, ghost k: Core) returns (h: Handover, problems: seq<Problem>)
    requires line.Valid() && Settled(line.Seen(), line.sid)
    requires line.interfered || (Sensible(k) && Marked(k, CoreOf(line.Seen(), line.sid), c, InConfig(owned, c)))
    modifies line`cancelled, line`timerLost, line`mishaps, line`interfered, line`dropped, line.dev
    ensures line.Valid() && (old(line.interfered) ==> line.interfered)
    ensures HandedOver(k, line.Seen(), line.sid, owned, c, h)
    ensures h == Returned <==> problems == []
    ensures h != Returned ==> CleanedUp(line.Seen(), line.sid, c, problems)
    ensures Onward(old(line.Seen()), line.Seen()) && (line.Seen().Clean() ==> h == Returned) && Explains(owned, c, h, problems)
  {
    ghost var a := line.Seen();
    var r := CommitConfig(line, c);
    CommitEnds(k, a, line.Seen(), line.sid, owned, c, r);
    if r.Answered? {
      return Returned, [];
    }
    h, problems := CommitUnproven, [CommitFailed(c)];
    ghost var before := line.Seen();
    var d := DiscardConfig(line, c);
    DiscardingIsHarmless(k, before, line.Seen(), line.sid, owned, c, d);
    if !d.Answered? {
      problems := problems + [DiscardFailed(c)];
    }
  }

  lemma CommitEnds(k: Core, a: View, b: View, sid: Sid, owned: seq<Owned>, c: string, r: Reply<()>)
    requires CommitOutcome(a, b, sid, c, r) && (a.interfered ==> b.interfered)
    requires a.interfered || (Calm(a, sid) && Sensible(k) && Marked(k, CoreOf(a, sid), c, InConfig(owned, c)))
    ensures b.interfered || (Calm(b, sid) && var l := CoreOf(b, sid);
                             if r.Answered? then HandedBack(k, l, owned, c) && Sensible(l)
                             else OnlyPile(k, l, c) || HandedBack(k, l, owned, c))
  {
    if !b.interfered {
      LandingHandsBack(k, CoreOf(a, sid), owned, c);
    }
  }

  // ---- the whole of it ---------------------------------------------------------------------

  class Report {
    var reverted: seq<Owned>
    var sections: array<Owned>
    var left: nat
    var configRevertComplete: bool
    var loginRemoved: bool
    var aclRemoved: bool
    var footprintRemains: bool
    var errors: seq<Problem>

    ghost predicate Valid()
      reads this
    {
      left <= sections.Length
    }

    /** `ConfigRemains`. */
    function Remains(): seq<Owned>
      reads this, sections
      requires Valid()
    {
      sections[..left]
    }

    constructor (owned: seq<Owned>)
      ensures Valid() && fresh(sections) && reverted == [] && Remains() == owned && errors == []
      ensures !configRevertComplete && !loginRemoved && !aclRemoved && footprintRemains
    {
      reverted, errors, left := [], [], |owned|;
      configRevertComplete, loginRemoved, aclRemoved, footprintRemains := false, false, false, true;
      sections := new Owned[|owned|](k requires 0 <= k < |owned| => owned[k]);
      new;
      assert sections[..] == owned;
    }
  }

  predicate Gone(k: Core, s: Owned) {
    s.config !in k.committed || s.section !in k.committed[s.config]
  }

  /** Configs in `done` have been handed back, the others are as they were. */
  ghost predicate Progress(k0: Core, k: Core, owned: seq<Owned>, done: seq<string>) {
    && (forall c :: c in done ==> At(k, c) == After(k0, owned, c))
    && (forall c :: c !in done ==> At(k, c) == At(k0, c) && PileAt(k, c) == PileAt(k0, c))
    && Sensible(k)
  }

  /** Every config as it was, or without every section of ours. */
  ghost predicate AllOrNothing(k0: Core, k: Core, owned: seq<Owned>) {
    forall c :: At(k, c) == At(k0, c) || (c in ConfigsOf(owned) && At(k, c) == After(k0, owned, c))
  }

  lemma HandedBackIsProgress(k0: Core, k: Core, l: Core, owned: seq<Owned>, done: seq<string>, c: string)
    requires Progress(k0, k, owned, done) && c !in done && HandedBack(k, l, owned, c) && Sensible(l)
    ensures Progress(k0, l, owned, done + [c])
  {}

  lemma FailureIsAllOrNothing(k0: Core, k: Core, l: Core, owned: seq<Owned>, done: seq<string>, c: string)
    requires Progress(k0, k, owned, done) && c !in done && c in ConfigsOf(owned)
    requires forall d :: d in done ==> d in ConfigsOf(owned)
    requires Untouched(k, l, c) || HandedBack(k, l, owned, c)
    ensures AllOrNothing(k0, l, owned) && forall d :: d in done ==> At(l, d) == After(k0, owned, d)
  {}

  /** A config handed back holds none of its owned sections. */
  lemma HandedBackIsGone(k0: Core, k: Core, owned: seq<Owned>, s: Owned)
    requires s in owned && At(k, s.config) == After(k0, owned, s.config)
    ensures Gone(k, s)
  {
    InConfigAre(owned, s.config);
    var group := InConfig(owned, s.config);
    assert s in group;
    var i :| 0 <= i < |group| && group[i] == s;
    assert s.section in SectionsOf(group);
  }

  /** What is reverted is of the configs done, and with what remains makes up what is owned. */
  ghost predicate Divided(owned: seq<Owned>, reverted: seq<Owned>, remains: seq<Owned>, done: seq<string>) {
    && multiset(reverted) + multiset(remains) == multiset(owned)
    && (forall s :: s in reverted ==> s in owned && s.config in done)
    && (forall s :: s in remains ==> s.config !in done)
    && (forall c :: c !in done ==> InConfig(remains, c) == InConfig(owned, c))
  }

  lemma {:induction false} InOutside(owned: seq<Owned>, c: string, d: string)
    ensures InConfig(OutsideConfig(owned, c), d) == if c == d then [] else InConfig(owned, d)
  {
    if owned != [] {
      var n := |owned| - 1;
      InOutside(owned[..n], c, d);
      if owned[n].config != c {
        assert OutsideConfig(owned, c) == OutsideConfig(owned[..n], c) + [owned[n]];
        InConfigAppend(OutsideConfig(owned[..n], c), owned[n], d);
      } else {
        assert OutsideConfig(owned, c) == OutsideConfig(owned[..n], c);
      }
    }
  }

  lemma InConfigAppend(owned: seq<Owned>, s: Owned, c: string)
    ensures InConfig(owned + [s], c) == InConfig(owned, c) + if s.config == c then [s] else []
  {}

  lemma DividedOneMore(owned: seq<Owned>, reverted: seq<Owned>, remains: seq<Owned>, done: seq<string>, c: string)
    requires Divided(owned, reverted, remains, done) && c !in done
    ensures Divided(owned, reverted + InConfig(owned, c), OutsideConfig(remains, c), done + [c])
  {
    SplitIsAPartition(remains, c);
    InConfigAre(owned, c);
    assert multiset(reverted + InConfig(owned, c)) == multiset(reverted) + multiset(InConfig(owned, c));
    forall d | d !in done + [c]
      ensures InConfig(OutsideConfig(remains, c), d) == InConfig(owned, d)
    {
      InOutside(remains, c, d);
    }
  }

  /** What may be said of the device at a return: nothing reverted is left, and nothing is half done. */
  ghost predicate Honest(k0: Core, v: View, sid: Sid, owned: seq<Owned>, reverted: seq<Owned>) {
    v.interfered || (AllOrNothing(k0, CoreOf(v, sid), owned) && forall s :: s in reverted ==> Gone(CoreOf(v, sid), s))
  }

  lemma ProgressIsHonest(k0: Core, v: View, sid: Sid, owned: seq<Owned>, reverted: seq<Owned>, remains: seq<Owned>, done: seq<string>)
    requires v.interfered || Progress(k0, CoreOf(v, sid), owned, done)
    requires Divided(owned, reverted, remains, done) && forall d :: d in done ==> d in ConfigsOf(owned)
    ensures Honest(k0, v, sid, owned, reverted)
  {
    if !v.interfered {
      forall s | s in reverted
        ensures Gone(CoreOf(v, sid), s)
      {
        HandedBackIsGone(k0, CoreOf(v, sid), owned, s);
      }
    }
  }

  lemma FailureIsHonest(k0: Core, k: Core, v: View, sid: Sid, owned: seq<Owned>, reverted: seq<Owned>, remains: seq<Owned>,
                        done: seq<string>, c: string, h: Handover)
    requires v.interfered || (Progress(k0, k, owned, done) && HandedOver(k, v, sid, owned, c, h) && h != Returned)
    requires Divided(owned, reverted, remains, done) && c !in done && c in ConfigsOf(owned)
    requires forall d :: d in done ==> d in ConfigsOf(owned)
    ensures Honest(k0, v, sid, owned, reverted)
  {
    if !v.interfered {
      FailureIsAllOrNothing(k0, k, CoreOf(v, sid), owned, done, c);
      forall s | s in reverted
        ensures Gone(CoreOf(v, sid), s)
      {
        HandedBackIsGone(k0, CoreOf(v, sid), owned, s);
      }
    }
  }

  /** How far the hand-back has come, and that the report says so. */
  ghost predicate Underway(k0: Core, v: View, sid: Sid, owned: seq<Owned>, reverted: seq<Owned>, remains: seq<Owned>, done: seq<string>) {
    && (v.interfered || (Calm(v, sid) && Progress(k0, CoreOf(v, sid), owned, done)))
    && Divided(owned, reverted, remains, done) && forall d :: d in done ==> d in ConfigsOf(owned)
  }

  /** One more config, and the report of it. */
  method Advance(line: Line, report: Report, owned: seq<Owned>, c: string, ghost k0: Core, ghost done: seq<string>)
    returns (h: Handover)
    requires line.Valid() && report.Valid() && c !in done && c in ConfigsOf(owned)
    requires Underway(k0, line.Seen(), line.sid, owned, report.reverted, report.Remains(), done)
    modifies line`cancelled, line`timerLost, line`mishaps, line`interfered, line`dropped, line.dev
    modifies report`reverted, report`left, report`errors, report.sections
    ensures line.Valid() && report.Valid()
    ensures h == Returned ==>
              Underway(k0, line.Seen(), line.sid, owned, report.reverted, report.Remains(), done + [c])
              && report.errors == old(report.errors)
    ensures Onward(old(line.Seen()), line.Seen()) && (line.Seen().Clean() ==> h == Returned)
    ensures old(report.errors) == [] ==> Explains(owned, c, h, report.errors)
    ensures h != Returned ==> line.interfered || h != StageFailed || At(CoreOf(line.Seen(), line.sid), c) == At(k0, c)
    ensures h != Returned ==>
              && Honest(k0, line.Seen(), line.sid, owned, report.reverted)
              && Divided(owned, report.reverted, report.Remains(), done) && report.errors != []
              && CleanedUp(line.Seen(), line.sid, c, report.errors)
  {
    ghost var k := CoreOf(line.Seen(), line.sid);
    var problems;
    h, problems := HandBack(line, owned, c);
    report.errors := report.errors + problems;
    if h != Returned {
      FailureIsHonest(k0, k, line.Seen(), line.sid, owned, report.reverted, report.Remains(), done, c, h);
      return;
    }
    if !line.interfered {
      HandedBackIsProgress(k0, k, CoreOf(line.Seen(), line.sid), owned, done, c);
    }
    DividedOneMore(owned, report.reverted, report.Remains(), done, c);
    Record(report, owned, c);
  }

  method Record(report: Report, owned: seq<Owned>, c: string)
    requires report.Valid()
    modifies report`reverted, report`left, report.sections
    ensures report.Valid() && report.reverted == old(report.reverted) + InConfig(owned, c)
    ensures report.Remains() == OutsideConfig(old(report.Remains()), c)
  {
    var group := SectionsInConfig(owned, c);
    report.reverted := report.reverted + group;
    report.left := RemoveSections(report.sections, report.left, c);
  }

  /**
   At every return what is reverted and what remains make up what was owned; unless
   somebody else interfered, nothing reverted is still committed and no config is half
   handed back; and the footprint was touched only with every owned section gone.
   */
  method Unadopt(line: Option<Line>, owned: seq<Owned>, operator: bool, removal: bool) returns (report: Report, verdict: Verdict, ghost touched: bool)
    requires line.Some? ==> line.value.Valid() && Calm(line.value.Seen(), line.value.sid)
                            && Sensible(CoreOf(line.value.Seen(), line.value.sid))
    modifies if line.Some? then {line.value, line.value.dev} else {}
    ensures report.Valid() && fresh(report) && fresh(report.sections)
    ensures multiset(report.reverted) + multiset(report.Remains()) == multiset(owned)
    ensures line.Some? ==> line.value.Valid()
    ensures line.Some? ==> Honest(CoreOf(old(line.value.Seen()), line.value.sid), line.value.Seen(), line.value.sid, owned, report.reverted)
    ensures touched ==> report.Remains() == [] && report.configRevertComplete && (line.None? ==> owned == [])
    ensures touched && line.Some? ==>
              line.value.interfered || forall s :: s in owned ==> Gone(CoreOf(line.value.Seen(), line.value.sid), s)
    ensures Footprint(report, touched, removal, verdict)
    ensures report.configRevertComplete ==> touched == operator && (verdict == OperatorRequired <==> !operator) && report.Remains() == []
    ensures !report.configRevertComplete ==> !touched && (verdict == NoController || verdict.NotStaged? || verdict.NotProven?)
    ensures line.None? ==> (verdict == NoController <==> owned != []) && (verdict == NoController ==> report.errors == [ControllerMissing])
    ensures line.Some? ==> Accounts(CoreOf(old(line.value.Seen()), line.value.sid), line.value.Seen(), line.value.sid, owned, verdict,
                                    report.errors)
    ensures line.Some? && line.value.Seen().Clean() ==> report.configRevertComplete
    ensures line.Some? && (verdict.NotStaged? || verdict.NotProven?) ==>
              CleanedUp(line.value.Seen(), line.value.sid, verdict.config, report.errors)
  {
    report := new Report(owned);
    verdict := HandBackAll(line, report, owned);
    touched := false;
    if report.configRevertComplete {
      verdict, touched := RemoveFootprint(report, operator, removal);
    }
  }

  /** The first half: every config, or the first that fails. Without a controller only nothing can be handed back. */
  method HandBackAll(line: Option<Line>, report: Report, owned: seq<Owned>) returns (verdict: Verdict)
    requires line.Some? ==> line.value.Valid() && Calm(line.value.Seen(), line.value.sid)
                            && Sensible(CoreOf(line.value.Seen(), line.value.sid))
    requires report.Valid() && report.reverted == [] && report.Remains() == owned && report.errors == [] && !report.configRevertComplete
    modifies report`reverted, report`left, report`errors, report`configRevertComplete, report.sections
    modifies if line.Some? then {line.value, line.value.dev} else {}
    ensures report.Valid() && multiset(report.reverted) + multiset(report.Remains()) == multiset(owned)
    ensures line.Some? ==>
              && line.value.Valid()
              && Returning(CoreOf(old(line.value.Seen()), line.value.sid), line.value.Seen(), line.value.sid, owned, report.reverted,
                           verdict, report.errors)
    ensures report.configRevertComplete <==> verdict == Done
    ensures verdict == Done ==> report.Remains() == [] && report.errors == []
    ensures line.None? ==> verdict == (if owned == [] then Done else NoController)
                           && report.errors == if owned == [] then [] else [ControllerMissing]
  {
    if line.Some? {
      verdict := RevertAll(line.value, report, owned);
    } else if owned == [] {
      verdict := Done;
    } else {
      report.errors := [ControllerMissing];
      verdict := NoController;
    }
    report.configRevertComplete := verdict == Done;
  }

  /** The last step: login and ACL, if there is somebody to remove them. */
  method RemoveFootprint(report: Report, operator: bool, removal: bool) returns (verdict: Verdict, ghost touched: bool)
    requires !report.loginRemoved && !report.aclRemoved && report.footprintRemains && report.errors == []
    modifies report`loginRemoved, report`aclRemoved, report`errors, report`footprintRemains
    ensures touched == operator && Footprint(report, touched, removal, verdict) && (!operator ==> verdict == OperatorRequired)
  {
    touched := operator;
    if !operator {
      return OperatorRequired, touched;
    }
    if removal {
      report.loginRemoved, report.aclRemoved := true, true;
    } else {
      report.errors := report.errors + [FootprintFailed];
    }
    report.footprintRemains := !report.loginRemoved || !report.aclRemoved;
    verdict := if report.errors == [] then Done else WithErrors;
  }

  /** The report says of login, ACL and footprint what the removal answered, if there was one. */
  predicate Footprint(report: Report, touched: bool, removal: bool, verdict: Verdict)
    reads report
  {
    if touched then
      && report.loginRemoved == removal && report.aclRemoved == removal && report.footprintRemains == !removal
      && report.errors == (if removal then [] else [FootprintFailed])
      && verdict == if removal then Done else WithErrors
    else
      && !report.loginRemoved && !report.aclRemoved && report.footprintRemains
      && FootprintFailed !in report.errors && verdict != Done && verdict != WithErrors
      && (verdict == OperatorRequired ==> report.errors == [])
  }

  /** A config that could not be marked is as it was; one whose commit was not answered is named as such. */
  ghost predicate Accounts(k0: Core, v: View, sid: Sid, owned: seq<Owned>, verdict: Verdict, errors: seq<Problem>) {
    match verdict
    case NotStaged(c) => Explains(owned, c, StageFailed, errors) && (v.interfered || At(CoreOf(v, sid), c) == At(k0, c))
    case NotProven(c) => Explains(owned, c, CommitUnproven, errors)
    case _ => true
  }

  /** What a return from handing back says of the device, and of what went wrong. */
  ghost predicate Returning(k0: Core, v: View, sid: Sid, owned: seq<Owned>, reverted: seq<Owned>, verdict: Verdict, errors: seq<Problem>) {
    var honest := Honest(k0, v, sid, owned, reverted);
    var done := verdict == Done ==> v.interfered || forall s :: s in owned ==> Gone(CoreOf(v, sid), s);
    var failed := && (verdict != Done ==> (verdict.NotStaged? || verdict.NotProven?) && CleanedUp(v, sid, verdict.config, errors))
                  && (v.Clean() ==> verdict == Done);
    honest && done && failed && Accounts(k0, v, sid, owned, verdict, errors)
  }

  method RevertAll(line: Line, report: Report, owned: seq<Owned>) returns (verdict: Verdict)
    requires line.Valid() && report.Valid() && Calm(line.Seen(), line.sid) && Sensible(CoreOf(line.Seen(), line.sid))
    requires report.reverted == [] && report.Remains() == owned && report.errors == []
    modifies line`cancelled, line`timerLost, line`mishaps, line`interfered, line`dropped, line.dev
    modifies report`reverted, report`left, report`errors, report.sections
    ensures line.Valid() && report.Valid()
    ensures multiset(report.reverted) + multiset(report.Remains()) == multiset(owned)
    ensures verdict == Done ==> report.Remains() == [] && report.errors == []
    ensures Returning(CoreOf(old(line.Seen()), line.sid), line.Seen(), line.sid, owned, report.reverted, verdict, report.errors)
  {
    ghost var k0 := CoreOf(line.Seen(), line.sid);
    var configs := DistinctConfigs(owned);
    ConfigsAreDistinct(owned);
    for i := 0 to |configs|
      invariant line.Valid() && report.Valid() && report.errors == [] && Onward(old(line.Seen()), line.Seen())
      invariant Underway(k0, line.Seen(), line.sid, owned, report.reverted, report.Remains(), configs[..i])
    {
      var c := configs[i];
      NextConfig(configs, i);
      var h := Advance(line, report, owned, c, k0, configs[..i]);
      if h == StageFailed {
        return NotStaged(c);
      }
      if h == CommitUnproven {
        return NotProven(c);
      }
    }
    assert configs[..|configs|] == configs;
    AllDone(k0, line.Seen(), line.sid, owned, report.reverted, report.Remains(), configs);
    verdict := Done;
  }

  lemma NextConfig(configs: seq<string>, i: nat)
    requires i < |configs| && forall i, j :: 0 <= i < j < |configs| ==> configs[i] != configs[j]
    ensures configs[i] in configs && configs[i] !in configs[..i] && configs[..i + 1] == configs[..i] + [configs[i]]
  {}

  lemma AllDone(k0: Core, v: View, sid: Sid, owned: seq<Owned>, reverted: seq<Owned>, remains: seq<Owned>, done: seq<string>)
    requires Underway(k0, v, sid, owned, reverted, remains, done) && forall s :: s in owned ==> s.config in done
    ensures Honest(k0, v, sid, owned, reverted) && remains == []
    ensures v.interfered || forall s :: s in owned ==> Gone(CoreOf(v, sid), s)
  {
    ProgressIsHonest(k0, v, sid, owned, reverted, remains, done);
    NothingRemains(owned, reverted, remains, done);
  }

  lemma PartsAreOwned(owned: seq<Owned>, reverted: seq<Owned>, remains: seq<Owned>)
    requires multiset(reverted) + multiset(remains) == multiset(owned)
    ensures forall s :: s in remains ==> s in owned
    ensures forall s :: s in owned ==> s in reverted || s in remains
  {
    forall s | s in remains
      ensures s in owned
    {
      assert s in multiset(remains);
      assert s in multiset(owned);
    }
    forall s | s in owned
      ensures s in reverted || s in remains
    {
      assert s in multiset(owned);
      assert s in multiset(reverted) || s in multiset(remains);
    }
  }

  lemma NothingRemains(owned: seq<Owned>, reverted: seq<Owned>, remains: seq<Owned>, done: seq<string>)
    requires Divided(owned, reverted, remains, done) && forall s :: s in owned ==> s.config in done
    ensures remains == [] && forall s :: s in owned ==> s in reverted
  {
    assert remains == [] || remains[0] in remains;
    PartsAreOwned(owned, reverted, remains);
  }
}
