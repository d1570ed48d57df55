/** Plans of internal/applyengine/plan.go and what staging one of them piles up. */
module Plans {
  import opened Options
  import opened UciDevice
  import opened Link

  const OWNERSHIP_TAG := "oonfeewrt"
  const UPLINK_PREFIX := "oowrt_up"
  const DEFAULT_TIMEOUT: nat := 90_000

  datatype OpKind = OpAdd | OpSet | OpDelete | OpOther

  datatype Op = Op(
    kind: OpKind, config: string, section: string, typ: string, name: string,
    values: map<string, string>, lists: map<string, seq<string>>, option: string, patch: bool)

  /** Durations and instants are milliseconds. */
  datatype Plan = Plan(ops: seq<Op>, timeout: int, acknowledged: bool)

  type Key = (string, string, string)

  function Window(plan: Plan): (w: nat)
    ensures w > 0 && (plan.timeout > 0 ==> w == plan.timeout) && (plan.timeout <= 0 ==> w == 90_000)
  {
    if plan.timeout <= 0 then DEFAULT_TIMEOUT else plan.timeout
  }

  /** The device is told whole seconds. */
  function WholeSeconds(millis: nat): (s: nat)
    ensures s % 1000 == 0 && s <= millis < s + 1000
  {
    millis / 1000 * 1000
  }

  // ---- configs --------------------------------------------------------

  function Configs(ops: seq<Op>): seq<string> {
    if |ops| == 0 then [] else
    var earlier := Configs(ops[..|ops| - 1]);
    if ops[|ops| - 1].config in earlier then earlier else earlier + [ops[|ops| - 1].config]
  }

  lemma {:induction false} ConfigsAreTheConfigs(ops: seq<Op>)
    ensures forall c :: c in Configs(ops) <==> exists i :: 0 <= i < |ops| && ops[i].config == c
    ensures forall i, j :: 0 <= i < j < |Configs(ops)| ==> Configs(ops)[i] != Configs(ops)[j]
  {
    if |ops| > 0 {
      var init := ops[..|ops| - 1];
      ConfigsAreTheConfigs(init);
      forall c
        ensures c in Configs(ops) <==> exists i :: 0 <= i < |ops| && ops[i].config == c
      {
        if c in Configs(init) {
          var i :| 0 <= i < |init| && init[i].config == c;
          assert ops[i].config == c;
        }
        if i :| 0 <= i < |ops| && ops[i].config == c {
          if i < |init| {
            assert init[i].config == c;
          }
        }
      }
    }
  }

  method DistinctConfigs(ops: seq<Op>) returns (out: seq<string>)
    ensures out == Configs(ops)
  {
    var seen: set<string> := {};
    out := [];
    for i := 0 to |ops|
      invariant out == Configs(ops[..i]) && seen == set c | c in out
    {
      assert ops[..i + 1][..i] == ops[..i];
      if ops[i].config !in seen {
        seen := seen + {ops[i].config};
        out := out + [ops[i].config];
      }
    }
    assert ops[..|ops|] == ops;
  }

  // ---- the management path --------------------------------------------

  predicate IsUplinkSection(config: string, section: string) {
    config == "wireless" && UPLINK_PREFIX <= section
  }

  predicate TouchesManagementPath(ops: seq<Op>) {
    exists i :: 0 <= i < |ops| && OnManagementPath(ops[i])
  }

  predicate OnManagementPath(op: Op) {
    op.config == "network" || op.config == "firewall" || IsUplinkSection(op.config, op.section)
  }

  // ---- staging --------------------------------------------------------

  function WithOwnership(values: map<string, string>): map<string, string> {
    values[OWNERSHIP_TAG := "1"]
  }

  /** List options are laid over the values. */
  function WithLists(values: map<string, string>, lists: map<string, seq<string>>): Section {
    (map k | k in values :: Text(values[k])) + (map k | k in lists :: Items(lists[k]))
  }

  predicate WellShaped(op: Op) {
    match op.kind
    case OpAdd => !op.patch
    case OpSet =>
      !(op.patch && (op.section == "" || op.typ != "" || op.name != "" || |op.values| == 0
                     || |op.lists| != 0 || OWNERSHIP_TAG in op.values))
    case OpDelete => !op.patch
    case OpOther => false
  }

  predicate Shaped(ops: seq<Op>) {
    forall i :: 0 <= i < |ops| ==> WellShaped(ops[i])
  }

  /** The delta an operation stages; `name` is what an unnamed new section came to be called. */
  function DeltaOf(op: Op, name: string): Delta {
    match op.kind
    case OpAdd => Add(name, op.typ, WithLists(WithOwnership(op.values), op.lists))
    case OpSet => Set(op.section, "", WithLists(if op.patch then op.values else WithOwnership(op.values), op.lists))
    case OpDelete => if op.option == "" then Delete(op.section) else Unset(op.section, op.option)
    case OpOther => Delete(op.section)
  }

  /** `names` answers the device's choice for each operation that left the choice to it. */
  predicate Names(ops: seq<Op>, names: seq<string>) {
    |names| == |ops| && forall i :: 0 <= i < |ops| && ops[i].name != "" ==> names[i] == ops[i].name
  }

  /** The deltas of the operations on one config, in staging order. */
  function PileFor(ops: seq<Op>, names: seq<string>, c: string): seq<Delta>
    requires |names| == |ops|
  {
    if |ops| == 0 then [] else
    var n := |ops| - 1;
    PileFor(ops[..n], names[..n], c) + if ops[n].config == c then [DeltaOf(ops[n], names[n])] else []
  }

  function PlanDeltas(ops: seq<Op>, names: seq<string>): Deltas
    requires |names| == |ops|
  {
    map c | c in Configs(ops) :: PileFor(ops, names, c)
  }

  lemma {:induction false} PileForNobody(ops: seq<Op>, names: seq<string>, c: string)
    requires |names| == |ops|
    ensures c in Configs(ops) <==> PileFor(ops, names, c) != []
  {
    if |ops| > 0 {
      PileForNobody(ops[..|ops| - 1], names[..|ops| - 1], c);
    }
  }

  lemma PlanDeltasCoverTheConfigs(ops: seq<Op>, names: seq<string>)
    requires |names| == |ops|
    ensures PlanDeltas(ops, names).Keys == set c | c in Configs(ops)
    ensures forall c :: c in PlanDeltas(ops, names) ==> PlanDeltas(ops, names)[c] != []
  {
    forall c | c in Configs(ops)
      ensures PileFor(ops, names, c) != []
    {
      PileForNobody(ops, names, c);
    }
  }

  /** Staging one more operation is what the device does to a delta. */
  lemma StagingOneMore(ops: seq<Op>, names: seq<string>, op: Op, name: string)
    requires |names| == |ops|
    ensures var earlier := PlanDeltas(ops, names);
            PlanDeltas(ops + [op], names + [name])
            == earlier[op.config := (if op.config in earlier then earlier[op.config] else []) + [DeltaOf(op, name)]]
  {
    assert (ops + [op])[..|ops|] == ops && (names + [name])[..|ops|] == names;
    PileForNobody(ops, names, op.config);
    var earlier, later := PlanDeltas(ops, names), PlanDeltas(ops + [op], names + [name]);
    var want := earlier[op.config := (if op.config in earlier then earlier[op.config] else []) + [DeltaOf(op, name)]];
    assert later.Keys == want.Keys;
    forall c | c in later
      ensures later[c] == want[c]
    {
      assert later[c] == PileFor(ops, names, c) + if op.config == c then [DeltaOf(op, name)] else [];
    }
  }

  // ---- what the verdict can be read from --------------------------------

  function Resolved(op: Op): string {
    if op.section == "" then op.name else op.section
  }

  predicate Readable(op: Op) {
    op.kind != OpDelete && |op.values| > 0 && Resolved(op) != ""
  }

  function KeyOf(op: Op, k: string): Key {
    (op.config, Resolved(op), k)
  }

  type Snapshot = map<Key, Option<string>>

  /** An option votes when what it held before is known and is not what the plan writes. */
  predicate Votes(op: Op, before: Snapshot, k: string) {
    && Readable(op) && k in op.values && KeyOf(op, k) in before
    && before[KeyOf(op, k)] != Some(op.values[k])
  }

  predicate VotesAmong(op: Op, before: Snapshot, keys: set<string>) {
    exists k :: k in keys && Votes(op, before, k)
  }

  predicate OpVotes(op: Op, before: Snapshot) {
    VotesAmong(op, before, op.values.Keys)
  }

  predicate VoteBelow(ops: seq<Op>, n: nat, before: Snapshot)
    requires n <= |ops|
  {
    exists i :: 0 <= i < n && OpVotes(ops[i], before)
  }

  predicate SomeVote(ops: seq<Op>, before: Snapshot) {
    VoteBelow(ops, |ops|, before)
  }

  function ReadFrom(store: Store, key: Key, blank: bool): Reading {
    ReadOption(if key.0 in store then Some(store[key.0]) else None, key.1, key.2, blank)
  }

  /** The vote of option `k` tells the new state from the old: in `post` it holds what was written. */
  predicate Tells(op: Op, before: Snapshot, k: string, post: Store, blank: bool) {
    Votes(op, before, k) && ReadFrom(post, KeyOf(op, k), blank) == Got(op.values[k])
  }

  predicate TellsAmong(op: Op, before: Snapshot, keys: set<string>, post: Store, blank: bool) {
    exists k :: k in keys && Tells(op, before, k, post, blank)
  }

  predicate OpTells(op: Op, before: Snapshot, post: Store, blank: bool) {
    TellsAmong(op, before, op.values.Keys, post, blank)
  }

  predicate TellsBelow(ops: seq<Op>, n: nat, before: Snapshot, post: Store, blank: bool)
    requires n <= |ops|
  {
    exists i :: 0 <= i < n && OpTells(ops[i], before, post, blank)
  }

  predicate SomeVoteTells(ops: seq<Op>, before: Snapshot, post: Store, blank: bool) {
    TellsBelow(ops, |ops|, before, post, blank)
  }

  predicate ReadsOtherwise(r: Reading, want: string) {
    r != Unreadable && r != Got(want)
  }

  /** The vote of option `k`, if it has one, is fooled by `post`: what is read there is not what was written. */
  predicate Fooled(op: Op, before: Snapshot, k: string, post: Store, blank: bool) {
    Votes(op, before, k) ==> ReadsOtherwise(ReadFrom(post, KeyOf(op, k), blank), op.values[k])
  }

  predicate FooledAmong(op: Op, before: Snapshot, keys: set<string>, post: Store, blank: bool) {
    forall k :: k in keys ==> Fooled(op, before, k, post, blank)
  }

  predicate OpFooled(op: Op, before: Snapshot, post: Store, blank: bool) {
    FooledAmong(op, before, op.values.Keys, post, blank)
  }

  predicate FooledBelow(ops: seq<Op>, n: nat, before: Snapshot, post: Store, blank: bool)
    requires n <= |ops|
  {
    forall i :: 0 <= i < n ==> OpFooled(ops[i], before, post, blank)
  }

  predicate AllFooled(ops: seq<Op>, before: Snapshot, post: Store, blank: bool) {
    FooledBelow(ops, |ops|, before, post, blank)
  }

  /** Every vote is fooled exactly if none tells and every option that votes can be read. */
  lemma FooledMeansNoneTells(ops: seq<Op>, before: Snapshot, post: Store, blank: bool)
    ensures AllFooled(ops, before, post, blank) <==>
            && !SomeVoteTells(ops, before, post, blank)
            && forall i, k :: 0 <= i < |ops| && k in ops[i].values && Votes(ops[i], before, k) ==>
                                ReadFrom(post, KeyOf(ops[i], k), blank) != Unreadable
  {
    if AllFooled(ops, before, post, blank) {
      forall i | 0 <= i < |ops|
        ensures !OpTells(ops[i], before, post, blank)
      {
        assert OpFooled(ops[i], before, post, blank);
        assert forall k :: k in ops[i].values.Keys ==> Fooled(ops[i], before, k, post, blank);
      }
    }
    if !SomeVoteTells(ops, before, post, blank)
       && forall i, k :: 0 <= i < |ops| && k in ops[i].values && Votes(ops[i], before, k) ==>
                           ReadFrom(post, KeyOf(ops[i], k), blank) != Unreadable {
      forall i | 0 <= i < |ops|
        ensures OpFooled(ops[i], before, post, blank)
      {
        assert !OpTells(ops[i], before, post, blank);
        assert forall k :: k in ops[i].values.Keys ==> !Tells(ops[i], before, k, post, blank);
      }
    }
  }

  function OpKeys(op: Op): set<Key> {
    if Readable(op) then set k | k in op.values :: KeyOf(op, k) else {}
  }

  function PlanKeys(ops: seq<Op>): set<Key> {
    set i, k | 0 <= i < |ops| && k in OpKeys(ops[i]) :: k
  }

  /** What the readable ones among `keys` hold in `store`. */
  function SnapshotOf(keys: set<Key>, store: Store, blank: bool): Snapshot {
    map key | key in keys && ReadFrom(store, key, blank) != Unreadable ::
      match ReadFrom(store, key, blank) case Got(v) => Some(v) case _ => None
  }

  lemma OneMoreVoter(op: Op, before: Snapshot, keys: set<string>, k: string, post: Store, blank: bool)
    ensures VotesAmong(op, before, keys + {k}) <==> VotesAmong(op, before, keys) || Votes(op, before, k)
    ensures FooledAmong(op, before, keys + {k}, post, blank) <==>
              FooledAmong(op, before, keys, post, blank) && Fooled(op, before, k, post, blank)
  {}

  // ---- which plans keep their votes -------------------------------------

  /** A delta leaves `section.option` holding `want` if it held it. */
  predicate Spares(d: Delta, section: string, option: string, want: string) {
    match d
    case Add(s, _, values) => s != section || (option in values && values[option] == Text(want))
    case Set(s, kind, values) =>
      s != section || (if option in values then values[option] == Text(want) else kind == "" || option != TYPE)
    case Delete(s) => s != section
    case Unset(s, o) => s != section || o != option
  }

  /** A delta writes `want` into `section.option`. */
  predicate Writes(d: Delta, section: string, option: string, want: string) {
    match d
    case Add(s, _, values) => s == section && option in values && values[option] == Text(want)
    case Set(s, _, values) => s == section && option in values && values[option] == Text(want)
    case Delete(_) => false
    case Unset(_, _) => false
  }

  /** Operation `i` writes its value of `k` where it will be looked for, and no later one undoes it. */
  predicate Survives(ops: seq<Op>, names: seq<string>, i: nat, k: string)
    requires i < |ops| == |names| && k in ops[i].values
  {
    var want := ops[i].values[k];
    && Writes(DeltaOf(ops[i], names[i]), Resolved(ops[i]), k, want)
    && forall j :: i < j < |ops| && ops[j].config == ops[i].config ==>
         Spares(DeltaOf(ops[j], names[j]), Resolved(ops[i]), k, want)
  }

  lemma SurvivorIsCommitted(pre: Store, ops: seq<Op>, names: seq<string>, i: nat, k: string, blank: bool)
    requires i < |ops| == |names| && k in ops[i].values && Survives(ops, names, i, k)
    ensures ReadFrom(CommitAll(pre, PlanDeltas(ops, names)), KeyOf(ops[i], k), blank) == Got(ops[i].values[k])
  {
    var c := ops[i].config;
    ConfigsAreTheConfigs(ops);
    assert c in Configs(ops);
    PileForNobody(ops, names, c);
    SurvivorIsLaid(ConfigOr(pre, c), ops, names, i, k);
  }

  lemma {:induction false} SurvivorIsLaid(cfg: Config, ops: seq<Op>, names: seq<string>, i: nat, k: string)
    requires i < |ops| == |names| && k in ops[i].values && Survives(ops, names, i, k)
    ensures Holds(Overlay(cfg, PileFor(ops, names, ops[i].config)), Resolved(ops[i]), k, ops[i].values[k])
    decreases |ops|
  {
    var n := |ops| - 1;
    var c := ops[i].config;
    var below, last := PileFor(ops[..n], names[..n], c), DeltaOf(ops[n], names[n]);
    if ops[n].config == c {
      assert (below + [last])[..|below|] == below;
    }
    if i == n {
      WritingHolds(Overlay(cfg, below), last, Resolved(ops[i]), k, ops[i].values[k]);
    } else {
      assert Survives(ops[..n], names[..n], i, k);
      SurvivorIsLaid(cfg, ops[..n], names[..n], i, k);
      if ops[n].config == c {
        SparingHolds(Overlay(cfg, below), last, Resolved(ops[i]), k, ops[i].values[k]);
      } else {
        assert PileFor(ops, names, c) == below;
      }
    }
  }

  predicate Holds(cfg: Config, section: string, option: string, want: string) {
    section in cfg && option in cfg[section] && cfg[section][option] == Text(want)
  }

  lemma WritingHolds(cfg: Config, d: Delta, section: string, option: string, want: string)
    requires Writes(d, section, option, want)
    ensures Holds(ApplyDelta(cfg, d), section, option, want)
  {}

  lemma SparingHolds(cfg: Config, d: Delta, section: string, option: string, want: string)
    requires Spares(d, section, option, want) && Holds(cfg, section, option, want)
    ensures Holds(ApplyDelta(cfg, d), section, option, want)
  {}

  // ---- which plans fool their votes ---------------------------------------

  /** Reading the option of this config finds no planned value, and finds it out. */
  predicate Lacks(cfg: Config, section: string, option: string, want: string, blank: bool) {
    ReadsOtherwise(ReadOption(Some(cfg), section, option, blank), want)
  }

  /** A delta that takes the value away, whatever was there: the section or option deleted, or another text written. */
  predicate Ruins(d: Delta, section: string, option: string, want: string) {
    match d
    case Add(s, kind, values) => s == section && Rewrites(if option in values then Some(values[option]) else if option == TYPE then Some(Text(kind)) else None, want)
    case Set(s, _, values) => s == section && option in values && Rewrites(Some(values[option]), want)
    case Delete(s) => s == section
    case Unset(s, o) => s == section && o == option
  }

  predicate Rewrites(v: Option<Value>, want: string) {
    v.None? || (v.value.Text? && v.value.text != want)
  }

  /** A delta that does not bring the value back, once it is gone. */
  predicate LeavesRuined(d: Delta, section: string, option: string, want: string) {
    match d
    case Add(s, kind, values) =>
      s != section || Rewrites(if option in values then Some(values[option]) else if option == TYPE then Some(Text(kind)) else None, want)
    case Set(s, kind, values) =>
      s != section || (if option in values then Rewrites(Some(values[option]), want) else option != TYPE)
    case Delete(_) => true
    case Unset(_, _) => true
  }

  /** Some later operation takes away what operation `i` wrote into `k`, and none brings it back. */
  predicate Undone(ops: seq<Op>, names: seq<string>, i: nat, k: string)
    requires i < |ops| == |names| && k in ops[i].values
  {
    exists j :: i < j < |ops| && UndoneBy(ops, names, i, k, j)
  }

  predicate UndoneBy(ops: seq<Op>, names: seq<string>, i: nat, k: string, j: nat)
    requires i < j < |ops| == |names| && k in ops[i].values
  {
    var want := ops[i].values[k];
    && ops[j].config == ops[i].config && Ruins(DeltaOf(ops[j], names[j]), Resolved(ops[i]), k, want)
    && forall m :: j < m < |ops| && ops[m].config == ops[i].config ==>
                     LeavesRuined(DeltaOf(ops[m], names[m]), Resolved(ops[i]), k, want)
  }

  lemma RuiningLacks(cfg: Config, d: Delta, section: string, option: string, want: string, blank: bool)
    requires Ruins(d, section, option, want) && (want != "" || !blank)
    ensures Lacks(ApplyDelta(cfg, d), section, option, want, blank)
  {}

  lemma StillLacks(cfg: Config, d: Delta, section: string, option: string, want: string, blank: bool)
    requires LeavesRuined(d, section, option, want) && Lacks(cfg, section, option, want, blank) && (want != "" || !blank)
    ensures Lacks(ApplyDelta(cfg, d), section, option, want, blank)
  {}

  lemma {:induction false} UndoneIsLacking(cfg: Config, ops: seq<Op>, names: seq<string>, i: nat, k: string, j: nat, blank: bool)
    requires i < j < |ops| == |names| && k in ops[i].values && UndoneBy(ops, names, i, k, j)
    requires ops[i].values[k] != "" || !blank
    ensures Lacks(Overlay(cfg, PileFor(ops, names, ops[i].config)), Resolved(ops[i]), k, ops[i].values[k], blank)
    decreases |ops|
  {
    var n := |ops| - 1;
    var c := ops[i].config;
    var below, last := PileFor(ops[..n], names[..n], c), DeltaOf(ops[n], names[n]);
    if ops[n].config == c {
      assert (below + [last])[..|below|] == below;
    }
    if j == n {
      RuiningLacks(Overlay(cfg, below), last, Resolved(ops[i]), k, ops[i].values[k], blank);
    } else {
      assert UndoneBy(ops[..n], names[..n], i, k, j);
      UndoneIsLacking(cfg, ops[..n], names[..n], i, k, j, blank);
      if ops[n].config == c {
        StillLacks(Overlay(cfg, below), last, Resolved(ops[i]), k, ops[i].values[k], blank);
      } else {
        assert PileFor(ops, names, c) == below;
      }
    }
  }

  /** Every option that votes is deleted, unset or rewritten later in the plan. */
  predicate AllUndone(ops: seq<Op>, names: seq<string>, before: Snapshot, blank: bool)
    requires |names| == |ops|
  {
    forall i, k :: 0 <= i < |ops| && k in ops[i].values && Votes(ops[i], before, k) ==>
                     Undone(ops, names, i, k) && (ops[i].values[k] != "" || !blank)
  }

  /**
   A plan that later deletes, unsets or rewrites every option that votes leaves no vote that
   could tell: each of them is fooled by the very state the apply leaves behind.
   */
  lemma RewrittenOptionsCannotTell(pre: Store, ops: seq<Op>, names: seq<string>, before: Snapshot, blank: bool)
    requires |names| == |ops| && AllUndone(ops, names, before, blank)
    ensures AllFooled(ops, before, CommitAll(pre, PlanDeltas(ops, names)), blank)
  {
    var post := CommitAll(pre, PlanDeltas(ops, names));
    forall i, k | 0 <= i < |ops| && k in ops[i].values.Keys
      ensures Fooled(ops[i], before, k, post, blank)
    {
      if Votes(ops[i], before, k) {
        assert Undone(ops, names, i, k);
        UndoneIsFooled(pre, ops, names, before, i, k, blank, post);
      }
    }
  }

  lemma UndoneIsFooled(pre: Store, ops: seq<Op>, names: seq<string>, before: Snapshot, i: nat, k: string, blank: bool, post: Store)
    requires i < |ops| == |names| && k in ops[i].values && Undone(ops, names, i, k) && (ops[i].values[k] != "" || !blank)
    requires post == CommitAll(pre, PlanDeltas(ops, names))
    ensures Fooled(ops[i], before, k, post, blank)
  {
    var j :| i < j < |ops| && UndoneBy(ops, names, i, k, j);
    var c := ops[i].config;
    PlanIsLaid(pre, ops, names, i);
    UndoneIsLacking(ConfigOr(pre, c), ops, names, i, k, j, blank);
  }

  /** What the plan leaves of the config of one of its operations. */
  lemma PlanIsLaid(pre: Store, ops: seq<Op>, names: seq<string>, i: nat)
    requires i < |ops| == |names|
    ensures var post, c := CommitAll(pre, PlanDeltas(ops, names)), ops[i].config;
            c in post && post[c] == Overlay(ConfigOr(pre, c), PileFor(ops, names, c))
  {
    ConfigsAreTheConfigs(ops);
    assert ops[i].config in Configs(ops);
    PileForNobody(ops, names, ops[i].config);
  }

  lemma DeleteUndoes(op: Op, del: Op, k: string)
    requires op.section != "" && k in op.values
    requires del.kind == OpDelete && del.config == op.config && del.section == op.section && del.option == ""
    ensures Undone([op, del], ["", ""], 0, k)
  {
    assert UndoneBy([op, del], ["", ""], 0, k, 1);
  }

  lemma SectionIsGone(op: Op, del: Op, pre: Store)
    requires del.kind == OpDelete && del.config == op.config && del.section == op.section && del.option == ""
    ensures var post := CommitAll(pre, PlanDeltas([op, del], ["", ""]));
            op.config in post && op.section !in post[op.config]
  {
    var ops, names, c := [op, del], ["", ""], op.config;
    var pile := PileFor(ops, names, c);
    PlanIsLaid(pre, ops, names, 0);
    assert pile == PileFor(ops[..1], names[..1], c) + [Delete(del.section)];
    assert pile[|pile| - 1] == Delete(del.section);
  }

  lemma DeleteUndoesAll(op: Op, del: Op, before: Snapshot, blank: bool)
    requires op.section != "" && del.kind == OpDelete && del.config == op.config && del.section == op.section && del.option == ""
    requires blank ==> forall k :: k in op.values ==> op.values[k] != ""
    ensures AllUndone([op, del], ["", ""], before, blank)
  {
    var ops, names := [op, del], ["", ""];
    forall i, k | 0 <= i < |ops| && k in ops[i].values && Votes(ops[i], before, k)
      ensures Undone(ops, names, i, k)
    {
      DeleteUndoes(op, del, k);
      assert i == 0;
    }
  }

  /** There are such plans: set an option of a section, then delete the section. */
  lemma SetThenDeleteCannotTell(op: Op, del: Op, pre: Store, before: Snapshot, blank: bool)
    requires op.kind == OpSet && Readable(op) && op.section != ""
    requires del.kind == OpDelete && del.config == op.config && del.section == op.section && del.option == ""
    requires before == SnapshotOf(PlanKeys([op, del]), pre, blank) && OpVotes(op, before)
    requires blank ==> forall k :: k in op.values ==> op.values[k] != ""
    ensures SomeVote([op, del], before)
    ensures AllFooled([op, del], before, CommitAll(pre, PlanDeltas([op, del], ["", ""])), blank)
    ensures op.config in pre && op.section in pre[op.config] ==> CommitAll(pre, PlanDeltas([op, del], ["", ""])) != pre
  {
    SectionIsGone(op, del, pre);
    assert OpVotes([op, del][0], before);
    DeleteUndoesAll(op, del, before, blank);
    RewrittenOptionsCannotTell(pre, [op, del], ["", ""], before, blank);
  }
}
