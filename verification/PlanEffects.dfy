/**
 What a plan leaves behind, said of every option of every section in the terms of the plan
 itself: what an operation writes, what it takes away, and what it does not touch.
 */
module PlanEffects {
  import opened Options
  import opened UciDevice
  import opened Link
  import opened Plans

  /** The option of a section of a config, if it is there. */
  function OptionAt(store: Store, c: string, section: string, option: string): Option<Value> {
    if c in store then OptionIn(store[c], section, option) else None
  }

  function OptionIn(cfg: Config, section: string, option: string): Option<Value> {
    if section in cfg && option in cfg[section] then Some(cfg[section][option]) else None
  }

  predicate HasSection(store: Store, c: string, section: string) {
    c in store && section in store[c]
  }

  // ---- what one operation says ------------------------------------------------

  /** The section an operation works on; a new one goes by the name it was given. */
  function Target(op: Op, name: string): string {
    if op.kind == OpAdd then name else op.section
  }

  /** A list overrides a value, the mark of ownership a value of that name, and a new section has its type. */
  function Written(op: Op, option: string): Option<Value> {
    if op.kind != OpAdd && op.kind != OpSet then None
    else if option in op.lists then Some(Items(op.lists[option]))
    else if option == "oonfeewrt" && !(op.kind == OpSet && op.patch) then Some(Text("1"))
    else if option in op.values then Some(Text(op.values[option]))
    else if op.kind == OpAdd && option == ".type" then Some(Text(op.typ))
    else None
  }

  /** Adding a section replaces whatever it held, deleting one takes everything, deleting an option that option alone. */
  predicate TakesAway(op: Op, option: string) {
    op.kind == OpAdd || (op.kind == OpDelete && (op.option == "" || op.option == option))
  }

  predicate Concerns(op: Op, name: string, c: string, section: string, option: string) {
    op.config == c && Target(op, name) == section && (Written(op, option).Some? || TakesAway(op, option))
  }

  predicate Removes(op: Op, section: string) {
    op.kind == OpDelete && op.section == section && op.option == ""
  }

  /** No operation from the nth on concerns the option. */
  predicate Final(ops: seq<Op>, names: seq<string>, n: nat, c: string, section: string, option: string)
    requires |names| == |ops|
  {
    forall j :: n <= j < |ops| ==> !Concerns(ops[j], names[j], c, section, option)
  }

  /** No operation from the nth on writes into the section. */
  predicate Deserted(ops: seq<Op>, names: seq<string>, n: nat, c: string, section: string)
    requires |names| == |ops|
  {
    forall j :: n <= j < |ops| && ops[j].config == c && Target(ops[j], names[j]) == section ==> ops[j].kind == OpDelete
  }

  // ---- what the plan leaves ---------------------------------------------------

  /** The last operation to concern an option decides what it holds. */
  ghost predicate LastWordStands(post: Store, ops: seq<Op>, names: seq<string>)
    requires |names| == |ops|
  {
    forall i, o :: 0 <= i < |ops| && Decides(ops, names, i, o) ==>
                     OptionAt(post, ops[i].config, Target(ops[i], names[i]), o) == Written(ops[i], o)
  }

  /** A section that springs up from a mere set is given a type of the device's own. */
  predicate Decides(ops: seq<Op>, names: seq<string>, i: nat, o: string)
    requires i < |ops| == |names|
  {
    && Concerns(ops[i], names[i], ops[i].config, Target(ops[i], names[i]), o)
    && Final(ops, names, i + 1, ops[i].config, Target(ops[i], names[i]), o)
    && (o != ".type" || Written(ops[i], o).Some?)
  }

  /** A section deleted and not written again is gone. */
  ghost predicate DeletedAreGone(post: Store, ops: seq<Op>, names: seq<string>)
    requires |names| == |ops|
  {
    forall i :: 0 <= i < |ops| && Removes(ops[i], ops[i].section) && Deserted(ops, names, i + 1, ops[i].config, ops[i].section) ==>
                  !HasSection(post, ops[i].config, ops[i].section)
  }

  /** What no operation concerns is as it was. */
  ghost predicate TheRestStays(pre: Store, post: Store, ops: seq<Op>, names: seq<string>)
    requires |names| == |ops|
  {
    forall c, s, o :: Final(ops, names, 0, c, s, o) && (o != ".type" || OptionAt(pre, c, s, o).Some?) ==>
                        OptionAt(post, c, s, o) == OptionAt(pre, c, s, o)
  }

  /** The whole plan is in the store, and nothing else has changed. */
  ghost predicate CarriedOut(pre: Store, post: Store, ops: seq<Op>, names: seq<string>) {
    && |names| == |ops|
    && LastWordStands(post, ops, names) && DeletedAreGone(post, ops, names) && TheRestStays(pre, post, ops, names)
  }

  // ---- one step ---------------------------------------------------------------

  lemma StepSettles(cfg: Config, op: Op, name: string, s: string, o: string)
    requires WellShaped(op) && Concerns(op, name, op.config, s, o) && (o != ".type" || Written(op, o).Some?)
    ensures OptionIn(ApplyDelta(cfg, DeltaOf(op, name)), s, o) == Written(op, o)
  {
    match op.kind
    case OpAdd => { AddSettles(cfg, op, name, o); }
    case OpSet => { SetSettles(cfg, op, name, o); }
    case OpDelete => {}
  }

  lemma AddSettles(cfg: Config, op: Op, name: string, o: string)
    requires WellShaped(op) && op.kind == OpAdd
    ensures OptionIn(ApplyDelta(cfg, DeltaOf(op, name)), name, o) == Written(op, o)
  {}

  lemma SetSettles(cfg: Config, op: Op, name: string, o: string)
    requires WellShaped(op) && op.kind == OpSet && Written(op, o).Some?
    ensures OptionIn(ApplyDelta(cfg, DeltaOf(op, name)), op.section, o) == Written(op, o)
  {}

  lemma StepSpares(cfg: Config, op: Op, name: string, s: string, o: string)
    requires WellShaped(op) && !Concerns(op, name, op.config, s, o) && (o != ".type" || OptionIn(cfg, s, o).Some?)
    ensures OptionIn(ApplyDelta(cfg, DeltaOf(op, name)), s, o) == OptionIn(cfg, s, o)
  {
    match op.kind
    case OpAdd => {}
    case OpSet => { SetSpares(cfg, op, name, s, o); }
    case OpDelete => {}
  }

  lemma SetSpares(cfg: Config, op: Op, name: string, s: string, o: string)
    requires WellShaped(op) && op.kind == OpSet && !Concerns(op, name, op.config, s, o) && (o != ".type" || OptionIn(cfg, s, o).Some?)
    ensures OptionIn(ApplyDelta(cfg, DeltaOf(op, name)), s, o) == OptionIn(cfg, s, o)
  {}

  /** What stands after the first n operations stands to the end, if no later one concerns it. */
  lemma {:induction false} StandsToTheEnd(cfg: Config, ops: seq<Op>, names: seq<string>, n: nat, c: string, s: string, o: string)
    requires n <= |ops| == |names| && Shaped(ops) && Final(ops, names, n, c, s, o)
    requires o != ".type" || OptionIn(Overlay(cfg, PileFor(ops[..n], names[..n], c)), s, o).Some?
    ensures OptionIn(Overlay(cfg, PileFor(ops, names, c)), s, o) == OptionIn(Overlay(cfg, PileFor(ops[..n], names[..n], c)), s, o)
    decreases |ops|
  {
    if n == |ops| {
      assert ops[..n] == ops && names[..n] == names;
    } else {
      var m := |ops| - 1;
      assert ops[..m][..n] == ops[..n] && names[..m][..n] == names[..n];
      StandsToTheEnd(cfg, ops[..m], names[..m], n, c, s, o);
      LastLaid(cfg, ops, names, c);
      if ops[m].config == c {
        StepSpares(Overlay(cfg, PileFor(ops[..m], names[..m], c)), ops[m], names[m], s, o);
      }
    }
  }

  lemma LastLaid(cfg: Config, ops: seq<Op>, names: seq<string>, c: string)
    requires 0 < |ops| == |names|
    ensures var m := |ops| - 1;
            var below := Overlay(cfg, PileFor(ops[..m], names[..m], c));
            Overlay(cfg, PileFor(ops, names, c)) == if ops[m].config == c then ApplyDelta(below, DeltaOf(ops[m], names[m])) else below
  {
    var m := |ops| - 1;
    var pile := PileFor(ops[..m], names[..m], c);
    if ops[m].config == c {
      assert (pile + [DeltaOf(ops[m], names[m])])[..|pile|] == pile;
    } else {
      assert pile + [] == pile;
    }
  }

  lemma StepStaysAway(cfg: Config, op: Op, name: string, s: string)
    requires s !in cfg && WellShaped(op) && (Target(op, name) == s ==> op.kind == OpDelete)
    ensures s !in ApplyDelta(cfg, DeltaOf(op, name))
  {}

  lemma {:induction false} StaysAway(cfg: Config, ops: seq<Op>, names: seq<string>, n: nat, c: string, s: string)
    requires n <= |ops| == |names| && Shaped(ops) && Deserted(ops, names, n, c, s)
    requires s !in Overlay(cfg, PileFor(ops[..n], names[..n], c))
    ensures s !in Overlay(cfg, PileFor(ops, names, c))
    decreases |ops|
  {
    if n == |ops| {
      assert ops[..n] == ops && names[..n] == names;
    } else {
      var m := |ops| - 1;
      assert ops[..m][..n] == ops[..n] && names[..m][..n] == names[..n];
      StaysAway(cfg, ops[..m], names[..m], n, c, s);
      LastLaid(cfg, ops, names, c);
      if ops[m].config == c {
        StepStaysAway(Overlay(cfg, PileFor(ops[..m], names[..m], c)), ops[m], names[m], s);
      }
    }
  }

  // ---- the whole plan ---------------------------------------------------------

  /** What committing the plan makes of a config, named by the plan or not. */
  lemma ConfigAfter(pre: Store, ops: seq<Op>, names: seq<string>, c: string)
    requires |names| == |ops|
    ensures var post := CommitAll(pre, PlanDeltas(ops, names));
            if c in Configs(ops) then c in post && post[c] == Overlay(ConfigOr(pre, c), PileFor(ops, names, c))
            else (c in post <==> c in pre) && (c in pre ==> post[c] == pre[c])
  {
    PileForNobody(ops, names, c);
  }

  lemma LaidInTheStore(pre: Store, ops: seq<Op>, names: seq<string>, c: string, s: string, o: string)
    requires |names| == |ops|
    ensures OptionAt(CommitAll(pre, PlanDeltas(ops, names)), c, s, o) == OptionIn(Overlay(ConfigOr(pre, c), PileFor(ops, names, c)), s, o)
  {
    ConfigAfter(pre, ops, names, c);
    PileForNobody(ops, names, c);
  }

  lemma SettledLast(cfg: Config, ops: seq<Op>, names: seq<string>, s: string, o: string)
    requires 0 < |ops| == |names| && Shaped(ops)
    requires var m := |ops| - 1; Concerns(ops[m], names[m], ops[m].config, s, o) && (o != ".type" || Written(ops[m], o).Some?)
    ensures OptionIn(Overlay(cfg, PileFor(ops, names, ops[|ops| - 1].config)), s, o) == Written(ops[|ops| - 1], o)
  {
    var m := |ops| - 1;
    LastLaid(cfg, ops, names, ops[m].config);
    StepSettles(Overlay(cfg, PileFor(ops[..m], names[..m], ops[m].config)), ops[m], names[m], s, o);
  }

  lemma LastWord(pre: Store, ops: seq<Op>, names: seq<string>, i: nat, o: string)
    requires i < |ops| == |names| && Shaped(ops) && Decides(ops, names, i, o)
    ensures OptionAt(CommitAll(pre, PlanDeltas(ops, names)), ops[i].config, Target(ops[i], names[i]), o) == Written(ops[i], o)
  {
    var c, s := ops[i].config, Target(ops[i], names[i]);
    LastWordIn(ConfigOr(pre, c), ops, names, i, s, o);
    LaidInTheStore(pre, ops, names, c, s, o);
  }

  lemma LastWordIn(cfg: Config, ops: seq<Op>, names: seq<string>, i: nat, s: string, o: string)
    requires i < |ops| == |names| && Shaped(ops) && Decides(ops, names, i, o) && s == Target(ops[i], names[i])
    ensures OptionIn(Overlay(cfg, PileFor(ops, names, ops[i].config)), s, o) == Written(ops[i], o)
  {
    var first, called := ops[..i + 1], names[..i + 1];
    assert first[|first| - 1] == ops[i] && called[|first| - 1] == names[i];
    SettledLast(cfg, first, called, s, o);
    StandsToTheEnd(cfg, ops, names, i + 1, ops[i].config, s, o);
  }

  lemma RemovedIsGone(pre: Store, ops: seq<Op>, names: seq<string>, i: nat)
    requires i < |ops| == |names| && Shaped(ops) && Removes(ops[i], ops[i].section)
    requires Deserted(ops, names, i + 1, ops[i].config, ops[i].section)
    ensures !HasSection(CommitAll(pre, PlanDeltas(ops, names)), ops[i].config, ops[i].section)
  {
    var c, cfg := ops[i].config, ConfigOr(pre, ops[i].config);
    LastLaid(cfg, ops[..i + 1], names[..i + 1], c);
    StaysAway(cfg, ops, names, i + 1, c, ops[i].section);
    ConfigsAreTheConfigs(ops);
    ConfigAfter(pre, ops, names, c);
  }

  /** A plan that is committed is carried out. */
  lemma PlanIsCarriedOut(pre: Store, ops: seq<Op>, names: seq<string>)
    requires |names| == |ops| && Shaped(ops)
    ensures CarriedOut(pre, CommitAll(pre, PlanDeltas(ops, names)), ops, names)
  {
    var post := CommitAll(pre, PlanDeltas(ops, names));
    forall i, o | 0 <= i < |ops| && Decides(ops, names, i, o)
      ensures OptionAt(post, ops[i].config, Target(ops[i], names[i]), o) == Written(ops[i], o)
    {
      LastWord(pre, ops, names, i, o);
    }
    forall i | 0 <= i < |ops| && Removes(ops[i], ops[i].section) && Deserted(ops, names, i + 1, ops[i].config, ops[i].section)
      ensures !HasSection(post, ops[i].config, ops[i].section)
    {
      RemovedIsGone(pre, ops, names, i);
    }
    forall c, s, o | Final(ops, names, 0, c, s, o) && (o != ".type" || OptionAt(pre, c, s, o).Some?)
      ensures OptionAt(post, c, s, o) == OptionAt(pre, c, s, o)
    {
      StandsToTheEnd(ConfigOr(pre, c), ops, names, 0, c, s, o);
      LaidInTheStore(pre, ops, names, c, s, o);
    }
  }

  // ---- what that comes to -------------------------------------------------------

  /** What the plan writes last is there, text or list. */
  lemma ValuesAreThere(pre: Store, post: Store, ops: seq<Op>, names: seq<string>, i: nat, o: string)
    requires CarriedOut(pre, post, ops, names) && i < |ops| && (ops[i].kind == OpSet || ops[i].kind == OpAdd)
    requires Final(ops, names, i + 1, ops[i].config, Target(ops[i], names[i]), o)
    ensures o in ops[i].lists ==> OptionAt(post, ops[i].config, Target(ops[i], names[i]), o) == Some(Items(ops[i].lists[o]))
    ensures o in ops[i].values && o !in ops[i].lists && o != "oonfeewrt" ==>
              OptionAt(post, ops[i].config, Target(ops[i], names[i]), o) == Some(Text(ops[i].values[o]))
    ensures o == "oonfeewrt" && o !in ops[i].lists && !ops[i].patch ==>
              OptionAt(post, ops[i].config, Target(ops[i], names[i]), o) == Some(Text("1"))
  {
    if Concerns(ops[i], names[i], ops[i].config, Target(ops[i], names[i]), o) && Written(ops[i], o).Some? {
      assert Decides(ops, names, i, o);
    }
  }

  /** Patches leave a section's owner, or its lack of one, as it was. */
  lemma PatchesLeaveTheMark(pre: Store, post: Store, ops: seq<Op>, names: seq<string>, c: string, s: string)
    requires CarriedOut(pre, post, ops, names) && Shaped(ops)
    requires forall j :: 0 <= j < |ops| && ops[j].config == c && Target(ops[j], names[j]) == s ==> ops[j].kind == OpSet && ops[j].patch
    ensures OptionAt(post, c, s, "oonfeewrt") == OptionAt(pre, c, s, "oonfeewrt")
  {
    assert Final(ops, names, 0, c, s, "oonfeewrt");
  }

  /** Deleting an option takes that option and nothing else. */
  lemma OptionDeletesAreSmall(pre: Store, post: Store, op: Op, name: string, c: string, s: string, o: string)
    requires CarriedOut(pre, post, [op], [name]) && op.kind == OpDelete && op.option != ""
    requires o != ".type" || OptionAt(pre, c, s, o).Some?
    ensures op.option != ".type" && c == op.config && s == op.section && o == op.option ==> OptionAt(post, c, s, o).None?
    ensures !(c == op.config && s == op.section && o == op.option) ==> OptionAt(post, c, s, o) == OptionAt(pre, c, s, o)
  {
    if c == op.config && s == op.section && o == op.option {
      assert o != ".type" ==> Decides([op], [name], 0, o);
    } else {
      assert Final([op], [name], 0, c, s, o);
    }
  }

  // ---- the way to the device ------------------------------------------------------

  /** Neither networks, nor zones, nor the wireless uplink: the plan cannot cut the controller off. */
  predicate KeepsOff(ops: seq<Op>) {
    forall i :: 0 <= i < |ops| ==>
                  && ops[i].config != "network" && ops[i].config != "firewall"
                  && !(ops[i].config == "wireless" && |ops[i].section| >= 8 && ops[i].section[..8] == "oowrt_up")
  }

  lemma KeepsOffExactly(ops: seq<Op>)
    ensures KeepsOff(ops) <==> !TouchesManagementPath(ops)
  {
    forall i | 0 <= i < |ops|
      ensures OnManagementPath(ops[i]) <==>
              || ops[i].config == "network" || ops[i].config == "firewall"
              || (ops[i].config == "wireless" && |ops[i].section| >= 8 && ops[i].section[..8] == "oowrt_up")
    {
      assert |UPLINK_PREFIX| == 8;
    }
  }

  // ---- the votes ----------------------------------------------------------------

  /** Of an honest record, an option votes exactly if it could be read and did not hold what is planned. */
  lemma VotesExactly(ops: seq<Op>, pre: Store, blank: bool, i: nat, k: string)
    requires i < |ops| && k in ops[i].values
    ensures var op := ops[i];
            var section := if op.section == "" then op.name else op.section;
            var was := ReadOption(if op.config in pre then Some(pre[op.config]) else None, section, k, blank);
            Votes(op, SnapshotOf(PlanKeys(ops), pre, blank), k) <==>
            op.kind != OpDelete && section != "" && was != Unreadable && was != Got(op.values[k])
  {
    if Readable(ops[i]) {
      assert KeyOf(ops[i], k) in OpKeys(ops[i]);
    }
  }

  /** A vote of a value that stands to the end of the plan tells: it is read where it was written. */
  lemma LastingVotesTell(pre: Store, post: Store, ops: seq<Op>, names: seq<string>, before: Snapshot, i: nat, k: string, blank: bool)
    requires CarriedOut(pre, post, ops, names) && i < |ops| && k in ops[i].values && Votes(ops[i], before, k)
    requires ops[i].kind == OpSet || (ops[i].kind == OpAdd && ops[i].section == "" && names[i] == ops[i].name)
    requires ops[i].kind == OpSet ==> ops[i].section != ""
    requires k !in ops[i].lists && k != "oonfeewrt" && Final(ops, names, i + 1, ops[i].config, Target(ops[i], names[i]), k)
    ensures Tells(ops[i], before, k, post, blank) && !AllFooled(ops, before, post, blank)
  {
    ValuesAreThere(pre, post, ops, names, i, k);
    assert !OpFooled(ops[i], before, post, blank) by {
      assert !Fooled(ops[i], before, k, post, blank);
    }
  }
}
