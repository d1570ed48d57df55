/**
 The rest of the alert record's upkeep: a whole evaluation pass, pruning, the delivery loop
 and the edits, and when exactly each of them leaves a record the store accepts.
 */
module AlertUpkeep {
  import opened Options
  import opened AlertModel
  import opened AlertLaws

  predicate BoundedObservations(o: Observations) {
    forall id :: id in o ==> BoundedEvidence(o[id])
  }

  lemma PassGoesOn(s: Alerts, o: Observations, now: int, n: nat, u: Alerts, t: Alerts)
    requires 0 < n <= |s.rules| && u == EvaluateTo(s, o, now, n - 1) && t == EvaluateTo(s, o, now, n)
    requires Good(u, now) && now > 0 && BoundedObservations(o)
    ensures Good(t, now)
  {
    EvaluatedIsGood(u, n - 1, EvidenceFor(o, u.rules[n - 1].id), now, t);
  }

  lemma {:induction false} PassKeeps(s: Alerts, o: Observations, now: int, n: nat, t: Alerts)
    requires Good(s, now) && now > 0 && BoundedObservations(o) && n <= |s.rules| && t == EvaluateTo(s, o, now, n)
    ensures Good(t, now)
    decreases n
  {
    if n > 0 {
      var u := EvaluateTo(s, o, now, n - 1);
      PassKeeps(s, o, now, n - 1, u);
      PassGoesOn(s, o, now, n, u, t);
    }
  }

  predicate OpensNow(s: Alerts, o: Observations, now: int, n: nat)
    requires n < |s.rules|
  {
    Opens(s.rules[n], EvidenceFor(o, s.rules[n].id), now)
  }

  /** How many of the first n rules are shown what opens an incident. */
  function Openings(s: Alerts, o: Observations, now: int, n: nat): nat
    requires n <= |s.rules|
  {
    if n == 0 then 0 else Openings(s, o, now, n - 1) + if OpensNow(s, o, now, n - 1) then 1 else 0
  }

  /** A rule is looked at as it stood before the pass, whatever the rules before it did. */
  lemma {:induction false} PassCounts(s: Alerts, o: Observations, now: int, n: nat)
    requires n <= |s.rules|
    ensures var t := EvaluateTo(s, o, now, n);
            && t.nextIncidentId == s.nextIncidentId + Openings(s, o, now, n) && t.nextRuleId == s.nextRuleId
            && forall k :: n <= k < |s.rules| ==> t.rules[k] == s.rules[k]
    decreases n
  {
    if n > 0 {
      PassCounts(s, o, now, n - 1);
      var t := EvaluateTo(s, o, now, n - 1);
      ResolvingLengths(t, t.rules[n - 1].incidentId, EvidenceFor(o, t.rules[n - 1].id), now, |t.incidents|);
    }
  }

  // ---- pruning ---------------------------------------------------------------

  function Busy(incidents: seq<Incident>, active: set<int>): seq<Incident> {
    if incidents == [] then []
    else (if incidents[0].id in active then [incidents[0]] else []) + Busy(incidents[1..], active)
  }

  /** Up to the cut only the active ones stay; from there on all do, and enough are gone. */
  predicate CutAt(incidents: seq<Incident>, active: set<int>, remove: int, cut: nat) {
    && cut <= |incidents|
    && DropOldest(incidents, active, remove) == Busy(incidents[..cut], active) + incidents[cut..]
    && (cut == |incidents| || remove <= cut - |Busy(incidents[..cut], active)|)
  }

  lemma {:induction false} DropsTheOldest(incidents: seq<Incident>, active: set<int>, remove: int)
    ensures exists cut: nat :: CutAt(incidents, active, remove, cut)
  {
    if incidents == [] {
      assert CutAt(incidents, active, remove, 0);
    } else if remove <= 0 {
      DropsNothing(incidents, active, remove);
      assert Busy(incidents[..0], active) + incidents[0..] == incidents;
      assert CutAt(incidents, active, remove, 0);
    } else {
      var rest := incidents[1..];
      var left := if incidents[0].id in active then remove else remove - 1;
      DropsTheOldest(rest, active, left);
      var cut: nat :| CutAt(rest, active, left, cut);
      assert incidents[..cut + 1][1..] == rest[..cut] && incidents[cut + 1..] == rest[cut..];
      var tail := Busy(rest[..cut], active) + rest[cut..];
      assert [incidents[0]] + tail == ([incidents[0]] + Busy(rest[..cut], active)) + rest[cut..];
      assert CutAt(incidents, active, remove, cut + 1);
    }
  }

  lemma {:induction false} DropsNothing(incidents: seq<Incident>, active: set<int>, remove: int)
    requires remove <= 0
    ensures DropOldest(incidents, active, remove) == incidents
  {
    if incidents != [] {
      DropsNothing(incidents[1..], active, remove);
    }
  }

  /** Distinct active incidents are no more than the active ids. */
  lemma {:induction false} BusyAtMost(incidents: seq<Incident>, active: set<int>)
    requires DistinctIncidents(incidents)
    ensures |Busy(incidents, active)| <= |active|
    decreases |incidents|
  {
    if incidents != [] {
      var rest := incidents[1..];
      var id := incidents[0].id;
      assert forall k :: 0 <= k < |rest| ==> rest[k] == incidents[k + 1];
      BusyWithout(rest, active, id);
      BusyAtMost(rest, active - {id});
    }
  }

  lemma {:induction false} BusyWithout(incidents: seq<Incident>, active: set<int>, id: int)
    requires forall k :: 0 <= k < |incidents| ==> incidents[k].id != id
    ensures Busy(incidents, active) == Busy(incidents, active - {id})
  {
    if incidents != [] {
      BusyWithout(incidents[1..], active, id);
    }
  }

  /** Dropping keeps the active, invents nothing, repeats nothing. */
  lemma DroppingSelects(incidents: seq<Incident>, active: set<int>, remove: int)
    ensures var kept := DropOldest(incidents, active, remove);
            && (forall k :: 0 <= k < |kept| ==> kept[k] in incidents)
            && (forall k :: 0 <= k < |incidents| && incidents[k].id in active ==> incidents[k] in kept)
            && (DistinctIncidents(incidents) ==> DistinctIncidents(kept))
  {
    DroppingInventsNothing(incidents, active, remove);
    DroppingKeepsTheActive(incidents, active, remove);
    DroppingRepeatsNothing(incidents, active, remove);
  }

  lemma {:induction false} DroppingInventsNothing(incidents: seq<Incident>, active: set<int>, remove: int)
    ensures forall i :: i in DropOldest(incidents, active, remove) ==> i in incidents
  {
    if incidents != [] {
      DroppingInventsNothing(incidents[1..], active, if remove > 0 && incidents[0].id !in active then remove - 1 else remove);
    }
  }

  lemma {:induction false} DroppingKeepsTheActive(incidents: seq<Incident>, active: set<int>, remove: int)
    ensures forall i :: i in incidents && i.id in active ==> i in DropOldest(incidents, active, remove)
  {
    if incidents != [] {
      DroppingKeepsTheActive(incidents[1..], active, if remove > 0 && incidents[0].id !in active then remove - 1 else remove);
    }
  }

  lemma {:induction false} DroppingRepeatsNothing(incidents: seq<Incident>, active: set<int>, remove: int)
    ensures DistinctIncidents(incidents) ==> DistinctIncidents(DropOldest(incidents, active, remove))
  {
    if incidents != [] && DistinctIncidents(incidents) {
      var rest := incidents[1..];
      var left := if remove > 0 && incidents[0].id !in active then remove - 1 else remove;
      FirstIsAlone(incidents);
      DroppingRepeatsNothing(rest, active, left);
      DroppingInventsNothing(rest, active, left);
    }
  }

  lemma FirstIsAlone(incidents: seq<Incident>)
    requires incidents != [] && DistinctIncidents(incidents)
    ensures DistinctIncidents(incidents[1..]) && forall i :: i in incidents[1..] ==> i.id != incidents[0].id
  {
    assert forall k :: 0 <= k < |incidents| - 1 ==> incidents[1..][k] == incidents[k + 1];
  }

  lemma {:induction false} HeldIdsAtMost(rules: seq<Rule>)
    ensures |set k | 0 <= k < |rules| && rules[k].incidentId != 0 :: rules[k].incidentId| <= |rules|
  {
    if rules != [] {
      var n := |rules| - 1;
      HeldIdsAtMost(rules[..n]);
      var before := set k | 0 <= k < |rules[..n]| && rules[..n][k].incidentId != 0 :: rules[..n][k].incidentId;
      var all := set k | 0 <= k < |rules| && rules[k].incidentId != 0 :: rules[k].incidentId;
      forall id | id in all
        ensures id in before + {rules[n].incidentId}
      {
        var k :| 0 <= k < |rules| && rules[k].incidentId != 0 && rules[k].incidentId == id;
        if k < n {
          assert rules[..n][k].incidentId == id;
        }
      }
      NoLarger(all, before + {rules[n].incidentId});
    }
  }

  lemma {:induction false} QueuedIdsAtMost(queue: seq<Queued>)
    ensures |set k | 0 <= k < |queue| :: queue[k].incident.id| <= |queue|
  {
    if queue != [] {
      var n := |queue| - 1;
      QueuedIdsAtMost(queue[..n]);
      var before := set k | 0 <= k < |queue[..n]| :: queue[..n][k].incident.id;
      var all := set k | 0 <= k < |queue| :: queue[k].incident.id;
      forall id | id in all
        ensures id in before + {queue[n].incident.id}
      {
        var k :| 0 <= k < |queue| && queue[k].incident.id == id;
        if k < n {
          assert queue[..n][k].incident.id == id;
        }
      }
      NoLarger(all, before + {queue[n].incident.id});
    }
  }

  lemma {:induction false} NoLarger<T>(a: set<T>, b: set<T>)
    requires a <= b
    ensures |a| <= |b|
  {
    if a != {} {
      var x :| x in a;
      NoLarger(a - {x}, b - {x});
    }
  }

  /** At most 150 incidents are spoken for, so pruning always gets down to 500. */
  lemma PruneFits(s: Alerts)
    requires |s.rules| <= MAX_RULES && |s.queue| <= MAX_QUEUE && DistinctIncidents(s.incidents)
    ensures |Prune(s).incidents| <= MAX_INCIDENTS
    ensures |s.incidents| >= MAX_INCIDENTS ==> |Prune(s).incidents| >= MAX_INCIDENTS
  {
    if |s.incidents| > MAX_INCIDENTS {
      var active, remove := ActiveIds(s), |s.incidents| - MAX_INCIDENTS;
      HeldIdsAtMost(s.rules);
      QueuedIdsAtMost(s.queue);
      DropsTheOldest(s.incidents, active, remove);
      var cut: nat :| CutAt(s.incidents, active, remove, cut);
      assert s.incidents[..|s.incidents|] == s.incidents;
      BusyAtMost(s.incidents, active);
      DropsAtMost(s.incidents, active, remove);
    }
  }

  lemma {:induction false} DropsAtMost(incidents: seq<Incident>, active: set<int>, remove: int)
    requires remove >= 0
    ensures |DropOldest(incidents, active, remove)| >= |incidents| - remove
  {
    if incidents != [] {
      if remove > 0 && incidents[0].id !in active {
        DropsAtMost(incidents[1..], active, remove - 1);
      } else {
        DropsAtMost(incidents[1..], active, remove);
      }
    }
  }

  lemma PruneKeepsTheHeld(s: Alerts, clock: int, kept: seq<Incident>)
    requires Good(s, clock) && forall k :: 0 <= k < |s.incidents| && s.incidents[k].id in ActiveIds(s) ==> s.incidents[k] in kept
    ensures forall k :: 0 <= k < |s.rules| && s.rules[k].incidentId != 0 ==> FiresFor(kept, s.rules[k])
    ensures QueueOk(s.queue, kept)
  {}

  /** Every part of the record that speaks of incidents survives losing idle ones. */
  lemma PruneKeeps(s: Alerts, clock: int)
    requires Good(s, clock)
    ensures Good(Prune(s), clock)
  {
    if |s.incidents| > MAX_INCIDENTS {
      var kept := Prune(s).incidents;
      DroppingSelects(s.incidents, ActiveIds(s), |s.incidents| - MAX_INCIDENTS);
      PruneKeepsTheHeld(s, clock, kept);
      SelectedKeeps(s, kept);
      LinkedAreHeld(s.rules, kept);
    }
  }

  lemma SelectedKeeps(s: Alerts, kept: seq<Incident>)
    requires Shaped(s) && Linked(s.rules, s.incidents) && Outbox(s.queue, s.incidents)
    requires forall k :: 0 <= k < |kept| ==> kept[k] in s.incidents
    requires DistinctIncidents(kept)
    ensures IncidentsOk(kept, s.nextRuleId, s.nextIncidentId)
    ensures Promised(s.queue, kept) && Truthful(s.queue, kept)
    ensures forall k, j :: 0 <= k < |s.rules| && 0 <= j < |kept| && kept[j].state == FiringEvent
                           && kept[j].ruleId == s.rules[k].id ==>
                             kept[j].id == s.rules[k].incidentId
  {}

  /** One observation pass, saved: acceptable unless the incident counter has run out. */
  lemma ObserveIsAcceptable(s: Alerts, o: Observations, now: int, clock: int)
    requires Valid(s) && Good(s, clock) && clock <= now && now > 0 && BoundedObservations(o)
    ensures Good(Observe(s, o, now), now)
    ensures Valid(Observe(s, o, now)) <==> s.nextIncidentId + Openings(s, o, now, |s.rules|) < MAX_INT64
  {
    LaterIsGood(s, clock, now);
    PassKeeps(s, o, now, |s.rules|, EvaluateTo(s, o, now, |s.rules|));
    PassCounts(s, o, now, |s.rules|);
    var t := EvaluateTo(s, o, now, |s.rules|).(evaluatedAt := Some(now));
    assert Good(t, now);
    PruneKeeps(t, now);
    PruneFits(t);
  }

  // ---- delivery outcomes -----------------------------------------------------------

  function Relabel(i: Incident, delivery: DeliveryState, detail: Detail): Incident {
    i.(delivery := delivery, detail := detail)
  }

  /** Nothing but delivery outcomes differ. */
  predicate Relabelled(before: seq<Incident>, after: seq<Incident>) {
    && |before| == |after|
    && forall k :: 0 <= k < |before| ==> after[k] == Relabel(before[k], after[k].delivery, after[k].detail)
  }

  /** A queue cut down to some of its entries, in order. */
  predicate CutDown(queue: seq<Queued>, fewer: seq<Queued>) {
    && |fewer| <= |queue| && InLine(fewer)
    && forall k :: 0 <= k < |fewer| ==> fewer[k] in queue
  }

  /** Good, with delivery outcomes changed, the queue cut down and every promise accounted for. */
  lemma QuietChangeKeeps(s: Alerts, t: Alerts, clock: int)
    requires Good(s, clock) && Relabelled(s.incidents, t.incidents) && CutDown(s.queue, t.queue)
    requires Promised(t.queue, t.incidents) && ValidDelivery(t.delivery, t.ciphertextLength)
    requires t.rules == s.rules && t.nextRuleId == s.nextRuleId && t.nextIncidentId == s.nextIncidentId
    ensures Good(t, clock)
  {}

  predicate Cancels(queue: seq<Queued>, ruleId: int, i: Incident) {
    exists k :: 0 <= k < |queue| && !Keeps(queue[k], ruleId) && queue[k].incident.id == i.id && queue[k].event == i.state
  }

  /** Exactly the incidents whose current event was dropped are marked; the rest of the history stays. */
  lemma {:induction false} CancelMarks(s: Alerts, queue: seq<Queued>, ruleId: int)
    ensures var t := CancelFrom(s, queue, ruleId);
            && t == s.(incidents := t.incidents) && Relabelled(s.incidents, t.incidents)
            && forall j :: 0 <= j < |s.incidents| ==>
                             t.incidents[j] == if Cancels(queue, ruleId, s.incidents[j])
                                               then Relabel(s.incidents[j], Cancelled, CancelledByChange) else s.incidents[j]
  {
    if |queue| > 0 {
      var n := |queue| - 1;
      CancelMarks(s, queue[..n], ruleId);
      var u, t := CancelFrom(s, queue[..n], ruleId), CancelFrom(s, queue, ruleId);
      forall j | 0 <= j < |s.incidents|
        ensures t.incidents[j] == if Cancels(queue, ruleId, s.incidents[j])
                                  then Relabel(s.incidents[j], Cancelled, CancelledByChange) else s.incidents[j]
      {
        CancelsOneMore(queue, ruleId, s.incidents[j]);
      }
    }
  }

  lemma CancelsOneMore(queue: seq<Queued>, ruleId: int, i: Incident)
    requires |queue| > 0
    ensures var n := |queue| - 1;
            Cancels(queue, ruleId, i) <==>
            Cancels(queue[..n], ruleId, i)
            || (!Keeps(queue[n], ruleId) && queue[n].incident.id == i.id && queue[n].event == i.state)
  {}

  /** The queue keeps its other entries, in order, and loses all of the rule's. */
  lemma {:induction false} KeptExactly(queue: seq<Queued>, ruleId: int)
    ensures |KeptOf(queue, ruleId)| <= |queue|
    ensures forall q :: q in queue && Keeps(q, ruleId) ==> q in KeptOf(queue, ruleId)
    ensures forall q :: q in KeptOf(queue, ruleId) ==> q in queue && Keeps(q, ruleId)
    ensures InLine(queue) ==> InLine(KeptOf(queue, ruleId))
  {
    if |queue| > 0 {
      var n := |queue| - 1;
      KeptExactly(queue[..n], ruleId);
      assert queue == queue[..n] + [queue[n]];
      if InLine(queue) {
        InLineParts(queue);
        var kept := KeptOf(queue[..n], ruleId);
        forall k | 0 <= k < |kept|
          ensures Ordered(kept[k], queue[n])
        {
          assert kept[k] in queue[..n];
          var m :| 0 <= m < n && queue[..n][m] == kept[k];
          assert queue[m] == kept[k];
        }
      }
    }
  }

  lemma InLineParts(queue: seq<Queued>)
    requires InLine(queue) && |queue| > 0
    ensures InLine(queue[..|queue| - 1]) && InLine(queue[1..])
    ensures forall k :: 0 <= k < |queue| - 1 ==> Ordered(queue[k], queue[|queue| - 1])
    ensures forall q :: q in queue[1..] ==> Ordered(queue[0], q)
  {}

  lemma CancelKeeps(s: Alerts, ruleId: int, clock: int)
    requires Good(s, clock)
    ensures Good(Cancel(s, ruleId), clock) && Cancel(s, ruleId).rules == s.rules
    ensures |Cancel(s, ruleId).incidents| == |s.incidents|
    ensures Countable(Cancel(s, ruleId)) == Countable(s)
    ensures forall q :: q in Cancel(s, ruleId).queue ==> ruleId != 0 && q.incident.ruleId != ruleId
  {
    CancelMarks(s, s.queue, ruleId);
    KeptExactly(s.queue, ruleId);
    var t := Cancel(s, ruleId);
    forall j | 0 <= j < |t.incidents| && t.incidents[j].delivery == Pending
      ensures QueuedFor(t.queue, EventId(t.incidents[j].id, t.incidents[j].state))
    {
      assert t.incidents[j] == s.incidents[j];
      var k :| 0 <= k < |s.queue| && s.queue[k].eventId == EventId(s.incidents[j].id, s.incidents[j].state);
      assert ValidQueued(s.queue[k], s.incidents);
      assert s.queue[k] in t.queue;
    }
    QuietChangeKeeps(s, t, clock);
  }

  // ---- the delivery loop ---------------------------------------------------------------

  lemma FinishRelabels(incidents: seq<Incident>, id: int, event: Event, delivery: DeliveryState, detail: Detail)
    ensures Relabelled(incidents, FinishAll(incidents, id, event, delivery, detail))
  {}

  /** The head leaves the queue with its outcome on record. */
  lemma HeadLeaves(s: Alerts, delivery: DeliveryState, detail: Detail)
    requires Shaped(s) && Outbox(s.queue, s.incidents) && s.queue != [] && delivery != Pending
    ensures var t := Finish(s, s.queue[0], delivery, detail);
            Promised(s.queue[1..], t.incidents) && CutDown(s.queue, s.queue[1..])
  {}

  lemma HeadStays(s: Alerts, delivery: DeliveryState, detail: Detail)
    requires Outbox(s.queue, s.incidents) && s.queue != [] && delivery != Pending
    ensures Promised(s.queue, Finish(s, s.queue[0], delivery, detail).incidents) && CutDown(s.queue, s.queue)
  {}

  lemma DropHeadKeeps(s: Alerts, clock: int)
    requires Good(s, clock) && s.queue != []
    ensures Good(DropHead(s), clock)
  {
    HeadLeaves(s, Failed, ExpiredOrDisabled);
    FinishRelabels(s.incidents, s.queue[0].incident.id, s.queue[0].event, Failed, ExpiredOrDisabled);
    QuietChangeKeeps(s, DropHead(s), clock);
  }

  lemma AttemptKeeps(s: Alerts, now: int, clock: int)
    requires Good(s, clock) && s.queue != [] && now > 0 && !Lapsed(s, now)
    ensures Good(Attempt(s, now), clock)
  {
    var t := Attempt(s, now);
    assert ValidQueued(s.queue[0], s.incidents);
    forall k | 0 <= k < |t.queue|
      ensures ValidQueued(t.queue[k], t.incidents) && t.queue[k].eventId == s.queue[k].eventId
    {
      assert ValidQueued(s.queue[k], s.incidents);
    }
    forall j | 0 <= j < |t.incidents| && t.incidents[j].delivery == Pending
      ensures QueuedFor(t.queue, EventId(t.incidents[j].id, t.incidents[j].state))
    {
      var k :| 0 <= k < |s.queue| && s.queue[k].eventId == EventId(s.incidents[j].id, s.incidents[j].state);
      assert t.queue[k].eventId == s.queue[k].eventId;
    }
  }

  lemma SettleKeeps(s: Alerts, sent: bool, now: int, clock: int)
    requires Good(s, clock) && s.queue != []
    ensures Good(Settle(s, sent, now), clock)
  {
    var t := Settle(s, sent, now);
    var q := s.queue[0];
    var outcome, detail := if sent then Sent else Failed, if sent then NoDetail else TransportFailed;
    FinishRelabels(s.incidents, q.incident.id, q.event, outcome, detail);
    HeadLeaves(s, outcome, detail);
    HeadStays(s, outcome, detail);
    QuietChangeKeeps(s, t, clock);
  }

  // ---- edits -------------------------------------------------------------------------------

  lemma AddedKeeps(s: Alerts, config: Config, target: string, clock: int)
    requires Good(s, clock) && |s.rules| < MAX_RULES && ValidConfig(config) && target != "" && Bytes(target) <= 128
    ensures var id := s.nextRuleId + 1;
            Good(s.(nextRuleId := id, rules := s.rules + [FreshRule(config, id, target, 0)]), clock)
  {}

  /** The store accepts a new rule unless its id would be the last one, or its target is too long. */
  lemma AddRuleIsAcceptable(s: Alerts, config: Config, target: string, clock: int)
    requires Valid(s) && Good(s, clock) && |s.rules| < MAX_RULES && ValidConfig(config) && target != ""
    ensures Valid(AddRule(s, config, target)) <==> s.nextRuleId + 1 < MAX_INT64 && Bytes(target) <= 128
    ensures Bytes(target) <= 128 ==> Good(AddRule(s, config, target), clock)
  {
    var id := s.nextRuleId + 1;
    var t := s.(nextRuleId := id, rules := s.rules + [FreshRule(config, id, target, 0)]);
    CancelMarks(t, t.queue, id);
    assert AddRule(s, config, target).rules[|s.rules|] == FreshRule(config, id, target, 0);
    if Bytes(target) <= 128 {
      AddedKeeps(s, config, target, clock);
      CancelKeeps(t, id, clock);
    }
  }

  lemma ReplacedKeeps(s: Alerts, n: nat, config: Config, target: string, clock: int)
    requires Good(s, clock) && n < |s.rules| && s.rules[n].incidentId == 0
    requires ValidConfig(config) && target != "" && Bytes(target) <= 128
    ensures Good(s.(rules := s.rules[n := FreshRule(config, s.rules[n].id, target, s.rules[n].lastNotification)]), clock)
  {}

  lemma ReplaceRuleIsAcceptable(s: Alerts, n: nat, config: Config, target: string, clock: int)
    requires Valid(s) && Good(s, clock) && n < |s.rules| && s.rules[n].incidentId == 0 && ValidConfig(config) && target != ""
    ensures Valid(ReplaceRule(s, n, config, target)) <==> Bytes(target) <= 128
    ensures Bytes(target) <= 128 ==> Good(ReplaceRule(s, n, config, target), clock)
  {
    var r := FreshRule(config, s.rules[n].id, target, s.rules[n].lastNotification);
    var t := s.(rules := s.rules[n := r]);
    CancelMarks(t, t.queue, r.id);
    assert ReplaceRule(s, n, config, target).rules[n] == r;
    if Bytes(target) <= 128 {
      ReplacedKeeps(s, n, config, target, clock);
      CancelKeeps(t, r.id, clock);
    }
  }

  lemma SwitchRuleIsAcceptable(s: Alerts, n: nat, enabled: bool, clock: int)
    requires Valid(s) && Good(s, clock) && n < |s.rules|
    ensures Valid(SwitchRule(s, n, enabled)) && Good(SwitchRule(s, n, enabled), clock)
  {
    var r := s.rules[n].(config := s.rules[n].config.(enabled := enabled));
    var on := r.(state := Unobserved, reason := WaitingForFresh);
    var off := r.(state := Disabled, reason := DisabledNotRecovered);
    assert ValidRule(s.rules[n], s.nextRuleId);
    RecordOnly(s, n, on, clock, clock);
    RecordOnly(s, n, off, clock, clock);
    CancelKeeps(s.(rules := s.rules[n := off]), r.id, clock);
  }

  lemma RemovedKeeps(s: Alerts, n: nat, clock: int)
    requires Good(s, clock) && n < |s.rules|
    ensures Good(s.(rules := s.rules[..n] + s.rules[n + 1..]), clock)
  {}

  lemma RemoveRuleIsAcceptable(s: Alerts, n: nat, clock: int)
    requires Valid(s) && Good(s, clock) && n < |s.rules|
    ensures Valid(RemoveRule(s, n)) && Good(RemoveRule(s, n), clock)
    ensures forall q :: q in RemoveRule(s, n).queue ==> q.incident.ruleId != s.rules[n].id
  {
    RemovedKeeps(s, n, clock);
    CancelKeeps(s.(rules := s.rules[..n] + s.rules[n + 1..]), s.rules[n].id, clock);
  }

  /** Changing the destination empties the outbox: nothing old is replayed to it. */
  lemma DeliveryChangeIsAcceptable(s: Alerts, enabled: bool, sealedLength: nat, hostLength: nat, forget: bool, clock: int)
    requires Valid(s) && Good(s, clock) && (enabled ==> sealedLength != 0)
    ensures Valid(DisableDelivery(s, forget)) && Good(DisableDelivery(s, forget), clock)
    ensures var t := ConfigureDelivery(s, enabled, sealedLength, hostLength);
            && (Valid(t) <==> sealedLength <= 16384 && hostLength <= 253)
            && (Valid(t) ==> Good(t, clock))
            && t.queue == [] && t.delivery == Delivery(sealedLength != 0, hostLength, enabled, None, None, NoDetail)
    ensures DisableDelivery(s, forget).queue == [] && !DisableDelivery(s, forget).delivery.enabled
  {
    var off := if forget then s.(ciphertextLength := 0, delivery := NO_DELIVERY) else s.(delivery := s.delivery.(enabled := false));
    CancelKeeps(off, 0, clock);
    CancelMarks(off, off.queue, 0);
    NoneKept(s.queue);
    var on := s.(ciphertextLength := sealedLength,
                 delivery := Delivery(sealedLength != 0, hostLength, enabled, None, None, NoDetail));
    CancelMarks(on, on.queue, 0);
    if sealedLength <= 16384 && hostLength <= 253 {
      CancelKeeps(on, 0, clock);
    }
  }

  lemma {:induction false} NoneKept(queue: seq<Queued>)
    ensures KeptOf(queue, 0) == []
  {
    if queue != [] {
      NoneKept(queue[..|queue| - 1]);
    }
  }

  // ---- changes the store refuses -------------------------------------------------------------

  const OFFLINE := Config("gateway", DeviceOffline, 1, Real(0.0), 60, 60, true)

  /** One rule, offline for a minute, in a record with one incident id left. */
  const LAST_ID := Alerts(
    [FreshRule(OFFLINE, 1, "gateway", 0).(pendingSince := 100, lastEvidence := 130, lastEvaluation := 130)],
    [], [], NO_DELIVERY, 0, None, 1, MAX_INT64 - 1)

  lemma OfflineIsValid()
    ensures ValidConfig(OFFLINE)
  {
    assert !White(OFFLINE.name[0]);
  }

  lemma LastIdIsValid()
    ensures Valid(LAST_ID) && Good(LAST_ID, 130)
  {
    OfflineIsValid();
    BytesPerRune(LAST_ID.rules[0].target);
    assert ValidRule(LAST_ID.rules[0], 1);
  }

  lemma PassesTheStoreRefuses()
    ensures Valid(LAST_ID) && Good(LAST_ID, 130)
    ensures !Valid(Observe(LAST_ID, map[1 := Evidence(true, Real(1.0), 160, 120, "", NoReason)], 160))
  {
    LastIdIsValid();
    var e := Evidence(true, Real(1.0), 160, 120, "", NoReason);
    LastIdOpens(map[1 := e], e);
    ObserveIsAcceptable(LAST_ID, map[1 := e], 160, 130);
  }

  lemma LastIdOpens(o: Observations, e: Evidence)
    requires e == Evidence(true, Real(1.0), 160, 120, "", NoReason) && EvidenceFor(o, 1) == e
    ensures Openings(LAST_ID, o, 160, 1) == 1
  {
    assert OpensNow(LAST_ID, o, 160, 0);
    assert Openings(LAST_ID, o, 160, 1) == Openings(LAST_ID, o, 160, 0) + 1;
  }

  lemma AddsTheStoreRefuses(s: Alerts, target: string, clock: int)
    requires Valid(s) && Good(s, clock) && |s.rules| < MAX_RULES && target != ""
    ensures |target| == 129 ==> !Valid(AddRule(s, OFFLINE, target))
    ensures !Valid(AddRule(s.(nextRuleId := MAX_INT64 - 1), OFFLINE, target))
  {
    OfflineIsValid();
    BytesPerRune(target);
    AddRuleIsAcceptable(s, OFFLINE, target, clock);
    LastRuleId(s, clock);
    AddRuleIsAcceptable(s.(nextRuleId := MAX_INT64 - 1), OFFLINE, target, clock);
  }

  lemma LastRuleId(s: Alerts, clock: int)
    requires Valid(s) && Good(s, clock)
    ensures Valid(s.(nextRuleId := MAX_INT64 - 1)) && Good(s.(nextRuleId := MAX_INT64 - 1), clock)
  {}

  lemma RewritesTheStoreRefuses(target: string)
    requires |target| == 129
    ensures Valid(LAST_ID) && !Valid(ReplaceRule(LAST_ID, 0, OFFLINE, target))
  {
    OfflineIsValid();
    LastIdIsValid();
    BytesPerRune(target);
    ReplaceRuleIsAcceptable(LAST_ID, 0, OFFLINE, target, 130);
  }

  lemma DestinationsTheStoreRefuses(s: Alerts, enabled: bool, clock: int)
    requires Valid(s) && Good(s, clock)
    ensures !Valid(ConfigureDelivery(s, enabled, 16385, 0)) && !Valid(ConfigureDelivery(s, enabled, 1, 254))
  {
    DeliveryChangeIsAcceptable(s, enabled, 16385, 0, false, clock);
    DeliveryChangeIsAcceptable(s, enabled, 1, 254, false, clock);
  }
}
