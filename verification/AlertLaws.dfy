/**
 What every operation on the alert record keeps: the stored-state validity of
 internal/alerts/validation.go, the link between a live rule and its one firing incident,
 and the order and completeness of the outbox.
 */
module AlertLaws {
  import opened AlertModel

  predicate FiresFor(incidents: seq<Incident>, r: Rule) {
    exists j :: 0 <= j < |incidents| && incidents[j].id == r.incidentId && incidents[j].state == FiringEvent
                && incidents[j].ruleId == r.id
  }

  /** A live rule's incident id names the only firing incident that carries the rule's id. */
  predicate Linked(rules: seq<Rule>, incidents: seq<Incident>) {
    && (forall k :: 0 <= k < |rules| && rules[k].incidentId != 0 ==> FiresFor(incidents, rules[k]))
    && (forall k, j :: 0 <= k < |rules| && 0 <= j < |incidents| && incidents[j].state == FiringEvent
                       && incidents[j].ruleId == rules[k].id ==>
                         incidents[j].id == rules[k].incidentId)
  }

  predicate QueuedFor(queue: seq<Queued>, id: EventId) {
    exists k :: 0 <= k < |queue| && queue[k].eventId == id
  }

  /** "pending" promises an entry. */
  predicate Promised(queue: seq<Queued>, incidents: seq<Incident>) {
    forall j :: 0 <= j < |incidents| && incidents[j].delivery == Pending ==>
                  QueuedFor(queue, EventId(incidents[j].id, incidents[j].state))
  }

  predicate Ordered(a: Queued, b: Queued) {
    && a.eventId != b.eventId
    && (a.event == ResolvedEvent && b.event == FiringEvent ==> a.incident.id != b.incident.id)
  }

  /** Entries are distinct, and a recovery queues behind its incident's alarm. */
  predicate InLine(queue: seq<Queued>) {
    forall i, j :: 0 <= i < j < |queue| ==> Ordered(queue[i], queue[j])
  }

  /** A recovery is only announced for an incident that has recovered. */
  predicate Truthful(queue: seq<Queued>, incidents: seq<Incident>) {
    forall i, j :: 0 <= i < |queue| && 0 <= j < |incidents| && queue[i].event == ResolvedEvent
                   && incidents[j].id == queue[i].incident.id ==>
                     incidents[j].state == ResolvedEvent
  }

  predicate Outbox(queue: seq<Queued>, incidents: seq<Incident>) {
    Promised(queue, incidents) && InLine(queue) && Truthful(queue, incidents)
  }

  predicate Dated(incidents: seq<Incident>, clock: int) {
    && clock >= 0
    && (forall j :: 0 <= j < |incidents| ==> incidents[j].startedAt <= clock)
  }

  predicate Good(s: Alerts, clock: int) {
    var shaped := Shaped(s);
    var tied := Linked(s.rules, s.incidents) && Outbox(s.queue, s.incidents);
    shaped && tied && Dated(s.incidents, clock)
  }

  predicate BoundedEvidence(e: Evidence) {
    Bytes(e.deviceName) <= 1024 && ValidReason(e.reason)
  }

  lemma LinkedAreHeld(rules: seq<Rule>, incidents: seq<Incident>)
    requires Linked(rules, incidents)
    ensures Held(rules, incidents)
  {}

  // ---- evaluation of one rule ------------------------------------------------

  lemma RulesStayOk(rules: seq<Rule>, n: nat, r: Rule, nextRuleId: int)
    requires RulesOk(rules, nextRuleId) && n < |rules| && ValidRule(r, nextRuleId) && r.id == rules[n].id
    ensures RulesOk(rules[n := r], nextRuleId)
  {}

  /** Only the rule's own record moves. */
  lemma RecordOnly(s: Alerts, n: nat, r: Rule, clock: int, now: int)
    requires Good(s, clock) && n < |s.rules| && clock <= now
    requires ValidRule(r, s.nextRuleId) && r.id == s.rules[n].id && r.incidentId == s.rules[n].incidentId
    ensures Good(s.(rules := s.rules[n := r]), now)
  {}

  lemma EvaluatedIsValid(s: Alerts, r: Rule, e: Evidence, now: int)
    requires ValidRule(r, s.nextRuleId) && now > 0 && BoundedEvidence(e) && s.nextIncidentId >= 0
    ensures ValidRule(Evaluated(s, r, e, now), s.nextRuleId)
    ensures Evaluated(s, r, e, now).id == r.id
    ensures Evaluated(s, r, e, now).incidentId ==
            if Opens(r, e, now) then s.nextIncidentId + 1 else if Recovers(r, e, now) then 0 else r.incidentId
  {}

  lemma StillThere(before: seq<Incident>, after: seq<Incident>)
    requires |before| <= |after| && forall k :: 0 <= k < |before| ==> after[k].id == before[k].id
    ensures forall id :: HasIncident(before, id) ==> HasIncident(after, id)
  {}

  lemma AppendedIsOk(incidents: seq<Incident>, i: Incident, nextRuleId: int, nextIncidentId: int)
    requires IncidentsOk(incidents, nextRuleId, nextIncidentId) && i.id == nextIncidentId + 1
    requires ValidIncident(i, nextRuleId, nextIncidentId + 1)
    ensures IncidentsOk(incidents + [i], nextRuleId, nextIncidentId + 1)
  {}

  lemma OpenedIsValid(s: Alerts, r: Rule, e: Evidence, now: int)
    requires ValidRule(r, s.nextRuleId) && now > 0 && BoundedEvidence(e) && s.nextIncidentId >= 0 && Opens(r, e, now)
    ensures ValidIncident(NewIncident(s, r, e, now), s.nextRuleId, s.nextIncidentId + 1)
  {
    BytesPerRune(r.config.name);
  }

  lemma OpeningLinks(rules: seq<Rule>, incidents: seq<Incident>, n: nat, r: Rule, i: Incident)
    requires Linked(rules, incidents) && n < |rules| && r.id == rules[n].id && rules[n].incidentId == 0
    requires i.state == FiringEvent && i.ruleId == r.id && r.incidentId == i.id
    requires forall k :: 0 <= k < |incidents| ==> incidents[k].id != 0
    requires forall i, j :: 0 <= i < j < |rules| ==> rules[i].id != rules[j].id
    ensures Linked(rules[n := r], incidents + [i])
  {
    var after, more := rules[n := r], incidents + [i];
    assert more[|incidents|] == i;
    forall k | 0 <= k < |after| && after[k].incidentId != 0
      ensures FiresFor(more, after[k])
    {
      if k != n {
        assert FiresFor(incidents, rules[k]);
        var j :| 0 <= j < |incidents| && incidents[j].id == rules[k].incidentId && incidents[j].state == FiringEvent
                 && incidents[j].ruleId == rules[k].id;
        assert more[j] == incidents[j];
      }
    }
    forall k, j | 0 <= k < |after| && 0 <= j < |more| && more[j].state == FiringEvent && more[j].ruleId == after[k].id
      ensures more[j].id == after[k].incidentId
    {
      if j < |incidents| {
        assert more[j] == incidents[j] && after[k].id == rules[k].id;
        assert incidents[j].id == rules[k].incidentId;
      }
    }
  }

  /** An announcement goes to the back of the queue. */
  lemma EnqueuedIsOk(s: Alerts, i: Incident, event: Event, now: int, incidents: seq<Incident>)
    requires |s.queue| <= MAX_QUEUE && QueueOk(s.queue, incidents) && HasIncident(incidents, i.id) && now > 0
    ensures |Enqueued(s, i, event, now)| <= MAX_QUEUE && QueueOk(Enqueued(s, i, event, now), incidents)
  {}

  lemma QueueStaysBelow(s: Alerts)
    requires Shaped(s)
    ensures forall k :: 0 <= k < |s.queue| ==> s.queue[k].incident.id <= s.nextIncidentId
  {}

  lemma QueueMatchesIds(s: Alerts)
    requires Shaped(s)
    ensures forall k :: 0 <= k < |s.queue| ==> s.queue[k].eventId == EventId(s.queue[k].incident.id, s.queue[k].event)
  {}

  /** A promise made before stands while the queue only grows. */
  lemma PromiseStands(queue: seq<Queued>, more: seq<Queued>, id: EventId)
    requires |queue| <= |more| && more[..|queue|] == queue && QueuedFor(queue, id)
    ensures QueuedFor(more, id)
  {}

  function QueueOpening(s: Alerts, r: Rule, e: Evidence, now: int): seq<Queued> {
    if Notifies(r, now) then Enqueued(s, NewIncident(s, r, e, now), FiringEvent, now) else s.queue
  }

  lemma OpeningPromised(s: Alerts, r: Rule, e: Evidence, now: int)
    requires Promised(s.queue, s.incidents)
    ensures Promised(QueueOpening(s, r, e, now), s.incidents + [NewIncident(s, r, e, now)])
  {
    var i, queue := NewIncident(s, r, e, now), QueueOpening(s, r, e, now);
    var incidents := s.incidents + [i];
    forall j | 0 <= j < |incidents| && incidents[j].delivery == Pending
      ensures QueuedFor(queue, EventId(incidents[j].id, incidents[j].state))
    {
      if j < |s.incidents| {
        assert incidents[j] == s.incidents[j];
        PromiseStands(s.queue, queue, EventId(s.incidents[j].id, s.incidents[j].state));
      } else {
        assert queue[|s.queue|].eventId == EventId(i.id, FiringEvent);
      }
    }
  }

  lemma OpeningOutbox(s: Alerts, r: Rule, e: Evidence, now: int)
    requires Shaped(s) && Outbox(s.queue, s.incidents)
    ensures Outbox(QueueOpening(s, r, e, now), s.incidents + [NewIncident(s, r, e, now)])
  {
    OpeningPromised(s, r, e, now);
    QueueStaysBelow(s);
    QueueMatchesIds(s);
  }

  /** Opening: a new last incident, announced or not. */
  lemma OpeningKeeps(s: Alerts, n: nat, e: Evidence, now: int, clock: int)
    requires Good(s, clock) && n < |s.rules| && clock <= now && now > 0 && BoundedEvidence(e) && Opens(s.rules[n], e, now)
    ensures Good(Evaluate(s, n, e, now), now)
  {
    var r := s.rules[n];
    var t, i := Evaluate(s, n, e, now), NewIncident(s, r, e, now);
    EvaluatedIsValid(s, r, e, now);
    RulesStayOk(s.rules, n, t.rules[n], s.nextRuleId);
    OpenedIsValid(s, r, e, now);
    AppendedIsOk(s.incidents, i, s.nextRuleId, s.nextIncidentId);
    OpeningLinks(s.rules, s.incidents, n, t.rules[n], i);
    LinkedAreHeld(t.rules, t.incidents);
    StillThere(s.incidents, t.incidents);
    assert t.incidents[|s.incidents|].id == i.id;
    EnqueuedIsOk(s, i, FiringEvent, now, t.incidents);
    OpeningOutbox(s, r, e, now);
  }

  // ---- recovery ------------------------------------------------------------------

  function ResolveAt(s: Alerts, j: nat, e: Evidence, now: int): Alerts
    requires j < |s.incidents|
  {
    var i := Recovered(s.incidents[j], e, now);
    s.(incidents := s.incidents[j := Announced(s, i)], queue := Enqueued(s, i, ResolvedEvent, now))
  }

  /** Ids being distinct, the loop resolves exactly one incident. */
  lemma {:induction false} ResolvesOne(s: Alerts, id: int, e: Evidence, now: int, j: nat, k: nat)
    requires DistinctIncidents(s.incidents) && j < |s.incidents| && s.incidents[j].id == id && k <= |s.incidents|
    ensures ResolveFrom(s, id, e, now, k) == if k <= j then s else ResolveAt(s, j, e, now)
    decreases k
  {
    if k > 0 {
      ResolvesOne(s, id, e, now, j, k - 1);
    }
  }

  lemma RecoveryLinks(rules: seq<Rule>, incidents: seq<Incident>, n: nat, j: nat, r: Rule, i: Incident)
    requires Linked(rules, incidents) && n < |rules| && j < |incidents| && DistinctIncidents(incidents)
    requires incidents[j].id == rules[n].incidentId && incidents[j].ruleId == rules[n].id
    requires r.id == rules[n].id && r.incidentId == 0 && i.state == ResolvedEvent && i.id == incidents[j].id
    requires forall i, j :: 0 <= i < j < |rules| ==> rules[i].id != rules[j].id
    ensures Linked(rules[n := r], incidents[j := i])
  {
    var after, changed := rules[n := r], incidents[j := i];
    forall k | 0 <= k < |after| && after[k].incidentId != 0
      ensures FiresFor(changed, after[k])
    {
      assert FiresFor(incidents, rules[k]);
      var m :| 0 <= m < |incidents| && incidents[m].id == rules[k].incidentId && incidents[m].state == FiringEvent
               && incidents[m].ruleId == rules[k].id;
      assert changed[m] == incidents[m];
    }
    forall k, m | 0 <= k < |after| && 0 <= m < |changed| && changed[m].state == FiringEvent && changed[m].ruleId == after[k].id
      ensures changed[m].id == after[k].incidentId
    {
      assert incidents[m].id == rules[k].incidentId;
      assert m != j;
    }
  }

  lemma RecoveryPromised(s: Alerts, j: nat, e: Evidence, now: int)
    requires Promised(s.queue, s.incidents) && j < |s.incidents|
    ensures var t := ResolveAt(s, j, e, now); Promised(t.queue, t.incidents)
  {
    var t := ResolveAt(s, j, e, now);
    forall m | 0 <= m < |t.incidents| && t.incidents[m].delivery == Pending
      ensures QueuedFor(t.queue, EventId(t.incidents[m].id, t.incidents[m].state))
    {
      if m == j {
        assert t.queue[|s.queue|].eventId == EventId(t.incidents[j].id, ResolvedEvent);
      } else {
        PromiseStands(s.queue, t.queue, EventId(s.incidents[m].id, s.incidents[m].state));
      }
    }
  }

  lemma RecoveryOutbox(s: Alerts, j: nat, e: Evidence, now: int)
    requires Shaped(s) && Outbox(s.queue, s.incidents) && j < |s.incidents| && s.incidents[j].state == FiringEvent
    ensures var t := ResolveAt(s, j, e, now); Outbox(t.queue, t.incidents)
  {
    RecoveryPromised(s, j, e, now);
    QueueMatchesIds(s);
  }

  lemma ReplacedIsOk(incidents: seq<Incident>, j: nat, i: Incident, nextRuleId: int, nextIncidentId: int)
    requires IncidentsOk(incidents, nextRuleId, nextIncidentId) && j < |incidents| && i.id == incidents[j].id
    requires ValidIncident(i, nextRuleId, nextIncidentId)
    ensures IncidentsOk(incidents[j := i], nextRuleId, nextIncidentId)
  {}

  lemma RecoveredIsValid(s: Alerts, j: nat, r: Rule, e: Evidence, now: int)
    requires j < |s.incidents| && ValidIncident(s.incidents[j], s.nextRuleId, s.nextIncidentId)
    requires Recovers(r, e, now) && s.incidents[j].startedAt <= now
    ensures ValidIncident(Announced(s, Recovered(s.incidents[j], e, now)), s.nextRuleId, s.nextIncidentId)
  {}

  lemma RecoveryStaysShaped(s: Alerts, j: nat, r: Rule, e: Evidence, now: int)
    requires Shaped(s) && j < |s.incidents| && now > 0 && Recovers(r, e, now) && s.incidents[j].startedAt <= now
    ensures var t := ResolveAt(s, j, e, now);
            && IncidentsOk(t.incidents, s.nextRuleId, s.nextIncidentId)
            && |t.queue| <= MAX_QUEUE && QueueOk(t.queue, t.incidents)
  {
    var t := ResolveAt(s, j, e, now);
    RecoveredIsValid(s, j, r, e, now);
    ReplacedIsOk(s.incidents, j, t.incidents[j], s.nextRuleId, s.nextIncidentId);
    StillThere(s.incidents, t.incidents);
    assert HasIncident(s.incidents, s.incidents[j].id);
    EnqueuedIsOk(s, Recovered(s.incidents[j], e, now), ResolvedEvent, now, t.incidents);
  }

  lemma RecoveryKeeps(s: Alerts, n: nat, e: Evidence, now: int, clock: int)
    requires Good(s, clock) && n < |s.rules| && clock <= now && now > 0 && BoundedEvidence(e)
    requires Recovers(s.rules[n], e, now)
    ensures Good(Evaluate(s, n, e, now), now)
  {
    var r := s.rules[n];
    assert FiresFor(s.incidents, r);
    var j :| 0 <= j < |s.incidents| && s.incidents[j].id == r.incidentId && s.incidents[j].state == FiringEvent
             && s.incidents[j].ruleId == r.id;
    ResolvesOne(s, r.incidentId, e, now, j, |s.incidents|);
    EvaluatedIsValid(s, r, e, now);
    var t, u := Evaluate(s, n, e, now), ResolveAt(s, j, e, now);
    assert t == u.(rules := s.rules[n := Evaluated(s, r, e, now)]);
    RulesStayOk(s.rules, n, t.rules[n], s.nextRuleId);
    RecoveryLinks(s.rules, s.incidents, n, j, t.rules[n], t.incidents[j]);
    LinkedAreHeld(t.rules, t.incidents);
    RecoveryStaysShaped(s, j, r, e, now);
    RecoveryOutbox(s, j, e, now);
  }

  lemma {:induction false} ResolvingLengths(s: Alerts, id: int, e: Evidence, now: int, k: nat)
    requires k <= |s.incidents|
    ensures var t := ResolveFrom(s, id, e, now, k);
            && |t.incidents| == |s.incidents| && t.nextIncidentId == s.nextIncidentId && t.rules == s.rules
            && t.nextRuleId == s.nextRuleId
    decreases k
  {
    if k > 0 {
      ResolvingLengths(s, id, e, now, k - 1);
    }
  }

  /** However a rule is evaluated, the record stays good. */
  lemma EvaluateKeeps(s: Alerts, n: nat, e: Evidence, now: int, clock: int)
    requires Good(s, clock) && n < |s.rules| && clock <= now && now > 0 && BoundedEvidence(e)
    ensures Good(Evaluate(s, n, e, now), now)
  {
    EvaluatedIsValid(s, s.rules[n], e, now);
    if Opens(s.rules[n], e, now) {
      OpeningKeeps(s, n, e, now, clock);
    } else if Recovers(s.rules[n], e, now) {
      RecoveryKeeps(s, n, e, now, clock);
    } else {
      RecordOnly(s, n, Evaluated(s, s.rules[n], e, now), clock, now);
    }
  }

  lemma EvaluatedIsGood(s: Alerts, n: nat, e: Evidence, now: int, t: Alerts)
    requires Good(s, now) && n < |s.rules| && now > 0 && BoundedEvidence(e) && t == Evaluate(s, n, e, now)
    ensures Good(t, now)
  {
    EvaluateKeeps(s, n, e, now, now);
  }

  lemma LaterIsGood(s: Alerts, clock: int, now: int)
    requires Good(s, clock) && clock <= now
    ensures Good(s, now)
  {}
}
