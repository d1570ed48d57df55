/**
 What each operation on the alert record does, said of the record before and after it: which
 evidence alarms, what an evaluation shows and announces, what a sending leaves, what an edit keeps.
 */
module AlertEffects {
  import opened Options
  import opened AlertModel
  import opened AlertLaws
  import opened AlertUpkeep
  import opened AlertEvidence
  import opened AlertRuns

  // ---- evidence ------------------------------------------------------------------

  /** Known, a number, not from the future and not too old. */
  predicate Fresh(e: Evidence, now: int) {
    e.known && e.value.Real? && 0 < e.observedAt <= now && now - e.observedAt <= (if e.maxGap <= 0 then 120 else e.maxGap)
  }

  /** A device is offline at 1; latency and loss alarm above the threshold; a loss is a percentage. */
  predicate Alarming(c: Config, e: Evidence, now: int) {
    && Fresh(e, now) && c.threshold.Real?
    && match c.condition
       case DeviceOffline => e.value.x == 1.0
       case WanLatency => e.value.x > c.threshold.x
       case WanLoss => c.threshold.x < e.value.x <= 100.0
       case Other(_) => false
  }

  predicate Calming(c: Config, e: Evidence, now: int) {
    && Fresh(e, now) && c.threshold.Real?
    && match c.condition
       case DeviceOffline => e.value.x == 0.0
       case WanLatency => e.value.x <= c.threshold.x
       case WanLoss => 0.0 <= e.value.x <= c.threshold.x
       case Other(_) => false
  }

  lemma WhatAlarms(c: Config, e: Evidence, now: int)
    requires ValidConfig(c)
    ensures Usable(c.condition, e, now) && Breached(c, e) <==> Alarming(c, e, now)
    ensures Usable(c.condition, e, now) && !Breached(c, e) <==> Calming(c, e, now)
  {}

  /** No look missed for two minutes, no observation missed for longer than its gap. */
  predicate InReach(a: Look, b: Look) {
    && a.at <= b.at <= a.at + 120
    && a.e.observedAt <= b.e.observedAt <= a.e.observedAt + if b.e.maxGap <= 0 then 120 else b.e.maxGap
  }

  /** From m on every look alarmed, each in reach of the one before. */
  predicate Unbroken(c: Config, h: seq<Look>, m: nat) {
    && m < |h|
    && (forall k :: m <= k < |h| ==> h[k].enabled && Alarming(c, h[k].e, h[k].at))
    && (forall k :: m < k < |h| ==> InReach(h[k - 1], h[k]))
  }

  ghost predicate Lasted(c: Config, h: seq<Look>) {
    exists m: nat :: Unbroken(c, h, m) && m < |h| - 1
                     && h[|h| - 1].e.observedAt >= h[m].e.observedAt + c.hold
                     && h[|h| - 1].e.observedAt > h[|h| - 2].e.observedAt
  }

  lemma UnbrokenIsAChain(c: Config, h: seq<Look>, m: nat)
    requires ValidConfig(c)
    ensures Unbroken(c, h, m) <==> Chain(c, h, m)
  {
    forall k | 0 <= k < |h|
      ensures Breach(c, h[k]) <==> h[k].enabled && Alarming(c, h[k].e, h[k].at)
    {
      WhatAlarms(c, h[k].e, h[k].at);
    }
    assert forall k :: 0 < k < |h| ==> (Follows(h[k - 1], h[k]) <==> InReach(h[k - 1], h[k]));
  }

  /** Over every run: an incident opens exactly when the looks at a rule without one end in an alarm that persisted. */
  lemma IncidentsOpenExactly(steps: seq<Step>, b: Book, n: nat, e: Evidence, now: int)
    requires Runs(BLANK, steps, b) && n < |b.s.rules|
    ensures var r := b.s.rules[n];
            Opens(r, e, now) <==>
            r.incidentId == 0 && Lasted(r.config, LooksOf(b, r.id) + [Look(r.config.enabled, e, now)])
  {
    var r := b.s.rules[n];
    var h := LooksOf(b, r.id) + [Look(r.config.enabled, e, now)];
    IncidentsNeedSustainedEvidence(steps, b, n, e, now);
    NotificationsAreFair(steps, b);
    assert ValidRule(r, b.s.nextRuleId);
    forall m: nat
      ensures Unbroken(r.config, h, m) <==> Chain(r.config, h, m)
    {
      UnbrokenIsAChain(r.config, h, m);
    }
  }

  // ---- evaluation ----------------------------------------------------------------

  /** Without a destination nothing is announced, nor with a hundred waiting; otherwise it joins the end, for half an hour. */
  predicate Announcing(s: Alerts, queue: seq<Queued>, i: Incident, event: Event, now: int) {
    if !(s.delivery.enabled && s.delivery.configured) then i.delivery == NotConfigured && queue == s.queue
    else if |s.queue| >= 100 then i.delivery == Failed && i.detail == QueueFull && queue == s.queue
    else
      && i.delivery == Pending && i.detail == NoDetail
      && queue == s.queue + [Queued(EventId(i.id, event), event, now, i, 0, now, now + 1800)]
  }

  /** The new last incident says of which rule, on what device, since when, and on what value. */
  predicate Opened(s: Alerts, t: Alerts, n: nat, e: Evidence, now: int)
    requires n < |s.rules| == |t.rules|
  {
    var r, last := s.rules[n], |s.incidents|;
    && |t.incidents| == last + 1 && t.incidents[..last] == s.incidents && t.nextIncidentId == s.nextIncidentId + 1
    && var i := t.incidents[last];
       && i == Incident(t.nextIncidentId, r.id, r.config.name, r.config.deviceId, e.deviceName, r.config.condition,
                        FiringEvent, now, None, Some(e.value), i.delivery, i.detail)
       && t.rules[n].incidentId == i.id && t.rules[n].state == Firing && t.rules[n].reason == Persisted
       && (if r.lastNotification == 0 || now >= r.lastNotification + r.config.cooldown
           then Announcing(s, t.queue, i, FiringEvent, now) else t.queue == s.queue && i.delivery == Cooldown)
       && t.rules[n].lastNotification == if i.delivery == Pending then now else r.lastNotification
  }

  /** Exactly the rule's incident has recovered, and that is announced whatever the cooldown. */
  predicate Recovery(s: Alerts, t: Alerts, n: nat, e: Evidence, now: int)
    requires n < |s.rules| == |t.rules|
  {
    && |t.incidents| == |s.incidents| && t.nextIncidentId == s.nextIncidentId
    && t.rules[n].incidentId == 0 && t.rules[n].state == Clear && t.rules[n].reason == WithinThreshold && t.rules[n].since.None?
    && t.rules[n].lastNotification == s.rules[n].lastNotification
    && exists j :: 0 <= j < |s.incidents| && RecoversAt(s, t, n, j, e, now)
  }

  predicate RecoversAt(s: Alerts, t: Alerts, n: nat, j: nat, e: Evidence, now: int)
    requires n < |s.rules| && j < |s.incidents| == |t.incidents|
  {
    var i := t.incidents[j];
    && s.incidents[j].id == s.rules[n].incidentId && t.incidents == s.incidents[j := i]
    && i == s.incidents[j].(state := ResolvedEvent, resolvedAt := Some(now), value := Some(e.value), delivery := i.delivery, detail := i.detail)
    && Announcing(s, t.queue, i, ResolvedEvent, now)
  }

  predicate Quiet(s: Alerts, t: Alerts, n: nat, state: RuleState, reason: Reason, since: Option<int>)
    requires n < |s.rules| == |t.rules|
  {
    && t.incidents == s.incidents && t.queue == s.queue && t.nextIncidentId == s.nextIncidentId
    && t.rules[n].incidentId == s.rules[n].incidentId
    && t.rules[n].state == state && t.rules[n].reason == reason && t.rules[n].since == since
    && t.rules[n].lastNotification == s.rules[n].lastNotification
  }

  /** A look at a rule that is enabled; whether an alarm has lasted is what IncidentsOpenExactly settles. */
  predicate Judged(s: Alerts, t: Alerts, n: nat, e: Evidence, now: int)
    requires n < |s.rules| == |t.rules|
  {
    var r, held := s.rules[n], Some(t.rules[n].pendingSince);
    if Alarming(r.config, e, now) then
      && t.rules[n].value == Some(e.value) && t.rules[n].observedAt == Some(e.observedAt)
      && if r.incidentId != 0 then Quiet(s, t, n, Firing, AboveThreshold, r.since)
         else if Opens(r, e, now) then Opened(s, t, n, e, now) && t.rules[n].since == held
         else Quiet(s, t, n, PendingHold, WaitingForSustained, held)
    else if Calming(r.config, e, now) then
      && t.rules[n].value == Some(e.value) && t.rules[n].observedAt == Some(e.observedAt)
      && if r.incidentId == 0 then Quiet(s, t, n, Clear, WithinThreshold, None)
         else if e.observedAt <= r.lastEvidence then Quiet(s, t, n, Unobserved, NewerNeeded, r.since)
         else Recovery(s, t, n, e, now)
    else
      && t.rules[n].value == None && t.rules[n].observedAt == None
      && Quiet(s, t, n, Unobserved, WhyUnusable(r.config.condition, e), if r.incidentId == 0 then None else r.since)
  }

  /** That no device or link can be so, or else the reason given with the evidence, if there is one. */
  function WhyUnusable(c: Condition, e: Evidence): Reason {
    if Impossible(c, e.value) then OutOfRange else if e.reason in {NoReason, Given("")} then Unavailable else e.reason
  }

  /** A device is online or offline, and a loss is a percentage, or not a number at all. */
  predicate Impossible(c: Condition, n: Num) {
    match c
    case DeviceOffline => n != Real(0.0) && n != Real(1.0)
    case WanLoss => n.PosInf? || n.NegInf? || (n.Real? && !(0.0 <= n.x <= 100.0))
    case _ => false
  }

  /** What one look at rule n shows, opens, recovers and announces; nothing else moves. */
  predicate Evaluation(s: Alerts, t: Alerts, n: nat, e: Evidence, now: int)
    requires n < |s.rules|
  {
    var r := s.rules[n];
    && |t.rules| == |s.rules| && t == s.(rules := s.rules[n := t.rules[n]], incidents := t.incidents, queue := t.queue,
                                         nextIncidentId := t.nextIncidentId)
    && t.rules[n].config == r.config && t.rules[n].id == r.id && t.rules[n].target == r.target
    && if !r.config.enabled then t.rules[n] == r.(state := Disabled, reason := RuleIsDisabled) && Quiet(s, t, n, Disabled, RuleIsDisabled, r.since)
       else t.rules[n].lastEvaluation == now && Judged(s, t, n, e, now)
  }

  lemma OpeningDoes(s: Alerts, n: nat, e: Evidence, now: int)
    requires n < |s.rules| && Opens(s.rules[n], e, now)
    ensures Opened(s, Evaluate(s, n, e, now), n, e, now)
  {}

  lemma RecoveryDoes(s: Alerts, n: nat, e: Evidence, now: int, clock: int)
    requires Good(s, clock) && n < |s.rules| && Recovers(s.rules[n], e, now)
    ensures var t := Evaluate(s, n, e, now);
            Recovery(s, t, n, e, now) && t == s.(rules := t.rules, incidents := t.incidents, queue := t.queue)
  {
    var r, t := s.rules[n], Evaluate(s, n, e, now);
    assert FiresFor(s.incidents, r);
    var j :| 0 <= j < |s.incidents| && s.incidents[j].id == r.incidentId && s.incidents[j].state == FiringEvent;
    ResolvesOne(s, r.incidentId, e, now, j, |s.incidents|);
    assert RecoversAt(s, t, n, j, e, now);
  }

  lemma EvaluationDoes(s: Alerts, n: nat, e: Evidence, now: int, clock: int)
    requires Good(s, clock) && n < |s.rules|
    ensures Evaluation(s, Evaluate(s, n, e, now), n, e, now)
  {
    var r := s.rules[n];
    assert ValidRule(r, s.nextRuleId);
    WhatAlarms(r.config, e, now);
    if Opens(r, e, now) {
      OpeningDoes(s, n, e, now);
    } else if Recovers(r, e, now) {
      RecoveryDoes(s, n, e, now, clock);
      ResolvingLengths(s, r.incidentId, e, now, |s.incidents|);
    }
  }

  /** The newest observation is remembered, and an alarm that ends, or can no longer be seen, has not lasted. */
  lemma EvidenceIsNoted(s: Alerts, n: nat, e: Evidence, now: int, clock: int)
    requires Good(s, clock) && n < |s.rules| && s.rules[n].config.enabled
    ensures var r, u := s.rules[n], Evaluate(s, n, e, now).rules[n];
            if Alarming(r.config, e, now) then
              && u.lastEvidence == (if r.incidentId != 0 && r.lastEvidence > e.observedAt then r.lastEvidence else e.observedAt)
              && (r.incidentId != 0 ==> u.pendingSince == r.pendingSince)
            else if Calming(r.config, e, now) && (r.incidentId == 0 || e.observedAt > r.lastEvidence) then
              u.pendingSince == 0 && u.lastEvidence == e.observedAt
            else if Calming(r.config, e, now) then u.pendingSince == r.pendingSince && u.lastEvidence == r.lastEvidence
            else u.pendingSince == 0 && u.lastEvidence == if r.incidentId == 0 then 0 else r.lastEvidence
  {
    assert ValidRule(s.rules[n], s.nextRuleId);
    WhatAlarms(s.rules[n].config, e, now);
  }

  /** Every rule is looked at once, in turn, on the evidence the observations hold for it, if any. */
  lemma PassDoes(s: Alerts, o: Observations, now: int) returns (stages: seq<Alerts>)
    requires Good(s, now) && now > 0 && BoundedObservations(o)
    ensures |stages| == |s.rules| + 1 && stages[0] == s
    ensures forall k :: 0 <= k < |stages| ==> |stages[k].rules| == |s.rules|
    ensures forall k :: 0 <= k < |s.rules| ==>
                          Evaluation(stages[k], stages[k + 1], k,
                                     if s.rules[k].id in o then o[s.rules[k].id] else Evidence(false, Real(0.0), 0, 0, "", NoReason), now)
    ensures Observe(s, o, now) == Prune(stages[|s.rules|].(evaluatedAt := Some(now)))
  {
    stages := seq(|s.rules| + 1, k requires 0 <= k <= |s.rules| => EvaluateTo(s, o, now, k));
    forall k | 0 <= k < |s.rules|
      ensures Evaluation(stages[k], stages[k + 1], k, EvidenceFor(o, s.rules[k].id), now)
    {
      LookDoes(s, o, now, k, stages[k], stages[k + 1]);
    }
  }

  lemma LookDoes(s: Alerts, o: Observations, now: int, k: nat, t: Alerts, u: Alerts)
    requires Good(s, now) && now > 0 && BoundedObservations(o) && k < |s.rules|
    requires t == EvaluateTo(s, o, now, k) && u == EvaluateTo(s, o, now, k + 1)
    ensures Evaluation(t, u, k, EvidenceFor(o, s.rules[k].id), now)
  {
    PassKeeps(s, o, now, k, t);
    SameRule(s, o, now, k, k);
    EvaluationDoes(t, k, EvidenceFor(o, s.rules[k].id), now, now);
  }

  lemma {:induction false} SameRule(s: Alerts, o: Observations, now: int, n: nat, k: nat)
    requires n <= |s.rules| && k < |s.rules|
    ensures |EvaluateTo(s, o, now, n).rules| == |s.rules| && EvaluateTo(s, o, now, n).rules[k].id == s.rules[k].id
    decreases n
  {
    if n > 0 {
      SameRule(s, o, now, n - 1, k);
    }
  }

  /** A rule holds it, or something about it is still to be sent. */
  predicate Needed(s: Alerts, i: Incident) {
    || (exists n :: 0 <= n < |s.rules| && s.rules[n].incidentId != 0 && s.rules[n].incidentId == i.id)
    || (exists k :: 0 <= k < |s.queue| && s.queue[k].incident.id == i.id)
  }

  /** Down to 500, and before some point only what is needed stays, after it everything. */
  lemma PruningDoes(s: Alerts)
    requires |s.rules| <= 50 && |s.queue| <= 100 && DistinctIncidents(s.incidents)
    ensures var t := Prune(s);
            && t == s.(incidents := t.incidents) && |t.incidents| == (if |s.incidents| > 500 then 500 else |s.incidents|)
            && exists cut: nat :: KeptFrom(s, t.incidents, cut)
  {
    PruneFits(s);
    if |s.incidents| > 500 {
      var active := ActiveIds(s);
      DropsTheOldest(s.incidents, active, |s.incidents| - 500);
      var cut: nat :| CutAt(s.incidents, active, |s.incidents| - 500, cut);
      forall i: Incident
        ensures i.id in active <==> Needed(s, i)
      {
      }
      BusyExactly(s.incidents[..cut], active);
      assert s.incidents[..cut] + s.incidents[cut..] == s.incidents;
      assert KeptFrom(s, Prune(s).incidents, cut);
    } else {
      assert KeptFrom(s, Prune(s).incidents, 0);
    }
  }

  ghost predicate KeptFrom(s: Alerts, kept: seq<Incident>, cut: nat) {
    && cut <= |s.incidents| && |s.incidents| - cut <= |kept| && kept[|kept| - (|s.incidents| - cut)..] == s.incidents[cut..]
    && forall i :: i in kept[..|kept| - (|s.incidents| - cut)] <==> i in s.incidents[..cut] && Needed(s, i)
  }

  lemma {:induction false} BusyExactly(incidents: seq<Incident>, active: set<int>)
    ensures forall i :: i in Busy(incidents, active) <==> i in incidents && i.id in active
  {
    if incidents != [] {
      BusyExactly(incidents[1..], active);
      assert incidents == [incidents[0]] + incidents[1..];
    }
  }

  // ---- sending -------------------------------------------------------------------

  /** The outcome is on record with the incident, if that is still in the state the entry speaks of. */
  predicate Marked(before: seq<Incident>, after: seq<Incident>, q: Queued, delivery: DeliveryState, detail: Detail) {
    && |after| == |before|
    && forall j :: 0 <= j < |before| ==>
                     after[j] == if before[j].id == q.incident.id && before[j].state == q.event
                                 then before[j].(delivery := delivery, detail := detail) else before[j]
  }

  /** A call that worked ends the entry; one that failed ends it at the third attempt, and is repeated after five minutes. */
  predicate Sending(s: Alerts, t: Alerts, outcome: Option<bool>, now: int) {
    && s.queue != []
    && t == s.(incidents := t.incidents, queue := t.queue, delivery := t.delivery)
    && t.delivery.lastAttemptAt == Some(now)
    && var q := s.queue[0];
       var again := [q.(attempts := q.attempts + 1, nextAttempt := now + 300)] + s.queue[1..];
       match outcome
       case None => t.incidents == s.incidents && t.queue == again && t.delivery == s.delivery.(lastAttemptAt := Some(now))
       case Some(worked) =>
         if worked then
           && t.queue == s.queue[1..] && Marked(s.incidents, t.incidents, q, Sent, NoDetail)
           && t.delivery == s.delivery.(lastAttemptAt := Some(now), lastSuccessAt := Some(now), lastError := NoDetail)
         else
           && t.queue == (if q.attempts + 1 >= 3 then s.queue[1..] else again)
           && Marked(s.incidents, t.incidents, q, Failed, TransportFailed)
           && t.delivery == s.delivery.(lastAttemptAt := Some(now), lastError := TransportFailed)
  }

  lemma SendingDoes(b: Book, outcome: Option<bool>, now: int)
    requires Allowed(b, Delivering(outcome, now))
    ensures Sending(b.s, Next(b, Delivering(outcome, now)).s, outcome, now)
    ensures b.s.delivery.enabled && b.s.queue[0].attempts < 3 && b.s.queue[0].nextAttempt <= now <= b.s.queue[0].expiresAt
  {
    var q := b.s.queue[0];
    var t := Attempt(b.s, now);
    assert t.queue == [q.(attempts := q.attempts + 1, nextAttempt := now + 300)] + b.s.queue[1..];
    assert t.queue[1..] == b.s.queue[1..];
  }

  /** An entry is given up unsent exactly for want of a destination, of time, or of attempts. */
  lemma GivingUpDoes(b: Book, now: int)
    requires Allowed(b, Dropping(now))
    ensures var t := Next(b, Dropping(now)).s;
            && t == b.s.(incidents := t.incidents, queue := b.s.queue[1..])
            && Marked(b.s.incidents, t.incidents, b.s.queue[0], Failed, ExpiredOrDisabled)
    ensures !b.s.delivery.enabled || b.s.queue[0].expiresAt < now || b.s.queue[0].attempts >= 3
  {}

  /** An entry that is due is either sent or given up, and which of the two is not left open. */
  lemma DueIsSentOrGivenUp(b: Book, outcome: Option<bool>, now: int)
    requires b.clock <= now && now > 0 && b.s.queue != [] && b.s.queue[0].nextAttempt <= now
    ensures Allowed(b, Delivering(outcome, now)) <==> !Allowed(b, Dropping(now))
  {}

  // ---- edits ---------------------------------------------------------------------

  /** The rule's entries are gone from the queue, all others stay, and what was dropped is marked. */
  ghost predicate Withdrawn(s: Alerts, t: Alerts, ruleId: int) {
    && (forall q :: q in t.queue <==> q in s.queue && q.incident.ruleId != ruleId)
    && |t.incidents| == |s.incidents|
    && forall j :: 0 <= j < |s.incidents| ==>
                     t.incidents[j] == if exists k :: 0 <= k < |s.queue| && SpeaksOf(s.queue[k], ruleId, s.incidents[j])
                                       then s.incidents[j].(delivery := Cancelled, detail := CancelledByChange) else s.incidents[j]
  }

  predicate SpeaksOf(q: Queued, ruleId: int, i: Incident) {
    q.incident.ruleId == ruleId && q.incident.id == i.id && q.event == i.state
  }

  lemma CancellingDoes(s: Alerts, ruleId: int)
    requires ruleId != 0
    ensures var t := Cancel(s, ruleId); t == s.(incidents := t.incidents, queue := t.queue) && Withdrawn(s, t, ruleId)
  {
    CancelMarks(s, s.queue, ruleId);
    KeptExactly(s.queue, ruleId);
    var t := Cancel(s, ruleId);
    forall j | 0 <= j < |s.incidents|
      ensures Cancels(s.queue, ruleId, s.incidents[j]) <==>
              exists k :: 0 <= k < |s.queue| && SpeaksOf(s.queue[k], ruleId, s.incidents[j])
    {
      if k :| 0 <= k < |s.queue| && !Keeps(s.queue[k], ruleId) && s.queue[k].incident.id == s.incidents[j].id
              && s.queue[k].event == s.incidents[j].state {
        assert SpeaksOf(s.queue[k], ruleId, s.incidents[j]);
      }
      if k :| 0 <= k < |s.queue| && SpeaksOf(s.queue[k], ruleId, s.incidents[j]) {
        assert !Keeps(s.queue[k], ruleId);
      }
    }
  }

  /** As new: nothing seen, nothing pending, no incident; only the cooldown goes on. */
  predicate StartsOver(r: Rule, config: Config, id: int, target: string, lastNotification: int) {
    && r.config == config && r.id == id && r.target == target && r.lastNotification == lastNotification
    && r.state == (if config.enabled then Unobserved else Disabled)
    && r.incidentId == 0 && r.pendingSince == 0 && r.lastEvidence == 0 && r.lastEvaluation == 0
    && r.since == None && r.value == None && r.observedAt == None
  }

  /** An edit of the rules alone; a rule that is switched off loses what it had queued. */
  ghost predicate RulesEdited(s: Alerts, t: Alerts, ruleId: int, enabled: bool) {
    && t == s.(rules := t.rules, nextRuleId := t.nextRuleId, incidents := t.incidents, queue := t.queue)
    && if enabled then t.incidents == s.incidents && t.queue == s.queue else Withdrawn(s, t, ruleId)
  }

  lemma AddingDoes(s: Alerts, config: Config, target: string)
    requires s.nextRuleId >= 0
    ensures var t := AddRule(s, config, target);
            && RulesEdited(s, t, t.nextRuleId, config.enabled) && t.nextRuleId == s.nextRuleId + 1
            && |t.rules| == |s.rules| + 1 && t.rules[..|s.rules|] == s.rules
            && StartsOver(t.rules[|s.rules|], config, t.nextRuleId, target, 0)
  {
    var id := s.nextRuleId + 1;
    var u := s.(nextRuleId := id, rules := s.rules + [FreshRule(config, id, target, 0)]);
    CancellingDoes(u, id);
  }

  lemma ReplacingDoes(s: Alerts, n: nat, config: Config, target: string)
    requires n < |s.rules| && s.rules[n].incidentId == 0 && s.rules[n].id != 0
    ensures var t := ReplaceRule(s, n, config, target);
            && RulesEdited(s, t, s.rules[n].id, config.enabled) && t.nextRuleId == s.nextRuleId
            && |t.rules| == |s.rules| && t.rules == s.rules[n := t.rules[n]]
            && StartsOver(t.rules[n], config, s.rules[n].id, target, s.rules[n].lastNotification)
  {
    CancellingDoes(s.(rules := s.rules[n := FreshRule(config, s.rules[n].id, target, s.rules[n].lastNotification)]), s.rules[n].id);
  }

  /** Switching touches the switch and what is shown; the incident held, and its evidence, stay. */
  lemma SwitchingDoes(s: Alerts, n: nat, enabled: bool)
    requires n < |s.rules| && s.rules[n].id != 0
    ensures var t, r := SwitchRule(s, n, enabled), s.rules[n];
            && RulesEdited(s, t, r.id, enabled) && t.nextRuleId == s.nextRuleId
            && |t.rules| == |s.rules|
            && t.rules == s.rules[n := r.(config := r.config.(enabled := enabled), state := if enabled then Unobserved else Disabled,
                                          reason := if enabled then WaitingForFresh else DisabledNotRecovered)]
  {
    var r := s.rules[n].(config := s.rules[n].config.(enabled := enabled));
    CancellingDoes(s.(rules := s.rules[n := r.(state := Disabled, reason := DisabledNotRecovered)]), r.id);
  }

  lemma RemovingDoes(s: Alerts, n: nat, clock: int)
    requires Good(s, clock) && n < |s.rules|
    ensures var t := RemoveRule(s, n);
            && RulesEdited(s, t, s.rules[n].id, false) && t.nextRuleId == s.nextRuleId
            && (forall r :: r in t.rules <==> r in s.rules && r.id != s.rules[n].id)
  {
    var u := s.(rules := s.rules[..n] + s.rules[n + 1..]);
    assert ValidRule(s.rules[n], s.nextRuleId);
    CancellingDoes(u, s.rules[n].id);
    OthersRemain(s.rules, n);
  }

  lemma OthersRemain(rules: seq<Rule>, n: nat)
    requires n < |rules| && forall i, j :: 0 <= i < j < |rules| ==> rules[i].id != rules[j].id
    ensures forall r :: r in rules[..n] + rules[n + 1..] <==> r in rules && r.id != rules[n].id
  {
    assert rules == rules[..n] + [rules[n]] + rules[n + 1..];
    assert forall k :: 0 <= k < n ==> rules[..n][k] == rules[k];
    var after := rules[n + 1..];
    assert forall k :: 0 <= k < |after| ==> after[k] == rules[n + 1 + k];
  }

  /** The queue is empty, and an incident is cancelled exactly if its present state was still to be sent. */
  ghost predicate Silenced(s: Alerts, t: Alerts) {
    && t == s.(queue := [], incidents := t.incidents, delivery := t.delivery, ciphertextLength := t.ciphertextLength)
    && |t.incidents| == |s.incidents|
    && forall j :: 0 <= j < |s.incidents| ==>
                     t.incidents[j] == if exists k :: 0 <= k < |s.queue| && Tells(s.queue[k], s.incidents[j])
                                       then s.incidents[j].(delivery := Cancelled, detail := CancelledByChange) else s.incidents[j]
  }

  predicate Tells(q: Queued, i: Incident) {
    q.incident.id == i.id && q.event == i.state
  }

  lemma AllAreCancelled(s: Alerts)
    ensures Silenced(s, Cancel(s, 0)) && Cancel(s, 0).delivery == s.delivery && Cancel(s, 0).ciphertextLength == s.ciphertextLength
  {
    CancelMarks(s, s.queue, 0);
    NoneKept(s.queue);
    forall j | 0 <= j < |s.incidents|
      ensures Cancels(s.queue, 0, s.incidents[j]) <==> exists k :: 0 <= k < |s.queue| && Tells(s.queue[k], s.incidents[j])
    {
      if k :| 0 <= k < |s.queue| && Tells(s.queue[k], s.incidents[j]) {
        assert !Keeps(s.queue[k], 0);
      }
    }
  }

  /** Only on request is the destination forgotten with it. */
  lemma SilencingDoes(s: Alerts, forget: bool)
    ensures var t := DisableDelivery(s, forget);
            && Silenced(s, t) && !t.delivery.enabled
            && (if forget then t.ciphertextLength == 0 && !t.delivery.configured && t.delivery.hostLength == 0
                else t.ciphertextLength == s.ciphertextLength && t.delivery == s.delivery.(enabled := false))
  {
    AllAreCancelled(if forget then s.(ciphertextLength := 0, delivery := NO_DELIVERY) else s.(delivery := s.delivery.(enabled := false)));
  }

  /** A new destination starts with nothing sent, nothing failed and nothing waiting. */
  lemma ConnectingDoes(s: Alerts, enabled: bool, sealedLength: nat, hostLength: nat)
    ensures var t := ConfigureDelivery(s, enabled, sealedLength, hostLength);
            && Silenced(s, t) && t.ciphertextLength == sealedLength
            && t.delivery.enabled == enabled && (t.delivery.configured <==> sealedLength > 0) && t.delivery.hostLength == hostLength
            && t.delivery.lastAttemptAt == None && t.delivery.lastSuccessAt == None && t.delivery.lastError == NoDetail
  {
    AllAreCancelled(s.(ciphertextLength := sealedLength,
                       delivery := Delivery(sealedLength != 0, hostLength, enabled, None, None, NoDetail)));
  }

  /** Whatever is pending is cancelled by either. */
  lemma PendingIsCancelled(s: Alerts, t: Alerts, j: nat, clock: int)
    requires Valid(s) && Good(s, clock) && Silenced(s, t) && j < |s.incidents| && s.incidents[j].delivery == Pending
    ensures t.incidents[j].delivery == Cancelled
  {
    assert QueuedFor(s.queue, EventId(s.incidents[j].id, s.incidents[j].state));
    var k :| 0 <= k < |s.queue| && s.queue[k].eventId == EventId(s.incidents[j].id, s.incidents[j].state);
    var q := s.queue[k];
    assert ValidQueued(q, s.incidents);
    assert q.eventId == EventId(q.incident.id, q.event);
    assert Tells(s.queue[k], s.incidents[j]);
  }
}
