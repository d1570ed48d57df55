/**
 Whole runs of the alert record: every save any sequence of operations can make, with a
 ledger of what was ever queued and sent and of what each rule has been shown.
 */
module AlertRuns {
  import opened Options
  import opened AlertModel
  import opened AlertLaws
  import opened AlertUpkeep
  import opened AlertEvidence

  /** A sending and what came of it, unless that could not be saved. */
  datatype Send = Send(id: EventId, at: int, outcome: Option<bool>)

  datatype Book = Book(
    s: Alerts, clock: int, enqueued: seq<EventId>, sends: seq<Send>, looks: map<int, seq<Look>>)

  const BLANK := Book(EMPTY, 0, [], [], map[])

  function LooksOf(b: Book, id: int): seq<Look> {
    if id in b.looks then b.looks[id] else []
  }

  function Ids(queue: seq<Queued>): seq<EventId> {
    seq(|queue|, k requires 0 <= k < |queue| => queue[k].eventId)
  }

  /** What stands in `after` beyond the length of `before`. */
  function Newcomers(before: seq<Queued>, after: seq<Queued>): seq<EventId> {
    if |before| <= |after| then Ids(after[|before|..]) else []
  }

  // ---- steps ---------------------------------------------------------------------

  function Looked(b: Book, n: nat, e: Evidence, now: int): Book
    requires n < |b.s.rules|
  {
    var r, t := b.s.rules[n], Evaluate(b.s, n, e, now);
    Book(t, now, b.enqueued + Newcomers(b.s.queue, t.queue), b.sends,
         b.looks[r.id := LooksOf(b, r.id) + [Look(r.config.enabled, e, now)]])
  }

  function LookedTo(b: Book, o: Observations, now: int, n: nat): Book
    requires n <= |b.s.rules|
    ensures |LookedTo(b, o, now, n).s.rules| == |b.s.rules|
    decreases n
  {
    if n == 0 then b else
    var c := LookedTo(b, o, now, n - 1);
    Looked(c, n - 1, EvidenceFor(o, c.s.rules[n - 1].id), now)
  }

  function Observed(b: Book, o: Observations, now: int): Book {
    LookedTo(b, o, now, |b.s.rules|).(s := Observe(b.s, o, now), clock := now)
  }

  /** An attempt and its call; the outcome is lost if the record cannot be saved again. */
  function Delivered(b: Book, outcome: Option<bool>, now: int): Book
    requires b.s.queue != []
  {
    var t := Attempt(b.s, now);
    b.(clock := now, sends := b.sends + [Send(b.s.queue[0].eventId, now, outcome)],
       s := if outcome.Some? then Settle(t, outcome.value, now) else t)
  }

  datatype Step =
    | Observing(o: Observations, now: int)
    | Dropping(now: int)
    | Delivering(outcome: Option<bool>, now: int)
    | Adding(config: Config, target: string)
    | Replacing(n: nat, config: Config, target: string)
    | Switching(n: nat, enabled: bool)
    | Removing(n: nat)
    | Silencing(forget: bool)
    | Redirecting(enabled: bool, sealedLength: nat, hostLength: nat)

  /** The guards of the source, a clock that does not go back, and a store that takes the record. */
  predicate Allowed(b: Book, x: Step) {
    match x
    case Observing(o, now) =>
      b.clock <= now && now > 0 && BoundedObservations(o) && b.s.nextIncidentId + Openings(b.s, o, now, |b.s.rules|) < MAX_INT64
    case Dropping(now) => b.clock <= now && Due(b.s, now) && Lapsed(b.s, now)
    case Delivering(_, now) => b.clock <= now && now > 0 && Due(b.s, now) && !Lapsed(b.s, now)
    case Adding(config, target) =>
      |b.s.rules| < MAX_RULES && ValidConfig(config) && target != "" && Bytes(target) <= 128 && b.s.nextRuleId + 1 < MAX_INT64
    case Replacing(n, config, target) =>
      n < |b.s.rules| && b.s.rules[n].incidentId == 0 && ValidConfig(config) && target != "" && Bytes(target) <= 128
    case Switching(n, _) => n < |b.s.rules| && b.s.rules[n].incidentId != 0
    case Removing(n) => n < |b.s.rules|
    case Silencing(_) => true
    case Redirecting(enabled, sealedLength, hostLength) =>
      (enabled ==> sealedLength != 0) && sealedLength <= 16384 && hostLength <= 253
  }

  function Next(b: Book, x: Step): Book
    requires Allowed(b, x)
  {
    match x
    case Observing(o, now) => Observed(b, o, now)
    case Dropping(now) => b.(s := DropHead(b.s), clock := now)
    case Delivering(outcome, now) => Delivered(b, outcome, now)
    case Adding(config, target) => b.(s := AddRule(b.s, config, target), looks := b.looks[b.s.nextRuleId + 1 := []])
    case Replacing(n, config, target) => b.(s := ReplaceRule(b.s, n, config, target), looks := b.looks[b.s.rules[n].id := []])
    case Switching(n, enabled) => b.(s := SwitchRule(b.s, n, enabled))
    case Removing(n) => b.(s := RemoveRule(b.s, n))
    case Silencing(forget) => b.(s := DisableDelivery(b.s, forget))
    case Redirecting(enabled, sealedLength, hostLength) => b.(s := ConfigureDelivery(b.s, enabled, sealedLength, hostLength))
  }

  // ---- the ledger's invariant -------------------------------------------------------

  predicate Distinct(ids: seq<EventId>) {
    forall i, j :: 0 <= i < j < |ids| ==> ids[i] != ids[j]
  }

  /** Everything queued has been entered once; a recovery entered means no such incident fires. */
  predicate Entered(queue: seq<Queued>, incidents: seq<Incident>, nextIncidentId: int, enqueued: seq<EventId>) {
    && Distinct(enqueued)
    && (forall k :: 0 <= k < |queue| ==> queue[k].eventId in enqueued)
    && (forall k :: 0 <= k < |enqueued| ==> enqueued[k].incident <= nextIncidentId)
    && (forall k, j :: 0 <= k < |enqueued| && 0 <= j < |incidents| && enqueued[k].event == ResolvedEvent
                       && incidents[j].id == enqueued[k].incident ==>
                         incidents[j].state == ResolvedEvent)
  }

  function Times(sends: seq<Send>, id: EventId): nat {
    if sends == [] then 0
    else Times(sends[..|sends| - 1], id) + if sends[|sends| - 1].id == id then 1 else 0
  }

  /** Attempts of one event keep 300 seconds apart, and end with one that worked; no alarm goes out after its own recovery. */
  predicate Apart(a: Send, b: Send) {
    && (a.id == b.id ==> b.at >= a.at + 300 && a.outcome != Some(true))
    && !(a.id.incident == b.id.incident && a.id.event == ResolvedEvent && b.id.event == FiringEvent)
  }

  ghost predicate SentFairly(sends: seq<Send>) {
    && (forall id :: Times(sends, id) <= 3)
    && (forall i, j :: 0 <= i < j < |sends| ==> Apart(sends[i], sends[j]))
  }

  /** What is still queued may be sent again without breaking that. */
  predicate MayGo(q: Queued, sends: seq<Send>) {
    && Times(sends, q.eventId) <= q.attempts
    && (forall k :: 0 <= k < |sends| ==>
                      (sends[k].id == q.eventId ==> sends[k].at + 300 <= q.nextAttempt && sends[k].outcome != Some(true))
                      && !(sends[k].id.incident == q.eventId.incident && sends[k].id.event == ResolvedEvent && q.eventId.event == FiringEvent))
  }

  predicate Recorded(queue: seq<Queued>, enqueued: seq<EventId>, sends: seq<Send>) {
    && (forall k :: 0 <= k < |sends| ==> sends[k].id in enqueued)
    && (forall k :: 0 <= k < |queue| ==> MayGo(queue[k], sends))
  }

  ghost predicate AllBacked(b: Book) {
    forall k :: 0 <= k < |b.s.rules| ==> Backed(b.s.rules[k], LooksOf(b, b.s.rules[k].id))
  }

  ghost predicate Sound(b: Book) {
    var record := Good(b.s, b.clock) && AllBacked(b);
    var ledger := && Entered(b.s.queue, b.s.incidents, b.s.nextIncidentId, b.enqueued)
                  && Recorded(b.s.queue, b.enqueued, b.sends) && SentFairly(b.sends);
    record && ledger
  }

  // ---- evaluation ----------------------------------------------------------------------

  /** What one evaluation can put in the queue. */
  ghost predicate Grows(s: Alerts, t: Alerts) {
    || (t.queue == s.queue && StillResolved(s, t))
    || (exists q :: t.queue == s.queue + [q] && Newcomer(s, t, q))
  }

  predicate StillResolved(s: Alerts, t: Alerts) {
    && s.nextIncidentId <= t.nextIncidentId
    && forall j :: 0 <= j < |t.incidents| && t.incidents[j].state == FiringEvent && t.incidents[j].id <= s.nextIncidentId ==>
                     0 <= j < |s.incidents| && s.incidents[j].id == t.incidents[j].id && s.incidents[j].state == FiringEvent
  }

  predicate Newcomer(s: Alerts, t: Alerts, q: Queued) {
    && StillResolved(s, t) && q.eventId == EventId(q.incident.id, q.event) && q.attempts == 0 && q.incident.id <= t.nextIncidentId
    && match q.event
       case FiringEvent => q.incident.id > s.nextIncidentId
       case ResolvedEvent =>
         && (exists j :: 0 <= j < |s.incidents| && s.incidents[j].id == q.incident.id && s.incidents[j].state == FiringEvent)
         && (forall j :: 0 <= j < |t.incidents| && t.incidents[j].id == q.incident.id ==> t.incidents[j].state == ResolvedEvent)
  }

  lemma OpeningGrows(s: Alerts, n: nat, e: Evidence, now: int)
    requires n < |s.rules| && Opens(s.rules[n], e, now)
    ensures Grows(s, Evaluate(s, n, e, now))
  {}

  lemma ResolvingGrows(s: Alerts, j: nat, e: Evidence, now: int, t: Alerts)
    requires j < |s.incidents| && s.incidents[j].state == FiringEvent && s.incidents[j].id <= s.nextIncidentId
    requires DistinctIncidents(s.incidents)
    requires t.queue == ResolveAt(s, j, e, now).queue && t.incidents == ResolveAt(s, j, e, now).incidents
    requires t.nextIncidentId == s.nextIncidentId
    ensures Grows(s, t)
  {}

  lemma RecoveryGrows(s: Alerts, n: nat, e: Evidence, now: int, clock: int)
    requires Good(s, clock) && n < |s.rules| && Recovers(s.rules[n], e, now)
    ensures Grows(s, Evaluate(s, n, e, now))
  {
    var r, t := s.rules[n], Evaluate(s, n, e, now);
    assert FiresFor(s.incidents, r);
    var j :| 0 <= j < |s.incidents| && s.incidents[j].id == r.incidentId && s.incidents[j].state == FiringEvent
             && s.incidents[j].ruleId == r.id;
    ResolvesOne(s, r.incidentId, e, now, j, |s.incidents|);
    assert ValidIncident(s.incidents[j], s.nextRuleId, s.nextIncidentId);
    ResolvingGrows(s, j, e, now, t);
  }

  /** An alarm is only queued once the rule's cooldown is over, and starts it anew; nothing else moves it. */
  lemma AlarmsKeepTheCooldown(s: Alerts, n: nat, e: Evidence, now: int, clock: int)
    requires Good(s, clock) && n < |s.rules|
    ensures var r, t := s.rules[n], Evaluate(s, n, e, now);
            if |t.queue| > |s.queue| && t.queue[|s.queue|].event == FiringEvent
            then && (r.lastNotification == 0 || now - r.lastNotification >= r.config.cooldown)
                 && t.rules[n].lastNotification == now && t.queue[|s.queue|].incident.ruleId == r.id
            else t.rules[n].lastNotification == r.lastNotification
  {
    if Recovers(s.rules[n], e, now) {
      assert FiresFor(s.incidents, s.rules[n]);
      var j :| 0 <= j < |s.incidents| && s.incidents[j].id == s.rules[n].incidentId;
      ResolvesOne(s, s.rules[n].incidentId, e, now, j, |s.incidents|);
    }
  }

  lemma EvaluationGrows(s: Alerts, n: nat, e: Evidence, now: int, clock: int)
    requires Good(s, clock) && n < |s.rules|
    ensures Grows(s, Evaluate(s, n, e, now))
  {
    if Opens(s.rules[n], e, now) {
      OpeningGrows(s, n, e, now);
    } else if Recovers(s.rules[n], e, now) {
      RecoveryGrows(s, n, e, now, clock);
    }
  }

  lemma {:induction false} NeverSent(sends: seq<Send>, id: EventId)
    requires forall k :: 0 <= k < |sends| ==> sends[k].id != id
    ensures Times(sends, id) == 0
  {
    if sends != [] {
      NeverSent(sends[..|sends| - 1], id);
    }
  }

  lemma GrowthIsEntered(s: Alerts, t: Alerts, enqueued: seq<EventId>)
    requires Grows(s, t) && Entered(s.queue, s.incidents, s.nextIncidentId, enqueued)
    ensures Entered(t.queue, t.incidents, t.nextIncidentId, enqueued + Newcomers(s.queue, t.queue))
  {
    if t.queue == s.queue {
      assert enqueued + Newcomers(s.queue, t.queue) == enqueued;
    } else {
      var q :| t.queue == s.queue + [q] && Newcomer(s, t, q);
      assert Newcomers(s.queue, t.queue) == [q.eventId];
      assert q.eventId !in enqueued;
      assert forall k :: 0 <= k < |s.queue| ==> t.queue[k] == s.queue[k];
    }
  }

  lemma GrowthIsRecorded(s: Alerts, t: Alerts, enqueued: seq<EventId>, sends: seq<Send>)
    requires Grows(s, t) && Entered(s.queue, s.incidents, s.nextIncidentId, enqueued) && Recorded(s.queue, enqueued, sends)
    ensures Recorded(t.queue, enqueued + Newcomers(s.queue, t.queue), sends)
  {
    if t.queue != s.queue {
      var q :| t.queue == s.queue + [q] && Newcomer(s, t, q);
      assert q.eventId !in enqueued;
      NeverSent(sends, q.eventId);
      assert MayGo(q, sends);
    }
  }

  lemma LookIsBacked(b: Book, n: nat, e: Evidence, now: int)
    requires n < |b.s.rules| && AllBacked(b) && RulesOk(b.s.rules, b.s.nextRuleId) && b.s.nextIncidentId >= 0
    requires Evaluate(b.s, n, e, now).rules == b.s.rules[n := Evaluated(b.s, b.s.rules[n], e, now)]
    requires Evaluated(b.s, b.s.rules[n], e, now).id == b.s.rules[n].id
    ensures AllBacked(Looked(b, n, e, now))
  {
    var c, r := Looked(b, n, e, now), b.s.rules[n];
    LookKeepsBacked(b.s, r, LooksOf(b, r.id), e, now);
    forall k | 0 <= k < |c.s.rules|
      ensures Backed(c.s.rules[k], LooksOf(c, c.s.rules[k].id))
    {
      if k != n {
        assert LooksOf(c, c.s.rules[k].id) == LooksOf(b, b.s.rules[k].id);
      }
    }
  }

  lemma LookIsSound(b: Book, n: nat, e: Evidence, now: int)
    requires Sound(b) && n < |b.s.rules| && b.clock <= now && now > 0 && BoundedEvidence(e)
    ensures Sound(Looked(b, n, e, now))
  {
    var t := Evaluate(b.s, n, e, now);
    EvaluateKeeps(b.s, n, e, now, b.clock);
    EvaluationGrows(b.s, n, e, now, b.clock);
    GrowthIsEntered(b.s, t, b.enqueued);
    GrowthIsRecorded(b.s, t, b.enqueued, b.sends);
    EvaluatedIsValid(b.s, b.s.rules[n], e, now);
    LookIsBacked(b, n, e, now);
  }

  lemma LookedIsSound(b: Book, n: nat, e: Evidence, now: int, c: Book)
    requires Sound(b) && n < |b.s.rules| && b.clock <= now && now > 0 && BoundedEvidence(e) && c == Looked(b, n, e, now)
    ensures Sound(c) && c.clock == now
  {
    LookIsSound(b, n, e, now);
  }

  lemma {:induction false} LookingEvaluates(b: Book, o: Observations, now: int, n: nat)
    requires n <= |b.s.rules|
    ensures LookedTo(b, o, now, n).s == EvaluateTo(b.s, o, now, n)
    decreases n
  {
    if n > 0 {
      LookingEvaluates(b, o, now, n - 1);
    }
  }

  lemma LookingGoesOn(o: Observations, now: int, n: nat, d: Book, c: Book)
    requires 0 < n <= |d.s.rules| && c == Looked(d, n - 1, EvidenceFor(o, d.s.rules[n - 1].id), now)
    requires Sound(d) && d.clock <= now && now > 0 && BoundedObservations(o)
    ensures Sound(c) && c.clock == now
  {
    var e := EvidenceFor(o, d.s.rules[n - 1].id);
    assert BoundedEvidence(e);
    LookedIsSound(d, n - 1, e, now, c);
  }

  lemma {:induction false} LookedToIsSound(b: Book, o: Observations, now: int, n: nat, c: Book)
    requires Sound(b) && n <= |b.s.rules| && b.clock <= now && now > 0 && BoundedObservations(o) && c == LookedTo(b, o, now, n)
    ensures Sound(c) && c.clock <= now
    decreases n
  {
    if n > 0 {
      var d := LookedTo(b, o, now, n - 1);
      LookedToIsSound(b, o, now, n - 1, d);
      LookingGoesOn(o, now, n, d, c);
    }
  }

  // ---- everything else ------------------------------------------------------------------

  /** The queue only loses entries and incidents only disappear or recover. */
  predicate Quieter(s: Alerts, t: Alerts) {
    && t.nextIncidentId == s.nextIncidentId
    && (forall k :: 0 <= k < |t.queue| ==> t.queue[k] in s.queue)
    && (forall j :: 0 <= j < |t.incidents| ==> Echoes(s.incidents, t.incidents[j]))
  }

  predicate Echoes(incidents: seq<Incident>, i: Incident) {
    exists m :: 0 <= m < |incidents| && incidents[m].id == i.id && incidents[m].state == i.state
  }

  lemma QuieterIsRecorded(s: Alerts, t: Alerts, enqueued: seq<EventId>, sends: seq<Send>)
    requires Quieter(s, t) && Entered(s.queue, s.incidents, s.nextIncidentId, enqueued) && Recorded(s.queue, enqueued, sends)
    ensures Entered(t.queue, t.incidents, t.nextIncidentId, enqueued) && Recorded(t.queue, enqueued, sends)
  {
    QuieterIsEntered(s, t, enqueued);
  }

  lemma QuieterIsEntered(s: Alerts, t: Alerts, enqueued: seq<EventId>)
    requires Quieter(s, t) && Entered(s.queue, s.incidents, s.nextIncidentId, enqueued)
    ensures Entered(t.queue, t.incidents, t.nextIncidentId, enqueued)
  {}

  lemma RelabelledIsQuieter(s: Alerts, t: Alerts)
    requires Relabelled(s.incidents, t.incidents) && t.nextIncidentId == s.nextIncidentId
    requires forall k :: 0 <= k < |t.queue| ==> t.queue[k] in s.queue
    ensures Quieter(s, t)
  {}

  lemma CancelIsQuieter(s: Alerts, ruleId: int)
    ensures Quieter(s, Cancel(s, ruleId)) && Cancel(s, ruleId).rules == s.rules
  {
    CancelMarks(s, s.queue, ruleId);
    KeptExactly(s.queue, ruleId);
    var t := Cancel(s, ruleId);
    forall k | 0 <= k < |t.queue|
      ensures t.queue[k] in s.queue
    {
      assert t.queue[k] in KeptOf(s.queue, ruleId);
    }
    RelabelledIsQuieter(s, t);
  }

  lemma PruneIsQuieter(s: Alerts)
    ensures Quieter(s, Prune(s)) && Prune(s).rules == s.rules
  {
    var kept := Prune(s).incidents;
    DroppingSelects(s.incidents, ActiveIds(s), |s.incidents| - MAX_INCIDENTS);
    forall j | 0 <= j < |kept|
      ensures Echoes(s.incidents, kept[j])
    {
      assert kept[j] in s.incidents;
      var m :| 0 <= m < |s.incidents| && s.incidents[m] == kept[j];
      assert s.incidents[m].id == kept[j].id;
    }
  }

  lemma ObservingIsSound(b: Book, o: Observations, now: int)
    requires Sound(b) && b.clock <= now && now > 0 && BoundedObservations(o)
    ensures Sound(Observed(b, o, now))
  {
    var c, d := LookedTo(b, o, now, |b.s.rules|), Observed(b, o, now);
    LookedToIsSound(b, o, now, |b.s.rules|, c);
    LookingEvaluates(b, o, now, |b.s.rules|);
    var t := c.s.(evaluatedAt := Some(now));
    assert Good(t, now);
    PruneKeeps(t, now);
    PruneIsQuieter(t);
    QuieterIsRecorded(t, d.s, c.enqueued, c.sends);
  }

  lemma DroppingIsSound(b: Book, now: int)
    requires Sound(b) && b.clock <= now && b.s.queue != []
    ensures Sound(b.(s := DropHead(b.s), clock := now))
  {
    var t := DropHead(b.s);
    DropHeadKeeps(b.s, b.clock);
    LaterIsGood(t, b.clock, now);
    DroppingIsQuieter(b.s, t);
    QuieterIsRecorded(b.s, t, b.enqueued, b.sends);
  }

  lemma DroppingIsQuieter(s: Alerts, t: Alerts)
    requires s.queue != [] && t == DropHead(s)
    ensures Quieter(s, t) && t.rules == s.rules
  {
    var q := s.queue[0];
    FinishRelabels(s.incidents, q.incident.id, q.event, Failed, ExpiredOrDisabled);
    RelabelledIsQuieter(s, t);
  }

  /** One more attempt of the head. */
  lemma AttemptIsFair(s: Alerts, enqueued: seq<EventId>, sends: seq<Send>, now: int, x: Send)
    requires Shaped(s) && Due(s, now) && !Lapsed(s, now) && Recorded(s.queue, enqueued, sends) && SentFairly(sends)
    requires x.id == s.queue[0].eventId && x.at == now
    ensures SentFairly(sends + [x])
  {
    var more := sends + [x];
    assert MayGo(s.queue[0], sends);
    assert more[..|sends|] == sends;
    forall id
      ensures Times(more, id) <= 3
    {
      assert Times(sends, id) <= 3;
    }
  }

  /** After the call the head is gone if it worked; otherwise it may go again. */
  lemma DeliveryIsRecorded(s: Alerts, enqueued: seq<EventId>, sends: seq<Send>, now: int, outcome: Option<bool>, queue: seq<Queued>)
    requires Shaped(s) && InLine(s.queue) && Due(s, now) && !Lapsed(s, now) && Recorded(s.queue, enqueued, sends)
    requires Entered(s.queue, s.incidents, s.nextIncidentId, enqueued)
    requires queue == s.queue[1..] || (outcome != Some(true) && queue == Attempt(s, now).queue)
    ensures Recorded(queue, enqueued, sends + [Send(s.queue[0].eventId, now, outcome)])
  {
    var x := Send(s.queue[0].eventId, now, outcome);
    var more := sends + [x];
    forall k | 1 <= k < |s.queue|
      ensures MayGo(s.queue[k], more)
    {
      assert MayGo(s.queue[k], sends) && ValidQueued(s.queue[k], s.incidents);
      assert Ordered(s.queue[0], s.queue[k]) && ValidQueued(s.queue[0], s.incidents);
      OthersMayGo(s.queue[0], s.queue[k], sends, x);
    }
    assert MayGo(s.queue[0], sends);
    if outcome != Some(true) {
      HeadMayGoAgain(s.queue[0], sends, now, x);
    }
  }

  lemma HeadMayGoAgain(q: Queued, sends: seq<Send>, now: int, x: Send)
    requires MayGo(q, sends) && q.nextAttempt <= now && x.id == q.eventId && x.at == now && x.outcome != Some(true)
    ensures MayGo(q.(attempts := q.attempts + 1, nextAttempt := now + 300), sends + [x])
  {
    assert (sends + [x])[..|sends|] == sends;
  }

  lemma OthersMayGo(head: Queued, q: Queued, sends: seq<Send>, x: Send)
    requires MayGo(q, sends) && Ordered(head, q) && x.id == head.eventId
    requires head.eventId == EventId(head.incident.id, head.event) && q.eventId == EventId(q.incident.id, q.event)
    ensures MayGo(q, sends + [x])
  {
    assert (sends + [x])[..|sends|] == sends;
  }

  lemma SettlingIsQuieter(s: Alerts, sent: bool, now: int)
    requires s.queue != []
    ensures Quieter(s, Settle(s, sent, now)) && Settle(s, sent, now).rules == s.rules
    ensures Settle(s, sent, now).queue == s.queue[1..] || (!sent && Settle(s, sent, now).queue == s.queue)
  {}

  lemma AttemptIsEntered(s: Alerts, now: int, enqueued: seq<EventId>)
    requires s.queue != [] && Entered(s.queue, s.incidents, s.nextIncidentId, enqueued)
    ensures var t := Attempt(s, now); Entered(t.queue, t.incidents, t.nextIncidentId, enqueued)
  {}

  lemma DeliveringIsSound(b: Book, outcome: Option<bool>, now: int)
    requires Sound(b) && b.clock <= now && now > 0 && Due(b.s, now) && !Lapsed(b.s, now)
    ensures Sound(Delivered(b, outcome, now))
  {
    var t, u := Attempt(b.s, now), Delivered(b, outcome, now).s;
    AttemptKeeps(b.s, now, b.clock);
    AttemptIsFair(b.s, b.enqueued, b.sends, now, Send(b.s.queue[0].eventId, now, outcome));
    AttemptIsEntered(b.s, now, b.enqueued);
    if outcome.Some? {
      SettleKeeps(t, outcome.value, now, b.clock);
      SettlingIsQuieter(t, outcome.value, now);
      QuieterIsEntered(t, u, b.enqueued);
    }
    DeliveryIsRecorded(b.s, b.enqueued, b.sends, now, outcome, u.queue);
  }

  /** An edit that cancels is as quiet as the cancelling it does. */
  lemma EditIsRecorded(b: Book, t: Alerts, ruleId: int)
    requires Sound(b) && t.queue == b.s.queue && t.incidents == b.s.incidents && t.nextIncidentId == b.s.nextIncidentId
    ensures var u := Cancel(t, ruleId);
            && Entered(u.queue, u.incidents, u.nextIncidentId, b.enqueued)
            && Recorded(u.queue, b.enqueued, b.sends) && u.rules == t.rules
  {
    CancelIsQuieter(t, ruleId);
    QuieterIsRecorded(t, Cancel(t, ruleId), b.enqueued, b.sends);
  }

  lemma FreshIsBacked(config: Config, id: int, target: string, last: int)
    ensures Backed(FreshRule(config, id, target, last), [])
  {}

  lemma AddingIsSound(b: Book, x: Step)
    requires Sound(b) && x.Adding? && Allowed(b, x) && Valid(b.s)
    ensures Sound(Next(b, x))
  {
    var id := b.s.nextRuleId + 1;
    var r := FreshRule(x.config, id, x.target, 0);
    var t := b.s.(nextRuleId := id, rules := b.s.rules + [r]);
    AddRuleIsAcceptable(b.s, x.config, x.target, b.clock);
    EditIsRecorded(b, t, id);
    AddedIsBacked(b, Next(b, x), x.config, x.target);
  }

  lemma AddedIsBacked(b: Book, c: Book, config: Config, target: string)
    requires Sound(b) && c.s.rules == b.s.rules + [FreshRule(config, b.s.nextRuleId + 1, target, 0)]
    requires c.looks == b.looks[b.s.nextRuleId + 1 := []]
    ensures AllBacked(c)
  {
    FreshIsBacked(config, b.s.nextRuleId + 1, target, 0);
    forall k | 0 <= k < |b.s.rules|
      ensures b.s.rules[k].id != b.s.nextRuleId + 1
    {
      assert ValidRule(b.s.rules[k], b.s.nextRuleId);
    }
  }

  lemma ReplacingIsSound(b: Book, x: Step)
    requires Sound(b) && x.Replacing? && Allowed(b, x) && Valid(b.s)
    ensures Sound(Next(b, x))
  {
    var was := b.s.rules[x.n];
    var r := FreshRule(x.config, was.id, x.target, was.lastNotification);
    ReplaceRuleIsAcceptable(b.s, x.n, x.config, x.target, b.clock);
    EditIsRecorded(b, b.s.(rules := b.s.rules[x.n := r]), was.id);
    FreshIsBacked(x.config, was.id, x.target, was.lastNotification);
  }

  lemma SwitchingIsSound(b: Book, x: Step)
    requires Sound(b) && x.Switching? && Allowed(b, x) && Valid(b.s)
    ensures Sound(Next(b, x))
  {
    var t := Next(b, x).s;
    SwitchRuleIsAcceptable(b.s, x.n, x.enabled, b.clock);
    var off := b.s.rules[x.n].(config := b.s.rules[x.n].config.(enabled := false), state := Disabled, reason := DisabledNotRecovered);
    EditIsRecorded(b, b.s.(rules := b.s.rules[x.n := off]), off.id);
    SwitchedIsBacked(b, Next(b, x), x.n);
  }

  /** A rule that holds an incident needs no backing. */
  lemma SwitchedIsBacked(b: Book, c: Book, n: nat)
    requires AllBacked(b) && n < |b.s.rules| == |c.s.rules| && c.looks == b.looks && c.s.rules[n].incidentId != 0
    requires forall k :: 0 <= k < |b.s.rules| && k != n ==> c.s.rules[k] == b.s.rules[k]
    ensures AllBacked(c)
  {}

  lemma RemovingIsSound(b: Book, n: nat)
    requires Sound(b) && n < |b.s.rules| && Valid(b.s)
    ensures Sound(b.(s := RemoveRule(b.s, n)))
  {
    var t := b.s.(rules := b.s.rules[..n] + b.s.rules[n + 1..]);
    RemoveRuleIsAcceptable(b.s, n, b.clock);
    EditIsRecorded(b, t, b.s.rules[n].id);
    RemainingAreBacked(b, b.(s := RemoveRule(b.s, n)), n);
  }

  lemma RemainingAreBacked(b: Book, c: Book, n: nat)
    requires AllBacked(b) && n < |b.s.rules| && c.looks == b.looks && c.s.rules == b.s.rules[..n] + b.s.rules[n + 1..]
    ensures AllBacked(c)
  {
    assert forall k :: 0 <= k < |c.s.rules| ==> c.s.rules[k] == b.s.rules[if k < n then k else k + 1];
  }

  lemma SilencingIsSound(b: Book, forget: bool)
    requires Sound(b) && Valid(b.s)
    ensures Sound(b.(s := DisableDelivery(b.s, forget)))
  {
    DeliveryChangeIsAcceptable(b.s, false, 0, 0, forget, b.clock);
    EditIsRecorded(b, if forget then b.s.(ciphertextLength := 0, delivery := NO_DELIVERY)
                      else b.s.(delivery := b.s.delivery.(enabled := false)), 0);
  }

  lemma RedirectingIsSound(b: Book, enabled: bool, sealedLength: nat, hostLength: nat)
    requires Sound(b) && Valid(b.s) && (enabled ==> sealedLength != 0) && sealedLength <= 16384 && hostLength <= 253
    ensures Sound(b.(s := ConfigureDelivery(b.s, enabled, sealedLength, hostLength)))
  {
    DeliveryChangeIsAcceptable(b.s, enabled, sealedLength, hostLength, false, b.clock);
    EditIsRecorded(b, b.s.(ciphertextLength := sealedLength,
                           delivery := Delivery(sealedLength != 0, hostLength, enabled, None, None, NoDetail)), 0);
  }

  // ---- whole runs ---------------------------------------------------------------------------

  /** Outcomes of deliveries leave the record acceptable. */
  lemma DeliveriesAreAcceptable(b: Book, x: Step)
    requires Sound(b) && Valid(b.s) && (x.Dropping? || x.Delivering?) && Allowed(b, x) && Sound(Next(b, x))
    ensures Valid(Next(b, x).s)
  {}

  lemma NextIsSound(b: Book, x: Step)
    requires Sound(b) && Valid(b.s) && Allowed(b, x)
    ensures Sound(Next(b, x)) && Valid(Next(b, x).s)
  {
    match x
    case Observing(o, now) => {
      ObservingIsSound(b, o, now);
      ObserveIsAcceptable(b.s, o, now, b.clock);
    }
    case Dropping(now) => {
      DroppingIsSound(b, now);
      DeliveriesAreAcceptable(b, x);
    }
    case Delivering(outcome, now) => {
      DeliveringIsSound(b, outcome, now);
      DeliveriesAreAcceptable(b, x);
    }
    case Adding(config, target) => {
      AddingIsSound(b, x);
      AddRuleIsAcceptable(b.s, config, target, b.clock);
    }
    case Replacing(n, config, target) => {
      ReplacingIsSound(b, x);
      ReplaceRuleIsAcceptable(b.s, n, config, target, b.clock);
    }
    case Switching(n, enabled) => {
      SwitchingIsSound(b, x);
      SwitchRuleIsAcceptable(b.s, n, enabled, b.clock);
    }
    case Removing(n) => {
      RemovingIsSound(b, n);
      RemoveRuleIsAcceptable(b.s, n, b.clock);
    }
    case Silencing(forget) => {
      SilencingIsSound(b, forget);
      DeliveryChangeIsAcceptable(b.s, false, 0, 0, forget, b.clock);
    }
    case Redirecting(enabled, sealedLength, hostLength) => {
      RedirectingIsSound(b, enabled, sealedLength, hostLength);
      DeliveryChangeIsAcceptable(b.s, enabled, sealedLength, hostLength, false, b.clock);
    }
  }

  predicate Runs(b: Book, steps: seq<Step>, c: Book)
    decreases |steps|
  {
    if steps == [] then b == c
    else Allowed(b, steps[0]) && Runs(Next(b, steps[0]), steps[1..], c)
  }

  /** From the empty record, whatever is done to it. */
  lemma {:induction false} EveryRunIsSound(b: Book, steps: seq<Step>, c: Book)
    requires Sound(b) && Valid(b.s) && Runs(b, steps, c)
    ensures Sound(c) && Valid(c.s)
    decreases |steps|
  {
    if steps != [] {
      NextIsSound(b, steps[0]);
      EveryRunIsSound(Next(b, steps[0]), steps[1..], c);
    }
  }

  lemma {:induction false} RunsOneMore(b: Book, steps: seq<Step>, c: Book, x: Step)
    requires Runs(b, steps, c) && Allowed(c, x)
    ensures Runs(b, steps + [x], Next(c, x))
    decreases |steps|
  {
    if steps == [] {
      assert Runs(Next(c, x), [], Next(c, x));
      assert [x][1..] == [];
    } else {
      RunsOneMore(Next(b, steps[0]), steps[1..], c, x);
      assert (steps + [x])[1..] == steps[1..] + [x];
    }
  }

  lemma BlankIsSound()
    ensures Sound(BLANK) && Valid(BLANK.s)
  {}

  /** The outbox over every run: each event entered once, sent at most three times, apart and in order. */
  lemma NotificationsAreFair(steps: seq<Step>, c: Book)
    requires Runs(BLANK, steps, c)
    ensures Valid(c.s) && Linked(c.s.rules, c.s.incidents) && Promised(c.s.queue, c.s.incidents)
    ensures Distinct(c.enqueued) && SentFairly(c.sends)
    ensures forall k :: 0 <= k < |c.sends| ==> c.sends[k].id in c.enqueued
  {
    BlankIsSound();
    EveryRunIsSound(BLANK, steps, c);
  }

  /** Over every run an incident is opened exactly when that rule's looks end in sustained evidence. */
  lemma IncidentsNeedSustainedEvidence(steps: seq<Step>, c: Book, n: nat, e: Evidence, now: int)
    requires Runs(BLANK, steps, c) && n < |c.s.rules|
    ensures var r := c.s.rules[n];
            Opens(r, e, now) <==>
            r.incidentId == 0 && Sustained(r.config, LooksOf(c, r.id) + [Look(r.config.enabled, e, now)])
  {
    BlankIsSound();
    EveryRunIsSound(BLANK, steps, c);
    assert ValidRule(c.s.rules[n], c.s.nextRuleId);
    OpensExactlyWhenSustained(c.s.rules[n], LooksOf(c, c.s.rules[n].id), e, now);
  }
}
