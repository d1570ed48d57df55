/**
 The persistent alert record of internal/alerts/alerts.go and the operations on it, as
 functions: evaluation of one rule, the notification outbox, pruning, and the edits.
 */
module AlertModel {
  import opened Options

  const MAX_RULES := 50
  const MAX_INCIDENTS := 500
  const MAX_QUEUE := 100
  const MAX_INT64 := 0x7fff_ffff_ffff_ffff

  /** A float64, rounding apart. */
  datatype Num = Real(x: real) | PosInf | NegInf | NaN

  datatype Condition = DeviceOffline | WanLatency | WanLoss | Other(name: string)

  datatype Config = Config(
    name: string, condition: Condition, deviceId: int, threshold: Num, hold: int, cooldown: int, enabled: bool)

  datatype RuleState = Disabled | Unobserved | PendingHold | Firing | Clear

  /** The fixed texts are one constructor each; only a source's own text can be long. */
  datatype Reason =
    | NoReason
    | WaitingForEvaluation | WaitingForFresh | RuleIsDisabled | DisabledNotRecovered
    | OutOfRange | Unavailable | WithinThreshold | NewerNeeded | AboveThreshold
    | WaitingForSustained | Persisted
    | Given(text: string)

  datatype Rule = Rule(
    config: Config, id: int, state: RuleState, since: Option<int>, value: Option<Num>, observedAt: Option<int>,
    reason: Reason, target: string, pendingSince: int, lastEvidence: int, lastEvaluation: int,
    lastNotification: int, incidentId: int)

  datatype Event = FiringEvent | ResolvedEvent

  datatype DeliveryState = NotConfigured | Pending | Cooldown | Failed | Sent | Cancelled

  datatype Detail = NoDetail | QueueFull | ExpiredOrDisabled | TransportFailed | CancelledByChange

  datatype Incident = Incident(
    id: int, ruleId: int, ruleName: string, deviceId: int, deviceName: string, condition: Condition,
    state: Event, startedAt: int, resolvedAt: Option<int>, value: Option<Num>,
    delivery: DeliveryState, detail: Detail)

  datatype EventId = EventId(incident: int, event: Event)

  datatype Queued = Queued(eventId: EventId, event: Event, at: int, incident: Incident, attempts: int, nextAttempt: int, expiresAt: int)

  /** The sealed destination is its length: nothing here looks inside. */
  datatype Delivery = Delivery(
    configured: bool, hostLength: nat, enabled: bool, lastAttemptAt: Option<int>, lastSuccessAt: Option<int>, lastError: Detail)

  datatype Alerts = Alerts(
    rules: seq<Rule>, incidents: seq<Incident>, queue: seq<Queued>, delivery: Delivery, ciphertextLength: nat,
    evaluatedAt: Option<int>, nextRuleId: int, nextIncidentId: int)

  const NO_DELIVERY := Delivery(false, 0, false, None, None, NoDetail)
  const EMPTY := Alerts([], [], [], NO_DELIVERY, 0, None, 0, 0)

  // ---- validity ------------------------------------------------------------

  function Utf8Length(c: char): nat {
    if (c as int) < 0x80 then 1 else if (c as int) < 0x800 then 2 else if (c as int) < 0x10000 then 3 else 4
  }

  function Bytes(s: string): nat {
    if s == "" then 0 else Utf8Length(s[0]) + Bytes(s[1..])
  }

  lemma {:induction false} BytesPerRune(s: string)
    ensures |s| <= Bytes(s) <= 4 * |s|
  {
    if s != "" {
      BytesPerRune(s[1..]);
    }
  }

  predicate Finite(n: Num) { n.Real? }

  /** Unicode's White_Space. */
  predicate White(c: char) {
    var u := c as int;
    0x09 <= u <= 0x0d || u in {0x20, 0x85, 0xa0, 0x1680, 0x2028, 0x2029, 0x202f, 0x205f, 0x3000} || 0x2000 <= u <= 0x200a
  }

  predicate Blank(s: string) {
    forall k :: 0 <= k < |s| ==> White(s[k])
  }

  predicate ValidConfig(c: Config) {
    && !Blank(c.name) && |c.name| <= 80
    && '\r' !in c.name && '\n' !in c.name && '\0' !in c.name
    && c.deviceId > 0 && 60 <= c.hold <= 86400 && 60 <= c.cooldown <= 604800
    && Finite(c.threshold)
    && match c.condition
       case DeviceOffline => c.threshold.x == 0.0
       case WanLatency => 0.0 < c.threshold.x <= 60000.0
       case WanLoss => 0.0 < c.threshold.x <= 100.0
       case Other(_) => false
  }

  predicate ValidReason(r: Reason) {
    r.Given? ==> Bytes(r.text) <= 512
  }

  predicate ValidRule(r: Rule, nextRuleId: int) {
    && ValidConfig(r.config) && 0 < r.id <= nextRuleId && r.target != "" && Bytes(r.target) <= 128 && ValidReason(r.reason)
    && r.lastEvidence >= 0 && r.lastEvaluation >= 0 && r.pendingSince >= 0 && r.lastNotification >= 0 && r.incidentId >= 0
    && (r.value.Some? ==> Finite(r.value.value))
  }

  predicate ValidIncident(i: Incident, nextRuleId: int, nextIncidentId: int) {
    && 0 < i.id <= nextIncidentId && 0 < i.ruleId <= nextRuleId && i.deviceId > 0
    && Bytes(i.ruleName) <= 320 && Bytes(i.deviceName) <= 1024 && i.startedAt > 0
    && (i.state == ResolvedEvent ==> i.resolvedAt.Some? && i.resolvedAt.value >= i.startedAt)
    && (i.state == FiringEvent ==> i.resolvedAt.None?)
    && (i.value.Some? ==> Finite(i.value.value))
  }

  predicate ValidQueued(q: Queued, incidents: seq<Incident>) {
    && HasIncident(incidents, q.incident.id) && q.eventId == EventId(q.incident.id, q.event)
    && 0 <= q.attempts <= 3 && q.nextAttempt >= 0 && q.expiresAt >= q.at && q.at > 0
  }

  predicate HasIncident(incidents: seq<Incident>, id: int) {
    exists k :: 0 <= k < |incidents| && incidents[k].id == id
  }

  predicate RulesOk(rules: seq<Rule>, nextRuleId: int) {
    && (forall k :: 0 <= k < |rules| ==> ValidRule(rules[k], nextRuleId))
    && (forall i, j :: 0 <= i < j < |rules| ==> rules[i].id != rules[j].id)
  }

  predicate DistinctIncidents(incidents: seq<Incident>) {
    forall i, j :: 0 <= i < j < |incidents| ==> incidents[i].id != incidents[j].id
  }

  predicate IncidentsOk(incidents: seq<Incident>, nextRuleId: int, nextIncidentId: int) {
    && (forall k :: 0 <= k < |incidents| ==> ValidIncident(incidents[k], nextRuleId, nextIncidentId))
    && DistinctIncidents(incidents)
  }

  /** The incidents that rules hold are on record. */
  predicate Held(rules: seq<Rule>, incidents: seq<Incident>) {
    forall k :: 0 <= k < |rules| && rules[k].incidentId != 0 ==> HasIncident(incidents, rules[k].incidentId)
  }

  predicate QueueOk(queue: seq<Queued>, incidents: seq<Incident>) {
    forall k :: 0 <= k < |queue| ==> ValidQueued(queue[k], incidents)
  }

  predicate ValidDelivery(d: Delivery, ciphertextLength: nat) {
    && ciphertextLength <= 16384 && d.configured == (ciphertextLength != 0)
    && (d.enabled ==> d.configured) && d.hostLength <= 253
  }

  /** `ValidatePersistentState`, all but the tops of its two counters and of the incident list. */
  predicate Shaped(s: Alerts) {
    && |s.rules| <= MAX_RULES && |s.queue| <= MAX_QUEUE && 0 <= s.nextRuleId && 0 <= s.nextIncidentId
    && ValidDelivery(s.delivery, s.ciphertextLength)
    && RulesOk(s.rules, s.nextRuleId)
    && IncidentsOk(s.incidents, s.nextRuleId, s.nextIncidentId)
    && Held(s.rules, s.incidents)
    && QueueOk(s.queue, s.incidents)
  }

  /** A 64-bit counter driven past its top turns negative, and is refused all the same. */
  predicate Countable(s: Alerts) {
    s.nextRuleId < MAX_INT64 && s.nextIncidentId < MAX_INT64
  }

  predicate Valid(s: Alerts) {
    Shaped(s) && Countable(s) && |s.incidents| <= MAX_INCIDENTS
  }

  // ---- the outbox --------------------------------------------------------------

  /** `finishDelivery`: only an incident still in the state of the event is marked. */
  function Finished(i: Incident, id: int, event: Event, delivery: DeliveryState, detail: Detail): Incident {
    if i.id == id && i.state == event then i.(delivery := delivery, detail := detail) else i
  }

  function FinishAll(incidents: seq<Incident>, id: int, event: Event, delivery: DeliveryState, detail: Detail): seq<Incident> {
    seq(|incidents|, k requires 0 <= k < |incidents| => Finished(incidents[k], id, event, delivery, detail))
  }

  function Finish(s: Alerts, q: Queued, delivery: DeliveryState, detail: Detail): Alerts {
    s.(incidents := FinishAll(s.incidents, q.incident.id, q.event, delivery, detail))
  }

  /** `queue`: what becomes of the incident, and of the outbox. */
  function Announced(s: Alerts, i: Incident): Incident {
    if !s.delivery.enabled || !s.delivery.configured then i.(delivery := NotConfigured)
    else if |s.queue| >= MAX_QUEUE then i.(delivery := Failed, detail := QueueFull)
    else i.(delivery := Pending, detail := NoDetail)
  }

  predicate Admits(s: Alerts) {
    s.delivery.enabled && s.delivery.configured && |s.queue| < MAX_QUEUE
  }

  function Enqueued(s: Alerts, i: Incident, event: Event, now: int): seq<Queued> {
    if Admits(s)
    then s.queue + [Queued(EventId(i.id, event), event, now, Announced(s, i), 0, now, now + 1800)]
    else s.queue
  }

  /** A zero rule id cancels everything. */
  predicate Keeps(q: Queued, ruleId: int) {
    ruleId != 0 && q.incident.ruleId != ruleId
  }

  function CancelFrom(s: Alerts, queue: seq<Queued>, ruleId: int): Alerts {
    if |queue| == 0 then s else
    var n := |queue| - 1;
    var t := CancelFrom(s, queue[..n], ruleId);
    if Keeps(queue[n], ruleId) then t else Finish(t, queue[n], Cancelled, CancelledByChange)
  }

  function KeptOf(queue: seq<Queued>, ruleId: int): seq<Queued> {
    if |queue| == 0 then [] else
    var n := |queue| - 1;
    KeptOf(queue[..n], ruleId) + if Keeps(queue[n], ruleId) then [queue[n]] else []
  }

  function Cancel(s: Alerts, ruleId: int): Alerts {
    CancelFrom(s, s.queue, ruleId).(queue := KeptOf(s.queue, ruleId))
  }

  // ---- pruning ------------------------------------------------------------------

  function ActiveIds(s: Alerts): set<int> {
    (set k | 0 <= k < |s.rules| && s.rules[k].incidentId != 0 :: s.rules[k].incidentId)
    + (set k | 0 <= k < |s.queue| :: s.queue[k].incident.id)
  }

  /** Drops the first `remove` incidents that are not active. */
  function DropOldest(incidents: seq<Incident>, active: set<int>, remove: int): seq<Incident> {
    if incidents == [] then []
    else if remove > 0 && incidents[0].id !in active then DropOldest(incidents[1..], active, remove - 1)
    else [incidents[0]] + DropOldest(incidents[1..], active, remove)
  }

  function Prune(s: Alerts): Alerts {
    if |s.incidents| <= MAX_INCIDENTS then s
    else s.(incidents := DropOldest(s.incidents, ActiveIds(s), |s.incidents| - MAX_INCIDENTS))
  }

  // ---- evaluation -----------------------------------------------------------------

  datatype Evidence = Evidence(known: bool, value: Num, observedAt: int, maxGap: int, deviceName: string, reason: Reason)

  const NO_EVIDENCE := Evidence(false, Real(0.0), 0, 0, "", NoReason)

  predicate Above(n: Num, limit: Num) {
    match n
    case Real(x) => limit.Real? && x > limit.x
    case PosInf => limit.Real? || limit.NegInf?
    case NegInf => false
    case NaN => false
  }

  predicate OutsideRange(c: Condition, n: Num) {
    || (c.DeviceOffline? && n != Real(0.0) && n != Real(1.0))
    || (c.WanLoss? && (Above(Real(0.0), n) || Above(n, Real(100.0)) || n.NegInf?))
  }

  function Gap(e: Evidence): int { if e.maxGap <= 0 then 120 else e.maxGap }

  /** The evidence can be used at all: known, in range, finite, not from the future, fresh enough. */
  predicate Usable(c: Condition, e: Evidence, now: int) {
    && !OutsideRange(c, e.value) && e.known && Finite(e.value)
    && e.observedAt > 0 && e.observedAt <= now && now - e.observedAt <= Gap(e)
  }

  predicate Breached(c: Config, e: Evidence) {
    if c.condition.DeviceOffline? then e.value == Real(1.0) else Above(e.value, c.threshold)
  }

  predicate Continuous(r: Rule, now: int) {
    r.lastEvaluation > 0 && now - r.lastEvaluation <= 120 && now >= r.lastEvaluation
  }

  /** The start of the run of breaches this evaluation belongs to. */
  function HeldSince(r: Rule, e: Evidence, now: int): int {
    if Restarts(r, e, now) then e.observedAt else r.pendingSince
  }

  predicate Restarts(r: Rule, e: Evidence, now: int) {
    !Continuous(r, now) || r.pendingSince == 0 || e.observedAt - r.lastEvidence > Gap(e) || e.observedAt < r.lastEvidence
  }

  predicate Opens(r: Rule, e: Evidence, now: int) {
    && r.config.enabled && Usable(r.config.condition, e, now) && Breached(r.config, e) && r.incidentId == 0
    && e.observedAt > r.lastEvidence && e.observedAt - HeldSince(r, e, now) >= r.config.hold
  }

  predicate Recovers(r: Rule, e: Evidence, now: int) {
    && r.config.enabled && Usable(r.config.condition, e, now) && !Breached(r.config, e) && r.incidentId != 0
    && e.observedAt > r.lastEvidence
  }

  predicate Notifies(r: Rule, now: int) {
    r.lastNotification == 0 || now - r.lastNotification >= r.config.cooldown
  }

  /** What `evaluate` makes of the rule's own record. */
  function Evaluated(s: Alerts, r: Rule, e: Evidence, now: int): Rule {
    if !r.config.enabled then r.(state := Disabled, reason := RuleIsDisabled)
    else
      var r1 := r.(lastEvaluation := now);
      if !Usable(r.config.condition, e, now) then
        var why := if OutsideRange(r.config.condition, e.value) then OutOfRange else e.reason;
        var r2 := r1.(state := Unobserved, reason := if why == NoReason || why == Given("") then Unavailable else why,
                      value := None, observedAt := None, pendingSince := 0);
        if r.incidentId == 0 then r2.(lastEvidence := 0, since := None) else r2
      else
        var r2 := r1.(value := Some(e.value), observedAt := Some(e.observedAt));
        if !Breached(r.config, e) then
          if r.incidentId != 0 && e.observedAt <= r.lastEvidence then r2.(state := Unobserved, reason := NewerNeeded)
          else r2.(pendingSince := 0, lastEvidence := e.observedAt, state := Clear, reason := WithinThreshold,
                   since := None, incidentId := 0)
        else if r.incidentId != 0 then
          r2.(lastEvidence := if r.lastEvidence > e.observedAt then r.lastEvidence else e.observedAt,
              state := Firing, reason := AboveThreshold)
        else
          var held := HeldSince(r, e, now);
          var r3 := r2.(pendingSince := held, lastEvidence := e.observedAt, since := Some(held));
          if !Opens(r, e, now) then r3.(state := PendingHold, reason := WaitingForSustained)
          else r3.(state := Firing, reason := Persisted, incidentId := s.nextIncidentId + 1,
                   lastNotification := if Notifies(r, now) && Admits(s) then now else r.lastNotification)
  }

  function NewIncident(s: Alerts, r: Rule, e: Evidence, now: int): Incident {
    var created := Incident(s.nextIncidentId + 1, r.id, r.config.name, r.config.deviceId, e.deviceName, r.config.condition,
                            FiringEvent, now, None, Some(e.value), NotConfigured, NoDetail);
    if Notifies(r, now) then Announced(s, created) else created.(delivery := Cooldown)
  }

  /** The incident once recovery has been observed, before it is announced. */
  function Recovered(i: Incident, e: Evidence, now: int): Incident {
    i.(state := ResolvedEvent, resolvedAt := Some(now), value := Some(e.value))
  }

  function ResolveFrom(s: Alerts, id: int, e: Evidence, now: int, k: nat): Alerts
    requires k <= |s.incidents|
    ensures |ResolveFrom(s, id, e, now, k).incidents| == |s.incidents|
    decreases k
  {
    if k == 0 then s else
    var t := ResolveFrom(s, id, e, now, k - 1);
    if t.incidents[k - 1].id != id then t else
    var i := Recovered(t.incidents[k - 1], e, now);
    t.(incidents := t.incidents[k - 1 := Announced(t, i)], queue := Enqueued(t, i, ResolvedEvent, now))
  }

  function Evaluate(s: Alerts, n: nat, e: Evidence, now: int): Alerts
    requires n < |s.rules|
    ensures |Evaluate(s, n, e, now).rules| == |s.rules|
  {
    var r := s.rules[n];
    var rules := s.rules[n := Evaluated(s, r, e, now)];
    if Opens(r, e, now) then
      var i := NewIncident(s, r, e, now);
      var queue := if Notifies(r, now) then Enqueued(s, i, FiringEvent, now) else s.queue;
      s.(rules := rules, incidents := s.incidents + [i], queue := queue, nextIncidentId := s.nextIncidentId + 1)
    else if Recovers(r, e, now) then
      ResolveFrom(s, r.incidentId, e, now, |s.incidents|).(rules := rules)
    else s.(rules := rules)
  }

  type Observations = map<int, Evidence>

  function EvidenceFor(o: Observations, id: int): Evidence {
    if id in o then o[id] else NO_EVIDENCE
  }

  function EvaluateTo(s: Alerts, o: Observations, now: int, n: nat): Alerts
    requires n <= |s.rules|
    ensures |EvaluateTo(s, o, now, n).rules| == |s.rules|
    decreases n
  {
    if n == 0 then s else
    var t := EvaluateTo(s, o, now, n - 1);
    Evaluate(t, n - 1, EvidenceFor(o, t.rules[n - 1].id), now)
  }

  /** The first half of a tick, up to its first save. */
  function Observe(s: Alerts, o: Observations, now: int): Alerts {
    Prune(EvaluateTo(s, o, now, |s.rules|).(evaluatedAt := Some(now)))
  }

  // ---- deliveries -----------------------------------------------------------------------

  predicate Due(s: Alerts, now: int) {
    s.queue != [] && s.queue[0].nextAttempt <= now
  }

  predicate Lapsed(s: Alerts, now: int)
    requires s.queue != []
  {
    !s.delivery.enabled || s.queue[0].expiresAt < now || s.queue[0].attempts >= 3
  }

  function DropHead(s: Alerts): Alerts
    requires s.queue != []
  {
    Finish(s, s.queue[0], Failed, ExpiredOrDisabled).(queue := s.queue[1..])
  }

  function Attempt(s: Alerts, now: int): Alerts
    requires s.queue != []
  {
    var q := s.queue[0];
    s.(queue := s.queue[0 := q.(attempts := q.attempts + 1, nextAttempt := now + 300)],
       delivery := s.delivery.(lastAttemptAt := Some(now)))
  }

  /** After the network call of an attempt. */
  function Settle(s: Alerts, sent: bool, now: int): Alerts
    requires s.queue != []
  {
    var q := s.queue[0];
    if sent then
      Finish(s.(delivery := s.delivery.(lastSuccessAt := Some(now), lastError := NoDetail)), q, Sent, NoDetail)
        .(queue := s.queue[1..])
    else
      var t := Finish(s.(delivery := s.delivery.(lastError := TransportFailed)), q, Failed, TransportFailed);
      if q.attempts >= 3 then t.(queue := s.queue[1..]) else t
  }

  // ---- edits --------------------------------------------------------------------------------

  datatype EditError = InvalidConfig | NoIdentity | NotFound | Conflict | Invalid | NoKeyring | NoUrl | BadUrl | BadToken | StoreFailed

  predicate NamesRule(s: Alerts, n: nat, id: int) {
    n < |s.rules| && s.rules[n].id == id
  }

  function FreshRule(config: Config, id: int, target: string, lastNotification: int): Rule {
    Rule(config, id, if config.enabled then Unobserved else Disabled, None, None, None, WaitingForEvaluation,
         target, 0, 0, 0, lastNotification, 0)
  }

  function AddRule(s: Alerts, config: Config, target: string): Alerts {
    var id := s.nextRuleId + 1;
    var t := s.(nextRuleId := id, rules := s.rules + [FreshRule(config, id, target, 0)]);
    if config.enabled then t else Cancel(t, id)
  }

  function ReplaceRule(s: Alerts, n: nat, config: Config, target: string): Alerts
    requires n < |s.rules| && s.rules[n].incidentId == 0
  {
    var r := s.rules[n];
    var t := s.(rules := s.rules[n := FreshRule(config, r.id, target, r.lastNotification)]);
    if config.enabled then t else Cancel(t, r.id)
  }

  /** An active rule can only be switched on and off. */
  function SwitchRule(s: Alerts, n: nat, enabled: bool): Alerts
    requires n < |s.rules|
  {
    var r := s.rules[n].(config := s.rules[n].config.(enabled := enabled));
    if enabled then s.(rules := s.rules[n := r.(state := Unobserved, reason := WaitingForFresh)])
    else Cancel(s.(rules := s.rules[n := r.(state := Disabled, reason := DisabledNotRecovered)]), r.id)
  }

  function RemoveRule(s: Alerts, n: nat): Alerts
    requires n < |s.rules|
  {
    Cancel(s.(rules := s.rules[..n] + s.rules[n + 1..]), s.rules[n].id)
  }

  function DisableDelivery(s: Alerts, forget: bool): Alerts {
    Cancel(if forget then s.(ciphertextLength := 0, delivery := NO_DELIVERY)
           else s.(delivery := s.delivery.(enabled := false)), 0)
  }

  function ConfigureDelivery(s: Alerts, enabled: bool, sealedLength: nat, hostLength: nat): Alerts {
    Cancel(s.(ciphertextLength := sealedLength,
              delivery := Delivery(sealedLength != 0, hostLength, enabled, None, None, NoDetail)), 0)
  }
}
