/**
 The alert manager of internal/alerts/alerts.go: a working copy of the record, changed in
 place, and the stored one it replaces when a save goes through.
 */
module AlertManager {
  import opened Options
  import opened AlertModel
  import opened AlertLaws
  import opened AlertUpkeep
  import opened AlertRuns
  import opened AlertEffects

  /** `PersistentState` under way. */
  class Record {
    var rules: seq<Rule>
    var incidents: seq<Incident>
    var queue: seq<Queued>
    var delivery: Delivery
    var ciphertextLength: nat
    var evaluatedAt: Option<int>
    var nextRuleId: int
    var nextIncidentId: int

    function Seen(): (s: Alerts)
      reads this
    {
      Alerts(rules, incidents, queue, delivery, ciphertextLength, evaluatedAt, nextRuleId, nextIncidentId)
    }

    constructor (s: Alerts)
      ensures Seen() == s
    {
      rules, incidents, queue, delivery := s.rules, s.incidents, s.queue, s.delivery;
      ciphertextLength, evaluatedAt := s.ciphertextLength, s.evaluatedAt;
      nextRuleId, nextIncidentId := s.nextRuleId, s.nextIncidentId;
    }

    method FinishDelivery(q: Queued, outcome: DeliveryState, detail: Detail)
      modifies this
      ensures Seen() == Finish(old(Seen()), q, outcome, detail)
    {
      ghost var s := Seen();
      for i := 0 to |incidents|
        invariant Seen() == s.(incidents := incidents) && |incidents| == |s.incidents|
        invariant forall k :: 0 <= k < |incidents| ==>
                                incidents[k] == if k < i then Finished(s.incidents[k], q.incident.id, q.event, outcome, detail)
                                                else s.incidents[k]
      {
        if incidents[i].id == q.incident.id && incidents[i].state == q.event {
          incidents := incidents[i := incidents[i].(delivery := outcome, detail := detail)];
        }
      }
      assert incidents == FinishAll(s.incidents, q.incident.id, q.event, outcome, detail);
    }

    method Announce(i: Incident, event: Event, now: int) returns (announced: Incident)
      modifies this`queue
      ensures announced == Announced(old(Seen()), i)
      ensures Seen() == old(Seen()).(queue := Enqueued(old(Seen()), i, event, now))
    {
      if !delivery.enabled || !delivery.configured {
        return i.(delivery := NotConfigured);
      }
      if |queue| >= MAX_QUEUE {
        return i.(delivery := Failed, detail := QueueFull);
      }
      announced := i.(delivery := Pending, detail := NoDetail);
      queue := queue + [Queued(EventId(i.id, event), event, now, announced, 0, now, now + 1800)];
    }

    /** The recovery half of an evaluation. */
    method Resolve(id: int, e: Evidence, now: int)
      modifies this
      ensures Seen() == ResolveFrom(old(Seen()), id, e, now, |old(Seen()).incidents|)
    {
      ghost var s := Seen();
      for i := 0 to |incidents|
        invariant |incidents| == |s.incidents| && Seen() == ResolveFrom(s, id, e, now, i)
      {
        if incidents[i].id == id {
          var recovered := incidents[i].(state := ResolvedEvent, resolvedAt := Some(now), value := Some(e.value));
          var announced := Announce(recovered, ResolvedEvent, now);
          incidents := incidents[i := announced];
        }
      }
    }

    /** A breach that has lasted opens an incident. */
    method Open(r0: Rule, e: Evidence, now: int) returns (r: Rule)
      modifies this
      ensures var s := old(Seen());
              && r == r0.(state := Firing, reason := Persisted, incidentId := s.nextIncidentId + 1,
                          lastNotification := if Notifies(r0, now) && Admits(s) then now else r0.lastNotification)
              && Seen() == s.(incidents := s.incidents + [NewIncident(s, r0, e, now)], nextIncidentId := s.nextIncidentId + 1,
                              queue := if Notifies(r0, now) then Enqueued(s, NewIncident(s, r0, e, now), FiringEvent, now) else s.queue)
    {
      nextIncidentId := nextIncidentId + 1;
      r := r0.(state := Firing, reason := Persisted, incidentId := nextIncidentId);
      var incident := Incident(r.incidentId, r.id, r.config.name, r.config.deviceId, e.deviceName, r.config.condition,
                               FiringEvent, now, None, Some(e.value), NotConfigured, NoDetail);
      if r.lastNotification == 0 || now - r.lastNotification >= r.config.cooldown {
        incident := Announce(incident, FiringEvent, now);
        if incident.delivery == Pending {
          r := r.(lastNotification := now);
        }
      } else {
        incident := incident.(delivery := Cooldown);
      }
      incidents := incidents + [incident];
    }

    method Evaluate(n: nat, e: Evidence, now: int)
      requires n < |rules|
      modifies this
      ensures Seen() == AlertModel.Evaluate(old(Seen()), n, e, now)
    {
      var r := rules[n];
      if !r.config.enabled {
        rules := rules[n := r.(state := Disabled, reason := RuleIsDisabled)];
        return;
      }
      var known, reason := e.known, e.reason;
      if OutsideRange(r.config.condition, e.value) {
        known, reason := false, OutOfRange;
      }
      var gap := if e.maxGap <= 0 then 120 else e.maxGap;
      if !known || !e.value.Real? || e.observedAt <= 0 || e.observedAt > now || now - e.observedAt > gap {
        r := r.(lastEvaluation := now, state := Unobserved, reason := reason, value := None, observedAt := None);
        if r.reason == NoReason || r.reason == Given("") {
          r := r.(reason := Unavailable);
        }
        r := r.(pendingSince := 0);
        if r.incidentId == 0 {
          r := r.(lastEvidence := 0, since := None);
        }
        rules := rules[n := r];
        return;
      }
      Compare(n, e, now, gap);
    }

    /** The evidence is fresh; the threshold decides. */
    method Compare(n: nat, e: Evidence, now: int, gap: int)
      requires n < |rules| && rules[n].config.enabled && Usable(rules[n].config.condition, e, now) && gap == Gap(e)
      modifies this
      ensures Seen() == AlertModel.Evaluate(old(Seen()), n, e, now)
    {
      var r := rules[n];
      var continuous := r.lastEvaluation > 0 && now - r.lastEvaluation <= 120 && now >= r.lastEvaluation;
      r := r.(lastEvaluation := now, value := Some(e.value), observedAt := Some(e.observedAt));
      if !Breached(r.config, e) {
        if r.incidentId != 0 && e.observedAt <= r.lastEvidence {
          rules := rules[n := r.(state := Unobserved, reason := NewerNeeded)];
          return;
        }
        r := r.(pendingSince := 0, lastEvidence := e.observedAt, state := Clear, reason := WithinThreshold, since := None);
        if r.incidentId != 0 {
          Resolve(r.incidentId, e, now);
          ResolvingLengths(old(Seen()), r.incidentId, e, now, |old(Seen()).incidents|);
          r := r.(incidentId := 0);
        }
        rules := rules[n := r];
        return;
      }
      if r.incidentId != 0 {
        r := r.(lastEvidence := if r.lastEvidence > e.observedAt then r.lastEvidence else e.observedAt);
        rules := rules[n := r.(state := Firing, reason := AboveThreshold)];
        return;
      }
      var newEvidence := e.observedAt > r.lastEvidence;
      if !continuous || r.pendingSince == 0 || e.observedAt - r.lastEvidence > gap || e.observedAt < r.lastEvidence {
        r := r.(pendingSince := e.observedAt);
      }
      r := r.(lastEvidence := e.observedAt, state := PendingHold, reason := WaitingForSustained, since := Some(r.pendingSince));
      if newEvidence && e.observedAt - r.pendingSince >= r.config.hold {
        r := Open(r, e, now);
      }
      rules := rules[n := r];
    }

    /** Filters the queue in place; a zero id cancels everything. */
    method CancelQueued(ruleId: int)
      modifies this
      ensures Seen() == Cancel(old(Seen()), ruleId)
    {
      ghost var s := Seen();
      var all := queue;
      var keep: seq<Queued> := [];
      for i := 0 to |all|
        invariant all == s.queue == queue && keep == KeptOf(all[..i], ruleId)
        invariant Seen() == CancelFrom(s, all[..i], ruleId)
      {
        assert all[..i + 1][..i] == all[..i];
        if ruleId != 0 && all[i].incident.ruleId != ruleId {
          keep := keep + [all[i]];
        } else {
          FinishDelivery(all[i], Cancelled, CancelledByChange);
        }
      }
      assert all[..|all|] == all;
      queue := keep;
    }

    method Prune()
      modifies this
      ensures Seen() == AlertModel.Prune(old(Seen()))
    {
      if |incidents| <= MAX_INCIDENTS {
        return;
      }
      var active := ActiveIncidents();
      var remove := |incidents| - MAX_INCIDENTS;
      var keep: seq<Incident> := [];
      ghost var expected := DropOldest(incidents, active, remove);
      for i := 0 to |incidents|
        invariant keep + DropOldest(incidents[i..], active, remove) == expected
      {
        assert incidents[i..][1..] == incidents[i + 1..];
        if remove > 0 && incidents[i].id !in active {
          remove := remove - 1;
        } else {
          ghost var rest := DropOldest(incidents[i + 1..], active, remove);
          assert keep + ([incidents[i]] + rest) == (keep + [incidents[i]]) + rest;
          keep := keep + [incidents[i]];
        }
      }
      incidents := keep;
    }

    method ObserveAll(o: Observations, now: int)
      modifies this
      ensures Seen() == AlertModel.Observe(old(Seen()), o, now)
    {
      ghost var s := Seen();
      for i := 0 to |rules|
        invariant |rules| == |s.rules| && Seen() == EvaluateTo(s, o, now, i)
      {
        var e := EvidenceFor(o, rules[i].id);
        Evaluate(i, e, now);
      }
      evaluatedAt := Some(now);
      Prune();
    }

    method Add(config: Config, target: string)
      modifies this
      ensures Seen() == AddRule(old(Seen()), config, target) && nextRuleId == old(nextRuleId) + 1
    {
      nextRuleId := nextRuleId + 1;
      rules := rules + [FreshRule(config, nextRuleId, target, 0)];
      CancelMarks(Seen(), queue, nextRuleId);
      if !config.enabled {
        CancelQueued(nextRuleId);
      }
    }

    method AttemptHead(now: int)
      requires queue != []
      modifies this
      ensures Seen() == Attempt(old(Seen()), now)
    {
      var q := queue[0];
      queue := queue[0 := q.(attempts := q.attempts + 1, nextAttempt := now + 300)];
      delivery := delivery.(lastAttemptAt := Some(now));
    }

    method SettleHead(sent: bool, now: int)
      requires queue != []
      modifies this
      ensures Seen() == Settle(old(Seen()), sent, now)
    {
      var q := queue[0];
      if !sent {
        delivery := delivery.(lastError := TransportFailed);
        FinishDelivery(q, Failed, TransportFailed);
        if q.attempts >= 3 {
          queue := queue[1..];
        }
      } else {
        delivery := delivery.(lastSuccessAt := Some(now), lastError := NoDetail);
        FinishDelivery(q, Sent, NoDetail);
        queue := queue[1..];
      }
    }

    method ActiveIncidents() returns (active: set<int>)
      ensures active == ActiveIds(Seen())
    {
      active := {};
      for i := 0 to |rules|
        invariant active == set k | 0 <= k < i && rules[k].incidentId != 0 :: rules[k].incidentId
      {
        if rules[i].incidentId != 0 {
          active := active + {rules[i].incidentId};
        }
      }
      ghost var held := active;
      for i := 0 to |queue|
        invariant active == held + set k | 0 <= k < i :: queue[k].incident.id
      {
        active := active + {queue[i].incident.id};
      }
    }

    // ---- ValidatePersistentState --------------------------------------------------

    method CheckRules() returns (ok: bool)
      ensures ok == RulesOk(rules, nextRuleId)
    {
      var seen: set<int> := {};
      for i := 0 to |rules|
        invariant seen == set k | 0 <= k < i :: rules[k].id
        invariant RulesOk(rules[..i], nextRuleId)
      {
        if !ValidRule(rules[i], nextRuleId) || rules[i].id in seen {
          return false;
        }
        seen := seen + {rules[i].id};
        assert forall k :: 0 <= k <= i ==> rules[..i + 1][k] == rules[k];
        assert forall k :: 0 <= k < i ==> rules[..i][k] == rules[k];
      }
      assert rules[..|rules|] == rules;
      return true;
    }

    method CheckIncidents() returns (ok: bool, ids: set<int>)
      ensures ok == IncidentsOk(incidents, nextRuleId, nextIncidentId)
      ensures ok ==> forall id :: id in ids <==> HasIncident(incidents, id)
    {
      ids := {};
      for i := 0 to |incidents|
        invariant ids == set k | 0 <= k < i :: incidents[k].id
        invariant IncidentsOk(incidents[..i], nextRuleId, nextIncidentId)
      {
        if !ValidIncident(incidents[i], nextRuleId, nextIncidentId) || incidents[i].id in ids {
          return false, ids;
        }
        ids := ids + {incidents[i].id};
        assert forall k :: 0 <= k <= i ==> incidents[..i + 1][k] == incidents[k];
        assert forall k :: 0 <= k < i ==> incidents[..i][k] == incidents[k];
      }
      assert incidents[..|incidents|] == incidents;
      return true, ids;
    }

    method CheckReferences(ids: set<int>) returns (ok: bool)
      requires forall id :: id in ids <==> HasIncident(incidents, id)
      ensures ok == (Held(rules, incidents) && QueueOk(queue, incidents))
    {
      for i := 0 to |rules|
        invariant forall k :: 0 <= k < i && rules[k].incidentId != 0 ==> HasIncident(incidents, rules[k].incidentId)
      {
        if rules[i].incidentId != 0 && rules[i].incidentId !in ids {
          return false;
        }
      }
      for i := 0 to |queue|
        invariant forall k :: 0 <= k < i ==> ValidQueued(queue[k], incidents)
      {
        var q := queue[i];
        if q.incident.id !in ids || q.eventId != EventId(q.incident.id, q.event) || q.attempts < 0 || q.attempts > 3
           || q.nextAttempt < 0 || q.expiresAt < q.at || q.at <= 0 {
          assert !ValidQueued(queue[i], incidents);
          return false;
        }
      }
      return true;
    }

    method Validate() returns (ok: bool)
      ensures ok == Valid(Seen())
    {
      if |rules| > MAX_RULES || |incidents| > MAX_INCIDENTS || |queue| > MAX_QUEUE || nextRuleId < 0 || nextIncidentId < 0
         || nextRuleId >= MAX_INT64 || nextIncidentId >= MAX_INT64 {
        return false;
      }
      if !ValidDelivery(delivery, ciphertextLength) {
        return false;
      }
      ok := CheckRules();
      if ok {
        var ids;
        ok, ids := CheckIncidents();
        if ok {
          ok := CheckReferences(ids);
        }
      }
    }
  }

  datatype Request = Request(enabled: bool, url: Option<string>, token: Option<string>)
  datatype Target = Target(url: string, token: string)

  /** What the keyring and the URL parser answer. */
  datatype Surroundings = Surroundings(
    unsealed: Option<Target>, host: Option<nat>, sealedLength: Option<nat>)

  function FirstInk(s: string, n: nat): (m: nat)
    requires n <= |s|
    ensures n <= m <= |s| && (m < |s| ==> !White(s[m]))
    ensures forall k :: n <= k < m ==> White(s[k])
    decreases |s| - n
  {
    if n < |s| && White(s[n]) then FirstInk(s, n + 1) else n
  }

  function LastInk(s: string, n: nat, m: nat): (e: nat)
    requires n <= m <= |s|
    ensures n <= e <= m && (n < e ==> !White(s[e - 1]))
    ensures forall k :: e <= k < m ==> White(s[k])
    decreases m
  {
    if n < m && White(s[m - 1]) then LastInk(s, n, m - 1) else m
  }

  function Trim(s: string): string {
    var n := FirstInk(s, 0);
    s[n..LastInk(s, n, |s|)]
  }

  /** The string is what is left, from n on, between two stretches of white space. */
  lemma TrimmedIsTheMiddle(s: string) returns (n: nat)
    ensures var t := Trim(s);
            && n + |t| <= |s| && t == s[n..n + |t|]
            && (forall k :: 0 <= k < |s| && !(n <= k < n + |t|) ==> White(s[k]))
            && (t != "" ==> !White(t[0]) && !White(t[|t| - 1]))
  {
    n := FirstInk(s, 0);
  }

  lemma NothingLeftOfBlank(s: string)
    ensures Trim(s) == "" <==> Blank(s)
  {
    var n := FirstInk(s, 0);
    assert n < |s| ==> !White(s[n]);
  }

  /** The saved destination, overwritten by what is asked for; none if it cannot be unsealed. */
  function Wanted(s: Alerts, request: Request, unsealed: Option<Target>): Option<Target> {
    if s.ciphertextLength != 0 && unsealed.None? then None else
    var saved := if s.ciphertextLength != 0 then unsealed.value else Target("", "");
    Some(Target(if request.url.Some? then Trim(request.url.value) else saved.url,
                if request.token.Some? then request.token.value else saved.token))
  }

  predicate Sendable(target: Target, enabled: bool) {
    && Bytes(target.token) <= 4096 && '\r' !in target.token && '\n' !in target.token && '\0' !in target.token
    && (enabled ==> target.url != "")
  }

  predicate Forgets(request: Request) {
    request.url.Some? && Blank(request.url.value)
  }

  predicate OnlySilences(request: Request) {
    !request.enabled && (Forgets(request) || (request.url.None? && request.token.None?))
  }

  /** The step a change of delivery asks for; none if it is refused. */
  function Requested(s: Alerts, request: Request, w: Surroundings): Option<Step> {
    if OnlySilences(request) then Some(Silencing(Forgets(request))) else
    var target := Wanted(s, request, w.unsealed);
    if target.None? || !Sendable(target.value, request.enabled) then None
    else if target.value.url == "" then Some(Redirecting(request.enabled, 0, 0))
    else if w.host.None? || w.sealedLength.None? then None
    else Some(Redirecting(request.enabled, w.sealedLength.value, w.host.value))
  }

  class Manager {
    var stored: Alerts
    ghost var book: Book

    ghost predicate Consistent()
      reads this
    {
      Sound(book) && Valid(book.s) && book.s == stored
    }

    constructor ()
      ensures Consistent() && book == BLANK
    {
      stored, book := EMPTY, BLANK;
      new;
      BlankIsSound();
    }

    /** The store refuses what it could not validate on loading. */
    method Save(r: Record, fails: bool) returns (ok: bool)
      modifies this`stored
      ensures ok == (!fails && Valid(r.Seen()))
      ensures stored == if ok then r.Seen() else old(stored)
    {
      ok := r.Validate();
      ok := ok && !fails;
      if ok {
        stored := r.Seen();
      }
    }

    ghost method Enter(x: Step)
      requires Sound(book) && Valid(book.s) && Allowed(book, x) && Next(book, x).s == stored
      modifies this`book
      ensures Consistent() && book == Next(old(book), x)
    {
      NextIsSound(book, x);
      book := Next(book, x);
    }

    method FindRule(id: int) returns (index: int)
      ensures index == -1 ==> forall k :: 0 <= k < |stored.rules| ==> stored.rules[k].id != id
      ensures index != -1 ==> 0 <= index < |stored.rules| && stored.rules[index].id == id
    {
      for i := 0 to |stored.rules|
        invariant forall k :: 0 <= k < i ==> stored.rules[k].id != id
      {
        if stored.rules[i].id == id {
          return i;
        }
      }
      return -1;
    }

    method AddRule(config: Config, target: string, fails: bool) returns (res: Result<int, EditError>)
      requires Consistent() && ValidConfig(config) && target != ""
      modifies this
      ensures Consistent()
      ensures res == Err(Conflict) <==> |old(stored).rules| >= MAX_RULES
      ensures res.Ok? <==> |old(stored).rules| < MAX_RULES && !fails && old(stored).nextRuleId + 1 < MAX_INT64 && Bytes(target) <= 128
      ensures book == if res.Ok? then Next(old(book), Adding(config, target)) else old(book)
      ensures res.Ok? ==> res.value == old(stored).nextRuleId + 1
    {
      if |stored.rules| >= MAX_RULES {
        return Err(Conflict);
      }
      var r := new Record(stored);
      r.Add(config, target);
      var id := r.nextRuleId;
      AddRuleIsAcceptable(stored, config, target, book.clock);
      var ok := Save(r, fails);
      if !ok {
        return Err(StoreFailed);
      }
      Enter(Adding(config, target));
      return Ok(id);
    }

    method ReplaceRule(n: nat, config: Config, target: string, fails: bool) returns (res: Result<int, EditError>)
      requires Consistent() && n < |stored.rules| && stored.rules[n].incidentId == 0 && ValidConfig(config) && target != ""
      modifies this
      ensures Consistent()
      ensures res == if !fails && Bytes(target) <= 128 then Ok(old(stored).rules[n].id) else Err(StoreFailed)
      ensures book == if res.Ok? then Next(old(book), Replacing(n, config, target)) else old(book)
    {
      var r := new Record(stored);
      var id := r.rules[n].id;
      r.rules := r.rules[n := FreshRule(config, id, target, r.rules[n].lastNotification)];
      if !config.enabled {
        r.CancelQueued(id);
      }
      ReplaceRuleIsAcceptable(stored, n, config, target, book.clock);
      var ok := Save(r, fails);
      if !ok {
        return Err(StoreFailed);
      }
      Enter(Replacing(n, config, target));
      return Ok(id);
    }

    method SwitchRule(n: nat, enabled: bool, fails: bool) returns (res: Result<int, EditError>)
      requires Consistent() && n < |stored.rules| && stored.rules[n].incidentId != 0
      modifies this
      ensures Consistent()
      ensures res == if !fails then Ok(old(stored).rules[n].id) else Err(StoreFailed)
      ensures book == if res.Ok? then Next(old(book), Switching(n, enabled)) else old(book)
    {
      var r := new Record(stored);
      var rule := r.rules[n].(config := r.rules[n].config.(enabled := enabled), state := Disabled, reason := DisabledNotRecovered);
      if enabled {
        r.rules := r.rules[n := rule.(state := Unobserved, reason := WaitingForFresh)];
      } else {
        r.rules := r.rules[n := rule];
        r.CancelQueued(rule.id);
      }
      SwitchRuleIsAcceptable(stored, n, enabled, book.clock);
      var ok := Save(r, fails);
      if !ok {
        return Err(StoreFailed);
      }
      Enter(Switching(n, enabled));
      return Ok(rule.id);
    }

    /** A rule that holds an incident keeps its condition until recovery. */
    method SaveRule(id: int, config: Config, target: string, fails: bool) returns (res: Result<int, EditError>)
      requires Consistent()
      modifies this
      ensures Consistent()
      ensures !ValidConfig(config) ==> res == Err(InvalidConfig)
      ensures res.Err? ==> book == old(book)
      ensures res.Ok? ==> exists n: nat :: Saved(old(book), id, n, config, target, res.value, book)
      ensures res.Ok? ==> HasRule(stored, res.value, config, target)
      ensures res.Ok? <==> !fails && Acceptable(old(stored), id, config, target)
    {
      if !ValidConfig(config) {
        return Err(InvalidConfig);
      }
      if target == "" {
        return Err(NoIdentity);
      }
      var index := FindRule(id);
      if id != 0 && index < 0 {
        return Err(NotFound);
      }
      if id == 0 {
        res := SaveNew(config, target, fails);
        assert res.Ok? ==> Saved(old(book), id, 0, config, target, res.value, book);
      } else {
        res := SaveExisting(id, index, config, target, fails);
        assert res.Ok? ==> Saved(old(book), id, index, config, target, res.value, book);
      }
    }

    method SaveNew(config: Config, target: string, fails: bool) returns (res: Result<int, EditError>)
      requires Consistent() && ValidConfig(config) && target != ""
      modifies this
      ensures Consistent()
      ensures res.Err? ==> book == old(book)
      ensures res.Ok? ==> Saved(old(book), 0, 0, config, target, res.value, book) && HasRule(stored, res.value, config, target)
      ensures res.Ok? <==> !fails && Acceptable(old(stored), 0, config, target)
    {
      res := AddRule(config, target, fails);
      AddedIsThere(old(book), config, target, res, book);
    }

    method SaveExisting(id: int, n: nat, config: Config, target: string, fails: bool) returns (res: Result<int, EditError>)
      requires Consistent() && id != 0 && NamesRule(stored, n, id) && ValidConfig(config) && target != ""
      modifies this
      ensures Consistent()
      ensures res.Err? ==> book == old(book)
      ensures res.Ok? ==> Saved(old(book), id, n, config, target, res.value, book) && HasRule(stored, id, config, target)
      ensures res.Ok? <==> !fails && Bytes(target) <= 128
                           && (old(stored).rules[n].incidentId != 0 ==>
                                 config == old(stored).rules[n].config.(enabled := config.enabled) && target == old(stored).rules[n].target)
    {
      if stored.rules[n].incidentId != 0 {
        var previous := stored.rules[n].config.(enabled := config.enabled);
        assert ValidRule(stored.rules[n], stored.nextRuleId);
        if previous != config || stored.rules[n].target != target {
          return Err(Conflict);
        }
        res := SwitchRule(n, config.enabled, fails);
      } else {
        res := ReplaceRule(n, config, target, fails);
      }
      RewrittenIsThere(old(book), id, n, config, target, res, book);
    }

    method DeleteRule(id: int, fails: bool) returns (res: Result<int, EditError>)
      requires Consistent()
      modifies this
      ensures Consistent()
      ensures res.Err? ==> book == old(book)
      ensures res == Err(NotFound) <==> forall k :: 0 <= k < |old(stored).rules| ==> old(stored).rules[k].id != id
      ensures res.Ok? ==> exists n: nat :: NamesRule(old(stored), n, id) && book == Next(old(book), Removing(n))
      ensures res.Ok? ==> forall q :: q in stored.queue <==> q in old(stored).queue && q.incident.ruleId != id
      ensures res.Ok? ==> forall r :: r in stored.rules <==> r in old(stored).rules && r.id != id
    {
      var index := FindRule(id);
      if index == -1 {
        return Err(NotFound);
      }
      var r := new Record(stored);
      r.rules := r.rules[..index] + r.rules[index + 1..];
      r.CancelQueued(id);
      RemoveRuleIsAcceptable(stored, index, book.clock);
      var ok := Save(r, fails);
      if !ok {
        return Err(StoreFailed);
      }
      Enter(Removing(index));
      DeletedIsGone(old(stored), index, old(book).clock, stored);
      assert NamesRule(old(stored), index, id);
      return Ok(id);
    }

    method Silence(forget: bool, fails: bool) returns (res: Result<Delivery, EditError>)
      requires Consistent()
      modifies this
      ensures Consistent()
      ensures fails <==> res.Err?
      ensures book == if res.Ok? then Next(old(book), Silencing(forget)) else old(book)
      ensures res.Ok? ==> res.value == stored.delivery && !stored.delivery.enabled && stored.queue == []
    {
      var r := new Record(stored);
      r.delivery := r.delivery.(enabled := false);
      if forget {
        r.ciphertextLength, r.delivery := 0, NO_DELIVERY;
      }
      r.CancelQueued(0);
      DeliveryChangeIsAcceptable(stored, false, 0, 0, forget, book.clock);
      var ok := Save(r, fails);
      if !ok {
        return Err(StoreFailed);
      }
      Enter(Silencing(forget));
      return Ok(stored.delivery);
    }

    method Redirect(enabled: bool, sealedLength: nat, hostLength: nat, fails: bool) returns (res: Result<Delivery, EditError>)
      requires Consistent() && (enabled ==> sealedLength != 0)
      modifies this
      ensures Consistent()
      ensures res.Ok? <==> !fails && sealedLength <= 16384 && hostLength <= 253
      ensures book == if res.Ok? then Next(old(book), Redirecting(enabled, sealedLength, hostLength)) else old(book)
      ensures res.Ok? ==> res.value == stored.delivery && stored.delivery.enabled == enabled && stored.queue == []
    {
      var r := new Record(stored);
      r.ciphertextLength := sealedLength;
      r.delivery := Delivery(sealedLength != 0, hostLength, enabled, None, None, NoDetail);
      r.CancelQueued(0);
      DeliveryChangeIsAcceptable(stored, enabled, sealedLength, hostLength, false, book.clock);
      var ok := Save(r, fails);
      if !ok {
        return Err(StoreFailed);
      }
      Enter(Redirecting(enabled, sealedLength, hostLength));
      return Ok(stored.delivery);
    }

    /** The destination to seal. */
    method Retarget(request: Request, unsealed: Option<Target>) returns (res: Result<Target, EditError>)
      ensures var target := Wanted(stored, request, unsealed);
              && (res.Ok? <==> target.Some? && Sendable(target.value, request.enabled))
              && (res.Ok? ==> res.value == target.value)
              && (res == Err(NoKeyring) <==> target.None?)
    {
      var target := Target("", "");
      if stored.ciphertextLength != 0 {
        if unsealed.None? {
          return Err(NoKeyring);
        }
        target := unsealed.value;
      }
      if request.url.Some? {
        target := target.(url := Trim(request.url.value));
      }
      if request.token.Some? {
        target := target.(token := request.token.value);
      }
      if Bytes(target.token) > 4096 || '\r' in target.token || '\n' in target.token || '\0' in target.token {
        return Err(BadToken);
      }
      if target.url == "" && request.enabled {
        return Err(NoUrl);
      }
      return Ok(target);
    }

    /** Silencing never needs the saved secret. */
    method SetDelivery(request: Request, w: Surroundings, fails: bool) returns (res: Result<Delivery, EditError>)
      requires Consistent()
      requires w.sealedLength.Some? ==> w.sealedLength.value != 0
      modifies this
      ensures Consistent()
      ensures var x := Requested(old(stored), request, w);
              && (res.Ok? <==> !fails && x.Some? && Allowed(old(book), x.value))
              && book == if res.Ok? then Next(old(book), x.value) else old(book)
      ensures res.Ok? ==> stored.queue == [] && stored.delivery.enabled == request.enabled && res.value == stored.delivery
      ensures OnlySilences(request) ==> (res.Ok? <==> !fails)
    {
      var forget := request.url.Some? && Trim(request.url.value) == "";
      NothingLeftOfBlank(if request.url.Some? then request.url.value else "");
      if !request.enabled && (forget || (request.url.None? && request.token.None?)) {
        res := Silence(forget, fails);
      } else {
        res := Reseal(request, w, fails);
      }
    }

    /** The saved secret is opened, changed and sealed again. */
    method Reseal(request: Request, w: Surroundings, fails: bool) returns (res: Result<Delivery, EditError>)
      requires Consistent() && !OnlySilences(request)
      requires w.sealedLength.Some? ==> w.sealedLength.value != 0
      modifies this
      ensures Consistent()
      ensures var x := Requested(old(stored), request, w);
              && (res.Ok? <==> !fails && x.Some? && Allowed(old(book), x.value))
              && book == if res.Ok? then Next(old(book), x.value) else old(book)
      ensures res.Ok? ==> stored.queue == [] && stored.delivery.enabled == request.enabled && res.value == stored.delivery
    {
      var target := Retarget(request, w.unsealed);
      if target.Err? {
        return Err(target.error);
      }
      var sealedLength, hostLength := 0, 0;
      if target.value.url != "" {
        if w.host.None? {
          return Err(BadUrl);
        }
        if w.sealedLength.None? {
          return Err(NoKeyring);
        }
        sealedLength, hostLength := w.sealedLength.value, w.host.value;
      }
      res := Redirect(request.enabled, sealedLength, hostLength, fails);
    }

    /** The head of the queue expires, or is attempted and its outcome recorded. */
    method DeliverOnce(r: Record, now: int, sent: bool, fails: bool, failsAfter: bool) returns (ok: bool, ghost x: Option<Step>)
      requires Consistent() && r.Seen() == stored && Due(stored, now) && book.clock <= now && now > 0
      modifies this, r
      ensures Consistent() && book.clock <= now
      ensures x.None? ==> book == old(book) && !ok
      ensures x.Some? ==> Allowed(old(book), x.value) && book == Next(old(book), x.value)
                          && DeliveryStep(x.value, now, sent, ok)
      ensures ok ==> r.Seen() == stored
      ensures !fails && !failsAfter ==> ok
    {
      var q := r.queue[0];
      if !r.delivery.enabled || q.expiresAt < now || q.attempts >= 3 {
        r.FinishDelivery(q, Failed, ExpiredOrDisabled);
        r.queue := r.queue[1..];
        NextIsSound(book, Dropping(now));
        ok := Save(r, fails);
        if !ok {
          return false, None;
        }
        x := Some(Dropping(now));
        Enter(x.value);
      } else {
        ok, x := AttemptHead(r, now, sent, fails, failsAfter);
      }
    }

    method AttemptHead(r: Record, now: int, sent: bool, fails: bool, failsAfter: bool) returns (ok: bool, ghost x: Option<Step>)
      requires Consistent() && r.Seen() == stored && Due(stored, now) && !Lapsed(stored, now) && book.clock <= now && now > 0
      modifies this, r
      ensures Consistent() && book.clock <= now
      ensures x.None? ==> book == old(book) && !ok
      ensures x.Some? ==> x.value == Delivering(if ok then Some(sent) else None, now)
                          && Allowed(old(book), x.value) && book == Next(old(book), x.value)
      ensures ok ==> r.Seen() == stored
      ensures !fails && !failsAfter ==> ok
    {
      ghost var b := book;
      r.AttemptHead(now);
      NextIsSound(b, Delivering(None, now));
      ok := Save(r, fails);
      if !ok {
        return false, None;
      }
      r.SettleHead(sent, now);
      NextIsSound(b, Delivering(Some(sent), now));
      ok := Save(r, failsAfter);
      x := Some(Delivering(if ok then Some(sent) else None, now));
      Enter(x.value);
    }

    /** Evaluation of every rule, saved before anything is sent. */
    method Observe(r: Record, o: Observations, now: int, fails: bool) returns (ok: bool)
      requires Consistent() && r.Seen() == stored && book.clock <= now && now > 0 && BoundedObservations(o)
      modifies this, r
      ensures Consistent() && book.clock <= now
      ensures ok == (!fails && Allowed(old(book), Observing(o, now)))
      ensures book == if ok then Next(old(book), Observing(o, now)) else old(book)
      ensures ok ==> r.Seen() == stored
    {
      ObserveIsAcceptable(stored, o, now, book.clock);
      r.ObserveAll(o, now);
      ok := Save(r, fails);
      if ok {
        Enter(Observing(o, now));
      }
    }

    /** The same, written into the run so far. */
    method DeliverNext(r: Record, now: int, sent: bool, fails: bool, failsAfter: bool, ghost from: Book, ghost before: seq<Step>,
                       ghost answers: seq<bool>)
      returns (ok: bool, ghost steps: seq<Step>)
      requires Consistent() && r.Seen() == stored && Due(stored, now) && book.clock <= now && now > 0
      requires Runs(from, before, book) && Deliveries(before, now, answers, true) && |before| < |answers| && sent == answers[|before|]
      modifies this, r
      ensures Consistent() && book.clock <= now
      ensures Runs(from, steps, book) && Deliveries(steps, now, answers, ok)
      ensures |before| <= |steps| <= |before| + 1
      ensures ok ==> |steps| == |before| + 1 && r.Seen() == stored
    {
      ghost var x: Option<Step>;
      ok, x := DeliverOnce(r, now, sent, fails, failsAfter);
      steps := before;
      if x.Some? {
        RunsOneMore(from, before, old(book), x.value);
        steps := before + [x.value];
      }
    }

    method DeliverSome(r: Record, now: int, fails: seq<bool>, sent: seq<bool>) returns (ok: bool, ghost steps: seq<Step>)
      requires Consistent() && r.Seen() == stored && book.clock <= now && now > 0 && |fails| == 4 && |sent| == 2
      modifies this, r
      ensures Consistent() && Runs(old(book), steps, book) && |steps| <= 2 && Deliveries(steps, now, sent, ok)
      ensures ok ==> |steps| == 2 || !Due(stored, now)
    {
      ok, steps := true, [];
      var n := 0;
      while n < 2 && r.queue != []
        invariant Consistent() && r.Seen() == stored && book.clock <= now && 0 <= n <= 2 && ok
        invariant Runs(old(book), steps, book) && |steps| == n && Deliveries(steps, now, sent, true)
      {
        if r.queue[0].nextAttempt > now {
          return;
        }
        ok, steps := DeliverNext(r, now, sent[n], fails[2 * n], fails[2 * n + 1], old(book), steps, sent);
        if !ok {
          return;
        }
        n := n + 1;
      }
    }

    /** One minute's work: evaluate and save, then at most two deliveries. */
    method Tick(o: Option<Observations>, now: int, fails: seq<bool>, sent: seq<bool>) returns (ok: bool, ghost steps: seq<Step>)
      requires Consistent() && book.clock <= now && now > 0 && (o.Some? ==> BoundedObservations(o.value))
      requires |fails| == 5 && |sent| == 2
      modifies this
      ensures Consistent()
      ensures Runs(old(book), steps, book) && |steps| <= 3
      ensures steps != [] ==> o.Some? && steps[0] == Observing(o.value, now) && Deliveries(steps[1..], now, sent, ok)
      ensures ok ==> steps != [] && (|steps| == 3 || !Due(stored, now))
    {
      steps := [];
      if o.None? {
        return false, steps;
      }
      var r := new Record(stored);
      ok := Observe(r, o.value, now, fails[0]);
      if ok {
        ghost var rest: seq<Step>;
        ok, rest := DeliverSome(r, now, fails[1..], sent);
        steps := [Observing(o.value, now)] + rest;
        assert steps[1..] == rest;
      }
    }
  }

  /** Given up, or sent with the answer the call gave, unless that could not be saved. */
  predicate DeliveryStep(x: Step, now: int, sent: bool, saved: bool) {
    x == Dropping(now) || x == Delivering(if saved then Some(sent) else None, now)
  }

  /** The kth delivery got the kth answer; only the last can have been lost, and then the tick was cut short. */
  predicate Deliveries(steps: seq<Step>, now: int, sent: seq<bool>, ok: bool) {
    && |steps| <= |sent|
    && forall k :: 0 <= k < |steps| ==> DeliveryStep(steps[k], now, sent[k], true)
                                        || (!ok && k == |steps| - 1 && DeliveryStep(steps[k], now, sent[k], false))
  }

  /** What a successful save of a rule amounts to. */
  ghost predicate Saved(b: Book, id: int, n: nat, config: Config, target: string, result: int, c: Book) {
    if id == 0 then
      result == b.s.nextRuleId + 1 && Allowed(b, Adding(config, target)) && c == Next(b, Adding(config, target))
    else
      && NamesRule(b.s, n, id) && result == id
      && if b.s.rules[n].incidentId == 0 then
           Allowed(b, Replacing(n, config, target)) && c == Next(b, Replacing(n, config, target))
         else
           && config == b.s.rules[n].config.(enabled := config.enabled) && target == b.s.rules[n].target
           && c == Next(b, Switching(n, config.enabled))
  }

  predicate HasRule(s: Alerts, id: int, config: Config, target: string) {
    exists k :: 0 <= k < |s.rules| && s.rules[k].id == id && s.rules[k].config == config && s.rules[k].target == target
  }

  /** The saved rule is on record, with what was asked for. */
  lemma AddedIsThere(b: Book, config: Config, target: string, res: Result<int, EditError>, c: Book)
    requires res.Ok? ==> Saved(b, 0, 0, config, target, res.value, c) && Sound(b)
    ensures res.Ok? ==> HasRule(c.s, res.value, config, target)
  {
    if res.Ok? {
      AddingDoes(b.s, config, target);
      assert c.s.rules[|b.s.rules|].config == config;
    }
  }

  lemma RewrittenIsThere(b: Book, id: int, n: nat, config: Config, target: string, res: Result<int, EditError>, c: Book)
    requires id != 0 && (res.Ok? ==> Saved(b, id, n, config, target, res.value, c))
    ensures res.Ok? ==> HasRule(c.s, id, config, target)
  {
    if res.Ok? {
      if b.s.rules[n].incidentId == 0 {
        ReplacingDoes(b.s, n, config, target);
      } else {
        SwitchingDoes(b.s, n, config.enabled);
      }
      assert c.s.rules[n].config == config;
    }
  }

  lemma DeletedIsGone(s: Alerts, n: nat, clock: int, t: Alerts)
    requires Good(s, clock) && n < |s.rules| && t == RemoveRule(s, n)
    ensures forall r :: r in t.rules <==> r in s.rules && r.id != s.rules[n].id
    ensures forall q :: q in t.queue <==> q in s.queue && q.incident.ruleId != s.rules[n].id
  {
    RemovingDoes(s, n, clock);
  }

  /** When a save of a rule can go through. */
  predicate Acceptable(s: Alerts, id: int, config: Config, target: string) {
    && ValidConfig(config) && target != "" && Bytes(target) <= 128
    && if id == 0 then |s.rules| < MAX_RULES && s.nextRuleId + 1 < MAX_INT64
       else exists n :: 0 <= n < |s.rules| && s.rules[n].id == id
                        && (s.rules[n].incidentId != 0 ==>
                              config == s.rules[n].config.(enabled := config.enabled) && target == s.rules[n].target)
  }
}
