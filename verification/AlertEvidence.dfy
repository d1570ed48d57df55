/**
 Sustained evidence: what a rule has been shown since it was last edited, and that an
 incident opens exactly when those looks end in an unbroken, long enough run of breaches.
 */
module AlertEvidence {
  import opened AlertModel

  /** One evaluation of the rule. */
  datatype Look = Look(enabled: bool, e: Evidence, at: int)

  predicate Breach(c: Config, l: Look) {
    l.enabled && Usable(c.condition, l.e, l.at) && Breached(c, l.e)
  }

  /** No missed evaluation, no missed observation, and no going back. */
  predicate Follows(a: Look, b: Look) {
    0 <= b.at - a.at <= 120 && 0 <= b.e.observedAt - a.e.observedAt <= Gap(b.e)
  }

  /** From m to the end, all looks are breaches that follow one another. */
  predicate Chain(c: Config, h: seq<Look>, m: nat) {
    && m < |h|
    && (forall k :: m <= k < |h| ==> Breach(c, h[k]))
    && (forall k :: m < k < |h| ==> Follows(h[k - 1], h[k]))
  }

  /** A chain long enough, ending on strictly new evidence. */
  ghost predicate Sustained(c: Config, h: seq<Look>) {
    var n := |h| - 1;
    exists m: nat :: Chain(c, h, m) && m < n
                     && h[n].e.observedAt - h[m].e.observedAt >= c.hold && h[n].e.observedAt > h[n - 1].e.observedAt
  }

  /** The three fields a rule keeps stand for the longest chain at the end of its history. */
  ghost predicate Backed(r: Rule, h: seq<Look>) {
    r.incidentId == 0 ==>
      && (r.pendingSince != 0 ==> PendingOn(r, h))
      && (forall m: nat :: Chain(r.config, h, m) ==> r.pendingSince != 0 && r.pendingSince <= h[m].e.observedAt)
  }

  ghost predicate PendingOn(r: Rule, h: seq<Look>) {
    && r.config.enabled && h != []
    && r.lastEvidence == h[|h| - 1].e.observedAt && r.lastEvaluation == h[|h| - 1].at
    && exists m: nat :: Chain(r.config, h, m) && h[m].e.observedAt == r.pendingSince
  }

  lemma ChainGrows(c: Config, h: seq<Look>, l: Look, m: nat)
    requires m < |h|
    ensures Chain(c, h + [l], m) <==> Chain(c, h, m) && Breach(c, l) && Follows(h[|h| - 1], l)
  {
    var g := h + [l];
    assert g[|h|] == l;
    if Chain(c, g, m) {
      assert forall k :: m <= k < |h| ==> h[k] == g[k];
      forall k | m < k < |h|
        ensures Follows(h[k - 1], h[k])
      {
        assert Follows(g[k - 1], g[k]);
      }
    }
    if Chain(c, h, m) && Breach(c, l) && Follows(h[|h| - 1], l) {
      forall k | m < k < |g|
        ensures Follows(g[k - 1], g[k])
      {
        if k < |h| {
          assert Follows(h[k - 1], h[k]);
        }
      }
    }
  }

  /** A breach that neither restarts the wait nor opens an incident lengthens the chain, and so on. */
  lemma LookKeepsBacked(s: Alerts, r: Rule, h: seq<Look>, e: Evidence, now: int)
    requires Backed(r, h) && s.nextIncidentId >= 0
    ensures Backed(Evaluated(s, r, e, now), h + [Look(r.config.enabled, e, now)])
  {
    var l := Look(r.config.enabled, e, now);
    var t, g := Evaluated(s, r, e, now), h + [l];
    assert g[|h|] == l;
    if t.incidentId == 0 {
      if Breach(r.config, l) {
        BreachKeepsBacked(s, r, h, e, now);
      } else {
        assert forall m: nat :: !Chain(r.config, g, m);
      }
    }
  }

  lemma BreachKeepsBacked(s: Alerts, r: Rule, h: seq<Look>, e: Evidence, now: int)
    requires Backed(r, h) && s.nextIncidentId >= 0 && r.incidentId == 0
    requires Breach(r.config, Look(r.config.enabled, e, now)) && !Opens(r, e, now)
    ensures Backed(Evaluated(s, r, e, now), h + [Look(r.config.enabled, e, now)])
  {
    var l := Look(r.config.enabled, e, now);
    var t, g := Evaluated(s, r, e, now), h + [l];
    assert g[|h|] == l;
    if !Restarts(r, e, now) {
      var m: nat :| Chain(r.config, h, m) && h[m].e.observedAt == r.pendingSince;
      ChainGrows(r.config, h, l, m);
      assert Chain(t.config, g, m) && g[m].e.observedAt == t.pendingSince;
    } else {
      assert Chain(t.config, g, |h|);
    }
    forall m: nat | Chain(t.config, g, m)
      ensures t.pendingSince != 0 && t.pendingSince <= g[m].e.observedAt
    {
      if m < |h| {
        ChainGrows(r.config, h, l, m);
        assert Breach(r.config, h[|h| - 1]);
      }
    }
  }

  /** The whole promise: an incident opens if and only if the evidence was sustained. */
  lemma OpensExactlyWhenSustained(r: Rule, h: seq<Look>, e: Evidence, now: int)
    requires Backed(r, h) && r.config.hold > 0
    ensures Opens(r, e, now) <==> r.incidentId == 0 && Sustained(r.config, h + [Look(r.config.enabled, e, now)])
  {
    var l := Look(r.config.enabled, e, now);
    var g := h + [l];
    assert g[|h|] == l;
    if Opens(r, e, now) {
      assert !Restarts(r, e, now);
      var m: nat :| Chain(r.config, h, m) && h[m].e.observedAt == r.pendingSince;
      ChainGrows(r.config, h, l, m);
      assert g[|h| - 1] == h[|h| - 1] && g[m] == h[m];
      assert Chain(r.config, g, m);
    }
    if r.incidentId == 0 && Sustained(r.config, g) {
      var m: nat :| Chain(r.config, g, m) && m < |h|
                    && l.e.observedAt - g[m].e.observedAt >= r.config.hold && l.e.observedAt > g[|h| - 1].e.observedAt;
      ChainGrows(r.config, h, l, m);
      assert Breach(r.config, h[|h| - 1]) && g[m] == h[m];
      assert !Restarts(r, e, now);
    }
  }
}
