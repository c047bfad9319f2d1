/** The engine's uncapped pairwise relation, and how runs on part of the data relate to it. */
module Relation {
  import opened Graph
  import opened Config
  import opened Scoring
  import opened Blocking
  import opened Engine

  /** Some rule proposes the pair (listed by increasing id) and its verdict passes. */
  predicate Related(cfg: GroupingConfig, a: EngineAlert, b: EngineAlert)
    requires Scorable(cfg)
  {
    Proposed(cfg.rules, a, b) && Keeps(Judge(a, b, cfg), cfg.threshold)
  }

  /** The full pairwise kept-edge graph: no cap, no pins. */
  function FullEdges(alerts: Alerts, cfg: GroupingConfig): set<Pair>
    requires Scorable(cfg)
  {
    set x, y | x in alerts && y in alerts && x < y && Related(cfg, alerts[x], alerts[y]) :: (x, y)
  }

  lemma FullEdgeIs(alerts: Alerts, cfg: GroupingConfig, x: nat, y: nat)
    requires Scorable(cfg)
    ensures Adjacent(FullEdges(alerts, cfg), x, y) <==>
      x != y && x in alerts && y in alerts && Related(cfg, alerts[Norm(x, y).0], alerts[Norm(x, y).1])
  {
  }

  /** The cap only ever removes edges. */
  lemma CappedIsPart(alerts: Alerts, cfg: GroupingConfig)
    requires Scorable(cfg)
    ensures FreeEdges(alerts, cfg) <= FullEdges(alerts, cfg)
  {
    forall p | p in FreeEdges(alerts, cfg) ensures p in FullEdges(alerts, cfg) {
      assert NormAll({}) == {};
      assert p == (p.0, p.1);
      ProposedSymmetric(cfg.rules, alerts[p.0], alerts[p.1]);
    }
  }

  /** With an idle cap a run sees the full graph on its alerts. */
  lemma IdleCapIsFull(alerts: Alerts, cfg: GroupingConfig)
    requires Scorable(cfg) && CapIdle(alerts, cfg)
    ensures FreeEdges(alerts, cfg) == FullEdges(alerts, cfg)
  {
    CappedIsPart(alerts, cfg);
    forall p | p in FullEdges(alerts, cfg) ensures p in FreeEdges(alerts, cfg) {
      IdleCapKeepsAll(alerts, cfg, p.0, p.1);
      assert p == (p.0, p.1);
      assert NormAll({}) == {};
    }
  }

  /** Adding alerts only adds edges. */
  lemma FullEdgesGrow(alerts: Alerts, more: Alerts, cfg: GroupingConfig)
    requires Scorable(cfg) && alerts.Keys <= more.Keys && forall x :: x in alerts ==> more[x] == alerts[x]
    ensures FullEdges(alerts, cfg) <= FullEdges(more, cfg)
  {
  }

  // ---- Loosening the configuration -----------------------------------------

  predicate RuleLoosened(r: Rule, s: Rule) {
    && r.blockingKeys == s.blockingKeys && r.matchKeys == s.matchKeys
    && (r.enabled ==> s.enabled) && r.windowSeconds <= s.windowSeconds && r.tolerance <= s.tolerance
  }

  /** A lower threshold, wider windows, higher tolerances, more rules enabled; all else equal. */
  ghost predicate Loosened(cfg: GroupingConfig, loose: GroupingConfig) {
    && |cfg.rules| == |loose.rules| && (forall i :: 0 <= i < |cfg.rules| ==> RuleLoosened(cfg.rules[i], loose.rules[i]))
    && loose.threshold <= cfg.threshold && loose.weights == cfg.weights && loose.tauSeconds == cfg.tauSeconds
    && loose.decay == cfg.decay && loose.nameRatio == cfg.nameRatio
  }

  lemma LoosenedMatches(cfg: GroupingConfig, loose: GroupingConfig, a: EngineAlert, b: EngineAlert)
    requires Loosened(cfg, loose)
    ensures Proposed(cfg.rules, a, b) ==> Proposed(loose.rules, a, b)
    ensures AnyRuleMatches(cfg.rules, a, b) ==> AnyRuleMatches(loose.rules, a, b)
  {
    if Proposed(cfg.rules, a, b) {
      var i :| 0 <= i < |cfg.rules| && Proposes(cfg.rules[i], a, b);
      assert RuleLoosened(cfg.rules[i], loose.rules[i]) && Proposes(loose.rules[i], a, b);
    }
    if AnyRuleMatches(cfg.rules, a, b) {
      var i :| 0 <= i < |cfg.rules| && RuleMatches(cfg.rules[i], a, b);
      var r, s := cfg.rules[i], loose.rules[i];
      assert RuleLoosened(r, s);
      forall key | key in s.matchKeys ensures MatchKeyAgrees(key, a, b, s) {
        assert MatchKeyAgrees(key, a, b, r);
      }
      assert RuleMatches(s, a, b);
    }
  }

  lemma LoosenedRelates(cfg: GroupingConfig, loose: GroupingConfig, a: EngineAlert, b: EngineAlert)
    requires Loosened(cfg, loose) && Scorable(cfg) && Scorable(loose) && Related(cfg, a, b)
    ensures Related(loose, a, b)
  {
    LoosenedMatches(cfg, loose, a, b);
    MatchedSomething(cfg.rules, a, b);
    MatchedSomething(loose.rules, a, b);
    assert FeatureContributions(a, b, cfg) == FeatureContributions(a, b, loose);
  }

  /** Loosening only coarsens: alerts grouped together stay together. */
  lemma LooseningCoarsens(alerts: Alerts, cfg: GroupingConfig, loose: GroupingConfig, x: nat, y: nat,
                          dx: Decision, dy: Decision, ex: Decision, ey: Decision)
    requires Loosened(cfg, loose) && Scorable(cfg) && Scorable(loose)
    requires CapIdle(alerts, cfg) && CapIdle(alerts, loose)
    requires IsDecision(alerts, cfg, NoPins, x, dx) && IsDecision(alerts, cfg, NoPins, y, dy)
    requires IsDecision(alerts, loose, NoPins, x, ex) && IsDecision(alerts, loose, NoPins, y, ey)
    ensures dx.groupKey == dy.groupKey ==> ex.groupKey == ey.groupKey
  {
    IdleCapIsFull(alerts, cfg);
    IdleCapIsFull(alerts, loose);
    assert FullEdges(alerts, cfg) <= FullEdges(alerts, loose) by {
      forall p | p in FullEdges(alerts, cfg) ensures p in FullEdges(alerts, loose) {
        LoosenedRelates(cfg, loose, alerts[p.0], alerts[p.1]);
        assert p == (p.0, p.1);
      }
    }
    hide IsDecision, FullEdges, KeptEdges;
    GroupKeysAreComponents(alerts, cfg, NoPins, x, y, dx, dy);
    GroupKeysAreComponents(alerts, loose, NoPins, x, y, ex, ey);
    if dx.groupKey == dy.groupKey {
      Monotone(FullEdges(alerts, cfg), FullEdges(alerts, loose), x, y);
    }
  }
}
