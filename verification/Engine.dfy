/** Grouping resolution: kept edges, connected components, one explained decision per alert. */
module Engine {
  import opened Prelude
  import opened Graph
  import opened UnionFinds
  import opened Config
  import opened Scoring
  import opened Blocking

  /** Analyst overrides on single pairs. */
  datatype Pins = Pins(apart: set<Pair>, together: set<Pair>)

  datatype Decision = Decision(alertId: nat, groupKey: nat, verdict: Verdict)

  // ---- Specification -------------------------------------------------------

  function JudgePair(alerts: Alerts, cfg: GroupingConfig, p: Pair): Verdict
    requires Scorable(cfg) && p.0 in alerts && p.1 in alerts
  {
    Judge(alerts[p.0], alerts[p.1], cfg)
  }

  function NormAll(pairs: set<Pair>): set<Pair> {
    set p | p in pairs :: Norm(p.0, p.1)
  }

  predicate IsKept(alerts: Alerts, cfg: GroupingConfig, pins: Pins, p: Pair)
    requires Scorable(cfg)
  {
    && p.0 in alerts && p.1 in alerts
    && p !in NormAll(pins.apart)
    && ((p in Candidates(alerts, cfg) && Keeps(JudgePair(alerts, cfg, p), cfg.threshold))
        || p in NormAll(pins.together))
  }

  /** The kept edges: candidates that passed, minus apart pins, plus together pins; apart wins. */
  function KeptEdges(alerts: Alerts, cfg: GroupingConfig, pins: Pins): set<Pair>
    requires Scorable(cfg)
  {
    set p | p in Candidates(alerts, cfg) + NormAll(pins.together) && IsKept(alerts, cfg, pins, p)
  }

  /** The ids that share a kept edge with `x`. */
  function Neighbours(edges: set<Pair>, ids: set<nat>, x: nat): set<nat> {
    set y | y in ids && Adjacent(edges, x, y)
  }

  /** Edge strength as the engine sorts it; smaller means stronger. */
  datatype Strength = Strength(rank: int, negatedScore: real, counterpart: nat)

  function StrengthOf(v: Verdict, counterpart: nat): Strength {
    if v.how == Deterministic then Strength(0, 0.0, counterpart)
    else Strength(1, if v.score.Some? then -v.score.value else 0.0, counterpart)
  }

  predicate Stronger(s: Strength, t: Strength) {
    s.rank < t.rank || (s.rank == t.rank &&
      (s.negatedScore < t.negatedScore || (s.negatedScore == t.negatedScore && s.counterpart < t.counterpart)))
  }

  predicate IsStrongest(alerts: Alerts, cfg: GroupingConfig, ids: set<nat>, x: nat, best: nat)
    requires Scorable(cfg) && x in alerts && ids <= alerts.Keys
  {
    best in ids && forall y :: y in ids && y != best ==>
      Stronger(StrengthOf(JudgePair(alerts, cfg, Norm(x, best)), best),
               StrengthOf(JudgePair(alerts, cfg, Norm(x, y)), y))
  }

  const Alone := Verdict(Singleton, [], None, None)

  /** The decision the documentation promises for `x`. */
  ghost predicate IsDecision(alerts: Alerts, cfg: GroupingConfig, pins: Pins, x: nat, d: Decision)
    requires Scorable(cfg)
  {
    var edges := KeptEdges(alerts, cfg, pins);
    var near := Neighbours(edges, alerts.Keys, x);
    && d.alertId == x && x in alerts
    && d.groupKey == Least(Component(alerts.Keys, edges, x))
    && if near == {} then d.verdict == Alone
       else exists best :: IsStrongest(alerts, cfg, near, x, best) && d.verdict == JudgePair(alerts, cfg, Norm(x, best))
  }

  // ---- Properties of the specification -------------------------------------

  /** There is only one decision that fits, so iteration order cannot matter. */
  lemma DecisionUnique(alerts: Alerts, cfg: GroupingConfig, pins: Pins, x: nat, d: Decision, e: Decision)
    requires Scorable(cfg)
    requires IsDecision(alerts, cfg, pins, x, d) && IsDecision(alerts, cfg, pins, x, e)
    ensures d == e
  {
    var near := Neighbours(KeptEdges(alerts, cfg, pins), alerts.Keys, x);
    if near != {} {
      var b :| IsStrongest(alerts, cfg, near, x, b) && d.verdict == JudgePair(alerts, cfg, Norm(x, b));
      var c :| IsStrongest(alerts, cfg, near, x, c) && e.verdict == JudgePair(alerts, cfg, Norm(x, c));
      assert b == c;
    }
  }

  /** Two alerts share a group key exactly when kept edges connect them. */
  lemma GroupKeysAreComponents(alerts: Alerts, cfg: GroupingConfig, pins: Pins, x: nat, y: nat, d: Decision,
                               e: Decision)
    requires Scorable(cfg)
    requires IsDecision(alerts, cfg, pins, x, d) && IsDecision(alerts, cfg, pins, y, e)
    ensures d.groupKey == e.groupKey <==> Connected(KeptEdges(alerts, cfg, pins), x, y)
    ensures d.groupKey <= x && d.groupKey in alerts && Connected(KeptEdges(alerts, cfg, pins), x, d.groupKey)
  {
    var ids, edges := alerts.Keys, KeptEdges(alerts, cfg, pins);
    ComponentsCoincide(ids, edges, x, y);
    if d.groupKey == e.groupKey {
      var k := d.groupKey;
      assert k in Component(ids, edges, x) && k in Component(ids, edges, y);
      Symmetric(edges, y, k);
      Transitive(edges, x, k, y);
    }
  }

  // ---- The loops -----------------------------------------------------------

  type Kept = map<Pair, Verdict>

  ghost predicate KeptFrom(kept: Kept, alerts: Alerts, cfg: GroupingConfig, pairs: set<Pair>)
    requires Scorable(cfg)
  {
    && kept.Keys == pairs
    && forall p :: p in kept ==> p.0 in alerts && p.1 in alerts && p.0 <= p.1 && kept[p] == JudgePair(alerts, cfg, p)
  }

  method KeepCandidates(alerts: Alerts, cfg: GroupingConfig, pairs: set<Pair>, apart: set<Pair>) returns (kept: Kept)
    requires Scorable(cfg)
    requires forall p :: p in pairs ==> p.0 in alerts && p.1 in alerts && p.0 <= p.1
    ensures KeptFrom(kept, alerts, cfg,
      set p | p in pairs && p !in apart && Keeps(JudgePair(alerts, cfg, p), cfg.threshold))
  {
    kept := map[];
    var todo := pairs;
    while todo != {}
      invariant todo <= pairs
      invariant KeptFrom(kept, alerts, cfg,
        set p | p in pairs - todo && p !in apart && Keeps(JudgePair(alerts, cfg, p), cfg.threshold))
    {
      var p :| p in todo;
      todo := todo - {p};
      if p in apart { continue; }
      var v := PairDecision(alerts[p.0], alerts[p.1], cfg);
      if Keeps(v, cfg.threshold) {
        kept := kept[p := v];
      }
    }
    assert pairs - todo == pairs;
  }

  method AddTogether(alerts: Alerts, cfg: GroupingConfig, before: Kept, together: set<Pair>, apart: set<Pair>)
    returns (kept: Kept)
    requires Scorable(cfg)
    requires KeptFrom(before, alerts, cfg, before.Keys)
    requires forall p :: p in together ==> p.0 <= p.1
    ensures KeptFrom(kept, alerts, cfg,
      before.Keys + set p | p in together && p !in apart && p.0 in alerts && p.1 in alerts)
  {
    kept := before;
    var todo := together;
    while todo != {}
      invariant todo <= together
      invariant KeptFrom(kept, alerts, cfg,
        before.Keys + set p | p in together - todo && p !in apart && p.0 in alerts && p.1 in alerts)
    {
      var p :| p in todo;
      todo := todo - {p};
      if p.0 !in alerts || p.1 !in alerts { continue; }
      if p in apart || p in kept { continue; }
      var v := PairDecision(alerts[p.0], alerts[p.1], cfg);
      kept := kept[p := v];
    }
    assert together - todo == together;
  }

  method Unite(ids: set<nat>, edges: set<Pair>) returns (uf: UnionFind)
    requires forall p :: p in edges ==> p.0 in ids && p.1 in ids && p.0 <= p.1
    ensures fresh(uf) && uf.Valid() && uf.labels.Keys == ids && Represents(uf.labels, edges)
  {
    hide *;
    uf := new UnionFind(ids);
    var todo := edges;
    assert edges - todo == {};
    while todo != {}
      invariant todo <= edges && uf.Valid() && uf.labels.Keys == ids
      invariant Represents(uf.labels, edges - todo)
    {
      var p :| p in todo;
      ghost var before, done := uf.labels, edges - todo;
      uf.Union(p.0, p.1);
      JoinedAddsEdge(before, uf.labels, done, p.0, p.1);
      todo := todo - {p};
      assert edges - todo == done + {Norm(p.0, p.1)};
    }
    assert edges - todo == edges;
  }

  method StrongestEdge(alerts: Alerts, cfg: GroupingConfig, kept: Kept, near: set<nat>, x: nat) returns (v: Verdict)
    requires Scorable(cfg) && x in alerts && near <= alerts.Keys && near != {}
    requires KeptFrom(kept, alerts, cfg, kept.Keys) && forall y :: y in near ==> Norm(x, y) in kept
    ensures exists best :: IsStrongest(alerts, cfg, near, x, best) && v == JudgePair(alerts, cfg, Norm(x, best))
  {
    hide JudgePair;
    var best :| best in near;
    var todo := near - {best};
    while todo != {}
      invariant todo <= near && best in near - todo
      invariant IsStrongest(alerts, cfg, near - todo, x, best)
    {
      var y :| y in todo;
      todo := todo - {y};
      if Stronger(StrengthOf(kept[Norm(x, y)], y), StrengthOf(kept[Norm(x, best)], best)) {
        best := y;
      }
    }
    assert near - todo == near;
    v := kept[Norm(x, best)];
  }

  /** The whole result: one fitting decision per alert, by increasing id. */
  ghost predicate IsResult(alerts: Alerts, cfg: GroupingConfig, pins: Pins, ds: seq<Decision>)
    requires Scorable(cfg)
  {
    var ids := Ascending(alerts.Keys);
    && |ds| == |ids|
    && forall i :: 0 <= i < |ds| ==> IsDecision(alerts, cfg, pins, ids[i], ds[i])
  }

  method KeepEdges(alerts: seq<EngineAlert>, cfg: GroupingConfig, pins: Pins) returns (kept: Kept)
    requires DistinctIds(alerts) && Scorable(cfg)
    ensures KeptFrom(kept, ById(alerts), cfg, KeptEdges(ById(alerts), cfg, pins))
    ensures forall p :: p in kept ==> p.0 in ById(alerts) && p.1 in ById(alerts) && p.0 <= p.1
  {
    var byId := ById(alerts);
    var apart, together := NormAll(pins.apart), NormAll(pins.together);
    var pairs := CandidatePairs(alerts, cfg);
    kept := KeepCandidates(byId, cfg, pairs, apart);
    kept := AddTogether(byId, cfg, kept, together, apart);
    assert kept.Keys == KeptEdges(byId, cfg, pins);
  }

  method DecideFor(alerts: Alerts, cfg: GroupingConfig, pins: Pins, kept: Kept, uf: UnionFind, x: nat)
    returns (d: Decision)
    requires Scorable(cfg) && x in alerts && KeptFrom(kept, alerts, cfg, KeptEdges(alerts, cfg, pins))
    requires uf.Valid() && uf.labels.Keys == alerts.Keys && Represents(uf.labels, kept.Keys)
    modifies uf`parent
    ensures uf.Valid()
    ensures IsDecision(alerts, cfg, pins, x, d)
  {
    ghost var edges := KeptEdges(alerts, cfg, pins);
    RootIsLeast(uf.parent, uf.labels, edges, x);
    assert uf.parent.Keys == alerts.Keys;
    var key := uf.Find(x);
    assert key == Least(Component(alerts.Keys, edges, x));
    var near := Neighbours(kept.Keys, alerts.Keys, x);
    if near == {} {
      d := Decision(x, key, Alone);
    } else {
      var v := StrongestEdge(alerts, cfg, kept, near, x);
      d := Decision(x, key, v);
    }
  }

  method DecideAll(alerts: Alerts, cfg: GroupingConfig, pins: Pins, kept: Kept, uf: UnionFind, ids: seq<nat>)
    returns (ds: seq<Decision>)
    requires Scorable(cfg) && KeptFrom(kept, alerts, cfg, KeptEdges(alerts, cfg, pins))
    requires uf.Valid() && uf.labels.Keys == alerts.Keys && Represents(uf.labels, kept.Keys)
    requires forall k :: 0 <= k < |ids| ==> ids[k] in alerts
    modifies uf`parent
    ensures |ds| == |ids| && forall k :: 0 <= k < |ids| ==> IsDecision(alerts, cfg, pins, ids[k], ds[k])
  {
    hide *;
    ds := [];
    for i := 0 to |ids|
      invariant uf.Valid() && |ds| == i
      invariant forall k :: 0 <= k < i ==> IsDecision(alerts, cfg, pins, ids[k], ds[k])
    {
      var d := DecideFor(alerts, cfg, pins, kept, uf, ids[i]);
      ds := ds + [d];
    }
  }

  lemma DecidedIsResult(alerts: Alerts, cfg: GroupingConfig, pins: Pins, ds: seq<Decision>)
    requires Scorable(cfg) && |ds| == |Ascending(alerts.Keys)|
    requires forall k :: 0 <= k < |ds| ==> IsDecision(alerts, cfg, pins, Ascending(alerts.Keys)[k], ds[k])
    ensures IsResult(alerts, cfg, pins, ds)
  {
    hide IsDecision;
  }

  method Group(alerts: seq<EngineAlert>, cfg: GroupingConfig, pins: Pins) returns (ds: seq<Decision>)
    requires DistinctIds(alerts) && Scorable(cfg)
    ensures IsResult(ById(alerts), cfg, pins, ds)
  {
    hide *;
    var byId := ById(alerts);
    var ids := Ascending(byId.Keys);
    var kept := KeepEdges(alerts, cfg, pins);
    var uf := Unite(byId.Keys, kept.Keys);
    assert forall k :: 0 <= k < |ids| ==> ids[k] in ids;
    ds := DecideAll(byId, cfg, pins, kept, uf, ids);
    DecidedIsResult(byId, cfg, pins, ds);
  }

  // ---- What a run of the engine guarantees ---------------------------------

  lemma ResultUnique(alerts: Alerts, cfg: GroupingConfig, pins: Pins, ds: seq<Decision>, es: seq<Decision>)
    requires Scorable(cfg) && IsResult(alerts, cfg, pins, ds) && IsResult(alerts, cfg, pins, es)
    ensures ds == es
  {
    var ids := Ascending(alerts.Keys);
    forall i | 0 <= i < |ds| ensures ds[i] == es[i] {
      DecisionUnique(alerts, cfg, pins, ids[i], ds[i], es[i]);
    }
  }

  lemma SameAlerts(list: seq<EngineAlert>, other: seq<EngineAlert>)
    requires DistinctIds(list) && DistinctIds(other) && multiset(list) == multiset(other)
    ensures ById(list) == ById(other)
  {
    forall a ensures a in list <==> a in other {
      assert a in list <==> a in multiset(list);
      assert a in other <==> a in multiset(other);
    }
  }

  /** The result depends on the alerts, not on the order they are listed in. */
  lemma OrderIndependent(list: seq<EngineAlert>, other: seq<EngineAlert>, cfg: GroupingConfig, pins: Pins,
                         ds: seq<Decision>, es: seq<Decision>)
    requires DistinctIds(list) && DistinctIds(other) && multiset(list) == multiset(other) && Scorable(cfg)
    requires IsResult(ById(list), cfg, pins, ds) && IsResult(ById(other), cfg, pins, es)
    ensures ds == es
  {
    SameAlerts(list, other);
    ResultUnique(ById(list), cfg, pins, ds, es);
  }

  const NoPins := Pins({}, {})

  ghost function FreeEdges(alerts: Alerts, cfg: GroupingConfig): set<Pair>
    requires Scorable(cfg)
  {
    KeptEdges(alerts, cfg, NoPins)
  }

  lemma FreeEdgeIs(alerts: Alerts, cfg: GroupingConfig, x: nat, y: nat)
    requires Scorable(cfg)
    ensures Adjacent(FreeEdges(alerts, cfg), x, y) <==>
      Norm(x, y) in Candidates(alerts, cfg) && Keeps(JudgePair(alerts, cfg, Norm(x, y)), cfg.threshold)
    ensures Adjacent(FreeEdges(alerts, cfg), x, y) ==> x != y && x in alerts && y in alerts
  {
    assert NormAll({}) == {};
  }

  lemma NobodyNearMeansAlone(alerts: Alerts, cfg: GroupingConfig, x: nat)
    requires Scorable(cfg) && x in alerts
    ensures Neighbours(FreeEdges(alerts, cfg), alerts.Keys, x) == {} <==>
      Component(alerts.Keys, FreeEdges(alerts, cfg), x) == {x}
  {
    var edges := FreeEdges(alerts, cfg);
    var near := Neighbours(edges, alerts.Keys, x);
    forall y ensures Adjacent(edges, x, y) ==> y in near && y != x { FreeEdgeIs(alerts, cfg, x, y); }
    hide FreeEdges;
    if near == {} {
      forall y | y in Component(alerts.Keys, edges, x) ensures y == x { Isolated(edges, x, y); }
    } else {
      var y :| y in near;
      EdgeConnects(edges, x, y);
      assert y in Component(alerts.Keys, edges, x);
    }
  }

  /** Without pins, a decision is a singleton exactly when its component has one alert. */
  lemma SingletonMeansAlone(alerts: Alerts, cfg: GroupingConfig, x: nat, d: Decision)
    requires Scorable(cfg) && IsDecision(alerts, cfg, NoPins, x, d)
    ensures d.verdict.how == Singleton <==> Component(alerts.Keys, FreeEdges(alerts, cfg), x) == {x}
  {
    hide Component;
    NobodyNearMeansAlone(alerts, cfg, x);
  }

  /** Without pins, every other decision reports a real kept edge of its alert ... */
  lemma ExplainedByRealEdge(alerts: Alerts, cfg: GroupingConfig, x: nat, d: Decision) returns (y: nat)
    requires Scorable(cfg) && IsDecision(alerts, cfg, NoPins, x, d) && d.verdict.how != Singleton
    ensures Adjacent(FreeEdges(alerts, cfg), x, y) && d.verdict == JudgePair(alerts, cfg, Norm(x, y))
    ensures Keeps(d.verdict, cfg.threshold)
  {
    var near := Neighbours(FreeEdges(alerts, cfg), alerts.Keys, x);
    y :| IsStrongest(alerts, cfg, near, x, y) && d.verdict == JudgePair(alerts, cfg, Norm(x, y));
    FreeEdgeIs(alerts, cfg, x, y);
  }

  lemma StrongerScores(v: Verdict, w: Verdict, x: nat, y: nat)
    requires Stronger(StrengthOf(v, x), StrengthOf(w, y)) && v.how == Similarity && v.score.Some?
    requires w.how == Deterministic || w.score.Some?
    ensures w.how != Deterministic && w.score.value <= v.score.value
  {
  }

  lemma JudgedShape(a: EngineAlert, b: EngineAlert, cfg: GroupingConfig)
    requires Scorable(cfg)
    ensures var v := Judge(a, b, cfg);
            v.how == Deterministic || (v.how == Similarity && v.score.Some?)
  {
  }

  /** ... and the best one: a rule match if any incident edge is one, else the highest score. */
  lemma ExplainedByBestEdge(alerts: Alerts, cfg: GroupingConfig, x: nat, d: Decision, y: nat)
    requires Scorable(cfg) && IsDecision(alerts, cfg, NoPins, x, d)
    requires y in Neighbours(FreeEdges(alerts, cfg), alerts.Keys, x)
    ensures d.verdict.how != Singleton
    ensures d.verdict.how == Similarity ==>
      (var v := JudgePair(alerts, cfg, Norm(x, y));
       v.how == Similarity && d.verdict.score.Some? && v.score.Some? && v.score.value <= d.verdict.score.value)
  {
    var near := Neighbours(FreeEdges(alerts, cfg), alerts.Keys, x);
    var best :| IsStrongest(alerts, cfg, near, x, best) && d.verdict == JudgePair(alerts, cfg, Norm(x, best));
    JudgedShape(alerts[Norm(x, best).0], alerts[Norm(x, best).1], cfg);
    JudgedShape(alerts[Norm(x, y).0], alerts[Norm(x, y).1], cfg);
    if d.verdict.how == Similarity && y != best {
      StrongerScores(d.verdict, JudgePair(alerts, cfg, Norm(x, y)), best, y);
    }
  }

  /** A lone alert's verdict carries no rule, no score and no features. */
  lemma SingletonSaysNothing(alerts: Alerts, cfg: GroupingConfig, pins: Pins, x: nat, d: Decision)
    requires Scorable(cfg) && IsDecision(alerts, cfg, pins, x, d)
    requires Neighbours(KeptEdges(alerts, cfg, pins), alerts.Keys, x) == {}
    ensures d.verdict.how == Singleton && d.verdict.ruleIds == [] && d.verdict.score.None? && d.verdict.features.None?
  {
    hide KeptEdges, Neighbours;
  }

  /** Which of two edges with these verdicts, to these counterparts, explains an alert. */
  predicate Explains(v: Verdict, x: nat, w: Verdict, y: nat) {
    if v.how == Deterministic then w.how != Deterministic || x < y
    else
      && w.how != Deterministic && v.score.Some? && w.score.Some?
      && (v.score.value > w.score.value || (v.score.value == w.score.value && x < y))
  }

  lemma StrongestExplains(v: Verdict, x: nat, w: Verdict, y: nat)
    requires Stronger(StrengthOf(v, x), StrengthOf(w, y))
    requires v.how == Deterministic || (v.how == Similarity && v.score.Some?)
    requires w.how == Deterministic || (w.how == Similarity && w.score.Some?)
    ensures Explains(v, x, w, y)
  {
  }

  /** The explanation is that of one incident edge: a rule match if there is one, else the highest score, and among
      equals the least counterpart. */
  lemma ExplanationIs(alerts: Alerts, cfg: GroupingConfig, pins: Pins, x: nat, d: Decision) returns (best: nat)
    requires Scorable(cfg) && IsDecision(alerts, cfg, pins, x, d)
    requires Neighbours(KeptEdges(alerts, cfg, pins), alerts.Keys, x) != {}
    ensures best in Neighbours(KeptEdges(alerts, cfg, pins), alerts.Keys, x)
    ensures best in alerts && x in alerts && d.verdict == JudgePair(alerts, cfg, Norm(x, best))
    ensures forall y :: y in Neighbours(KeptEdges(alerts, cfg, pins), alerts.Keys, x) && y != best ==>
      y in alerts && Explains(d.verdict, best, JudgePair(alerts, cfg, Norm(x, y)), y)
  {
    var near := Neighbours(KeptEdges(alerts, cfg, pins), alerts.Keys, x);
    best :| IsStrongest(alerts, cfg, near, x, best) && d.verdict == JudgePair(alerts, cfg, Norm(x, best));
    hide KeptEdges, Explains, Stronger, StrengthOf;
    forall y | y in near && y != best
      ensures y in alerts && Explains(d.verdict, best, JudgePair(alerts, cfg, Norm(x, y)), y)
    {
      JudgedPairShape(alerts, cfg, Norm(x, best));
      JudgedPairShape(alerts, cfg, Norm(x, y));
      StrongestExplains(d.verdict, best, JudgePair(alerts, cfg, Norm(x, y)), y);
    }
  }

  lemma JudgedPairShape(alerts: Alerts, cfg: GroupingConfig, p: Pair)
    requires Scorable(cfg) && p.0 in alerts && p.1 in alerts
    ensures var v := JudgePair(alerts, cfg, p); v.how == Deterministic || (v.how == Similarity && v.score.Some?)
  {
    JudgedShape(alerts[p.0], alerts[p.1], cfg);
  }

  predicate PinnedPair(pairs: set<Pair>, x: nat, y: nat) { (x, y) in pairs || (y, x) in pairs }

  lemma PinnedIsNormed(pairs: set<Pair>, x: nat, y: nat)
    ensures Norm(x, y) in NormAll(pairs) <==> PinnedPair(pairs, x, y)
  {
    if PinnedPair(pairs, x, y) {
      var p := if (x, y) in pairs then (x, y) else (y, x);
      assert p in pairs && Norm(p.0, p.1) == Norm(x, y);
    }
  }

  /** Pins overrule the verdicts, in either orientation, and apart overrules together. */
  lemma PinnedEdgeIff(alerts: Alerts, cfg: GroupingConfig, pins: Pins, x: nat, y: nat)
    requires Scorable(cfg) && x in alerts && y in alerts
    ensures Adjacent(KeptEdges(alerts, cfg, pins), x, y) <==>
      !PinnedPair(pins.apart, x, y) && (PinnedPair(pins.together, x, y) || Adjacent(FreeEdges(alerts, cfg), x, y))
  {
    PinnedIsNormed(pins.apart, x, y);
    PinnedIsNormed(pins.together, x, y);
    FreeEdgeIs(alerts, cfg, x, y);
    hide NormAll, Candidates, Keeps, JudgePair;
  }

  /** Without pins an edge is a candidate pair that some rule matches or whose score reaches the threshold. */
  lemma FreeEdgeIff(alerts: Alerts, cfg: GroupingConfig, x: nat, y: nat)
    requires Scorable(cfg) && x in alerts && y in alerts && x < y
    ensures var v := Judge(alerts[x], alerts[y], cfg);
            Adjacent(FreeEdges(alerts, cfg), x, y) <==>
              && (x, y) in Candidates(alerts, cfg)
              && (AnyRuleMatches(cfg.rules, alerts[x], alerts[y])
                  || (v.score.Some? && v.score.value >= cfg.threshold))
  {
    FreeEdgeIs(alerts, cfg, x, y);
    MatchedSomething(cfg.rules, alerts[x], alerts[y]);
    hide Candidates, FreeEdges, FeatureContributions, MatchedRules, AnyRuleMatches;
  }
}
