/** The verdict on a pair of alerts: exact rule matches first, then a weighted similarity. */
module Scoring {
  import opened Prelude
  import opened Config

  datatype Method = Deterministic | Similarity | Singleton

  datatype Features = Features(time: real, amount: real, name: real, device: real, ip: real, typology: real)

  datatype Verdict = Verdict(how: Method, ruleIds: seq<string>, score: Option<real>, features: Option<Features>)

  function AbsReal(x: real): real { if x < 0.0 then -x else x }

  function MaxReal(x: real, y: real): real { if x < y then y else x }

  /** The greater amount, but never less than one, so it can be divided by. */
  function Scale(a: EngineAlert, b: EngineAlert): (d: real)
    ensures d >= 1.0
  {
    MaxReal(MaxReal(a.amount, b.amount), 1.0)
  }

  predicate MatchKeyAgrees(key: Field, a: EngineAlert, b: EngineAlert, rule: Rule) {
    if key == Amount then AbsReal(a.amount - b.amount) / Scale(a, b) <= rule.tolerance
    else ValueOf(a, key).Some? && ValueOf(a, key) == ValueOf(b, key)
  }

  predicate RuleMatches(rule: Rule, a: EngineAlert, b: EngineAlert) {
    && rule.enabled
    && Near(a, b, rule.windowSeconds)
    && forall key :: key in rule.matchKeys ==> MatchKeyAgrees(key, a, b, rule)
  }

  /** Ids of the matching rules, in configuration order. */
  function MatchedRules(rules: seq<Rule>, a: EngineAlert, b: EngineAlert): seq<string> {
    if rules == [] then [] else
    var last := rules[|rules| - 1];
    MatchedRules(rules[..|rules| - 1], a, b) + if RuleMatches(last, a, b) then [last.id] else []
  }

  ghost predicate AnyRuleMatches(rules: seq<Rule>, a: EngineAlert, b: EngineAlert) {
    exists rule :: rule in rules && RuleMatches(rule, a, b)
  }

  lemma {:induction false} MatchedSomething(rules: seq<Rule>, a: EngineAlert, b: EngineAlert)
    ensures MatchedRules(rules, a, b) != [] <==> AnyRuleMatches(rules, a, b)
  {
    if rules != [] {
      var init, last := rules[..|rules| - 1], rules[|rules| - 1];
      MatchedSomething(init, a, b);
      assert rules == init + [last];
      assert AnyRuleMatches(rules, a, b) <==> AnyRuleMatches(init, a, b) || RuleMatches(last, a, b);
    }
  }

  method DeterministicMatch(a: EngineAlert, b: EngineAlert, cfg: GroupingConfig) returns (matched: seq<string>)
    ensures matched == MatchedRules(cfg.rules, a, b)
    ensures matched != [] <==> AnyRuleMatches(cfg.rules, a, b)
  {
    matched := [];
    for i := 0 to |cfg.rules|
      invariant matched == MatchedRules(cfg.rules[..i], a, b)
    {
      var rule := cfg.rules[i];
      assert cfg.rules[..i + 1][..i] == cfg.rules[..i];
      if !rule.enabled { continue; }
      if !Near(a, b, rule.windowSeconds) { continue; }
      if forall key :: key in rule.matchKeys ==> MatchKeyAgrees(key, a, b, rule) {
        matched := matched + [rule.id];
      }
    }
    assert cfg.rules[..|cfg.rules|] == cfg.rules;
    MatchedSomething(cfg.rules, a, b);
  }

  function Equal01(x: Option<string>, y: Option<string>): real {
    if x.Some? && x == y then 1.0 else 0.0
  }

  function Jaccard(x: set<string>, y: set<string>): real {
    if x == {} && y == {} then 0.0 else |x * y| as real / |x + y| as real
  }

  function FeatureContributions(a: EngineAlert, b: EngineAlert, cfg: GroupingConfig): Features
    requires cfg.tauSeconds != 0
  {
    var gap := AbsReal(a.amount - b.amount) / Scale(a, b);
    Features(
      cfg.decay(-(Abs(a.eventTime - b.eventTime) as real / 1000000.0) / cfg.tauSeconds as real),
      1.0 - (if gap < 1.0 then gap else 1.0),
      if a.merchantName.None? || b.merchantName.None? then 0.0
      else cfg.nameRatio(a.merchantName.value, b.merchantName.value) / 100.0,
      Equal01(a.deviceId, b.deviceId),
      Equal01(a.ipAddress, b.ipAddress),
      Jaccard(a.typologies, b.typologies))
  }

  function Part(weight: real, feature: real): real { weight * feature }

  function WeightedSum(f: Features, w: Weights): real {
    Part(w.time, f.time) + Part(w.amount, f.amount) + Part(w.name, f.name)
    + Part(w.device, f.device) + Part(w.ip, f.ip) + Part(w.typology, f.typology)
  }

  function WeightedScore(f: Features, w: Weights): real
    requires TotalWeight(w) != 0.0
  {
    WeightedSum(f, w) / TotalWeight(w)
  }

  function Judge(a: EngineAlert, b: EngineAlert, cfg: GroupingConfig): Verdict
    requires Scorable(cfg)
  {
    var features := FeatureContributions(a, b, cfg);
    var matched := MatchedRules(cfg.rules, a, b);
    if matched != [] then Verdict(Deterministic, matched, None, Some(features))
    else Verdict(Similarity, [], Some(WeightedScore(features, cfg.weights)), Some(features))
  }

  method PairDecision(a: EngineAlert, b: EngineAlert, cfg: GroupingConfig) returns (v: Verdict)
    requires Scorable(cfg)
    ensures v == Judge(a, b, cfg)
    ensures v.how == Deterministic <==> AnyRuleMatches(cfg.rules, a, b)
    ensures v.score.None? <==> AnyRuleMatches(cfg.rules, a, b)
  {
    var features := FeatureContributions(a, b, cfg);
    var matched := DeterministicMatch(a, b, cfg);
    if matched != [] {
      return Verdict(Deterministic, matched, None, Some(features));
    }
    return Verdict(Similarity, [], Some(WeightedScore(features, cfg.weights)), Some(features));
  }

  /** The engine keeps an edge whose verdict is a rule match or a score at the threshold. */
  predicate Keeps(v: Verdict, threshold: real) {
    v.ruleIds != [] || (v.score.Some? && v.score.value >= threshold)
  }

  ghost predicate NonNegative(w: Weights) {
    w.time >= 0.0 && w.amount >= 0.0 && w.name >= 0.0 && w.device >= 0.0 && w.ip >= 0.0 && w.typology >= 0.0
  }

  /** A configuration as the documentation intends it: unit-interval features, weights not negative. */
  ghost predicate Sensible(cfg: GroupingConfig) {
    && cfg.tauSeconds > 0 && TotalWeight(cfg.weights) > 0.0 && NonNegative(cfg.weights)
    && (forall x :: x <= 0.0 ==> 0.0 <= cfg.decay(x) <= 1.0)
    && (forall s, t :: 0.0 <= cfg.nameRatio(s, t) <= 100.0)
  }

  predicate Unit(x: real) { 0.0 <= x <= 1.0 }

  lemma Scaled(w: real, c: real)
    requires w >= 0.0 && Unit(c)
    ensures 0.0 <= Part(w, c) <= w
  {
  }

  lemma Quotient(x: real, y: real)
    requires 0.0 <= x <= y && y > 0.0
    ensures Unit(x / y)
  {
    var q := x / y;
    assert q * y == x;
  }

  lemma JaccardUnit(x: set<string>, y: set<string>)
    ensures Unit(Jaccard(x, y))
  {
    if x != {} || y != {} {
      SubsetCardinality(x * y, x + y);
      assert x + y != {};
      Quotient(|x * y| as real, |x + y| as real);
    }
  }

  predicate AllUnit(f: Features) {
    Unit(f.time) && Unit(f.amount) && Unit(f.name) && Unit(f.device) && Unit(f.ip) && Unit(f.typology)
  }

  lemma FeaturesUnit(a: EngineAlert, b: EngineAlert, cfg: GroupingConfig)
    requires Sensible(cfg)
    ensures AllUnit(FeatureContributions(a, b, cfg))
  {
    var dt, tau := Abs(a.eventTime - b.eventTime) as real / 1000000.0, cfg.tauSeconds as real;
    var q := -dt / tau;
    assert q * tau == -dt;
    var gap := AbsReal(a.amount - b.amount) / Scale(a, b);
    assert gap * Scale(a, b) == AbsReal(a.amount - b.amount);
    JaccardUnit(a.typologies, b.typologies);
  }

  lemma SumWithinTotal(f: Features, w: Weights)
    requires AllUnit(f) && NonNegative(w)
    ensures 0.0 <= WeightedSum(f, w) <= TotalWeight(w)
  {
    hide Part;
    Scaled(w.time, f.time);
    Scaled(w.amount, f.amount);
    Scaled(w.name, f.name);
    Scaled(w.device, f.device);
    Scaled(w.ip, f.ip);
    Scaled(w.typology, f.typology);
  }

  /** Every similarity score is a weighted mean of unit features, so it stays in [0, 1]. */
  lemma ScoreUnit(a: EngineAlert, b: EngineAlert, cfg: GroupingConfig)
    requires Sensible(cfg)
    ensures Unit(WeightedScore(FeatureContributions(a, b, cfg), cfg.weights))
  {
    FeaturesUnit(a, b, cfg);
    SumWithinTotal(FeatureContributions(a, b, cfg), cfg.weights);
    Quotient(WeightedSum(FeatureContributions(a, b, cfg), cfg.weights), TotalWeight(cfg.weights));
  }

  /** With a threshold above one the score never matters: only rule matches keep an edge. */
  lemma OnlyRulesAboveOne(a: EngineAlert, b: EngineAlert, cfg: GroupingConfig)
    requires Sensible(cfg) && cfg.threshold > 1.0
    ensures Keeps(Judge(a, b, cfg), cfg.threshold) <==> AnyRuleMatches(cfg.rules, a, b)
  {
    ScoreUnit(a, b, cfg);
    MatchedSomething(cfg.rules, a, b);
  }

  // ---- What a verdict says about the two alerts ----------------------------

  predicate Same(x: Option<string>, y: Option<string>) { x.Some? && y.Some? && x.value == y.value }

  /** What each match key compares, in the alerts' own fields. */
  lemma MatchKeysCompare(a: EngineAlert, b: EngineAlert, rule: Rule)
    ensures MatchKeyAgrees(CustomerRef, a, b, rule) <==> Same(a.customerRef, b.customerRef)
    ensures MatchKeyAgrees(AccountRef, a, b, rule) <==> Same(a.accountRef, b.accountRef)
    ensures MatchKeyAgrees(CounterpartyRef, a, b, rule) <==> Same(a.counterpartyRef, b.counterpartyRef)
    ensures MatchKeyAgrees(MerchantName, a, b, rule) <==> Same(a.merchantName, b.merchantName)
    ensures MatchKeyAgrees(Mcc, a, b, rule) <==> Same(a.mcc, b.mcc)
    ensures MatchKeyAgrees(DeviceId, a, b, rule) <==> Same(a.deviceId, b.deviceId)
    ensures MatchKeyAgrees(IpAddress, a, b, rule) <==> Same(a.ipAddress, b.ipAddress)
    ensures MatchKeyAgrees(SessionId, a, b, rule) <==> Same(a.sessionId, b.sessionId)
    ensures MatchKeyAgrees(Currency, a, b, rule) <==> a.currency == b.currency
  {
  }

  /** The amount key allows a difference of the tolerated fraction of the greatest of both amounts and one. */
  lemma AmountKeyCompares(a: EngineAlert, b: EngineAlert, rule: Rule, base: real)
    requires base >= a.amount && base >= b.amount && base >= 1.0 && base in {a.amount, b.amount, 1.0}
    ensures MatchKeyAgrees(Amount, a, b, rule) <==>
      -rule.tolerance * base <= a.amount - b.amount <= rule.tolerance * base
  {
    var gap := AbsReal(a.amount - b.amount);
    var q := gap / base;
    assert Scale(a, b) == base && q * base == gap;
    FractionWithin(gap, base, rule.tolerance);
  }

  lemma FractionWithin(gap: real, base: real, t: real)
    requires base > 0.0
    ensures gap / base <= t <==> gap <= t * base
  {
    var q := gap / base;
    assert q * base == gap;
    if q <= t { Ordered(q, t, base); }
    if t < q { StrictlyOrdered(t, q, base); }
  }

  lemma Ordered(x: real, y: real, k: real)
    requires x <= y && k > 0.0
    ensures x * k <= y * k
  {
  }

  lemma StrictlyOrdered(x: real, y: real, k: real)
    requires x < y && k > 0.0
    ensures x * k < y * k
  {
  }

  /** Two amounts share a bucket exactly when none of the four limits lies between them. */
  lemma BucketsSplitAt(a: EngineAlert, b: EngineAlert, rule: Rule)
    ensures MatchKeyAgrees(AmountBucket, a, b, rule) <==>
      && (a.amount < 10.0 <==> b.amount < 10.0)
      && (a.amount < 100.0 <==> b.amount < 100.0)
      && (a.amount < 1000.0 <==> b.amount < 1000.0)
      && (a.amount < 10000.0 <==> b.amount < 10000.0)
  {
    assert |"0-10"| == 4 && |"10-100"| == 6 && |"100-1000"| == 8 && |"1000-10000"| == 10 && |"10000+"| == 6;
    assert "10-100"[2] != "10000+"[2];
  }

  /** A rule needs to be enabled, its window to cover the time between the alerts, and every match key to agree. */
  lemma RuleMatchesWhen(rule: Rule, a: EngineAlert, b: EngineAlert)
    ensures RuleMatches(rule, a, b) <==>
      && rule.enabled
      && a.eventTime - b.eventTime <= 1_000_000 * rule.windowSeconds
      && b.eventTime - a.eventTime <= 1_000_000 * rule.windowSeconds
      && forall key :: key in rule.matchKeys ==> MatchKeyAgrees(key, a, b, rule)
  {
  }

  ghost predicate IncreasingBelow(positions: seq<nat>, n: nat) {
    && (forall i, j :: 0 <= i < j < |positions| ==> positions[i] < positions[j])
    && (forall i :: 0 <= i < |positions| ==> positions[i] < n)
  }

  /** The matched ids are those of all matching rules, in the order of the configuration. */
  lemma {:induction false} MatchedInOrder(rules: seq<Rule>, a: EngineAlert, b: EngineAlert) returns (at: seq<nat>)
    ensures |at| == |MatchedRules(rules, a, b)| && IncreasingBelow(at, |rules|)
    ensures forall k :: 0 <= k < |at| ==> MatchedRules(rules, a, b)[k] == rules[at[k]].id
    ensures forall i :: 0 <= i < |rules| ==> (i in at <==> RuleMatches(rules[i], a, b))
  {
    if rules == [] {
      at := [];
    } else {
      var n := |rules| - 1;
      at := MatchedInOrder(rules[..n], a, b);
      MatchedUnfold(rules, a, b);
      hide RuleMatches, MatchedRules;
      assert forall i :: 0 <= i < n ==> rules[..n][i] == rules[i];
      if RuleMatches(rules[n], a, b) { at := at + [n]; }
    }
  }

  lemma MatchedUnfold(rules: seq<Rule>, a: EngineAlert, b: EngineAlert)
    requires rules != []
    ensures var n := |rules| - 1;
            MatchedRules(rules, a, b) ==
              MatchedRules(rules[..n], a, b) + if RuleMatches(rules[n], a, b) then [rules[n].id] else []
  {
    hide RuleMatches;
  }

  /** What the reported features of a pair say, in the alerts' own fields. */
  lemma FeaturesAre(a: EngineAlert, b: EngineAlert, cfg: GroupingConfig)
    requires Scorable(cfg)
    ensures Judge(a, b, cfg).features.Some?
    ensures var f := Judge(a, b, cfg).features.value;
            && f.device == (if Same(a.deviceId, b.deviceId) then 1.0 else 0.0)
            && f.ip == (if Same(a.ipAddress, b.ipAddress) then 1.0 else 0.0)
            && (a.merchantName.None? || b.merchantName.None? ==> f.name == 0.0)
            && (a.merchantName.Some? && b.merchantName.Some? ==>
                 f.name * 100.0 == cfg.nameRatio(a.merchantName.value, b.merchantName.value))
            && (a.typologies + b.typologies == {} ==> f.typology == 0.0)
            && f.typology * |a.typologies + b.typologies| as real == |a.typologies * b.typologies| as real
            && f.time == cfg.decay(-(Abs(a.eventTime - b.eventTime) as real / 1000000.0) / cfg.tauSeconds as real)
  {
    var f := Judge(a, b, cfg).features.value;
    TypologyShare(a.typologies, b.typologies);
    if a.merchantName.Some? && b.merchantName.Some? {
      var ratio := cfg.nameRatio(a.merchantName.value, b.merchantName.value);
      var q := ratio / 100.0;
      assert q * 100.0 == ratio && f.name == q;
    }
    hide MatchedRules, WeightedScore, Jaccard;
  }

  lemma TypologyShare(x: set<string>, y: set<string>)
    ensures x + y == {} ==> Jaccard(x, y) == 0.0
    ensures Jaccard(x, y) * |x + y| as real == |x * y| as real
  {
    if x + y == {} {
      assert x == {} && y == {} && x * y == {};
    } else {
      assert x != {} || y != {};
      var whole, common := |x + y| as real, |x * y| as real;
      var q := common / whole;
      assert q * whole == common;
    }
  }

  /** The amount feature falls from one by the share of the difference in the greatest of both amounts and one. */
  lemma AmountFeatureIs(a: EngineAlert, b: EngineAlert, cfg: GroupingConfig, base: real)
    requires Scorable(cfg) && a.amount >= 0.0 && b.amount >= 0.0
    requires base >= a.amount && base >= b.amount && base >= 1.0 && base in {a.amount, b.amount, 1.0}
    ensures Judge(a, b, cfg).features.Some?
    ensures var share := (1.0 - Judge(a, b, cfg).features.value.amount) * base;
            share == a.amount - b.amount || share == b.amount - a.amount
    ensures Judge(a, b, cfg).features.value.amount <= 1.0
  {
    var gap := AbsReal(a.amount - b.amount);
    assert Scale(a, b) == base;
    var q := gap / base;
    assert q * base == gap && gap <= base;
    FractionWithin(gap, base, 1.0);
    hide MatchedRules, WeightedScore, Jaccard;
  }

  lemma DivideBack(x: real, t: real)
    requires t != 0.0
    ensures (x / t) * t == x
  {
  }

  lemma ScoreParts(a: EngineAlert, b: EngineAlert, cfg: GroupingConfig)
    requires Scorable(cfg) && Judge(a, b, cfg).score.Some?
    ensures Judge(a, b, cfg).features.Some?
    ensures var f, w := Judge(a, b, cfg).features.value, cfg.weights;
            Judge(a, b, cfg).score.value * TotalWeight(w) ==
              Part(w.time, f.time) + Part(w.amount, f.amount) + Part(w.name, f.name) + Part(w.device, f.device)
              + Part(w.ip, f.ip) + Part(w.typology, f.typology)
  {
    hide Part, FeatureContributions, MatchedRules, TotalWeight;
    var f, w := FeatureContributions(a, b, cfg), cfg.weights;
    DivideBack(WeightedSum(f, w), TotalWeight(w));
  }

  /** The score of an unmatched pair is the mean of its reported features under the weights of their own names. */
  lemma ScoreIs(a: EngineAlert, b: EngineAlert, cfg: GroupingConfig)
    requires Scorable(cfg) && Judge(a, b, cfg).score.Some?
    ensures Judge(a, b, cfg).features.Some?
    ensures var f, w := Judge(a, b, cfg).features.value, cfg.weights;
            Judge(a, b, cfg).score.value * (w.time + w.amount + w.name + w.device + w.ip + w.typology) ==
              w.time * f.time + w.amount * f.amount + w.name * f.name + w.device * f.device + w.ip * f.ip
              + w.typology * f.typology
  {
    hide Judge;
    ScoreParts(a, b, cfg);
    var w := cfg.weights;
    assert TotalWeight(w) == w.time + w.amount + w.name + w.device + w.ip + w.typology;
  }

  // How the score moves when one field of one alert changes.

  lemma QuotientIs(x: real, t: real, w: real)
    requires t != 0.0 && x * t == w
    ensures x == w / t
  {
    var q := w / t;
    assert q * t == w;
    assert (x - q) * t == 0.0;
  }

  predicate BothScored(a: EngineAlert, other: EngineAlert, b: EngineAlert, cfg: GroupingConfig)
    requires Scorable(cfg)
  {
    Judge(a, b, cfg).score.Some? && Judge(other, b, cfg).score.Some?
  }

  function ScoreGap(a: EngineAlert, other: EngineAlert, b: EngineAlert, cfg: GroupingConfig): real
    requires Scorable(cfg) && BothScored(a, other, b, cfg)
  {
    Judge(a, b, cfg).score.value - Judge(other, b, cfg).score.value
  }

  lemma FeaturesFollow(a: EngineAlert, other: EngineAlert, b: EngineAlert, cfg: GroupingConfig)
    returns (f: Features, g: Features)
    requires Scorable(cfg)
    ensures Judge(a, b, cfg).features == Some(f) && Judge(other, b, cfg).features == Some(g)
    ensures a.eventTime == other.eventTime ==> f.time == g.time
    ensures a.amount == other.amount ==> f.amount == g.amount
    ensures a.merchantName == other.merchantName ==> f.name == g.name
    ensures a.deviceId == other.deviceId ==> f.device == g.device
    ensures a.ipAddress == other.ipAddress ==> f.ip == g.ip
    ensures a.typologies == other.typologies ==> f.typology == g.typology
  {
    f, g := FeatureContributions(a, b, cfg), FeatureContributions(other, b, cfg);
    hide MatchedRules, WeightedScore;
  }

  lemma Distribute(w: real, x: real, y: real)
    ensures w * (x - y) == w * x - w * y
  {
  }

  lemma DistributeRight(x: real, y: real, k: real)
    ensures (x - y) * k == x * k - y * k
  {
  }

  function PartGap(w: real, x: real, y: real): real { Part(w, x) - Part(w, y) }

  lemma UnitGap(w: real)
    ensures PartGap(w, 1.0, 0.0) == w
  {
  }

  lemma NoGap(w: real, x: real)
    ensures PartGap(w, x, x) == 0.0
  {
  }

  lemma GapOf(w: real, x: real, y: real)
    ensures PartGap(w, x, y) == w * (x - y)
  {
    Distribute(w, x, y);
  }

  lemma HundredfoldGap(w: real, x: real, y: real, p: real, q: real)
    requires x * 100.0 == p && y * 100.0 == q
    ensures PartGap(w, x, y) * 100.0 == w * (p - q)
  {
    GapOf(w, x, y);
    assert (x - y) * 100.0 == p - q;
  }

  lemma ShareGap(w: real, x: real, base: real, share: real)
    requires (1.0 - x) * base == share
    ensures PartGap(w, 1.0, x) * base == w * share
  {
    GapOf(w, 1.0, x);
    Associate(w, 1.0 - x, base);
  }

  lemma Associate(x: real, y: real, z: real)
    ensures (x * y) * z == x * (y * z)
  {
  }

  /** Scaled by the total weight, the gap is the sum of the weighted feature gaps. */
  lemma GapIs(a: EngineAlert, other: EngineAlert, b: EngineAlert, cfg: GroupingConfig, f: Features, g: Features)
    requires Scorable(cfg) && BothScored(a, other, b, cfg)
    requires Judge(a, b, cfg).features == Some(f) && Judge(other, b, cfg).features == Some(g)
    ensures var w := cfg.weights;
            ScoreGap(a, other, b, cfg) * TotalWeight(w) ==
              PartGap(w.time, f.time, g.time) + PartGap(w.amount, f.amount, g.amount)
              + PartGap(w.name, f.name, g.name) + PartGap(w.device, f.device, g.device)
              + PartGap(w.ip, f.ip, g.ip) + PartGap(w.typology, f.typology, g.typology)
    ensures TotalWeight(cfg.weights) != 0.0
    ensures f.time == g.time ==> PartGap(cfg.weights.time, f.time, g.time) == 0.0
    ensures f.amount == g.amount ==> PartGap(cfg.weights.amount, f.amount, g.amount) == 0.0
    ensures f.name == g.name ==> PartGap(cfg.weights.name, f.name, g.name) == 0.0
    ensures f.device == g.device ==> PartGap(cfg.weights.device, f.device, g.device) == 0.0
    ensures f.ip == g.ip ==> PartGap(cfg.weights.ip, f.ip, g.ip) == 0.0
    ensures f.typology == g.typology ==> PartGap(cfg.weights.typology, f.typology, g.typology) == 0.0
  {
    hide Judge, Part, TotalWeight;
    ScoreParts(a, b, cfg);
    ScoreParts(other, b, cfg);
    DistributeRight(Judge(a, b, cfg).score.value, Judge(other, b, cfg).score.value, TotalWeight(cfg.weights));
  }

  /** Sharing the address is worth exactly the address weight. */
  lemma IpMovesScore(a: EngineAlert, other: EngineAlert, b: EngineAlert, cfg: GroupingConfig)
    requires Scorable(cfg) && BothScored(a, other, b, cfg) && other == a.(ipAddress := other.ipAddress)
    requires Same(a.ipAddress, b.ipAddress) && !Same(other.ipAddress, b.ipAddress)
    ensures ScoreGap(a, other, b, cfg) == cfg.weights.ip / TotalWeight(cfg.weights)
  {
    hide *;
    var f, g := FeaturesFollow(a, other, b, cfg);
    FeaturesAre(a, b, cfg);
    FeaturesAre(other, b, cfg);
    GapIs(a, other, b, cfg, f, g);
    UnitGap(cfg.weights.ip);
    QuotientIs(ScoreGap(a, other, b, cfg), TotalWeight(cfg.weights), cfg.weights.ip);
  }

  /** Sharing the device is worth exactly the device weight. */
  lemma DeviceMovesScore(a: EngineAlert, other: EngineAlert, b: EngineAlert, cfg: GroupingConfig)
    requires Scorable(cfg) && BothScored(a, other, b, cfg) && other == a.(deviceId := other.deviceId)
    requires Same(a.deviceId, b.deviceId) && !Same(other.deviceId, b.deviceId)
    ensures ScoreGap(a, other, b, cfg) == cfg.weights.device / TotalWeight(cfg.weights)
  {
    hide *;
    var f, g := FeaturesFollow(a, other, b, cfg);
    FeaturesAre(a, b, cfg);
    FeaturesAre(other, b, cfg);
    GapIs(a, other, b, cfg, f, g);
    UnitGap(cfg.weights.device);
    QuotientIs(ScoreGap(a, other, b, cfg), TotalWeight(cfg.weights), cfg.weights.device);
  }

  /** Equal typologies instead of disjoint ones are worth exactly the typology weight. */
  lemma TypologiesMoveScore(a: EngineAlert, other: EngineAlert, b: EngineAlert, cfg: GroupingConfig)
    requires Scorable(cfg) && BothScored(a, other, b, cfg) && other == a.(typologies := other.typologies)
    requires a.typologies == b.typologies != {} && other.typologies !! b.typologies
    ensures ScoreGap(a, other, b, cfg) == cfg.weights.typology / TotalWeight(cfg.weights)
  {
    hide *;
    var f, g := FeaturesFollow(a, other, b, cfg);
    FeaturesAre(a, b, cfg);
    FeaturesAre(other, b, cfg);
    AllShared(f.typology, a.typologies, b.typologies);
    NoneShared(g.typology, other.typologies, b.typologies);
    GapIs(a, other, b, cfg, f, g);
    UnitGap(cfg.weights.typology);
    QuotientIs(ScoreGap(a, other, b, cfg), TotalWeight(cfg.weights), cfg.weights.typology);
  }

  lemma AllShared(share: real, x: set<string>, y: set<string>)
    requires x == y != {} && share * |x + y| as real == |x * y| as real
    ensures share == 1.0
  {
    assert x + y == x && x * y == x;
    Cancel(share, 1.0, |x| as real);
  }

  lemma NoneShared(share: real, x: set<string>, y: set<string>)
    requires x !! y && y != {} && share * |x + y| as real == |x * y| as real
    ensures share == 0.0
  {
    assert x * y == {} && x + y != {};
    Cancel(share, 0.0, |x + y| as real);
  }

  lemma Cancel(x: real, y: real, k: real)
    requires k != 0.0 && x * k == y * k
    ensures x == y
  {
    DistributeRight(x, y, k);
    assert (x - y) * k == 0.0;
  }

  /** Another merchant name moves the score by the difference of the name ratios, in hundredths of the name weight. */
  lemma NameMovesScore(a: EngineAlert, other: EngineAlert, b: EngineAlert, cfg: GroupingConfig)
    requires Scorable(cfg) && BothScored(a, other, b, cfg) && other == a.(merchantName := other.merchantName)
    requires a.merchantName.Some? && other.merchantName.Some? && b.merchantName.Some?
    ensures ScoreGap(a, other, b, cfg) * TotalWeight(cfg.weights) * 100.0 ==
      cfg.weights.name * (cfg.nameRatio(a.merchantName.value, b.merchantName.value)
        - cfg.nameRatio(other.merchantName.value, b.merchantName.value))
  {
    hide *;
    var f, g := FeaturesFollow(a, other, b, cfg);
    FeaturesAre(a, b, cfg);
    FeaturesAre(other, b, cfg);
    GapIs(a, other, b, cfg, f, g);
    assert Judge(a, b, cfg).features.value == f && Judge(other, b, cfg).features.value == g;
    HundredfoldGap(cfg.weights.name, f.name, g.name, cfg.nameRatio(a.merchantName.value, b.merchantName.value),
                   cfg.nameRatio(other.merchantName.value, b.merchantName.value));
  }

  /** A different amount costs the amount weight times the difference's share of the greatest of both and one. */
  lemma AmountMovesScore(a: EngineAlert, other: EngineAlert, b: EngineAlert, cfg: GroupingConfig, base: real)
    requires Scorable(cfg) && BothScored(a, other, b, cfg) && other == a.(amount := other.amount)
    requires a.amount == b.amount && b.amount >= 0.0 && other.amount >= 0.0
    requires base >= other.amount && base >= b.amount && base >= 1.0 && base in {other.amount, b.amount, 1.0}
    ensures ScoreGap(a, other, b, cfg) * TotalWeight(cfg.weights) * base ==
      cfg.weights.amount * (if other.amount >= b.amount then other.amount - b.amount else b.amount - other.amount)
  {
    hide *;
    var f, g := FeaturesFollow(a, other, b, cfg);
    EqualAmounts(a, b, cfg, f);
    var share := AmountShare(other, b, cfg, base, g);
    GapIs(a, other, b, cfg, f, g);
    ShareGap(cfg.weights.amount, g.amount, base, share);
    CostIs(ScoreGap(a, other, b, cfg) * TotalWeight(cfg.weights), PartGap(cfg.weights.amount, 1.0, g.amount), base,
           cfg.weights.amount, share,
           if other.amount >= b.amount then other.amount - b.amount else b.amount - other.amount);
  }

  lemma CostIs(x: real, y: real, base: real, w: real, share: real, distance: real)
    requires x == y && y * base == w * share && share == distance
    ensures x * base == w * distance
  {
  }

  lemma EqualAmounts(a: EngineAlert, b: EngineAlert, cfg: GroupingConfig, f: Features)
    requires Scorable(cfg) && a.amount == b.amount >= 0.0 && Judge(a, b, cfg).features == Some(f)
    ensures f.amount == 1.0
  {
    hide Judge;
    var own := if b.amount >= 1.0 then b.amount else 1.0;
    AmountFeatureIs(a, b, cfg, own);
    Cancel(1.0 - f.amount, 0.0, own);
  }

  /** The difference of the amounts, as what the feature lost. */
  lemma AmountShare(a: EngineAlert, b: EngineAlert, cfg: GroupingConfig, base: real, f: Features) returns (share: real)
    requires Scorable(cfg) && a.amount >= 0.0 && b.amount >= 0.0 && Judge(a, b, cfg).features == Some(f)
    requires base >= a.amount && base >= b.amount && base >= 1.0 && base in {a.amount, b.amount, 1.0}
    ensures (1.0 - f.amount) * base == share
    ensures share == if a.amount >= b.amount then a.amount - b.amount else b.amount - a.amount
  {
    hide Judge;
    AmountFeatureIs(a, b, cfg, base);
    assert Judge(a, b, cfg).features.value == f;
    NotNegative(1.0 - f.amount, base);
    share := PickSign((1.0 - f.amount) * base, a.amount, b.amount);
  }

  lemma PickSign(x: real, p: real, q: real) returns (share: real)
    requires x >= 0.0 && (x == p - q || x == q - p)
    ensures share == x && share == if p >= q then p - q else q - p
  {
    share := x;
  }

  lemma NotNegative(x: real, y: real)
    requires x >= 0.0 && y >= 0.0
    ensures x * y >= 0.0
  {
  }

  /** Another event time moves the score by the difference of the decays of the two gaps, times the time weight. */
  lemma TimeMovesScore(a: EngineAlert, other: EngineAlert, b: EngineAlert, cfg: GroupingConfig)
    requires Scorable(cfg) && BothScored(a, other, b, cfg) && other == a.(eventTime := other.eventTime)
    ensures ScoreGap(a, other, b, cfg) * TotalWeight(cfg.weights) ==
      cfg.weights.time * (TimeDecay(a, b, cfg) - TimeDecay(other, b, cfg))
  {
    hide *;
    var f, g := FeaturesFollow(a, other, b, cfg);
    DecayIs(a, b, cfg, f);
    DecayIs(other, b, cfg, g);
    GapIs(a, other, b, cfg, f, g);
    GapOf(cfg.weights.time, f.time, g.time);
  }

  /** The decay at minus the seconds between two alerts, in units of the time constant. */
  function TimeDecay(a: EngineAlert, b: EngineAlert, cfg: GroupingConfig): real
    requires cfg.tauSeconds != 0
  {
    var later, earlier := if a.eventTime > b.eventTime then a else b, if a.eventTime > b.eventTime then b else a;
    cfg.decay(-((later.eventTime - earlier.eventTime) as real / 1000000.0) / cfg.tauSeconds as real)
  }

  lemma DecayIs(a: EngineAlert, b: EngineAlert, cfg: GroupingConfig, f: Features)
    requires Scorable(cfg) && Judge(a, b, cfg).features == Some(f)
    ensures f.time == TimeDecay(a, b, cfg)
  {
    hide MatchedRules, WeightedScore;
    assert Abs(a.eventTime - b.eventTime) ==
      (if a.eventTime > b.eventTime then a.eventTime - b.eventTime else b.eventTime - a.eventTime);
  }
}
