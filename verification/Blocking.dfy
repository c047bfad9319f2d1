/** Candidate pairs: per-rule buckets, time windows, and the mutual per-alert cap. */
module Blocking {
  import opened Prelude
  import opened Graph
  import opened Config
  import opened Scoring

  // ---- Specification -------------------------------------------------------

  type Alerts = map<nat, EngineAlert>

  ghost predicate WellKeyed(alerts: Alerts) {
    forall x :: x in alerts ==> alerts[x].id == x
  }

  ghost predicate DistinctIds(alerts: seq<EngineAlert>) {
    forall i, j :: 0 <= i < j < |alerts| ==> alerts[i].id != alerts[j].id
  }

  predicate Complete(a: EngineAlert, keys: seq<Field>) {
    forall key :: key in keys ==> ValueOf(a, key).Some?
  }

  /** The rule's combined blocking key, empty when some part is missing. */
  function KeyParts(a: EngineAlert, keys: seq<Field>): seq<FieldValue> {
    if Complete(a, keys) then seq(|keys|, i requires 0 <= i < |keys| => ValueOf(a, keys[i]).value) else []
  }

  /** The rule puts both alerts into one bucket and their times are close enough. */
  predicate Proposes(rule: Rule, a: EngineAlert, b: EngineAlert) {
    && rule.enabled
    && KeyParts(a, rule.blockingKeys) != []
    && KeyParts(a, rule.blockingKeys) == KeyParts(b, rule.blockingKeys)
    && Near(a, b, rule.windowSeconds)
  }

  predicate Proposed(rules: seq<Rule>, a: EngineAlert, b: EngineAlert) {
    exists rule :: rule in rules && Proposes(rule, a, b)
  }

  /** Everyone some rule pairs `x` with. */
  function Counterparts(alerts: Alerts, cfg: GroupingConfig, x: nat): set<nat>
    requires x in alerts
  {
    set y | y in alerts && y != x && Proposed(cfg.rules, alerts[x], alerts[y])
  }

  /** `x` keeps its `cap` smallest counterparts. */
  predicate Chooses(alerts: Alerts, cfg: GroupingConfig, x: nat, y: nat) {
    x in alerts && y in Smallest(Counterparts(alerts, cfg, x), cfg.cap)
  }

  /** The candidate pairs: those whose two ends chose each other. */
  function Candidates(alerts: Alerts, cfg: GroupingConfig): set<Pair> {
    set x, y | x in alerts && y in alerts && x < y
      && Chooses(alerts, cfg, x, y) && Chooses(alerts, cfg, y, x) :: (x, y)
  }

  /** The cap drops nothing when no alert has more counterparts than it allows. */
  ghost predicate CapIdle(alerts: Alerts, cfg: GroupingConfig) {
    forall x :: x in alerts ==> |Counterparts(alerts, cfg, x)| <= cfg.cap
  }

  // ---- Properties ----------------------------------------------------------

  lemma ProposedSymmetric(rules: seq<Rule>, a: EngineAlert, b: EngineAlert)
    ensures Proposed(rules, a, b) == Proposed(rules, b, a)
  {
    forall rule | rule in rules ensures Proposes(rule, a, b) == Proposes(rule, b, a) {}
  }

  /** A rule proposes a pair when it blocks on something, both alerts have equal values in every blocking field, and
      its window covers the time between them. */
  lemma ProposesWhen(rule: Rule, a: EngineAlert, b: EngineAlert)
    ensures Proposes(rule, a, b) <==>
      && rule.enabled && rule.blockingKeys != []
      && a.eventTime - b.eventTime <= 1_000_000 * rule.windowSeconds
      && b.eventTime - a.eventTime <= 1_000_000 * rule.windowSeconds
      && forall key :: key in rule.blockingKeys ==> ValueOf(a, key).Some? && ValueOf(a, key) == ValueOf(b, key)
  {
    var keys := rule.blockingKeys;
    hide ValueOf;
    if KeyParts(a, keys) != [] && KeyParts(a, keys) == KeyParts(b, keys) {
      forall key | key in keys ensures ValueOf(a, key).Some? && ValueOf(a, key) == ValueOf(b, key) {
        var i :| 0 <= i < |keys| && keys[i] == key;
        assert KeyParts(a, keys)[i] == KeyParts(b, keys)[i];
      }
    }
    if keys != [] && forall key :: key in keys ==> ValueOf(a, key).Some? && ValueOf(a, key) == ValueOf(b, key) {
      assert Complete(a, keys) && Complete(b, keys);
      assert KeyParts(a, keys) == KeyParts(b, keys);
    }
  }

  /** The ids below `y` that some rule pairs with `x`. */
  function Rivals(alerts: Alerts, cfg: GroupingConfig, x: nat, y: nat): set<nat>
    requires x in alerts
  {
    set z | z in alerts && z != x && z < y && Proposed(cfg.rules, alerts[x], alerts[z])
  }

  /** A pair survives exactly when some rule proposes it and each end has fewer than `cap` smaller counterparts
      than the other. */
  lemma CandidatesAre(alerts: Alerts, cfg: GroupingConfig, x: nat, y: nat)
    requires x in alerts && y in alerts && x < y
    ensures (x, y) in Candidates(alerts, cfg) <==>
      && Proposed(cfg.rules, alerts[x], alerts[y])
      && |Rivals(alerts, cfg, x, y)| < cfg.cap && |Rivals(alerts, cfg, y, x)| < cfg.cap
  {
    ProposedSymmetric(cfg.rules, alerts[x], alerts[y]);
    assert Below(Counterparts(alerts, cfg, x), y) == Rivals(alerts, cfg, x, y);
    assert Below(Counterparts(alerts, cfg, y), x) == Rivals(alerts, cfg, y, x);
    hide Proposed;
  }

  /** With an idle cap the candidates are exactly the pairs some rule proposes. */
  lemma IdleCapKeepsAll(alerts: Alerts, cfg: GroupingConfig, x: nat, y: nat)
    requires CapIdle(alerts, cfg) && x in alerts && y in alerts && x < y
    ensures (x, y) in Candidates(alerts, cfg) <==> Proposed(cfg.rules, alerts[x], alerts[y])
  {
    ProposedSymmetric(cfg.rules, alerts[x], alerts[y]);
    SmallestOfFew(Counterparts(alerts, cfg, x), cfg.cap);
    SmallestOfFew(Counterparts(alerts, cfg, y), cfg.cap);
  }

  /** A run of at most `cap + 1` alerts can never trip the cap. */
  lemma SmallRunsAreIdle(alerts: Alerts, cfg: GroupingConfig)
    requires |alerts| <= cfg.cap + 1
    ensures CapIdle(alerts, cfg)
  {
    forall x | x in alerts ensures |Counterparts(alerts, cfg, x)| <= cfg.cap {
      SubsetCardinality(Counterparts(alerts, cfg, x), alerts.Keys - {x});
    }
  }

  /** The candidate pairs that touch `x`, seen from `x`. */
  ghost function Partners(alerts: Alerts, cfg: GroupingConfig, x: nat): set<nat> {
    set y | y in alerts && y != x && Norm(x, y) in Candidates(alerts, cfg)
  }

  /** Whatever the data, no alert takes part in more than `cap` candidate pairs. */
  lemma CapBoundsPartners(alerts: Alerts, cfg: GroupingConfig, x: nat)
    requires x in alerts
    ensures |Partners(alerts, cfg, x)| <= cfg.cap
  {
    var chosen := Smallest(Counterparts(alerts, cfg, x), cfg.cap);
    SmallestIsFew(Counterparts(alerts, cfg, x), cfg.cap);
    assert Partners(alerts, cfg, x) <= chosen;
    SubsetCardinality(Partners(alerts, cfg, x), chosen);
  }

  /** Rules whose blocking keys all are match keys too, leaving out the tolerance-matched raw amount. */
  ghost predicate BlocksWhatItMatches(rule: Rule) {
    rule.blockingKeys != [] && forall key :: key in rule.blockingKeys ==> key in rule.matchKeys && key != Amount
  }

  lemma MatchIsProposed(rule: Rule, a: EngineAlert, b: EngineAlert)
    requires BlocksWhatItMatches(rule) && RuleMatches(rule, a, b)
    ensures Proposes(rule, a, b)
  {
    forall key | key in rule.blockingKeys
      ensures ValueOf(a, key).Some? && ValueOf(a, key) == ValueOf(b, key)
    {
      assert MatchKeyAgrees(key, a, b, rule);
    }
    assert Complete(a, rule.blockingKeys) && Complete(b, rule.blockingKeys);
    assert KeyParts(a, rule.blockingKeys) == KeyParts(b, rule.blockingKeys);
  }

  /** Blocking loses no match of such a rule: an idle cap keeps every pair an all-pairs scan would find by it. */
  lemma BlockingLosesNoMatch(alerts: Alerts, cfg: GroupingConfig, x: nat, y: nat)
    requires CapIdle(alerts, cfg) && x in alerts && y in alerts && x < y
    requires exists rule :: rule in cfg.rules && BlocksWhatItMatches(rule) && RuleMatches(rule, alerts[x], alerts[y])
    ensures (x, y) in Candidates(alerts, cfg)
  {
    var rule :| rule in cfg.rules && BlocksWhatItMatches(rule) && RuleMatches(rule, alerts[x], alerts[y]);
    MatchIsProposed(rule, alerts[x], alerts[y]);
    IdleCapKeepsAll(alerts, cfg, x, y);
  }

  // ---- The loops -----------------------------------------------------------

  method BlockingKeyValues(a: EngineAlert, rule: Rule) returns (parts: seq<FieldValue>)
    ensures parts == KeyParts(a, rule.blockingKeys)
  {
    parts := [];
    for i := 0 to |rule.blockingKeys|
      invariant |parts| == i
      invariant forall k :: 0 <= k < i ==> ValueOf(a, rule.blockingKeys[k]) == Some(parts[k])
    {
      var value := ValueOf(a, rule.blockingKeys[i]);
      if value.None? {
        assert rule.blockingKeys[i] in rule.blockingKeys;
        return [];
      }
      parts := parts + [value.value];
    }
  }

  type Buckets = map<seq<FieldValue>, seq<EngineAlert>>

  function BucketOf(buckets: Buckets, key: seq<FieldValue>): seq<EngineAlert> {
    if key in buckets then buckets[key] else []
  }

  function Blocked(alerts: seq<EngineAlert>, rule: Rule, key: seq<FieldValue>): (b: seq<EngineAlert>)
    ensures forall a :: a in b <==> a in alerts && KeyParts(a, rule.blockingKeys) == key
  {
    if alerts == [] then [] else
    var init, last := alerts[..|alerts| - 1], alerts[|alerts| - 1];
    assert alerts == init + [last];
    Blocked(init, rule, key) + if KeyParts(last, rule.blockingKeys) == key then [last] else []
  }

  method FillBuckets(alerts: seq<EngineAlert>, rule: Rule) returns (buckets: Buckets)
    ensures [] !in buckets
    ensures forall key :: key != [] ==> BucketOf(buckets, key) == Blocked(alerts, rule, key)
  {
    buckets := map[];
    for i := 0 to |alerts|
      invariant [] !in buckets
      invariant forall key :: key != [] ==> BucketOf(buckets, key) == Blocked(alerts[..i], rule, key)
    {
      var parts := BlockingKeyValues(alerts[i], rule);
      assert alerts[..i + 1][..i] == alerts[..i];
      if parts != [] {
        buckets := buckets[parts := BucketOf(buckets, parts) + [alerts[i]]];
      }
    }
    assert alerts[..|alerts|] == alerts;
  }

  /** Counterpart sets under construction; an absent id has none yet. */
  type Links = map<nat, set<nat>>

  function Get(links: Links, x: nat): set<nat> {
    if x in links then links[x] else {}
  }

  ghost predicate Linked(links: Links, x: nat, y: nat) { y in Get(links, x) }

  function Link(links: Links, x: nat, y: nat): (more: Links)
    ensures forall u: nat, v: nat :: Linked(more, u, v) <==> Linked(links, u, v) || (u == x && v == y)
  {
    links[x := Get(links, x) + {y}]
  }

  /** Some pair of bucket positions up to (i, j) in loop order carries ids `x` and `y` within the window. */
  ghost predicate Scanned(bucket: seq<EngineAlert>, window: int, i: int, j: int, x: nat, y: nat) {
    exists p, q :: 0 <= p < q < |bucket| && (p < i || (p == i && q < j)) && PairsAt(bucket, window, p, q, x, y)
  }

  ghost predicate PairsAt(bucket: seq<EngineAlert>, window: int, p: int, q: int, x: nat, y: nat)
    requires 0 <= p < |bucket| && 0 <= q < |bucket|
  {
    && Near(bucket[p], bucket[q], window)
    && ((bucket[p].id == x && bucket[q].id == y) || (bucket[q].id == x && bucket[p].id == y))
  }

  lemma ScanStep(bucket: seq<EngineAlert>, window: int, i: int, j: int, x: nat, y: nat)
    requires 0 <= i < j < |bucket|
    ensures Scanned(bucket, window, i, j + 1, x, y) <==>
      Scanned(bucket, window, i, j, x, y) || PairsAt(bucket, window, i, j, x, y)
  {
  }

  lemma ScanRow(bucket: seq<EngineAlert>, window: int, i: int, x: nat, y: nat)
    requires 0 <= i < |bucket|
    ensures Scanned(bucket, window, i, i + 1, x, y) <==> Scanned(bucket, window, i, 0, x, y)
    ensures Scanned(bucket, window, i + 1, 0, x, y) <==> Scanned(bucket, window, i, |bucket|, x, y)
  {
  }

  method LinkBucket(bucket: seq<EngineAlert>, window: int, links: Links) returns (more: Links)
    ensures forall x: nat, y: nat ::
      Linked(more, x, y) <==> Linked(links, x, y) || Scanned(bucket, window, |bucket|, 0, x, y)
  {
    more := links;
    for i := 0 to |bucket|
      invariant forall x: nat, y: nat ::
        Linked(more, x, y) <==> Linked(links, x, y) || Scanned(bucket, window, i, 0, x, y)
    {
      forall x: nat, y: nat
        ensures Scanned(bucket, window, i, i + 1, x, y) <==> Scanned(bucket, window, i, 0, x, y)
        ensures Scanned(bucket, window, i + 1, 0, x, y) <==> Scanned(bucket, window, i, |bucket|, x, y)
      {
        ScanRow(bucket, window, i, x, y);
      }
      for j := i + 1 to |bucket|
        invariant forall x: nat, y: nat ::
          Linked(more, x, y) <==> Linked(links, x, y) || Scanned(bucket, window, i, j, x, y)
      {
        var left, right := bucket[i], bucket[j];
        if Near(left, right, window) {
          more := Link(more, left.id, right.id);
          more := Link(more, right.id, left.id);
        }
        forall x: nat, y: nat
          ensures Scanned(bucket, window, i, j + 1, x, y) <==>
            Scanned(bucket, window, i, j, x, y) || PairsAt(bucket, window, i, j, x, y)
        {
          ScanStep(bucket, window, i, j, x, y);
        }
      }
    }
  }

  /** Two different alerts that the rule puts into the bucket `key`, close enough in time. */
  ghost predicate KeyPairs(alerts: seq<EngineAlert>, rule: Rule, key: seq<FieldValue>, x: nat, y: nat) {
    x != y && exists a, b :: a in alerts && b in alerts && a.id == x && b.id == y && Shares(rule, key, a, b)
  }

  predicate Shares(rule: Rule, key: seq<FieldValue>, a: EngineAlert, b: EngineAlert) {
    KeyParts(a, rule.blockingKeys) == key == KeyParts(b, rule.blockingKeys) && Near(a, b, rule.windowSeconds)
  }

  lemma {:induction false} BlockedDistinct(alerts: seq<EngineAlert>, rule: Rule, key: seq<FieldValue>)
    requires DistinctIds(alerts)
    ensures DistinctIds(Blocked(alerts, rule, key))
  {
    if alerts != [] {
      var init, last := alerts[..|alerts| - 1], alerts[|alerts| - 1];
      BlockedDistinct(init, rule, key);
      forall a | a in Blocked(init, rule, key) ensures a.id != last.id { assert a in init; }
    }
  }

  lemma ScannedIsPaired(alerts: seq<EngineAlert>, rule: Rule, key: seq<FieldValue>, bucket: seq<EngineAlert>, x: nat,
                        y: nat)
    requires DistinctIds(alerts) && bucket == Blocked(alerts, rule, key)
    requires Scanned(bucket, rule.windowSeconds, |bucket|, 0, x, y)
    ensures KeyPairs(alerts, rule, key, x, y)
  {
    BlockedDistinct(alerts, rule, key);
    var p, q :| 0 <= p < q < |bucket| && PairsAt(bucket, rule.windowSeconds, p, q, x, y);
    var a, b := if bucket[p].id == x then bucket[p] else bucket[q], if bucket[p].id == x then bucket[q] else bucket[p];
    assert a in bucket && b in bucket;
    assert a.id == x && b.id == y && Shares(rule, key, a, b);
  }

  lemma PositionsScan(bucket: seq<EngineAlert>, window: int, p: int, q: int)
    requires 0 <= p < |bucket| && 0 <= q < |bucket| && p != q && Near(bucket[p], bucket[q], window)
    ensures Scanned(bucket, window, |bucket|, 0, bucket[p].id, bucket[q].id)
  {
    var low, high := if p < q then p else q, if p < q then q else p;
    assert PairsAt(bucket, window, low, high, bucket[p].id, bucket[q].id);
  }

  lemma PairedIsScanned(alerts: seq<EngineAlert>, rule: Rule, key: seq<FieldValue>, bucket: seq<EngineAlert>, x: nat,
                        y: nat)
    requires DistinctIds(alerts) && bucket == Blocked(alerts, rule, key)
    requires KeyPairs(alerts, rule, key, x, y)
    ensures Scanned(bucket, rule.windowSeconds, |bucket|, 0, x, y)
  {
    var a, b :| a in alerts && b in alerts && a.id == x && b.id == y && Shares(rule, key, a, b);
    assert a in bucket && b in bucket;
    var p :| 0 <= p < |bucket| && bucket[p] == a;
    var q :| 0 <= q < |bucket| && bucket[q] == b;
    PositionsScan(bucket, rule.windowSeconds, p, q);
  }

  lemma BucketPairs(alerts: seq<EngineAlert>, rule: Rule, key: seq<FieldValue>, x: nat, y: nat)
    requires DistinctIds(alerts)
    ensures var bucket := Blocked(alerts, rule, key);
            Scanned(bucket, rule.windowSeconds, |bucket|, 0, x, y) <==> KeyPairs(alerts, rule, key, x, y)
  {
    var bucket := Blocked(alerts, rule, key);
    if Scanned(bucket, rule.windowSeconds, |bucket|, 0, x, y) { ScannedIsPaired(alerts, rule, key, bucket, x, y); }
    if KeyPairs(alerts, rule, key, x, y) { PairedIsScanned(alerts, rule, key, bucket, x, y); }
  }

  ghost predicate RulePairs(alerts: seq<EngineAlert>, rule: Rule, x: nat, y: nat) {
    x != y && exists a, b :: a in alerts && b in alerts && a.id == x && b.id == y && Proposes(rule, a, b)
  }

  /** The buckets of an enabled rule cover exactly the pairs it proposes. */
  lemma BucketsCoverRule(alerts: seq<EngineAlert>, rule: Rule, buckets: Buckets, x: nat, y: nat)
    requires rule.enabled && [] !in buckets
    requires forall key :: key != [] ==> BucketOf(buckets, key) == Blocked(alerts, rule, key)
    ensures (exists key :: key in buckets && KeyPairs(alerts, rule, key, x, y)) <==> RulePairs(alerts, rule, x, y)
  {
    if key :| key in buckets && KeyPairs(alerts, rule, key, x, y) {
      var a, b :| a in alerts && b in alerts && a.id == x && b.id == y && Shares(rule, key, a, b);
      assert Proposes(rule, a, b);
    }
    if RulePairs(alerts, rule, x, y) {
      var a, b :| a in alerts && b in alerts && a.id == x && b.id == y && Proposes(rule, a, b);
      var key := KeyParts(a, rule.blockingKeys);
      assert Shares(rule, key, a, b);
      assert a in Blocked(alerts, rule, key);
    }
  }

  method LinkRule(alerts: seq<EngineAlert>, rule: Rule, links: Links) returns (more: Links)
    requires DistinctIds(alerts) && rule.enabled
    ensures forall x: nat, y: nat :: Linked(more, x, y) <==> Linked(links, x, y) || RulePairs(alerts, rule, x, y)
  {
    more := links;
    var buckets := FillBuckets(alerts, rule);
    var todo := buckets.Keys;
    while todo != {}
      invariant todo <= buckets.Keys
      invariant forall x: nat, y: nat :: Linked(more, x, y) <==>
        Linked(links, x, y) || exists key :: key in buckets.Keys - todo && KeyPairs(alerts, rule, key, x, y)
    {
      var key :| key in todo;
      todo := todo - {key};
      more := LinkBucket(buckets[key], rule.windowSeconds, more);
      forall x: nat, y: nat
        ensures Scanned(buckets[key], rule.windowSeconds, |buckets[key]|, 0, x, y) <==>
          KeyPairs(alerts, rule, key, x, y)
      {
        assert BucketOf(buckets, key) == buckets[key];
        BucketPairs(alerts, rule, key, x, y);
      }
    }
    forall x: nat, y: nat
      ensures (exists key :: key in buckets && KeyPairs(alerts, rule, key, x, y)) <==> RulePairs(alerts, rule, x, y)
    {
      BucketsCoverRule(alerts, rule, buckets, x, y);
    }
  }

  ghost predicate SomeRulePairs(alerts: seq<EngineAlert>, rules: seq<Rule>, x: nat, y: nat) {
    exists rule :: rule in rules && rule.enabled && RulePairs(alerts, rule, x, y)
  }

  method LinkAll(alerts: seq<EngineAlert>, cfg: GroupingConfig) returns (links: Links)
    requires DistinctIds(alerts)
    ensures forall x: nat, y: nat :: Linked(links, x, y) <==> SomeRulePairs(alerts, cfg.rules, x, y)
  {
    links := map[];
    for i := 0 to |cfg.rules|
      invariant forall x: nat, y: nat :: Linked(links, x, y) <==> SomeRulePairs(alerts, cfg.rules[..i], x, y)
    {
      assert cfg.rules[..i + 1] == cfg.rules[..i] + [cfg.rules[i]];
      if !cfg.rules[i].enabled { continue; }
      links := LinkRule(alerts, cfg.rules[i], links);
    }
    assert cfg.rules[..|cfg.rules|] == cfg.rules;
  }

  function ById(alerts: seq<EngineAlert>): (m: Alerts)
    requires DistinctIds(alerts)
    ensures WellKeyed(m)
    ensures forall a :: a in alerts ==> a.id in m && m[a.id] == a
    ensures forall x :: x in m ==> m[x] in alerts
  {
    map a | a in alerts :: a.id := a
  }

  lemma LinkedIsCounterpart(alerts: seq<EngineAlert>, cfg: GroupingConfig, x: nat, y: nat)
    requires DistinctIds(alerts)
    ensures SomeRulePairs(alerts, cfg.rules, x, y) <==> x in ById(alerts) && y in Counterparts(ById(alerts), cfg, x)
  {
    var m := ById(alerts);
    if SomeRulePairs(alerts, cfg.rules, x, y) {
      var rule :| rule in cfg.rules && rule.enabled && RulePairs(alerts, rule, x, y);
      var a, b :| a in alerts && b in alerts && a.id == x && b.id == y && Proposes(rule, a, b);
      assert m[x] == a && m[y] == b;
    }
    if x in m && y in Counterparts(m, cfg, x) {
      var rule :| rule in cfg.rules && Proposes(rule, m[x], m[y]);
      assert RulePairs(alerts, rule, x, y);
    }
  }

  method CandidatePairs(alerts: seq<EngineAlert>, cfg: GroupingConfig) returns (pairs: set<Pair>)
    requires DistinctIds(alerts)
    ensures pairs == Candidates(ById(alerts), cfg)
  {
    var counterparts := LinkAll(alerts, cfg);
    ghost var m := ById(alerts);
    forall x: nat ensures Get(counterparts, x) == if x in m then Counterparts(m, cfg, x) else {} {
      forall y: nat ensures y in Get(counterparts, x) <==> x in m && y in Counterparts(m, cfg, x) {
        LinkedIsCounterpart(alerts, cfg, x, y);
        assert Linked(counterparts, x, y) <==> SomeRulePairs(alerts, cfg.rules, x, y);
      }
    }
    var allowed := Cut(counterparts, cfg.cap);
    forall x: nat, y: nat ensures Linked(allowed, x, y) <==> Chooses(m, cfg, x, y) {}
    pairs := Mutual(allowed);
    forall p: Pair ensures p in pairs <==> p in Candidates(m, cfg) {
      assert p == (p.0, p.1);
      assert p in pairs <==> (p.0 <= p.1 && Chooses(m, cfg, p.0, p.1) && Chooses(m, cfg, p.1, p.0));
    }
  }

  /** Keep each id's `cap` smallest counterparts. */
  method Cut(counterparts: Links, cap: nat) returns (allowed: Links)
    ensures forall x :: Get(allowed, x) == Smallest(Get(counterparts, x), cap)
  {
    allowed := map[];
    var todo := counterparts.Keys;
    while todo != {}
      invariant todo <= counterparts.Keys && allowed.Keys == counterparts.Keys - todo
      invariant forall x :: x in allowed ==> allowed[x] == Smallest(counterparts[x], cap)
    {
      var x :| x in todo;
      var cps := counterparts[x];
      if |cps| > cap {
        CutIsSmallest(cps, cap);
        allowed := allowed[x := Elements(Ascending(cps)[..cap])];
      } else {
        SmallestOfFew(cps, cap);
        allowed := allowed[x := cps];
      }
      todo := todo - {x};
    }
    assert Smallest({}, cap) == {};
  }

  /** Emit the pairs whose two ends kept each other. */
  method Mutual(allowed: Links) returns (pairs: set<Pair>)
    ensures forall x: nat, y: nat :: (x, y) in pairs <==> (x <= y && Linked(allowed, x, y) && Linked(allowed, y, x))
  {
    pairs := {};
    var todo := allowed.Keys;
    while todo != {}
      invariant todo <= allowed.Keys
      invariant forall x: nat, y: nat :: (x, y) in pairs <==>
        (x <= y && Linked(allowed, x, y) && Linked(allowed, y, x) && (x !in todo || y !in todo))
    {
      var x :| x in todo;
      pairs := pairs + set y | y in allowed[x] && x in Get(allowed, y) :: Norm(x, y);
      todo := todo - {x};
    }
  }
}
