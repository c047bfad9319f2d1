/** A concrete pair of runs that group the same alerts differently, once the candidate limit cuts a row off. */
module ArrivalOrder {
  import opened Prelude
  import opened Graph
  import opened Config
  import opened Scoring
  import opened Blocking
  import opened Engine
  import opened Relation
  import opened Db
  import opened Invariants
  import opened History
  import opened Partition
  import opened Worker
  import opened Feasible

  // ---- Three alerts a second apart, one rule, a limit of one ---------------

  function Sample(i: nat): EngineAlert {
    EngineAlert(i, i * 1_000_000, 5.0, "EUR", Some("C-1"), None, None, None, None, None, None, None, {})
  }

  const SameCustomer := Rule("same-customer", true, [CustomerRef], 1, 0.0, [CustomerRef])

  /** That rule and that limit; weights, threshold, time constant and all the rest may be anything that can score. */
  ghost predicate OneRule(cfg: GroupingConfig) {
    cfg.rules == [SameCustomer] && cfg.cap == 1 && Scorable(cfg)
  }

  const Ids: set<AlertId> := {0, 1, 2}

  predicate Loaded(alerts: AlertTable) {
    alerts.Keys == Ids && forall i :: i in Ids ==> alerts[i].body == Sample(i)
  }

  predicate Beside(x: AlertId, y: AlertId) { x != y && x <= y + 1 && y <= x + 1 }

  lemma SamplesNear(x: AlertId, y: AlertId)
    ensures Near(Sample(x), Sample(y), 1) <==> x == y || Beside(x, y)
    ensures SharesField(Sample(x), Sample(y))
  {
    assert ValueOf(Sample(x), CustomerRef) == ValueOf(Sample(y), CustomerRef) == Some(Text("C-1"));
    assert CustomerRef in BlockingFields;
  }

  lemma OneRuleSpan(cfg: GroupingConfig)
    requires OneRule(cfg)
    ensures Span(cfg) == 1 && Queryable(cfg)
  {
    assert |cfg.rules| == 1 && cfg.rules[..0] == [];
    assert MaxWindow(cfg.rules[..0]) == None;
    assert MaxWindow(cfg.rules) == Some(1);
    assert CustomerRef in SameCustomer.blockingKeys && CustomerRef in BlockingFields;
  }

  lemma EligibleAre(cfg: GroupingConfig, alerts: AlertTable, a: AlertId)
    requires OneRule(cfg) && Loaded(alerts) && a in Ids
    ensures Eligible(alerts, cfg, a) == set x | x in GroupedAlerts(alerts) && Beside(a, x)
  {
    OneRuleSpan(cfg);
    hide Near, SharesField, Span, Beside, Sample;
    forall x | x in alerts
      ensures IsEligible(alerts, cfg, a, x) <==> alerts[x].caseId.Some? && x != a && (x == a || Beside(a, x))
    {
      SamplesNear(a, x);
    }
    forall x ensures Beside(a, x) ==> x != a { NotBesideItself(a, x); }
  }

  lemma NotBesideItself(x: AlertId, y: AlertId)
    ensures Beside(x, y) ==> x != y
  {
  }

  /** Neighbouring samples are related: the rule matches them. */
  lemma SamplesRelated(cfg: GroupingConfig, x: AlertId, y: AlertId)
    requires Beside(x, y) && OneRule(cfg)
    ensures Related(cfg, Sample(x), Sample(y))
  {
    SamplesNear(x, y);
    var a, b := Sample(x), Sample(y);
    assert ValueOf(a, CustomerRef) == ValueOf(b, CustomerRef) == Some(Text("C-1"));
    assert KeyParts(a, SameCustomer.blockingKeys) == KeyParts(b, SameCustomer.blockingKeys) == [Text("C-1")];
    assert SameCustomer in cfg.rules && Proposes(SameCustomer, a, b);
    assert RuleMatches(SameCustomer, a, b);
    MatchedSomething(cfg.rules, a, b);
  }

  // ---- Runs ----------------------------------------------------------------

  /** A run from the empty database to `db` that only persists and groups, with whether it lost no row. */
  ghost predicate Reaches(cfg: GroupingConfig, ops: seq<Op>, trace: seq<State>, db: State, whole: bool)
    requires Scorable(cfg)
  {
    && IsRun(cfg, ops, trace) && trace[0] == Empty && trace[|ops|] == db
    && (forall k :: 0 <= k < |ops| ==> ops[k].Persist? || ops[k].GroupAlert?)
    && (whole ==> forall k :: 0 <= k < |ops| ==> Whole(cfg, trace[k], ops[k]))
  }

  ghost predicate Whole(cfg: GroupingConfig, db: State, op: Op) {
    op.GroupAlert? && op.a in db.alerts ==> Untruncated(db.alerts, cfg, op.a)
  }

  lemma OneMore(cfg: GroupingConfig, ops: seq<Op>, trace: seq<State>, db: State, whole: bool, op: Op, after: State)
    requires Scorable(cfg) && Reaches(cfg, ops, trace, db, whole) && Next(cfg, db, op, after)
    requires (op.Persist? || op.GroupAlert?) && (whole ==> Whole(cfg, db, op))
    ensures Reaches(cfg, ops + [op], trace + [after], after, whole)
  {
    hide Next, Whole;
    RunExtends(cfg, ops, trace, op, after);
  }

  lemma Load(cfg: GroupingConfig) returns (ops: seq<Op>, trace: seq<State>, db: State)
    requires OneRule(cfg)
    ensures Reaches(cfg, ops, trace, db, true) && Loaded(db.alerts) && GroupedAlerts(db.alerts) == {}
    ensures db.cases == map[]
  {
    ops, trace, db := [], [Empty], Empty;
    assert Reaches(cfg, ops, trace, db, true);
    for i := 0 to 3
      invariant Reaches(cfg, ops, trace, db, true) && db.cases == map[]
      invariant forall k: nat :: k in db.alerts <==> k < i
      invariant forall k :: k in db.alerts ==> db.alerts[k] == AlertRow(Sample(k), None, None)
    {
      var op, after := Persist(i, Sample(i), None), db.(alerts := db.alerts[i := AlertRow(Sample(i), None, None)]);
      hide Reaches, Sample;
      assert Next(cfg, db, op, after) by { SampleId(i); }
      assert Whole(cfg, db, op);
      OneMore(cfg, ops, trace, db, true, op, after);
      ops, trace, db := ops + [op], trace + [after], after;
    }
  }

  lemma SampleId(i: nat)
    ensures Sample(i).id == i
  {
  }

  lemma More(cfg: GroupingConfig, ops: seq<Op>, trace: seq<State>, db: State, whole: bool, a: AlertId,
             rows: set<AlertId>, newId: CaseId)
    returns (ops': seq<Op>, trace': seq<State>, after: State, plan: Plan)
    requires OneRule(cfg) && Reaches(cfg, ops, trace, db, whole) && Loaded(db.alerts) && a in Ids
    requires a !in GroupedAlerts(db.alerts)
    requires newId !in db.cases && IsAnswer(db.alerts, cfg, a, rows) && (whole ==> Untruncated(db.alerts, cfg, a))
    ensures Reaches(cfg, ops', trace', after, whole) && Loaded(after.alerts)
    ensures GroupedAlerts(after.alerts) == GroupedAlerts(db.alerts) + {a} && after.cases.Keys <= db.cases.Keys + {newId}
    ensures Regrouped(db, cfg, a, rows, plan, after.alerts)
  {
    assert db.alerts[a].caseId.None?;
    assert IsRun(cfg, ops, trace) && trace[0] == Empty && trace[|ops|] == db;
    hide Inv, Groups, IsAnswer, Regrouped, Next, Untruncated, Reaches, Sample, IsRun;
    assert |ops| < |trace| by { RunLength(cfg, ops, trace); }
    RunKeepsInv(cfg, ops, trace, |ops|);
    var d;
    plan, d, after := GroupingWorks(cfg, db, a, rows, newId, 0, "");
    GroupsIsRegrouped(cfg, db, a, rows, newId, 0, "", plan, d, after);
    OneMoreGrouped(cfg, db, a, rows, newId, 0, "", plan, d, after);
    var op := GroupAlert(a, rows, newId, 0, "");
    assert Next(cfg, db, op, after) by { GroupsIsNext(cfg, db, a, rows, newId, 0, "", plan, d, after); }
    OneMore(cfg, ops, trace, db, whole, op, after);
    ops', trace' := ops + [op], trace + [after];
  }

  lemma RunLength(cfg: GroupingConfig, ops: seq<Op>, trace: seq<State>)
    requires OneRule(cfg) && IsRun(cfg, ops, trace)
    ensures |trace| == |ops| + 1
  {
  }

  // ---- The two orders ------------------------------------------------------

  lemma AnswerIs(cfg: GroupingConfig, alerts: AlertTable, a: AlertId, rows: set<AlertId>)
    requires OneRule(cfg) && a in alerts && rows == Eligible(alerts, cfg, a) && |rows| <= 1
    ensures IsAnswer(alerts, cfg, a, rows) && Untruncated(alerts, cfg, a)
  {
    hide Eligible;
  }

  /** Middle first: both others find it, and no row is ever cut off. */
  lemma MiddleFirst(cfg: GroupingConfig) returns (ops: seq<Op>, trace: seq<State>, db: State)
    requires OneRule(cfg)
    ensures Reaches(cfg, ops, trace, db, true) && Loaded(db.alerts) && GroupedAlerts(db.alerts) == Ids
  {
    hide Reaches, Regrouped, IsAnswer, Eligible, Untruncated, Loaded, GroupedAlerts, Scorable, Queryable;
    var plan;
    ops, trace, db := Load(cfg);
    LoadedHas(db.alerts);
    EligibleAre(cfg, db.alerts, 1);
    assert Eligible(db.alerts, cfg, 1) == {};
    AnswerIs(cfg, db.alerts, 1, {});
    ops, trace, db, plan := More(cfg, ops, trace, db, true, 1, {}, 0);
    LoadedHas(db.alerts);
    EligibleAre(cfg, db.alerts, 0);
    assert Eligible(db.alerts, cfg, 0) == {1};
    AnswerIs(cfg, db.alerts, 0, {1});
    ops, trace, db, plan := More(cfg, ops, trace, db, true, 0, {1}, 1);
    LoadedHas(db.alerts);
    EligibleAre(cfg, db.alerts, 2);
    assert Eligible(db.alerts, cfg, 2) == {1};
    AnswerIs(cfg, db.alerts, 2, {1});
    ops, trace, db, plan := More(cfg, ops, trace, db, true, 2, {1}, 2);
  }

  lemma LoadedHas(alerts: AlertTable)
    requires Loaded(alerts)
    ensures 0 in alerts && 1 in alerts && 2 in alerts
  {
  }

  /** With every row at hand the two neighbours end in one case. */
  lemma MiddleFirstJoins(cfg: GroupingConfig, ops: seq<Op>, trace: seq<State>, db: State)
    requires OneRule(cfg)
    requires Reaches(cfg, ops, trace, db, true) && Loaded(db.alerts) && GroupedAlerts(db.alerts) == Ids
    ensures SameCase(db.alerts, 0, 1)
  {
    var graph := GraphOf(db.alerts, cfg);
    SamplesRelated(cfg, 0, 1);
    FullEdgeIs(Cased(db.alerts), cfg, 0, 1);
    assert Cased(db.alerts)[0] == Sample(0) && Cased(db.alerts)[1] == Sample(1);
    assert Adjacent(graph, 0, 1);
    EdgeConnects(graph, 0, 1);
    OneRuleSpan(cfg);
    hide Related, FullEdges, Sample, Next, Smooth, Queryable, Cased, Scorable;
    forall k | 0 <= k < |ops| ensures Smooth(cfg, trace[k], ops[k]) {
      assert Whole(cfg, trace[k], ops[k]);
      OpenRunsAreSmooth(cfg, ops, trace, k);
    }
    IncrementalIsComponents(cfg, ops, trace, 0, 1);
  }

  /** Middle last: the ends open two cases, and the limit lets the middle alert find only one of them. */
  lemma MiddleLast(cfg: GroupingConfig) returns (ops: seq<Op>, trace: seq<State>, db: State)
    requires OneRule(cfg)
    ensures Reaches(cfg, ops, trace, db, false) && Loaded(db.alerts) && GroupedAlerts(db.alerts) == Ids
    ensures !SameCase(db.alerts, 0, 1)
  {
    hide Reaches, Regrouped, IsAnswer, Eligible, Untruncated, Loaded, GroupedAlerts, Scorable, Queryable,
      Matched, SameCase;
    var plan;
    ops, trace, db := Load(cfg);
    WholeOrNot(cfg, ops, trace, db);
    LoadedHas(db.alerts);
    EligibleAre(cfg, db.alerts, 0);
    assert Eligible(db.alerts, cfg, 0) == {};
    AnswerIs(cfg, db.alerts, 0, {});
    ops, trace, db, plan := More(cfg, ops, trace, db, false, 0, {}, 0);
    LoadedHas(db.alerts);
    EligibleAre(cfg, db.alerts, 2);
    assert Eligible(db.alerts, cfg, 2) == {};
    AnswerIs(cfg, db.alerts, 2, {});
    var before := db;
    ops, trace, db, plan := More(cfg, ops, trace, db, false, 2, {}, 1);
    MatchedAmong(cfg, before.alerts, 2, {}, 0);
    JoinsTheTarget(before, cfg, 2, {}, plan, db.alerts, 0);
    LoadedHas(db.alerts);
    EligibleAre(cfg, db.alerts, 1);
    assert Eligible(db.alerts, cfg, 1) == {0, 2};
    LatestIsAnswer(cfg, db.alerts);
    before := db;
    ops, trace, db, plan := More(cfg, ops, trace, db, false, 1, {2}, 2);
    MatchedAmong(cfg, before.alerts, 1, {2}, 0);
    JoinsTheTarget(before, cfg, 1, {2}, plan, db.alerts, 0);
    SameCaseFlips(db.alerts, 0, 1);
  }

  lemma WholeOrNot(cfg: GroupingConfig, ops: seq<Op>, trace: seq<State>, db: State)
    requires OneRule(cfg) && Reaches(cfg, ops, trace, db, true)
    ensures Reaches(cfg, ops, trace, db, false)
  {
    hide IsRun, Whole;
  }

  lemma SameCaseFlips(alerts: AlertTable, x: AlertId, y: AlertId)
    ensures SameCase(alerts, x, y) <==> SameCase(alerts, y, x)
  {
  }

  /** A case is matched only if a candidate row lies in it. */
  lemma MatchedAmong(cfg: GroupingConfig, alerts: AlertTable, a: AlertId, rows: set<AlertId>, y: AlertId)
    requires OneRule(cfg) && Loaded(alerts) && y in GroupedAlerts(alerts)
    requires forall x :: x in rows ==> x in GroupedAlerts(alerts) && !SameCase(alerts, x, y)
    ensures alerts[y].caseId.value !in Matched(alerts, cfg, a, rows)
  {
    hide Connected, FreeEdges;
  }

  lemma LatestIsAnswer(cfg: GroupingConfig, alerts: AlertTable)
    requires OneRule(cfg) && Loaded(alerts) && Eligible(alerts, cfg, 1) == {0, 2}
    ensures IsAnswer(alerts, cfg, 1, {2})
  {
    hide Eligible;
  }

  /** Once a row is cut off, the arrival order can decide the partition: the same configuration and the same
      three alerts, grouped without any analyst's action, end up together or apart. */
  lemma ArrivalOrderCanMatter(cfg: GroupingConfig)
    returns (ops: seq<Op>, trace: seq<State>, ops': seq<Op>, trace': seq<State>, x: AlertId, y: AlertId)
    requires OneRule(cfg)
    ensures Queryable(cfg)
    ensures IsRun(cfg, ops, trace) && trace[0] == Empty && IsRun(cfg, ops', trace') && trace'[0] == Empty
    ensures forall op :: op in ops || op in ops' ==> op.Persist? || op.GroupAlert?
    ensures Cased(trace[|ops|].alerts) == Cased(trace'[|ops'|].alerts) && x in Cased(trace[|ops|].alerts)
    ensures SameCase(trace[|ops|].alerts, x, y) && !SameCase(trace'[|ops'|].alerts, x, y)
  {
    OneRuleSpan(cfg);
    hide Scorable, Queryable, IsRun, SameCase, Whole, Sample;
    x, y := 0, 1;
    var db, db';
    ops, trace, db := MiddleFirst(cfg);
    MiddleFirstJoins(cfg, ops, trace, db);
    ops', trace', db' := MiddleLast(cfg);
    forall op | op in ops ensures op.Persist? || op.GroupAlert? {}
    forall op | op in ops' ensures op.Persist? || op.GroupAlert? {}
    assert Cased(db.alerts) == Cased(db'.alerts);
  }
}
