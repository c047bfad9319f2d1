/** Grouping alerts one at a time against grouping them all at once. */
module Partition {
  import opened Prelude
  import opened Graph
  import opened Config
  import opened Scoring
  import opened Blocking
  import opened Engine
  import opened Relation
  import opened Lifecycle
  import opened Db
  import opened Invariants
  import opened History

  type AlertTable = map<AlertId, AlertRow>

  /** The bodies of the alerts that have a case. */
  function Cased(alerts: AlertTable): Alerts { RunOn(alerts, GroupedAlerts(alerts)) }

  /** The full pairwise kept-edge graph over the grouped alerts. */
  function GraphOf(alerts: AlertTable, cfg: GroupingConfig): set<Pair>
    requires Scorable(cfg)
  {
    FullEdges(Cased(alerts), cfg)
  }

  predicate SameCase(alerts: AlertTable, x: AlertId, y: AlertId) {
    x in alerts && y in alerts && alerts[x].caseId.Some? && alerts[x].caseId == alerts[y].caseId
  }

  /** No two alerts share a case unless kept edges connect them. */
  ghost predicate Sound(alerts: AlertTable, cfg: GroupingConfig)
    requires Scorable(cfg)
  {
    forall x, y :: SameCase(alerts, x, y) ==> Connected(GraphOf(alerts, cfg), x, y)
  }

  /** Two alerts that a kept edge joins share a case. */
  ghost predicate Complete(alerts: AlertTable, cfg: GroupingConfig)
    requires Scorable(cfg)
  {
    forall x, y :: Adjacent(GraphOf(alerts, cfg), x, y) ==> SameCase(alerts, x, y)
  }

  lemma EdgesAreGrouped(alerts: AlertTable, cfg: GroupingConfig, x: AlertId, y: AlertId)
    requires Scorable(cfg) && Adjacent(GraphOf(alerts, cfg), x, y)
    ensures x in GroupedAlerts(alerts) && y in GroupedAlerts(alerts) && x != y
  {
    FullEdgeIs(Cased(alerts), cfg, x, y);
  }

  /** Completeness spreads from edges to paths. */
  lemma CompleteOnPaths(alerts: AlertTable, cfg: GroupingConfig, x: AlertId, y: AlertId)
    requires Scorable(cfg) && Complete(alerts, cfg) && x in GroupedAlerts(alerts)
    requires Connected(GraphOf(alerts, cfg), x, y)
    ensures SameCase(alerts, x, y)
  {
    hide GraphOf, Connected;
    var together := iset v: nat | SameCase(alerts, x, v);
    Spread(GraphOf(alerts, cfg), together, x, y);
  }

  // ---- One grouping call ---------------------------------------------------

  /** Old edges and old bodies survive a grouping call. */
  lemma GraphGrows(alerts: AlertTable, after: AlertTable, cfg: GroupingConfig)
    requires Scorable(cfg)
    requires forall x :: x in alerts && alerts[x].caseId.Some? ==>
      x in after && after[x].caseId.Some? && after[x].body == alerts[x].body
    ensures GraphOf(alerts, cfg) <= GraphOf(after, cfg)
  {
    hide FullEdges;
    FullEdgesGrow(Cased(alerts), Cased(after), cfg);
  }

  lemma RunIsPart(alerts: AlertTable, after: AlertTable, cfg: GroupingConfig, ids: set<AlertId>)
    requires Scorable(cfg) && ids <= alerts.Keys
    requires forall x :: x in ids ==> x in after && after[x].caseId.Some? && after[x].body == alerts[x].body
    ensures FreeEdges(RunOn(alerts, ids), cfg) <= FullEdges(RunOn(alerts, ids), cfg) <= GraphOf(after, cfg)
  {
    CappedIsPart(RunOn(alerts, ids), cfg);
    hide FullEdges, FreeEdges;
    FullEdgesGrow(RunOn(alerts, ids), Cased(after), cfg);
  }

  /** What a grouping call does to the alert table, in the terms used here. */
  ghost predicate Regrouped(db: State, cfg: GroupingConfig, a: AlertId, rows: set<AlertId>, plan: Plan,
                            after: AlertTable)
    requires Scorable(cfg)
  {
    && a in db.alerts && db.alerts[a].caseId.None? && rows <= GroupedAlerts(db.alerts)
    && after == MovedAlerts(db.alerts, plan, a)
    && GoodPlan(db.cases, plan)
    && (forall x :: x in GroupedAlerts(db.alerts) ==> Live(db.cases, db.alerts[x].caseId.value))
    && (!plan.created ==> plan.losers + {plan.target} == WithStatus(db.cases, Matched(db.alerts, cfg, a, rows), false))
    && (plan.created ==> WithStatus(db.cases, Matched(db.alerts, cfg, a, rows), false) == {})
    && plan.flagged == WithStatus(db.cases, Matched(db.alerts, cfg, a, rows), true)
  }

  lemma MatchedRow(alerts: AlertTable, cfg: GroupingConfig, a: AlertId, rows: set<AlertId>, c: CaseId)
    returns (r: AlertId)
    requires Scorable(cfg) && c in Matched(alerts, cfg, a, rows)
    ensures r in rows && r in alerts && alerts[r].caseId == Some(c)
    ensures Connected(FreeEdges(RunOn(alerts, rows + {a}), cfg), a, r)
  {
    r :| r in rows && r in alerts && alerts[r].caseId.Some? && alerts[r].caseId.value == c
      && Connected(FreeEdges(RunOn(alerts, rows + {a}), cfg), a, r);
  }

  /** After the call, everything in the target case is connected to the new alert. */
  lemma TargetIsConnected(db: State, cfg: GroupingConfig, a: AlertId, rows: set<AlertId>, plan: Plan, after: AlertTable,
                          x: AlertId)
    requires Scorable(cfg) && Sound(db.alerts, cfg) && Regrouped(db, cfg, a, rows, plan, after)
    requires x in after && after[x].caseId == Some(plan.target)
    ensures Connected(GraphOf(after, cfg), a, x)
  {
    Reflexive(GraphOf(after, cfg), a);
    if x != a {
      var c := db.alerts[x].caseId.value;
      assert c in WithStatus(db.cases, Matched(db.alerts, cfg, a, rows), false);
      var r := MatchedRow(db.alerts, cfg, a, rows, c);
      RunIsPart(db.alerts, after, cfg, rows + {a});
      GraphGrows(db.alerts, after, cfg);
      assert SameCase(db.alerts, r, x);
      hide GraphOf, FreeEdges, FullEdges, Connected, Regrouped;
      Monotone(FreeEdges(RunOn(db.alerts, rows + {a}), cfg), GraphOf(after, cfg), a, r);
      Monotone(GraphOf(db.alerts, cfg), GraphOf(after, cfg), r, x);
      Transitive(GraphOf(after, cfg), a, r, x);
    }
  }

  lemma GroupKeepsSound(db: State, cfg: GroupingConfig, a: AlertId, rows: set<AlertId>, plan: Plan, after: AlertTable)
    requires Scorable(cfg) && Sound(db.alerts, cfg) && Regrouped(db, cfg, a, rows, plan, after)
    ensures Sound(after, cfg)
  {
    GraphGrows(db.alerts, after, cfg);
    forall x, y | SameCase(after, x, y) ensures Connected(GraphOf(after, cfg), x, y) {
      if after[x].caseId == Some(plan.target) {
        TargetIsConnected(db, cfg, a, rows, plan, after, x);
        TargetIsConnected(db, cfg, a, rows, plan, after, y);
        Symmetric(GraphOf(after, cfg), a, x);
        Transitive(GraphOf(after, cfg), x, a, y);
      } else {
        assert SameCase(db.alerts, x, y);
        Monotone(GraphOf(db.alerts, cfg), GraphOf(after, cfg), x, y);
      }
    }
  }

  // ---- When one call keeps completeness ------------------------------------

  /** Every enabled rule blocks on one of the fields the candidate query filters by. */
  ghost predicate Queryable(cfg: GroupingConfig) {
    forall rule :: rule in cfg.rules && rule.enabled ==> exists f :: f in rule.blockingKeys && f in BlockingFields
  }

  lemma {:induction false} SpanCovers(rules: seq<Rule>, rule: Rule)
    requires rule in rules && rule.enabled
    ensures MaxWindow(rules).Some? && rule.windowSeconds <= MaxWindow(rules).value
  {
    var init, last := rules[..|rules| - 1], rules[|rules| - 1];
    assert rules == init + [last];
    if rule in init { SpanCovers(init, rule); }
  }

  lemma PartsAgree(a: EngineAlert, b: EngineAlert, keys: seq<Field>, f: Field)
    requires KeyParts(a, keys) != [] && KeyParts(a, keys) == KeyParts(b, keys) && f in keys
    ensures ValueOf(a, f).Some? && ValueOf(a, f) == ValueOf(b, f)
  {
    var i :| 0 <= i < |keys| && keys[i] == f;
    assert KeyParts(a, keys)[i] == KeyParts(b, keys)[i];
    hide ValueOf;
  }

  /** What some rule proposes, the candidate query finds. */
  lemma ProposedIsEligible(alerts: AlertTable, cfg: GroupingConfig, a: AlertId, x: AlertId)
    requires Queryable(cfg) && a in alerts && x in GroupedAlerts(alerts) && x != a
    requires Proposed(cfg.rules, alerts[a].body, alerts[x].body)
    ensures x in Eligible(alerts, cfg, a)
  {
    var rule :| rule in cfg.rules && Proposes(rule, alerts[a].body, alerts[x].body);
    SpanCovers(cfg.rules, rule);
    var f :| f in rule.blockingKeys && f in BlockingFields;
    PartsAgree(alerts[a].body, alerts[x].body, rule.blockingKeys, f);
    hide ValueOf, MaxWindow;
  }

  /** The query's LIMIT dropped no row. */
  ghost predicate Untruncated(alerts: AlertTable, cfg: GroupingConfig, a: AlertId)
    requires a in alerts
  {
    |Eligible(alerts, cfg, a)| <= cfg.cap
  }

  lemma UntruncatedRows(alerts: AlertTable, cfg: GroupingConfig, a: AlertId, rows: set<AlertId>)
    requires a in alerts && IsAnswer(alerts, cfg, a, rows) && Untruncated(alerts, cfg, a)
    ensures rows == Eligible(alerts, cfg, a)
  {
    SubsetCardinality(rows, Eligible(alerts, cfg, a));
  }

  /** The LIMIT keeps every run at `cap + 1` alerts or fewer, so the engine's own cap never drops a pair. */
  lemma RunsAreIdle(alerts: AlertTable, cfg: GroupingConfig, a: AlertId, rows: set<AlertId>)
    requires a in alerts && IsAnswer(alerts, cfg, a, rows)
    ensures CapIdle(RunOn(alerts, rows + {a}), cfg)
  {
    assert RunOn(alerts, rows + {a}).Keys == rows + {a};
    hide CapIdle;
    SmallRunsAreIdle(RunOn(alerts, rows + {a}), cfg);
  }

  /** With all eligible rows at hand, every grouped neighbour of the new alert is matched. */
  lemma NeighbourIsMatched(alerts: AlertTable, after: AlertTable, cfg: GroupingConfig, a: AlertId, rows: set<AlertId>,
                           y: AlertId)
    requires Scorable(cfg) && Queryable(cfg) && a in alerts && IsAnswer(alerts, cfg, a, rows)
    requires Untruncated(alerts, cfg, a)
    requires y in GroupedAlerts(alerts) && alerts[a].body.id == a && alerts[y].body.id == y
    requires a in after && after[a].body == alerts[a].body && y in after && after[y].body == alerts[y].body
    requires Adjacent(GraphOf(after, cfg), a, y)
    ensures alerts[y].caseId.value in Matched(alerts, cfg, a, rows)
  {
    var run := RunOn(alerts, rows + {a});
    FullEdgeIs(Cased(after), cfg, a, y);
    ProposedSymmetric(cfg.rules, alerts[a].body, alerts[y].body);
    ProposedIsEligible(alerts, cfg, a, y);
    UntruncatedRows(alerts, cfg, a, rows);
    FullEdgeIs(run, cfg, a, y);
    RunsAreIdle(alerts, cfg, a, rows);
    IdleCapIsFull(run, cfg);
    hide Related, Proposed, FullEdges, FreeEdges, GraphOf, IsAnswer, Eligible, CapIdle;
    EdgeConnects(FreeEdges(run, cfg), a, y);
  }

  /** Where a grouped alert is after the call. */
  lemma CaseAfter(db: State, cfg: GroupingConfig, a: AlertId, rows: set<AlertId>, plan: Plan, after: AlertTable,
                  y: AlertId)
    requires Scorable(cfg) && Regrouped(db, cfg, a, rows, plan, after) && y in GroupedAlerts(db.alerts)
    ensures y in after && y != a && after[y].caseId == Some(Home(plan, db.alerts[y].caseId.value))
    ensures after[y].body == db.alerts[y].body && a in after && after[a].caseId == Some(plan.target)
    ensures after[a].body == db.alerts[a].body
    ensures var c := db.alerts[y].caseId.value;
            c in Matched(db.alerts, cfg, a, rows) ==> (c in plan.flagged || Home(plan, c) == plan.target)
    ensures var c := db.alerts[y].caseId.value; c in plan.flagged ==> Home(plan, c) != plan.target
  {
    hide Matched;
  }

  /** An old edge stays inside one case. */
  lemma OldEdgeKept(db: State, cfg: GroupingConfig, a: AlertId, rows: set<AlertId>, plan: Plan, after: AlertTable,
                    x: AlertId, y: AlertId)
    requires Scorable(cfg) && Complete(db.alerts, cfg) && Regrouped(db, cfg, a, rows, plan, after)
    requires Adjacent(GraphOf(after, cfg), x, y) && x != a && y != a
    ensures SameCase(after, x, y)
  {
    FullEdgeIs(Cased(after), cfg, x, y);
    FullEdgeIs(Cased(db.alerts), cfg, x, y);
    assert x in GroupedAlerts(db.alerts) && y in GroupedAlerts(db.alerts);
    CaseAfter(db, cfg, a, rows, plan, after, x);
    CaseAfter(db, cfg, a, rows, plan, after, y);
    hide Related, FullEdges, Regrouped, Home;
    assert Adjacent(GraphOf(db.alerts, cfg), x, y);
  }

  /** A new edge is kept exactly when its old end's case was matched open. */
  lemma NewEdgeKept(db: State, cfg: GroupingConfig, a: AlertId, rows: set<AlertId>, plan: Plan, after: AlertTable,
                    y: AlertId)
    requires Scorable(cfg) && Queryable(cfg) && Regrouped(db, cfg, a, rows, plan, after)
    requires IsAnswer(db.alerts, cfg, a, rows) && Untruncated(db.alerts, cfg, a)
    requires forall x :: x in db.alerts ==> db.alerts[x].body.id == x
    requires Adjacent(GraphOf(after, cfg), a, y) && plan.flagged == {}
    ensures SameCase(after, a, y)
  {
    EdgesAreGrouped(after, cfg, a, y);
    assert y in GroupedAlerts(db.alerts);
    CaseAfter(db, cfg, a, rows, plan, after, y);
    NeighbourIsMatched(db.alerts, after, cfg, a, rows, y);
  }

  lemma OpenMatchesComplete(db: State, cfg: GroupingConfig, a: AlertId, rows: set<AlertId>, plan: Plan,
                            after: AlertTable)
    requires Scorable(cfg) && Queryable(cfg) && Complete(db.alerts, cfg) && Regrouped(db, cfg, a, rows, plan, after)
    requires IsAnswer(db.alerts, cfg, a, rows) && Untruncated(db.alerts, cfg, a)
    requires forall x :: x in db.alerts ==> db.alerts[x].body.id == x
    requires plan.flagged == {}
    ensures Complete(after, cfg)
  {
    forall x, y | Adjacent(GraphOf(after, cfg), x, y) ensures SameCase(after, x, y) {
      hide GraphOf, Regrouped, IsAnswer, Untruncated, Complete;
      if x == a {
        NewEdgeKept(db, cfg, a, rows, plan, after, y);
      } else if y == a {
        assert Adjacent(GraphOf(after, cfg), y, x);
        NewEdgeKept(db, cfg, a, rows, plan, after, x);
      } else {
        OldEdgeKept(db, cfg, a, rows, plan, after, x, y);
      }
    }
  }

  /** A matched closed case leaves a kept path between two cases. */
  lemma ClosedMatchIncomplete(db: State, cfg: GroupingConfig, a: AlertId, rows: set<AlertId>, plan: Plan,
                              after: AlertTable)
    requires Scorable(cfg) && Regrouped(db, cfg, a, rows, plan, after) && plan.flagged != {}
    ensures !Complete(after, cfg)
  {
    var c :| c in plan.flagged;
    var r := MatchedRow(db.alerts, cfg, a, rows, c);
    CaseAfter(db, cfg, a, rows, plan, after, r);
    RunIsPart(db.alerts, after, cfg, rows + {a});
    hide FreeEdges, FullEdges, GraphOf, Regrouped, Connected, Complete;
    Monotone(FreeEdges(RunOn(db.alerts, rows + {a}), cfg), GraphOf(after, cfg), a, r);
    if Complete(after, cfg) {
      CompleteOnPaths(after, cfg, a, r);
    }
  }

  /** The exact condition: with no row cut off, one call keeps the partition complete if and only if
      no closed case was matched. */
  lemma GroupKeepsCompleteIff(db: State, cfg: GroupingConfig, a: AlertId, rows: set<AlertId>, plan: Plan,
                              after: AlertTable)
    requires Scorable(cfg) && Queryable(cfg) && Complete(db.alerts, cfg) && Regrouped(db, cfg, a, rows, plan, after)
    requires IsAnswer(db.alerts, cfg, a, rows) && Untruncated(db.alerts, cfg, a)
    requires forall x :: x in db.alerts ==> db.alerts[x].body.id == x
    ensures Complete(after, cfg) <==> WithStatus(db.cases, Matched(db.alerts, cfg, a, rows), true) == {}
  {
    hide Complete, IsAnswer, Untruncated, Queryable;
    if plan.flagged == {} {
      OpenMatchesComplete(db, cfg, a, rows, plan, after);
    } else {
      ClosedMatchIncomplete(db, cfg, a, rows, plan, after);
    }
  }

  /** Whatever was cut off or closed, one call keeps the partition complete if and only if the case of every
      grouped alert that a kept edge joins to the new one was matched and is not closed. */
  lemma GroupKeepsCompleteExactly(db: State, cfg: GroupingConfig, a: AlertId, rows: set<AlertId>, plan: Plan,
                                  after: AlertTable)
    requires Scorable(cfg) && Complete(db.alerts, cfg) && Regrouped(db, cfg, a, rows, plan, after)
    ensures Complete(after, cfg) <==>
      forall y :: y in GroupedAlerts(db.alerts) && Adjacent(GraphOf(after, cfg), a, y) ==>
        db.alerts[y].caseId.value in WithStatus(db.cases, Matched(db.alerts, cfg, a, rows), false)
  {
    var open := WithStatus(db.cases, Matched(db.alerts, cfg, a, rows), false);
    forall y | y in GroupedAlerts(db.alerts) ensures SameCase(after, a, y) <==> db.alerts[y].caseId.value in open {
      JoinsTheTarget(db, cfg, a, rows, plan, after, y);
    }
    hide GraphOf, Regrouped, Matched, WithStatus;
    var near := set y | y in GroupedAlerts(db.alerts) && Adjacent(GraphOf(after, cfg), a, y);
    if forall y :: y in near ==> db.alerts[y].caseId.value in open {
      forall x, y | Adjacent(GraphOf(after, cfg), x, y) ensures SameCase(after, x, y) {
        if x != a && y != a {
          OldEdgeKept(db, cfg, a, rows, plan, after, x, y);
        } else {
          var z := if x == a then y else x;
          assert Adjacent(GraphOf(after, cfg), a, z);
          OtherEndIsOld(db, cfg, a, rows, plan, after, z);
        }
      }
    }
  }

  lemma OtherEndIsOld(db: State, cfg: GroupingConfig, a: AlertId, rows: set<AlertId>, plan: Plan, after: AlertTable,
                      y: AlertId)
    requires Scorable(cfg) && Regrouped(db, cfg, a, rows, plan, after) && Adjacent(GraphOf(after, cfg), a, y)
    ensures y in GroupedAlerts(db.alerts)
  {
    EdgesAreGrouped(after, cfg, a, y);
    hide GraphOf, Matched;
  }

  /** A grouped alert ends in the new alert's case exactly when its own case was matched and is not closed. */
  lemma JoinsTheTarget(db: State, cfg: GroupingConfig, a: AlertId, rows: set<AlertId>, plan: Plan, after: AlertTable,
                       y: AlertId)
    requires Scorable(cfg) && Regrouped(db, cfg, a, rows, plan, after) && y in GroupedAlerts(db.alerts)
    ensures SameCase(after, a, y) <==>
      db.alerts[y].caseId.value in WithStatus(db.cases, Matched(db.alerts, cfg, a, rows), false)
  {
    CaseAfter(db, cfg, a, rows, plan, after, y);
    hide Matched, MovedAlerts;
  }

  // ---- Whole runs ----------------------------------------------------------

  lemma GroupsIsRegrouped(cfg: GroupingConfig, db: State, a: AlertId, rows: set<AlertId>, newId: CaseId,
                          createdAt: nat, actor: string, plan: Plan, d: Decision, after: State)
    requires Scorable(cfg) && Inv(cfg, db) && Groups(db, cfg, a, rows, newId, createdAt, actor, plan, d, after)
    ensures Regrouped(db, cfg, a, rows, plan, after.alerts)
  {
    GroupsFacts(cfg, db, a, rows, newId, createdAt, actor, plan, d, after);
    hide Groups, Inv, Matched, MovedAlerts, GoodPlan, IsPlan, Live;
    PlanPartsCover(db.cases, Matched(db.alerts, cfg, a, rows), newId, plan);
    NamedAreLive(cfg, db);
  }

  lemma GroupsFacts(cfg: GroupingConfig, db: State, a: AlertId, rows: set<AlertId>, newId: CaseId,
                    createdAt: nat, actor: string, plan: Plan, d: Decision, after: State)
    requires Scorable(cfg) && Groups(db, cfg, a, rows, newId, createdAt, actor, plan, d, after)
    ensures a in db.alerts && db.alerts[a].caseId.None? && rows <= GroupedAlerts(db.alerts)
    ensures IsPlan(db.cases, Matched(db.alerts, cfg, a, rows), newId, plan) && GoodPlan(db.cases, plan)
    ensures after.alerts == MovedAlerts(db.alerts, plan, a)
  {
    hide Matched, Regroup, IsDecision, MovedAlerts;
    PlanIsGood(db.cases, Matched(db.alerts, cfg, a, rows), newId, plan);
    RegroupAlerts(db, cfg, plan, a, d.verdict, createdAt, actor);
  }

  lemma PlanPartsCover(cases: map<CaseId, CaseRow>, hits: set<CaseId>, newId: CaseId, plan: Plan)
    requires IsPlan(cases, hits, newId, plan)
    ensures !plan.created ==> plan.losers + {plan.target} == WithStatus(cases, hits, false)
    ensures plan.created ==> WithStatus(cases, hits, false) == {}
    ensures plan.flagged == WithStatus(cases, hits, true)
  {
  }

  /** Calls other than grouping never move an alert. */
  lemma OtherCallsKeepGroups(cfg: GroupingConfig, s: State, op: Op, t: State)
    requires Scorable(cfg) && Next(cfg, s, op, t) && !op.GroupAlert?
    ensures forall x :: x in s.alerts ==> x in t.alerts && t.alerts[x] == s.alerts[x]
    ensures forall x :: x in t.alerts && x !in s.alerts ==> t.alerts[x].caseId.None?
  {
    hide TransitionFailure, AssignError, NoteError, RetractError, Record, TransitionedRow;
  }

  lemma SameGroups(alerts: AlertTable, after: AlertTable, cfg: GroupingConfig)
    requires Scorable(cfg)
    requires forall x :: x in alerts ==> x in after && after[x] == alerts[x]
    requires forall x :: x in after && x !in alerts ==> after[x].caseId.None?
    ensures GraphOf(after, cfg) == GraphOf(alerts, cfg)
    ensures forall x, y :: SameCase(after, x, y) <==> SameCase(alerts, x, y)
  {
    assert Cased(after) == Cased(alerts);
    hide FullEdges;
  }

  lemma NextKeepsSound(cfg: GroupingConfig, s: State, op: Op, t: State)
    requires Scorable(cfg) && Inv(cfg, s) && Next(cfg, s, op, t) && Sound(s.alerts, cfg)
    ensures Sound(t.alerts, cfg)
  {
    hide Inv, Regrouped, Regroup, IsPlan, IsAnswer, IsDecision, GraphOf, Connected;
    if op.GroupAlert? {
      var plan, d :| Groups(s, cfg, op.a, op.rows, op.newId, op.createdAt, op.actor, plan, d, t);
      GroupsIsRegrouped(cfg, s, op.a, op.rows, op.newId, op.createdAt, op.actor, plan, d, t);
      GroupKeepsSound(s, cfg, op.a, op.rows, plan, t.alerts);
    } else {
      OtherCallsKeepGroups(cfg, s, op, t);
      SameGroups(s.alerts, t.alerts, cfg);
    }
  }

  /** Grouping never joins unrelated alerts: in every reachable state, with any truncation by the
      candidate limit and any closing or re-opening, alerts that share a case are connected. */
  lemma {:induction false} RunIsSound(cfg: GroupingConfig, ops: seq<Op>, trace: seq<State>, i: nat)
    requires Scorable(cfg) && IsRun(cfg, ops, trace) && trace[0] == Empty && i < |trace|
    ensures Sound(trace[i].alerts, cfg)
  {
    hide Inv, Next;
    if i > 0 {
      hide Sound;
      RunIsSound(cfg, ops, trace, i - 1);
      RunKeepsInv(cfg, ops, trace, i - 1);
      NextKeepsSound(cfg, trace[i - 1], ops[i - 1], trace[i]);
    }
  }

  /** A grouping call that saw all its eligible rows and matched no closed case. */
  ghost predicate Smooth(cfg: GroupingConfig, db: State, op: Op)
    requires Scorable(cfg)
  {
    op.GroupAlert? && op.a in db.alerts ==>
      Untruncated(db.alerts, cfg, op.a) && WithStatus(db.cases, Matched(db.alerts, cfg, op.a, op.rows), true) == {}
  }

  lemma NextKeepsComplete(cfg: GroupingConfig, s: State, op: Op, t: State)
    requires Scorable(cfg) && Queryable(cfg) && Inv(cfg, s) && Next(cfg, s, op, t) && Smooth(cfg, s, op)
    requires Complete(s.alerts, cfg)
    ensures Complete(t.alerts, cfg)
  {
    hide Queryable, Regrouped, Regroup, IsPlan, IsAnswer, IsDecision, GraphOf, DecisionsAgree, CountsRight,
      RowsRight, StreamRight;
    if op.GroupAlert? {
      var plan, d :| Groups(s, cfg, op.a, op.rows, op.newId, op.createdAt, op.actor, plan, d, t);
      GroupsIsRegrouped(cfg, s, op.a, op.rows, op.newId, op.createdAt, op.actor, plan, d, t);
      forall x | x in s.alerts ensures s.alerts[x].body.id == x { assert LinkAgrees(s, x); }
      GroupKeepsCompleteIff(s, cfg, op.a, op.rows, plan, t.alerts);
    } else {
      OtherCallsKeepGroups(cfg, s, op, t);
      SameGroups(s.alerts, t.alerts, cfg);
    }
  }

  lemma {:induction false} RunIsComplete(cfg: GroupingConfig, ops: seq<Op>, trace: seq<State>, i: nat)
    requires Scorable(cfg) && Queryable(cfg) && IsRun(cfg, ops, trace) && trace[0] == Empty && i < |trace|
    requires forall k :: 0 <= k < i ==> Smooth(cfg, trace[k], ops[k])
    ensures Complete(trace[i].alerts, cfg)
  {
    hide Inv, Next, Smooth, Queryable;
    if i == 0 {
      NothingIsComplete(cfg);
    } else {
      hide Complete;
      RunIsComplete(cfg, ops, trace, i - 1);
      RunKeepsInv(cfg, ops, trace, i - 1);
      NextKeepsComplete(cfg, trace[i - 1], ops[i - 1], trace[i]);
    }
  }

  // ---- Exactly which runs stay complete ------------------------------------

  /** The call found the case of every grouped alert that a kept edge joins to the new one, and none was closed. */
  ghost predicate Catches(cfg: GroupingConfig, s: State, op: Op, t: State)
    requires Scorable(cfg)
  {
    op.GroupAlert? ==> forall y :: y in GroupedAlerts(s.alerts) && Adjacent(GraphOf(t.alerts, cfg), op.a, y) ==>
      s.alerts[y].caseId.value in WithStatus(s.cases, Matched(s.alerts, cfg, op.a, op.rows), false)
  }

  lemma NextCompleteIff(cfg: GroupingConfig, s: State, op: Op, t: State)
    requires Scorable(cfg) && Inv(cfg, s) && Next(cfg, s, op, t) && Complete(s.alerts, cfg)
    ensures Complete(t.alerts, cfg) <==> Catches(cfg, s, op, t)
  {
    hide Inv, Regrouped, Regroup, IsPlan, IsAnswer, IsDecision, GraphOf, Matched, WithStatus;
    if op.GroupAlert? {
      var plan, d :| Groups(s, cfg, op.a, op.rows, op.newId, op.createdAt, op.actor, plan, d, t);
      GroupsIsRegrouped(cfg, s, op.a, op.rows, op.newId, op.createdAt, op.actor, plan, d, t);
      GroupKeepsCompleteExactly(s, cfg, op.a, op.rows, plan, t.alerts);
    } else {
      OtherCallsKeepGroups(cfg, s, op, t);
      SameGroups(s.alerts, t.alerts, cfg);
    }
  }

  lemma NothingIsComplete(cfg: GroupingConfig)
    requires Scorable(cfg)
    ensures Complete(Empty.alerts, cfg)
  {
    forall x, y | Adjacent(GraphOf(Empty.alerts, cfg), x, y) ensures false { EdgesAreGrouped(Empty.alerts, cfg, x, y); }
  }

  ghost predicate CompleteUpTo(cfg: GroupingConfig, trace: seq<State>, i: nat)
    requires Scorable(cfg) && i < |trace|
  {
    forall k :: 0 <= k <= i ==> Complete(trace[k].alerts, cfg)
  }

  ghost predicate CatchesUpTo(cfg: GroupingConfig, ops: seq<Op>, trace: seq<State>, i: nat)
    requires Scorable(cfg) && |trace| == |ops| + 1 && i < |trace|
  {
    forall k :: 0 <= k < i ==> Catches(cfg, trace[k], ops[k], trace[k + 1])
  }

  /** A run keeps related alerts together in every state if and only if every grouping call in it caught the cases
      of all the new alert's neighbours, whatever was truncated, closed or re-opened. */
  lemma {:induction false} RunIsCompleteIff(cfg: GroupingConfig, ops: seq<Op>, trace: seq<State>, i: nat)
    requires Scorable(cfg) && IsRun(cfg, ops, trace) && trace[0] == Empty && i < |trace|
    ensures CompleteUpTo(cfg, trace, i) <==> CatchesUpTo(cfg, ops, trace, i)
  {
    hide Inv, Next, Complete, Catches;
    if i == 0 {
      NothingIsComplete(cfg);
    } else {
      RunIsCompleteIff(cfg, ops, trace, i - 1);
      assert CompleteUpTo(cfg, trace, i) <==> CompleteUpTo(cfg, trace, i - 1) && Complete(trace[i].alerts, cfg);
      assert CatchesUpTo(cfg, ops, trace, i) <==>
        CatchesUpTo(cfg, ops, trace, i - 1) && Catches(cfg, trace[i - 1], ops[i - 1], trace[i]);
      if CompleteUpTo(cfg, trace, i - 1) {
        RunKeepsInv(cfg, ops, trace, i - 1);
        NextCompleteIff(cfg, trace[i - 1], ops[i - 1], trace[i]);
      }
    }
  }

  /** After any smooth run, two grouped alerts share a case exactly when kept edges connect them. */
  lemma IncrementalIsComponents(cfg: GroupingConfig, ops: seq<Op>, trace: seq<State>, x: AlertId, y: AlertId)
    requires Scorable(cfg) && Queryable(cfg) && IsRun(cfg, ops, trace) && trace[0] == Empty
    requires forall k :: 0 <= k < |ops| ==> Smooth(cfg, trace[k], ops[k])
    requires x in GroupedAlerts(trace[|ops|].alerts)
    ensures SameCase(trace[|ops|].alerts, x, y) <==> Connected(GraphOf(trace[|ops|].alerts, cfg), x, y)
  {
    var alerts := trace[|ops|].alerts;
    hide Next, Smooth, Queryable, Complete;
    RunIsSound(cfg, ops, trace, |ops|);
    RunIsComplete(cfg, ops, trace, |ops|);
    hide GraphOf, Connected;
    if Connected(GraphOf(alerts, cfg), x, y) { CompleteOnPaths(alerts, cfg, x, y); }
  }

  /** Incremental equals batch: once a smooth run has grouped every alert, its cases are the batch
      engine's groups over the same alerts (when that one run's cap is idle too). */
  lemma IncrementalEqualsBatch(cfg: GroupingConfig, ops: seq<Op>, trace: seq<State>, x: AlertId, y: AlertId,
                               dx: Decision, dy: Decision)
    requires Scorable(cfg) && Queryable(cfg) && IsRun(cfg, ops, trace) && trace[0] == Empty
    requires forall k :: 0 <= k < |ops| ==> Smooth(cfg, trace[k], ops[k])
    requires GroupedAlerts(trace[|ops|].alerts) == trace[|ops|].alerts.Keys
    requires CapIdle(Cased(trace[|ops|].alerts), cfg)
    requires IsDecision(Cased(trace[|ops|].alerts), cfg, NoPins, x, dx)
    requires IsDecision(Cased(trace[|ops|].alerts), cfg, NoPins, y, dy)
    ensures SameCase(trace[|ops|].alerts, x, y) <==> dx.groupKey == dy.groupKey
  {
    var alerts := trace[|ops|].alerts;
    assert x in Cased(alerts);
    hide Next, Smooth, Queryable, IsDecision, CapIdle, IsRun, SameCase;
    IncrementalIsComponents(cfg, ops, trace, x, y);
    GroupKeysAreComponents(Cased(alerts), cfg, NoPins, x, y, dx, dy);
    IdleCapIsFull(Cased(alerts), cfg);
  }

  /** The partition does not depend on the arrival order, nor on anything else the runs did. */
  lemma ArrivalOrderIsIrrelevant(cfg: GroupingConfig, ops: seq<Op>, trace: seq<State>, ops': seq<Op>,
                                 trace': seq<State>, x: AlertId, y: AlertId)
    requires Scorable(cfg) && Queryable(cfg)
    requires IsRun(cfg, ops, trace) && trace[0] == Empty && forall k :: 0 <= k < |ops| ==> Smooth(cfg, trace[k], ops[k])
    requires IsRun(cfg, ops', trace') && trace'[0] == Empty
    requires forall k :: 0 <= k < |ops'| ==> Smooth(cfg, trace'[k], ops'[k])
    requires Cased(trace[|ops|].alerts) == Cased(trace'[|ops'|].alerts)
    requires x in GroupedAlerts(trace[|ops|].alerts)
    ensures SameCase(trace[|ops|].alerts, x, y) <==> SameCase(trace'[|ops'|].alerts, x, y)
  {
    assert x in Cased(trace[|ops|].alerts) && x in Cased(trace'[|ops'|].alerts);
    assert GraphOf(trace[|ops|].alerts, cfg) == GraphOf(trace'[|ops'|].alerts, cfg) by { hide FullEdges, Cased; }
    hide Next, Smooth, Queryable, IsRun, SameCase, GraphOf;
    IncrementalIsComponents(cfg, ops, trace, x, y);
    IncrementalIsComponents(cfg, ops', trace', x, y);
  }

  // ---- Runs without closing ------------------------------------------------

  /** Nobody asks for a case to be closed. */
  ghost predicate NeverCloses(ops: seq<Op>) {
    forall k :: 0 <= k < |ops| ==> !(ops[k].TransitionCase? && ops[k].target == Closed)
  }

  ghost predicate NoneClosed(cases: map<CaseId, CaseRow>) {
    forall c :: c in cases ==> cases[c].status != Closed
  }

  lemma NextClosesNone(cfg: GroupingConfig, s: State, op: Op, t: State)
    requires Scorable(cfg) && Next(cfg, s, op, t) && NoneClosed(s.cases) && !(op.TransitionCase? && op.target == Closed)
    ensures NoneClosed(t.cases)
  {
    hide Regroup, IsAnswer, IsPlan, IsDecision;
    if op.GroupAlert? {
      var plan, d :| Groups(s, cfg, op.a, op.rows, op.newId, op.createdAt, op.actor, plan, d, t);
      PlanIsGood(s.cases, Matched(s.alerts, cfg, op.a, op.rows), op.newId, plan);
      forall c | c in t.cases ensures t.cases[c].status != Closed {
        GroupOnStream(s, cfg, plan, op.a, d.verdict, op.createdAt, op.actor, c);
      }
    } else {
      OtherCallsCloseNone(cfg, s, op, t);
    }
  }

  lemma OtherCallsCloseNone(cfg: GroupingConfig, s: State, op: Op, t: State)
    requires Scorable(cfg) && Next(cfg, s, op, t) && NoneClosed(s.cases) && !(op.TransitionCase? && op.target == Closed)
    requires !op.GroupAlert?
    ensures NoneClosed(t.cases)
  {
    hide ValidateTransition, Record;
  }

  lemma {:induction false} RunClosesNone(cfg: GroupingConfig, ops: seq<Op>, trace: seq<State>, i: nat)
    requires Scorable(cfg) && IsRun(cfg, ops, trace) && trace[0] == Empty && i < |trace| && NeverCloses(ops)
    ensures NoneClosed(trace[i].cases)
  {
    hide Next;
    if i > 0 {
      RunClosesNone(cfg, ops, trace, i - 1);
      NextClosesNone(cfg, trace[i - 1], ops[i - 1], trace[i]);
    }
  }

  /** When no case is ever closed and no candidate row is ever cut off, every call is smooth. */
  lemma OpenRunsAreSmooth(cfg: GroupingConfig, ops: seq<Op>, trace: seq<State>, k: nat)
    requires Scorable(cfg) && IsRun(cfg, ops, trace) && trace[0] == Empty && NeverCloses(ops) && k < |ops|
    requires ops[k].GroupAlert? && ops[k].a in trace[k].alerts ==> Untruncated(trace[k].alerts, cfg, ops[k].a)
    ensures Smooth(cfg, trace[k], ops[k])
  {
    hide Next, Untruncated, Matched;
    RunClosesNone(cfg, ops, trace, k);
  }

  // ---- Singletons ----------------------------------------------------------

  /** Nobody else is in the new alert's component exactly when it matches no case. */
  lemma AloneMeansUnmatched(alerts: AlertTable, cfg: GroupingConfig, a: AlertId, rows: set<AlertId>)
    requires Scorable(cfg) && a in alerts && a !in rows && rows <= GroupedAlerts(alerts)
    ensures var run := RunOn(alerts, rows + {a});
            a in run && (Component(run.Keys, FreeEdges(run, cfg), a) == {a} <==> Matched(alerts, cfg, a, rows) == {})
  {
    var run := RunOn(alerts, rows + {a});
    var mates := Component(run.Keys, FreeEdges(run, cfg), a);
    hide FreeEdges, Connected;
    if x :| x in mates && x != a {
      assert alerts[x].caseId.value in Matched(alerts, cfg, a, rows);
    }
    if c :| c in Matched(alerts, cfg, a, rows) {
      var r := MatchedRow(alerts, cfg, a, rows, c);
      assert r in mates;
    }
    assert mates != {a} ==> exists x :: x in mates && x != a;
  }

  /** In persistence an alert is recorded as a singleton exactly when no existing case matched it. */
  lemma SingletonMeansUnmatched(cfg: GroupingConfig, db: State, a: AlertId, rows: set<AlertId>, newId: CaseId,
                                createdAt: nat, actor: string, plan: Plan, d: Decision, after: State)
    requires Scorable(cfg) && Groups(db, cfg, a, rows, newId, createdAt, actor, plan, d, after)
    ensures a in after.links && after.links[a].decision < |after.decisions|
    ensures after.decisions[after.links[a].decision].verdict.how == Singleton <==>
      Matched(db.alerts, cfg, a, rows) == {}
  {
    assert a !in rows && rows <= GroupedAlerts(db.alerts);
    hide Groups, Regroup, IsPlan, IsAnswer, Matched, IsDecision, FreeEdges, Component;
    StoredDecision(cfg, db, a, rows, newId, createdAt, actor, plan, d, after);
    AloneMeansUnmatched(db.alerts, cfg, a, rows);
    SingletonMeansAlone(RunOn(db.alerts, rows + {a}), cfg, a, d);
  }
}
