/** Grouping never gets stuck: every call has a decision, a plan and a result. */
module Feasible {
  import opened Prelude
  import opened Graph
  import opened Config
  import opened Blocking
  import opened Engine
  import opened Db
  import opened Invariants
  import Store

  lemma {:induction false} StrongestExists(alerts: Alerts, cfg: GroupingConfig, ids: set<nat>, x: nat)
    returns (best: nat)
    requires Scorable(cfg) && x in alerts && ids <= alerts.Keys && ids != {}
    ensures IsStrongest(alerts, cfg, ids, x, best)
  {
    hide JudgePair;
    best :| best in ids;
    if ids != {best} {
      var first := best;
      var other := StrongestExists(alerts, cfg, ids - {best}, x);
      var v, w := JudgePair(alerts, cfg, Norm(x, first)), JudgePair(alerts, cfg, Norm(x, other));
      if Stronger(StrengthOf(w, other), StrengthOf(v, first)) { best := other; }
      assert forall y :: y in ids ==> y == first || y in ids - {first};
    }
  }

  lemma DecisionExists(alerts: Alerts, cfg: GroupingConfig, x: nat) returns (d: Decision)
    requires Scorable(cfg) && x in alerts
    ensures IsDecision(alerts, cfg, NoPins, x, d)
  {
    var edges := KeptEdges(alerts, cfg, NoPins);
    var near := Neighbours(edges, alerts.Keys, x);
    var key := Least(Component(alerts.Keys, edges, x));
    if near == {} {
      d := Decision(x, key, Alone);
    } else {
      var best := StrongestExists(alerts, cfg, near, x);
      d := Decision(x, key, JudgePair(alerts, cfg, Norm(x, best)));
    }
  }

  lemma PlanExists(cases: map<CaseId, CaseRow>, hits: set<CaseId>, newId: CaseId) returns (plan: Plan)
    ensures IsPlan(cases, hits, newId, plan)
  {
    var open := WithStatus(cases, hits, false);
    if open == {} {
      plan := Plan(newId, {}, WithStatus(cases, hits, true), true);
    } else {
      var c := Store.SurvivorExists(cases, open);
      plan := Plan(c, open - {c}, WithStatus(cases, hits, true), false);
    }
  }

  /** The candidate query always has an answer. */
  lemma AnswerExists(cfg: GroupingConfig, alerts: map<AlertId, AlertRow>, a: AlertId) returns (answer: set<AlertId>)
    requires a in alerts
    ensures IsAnswer(alerts, cfg, a, answer)
  {
    hide *;
    var all := Eligible(alerts, cfg, a);
    var rows, rest := [], all;
    Store.TakenNone(alerts, cfg, a);
    while |rows| < cfg.cap && rest != {}
      invariant Store.Taken(alerts, all, rows, rest) && |rows| <= cfg.cap
      decreases |rest|
    {
      Store.TakenRest(alerts, all, rows, rest);
      var r := Store.LatestExists(alerts, rest);
      assert forall y :: y in rest ==> Store.Later(alerts, r, y) by { LaterThanAll(alerts, rest, r); }
      Store.TakeOne(alerts, all, rows, rest, r);
      rows, rest := rows + [r], rest - {r};
    }
    Store.TakenIsAnswer(alerts, cfg, a, rows, rest);
    answer := Elements(rows);
  }

  lemma LaterThanAll(alerts: map<AlertId, AlertRow>, among: set<AlertId>, r: AlertId)
    requires among <= alerts.Keys && r in among
    requires forall y :: y in among ==> alerts[y].body.eventTime <= alerts[r].body.eventTime
    ensures forall y :: y in among ==> Store.Later(alerts, r, y)
  {
  }

  /** Grouping an ungrouped alert under any query answer has a result. */
  lemma GroupingWorks(cfg: GroupingConfig, db: State, a: AlertId, rows: set<AlertId>, newId: CaseId,
                      createdAt: nat, actor: string) returns (plan: Plan, d: Decision, after: State)
    requires Scorable(cfg) && Inv(cfg, db) && a in db.alerts && db.alerts[a].caseId.None? && newId !in db.cases
    requires IsAnswer(db.alerts, cfg, a, rows)
    ensures Groups(db, cfg, a, rows, newId, createdAt, actor, plan, d, after)
    ensures plan.created || plan.target in db.cases
  {
    hide Inv, IsAnswer, Regroup, IsDecision, Matched;
    assert a in RunOn(db.alerts, rows + {a});
    plan := PlanExists(db.cases, Matched(db.alerts, cfg, a, rows), newId);
    PlanIsGood(db.cases, Matched(db.alerts, cfg, a, rows), newId, plan);
    d := DecisionExists(RunOn(db.alerts, rows + {a}), cfg, a);
    after := Regroup(db, cfg, plan, a, d.verdict, createdAt, actor);
  }

  lemma GroupsIsNext(cfg: GroupingConfig, db: State, a: AlertId, rows: set<AlertId>, newId: CaseId,
                     createdAt: nat, actor: string, plan: Plan, d: Decision, after: State)
    requires Scorable(cfg) && Groups(db, cfg, a, rows, newId, createdAt, actor, plan, d, after)
    ensures Next(cfg, db, GroupAlert(a, rows, newId, createdAt, actor), after)
  {
    hide Groups;
  }
}
