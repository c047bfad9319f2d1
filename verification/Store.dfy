/** The tables as mutable state, and the services that update them step by step. */
module Store {
  import opened Prelude
  import opened Graph
  import opened Config
  import opened Scoring
  import opened Blocking
  import opened Engine
  import opened Lifecycle
  import opened Db
  import opened Invariants
  import History

  // ---- The intermediate states of a grouping call --------------------------

  /** The plan with only some of its losers merged yet. */
  function SoFar(plan: Plan, done: set<CaseId>): Plan { plan.(losers := done) }

  function AlertsSoFar(alerts: map<AlertId, AlertRow>, plan: Plan): map<AlertId, AlertRow> {
    if alerts == map[] then map[] else
    map x | x in alerts ::
      if alerts[x].caseId.Some? then alerts[x].(caseId := Some(Home(plan, alerts[x].caseId.value))) else alerts[x]
  }

  function EventsSoFar(cases: map<CaseId, CaseRow>, plan: Plan, flags: set<CaseId>, a: AlertId, c: CaseId): seq<Event> {
    (if c in flags then [ReviewFlagged(a)] else [])
    + (if c in plan.losers && c in cases then [MergedAway(cases[c].status, plan.target)] else [])
  }

  function StreamsSoFar(db: State, plan: Plan, flags: set<CaseId>, a: AlertId): map<CaseId, seq<Event>> {
    var touched := db.streams.Keys + flags + plan.losers;
    if touched == {} then map[] else
    map c | c in touched :: Stream(db, c) + EventsSoFar(db.cases, plan, flags, a, c)
  }

  /** The state once the closed cases in `flags` are flagged and the losers of `plan` merged. */
  function Partial(db: State, plan: Plan, flags: set<CaseId>, a: AlertId): State {
    State(AlertsSoFar(db.alerts, plan), MovedCases(db.cases, plan), MovedLinks(db.links, plan),
          MovedDecisions(db.decisions, plan), MovedNotes(db.notes, plan), StreamsSoFar(db, plan, flags, a))
  }

  lemma NothingYet(db: State, plan: Plan, a: AlertId)
    ensures Partial(db, SoFar(plan, {}), {}, a) == db
  {
    assert MovedDecisions(db.decisions, SoFar(plan, {})) == db.decisions;
    forall c | c in db.streams
      ensures Stream(db, c) + EventsSoFar(db.cases, SoFar(plan, {}), {}, a, c) == db.streams[c] {}
  }

  lemma OneFlagMore(db: State, plan: Plan, flags: set<CaseId>, a: AlertId, c: CaseId)
    requires c !in flags
    ensures Partial(db, SoFar(plan, {}), flags + {c}, a) ==
      (var s := Partial(db, SoFar(plan, {}), flags, a); s.(streams := Record(s.streams, c, ReviewFlagged(a))))
  {
    var p := SoFar(plan, {});
    hide AlertsSoFar, MovedCases, MovedLinks, MovedDecisions, MovedNotes;
    var s, t := StreamsSoFar(db, p, flags, a), StreamsSoFar(db, p, flags + {c}, a);
    assert t == Record(s, c, ReviewFlagged(a)) by {
      assert StreamIn(s, c) == Stream(db, c);
      assert t[c] == Stream(db, c) + [ReviewFlagged(a)];
    }
  }

  /** Merging one loser: four table updates, its row, its audit event. */
  function Merge(db: State, loser: CaseId, survivor: CaseId): State
    requires loser in db.cases
  {
    var one := Plan(survivor, {loser}, {}, false);
    State(AlertsSoFar(db.alerts, one), MovedCases(db.cases, one), MovedLinks(db.links, one),
          MovedDecisions(db.decisions, one), MovedNotes(db.notes, one),
          Record(db.streams, loser, MergedAway(db.cases[loser].status, survivor)))
  }

  // The bulk updates of a merge: every row of the loser gets the survivor's id.

  function UpdateAlerts(alerts: map<AlertId, AlertRow>, from: CaseId, to: CaseId): map<AlertId, AlertRow> {
    if alerts == map[] then map[]
    else map x | x in alerts :: if alerts[x].caseId == Some(from) then alerts[x].(caseId := Some(to)) else alerts[x]
  }

  function UpdateLinks(links: map<AlertId, LinkRow>, from: CaseId, to: CaseId): map<AlertId, LinkRow> {
    if links == map[] then map[]
    else map x | x in links :: if links[x].caseId == from then links[x].(caseId := to) else links[x]
  }

  function UpdateNotes(notes: map<NoteId, NoteRow>, from: CaseId, to: CaseId): map<NoteId, NoteRow> {
    if notes == map[] then map[]
    else map n | n in notes :: if notes[n].caseId == from then notes[n].(caseId := to) else notes[n]
  }

  function UpdateDecisions(decisions: seq<DecisionRow>, from: CaseId, to: CaseId): seq<DecisionRow> {
    seq(|decisions|, i requires 0 <= i < |decisions| =>
      if decisions[i].caseId == from then decisions[i].(caseId := to) else decisions[i])
  }

  lemma UpdatesAreMoves(db: State, from: CaseId, to: CaseId)
    ensures var one := Plan(to, {from}, {}, false);
            && UpdateAlerts(db.alerts, from, to) == AlertsSoFar(db.alerts, one)
            && UpdateLinks(db.links, from, to) == MovedLinks(db.links, one)
            && UpdateNotes(db.notes, from, to) == MovedNotes(db.notes, one)
            && UpdateDecisions(db.decisions, from, to) == MovedDecisions(db.decisions, one)
            && (from in db.cases ==>
                  db.cases[from := db.cases[from].(status := Merged, canonical := Some(to))]
                    == MovedCases(db.cases, one))
  {
  }

  lemma MergeTables(db: State, plan: Plan, done: set<CaseId>, c: CaseId)
    requires plan.target !in done + {c} && c !in done
    ensures var p, q, one := SoFar(plan, done), SoFar(plan, done + {c}), Plan(plan.target, {c}, {}, false);
            && AlertsSoFar(AlertsSoFar(db.alerts, p), one) == AlertsSoFar(db.alerts, q)
            && MovedLinks(MovedLinks(db.links, p), one) == MovedLinks(db.links, q)
            && MovedNotes(MovedNotes(db.notes, p), one) == MovedNotes(db.notes, q)
            && MovedCases(MovedCases(db.cases, p), one) == MovedCases(db.cases, q)
            && MovedDecisions(MovedDecisions(db.decisions, p), one) == MovedDecisions(db.decisions, q)
  {
  }

  lemma LoserStream(db: State, plan: Plan, flags: set<CaseId>, done: set<CaseId>, a: AlertId, c: CaseId)
    requires plan.target !in done + {c} && c !in done && c !in flags && c in db.cases
    ensures StreamsSoFar(db, SoFar(plan, done + {c}), flags, a) ==
      Record(StreamsSoFar(db, SoFar(plan, done), flags, a), c, MergedAway(db.cases[c].status, plan.target))
  {
    var s, t := StreamsSoFar(db, SoFar(plan, done), flags, a), StreamsSoFar(db, SoFar(plan, done + {c}), flags, a);
    assert StreamIn(s, c) == Stream(db, c);
    assert t[c] == Stream(db, c) + [MergedAway(db.cases[c].status, plan.target)];
    forall d | d in t && d != c ensures d in s && t[d] == s[d] {}
  }

  lemma OneLoserMore(db: State, plan: Plan, flags: set<CaseId>, done: set<CaseId>, a: AlertId, c: CaseId)
    requires plan.target !in done + {c} && c !in done && c !in flags && c in db.cases
    ensures c in Partial(db, SoFar(plan, done), flags, a).cases
    ensures Partial(db, SoFar(plan, done + {c}), flags, a) ==
      Merge(Partial(db, SoFar(plan, done), flags, a), c, plan.target)
  {
    MergeTables(db, plan, done, c);
    LoserStream(db, plan, flags, done, a, c);
    assert c in MovedCases(db.cases, SoFar(plan, done)) && MovedCases(db.cases, SoFar(plan, done))[c] == db.cases[c];
    hide AlertsSoFar, MovedLinks, MovedDecisions, MovedNotes, MovedCases, StreamsSoFar, Record;
  }

  /** The target's row exists: a new case is inserted, an old one is left alone. */
  function Opened(s: State, plan: Plan, a: AlertId, createdAt: nat): State
    requires a in s.alerts
  {
    if plan.created then s.(cases := s.cases[plan.target := NewCase(createdAt).(riskScore := Score(s.alerts[a].risk))])
    else s
  }

  /** The closing steps: assign the alert, add decision and link, recompute the case, audit. */
  function Finish(s: State, cfg: GroupingConfig, target: CaseId, created: bool, a: AlertId, v: Verdict,
                  actor: string): State
    requires a in s.alerts && target in s.cases
  {
    var alerts := s.alerts[a := s.alerts[a].(caseId := Some(target))];
    var links := s.links[a := LinkRow(target, |s.decisions|, actor)];
    var risk := AggregateRisk(MemberScores(alerts, target), cfg.aggregation);
    State(alerts,
          s.cases[target := TargetRow(s.cases[target], created, risk, |Db.Linked(links, target)|)],
          links,
          s.decisions + [DecisionRow(a, target, v)],
          s.notes,
          Record(s.streams, target, AlertLinked(a, v.how)))
  }

  lemma FinishAlerts(alerts: map<AlertId, AlertRow>, plan: Plan, a: AlertId)
    requires a in alerts && alerts[a].caseId.None?
    ensures var s := AlertsSoFar(alerts, plan);
            a in s && s[a := s[a].(caseId := Some(plan.target))] == MovedAlerts(alerts, plan, a)
  {
  }

  lemma FinishCases(cases: map<CaseId, CaseRow>, plan: Plan)
    requires GoodPlan(cases, plan)
    ensures !plan.created ==>
      plan.target in MovedCases(cases, plan) && MovedCases(cases, plan)[plan.target] == cases[plan.target]
  {
  }

  /** The step-by-step call has exactly the effect the invariants were proved about. */
  lemma FinishIsRegroup(db: State, cfg: GroupingConfig, plan: Plan, a: AlertId, v: Verdict, createdAt: nat,
                        actor: string)
    requires GoodPlan(db.cases, plan) && (plan.created || plan.target in db.cases)
    requires a in db.alerts && db.alerts[a].caseId.None?
    ensures var s := Partial(db, plan, plan.flagged, a);
            && a in s.alerts && plan.target in Opened(s, plan, a, createdAt).cases
            && Finish(Opened(s, plan, a, createdAt), cfg, plan.target, plan.created, a, v, actor)
              == Regroup(db, cfg, plan, a, v, createdAt, actor)
  {
    hide AggregateRisk, MemberScores, Db.Linked, AlertsSoFar, MovedAlerts, MovedLinks, MovedNotes, MovedCases,
      Record, StreamsSoFar, MovedStreams, GoodPlan;
    FinishAlerts(db.alerts, plan, a);
    FinishCases(db.cases, plan);
    FinishStreams(db, plan, a, v.how);
    var s := Partial(db, plan, plan.flagged, a);
    var t, r := Finish(Opened(s, plan, a, createdAt), cfg, plan.target, plan.created, a, v, actor),
                Regroup(db, cfg, plan, a, v, createdAt, actor);
    assert t.alerts == r.alerts && t.links == r.links && t.streams == r.streams;
    assert t.cases[plan.target] == r.cases[plan.target];
    assert t.cases == r.cases;
  }

  lemma FinishStream(db: State, plan: Plan, a: AlertId, how: Method, c: CaseId)
    requires GoodPlan(db.cases, plan)
    ensures EventsSoFar(db.cases, plan, plan.flagged, a, c) + (if c == plan.target then [AlertLinked(a, how)] else [])
      == NewEvents(db.cases, plan, a, how, c)
  {
  }

  lemma FinishStreams(db: State, plan: Plan, a: AlertId, how: Method)
    requires GoodPlan(db.cases, plan)
    ensures Record(StreamsSoFar(db, plan, plan.flagged, a), plan.target, AlertLinked(a, how)) ==
      MovedStreams(db, plan, a, how)
  {
    var p, t := StreamsSoFar(db, plan, plan.flagged, a), MovedStreams(db, plan, a, how);
    var s := Record(p, plan.target, AlertLinked(a, how));
    assert StreamIn(p, plan.target) == Stream(db, plan.target);
    hide GoodPlan, NewEvents, EventsSoFar;
    forall c | c in t ensures s[c] == t[c] {
      FinishStream(db, plan, a, how, c);
      assert c != plan.target ==> s[c] == p[c];
    }
  }

  // ---- Choices the code makes ----------------------------------------------

  lemma {:induction false} LatestExists(alerts: map<AlertId, AlertRow>, among: set<AlertId>) returns (r: AlertId)
    requires among != {} && among <= alerts.Keys
    ensures r in among && forall y :: y in among ==> alerts[y].body.eventTime <= alerts[r].body.eventTime
  {
    r :| r in among;
    if among != {r} {
      var s := LatestExists(alerts, among - {r});
      var first := r;
      if alerts[r].body.eventTime < alerts[s].body.eventTime { r := s; }
      assert forall y :: y in among ==> y == first || y in among - {first};
    }
  }

  lemma {:induction false} SurvivorExists(cases: map<CaseId, CaseRow>, among: set<CaseId>) returns (c: CaseId)
    requires among != {} && among <= cases.Keys
    ensures IsSurvivor(cases, among, c)
  {
    c :| c in among;
    if among != {c} {
      var first := c;
      var d := SurvivorExists(cases, among - {c});
      if Before(cases, d, c) { c := d; }
      assert forall y :: y in among ==> y == first || y in among - {first};
    }
  }

  method PickSurvivor(cases: map<CaseId, CaseRow>, among: set<CaseId>) returns (c: CaseId)
    requires among != {} && among <= cases.Keys
    ensures IsSurvivor(cases, among, c)
  {
    ghost var w := SurvivorExists(cases, among);
    c :| c in among && forall d :: d in among && d != c ==> Before(cases, c, d);
  }

  /** The engine input: the new alert first, then its candidates. */
  function EngineInput(alerts: map<AlertId, AlertRow>, a: AlertId, rows: seq<AlertId>): seq<EngineAlert>
    requires a in alerts && forall r :: r in rows ==> r in alerts
  {
    [alerts[a].body] + seq(|rows|, i requires 0 <= i < |rows| => alerts[rows[i]].body)
  }

  ghost predicate Keyed(alerts: map<AlertId, AlertRow>) {
    forall x :: x in alerts ==> alerts[x].body.id == x
  }

  ghost predicate NoRepeats(rows: seq<AlertId>) {
    forall i, j :: 0 <= i < j < |rows| ==> rows[i] != rows[j]
  }

  lemma InputIds(alerts: map<AlertId, AlertRow>, a: AlertId, rows: seq<AlertId>)
    requires Keyed(alerts) && a in alerts && a !in rows && NoRepeats(rows) && forall r :: r in rows ==> r in alerts
    ensures DistinctIds(EngineInput(alerts, a, rows))
  {
    var list := EngineInput(alerts, a, rows);
    forall i | 0 <= i < |list| ensures list[i].id == if i == 0 then a else rows[i - 1] {}
  }

  lemma InputHolds(alerts: map<AlertId, AlertRow>, a: AlertId, rows: seq<AlertId>, x: AlertId)
    requires a in alerts && forall r :: r in rows ==> r in alerts
    requires x in Elements(rows) + {a}
    ensures alerts[x].body in EngineInput(alerts, a, rows)
  {
    var list := EngineInput(alerts, a, rows);
    if x == a {
      assert list[0] == alerts[x].body;
    } else {
      var i :| 0 <= i < |rows| && rows[i] == x;
      assert list[i + 1] == alerts[x].body;
    }
  }

  lemma InputOnly(alerts: map<AlertId, AlertRow>, a: AlertId, rows: seq<AlertId>, e: EngineAlert)
    requires Keyed(alerts) && a in alerts && forall r :: r in rows ==> r in alerts
    requires e in EngineInput(alerts, a, rows)
    ensures e.id in Elements(rows) + {a} && e.id in alerts && e == alerts[e.id].body
  {
    var list := EngineInput(alerts, a, rows);
    var i :| 0 <= i < |list| && list[i] == e;
    if i > 0 { assert e == alerts[rows[i - 1]].body && rows[i - 1] in rows; }
  }

  lemma InputIsRun(alerts: map<AlertId, AlertRow>, a: AlertId, rows: seq<AlertId>)
    requires Keyed(alerts) && a in alerts && forall r :: r in rows ==> r in alerts
    requires DistinctIds(EngineInput(alerts, a, rows))
    ensures ById(EngineInput(alerts, a, rows)) == RunOn(alerts, Elements(rows) + {a})
  {
    var list := EngineInput(alerts, a, rows);
    hide EngineInput, DistinctIds;
    var m, ids := ById(list), Elements(rows) + {a};
    forall x | x in ids ensures x in alerts && x in m {
      assert x in rows || x == a;
      InputHolds(alerts, a, rows, x);
    }
    hide ById;
    forall x | x in m ensures x in ids && x in alerts && m[x] == alerts[x].body { InputOnly(alerts, a, rows, m[x]); }
  }

  /** `byAlert` holds the decisions of the first `i` ids. */
  ghost predicate Indexed(run: Alerts, cfg: GroupingConfig, ids: seq<nat>, i: nat, byAlert: map<AlertId, Decision>)
    requires Scorable(cfg) && i <= |ids|
  {
    && byAlert.Keys == Elements(ids[..i])
    && forall x :: x in byAlert ==> IsDecision(run, cfg, NoPins, x, byAlert[x])
  }

  lemma DecisionNames(run: Alerts, cfg: GroupingConfig, x: AlertId, d: Decision)
    requires Scorable(cfg) && IsDecision(run, cfg, NoPins, x, d)
    ensures d.alertId == x && x in run
  {
  }

  lemma IndexedMore(run: Alerts, cfg: GroupingConfig, ids: seq<nat>, i: nat, byAlert: map<AlertId, Decision>,
                    d: Decision)
    requires Scorable(cfg) && i < |ids| && Indexed(run, cfg, ids, i, byAlert) && IsDecision(run, cfg, NoPins, ids[i], d)
    ensures d.alertId == ids[i] && Indexed(run, cfg, ids, i + 1, byAlert[d.alertId := d])
  {
    hide IsDecision;
    DecisionNames(run, cfg, ids[i], d);
    assert ids[..i + 1] == ids[..i] + [ids[i]];
  }

  method IndexDecisions(run: Alerts, cfg: GroupingConfig, ds: seq<Decision>) returns (byAlert: map<AlertId, Decision>)
    requires Scorable(cfg) && IsResult(run, cfg, NoPins, ds)
    ensures byAlert.Keys == run.Keys
    ensures forall x :: x in byAlert ==> IsDecision(run, cfg, NoPins, x, byAlert[x])
  {
    hide *;
    ghost var ids := Ascending(run.Keys);
    ResultDecides(run, cfg, ids, ds);
    byAlert := map[];
    IndexedNone(run, cfg, ids);
    for i := 0 to |ds|
      invariant Indexed(run, cfg, ids, i, byAlert)
    {
      IndexedMore(run, cfg, ids, i, byAlert, ds[i]);
      byAlert := byAlert[ds[i].alertId := ds[i]];
    }
    IndexedAll(run, cfg, ids, byAlert);
    assert Elements(ids) == run.Keys;
  }

  lemma ResultDecides(run: Alerts, cfg: GroupingConfig, ids: seq<nat>, ds: seq<Decision>)
    requires Scorable(cfg) && IsResult(run, cfg, NoPins, ds) && ids == Ascending(run.Keys)
    ensures |ds| == |ids| && forall i :: 0 <= i < |ds| ==> IsDecision(run, cfg, NoPins, ids[i], ds[i])
  {
    hide IsDecision, Ascending;
  }

  lemma IndexedNone(run: Alerts, cfg: GroupingConfig, ids: seq<nat>)
    requires Scorable(cfg)
    ensures Indexed(run, cfg, ids, 0, map[])
  {
    hide IsDecision;
  }

  lemma IndexedAll(run: Alerts, cfg: GroupingConfig, ids: seq<nat>, byAlert: map<AlertId, Decision>)
    requires Scorable(cfg) && Indexed(run, cfg, ids, |ids|, byAlert)
    ensures byAlert.Keys == Elements(ids) && forall x :: x in byAlert ==> IsDecision(run, cfg, NoPins, x, byAlert[x])
  {
    hide IsDecision;
    assert ids[..|ids|] == ids;
  }

  /** Some of the first `i` rows is connected to `a` and lies in case `c`. */
  ghost predicate HitBefore(alerts: map<AlertId, AlertRow>, edges: set<Pair>, a: AlertId, rows: seq<AlertId>, i: nat,
                            c: CaseId) {
    exists k :: 0 <= k < i && k < |rows| && rows[k] in alerts && alerts[rows[k]].caseId == Some(c)
      && Connected(edges, a, rows[k])
  }

  lemma HitsAreMatched(alerts: map<AlertId, AlertRow>, cfg: GroupingConfig, a: AlertId, rows: seq<AlertId>, c: CaseId)
    requires Scorable(cfg)
    ensures HitBefore(alerts, FreeEdges(RunOn(alerts, Elements(rows) + {a}), cfg), a, rows, |rows|, c) <==>
      c in Matched(alerts, cfg, a, Elements(rows))
  {
    var edges := FreeEdges(RunOn(alerts, Elements(rows) + {a}), cfg);
    hide FreeEdges, RunOn, Connected;
    if c in Matched(alerts, cfg, a, Elements(rows)) {
      var x :| x in Elements(rows) && x in alerts && alerts[x].caseId.Some? && alerts[x].caseId.value == c
        && Connected(edges, a, x);
      var k :| 0 <= k < |rows| && rows[k] == x;
    }
  }

  lemma HitStep(alerts: map<AlertId, AlertRow>, edges: set<Pair>, a: AlertId, rows: seq<AlertId>, i: nat, same: bool,
                c: CaseId)
    requires i < |rows| && rows[i] in alerts && alerts[rows[i]].caseId.Some?
    requires same <==> Connected(edges, a, rows[i])
    ensures HitBefore(alerts, edges, a, rows, i + 1, c) <==>
      (HitBefore(alerts, edges, a, rows, i, c) || (same && c == alerts[rows[i]].caseId.value))
  {
    hide Connected;
  }

  lemma NoHitYet(alerts: map<AlertId, AlertRow>, edges: set<Pair>, a: AlertId, rows: seq<AlertId>)
    ensures forall c: CaseId :: !HitBefore(alerts, edges, a, rows, 0, c)
  {
  }

  lemma FreeIsKept(run: Alerts, cfg: GroupingConfig)
    requires Scorable(cfg)
    ensures FreeEdges(run, cfg) == KeptEdges(run, cfg, NoPins)
  {
  }

  /** The cases of the candidates that share the new alert's group key. */
  method MatchCases(alerts: map<AlertId, AlertRow>, cfg: GroupingConfig, a: AlertId, rows: seq<AlertId>,
                    byAlert: map<AlertId, Decision>) returns (matched: set<CaseId>)
    requires Scorable(cfg) && a in alerts && forall r :: r in rows ==> r in alerts && alerts[r].caseId.Some?
    requires a in byAlert && forall r :: r in rows ==> r in byAlert
    requires forall x :: x in byAlert ==> IsDecision(RunOn(alerts, Elements(rows) + {a}), cfg, NoPins, x, byAlert[x])
    ensures matched == Matched(alerts, cfg, a, Elements(rows))
  {
    hide *;
    ghost var run := RunOn(alerts, Elements(rows) + {a});
    ghost var edges := FreeEdges(run, cfg);
    FreeIsKept(run, cfg);
    NoHitYet(alerts, edges, a, rows);
    matched := {};
    for i := 0 to |rows|
      invariant forall c: CaseId :: c in matched <==> HitBefore(alerts, edges, a, rows, i, c)
    {
      var key, other := byAlert[a].groupKey, byAlert[rows[i]].groupKey;
      GroupKeysAreComponents(run, cfg, NoPins, a, rows[i], byAlert[a], byAlert[rows[i]]);
      forall c: CaseId
        ensures HitBefore(alerts, edges, a, rows, i + 1, c) <==>
          (HitBefore(alerts, edges, a, rows, i, c) || (key == other && c == alerts[rows[i]].caseId.value))
      {
        HitStep(alerts, edges, a, rows, i, key == other, c);
      }
      if key == other {
        matched := matched + {alerts[rows[i]].caseId.value};
      }
    }
    ghost var all := Matched(alerts, cfg, a, Elements(rows));
    forall c: CaseId ensures c in matched <==> c in all {
      HitsAreMatched(alerts, cfg, a, rows, c);
    }
    assert matched == all;
  }

  // ---- The tables ----------------------------------------------------------

  class CaseStore {
    var alerts: map<AlertId, AlertRow>
    var cases: map<CaseId, CaseRow>
    var links: map<AlertId, LinkRow>
    var decisions: seq<DecisionRow>
    var notes: map<NoteId, NoteRow>
    var streams: map<CaseId, seq<Event>>

    function Snapshot(): State reads this { State(alerts, cases, links, decisions, notes, streams) }

    constructor ()
      ensures Snapshot() == Empty
    {
      alerts, cases, links, decisions, notes, streams := map[], map[], map[], [], map[], map[];
    }

    method RecordEvent(c: CaseId, e: Event)
      modifies this`streams
      ensures streams == Record(old(streams), c, e)
    {
      streams := streams[c := StreamIn(streams, c) + [e]];
    }

    /** Insert a new alert, ungrouped. */
    method PersistAlert(cfg: GroupingConfig, id: AlertId, body: EngineAlert, risk: Option<nat>)
      requires Scorable(cfg) && Inv(cfg, Snapshot()) && id !in alerts && body.id == id
      modifies this`alerts
      ensures alerts == old(alerts)[id := AlertRow(body, risk, None)]
      ensures Next(cfg, old(Snapshot()), Persist(id, body, risk), Snapshot())
      ensures Inv(cfg, Snapshot())
    {
      hide Inv;
      ghost var before := Snapshot();
      alerts := alerts[id := AlertRow(body, risk, None)];
      NextKeepsInv(cfg, before, Persist(id, body, risk), Snapshot());
    }

    /** Ingest one new alert: insert it and group it, in one transaction. */
    method IngestOne(cfg: GroupingConfig, id: AlertId, body: EngineAlert, risk: Option<nat>, newId: CaseId,
                     createdAt: nat, actor: string) returns (target: CaseId, ghost middle: State, ghost op: Op)
      requires Scorable(cfg) && Inv(cfg, Snapshot()) && id !in alerts && body.id == id && newId !in cases
      modifies this
      ensures Inv(cfg, Snapshot())
      ensures Next(cfg, old(Snapshot()), Persist(id, body, risk), middle)
      ensures op.GroupAlert? && op.a == id && Next(cfg, middle, op, Snapshot())
      ensures id in alerts && alerts[id].caseId == Some(target) && Live(cases, target)
    {
      hide Inv, Next, Groups;
      PersistAlert(cfg, id, body, risk);
      middle := Snapshot();
      ghost var rows, plan, d;
      target, rows, plan, d := ApplyGroupingForAlert(cfg, id, newId, createdAt, actor);
      op := GroupAlert(id, rows, newId, createdAt, actor);
      GroupedThere(cfg, middle, id, rows, newId, createdAt, actor, plan, d, Snapshot());
    }

    // ---- Candidates --------------------------------------------------------

    /** The latest eligible rows, newest first, at most `cap` of them. */
    method CandidateQuery(cfg: GroupingConfig, a: AlertId) returns (rows: seq<AlertId>)
      requires a in alerts
      ensures IsAnswer(alerts, cfg, a, Elements(rows)) && NoRepeats(rows) && NewestFirst(alerts, rows)
      ensures |rows| <= cfg.cap && forall x :: x in rows ==> x in Eligible(alerts, cfg, a)
      ensures forall i, j :: 0 <= i <= j < |rows| ==>
        rows[i] in alerts && rows[j] in alerts && alerts[rows[j]].body.eventTime <= alerts[rows[i]].body.eventTime
      ensures forall x, y :: x in rows && y in Eligible(alerts, cfg, a) && y !in rows ==>
        x in alerts && y in alerts && alerts[y].body.eventTime <= alerts[x].body.eventTime
      ensures |rows| < cfg.cap ==> forall y :: y in Eligible(alerts, cfg, a) ==> y in rows
    {
      hide *;
      var all := Eligible(alerts, cfg, a);
      rows := [];
      if forall f :: f in BlockingFields ==> ValueOf(alerts[a].body, f).None? {
        NoFilterNoRow(alerts, cfg, a);
        TakenNone(alerts, cfg, a);
        TakenIsAnswer(alerts, cfg, a, rows, all);
        AnswerMeans(alerts, cfg, a, rows);
        return;
      }
      var rest := all;
      TakenNone(alerts, cfg, a);
      while |rows| < cfg.cap && rest != {}
        invariant Taken(alerts, all, rows, rest) && |rows| <= cfg.cap
        decreases |rest|
      {
        TakenRest(alerts, all, rows, rest);
        var r := PickLatest(alerts, rest);
        TakeOne(alerts, all, rows, rest, r);
        rows, rest := rows + [r], rest - {r};
      }
      TakenIsAnswer(alerts, cfg, a, rows, rest);
      AnswerMeans(alerts, cfg, a, rows);
    }

    // ---- Grouping ----------------------------------------------------------

    method FlagClosed(flagged: set<CaseId>, a: AlertId, ghost plan: Plan, ghost before: State)
      requires Snapshot() == before
      modifies this`streams
      ensures Snapshot() == Partial(before, SoFar(plan, {}), flagged, a)
    {
      NothingYet(before, plan, a);
      var todo := flagged;
      while todo != {}
        invariant todo <= flagged && Snapshot() == Partial(before, SoFar(plan, {}), flagged - todo, a)
      {
        var c :| c in todo;
        OneFlagMore(before, plan, flagged - todo, a, c);
        assert flagged - (todo - {c}) == (flagged - todo) + {c};
        hide *;
        RecordEvent(c, ReviewFlagged(a));
        todo := todo - {c};
      }
      assert flagged - todo == flagged;
    }

    /** Move everything of `loser` to `survivor` and retire the loser. */
    method MergeOne(loser: CaseId, survivor: CaseId)
      requires loser in cases
      modifies this
      ensures Snapshot() == Merge(old(Snapshot()), loser, survivor)
    {
      UpdatesAreMoves(Snapshot(), loser, survivor);
      hide UpdateAlerts, UpdateLinks, UpdateNotes, UpdateDecisions, AlertsSoFar, MovedLinks, MovedNotes,
        MovedDecisions, MovedCases;
      var oldStatus := cases[loser].status;
      alerts := UpdateAlerts(alerts, loser, survivor);
      links := UpdateLinks(links, loser, survivor);
      notes := UpdateNotes(notes, loser, survivor);
      decisions := UpdateDecisions(decisions, loser, survivor);
      cases := cases[loser := cases[loser].(status := Merged, canonical := Some(survivor))];
      RecordEvent(loser, MergedAway(oldStatus, survivor));
    }

    method MergeLosers(losers: set<CaseId>, survivor: CaseId, a: AlertId, ghost plan: Plan, ghost before: State)
      requires plan.target == survivor && plan.losers == losers && survivor !in losers && losers !! plan.flagged
      requires losers <= before.cases.Keys
      requires Snapshot() == Partial(before, SoFar(plan, {}), plan.flagged, a)
      modifies this
      ensures Snapshot() == Partial(before, plan, plan.flagged, a)
    {
      var todo := losers;
      assert losers - todo == {};
      while todo != {}
        invariant todo <= losers && Snapshot() == Partial(before, SoFar(plan, losers - todo), plan.flagged, a)
      {
        var c :| c in todo;
        OneLoserMore(before, plan, plan.flagged, losers - todo, a, c);
        assert losers - (todo - {c}) == (losers - todo) + {c};
        hide *;
        MergeOne(c, survivor);
        todo := todo - {c};
      }
      assert losers - todo == losers;
    }

    /** Assign the alert, write its decision and link, recompute the case, audit. */
    method LinkAlert(cfg: GroupingConfig, a: AlertId, target: CaseId, v: Verdict, created: bool, actor: string)
      requires a in alerts && target in cases
      modifies this
      ensures Snapshot() == Finish(old(Snapshot()), cfg, target, created, a, v, actor)
      ensures decisions == old(decisions) + [DecisionRow(a, target, v)]
      ensures links == old(links)[a := LinkRow(target, |old(decisions)|, actor)]
      ensures alerts == old(alerts)[a := old(alerts)[a].(caseId := Some(target))] && notes == old(notes)
    {
      alerts := alerts[a := alerts[a].(caseId := Some(target))];
      decisions := decisions + [DecisionRow(a, target, v)];
      links := links[a := LinkRow(target, |decisions| - 1, actor)];
      var row := cases[target];
      row := row.(riskScore := AggregateRisk(MemberScores(alerts, target), cfg.aggregation));
      row := row.(alertCount := |Db.Linked(links, target)|);
      if !created { row := row.(version := row.version + 1); }
      cases := cases[target := row];
      RecordEvent(target, AlertLinked(a, v.how));
    }

    /** Create, attach or merge: the alert ends in one live case, everything of the merged cases with it. */
    method Resolve(cfg: GroupingConfig, a: AlertId, matched: set<CaseId>, v: Verdict, newId: CaseId, createdAt: nat,
                   actor: string, ghost before: State) returns (target: CaseId, ghost plan: Plan)
      requires Snapshot() == before && a in alerts && alerts[a].caseId.None? && newId !in cases
      modifies this
      ensures IsPlan(before.cases, matched, newId, plan) && target == plan.target
      ensures plan.created || plan.target in before.cases
      ensures Snapshot() == Regroup(before, cfg, plan, a, v, createdAt, actor)
    {
      hide IsPlan, Regroup, Partial, Opened, Finish, SoFar;
      var chosen := MakePlan(matched, newId);
      plan := chosen;
      target := chosen.target;
      assert Snapshot() == before;
      FinishIsRegroup(before, cfg, plan, a, v, createdAt, actor);
      FlagClosed(chosen.flagged, a, plan, before);
      MergeLosers(chosen.losers, target, a, plan, before);
      OpenTarget(chosen, a, createdAt);
      LinkAlert(cfg, a, target, v, chosen.created, actor);
    }

    method MakePlan(matched: set<CaseId>, newId: CaseId) returns (plan: Plan)
      requires newId !in cases
      ensures IsPlan(cases, matched, newId, plan) && GoodPlan(cases, plan)
      ensures (plan.created || plan.target in cases) && plan.target !in plan.losers
      ensures plan.losers <= cases.Keys && plan.losers !! plan.flagged
    {
      var flagged, open := WithStatus(cases, matched, true), WithStatus(cases, matched, false);
      if open == {} {
        plan := Plan(newId, {}, flagged, true);
      } else {
        var survivor := PickSurvivor(cases, open);
        plan := Plan(survivor, open - {survivor}, flagged, false);
      }
      PlanIsGood(cases, matched, newId, plan);
    }

    /** Insert the new case, if one is needed. */
    method OpenTarget(plan: Plan, a: AlertId, createdAt: nat)
      requires a in alerts
      modifies this`cases
      ensures Snapshot() == Opened(old(Snapshot()), plan, a, createdAt)
    {
      if plan.created {
        cases := cases[plan.target := NewCase(createdAt).(riskScore := Score(alerts[a].risk))];
      }
    }

    /** Run the engine on the alert and its candidates, and read off its verdict and the cases it matched. */
    method Decide(cfg: GroupingConfig, a: AlertId, rows: seq<AlertId>) returns (matched: set<CaseId>, d: Decision)
      requires Scorable(cfg) && Keyed(alerts) && a in alerts && a !in rows && NoRepeats(rows)
      requires forall r :: r in rows ==> r in alerts && alerts[r].caseId.Some?
      ensures matched == Matched(alerts, cfg, a, Elements(rows))
      ensures IsDecision(RunOn(alerts, Elements(rows) + {a}), cfg, NoPins, a, d)
    {
      hide *;
      InputIds(alerts, a, rows);
      InputIsRun(alerts, a, rows);
      InRun(alerts, a, rows);
      var ds := Group(EngineInput(alerts, a, rows), cfg, NoPins);
      var byAlert := IndexDecisions(RunOn(alerts, Elements(rows) + {a}), cfg, ds);
      d := byAlert[a];
      matched := MatchCases(alerts, cfg, a, rows, byAlert);
    }

    method ApplyGroupingForAlert(cfg: GroupingConfig, a: AlertId, newId: CaseId, createdAt: nat, actor: string)
      returns (target: CaseId, ghost rows: set<AlertId>, ghost plan: Plan, ghost d: Decision)
      requires Scorable(cfg) && Inv(cfg, Snapshot()) && a in alerts && alerts[a].caseId.None? && newId !in cases
      modifies this
      ensures Groups(old(Snapshot()), cfg, a, rows, newId, createdAt, actor, plan, d, Snapshot())
      ensures target == plan.target && Inv(cfg, Snapshot())
      ensures a in links && links[a].caseId == target && links[a].linkedBy == actor
      ensures links[a].decision == |old(decisions)| && |decisions| == |old(decisions)| + 1
      ensures decisions[links[a].decision] == DecisionRow(a, target, d.verdict)
      ensures IsDecision(RunOn(old(alerts), rows + {a}), cfg, NoPins, a, d)
      ensures Next(cfg, old(Snapshot()), GroupAlert(a, rows, newId, createdAt, actor), Snapshot())
    {
      hide Inv, Groups, Next, IsAnswer, IsPlan, IsDecision, Matched, Regroup, RunOn, Keyed, NoRepeats,
        NewestFirst, Elements;
      ghost var before := Snapshot();
      var candidates := CandidateQuery(cfg, a);
      rows := Elements(candidates);
      CandidatesAreFine(cfg, before, a, candidates);
      var matched, dec := Decide(cfg, a, candidates);
      d := dec;
      target, plan := Resolve(cfg, a, matched, dec.verdict, newId, createdAt, actor, before);
      GroupsNow(cfg, before, a, rows, newId, createdAt, actor, plan, d, Snapshot());
      History.StoredDecision(cfg, before, a, rows, newId, createdAt, actor, plan, d, Snapshot());
    }

    // ---- Case services -----------------------------------------------------

    /** The guards and the row update of a transition; nothing changes when a guard fails. */
    method MoveCase(cfg: GroupingConfig, c: CaseId, target: Status, reason: Option<string>,
                    disposition: Option<string>, expected: Option<nat>, now: nat) returns (error: Option<Error>)
      modifies this`cases, this`streams
      ensures error == TransitionFailure(old(Snapshot()), cfg, c, target, reason, disposition, expected)
      ensures Snapshot() == if error.Some? then old(Snapshot())
        else Transition(old(Snapshot()), c, target, reason, disposition, now)
    {
      if c !in cases { return Some(CaseNotFound); }
      var row := cases[c];
      if expected.Some? && expected.value != row.version { return Some(StaleVersion); }
      var refusal := ValidateTransition(row.status, target, disposition, cfg.dispositions);
      if refusal.Some? { return Some(Refused(refusal.value)); }
      var reopening := row.status == Closed && target == InProgress;
      if reopening && reason.None? { return Some(Refused(ReopenRequiresReason)); }
      hide ValidateTransition;
      var after := row.(status := target);
      if target == Closed {
        after := after.(disposition := disposition, closedAt := Some(now));
      } else if reopening {
        after := after.(disposition := None, closedAt := None);
      }
      after := after.(version := after.version + 1);
      cases := cases[c := after];
      RecordEvent(c, Transitioned(row.status, row.disposition, after.status, after.disposition, reason));
      error := None;
    }

    method TransitionCase(cfg: GroupingConfig, c: CaseId, target: Status, reason: Option<string>,
                          disposition: Option<string>, expected: Option<nat>, now: nat) returns (error: Option<Error>)
      requires Scorable(cfg) && Inv(cfg, Snapshot())
      modifies this`cases, this`streams
      ensures error == TransitionFailure(old(Snapshot()), cfg, c, target, reason, disposition, expected)
      ensures Next(cfg, old(Snapshot()), Op.TransitionCase(c, target, reason, disposition, expected, now), Snapshot())
      ensures Inv(cfg, Snapshot())
    {
      hide Inv, Transition, TransitionFailure;
      ghost var before := Snapshot();
      error := MoveCase(cfg, c, target, reason, disposition, expected, now);
      NextKeepsInv(cfg, before, Op.TransitionCase(c, target, reason, disposition, expected, now), Snapshot());
    }

    method AssignCase(cfg: GroupingConfig, c: CaseId, assignee: Option<UserId>, active: set<UserId>)
      returns (error: Option<Error>)
      requires Scorable(cfg) && Inv(cfg, Snapshot())
      modifies this`cases, this`streams
      ensures error == AssignError(old(Snapshot()), c, assignee, active)
      ensures Next(cfg, old(Snapshot()), Op.AssignCase(c, assignee, active), Snapshot())
      ensures Inv(cfg, Snapshot())
    {
      hide Inv;
      ghost var before := Snapshot();
      error := None;
      if c !in cases {
        error := Some(CaseNotFound);
      } else if cases[c].status == Merged {
        error := Some(CaseReadOnly);
      } else if assignee.Some? && assignee.value !in active {
        error := Some(InvalidAssignee);
      } else {
        var previous := cases[c].assignee;
        cases := cases[c := cases[c].(assignee := assignee, version := cases[c].version + 1)];
        RecordEvent(c, Assigned(previous, assignee));
      }
      NextKeepsInv(cfg, before, Op.AssignCase(c, assignee, active), Snapshot());
    }

    method AddNote(cfg: GroupingConfig, n: NoteId, c: CaseId, author: UserId, text: string)
      returns (error: Option<Error>)
      requires Scorable(cfg) && Inv(cfg, Snapshot()) && n !in notes
      modifies this`notes, this`streams
      ensures error == NoteError(old(Snapshot()), c)
      ensures Next(cfg, old(Snapshot()), NoteOn(n, c, author, text), Snapshot())
      ensures Inv(cfg, Snapshot())
    {
      hide Inv;
      ghost var before := Snapshot();
      error := None;
      if c !in cases {
        error := Some(CaseNotFound);
      } else if cases[c].status == Merged {
        error := Some(CaseReadOnly);
      } else {
        notes := notes[n := NoteRow(c, author, text, false, None)];
        RecordEvent(c, NoteAdded(n));
      }
      NextKeepsInv(cfg, before, NoteOn(n, c, author, text), Snapshot());
    }

    method RetractNote(cfg: GroupingConfig, n: NoteId, why: string, user: UserId, admin: bool)
      returns (error: Option<Error>)
      requires Scorable(cfg) && Inv(cfg, Snapshot())
      modifies this`notes, this`streams
      ensures error == RetractError(old(Snapshot()), n, user, admin)
      ensures Next(cfg, old(Snapshot()), Op.RetractNote(n, why, user, admin), Snapshot())
      ensures Inv(cfg, Snapshot())
    {
      hide Inv;
      ghost var before := Snapshot();
      error := None;
      if n !in notes {
        error := Some(NoteNotFound);
      } else if user != notes[n].author && !admin {
        error := Some(RetractForbidden);
      } else if !notes[n].retracted {
        var note := notes[n];
        notes := notes[n := note.(retracted := true, reason := Some(why))];
        RecordEvent(note.caseId, NoteRetracted(n));
      }
      NextKeepsInv(cfg, before, Op.RetractNote(n, why, user, admin), Snapshot());
    }
  }

  /** The grouped alert ends in the plan's target, which is not a merged case. */
  lemma GroupedThere(cfg: GroupingConfig, db: State, a: AlertId, rows: set<AlertId>, newId: CaseId, createdAt: nat,
                     actor: string, plan: Plan, d: Decision, after: State)
    requires Scorable(cfg) && Groups(db, cfg, a, rows, newId, createdAt, actor, plan, d, after)
    ensures a in after.alerts && after.alerts[a].caseId == Some(plan.target) && Live(after.cases, plan.target)
  {
    hide Regroup, IsAnswer, IsDecision, Matched;
    PlanIsGood(db.cases, Matched(db.alerts, cfg, a, rows), newId, plan);
    GroupOnAlert(db, cfg, plan, a, d.verdict, createdAt, actor, a);
    StaysLive(db, cfg, plan, a, d.verdict, createdAt, actor, plan.target);
  }

  lemma InRun(alerts: map<AlertId, AlertRow>, a: AlertId, rows: seq<AlertId>)
    requires a in alerts && forall r :: r in rows ==> r in alerts
    ensures a in RunOn(alerts, Elements(rows) + {a})
    ensures forall r :: r in rows ==> r in RunOn(alerts, Elements(rows) + {a})
  {
    forall r | r in rows ensures r in Elements(rows) {}
  }

  lemma CandidatesAreFine(cfg: GroupingConfig, db: State, a: AlertId, rows: seq<AlertId>)
    requires Inv(cfg, db) && a in db.alerts && IsAnswer(db.alerts, cfg, a, Elements(rows))
    ensures Keyed(db.alerts) && a !in rows && forall r :: r in rows ==> r in db.alerts && db.alerts[r].caseId.Some?
  {
    forall x | x in db.alerts ensures db.alerts[x].body.id == x { assert LinkAgrees(db, x); }
    forall r | r in rows ensures r in Eligible(db.alerts, cfg, a) { assert r in Elements(rows); }
    hide Inv, LinkAgrees;
  }

  lemma GroupsNow(cfg: GroupingConfig, db: State, a: AlertId, rows: set<AlertId>, newId: CaseId, createdAt: nat,
                  actor: string, plan: Plan, d: Decision, after: State)
    requires Scorable(cfg) && Inv(cfg, db) && a in db.alerts && db.alerts[a].caseId.None? && newId !in db.cases
    requires IsAnswer(db.alerts, cfg, a, rows) && IsPlan(db.cases, Matched(db.alerts, cfg, a, rows), newId, plan)
    requires IsDecision(RunOn(db.alerts, rows + {a}), cfg, NoPins, a, d) && (plan.created || plan.target in db.cases)
    requires after == Regroup(db, cfg, plan, a, d.verdict, createdAt, actor)
    ensures Groups(db, cfg, a, rows, newId, createdAt, actor, plan, d, after)
    ensures Next(cfg, db, GroupAlert(a, rows, newId, createdAt, actor), after) && Inv(cfg, after)
  {
    hide Inv, IsAnswer, IsPlan, IsDecision, Regroup, Matched;
    assert Groups(db, cfg, a, rows, newId, createdAt, actor, plan, d, after);
    NextKeepsInv(cfg, db, GroupAlert(a, rows, newId, createdAt, actor), after);
  }

  ghost predicate NewestFirst(alerts: map<AlertId, AlertRow>, rows: seq<AlertId>) {
    forall i, j :: 0 <= i < j < |rows| ==> Later(alerts, rows[i], rows[j])
  }

  predicate Later(alerts: map<AlertId, AlertRow>, x: AlertId, y: AlertId) {
    x in alerts && y in alerts && alerts[y].body.eventTime <= alerts[x].body.eventTime
  }

  /** `rows` are the latest of `all`, in order; `rest` are the others. */
  ghost predicate Taken(alerts: map<AlertId, AlertRow>, all: set<AlertId>, rows: seq<AlertId>, rest: set<AlertId>) {
    && rest <= all <= alerts.Keys && Elements(rows) == all - rest && |rows| + |rest| == |all|
    && NoRepeats(rows) && NewestFirst(alerts, rows)
    && forall x, y :: x in rows && y in rest ==> Later(alerts, x, y)
  }

  lemma TakenNone(alerts: map<AlertId, AlertRow>, cfg: GroupingConfig, a: AlertId)
    requires a in alerts
    ensures Taken(alerts, Eligible(alerts, cfg, a), [], Eligible(alerts, cfg, a))
  {
    hide IsEligible;
  }

  lemma TakenRest(alerts: map<AlertId, AlertRow>, all: set<AlertId>, rows: seq<AlertId>, rest: set<AlertId>)
    requires Taken(alerts, all, rows, rest)
    ensures rest <= alerts.Keys
  {
  }

  lemma TakenIsAnswer(alerts: map<AlertId, AlertRow>, cfg: GroupingConfig, a: AlertId, rows: seq<AlertId>,
                      rest: set<AlertId>)
    requires a in alerts && Taken(alerts, Eligible(alerts, cfg, a), rows, rest)
    requires |rows| <= cfg.cap && (|rows| == cfg.cap || rest == {})
    ensures IsAnswer(alerts, cfg, a, Elements(rows)) && NoRepeats(rows) && NewestFirst(alerts, rows)
  {
    TakenOrder(alerts, Eligible(alerts, cfg, a), rows, rest);
    hide Eligible, Taken;
    NoRepeatsCount(rows);
  }

  lemma AnswerMeans(alerts: map<AlertId, AlertRow>, cfg: GroupingConfig, a: AlertId, rows: seq<AlertId>)
    requires a in alerts && IsAnswer(alerts, cfg, a, Elements(rows)) && NoRepeats(rows) && NewestFirst(alerts, rows)
    ensures |rows| <= cfg.cap && forall x :: x in rows ==> x in Eligible(alerts, cfg, a)
    ensures forall i, j :: 0 <= i <= j < |rows| ==>
      rows[i] in alerts && rows[j] in alerts && alerts[rows[j]].body.eventTime <= alerts[rows[i]].body.eventTime
    ensures forall x, y :: x in rows && y in Eligible(alerts, cfg, a) && y !in rows ==>
      x in alerts && y in alerts && alerts[y].body.eventTime <= alerts[x].body.eventTime
    ensures |rows| < cfg.cap ==> forall y :: y in Eligible(alerts, cfg, a) ==> y in rows
  {
    NoRepeatsCount(rows);
    var all := Eligible(alerts, cfg, a);
    assert all <= alerts.Keys;
    hide Eligible;
    SubsetCardinality(Elements(rows), all);
    forall x | x in rows ensures x in all { assert x in Elements(rows); }
    forall x, y | x in rows && y in all && y !in rows
      ensures x in alerts && y in alerts && alerts[y].body.eventTime <= alerts[x].body.eventTime
    {
      assert x in Elements(rows) && y in all - Elements(rows);
    }
  }

  lemma TakenOrder(alerts: map<AlertId, AlertRow>, all: set<AlertId>, rows: seq<AlertId>, rest: set<AlertId>)
    requires Taken(alerts, all, rows, rest)
    ensures rest <= all <= alerts.Keys && |rows| + |rest| == |all| && Elements(rows) == all - rest
    ensures NoRepeats(rows) && NewestFirst(alerts, rows)
    ensures forall x, y :: x in Elements(rows) && y in all - Elements(rows) ==>
      alerts[y].body.eventTime <= alerts[x].body.eventTime
  {
    forall x, y | x in Elements(rows) && y in all - Elements(rows)
      ensures alerts[y].body.eventTime <= alerts[x].body.eventTime
    {
      assert Later(alerts, x, y);
    }
  }

  lemma TakeOne(alerts: map<AlertId, AlertRow>, all: set<AlertId>, rows: seq<AlertId>, rest: set<AlertId>, r: AlertId)
    requires Taken(alerts, all, rows, rest) && r in rest && forall y :: y in rest ==> Later(alerts, r, y)
    ensures Taken(alerts, all, rows + [r], rest - {r})
  {
    assert r !in Elements(rows);
    assert Elements(rows + [r]) == Elements(rows) + {r};
    hide Later;
  }

  method PickLatest(alerts: map<AlertId, AlertRow>, among: set<AlertId>) returns (r: AlertId)
    requires among != {} && among <= alerts.Keys
    ensures r in among && forall y :: y in among ==> Later(alerts, r, y)
  {
    ghost var w := LatestExists(alerts, among);
    r :| r in among && forall y :: y in among ==> alerts[y].body.eventTime <= alerts[r].body.eventTime;
  }

  lemma NoFilterNoRow(alerts: map<AlertId, AlertRow>, cfg: GroupingConfig, a: AlertId)
    requires a in alerts && forall f :: f in BlockingFields ==> ValueOf(alerts[a].body, f).None?
    ensures Eligible(alerts, cfg, a) == {}
  {
    hide ValueOf;
  }

  lemma {:induction false} NoRepeatsCount(rows: seq<AlertId>)
    requires NoRepeats(rows)
    ensures |Elements(rows)| == |rows|
  {
    if rows == [] {
      assert Elements(rows) == {};
    } else {
      var init, last := rows[..|rows| - 1], rows[|rows| - 1];
      NoRepeatsCount(init);
      assert rows == init + [last];
      assert Elements(rows) == Elements(init) + {last} && last !in Elements(init);
    }
  }
}
