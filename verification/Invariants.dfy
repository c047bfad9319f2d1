/** What every reachable state satisfies, and why each service call keeps it. */
module Invariants {
  import opened Prelude
  import opened Config
  import opened Scoring
  import opened Engine
  import opened Lifecycle
  import opened Db

  // ---- Good plans ----------------------------------------------------------

  predicate IsOpen(row: CaseRow) { row.status != Merged && row.status != Closed }

  ghost predicate GoodPlan(cases: map<CaseId, CaseRow>, plan: Plan) {
    && (plan.created ==> plan.target !in cases && plan.losers == {})
    && (!plan.created ==> plan.target in cases && IsOpen(cases[plan.target]))
    && plan.target !in plan.losers && plan.target !in plan.flagged
    && (forall c :: c in plan.losers ==> c in cases && IsOpen(cases[c]) && Before(cases, plan.target, c))
    && (forall c :: c in plan.flagged ==> c in cases && cases[c].status == Closed)
  }

  lemma PlanIsGood(cases: map<CaseId, CaseRow>, hits: set<CaseId>, newId: CaseId, plan: Plan)
    requires newId !in cases && IsPlan(cases, hits, newId, plan)
    ensures GoodPlan(cases, plan)
  {
  }

  // ---- Tables agree with each other ----------------------------------------

  predicate Live(cases: map<CaseId, CaseRow>, c: CaseId) { c in cases && cases[c].status != Merged }

  /** Alerts and links tell the same story, about live cases. */
  ghost predicate LinksAgree(db: State) { forall x :: LinkAgrees(db, x) }

  predicate LinkAgrees(db: State, x: AlertId) {
    && (x in db.alerts ==> db.alerts[x].body.id == x)
    && (x in db.alerts && db.alerts[x].caseId.Some? <==> x in db.links)
    && (x in db.links ==> db.alerts[x].caseId == Some(db.links[x].caseId) && Live(db.cases, db.links[x].caseId))
  }

  /** Every link points at a decision on the same alert and case, and every decision has exactly its link. */
  ghost predicate DecisionsAgree(db: State) {
    && (forall x :: x in db.links ==>
      && db.links[x].decision < |db.decisions|
      && db.decisions[db.links[x].decision].alertId == x
      && db.decisions[db.links[x].decision].caseId == db.links[x].caseId)
    && (forall i :: 0 <= i < |db.decisions| ==>
         db.decisions[i].alertId in db.links && db.links[db.decisions[i].alertId].decision == i)
  }

  ghost predicate NotesLive(db: State) {
    forall n :: n in db.notes ==> Live(db.cases, db.notes[n].caseId)
  }

  lemma StaysLive(db: State, cfg: GroupingConfig, plan: Plan, a: AlertId, v: Verdict, createdAt: nat, actor: string,
                  c: CaseId)
    requires GoodPlan(db.cases, plan)
    ensures Live(db.cases, c) ==> Live(Regroup(db, cfg, plan, a, v, createdAt, actor).cases, Home(plan, c))
    ensures Live(Regroup(db, cfg, plan, a, v, createdAt, actor).cases, plan.target)
  {
    hide AggregateRisk, MemberScores, MovedStreams, MovedDecisions, MovedNotes, MovedAlerts, MovedLinks;
  }

  /** What grouping does to one alert and its link. */
  lemma GroupOnAlert(db: State, cfg: GroupingConfig, plan: Plan, a: AlertId, v: Verdict, createdAt: nat, actor: string,
                     x: AlertId)
    requires plan.created || plan.target in db.cases
    ensures var after := Regroup(db, cfg, plan, a, v, createdAt, actor);
            && (x in after.alerts <==> x in db.alerts)
            && (x in after.links <==> x in db.links || x == a)
            && (x in db.alerts ==>
                 after.alerts[x].body == db.alerts[x].body && after.alerts[x].risk == db.alerts[x].risk)
            && (x in db.alerts && x != a && db.alerts[x].caseId.None? ==> after.alerts[x].caseId.None?)
            && (x in db.alerts && x != a && db.alerts[x].caseId.Some? ==>
                  after.alerts[x].caseId == Some(Home(plan, db.alerts[x].caseId.value)))
            && (x in db.alerts && x == a ==> after.alerts[x].caseId == Some(plan.target))
            && (x in db.links && x != a ==> after.links[x].caseId == Home(plan, db.links[x].caseId))
            && after.links[a].caseId == plan.target
  {
    hide AggregateRisk, MemberScores, MovedStreams, MovedDecisions, MovedNotes, MovedCases, Home;
  }

  lemma GroupKeepsLink(db: State, cfg: GroupingConfig, plan: Plan, a: AlertId, v: Verdict, createdAt: nat,
                       actor: string, x: AlertId)
    requires GoodPlan(db.cases, plan) && a in db.alerts && db.alerts[a].caseId.None? && LinkAgrees(db, x)
    ensures LinkAgrees(Regroup(db, cfg, plan, a, v, createdAt, actor), x)
  {
    if x in db.links { StaysLive(db, cfg, plan, a, v, createdAt, actor, db.links[x].caseId); }
    StaysLive(db, cfg, plan, a, v, createdAt, actor, plan.target);
    GroupOnAlert(db, cfg, plan, a, v, createdAt, actor, x);
    hide Regroup, Live, Home;
  }

  lemma GroupKeepsDecisions(db: State, cfg: GroupingConfig, plan: Plan, a: AlertId, v: Verdict, createdAt: nat,
                            actor: string)
    requires GoodPlan(db.cases, plan) && a !in db.links && DecisionsAgree(db)
    ensures DecisionsAgree(Regroup(db, cfg, plan, a, v, createdAt, actor))
  {
    hide AggregateRisk, MemberScores, MovedStreams, MovedNotes, MovedAlerts, MovedCases;
  }

  lemma GroupKeepsNotes(db: State, cfg: GroupingConfig, plan: Plan, a: AlertId, v: Verdict, createdAt: nat,
                        actor: string)
    requires GoodPlan(db.cases, plan) && NotesLive(db)
    ensures NotesLive(Regroup(db, cfg, plan, a, v, createdAt, actor))
  {
    hide AggregateRisk, MemberScores, MovedStreams, MovedDecisions, MovedAlerts, MovedLinks;
  }

  // ---- Aggregates ----------------------------------------------------------

  /** A live case's stored count and risk are what recomputing them would give. */
  ghost predicate CountsRight(db: State, cfg: GroupingConfig) {
    forall c :: Live(db.cases, c) ==>
      db.cases[c].alertCount == |Db.Linked(db.links, c)|
      && db.cases[c].riskScore == AggregateRisk(MemberScores(db.alerts, c), cfg.aggregation)
  }

  lemma SameScores(alerts: map<AlertId, AlertRow>, after: map<AlertId, AlertRow>, c: CaseId)
    requires Members(alerts, c) == Members(after, c)
    requires forall x :: x in Members(alerts, c) ==> alerts[x].risk == after[x].risk
    ensures MemberScores(alerts, c) == MemberScores(after, c)
  {
    var ids := Ascending(Members(alerts, c));
    assert ScoresOf(alerts, ids) == ScoresOf(after, ids);
  }

  /** A live case that is neither target nor loser keeps its alerts and links. */
  lemma BystandersKeepAlerts(db: State, plan: Plan, a: AlertId, c: CaseId)
    requires GoodPlan(db.cases, plan) && c != plan.target && c !in plan.losers
    requires a in db.alerts && db.alerts[a].caseId.None? && a !in db.links
    ensures Members(MovedAlerts(db.alerts, plan, a), c) == Members(db.alerts, c)
    ensures forall l: LinkRow :: l.caseId == plan.target ==>
      Db.Linked(MovedLinks(db.links, plan)[a := l], c) == Db.Linked(db.links, c)
  {
  }

  lemma GroupKeepsCounts(db: State, cfg: GroupingConfig, plan: Plan, a: AlertId, v: Verdict, createdAt: nat,
                         actor: string)
    requires GoodPlan(db.cases, plan) && a in db.alerts && db.alerts[a].caseId.None? && a !in db.links
    requires CountsRight(db, cfg)
    ensures CountsRight(Regroup(db, cfg, plan, a, v, createdAt, actor), cfg)
  {
    hide AggregateRisk, MemberScores, MovedStreams, MovedDecisions, MovedNotes, Db.Linked, MovedLinks;
    var after := Regroup(db, cfg, plan, a, v, createdAt, actor);
    forall c | Live(after.cases, c) && c != plan.target
      ensures after.cases[c] == db.cases[c] && Live(db.cases, c)
      ensures Db.Linked(after.links, c) == Db.Linked(db.links, c)
      ensures MemberScores(after.alerts, c) == MemberScores(db.alerts, c)
    {
      BystandersKeepAlerts(db, plan, a, c);
      SameScores(db.alerts, after.alerts, c);
    }
  }

  // ---- Lifecycle and merge pointers ----------------------------------------

  /** Close data exactly on closed cases, a pointer to an earlier case exactly on merged ones. */
  ghost predicate RowsRight(cases: map<CaseId, CaseRow>, cfg: GroupingConfig) {
    forall c :: c in cases ==> RowRight(cases, cfg, c)
  }

  ghost predicate RowRight(cases: map<CaseId, CaseRow>, cfg: GroupingConfig, c: CaseId)
    requires c in cases
  {
    var row := cases[c];
    && (row.closedAt.Some? <==> row.status == Closed)
    && (row.disposition.Some? <==> row.status == Closed)
    && (row.disposition.Some? ==> row.disposition.value in cfg.dispositions)
    && (row.canonical.Some? <==> row.status == Merged)
    && (row.canonical.Some? ==> row.canonical.value in cases && Before(cases, row.canonical.value, c))
  }

  lemma GroupKeepsRows(db: State, cfg: GroupingConfig, plan: Plan, a: AlertId, v: Verdict, createdAt: nat,
                       actor: string)
    requires GoodPlan(db.cases, plan) && RowsRight(db.cases, cfg)
    ensures RowsRight(Regroup(db, cfg, plan, a, v, createdAt, actor).cases, cfg)
  {
    hide AggregateRisk, MemberScores, MovedStreams, MovedDecisions, MovedNotes, MovedAlerts, MovedLinks, Db.Linked;
  }

  // ---- Replay --------------------------------------------------------------

  /** The part of a case row that its audit stream determines. */
  datatype View = View(status: Status, disposition: Option<string>, assignee: Option<UserId>,
                       canonical: Option<CaseId>, version: nat)

  function ViewOf(row: CaseRow): View {
    View(row.status, row.disposition, row.assignee, row.canonical, row.version)
  }

  function Replayed(view: View, e: Event): View {
    match e
    case AlertLinked(_, _) => view.(version := view.version + 1)
    case Transitioned(_, _, status, disposition, _) =>
      view.(status := status, disposition := disposition, version := view.version + 1)
    case MergedAway(_, survivor) => view.(status := Merged, canonical := Some(survivor))
    case Assigned(_, assignee) => view.(assignee := assignee, version := view.version + 1)
    case NoteAdded(_) => view
    case NoteRetracted(_) => view
    case ReviewFlagged(_) => view
  }

  /** Where a replay starts: a case that does not exist yet. */
  const Blank := View(Open, None, None, None, 0)

  function Replay(events: seq<Event>): View {
    if events == [] then Blank
    else Replayed(Replay(events[..|events| - 1]), events[|events| - 1])
  }

  /** The event's recorded `before` values are those of the state it was written in. */
  predicate Fits(view: View, e: Event) {
    match e
    case Transitioned(status, disposition, _, _, _) => status == view.status && disposition == view.disposition
    case MergedAway(status, _) => status == view.status
    case Assigned(assignee, _) => assignee == view.assignee
    case _ => true
  }

  ghost predicate BeforesFit(events: seq<Event>) {
    forall i :: 0 <= i < |events| ==> Fits(Replay(events[..i]), events[i])
  }

  function CurrentView(db: State, c: CaseId): View {
    if c in db.cases then ViewOf(db.cases[c]) else Blank
  }

  /** The stream's recorded history is consistent and ends in the case's row. */
  ghost predicate StreamRight(db: State, c: CaseId) {
    && BeforesFit(Stream(db, c))
    && Replay(Stream(db, c)) == CurrentView(db, c)
    && (c !in db.cases ==> Stream(db, c) == [])
  }

  ghost predicate StreamsRight(db: State) { forall c :: StreamRight(db, c) }

  lemma Appended(events: seq<Event>, e: Event)
    requires BeforesFit(events) && Fits(Replay(events), e)
    ensures BeforesFit(events + [e]) && Replay(events + [e]) == Replayed(Replay(events), e)
  {
    var more := events + [e];
    assert more[..|events|] == events;
    forall i | 0 <= i < |more| ensures Fits(Replay(more[..i]), more[i]) {
      if i < |events| { assert more[..i] == events[..i]; }
    }
  }

  /** One more event keeps a stream right when it describes the change of the row. */
  lemma StreamStep(db: State, after: State, c: CaseId, e: Event)
    requires StreamRight(db, c) && c in after.cases && Stream(after, c) == Stream(db, c) + [e]
    requires Fits(CurrentView(db, c), e) && ViewOf(after.cases[c]) == Replayed(CurrentView(db, c), e)
    ensures StreamRight(after, c)
  {
    Appended(Stream(db, c), e);
  }

  lemma StreamStays(db: State, after: State, c: CaseId)
    requires StreamRight(db, c) && Stream(after, c) == Stream(db, c) && CurrentView(after, c) == CurrentView(db, c)
    requires c !in after.cases ==> c !in db.cases
    ensures StreamRight(after, c)
  {
  }

  /** What grouping appends to one stream and does to that case's row. */
  lemma GroupOnStream(db: State, cfg: GroupingConfig, plan: Plan, a: AlertId, v: Verdict, createdAt: nat, actor: string,
                      c: CaseId)
    requires GoodPlan(db.cases, plan)
    ensures var after := Regroup(db, cfg, plan, a, v, createdAt, actor);
            && Stream(after, c) == Stream(db, c) + NewEvents(db.cases, plan, a, v.how, c)
            && (c in after.cases <==> c in db.cases || c == plan.target)
            && (c in plan.losers ==> after.cases[c] == db.cases[c].(status := Merged, canonical := Some(plan.target)))
            && (c in db.cases && c !in plan.losers && c != plan.target ==> after.cases[c] == db.cases[c])
            && (c == plan.target ==>
                 ViewOf(after.cases[c]) == CurrentView(db, c).(version := CurrentView(db, c).version + 1))
  {
    hide AggregateRisk, MemberScores, MovedDecisions, MovedNotes, MovedAlerts, MovedLinks, Db.Linked;
  }

  lemma GroupKeepsStream(db: State, cfg: GroupingConfig, plan: Plan, a: AlertId, v: Verdict, createdAt: nat,
                         actor: string, c: CaseId)
    requires GoodPlan(db.cases, plan) && StreamRight(db, c)
    ensures StreamRight(Regroup(db, cfg, plan, a, v, createdAt, actor), c)
  {
    GroupOnStream(db, cfg, plan, a, v, createdAt, actor, c);
    var after := Regroup(db, cfg, plan, a, v, createdAt, actor);
    hide Regroup, StreamRight;
    if c in plan.flagged {
      StreamStep(db, after, c, ReviewFlagged(a));
    } else if c in plan.losers {
      StreamStep(db, after, c, MergedAway(db.cases[c].status, plan.target));
    } else if c == plan.target {
      StreamStep(db, after, c, AlertLinked(a, v.how));
    } else {
      StreamStays(db, after, c);
    }
  }

  // ---- Every call keeps everything -----------------------------------------

  ghost predicate Inv(cfg: GroupingConfig, db: State) {
    LinksAgree(db) && DecisionsAgree(db) && NotesLive(db) && CountsRight(db, cfg)
    && RowsRight(db.cases, cfg) && StreamsRight(db)
  }

  lemma EmptyIsFine(cfg: GroupingConfig)
    ensures Inv(cfg, Empty)
  {
  }

  lemma GroupKeepsLinks(db: State, cfg: GroupingConfig, plan: Plan, a: AlertId, v: Verdict, createdAt: nat,
                        actor: string)
    requires GoodPlan(db.cases, plan) && a in db.alerts && db.alerts[a].caseId.None? && LinksAgree(db)
    ensures LinksAgree(Regroup(db, cfg, plan, a, v, createdAt, actor)) && a !in db.links
  {
    assert LinkAgrees(db, a);
    assert plan.created || plan.target in db.cases;
    hide Regroup, LinkAgrees, GoodPlan;
    forall x ensures LinkAgrees(Regroup(db, cfg, plan, a, v, createdAt, actor), x) {
      GroupKeepsLink(db, cfg, plan, a, v, createdAt, actor, x);
    }
  }

  lemma GroupKeepsStreams(db: State, cfg: GroupingConfig, plan: Plan, a: AlertId, v: Verdict, createdAt: nat,
                          actor: string)
    requires GoodPlan(db.cases, plan) && StreamsRight(db)
    ensures StreamsRight(Regroup(db, cfg, plan, a, v, createdAt, actor))
  {
    assert plan.created || plan.target in db.cases;
    hide Regroup, StreamRight, GoodPlan;
    forall c ensures StreamRight(Regroup(db, cfg, plan, a, v, createdAt, actor), c) {
      GroupKeepsStream(db, cfg, plan, a, v, createdAt, actor, c);
    }
  }

  lemma RegroupKeepsAll(cfg: GroupingConfig, db: State, plan: Plan, a: AlertId, v: Verdict, createdAt: nat,
                        actor: string)
    requires GoodPlan(db.cases, plan) && Inv(cfg, db) && a in db.alerts && db.alerts[a].caseId.None?
    ensures Inv(cfg, Regroup(db, cfg, plan, a, v, createdAt, actor))
  {
    assert plan.created || plan.target in db.cases;
    hide GoodPlan, Regroup, LinksAgree, DecisionsAgree, NotesLive, CountsRight, RowsRight, StreamsRight;
    GroupKeepsLinks(db, cfg, plan, a, v, createdAt, actor);
    GroupKeepsDecisions(db, cfg, plan, a, v, createdAt, actor);
    GroupKeepsNotes(db, cfg, plan, a, v, createdAt, actor);
    GroupKeepsCounts(db, cfg, plan, a, v, createdAt, actor);
    GroupKeepsRows(db, cfg, plan, a, v, createdAt, actor);
    GroupKeepsStreams(db, cfg, plan, a, v, createdAt, actor);
  }

  lemma PersistKeepsCounts(cfg: GroupingConfig, db: State, id: AlertId, body: EngineAlert, risk: Option<nat>)
    requires CountsRight(db, cfg) && id !in db.alerts
    ensures CountsRight(db.(alerts := db.alerts[id := AlertRow(body, risk, None)]), cfg)
  {
    var after := db.(alerts := db.alerts[id := AlertRow(body, risk, None)]);
    hide MemberScores, AggregateRisk, Db.Linked;
    forall c | Live(db.cases, c) ensures MemberScores(after.alerts, c) == MemberScores(db.alerts, c) {
      assert Members(after.alerts, c) == Members(db.alerts, c);
      SameScores(db.alerts, after.alerts, c);
    }
  }

  lemma PersistKeepsAll(cfg: GroupingConfig, db: State, id: AlertId, body: EngineAlert, risk: Option<nat>)
    requires Inv(cfg, db) && id !in db.alerts && body.id == id
    ensures Inv(cfg, db.(alerts := db.alerts[id := AlertRow(body, risk, None)]))
  {
    var after := db.(alerts := db.alerts[id := AlertRow(body, risk, None)]);
    assert LinkAgrees(db, id);
    forall x ensures LinkAgrees(after, x) { assert LinkAgrees(db, x); }
    hide CountsRight, RowsRight, CurrentView, BeforesFit, Replay, DecisionsAgree, NotesLive, LinkAgrees;
    forall c ensures StreamRight(after, c) {
      assert StreamRight(db, c);
      assert CurrentView(after, c) == CurrentView(db, c) by { ViewUntouched(db, after, c); }
    }
    PersistKeepsCounts(cfg, db, id, body, risk);
    DecisionsUntouched(db, after);
    NotesUntouched(db, after);
  }

  lemma ViewUntouched(db: State, after: State, c: CaseId)
    requires after.cases == db.cases
    ensures CurrentView(after, c) == CurrentView(db, c)
  {
  }

  lemma DecisionsUntouched(db: State, after: State)
    requires DecisionsAgree(db) && after.links == db.links && after.decisions == db.decisions
    ensures DecisionsAgree(after)
  {
  }

  lemma NotesUntouched(db: State, after: State)
    requires NotesLive(db) && after.notes == db.notes && after.cases == db.cases
    ensures NotesLive(after)
  {
  }

  /** A call that changes one live case's row and stream, and no alert, link, decision or note. */
  ghost predicate Touches(cfg: GroupingConfig, db: State, after: State, c: CaseId, e: Event) {
    && c in db.cases && Live(db.cases, c) && c in after.cases && after.cases == db.cases[c := after.cases[c]]
    && after == db.(cases := after.cases, streams := Record(db.streams, c, e))
    && Live(after.cases, c) && RowRight(after.cases, cfg, c)
    && after.cases[c].createdAt == db.cases[c].createdAt
    && after.cases[c].alertCount == db.cases[c].alertCount && after.cases[c].riskScore == db.cases[c].riskScore
    && Fits(ViewOf(db.cases[c]), e) && ViewOf(after.cases[c]) == Replayed(ViewOf(db.cases[c]), e)
  }

  lemma TouchKeepsAll(cfg: GroupingConfig, db: State, after: State, c: CaseId, e: Event)
    requires Inv(cfg, db) && Touches(cfg, db, after, c, e)
    ensures Inv(cfg, after)
  {
    hide MemberScores, AggregateRisk, Db.Linked, BeforesFit, Replay, Fits, Replayed;
    forall x ensures LinkAgrees(after, x) { assert LinkAgrees(db, x); }
    forall x ensures StreamRight(after, x) {
      assert StreamRight(db, x);
      if x == c { StreamStep(db, after, c, e); } else { StreamStays(db, after, x); }
    }
    forall x | x in after.cases ensures RowRight(after.cases, cfg, x) { assert x != c ==> RowRight(db.cases, cfg, x); }
  }

  /** A call that changes notes and one stream only. */
  lemma NoteKeepsAll(cfg: GroupingConfig, db: State, after: State, c: CaseId, e: Event)
    requires Inv(cfg, db) && Live(db.cases, c) && NotesLive(after)
    requires after == db.(notes := after.notes, streams := Record(db.streams, c, e))
    requires e.NoteAdded? || e.NoteRetracted?
    ensures Inv(cfg, after)
  {
    hide CountsRight, RowsRight, BeforesFit, Replay, NotesLive, DecisionsAgree;
    assert DecisionsAgree(after) by { DecisionsUntouched(db, after); }
    assert CountsRight(after, cfg) by { CountsUntouched(cfg, db, after); }
    forall x ensures LinkAgrees(after, x) { assert LinkAgrees(db, x); }
    forall x ensures StreamRight(after, x) {
      assert StreamRight(db, x);
      if x == c { StreamStep(db, after, c, e); } else { StreamStays(db, after, x); }
    }
  }

  lemma CountsUntouched(cfg: GroupingConfig, db: State, after: State)
    requires CountsRight(db, cfg)
    requires after.links == db.links && after.alerts == db.alerts && after.cases == db.cases
    ensures CountsRight(after, cfg)
  {
  }

  lemma TransitionTouches(cfg: GroupingConfig, db: State, c: CaseId, target: Status, reason: Option<string>,
                          disposition: Option<string>, expected: Option<nat>, now: nat) returns (e: Event)
    requires RowsRight(db.cases, cfg) && TransitionFailure(db, cfg, c, target, reason, disposition, expected).None?
    ensures Touches(cfg, db, Transition(db, c, target, reason, disposition, now), c, e)
  {
    TransitionAllowed(cfg, db, c, target, reason, disposition, expected);
    hide TransitionFailure, ValidateTransition;
    var row := db.cases[c];
    assert RowRight(db.cases, cfg, c);
    var after := TransitionedRow(row, target, disposition, now);
    e := Transitioned(row.status, row.disposition, after.status, after.disposition, reason);
  }

  /** What the guards of a transition let through. */
  lemma TransitionAllowed(cfg: GroupingConfig, db: State, c: CaseId, target: Status, reason: Option<string>,
                          disposition: Option<string>, expected: Option<nat>)
    requires TransitionFailure(db, cfg, c, target, reason, disposition, expected).None?
    ensures c in db.cases && db.cases[c].status != Merged && target != Merged
    ensures target == Closed ==>
      db.cases[c].status != Closed && disposition.Some? && disposition.value in cfg.dispositions
    ensures db.cases[c].status == Closed ==> target == InProgress
  {
  }

  lemma AssignTouches(cfg: GroupingConfig, db: State, c: CaseId, assignee: Option<UserId>, active: set<UserId>)
    returns (e: Event)
    requires RowsRight(db.cases, cfg) && AssignError(db, c, assignee, active).None?
    ensures Touches(cfg, db, Assign(db, c, assignee), c, e)
  {
    assert RowRight(db.cases, cfg, c);
    e := Assigned(db.cases[c].assignee, assignee);
  }

  /** Every service call, successful or not, keeps every invariant. */
  lemma NextKeepsInv(cfg: GroupingConfig, db: State, op: Op, after: State)
    requires Scorable(cfg) && Inv(cfg, db) && Next(cfg, db, op, after)
    ensures Inv(cfg, after)
  {
    hide Inv, Regroup, IsDecision, IsPlan, IsAnswer, Touches, Transition, TransitionFailure, Assign, AssignError;
    match op
    case Persist(id, body, risk) => PersistKeepsAll(cfg, db, id, body, risk);
    case GroupAlert(a, rows, newId, createdAt, actor) =>
      var plan, d :| Groups(db, cfg, a, rows, newId, createdAt, actor, plan, d, after);
      PlanIsGood(db.cases, Matched(db.alerts, cfg, a, rows), newId, plan);
      RegroupKeepsAll(cfg, db, plan, a, d.verdict, createdAt, actor);
    case TransitionCase(c, target, reason, disposition, expected, now) =>
      if after != db {
        InvParts(cfg, db);
        var e := TransitionTouches(cfg, db, c, target, reason, disposition, expected, now);
        TouchKeepsAll(cfg, db, after, c, e);
      }
    case AssignCase(c, assignee, active) =>
      if after != db {
        InvParts(cfg, db);
        var e := AssignTouches(cfg, db, c, assignee, active);
        TouchKeepsAll(cfg, db, after, c, e);
      }
    case NoteOn(n, c, author, text) =>
      if after != db {
        InvParts(cfg, db);
        NoteKeepsAll(cfg, db, after, c, NoteAdded(n));
      }
    case RetractNote(n, why, user, admin) =>
      if after != db {
        InvParts(cfg, db);
        NoteKeepsAll(cfg, db, after, db.notes[n].caseId, NoteRetracted(n));
      }
  }

  lemma InvParts(cfg: GroupingConfig, db: State)
    requires Inv(cfg, db)
    ensures RowsRight(db.cases, cfg) && NotesLive(db)
  {
  }

  /** Every state of every run from the empty database satisfies the invariants. */
  lemma {:induction false} RunKeepsInv(cfg: GroupingConfig, ops: seq<Op>, trace: seq<State>, i: nat)
    requires Scorable(cfg) && IsRun(cfg, ops, trace) && trace[0] == Empty && i < |trace|
    ensures Inv(cfg, trace[i])
  {
    hide Inv, Next;
    if i == 0 {
      EmptyIsFine(cfg);
    } else {
      RunKeepsInv(cfg, ops, trace, i - 1);
      NextKeepsInv(cfg, trace[i - 1], ops[i - 1], trace[i]);
    }
  }
}
