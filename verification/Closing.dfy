/** What closing a case does and does not ask for. */
module Closing {
  import opened Prelude
  import opened Config
  import opened Scoring
  import opened Engine
  import opened Lifecycle
  import opened Db
  import opened Invariants
  import opened Feasible

  /** The latest event of the case's stream is a close that states a reason. */
  predicate ClosedWithReason(db: State, c: CaseId) {
    var events := Stream(db, c);
    events != [] && events[|events| - 1].Transitioned? && events[|events| - 1].toStatus == Closed
    && events[|events| - 1].reason.Some?
  }

  predicate MayClose(cfg: GroupingConfig, db: State, c: CaseId, disposition: Option<string>, expected: Option<nat>) {
    && c in db.cases && (expected.Some? ==> expected.value == db.cases[c].version)
    && db.cases[c].status == InProgress && disposition.Some? && disposition.value in cfg.dispositions
  }

  lemma GuardIsMayClose(cfg: GroupingConfig, db: State, c: CaseId, reason: Option<string>, disposition: Option<string>,
                        expected: Option<nat>)
    ensures TransitionFailure(db, cfg, c, Closed, reason, disposition, expected).None? <==>
      MayClose(cfg, db, c, disposition, expected)
  {
  }

  lemma CloseEffect(db: State, c: CaseId, reason: Option<string>, disposition: Option<string>, now: nat)
    requires c in db.cases
    ensures var after := Transition(db, c, Closed, reason, disposition, now);
            && c in after.cases && after.cases[c].status == Closed && after.cases[c].disposition == disposition
            && after.cases[c].version == db.cases[c].version + 1
            && after.notes == db.notes && (ClosedWithReason(after, c) <==> reason.Some?)
  {
  }

  /** A request to close succeeds exactly when the case is in progress, the version fits and the disposition is a
      configured one, whatever the notes and the reason; the close states a reason exactly when the caller gave one. */
  lemma ClosingNeedsNoReason(cfg: GroupingConfig, db: State, c: CaseId, reason: Option<string>,
                             disposition: Option<string>, expected: Option<nat>, now: nat, after: State)
    requires Scorable(cfg) && Next(cfg, db, TransitionCase(c, Closed, reason, disposition, expected, now), after)
    ensures after != db <==>
      && c in db.cases && (expected.Some? ==> expected.value == db.cases[c].version)
      && db.cases[c].status == InProgress && disposition.Some? && disposition.value in cfg.dispositions
    ensures after != db ==>
      && c in after.cases && after.cases[c].status == Closed && after.cases[c].disposition == disposition
      && after.notes == db.notes && (ClosedWithReason(after, c) <==> reason.Some?)
  {
    hide TransitionFailure, Transition, ClosedWithReason;
    GuardIsMayClose(cfg, db, c, reason, disposition, expected);
    if c in db.cases { CloseEffect(db, c, reason, disposition, now); }
  }

  /** Grouping with no case to match opens one, and writes no note. */
  lemma FirstOpens(cfg: GroupingConfig, db: State, a: AlertId, rows: set<AlertId>, plan: Plan, d: Decision,
                   after: State)
    requires Scorable(cfg) && db.cases.Keys == {} && Groups(db, cfg, a, rows, 0, 0, "", plan, d, after)
    ensures 0 in after.cases && after.cases[0].status == Open && after.notes.Keys == db.notes.Keys
    ensures Next(cfg, db, GroupAlert(a, rows, 0, 0, ""), after)
  {
    PlanIsGood(db.cases, Matched(db.alerts, cfg, a, rows), 0, plan);
    GroupsIsNext(cfg, db, a, rows, 0, 0, "", plan, d, after);
    hide Regroup, IsPlan, IsAnswer, IsDecision, Matched, Next;
    GroupOnStream(db, cfg, plan, a, d.verdict, 0, "", plan.target);
    NotesStay(db, cfg, plan, a, d.verdict);
  }

  lemma NotesStay(db: State, cfg: GroupingConfig, plan: Plan, a: AlertId, v: Verdict)
    requires plan.created || plan.target in db.cases
    ensures Regroup(db, cfg, plan, a, v, 0, "").notes.Keys == db.notes.Keys
  {
    hide MovedAlerts, MovedLinks, MovedCases, MovedStreams, MovedDecisions, AggregateRisk, MemberScores, Db.Linked;
  }

  ghost function Received(e: EngineAlert): State { Empty.(alerts := map[e.id := AlertRow(e, None, None)]) }

  lemma LoadedRun(cfg: GroupingConfig, e: EngineAlert) returns (ops: seq<Op>, trace: seq<State>)
    requires Scorable(cfg)
    ensures IsRun(cfg, ops, trace) && trace[0] == Empty && trace[|ops|] == Received(e) && Inv(cfg, Received(e))
    ensures e.id in Received(e).alerts && Received(e).alerts[e.id].caseId.None?
    ensures Received(e).cases.Keys == {} && Received(e).notes.Keys == {}
  {
    ops, trace := [Persist(e.id, e, None)], [Empty, Received(e)];
    assert Next(cfg, trace[0], ops[0], trace[1]);
    hide Next, Inv;
    EmptyIsFine(cfg);
    NextKeepsInv(cfg, Empty, Persist(e.id, e, None), Received(e));
  }

  lemma FirstIsCreated(cfg: GroupingConfig, e: EngineAlert) returns (ops: seq<Op>, trace: seq<State>)
    requires Scorable(cfg)
    ensures IsRun(cfg, ops, trace) && trace[0] == Empty && 0 in trace[|ops|].cases
    ensures trace[|ops|].cases[0].status == Open && trace[|ops|].notes.Keys == {}
  {
    hide *;
    ops, trace := LoadedRun(cfg, e);
    var db := Received(e);
    var rows := AnswerExists(cfg, db.alerts, e.id);
    var plan, d, after := GroupingWorks(cfg, db, e.id, rows, 0, 0, "");
    FirstOpens(cfg, db, e.id, rows, plan, d, after);
    RunStarts(cfg, ops, trace);
    RunExtends(cfg, ops, trace, GroupAlert(e.id, rows, 0, 0, ""), after);
    ops, trace := ops + [GroupAlert(e.id, rows, 0, 0, "")], trace + [after];
  }

  lemma RunStarts(cfg: GroupingConfig, ops: seq<Op>, trace: seq<State>)
    requires Scorable(cfg) && IsRun(cfg, ops, trace)
    ensures |trace| == |ops| + 1
  {
  }

  /** Under any configuration that has a disposition, some run closes a case that has no note, without a reason. */
  lemma ClosedWithoutRationale(cfg: GroupingConfig, e: EngineAlert, disposition: string)
    returns (ops: seq<Op>, trace: seq<State>, c: CaseId)
    requires Scorable(cfg) && disposition in cfg.dispositions
    ensures IsRun(cfg, ops, trace) && trace[0] == Empty
    ensures c in trace[|ops|].cases && trace[|ops|].cases[c].status == Closed
    ensures trace[|ops|].notes.Keys == {} && !ClosedWithReason(trace[|ops|], c)
  {
    hide Inv;
    ops, trace := FirstIsCreated(cfg, e);
    c := 0;
    var db := trace[|ops|];
    var start := TransitionCase(c, InProgress, None, None, None, 0);
    var working := Transition(db, c, InProgress, None, None, 0);
    assert Next(cfg, db, start, working);
    RunExtends(cfg, ops, trace, start, working);
    ops, trace := ops + [start], trace + [working];
    var close := TransitionCase(c, Closed, None, Some(disposition), None, 0);
    var closed := Transition(working, c, Closed, None, Some(disposition), 0);
    assert Next(cfg, working, close, closed);
    RunExtends(cfg, ops, trace, close, closed);
    ops, trace := ops + [close], trace + [closed];
  }
}
