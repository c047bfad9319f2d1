/** The batch-grouping job: one transaction per alert, failures recorded, retries safe. */
module Worker {
  import opened Config
  import opened Scoring
  import opened Engine
  import opened Db
  import opened Invariants
  import opened History
  import opened Store
  import opened Partition

  /** A job argument: an id that may not even parse. */
  datatype RawId = Malformed | Parsed(id: AlertId)

  /** What the environment decides for one attempt: a fresh case id, the clock, and whether the transaction dies. */
  datatype Attempt = Attempt(newId: CaseId, createdAt: nat, dies: bool)

  /** An attempt that cannot succeed. */
  predicate Fails(db: State, raw: RawId, attempt: Attempt) {
    raw.Malformed? || raw.id !in db.alerts || (db.alerts[raw.id].caseId.None? && attempt.dies)
  }

  predicate Skips(db: State, raw: RawId) {
    raw.Parsed? && raw.id in db.alerts && db.alerts[raw.id].caseId.Some?
  }

  /** A run of grouping calls from `s` to `t`. */
  ghost predicate GroupingRun(cfg: GroupingConfig, s: State, ops: seq<Op>, trace: seq<State>, t: State)
    requires Scorable(cfg)
  {
    IsRun(cfg, ops, trace) && trace[0] == s && trace[|ops|] == t && forall op :: op in ops ==> op.GroupAlert?
  }

  lemma RunGrows(cfg: GroupingConfig, s: State, ops: seq<Op>, trace: seq<State>, t: State, op: Op, u: State)
    requires Scorable(cfg) && GroupingRun(cfg, s, ops, trace, t) && op.GroupAlert? && Next(cfg, t, op, u)
    ensures GroupingRun(cfg, s, ops + [op], trace + [u], u)
  {
    hide Next;
    RunExtends(cfg, ops, trace, op, u);
  }

  /** The alerts present, and those grouped, before and after. */
  ghost predicate OnlyGroups(s: State, t: State) {
    && t.alerts.Keys == s.alerts.Keys
    && GroupedAlerts(s.alerts) <= GroupedAlerts(t.alerts)
    && forall x :: x in s.alerts ==> t.alerts[x].body == s.alerts[x].body && t.alerts[x].risk == s.alerts[x].risk
  }

  lemma OneMoreGrouped(cfg: GroupingConfig, s: State, a: AlertId, rows: set<AlertId>, newId: CaseId, createdAt: nat,
                       actor: string, plan: Plan, d: Decision, t: State)
    requires Scorable(cfg) && Groups(s, cfg, a, rows, newId, createdAt, actor, plan, d, t)
    requires plan.created || plan.target in s.cases
    ensures OnlyGroups(s, t) && GroupedAlerts(t.alerts) == GroupedAlerts(s.alerts) + {a}
    ensures t.cases.Keys <= s.cases.Keys + {newId}
  {
    hide IsAnswer, IsDecision, Matched, Regroup;
    forall x ensures x in t.alerts <==> x in s.alerts {
      GroupOnAlert(s, cfg, plan, a, d.verdict, createdAt, actor, x);
    }
    forall x | x in s.alerts
      ensures t.alerts[x].body == s.alerts[x].body && t.alerts[x].risk == s.alerts[x].risk
      ensures x in GroupedAlerts(t.alerts) <==> x in GroupedAlerts(s.alerts) || x == a
    {
      GroupOnAlert(s, cfg, plan, a, d.verdict, createdAt, actor, x);
    }
    RegroupCaseIds(s, cfg, plan, a, d.verdict, createdAt, actor);
  }

  lemma RegroupCaseIds(db: State, cfg: GroupingConfig, plan: Plan, a: AlertId, v: Verdict, createdAt: nat,
                       actor: string)
    requires plan.created || plan.target in db.cases
    ensures Regroup(db, cfg, plan, a, v, createdAt, actor).cases.Keys == db.cases.Keys + {plan.target}
  {
    hide MovedAlerts, MovedLinks, MovedStreams, MovedNotes, MovedDecisions, AggregateRisk, MemberScores, Db.Linked;
  }

  datatype Outcome = NewlyGrouped | AlreadyGrouped | Failed

  function OutcomeOf(db: State, raw: RawId, attempt: Attempt): Outcome {
    if Fails(db, raw, attempt) then Failed else if Skips(db, raw) then AlreadyGrouped else NewlyGrouped
  }

  /** The call `op` gave the parsed alert its case. */
  ghost predicate Grew(cfg: GroupingConfig, s: State, raw: RawId, op: Op, t: State)
    requires Scorable(cfg)
  {
    && raw.Parsed? && op.GroupAlert? && Next(cfg, s, op, t)
    && raw.id !in GroupedAlerts(s.alerts) && GroupedAlerts(t.alerts) == GroupedAlerts(s.alerts) + {raw.id}
  }

  /** One iteration: a new session, and a transaction that commits whole or not at all. */
  method Process(store: CaseStore, cfg: GroupingConfig, raw: RawId, attempt: Attempt)
    returns (outcome: Outcome, ghost op: Op)
    requires Scorable(cfg) && Inv(cfg, store.Snapshot()) && attempt.newId !in store.cases
    modifies store
    ensures Inv(cfg, store.Snapshot())
    ensures outcome == OutcomeOf(old(store.Snapshot()), raw, attempt)
    ensures outcome != NewlyGrouped ==> store.Snapshot() == old(store.Snapshot())
    ensures outcome == NewlyGrouped ==> Grew(cfg, old(store.Snapshot()), raw, op, store.Snapshot())
    ensures OnlyGroups(old(store.Snapshot()), store.Snapshot())
    ensures store.Snapshot().cases.Keys <= old(store.Snapshot()).cases.Keys + {attempt.newId}
  {
    hide Inv, Next, Groups;
    op := GroupAlert(0, {}, 0, 0, "");
    if raw.Malformed? || raw.id !in store.alerts {
      return Failed, op;
    }
    if store.alerts[raw.id].caseId.Some? {
      return AlreadyGrouped, op;
    }
    if attempt.dies {
      return Failed, op;
    }
    ghost var before := store.Snapshot();
    var target, rows, plan, d := store.ApplyGroupingForAlert(cfg, raw.id, attempt.newId, attempt.createdAt, "worker");
    GroupsHasTarget(cfg, before, raw.id, rows, attempt.newId, attempt.createdAt, "worker", plan, d, store.Snapshot());
    OneMoreGrouped(cfg, before, raw.id, rows, attempt.newId, attempt.createdAt, "worker", plan, d, store.Snapshot());
    outcome, op := NewlyGrouped, GroupAlert(raw.id, rows, attempt.newId, attempt.createdAt, "worker");
  }

  lemma GroupsHasTarget(cfg: GroupingConfig, s: State, a: AlertId, rows: set<AlertId>, newId: CaseId, createdAt: nat,
                        actor: string, plan: Plan, d: Decision, t: State)
    requires Scorable(cfg) && Groups(s, cfg, a, rows, newId, createdAt, actor, plan, d, t)
    ensures plan.created || plan.target in s.cases
  {
    PlanIsGood(s.cases, Matched(s.alerts, cfg, a, rows), newId, plan);
  }

  ghost predicate FreshIds(db: State, attempts: seq<Attempt>, i: nat) {
    && (forall k :: i <= k < |attempts| ==> attempts[k].newId !in db.cases)
    && (forall j, k :: i <= j < k < |attempts| ==> attempts[j].newId != attempts[k].newId)
  }

  // ---- What a job has to do, seen from its first state ---------------------

  /** The attempt can give the id's alert a case. */
  predicate Succeeds(db: State, raw: RawId, attempt: Attempt) {
    raw.Parsed? && raw.id in db.alerts && !attempt.dies
  }

  /** The alerts that have a case once the first `n` ids were worked through from `db`. */
  function GroupedBy(db: State, ids: seq<RawId>, attempts: seq<Attempt>, n: nat): set<AlertId>
    requires |attempts| == |ids| && n <= |ids|
  {
    if n == 0 then GroupedAlerts(db.alerts)
    else GroupedBy(db, ids, attempts, n - 1) + if Succeeds(db, ids[n - 1], attempts[n - 1]) then {ids[n - 1].id} else {}
  }

  /** Attempt `i` fails: no id, no such alert, or a transaction that dies while the alert still needs a case. */
  predicate FailsAt(db: State, ids: seq<RawId>, attempts: seq<Attempt>, i: nat)
    requires |attempts| == |ids| && i < |ids|
  {
    ids[i].Malformed? || ids[i].id !in db.alerts || (attempts[i].dies && ids[i].id !in GroupedBy(db, ids, attempts, i))
  }

  function FailedBy(db: State, ids: seq<RawId>, attempts: seq<Attempt>, n: nat): seq<RawId>
    requires |attempts| == |ids| && n <= |ids|
  {
    if n == 0 then []
    else FailedBy(db, ids, attempts, n - 1) + if FailsAt(db, ids, attempts, n - 1) then [ids[n - 1]] else []
  }

  /** Some of the first `n` attempts gives `z` a case. */
  ghost predicate Won(db: State, ids: seq<RawId>, attempts: seq<Attempt>, n: nat, z: AlertId)
    requires |attempts| == |ids| && n <= |ids|
  {
    exists i :: 0 <= i < n && ids[i] == Parsed(z) && Succeeds(db, ids[i], attempts[i])
  }

  /** Nobody gets a case who is not asked for, and everybody does whose attempt works. */
  lemma {:induction false} GroupedByIs(db: State, ids: seq<RawId>, attempts: seq<Attempt>, n: nat, z: AlertId)
    requires |attempts| == |ids| && n <= |ids|
    ensures z in GroupedBy(db, ids, attempts, n) <==> z in GroupedAlerts(db.alerts) || Won(db, ids, attempts, n, z)
  {
    hide GroupedAlerts;
    if n > 0 {
      GroupedByIs(db, ids, attempts, n - 1, z);
      var now := ids[n - 1] == Parsed(z) && Succeeds(db, ids[n - 1], attempts[n - 1]);
      assert Won(db, ids, attempts, n, z) <==> Won(db, ids, attempts, n - 1, z) || now;
    }
  }

  /** What the job has done after `n` of its ids, having started in state `s` and being in `t`. */
  ghost predicate Progress(cfg: GroupingConfig, s: State, t: State, ids: seq<RawId>, attempts: seq<Attempt>, n: nat,
                           grouped: nat, failed: seq<RawId>, ops: seq<Op>, trace: seq<State>)
    requires Scorable(cfg) && |attempts| == |ids| && n <= |ids|
  {
    && GroupingRun(cfg, s, ops, trace, t) && |ops| == grouped && OnlyGroups(s, t)
    && GroupedAlerts(t.alerts) == GroupedBy(s, ids, attempts, n)
    && |GroupedAlerts(t.alerts)| == |GroupedAlerts(s.alerts)| + grouped
    && failed == FailedBy(s, ids, attempts, n)
  }

  lemma ProgressStarts(cfg: GroupingConfig, s: State, ids: seq<RawId>, attempts: seq<Attempt>)
    requires Scorable(cfg) && |attempts| == |ids|
    ensures Progress(cfg, s, s, ids, attempts, 0, 0, [], [], [s])
  {
    hide Next;
  }

  /** How the outcome of the next attempt shows in the job's specification. */
  lemma OutcomeFits(s: State, t: State, ids: seq<RawId>, attempts: seq<Attempt>, n: nat)
    requires |attempts| == |ids| && n < |ids| && t.alerts.Keys == s.alerts.Keys
    requires GroupedAlerts(t.alerts) == GroupedBy(s, ids, attempts, n)
    ensures var outcome := OutcomeOf(t, ids[n], attempts[n]);
            && (outcome == Failed <==> FailsAt(s, ids, attempts, n))
            && (outcome == NewlyGrouped ==> ids[n].Parsed?)
            && GroupedBy(s, ids, attempts, n + 1) ==
                 GroupedBy(s, ids, attempts, n) + if outcome == NewlyGrouped then {ids[n].id} else {}
  {
    var raw := ids[n];
    assert raw.Parsed? ==>
      (raw.id in GroupedBy(s, ids, attempts, n) <==> raw.id in t.alerts && t.alerts[raw.id].caseId.Some?);
  }

  lemma ProgressRests(cfg: GroupingConfig, s: State, t: State, ids: seq<RawId>, attempts: seq<Attempt>, n: nat,
                      grouped: nat, failed: seq<RawId>, ops: seq<Op>, trace: seq<State>, outcome: Outcome)
    requires Scorable(cfg) && |attempts| == |ids| && n < |ids|
    requires outcome == OutcomeOf(t, ids[n], attempts[n]) && outcome != NewlyGrouped
    requires Progress(cfg, s, t, ids, attempts, n, grouped, failed, ops, trace)
    ensures Progress(cfg, s, t, ids, attempts, n + 1, grouped,
                     if outcome == Failed then failed + [ids[n]] else failed, ops, trace)
  {
    OutcomeFits(s, t, ids, attempts, n);
    hide GroupingRun, GroupedBy, FailsAt, OutcomeOf;
  }

  lemma ProgressGroups(cfg: GroupingConfig, s: State, t: State, u: State, ids: seq<RawId>, attempts: seq<Attempt>,
                       n: nat, grouped: nat, failed: seq<RawId>, ops: seq<Op>, trace: seq<State>, op: Op)
    requires Scorable(cfg) && |attempts| == |ids| && n < |ids| && OutcomeOf(t, ids[n], attempts[n]) == NewlyGrouped
    requires Grew(cfg, t, ids[n], op, u) && OnlyGroups(t, u)
    requires Progress(cfg, s, t, ids, attempts, n, grouped, failed, ops, trace)
    ensures Progress(cfg, s, u, ids, attempts, n + 1, grouped + 1, failed, ops + [op], trace + [u])
  {
    hide Next, GroupingRun, GroupedBy, FailsAt, OutcomeOf, OnlyGroups, GroupedAlerts;
    KeysStay(s, t);
    OutcomeFits(s, t, ids, attempts, n);
    RunGrows(cfg, s, ops, trace, t, op, u);
    GroupsOn(s, t, u);
    assert |GroupedAlerts(u.alerts)| == |GroupedAlerts(t.alerts)| + 1;
  }

  lemma GroupsOn(s: State, t: State, u: State)
    requires OnlyGroups(s, t) && OnlyGroups(t, u)
    ensures OnlyGroups(s, u)
  {
  }

  method GroupAlertsJob(store: CaseStore, cfg: GroupingConfig, ids: seq<RawId>, attempts: seq<Attempt>)
    returns (grouped: nat, failed: seq<RawId>, ghost ops: seq<Op>, ghost trace: seq<State>)
    requires Scorable(cfg) && Inv(cfg, store.Snapshot())
    requires |attempts| == |ids| && FreshIds(store.Snapshot(), attempts, 0)
    modifies store
    ensures Inv(cfg, store.Snapshot())
    ensures Progress(cfg, old(store.Snapshot()), store.Snapshot(), ids, attempts, |ids|, grouped, failed, ops, trace)
  {
    hide *;
    grouped, failed, ops, trace := 0, [], [], [store.Snapshot()];
    ProgressStarts(cfg, store.Snapshot(), ids, attempts);
    for i := 0 to |ids|
      invariant Inv(cfg, store.Snapshot()) && FreshIds(store.Snapshot(), attempts, i)
      invariant Progress(cfg, old(store.Snapshot()), store.Snapshot(), ids, attempts, i, grouped, failed, ops, trace)
    {
      ghost var s, t := old(store.Snapshot()), store.Snapshot();
      IdIsFresh(t, attempts, i);
      NewIdAbsent(store, attempts[i]);
      var outcome, op := Process(store, cfg, ids[i], attempts[i]);
      FreshIdsStay(t, store.Snapshot(), attempts, i);
      if outcome == NewlyGrouped {
        ProgressGroups(cfg, s, t, store.Snapshot(), ids, attempts, i, grouped, failed, ops, trace, op);
        grouped, ops, trace := grouped + 1, ops + [op], trace + [store.Snapshot()];
      } else {
        ProgressRests(cfg, s, t, ids, attempts, i, grouped, failed, ops, trace, outcome);
        if outcome == Failed { failed := failed + [ids[i]]; }
      }
    }
  }

  lemma IdIsFresh(db: State, attempts: seq<Attempt>, i: nat)
    requires FreshIds(db, attempts, i) && i < |attempts|
    ensures attempts[i].newId !in db.cases
  {
  }

  lemma NewIdAbsent(store: CaseStore, attempt: Attempt)
    requires attempt.newId !in store.Snapshot().cases
    ensures attempt.newId !in store.cases
  {
  }

  lemma FreshIdsStay(s: State, t: State, attempts: seq<Attempt>, i: nat)
    requires FreshIds(s, attempts, i) && i < |attempts| && t.cases.Keys <= s.cases.Keys + {attempts[i].newId}
    ensures FreshIds(t, attempts, i + 1)
  {
  }

  // ---- Retries -------------------------------------------------------------

  /** A job's calls extend the history that led to it. */
  lemma JobExtendsHistory(cfg: GroupingConfig, ops: seq<Op>, trace: seq<State>, jobOps: seq<Op>, jobTrace: seq<State>)
    returns (allOps: seq<Op>, allTrace: seq<State>)
    requires Scorable(cfg) && IsRun(cfg, ops, trace) && IsRun(cfg, jobOps, jobTrace) && trace[|ops|] == jobTrace[0]
    ensures allOps == ops + jobOps && allTrace == trace + jobTrace[1..] && IsRun(cfg, allOps, allTrace)
    ensures allTrace[0] == trace[0] && allTrace[|allOps|] == jobTrace[|jobOps|]
  {
    hide Next;
    allOps, allTrace := ops + jobOps, trace + jobTrace[1..];
    forall i | 0 <= i < |allOps| ensures Next(cfg, allTrace[i], allOps[i], allTrace[i + 1]) {
      if i < |ops| {
        assert Next(cfg, trace[i], ops[i], trace[i + 1]);
      } else {
        var k := i - |ops|;
        assert Next(cfg, jobTrace[k], jobOps[k], jobTrace[k + 1]);
        assert allTrace[i + 1] == jobTrace[k + 1] && allTrace[i] == jobTrace[k];
      }
    }
  }

  ghost predicate AllSmooth(cfg: GroupingConfig, ops: seq<Op>, trace: seq<State>)
    requires Scorable(cfg) && IsRun(cfg, ops, trace)
  {
    forall k :: 0 <= k < |ops| ==> Smooth(cfg, trace[k], ops[k])
  }

  lemma SmoothExtends(cfg: GroupingConfig, ops: seq<Op>, trace: seq<State>, jobOps: seq<Op>, jobTrace: seq<State>)
    returns (allOps: seq<Op>, allTrace: seq<State>)
    requires Scorable(cfg) && IsRun(cfg, ops, trace) && IsRun(cfg, jobOps, jobTrace) && trace[|ops|] == jobTrace[0]
    requires AllSmooth(cfg, ops, trace) && AllSmooth(cfg, jobOps, jobTrace)
    ensures IsRun(cfg, allOps, allTrace) && allTrace[0] == trace[0] && allTrace[|allOps|] == jobTrace[|jobOps|]
    ensures AllSmooth(cfg, allOps, allTrace)
  {
    hide Next, Smooth;
    allOps, allTrace := JobExtendsHistory(cfg, ops, trace, jobOps, jobTrace);
    forall i | 0 <= i < |allOps| ensures Smooth(cfg, allTrace[i], allOps[i]) {
      if i < |ops| {
        assert Smooth(cfg, trace[i], ops[i]);
      } else {
        assert Smooth(cfg, jobTrace[i - |ops|], jobOps[i - |ops|]);
        assert allTrace[i] == jobTrace[i - |ops|];
      }
    }
  }

  // ---- What a finished job means -------------------------------------------

  ghost predicate AllSkip(db: State, ids: seq<RawId>) {
    forall i :: 0 <= i < |ids| ==> Skips(db, ids[i])
  }

  lemma {:induction false} SkippedNeverFail(db: State, ids: seq<RawId>, attempts: seq<Attempt>, n: nat)
    requires |attempts| == |ids| && n <= |ids| && AllSkip(db, ids)
    ensures FailedBy(db, ids, attempts, n) == [] && GroupedBy(db, ids, attempts, n) == GroupedAlerts(db.alerts)
  {
    if n > 0 {
      SkippedNeverFail(db, ids, attempts, n - 1);
      assert Skips(db, ids[n - 1]);
    }
  }

  /** A job over ids that all have a case does nothing and reports nothing. */
  lemma RepeatIsIdle(cfg: GroupingConfig, s: State, t: State, ids: seq<RawId>, attempts: seq<Attempt>,
                     grouped: nat, failed: seq<RawId>, ops: seq<Op>, trace: seq<State>)
    requires Scorable(cfg) && |attempts| == |ids| && AllSkip(s, ids)
    requires Progress(cfg, s, t, ids, attempts, |ids|, grouped, failed, ops, trace)
    ensures t == s && grouped == 0 && failed == []
  {
    SkippedNeverFail(s, ids, attempts, |ids|);
    hide Next, OnlyGroups, AllSkip, GroupedAlerts;
  }

  lemma {:induction false} FailuresAreListed(db: State, ids: seq<RawId>, attempts: seq<Attempt>, n: nat, i: nat)
    requires |attempts| == |ids| && i < n <= |ids| && FailsAt(db, ids, attempts, i)
    ensures ids[i] in FailedBy(db, ids, attempts, n)
  {
    if i < n - 1 { FailuresAreListed(db, ids, attempts, n - 1, i); }
  }

  /** Why attempt `i` cannot succeed: no id, no such alert, or it dies although nobody gave the alert a case before. */
  ghost predicate Hopeless(db: State, ids: seq<RawId>, attempts: seq<Attempt>, i: nat)
    requires |attempts| == |ids| && i < |ids|
  {
    || ids[i] == Malformed
    || ids[i].id !in db.alerts
    || (attempts[i].dies && db.alerts[ids[i].id].caseId.None? && !Won(db, ids, attempts, i, ids[i].id))
  }

  lemma FailsWhenHopeless(db: State, ids: seq<RawId>, attempts: seq<Attempt>, i: nat)
    requires |attempts| == |ids| && i < |ids|
    ensures FailsAt(db, ids, attempts, i) <==> Hopeless(db, ids, attempts, i)
  {
    if ids[i].Parsed? { GroupedByIs(db, ids, attempts, i, ids[i].id); }
    hide GroupedBy, Won;
  }

  /** The failures listed are those of exactly the hopeless attempts, in the order of the ids. */
  lemma {:induction false} FailuresAre(db: State, ids: seq<RawId>, attempts: seq<Attempt>, n: nat)
    returns (at: seq<nat>)
    requires |attempts| == |ids| && n <= |ids|
    ensures |at| == |FailedBy(db, ids, attempts, n)| && forall i, j :: 0 <= i < j < |at| ==> at[i] < at[j]
    ensures forall k :: 0 <= k < |at| ==> at[k] < n && FailedBy(db, ids, attempts, n)[k] == ids[at[k]]
    ensures forall i :: 0 <= i < n ==> (i in at <==> Hopeless(db, ids, attempts, i))
  {
    if n == 0 {
      at := [];
    } else {
      at := FailuresAre(db, ids, attempts, n - 1);
      FailsWhenHopeless(db, ids, attempts, n - 1);
      hide Hopeless, FailsAt;
      if FailsAt(db, ids, attempts, n - 1) { at := at + [n - 1]; }
    }
  }

  /** Every id of a finished job names an alert with a case, or is listed as failed. */
  lemma EveryIdSettles(cfg: GroupingConfig, s: State, t: State, ids: seq<RawId>, attempts: seq<Attempt>,
                       grouped: nat, failed: seq<RawId>, ops: seq<Op>, trace: seq<State>, i: nat)
    requires Scorable(cfg) && |attempts| == |ids| && i < |ids|
    requires Progress(cfg, s, t, ids, attempts, |ids|, grouped, failed, ops, trace)
    ensures ids[i] in failed || Skips(t, ids[i])
  {
    if FailsAt(s, ids, attempts, i) {
      FailuresAreListed(s, ids, attempts, |ids|, i);
    } else {
      var z := ids[i].id;
      GroupedByIs(s, ids, attempts, i, z);
      GroupedByIs(s, ids, attempts, |ids|, z);
      hide GroupingRun, OnlyGroups, FailedBy, GroupedBy;
      if !attempts[i].dies { assert Won(s, ids, attempts, |ids|, z); }
      assert z in GroupedAlerts(t.alerts);
    }
  }

  // ---- Retries converge ----------------------------------------------------

  /** One finished job over the ids. */
  datatype Round = Round(attempts: seq<Attempt>, grouped: nat, failed: seq<RawId>, ops: seq<Op>, trace: seq<State>)

  ghost predicate Ran(cfg: GroupingConfig, s: State, t: State, ids: seq<RawId>, r: Round)
    requires Scorable(cfg)
  {
    |r.attempts| == |ids| && Progress(cfg, s, t, ids, r.attempts, |ids|, r.grouped, r.failed, r.ops, r.trace)
  }

  ghost predicate SmoothRound(cfg: GroupingConfig, r: Round)
    requires Scorable(cfg)
  {
    IsRun(cfg, r.ops, r.trace) && AllSmooth(cfg, r.ops, r.trace)
  }

  ghost predicate NoneDies(attempts: seq<Attempt>) {
    forall i :: 0 <= i < |attempts| ==> !attempts[i].dies
  }

  /** The alerts that have a case or that the ids ask for. */
  function Wanted(db: State, ids: seq<RawId>): set<AlertId> {
    set z | z in db.alerts && (db.alerts[z].caseId.Some? || Parsed(z) in ids)
  }

  /** Whatever dies, a job stays within what is wanted; when nothing dies it gets all of it. */
  lemma RoundReaches(cfg: GroupingConfig, s: State, t: State, ids: seq<RawId>, r: Round)
    requires Scorable(cfg) && Ran(cfg, s, t, ids, r)
    ensures OnlyGroups(s, t) && Wanted(t, ids) == Wanted(s, ids) && GroupedAlerts(t.alerts) <= Wanted(s, ids)
    ensures NoneDies(r.attempts) ==> GroupedAlerts(t.alerts) == Wanted(s, ids)
  {
    hide GroupingRun, GroupedBy, FailedBy;
    forall z ensures z in Wanted(t, ids) <==> z in Wanted(s, ids) { StillWanted(s, t, ids, r.attempts, z); }
    forall z
      ensures z in GroupedAlerts(t.alerts) <==> z in GroupedAlerts(s.alerts) || Won(s, ids, r.attempts, |ids|, z)
    {
      GroupedByIs(s, ids, r.attempts, |ids|, z);
    }
    if NoneDies(r.attempts) {
      forall z | z in Wanted(s, ids) ensures z in GroupedAlerts(t.alerts) {
        if Parsed(z) in ids {
          var i :| 0 <= i < |ids| && ids[i] == Parsed(z);
          assert Succeeds(s, ids[i], r.attempts[i]);
        }
      }
    }
  }

  lemma StillWanted(s: State, t: State, ids: seq<RawId>, attempts: seq<Attempt>, z: AlertId)
    requires |attempts| == |ids| && OnlyGroups(s, t) && GroupedAlerts(t.alerts) == GroupedBy(s, ids, attempts, |ids|)
    ensures z in Wanted(t, ids) <==> z in Wanted(s, ids)
  {
    GroupedByIs(s, ids, attempts, |ids|, z);
    InGrouped(s, z);
    InGrouped(t, z);
    hide GroupedBy, GroupedAlerts;
  }

  /** A chain of jobs over the same ids, one after the other. */
  ghost predicate Tried(cfg: GroupingConfig, ids: seq<RawId>, rounds: seq<Round>, states: seq<State>)
    requires Scorable(cfg)
  {
    |states| == |rounds| + 1 && forall k :: 0 <= k < |rounds| ==> Ran(cfg, states[k], states[k + 1], ids, rounds[k])
  }

  lemma {:induction false} TriesReach(cfg: GroupingConfig, ids: seq<RawId>, rounds: seq<Round>, states: seq<State>,
                                      k: nat)
    requires Scorable(cfg) && Tried(cfg, ids, rounds, states) && k <= |rounds|
    ensures OnlyGroups(states[0], states[k]) && Wanted(states[k], ids) == Wanted(states[0], ids)
  {
    hide Ran, Wanted, OnlyGroups;
    if k == 0 {
      GroupsNothing(states[0]);
    } else {
      TriesReach(cfg, ids, rounds, states, k - 1);
      RoundReaches(cfg, states[k - 1], states[k], ids, rounds[k - 1]);
      GroupsOn(states[0], states[k - 1], states[k]);
    }
  }

  lemma GroupsNothing(s: State)
    ensures OnlyGroups(s, s)
  {
  }

  /** The history that led to the first state, extended by the calls of the first `k` jobs. */
  lemma {:induction false} TriesExtend(cfg: GroupingConfig, ops: seq<Op>, trace: seq<State>, ids: seq<RawId>,
                                       rounds: seq<Round>,
                                       states: seq<State>, k: nat) returns (allOps: seq<Op>, allTrace: seq<State>)
    requires Scorable(cfg) && Tried(cfg, ids, rounds, states) && k <= |rounds|
    requires IsRun(cfg, ops, trace) && AllSmooth(cfg, ops, trace) && trace[|ops|] == states[0]
    requires forall r :: r in rounds ==> SmoothRound(cfg, r)
    ensures IsRun(cfg, allOps, allTrace) && AllSmooth(cfg, allOps, allTrace)
    ensures allTrace[0] == trace[0] && allTrace[|allOps|] == states[k]
  {
    hide AllSmooth, OnlyGroups, Next, GroupedBy, FailedBy, GroupedAlerts;
    if k == 0 {
      allOps, allTrace := ops, trace;
    } else {
      var r := rounds[k - 1];
      allOps, allTrace := TriesExtend(cfg, ops, trace, ids, rounds, states, k - 1);
      assert Ran(cfg, states[k - 1], states[k], ids, r) && SmoothRound(cfg, r);
      allOps, allTrace := SmoothExtends(cfg, allOps, allTrace, r.ops, r.trace);
    }
  }

  lemma {:induction false} CleanFailures(db: State, other: State, ids: seq<RawId>, attempts: seq<Attempt>,
                                         attempts': seq<Attempt>, n: nat)
    requires |attempts| == |ids| && |attempts'| == |ids| && n <= |ids| && NoneDies(attempts) && NoneDies(attempts')
    requires db.alerts.Keys == other.alerts.Keys
    ensures FailedBy(db, ids, attempts, n) == FailedBy(other, ids, attempts', n)
  {
    if n > 0 { CleanFailures(db, other, ids, attempts, attempts', n - 1); }
  }

  lemma SameCased(s: State, t: State, u: State)
    requires OnlyGroups(s, t) && OnlyGroups(s, u) && GroupedAlerts(t.alerts) == GroupedAlerts(u.alerts)
    ensures Cased(t.alerts) == Cased(u.alerts)
  {
    hide GroupedAlerts;
    forall x | x in GroupedAlerts(t.alerts) ensures x in t.alerts { InGrouped(t, x); }
  }

  lemma InGrouped(s: State, x: AlertId)
    ensures x in GroupedAlerts(s.alerts) <==> x in s.alerts && s.alerts[x].caseId.Some?
  {
  }

  /** Fail-then-retry converges: from one state, any number of jobs over the ids in which any attempts die, followed
      by a job in which none does, ends with the same alerts grouped, the same partition and the same failures as a
      single job in which none dies. */
  lemma RetriesConverge(cfg: GroupingConfig, ops: seq<Op>, trace: seq<State>, ids: seq<RawId>, rounds: seq<Round>,
                        states: seq<State>, clean: Round, end: State)
    requires Scorable(cfg) && Queryable(cfg) && IsRun(cfg, ops, trace) && trace[0] == Empty
    requires AllSmooth(cfg, ops, trace)
    requires Tried(cfg, ids, rounds, states) && trace[|ops|] == states[0] && rounds != []
    requires Ran(cfg, states[0], end, ids, clean)
    requires NoneDies(rounds[|rounds| - 1].attempts) && NoneDies(clean.attempts)
    requires SmoothRound(cfg, clean) && forall r :: r in rounds ==> SmoothRound(cfg, r)
    ensures var last := states[|rounds|];
            && GroupedAlerts(last.alerts) == GroupedAlerts(end.alerts)
            && (forall x, y :: SameCase(last.alerts, x, y) <==> SameCase(end.alerts, x, y))
    ensures rounds[|rounds| - 1].failed == clean.failed
  {
    hide *;
    LastRound(cfg, ids, rounds, states);
    var last := states[|rounds|];
    RetriesGroupAlike(cfg, ids, rounds, states, clean, end);
    var allOps, allTrace := TriesExtend(cfg, ops, trace, ids, rounds, states, |rounds|);
    var cleanOps, cleanTrace := CleanExtends(cfg, ops, trace, ids, states[0], clean, end);
    forall x, y ensures SameCase(last.alerts, x, y) <==> SameCase(end.alerts, x, y) {
      SamePartition(cfg, allOps, allTrace, cleanOps, cleanTrace, last, end, x, y);
    }
  }

  lemma RetriesGroupAlike(cfg: GroupingConfig, ids: seq<RawId>, rounds: seq<Round>, states: seq<State>, clean: Round,
                          end: State)
    requires Scorable(cfg) && Tried(cfg, ids, rounds, states) && rounds != [] && Ran(cfg, states[0], end, ids, clean)
    requires NoneDies(rounds[|rounds| - 1].attempts) && NoneDies(clean.attempts)
    ensures GroupedAlerts(states[|rounds|].alerts) == GroupedAlerts(end.alerts)
    ensures Cased(states[|rounds|].alerts) == Cased(end.alerts)
    ensures rounds[|rounds| - 1].failed == clean.failed
  {
    hide *;
    LastRound(cfg, ids, rounds, states);
    var n := |rounds|;
    var first, before, last := states[0], states[n - 1], states[n];
    TriesReach(cfg, ids, rounds, states, n - 1);
    TriesReach(cfg, ids, rounds, states, n);
    RoundReaches(cfg, before, last, ids, rounds[n - 1]);
    RoundReaches(cfg, first, end, ids, clean);
    SameCased(first, last, end);
    FailuresOf(cfg, before, last, ids, rounds[n - 1]);
    FailuresOf(cfg, first, end, ids, clean);
    KeysStay(first, before);
    CleanFailures(before, first, ids, rounds[n - 1].attempts, clean.attempts, |ids|);
  }

  lemma LastRound(cfg: GroupingConfig, ids: seq<RawId>, rounds: seq<Round>, states: seq<State>)
    requires Scorable(cfg) && Tried(cfg, ids, rounds, states) && rounds != []
    ensures |states| == |rounds| + 1 && Ran(cfg, states[|rounds| - 1], states[|rounds|], ids, rounds[|rounds| - 1])
  {
    hide Ran;
  }

  lemma FailuresOf(cfg: GroupingConfig, s: State, t: State, ids: seq<RawId>, r: Round)
    requires Scorable(cfg) && Ran(cfg, s, t, ids, r)
    ensures |r.attempts| == |ids| && r.failed == FailedBy(s, ids, r.attempts, |ids|)
  {
  }

  lemma KeysStay(s: State, t: State)
    requires OnlyGroups(s, t)
    ensures s.alerts.Keys == t.alerts.Keys
  {
  }

  lemma CleanExtends(cfg: GroupingConfig, ops: seq<Op>, trace: seq<State>, ids: seq<RawId>, s: State, r: Round,
                     t: State)
    returns (allOps: seq<Op>, allTrace: seq<State>)
    requires Scorable(cfg) && IsRun(cfg, ops, trace) && AllSmooth(cfg, ops, trace) && trace[|ops|] == s
    requires Ran(cfg, s, t, ids, r) && SmoothRound(cfg, r)
    ensures IsRun(cfg, allOps, allTrace) && AllSmooth(cfg, allOps, allTrace)
    ensures allTrace[0] == trace[0] && allTrace[|allOps|] == t
  {
    hide AllSmooth, OnlyGroups, Next, GroupedBy, FailedBy, GroupedAlerts;
    allOps, allTrace := SmoothExtends(cfg, ops, trace, r.ops, r.trace);
  }

  /** Two smooth histories that grouped the same alerts agree on every pair. */
  lemma SamePartition(cfg: GroupingConfig, ops: seq<Op>, trace: seq<State>, ops': seq<Op>, trace': seq<State>,
                      t: State, t': State, x: AlertId, y: AlertId)
    requires Scorable(cfg) && Queryable(cfg) && IsRun(cfg, ops, trace) && IsRun(cfg, ops', trace')
    requires trace[0] == Empty && trace'[0] == Empty && trace[|ops|] == t && trace'[|ops'|] == t'
    requires AllSmooth(cfg, ops, trace) && AllSmooth(cfg, ops', trace')
    requires Cased(t.alerts) == Cased(t'.alerts) && GroupedAlerts(t.alerts) == GroupedAlerts(t'.alerts)
    ensures SameCase(t.alerts, x, y) <==> SameCase(t'.alerts, x, y)
  {
    InGrouped(t, x);
    InGrouped(t', x);
    hide Next, Smooth, Queryable, Cased, GroupedAlerts;
    if x in GroupedAlerts(t.alerts) {
      ArrivalOrderIsIrrelevant(cfg, ops, trace, ops', trace', x, y);
    }
  }
}
