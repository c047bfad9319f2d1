/** What holds between any two moments of a run: merges, versions, closed cases. */
module History {
  import opened Prelude
  import opened Config
  import opened Scoring
  import opened Engine
  import opened Lifecycle
  import opened Db
  import opened Invariants

  type Cases = map<CaseId, CaseRow>

  // ---- The forest of canonical pointers ------------------------------------

  function Up(cases: Cases, c: CaseId): CaseId
    requires c in cases
  {
    match cases[c].canonical case None => c case Some(d) => d
  }

  ghost predicate Pointers(cases: Cases) {
    forall c {:trigger Up(cases, c)} :: c in cases ==>
      Up(cases, c) in cases && (Up(cases, c) == c || Before(cases, Up(cases, c), c))
  }

  /** The surviving case at the end of a chain of merges. */
  ghost function Root(cases: Cases, c: CaseId): CaseId
    requires Pointers(cases) && c in cases
    decreases cases[c].createdAt, c
  {
    if Up(cases, c) == c then c else Root(cases, Up(cases, c))
  }

  lemma RowsGivePointers(cases: Cases, cfg: GroupingConfig)
    requires RowsRight(cases, cfg)
    ensures Pointers(cases)
  {
    forall c {:trigger Up(cases, c)} | c in cases
      ensures Up(cases, c) in cases && (Up(cases, c) == c || Before(cases, Up(cases, c), c))
    {
      assert RowRight(cases, cfg, c);
    }
  }

  /** A root is never a merged case, and it is no later than the case it stands for. */
  lemma {:induction false} RootIsLive(cases: Cases, cfg: GroupingConfig, c: CaseId)
    requires RowsRight(cases, cfg) && Pointers(cases) && c in cases
    ensures Live(cases, Root(cases, c))
    ensures Root(cases, c) == c || Before(cases, Root(cases, c), c)
    ensures Root(cases, c) == c <==> cases[c].status != Merged
    decreases cases[c].createdAt, c
  {
    assert RowRight(cases, cfg, c);
    if Up(cases, c) != c { RootIsLive(cases, cfg, Up(cases, c)); }
  }

  lemma {:induction false} SamePointersSameRoots(cases: Cases, after: Cases, c: CaseId)
    requires Pointers(cases) && Pointers(after) && c in cases && cases.Keys <= after.Keys
    requires forall d :: d in cases ==>
      after[d].createdAt == cases[d].createdAt && after[d].canonical == cases[d].canonical
    ensures Root(after, c) == Root(cases, c)
    decreases cases[c].createdAt, c
  {
    if Up(cases, c) != c { SamePointersSameRoots(cases, after, Up(cases, c)); }
  }

  // ---- Following things through merges -------------------------------------

  ghost predicate CasesFollow(s: Cases, t: Cases)
    requires Pointers(s) && Pointers(t)
  {
    forall c :: c in s ==> CaseFollows(s, t, c)
  }

  ghost predicate CaseFollows(s: Cases, t: Cases, c: CaseId)
    requires Pointers(s) && Pointers(t) && c in s
  {
    c in t && Root(s, c) in t && Root(t, c) == Root(t, Root(s, c))
  }

  /** What was attached to case `before` is now attached to `now`, the root of `before`. */
  ghost predicate Followed(t: Cases, before: CaseId, now: CaseId)
    requires Pointers(t)
  {
    before in t && now == Root(t, before)
  }

  ghost predicate LinksFollow(s: State, t: State)
    requires Pointers(t.cases)
  {
    forall x :: x in s.links ==> LinkFollows(s, t, x)
  }

  ghost predicate LinkFollows(s: State, t: State, x: AlertId)
    requires Pointers(t.cases) && x in s.links
  {
    && x in t.links && t.links[x].decision == s.links[x].decision && t.links[x].linkedBy == s.links[x].linkedBy
    && Followed(t.cases, s.links[x].caseId, t.links[x].caseId)
  }

  ghost predicate NotesFollow(s: State, t: State)
    requires Pointers(t.cases)
  {
    forall n :: n in s.notes ==> NoteFollows(s, t, n)
  }

  ghost predicate NoteFollows(s: State, t: State, n: NoteId)
    requires Pointers(t.cases) && n in s.notes
  {
    && n in t.notes && KeepsText(s.notes[n], t.notes[n])
    && Followed(t.cases, s.notes[n].caseId, t.notes[n].caseId)
  }

  /** Text and author are immutable, and a retraction is for good. */
  predicate KeepsText(before: NoteRow, now: NoteRow) {
    && now.body == before.body && now.author == before.author
    && (before.retracted ==> now.retracted && now.reason == before.reason)
  }

  ghost predicate DecisionsFollow(s: State, t: State)
    requires Pointers(t.cases)
  {
    |s.decisions| <= |t.decisions| && forall i :: 0 <= i < |s.decisions| ==>
      DecisionFollows(t.cases, s.decisions[i], t.decisions[i])
  }

  ghost predicate DecisionFollows(t: Cases, before: DecisionRow, now: DecisionRow)
    requires Pointers(t)
  {
    now.alertId == before.alertId && now.verdict == before.verdict && Followed(t, before.caseId, now.caseId)
  }

  ghost predicate AlertsFollow(s: State, t: State)
    requires Pointers(t.cases)
  {
    forall x :: x in s.alerts ==> x in t.alerts && AlertFollows(t.cases, s.alerts[x], t.alerts[x])
  }

  ghost predicate AlertFollows(t: Cases, before: AlertRow, now: AlertRow)
    requires Pointers(t)
  {
    && now.body == before.body && now.risk == before.risk
    && (before.caseId.Some? ==> now.caseId.Some? && Followed(t, before.caseId.value, now.caseId.value))
  }

  /** Everything attached to a case in `s` is attached, in `t`, to that case's root in `t`; nothing is lost. */
  ghost predicate Follows(s: State, t: State)
    requires Pointers(s.cases) && Pointers(t.cases)
  {
    CasesFollow(s.cases, t.cases) && LinksFollow(s, t) && NotesFollow(s, t)
    && DecisionsFollow(s, t) && AlertsFollow(s, t)
  }

  lemma FollowedThrough(t: Cases, u: Cases, a: CaseId, b: CaseId, c: CaseId)
    requires Pointers(t) && Pointers(u) && CasesFollow(t, u) && Followed(t, a, b) && Followed(u, b, c)
    ensures Followed(u, a, c)
  {
    assert CaseFollows(t, u, a);
  }

  lemma CasesFollowOn(s: Cases, t: Cases, u: Cases)
    requires Pointers(s) && Pointers(t) && Pointers(u) && CasesFollow(s, t) && CasesFollow(t, u)
    ensures CasesFollow(s, u)
  {
    forall c | c in s ensures CaseFollows(s, u, c) {
      assert CaseFollows(s, t, c);
      assert CaseFollows(t, u, c) && CaseFollows(t, u, Root(s, c));
    }
  }

  lemma FollowsOn(s: State, t: State, u: State)
    requires Pointers(s.cases) && Pointers(t.cases) && Pointers(u.cases) && Follows(s, t) && Follows(t, u)
    ensures Follows(s, u)
  {
    CasesFollowOn(s.cases, t.cases, u.cases);
    hide CasesFollow, Followed;
    forall x | x in s.links ensures LinkFollows(s, u, x) {
      assert LinkFollows(s, t, x) && LinkFollows(t, u, x);
      FollowedThrough(t.cases, u.cases, s.links[x].caseId, t.links[x].caseId, u.links[x].caseId);
    }
    forall n | n in s.notes ensures NoteFollows(s, u, n) {
      assert NoteFollows(s, t, n) && NoteFollows(t, u, n);
      FollowedThrough(t.cases, u.cases, s.notes[n].caseId, t.notes[n].caseId, u.notes[n].caseId);
    }
    forall i | 0 <= i < |s.decisions| ensures DecisionFollows(u.cases, s.decisions[i], u.decisions[i]) {
      assert DecisionFollows(t.cases, s.decisions[i], t.decisions[i]);
      assert DecisionFollows(u.cases, t.decisions[i], u.decisions[i]);
      FollowedThrough(t.cases, u.cases, s.decisions[i].caseId, t.decisions[i].caseId, u.decisions[i].caseId);
    }
    forall x | x in s.alerts ensures x in u.alerts && AlertFollows(u.cases, s.alerts[x], u.alerts[x]) {
      assert AlertFollows(t.cases, s.alerts[x], t.alerts[x]) && AlertFollows(u.cases, t.alerts[x], u.alerts[x]);
      if s.alerts[x].caseId.Some? {
        FollowedThrough(t.cases, u.cases, s.alerts[x].caseId.value, t.alerts[x].caseId.value, u.alerts[x].caseId.value);
      }
    }
  }

  // ---- One call ------------------------------------------------------------

  /** All roots move as the plan says. */
  ghost predicate RootsMove(s: Cases, t: Cases, plan: Plan)
    requires Pointers(s) && Pointers(t)
  {
    forall c :: c in s ==> RootMoves(s, t, plan, c)
  }

  ghost predicate RootMoves(s: Cases, t: Cases, plan: Plan, c: CaseId)
    requires Pointers(s) && Pointers(t) && c in s
  {
    c in t && Root(s, c) in s && Root(s, Root(s, c)) == Root(s, c) && Root(t, c) == Home(plan, Root(s, c))
  }

  lemma MovedRootsFollow(s: Cases, t: Cases, plan: Plan)
    requires Pointers(s) && Pointers(t) && RootsMove(s, t, plan)
    ensures CasesFollow(s, t)
    ensures forall c :: c in s && Root(s, c) == c ==> Followed(t, c, Home(plan, c))
  {
    forall c | c in s ensures CaseFollows(s, t, c) && (Root(s, c) == c ==> Followed(t, c, Home(plan, c))) {
      assert RootMoves(s, t, plan, c) && RootMoves(s, t, plan, Root(s, c));
    }
  }

  const NoMove := Plan(0, {}, {}, false)

  lemma RootsStay(s: Cases, t: Cases, cfg: GroupingConfig)
    requires RowsRight(s, cfg) && Pointers(s) && Pointers(t) && s.Keys <= t.Keys
    requires forall d :: d in s ==> t[d].createdAt == s[d].createdAt && t[d].canonical == s[d].canonical
    ensures RootsMove(s, t, NoMove)
  {
    forall c | c in s ensures RootMoves(s, t, NoMove, c) {
      RootIsLive(s, cfg, c);
      RootIsLive(s, cfg, Root(s, c));
      SamePointersSameRoots(s, t, c);
    }
  }

  lemma LiveIsRoot(cases: Cases, cfg: GroupingConfig, c: CaseId)
    requires RowsRight(cases, cfg) && Pointers(cases) && Live(cases, c)
    ensures Root(cases, c) == c
  {
    RootIsLive(cases, cfg, c);
  }

  lemma RowIsRight(cases: Cases, cfg: GroupingConfig, c: CaseId)
    requires RowsRight(cases, cfg) && c in cases
    ensures RowRight(cases, cfg, c)
  {
  }

  lemma RegroupTarget(cfg: GroupingConfig, db: State, plan: Plan, a: AlertId, v: Verdict, createdAt: nat, actor: string)
    requires GoodPlan(db.cases, plan) && (plan.target in db.cases ==> RowRight(db.cases, cfg, plan.target))
    ensures var after := Regroup(db, cfg, plan, a, v, createdAt, actor).cases;
            plan.target in after && Up(after, plan.target) == plan.target
  {
    hide AggregateRisk, MemberScores, MovedStreams, MovedDecisions, MovedNotes, MovedAlerts, MovedLinks, Db.Linked;
  }

  /** How the pointers of all old cases change. */
  ghost predicate PointersMove(cases: Cases, after: Cases, plan: Plan) {
    && cases.Keys <= after.Keys && plan.target in after && Up(after, plan.target) == plan.target
    && (forall d :: d in plan.losers ==> d in cases && Up(cases, d) == d)
    && (forall d :: d in cases ==> PointerMoves(cases, after, plan, d))
  }

  predicate PointerMoves(cases: Cases, after: Cases, plan: Plan, d: CaseId)
    requires d in cases
  {
    && d in after && after[d].createdAt == cases[d].createdAt
    && Up(after, d) == (if d in plan.losers then plan.target else Up(cases, d))
    && (d in plan.losers ==> Up(cases, d) == d)
  }

  lemma RegroupMovesPointer(cfg: GroupingConfig, db: State, plan: Plan, a: AlertId, v: Verdict, createdAt: nat,
                            actor: string, d: CaseId)
    requires GoodPlan(db.cases, plan) && d in db.cases && RowRight(db.cases, cfg, d)
    ensures PointerMoves(db.cases, Regroup(db, cfg, plan, a, v, createdAt, actor).cases, plan, d)
  {
    hide AggregateRisk, MemberScores, MovedStreams, MovedDecisions, MovedNotes, MovedAlerts, MovedLinks, Db.Linked;
  }

  lemma RegroupMovesPointers(cfg: GroupingConfig, db: State, plan: Plan, a: AlertId, v: Verdict, createdAt: nat,
                             actor: string)
    requires GoodPlan(db.cases, plan) && RowsRight(db.cases, cfg)
    ensures PointersMove(db.cases, Regroup(db, cfg, plan, a, v, createdAt, actor).cases, plan)
  {
    assert plan.created || plan.target in db.cases;
    assert forall d :: d in plan.losers ==> d in db.cases;
    var after := Regroup(db, cfg, plan, a, v, createdAt, actor).cases;
    forall d | d in db.cases ensures RowRight(db.cases, cfg, d) { RowIsRight(db.cases, cfg, d); }
    hide *;
    RegroupTarget(cfg, db, plan, a, v, createdAt, actor);
    forall d | d in db.cases ensures PointerMoves(db.cases, after, plan, d) {
      RegroupMovesPointer(cfg, db, plan, a, v, createdAt, actor, d);
    }
    PointersMoveIntro(db.cases, after, plan);
  }

  lemma PointersMoveIntro(cases: Cases, after: Cases, plan: Plan)
    requires forall d :: d in plan.losers ==> d in cases
    requires forall d :: d in cases ==> PointerMoves(cases, after, plan, d)
    requires plan.target in after && Up(after, plan.target) == plan.target
    ensures PointersMove(cases, after, plan)
  {
    forall d | d in cases ensures d in after { assert PointerMoves(cases, after, plan, d); }
    forall d | d in plan.losers ensures d in cases && Up(cases, d) == d { assert PointerMoves(cases, after, plan, d); }
    hide Up, PointerMoves;
  }

  /** A merge sends every root among the losers to the survivor and leaves the other roots alone. */
  lemma {:induction false} GroupMovesRoots(cases: Cases, after: Cases, plan: Plan, c: CaseId)
    requires Pointers(cases) && Pointers(after) && c in cases && PointersMove(cases, after, plan)
    ensures Root(after, c) == Home(plan, Root(cases, c))
    decreases cases[c].createdAt, c
  {
    assert PointerMoves(cases, after, plan, c);
    if c in plan.losers {
      assert Root(after, c) == Root(after, plan.target);
    } else if Up(cases, c) != c {
      GroupMovesRoots(cases, after, plan, Up(cases, c));
    }
  }

  lemma PointersMoveRoots(cases: Cases, after: Cases, cfg: GroupingConfig, plan: Plan)
    requires Pointers(cases) && Pointers(after) && RowsRight(cases, cfg) && PointersMove(cases, after, plan)
    ensures RootsMove(cases, after, plan)
  {
    hide RowsRight, PointersMove;
    forall c | c in cases ensures RootMoves(cases, after, plan, c) {
      assert c in after by { MoveKeeps(cases, after, plan, c); }
      RootIsLive(cases, cfg, c);
      RootIsLive(cases, cfg, Root(cases, c));
      GroupMovesRoots(cases, after, plan, c);
    }
  }

  lemma MoveKeeps(cases: Cases, after: Cases, plan: Plan, c: CaseId)
    requires PointersMove(cases, after, plan) && c in cases
    ensures c in after
  {
  }

  /** What links, notes and decisions name are live cases. */
  lemma NamedAreLive(cfg: GroupingConfig, db: State)
    requires Inv(cfg, db)
    ensures forall x :: x in db.links ==> Live(db.cases, db.links[x].caseId)
    ensures forall x :: x in db.alerts && db.alerts[x].caseId.Some? ==> Live(db.cases, db.alerts[x].caseId.value)
    ensures forall n :: n in db.notes ==> Live(db.cases, db.notes[n].caseId)
    ensures forall i :: 0 <= i < |db.decisions| ==> Live(db.cases, db.decisions[i].caseId)
  {
    forall x ensures LinkAgrees(db, x) {}
    forall x | x in db.alerts && db.alerts[x].caseId.Some? ensures Live(db.cases, db.alerts[x].caseId.value) {
      assert LinkAgrees(db, x);
    }
    forall i | 0 <= i < |db.decisions| ensures Live(db.cases, db.decisions[i].caseId) {
      assert LinkAgrees(db, db.decisions[i].alertId);
    }
  }

  /** Live cases are followed to their new home. */
  ghost predicate HomesFollow(s: Cases, t: Cases, plan: Plan)
    requires Pointers(t)
  {
    forall c :: Live(s, c) ==> Followed(t, c, Home(plan, c))
  }

  ghost predicate LinksMove(s: State, t: State, plan: Plan) {
    forall x :: x in s.links ==> x in t.links && t.links[x] == s.links[x].(caseId := Home(plan, s.links[x].caseId))
  }

  ghost predicate NotesMove(s: State, t: State, plan: Plan) {
    forall n :: n in s.notes ==> n in t.notes && NoteMoves(s.notes[n], t.notes[n], plan)
  }

  predicate NoteMoves(before: NoteRow, now: NoteRow, plan: Plan) {
    now.caseId == Home(plan, before.caseId) && KeepsText(before, now)
  }

  ghost predicate DecisionsMove(s: State, t: State, plan: Plan) {
    |s.decisions| <= |t.decisions| && forall i :: 0 <= i < |s.decisions| ==>
      t.decisions[i] == s.decisions[i].(caseId := Home(plan, s.decisions[i].caseId))
  }

  ghost predicate AlertsMove(s: State, t: State, plan: Plan) {
    forall x :: x in s.alerts ==> x in t.alerts && AlertMoves(s.alerts[x], t.alerts[x], plan)
  }

  predicate AlertMoves(before: AlertRow, now: AlertRow, plan: Plan) {
    && now.body == before.body && now.risk == before.risk
    && (before.caseId.Some? ==> now.caseId == Some(Home(plan, before.caseId.value)))
  }

  lemma MovedLinksFollow(s: State, t: State, plan: Plan)
    requires Pointers(t.cases) && HomesFollow(s.cases, t.cases, plan) && LinksMove(s, t, plan)
    requires forall x :: x in s.links ==> Live(s.cases, s.links[x].caseId)
    ensures LinksFollow(s, t)
  {
    hide Followed, Live, Home, Pointers;
    forall x | x in s.links ensures LinkFollows(s, t, x) {}
  }

  lemma MovedNotesFollow(s: State, t: State, plan: Plan)
    requires Pointers(t.cases) && HomesFollow(s.cases, t.cases, plan) && NotesMove(s, t, plan)
    requires forall n :: n in s.notes ==> Live(s.cases, s.notes[n].caseId)
    ensures NotesFollow(s, t)
  {
    hide Followed, Live, Home, Pointers;
    forall n | n in s.notes ensures NoteFollows(s, t, n) {}
  }

  lemma MovedDecisionsFollow(s: State, t: State, plan: Plan)
    requires Pointers(t.cases) && HomesFollow(s.cases, t.cases, plan) && DecisionsMove(s, t, plan)
    requires forall i :: 0 <= i < |s.decisions| ==> Live(s.cases, s.decisions[i].caseId)
    ensures DecisionsFollow(s, t)
  {
    hide Followed, Live, Home, Pointers;
  }

  lemma MovedAlertsFollow(s: State, t: State, plan: Plan)
    requires Pointers(t.cases) && HomesFollow(s.cases, t.cases, plan) && AlertsMove(s, t, plan)
    requires forall x :: x in s.alerts && s.alerts[x].caseId.Some? ==> Live(s.cases, s.alerts[x].caseId.value)
    ensures AlertsFollow(s, t)
  {
    hide Followed, Live, Home, Pointers;
    forall x | x in s.alerts ensures x in t.alerts && AlertFollows(t.cases, s.alerts[x], t.alerts[x]) {}
  }

  ghost predicate ThingsMove(s: State, t: State, plan: Plan) {
    LinksMove(s, t, plan) && NotesMove(s, t, plan) && DecisionsMove(s, t, plan) && AlertsMove(s, t, plan)
  }

  lemma MovesFollow(cfg: GroupingConfig, s: State, t: State, plan: Plan)
    requires Inv(cfg, s) && Pointers(s.cases) && Pointers(t.cases) && ThingsMove(s, t, plan)
    requires CasesFollow(s.cases, t.cases) && HomesFollow(s.cases, t.cases, plan)
    ensures Follows(s, t)
  {
    NamedAreLive(cfg, s);
    hide Inv, Pointers, CasesFollow, HomesFollow, LinksMove, NotesMove, DecisionsMove, AlertsMove, Live;
    MovedLinksFollow(s, t, plan);
    MovedNotesFollow(s, t, plan);
    MovedDecisionsFollow(s, t, plan);
    MovedAlertsFollow(s, t, plan);
  }

  // ---- Grouping ------------------------------------------------------------

  lemma RegroupHomesFollow(cfg: GroupingConfig, db: State, plan: Plan, a: AlertId, v: Verdict, createdAt: nat,
                           actor: string)
    requires GoodPlan(db.cases, plan) && RowsRight(db.cases, cfg) && Pointers(db.cases)
    requires Pointers(Regroup(db, cfg, plan, a, v, createdAt, actor).cases)
    ensures var after := Regroup(db, cfg, plan, a, v, createdAt, actor).cases;
            CasesFollow(db.cases, after) && HomesFollow(db.cases, after, plan)
  {
    var after := Regroup(db, cfg, plan, a, v, createdAt, actor).cases;
    RegroupMovesPointers(cfg, db, plan, a, v, createdAt, actor);
    hide Regroup, GoodPlan, RowsRight;
    PointersMoveRoots(db.cases, after, cfg, plan);
    MovedRootsFollow(db.cases, after, plan);
    hide RootsMove, CasesFollow, Followed;
    forall c | Live(db.cases, c) ensures Followed(after, c, Home(plan, c)) { LiveIsRoot(db.cases, cfg, c); }
  }

  lemma RegroupMoves(db: State, cfg: GroupingConfig, plan: Plan, a: AlertId, v: Verdict, createdAt: nat, actor: string)
    requires (plan.created || plan.target in db.cases) && a !in db.links && a in db.alerts && db.alerts[a].caseId.None?
    ensures ThingsMove(db, Regroup(db, cfg, plan, a, v, createdAt, actor), plan)
  {
    hide AggregateRisk, MemberScores, MovedStreams, MovedCases, Home, Linked;
  }

  lemma RegroupFollows(cfg: GroupingConfig, db: State, after: State, plan: Plan, a: AlertId, v: Verdict, createdAt: nat,
                       actor: string)
    requires GoodPlan(db.cases, plan) && Inv(cfg, db) && a in db.alerts && db.alerts[a].caseId.None?
    requires after == Regroup(db, cfg, plan, a, v, createdAt, actor)
    requires Pointers(db.cases) && Pointers(after.cases)
    ensures Follows(db, after)
  {
    assert plan.created || plan.target in db.cases;
    InvParts(cfg, db);
    NotLinked(cfg, db, a);
    hide *;
    RegroupHomesFollow(cfg, db, plan, a, v, createdAt, actor);
    RegroupMoves(db, cfg, plan, a, v, createdAt, actor);
    MovesFollow(cfg, db, after, plan);
  }

  lemma NotLinked(cfg: GroupingConfig, db: State, a: AlertId)
    requires Inv(cfg, db) && a in db.alerts && db.alerts[a].caseId.None?
    ensures a !in db.links
  {
    assert LinkAgrees(db, a);
  }

  /** A call that leaves case pointers alone and keeps everything where it is. */
  ghost predicate Quiet(s: State, t: State) {
    && s.cases.Keys <= t.cases.Keys
    && (forall c :: c in s.cases ==>
         t.cases[c].createdAt == s.cases[c].createdAt && t.cases[c].canonical == s.cases[c].canonical)
    && ThingsMove(s, t, NoMove)
  }

  lemma QuietFollows(cfg: GroupingConfig, s: State, t: State)
    requires Inv(cfg, s) && Pointers(s.cases) && Pointers(t.cases) && Quiet(s, t)
    ensures Follows(s, t)
  {
    InvParts(cfg, s);
    RootsStay(s.cases, t.cases, cfg);
    MovedRootsFollow(s.cases, t.cases, NoMove);
    forall c | Live(s.cases, c) ensures Followed(t.cases, c, Home(NoMove, c)) { LiveIsRoot(s.cases, cfg, c); }
    hide ThingsMove, Inv;
    MovesFollow(cfg, s, t, NoMove);
  }

  lemma OtherCallsAreQuiet(cfg: GroupingConfig, s: State, op: Op, t: State)
    requires Scorable(cfg) && Next(cfg, s, op, t) && !op.GroupAlert?
    ensures Quiet(s, t)
  {
    hide Next, ThingsMove;
    StillCases(cfg, s, op, t);
    OtherCallsMoveNothing(cfg, s, op, t);
    StillNotes(cfg, s, op, t);
    StillThings(s, t);
  }

  lemma OtherCallsMoveNothing(cfg: GroupingConfig, s: State, op: Op, t: State)
    requires Scorable(cfg) && Next(cfg, s, op, t) && !op.GroupAlert?
    ensures t.links == s.links && t.decisions == s.decisions
    ensures forall x :: x in s.alerts ==> x in t.alerts && t.alerts[x] == s.alerts[x]
  {
    hide TransitionFailure, AssignError, NoteError, RetractError, Record, TransitionedRow;
  }

  lemma StillNotes(cfg: GroupingConfig, s: State, op: Op, t: State)
    requires Scorable(cfg) && Next(cfg, s, op, t) && !op.GroupAlert?
    ensures forall n :: n in s.notes ==> n in t.notes && NoteMoves(s.notes[n], t.notes[n], NoMove)
  {
    hide TransitionFailure, AssignError, NoteError, RetractError, Record, TransitionedRow;
  }

  lemma StillCases(cfg: GroupingConfig, s: State, op: Op, t: State)
    requires Scorable(cfg) && Next(cfg, s, op, t) && !op.GroupAlert?
    ensures s.cases.Keys <= t.cases.Keys
    ensures forall c :: c in s.cases ==>
      t.cases[c].createdAt == s.cases[c].createdAt && t.cases[c].canonical == s.cases[c].canonical
  {
    hide TransitionFailure, AssignError, NoteError, RetractError, Record;
  }

  lemma StillThings(s: State, t: State)
    requires t.links == s.links && t.decisions == s.decisions
    requires forall x :: x in s.alerts ==> x in t.alerts && t.alerts[x] == s.alerts[x]
    requires forall n :: n in s.notes ==> n in t.notes && NoteMoves(s.notes[n], t.notes[n], NoMove)
    ensures ThingsMove(s, t, NoMove)
  {
  }

  lemma InvGivesPointers(cfg: GroupingConfig, db: State)
    requires Inv(cfg, db)
    ensures Pointers(db.cases)
  {
    InvParts(cfg, db);
    RowsGivePointers(db.cases, cfg);
  }

  lemma NextFollows(cfg: GroupingConfig, s: State, op: Op, t: State)
    requires Scorable(cfg) && Inv(cfg, s) && Inv(cfg, t) && Next(cfg, s, op, t)
    requires Pointers(s.cases) && Pointers(t.cases)
    ensures Follows(s, t)
  {
    hide Inv, Quiet, Pointers, Follows, Regroup, IsPlan, IsAnswer, IsDecision;
    if op.GroupAlert? {
      var plan, d :| Groups(s, cfg, op.a, op.rows, op.newId, op.createdAt, op.actor, plan, d, t);
      PlanIsGood(s.cases, Matched(s.alerts, cfg, op.a, op.rows), op.newId, plan);
      RegroupFollows(cfg, s, t, plan, op.a, d.verdict, op.createdAt, op.actor);
    } else {
      OtherCallsAreQuiet(cfg, s, op, t);
      QuietFollows(cfg, s, t);
    }
  }

  lemma FollowsItself(cfg: GroupingConfig, s: State)
    requires Inv(cfg, s) && Pointers(s.cases)
    ensures Follows(s, s)
  {
    QuietFollows(cfg, s, s);
  }

  /** Merge forest over whole runs: whatever was ever attached to a case is, at every later moment,
      attached to that case's root at that moment. */
  lemma {:induction false} MergesLoseNothing(cfg: GroupingConfig, ops: seq<Op>, trace: seq<State>, i: nat, j: nat)
    requires Scorable(cfg) && IsRun(cfg, ops, trace) && trace[0] == Empty && i <= j < |trace|
    ensures Pointers(trace[i].cases) && Pointers(trace[j].cases) && Follows(trace[i], trace[j])
    decreases j
  {
    hide Inv, Pointers, Follows, Next;
    RunKeepsInv(cfg, ops, trace, i);
    RunKeepsInv(cfg, ops, trace, j);
    InvGivesPointers(cfg, trace[i]);
    InvGivesPointers(cfg, trace[j]);
    if i == j {
      FollowsItself(cfg, trace[i]);
    } else {
      MergesLoseNothing(cfg, ops, trace, i, j - 1);
      RunKeepsInv(cfg, ops, trace, j - 1);
      NextFollows(cfg, trace[j - 1], ops[j - 1], trace[j]);
      FollowsOn(trace[i], trace[j - 1], trace[j]);
    }
  }

  // ---- Versions ------------------------------------------------------------

  /** The row and the alert set of `c` are the same in both states. */
  ghost predicate Undisturbed(s: State, t: State, c: CaseId) {
    c in s.cases && c in t.cases && t.cases[c] == s.cases[c] && Members(t.alerts, c) == Members(s.alerts, c)
  }

  /** Between two moments a version never falls, and an unchanged version on a live case means an unchanged case;
      a merged case stays exactly as it was and holds no alerts. */
  ghost predicate VersionGuards(s: State, t: State, c: CaseId) {
    && c in t.cases && c in s.cases && s.cases[c].version <= t.cases[c].version
    && (t.cases[c].version == s.cases[c].version && t.cases[c].status != Merged ==> Undisturbed(s, t, c))
    && (s.cases[c].status == Merged ==> Undisturbed(s, t, c))
  }

  lemma RegroupGuards(cfg: GroupingConfig, db: State, plan: Plan, a: AlertId, v: Verdict, createdAt: nat, actor: string,
                      c: CaseId)
    requires GoodPlan(db.cases, plan) && a in db.alerts && db.alerts[a].caseId.None? && a !in db.links && c in db.cases
    ensures VersionGuards(db, Regroup(db, cfg, plan, a, v, createdAt, actor), c)
  {
    GroupOnStream(db, cfg, plan, a, v, createdAt, actor, c);
    if c != plan.target && c !in plan.losers { BystandersKeepAlerts(db, plan, a, c); }
    hide AggregateRisk, MemberScores, MovedStreams, MovedDecisions, MovedNotes, MovedLinks, MovedCases, Linked;
  }

  lemma NextGuards(cfg: GroupingConfig, s: State, op: Op, t: State, c: CaseId)
    requires Scorable(cfg) && Inv(cfg, s) && Next(cfg, s, op, t) && c in s.cases
    ensures VersionGuards(s, t, c)
  {
    hide Inv, Regroup, IsPlan, IsAnswer, IsDecision, VersionGuards;
    if op.GroupAlert? {
      var plan, d :| Groups(s, cfg, op.a, op.rows, op.newId, op.createdAt, op.actor, plan, d, t);
      PlanIsGood(s.cases, Matched(s.alerts, cfg, op.a, op.rows), op.newId, plan);
      NotLinked(cfg, s, op.a);
      RegroupGuards(cfg, s, plan, op.a, d.verdict, op.createdAt, op.actor, c);
    } else {
      OtherCallsGuard(cfg, s, op, t, c);
    }
  }

  lemma OtherCallsGuard(cfg: GroupingConfig, s: State, op: Op, t: State, c: CaseId)
    requires Scorable(cfg) && Next(cfg, s, op, t) && c in s.cases && !op.GroupAlert?
    ensures VersionGuards(s, t, c)
  {
  }

  /** No lost update: a transition that succeeds with expected version `v` acts on exactly the row and
      alert set that any earlier reader of version `v` saw, although a merge does not bump a loser's version. */
  lemma {:induction false} VersionsGuardRuns(cfg: GroupingConfig, ops: seq<Op>, trace: seq<State>, i: nat, j: nat,
                                             c: CaseId)
    requires Scorable(cfg) && IsRun(cfg, ops, trace) && trace[0] == Empty && i <= j < |trace| && c in trace[i].cases
    ensures VersionGuards(trace[i], trace[j], c)
    decreases j
  {
    hide Inv, Next;
    if i < j {
      VersionsGuardRuns(cfg, ops, trace, i, j - 1, c);
      RunKeepsInv(cfg, ops, trace, j - 1);
      NextGuards(cfg, trace[j - 1], ops[j - 1], trace[j], c);
    }
  }

  lemma NoLostUpdate(cfg: GroupingConfig, ops: seq<Op>, trace: seq<State>, i: nat, j: nat, c: CaseId,
                     target: Status, reason: Option<string>, disposition: Option<string>, v: nat)
    requires Scorable(cfg) && IsRun(cfg, ops, trace) && trace[0] == Empty && i <= j < |trace|
    requires c in trace[i].cases && trace[i].cases[c].version == v
    requires TransitionFailure(trace[j], cfg, c, target, reason, disposition, Some(v)).None?
    ensures Undisturbed(trace[i], trace[j], c)
  {
    VersionsGuardRuns(cfg, ops, trace, i, j, c);
  }

  // ---- Case streams --------------------------------------------------------

  predicate IsMerged(db: State, c: CaseId) { c in db.cases && db.cases[c].status == Merged }

  /** Events are only ever appended, and nothing more to a merged case's stream. */
  ghost predicate StreamGrows(s: State, t: State, c: CaseId) {
    Stream(s, c) <= Stream(t, c) && (IsMerged(s, c) ==> IsMerged(t, c) && Stream(t, c) == Stream(s, c))
  }

  lemma OtherCallsAppend(cfg: GroupingConfig, s: State, op: Op, t: State, c: CaseId)
    requires Scorable(cfg) && NotesLive(s) && Next(cfg, s, op, t) && !op.GroupAlert?
    ensures StreamGrows(s, t, c)
  {
  }

  lemma RegroupAppends(cfg: GroupingConfig, db: State, plan: Plan, a: AlertId, v: Verdict, createdAt: nat,
                       actor: string, c: CaseId)
    requires GoodPlan(db.cases, plan)
    ensures StreamGrows(db, Regroup(db, cfg, plan, a, v, createdAt, actor), c)
  {
    assert plan.created || plan.target in db.cases;
    hide Regroup, NewEvents, Stream;
    GroupOnStream(db, cfg, plan, a, v, createdAt, actor, c);
    NewEventsAre(db.cases, plan, a, v.how, c);
  }

  lemma NextAppends(cfg: GroupingConfig, s: State, op: Op, t: State, c: CaseId)
    requires Scorable(cfg) && Inv(cfg, s) && Next(cfg, s, op, t)
    ensures StreamGrows(s, t, c)
  {
    InvParts(cfg, s);
    hide Inv, Groups, Regroup, StreamGrows, NotesLive, GoodPlan;
    if op.GroupAlert? {
      var plan, d :| Groups(s, cfg, op.a, op.rows, op.newId, op.createdAt, op.actor, plan, d, t);
      GroupsGood(cfg, s, op.a, op.rows, op.newId, op.createdAt, op.actor, plan, d, t);
      RegroupAppends(cfg, s, plan, op.a, d.verdict, op.createdAt, op.actor, c);
    } else {
      OtherCallsAppend(cfg, s, op, t, c);
    }
  }

  /** Audit history over whole runs: what a case's stream recorded stays, in place, and a merged case's stream is
      complete. */
  lemma {:induction false} StreamsOnlyGrow(cfg: GroupingConfig, ops: seq<Op>, trace: seq<State>, i: nat, j: nat,
                                           c: CaseId)
    requires Scorable(cfg) && IsRun(cfg, ops, trace) && trace[0] == Empty && i <= j < |trace|
    ensures StreamGrows(trace[i], trace[j], c)
    decreases j
  {
    hide Inv, Next;
    if i < j {
      StreamsOnlyGrow(cfg, ops, trace, i, j - 1, c);
      RunKeepsInv(cfg, ops, trace, j - 1);
      NextAppends(cfg, trace[j - 1], ops[j - 1], trace[j], c);
    }
  }

  /** A merged case is final: its row never changes again and nothing ever names it again. */
  lemma MergedIsFinal(cfg: GroupingConfig, ops: seq<Op>, trace: seq<State>, i: nat, j: nat, c: CaseId)
    requires Scorable(cfg) && IsRun(cfg, ops, trace) && trace[0] == Empty && i <= j < |trace|
    requires c in trace[i].cases && trace[i].cases[c].status == Merged
    ensures c in trace[j].cases && trace[j].cases[c] == trace[i].cases[c]
    ensures forall x :: x in trace[j].alerts ==> trace[j].alerts[x].caseId != Some(c)
    ensures forall x :: x in trace[j].links ==> trace[j].links[x].caseId != c
    ensures forall n :: n in trace[j].notes ==> trace[j].notes[n].caseId != c
    ensures forall k :: 0 <= k < |trace[j].decisions| ==> trace[j].decisions[k].caseId != c
    ensures Stream(trace[j], c) == Stream(trace[i], c)
  {
    VersionsGuardRuns(cfg, ops, trace, i, j, c);
    StreamsOnlyGrow(cfg, ops, trace, i, j, c);
    RunKeepsInv(cfg, ops, trace, j);
    NamedAreLive(cfg, trace[j]);
  }

  /** The events of one grouping call: a loser's stream tells of the merge and names the survivor; the target's
      stream gets the event of the linked alert, the same whether or not anything was merged into it. */
  lemma GroupingEvents(cfg: GroupingConfig, db: State, a: AlertId, rows: set<AlertId>, newId: CaseId, createdAt: nat,
                       actor: string, plan: Plan, d: Decision, after: State, c: CaseId)
    requires Scorable(cfg) && Groups(db, cfg, a, rows, newId, createdAt, actor, plan, d, after)
    ensures c in plan.losers ==>
      c in db.cases && Stream(after, c) == Stream(db, c) + [MergedAway(db.cases[c].status, plan.target)]
    ensures c == plan.target ==> Stream(after, c) == Stream(db, c) + [AlertLinked(a, d.verdict.how)]
    ensures c in plan.flagged ==> Stream(after, c) == Stream(db, c) + [ReviewFlagged(a)]
    ensures c !in plan.losers + plan.flagged + {plan.target} ==> Stream(after, c) == Stream(db, c)
  {
    GroupsGood(cfg, db, a, rows, newId, createdAt, actor, plan, d, after);
    hide *;
    GroupOnStream(db, cfg, plan, a, d.verdict, createdAt, actor, c);
    NewEventsAre(db.cases, plan, a, d.verdict.how, c);
  }

  lemma GroupsGood(cfg: GroupingConfig, db: State, a: AlertId, rows: set<AlertId>, newId: CaseId, createdAt: nat,
                   actor: string, plan: Plan, d: Decision, after: State)
    requires Scorable(cfg) && Groups(db, cfg, a, rows, newId, createdAt, actor, plan, d, after)
    ensures GoodPlan(db.cases, plan) && (plan.created || plan.target in db.cases)
    ensures after == Regroup(db, cfg, plan, a, d.verdict, createdAt, actor)
  {
    hide Regroup, IsAnswer, IsDecision, Matched;
    PlanIsGood(db.cases, Matched(db.alerts, cfg, a, rows), newId, plan);
  }

  /** What a grouping call stores about its alert: a new decision row with the engine's verdict, and a link to it. */
  lemma StoredDecision(cfg: GroupingConfig, db: State, a: AlertId, rows: set<AlertId>, newId: CaseId, createdAt: nat,
                       actor: string, plan: Plan, d: Decision, after: State)
    requires Scorable(cfg) && Groups(db, cfg, a, rows, newId, createdAt, actor, plan, d, after)
    ensures |after.decisions| == |db.decisions| + 1
    ensures a in after.links && after.links[a].decision == |db.decisions| && after.links[a].linkedBy == actor
    ensures var row := after.decisions[|db.decisions|];
            && row.alertId == a && row.verdict == d.verdict
            && row.caseId == plan.target && after.links[a].caseId == plan.target
  {
    GroupsGood(cfg, db, a, rows, newId, createdAt, actor, plan, d, after);
    hide Groups, GoodPlan, MovedAlerts, MovedLinks, MovedCases, MovedNotes, MovedStreams, AggregateRisk, MemberScores,
      Db.Linked;
  }

  /** The call at moment `j` grouped alert `a` with engine decision `d`. */
  ghost predicate DecidedAt(cfg: GroupingConfig, ops: seq<Op>, trace: seq<State>, j: nat, a: AlertId, d: Decision)
    requires Scorable(cfg) && |trace| == |ops| + 1 && j < |ops|
  {
    && ops[j].GroupAlert? && ops[j].a == a
    && a in trace[j].alerts && trace[j].alerts[a].caseId.None? && IsAnswer(trace[j].alerts, cfg, a, ops[j].rows)
    && IsDecision(RunOn(trace[j].alerts, ops[j].rows + {a}), cfg, NoPins, a, d)
  }

  /** Row `k` is about `op`'s alert and holds verdict `v`; that alert's link points at it and names `op`'s actor. */
  ghost predicate RowHolds(t: State, k: nat, op: Op, v: Verdict)
    requires op.GroupAlert?
  {
    && k < |t.decisions| && t.decisions[k].alertId == op.a && t.decisions[k].verdict == v
    && op.a in t.links && t.links[op.a].decision == k && t.links[op.a].linkedBy == op.actor
  }

  lemma NextAccounts(cfg: GroupingConfig, ops: seq<Op>, trace: seq<State>, i: nat, k: nat) returns (d: Decision)
    requires Scorable(cfg) && IsRun(cfg, ops, trace) && i < |ops| && k < |trace[i + 1].decisions|
    requires |trace[i].decisions| <= k
    ensures DecidedAt(cfg, ops, trace, i, trace[i + 1].decisions[k].alertId, d)
    ensures RowHolds(trace[i + 1], k, ops[i], d.verdict)
  {
    hide *;
    StepOf(cfg, ops, trace, i);
    var s, op, t := trace[i], ops[i], trace[i + 1];
    if op.GroupAlert? {
      d := GroupDecides(cfg, s, op, t);
      AccountIntro(cfg, ops, trace, i, k, d);
    } else {
      OtherCallsMoveNothing(cfg, s, op, t);
    }
  }

  lemma StepOf(cfg: GroupingConfig, ops: seq<Op>, trace: seq<State>, i: nat)
    requires Scorable(cfg) && IsRun(cfg, ops, trace) && i < |ops|
    ensures |trace| == |ops| + 1 && Next(cfg, trace[i], ops[i], trace[i + 1])
  {
    hide Next;
  }

  /** The decision of a grouping step, and what the step stored of it. */
  ghost predicate Decides(cfg: GroupingConfig, s: State, op: Op, t: State, d: Decision)
    requires Scorable(cfg) && op.GroupAlert?
  {
    && op.a in s.alerts && s.alerts[op.a].caseId.None? && IsAnswer(s.alerts, cfg, op.a, op.rows)
    && IsDecision(RunOn(s.alerts, op.rows + {op.a}), cfg, NoPins, op.a, d)
    && |t.decisions| == |s.decisions| + 1
    && t.decisions[|s.decisions|].alertId == op.a && t.decisions[|s.decisions|].verdict == d.verdict
    && op.a in t.links && t.links[op.a].decision == |s.decisions| && t.links[op.a].linkedBy == op.actor
  }

  lemma GroupDecides(cfg: GroupingConfig, s: State, op: Op, t: State) returns (d: Decision)
    requires Scorable(cfg) && op.GroupAlert? && Next(cfg, s, op, t)
    ensures Decides(cfg, s, op, t, d)
  {
    hide IsDecision, IsAnswer, IsPlan, Regroup, Matched, RunOn;
    var plan, e :| Groups(s, cfg, op.a, op.rows, op.newId, op.createdAt, op.actor, plan, e, t);
    StoredDecision(cfg, s, op.a, op.rows, op.newId, op.createdAt, op.actor, plan, e, t);
    d := e;
  }

  lemma AccountIntro(cfg: GroupingConfig, ops: seq<Op>, trace: seq<State>, i: nat, k: nat, d: Decision)
    requires Scorable(cfg) && |trace| == |ops| + 1 && i < |ops| && |trace[i].decisions| <= k < |trace[i + 1].decisions|
    requires ops[i].GroupAlert? && Decides(cfg, trace[i], ops[i], trace[i + 1], d)
    ensures DecidedAt(cfg, ops, trace, i, trace[i + 1].decisions[k].alertId, d)
    ensures RowHolds(trace[i + 1], k, ops[i], d.verdict)
  {
    hide IsDecision, IsAnswer, RunOn;
  }

  /** Row `k`, and its alert's link, say the same in both states. */
  predicate SameRow(s: State, t: State, k: nat)
    requires k < |s.decisions|
  {
    && k < |t.decisions| && t.decisions[k].alertId == s.decisions[k].alertId
    && t.decisions[k].verdict == s.decisions[k].verdict
    && var a := s.decisions[k].alertId;
       a in s.links ==>
         a in t.links && t.links[a].decision == s.links[a].decision && t.links[a].linkedBy == s.links[a].linkedBy
  }

  lemma RowStays(s: State, t: State, k: nat, op: Op, v: Verdict)
    requires op.GroupAlert? && RowHolds(s, k, op, v) && SameRow(s, t, k)
    ensures RowHolds(t, k, op, v)
  {
  }

  lemma FollowedRow(s: State, t: State, k: nat)
    requires Pointers(s.cases) && Pointers(t.cases) && Follows(s, t) && k < |s.decisions|
    ensures SameRow(s, t, k)
  {
    hide CasesFollow, NotesFollow, AlertsFollow, Pointers, Followed;
    assert DecisionFollows(t.cases, s.decisions[k], t.decisions[k]);
    var a := s.decisions[k].alertId;
    if a in s.links { assert LinkFollows(s, t, a); }
  }

  /** Over whole runs: every stored verdict is the engine's for the run that grouped its alert, and it was never
      changed. */
  lemma {:induction false} StoredVerdictsAreReal(cfg: GroupingConfig, ops: seq<Op>, trace: seq<State>, i: nat, k: nat)
    returns (j: nat, d: Decision)
    requires Scorable(cfg) && IsRun(cfg, ops, trace) && trace[0] == Empty && i < |trace|
    requires k < |trace[i].decisions|
    ensures j < i && DecidedAt(cfg, ops, trace, j, trace[i].decisions[k].alertId, d)
    ensures RowHolds(trace[i], k, ops[j], d.verdict)
  {
    hide DecidedAt, RowHolds, Next, Follows, Pointers, SameRow;
    if k < |trace[i - 1].decisions| {
      j, d := StoredVerdictsAreReal(cfg, ops, trace, i - 1, k);
      MergesLoseNothing(cfg, ops, trace, i - 1, i);
      FollowedRow(trace[i - 1], trace[i], k);
      DecidedGroups(cfg, ops, trace, j, trace[i - 1].decisions[k].alertId, d);
      RowStays(trace[i - 1], trace[i], k, ops[j], d.verdict);
      SameAlert(trace[i - 1], trace[i], k);
    } else {
      j := i - 1;
      d := NextAccounts(cfg, ops, trace, i - 1, k);
      DecidedGroups(cfg, ops, trace, j, trace[i].decisions[k].alertId, d);
    }
  }

  lemma DecidedGroups(cfg: GroupingConfig, ops: seq<Op>, trace: seq<State>, j: nat, a: AlertId, d: Decision)
    requires Scorable(cfg) && |trace| == |ops| + 1 && j < |ops| && DecidedAt(cfg, ops, trace, j, a, d)
    ensures ops[j].GroupAlert?
  {
    hide IsDecision, IsAnswer;
  }

  lemma SameAlert(s: State, t: State, k: nat)
    requires k < |s.decisions| && SameRow(s, t, k)
    ensures k < |t.decisions| && t.decisions[k].alertId == s.decisions[k].alertId
  {
  }

  lemma NewEventsAre(cases: Cases, plan: Plan, a: AlertId, how: Method, c: CaseId)
    requires GoodPlan(cases, plan)
    ensures c in plan.losers ==>
      c in cases && NewEvents(cases, plan, a, how, c) == [MergedAway(cases[c].status, plan.target)]
    ensures c == plan.target ==> NewEvents(cases, plan, a, how, c) == [AlertLinked(a, how)]
    ensures c in plan.flagged ==> NewEvents(cases, plan, a, how, c) == [ReviewFlagged(a)]
    ensures c !in plan.losers + plan.flagged + {plan.target} ==> NewEvents(cases, plan, a, how, c) == []
  {
  }

  /** The only way to become merged is to lose a merge while not closed; the pointer then names a live case. */
  lemma OnlyMergesMerge(cfg: GroupingConfig, s: State, op: Op, t: State, c: CaseId)
    requires Scorable(cfg) && Inv(cfg, s) && Next(cfg, s, op, t)
    requires c in t.cases && t.cases[c].status == Merged && !(c in s.cases && s.cases[c].status == Merged)
    ensures op.GroupAlert? && c in s.cases && s.cases[c].status != Closed
    ensures t.cases[c].canonical.Some? && Live(t.cases, t.cases[c].canonical.value)
    ensures t.alerts[op.a].caseId == t.cases[c].canonical
  {
    hide Inv, Regroup, IsPlan, IsAnswer, IsDecision;
    if op.GroupAlert? {
      var plan, d :| Groups(s, cfg, op.a, op.rows, op.newId, op.createdAt, op.actor, plan, d, t);
      PlanIsGood(s.cases, Matched(s.alerts, cfg, op.a, op.rows), op.newId, plan);
      GroupOnStream(s, cfg, plan, op.a, d.verdict, op.createdAt, op.actor, c);
      GroupOnAlert(s, cfg, plan, op.a, d.verdict, op.createdAt, op.actor, op.a);
      StaysLive(s, cfg, plan, op.a, d.verdict, op.createdAt, op.actor, c);
    } else {
      OthersNeverMerge(cfg, s, op, t, c);
    }
  }

  lemma OthersNeverMerge(cfg: GroupingConfig, s: State, op: Op, t: State, c: CaseId)
    requires Scorable(cfg) && Next(cfg, s, op, t) && !op.GroupAlert?
    requires c in t.cases && t.cases[c].status == Merged
    ensures c in s.cases && s.cases[c].status == Merged
  {
    hide NoteError, RetractError, Record;
  }

  // ---- Closed cases --------------------------------------------------------

  /** The case's alert set and aggregates are the same in both states. */
  ghost predicate Frozen(s: State, t: State, c: CaseId) {
    && c in s.cases && c in t.cases && Members(t.alerts, c) == Members(s.alerts, c)
    && t.cases[c].alertCount == s.cases[c].alertCount && t.cases[c].riskScore == s.cases[c].riskScore
  }

  /** The call re-opened the case; a refused request changes nothing. */
  predicate Reopens(s: State, op: Op, t: State, c: CaseId) {
    op.TransitionCase? && op.c == c && op.target == InProgress && t != s
  }

  predicate IsClosed(db: State, c: CaseId) { c in db.cases && db.cases[c].status == Closed }

  lemma NextFreezes(cfg: GroupingConfig, s: State, op: Op, t: State, c: CaseId)
    requires Scorable(cfg) && Inv(cfg, s) && Next(cfg, s, op, t) && IsClosed(s, c)
    ensures Frozen(s, t, c)
    ensures IsClosed(t, c) <==> !Reopens(s, op, t, c)
  {
    hide Inv, IsPlan, IsAnswer, IsDecision;
    if op.GroupAlert? {
      var plan, d :| Groups(s, cfg, op.a, op.rows, op.newId, op.createdAt, op.actor, plan, d, t);
      PlanIsGood(s.cases, Matched(s.alerts, cfg, op.a, op.rows), op.newId, plan);
      NotLinked(cfg, s, op.a);
      GroupOnStream(s, cfg, plan, op.a, d.verdict, op.createdAt, op.actor, c);
      BystandersKeepAlerts(s, plan, op.a, c);
      hide Regroup, MovedAlerts;
      assert t.alerts == MovedAlerts(s.alerts, plan, op.a) by {
        RegroupAlerts(s, cfg, plan, op.a, d.verdict, op.createdAt, op.actor);
      }
    }
  }

  lemma RegroupAlerts(db: State, cfg: GroupingConfig, plan: Plan, a: AlertId, v: Verdict, createdAt: nat, actor: string)
    requires plan.created || plan.target in db.cases
    ensures Regroup(db, cfg, plan, a, v, createdAt, actor).alerts == MovedAlerts(db.alerts, plan, a)
  {
    hide MovedAlerts, MovedLinks, MovedCases, MovedStreams, MovedNotes, MovedDecisions, AggregateRisk,
      MemberScores, Linked;
  }

  /** While a case stays closed, whatever matching alerts arrive, and in the call that re-opens it, it keeps its
      alerts, count and risk; nothing but a successful re-open ends the closed status. */
  lemma {:induction false} ClosedStaysFrozen(cfg: GroupingConfig, ops: seq<Op>, trace: seq<State>, i: nat, j: nat,
                                             c: CaseId)
    requires Scorable(cfg) && IsRun(cfg, ops, trace) && trace[0] == Empty && i <= j < |trace|
    requires IsClosed(trace[i], c) && forall k :: i <= k < j ==> IsClosed(trace[k], c)
    ensures Frozen(trace[i], trace[j], c)
    ensures IsClosed(trace[j], c) <==> i == j || !Reopens(trace[j - 1], ops[j - 1], trace[j], c)
    decreases j
  {
    hide Inv, Next;
    if i < j {
      ClosedStaysFrozen(cfg, ops, trace, i, j - 1, c);
      RunKeepsInv(cfg, ops, trace, j - 1);
      NextFreezes(cfg, trace[j - 1], ops[j - 1], trace[j], c);
    }
  }

  // ---- Conservation --------------------------------------------------------

  function TotalCount(cases: Cases, among: set<CaseId>): nat
    requires among <= cases.Keys
  {
    if among == {} then 0 else
    var c := Least(among);
    cases[c].alertCount + TotalCount(cases, among - {c})
  }

  function LinksInto(links: map<AlertId, LinkRow>, among: set<CaseId>): set<AlertId> {
    set x | x in links && links[x].caseId in among
  }

  lemma LinksSplit(links: map<AlertId, LinkRow>, among: set<CaseId>, c: CaseId)
    requires c in among
    ensures |LinksInto(links, among)| == |Db.Linked(links, c)| + |LinksInto(links, among - {c})|
  {
    var rest := LinksInto(links, among - {c});
    assert LinksInto(links, among) == Db.Linked(links, c) + rest;
    assert Db.Linked(links, c) !! rest;
  }

  lemma {:induction false} CountsAddUp(db: State, cfg: GroupingConfig, among: set<CaseId>)
    requires CountsRight(db, cfg) && among <= db.cases.Keys && forall c :: c in among ==> Live(db.cases, c)
    ensures TotalCount(db.cases, among) == |LinksInto(db.links, among)|
    decreases |among|
  {
    hide AggregateRisk, MemberScores, Db.Linked;
    if among == {} {
      assert LinksInto(db.links, among) == {};
    } else {
      var c := Least(among);
      CountsAddUp(db, cfg, among - {c});
      LinksSplit(db.links, among, c);
    }
  }

  function LiveCases(cases: Cases): set<CaseId> { set c | c in cases && Live(cases, c) }

  function GroupedAlerts(alerts: map<AlertId, AlertRow>): set<AlertId> {
    set x | x in alerts && alerts[x].caseId.Some?
  }

  /** Conservation: the counts of the live cases add up to the number of grouped alerts. */
  lemma AlertsAreConserved(cfg: GroupingConfig, db: State)
    requires Inv(cfg, db)
    ensures TotalCount(db.cases, LiveCases(db.cases)) == |GroupedAlerts(db.alerts)|
  {
    CountsAddUp(db, cfg, LiveCases(db.cases));
    forall x ensures x in LinksInto(db.links, LiveCases(db.cases)) <==> x in GroupedAlerts(db.alerts) {
      assert LinkAgrees(db, x);
    }
    assert LinksInto(db.links, LiveCases(db.cases)) == GroupedAlerts(db.alerts);
  }
}
