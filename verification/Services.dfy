/** When each service call succeeds, why it is refused, and all it changes, in the rows' own fields. */
module Services {
  import opened Prelude
  import opened Config
  import opened Scoring
  import opened Engine
  import opened Lifecycle
  import opened Db
  import opened Invariants
  import opened History

  /** Only case `c`'s row and stream differ, the stream by one more event. */
  ghost predicate OnlyTouches(db: State, after: State, c: CaseId, e: Event) {
    && c in db.cases && c in after.cases && after.cases.Keys == db.cases.Keys
    && (forall x :: x in db.cases && x != c ==> after.cases[x] == db.cases[x])
    && after.alerts == db.alerts && after.links == db.links && after.decisions == db.decisions
    && Stream(after, c) == Stream(db, c) + [e] && forall x :: x != c ==> Stream(after, x) == Stream(db, x)
  }

  /** Everything about the two rows is equal but status, disposition, closing time, assignee and version. */
  predicate SameOtherwise(row: CaseRow, now: CaseRow) {
    && now.createdAt == row.createdAt && now.riskScore == row.riskScore && now.alertCount == row.alertCount
    && now.canonical == row.canonical
  }

  // ---- Transitions ---------------------------------------------------------

  /** The edges of the status graph. */
  predicate IsMove(from: Status, to: Status) {
    || (from == Open && to == InProgress)
    || (from == InProgress && to == PendingInfo)
    || (from == InProgress && to == Closed)
    || (from == PendingInfo && to == InProgress)
    || (from == Closed && to == InProgress)
  }

  /** The refusals of a transition, first one first. */
  lemma TransitionRefusedWhen(db: State, cfg: GroupingConfig, c: CaseId, target: Status, reason: Option<string>,
                              disposition: Option<string>, expected: Option<nat>)
    ensures var error := TransitionFailure(db, cfg, c, target, reason, disposition, expected);
            && (error == Some(CaseNotFound) <==> c !in db.cases)
            && (c in db.cases ==>
                 var row := db.cases[c];
                 && (error == Some(StaleVersion) <==> expected.Some? && expected.value != row.version)
                 && (error != Some(StaleVersion) ==>
                      && (error == Some(Refused(IllegalTransition)) <==> !IsMove(row.status, target))
                      && (IsMove(row.status, target) ==>
                           && (error == Some(Refused(DispositionRequired)) <==> target == Closed && disposition.None?)
                           && (error == Some(Refused(UnknownDisposition)) <==>
                                target == Closed && disposition.Some? && disposition.value !in cfg.dispositions)
                           && (error == Some(Refused(ReopenRequiresReason)) <==> row.status == Closed && reason.None?)
                           && (error.None? <==>
                                (target == Closed ==> disposition.Some? && disposition.value in cfg.dispositions)
                                && (row.status == Closed ==> reason.Some?)))))
  {
  }

  /** All a successful transition changes. */
  lemma TransitionChanges(db: State, c: CaseId, target: Status, reason: Option<string>, disposition: Option<string>,
                          now: nat)
    requires c in db.cases && IsMove(db.cases[c].status, target)
    ensures var after, row := Transition(db, c, target, reason, disposition, now), db.cases[c];
            && c in after.cases && after.notes == db.notes
            && OnlyTouches(db, after, c,
                           Transitioned(row.status, row.disposition, target, after.cases[c].disposition, reason))
    ensures var changed, row := Transition(db, c, target, reason, disposition, now).cases[c], db.cases[c];
            && SameOtherwise(row, changed) && changed.assignee == row.assignee && changed.version == row.version + 1
            && changed.status == target
            && (target == Closed ==> changed.disposition == disposition && changed.closedAt == Some(now))
            && (row.status == Closed ==> changed.disposition.None? && changed.closedAt.None?)
            && (target != Closed && row.status != Closed ==>
                 changed.disposition == row.disposition && changed.closedAt == row.closedAt)
  {
  }

  /** A re-open succeeds only with a reason, and any other move needs none. */
  lemma ReopenNeedsReason(cfg: GroupingConfig, db: State, c: CaseId, reason: Option<string>,
                          disposition: Option<string>, expected: Option<nat>, now: nat, after: State)
    requires Scorable(cfg) && c in db.cases && db.cases[c].status == Closed
    requires Next(cfg, db, TransitionCase(c, InProgress, reason, disposition, expected, now), after)
    ensures after != db <==> reason.Some? && (expected.Some? ==> expected.value == db.cases[c].version)
    ensures after != db ==>
      && Stream(after, c) != [] && Stream(after, c)[|Stream(after, c)| - 1].Transitioned?
      && var e := Stream(after, c)[|Stream(after, c)| - 1]; e.fromStatus == Closed && e.reason == reason
  {
    TransitionRefusedWhen(db, cfg, c, InProgress, reason, disposition, expected);
    TransitionChanges(db, c, InProgress, reason, disposition, now);
    hide TransitionFailure, Transition;
  }

  // ---- Assignment and notes ------------------------------------------------

  lemma AssignWhen(db: State, c: CaseId, assignee: Option<UserId>, active: set<UserId>)
    ensures var error := AssignError(db, c, assignee, active);
            && (error == Some(CaseNotFound) <==> c !in db.cases)
            && (error == Some(CaseReadOnly) <==> c in db.cases && db.cases[c].status == Merged)
            && (error == Some(InvalidAssignee) <==>
                 c in db.cases && db.cases[c].status != Merged && assignee.Some? && assignee.value !in active)
            && (error.None? <==>
                 c in db.cases && db.cases[c].status != Merged && (assignee.Some? ==> assignee.value in active))
  {
  }

  lemma AssignChanges(db: State, c: CaseId, assignee: Option<UserId>)
    requires c in db.cases
    ensures var after, row := Assign(db, c, assignee), db.cases[c];
            && OnlyTouches(db, after, c, Assigned(row.assignee, assignee)) && after.notes == db.notes
            && SameOtherwise(row, after.cases[c]) && after.cases[c].assignee == assignee
            && after.cases[c].version == row.version + 1 && after.cases[c].status == row.status
            && after.cases[c].disposition == row.disposition && after.cases[c].closedAt == row.closedAt
  {
  }

  lemma NoteWhen(db: State, n: NoteId, c: CaseId, author: UserId, text: string)
    requires n !in db.notes
    ensures NoteError(db, c).None? <==> c in db.cases && db.cases[c].status != Merged
    ensures NoteError(db, c) == Some(CaseNotFound) <==> c !in db.cases
    ensures NoteError(db, c) == Some(CaseReadOnly) <==> c in db.cases && db.cases[c].status == Merged
    ensures var after := AddNote(db, n, c, author, text);
            && after.notes.Keys == db.notes.Keys + {n} && forall m :: m in db.notes ==> after.notes[m] == db.notes[m]
    ensures var note := AddNote(db, n, c, author, text).notes[n];
            && note.caseId == c && note.author == author && note.body == text && !note.retracted && note.reason.None?
    ensures c in db.cases ==>
      var after := AddNote(db, n, c, author, text);
      OnlyTouches(db, after, c, NoteAdded(n)) && after.cases[c] == db.cases[c]
  {
  }

  lemma RetractWhen(db: State, n: NoteId, user: UserId, admin: bool)
    ensures var error := RetractError(db, n, user, admin);
            && (error == Some(NoteNotFound) <==> n !in db.notes)
            && (error == Some(RetractForbidden) <==> n in db.notes && db.notes[n].author != user && !admin)
            && (error.None? <==> n in db.notes && (db.notes[n].author == user || admin))
  {
  }

  lemma RetractChanges(db: State, n: NoteId, why: string)
    requires n in db.notes
    ensures var after, note := Retract(db, n, why), db.notes[n];
            && after.notes.Keys == db.notes.Keys
            && (forall m :: m in db.notes && m != n ==> after.notes[m] == db.notes[m])
            && (note.retracted ==> after == db)
            && (!note.retracted ==>
                 && after.notes[n].retracted && after.notes[n].reason == Some(why)
                 && after.notes[n].body == note.body && after.notes[n].author == note.author
                 && after.notes[n].caseId == note.caseId
                 && (note.caseId in db.cases ==>
                      OnlyTouches(db, after, note.caseId, NoteRetracted(n))
                      && after.cases[note.caseId] == db.cases[note.caseId]))
  {
  }

  // ---- Grouping ------------------------------------------------------------

  /** What a grouping call does with the matched cases: closed ones are flagged; of the open ones the earliest
      created, by id among equals, survives and the others lose; with none open a new case is created. */
  lemma PlanWhen(cfg: GroupingConfig, db: State, a: AlertId, rows: set<AlertId>, newId: CaseId, createdAt: nat,
                 actor: string, plan: Plan, d: Decision, after: State, c: CaseId)
    requires Scorable(cfg) && Groups(db, cfg, a, rows, newId, createdAt, actor, plan, d, after)
    requires c in Matched(db.alerts, cfg, a, rows) && c in db.cases
    ensures c in plan.flagged <==> db.cases[c].status == Closed
    ensures c in plan.losers || c == plan.target <==> db.cases[c].status !in {Closed, Merged}
    ensures c in plan.losers ==>
      && !plan.created && plan.target in db.cases && plan.target in Matched(db.alerts, cfg, a, rows)
      && (db.cases[plan.target].createdAt < db.cases[c].createdAt
          || (db.cases[plan.target].createdAt == db.cases[c].createdAt && plan.target < c))
    ensures db.cases[c].status !in {Closed, Merged} ==> !plan.created
    ensures !plan.created ==> plan.target in Matched(db.alerts, cfg, a, rows)
  {
    hide Matched, Regroup, IsDecision, IsAnswer;
  }

  /** The row of the case a grouping call ends in: opened fresh when no open case matched, else the survivor's with
      only count, risk and version changed. */
  lemma TargetRowIs(cfg: GroupingConfig, db: State, a: AlertId, rows: set<AlertId>, newId: CaseId, createdAt: nat,
                    actor: string, plan: Plan, d: Decision, after: State)
    requires Scorable(cfg) && Groups(db, cfg, a, rows, newId, createdAt, actor, plan, d, after)
    ensures plan.target in after.cases && after.alerts[a].caseId == Some(plan.target)
    ensures plan.created ==>
      var row := after.cases[plan.target];
      && plan.target == newId && row.createdAt == createdAt && row.status == Open && row.version == 1
      && row.disposition.None? && row.assignee.None? && row.closedAt.None? && row.canonical.None?
    ensures !plan.created ==>
      plan.target in db.cases &&
      var row, now := db.cases[plan.target], after.cases[plan.target];
      && now.createdAt == row.createdAt && now.status == row.status && now.version == row.version + 1
      && now.disposition == row.disposition && now.assignee == row.assignee && now.closedAt == row.closedAt
      && now.canonical == row.canonical
  {
    GroupsGood(cfg, db, a, rows, newId, createdAt, actor, plan, d, after);
    GroupOnAlert(db, cfg, plan, a, d.verdict, createdAt, actor, a);
    hide IsAnswer, IsDecision, Matched, MovedAlerts, MovedLinks, MovedNotes, MovedDecisions, MovedStreams,
      AggregateRisk, MemberScores, Db.Linked;
  }
}
