/** The tables behind cases, and what each service call does to them, as functions on whole states. */
module Db {
  import opened Prelude
  import opened Graph
  import opened Config
  import opened Scoring
  import opened Blocking
  import opened Engine
  import opened Lifecycle

  type AlertId = nat
  type CaseId = nat
  type NoteId = nat
  type UserId = nat

  datatype AlertRow = AlertRow(body: EngineAlert, risk: Option<nat>, caseId: Option<CaseId>)

  datatype CaseRow = CaseRow(
    createdAt: nat,
    status: Status,
    disposition: Option<string>,
    assignee: Option<UserId>,
    riskScore: nat,
    alertCount: nat,
    closedAt: Option<nat>,
    canonical: Option<CaseId>,
    version: nat)

  /** Links are keyed by alert, as their unique constraint demands; `decision` is a decision's row number. */
  datatype LinkRow = LinkRow(caseId: CaseId, decision: nat, linkedBy: string)

  datatype DecisionRow = DecisionRow(alertId: AlertId, caseId: CaseId, verdict: Verdict)

  datatype NoteRow = NoteRow(caseId: CaseId, author: UserId, body: string, retracted: bool, reason: Option<string>)

  /** What a case's audit stream records, with the before and after values of each change. */
  datatype Event =
    | AlertLinked(alert: AlertId, how: Method)
    | Transitioned(fromStatus: Status, fromDisposition: Option<string>, toStatus: Status, toDisposition: Option<string>,
                   reason: Option<string>)
    | MergedAway(oldStatus: Status, survivor: CaseId)
    | Assigned(fromAssignee: Option<UserId>, toAssignee: Option<UserId>)
    | NoteAdded(note: NoteId)
    | NoteRetracted(note: NoteId)
    | ReviewFlagged(alert: AlertId)

  datatype State = State(
    alerts: map<AlertId, AlertRow>,
    cases: map<CaseId, CaseRow>,
    links: map<AlertId, LinkRow>,
    decisions: seq<DecisionRow>,
    notes: map<NoteId, NoteRow>,
    streams: map<CaseId, seq<Event>>)

  const Empty := State(map[], map[], map[], [], map[], map[])

  function StreamIn(streams: map<CaseId, seq<Event>>, c: CaseId): seq<Event> {
    if c in streams then streams[c] else []
  }

  function Stream(db: State, c: CaseId): seq<Event> { StreamIn(db.streams, c) }

  function Record(streams: map<CaseId, seq<Event>>, c: CaseId, e: Event): map<CaseId, seq<Event>> {
    streams[c := StreamIn(streams, c) + [e]]
  }

  // ---- Candidate rows ------------------------------------------------------

  function MaxWindow(rules: seq<Rule>): Option<int> {
    if rules == [] then None else
    var last, rest := rules[|rules| - 1], MaxWindow(rules[..|rules| - 1]);
    if !last.enabled then rest
    else if rest.Some? && rest.value > last.windowSeconds then rest else Some(last.windowSeconds)
  }

  function Span(cfg: GroupingConfig): int {
    match MaxWindow(cfg.rules) case None => 0 case Some(w) => w
  }

  const BlockingFields := {CustomerRef, AccountRef, CounterpartyRef, DeviceId, IpAddress, SessionId, MerchantName}

  predicate SharesField(a: EngineAlert, b: EngineAlert) {
    exists f :: f in BlockingFields && ValueOf(a, f).Some? && ValueOf(a, f) == ValueOf(b, f)
  }

  predicate IsEligible(alerts: map<AlertId, AlertRow>, cfg: GroupingConfig, a: AlertId, x: AlertId)
    requires a in alerts && x in alerts
  {
    alerts[x].caseId.Some? && x != a && Near(alerts[a].body, alerts[x].body, Span(cfg))
    && SharesField(alerts[a].body, alerts[x].body)
  }

  function Eligible(alerts: map<AlertId, AlertRow>, cfg: GroupingConfig, a: AlertId): set<AlertId>
    requires a in alerts
  {
    set x | x in alerts && IsEligible(alerts, cfg, a, x)
  }

  lemma {:induction false} MaxWindowIs(rules: seq<Rule>)
    ensures MaxWindow(rules).None? <==> forall rule :: rule in rules ==> !rule.enabled
    ensures MaxWindow(rules).Some? ==>
      && (exists rule :: rule in rules && rule.enabled && rule.windowSeconds == MaxWindow(rules).value)
      && forall rule :: rule in rules && rule.enabled ==> rule.windowSeconds <= MaxWindow(rules).value
  {
    if rules != [] {
      var init, last := rules[..|rules| - 1], rules[|rules| - 1];
      assert rules == init + [last];
      MaxWindowIs(init);
      assert MaxWindow(rules) ==
        (var rest := MaxWindow(init);
         if !last.enabled then rest else if rest.Some? && rest.value > last.windowSeconds then rest
         else Some(last.windowSeconds));
      assert last in rules && forall rule :: rule in rules <==> rule in init || rule == last;
    }
  }

  predicate WithinSeconds(a: EngineAlert, b: EngineAlert, seconds: int) {
    a.eventTime - b.eventTime <= 1_000_000 * seconds && b.eventTime - a.eventTime <= 1_000_000 * seconds
  }

  /** The rows the candidate query may return: other alerts that have a case, share one of seven fields with the new
      alert, and lie within some enabled rule's window of it (with no rule enabled, at the very same time). */
  lemma EligibleWhen(alerts: map<AlertId, AlertRow>, cfg: GroupingConfig, a: AlertId, x: AlertId)
    requires a in alerts && x in alerts
    ensures var p, q := alerts[a].body, alerts[x].body;
            x in Eligible(alerts, cfg, a) <==>
              && x != a && alerts[x].caseId.Some?
              && (Same(p.customerRef, q.customerRef) || Same(p.accountRef, q.accountRef)
                  || Same(p.counterpartyRef, q.counterpartyRef) || Same(p.deviceId, q.deviceId)
                  || Same(p.ipAddress, q.ipAddress) || Same(p.sessionId, q.sessionId)
                  || Same(p.merchantName, q.merchantName))
              && ((exists rule :: rule in cfg.rules && rule.enabled && WithinSeconds(p, q, rule.windowSeconds))
                  || ((forall rule :: rule in cfg.rules ==> !rule.enabled) && p.eventTime == q.eventTime))
  {
    var p, q := alerts[a].body, alerts[x].body;
    SharesWhen(p, q);
    SpanCoversWhen(cfg, p, q);
    hide SharesField, Near, Span, WithinSeconds, Same;
  }

  lemma SharesWhen(p: EngineAlert, q: EngineAlert)
    ensures SharesField(p, q) <==>
      (Same(p.customerRef, q.customerRef) || Same(p.accountRef, q.accountRef)
       || Same(p.counterpartyRef, q.counterpartyRef) || Same(p.deviceId, q.deviceId)
       || Same(p.ipAddress, q.ipAddress) || Same(p.sessionId, q.sessionId) || Same(p.merchantName, q.merchantName))
  {
    hide ValueOf, Same;
    forall f | f in BlockingFields ensures ValueOf(p, f).Some? && ValueOf(p, f) == ValueOf(q, f) <==> SameIn(p, q, f) {
      FieldCompares(p, q, f);
    }
    assert SharesField(p, q) <==> exists f :: f in BlockingFields && SameIn(p, q, f);
    var fields := BlockingFields;
    assert CustomerRef in fields && AccountRef in fields && CounterpartyRef in fields && DeviceId in fields;
    assert IpAddress in fields && SessionId in fields && MerchantName in fields;
    if Same(p.customerRef, q.customerRef) { assert SameIn(p, q, CustomerRef); }
    if Same(p.accountRef, q.accountRef) { assert SameIn(p, q, AccountRef); }
    if Same(p.counterpartyRef, q.counterpartyRef) { assert SameIn(p, q, CounterpartyRef); }
    if Same(p.deviceId, q.deviceId) { assert SameIn(p, q, DeviceId); }
    if Same(p.ipAddress, q.ipAddress) { assert SameIn(p, q, IpAddress); }
    if Same(p.sessionId, q.sessionId) { assert SameIn(p, q, SessionId); }
    if Same(p.merchantName, q.merchantName) { assert SameIn(p, q, MerchantName); }
  }

  predicate SameIn(p: EngineAlert, q: EngineAlert, f: Field) {
    match f
    case CustomerRef => Same(p.customerRef, q.customerRef)
    case AccountRef => Same(p.accountRef, q.accountRef)
    case CounterpartyRef => Same(p.counterpartyRef, q.counterpartyRef)
    case DeviceId => Same(p.deviceId, q.deviceId)
    case IpAddress => Same(p.ipAddress, q.ipAddress)
    case SessionId => Same(p.sessionId, q.sessionId)
    case MerchantName => Same(p.merchantName, q.merchantName)
    case _ => false
  }

  lemma FieldCompares(p: EngineAlert, q: EngineAlert, f: Field)
    requires f in BlockingFields
    ensures ValueOf(p, f).Some? && ValueOf(p, f) == ValueOf(q, f) <==> SameIn(p, q, f)
  {
  }

  lemma SpanCoversWhen(cfg: GroupingConfig, p: EngineAlert, q: EngineAlert)
    ensures Near(p, q, Span(cfg)) <==>
      ((exists rule :: rule in cfg.rules && rule.enabled && WithinSeconds(p, q, rule.windowSeconds))
       || ((forall rule :: rule in cfg.rules ==> !rule.enabled) && p.eventTime == q.eventTime))
  {
    MaxWindowIs(cfg.rules);
    hide MaxWindow;
  }

  /** A query answer: the latest eligible rows, at most `cap` of them, ties broken arbitrarily. */
  ghost predicate IsAnswer(alerts: map<AlertId, AlertRow>, cfg: GroupingConfig, a: AlertId, rows: set<AlertId>)
    requires a in alerts
  {
    var all := Eligible(alerts, cfg, a);
    && rows <= all
    && |rows| == (if |all| <= cfg.cap then |all| else cfg.cap)
    && forall x, y :: x in rows && y in all - rows ==> alerts[y].body.eventTime <= alerts[x].body.eventTime
  }

  // ---- Risk ----------------------------------------------------------------

  function Sum(scores: seq<nat>): nat {
    if scores == [] then 0 else Sum(scores[..|scores| - 1]) + scores[|scores| - 1]
  }

  function Dominant(scores: seq<nat>): nat {
    if scores == [] then 0 else
    var rest, last := Dominant(scores[..|scores| - 1]), scores[|scores| - 1];
    if rest < last then last else rest
  }

  /** Rounds a number of tenths to the nearest integer, halves to the even one. */
  function RoundTenths(n: nat): nat {
    if n % 10 < 5 || (n % 10 == 5 && (n / 10) % 2 == 0) then n / 10 else n / 10 + 1
  }

  function Capped(n: nat): nat { if n < 100 then n else 100 }

  function AggregateRisk(scores: seq<nat>, mode: Aggregation): nat {
    match mode
    case SumCapped => Capped(Sum(scores))
    case Weighted => Capped(RoundTenths(10 * Dominant(scores) + (Sum(scores) - Dominant(scores))))
    case Max => Dominant(scores)
  }

  // The rows come in no particular order, so the score must not depend on one.

  function Without(scores: seq<nat>, i: nat): seq<nat>
    requires i < |scores|
  {
    scores[..i] + scores[i + 1..]
  }

  lemma WithoutSplits(scores: seq<nat>, i: nat)
    requires i < |scores|
    ensures multiset(scores) == multiset(Without(scores, i)) + multiset{scores[i]}
  {
    assert scores == scores[..i] + [scores[i]] + scores[i + 1..];
  }

  lemma WithoutInit(scores: seq<nat>, i: nat)
    requires i < |scores| - 1
    ensures var n, rest := |scores| - 1, Without(scores, i);
            |rest| == n && rest[n - 1] == scores[n] && rest[..n - 1] == Without(scores[..n], i)
  {
  }

  lemma {:induction false} TakeOut(scores: seq<nat>, i: nat)
    requires i < |scores|
    ensures var rest := Without(scores, i);
            && Sum(scores) == Sum(rest) + scores[i]
            && Dominant(scores) == (if Dominant(rest) < scores[i] then scores[i] else Dominant(rest))
  {
    var n := |scores| - 1;
    if i < n {
      WithoutInit(scores, i);
      hide Without;
      TakeOut(scores[..n], i);
    } else {
      assert Without(scores, i) == scores[..n];
    }
  }

  lemma {:induction false} TotalsIgnoreOrder(scores: seq<nat>, other: seq<nat>)
    requires multiset(scores) == multiset(other)
    ensures Sum(scores) == Sum(other) && Dominant(scores) == Dominant(other)
    decreases |scores|
  {
    if scores == [] {
      assert |multiset(other)| == 0;
    } else {
      var n := |scores| - 1;
      assert scores[n] in multiset(other);
      var i :| 0 <= i < |other| && other[i] == scores[n];
      TakeOut(scores, n);
      TakeOut(other, i);
      WithoutSplits(scores, n);
      WithoutSplits(other, i);
      assert multiset(Without(scores, n)) == multiset(scores) - multiset{scores[n]} == multiset(Without(other, i));
      TotalsIgnoreOrder(Without(scores, n), Without(other, i));
    }
  }

  /** A case's risk depends on which scores its alerts have, not on the order they are read in. */
  lemma RiskIgnoresOrder(scores: seq<nat>, other: seq<nat>, mode: Aggregation)
    requires multiset(scores) == multiset(other)
    ensures AggregateRisk(scores, mode) == AggregateRisk(other, mode)
  {
    TotalsIgnoreOrder(scores, other);
  }

  lemma {:induction false} DominantIsGreatest(scores: seq<nat>, x: nat)
    requires x in scores
    ensures x <= Dominant(scores)
  {
    var init, last := scores[..|scores| - 1], scores[|scores| - 1];
    assert scores == init + [last];
    assert Dominant(scores) == if Dominant(init) < last then last else Dominant(init);
    if x in init { DominantIsGreatest(init, x); }
  }

  lemma {:induction false} DominantWithinSum(scores: seq<nat>)
    ensures Dominant(scores) <= Sum(scores)
  {
    if scores != [] {
      var init, last := scores[..|scores| - 1], scores[|scores| - 1];
      assert Dominant(scores) == if Dominant(init) < last then last else Dominant(init);
      assert Sum(scores) == Sum(init) + last;
      DominantWithinSum(init);
    }
  }

  lemma {:induction false} DominantIsOne(scores: seq<nat>)
    requires scores != []
    ensures Dominant(scores) in scores
  {
    var init, last := scores[..|scores| - 1], scores[|scores| - 1];
    assert Dominant(scores) == if Dominant(init) < last then last else Dominant(init);
    assert last in scores;
    if init != [] {
      DominantIsOne(init);
      assert forall y :: y in init ==> y in scores;
    }
  }

  /** In every mode the risk of a case covers each of its alerts and stays on the 0 to 100 scale. */
  lemma RiskCoversAlerts(scores: seq<nat>, mode: Aggregation)
    requires forall x :: x in scores ==> x <= 100
    ensures AggregateRisk(scores, mode) <= 100
    ensures forall x :: x in scores ==> x <= AggregateRisk(scores, mode)
    ensures AggregateRisk(scores, Max) <= AggregateRisk(scores, mode) <= AggregateRisk(scores, SumCapped)
  {
    DominantWithinSum(scores);
    if scores != [] { DominantIsOne(scores); }
    forall x | x in scores ensures x <= Dominant(scores) { DominantIsGreatest(scores, x); }
    hide Sum, Dominant;
  }

  /** Each mode, told from a greatest score and the others: the greatest alone; all of them, up to 100; or the
      greatest and a tenth of the others, rounded to the nearest integer with ties to even, up to 100. */
  lemma RiskModesAre(scores: seq<nat>, i: nat)
    requires i < |scores| && forall x :: x in scores ==> x <= scores[i]
    ensures AggregateRisk(scores, Max) == scores[i]
    ensures AggregateRisk(scores, SumCapped) ==
      if scores[i] + Sum(Without(scores, i)) <= 100 then scores[i] + Sum(Without(scores, i)) else 100
    ensures var tenths, risk := 10 * scores[i] + Sum(Without(scores, i)), AggregateRisk(scores, Weighted);
            && risk <= 100 && (risk == 100 ==> 995 <= tenths)
            && (risk < 100 ==> -5 <= 10 * risk - tenths <= 5)
            && (risk < 100 && (10 * risk - tenths == 5 || tenths - 10 * risk == 5) ==> risk % 2 == 0)
  {
    DominantIsOne(scores);
    DominantIsGreatest(scores, scores[i]);
    TakeOut(scores, i);
    hide Sum, Dominant, Without;
  }

  // ---- Grouping one alert --------------------------------------------------

  function Members(alerts: map<AlertId, AlertRow>, c: CaseId): set<AlertId> {
    set x | x in alerts && alerts[x].caseId == Some(c)
  }

  function Linked(links: map<AlertId, LinkRow>, c: CaseId): set<AlertId> {
    set x | x in links && links[x].caseId == c
  }

  function Score(risk: Option<nat>): nat {
    match risk case None => 0 case Some(r) => r
  }

  function ScoresOf(alerts: map<AlertId, AlertRow>, ids: seq<AlertId>): seq<nat>
    requires forall x :: x in ids ==> x in alerts
  {
    seq(|ids|, i requires 0 <= i < |ids| => Score(alerts[ids[i]].risk))
  }

  function MemberScores(alerts: map<AlertId, AlertRow>, c: CaseId): seq<nat> {
    ScoresOf(alerts, Ascending(Members(alerts, c)))
  }

  /** The scores of a case are those of its alerts, one each; an alert without a score counts as zero. */
  lemma MemberScoresAre(alerts: map<AlertId, AlertRow>, c: CaseId, k: nat)
    requires k < |MemberScores(alerts, c)|
    ensures |MemberScores(alerts, c)| == |Ascending(Members(alerts, c))|
    ensures var x := Ascending(Members(alerts, c))[k];
            x in alerts && alerts[x].caseId == Some(c)
            && (alerts[x].risk.Some? ==> MemberScores(alerts, c)[k] == alerts[x].risk.value)
            && (alerts[x].risk.None? ==> MemberScores(alerts, c)[k] == 0)
  {
    assert Ascending(Members(alerts, c))[k] in Members(alerts, c);
  }

  /** What the engine is run on: the new alert and its candidate rows. */
  function RunOn(alerts: map<AlertId, AlertRow>, ids: set<AlertId>): Alerts {
    map x | x in ids && x in alerts :: alerts[x].body
  }

  /** The cases of the candidate rows that landed in the new alert's component. */
  ghost function Matched(alerts: map<AlertId, AlertRow>, cfg: GroupingConfig, a: AlertId,
                         rows: set<AlertId>): set<CaseId>
    requires Scorable(cfg)
  {
    set x | x in rows && x in alerts && alerts[x].caseId.Some?
      && Connected(FreeEdges(RunOn(alerts, rows + {a}), cfg), a, x) :: alerts[x].caseId.value
  }

  /** The survivor order of a merge: creation time, then id. */
  predicate Before(cases: map<CaseId, CaseRow>, c: CaseId, d: CaseId)
    requires c in cases && d in cases
  {
    cases[c].createdAt < cases[d].createdAt || (cases[c].createdAt == cases[d].createdAt && c < d)
  }

  predicate IsSurvivor(cases: map<CaseId, CaseRow>, among: set<CaseId>, c: CaseId)
    requires among <= cases.Keys
  {
    c in among && forall d :: d in among && d != c ==> Before(cases, c, d)
  }

  /** What grouping does to the cases: everything of `losers` moves to `target`, `flagged` get a review event. */
  datatype Plan = Plan(target: CaseId, losers: set<CaseId>, flagged: set<CaseId>, created: bool)

  function WithStatus(cases: map<CaseId, CaseRow>, among: set<CaseId>, closed: bool): set<CaseId> {
    set c | c in among && c in cases
      && (if closed then cases[c].status == Closed else cases[c].status !in {Merged, Closed})
  }

  ghost predicate IsPlan(cases: map<CaseId, CaseRow>, hits: set<CaseId>, newId: CaseId, plan: Plan) {
    var open := WithStatus(cases, hits, false);
    && plan.flagged == WithStatus(cases, hits, true)
    && plan.created == (open == {})
    && if open == {} then plan.target == newId && plan.losers == {}
       else IsSurvivor(cases, open, plan.target) && plan.losers == open - {plan.target}
  }

  function Home(plan: Plan, c: CaseId): CaseId {
    if c in plan.losers then plan.target else c
  }

  // The updates of a call leave an empty table empty.

  function MovedAlerts(alerts: map<AlertId, AlertRow>, plan: Plan, a: AlertId): map<AlertId, AlertRow> {
    if alerts == map[] then map[] else
    map x | x in alerts ::
      if x == a then alerts[x].(caseId := Some(plan.target))
      else if alerts[x].caseId.Some? then alerts[x].(caseId := Some(Home(plan, alerts[x].caseId.value)))
      else alerts[x]
  }

  function MovedLinks(links: map<AlertId, LinkRow>, plan: Plan): map<AlertId, LinkRow> {
    if links == map[] then map[] else map x | x in links :: links[x].(caseId := Home(plan, links[x].caseId))
  }

  function MovedDecisions(decisions: seq<DecisionRow>, plan: Plan): seq<DecisionRow> {
    seq(|decisions|, i requires 0 <= i < |decisions| =>
      decisions[i].(caseId := Home(plan, decisions[i].caseId)))
  }

  function MovedNotes(notes: map<NoteId, NoteRow>, plan: Plan): map<NoteId, NoteRow> {
    if notes == map[] then map[] else map n | n in notes :: notes[n].(caseId := Home(plan, notes[n].caseId))
  }

  function MovedCases(cases: map<CaseId, CaseRow>, plan: Plan): map<CaseId, CaseRow> {
    if cases == map[] then map[] else
    map c | c in cases ::
      if c in plan.losers then cases[c].(status := Merged, canonical := Some(plan.target)) else cases[c]
  }

  function NewEvents(cases: map<CaseId, CaseRow>, plan: Plan, a: AlertId, how: Method, c: CaseId): seq<Event> {
    (if c in plan.flagged then [ReviewFlagged(a)] else [])
    + (if c in plan.losers && c in cases then [MergedAway(cases[c].status, plan.target)] else [])
    + (if c == plan.target then [AlertLinked(a, how)] else [])
  }

  function MovedStreams(db: State, plan: Plan, a: AlertId, how: Method): map<CaseId, seq<Event>> {
    map c | c in db.streams.Keys + plan.flagged + plan.losers + {plan.target} ::
      Stream(db, c) + NewEvents(db.cases, plan, a, how, c)
  }

  function NewCase(createdAt: nat): CaseRow {
    CaseRow(createdAt, Open, None, None, 0, 0, None, None, 1)
  }

  /** The target's row after the call: aggregates recomputed, version bumped unless just created. */
  function TargetRow(row: CaseRow, created: bool, risk: nat, count: nat): CaseRow {
    row.(riskScore := risk, alertCount := count, version := if created then row.version else row.version + 1)
  }

  /** The whole effect of grouping alert `a` under `plan`. */
  function Regroup(db: State, cfg: GroupingConfig, plan: Plan, a: AlertId, verdict: Verdict, createdAt: nat,
                   actor: string)
    : State
    requires plan.created || plan.target in db.cases
  {
    var alerts := MovedAlerts(db.alerts, plan, a);
    var links := MovedLinks(db.links, plan)[a := LinkRow(plan.target, |db.decisions|, actor)];
    var row := if plan.created then NewCase(createdAt) else db.cases[plan.target];
    var risk := AggregateRisk(MemberScores(alerts, plan.target), cfg.aggregation);
    State(
      alerts,
      MovedCases(db.cases, plan)[plan.target := TargetRow(row, plan.created, risk, |Linked(links, plan.target)|)],
      links,
      MovedDecisions(db.decisions, plan) + [DecisionRow(a, plan.target, verdict)],
      MovedNotes(db.notes, plan),
      MovedStreams(db, plan, a, verdict.how))
  }

  // ---- The other service calls ---------------------------------------------

  datatype Error =
    | CaseNotFound | StaleVersion | Refused(why: TransitionError) | CaseReadOnly | InvalidAssignee
    | NoteNotFound | RetractForbidden

  function TransitionFailure(db: State, cfg: GroupingConfig, c: CaseId, target: Status, reason: Option<string>,
                           disposition: Option<string>, expected: Option<nat>): Option<Error>
  {
    if c !in db.cases then Some(CaseNotFound)
    else if expected.Some? && expected.value != db.cases[c].version then Some(StaleVersion)
    else
      var refusal := ValidateTransition(db.cases[c].status, target, disposition, cfg.dispositions);
      if refusal.Some? then Some(Refused(refusal.value))
      else if db.cases[c].status == Closed && target == InProgress && reason.None?
        then Some(Refused(ReopenRequiresReason))
      else None
  }

  function TransitionedRow(row: CaseRow, target: Status, disposition: Option<string>, now: nat): CaseRow {
    var moved := row.(status := target, version := row.version + 1);
    if target == Closed then moved.(disposition := disposition, closedAt := Some(now))
    else if row.status == Closed && target == InProgress then moved.(disposition := None, closedAt := None)
    else moved
  }

  function Transition(db: State, c: CaseId, target: Status, reason: Option<string>, disposition: Option<string>,
                      now: nat): State
    requires c in db.cases
  {
    var row, after := db.cases[c], TransitionedRow(db.cases[c], target, disposition, now);
    db.(cases := db.cases[c := after],
        streams := Record(db.streams, c,
                          Transitioned(row.status, row.disposition, after.status, after.disposition, reason)))
  }

  function AssignError(db: State, c: CaseId, assignee: Option<UserId>, active: set<UserId>): Option<Error> {
    if c !in db.cases then Some(CaseNotFound)
    else if db.cases[c].status == Merged then Some(CaseReadOnly)
    else if assignee.Some? && assignee.value !in active then Some(InvalidAssignee)
    else None
  }

  function Assign(db: State, c: CaseId, assignee: Option<UserId>): State
    requires c in db.cases
  {
    var row := db.cases[c];
    db.(cases := db.cases[c := row.(assignee := assignee, version := row.version + 1)],
        streams := Record(db.streams, c, Assigned(row.assignee, assignee)))
  }

  function NoteError(db: State, c: CaseId): Option<Error> {
    if c !in db.cases then Some(CaseNotFound)
    else if db.cases[c].status == Merged then Some(CaseReadOnly)
    else None
  }

  function AddNote(db: State, n: NoteId, c: CaseId, author: UserId, body: string): State {
    db.(notes := db.notes[n := NoteRow(c, author, body, false, None)],
        streams := Record(db.streams, c, NoteAdded(n)))
  }

  function RetractError(db: State, n: NoteId, actor: UserId, admin: bool): Option<Error> {
    if n !in db.notes then Some(NoteNotFound)
    else if actor != db.notes[n].author && !admin then Some(RetractForbidden)
    else None
  }

  function Retract(db: State, n: NoteId, reason: string): State
    requires n in db.notes
  {
    var note := db.notes[n];
    if note.retracted then db
    else db.(notes := db.notes[n := note.(retracted := true, reason := Some(reason))],
             streams := Record(db.streams, note.caseId, NoteRetracted(n)))
  }

  // ---- Runs ----------------------------------------------------------------

  /** One committed service call, with the choices its environment made. */
  datatype Op =
    | Persist(id: AlertId, body: EngineAlert, risk: Option<nat>)
    | GroupAlert(a: AlertId, rows: set<AlertId>, newId: CaseId, createdAt: nat, actor: string)
    | TransitionCase(c: CaseId, target: Status, reason: Option<string>, disposition: Option<string>,
                     expected: Option<nat>, now: nat)
    | AssignCase(c: CaseId, assignee: Option<UserId>, active: set<UserId>)
    | NoteOn(n: NoteId, c: CaseId, author: UserId, text: string)
    | RetractNote(n: NoteId, why: string, user: UserId, admin: bool)

  ghost predicate Groups(db: State, cfg: GroupingConfig, a: AlertId, rows: set<AlertId>, newId: CaseId,
                         createdAt: nat, actor: string, plan: Plan, d: Decision, after: State)
    requires Scorable(cfg)
  {
    && a in db.alerts && db.alerts[a].caseId.None? && newId !in db.cases
    && IsAnswer(db.alerts, cfg, a, rows)
    && IsPlan(db.cases, Matched(db.alerts, cfg, a, rows), newId, plan)
    && IsDecision(RunOn(db.alerts, rows + {a}), cfg, NoPins, a, d)
    && after == Regroup(db, cfg, plan, a, d.verdict, createdAt, actor)
  }

  /** `after` is a possible state after `op`; a call that fails leaves the state as it was. */
  ghost predicate Next(cfg: GroupingConfig, db: State, op: Op, after: State)
    requires Scorable(cfg)
  {
    match op
    case Persist(id, body, risk) =>
      id !in db.alerts && body.id == id && after == db.(alerts := db.alerts[id := AlertRow(body, risk, None)])
    case GroupAlert(a, rows, newId, createdAt, actor) =>
      exists plan, d :: Groups(db, cfg, a, rows, newId, createdAt, actor, plan, d, after)
    case TransitionCase(c, target, reason, disposition, expected, now) =>
      after == if TransitionFailure(db, cfg, c, target, reason, disposition, expected).Some? then db
               else Transition(db, c, target, reason, disposition, now)
    case AssignCase(c, assignee, active) =>
      after == if AssignError(db, c, assignee, active).Some? then db else Assign(db, c, assignee)
    case NoteOn(n, c, author, text) =>
      n !in db.notes && after == if NoteError(db, c).Some? then db else AddNote(db, n, c, author, text)
    case RetractNote(n, why, user, admin) =>
      after == if RetractError(db, n, user, admin).Some? then db else Retract(db, n, why)
  }

  /** A run: the successive states of a list of calls. */
  ghost predicate IsRun(cfg: GroupingConfig, ops: seq<Op>, trace: seq<State>)
    requires Scorable(cfg)
  {
    && |trace| == |ops| + 1
    && forall i :: 0 <= i < |ops| ==> Next(cfg, trace[i], ops[i], trace[i + 1])
  }

  lemma RunExtends(cfg: GroupingConfig, ops: seq<Op>, trace: seq<State>, op: Op, after: State)
    requires Scorable(cfg) && IsRun(cfg, ops, trace) && Next(cfg, trace[|ops|], op, after)
    ensures IsRun(cfg, ops + [op], trace + [after])
  {
    hide Next;
    var ops', trace' := ops + [op], trace + [after];
    forall i | 0 <= i < |ops'| ensures Next(cfg, trace'[i], ops'[i], trace'[i + 1]) {
      if i < |ops| { assert Next(cfg, trace[i], ops[i], trace[i + 1]); }
    }
  }
}
