# Verified model of alert grouping, case keeping, audit and listing

The repository receives fraud alerts, groups them into cases, lets analysts work those cases, records
everything in hash-chained audit streams, and lists cases page by page. This project models that logic in
Dafny and proves what the parts promise each other. Nothing was executed: every statement below is a
theorem about the model.

## How it is organised

| module | models |
|---|---|
| `Prelude`, `Graph` | finite sets in order; undirected graphs and connectivity by paths |
| `UnionFinds` | the engine's union-find, loop by loop, against connected components |
| `Config`, `Scoring` | alerts, configuration, the verdict on one pair |
| `Blocking` | buckets, windows, the mutual per-alert cap, as a specification and as the nested loops |
| `Engine` | kept edges, pins, components, the strongest-edge explanation, as a specification and as the loops |
| `Relation` | the uncapped pairwise relation, and what loosening a configuration does to it |
| `Lifecycle`, `Db` | the status graph; the tables as one value, and every service call as a function on it |
| `Invariants`, `History` | what every reachable state satisfies; what holds between any two moments of a run |
| `Partition`, `ArrivalOrder` | one-at-a-time grouping against batch grouping, and exactly when they agree |
| `Services` | when each call succeeds, why it is refused, all it changes, in the rows' own fields |
| `Feasible`, `Closing` | no grouping call gets stuck; what closing a case does and does not ask for |
| `Store`, `Worker` | the tables as mutable fields, the services as methods refining `Db`; the batch job |
| `AuditChain`, `AuditProtocol` | appending, verifying, tamper evidence; interleaved writers under the tip lock |
| `AuditReads` | verification that reads tips and events at different moments beside those writers |
| `Keyset` | three sorts, cursors, and walks over changing data |
| `Ingest` | idempotent ingestion over a lossy cache, as interleaved requests and as the route run alone |

A service call is modelled twice. `Store` (and `UnionFinds`, `Blocking`, `Engine`, `Worker`, `AuditChain`,
`Ingest`) update fields step by step as the source does, and each method is proved equal to a function or
relation on whole states (`Db.Regroup`, `Db.Next`, `Blocking.Candidates`, `Engine.IsDecision`, ...). The theorems
are then proved about those functions, over every run: a run is any list of calls with any choices of the
environment, including calls that fail.

Where the source iterates in sorted order (`sorted(kept)`, `sorted(counterparts)`), the loops here take the
elements in an arbitrary order, so the results hold for every order and not only for the sorted one.

## What was found

* **Incremental grouping equals batch grouping** (`Partition.IncrementalEqualsBatch`) as long as no candidate row is
  cut off by the query limit, no closed case is matched, and every enabled rule blocks on one of the seven
  queried fields. `Partition.GroupKeepsCompleteIff` and `Partition.GroupKeepsCompleteExactly` give the exact conditions for one
  call, `Partition.RunIsCompleteIff` the exact condition for a run.
* **NFR-AUD-05 and FR-GRP-04 promise that identical data and configuration give identical grouping.** For
  the batch engine this holds for every order of the input (`Engine.OrderIndependent`). For the incremental path it
  does not: `ArrivalOrder.ArrivalOrderCanMatter` exhibits three alerts that end together in one arrival order and
  apart in another, once the limit cuts a row off. No analyst acts in either run, and only the rule and the limit of
  the configuration are fixed; weights, threshold, time constant, exponential and string ratio are arbitrary.
* **FR-GRP-05 promises audit events on all affected cases of a merge.** `History.GroupingEvents` states what every
  stream gets: each loser one `case.merged` that names the survivor, the survivor one `case.alert_linked`. So every
  affected case does get an event, and read that way the promise is kept; but the survivor's event is the one any linked
  alert causes and does not tell of the merge, so a merge cannot be read off the survivor's own stream.
* **FR-CASE-02 says a case cannot be closed without a disposition and a rationale note.** The code asks for the
  disposition only. `Closing.ClosedWithoutRationale` is a run, under any configuration with a disposition, that closes a
  case that has no note, without a reason. `Closing.ClosingNeedsNoReason` is the exact condition: a close succeeds if and
  only if the case is in progress, the version fits and the disposition is configured, and it records a reason if and
  only if the caller passed one.
* **A merge does not bump the loser's version**, yet no update is lost (`History.NoLostUpdate`), because a merged case
  admits no transition.
* **Joining is sound without conditions** (`Partition.RunIsSound`): truncation, closing and re-opening can only split a
  group, never join unrelated alerts.
* **Verification beside running writers can raise false alarms.** The verify route reads all tips in one statement, each
  stream's events in later ones and the stream names last, and nothing asks for one snapshot (`backend/app/db.py` sets no
  isolation level). An ordinary append committed in between gets an existing stream reported as a tip or count mismatch
  and a new one as an orphan (`AuditReads.AppendBetweenReadsAlarms`). `AuditReads.InterleavedVerifyIff` is the exact
  condition for silence. Nothing is hidden by it: against the tips read, `AuditChain.EmptyReportIffUntampered` still holds
  for whatever events are read.
* **Tamper evidence is exact only against untouched tips**: `AuditChain.EmptyReportIffUntampered` is an equivalence, and
  `AuditChain.RebuiltChainPasses` shows that whoever can write a tip row can make any list of events pass. The
  correlation id is stored but not hashed, so a change to it is never reported.

## Modelling choices

* Ids are natural numbers; they stand for UUIDs, whose text order is the order of the 128-bit numbers.
* Times are integer microseconds. Amounts, scores, weights and the tolerance are reals.
* The exponential and the fuzzy string ratio are functions in the configuration; only `Scoring.Sensible` bounds them.
* Canonical JSON followed by SHA-256 (FIPS 180-4) is one function of the hashed fields; theorems that need it
  to be injective say so. The request fingerprint is likewise a function, collision-free where stated.
* Fresh ids, clocks, active users, Redis outages and failing transactions are parameters.
* Base64 (RFC 4648, section 5), ISO timestamps and id texts in cursors are functions with a round-trip assumption.
* A configuration must have a non-zero total weight and a non-zero time constant, or the source divides by zero.
* Links are a map keyed by alert, as the unique constraint on the alert id demands.
* A merged case keeps its old count, risk and version, so the aggregate invariants range over the other cases.
* A case's own risk is a function of its members' scores in id order; `Db.RiskIgnoresOrder` shows that the order
  in which the database returns them does not matter.

## Model

| member | source | states |
|---|---|---|
| `UnionFinds.UnionFind.Find` | backend/app/grouping/engine.py:78-84 | the walk ends at the class's root, and compressing the path leaves the partition as it was |
| `UnionFinds.UnionFind.Union` | backend/app/grouping/engine.py:86-91 | exactly the two classes become one, named by the smaller of the two roots |
| `UnionFinds.Compress` | backend/app/grouping/engine.py:82-83 | re-pointing one node at its root changes nobody's root |
| `UnionFinds.Hang` | backend/app/grouping/engine.py:90-91 | hanging the greater root under the smaller moves that root's class and nothing else |
| `UnionFinds.JoinedAddsEdge` | backend/app/grouping/engine.py:136-138 | a union turns a partition into components of an edge set into the components with one more edge |
| `UnionFinds.RootIsLeast` | backend/app/grouping/engine.py:72-73 | the representative is always the least member of its component |
| `Scoring.DeterministicMatch` | backend/app/grouping/scoring.py:51-68 | returns the ids of the matching rules in order, non-empty exactly when some enabled rule matches within window and tolerance |
| `Scoring.MatchedInOrder` | backend/app/grouping/scoring.py:60-68 | the matched ids are those of all matching rules, in configuration order |
| `Scoring.RuleMatchesWhen` | backend/app/grouping/scoring.py:61-67 | a rule matches exactly when it is enabled, its window covers the time between the alerts, and every match key agrees |
| `Scoring.MatchKeysCompare` | backend/app/grouping/scoring.py:46-48 | each match key compares its own field, and absence never agrees |
| `Scoring.AmountKeyCompares` | backend/app/grouping/scoring.py:41-43 | amounts agree exactly when they differ by at most the tolerated fraction of the greatest of both and one |
| `Scoring.BucketsSplitAt` | backend/app/ingestion/normalize.py:113-128 | amounts share a bucket exactly when none of 10, 100, 1000 and 10000 lies between them |
| `Scoring.PairDecision` | backend/app/grouping/scoring.py:132-146 | a pair is deterministic, with no score, exactly when some rule matches |
| `Scoring.FeaturesAre` | backend/app/grouping/scoring.py:71-111 | what each reported feature says about the two alerts' own fields |
| `Scoring.AmountFeatureIs` | backend/app/grouping/scoring.py:84-86 | the amount feature falls from one by the difference's share of the greatest of both amounts and one |
| `Scoring.ScoreIs` | backend/app/grouping/scoring.py:114-124 | the score is the mean of the reported features, each under the weight of its own name |
| `Scoring.IpMovesScore` | backend/app/grouping/scoring.py:96-96 | sharing the address, all else equal, is worth exactly the address weight over the total |
| `Scoring.DeviceMovesScore` | backend/app/grouping/scoring.py:95-95 | sharing the device is worth exactly the device weight over the total |
| `Scoring.TypologiesMoveScore` | backend/app/grouping/scoring.py:98-102 | equal typologies instead of disjoint ones are worth exactly the typology weight over the total |
| `Scoring.NameMovesScore` | backend/app/grouping/scoring.py:88-93 | another merchant name moves the score by the difference of the ratios times the name weight |
| `Scoring.AmountMovesScore` | backend/app/grouping/scoring.py:84-86 | another amount costs the amount weight times the difference's share |
| `Scoring.TimeMovesScore` | backend/app/grouping/scoring.py:82-82 | another time moves the score by the difference of the decays times the time weight |
| `Scoring.ScoreUnit` | backend/app/grouping/scoring.py:71-129 | every similarity score lies between 0 and 1 |
| `Scoring.OnlyRulesAboveOne` | backend/app/grouping/engine.py:123-125 | with a threshold above one an edge is kept exactly when a rule matches |
| `Blocking.BlockingKeyValues` | backend/app/grouping/blocking.py:51-68 | the combined key holds every part's value in order, and is empty when one part is missing |
| `Blocking.ProposesWhen` | backend/app/grouping/blocking.py:87-97 | a rule proposes a pair exactly when it is enabled, blocks on something, both have equal values in every blocking field, and the window covers the time between them |
| `Blocking.FillBuckets` | backend/app/grouping/blocking.py:86-90 | each bucket lists exactly the alerts with its key; keyless alerts are in none |
| `Blocking.LinkBucket` | backend/app/grouping/blocking.py:92-99 | the two nested loops link exactly the pairs of different positions within the window |
| `Blocking.LinkAll` | backend/app/grouping/blocking.py:82-99 | two ids are linked exactly when an enabled rule proposes their alerts |
| `Blocking.Cut` | backend/app/grouping/blocking.py:101-114 | each id keeps exactly its `cap` least counterparts |
| `Blocking.Mutual` | backend/app/grouping/blocking.py:116-122 | a pair is emitted once, ordered, exactly when both ends kept each other |
| `Blocking.CandidatePairs` | backend/app/grouping/blocking.py:71-122 | the loops return exactly the pairs whose ends are each among the other's `cap` least rule-proposed counterparts |
| `Blocking.CandidatesAre` | backend/app/grouping/blocking.py:101-122 | a pair survives exactly when some rule proposes it and each end has fewer than `cap` smaller counterparts than the other |
| `Blocking.CapBoundsPartners` | backend/app/grouping/blocking.py:74-80 | no alert is in more than `cap` pairs |
| `Blocking.IdleCapKeepsAll` | backend/app/grouping/blocking.py:101-122 | when no alert exceeds the cap the candidates are exactly the proposed pairs |
| `Blocking.BlockingLosesNoMatch` | backend/app/grouping/blocking.py:63-122 | with an idle cap, no pair matched by a rule whose blocking keys are match keys other than raw amount is lost against an all-pairs scan, whatever the other rules are |
| `Engine.KeepCandidates` | backend/app/grouping/engine.py:118-125 | exactly the candidates that pass and are not pinned apart are kept, with their verdicts |
| `Engine.AddTogether` | backend/app/grouping/engine.py:127-134 | exactly the known together-pins that are not pinned apart are added |
| `Engine.Unite` | backend/app/grouping/engine.py:136-138 | after the unions two ids share a root exactly when kept edges connect them |
| `Engine.StrongestEdge` | backend/app/grouping/engine.py:98-102 | the chosen edge beats every other incident edge: rule match, then score, then counterpart id |
| `Engine.DecideFor` | backend/app/grouping/engine.py:146-162 | the decision names the least id of the component and the strongest edge, or is a singleton |
| `Engine.Group` | backend/app/grouping/engine.py:105-163 | one decision per id, in id order, each the one the specification determines from the kept edges |
| `Engine.DecisionUnique` | backend/app/grouping/engine.py:145-162 | only one decision fits, so iteration order cannot show |
| `Engine.GroupKeysAreComponents` | backend/app/grouping/engine.py:17-24 | equal group keys exactly when a path of kept edges exists; the key is a connected alert and at most the id |
| `Engine.OrderIndependent` | backend/app/grouping/engine.py:111-113 | two listings of the same alerts give the same result |
| `Engine.SingletonMeansAlone` | backend/app/grouping/engine.py:148-151 | without pins, singleton exactly when the component has one alert |
| `Engine.ExplainedByRealEdge` | backend/app/grouping/engine.py:152-162 | without pins, every other decision carries the verdict of a real incident kept edge that passes the threshold |
| `Engine.ExplainedByBestEdge` | backend/app/grouping/engine.py:98-102 | a similarity explanation means no incident rule match, and no incident edge scores higher |
| `Engine.ExplanationIs` | backend/app/grouping/engine.py:98-102 | the explanation is that of one incident edge: a rule match if there is one, else the highest score, among equals the least counterpart id |
| `Engine.SingletonSaysNothing` | backend/app/grouping/engine.py:149-151 | a lone alert's decision carries no rule, score or features |
| `Engine.PinnedEdgeIff` | backend/app/grouping/engine.py:115-134 | pins overrule verdicts in either orientation, and apart overrules together |
| `Engine.FreeEdgeIff` | backend/app/grouping/engine.py:123-125 | an edge is kept exactly for a candidate pair that a rule matches or whose score is at least the threshold |
| `Relation.IdleCapIsFull` | backend/app/grouping/blocking.py:101-122 | with an idle cap a run sees the whole pairwise graph over its alerts |
| `Relation.LooseningCoarsens` | backend/app/grouping/engine.py:118-138 | lower threshold, wider windows, higher tolerance or more rules never separate alerts that were together |
| `Db.RiskIgnoresOrder` | backend/app/grouping/persistence.py:95-105 | the aggregate depends on the multiset of scores only |
| `Db.RiskCoversAlerts` | backend/app/grouping/persistence.py:95-105 | in every mode the aggregate is at least each alert's score, at most 100, and between max and capped sum |
| `Db.RiskModesAre` | backend/app/grouping/persistence.py:95-105 | the three modes, told from a greatest score and the others: alone; all of them up to 100; plus a tenth of the others, rounded, ties to even, up to 100 |
| `Db.TakeOut` | backend/app/grouping/persistence.py:98-99 | taking a score out lowers the sum by it and the maximum to the rest's |
| `Db.MemberScoresAre` | backend/app/grouping/persistence.py:282-287 | the scores of a case are those of its alerts, a missing one counting as zero |
| `Db.EligibleWhen` | backend/app/grouping/persistence.py:108-128 | the eligible rows, in the alerts' own fields: others with a case, sharing one of seven fields, within some enabled rule's window |
| `Store.CaseStore.CandidateQuery` | backend/app/grouping/persistence.py:108-131 | the rows are eligible ones, newest first, none left out that is later than one returned, as many as the limit allows |
| `Store.IndexDecisions` | backend/app/grouping/persistence.py:172-173 | the index holds the fitting decision of every id of the run |
| `Store.MatchCases` | backend/app/grouping/persistence.py:176-183 | the matched cases are exactly those of candidates connected to the new alert by kept edges |
| `Store.CaseStore.Decide` | backend/app/grouping/persistence.py:171-183 | running the engine on alert and candidates yields that alert's decision and those cases |
| `Store.PickSurvivor` | backend/app/grouping/persistence.py:213-213 | the survivor precedes every other open case in creation time, then id |
| `Store.CaseStore.FlagClosed` | backend/app/grouping/persistence.py:193-202 | each matched closed case gets one review event and no other change |
| `Store.CaseStore.MergeOne` | backend/app/grouping/persistence.py:217-253 | the bulk updates move every alert, link, note and decision of the loser and nothing else; the loser is retired and audited |
| `Store.CaseStore.MergeLosers` | backend/app/grouping/persistence.py:213-254 | merging the losers one by one, in any order, equals moving them all at once |
| `Store.CaseStore.LinkAlert` | backend/app/grouping/persistence.py:256-310 | alert, decision, link, risk, count, version and audit event after the closing steps |
| `Store.FinishIsRegroup` | backend/app/grouping/persistence.py:193-310 | the staged effects add up to the one-step effect the invariants are proved about |
| `Store.CaseStore.Resolve` | backend/app/grouping/persistence.py:193-312 | create, attach or merge: the state afterwards is the one-step effect of the plan the matched cases call for |
| `Store.CaseStore.ApplyGroupingForAlert` | backend/app/grouping/persistence.py:158-313 | a legal grouping step that keeps every invariant, stores the engine's verdict in a new decision row, and links alert and row under the actor's name |
| `Store.CaseStore.MoveCase` | backend/app/cases/service.py:171-208 | guards in the source's order with their errors, no change on failure, the full new row and event on success |
| `Store.CaseStore.PersistAlert` | backend/app/ingestion/service.py:207-240 | a legal step that adds one ungrouped alert and keeps every invariant |
| `Store.CaseStore.IngestOne` | backend/app/ingestion/service.py:179-204 | a new alert is inserted and grouped in one go, two legal steps with nothing between, and ends in a case that is not merged |
| `Store.CaseStore.TransitionCase` | backend/app/cases/service.py:152-208 | a legal step that keeps every invariant, with the first failing guard as its error |
| `Store.CaseStore.AssignCase` | backend/app/cases/service.py:211-253 | likewise for assigning and unassigning; merged cases are read-only |
| `Store.CaseStore.AddNote` | backend/app/cases/service.py:256-291 | likewise for notes |
| `Store.CaseStore.RetractNote` | backend/app/cases/service.py:294-336 | likewise for retraction, which is idempotent and leaves no second event |
| `Invariants.NextKeepsInv` | backend/app/cases/service.py:152-336 | every call, successful or not, keeps all table, aggregate, lifecycle and replay invariants together |
| `Invariants.RunKeepsInv` | backend/app/grouping/persistence.py:158-313 | hence every state of every run from the empty database satisfies them |
| `Invariants.GroupKeepsLink` | backend/app/grouping/persistence.py:217-280 | alert row and link row keep naming the same non-merged case |
| `Invariants.GroupKeepsDecisions` | backend/app/grouping/persistence.py:232-280 | links and decisions stay one to one, on the same alert and case |
| `Invariants.GroupKeepsCounts` | backend/app/grouping/persistence.py:282-297 | stored counts and risks of all non-merged cases stay what recomputing gives |
| `Invariants.GroupKeepsRows` | backend/app/cases/service.py:186-195 | close data exactly on closed cases, from the configured dispositions; a pointer to an earlier case exactly on merged ones |
| `Invariants.GroupKeepsStream` | backend/app/grouping/persistence.py:239-310 | replaying a case's events gives its row, and each event's before-values are the replayed ones |
| `Invariants.TransitionTouches` | backend/app/cases/service.py:180-207 | a transition changes one row as its event says and keeps that row well-formed |
| `History.RootIsLive` | backend/app/grouping/persistence.py:237-238 | following canonical pointers ends, strictly earlier, at a case that is not merged |
| `History.GroupMovesRoots` | backend/app/grouping/persistence.py:213-254 | a merge sends every old root among the losers to the survivor and leaves the other roots |
| `History.MergesLoseNothing` | backend/app/grouping/persistence.py:217-254 | in every run, whatever was ever attached to a case is later attached to that case's root: alerts, links with decision and author, notes with text and retraction, decisions with verdict |
| `History.GroupingEvents` | backend/app/grouping/persistence.py:193-310 | the exact events one grouping call appends to every stream: loser, target, flagged or none |
| `History.StoredDecision` | backend/app/grouping/persistence.py:256-280 | every grouping step stores one new decision row with the alert, its case and the engine's verdict, and a link to it with the actor's name |
| `History.StoredVerdictsAreReal` | backend/app/grouping/persistence.py:171-174 | in every run each stored verdict is the engine's for the very call that grouped its alert |
| `History.MergedIsFinal` | backend/app/cases/lifecycle.py:18-24 | a merged case never changes again, never regains an alert, link, note or decision, and gets no more events |
| `History.StreamsOnlyGrow` | backend/app/cases/service.py:197-335 | over whole runs a case's audit history is only ever appended to |
| `History.OnlyMergesMerge` | backend/app/grouping/persistence.py:204-242 | only losing a merge makes a case merged, never from closed, and its pointer names the alert's live case |
| `History.VersionsGuardRuns` | backend/app/grouping/persistence.py:298-299 | between any two moments versions never fall, and an equal version on a live case means the same row and alerts |
| `History.NoLostUpdate` | backend/app/cases/service.py:171-195 | a transition that succeeds with expected version v acts on the row and alert set any earlier reader of v saw |
| `History.ClosedStaysFrozen` | backend/app/grouping/persistence.py:193-204 | while a case stays closed, and in the call that re-opens it, it keeps its alert set, count and risk; nothing but a successful re-open ends the closed status |
| `History.AlertsAreConserved` | backend/app/grouping/persistence.py:282-297 | counts of non-merged cases add up to the number of grouped alerts |
| `Partition.RunsAreIdle` | backend/app/grouping/persistence.py:129-130 | the query limit keeps each run so small that the engine's own cap never drops a pair |
| `Partition.ProposedIsEligible` | backend/app/grouping/persistence.py:110-128 | whatever a queryable rule proposes, the query's filters let through |
| `Partition.NeighbourIsMatched` | backend/app/grouping/persistence.py:166-183 | with no row cut off, every grouped neighbour's case is matched |
| `Partition.GroupKeepsCompleteIff` | backend/app/grouping/persistence.py:193-211 | with no row cut off, one call keeps related alerts together if and only if it matches no closed case |
| `Partition.GroupKeepsCompleteExactly` | backend/app/grouping/persistence.py:108-211 | with any truncation or closing, the exact condition on the new alert's neighbours |
| `Partition.RunIsSound` | backend/app/grouping/persistence.py:158-313 | in every reachable state alerts of one case are connected in the uncapped kept-edge graph |
| `Partition.RunIsComplete` | backend/app/grouping/persistence.py:158-313 | after calls that cut off no row and match no closed case, every kept edge lies inside one case |
| `Partition.RunIsCompleteIff` | backend/app/grouping/persistence.py:108-211 | a run keeps related alerts together in every state if and only if each grouping call matched, open, the cases of all its neighbours |
| `Partition.OpenRunsAreSmooth` | backend/app/grouping/persistence.py:193-204 | a run that closes nothing and cuts off nothing qualifies |
| `Partition.IncrementalIsComponents` | backend/app/grouping/persistence.py:158-313 | two grouped alerts then share a case exactly when kept edges connect them |
| `Partition.IncrementalEqualsBatch` | backend/app/grouping/engine.py:105-163 | the cases are then the groups one batch run of the engine gives |
| `Partition.ArrivalOrderIsIrrelevant` | backend/app/worker.py:14-17 | two such runs over the same alerts end in the same partition |
| `Partition.SingletonMeansUnmatched` | backend/app/grouping/persistence.py:171-211 | the stored decision is a singleton exactly when no existing case matched |
| `ArrivalOrder.ArrivalOrderCanMatter` | backend/app/grouping/persistence.py:129-130 | without the no-row-cut-off condition the order can decide: for every scorable configuration with one given rule and limit one, three alerts have two partitions |
| `Feasible.AnswerExists` | backend/app/grouping/persistence.py:120-131 | the candidate query always has an answer within its limit |
| `Feasible.GroupingWorks` | backend/app/grouping/persistence.py:158-313 | from every good state any ungrouped alert can be grouped, whatever the query answered and whoever asks when |
| `Closing.ClosingNeedsNoReason` | backend/app/cases/service.py:171-207 | a close succeeds exactly when the case is in progress, the version fits and the disposition is configured; its event has a reason exactly when the caller gave one |
| `Closing.ClosedWithoutRationale` | backend/app/cases/lifecycle.py:55-61 | under every configuration with a disposition some run closes a case without note and without reason |
| `Services.TransitionRefusedWhen` | backend/app/cases/service.py:171-184 | each refusal of a transition, in order, and success exactly on an edge of the status graph with fitting version, disposition and reason |
| `Services.TransitionChanges` | backend/app/cases/service.py:186-207 | all a transition changes: status, version, closing data and one event, and nothing else anywhere |
| `Services.ReopenNeedsReason` | backend/app/cases/service.py:182-184 | a re-open succeeds exactly with a reason and a fitting version, and its event records the reason |
| `Services.AssignWhen` | backend/app/cases/service.py:225-236 | each refusal of an assignment, and success exactly otherwise |
| `Services.AssignChanges` | backend/app/cases/service.py:238-252 | all an assignment changes: assignee, version and one event with both assignees |
| `Services.NoteWhen` | backend/app/cases/service.py:270-291 | each refusal of a note, and all that adding one changes |
| `Services.RetractWhen` | backend/app/cases/service.py:310-317 | retraction is for the author or an administrator |
| `Services.RetractChanges` | backend/app/cases/service.py:319-335 | all a retraction changes, and that a second one changes nothing |
| `Services.PlanWhen` | backend/app/grouping/persistence.py:193-254 | what happens to each matched case: closed ones are flagged, the earliest open one by creation and id survives, the other open ones lose, and a new case only if none is open |
| `Services.TargetRowIs` | backend/app/grouping/persistence.py:206-215 | the row a grouping call ends in: opened fresh, or the survivor's with only count, risk and version changed |
| `Worker.Process` | backend/app/worker.py:61-76 | each id is newly grouped, already grouped or failed; only the first changes the state |
| `Worker.GroupAlertsJob` | backend/app/worker.py:48-78 | the job is a run of grouping steps, one per newly grouped alert; the alerts grouped and the failures listed are exactly those its ids and attempts call for |
| `Worker.GroupedByIs` | backend/app/worker.py:61-74 | an alert has a case after n ids exactly when it had one before or one of them names it, it exists and the attempt does not die |
| `Worker.FailuresAre` | backend/app/worker.py:61-76 | the failures listed are those of exactly the ids that do not parse, name no alert, or whose attempt dies before the alert has a case, in order |
| `Worker.EveryIdSettles` | backend/app/worker.py:51-54 | after a job every id names an alert with a case or is listed as failed |
| `Worker.RepeatIsIdle` | backend/app/worker.py:70-71 | a job over ids that all have a case changes nothing and reports nothing |
| `Worker.RetriesConverge` | backend/app/worker.py:14-19 | any number of jobs over the ids with any attempts dying, then one in which none dies, end with the same alerts grouped, the same partition and the same failures as one failure-free job |
| `AuditChain.AuditTables.AppendEvent` | backend/app/audit/service.py:134-205 | the stream grows by one event with the next number, linked to the previous hash, carrying each of the caller's values in its place; the tip follows; streams stay honest |
| `AuditChain.AppendIsGenuine` | backend/app/audit/service.py:161-202 | appending to an honest stream with its tip gives an honest stream with its tip |
| `AuditChain.VerifyStream` | backend/app/audit/service.py:208-242 | reports exactly the numbers of events whose link or hash is wrong; empty exactly for an intact chain |
| `AuditChain.BrokenAre` | backend/app/audit/service.py:217-242 | the broken list holds, in stream order, the sequence numbers of exactly the events whose link or hash is wrong |
| `AuditChain.ReportIs` | backend/app/audit/routes.py:179-205 | which reason each report gives, which numbers it lists, and when there is none |
| `AuditChain.VerifyAnchored` | backend/app/audit/routes.py:166-205 | exactly one report per anchored stream that deserves one, with the right reason, and no others |
| `AuditChain.VerifyOrphans` | backend/app/audit/routes.py:207-225 | exactly one report per stream that has events and no tip, in the order of the names |
| `AuditChain.VerifyAudit` | backend/app/audit/routes.py:159-227 | exactly the reports due, one per stream, orphans last and in order; none exactly when all streams are clean; the count covers anchored and orphan streams |
| `AuditChain.GenuineIsClean` | backend/app/audit/routes.py:179-205 | an untampered stream is never reported |
| `AuditChain.CleanIffGenuine` | backend/app/audit/service.py:54-89 | against its genuine tip a stream passes if and only if it equals the genuine one in every hashed field |
| `AuditChain.EmptyReportIffUntampered` | backend/app/audit/routes.py:161-227 | with tips untouched, nothing is reported if and only if no stream was edited, cut, extended, reordered or added |
| `AuditChain.RebuiltChainPasses` | backend/app/audit/routes.py:188-198 | a rebuilt chain with a rewritten tip passes, whatever its events |
| `AuditProtocol.StepKeeps` | backend/app/audit/service.py:146-205 | every database action of interleaved appends keeps committed streams honest, pending writes honest extensions, locks exclusive |
| `AuditProtocol.EveryScheduleIsGenuine` | backend/app/audit/service.py:146-205 | in every interleaving, with rollbacks and several appends per transaction, committed streams are 1 to n, chained to genesis, matching their tip |
| `AuditProtocol.HistoryIsAppendOnly` | backend/app/audit/service.py:199-204 | what a stream had committed stays its prefix |
| `AuditProtocol.EventsCarryTheirWrites` | backend/app/audit/service.py:161-204 | in every interleaving each committed event carries the values of the one write it came from, each in its place |
| `AuditProtocol.HonestLogsVerify` | backend/app/audit/routes.py:161-227 | taken from one snapshot, at any moment of any interleaving, verification reports nothing |
| `AuditReads.LaterReadIff` | backend/app/audit/routes.py:166-205 | tips read at one moment and events at a later one: an honest stream passes if and only if nothing of it was committed in between, and is never reported as a broken chain |
| `AuditReads.FalseOrphanIff` | backend/app/audit/routes.py:164-225 | an honest stream is reported as an orphan exactly when it got its tip and first event between the reading of tips and names |
| `AuditReads.InterleavedVerifyIff` | backend/app/audit/routes.py:161-227 | with every read at its own moment, verification of an honest log reports nothing if and only if no commit to what it read fell in between |
| `AuditReads.AppendBetweenReadsAlarms` | backend/app/audit/routes.py:161-227 | the false alarm: one ordinary append to any stream, committed between the reads, gets that stream reported |
| `Keyset.KeysetMatchesOrder` | backend/app/cases/search.py:207-229 | the cursor condition selects exactly the rows the ORDER BY puts after the cursor's row, nulls last included |
| `Keyset.OrderIsStrict` | backend/app/cases/search.py:207-212 | each sort is a strict total order on keys with their ids |
| `Keyset.CursorRoundTrip` | backend/app/cases/search.py:232-278 | a cursor decodes to the position it was made from |
| `Keyset.CursorAcrossSorts` | backend/app/cases/search.py:247-277 | under another sort a cursor is refused exactly when its value does not fit, else it means the same position |
| `Keyset.CursorAccepted` | backend/app/cases/search.py:254-278 | exactly which cursors a sort accepts, and what position they give |
| `Keyset.PageShows` | backend/app/cases/search.py:320-345 | a row beyond the cursor is on the page, or the page is full, has a cursor, and stops before it |
| `Keyset.ShownInOrder` | backend/app/cases/search.py:316-346 | a walk shows rows strictly in order, whatever changes between pages |
| `Keyset.StableRowShownOnce` | backend/app/cases/search.py:316-346 | a row whose key and filter membership stay fixed is shown exactly once in a completed walk |
| `Keyset.FixedWalkIsSortedList` | backend/app/cases/search.py:316-346 | on fixed data the pages concatenate to the sorted filtered list |
| `Keyset.WalkOrderIs` | backend/app/cases/search.py:207-212 | the order of a walk in the rows' own columns: risk or creation descending with ids descending, or oldest alert ascending, missing ones last, ids ascending |
| `Keyset.LimitIs` | backend/app/cases/search.py:320-320 | the page size is what was asked for, within 1 and 200 |
| `Keyset.WalkEnds` | backend/app/cases/search.py:345-346 | on fixed data following the cursor ends |
| `Keyset.PagesAreFull` | backend/app/cases/search.py:320-328 | every page but the last holds exactly the clamped limit |
| `Ingest.IngestTables.InsertOrExisting` | backend/app/ingestion/service.py:98-163 | a new identity is inserted, an owned one returns its owner and changes nothing |
| `Ingest.IngestTables.IngestAlert` | backend/app/ingestion/routes.py:71-111 | a cache hit replays for the same body and is refused for another; otherwise created exactly if nobody had the identity, adding exactly that row and its cache entry; a success names the one alert with the identity; all else changes nothing |
| `Ingest.KeysAreNamespaced` | backend/app/ingestion/idempotency.py:48-59 | header keys of different clients never meet; without a header the key is the alert's identity |
| `Ingest.InsertKeepsUnique` | backend/app/ingestion/service.py:143-163 | inserts keep identities unique and every earlier answer true |
| `Ingest.StepKeepsOk` | backend/app/ingestion/routes.py:85-111 | every action of interleaved requests, batch inserts and cache losses keeps cached and given answers true |
| `Ingest.EverySuccessNamesTheAlert` | backend/app/ingestion/routes.py:85-111 | in every interleaving each 200 or 201 names the one stored alert with the request's identity, even if keys collide |
| `Ingest.RejectionsAreReal` | backend/app/ingestion/routes.py:89-94 | a key-reuse rejection means the entry was stored for a different body |
| `Ingest.RetryReturnsOriginal` | backend/app/ingestion/idempotency.py:71-114 | until a cached answer is lost or replaced, every request with its key gets it back if the body is the same, and the key-reuse rejection if not |

## Left out

- Grouping concurrency: each service call of the case tables is one atomic step; only audit appends and ingestion requests interleave, because the source takes no row locks on cases while grouping.
- Candidate rows with equal event times may be cut in any way, since the query orders by time only.
- Rules that block or match on the id, the event time or the typology set, which no configuration uses; the rule field `weight`, which nothing reads.
- Blocking on the raw amount compares numbers, while the source compares the text of a decimal, where 5.0 and 5.00 differ; `Blocking.BlockingLosesNoMatch` leaves that field out for this reason.
- Floating-point rounding in scores, the threshold comparison and the 10% term of the weighted risk.
- Normalisation of inbound alerts, schema validation, and the case and grouping parts of an ingestion response.
- Ingest.EverySuccessNamesTheAlert: cache entries without a fingerprint, written by earlier versions, are assumed absent.
- The batch route's chunked commits and enqueueing; its inserts appear as single `PersistOnly` steps.
- Human-readable case references, update times, and actor and correlation fields of case events; the reasons of events other than transitions.
- Status strings outside the five known ones, which the source treats as having no allowed transition.
- The order in which anchored streams are verified and reported: the query that lists them has none.
- Case events of audit exports, which change no case row, and the events of alert streams.
- AuditProtocol.EveryScheduleIsGenuine: safety only; deadlocks, lock timeouts and waiting for ever are not excluded.
- The list filters and full-text search (one set of filtered rows per request stands for them), and case statistics.
- Keyset.StableRowShownOnce: speaks of completed walks; when rows keep arriving a walk need not complete.
- Paging of the audit query, the audit bundle and its HTML form, authentication, rate limits, metrics, the frontend, migrations and scripts.
