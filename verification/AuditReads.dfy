/** Verification reads the tips first and the events later, while honest writers go on appending. */
module AuditReads {
  import opened Prelude
  import opened AuditChain
  import opened AuditProtocol

  /** Against the tips of an earlier moment an honest stream passes if and only if nothing of it was committed in
      between; what is reported otherwise is never a broken chain. */
  lemma LaterReadIff(h: Digest, actions: seq<Action>, logs: seq<Log>, i: nat, j: nat, s: string)
    requires IsSchedule(h, actions, logs) && logs[0] == EmptyLog && i <= j < |logs| && s in logs[i].tips
    ensures var report := ReportOn(h, s, logs[i].tips[s], RowsOf(logs[j].rows, s));
            && (report.None? <==> RowsOf(logs[j].rows, s) == RowsOf(logs[i].rows, s))
            && (report.Some? ==> report.value.reason != Chain)
  {
    var earlier, later := RowsOf(logs[i].rows, s), RowsOf(logs[j].rows, s);
    EveryScheduleIsGenuine(h, actions, logs, i, s);
    EveryScheduleIsGenuine(h, actions, logs, j, s);
    HistoryIsAppendOnly(h, actions, logs, i, j, s);
    hide IsSchedule;
    NothingBrokenIsChained(h, later);
    if later == earlier {
      RecordIsItself(earlier);
      GenuineIsClean(h, s, logs[i].tips[s], later, earlier);
    }
  }

  /** The events an orphan is reported with are read after the stream names, at some moment of their own. */
  ghost predicate ReadAfterNames(logs: seq<Log>, names: nat, s: string, events: seq<Event>)
    requires names < |logs|
  {
    if RowsOf(logs[names].rows, s) == [] then events == []
    else exists k :: names <= k < |logs| && events == RowsOf(logs[k].rows, s)
  }

  /** What one verification sees: the tips at moment `i`, the events of each anchored stream at a moment `at` of its
      own, the names of all streams with events at moment `names`, and the orphans' events after that. */
  ghost predicate IsReading(logs: seq<Log>, i: nat, at: map<string, nat>, names: nat, seen: Rows) {
    && i <= names < |logs|
    && (forall s :: s in logs[i].tips ==>
         s in at && i <= at[s] <= names && RowsOf(seen, s) == RowsOf(logs[at[s]].rows, s))
    && (forall s :: s !in logs[i].tips ==> ReadAfterNames(logs, names, s, RowsOf(seen, s)))
  }

  /** No append to an anchored stream was committed before its events were read, and no other stream got its first
      event before the names were read. */
  ghost predicate QuietReads(logs: seq<Log>, i: nat, at: map<string, nat>, names: nat)
    requires i < |logs| && names < |logs|
    requires forall s :: s in logs[i].tips ==> s in at && at[s] < |logs|
  {
    && (forall s :: s in logs[i].tips ==> RowsOf(logs[at[s]].rows, s) == RowsOf(logs[i].rows, s))
    && (forall s :: s !in logs[i].tips ==> RowsOf(logs[names].rows, s) == [])
  }

  /** A stream of an honest log is reported as an orphan exactly when its tip row and its first event were committed
      between the reading of the tips and the reading of the names. */
  lemma FalseOrphanIff(h: Digest, actions: seq<Action>, logs: seq<Log>, i: nat, at: map<string, nat>, names: nat,
                       seen: Rows, s: string)
    requires IsSchedule(h, actions, logs) && logs[0] == EmptyLog && IsReading(logs, i, at, names, seen)
    ensures s in Orphans(logs[i].tips, seen) <==> s !in logs[i].tips && RowsOf(logs[names].rows, s) != []
    ensures s in Orphans(logs[i].tips, seen) ==>
      RowsOf(logs[i].rows, s) == [] && s in logs[names].tips && RowsOf(logs[names].rows, s) <= RowsOf(seen, s)
  {
    EveryScheduleIsGenuine(h, actions, logs, i, s);
    EveryScheduleIsGenuine(h, actions, logs, names, s);
    hide Genuine, IsSchedule;
    if s !in logs[i].tips && RowsOf(logs[names].rows, s) != [] {
      var k :| names <= k < |logs| && RowsOf(seen, s) == RowsOf(logs[k].rows, s);
      HistoryIsAppendOnly(h, actions, logs, names, k, s);
    }
  }

  /** Verification of an honest log running beside its writers reports nothing if and only if no commit fell between
      its reads. */
  lemma InterleavedVerifyIff(h: Digest, actions: seq<Action>, logs: seq<Log>, i: nat, at: map<string, nat>, names: nat,
                             seen: Rows)
    requires IsSchedule(h, actions, logs) && logs[0] == EmptyLog && IsReading(logs, i, at, names, seen)
    ensures AllClean(h, logs[i].tips, seen) <==> QuietReads(logs, i, at, names)
  {
    var tips := logs[i].tips;
    forall s | s in tips
      ensures ReportOn(h, s, tips[s], RowsOf(seen, s)).None? <==> RowsOf(logs[at[s]].rows, s) == RowsOf(logs[i].rows, s)
    {
      LaterReadIff(h, actions, logs, i, at[s], s);
    }
    forall s ensures s in Orphans(tips, seen) <==> s !in tips && RowsOf(logs[names].rows, s) != [] {
      FalseOrphanIff(h, actions, logs, i, at, names, seen, s);
    }
    hide Orphans, ReportOn, IsSchedule, RowsOf;
  }

  // ---- One append between the reads ----------------------------------------

  lemma ScheduleExtends(h: Digest, actions: seq<Action>, logs: seq<Log>, action: Action, after: Log)
    requires IsSchedule(h, actions, logs) && Step(h, logs[|actions|], action, after)
    ensures IsSchedule(h, actions + [action], logs + [after])
  {
    hide Step;
    var actions', logs' := actions + [action], logs + [after];
    forall k | 0 <= k < |actions'| ensures Step(h, logs'[k], actions'[k], logs'[k + 1]) {
      if k < |actions| { assert Step(h, logs[k], actions[k], logs[k + 1]); }
    }
  }

  /** One whole append on an otherwise idle log. */
  lemma AppendSteps(h: Digest, log: Log, stream: string, draft: Draft)
    returns (begun: Log, ensured: Log, locked: Log, written: Log, after: Log)
    requires log.txs == map[]
    ensures Step(h, log, Begin(0), begun) && Step(h, begun, EnsureRow(0, stream), ensured)
    ensures Step(h, ensured, LockTip(0, stream), locked) && Step(h, locked, Write(0, draft), written)
    ensures Step(h, written, Commit(0), after)
    ensures |RowsOf(after.rows, stream)| == |RowsOf(log.rows, stream)| + 1
  {
    hide NextEvent;
    begun := log.(txs := log.txs[0 := Tx({}, map[], map[], None)]);
    ensured := Ensured(begun, 0, stream);
    locked := LockedTip(ensured, 0, stream);
    written := locked.(txs := locked.txs[0 := Written(h, locked.txs[0], draft)]);
    after := Closed(Committed(written, written.txs[0]), 0);
    CommittedRows(written, written.txs[0], stream);
  }

  /** The false alarm: after any honest schedule with no transaction open, one ordinary append to any stream, committed
      between the reading of the tips and the reading of the events, gets that stream reported. */
  lemma AppendBetweenReadsAlarms(h: Digest, actions: seq<Action>, logs: seq<Log>, stream: string, draft: Draft)
    returns (actions': seq<Action>, logs': seq<Log>)
    requires IsSchedule(h, actions, logs) && logs[0] == EmptyLog && logs[|actions|].txs == map[]
    ensures IsSchedule(h, actions', logs') && logs'[0] == EmptyLog && |actions'| == |actions| + 5
    ensures logs'[|actions|] == logs[|actions|]
    ensures var tips, rows := logs'[|actions|].tips, logs'[|actions'|].rows;
            if stream in tips then ReportOn(h, stream, tips[stream], RowsOf(rows, stream)).Some?
            else stream in Orphans(tips, rows)
  {
    var n, log := |actions|, logs[|actions|];
    hide Step, ReportOn;
    var begun, ensured, locked, written, after := AppendSteps(h, log, stream, draft);
    ScheduleExtends(h, actions, logs, Begin(0), begun);
    actions', logs' := actions + [Begin(0)], logs + [begun];
    ScheduleExtends(h, actions', logs', EnsureRow(0, stream), ensured);
    actions', logs' := actions' + [EnsureRow(0, stream)], logs' + [ensured];
    ScheduleExtends(h, actions', logs', LockTip(0, stream), locked);
    actions', logs' := actions' + [LockTip(0, stream)], logs' + [locked];
    ScheduleExtends(h, actions', logs', Write(0, draft), written);
    actions', logs' := actions' + [Write(0, draft)], logs' + [written];
    ScheduleExtends(h, actions', logs', Commit(0), after);
    actions', logs' := actions' + [Commit(0)], logs' + [after];
    if stream in log.tips { LaterReadIff(h, actions', logs', n, n + 5, stream); }
  }
}
