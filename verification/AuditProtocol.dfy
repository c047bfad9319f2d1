/** Interleaved transactions appending to the audit streams under the tip-row lock. */
module AuditProtocol {
  import opened Prelude
  import opened AuditChain

  type TxId = nat

  /** An open transaction: the tip rows it holds locked, what it has written, and a tip it has read but not yet used. */
  datatype Tx = Tx(locked: set<string>, tips: Streams, rows: Rows, reading: Option<Read>)

  datatype Read = Read(stream: string, tip: Tip)

  /** Committed tips and events, and the transactions in flight. */
  datatype Log = Log(tips: Streams, rows: Rows, txs: map<TxId, Tx>)

  const EmptyLog := Log(map[], map[], map[])

  /** The database actions of interleaved callers; an append is the three actions in the middle. */
  datatype Action =
    | Begin(t: TxId)
    | EnsureRow(t: TxId, stream: string)
    | LockTip(t: TxId, stream: string)
    | Write(t: TxId, draft: Draft)
    | Commit(t: TxId)
    | Rollback(t: TxId)

  /** The tip row a transaction sees: its own version if it wrote one, else the committed one. */
  function SeenTip(log: Log, tx: Tx, stream: string): Option<Tip> {
    if stream in tx.tips then Some(tx.tips[stream])
    else if stream in log.tips then Some(log.tips[stream])
    else None
  }

  predicate LockedByOther(log: Log, t: TxId, stream: string) {
    exists u :: u in log.txs && u != t && stream in log.txs[u].locked
  }

  predicate InsertedByOther(log: Log, t: TxId, stream: string) {
    exists u :: u in log.txs && u != t && stream in log.txs[u].tips
  }

  /** Insert a genesis row unless one exists; waits for a competing uncommitted insert. */
  predicate CanEnsure(log: Log, t: TxId, stream: string) {
    t in log.txs && (stream in log.tips || stream in log.txs[t].tips || !InsertedByOther(log, t, stream))
  }

  function Ensured(log: Log, t: TxId, stream: string): Log
    requires t in log.txs
  {
    var tx := log.txs[t];
    if stream in log.tips || stream in tx.tips then log
    else log.(txs := log.txs[t := tx.(tips := tx.tips[stream := GenesisTip], locked := tx.locked + {stream})])
  }

  /** Lock the visible tip row and read it; waits while another transaction holds the row. */
  predicate CanLock(log: Log, t: TxId, stream: string) {
    t in log.txs && SeenTip(log, log.txs[t], stream).Some? && !LockedByOther(log, t, stream)
  }

  function LockedTip(log: Log, t: TxId, stream: string): Log
    requires t in log.txs && SeenTip(log, log.txs[t], stream).Some?
  {
    var tx := log.txs[t];
    log.(txs := log.txs[t := tx.(locked := tx.locked + {stream},
                                 reading := Some(Read(stream, SeenTip(log, tx, stream).value)))])
  }

  /** Write the event and the new tip, from the values read under the lock. */
  function Written(h: Digest, tx: Tx, draft: Draft): Tx
    requires tx.reading.Some?
  {
    var stream, tip := tx.reading.value.stream, tx.reading.value.tip;
    var e := NextEvent(h, stream, tip, draft);
    tx.(rows := tx.rows[stream := RowsOf(tx.rows, stream) + [e]],
        tips := tx.tips[stream := TipAfter(e)], reading := None)
  }

  function Committed(log: Log, tx: Tx): Log {
    log.(tips := log.tips + tx.tips,
         rows := map s | s in log.rows.Keys + tx.rows.Keys :: RowsOf(log.rows, s) + RowsOf(tx.rows, s))
  }

  function Closed(log: Log, t: TxId): Log { log.(txs := log.txs - {t}) }

  ghost predicate Step(h: Digest, log: Log, action: Action, after: Log) {
    match action
    case Begin(t) => t !in log.txs && after == log.(txs := log.txs[t := Tx({}, map[], map[], None)])
    case EnsureRow(t, stream) => CanEnsure(log, t, stream) && after == Ensured(log, t, stream)
    case LockTip(t, stream) => CanLock(log, t, stream) && after == LockedTip(log, t, stream)
    case Write(t, draft) =>
      t in log.txs && log.txs[t].reading.Some? && after == log.(txs := log.txs[t := Written(h, log.txs[t], draft)])
    case Commit(t) => t in log.txs && after == Closed(Committed(log, log.txs[t]), t)
    case Rollback(t) => t in log.txs && after == Closed(log, t)
  }

  ghost predicate IsSchedule(h: Digest, actions: seq<Action>, logs: seq<Log>) {
    |logs| == |actions| + 1 && forall i :: 0 <= i < |actions| ==> Step(h, logs[i], actions[i], logs[i + 1])
  }

  // ---- The invariant -------------------------------------------------------

  /** A committed stream is an honest history. */
  ghost predicate StreamOk(h: Digest, tips: Streams, rows: Rows, s: string) {
    if s in tips then Genuine(h, s, RowsOf(rows, s), tips[s]) else RowsOf(rows, s) == []
  }

  /** What a transaction has written extends the committed stream honestly, under a lock it holds. */
  ghost predicate TxStreamOk(h: Digest, log: Log, tx: Tx, s: string) {
    && (s in tx.tips ==> s in tx.locked && Genuine(h, s, RowsOf(log.rows, s) + RowsOf(tx.rows, s), tx.tips[s]))
    && (s !in tx.tips ==> RowsOf(tx.rows, s) == [])
    && (s in tx.locked ==> s in tx.tips || s in log.tips)
  }

  /** The tip read under the lock is still the one the transaction sees. */
  ghost predicate ReadOk(log: Log, tx: Tx) {
    tx.reading.Some? ==>
      tx.reading.value.stream in tx.locked && SeenTip(log, tx, tx.reading.value.stream) == Some(tx.reading.value.tip)
  }

  ghost predicate TxOk(h: Digest, log: Log, tx: Tx) {
    ReadOk(log, tx) && forall s :: TxStreamOk(h, log, tx, s)
  }

  ghost predicate Exclusive(log: Log) {
    forall t, u, s :: t in log.txs && u in log.txs && t != u && s in log.txs[t].locked ==> s !in log.txs[u].locked
  }

  ghost predicate LogOk(h: Digest, log: Log) {
    && (forall s :: StreamOk(h, log.tips, log.rows, s))
    && (forall t :: t in log.txs ==> TxOk(h, log, log.txs[t]))
    && Exclusive(log)
  }

  // ---- Every action keeps it -----------------------------------------------

  lemma EnsureKeeps(h: Digest, log: Log, t: TxId, stream: string)
    requires LogOk(h, log) && CanEnsure(log, t, stream)
    ensures LogOk(h, Ensured(log, t, stream))
  {
    hide Genuine;
    var after := Ensured(log, t, stream);
    if after != log {
      var tx, tx' := log.txs[t], after.txs[t];
      assert TxOk(h, log, tx);
      assert Genuine(h, stream, [], GenesisTip) by { NoEventsGenuine(h, stream); }
      assert StreamOk(h, log.tips, log.rows, stream) && TxStreamOk(h, log, tx, stream);
      assert RowsOf(log.rows, stream) + RowsOf(tx.rows, stream) == [];
      forall s ensures TxStreamOk(h, after, tx', s) { assert TxStreamOk(h, log, tx, s); }
      forall u | u in log.txs && u != t ensures stream !in log.txs[u].locked {
        assert TxOk(h, log, log.txs[u]) && TxStreamOk(h, log, log.txs[u], stream);
      }
      forall u | u in after.txs && u != t ensures TxOk(h, after, after.txs[u]) {
        assert TxOk(h, log, log.txs[u]);
        forall s ensures TxStreamOk(h, after, log.txs[u], s) { assert TxStreamOk(h, log, log.txs[u], s); }
      }
    }
  }

  lemma LockKeeps(h: Digest, log: Log, t: TxId, stream: string)
    requires LogOk(h, log) && CanLock(log, t, stream)
    ensures LogOk(h, LockedTip(log, t, stream))
  {
    hide Genuine;
    var after := LockedTip(log, t, stream);
    var tx, tx' := log.txs[t], after.txs[t];
    assert TxOk(h, log, tx);
    forall s ensures TxStreamOk(h, after, tx', s) { assert TxStreamOk(h, log, tx, s); }
    forall u | u in after.txs && u != t ensures TxOk(h, after, after.txs[u]) {
      assert TxOk(h, log, log.txs[u]);
      forall s ensures TxStreamOk(h, after, log.txs[u], s) { assert TxStreamOk(h, log, log.txs[u], s); }
    }
  }

  lemma WriteKeeps(h: Digest, log: Log, t: TxId, draft: Draft)
    requires LogOk(h, log) && t in log.txs && log.txs[t].reading.Some?
    ensures LogOk(h, log.(txs := log.txs[t := Written(h, log.txs[t], draft)]))
  {
    hide Genuine;
    var tx, tx' := log.txs[t], Written(h, log.txs[t], draft);
    var after := log.(txs := log.txs[t := tx']);
    assert TxOk(h, log, tx);
    var stream := tx.reading.value.stream;
    assert TxStreamOk(h, log, tx, stream) && StreamOk(h, log.tips, log.rows, stream);
    WrittenIsGenuine(h, log, tx, draft);
    forall s ensures TxStreamOk(h, after, tx', s) { assert TxStreamOk(h, log, tx, s); }
    forall u | u in after.txs && u != t ensures TxOk(h, after, after.txs[u]) {
      assert TxOk(h, log, log.txs[u]);
      forall s ensures TxStreamOk(h, after, log.txs[u], s) { assert TxStreamOk(h, log, log.txs[u], s); }
    }
  }

  lemma WrittenIsGenuine(h: Digest, log: Log, tx: Tx, draft: Draft)
    requires tx.reading.Some? && ReadOk(log, tx) && TxStreamOk(h, log, tx, tx.reading.value.stream)
    requires StreamOk(h, log.tips, log.rows, tx.reading.value.stream)
    ensures var s, tx' := tx.reading.value.stream, Written(h, tx, draft);
            s in tx'.tips && Genuine(h, s, RowsOf(log.rows, s) + RowsOf(tx'.rows, s), tx'.tips[s])
  {
    hide Genuine;
    var s, tip := tx.reading.value.stream, tx.reading.value.tip;
    var sofar := RowsOf(log.rows, s) + RowsOf(tx.rows, s);
    assert s !in tx.tips ==> sofar == RowsOf(log.rows, s);
    AppendIsGenuine(h, s, sofar, tip, draft);
    var e := NextEvent(h, s, tip, draft);
    assert sofar + [e] == RowsOf(log.rows, s) + (RowsOf(tx.rows, s) + [e]);
  }

  lemma CommitKeeps(h: Digest, log: Log, t: TxId)
    requires LogOk(h, log) && t in log.txs
    ensures LogOk(h, Closed(Committed(log, log.txs[t]), t))
  {
    hide Genuine;
    var tx, after := log.txs[t], Closed(Committed(log, log.txs[t]), t);
    assert TxOk(h, log, tx);
    forall s ensures StreamOk(h, after.tips, after.rows, s) {
      assert StreamOk(h, log.tips, log.rows, s) && TxStreamOk(h, log, tx, s);
      CommittedRows(log, tx, s);
      assert s !in tx.tips ==> RowsOf(log.rows, s) + RowsOf(tx.rows, s) == RowsOf(log.rows, s);
    }
    forall u | u in after.txs ensures TxOk(h, after, after.txs[u]) {
      assert TxOk(h, log, log.txs[u]);
      OthersSurviveCommit(h, log, t, u);
    }
  }

  lemma CommittedRows(log: Log, tx: Tx, s: string)
    ensures RowsOf(Committed(log, tx).rows, s) == RowsOf(log.rows, s) + RowsOf(tx.rows, s)
  {
  }

  /** The lock keeps a commit away from every stream another transaction relies on. */
  lemma OthersSurviveCommit(h: Digest, log: Log, t: TxId, u: TxId)
    requires LogOk(h, log) && t in log.txs && u in log.txs && u != t
    ensures TxOk(h, Closed(Committed(log, log.txs[t]), t), log.txs[u])
  {
    hide Genuine;
    var tx, ux, after := log.txs[t], log.txs[u], Closed(Committed(log, log.txs[t]), t);
    assert TxOk(h, log, tx) && TxOk(h, log, ux);
    forall s ensures TxStreamOk(h, after, ux, s) {
      assert TxStreamOk(h, log, tx, s) && TxStreamOk(h, log, ux, s);
      CommittedRows(log, tx, s);
      assert s in ux.locked ==> RowsOf(log.rows, s) + RowsOf(tx.rows, s) == RowsOf(log.rows, s);
    }
    if ux.reading.Some? {
      var s := ux.reading.value.stream;
      assert TxStreamOk(h, log, tx, s);
    }
  }

  lemma CloseKeeps(h: Digest, log: Log, t: TxId)
    requires LogOk(h, log)
    ensures LogOk(h, Closed(log, t))
  {
    hide Genuine;
    var after := Closed(log, t);
    forall u | u in after.txs ensures TxOk(h, after, after.txs[u]) {
      assert TxOk(h, log, log.txs[u]);
      forall s ensures TxStreamOk(h, after, log.txs[u], s) { assert TxStreamOk(h, log, log.txs[u], s); }
    }
  }

  lemma BeginKeeps(h: Digest, log: Log, t: TxId)
    requires LogOk(h, log) && t !in log.txs
    ensures LogOk(h, log.(txs := log.txs[t := Tx({}, map[], map[], None)]))
  {
    hide Genuine;
    var after := log.(txs := log.txs[t := Tx({}, map[], map[], None)]);
    forall u | u in after.txs ensures TxOk(h, after, after.txs[u]) {
      if u != t { assert TxOk(h, log, log.txs[u]); }
      forall s ensures TxStreamOk(h, after, after.txs[u], s) {
        if u != t { assert TxStreamOk(h, log, log.txs[u], s); }
      }
    }
  }

  lemma StepKeeps(h: Digest, log: Log, action: Action, after: Log)
    requires LogOk(h, log) && Step(h, log, action, after)
    ensures LogOk(h, after)
  {
    hide LogOk, CanEnsure, CanLock, Ensured, Written, Committed, Closed;
    match action
    case Begin(t) => BeginKeeps(h, log, t);
    case EnsureRow(t, stream) => EnsureKeeps(h, log, t, stream);
    case LockTip(t, stream) => CanLockSees(log, t, stream); LockKeeps(h, log, t, stream);
    case Write(t, draft) => WriteKeeps(h, log, t, draft);
    case Commit(t) => CommitKeeps(h, log, t);
    case Rollback(t) => CloseKeeps(h, log, t);
  }

  lemma CanLockSees(log: Log, t: TxId, stream: string)
    requires CanLock(log, t, stream)
    ensures t in log.txs && SeenTip(log, log.txs[t], stream).Some?
  {
  }

  // ---- Whole schedules -----------------------------------------------------

  lemma {:induction false} ScheduleKeeps(h: Digest, actions: seq<Action>, logs: seq<Log>, i: nat)
    requires IsSchedule(h, actions, logs) && logs[0] == EmptyLog && i < |logs|
    ensures LogOk(h, logs[i])
  {
    hide LogOk, Step;
    if i == 0 {
      EmptyLogOk(h);
    } else {
      ScheduleKeeps(h, actions, logs, i - 1);
      StepKeeps(h, logs[i - 1], actions[i - 1], logs[i]);
    }
  }

  lemma EmptyLogOk(h: Digest)
    ensures LogOk(h, EmptyLog)
  {
  }

  /** Whatever the interleaving, with rollbacks and with several appends per transaction, every committed
      stream is numbered 1 to n without a gap, links back to genesis, and matches its committed tip. */
  lemma EveryScheduleIsGenuine(h: Digest, actions: seq<Action>, logs: seq<Log>, i: nat, s: string)
    requires IsSchedule(h, actions, logs) && logs[0] == EmptyLog && i < |logs|
    ensures if s in logs[i].tips then Genuine(h, s, RowsOf(logs[i].rows, s), logs[i].tips[s])
            else RowsOf(logs[i].rows, s) == []
  {
    hide Genuine, TxOk, Exclusive;
    ScheduleKeeps(h, actions, logs, i);
    assert StreamOk(h, logs[i].tips, logs[i].rows, s);
  }

  /** Committed history is append-only: what was committed stays, in place. */
  lemma {:induction false} HistoryIsAppendOnly(h: Digest, actions: seq<Action>, logs: seq<Log>, i: nat, j: nat,
      s: string)
    requires IsSchedule(h, actions, logs) && i <= j < |logs|
    ensures RowsOf(logs[i].rows, s) <= RowsOf(logs[j].rows, s)
    decreases j
  {
    hide Step;
    if i < j {
      HistoryIsAppendOnly(h, actions, logs, i, j - 1, s);
      StepAppends(h, logs[j - 1], actions[j - 1], logs[j], s);
    }
  }

  lemma StepAppends(h: Digest, log: Log, action: Action, after: Log, s: string)
    requires Step(h, log, action, after)
    ensures RowsOf(log.rows, s) <= RowsOf(after.rows, s)
  {
    if action.Commit? { CommittedRows(log, log.txs[action.t], s); }
  }

  /** The log an honest schedule leaves behind verifies clean, at every moment. */
  lemma HonestLogsVerify(h: Digest, actions: seq<Action>, logs: seq<Log>, i: nat)
    requires IsSchedule(h, actions, logs) && logs[0] == EmptyLog && i < |logs|
    ensures AllClean(h, logs[i].tips, logs[i].rows)
  {
    hide Genuine, IsSchedule, SameRecord, ReportOn;
    var tips, rows := logs[i].tips, logs[i].rows;
    forall s ensures s !in tips ==> RowsOf(rows, s) == [] { EveryScheduleIsGenuine(h, actions, logs, i, s); }
    assert Orphans(tips, rows) == {};
    forall s | s in tips ensures ReportOn(h, s, tips[s], RowsOf(rows, s)).None? {
      EveryScheduleIsGenuine(h, actions, logs, i, s);
      RecordIsItself(RowsOf(rows, s));
      GenuineIsClean(h, s, tips[s], RowsOf(rows, s), RowsOf(rows, s));
    }
  }

  lemma RecordIsItself(events: seq<Event>)
    ensures SameRecord(events, events)
  {
  }

  // ---- Whose values the events carry ---------------------------------------

  /** Action `w` is the write of event `e`: under the tip of stream `s` that its transaction had read, with all of its
      caller's values in their places. One write has one stream and one number, so no two events share it. */
  ghost predicate WrittenBy(actions: seq<Action>, logs: seq<Log>, w: nat, s: string, e: Event)
    requires w < |actions| < |logs|
  {
    && actions[w].Write? && actions[w].t in logs[w].txs && logs[w].txs[actions[w].t].reading.Some?
    && logs[w].txs[actions[w].t].reading.value.stream == s && e.body.stream == s
    && e.body.seqNo == logs[w].txs[actions[w].t].reading.value.tip.lastSeq + 1
    && Carries(e, actions[w].draft)
  }

  ghost predicate HasWrite(actions: seq<Action>, logs: seq<Log>, i: nat, s: string, e: Event)
    requires i <= |actions| < |logs|
  {
    exists w :: 0 <= w < i && WrittenBy(actions, logs, w, s, e)
  }

  ghost predicate AllWritten(actions: seq<Action>, logs: seq<Log>, i: nat, rows: Rows)
    requires i <= |actions| < |logs|
  {
    forall s, k :: 0 <= k < |RowsOf(rows, s)| ==> HasWrite(actions, logs, i, s, RowsOf(rows, s)[k])
  }

  /** So far every event, committed or pending, has its write. */
  ghost predicate WritesOk(actions: seq<Action>, logs: seq<Log>, i: nat)
    requires i <= |actions| < |logs|
  {
    && AllWritten(actions, logs, i, logs[i].rows)
    && forall t :: t in logs[i].txs ==> AllWritten(actions, logs, i, logs[i].txs[t].rows)
  }

  lemma WrittenStays(actions: seq<Action>, logs: seq<Log>, i: nat, rows: Rows)
    requires i < |actions| < |logs| && AllWritten(actions, logs, i, rows)
    ensures AllWritten(actions, logs, i + 1, rows)
  {
    hide WrittenBy, RowsOf;
    forall s, k | 0 <= k < |RowsOf(rows, s)| ensures HasWrite(actions, logs, i + 1, s, RowsOf(rows, s)[k]) {
      assert HasWrite(actions, logs, i, s, RowsOf(rows, s)[k]);
    }
  }

  lemma WriteIsWritten(h: Digest, actions: seq<Action>, logs: seq<Log>, i: nat)
    requires i < |actions| < |logs| && Step(h, logs[i], actions[i], logs[i + 1]) && actions[i].Write?
    requires AllWritten(actions, logs, i + 1, logs[i].txs[actions[i].t].rows)
    ensures AllWritten(actions, logs, i + 1, logs[i + 1].txs[actions[i].t].rows)
  {
    var t := actions[i].t;
    var before, now := logs[i].txs[t], logs[i + 1].txs[t];
    var stream, tip := before.reading.value.stream, before.reading.value.tip;
    var e := NextEvent(h, stream, tip, actions[i].draft);
    assert WrittenBy(actions, logs, i, stream, e);
    forall s, k | 0 <= k < |RowsOf(now.rows, s)| ensures HasWrite(actions, logs, i + 1, s, RowsOf(now.rows, s)[k]) {
      hide NextEvent, WrittenBy;
      if k < |RowsOf(before.rows, s)| { assert HasWrite(actions, logs, i + 1, s, RowsOf(before.rows, s)[k]); }
    }
  }

  lemma CommitIsWritten(actions: seq<Action>, logs: seq<Log>, i: nat, log: Log, tx: Tx)
    requires i <= |actions| < |logs| && AllWritten(actions, logs, i, log.rows) && AllWritten(actions, logs, i, tx.rows)
    ensures AllWritten(actions, logs, i, Committed(log, tx).rows)
  {
    var rows := Committed(log, tx).rows;
    forall s, k | 0 <= k < |RowsOf(rows, s)| ensures HasWrite(actions, logs, i, s, RowsOf(rows, s)[k]) {
      CommittedRows(log, tx, s);
      hide WrittenBy, RowsOf, Committed;
      var n := |RowsOf(log.rows, s)|;
      if k < n {
        assert HasWrite(actions, logs, i, s, RowsOf(log.rows, s)[k]);
      } else {
        assert HasWrite(actions, logs, i, s, RowsOf(tx.rows, s)[k - n]);
      }
    }
  }

  lemma NoRowsWritten(actions: seq<Action>, logs: seq<Log>, i: nat)
    requires i <= |actions| < |logs|
    ensures AllWritten(actions, logs, i, map[])
  {
  }

  lemma StepKeepsWrites(h: Digest, actions: seq<Action>, logs: seq<Log>, i: nat)
    requires i < |actions| < |logs| && Step(h, logs[i], actions[i], logs[i + 1]) && WritesOk(actions, logs, i)
    ensures WritesOk(actions, logs, i + 1)
  {
    var log, after := logs[i], logs[i + 1];
    WrittenStays(actions, logs, i, log.rows);
    NoRowsWritten(actions, logs, i + 1);
    forall t | t in log.txs ensures AllWritten(actions, logs, i + 1, log.txs[t].rows) {
      WrittenStays(actions, logs, i, log.txs[t].rows);
    }
    if actions[i].Write? { WriteIsWritten(h, actions, logs, i); }
    if actions[i].Commit? { CommitIsWritten(actions, logs, i + 1, log, log.txs[actions[i].t]); }
    hide AllWritten, Written, CanEnsure, CanLock;
  }

  lemma {:induction false} WritesAreKept(h: Digest, actions: seq<Action>, logs: seq<Log>, i: nat)
    requires IsSchedule(h, actions, logs) && logs[0] == EmptyLog && i < |logs|
    ensures WritesOk(actions, logs, i)
  {
    hide Step, AllWritten;
    if i == 0 {
      NoRowsWritten(actions, logs, 0);
    } else {
      WritesAreKept(h, actions, logs, i - 1);
      StepKeepsWrites(h, actions, logs, i - 1);
    }
  }

  /** In every interleaving each committed event carries, each in its place, the values of the one write that it
      came from. */
  lemma EventsCarryTheirWrites(h: Digest, actions: seq<Action>, logs: seq<Log>, i: nat, s: string, k: nat)
    returns (w: nat)
    requires IsSchedule(h, actions, logs) && logs[0] == EmptyLog && i < |logs| && k < |RowsOf(logs[i].rows, s)|
    ensures w < i && WrittenBy(actions, logs, w, s, RowsOf(logs[i].rows, s)[k])
    ensures RowsOf(logs[i].rows, s)[k].body.seqNo == k + 1
  {
    WritesAreKept(h, actions, logs, i);
    EveryScheduleIsGenuine(h, actions, logs, i, s);
    assert HasWrite(actions, logs, i, s, RowsOf(logs[i].rows, s)[k]);
    w :| 0 <= w < i && WrittenBy(actions, logs, w, s, RowsOf(logs[i].rows, s)[k]);
  }
}
