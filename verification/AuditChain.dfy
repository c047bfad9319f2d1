/** The hash-chained audit streams: appending, verifying, and what verification is worth. */
module AuditChain {
  import opened Prelude

  type Hash = string

  /** The stored hash of a stream with no events. */
  const Genesis: Hash := "0000000000000000000000000000000000000000000000000000000000000000"

  /** The fields an event's hash covers, besides the previous hash. */
  datatype Body = Body(
    stream: string, seqNo: int, actorId: Option<string>, actorRole: Option<string>, action: string,
    targetType: string, targetId: string, reason: Option<string>, before: Option<string>, after: Option<string>,
    createdAt: int)

  /** A stored row; the correlation id is carried but not hashed. */
  datatype Event = Event(body: Body, prevHash: Hash, hash: Hash, correlationId: Option<string>)

  datatype Tip = Tip(lastSeq: int, lastHash: Hash)

  const GenesisTip := Tip(0, Genesis)

  /** Canonical serialisation followed by the digest, as one function. */
  type Digest = (Body, Hash) -> Hash

  ghost predicate Injective(h: Digest) {
    forall b, p, b', p' :: h(b, p) == h(b', p') ==> b == b' && p == p'
  }

  // ---- Good streams --------------------------------------------------------

  function LastHash(events: seq<Event>): Hash {
    if events == [] then Genesis else events[|events| - 1].hash
  }

  /** Event `i` links to its predecessor and its stored hash is right. */
  predicate LinkHolds(h: Digest, events: seq<Event>, i: nat)
    requires i < |events|
  {
    events[i].prevHash == LastHash(events[..i]) && events[i].hash == h(events[i].body, events[i].prevHash)
  }

  ghost predicate Chained(h: Digest, events: seq<Event>) {
    forall i :: 0 <= i < |events| ==> LinkHolds(h, events, i)
  }

  ghost predicate Numbered(stream: string, events: seq<Event>) {
    forall i :: 0 <= i < |events| ==> events[i].body.seqNo == i + 1 && events[i].body.stream == stream
  }

  function TipOf(events: seq<Event>): Tip { Tip(|events|, LastHash(events)) }

  /** What an honest history of one stream looks like, with its tip row. */
  ghost predicate Genuine(h: Digest, stream: string, events: seq<Event>, tip: Tip) {
    Chained(h, events) && Numbered(stream, events) && tip == TipOf(events)
  }

  // ---- Appending -----------------------------------------------------------

  /** What a caller supplies for one event. */
  datatype Draft = Draft(actorId: Option<string>, actorRole: Option<string>, action: string, targetType: string,
                         targetId: string, reason: Option<string>, before: Option<string>, after: Option<string>,
                         createdAt: int, correlationId: Option<string>)

  function BodyOf(stream: string, seqNo: int, d: Draft): Body {
    Body(stream, seqNo, d.actorId, d.actorRole, d.action, d.targetType,
         d.targetId, d.reason, d.before, d.after, d.createdAt)
  }

  function NextEvent(h: Digest, stream: string, tip: Tip, d: Draft): Event {
    var body := BodyOf(stream, tip.lastSeq + 1, d);
    Event(body, tip.lastHash, h(body, tip.lastHash), d.correlationId)
  }

  /** Each of the caller's values stands in its own place. */
  predicate Carries(e: Event, d: Draft) {
    && e.body.actorId == d.actorId && e.body.actorRole == d.actorRole && e.body.action == d.action
    && e.body.targetType == d.targetType && e.body.targetId == d.targetId && e.body.reason == d.reason
    && e.body.before == d.before && e.body.after == d.after && e.body.createdAt == d.createdAt
    && e.correlationId == d.correlationId
  }

  function TipAfter(e: Event): Tip { Tip(e.body.seqNo, e.hash) }

  lemma AppendIsGenuine(h: Digest, stream: string, events: seq<Event>, tip: Tip, d: Draft)
    requires Genuine(h, stream, events, tip)
    ensures var e := NextEvent(h, stream, tip, d);
            Genuine(h, stream, events + [e], TipAfter(e))
  {
    var e := NextEvent(h, stream, tip, d);
    var more := events + [e];
    assert more[..|events|] == events;
    forall i | 0 <= i < |more| ensures LinkHolds(h, more, i) {
      if i < |events| {
        assert LinkHolds(h, events, i);
        assert more[..i] == events[..i];
      }
    }
  }

  // ---- Verifying one stream ------------------------------------------------

  /** The sequence numbers of the events whose link or hash is wrong. */
  function Broken(h: Digest, events: seq<Event>): seq<int> {
    if events == [] then [] else
    var n := |events| - 1;
    Broken(h, events[..n]) + if LinkHolds(h, events, n) then [] else [events[n].body.seqNo]
  }

  lemma {:induction false} NothingBrokenIsChained(h: Digest, events: seq<Event>)
    ensures Broken(h, events) == [] <==> Chained(h, events)
  {
    if events != [] {
      var n := |events| - 1;
      var init := events[..n];
      NothingBrokenIsChained(h, init);
      forall i | 0 <= i < n ensures LinkHolds(h, init, i) == LinkHolds(h, events, i) {
        assert init[..i] == events[..i];
      }
    }
  }

  /** The chain as one reads it: the first event links to sixty-four zeros, each other to the one before it. */
  ghost predicate Intact(h: Digest, events: seq<Event>, i: nat)
    requires i < |events|
  {
    && (i == 0 ==> events[i].prevHash == "0000000000000000000000000000000000000000000000000000000000000000")
    && (i > 0 ==> events[i].prevHash == events[i - 1].hash)
    && events[i].hash == h(events[i].body, events[i].prevHash)
  }

  lemma LinkIsIntact(h: Digest, events: seq<Event>, i: nat)
    requires i < |events|
    ensures LinkHolds(h, events, i) <==> Intact(h, events, i)
  {
  }

  /** The broken list holds, in stream order, the sequence numbers of exactly the events that are not intact. */
  lemma {:induction false} BrokenAre(h: Digest, events: seq<Event>) returns (at: seq<nat>)
    ensures |at| == |Broken(h, events)| && forall i, j :: 0 <= i < j < |at| ==> at[i] < at[j]
    ensures forall k :: 0 <= k < |at| ==> at[k] < |events| && Broken(h, events)[k] == events[at[k]].body.seqNo
    ensures forall i :: 0 <= i < |events| ==> (i in at <==> !Intact(h, events, i))
  {
    if events == [] {
      at := [];
    } else {
      var n := |events| - 1;
      var init := events[..n];
      at := BrokenAre(h, init);
      LinkIsIntact(h, events, n);
      forall i | 0 <= i < n ensures Intact(h, init, i) == Intact(h, events, i) {}
      assert Broken(h, events) ==
        Broken(h, init) + if LinkHolds(h, events, n) then [] else [events[n].body.seqNo];
      hide Intact, LinkHolds;
      if !LinkHolds(h, events, n) { at := at + [n]; }
    }
  }

  method VerifyStream(h: Digest, events: seq<Event>) returns (broken: seq<int>)
    ensures broken == Broken(h, events)
    ensures broken == [] <==> Chained(h, events)
  {
    broken := [];
    var expected := Genesis;
    for i := 0 to |events|
      invariant broken == Broken(h, events[..i]) && expected == LastHash(events[..i])
    {
      var e := events[i];
      var flagged := e.prevHash != expected;
      if h(e.body, e.prevHash) != e.hash { flagged := true; }
      assert events[..i + 1][..i] == events[..i];
      if flagged { broken := broken + [e.body.seqNo]; }
      expected := e.hash;
    }
    assert events[..|events|] == events;
    NothingBrokenIsChained(h, events);
  }

  // ---- Verifying against the tip -------------------------------------------

  datatype Reason = Chain | TipMismatch | CountMismatch | OrphanStream

  datatype Report = Report(stream: string, seqs: seq<int>, reason: Reason)

  function SeqsOf(events: seq<Event>): seq<int> {
    seq(|events|, i requires 0 <= i < |events| => events[i].body.seqNo)
  }

  function ReportOn(h: Digest, stream: string, tip: Tip, events: seq<Event>): Option<Report> {
    if events == [] && tip == GenesisTip then None
    else if Broken(h, events) != [] then Some(Report(stream, Broken(h, events), Chain))
    else if events == [] || LastHash(events) != tip.lastHash then Some(Report(stream, [tip.lastSeq], TipMismatch))
    else if |events| != tip.lastSeq then Some(Report(stream, SeqsOf(events), CountMismatch))
    else None
  }

  /** What each report about a stream with a tip says, and when it is made. */
  lemma ReportIs(h: Digest, stream: string, tip: Tip, events: seq<Event>)
    ensures var report := ReportOn(h, stream, tip, events);
            report.Some? ==>
              var r := report.value;
              && r.stream == stream && r.reason != OrphanStream
              && (r.reason == Chain <==> Broken(h, events) != [])
              && (r.reason == Chain ==> r.seqs == Broken(h, events))
              && (r.reason == TipMismatch ==>
                   r.seqs == [tip.lastSeq] && (events == [] || events[|events| - 1].hash != tip.lastHash))
              && (r.reason == CountMismatch ==>
                   |events| != tip.lastSeq && |r.seqs| == |events|
                   && forall i :: 0 <= i < |events| ==> r.seqs[i] == events[i].body.seqNo)
    ensures ReportOn(h, stream, tip, events).None? <==>
      && Broken(h, events) == [] && |events| == tip.lastSeq
      && (events != [] ==> events[|events| - 1].hash == tip.lastHash)
      && (events == [] ==> tip == GenesisTip)
  {
    hide Broken;
    assert events == [] ==> Broken(h, events) == [] by { NothingBrokenIsChained(h, events); }
  }

  /** Equal in every hashed field, in the hashes, in number and in order. */
  ghost predicate SameRecord(events: seq<Event>, genuine: seq<Event>) {
    |events| == |genuine| && forall i :: 0 <= i < |events| ==>
      events[i].body == genuine[i].body && events[i].prevHash == genuine[i].prevHash
      && events[i].hash == genuine[i].hash
  }

  /** With an injective digest a chain is determined by its length and its last hash. */
  lemma {:induction false} ChainsWithOneEnd(h: Digest, events: seq<Event>, genuine: seq<Event>)
    requires Injective(h) && Chained(h, events) && Chained(h, genuine)
    requires |events| == |genuine| && LastHash(events) == LastHash(genuine)
    ensures SameRecord(events, genuine)
  {
    if events != [] {
      var n := |events| - 1;
      var e, g := events[..n], genuine[..n];
      assert LinkHolds(h, events, n) && LinkHolds(h, genuine, n);
      ChainPrefix(h, events, n);
      ChainPrefix(h, genuine, n);
      ChainsWithOneEnd(h, e, g);
      assert forall i :: 0 <= i < n ==> events[i] == e[i] && genuine[i] == g[i];
    }
  }

  lemma ChainPrefix(h: Digest, events: seq<Event>, n: nat)
    requires Chained(h, events) && n <= |events|
    ensures Chained(h, events[..n])
  {
    forall i | 0 <= i < n ensures LinkHolds(h, events[..n], i) {
      assert LinkHolds(h, events, i) && events[..n][..i] == events[..i];
    }
  }

  lemma SameRecordIsChained(h: Digest, events: seq<Event>, genuine: seq<Event>)
    requires Chained(h, genuine) && SameRecord(events, genuine)
    ensures Chained(h, events) && LastHash(events) == LastHash(genuine)
  {
    forall i | 0 <= i < |events| ensures LinkHolds(h, events, i) {
      assert LinkHolds(h, genuine, i);
    }
  }

  /** An untampered stream is reported clean, whatever the digest. */
  lemma GenuineIsClean(h: Digest, stream: string, tip: Tip, events: seq<Event>, genuine: seq<Event>)
    requires Genuine(h, stream, genuine, tip) && SameRecord(events, genuine)
    ensures ReportOn(h, stream, tip, events).None?
  {
    SameRecordIsChained(h, events, genuine);
    NothingBrokenIsChained(h, events);
  }

  /** Tamper evidence: against the genuine tip, a stream is reported clean if and only if it agrees with the
      genuine history in every hashed field, so any edit, drop, insertion, reordering or truncation shows. */
  lemma CleanIffGenuine(h: Digest, stream: string, tip: Tip, events: seq<Event>, genuine: seq<Event>)
    requires Injective(h) && Genuine(h, stream, genuine, tip)
    ensures ReportOn(h, stream, tip, events).None? <==> SameRecord(events, genuine)
  {
    NothingBrokenIsChained(h, events);
    if SameRecord(events, genuine) {
      GenuineIsClean(h, stream, tip, events, genuine);
    } else if ReportOn(h, stream, tip, events).None? && events != [] {
      ChainsWithOneEnd(h, events, genuine);
    }
  }

  // ---- Verifying the whole log ---------------------------------------------

  type Streams = map<string, Tip>
  type Rows = map<string, seq<Event>>

  function RowsOf(rows: Rows, stream: string): seq<Event> { if stream in rows then rows[stream] else [] }

  /** Streams that have events but no tip row. */
  function Orphans(tips: Streams, rows: Rows): set<string> {
    set s | s in rows && rows[s] != [] && s !in tips
  }

  /** The reports due for the streams in `among`. */
  ghost predicate Due(h: Digest, tips: Streams, rows: Rows, among: set<string>, r: Report) {
    r.stream in among &&
      (if r.stream in tips then ReportOn(h, r.stream, tips[r.stream], RowsOf(rows, r.stream)) == Some(r)
       else r.stream in Orphans(tips, rows) && r == Report(r.stream, SeqsOf(RowsOf(rows, r.stream)), OrphanStream))
  }

  /** Every stream with a tip passes, and no stream has events without one. */
  ghost predicate AllClean(h: Digest, tips: Streams, rows: Rows) {
    Orphans(tips, rows) == {} && forall s :: s in tips ==> ReportOn(h, s, tips[s], RowsOf(rows, s)).None?
  }

  lemma DirtyIsDue(h: Digest, tips: Streams, rows: Rows) returns (r: Report)
    requires !AllClean(h, tips, rows)
    ensures Due(h, tips, rows, tips.Keys + Orphans(tips, rows), r)
  {
    if Orphans(tips, rows) != {} {
      var s :| s in Orphans(tips, rows);
      r := Report(s, SeqsOf(RowsOf(rows, s)), OrphanStream);
    } else {
      var s :| s in tips && ReportOn(h, s, tips[s], RowsOf(rows, s)).Some?;
      r := ReportOn(h, s, tips[s], RowsOf(rows, s)).value;
    }
  }

  lemma DueIsDirty(h: Digest, tips: Streams, rows: Rows, r: Report)
    requires Due(h, tips, rows, tips.Keys + Orphans(tips, rows), r)
    ensures !AllClean(h, tips, rows)
  {
  }

  lemma NothingDueIsClean(h: Digest, tips: Streams, rows: Rows, reports: seq<Report>)
    requires forall r :: r in reports <==> Due(h, tips, rows, tips.Keys + Orphans(tips, rows), r)
    ensures reports == [] <==> AllClean(h, tips, rows)
  {
    hide AllClean, Due;
    if !AllClean(h, tips, rows) {
      var r := DirtyIsDue(h, tips, rows);
      assert r in reports;
    }
    if reports != [] {
      assert reports[0] in reports;
      DueIsDirty(h, tips, rows, reports[0]);
    }
  }

  ghost predicate OnePerStream(reports: seq<Report>) {
    forall i, j :: 0 <= i < j < |reports| ==> reports[i].stream != reports[j].stream
  }

  // Streams are reported in the order of their names' characters.

  predicate TextBefore(s: string, t: string) {
    t != "" && (s == "" || s[0] < t[0] || (s[0] == t[0] && TextBefore(s[1..], t[1..])))
  }

  lemma {:induction false} TextIrreflexive(s: string)
    ensures !TextBefore(s, s)
  {
    if s != "" { TextIrreflexive(s[1..]); }
  }

  lemma {:induction false} TextTotal(s: string, t: string)
    ensures s == t || TextBefore(s, t) || TextBefore(t, s)
  {
    if s != "" && t != "" && s[0] == t[0] {
      TextTotal(s[1..], t[1..]);
      assert s == [s[0]] + s[1..] && t == [t[0]] + t[1..];
    }
  }

  lemma {:induction false} TextTransitive(s: string, t: string, u: string)
    requires TextBefore(s, t) && TextBefore(t, u)
    ensures TextBefore(s, u)
  {
    if s != "" && s[0] == t[0] && t[0] == u[0] { TextTransitive(s[1..], t[1..], u[1..]); }
  }

  lemma {:induction false} FirstNameExists(names: set<string>) returns (f: string)
    requires names != {}
    ensures f in names && forall s :: s in names && s != f ==> TextBefore(f, s)
  {
    f :| f in names;
    if names != {f} {
      var first := f;
      var g := FirstNameExists(names - {f});
      TextTotal(first, g);
      if TextBefore(g, first) { f := g; }
      forall s | s in names && s != f ensures TextBefore(f, s) {
        if s != first && s != g && f == first { TextTransitive(first, g, s); }
      }
    }
  }

  ghost predicate InNameOrder(reports: seq<Report>) {
    forall i, j :: 0 <= i < j < |reports| ==> TextBefore(reports[i].stream, reports[j].stream)
  }

  method VerifyAnchored(h: Digest, tips: Streams, rows: Rows) returns (reports: seq<Report>)
    ensures forall r :: r in reports <==> Due(h, tips, rows, tips.Keys, r)
    ensures OnePerStream(reports)
  {
    reports := [];
    var todo := tips.Keys;
    while todo != {}
      invariant todo <= tips.Keys && OnePerStream(reports)
      invariant forall r :: r in reports <==> Due(h, tips, rows, tips.Keys - todo, r)
    {
      var s :| s in todo;
      todo := todo - {s};
      forall i | 0 <= i < |reports| ensures reports[i].stream != s { assert reports[i] in reports; }
      var tip, events := tips[s], RowsOf(rows, s);
      if events == [] && tip.lastSeq == 0 && tip.lastHash == Genesis { continue; }
      var broken := VerifyStream(h, events);
      if broken != [] {
        reports := reports + [Report(s, broken, Chain)];
        continue;
      }
      if events == [] || events[|events| - 1].hash != tip.lastHash {
        reports := reports + [Report(s, [tip.lastSeq], TipMismatch)];
        continue;
      }
      if |events| != tip.lastSeq {
        reports := reports + [Report(s, SeqsOf(events), CountMismatch)];
      }
    }
    assert tips.Keys - todo == tips.Keys;
  }

  method VerifyOrphans(tips: Streams, rows: Rows) returns (reports: seq<Report>)
    ensures forall r :: r in reports <==>
      r.stream in Orphans(tips, rows) && r == Report(r.stream, SeqsOf(RowsOf(rows, r.stream)), OrphanStream)
    ensures InNameOrder(reports)
  {
    hide SeqsOf, TextBefore;
    reports := [];
    var orphans := Orphans(tips, rows);
    var todo := orphans;
    while todo != {}
      invariant todo <= orphans && InNameOrder(reports)
      invariant forall r, s :: r in reports && s in todo ==> TextBefore(r.stream, s)
      invariant forall r :: r in reports <==>
        r.stream in orphans - todo && r == Report(r.stream, SeqsOf(RowsOf(rows, r.stream)), OrphanStream)
    {
      ghost var first := FirstNameExists(todo);
      var s :| s in todo && forall t :: t in todo && t != s ==> TextBefore(s, t);
      reports, todo := reports + [Report(s, SeqsOf(RowsOf(rows, s)), OrphanStream)], todo - {s};
    }
  }

  lemma OnePerStreamTogether(tips: Streams, anchored: seq<Report>, late: seq<Report>)
    requires OnePerStream(anchored) && InNameOrder(late)
    requires forall r :: r in anchored ==> r.stream in tips
    requires forall r :: r in late ==> r.stream !in tips
    ensures OnePerStream(anchored + late)
    ensures forall i, j :: 0 <= i < j < |anchored + late| && (anchored + late)[i].stream !in tips ==>
      (anchored + late)[j].stream !in tips && TextBefore((anchored + late)[i].stream, (anchored + late)[j].stream)
  {
    var all := anchored + late;
    forall i, j | 0 <= i < j < |all|
      ensures all[i].stream != all[j].stream
      ensures all[i].stream !in tips ==> all[j].stream !in tips && TextBefore(all[i].stream, all[j].stream)
    {
      TextIrreflexive(all[i].stream);
      if i < |anchored| { assert all[i] in anchored; }
      if j >= |anchored| { assert all[j] in late; }
    }
  }

  method VerifyAudit(h: Digest, tips: Streams, rows: Rows) returns (checked: nat, reports: seq<Report>)
    ensures checked == |tips| + |Orphans(tips, rows)|
    ensures forall r :: r in reports <==> Due(h, tips, rows, tips.Keys + Orphans(tips, rows), r)
    ensures reports == [] <==> AllClean(h, tips, rows)
    ensures OnePerStream(reports)
    ensures forall i, j :: 0 <= i < j < |reports| && reports[i].stream !in tips ==>
      reports[j].stream !in tips && TextBefore(reports[i].stream, reports[j].stream)
  {
    hide AllClean, ReportOn, SeqsOf, TextBefore;
    var anchored := VerifyAnchored(h, tips, rows);
    var late := VerifyOrphans(tips, rows);
    reports := anchored + late;
    OnePerStreamTogether(tips, anchored, late);
    checked := |tips| + |Orphans(tips, rows)|;
    NothingDueIsClean(h, tips, rows, reports);
  }

  /** Nothing but the genuine record passes: with tip rows untouched, an empty report list means that every
      anchored stream agrees with its genuine history and that no other stream has any event. */
  lemma EmptyReportIffUntampered(h: Digest, tips: Streams, rows: Rows, genuine: Rows)
    requires Injective(h) && forall s :: s in tips ==> Genuine(h, s, RowsOf(genuine, s), tips[s])
    ensures AllClean(h, tips, rows) <==>
      (forall s :: s in tips ==> SameRecord(RowsOf(rows, s), RowsOf(genuine, s)))
      && (forall s :: s in rows && rows[s] != [] ==> s in tips)
  {
    forall s | s in tips
      ensures ReportOn(h, s, tips[s], RowsOf(rows, s)).None? <==> SameRecord(RowsOf(rows, s), RowsOf(genuine, s))
    {
      CleanIffGenuine(h, s, tips[s], RowsOf(rows, s), RowsOf(genuine, s));
    }
    if forall s :: s in rows && rows[s] != [] ==> s in tips { assert Orphans(tips, rows) == {}; }
    if s :| s in rows && rows[s] != [] && s !in tips { assert s in Orphans(tips, rows); }
  }

  /** The limit of the evidence: whoever can also write the tip row can make any list of bodies pass. */
  lemma {:induction false} RebuiltChainPasses(h: Digest, stream: string, bodies: seq<Body>)
    returns (events: seq<Event>, tip: Tip)
    ensures |events| == |bodies| && forall i :: 0 <= i < |events| ==> events[i].body == bodies[i]
    ensures Chained(h, events) && tip == TipOf(events) && ReportOn(h, stream, tip, events).None?
  {
    if bodies == [] {
      events := [];
    } else {
      var n := |bodies| - 1;
      var init, _ := RebuiltChainPasses(h, stream, bodies[..n]);
      events := init + [Event(bodies[n], LastHash(init), h(bodies[n], LastHash(init)), None)];
      forall i | 0 <= i < |events| ensures LinkHolds(h, events, i) {
        assert events[..i] == init[..i];
        if i < n { assert LinkHolds(h, init, i); }
      }
    }
    tip := TipOf(events);
    NothingBrokenIsChained(h, events);
  }

  // ---- The tables ----------------------------------------------------------

  class AuditTables {
    var tips: Streams
    var rows: Rows

    /** Every stream with a tip is an honest history; the others have no events. */
    ghost predicate Valid(h: Digest) reads this {
      forall s :: if s in tips then Genuine(h, s, RowsOf(rows, s), tips[s]) else RowsOf(rows, s) == []
    }

    constructor ()
      ensures tips == map[] && rows == map[]
    {
      tips, rows := map[], map[];
    }

    /** Make sure the tip row exists, chain the event to it, move the tip. */
    method AppendEvent(h: Digest, stream: string, draft: Draft) returns (e: Event)
      requires Valid(h)
      modifies this
      ensures Valid(h)
      ensures rows == old(rows)[stream := RowsOf(old(rows), stream) + [e]]
      ensures tips == old(tips)[stream := TipAfter(e)]
      ensures e.body == BodyOf(stream, |RowsOf(old(rows), stream)| + 1, draft)
      ensures e.prevHash == LastHash(RowsOf(old(rows), stream))
      ensures e.hash == h(e.body, e.prevHash) && e.correlationId == draft.correlationId
      ensures e.body.stream == stream && e.body.seqNo == |RowsOf(old(rows), stream)| + 1
      ensures Carries(e, draft)
    {
      hide Chained, Numbered, Broken, Genesis;
      if stream !in tips {
        NoEventsGenuine(h, stream);
        tips := tips[stream := GenesisTip];
      }
      var tip := tips[stream];
      var seqNo, prevHash := tip.lastSeq + 1, tip.lastHash;
      var body := BodyOf(stream, seqNo, draft);
      e := Event(body, prevHash, h(body, prevHash), draft.correlationId);
      AppendIsGenuine(h, stream, RowsOf(rows, stream), tip, draft);
      rows := rows[stream := RowsOf(rows, stream) + [e]];
      tips := tips[stream := Tip(seqNo, e.hash)];
    }
  }

  lemma NoEventsGenuine(h: Digest, stream: string)
    ensures Genuine(h, stream, [], GenesisTip)
  {
  }
}
