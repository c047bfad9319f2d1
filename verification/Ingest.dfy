/** Idempotent ingestion: a lossy cache in front of a unique constraint. */
module Ingest {
  import opened Prelude

  /** A validated request body: the alert's natural identity, and everything else. */
  datatype AlertIn = AlertIn(sourceSystem: string, externalId: string, rest: string)

  datatype StoredAlert = StoredAlert(sourceSystem: string, externalId: string, rest: string, idemKey: string)

  /** A response body; it names a stored alert by its id. */
  datatype AlertOut = AlertOut(id: nat, sourceSystem: string, externalId: string, rest: string)

  datatype Envelope = Envelope(response: AlertOut, fingerprint: string)

  type Alerts = map<nat, StoredAlert>
  type Cache = map<string, Envelope>

  /** The digest of a request body, as one function. */
  type Fingerprint = AlertIn -> string

  ghost predicate CollisionFree(f: Fingerprint) {
    forall p, q :: f(p) == f(q) ==> p == q
  }

  function ComputeKey(header: Option<string>, payload: AlertIn, apiKey: string): string {
    if header.Some? && header.value != "" then apiKey + ":" + header.value
    else payload.sourceSystem + ":" + payload.externalId
  }

  /** A header's key depends on the header and the client only, and clients with ids of one length never share one;
      without a header, or with an empty one, the key depends on the alert's identity only. */
  lemma KeysAreNamespaced(header: string, other: string, payload: AlertIn, p: AlertIn, apiKey: string, otherKey: string)
    requires header != "" && other != ""
    ensures |apiKey| == |otherKey| ==>
      (ComputeKey(Some(header), payload, apiKey) == ComputeKey(Some(other), p, otherKey) <==>
         header == other && apiKey == otherKey)
    ensures ComputeKey(None, payload, apiKey) == ComputeKey(Some(""), payload, otherKey)
    ensures payload.sourceSystem == p.sourceSystem && payload.externalId == p.externalId ==>
      ComputeKey(None, payload, apiKey) == ComputeKey(None, p, otherKey)
    ensures ComputeKey(None, payload, apiKey) == payload.sourceSystem + ":" + payload.externalId
  {
    if |apiKey| == |otherKey| {
      var k, o := apiKey + ":" + header, otherKey + ":" + other;
      assert k[..|apiKey|] == apiKey && o[..|apiKey|] == otherKey;
      assert k[|apiKey| + 1..] == header && o[|apiKey| + 1..] == other;
    }
  }

  // ---- The table and its unique constraint ---------------------------------

  predicate HasIdentity(a: StoredAlert, payload: AlertIn) {
    a.sourceSystem == payload.sourceSystem && a.externalId == payload.externalId
  }

  ghost predicate UniqueIdentities(alerts: Alerts) {
    forall i, j :: i in alerts && j in alerts && SameIdentity(alerts[i], alerts[j]) ==> i == j
  }

  predicate SameIdentity(a: StoredAlert, b: StoredAlert) {
    a.sourceSystem == b.sourceSystem && a.externalId == b.externalId
  }

  /** The rows an identity collides with. */
  function Owners(alerts: Alerts, payload: AlertIn): set<nat> {
    set i | i in alerts && HasIdentity(alerts[i], payload)
  }

  function OutOf(id: nat, a: StoredAlert): AlertOut { AlertOut(id, a.sourceSystem, a.externalId, a.rest) }

  function NewRow(payload: AlertIn, key: string): StoredAlert {
    StoredAlert(payload.sourceSystem, payload.externalId, payload.rest, key)
  }

  /** `out` is the stored alert with the payload's identity. */
  predicate Names(alerts: Alerts, out: AlertOut, payload: AlertIn) {
    out.id in alerts && HasIdentity(alerts[out.id], payload) && out == OutOf(out.id, alerts[out.id])
  }

  /** Insert, or fall back to the row that owns the identity. */
  ghost predicate Inserted(alerts: Alerts, payload: AlertIn, key: string, newId: nat, after: Alerts, out: AlertOut,
                           created: bool) {
    if Owners(alerts, payload) == {} then
      created && newId !in alerts && after == alerts[newId := NewRow(payload, key)]
      && out == OutOf(newId, NewRow(payload, key))
    else
      !created && after == alerts && out.id in Owners(alerts, payload) && out == OutOf(out.id, alerts[out.id])
  }

  // ---- Requests as interleaved steps ---------------------------------------

  datatype Response = Replayed(body: AlertOut) | Created(body: AlertOut) | KeyReuse

  datatype Stage = Arrived | Missed | Persisted(body: AlertOut) | Answered(response: Response)

  datatype Request = Request(payload: AlertIn, key: string, stage: Stage)

  datatype World = World(alerts: Alerts, cache: Cache, requests: map<nat, Request>)

  const EmptyWorld := World(map[], map[], map[])

  /** What can happen next; `up` says whether Redis answers. */
  datatype Action =
    | Receive(r: nat, payload: AlertIn, header: Option<string>, apiKey: string)
    | CheckCache(r: nat, up: bool)
    | Persist(r: nat, newId: nat)
    | StoreEntry(r: nat, up: bool)
    | PersistOnly(payload: AlertIn, key: string, newId: nat)
    | LoseEntry(key: string)
    | Abort(r: nat)

  function Lookup(cache: Cache, key: string, up: bool): Option<Envelope> {
    if up && key in cache then Some(cache[key]) else None
  }

  /** The route's decision on a cache answer. */
  function OnLookup(found: Option<Envelope>, fingerprint: string): Stage {
    match found
    case None => Missed
    case Some(e) => Answered(if e.fingerprint != fingerprint then KeyReuse else Replayed(e.response))
  }

  function Move(w: World, r: nat, stage: Stage): World
    requires r in w.requests
  {
    w.(requests := w.requests[r := w.requests[r].(stage := stage)])
  }

  function Remembered(cache: Cache, key: string, body: AlertOut, fingerprint: string, up: bool): Cache {
    if up then cache[key := Envelope(body, fingerprint)] else cache
  }

  ghost predicate Step(f: Fingerprint, w: World, action: Action, after: World) {
    match action
    case Receive(r, payload, header, apiKey) =>
      r !in w.requests
      && after == w.(requests := w.requests[r := Request(payload, ComputeKey(header, payload, apiKey), Arrived)])
    case CheckCache(r, up) =>
      r in w.requests && w.requests[r].stage == Arrived
      && after == Move(w, r, OnLookup(Lookup(w.cache, w.requests[r].key, up), f(w.requests[r].payload)))
    case Persist(r, newId) =>
      r in w.requests && w.requests[r].stage == Missed
      && exists out, created :: PersistStep(w, r, newId, out, created, after)
    case StoreEntry(r, up) =>
      r in w.requests && w.requests[r].stage.Persisted?
      && var req := w.requests[r];
         after == Move(w, r, Answered(Created(req.stage.body))).(
           cache := Remembered(w.cache, req.key, req.stage.body, f(req.payload), up))
    case PersistOnly(payload, key, newId) =>
      exists out, created :: Inserted(w.alerts, payload, key, newId, after.alerts, out, created)
        && after == w.(alerts := after.alerts)
    case LoseEntry(key) => after == w.(cache := w.cache - {key})
    case Abort(r) => r in w.requests && !w.requests[r].stage.Answered? && after == w.(requests := w.requests - {r})
  }

  ghost predicate PersistStep(w: World, r: nat, newId: nat, out: AlertOut, created: bool, after: World)
    requires r in w.requests
  {
    && Inserted(w.alerts, w.requests[r].payload, w.requests[r].key, newId, after.alerts, out, created)
    && after == Move(w, r, if created then Persisted(out) else Answered(Replayed(out))).(alerts := after.alerts)
  }

  ghost predicate IsRun(f: Fingerprint, actions: seq<Action>, worlds: seq<World>) {
    |worlds| == |actions| + 1 && forall i :: 0 <= i < |actions| ==> Step(f, worlds[i], actions[i], worlds[i + 1])
  }

  // ---- The invariant -------------------------------------------------------

  /** A cached answer names the alert of the request it was stored for. */
  ghost predicate EntryOk(f: Fingerprint, alerts: Alerts, e: Envelope) {
    exists p :: IsEntryOf(f, alerts, e, p)
  }

  ghost predicate IsEntryOf(f: Fingerprint, alerts: Alerts, e: Envelope, p: AlertIn) {
    e.fingerprint == f(p) && Names(alerts, e.response, p)
  }

  /** Every success names the one alert with the request's identity. */
  ghost predicate RequestOk(f: Fingerprint, alerts: Alerts, req: Request) {
    match req.stage
    case Persisted(body) => Names(alerts, body, req.payload)
    case Answered(Replayed(body)) => Names(alerts, body, req.payload)
    case Answered(Created(body)) => Names(alerts, body, req.payload)
    case _ => true
  }

  ghost predicate WorldOk(f: Fingerprint, w: World) {
    && UniqueIdentities(w.alerts)
    && (forall k :: k in w.cache ==> EntryOk(f, w.alerts, w.cache[k]))
    && (forall r :: r in w.requests ==> RequestOk(f, w.alerts, w.requests[r]))
  }

  lemma InsertKeepsUnique(alerts: Alerts, payload: AlertIn, key: string, newId: nat, after: Alerts, out: AlertOut,
                          created: bool)
    requires UniqueIdentities(alerts) && Inserted(alerts, payload, key, newId, after, out, created)
    ensures UniqueIdentities(after) && Names(after, out, payload)
    ensures forall o, p :: Names(alerts, o, p) ==> Names(after, o, p)
    ensures alerts.Keys <= after.Keys && forall i :: i in alerts ==> after[i] == alerts[i]
  {
    if created {
      forall i | i in alerts ensures !HasIdentity(alerts[i], payload) { assert i !in Owners(alerts, payload); }
    }
  }

  lemma GrowthKeepsOk(f: Fingerprint, w: World, after: Alerts)
    requires WorldOk(f, w) && UniqueIdentities(after) && forall o, p :: Names(w.alerts, o, p) ==> Names(after, o, p)
    ensures WorldOk(f, w.(alerts := after))
  {
    hide Names;
    forall k | k in w.cache ensures EntryOk(f, after, w.cache[k]) {
      assert EntryOk(f, w.alerts, w.cache[k]);
      var p :| IsEntryOf(f, w.alerts, w.cache[k], p);
      assert IsEntryOf(f, after, w.cache[k], p);
    }
    forall r | r in w.requests ensures RequestOk(f, after, w.requests[r]) {
      assert RequestOk(f, w.alerts, w.requests[r]);
    }
  }

  lemma MoveKeepsOk(f: Fingerprint, w: World, r: nat, stage: Stage)
    requires WorldOk(f, w) && r in w.requests && RequestOk(f, w.alerts, w.requests[r].(stage := stage))
    ensures WorldOk(f, Move(w, r, stage))
  {
    hide Names, EntryOk;
  }

  lemma CheckKeepsOk(f: Fingerprint, w: World, r: nat, up: bool)
    requires CollisionFree(f) && WorldOk(f, w) && r in w.requests
    ensures WorldOk(f, Move(w, r, OnLookup(Lookup(w.cache, w.requests[r].key, up), f(w.requests[r].payload))))
  {
    hide Names;
    var found := Lookup(w.cache, w.requests[r].key, up);
    if found.Some? { assert EntryOk(f, w.alerts, found.value); }
    MoveKeepsOk(f, w, r, OnLookup(found, f(w.requests[r].payload)));
  }

  lemma PersistKeepsOk(f: Fingerprint, w: World, r: nat, newId: nat, out: AlertOut, created: bool, after: World)
    requires WorldOk(f, w) && r in w.requests && PersistStep(w, r, newId, out, created, after)
    ensures WorldOk(f, after)
  {
    InsertKeepsUnique(w.alerts, w.requests[r].payload, w.requests[r].key, newId, after.alerts, out, created);
    hide Names, WorldOk, UniqueIdentities;
    GrowthKeepsOk(f, w, after.alerts);
    MoveKeepsOk(f, w.(alerts := after.alerts), r, if created then Persisted(out) else Answered(Replayed(out)));
  }

  lemma StoreKeepsOk(f: Fingerprint, w: World, r: nat, up: bool)
    requires WorldOk(f, w) && r in w.requests && w.requests[r].stage.Persisted?
    ensures var req := w.requests[r];
            WorldOk(f, Move(w, r, Answered(Created(req.stage.body))).(
              cache := Remembered(w.cache, req.key, req.stage.body, f(req.payload), up)))
  {
    hide Names;
    var req := w.requests[r];
    assert RequestOk(f, w.alerts, req);
    MoveKeepsOk(f, w, r, Answered(Created(req.stage.body)));
    assert IsEntryOf(f, w.alerts, Envelope(req.stage.body, f(req.payload)), req.payload);
  }

  lemma StepKeepsOk(f: Fingerprint, w: World, action: Action, after: World)
    requires CollisionFree(f) && WorldOk(f, w) && Step(f, w, action, after)
    ensures WorldOk(f, after)
  {
    hide Names, EntryOk, Inserted, OnLookup, Lookup, Remembered;
    match action
    case Receive(r, payload, header, apiKey) =>
    case CheckCache(r, up) => CheckKeepsOk(f, w, r, up);
    case Persist(r, newId) =>
      var out, created :| PersistStep(w, r, newId, out, created, after);
      PersistKeepsOk(f, w, r, newId, out, created, after);
    case StoreEntry(r, up) => StoreKeepsOk(f, w, r, up);
    case PersistOnly(payload, key, newId) =>
      var out, created :| Inserted(w.alerts, payload, key, newId, after.alerts, out, created);
      InsertKeepsUnique(w.alerts, payload, key, newId, after.alerts, out, created);
      GrowthKeepsOk(f, w, after.alerts);
    case LoseEntry(key) =>
    case Abort(r) =>
  }

  lemma {:induction false} RunKeepsOk(f: Fingerprint, actions: seq<Action>, worlds: seq<World>, i: nat)
    requires CollisionFree(f) && IsRun(f, actions, worlds) && worlds[0] == EmptyWorld && i < |worlds|
    ensures WorldOk(f, worlds[i])
  {
    hide Step, EntryOk, RequestOk;
    if i > 0 {
      RunKeepsOk(f, actions, worlds, i - 1);
      hide WorldOk;
      StepKeepsOk(f, worlds[i - 1], actions[i - 1], worlds[i]);
    }
  }

  /** The identity's one owner. */
  ghost predicate TheOneAlert(alerts: Alerts, out: AlertOut, payload: AlertIn) {
    Names(alerts, out, payload) && Owners(alerts, payload) == {out.id}
  }

  /** Idempotent ingest: however requests interleave, whatever entries Redis loses, expires or refuses, and even
      if cache keys collide, every 200 or 201 names the one stored alert with the request's identity. */
  lemma EverySuccessNamesTheAlert(f: Fingerprint, actions: seq<Action>, worlds: seq<World>, i: nat, r: nat)
    requires CollisionFree(f) && IsRun(f, actions, worlds) && worlds[0] == EmptyWorld && i < |worlds|
    requires r in worlds[i].requests && worlds[i].requests[r].stage.Answered?
    ensures UniqueIdentities(worlds[i].alerts)
    ensures var response := worlds[i].requests[r].stage.response;
            !response.KeyReuse? ==> TheOneAlert(worlds[i].alerts, response.body, worlds[i].requests[r].payload)
  {
    hide IsRun, EntryOk;
    RunKeepsOk(f, actions, worlds, i);
    var req, alerts := worlds[i].requests[r], worlds[i].alerts;
    assert RequestOk(f, alerts, req);
    if !req.stage.response.KeyReuse? {
      var out := req.stage.response.body;
      forall j ensures j in Owners(alerts, req.payload) <==> j == out.id {}
    }
  }

  /** A rejection for key reuse is never a false alarm: the cached entry was stored for a different body. */
  lemma RejectionsAreReal(f: Fingerprint, w: World, r: nat, up: bool)
    requires WorldOk(f, w) && r in w.requests
    requires OnLookup(Lookup(w.cache, w.requests[r].key, up), f(w.requests[r].payload)) == Answered(KeyReuse)
    ensures exists p :: p != w.requests[r].payload && IsEntryOf(f, w.alerts, w.cache[w.requests[r].key], p)
  {
    hide Names;
    assert EntryOk(f, w.alerts, w.cache[w.requests[r].key]);
    var p :| IsEntryOf(f, w.alerts, w.cache[w.requests[r].key], p);
  }

  // ---- Retries while the cache remembers -----------------------------------

  predicate Remembers(w: World, key: string, e: Envelope) { key in w.cache && w.cache[key] == e }

  /** The action may change what the cache holds under the key. */
  predicate Disturbs(w: World, action: Action, key: string) {
    action == LoseEntry(key) || (action.StoreEntry? && action.r in w.requests && w.requests[action.r].key == key)
  }

  lemma {:induction false} EntryStays(f: Fingerprint, actions: seq<Action>, worlds: seq<World>, i: nat, j: nat,
                                      key: string, e: Envelope)
    requires IsRun(f, actions, worlds) && i <= j < |worlds| && Remembers(worlds[i], key, e)
    requires forall k :: i <= k < j ==> !Disturbs(worlds[k], actions[k], key)
    ensures Remembers(worlds[j], key, e)
    decreases j
  {
    if i < j {
      EntryStays(f, actions, worlds, i, j - 1, key, e);
      assert Step(f, worlds[j - 1], actions[j - 1], worlds[j]);
      hide Inserted;
    }
  }

  lemma StepsAre(f: Fingerprint, actions: seq<Action>, worlds: seq<World>, i: nat)
    requires IsRun(f, actions, worlds) && i < |actions|
    ensures |worlds| == |actions| + 1 && Step(f, worlds[i], actions[i], worlds[i + 1])
  {
    hide Step;
  }

  /** Resubmission: once a created answer was cached, and until that entry is lost or replaced, every request with
      its key is answered from it. The same body gets the original answer, any other body the key-reuse rejection,
      and nothing is stored. */
  lemma RetryReturnsOriginal(f: Fingerprint, actions: seq<Action>, worlds: seq<World>, i: nat, j: nat, r: nat, q: nat)
    requires CollisionFree(f) && IsRun(f, actions, worlds) && i < j < |actions| < |worlds|
    requires actions[i] == StoreEntry(r, true) && actions[j] == CheckCache(q, true)
    requires r in worlds[i].requests && q in worlds[j].requests
    requires worlds[j].requests[q].key == worlds[i].requests[r].key
    requires forall k :: i < k < j ==> !Disturbs(worlds[k], actions[k], worlds[i].requests[r].key)
    ensures r in worlds[i + 1].requests && q in worlds[j + 1].requests
    ensures worlds[i + 1].requests[r].stage.Answered? && worlds[i + 1].requests[r].stage.response.Created?
    ensures worlds[j + 1].requests[q].stage == Answered(
      if worlds[j].requests[q].payload == worlds[i].requests[r].payload
      then Replayed(worlds[i + 1].requests[r].stage.response.body) else KeyReuse)
    ensures worlds[j + 1].alerts == worlds[j].alerts
  {
    StepsAre(f, actions, worlds, i);
    StepsAre(f, actions, worlds, j);
    hide IsRun;
    var req := worlds[i].requests[r];
    EntryStays(f, actions, worlds, i + 1, j, req.key, Envelope(req.stage.body, f(req.payload)));
  }

  // ---- The route, run alone ------------------------------------------------

  class IngestTables {
    var alerts: Alerts
    var cache: Cache

    /** The tables as a world without requests in flight. */
    function Snapshot(): World reads this { World(alerts, cache, map[]) }

    constructor ()
      ensures Snapshot() == EmptyWorld
    {
      alerts, cache := map[], map[];
    }

    /** An outage reads as a miss. */
    method Check(key: string, up: bool) returns (found: Option<Envelope>)
      ensures found == Lookup(cache, key, up)
    {
      if !up { return None; }
      if key !in cache { return None; }
      return Some(cache[key]);
    }

    /** Try the insert; a collision with the unique constraint loads the owner instead. */
    method InsertOrExisting(payload: AlertIn, key: string, newId: nat) returns (out: AlertOut, created: bool)
      requires newId !in alerts
      modifies this`alerts
      ensures Inserted(old(alerts), payload, key, newId, alerts, out, created)
    {
      var owners := Owners(alerts, payload);
      if owners == {} {
        alerts := alerts[newId := NewRow(payload, key)];
        return OutOf(newId, alerts[newId]), true;
      }
      var existing :| existing in owners;
      return OutOf(existing, alerts[existing]), false;
    }

    method Remember(key: string, body: AlertOut, fingerprint: string, up: bool)
      modifies this`cache
      ensures cache == Remembered(old(cache), key, body, fingerprint, up)
    {
      if up { cache := cache[key := Envelope(body, fingerprint)]; }
    }

    method IngestAlert(f: Fingerprint, payload: AlertIn, header: Option<string>, apiKey: string, newId: nat,
                       upAtCheck: bool, upAtStore: bool) returns (response: Response)
      requires CollisionFree(f) && WorldOk(f, Snapshot()) && newId !in alerts
      modifies this
      ensures WorldOk(f, Snapshot())
      ensures !response.KeyReuse? ==> TheOneAlert(alerts, response.body, payload)
      ensures response.Created? ==> Owners(old(alerts), payload) == {} && response.body.id == newId
      ensures response.Created? ==>
        var key := ComputeKey(header, payload, apiKey);
        && alerts == old(alerts)[newId := NewRow(payload, key)]
        && cache == if upAtStore then old(cache)[key := Envelope(response.body, f(payload))] else old(cache)
      ensures !response.Created? ==> alerts == old(alerts) && cache == old(cache)
      ensures var key := ComputeKey(header, payload, apiKey);
              if upAtCheck && key in old(cache) then
                response == (if old(cache)[key].fingerprint == f(payload) then Replayed(old(cache)[key].response)
                             else KeyReuse)
              else
                && (response.Created? <==> Owners(old(alerts), payload) == {})
                && (response.Replayed? <==> Owners(old(alerts), payload) != {})
      ensures response.Created? ==>
        && response.body.sourceSystem == payload.sourceSystem && response.body.externalId == payload.externalId
        && response.body.rest == payload.rest
      ensures response.Created? ==>
        && newId in alerts && alerts[newId].sourceSystem == payload.sourceSystem
        && alerts[newId].externalId == payload.externalId && alerts[newId].rest == payload.rest
        && alerts[newId].idemKey == ComputeKey(header, payload, apiKey)
    {
      hide EntryOk, Names, Inserted, WorldOk, UniqueIdentities;
      var key, fingerprint := ComputeKey(header, payload, apiKey), f(payload);
      var found := Check(key, upAtCheck);
      if found.Some? {
        if found.value.fingerprint != fingerprint { return KeyReuse; }
        HitIsTheAlert(f, Snapshot(), key, payload);
        return Replayed(found.value.response);
      }
      ghost var before := Snapshot();
      var body, created := InsertOrExisting(payload, key, newId);
      InsertIsTheAlert(f, before, payload, key, newId, alerts, body, created);
      if !created { return Replayed(body); }
      EntryKeepsOk(f, Snapshot(), key, body, payload, upAtStore);
      Remember(key, body, fingerprint, upAtStore);
      response := Created(body);
    }
  }

  lemma HitIsTheAlert(f: Fingerprint, w: World, key: string, payload: AlertIn)
    requires CollisionFree(f) && WorldOk(f, w) && key in w.cache && w.cache[key].fingerprint == f(payload)
    ensures TheOneAlert(w.alerts, w.cache[key].response, payload)
  {
    assert EntryOk(f, w.alerts, w.cache[key]);
    NamedIsTheOne(w.alerts, w.cache[key].response, payload);
  }

  lemma NamedIsTheOne(alerts: Alerts, out: AlertOut, payload: AlertIn)
    requires UniqueIdentities(alerts) && Names(alerts, out, payload)
    ensures TheOneAlert(alerts, out, payload)
  {
    forall j ensures j in Owners(alerts, payload) <==> j == out.id {}
  }

  lemma InsertIsTheAlert(f: Fingerprint, w: World, payload: AlertIn, key: string, newId: nat, after: Alerts,
                         out: AlertOut, created: bool)
    requires WorldOk(f, w) && Inserted(w.alerts, payload, key, newId, after, out, created)
    ensures WorldOk(f, w.(alerts := after)) && TheOneAlert(after, out, payload)
    ensures created ==> Owners(w.alerts, payload) == {} && out.id == newId
    ensures created ==> after == w.alerts[newId := NewRow(payload, key)]
    ensures created ==> out == AlertOut(newId, payload.sourceSystem, payload.externalId, payload.rest)
    ensures !created ==> after == w.alerts
  {
    InsertKeepsUnique(w.alerts, payload, key, newId, after, out, created);
    GrowthKeepsOk(f, w, after);
    NamedIsTheOne(after, out, payload);
  }

  lemma EntryKeepsOk(f: Fingerprint, w: World, key: string, body: AlertOut, payload: AlertIn, up: bool)
    requires WorldOk(f, w) && TheOneAlert(w.alerts, body, payload)
    ensures WorldOk(f, w.(cache := Remembered(w.cache, key, body, f(payload), up)))
  {
    hide Names;
    assert IsEntryOf(f, w.alerts, Envelope(body, f(payload)), payload);
  }
}
