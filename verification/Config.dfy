/** The engine's view of an alert and of its configuration. */
module Config {
  import opened Prelude

  /** The alert fields a rule may name; `AmountBucket` is the derived pseudo-field. */
  datatype Field =
    | CustomerRef | AccountRef | CounterpartyRef | MerchantName | Mcc
    | DeviceId | IpAddress | SessionId | Currency | Amount | AmountBucket

  datatype FieldValue = Text(text: string) | Number(number: real)

  /** Ids stand for UUIDs (128-bit numbers, ordered as their text is); times are microseconds. */
  datatype EngineAlert = EngineAlert(
    id: nat,
    eventTime: int,
    amount: real,
    currency: string,
    customerRef: Option<string>,
    accountRef: Option<string>,
    counterpartyRef: Option<string>,
    merchantName: Option<string>,
    mcc: Option<string>,
    deviceId: Option<string>,
    ipAddress: Option<string>,
    sessionId: Option<string>,
    typologies: set<string>)

  datatype Rule = Rule(
    id: string,
    enabled: bool,
    blockingKeys: seq<Field>,
    windowSeconds: int,
    tolerance: real,
    matchKeys: seq<Field>)

  datatype Weights = Weights(time: real, amount: real, name: real, device: real, ip: real, typology: real)

  datatype Aggregation = Max | SumCapped | Weighted

  /** `decay` stands for the exponential, `nameRatio` for the fuzzy string ratio (0 to 100). */
  datatype GroupingConfig = GroupingConfig(
    rules: seq<Rule>,
    weights: Weights,
    threshold: real,
    cap: nat,
    tauSeconds: int,
    dispositions: seq<string>,
    aggregation: Aggregation,
    decay: real -> real,
    nameRatio: (string, string) -> real)

  function TotalWeight(w: Weights): real {
    w.time + w.amount + w.name + w.device + w.ip + w.typology
  }

  /** Scoring divides by both; the source fails on a configuration where either is zero. */
  predicate Scorable(cfg: GroupingConfig) {
    TotalWeight(cfg.weights) != 0.0 && cfg.tauSeconds != 0
  }

  function Bucket(amount: real): string {
    if amount < 10.0 then "0-10"
    else if amount < 100.0 then "10-100"
    else if amount < 1000.0 then "100-1000"
    else if amount < 10000.0 then "1000-10000"
    else "10000+"
  }

  function AsText(ref: Option<string>): Option<FieldValue> {
    match ref case None => None case Some(text) => Some(Text(text))
  }

  function ValueOf(a: EngineAlert, field: Field): Option<FieldValue> {
    match field
    case CustomerRef => AsText(a.customerRef)
    case AccountRef => AsText(a.accountRef)
    case CounterpartyRef => AsText(a.counterpartyRef)
    case MerchantName => AsText(a.merchantName)
    case Mcc => AsText(a.mcc)
    case DeviceId => AsText(a.deviceId)
    case IpAddress => AsText(a.ipAddress)
    case SessionId => AsText(a.sessionId)
    case Currency => Some(Text(a.currency))
    case Amount => Some(Number(a.amount))
    case AmountBucket => Some(Text(Bucket(a.amount)))
  }

  function Abs(x: int): nat { if x < 0 then -x else x }

  /** Whether two alerts lie within a rule's time window. */
  predicate Near(a: EngineAlert, b: EngineAlert, windowSeconds: int) {
    Abs(a.eventTime - b.eventTime) <= windowSeconds * 1_000_000
  }
}
