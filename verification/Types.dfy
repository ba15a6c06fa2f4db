/** The values every other module speaks about: messages, configuration and routing. */
module Types {

  /** A broker position. Brokers never hand out positions near 2^63, so it is unbounded here. */
  type Offset = int

  type Key = string

  datatype TopicPartition = TopicPartition(topic: string, partition: int)

  datatype Option<+T> = None | Some(value: T)

  datatype Message = Message(offset: Offset, key: Key)

  datatype Mode = KeyOrdered | Unordered

  /**
   * The configuration after its defaults were filled in. The key extractor and the hash are
   * arbitrary deterministic functions of the caller.
   */
  datatype Config = Config(
    mode: Mode,
    lanes: nat,
    concurrency: nat,
    queueSize: nat,
    maxInFlight: nat,
    retryMax: int,
    hasDiscard: bool,
    extractor: Option<Message -> Key>,
    hash: Key -> nat)

  /** What configuration validation accepts. */
  ghost predicate ValidConfig(cfg: Config) {
    && 1 <= cfg.lanes
    && 1 <= cfg.concurrency
    && 1 <= cfg.queueSize
    && 1 <= cfg.maxInFlight
    && 0 <= cfg.retryMax
  }

  function KeyOf(cfg: Config, m: Message): Key {
    match cfg.extractor
    case Some(extract) => extract(m)
    case None => m.key
  }

  /** An empty key, or a worker with a single lane, goes to lane 0. */
  function LaneIndex(cfg: Config, key: Key): (i: nat)
    ensures 1 <= cfg.lanes ==> i < cfg.lanes
  {
    if cfg.lanes <= 1 || key == "" then 0 else cfg.hash(key) % cfg.lanes
  }

  function MaxAttempts(cfg: Config): (n: nat)
    ensures 1 <= n
  {
    if cfg.retryMax <= 0 then 1 else cfg.retryMax
  }

  /** The ceiling the worker believes its route enforces by blocking. */
  function NaturalCap(cfg: Config): nat {
    match cfg.mode
    case Unordered => cfg.concurrency
    case KeyOrdered => cfg.lanes * cfg.queueSize
  }
}
