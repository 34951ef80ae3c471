/**
 The queue of include/mpmc_logger/mpmc_queue.hpp as an interleaved step system: any number of
 threads push, refresh min_tail or register consumers, and one thread per consumer pops. Every step
 is one access to one shared variable (or to one byte of a slot), followed by the local work up to the
 next access.
 */
module QueueModel {
  import opened Bytes
  import opened RingIndex
  import opened TailScan

  type Item = seq<Byte>
  type Tid = nat

  /** SIZE and sizeof(T). */
  datatype Config = Config(size: nat, width: nat) {
    predicate Valid() { AcceptedSize(size) && size + 1 < WORD }
  }

  datatype Slot = Slot(sequence: nat, data: Item)

  /** What a scan may compare itself with: the head and the consumers when the scan began. */
  datatype Snapshot = Snapshot(head: nat, consumers: seq<Consumer>)

  /** compute_min_tail under way: the next consumer, whether it was seen active, the accumulators. */
  datatype Scan = Scan(index: nat, sawActive: bool, acc: seq<nat>, start: Snapshot)

  datatype Job = PushJob(item: Item, head: nat, minTail: nat) | RefreshJob

  /** Where a thread is. */
  datatype Pc =
    | Idle
    | AtLoadHead(item: Item)
    | AtLoadMin(item: Item, head: nat)
    | Scanning(job: Job, scan: Scan)
    | AtStoreMin(job: Job, result: nat, start: Snapshot)
    | AtCas(item: Item, head: nat, minTail: nat)
    | Copying(item: Item, pos: nat, done: set<nat>)
    | AtRegisterLoad(id: nat)
    | AtRegisterTail(id: nat, head: nat)
    | AtRegisterActivate(id: nat)

  /** Where the thread that pops for one consumer is. */
  datatype PopPc =
    | PopIdle
    | AtPopTail(into: Item)
    | AtPopSequence(tail: nat, into: Item)
    | PopCopying(tail: nat, buffer: Item, done: set<nat>)

  /**
   The shared variables and program counters, followed by history that no step reads: the payloads in
   claim order, the positions whose sequence store has happened, who owns each claimed unpublished
   position, who is registering each id, and where each consumer joined.
   */
  datatype State = State(
    head: nat,
    minTail: nat,
    numConsumers: nat,
    consumers: seq<Consumer>,
    slots: seq<Slot>,
    threads: map<Tid, Pc>,
    pops: seq<PopPc>,
    log: seq<Item>,
    published: set<nat>,
    claims: map<nat, Tid>,
    joining: map<nat, Tid>,
    joins: seq<nat>)

  datatype Step =
    | BeginPush(t: Tid, item: Item)
    | LoadHead(t: Tid)
    | LoadMin(t: Tid)
    | ScanLoad(t: Tid)
    | ScanFinish(t: Tid)
    | StoreMin(t: Tid)
    | Cas(t: Tid, spurious: bool)
    | CopyByte(t: Tid, i: nat)
    | Publish(t: Tid)
    | BeginRefresh(t: Tid)
    | BeginRegister(t: Tid)
    | RegisterLoad(t: Tid)
    | RegisterTail(t: Tid)
    | RegisterActivate(t: Tid)
    | Unregister(c: nat)
    | PopBegin(c: nat, into: Item)
    | PopTail(c: nat)
    | PopSequence(c: nat)
    | PopByte(c: nat, i: nat)
    | PopStore(c: nat)

  function SlotOf(cfg: Config, p: nat): (i: nat)
    requires cfg.Valid()
    ensures i < cfg.size
  {
    BitAnd(p, cfg.size - 1)
  }

  function At(s: State, t: Tid): Pc {
    if t in s.threads then s.threads[t] else Idle
  }

  function Go(s: State, t: Tid, pc: Pc): State {
    s.(threads := s.threads[t := pc])
  }

  predicate Registering(pc: Pc) {
    pc.AtRegisterLoad? || pc.AtRegisterTail? || pc.AtRegisterActivate?
  }

  predicate Words(s: State) {
    && s.head < WORD && s.minTail < WORD
    && forall c :: 0 <= c < |s.consumers| ==> s.consumers[c].tail < WORD
  }

  /** The arrays have their sizes; local copies hold what a uint64_t can hold. */
  predicate Shape(cfg: Config, s: State) {
    && cfg.Valid()
    && |s.consumers| == |s.pops| == |s.joins| == MAX_CONSUMERS
    && |s.slots| == cfg.size
    && Words(s)
    && (forall j :: 0 <= j < |s.slots| ==> |s.slots[j].data| == cfg.width)
    && (forall t :: t in s.threads ==> PcShape(cfg, s.threads[t]))
    && (forall c :: 0 <= c < |s.pops| ==> PopShape(cfg, s.pops[c]))
  }

  predicate JobShape(cfg: Config, job: Job) {
    job.PushJob? ==> |job.item| == cfg.width && job.head < WORD && job.minTail < WORD
  }

  predicate PcShape(cfg: Config, pc: Pc) {
    match pc
    case Idle => true
    case AtLoadHead(item) => |item| == cfg.width
    case AtLoadMin(item, head) => |item| == cfg.width && head < WORD
    case Scanning(job, scan) =>
      && JobShape(cfg, job) && |scan.acc| == 4 && scan.index <= MAX_CONSUMERS
      && (scan.sawActive ==> scan.index < MAX_CONSUMERS)
      && (forall k :: 0 <= k < 4 ==> scan.acc[k] < WORD)
    case AtStoreMin(job, result, start) => JobShape(cfg, job) && result < WORD
    case AtCas(item, head, minTail) => |item| == cfg.width && head < WORD && minTail < WORD
    case Copying(item, pos, done) => |item| == cfg.width && pos < WORD
    case AtRegisterLoad(id) => id < MAX_CONSUMERS
    case AtRegisterTail(id, head) => id < MAX_CONSUMERS && head < WORD
    case AtRegisterActivate(id) => id < MAX_CONSUMERS
  }

  predicate PopShape(cfg: Config, pc: PopPc) {
    match pc
    case PopIdle => true
    case AtPopTail(into) => |into| == cfg.width
    case AtPopSequence(tail, into) => tail < WORD && |into| == cfg.width
    case PopCopying(tail, buffer, done) => tail < WORD && |buffer| == cfg.width
  }

  /** A new queue; the bytes of the slots are whatever they were. */
  predicate IsInit(cfg: Config, s: State) {
    && Shape(cfg, s)
    && s.head == s.minTail == s.numConsumers == 0
    && (forall c :: 0 <= c < MAX_CONSUMERS ==>
          s.consumers[c] == Consumer(0, false) && s.pops[c] == PopIdle && s.joins[c] == 0)
    && (forall j :: 0 <= j < |s.slots| ==> s.slots[j].sequence == INVALID_POS)
    && s.threads == map[] && s.log == [] && s.published == {} && s.claims == map[] && s.joining == map[]
  }

  predicate AllCopied(cfg: Config, done: set<nat>) {
    forall i :: 0 <= i < cfg.width ==> i in done
  }

  /** The step's thread is at the step. */
  predicate Ready(cfg: Config, s: State, step: Step)
    requires Shape(cfg, s)
  {
    match step
    case BeginPush(t, item) => At(s, t).Idle? && |item| == cfg.width
    case LoadHead(t) => At(s, t).AtLoadHead?
    case LoadMin(t) => At(s, t).AtLoadMin?
    case ScanLoad(t) => At(s, t).Scanning? && At(s, t).scan.index < MAX_CONSUMERS
    case ScanFinish(t) => At(s, t).Scanning? && At(s, t).scan.index == MAX_CONSUMERS
    case StoreMin(t) => At(s, t).AtStoreMin?
    case Cas(t, spurious) => At(s, t).AtCas?
    case CopyByte(t, i) => At(s, t).Copying? && i < cfg.width && i !in At(s, t).done
    case Publish(t) => At(s, t).Copying? && AllCopied(cfg, At(s, t).done)
    case BeginRefresh(t) => At(s, t).Idle?
    case BeginRegister(t) => At(s, t).Idle?
    case RegisterLoad(t) => At(s, t).AtRegisterLoad?
    case RegisterTail(t) => At(s, t).AtRegisterTail?
    case RegisterActivate(t) => At(s, t).AtRegisterActivate?
    case Unregister(c) => c < MAX_CONSUMERS
    case PopBegin(c, into) => c < MAX_CONSUMERS && s.pops[c].PopIdle? && |into| == cfg.width
    case PopTail(c) => c < MAX_CONSUMERS && s.pops[c].AtPopTail?
    case PopSequence(c) => c < MAX_CONSUMERS && s.pops[c].AtPopSequence?
    case PopByte(c, i) => c < MAX_CONSUMERS && s.pops[c].PopCopying? && i < cfg.width && i !in s.pops[c].done
    case PopStore(c) => c < MAX_CONSUMERS && s.pops[c].PopCopying? && AllCopied(cfg, s.pops[c].done)
  }

  predicate Quiet(s: State) {
    forall t :: t in s.threads ==> s.threads[t].Idle? || Registering(s.threads[t])
  }

  predicate NoRegistration(s: State) {
    forall t :: t in s.threads ==> !Registering(s.threads[t])
  }

  /**
   What the queue asks of its users: register while no push and no scan is under way, start none until
   the registration is over, and unregister between pops.
   */
  predicate Regime(s: State, step: Step)
    requires step.Unregister? ==> step.c < |s.pops|
  {
    match step
    case BeginPush(t, item) => NoRegistration(s)
    case BeginRefresh(t) => NoRegistration(s)
    case BeginRegister(t) => Quiet(s)
    case Unregister(c) => s.pops[c].PopIdle?
    case _ => true
  }

  predicate Enabled(cfg: Config, s: State, step: Step)
    requires Shape(cfg, s)
  {
    Ready(cfg, s, step) && Regime(s, step)
  }

  function Begun(s: State): Snapshot { Snapshot(s.head, s.consumers) }

  function NewScan(s: State): Scan {
    Scan(0, false, [INVALID_POS, INVALID_POS, INVALID_POS, INVALID_POS], Begun(s))
  }

  /** One load of the scan: the active flag of the next consumer, or the tail of the one seen active. */
  function ScanStep(cs: seq<Consumer>, scan: Scan): Scan
    requires scan.index < |cs| && |scan.acc| == 4
  {
    var c := cs[scan.index];
    if scan.sawActive then
      var k := scan.index % 4;
      scan.(index := scan.index + 1, sawActive := false, acc := scan.acc[k := Min(scan.acc[k], c.tail)])
    else if c.active then scan.(sawActive := true)
    else scan.(index := scan.index + 1)
  }

  /** The full test of push: head >= min_tail + SIZE. */
  predicate Full(cfg: Config, head: nat, minTail: nat)
    requires cfg.Valid() && minTail < WORD
  {
    head >= Add64(minTail, cfg.size)
  }

  /** The rest of push after its scan's outcome is known and stored. */
  function AfterMin(cfg: Config, job: Job, result: nat): Pc
    requires cfg.Valid() && result < WORD
  {
    if job.RefreshJob? || Full(cfg, job.head, result) then Idle else AtCas(job.item, job.head, result)
  }

  function SetPop(s: State, c: nat, pc: PopPc): State
    requires c < |s.pops|
  {
    s.(pops := s.pops[c := pc])
  }

  /** The compare-and-swap has moved head past the claimed position. */
  function Claimed(s: State, t: Tid, item: Item): State
    requires s.head < WORD
  {
    Go(s, t, Copying(item, s.head, {}))
    .(head := Add64(s.head, 1), log := s.log + [item], claims := s.claims[s.head := t])
  }

  /** Byte i of the payload is in the slot. */
  function Copied(s: State, t: Tid, pc: Pc, j: nat, i: nat): State
    requires pc.Copying? && j < |s.slots| && i < |pc.item| == |s.slots[j].data|
  {
    Go(s, t, pc.(done := pc.done + {i}))
    .(slots := s.slots[j := s.slots[j].(data := s.slots[j].data[i := pc.item[i]])])
  }

  /** The sequence store. */
  function Published(s: State, t: Tid, pos: nat, j: nat): State
    requires j < |s.slots|
  {
    Go(s, t, Idle)
    .(slots := s.slots[j := s.slots[j].(sequence := pos)],
      published := s.published + {pos}, claims := s.claims - {pos})
  }

  /** num_consumers.fetch_add gave thread t the next consumer id. */
  function IdTaken(s: State, t: Tid): State {
    Go(s, t, AtRegisterLoad(s.numConsumers))
    .(numConsumers := s.numConsumers + 1, joining := s.joining[s.numConsumers := t])
  }

  /** The new consumer's tail is set to the head that was loaded. */
  function TailSet(s: State, t: Tid, id: nat, head: nat): State
    requires id < |s.consumers| == |s.joins|
  {
    Go(s, t, AtRegisterActivate(id))
    .(consumers := s.consumers[id := s.consumers[id].(tail := head)], joins := s.joins[id := head])
  }

  function Activated(s: State, t: Tid, id: nat): State
    requires id < |s.consumers|
  {
    Go(s, t, Idle)
    .(consumers := s.consumers[id := s.consumers[id].(active := true)], joining := s.joining - {id})
  }

  function Do(cfg: Config, s: State, step: Step): State
    requires Shape(cfg, s) && Ready(cfg, s, step)
  {
    match step
    case BeginPush(t, item) => Go(s, t, AtLoadHead(item))
    case LoadHead(t) => Go(s, t, AtLoadMin(At(s, t).item, s.head))
    case LoadMin(t) =>
      var pc := At(s, t);
      if Full(cfg, pc.head, s.minTail)
      then Go(s, t, Scanning(PushJob(pc.item, pc.head, s.minTail), NewScan(s)))
      else Go(s, t, AtCas(pc.item, pc.head, s.minTail))
    case ScanLoad(t) =>
      var pc := At(s, t);
      Go(s, t, pc.(scan := ScanStep(s.consumers, pc.scan)))
    case ScanFinish(t) =>
      var pc := At(s, t);
      var result := OrZero(Combine(pc.scan.acc));
      if pc.job.PushJob? && result == pc.job.minTail
      then Go(s, t, AfterMin(cfg, pc.job, result))
      else Go(s, t, AtStoreMin(pc.job, result, pc.scan.start))
    case StoreMin(t) =>
      var pc := At(s, t);
      Go(s, t, AfterMin(cfg, pc.job, pc.result)).(minTail := pc.result)
    case Cas(t, spurious) =>
      var pc := At(s, t);
      if !spurious && s.head == pc.head then Claimed(s, t, pc.item)
      else Go(s, t, AtLoadHead(pc.item))
    case CopyByte(t, i) => Copied(s, t, At(s, t), SlotOf(cfg, At(s, t).pos), i)
    case Publish(t) => Published(s, t, At(s, t).pos, SlotOf(cfg, At(s, t).pos))
    case BeginRefresh(t) => Go(s, t, Scanning(RefreshJob, NewScan(s)))
    case BeginRegister(t) =>
      var id := s.numConsumers;
      if id >= MAX_CONSUMERS then s.(numConsumers := id + 1) else IdTaken(s, t)
    case RegisterLoad(t) => Go(s, t, AtRegisterTail(At(s, t).id, s.head))
    case RegisterTail(t) => TailSet(s, t, At(s, t).id, At(s, t).head)
    case RegisterActivate(t) => Activated(s, t, At(s, t).id)
    case Unregister(c) => s.(consumers := s.consumers[c := s.consumers[c].(active := false)])
    case PopBegin(c, into) => if s.consumers[c].active then SetPop(s, c, AtPopTail(into)) else s
    case PopTail(c) => SetPop(s, c, AtPopSequence(s.consumers[c].tail, s.pops[c].into))
    case PopSequence(c) =>
      var tail := s.pops[c].tail;
      var slot := s.slots[SlotOf(cfg, tail)];
      if slot.sequence != tail then SetPop(s, c, PopIdle)
      else SetPop(s, c, PopCopying(tail, s.pops[c].into, {}))
    case PopByte(c, i) =>
      var pc := s.pops[c];
      SetPop(s, c, pc.(buffer := pc.buffer[i := s.slots[SlotOf(cfg, pc.tail)].data[i]], done := pc.done + {i}))
    case PopStore(c) =>
      SetPop(s, c, PopIdle)
      .(consumers := s.consumers[c := s.consumers[c].(tail := Add64(s.pops[c].tail, 1))])
  }
}
