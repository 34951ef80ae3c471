/** What the queue keeps on its own: safety, for as long as consumers join at safe positions. */
module QueueCore {
  import opened Bytes
  import opened RingIndex
  import opened TailScan
  import opened QueueModel

  /** No 64-bit position can wrap or equal INVALID_POS in the next step. */
  predicate Bounded(cfg: Config, s: State) {
    |s.log| + cfg.size + 1 < WORD
  }

  ghost predicate PublishedBelow(s: State, m: nat) {
    forall p :: 0 <= p < m ==> p in s.published
  }

  /** A value that min_tail may take: everything below it is published, no active consumer is below it. */
  ghost predicate Safe(s: State, m: nat) {
    && PublishedBelow(s, m)
    && forall c :: 0 <= c < |s.consumers| && s.consumers[c].active ==> m <= s.consumers[c].tail
  }

  /** The claimed positions are those below head; each is published or has exactly one owner. */
  ghost predicate LogInv(cfg: Config, s: State) {
    && s.head == |s.log|
    && (forall p :: 0 <= p < |s.log| ==> |s.log[p]| == cfg.width)
    && (forall p :: p in s.published ==> p < s.head && p !in s.claims)
    && (forall p :: p in s.claims ==> p < s.head <= p + cfg.size)
    && (forall p :: 0 <= p < s.head ==> p in s.published || p in s.claims)
    && (forall p :: p in s.claims ==> At(s, s.claims[p]).Copying? && At(s, s.claims[p]).pos == p)
  }

  /** An id whose registration is over joined and stayed at published positions; one still joining is inactive. */
  ghost predicate ConsumerInv(cfg: Config, s: State) {
    && (forall c :: 0 <= c < |s.consumers| && c !in s.joining ==> PublishedBelow(s, s.consumers[c].tail))
    && (forall c :: 0 <= c < |s.consumers| && c in s.joining ==> !s.consumers[c].active)
    && (forall c :: 0 <= c < |s.consumers| && c < |s.joins| ==> s.joins[c] <= s.consumers[c].tail <= s.head)
    && (forall c :: 0 <= c < |s.consumers| && s.consumers[c].active ==> s.head <= s.consumers[c].tail + cfg.size)
    && (forall c :: s.numConsumers <= c < |s.consumers| ==> !s.consumers[c].active)
  }

  /** The slot of one of the last SIZE claimed positions. */
  ghost predicate SlotHolds(cfg: Config, s: State, p: nat)
    requires Shape(cfg, s) && p < |s.log|
  {
    var slot := s.slots[SlotOf(cfg, p)];
    if p in s.published then slot == Slot(p, s.log[p])
    else slot.sequence == (if p < cfg.size then INVALID_POS else p - cfg.size)
  }

  ghost predicate SlotInv(cfg: Config, s: State)
    requires Shape(cfg, s) && s.head == |s.log|
  {
    && (forall p :: 0 <= p < s.head <= p + cfg.size ==> SlotHolds(cfg, s, p))
    && (forall p :: s.head <= p < cfg.size ==> s.slots[SlotOf(cfg, p)].sequence == INVALID_POS)
    && (forall j :: 0 <= j < |s.slots| ==>
          s.slots[j].sequence == INVALID_POS || s.slots[j].sequence in s.published)
  }

  /** A partial scan: what it holds is published below, and at most the tail of every active consumer it has passed. */
  ghost predicate ScanInv(s: State, scan: Scan)
    requires |scan.acc| == 4 && scan.index <= |s.consumers|
  {
    && (scan.sawActive ==> scan.index < s.numConsumers && scan.index !in s.joining)
    && (forall k :: 0 <= k < 4 ==> scan.acc[k] == INVALID_POS || PublishedBelow(s, scan.acc[k]))
    && (forall c :: 0 <= c < scan.index && s.consumers[c].active ==> Combine(scan.acc) <= s.consumers[c].tail)
  }

  ghost predicate JobInv(s: State, job: Job) {
    job.PushJob? ==> job.head <= s.head && Safe(s, job.minTail)
  }

  ghost predicate PcInv(cfg: Config, s: State, t: Tid, pc: Pc)
    requires Shape(cfg, s) && PcShape(cfg, pc)
  {
    match pc
    case Idle => true
    case AtLoadHead(item) => true
    case AtLoadMin(item, head) => head <= s.head
    case Scanning(job, scan) => JobInv(s, job) && ScanInv(s, scan)
    case AtStoreMin(job, result, start) => JobInv(s, job) && Safe(s, result)
    case AtCas(item, head, minTail) => head <= s.head && head < minTail + cfg.size && Safe(s, minTail)
    case Copying(item, pos, done) =>
      && pos in s.claims && s.claims[pos] == t && pos < |s.log| && s.log[pos] == item
      && (forall i :: i in done ==> i < cfg.width && s.slots[SlotOf(cfg, pos)].data[i] == item[i])
    case AtRegisterLoad(id) => RegisterInv(s, t, id)
    case AtRegisterTail(id, head) => RegisterInv(s, t, id) && head <= s.head
    case AtRegisterActivate(id) => RegisterInv(s, t, id) && s.consumers[id].tail == s.joins[id]
  }

  ghost predicate RegisterInv(s: State, t: Tid, id: nat)
    requires id < |s.consumers|
  {
    id in s.joining && s.joining[id] == t && id < s.numConsumers
  }

  ghost predicate ThreadsInv(cfg: Config, s: State)
    requires Shape(cfg, s)
  {
    (forall t :: t in s.threads ==> PcInv(cfg, s, t, s.threads[t])) && JoiningInv(s)
  }

  /** Each id that is being registered has the thread that registers it. */
  ghost predicate JoiningInv(s: State) {
    forall id :: id in s.joining ==>
      && id < s.numConsumers
      && Registering(At(s, s.joining[id])) && At(s, s.joining[id]).id == id
  }

  ghost predicate PopInv(cfg: Config, s: State, c: nat, pc: PopPc)
    requires Shape(cfg, s) && c < MAX_CONSUMERS && PopShape(cfg, pc)
  {
    match pc
    case PopIdle => true
    case AtPopTail(into) => s.consumers[c].active
    case AtPopSequence(tail, into) => s.consumers[c].active && tail == s.consumers[c].tail
    case PopCopying(tail, buffer, done) =>
      && s.consumers[c].active && tail == s.consumers[c].tail
      && tail in s.published && tail < |s.log| && |s.log[tail]| == cfg.width
      && forall i :: i in done ==> i < cfg.width && buffer[i] == s.log[tail][i]
  }

  ghost predicate Core(cfg: Config, s: State) {
    && Shape(cfg, s)
    && LogInv(cfg, s)
    && Safe(s, s.minTail)
    && ConsumerInv(cfg, s)
    && SlotInv(cfg, s)
    && ThreadsInv(cfg, s)
    && forall c :: 0 <= c < MAX_CONSUMERS ==> PopInv(cfg, s, c, s.pops[c])
  }

  lemma SlotFacts(cfg: Config)
    requires cfg.Valid()
    ensures forall p: nat, q: nat :: p < q < p + cfg.size ==> SlotOf(cfg, p) != SlotOf(cfg, q)
    ensures forall p: nat :: SlotOf(cfg, p + cfg.size) == SlotOf(cfg, p)
    ensures forall p: nat :: p < cfg.size ==> SlotOf(cfg, p) == p
  {
    forall p: nat, q: nat | p < q < p + cfg.size ensures SlotOf(cfg, p) != SlotOf(cfg, q) {
      RingDistinct(p, q, cfg.size);
    }
    forall p: nat
      ensures SlotOf(cfg, p + cfg.size) == SlotOf(cfg, p)
      ensures p < cfg.size ==> SlotOf(cfg, p) == p
    {
      RingDistinct(p, p, cfg.size);
    }
  }

  /** A step appends to the log at most the payload of a claim, and changes nothing in it. */
  lemma StepGrows(cfg: Config, s: State, step: Step)
    requires Shape(cfg, s) && Ready(cfg, s, step)
    ensures s.log <= Do(cfg, s, step).log
    ensures Do(cfg, s, step).log == s.log || (step.Cas? && |Do(cfg, s, step).log| == |s.log| + 1)
  {
  }

  // ---------------------------------------------------------------------------------------------
  // What a thread may rely on while others move
  // ---------------------------------------------------------------------------------------------

  /** What every step of others leaves to thread t, unless a consumer becomes active. */
  ghost predicate Rely(cfg: Config, s: State, s': State, t: Tid)
    requires Shape(cfg, s) && Shape(cfg, s')
  {
    && s.head <= s'.head && s.published <= s'.published && s.numConsumers <= s'.numConsumers
    && |s.log| <= |s'.log| && (forall p :: 0 <= p < |s.log| ==> s'.log[p] == s.log[p])
    && (forall c :: 0 <= c < MAX_CONSUMERS && s'.consumers[c].active ==>
          s.consumers[c].active && s.consumers[c].tail <= s'.consumers[c].tail)
    && (forall p :: p in s.claims && s.claims[p] == t ==>
          && p in s'.claims && s'.claims[p] == t
          && s'.slots[SlotOf(cfg, p)].data == s.slots[SlotOf(cfg, p)].data)
    && (forall id :: id in s.joining && s.joining[id] == t && id < MAX_CONSUMERS ==>
          && id in s'.joining && s'.joining[id] == t
          && s'.consumers[id].tail == s.consumers[id].tail && s'.joins[id] == s.joins[id])
    && (forall id :: id in s'.joining ==> id in s.joining || id >= s.numConsumers)
  }

  lemma SafeStable(cfg: Config, s: State, s': State, t: Tid, m: nat)
    requires Shape(cfg, s) && Shape(cfg, s') && Rely(cfg, s, s', t) && Safe(s, m)
    ensures Safe(s', m)
  {
  }

  lemma ScanStable(cfg: Config, s: State, s': State, t: Tid, scan: Scan)
    requires Shape(cfg, s) && Shape(cfg, s') && Rely(cfg, s, s', t)
    requires |scan.acc| == 4 && scan.index <= MAX_CONSUMERS && ScanInv(s, scan)
    ensures ScanInv(s', scan)
  {
  }

  /** What is true of a thread stays true while others move. */
  lemma PcStable(cfg: Config, s: State, s': State, t: Tid, pc: Pc)
    requires Shape(cfg, s) && Shape(cfg, s') && Rely(cfg, s, s', t) && PcShape(cfg, pc)
    requires PcInv(cfg, s, t, pc)
    ensures PcInv(cfg, s', t, pc)
  {
    match pc {
      case Scanning(job, scan) =>
        ScanStable(cfg, s, s', t, scan);
        if job.PushJob? { SafeStable(cfg, s, s', t, job.minTail); }
      case AtStoreMin(job, result, start) =>
        if job.PushJob? { SafeStable(cfg, s, s', t, job.minTail); }
        SafeStable(cfg, s, s', t, result);
      case AtCas(item, head, minTail) => SafeStable(cfg, s, s', t, minTail);
      case _ =>
    }
  }

  /** A step of one thread: what remains to be shown of the threads. */
  lemma PcsKept(cfg: Config, s: State, s': State, t: Tid)
    requires Shape(cfg, s) && Shape(cfg, s') && s'.threads == s.threads[t := At(s', t)]
    requires forall u :: u in s.threads ==> PcInv(cfg, s, u, s.threads[u])
    requires forall u :: u in s.threads && u != t ==> Rely(cfg, s, s', u)
    requires PcInv(cfg, s', t, At(s', t))
    ensures forall u :: u in s'.threads ==> PcInv(cfg, s', u, s'.threads[u])
  {
    forall u | u in s'.threads ensures PcInv(cfg, s', u, s'.threads[u]) {
      if u != t { PcStable(cfg, s, s', u, s.threads[u]); }
    }
  }

  lemma JoiningKept(s: State, s': State, t: Tid)
    requires JoiningInv(s) && s'.joining == s.joining && s'.numConsumers == s.numConsumers
    requires s'.threads == s.threads[t := At(s', t)]
    requires Registering(At(s, t)) ==> Registering(At(s', t)) && At(s', t).id == At(s, t).id
    ensures JoiningInv(s')
  {
  }

  // ---------------------------------------------------------------------------------------------
  // What a step that leaves slots or pops alone keeps of them
  // ---------------------------------------------------------------------------------------------

  lemma SlotsKept(cfg: Config, s: State, s': State)
    requires Shape(cfg, s) && Shape(cfg, s') && s.head == |s.log| && SlotInv(cfg, s)
    requires s'.head == s.head && s'.log == s.log && s'.slots == s.slots && s'.published == s.published
    ensures SlotInv(cfg, s')
  {
    forall p | 0 <= p < s'.head <= p + cfg.size ensures SlotHolds(cfg, s', p) {
      assert SlotHolds(cfg, s, p);
    }
  }

  lemma LogKept(cfg: Config, s: State, s': State)
    requires LogInv(cfg, s)
    requires s'.head == s.head && s'.log == s.log && s'.published == s.published && s'.claims == s.claims
    requires forall t :: t in s.threads && s.threads[t].Copying? ==> At(s', t) == s.threads[t]
    ensures LogInv(cfg, s')
  {
    forall p | p in s'.claims ensures At(s', s'.claims[p]).Copying? && At(s', s'.claims[p]).pos == p {
      assert At(s, s.claims[p]).Copying? && At(s, s.claims[p]).pos == p;
    }
  }

  lemma PopsKept(cfg: Config, s: State, s': State)
    requires Shape(cfg, s) && Shape(cfg, s') && s.published <= s'.published && s.log <= s'.log
    requires forall c :: 0 <= c < MAX_CONSUMERS ==> PopInv(cfg, s, c, s.pops[c])
    requires forall c :: 0 <= c < MAX_CONSUMERS && !s'.pops[c].PopIdle? ==>
               s'.pops[c] == s.pops[c] && (s.consumers[c].active ==> s'.consumers[c] == s.consumers[c])
    ensures forall c :: 0 <= c < MAX_CONSUMERS ==> PopInv(cfg, s', c, s'.pops[c])
  {
    forall c | 0 <= c < MAX_CONSUMERS ensures PopInv(cfg, s', c, s'.pops[c]) {
      assert PopInv(cfg, s, c, s.pops[c]);
    }
  }

  // ---------------------------------------------------------------------------------------------
  // Steps that move one program counter
  // ---------------------------------------------------------------------------------------------

  function Moved(s: State, t: Tid, pc: Pc, m: nat): State {
    Go(s, t, pc).(minTail := m)
  }

  lemma MovedShape(cfg: Config, s: State, t: Tid, pc: Pc, m: nat)
    requires Shape(cfg, s) && PcShape(cfg, pc) && m < WORD
    ensures Shape(cfg, Moved(s, t, pc, m))
  {
  }

  lemma MovedRely(cfg: Config, s: State, t: Tid, pc: Pc, m: nat, u: Tid)
    requires Shape(cfg, s) && Shape(cfg, Moved(s, t, pc, m))
    ensures Rely(cfg, s, Moved(s, t, pc, m), u)
  {
  }

  lemma MovedThreads(cfg: Config, s: State, t: Tid, pc: Pc, m: nat)
    requires Core(cfg, s) && PcShape(cfg, pc) && PcInv(cfg, s, t, pc) && m < WORD
    requires Registering(At(s, t)) ==> Registering(pc) && pc.id == At(s, t).id
    ensures Shape(cfg, Moved(s, t, pc, m)) && ThreadsInv(cfg, Moved(s, t, pc, m))
  {
    var s' := Moved(s, t, pc, m);
    MovedShape(cfg, s, t, pc, m);
    JoiningKept(s, s', t);
    forall u ensures Rely(cfg, s, s', u) {
      MovedRely(cfg, s, t, pc, m, u);
    }
    PcStable(cfg, s, s', t, pc);
    PcsKept(cfg, s, s', t);
  }

  /** A step that moves one thread, and perhaps stores a safe min_tail, keeps the invariant. */
  lemma KeepsMoved(cfg: Config, s: State, t: Tid, pc: Pc, m: nat)
    requires Core(cfg, s) && !At(s, t).Copying? && !pc.Copying?
    requires PcShape(cfg, pc) && PcInv(cfg, s, t, pc) && m < WORD && Safe(s, m)
    requires Registering(At(s, t)) ==> Registering(pc) && pc.id == At(s, t).id
    ensures Core(cfg, Moved(s, t, pc, m))
  {
    var s' := Moved(s, t, pc, m);
    MovedThreads(cfg, s, t, pc, m);
    LogKept(cfg, s, s');
    SlotsKept(cfg, s, s');
    PopsKept(cfg, s, s');
  }

  lemma SetPopThreads(cfg: Config, s: State, c: nat, pc: PopPc)
    requires Shape(cfg, s) && ThreadsInv(cfg, s) && c < MAX_CONSUMERS && PopShape(cfg, pc)
    ensures Shape(cfg, SetPop(s, c, pc)) && ThreadsInv(cfg, SetPop(s, c, pc))
  {
    var s' := SetPop(s, c, pc);
    assert Shape(cfg, s');
    forall u | u in s'.threads ensures PcInv(cfg, s', u, s'.threads[u]) {
      PcStable(cfg, s, s', u, s.threads[u]);
    }
  }

  /** A step that moves one consumer's thread keeps the invariant. */
  lemma KeepsPop(cfg: Config, s: State, c: nat, pc: PopPc)
    requires Core(cfg, s) && c < MAX_CONSUMERS && PopShape(cfg, pc) && PopInv(cfg, s, c, pc)
    ensures Core(cfg, SetPop(s, c, pc))
  {
    var s' := SetPop(s, c, pc);
    SetPopThreads(cfg, s, c, pc);
    SlotsKept(cfg, s, s');
    forall d | 0 <= d < MAX_CONSUMERS ensures PopInv(cfg, s', d, s'.pops[d]) {
      assert PopInv(cfg, s, d, s.pops[d]);
    }
  }

  // ---------------------------------------------------------------------------------------------
  // The scan
  // ---------------------------------------------------------------------------------------------

  lemma FreshScan(cfg: Config, s: State)
    requires Core(cfg, s)
    ensures ScanInv(s, NewScan(s))
  {
  }

  lemma ScanAdvances(cfg: Config, s: State, scan: Scan)
    requires Core(cfg, s)
    requires |scan.acc| == 4 && scan.index < MAX_CONSUMERS && ScanInv(s, scan)
    ensures ScanInv(s, ScanStep(s.consumers, scan))
  {
    var scan' := ScanStep(s.consumers, scan);
    assert Combine(scan'.acc) <= Combine(scan.acc);
  }

  /** The result of a finished scan may be stored. */
  lemma ScanSafe(cfg: Config, s: State, scan: Scan)
    requires Core(cfg, s) && Bounded(cfg, s)
    requires |scan.acc| == 4 && scan.index == MAX_CONSUMERS && ScanInv(s, scan)
    ensures Safe(s, OrZero(Combine(scan.acc)))
  {
    var m := Combine(scan.acc);
    assert m == INVALID_POS || PublishedBelow(s, m);
    forall c | 0 <= c < |s.consumers| && s.consumers[c].active ensures m <= s.consumers[c].tail < INVALID_POS {
    }
  }

  // ---------------------------------------------------------------------------------------------
  // Steps of push and of the refresh
  // ---------------------------------------------------------------------------------------------

  lemma NoWrap(cfg: Config, s: State, m: nat)
    requires Core(cfg, s) && Bounded(cfg, s) && m < WORD && PublishedBelow(s, m)
    ensures m <= s.head && Add64(m, cfg.size) == m + cfg.size
  {
    assert s.head !in s.published;
  }

  lemma KeepsBegin(cfg: Config, s: State, step: Step)
    requires Core(cfg, s) && (step.BeginPush? || step.BeginRefresh?) && Ready(cfg, s, step)
    ensures Core(cfg, Do(cfg, s, step))
  {
    FreshScan(cfg, s);
    match step {
      case BeginPush(t, item) => KeepsMoved(cfg, s, t, AtLoadHead(item), s.minTail);
      case BeginRefresh(t) => KeepsMoved(cfg, s, t, Scanning(RefreshJob, NewScan(s)), s.minTail);
    }
  }

  lemma KeepsLoad(cfg: Config, s: State, step: Step)
    requires Core(cfg, s) && Bounded(cfg, s) && (step.LoadHead? || step.LoadMin?) && Ready(cfg, s, step)
    ensures Core(cfg, Do(cfg, s, step))
  {
    NoWrap(cfg, s, s.minTail);
    FreshScan(cfg, s);
    var pc := At(Do(cfg, s, step), step.t);
    assert PcInv(cfg, s, step.t, At(s, step.t));
    KeepsMoved(cfg, s, step.t, pc, s.minTail);
  }

  lemma KeepsScanLoad(cfg: Config, s: State, t: Tid)
    requires Core(cfg, s) && Ready(cfg, s, ScanLoad(t))
    ensures Core(cfg, Do(cfg, s, ScanLoad(t)))
  {
    var pc := At(s, t);
    assert PcInv(cfg, s, t, pc);
    ScanAdvances(cfg, s, pc.scan);
    KeepsMoved(cfg, s, t, pc.(scan := ScanStep(s.consumers, pc.scan)), s.minTail);
  }

  lemma KeepsScanFinish(cfg: Config, s: State, t: Tid)
    requires Core(cfg, s) && Bounded(cfg, s) && Ready(cfg, s, ScanFinish(t))
    ensures Core(cfg, Do(cfg, s, ScanFinish(t)))
  {
    var pc := At(s, t);
    assert PcInv(cfg, s, t, pc);
    ScanSafe(cfg, s, pc.scan);
    var result := OrZero(Combine(pc.scan.acc));
    NoWrap(cfg, s, result);
    KeepsMoved(cfg, s, t, At(Do(cfg, s, ScanFinish(t)), t), s.minTail);
  }

  lemma KeepsStoreMin(cfg: Config, s: State, t: Tid)
    requires Core(cfg, s) && Bounded(cfg, s) && Ready(cfg, s, StoreMin(t))
    ensures Core(cfg, Do(cfg, s, StoreMin(t)))
  {
    var pc := At(s, t);
    assert PcInv(cfg, s, t, pc);
    NoWrap(cfg, s, pc.result);
    KeepsMoved(cfg, s, t, AfterMin(cfg, pc.job, pc.result), pc.result);
  }

  // ---------------------------------------------------------------------------------------------
  // Claiming, copying and publishing
  // ---------------------------------------------------------------------------------------------

  /** A step of thread t that leaves consumers, pops and registrations alone: what remains to be shown. */
  lemma KeepsWrite(cfg: Config, s: State, s': State, t: Tid, pc: Pc)
    requires Core(cfg, s) && Shape(cfg, s')
    requires s'.threads == s.threads[t := pc] && PcShape(cfg, pc) && PcInv(cfg, s', t, pc) && !Registering(pc)
    requires !Registering(At(s, t))
    requires s'.consumers == s.consumers && s'.pops == s.pops && s'.joins == s.joins && s'.joining == s.joining
    requires s'.numConsumers == s.numConsumers && s'.minTail == s.minTail
    requires LogInv(cfg, s') && ConsumerInv(cfg, s') && SlotInv(cfg, s')
    requires forall u :: u in s.threads && u != t ==> Rely(cfg, s, s', u)
    requires s.published <= s'.published && s.log <= s'.log
    ensures Core(cfg, s')
  {
    PcsKept(cfg, s, s', t);
    JoiningKept(s, s', t);
    PopsKept(cfg, s, s');
  }

  lemma ClaimedShape(cfg: Config, s: State, t: Tid, item: Item)
    requires Shape(cfg, s) && |item| == cfg.width
    ensures Shape(cfg, Claimed(s, t, item))
  {
  }

  lemma ClaimLog(cfg: Config, s: State, t: Tid, item: Item, m: nat)
    requires LogInv(cfg, s) && Bounded(cfg, s) && |item| == cfg.width && !At(s, t).Copying?
    requires Safe(s, m) && s.head < m + cfg.size
    ensures Claimed(s, t, item).head == s.head + 1 && LogInv(cfg, Claimed(s, t, item))
  {
    var s' := Claimed(s, t, item);
    assert s'.head == s.head + 1;
    forall p | p in s'.claims ensures p < s'.head <= p + cfg.size {
      assert p !in s.published && (p == s.head || p in s.claims);
      assert m <= p;
    }
    forall p | p in s'.claims ensures At(s', s'.claims[p]).Copying? && At(s', s'.claims[p]).pos == p {
      if p != s.head { assert s.claims[p] != t; }
    }
  }

  lemma ClaimConsumers(cfg: Config, s: State, t: Tid, item: Item, m: nat)
    requires ConsumerInv(cfg, s) && Safe(s, m) && s.head < m + cfg.size && s.head + 1 < WORD
    ensures ConsumerInv(cfg, Claimed(s, t, item))
  {
  }

  lemma ClaimSlots(cfg: Config, s: State, t: Tid, item: Item, m: nat)
    requires Core(cfg, s) && Bounded(cfg, s) && |item| == cfg.width
    requires Safe(s, m) && s.head < m + cfg.size
    requires Shape(cfg, Claimed(s, t, item)) && LogInv(cfg, Claimed(s, t, item))
    ensures SlotInv(cfg, Claimed(s, t, item))
  {
    var s' := Claimed(s, t, item);
    SlotFacts(cfg);
    forall p | 0 <= p < s'.head <= p + cfg.size ensures SlotHolds(cfg, s', p) {
      if p < s.head {
        assert SlotHolds(cfg, s, p);
      } else if p >= cfg.size {
        assert SlotHolds(cfg, s, p - cfg.size);
      }
    }
  }

  lemma ClaimRely(cfg: Config, s: State, t: Tid, item: Item, u: Tid)
    requires Shape(cfg, s) && LogInv(cfg, s) && Shape(cfg, Claimed(s, t, item)) && s.head + 1 < WORD && u != t
    ensures Rely(cfg, s, Claimed(s, t, item), u)
  {
  }

  /** The claim, when the compare-and-swap succeeds. */
  lemma KeepsClaim(cfg: Config, s: State, t: Tid, item: Item, m: nat)
    requires Core(cfg, s) && Bounded(cfg, s) && At(s, t) == AtCas(item, s.head, m)
    ensures Core(cfg, Claimed(s, t, item))
  {
    assert PcInv(cfg, s, t, At(s, t));
    ClaimedShape(cfg, s, t, item);
    ClaimLog(cfg, s, t, item, m);
    ClaimConsumers(cfg, s, t, item, m);
    ClaimSlots(cfg, s, t, item, m);
    forall u | u in s.threads && u != t ensures Rely(cfg, s, Claimed(s, t, item), u) {
      ClaimRely(cfg, s, t, item, u);
    }
    KeepsWrite(cfg, s, Claimed(s, t, item), t, Copying(item, s.head, {}));
  }

  lemma KeepsCas(cfg: Config, s: State, t: Tid, spurious: bool)
    requires Core(cfg, s) && Bounded(cfg, s) && Ready(cfg, s, Cas(t, spurious))
    ensures Core(cfg, Do(cfg, s, Cas(t, spurious)))
  {
    if !spurious && s.head == At(s, t).head {
      KeepsClaim(cfg, s, t, At(s, t).item, At(s, t).minTail);
    } else {
      KeepsMoved(cfg, s, t, AtLoadHead(At(s, t).item), s.minTail);
    }
  }

  /** The slot of a claimed unpublished position is no other recent position's. */
  lemma ClaimOwnsSlot(cfg: Config, s: State, p: nat, q: nat)
    requires cfg.Valid() && LogInv(cfg, s) && p in s.claims && q < s.head <= q + cfg.size && p != q
    ensures SlotOf(cfg, p) != SlotOf(cfg, q)
  {
    RingDistinct(p, q, cfg.size);
    RingDistinct(q, p, cfg.size);
  }

  lemma WriteSlots(cfg: Config, s: State, s': State, pos: nat, slot: Slot)
    requires Core(cfg, s) && Shape(cfg, s') && pos in s.claims && s'.head == s.head == |s'.log| && s'.log == s.log
    requires s'.slots == s.slots[SlotOf(cfg, pos) := slot]
    requires s'.published == s.published + (if slot.sequence == pos then {pos} else {})
    requires slot == Slot(pos, s.log[pos]) || slot.sequence == s.slots[SlotOf(cfg, pos)].sequence != pos
    ensures SlotInv(cfg, s')
  {
    SlotFacts(cfg);
    forall p | 0 <= p < s'.head <= p + cfg.size ensures SlotHolds(cfg, s', p) {
      assert SlotHolds(cfg, s, p);
      if p != pos { ClaimOwnsSlot(cfg, s, pos, p); }
    }
  }

  lemma WriteRely(cfg: Config, s: State, s': State, t: Tid, pos: nat, slot: Slot)
    requires Core(cfg, s) && Shape(cfg, s') && pos in s.claims && s.claims[pos] == t
    requires s' == s.(threads := s'.threads, slots := s.slots[SlotOf(cfg, pos) := slot],
                      published := s'.published, claims := s'.claims)
    requires s.published <= s'.published && s.claims - {pos} == s'.claims - {pos}
    ensures forall u :: u in s.threads && u != t ==> Rely(cfg, s, s', u)
  {
    forall u | u in s.threads && u != t ensures Rely(cfg, s, s', u) {
      forall p | p in s.claims && s.claims[p] == u
        ensures SlotOf(cfg, p) != SlotOf(cfg, pos) && p in s'.claims && s'.claims[p] == u
      {
        ClaimOwnsSlot(cfg, s, pos, p);
        assert p in s.claims - {pos};
      }
    }
  }

  lemma CopiedFacts(cfg: Config, s: State, t: Tid, pc: Pc, i: nat)
    requires Core(cfg, s) && At(s, t) == pc && pc.Copying? && i < cfg.width
    ensures var s' := Copied(s, t, pc, SlotOf(cfg, pc.pos), i);
            Shape(cfg, s') && PcInv(cfg, s', t, pc.(done := pc.done + {i}))
    ensures s.slots[SlotOf(cfg, pc.pos)].sequence != pc.pos && pc.pos in s.claims && s.claims[pc.pos] == t
  {
    assert PcInv(cfg, s, t, pc);
    assert SlotHolds(cfg, s, pc.pos);
  }

  lemma CopiedLog(cfg: Config, s: State, t: Tid, pc: Pc, i: nat)
    requires Shape(cfg, s) && LogInv(cfg, s) && ConsumerInv(cfg, s)
    requires At(s, t) == pc && pc.Copying? && i < cfg.width && PcShape(cfg, pc)
    ensures var s' := Copied(s, t, pc, SlotOf(cfg, pc.pos), i); LogInv(cfg, s') && ConsumerInv(cfg, s')
  {
  }

  lemma KeepsCopied(cfg: Config, s: State, t: Tid, pc: Pc, i: nat)
    requires Core(cfg, s) && At(s, t) == pc && pc.Copying? && i < cfg.width
    ensures Core(cfg, Copied(s, t, pc, SlotOf(cfg, pc.pos), i))
  {
    var j := SlotOf(cfg, pc.pos);
    var s' := Copied(s, t, pc, j, i);
    CopiedFacts(cfg, s, t, pc, i);
    WriteSlots(cfg, s, s', pc.pos, s'.slots[j]);
    WriteRely(cfg, s, s', t, pc.pos, s'.slots[j]);
    CopiedLog(cfg, s, t, pc, i);
    KeepsWrite(cfg, s, s', t, pc.(done := pc.done + {i}));
  }

  lemma PublishedFacts(cfg: Config, s: State, t: Tid, pc: Pc)
    requires Core(cfg, s) && At(s, t) == pc && pc.Copying? && AllCopied(cfg, pc.done)
    ensures Shape(cfg, Published(s, t, pc.pos, SlotOf(cfg, pc.pos)))
    ensures s.slots[SlotOf(cfg, pc.pos)].data == s.log[pc.pos]
    ensures pc.pos in s.claims && s.claims[pc.pos] == t
  {
    assert PcInv(cfg, s, t, pc);
  }

  lemma PublishedLog(cfg: Config, s: State, t: Tid, pc: Pc)
    requires Shape(cfg, s) && LogInv(cfg, s) && ConsumerInv(cfg, s)
    requires At(s, t) == pc && pc.Copying? && pc.pos in s.claims && s.claims[pc.pos] == t
    ensures LogInv(cfg, Published(s, t, pc.pos, SlotOf(cfg, pc.pos)))
    ensures ConsumerInv(cfg, Published(s, t, pc.pos, SlotOf(cfg, pc.pos)))
  {
  }

  lemma KeepsPublished(cfg: Config, s: State, t: Tid, pc: Pc)
    requires Core(cfg, s) && At(s, t) == pc && pc.Copying? && AllCopied(cfg, pc.done)
    ensures Core(cfg, Published(s, t, pc.pos, SlotOf(cfg, pc.pos)))
  {
    var j := SlotOf(cfg, pc.pos);
    var s' := Published(s, t, pc.pos, j);
    PublishedFacts(cfg, s, t, pc);
    PublishedLog(cfg, s, t, pc);
    WriteSlots(cfg, s, s', pc.pos, s'.slots[j]);
    WriteRely(cfg, s, s', t, pc.pos, s'.slots[j]);
    KeepsWrite(cfg, s, s', t, Idle);
  }

  // ---------------------------------------------------------------------------------------------
  // Registration
  // ---------------------------------------------------------------------------------------------

  /** A step of thread t's registration of consumer id: it changes nothing but what registrations change. */
  ghost predicate JoinStep(cfg: Config, s: State, s': State, t: Tid, id: nat) {
    && Shape(cfg, s) && Shape(cfg, s') && id < MAX_CONSUMERS && id < s'.numConsumers
    && !s.consumers[id].active && !s'.consumers[id].active
    && s' == s.(threads := s.threads[t := At(s', t)], consumers := s.consumers[id := s'.consumers[id]],
                numConsumers := s'.numConsumers, joining := s.joining[id := t], joins := s.joins[id := s'.joins[id]])
    && s.numConsumers <= s'.numConsumers && Registering(At(s', t)) && At(s', t).id == id
    && if id in s.joining then s.joining[id] == t && Registering(At(s, t)) && At(s, t).id == id
       else id >= s.numConsumers && At(s, t).Idle?
  }

  lemma JoinRely(cfg: Config, s: State, s': State, t: Tid, id: nat, u: Tid)
    requires Core(cfg, s) && JoinStep(cfg, s, s', t, id) && u != t
    ensures Rely(cfg, s, s', u)
  {
  }

  lemma JoinJoining(cfg: Config, s: State, s': State, t: Tid, id: nat)
    requires JoiningInv(s) && JoinStep(cfg, s, s', t, id)
    ensures JoiningInv(s')
  {
  }

  lemma JoinThreads(cfg: Config, s: State, s': State, t: Tid, id: nat)
    requires Core(cfg, s) && JoinStep(cfg, s, s', t, id) && PcInv(cfg, s', t, At(s', t))
    ensures ThreadsInv(cfg, s')
  {
    forall u | u in s.threads && u != t ensures Rely(cfg, s, s', u) {
      JoinRely(cfg, s, s', t, id, u);
    }
    PcsKept(cfg, s, s', t);
    JoinJoining(cfg, s, s', t, id);
  }

  lemma KeepsJoin(cfg: Config, s: State, s': State, t: Tid, id: nat)
    requires Core(cfg, s) && JoinStep(cfg, s, s', t, id) && PcInv(cfg, s', t, At(s', t)) && ConsumerInv(cfg, s')
    ensures Core(cfg, s')
  {
    JoinThreads(cfg, s, s', t, id);
    LogKept(cfg, s, s');
    SlotsKept(cfg, s, s');
    PopsKept(cfg, s, s');
  }

  lemma KeepsIdTaken(cfg: Config, s: State, t: Tid)
    requires Core(cfg, s) && At(s, t).Idle? && s.numConsumers < MAX_CONSUMERS
    ensures Core(cfg, IdTaken(s, t))
  {
    KeepsJoin(cfg, s, IdTaken(s, t), t, s.numConsumers);
  }

  lemma RefusedThreads(cfg: Config, s: State)
    requires Core(cfg, s) && s.numConsumers >= MAX_CONSUMERS
    ensures Shape(cfg, s.(numConsumers := s.numConsumers + 1))
    ensures ThreadsInv(cfg, s.(numConsumers := s.numConsumers + 1))
  {
    var s' := s.(numConsumers := s.numConsumers + 1);
    assert Shape(cfg, s');
    forall u | u in s'.threads ensures PcInv(cfg, s', u, s'.threads[u]) {
      PcStable(cfg, s, s', u, s.threads[u]);
    }
  }

  lemma KeepsRefused(cfg: Config, s: State)
    requires Core(cfg, s) && s.numConsumers >= MAX_CONSUMERS
    ensures Core(cfg, s.(numConsumers := s.numConsumers + 1))
  {
    var s' := s.(numConsumers := s.numConsumers + 1);
    RefusedThreads(cfg, s);
    LogKept(cfg, s, s');
    SlotsKept(cfg, s, s');
    PopsKept(cfg, s, s');
  }

  lemma KeepsRegisterLoad(cfg: Config, s: State, t: Tid)
    requires Core(cfg, s) && Ready(cfg, s, RegisterLoad(t))
    ensures Core(cfg, Do(cfg, s, RegisterLoad(t)))
  {
    assert PcInv(cfg, s, t, At(s, t));
    KeepsMoved(cfg, s, t, AtRegisterTail(At(s, t).id, s.head), s.minTail);
  }

  lemma KeepsBeginRegister(cfg: Config, s: State, t: Tid)
    requires Core(cfg, s) && Ready(cfg, s, BeginRegister(t))
    ensures Core(cfg, Do(cfg, s, BeginRegister(t)))
  {
    hide Core;
    if s.numConsumers >= MAX_CONSUMERS { KeepsRefused(cfg, s); } else { KeepsIdTaken(cfg, s, t); }
  }

  lemma TailSetConsumers(cfg: Config, s: State, t: Tid, id: nat, head: nat)
    requires Shape(cfg, s) && ConsumerInv(cfg, s) && id < MAX_CONSUMERS && id in s.joining && head <= s.head
    ensures Shape(cfg, TailSet(s, t, id, head)) && ConsumerInv(cfg, TailSet(s, t, id, head))
  {
  }

  lemma KeepsTailSet(cfg: Config, s: State, t: Tid)
    requires Core(cfg, s) && At(s, t).AtRegisterTail?
    ensures Core(cfg, TailSet(s, t, At(s, t).id, At(s, t).head))
  {
    assert PcInv(cfg, s, t, At(s, t));
    var id := At(s, t).id;
    TailSetConsumers(cfg, s, t, id, At(s, t).head);
    assert s.joining[id := t] == s.joining;
    KeepsJoin(cfg, s, TailSet(s, t, id, At(s, t).head), t, id);
  }

  lemma KeepsRegister(cfg: Config, s: State, step: Step)
    requires Core(cfg, s) && Ready(cfg, s, step)
    requires step.BeginRegister? || step.RegisterLoad? || step.RegisterTail?
    ensures Core(cfg, Do(cfg, s, step))
  {
    hide Core;
    match step {
      case BeginRegister(t) => KeepsBeginRegister(cfg, s, t);
      case RegisterLoad(t) => KeepsRegisterLoad(cfg, s, t);
      case RegisterTail(t) => KeepsTailSet(cfg, s, t);
    }
  }

  // ---------------------------------------------------------------------------------------------
  // Pops
  // ---------------------------------------------------------------------------------------------

  lemma ConsumerThreads(cfg: Config, s: State, s': State, c: nat)
    requires Core(cfg, s) && c < MAX_CONSUMERS && |s'.consumers| == MAX_CONSUMERS
    requires s' == SetPop(s, c, PopIdle).(consumers := s.consumers[c := s'.consumers[c]])
    requires s.consumers[c].tail <= s'.consumers[c].tail < WORD
    requires s'.consumers[c].active ==> s.consumers[c].active
    requires s'.consumers[c].tail != s.consumers[c].tail ==> s.consumers[c].active
    ensures Shape(cfg, s') && ThreadsInv(cfg, s')
  {
    assert Shape(cfg, s');
    forall u | u in s'.threads ensures PcInv(cfg, s', u, s'.threads[u]) {
      forall id | id in s.joining && s.joining[id] == u && id < MAX_CONSUMERS
        ensures s'.consumers[id].tail == s.consumers[id].tail
      {
        assert PcInv(cfg, s, u, At(s, u));
      }
      PcStable(cfg, s, s', u, s.threads[u]);
    }
  }

  lemma ConsumerMoved(cfg: Config, s: State, c: nat, to: Consumer)
    requires Shape(cfg, s) && ConsumerInv(cfg, s) && Safe(s, s.minTail) && c < MAX_CONSUMERS
    requires s.consumers[c].tail <= to.tail <= s.head && (to.active ==> s.consumers[c].active)
    requires c !in s.joining ==> PublishedBelow(s, to.tail)
    ensures var s' := SetPop(s, c, PopIdle).(consumers := s.consumers[c := to]);
            ConsumerInv(cfg, s') && Safe(s', s'.minTail)
  {
  }

  /** A step that changes one consumer's tail or active flag: what remains to be shown. */
  lemma KeepsConsumer(cfg: Config, s: State, c: nat, to: Consumer)
    requires Core(cfg, s) && c < MAX_CONSUMERS
    requires s.consumers[c].tail <= to.tail <= s.head && to.tail < WORD
    requires c !in s.joining ==> PublishedBelow(s, to.tail)
    requires to.active ==> s.consumers[c].active
    requires to.tail != s.consumers[c].tail ==> s.consumers[c].active
    ensures Core(cfg, SetPop(s, c, PopIdle).(consumers := s.consumers[c := to]))
  {
    var s' := SetPop(s, c, PopIdle).(consumers := s.consumers[c := to]);
    ConsumerThreads(cfg, s, s', c);
    ConsumerMoved(cfg, s, c, to);
    LogKept(cfg, s, s');
    SlotsKept(cfg, s, s');
    PopsKept(cfg, s, s');
  }

  /** The caller unregisters between pops. */
  predicate BetweenPops(s: State, step: Step)
    requires step.Unregister? ==> step.c < |s.pops|
  {
    step.Unregister? ==> s.pops[step.c].PopIdle?
  }

  lemma KeepsPopEarly(cfg: Config, s: State, step: Step)
    requires Core(cfg, s) && (step.PopBegin? || step.PopTail?) && Ready(cfg, s, step)
    ensures Core(cfg, Do(cfg, s, step))
  {
    var c := step.c;
    assert PopInv(cfg, s, c, s.pops[c]);
    if step.PopTail? || s.consumers[c].active {
      KeepsPop(cfg, s, c, Do(cfg, s, step).pops[c]);
    }
  }

  /** The slot that pop looks at holds position tail exactly when tail is published. */
  lemma SequenceTells(cfg: Config, s: State, c: nat)
    requires Core(cfg, s) && Bounded(cfg, s) && c < MAX_CONSUMERS && s.consumers[c].active
    ensures var tail := s.consumers[c].tail;
            s.slots[SlotOf(cfg, tail)].sequence == tail <==> tail in s.published
  {
    var tail := s.consumers[c].tail;
    if tail in s.published {
      assert SlotHolds(cfg, s, tail);
    }
  }

  lemma KeepsPopSequence(cfg: Config, s: State, c: nat)
    requires Core(cfg, s) && Bounded(cfg, s) && Ready(cfg, s, PopSequence(c))
    ensures Core(cfg, Do(cfg, s, PopSequence(c)))
  {
    assert PopInv(cfg, s, c, s.pops[c]);
    SequenceTells(cfg, s, c);
    KeepsPop(cfg, s, c, Do(cfg, s, PopSequence(c)).pops[c]);
  }

  lemma KeepsPopByte(cfg: Config, s: State, c: nat, i: nat)
    requires Core(cfg, s) && Ready(cfg, s, PopByte(c, i))
    ensures Core(cfg, Do(cfg, s, PopByte(c, i)))
  {
    assert PopInv(cfg, s, c, s.pops[c]);
    assert SlotHolds(cfg, s, s.pops[c].tail);
    KeepsPop(cfg, s, c, Do(cfg, s, PopByte(c, i)).pops[c]);
  }

  lemma KeepsPopStore(cfg: Config, s: State, c: nat)
    requires Core(cfg, s) && Bounded(cfg, s) && Ready(cfg, s, PopStore(c))
    ensures Core(cfg, Do(cfg, s, PopStore(c)))
  {
    assert PopInv(cfg, s, c, s.pops[c]);
    var to := s.consumers[c].(tail := s.consumers[c].tail + 1);
    KeepsConsumer(cfg, s, c, to);
    assert Do(cfg, s, PopStore(c)) == SetPop(s, c, PopIdle).(consumers := s.consumers[c := to]);
  }

  lemma KeepsUnregister(cfg: Config, s: State, c: nat)
    requires Core(cfg, s) && c < MAX_CONSUMERS && s.pops[c].PopIdle?
    ensures Core(cfg, Do(cfg, s, Unregister(c)))
  {
    KeepsConsumer(cfg, s, c, s.consumers[c].(active := false));
    assert s.pops[c := PopIdle] == s.pops;
  }

  lemma KeepsPops(cfg: Config, s: State, step: Step)
    requires Core(cfg, s) && Bounded(cfg, s) && Ready(cfg, s, step) && BetweenPops(s, step)
    requires step.Unregister? || step.PopBegin? || step.PopTail? || step.PopSequence? || step.PopByte? || step.PopStore?
    ensures Core(cfg, Do(cfg, s, step))
  {
    hide Core;
    match step {
      case Unregister(c) => KeepsUnregister(cfg, s, c);
      case PopSequence(c) => KeepsPopSequence(cfg, s, c);
      case PopByte(c, i) => KeepsPopByte(cfg, s, c, i);
      case PopStore(c) => KeepsPopStore(cfg, s, c);
      case _ => KeepsPopEarly(cfg, s, step);
    }
  }

  lemma KeepsScan(cfg: Config, s: State, step: Step)
    requires Core(cfg, s) && Bounded(cfg, s) && Ready(cfg, s, step)
    requires step.ScanLoad? || step.ScanFinish? || step.StoreMin?
    ensures Core(cfg, Do(cfg, s, step))
  {
    match step {
      case ScanLoad(t) => KeepsScanLoad(cfg, s, t);
      case ScanFinish(t) => KeepsScanFinish(cfg, s, t);
      case StoreMin(t) => KeepsStoreMin(cfg, s, t);
    }
  }

  lemma KeepsWrites(cfg: Config, s: State, step: Step)
    requires Core(cfg, s) && Bounded(cfg, s) && Ready(cfg, s, step)
    requires step.Cas? || step.CopyByte? || step.Publish?
    ensures Core(cfg, Do(cfg, s, step))
  {
    match step {
      case Cas(t, spurious) => KeepsCas(cfg, s, t, spurious);
      case CopyByte(t, i) => KeepsCopied(cfg, s, t, At(s, t), i);
      case Publish(t) => KeepsPublished(cfg, s, t, At(s, t));
    }
  }

  /** Every step but the activation of a consumer keeps safety, as long as positions stay below 2^64 - SIZE - 1. */
  lemma StepKeepsCore(cfg: Config, s: State, step: Step)
    requires Core(cfg, s) && Bounded(cfg, s) && Ready(cfg, s, step) && BetweenPops(s, step) && !step.RegisterActivate?
    ensures Core(cfg, Do(cfg, s, step))
  {
    hide Core;
    if step.BeginPush? || step.BeginRefresh? {
      KeepsBegin(cfg, s, step);
    } else if step.LoadHead? || step.LoadMin? {
      KeepsLoad(cfg, s, step);
    } else if step.ScanLoad? || step.ScanFinish? || step.StoreMin? {
      KeepsScan(cfg, s, step);
    } else if step.Cas? || step.CopyByte? || step.Publish? {
      KeepsWrites(cfg, s, step);
    } else if step.BeginRegister? || step.RegisterLoad? || step.RegisterTail? {
      KeepsRegister(cfg, s, step);
    } else {
      KeepsPops(cfg, s, step);
    }
  }

  // ---------------------------------------------------------------------------------------------
  // The activation of a consumer
  // ---------------------------------------------------------------------------------------------

  /** What a thread holds of min_tail, or may yet store there, is at most h, or will still see consumer id. */
  predicate HoldsBelow(pc: Pc, id: nat, h: nat)
    requires pc.Scanning? ==> |pc.scan.acc| == 4
  {
    match pc
    case Scanning(job, scan) => (job.PushJob? ==> job.minTail <= h) && (id < scan.index ==> Combine(scan.acc) <= h)
    case AtStoreMin(job, result, start) => (job.PushJob? ==> job.minTail <= h) && result <= h
    case AtCas(item, head, minTail) => minTail <= h
    case _ => true
  }

  /** Consumer id may become active at its tail: everything below is published, head is within SIZE of it, and neither
      min_tail nor what any thread holds of it is past it. */
  ghost predicate JoinOk(cfg: Config, s: State, id: nat)
    requires Shape(cfg, s) && id < MAX_CONSUMERS
  {
    var h := s.consumers[id].tail;
    && PublishedBelow(s, h)
    && s.head <= h + cfg.size
    && s.minTail <= h
    && forall t :: t in s.threads ==> HoldsBelow(s.threads[t], id, h)
  }

  lemma ActivatedPc(cfg: Config, s: State, t: Tid, id: nat, u: Tid)
    requires Core(cfg, s) && At(s, t) == AtRegisterActivate(id) && JoinOk(cfg, s, id) && u in s.threads && u != t
    ensures Shape(cfg, Activated(s, t, id)) && PcInv(cfg, Activated(s, t, id), u, s.threads[u])
  {
    assert PcInv(cfg, s, t, At(s, t));
    assert PcInv(cfg, s, u, s.threads[u]) && HoldsBelow(s.threads[u], id, s.consumers[id].tail);
  }

  lemma ActivatedThreads(cfg: Config, s: State, t: Tid, id: nat)
    requires Core(cfg, s) && At(s, t) == AtRegisterActivate(id) && JoinOk(cfg, s, id)
    ensures Shape(cfg, Activated(s, t, id)) && ThreadsInv(cfg, Activated(s, t, id))
  {
    var s' := Activated(s, t, id);
    assert PcInv(cfg, s, t, At(s, t));
    forall u | u in s'.threads ensures PcInv(cfg, s', u, s'.threads[u]) {
      if u != t { ActivatedPc(cfg, s, t, id, u); }
    }
    assert JoiningInv(s');
  }

  lemma ActivatedConsumers(cfg: Config, s: State, t: Tid, id: nat)
    requires Shape(cfg, s) && ConsumerInv(cfg, s) && Safe(s, s.minTail) && id < s.numConsumers && id < MAX_CONSUMERS
    requires JoinOk(cfg, s, id)
    ensures ConsumerInv(cfg, Activated(s, t, id)) && Safe(Activated(s, t, id), s.minTail)
  {
  }

  lemma ActivatedKeeps(cfg: Config, s: State, t: Tid, id: nat)
    requires Core(cfg, s) && At(s, t) == AtRegisterActivate(id) && JoinOk(cfg, s, id)
    ensures Core(cfg, Activated(s, t, id))
  {
    var s' := Activated(s, t, id);
    assert PcInv(cfg, s, t, At(s, t));
    ActivatedThreads(cfg, s, t, id);
    ActivatedConsumers(cfg, s, t, id);
    LogKept(cfg, s, s');
    SlotsKept(cfg, s, s');
    PopsKept(cfg, s, s');
  }

  lemma ActivatedNeeds(cfg: Config, s: State, t: Tid, id: nat)
    requires Shape(cfg, s) && At(s, t) == AtRegisterActivate(id) && id < MAX_CONSUMERS && Core(cfg, Activated(s, t, id))
    ensures JoinOk(cfg, s, id)
  {
    var s' := Activated(s, t, id);
    var h := s.consumers[id].tail;
    assert s'.consumers[id] == Consumer(h, true) && id !in s'.joining;
    assert PublishedBelow(s', h);
    forall u | u in s.threads ensures HoldsBelow(s.threads[u], id, h) {
      if u != t { assert PcInv(cfg, s', u, s'.threads[u]); }
    }
  }

  /** The activation of a consumer keeps safety exactly when the position it loaded earlier is still safe to join at. */
  lemma JoinSafeExactly(cfg: Config, s: State, t: Tid)
    requires Core(cfg, s) && Ready(cfg, s, RegisterActivate(t))
    ensures Core(cfg, Do(cfg, s, RegisterActivate(t))) <==> JoinOk(cfg, s, At(s, t).id)
  {
    var id := At(s, t).id;
    if JoinOk(cfg, s, id) { ActivatedKeeps(cfg, s, t, id); }
    if Core(cfg, Activated(s, t, id)) { ActivatedNeeds(cfg, s, t, id); }
  }

  // ---------------------------------------------------------------------------------------------
  // How far the users of the queue keep to its rules
  // ---------------------------------------------------------------------------------------------

  datatype Rule = Anything | SafeJoins | InRegime | ButRegistrations | ButPushes

  /** Anything that a thread is ready for; joins at safe positions only; the regime; and the regime except that
      registrations, or pushes, begin when they like. */
  ghost predicate Permits(cfg: Config, rule: Rule, s: State, step: Step)
    requires Shape(cfg, s) && Ready(cfg, s, step)
  {
    match rule
    case Anything => true
    case SafeJoins => BetweenPops(s, step) && (step.RegisterActivate? ==> JoinOk(cfg, s, At(s, step.t).id))
    case InRegime => Regime(s, step)
    case ButRegistrations => step.BeginRegister? || Regime(s, step)
    case ButPushes => step.BeginPush? || Regime(s, step)
  }

  /** Joins at safe positions are all that safety needs. */
  lemma SafeJoinsKeepCore(cfg: Config, s: State, step: Step)
    requires Core(cfg, s) && Bounded(cfg, s) && Ready(cfg, s, step) && Permits(cfg, SafeJoins, s, step)
    ensures Core(cfg, Do(cfg, s, step))
  {
    if step.RegisterActivate? {
      JoinSafeExactly(cfg, s, step.t);
    } else {
      StepKeepsCore(cfg, s, step);
    }
  }
}
