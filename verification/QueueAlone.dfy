/** Every execution of a call that runs alone, whatever its spurious failures and the order of its copies. */
module QueueAlone {
  import opened Bytes
  import opened RingIndex
  import opened TailScan
  import opened QueueModel
  import opened QueueCore
  import opened QueueInvariant
  import opened QueueSolo

  /** A step of thread t that begins no call. */
  predicate Continues(step: Step, t: Tid) {
    MovedBy(step, t) && !step.BeginPush? && !step.BeginRefresh? && !step.BeginRegister?
  }

  /** The steps are one call of thread t, from its first step on. */
  predicate IsCall(steps: seq<Step>, begin: Step, t: Tid) {
    steps != [] && steps[0] == begin && forall i :: 1 <= i < |steps| ==> Continues(steps[i], t)
  }

  // ---------------------------------------------------------------------------------------------
  // A scan
  // ---------------------------------------------------------------------------------------------

  /** The accumulators hold what the consumers before the next one give; one that was seen active is active. */
  predicate LanesUpto(cs: seq<Consumer>, scan: Scan) {
    && |scan.acc| == 4 && scan.index <= |cs| && (scan.sawActive ==> scan.index < |cs| && cs[scan.index].active)
    && forall k :: 0 <= k < 4 ==> scan.acc[k] == Lane(cs[..scan.index], k)
  }

  lemma ScanLoadLanes(cs: seq<Consumer>, scan: Scan)
    requires LanesUpto(cs, scan) && scan.index < |cs|
    ensures LanesUpto(cs, ScanStep(cs, scan))
  {
    LaneNext(cs, scan.index);
  }

  lemma LanesDone(cs: seq<Consumer>, scan: Scan)
    requires LanesUpto(cs, scan) && scan.index == |cs|
    ensures OrZero(Combine(scan.acc)) == ScalarMin(cs)
  {
    assert cs[..|cs|] == cs;
    LanesCombine(cs);
    assert scan.acc == [scan.acc[0], scan.acc[1], scan.acc[2], scan.acc[3]];
  }

  lemma {:induction false} ScanStays(cfg: Config, s0: State, t: Tid, job: Job, scan: Scan, steps: seq<Step>, s: State)
    requires Shape(cfg, s0) && LanesUpto(s0.consumers, scan)
    requires Leads(cfg, Anything, Go(s0, t, Scanning(job, scan)), steps, s)
    requires forall i :: 0 <= i < |steps| ==> steps[i] == ScanLoad(t)
    ensures At(s, t).Scanning? && At(s, t).job == job && At(s, t).scan.start == scan.start
    ensures s == Go(s0, t, At(s, t)) && LanesUpto(s0.consumers, At(s, t).scan)
    decreases |steps|
  {
    if steps != [] {
      var scan' := ScanStep(s0.consumers, scan);
      ScanLoadLanes(s0.consumers, scan);
      GoTwice(s0, t, Scanning(job, scan), Scanning(job, scan'));
      ScanStays(cfg, s0, t, job, scan', steps[1..], s);
    }
  }

  /** Every scan of consumers that do not change, from its first load to its last, ends with the scalar minimum. */
  lemma ScanAlways(cfg: Config, s0: State, t: Tid, job: Job, steps: seq<Step>, s: State)
    requires Shape(cfg, s0) && Leads(cfg, Anything, Go(s0, t, Scanning(job, NewScan(s0))), steps, s)
    requires forall i :: 0 <= i < |steps| ==> steps[i] == ScanLoad(t)
    ensures At(s, t).Scanning? && At(s, t).job == job && s == Go(s0, t, At(s, t)) && |At(s, t).scan.acc| == 4
    ensures At(s, t).scan.index == MAX_CONSUMERS ==> OrZero(Combine(At(s, t).scan.acc)) == ScalarMin(s0.consumers)
  {
    ScanStays(cfg, s0, t, job, NewScan(s0), steps, s);
    if At(s, t).scan.index == MAX_CONSUMERS { LanesDone(s0.consumers, At(s, t).scan); }
  }

  // ---------------------------------------------------------------------------------------------
  // A push
  // ---------------------------------------------------------------------------------------------

  /** The push has not claimed; min_tail is as it was, or refreshed and not full. */
  predicate Looking(cfg: Config, s0: State, t: Tid, s: State)
    requires Shape(cfg, s0) && SoloMin(cfg, s0) < WORD
  {
    && s == Go(s0.(minTail := s.minTail), t, At(s, t))
    && (s.minTail == s0.minTail || (s.minTail == SoloMin(cfg, s0) && !SoloPushFails(cfg, s0)))
  }

  /** The push has claimed, and the bytes in done are in its slot. */
  predicate Filling(cfg: Config, s0: State, t: Tid, item: Item, s: State)
    requires Shape(cfg, s0) && SoloMin(cfg, s0) < WORD && At(s, t).Copying?
  {
    var j := SlotOf(cfg, s0.head);
    && !SoloPushFails(cfg, s0) && At(s, t).item == item && At(s, t).pos == s0.head
    && |s.slots| == |s0.slots| && |s.slots[j].data| == cfg.width == |item|
    && s == Go(Claimed(s0.(minTail := SoloMin(cfg, s0)), t, item), t, At(s, t))
            .(slots := s0.slots[j := Slot(s0.slots[j].sequence, s.slots[j].data)])
    && forall i :: 0 <= i < cfg.width && i in At(s, t).done ==> s.slots[j].data[i] == item[i]
  }

  /** Where a push that runs alone can be. */
  ghost predicate PushPoint(cfg: Config, s0: State, t: Tid, item: Item, s: State)
    requires Shape(cfg, s0) && SoloMin(cfg, s0) < WORD
  {
    match At(s, t)
    case AtLoadHead(i) => i == item && Looking(cfg, s0, t, s)
    case AtLoadMin(i, h) => i == item && h == s0.head && Looking(cfg, s0, t, s)
    case Scanning(job, scan) =>
      && job == PushJob(item, s0.head, s0.minTail) && Full(cfg, s0.head, s0.minTail)
      && s == Go(s0, t, At(s, t)) && LanesUpto(s0.consumers, scan)
    case AtStoreMin(job, result, start) =>
      && job == PushJob(item, s0.head, s0.minTail) && Full(cfg, s0.head, s0.minTail)
      && s == Go(s0, t, At(s, t)) && result == ScalarMin(s0.consumers)
    case AtCas(i, h, m) =>
      && i == item && h == s0.head && m == s.minTail == SoloMin(cfg, s0)
      && !SoloPushFails(cfg, s0) && Looking(cfg, s0, t, s)
    case Copying(i, pos, done) => Filling(cfg, s0, t, item, s)
    case Idle => s == SoloPush(cfg, s0, t, item)
    case _ => false
  }

  lemma PushLooks(cfg: Config, s0: State, t: Tid, item: Item, s: State, step: Step)
    requires Shape(cfg, s0) && SoloMin(cfg, s0) < WORD && |item| == cfg.width && PushPoint(cfg, s0, t, item, s)
    requires Shape(cfg, s) && Ready(cfg, s, step) && (step == LoadHead(t) || step == LoadMin(t))
    ensures PushPoint(cfg, s0, t, item, Do(cfg, s, step))
  {
    GoTwice(s0.(minTail := s.minTail), t, At(s, t), At(Do(cfg, s, step), t));
    if step.LoadMin? && Full(cfg, s0.head, s.minTail) {
      assert s0.(minTail := s.minTail) == s0;
    }
  }

  lemma PushScans(cfg: Config, s0: State, t: Tid, item: Item, s: State, step: Step)
    requires Shape(cfg, s0) && SoloMin(cfg, s0) < WORD && |item| == cfg.width && PushPoint(cfg, s0, t, item, s)
    requires Shape(cfg, s) && Ready(cfg, s, step)
    requires (step == ScanLoad(t) || step == ScanFinish(t) || step == StoreMin(t))
    ensures PushPoint(cfg, s0, t, item, Do(cfg, s, step))
  {
    GoTwice(s0, t, At(s, t), At(Do(cfg, s, step), t));
    if step.ScanLoad? {
      ScanLoadLanes(s0.consumers, At(s, t).scan);
    } else if step.ScanFinish? {
      LanesDone(s0.consumers, At(s, t).scan);
      assert s0.(minTail := s0.minTail) == s0;
    }
  }

  lemma PushFills(cfg: Config, s0: State, t: Tid, item: Item, s: State, i: nat)
    requires Shape(cfg, s0) && SoloMin(cfg, s0) < WORD && |item| == cfg.width && PushPoint(cfg, s0, t, item, s)
    requires Shape(cfg, s) && Ready(cfg, s, CopyByte(t, i))
    ensures PushPoint(cfg, s0, t, item, Do(cfg, s, CopyByte(t, i)))
  {
    var c := Claimed(s0.(minTail := SoloMin(cfg, s0)), t, item);
    GoTwice(c, t, At(s, t), At(Do(cfg, s, CopyByte(t, i)), t));
  }

  lemma PushClaims(cfg: Config, s0: State, t: Tid, item: Item, s: State, spurious: bool)
    requires Shape(cfg, s0) && SoloMin(cfg, s0) < WORD && |item| == cfg.width && PushPoint(cfg, s0, t, item, s)
    requires Shape(cfg, s) && Ready(cfg, s, Cas(t, spurious))
    ensures PushPoint(cfg, s0, t, item, Do(cfg, s, Cas(t, spurious)))
  {
    var r := s0.(minTail := s.minTail);
    GoTwice(r, t, At(s, t), At(Do(cfg, s, Cas(t, spurious)), t));
    if !spurious {
      var j := SlotOf(cfg, s0.head);
      assert s0.slots[j := Slot(s0.slots[j].sequence, s0.slots[j].data)] == s0.slots;
      GoTwice(r, t, Copying(item, s0.head, {}), Copying(item, s0.head, {}));
    }
  }

  lemma PushPublishes(cfg: Config, s0: State, t: Tid, item: Item, s: State)
    requires Shape(cfg, s0) && SoloMin(cfg, s0) < WORD && |item| == cfg.width && PushPoint(cfg, s0, t, item, s)
    requires Shape(cfg, s) && Ready(cfg, s, Publish(t))
    ensures Do(cfg, s, Publish(t)) == SoloPush(cfg, s0, t, item)
  {
    var j, r := SlotOf(cfg, s0.head), s0.(minTail := SoloMin(cfg, s0));
    assert s.slots[j].data == item;
    GoTwice(Claimed(r, t, item), t, At(s, t), Idle);
    GoTwice(r, t, Copying(item, s0.head, {}), Idle);
    assert s0.claims[s0.head := t] - {s0.head} == s0.claims - {s0.head};
  }

  lemma PushStays(cfg: Config, s0: State, t: Tid, item: Item, s: State, step: Step)
    requires Shape(cfg, s0) && SoloMin(cfg, s0) < WORD && |item| == cfg.width && PushPoint(cfg, s0, t, item, s)
    requires Shape(cfg, s) && Ready(cfg, s, step) && Continues(step, t)
    ensures PushPoint(cfg, s0, t, item, Do(cfg, s, step))
  {
    match step {
      case LoadHead(u) => PushLooks(cfg, s0, t, item, s, step);
      case LoadMin(u) => PushLooks(cfg, s0, t, item, s, step);
      case CopyByte(u, i) => PushFills(cfg, s0, t, item, s, i);
      case Cas(u, spurious) => PushClaims(cfg, s0, t, item, s, spurious);
      case Publish(u) => PushPublishes(cfg, s0, t, item, s);
      case _ => PushScans(cfg, s0, t, item, s, step);
    }
  }

  lemma {:induction false} PushStaysAlong(cfg: Config, s0: State, t: Tid, item: Item, s: State, steps: seq<Step>,
                                          s': State)
    requires Shape(cfg, s0) && SoloMin(cfg, s0) < WORD && |item| == cfg.width && PushPoint(cfg, s0, t, item, s)
    requires Leads(cfg, Anything, s, steps, s') && forall i :: 0 <= i < |steps| ==> Continues(steps[i], t)
    ensures PushPoint(cfg, s0, t, item, s')
    decreases |steps|
  {
    if steps != [] {
      PushStays(cfg, s0, t, item, s, steps[0]);
      PushStaysAlong(cfg, s0, t, item, Do(cfg, s, steps[0]), steps[1..], s');
    }
  }

  /** Every push that runs alone and returns leaves the state that the class contract names. */
  lemma PushAlways(cfg: Config, s: State, t: Tid, item: Item, steps: seq<Step>, s': State)
    requires Shape(cfg, s) && IsCall(steps, BeginPush(t, item), t) && Leads(cfg, Anything, s, steps, s')
    requires At(s', t).Idle?
    ensures SoloMin(cfg, s) < WORD && s' == SoloPush(cfg, s, t, item)
  {
    ScalarMinWord(cfg, s);
    assert s.(minTail := s.minTail) == s;
    PushStaysAlong(cfg, s, t, item, Do(cfg, s, steps[0]), steps[1..], s');
  }

  // ---------------------------------------------------------------------------------------------
  // A refresh and a registration
  // ---------------------------------------------------------------------------------------------

  ghost predicate RefreshPoint(cfg: Config, s0: State, t: Tid, s: State)
    requires Shape(cfg, s0)
  {
    match At(s, t)
    case Scanning(job, scan) => job.RefreshJob? && s == Go(s0, t, At(s, t)) && LanesUpto(s0.consumers, scan)
    case AtStoreMin(job, result, start) =>
      job.RefreshJob? && s == Go(s0, t, At(s, t)) && result == ScalarMin(s0.consumers)
    case Idle => s == Go(s0.(minTail := ScalarMin(s0.consumers)), t, Idle)
    case _ => false
  }

  lemma RefreshStays(cfg: Config, s0: State, t: Tid, s: State, step: Step)
    requires Shape(cfg, s0) && RefreshPoint(cfg, s0, t, s) && Shape(cfg, s) && Ready(cfg, s, step) && Continues(step, t)
    ensures RefreshPoint(cfg, s0, t, Do(cfg, s, step))
  {
    GoTwice(s0, t, At(s, t), At(Do(cfg, s, step), t));
    if step.ScanLoad? {
      ScanLoadLanes(s0.consumers, At(s, t).scan);
    } else if step.ScanFinish? {
      LanesDone(s0.consumers, At(s, t).scan);
    }
  }

  lemma {:induction false} RefreshStaysAlong(cfg: Config, s0: State, t: Tid, s: State, steps: seq<Step>, s': State)
    requires Shape(cfg, s0) && RefreshPoint(cfg, s0, t, s)
    requires Leads(cfg, Anything, s, steps, s') && forall i :: 0 <= i < |steps| ==> Continues(steps[i], t)
    ensures RefreshPoint(cfg, s0, t, s')
    decreases |steps|
  {
    if steps != [] {
      RefreshStays(cfg, s0, t, s, steps[0]);
      RefreshStaysAlong(cfg, s0, t, Do(cfg, s, steps[0]), steps[1..], s');
    }
  }

  /** Every refresh that runs alone and returns has stored the scalar minimum. */
  lemma RefreshAlways(cfg: Config, s: State, t: Tid, steps: seq<Step>, s': State)
    requires Shape(cfg, s) && IsCall(steps, BeginRefresh(t), t) && Leads(cfg, Anything, s, steps, s') && At(s', t).Idle?
    ensures s' == Go(s.(minTail := ScalarMin(s.consumers)), t, Idle)
  {
    RefreshStaysAlong(cfg, s, t, Do(cfg, s, steps[0]), steps[1..], s');
  }

  ghost predicate RegisterPoint(s0: State, t: Tid, s: State)
    requires |s0.consumers| == |s0.joins| == MAX_CONSUMERS
  {
    var id := s0.numConsumers;
    match At(s, t)
    case AtRegisterLoad(i) => i == id < MAX_CONSUMERS && s == IdTaken(s0, t)
    case AtRegisterTail(i, h) => i == id < MAX_CONSUMERS && h == s0.head && s == Go(IdTaken(s0, t), t, At(s, t))
    case AtRegisterActivate(i) => i == id < MAX_CONSUMERS && s == AboutToJoin(s0, t)
    case Idle => s == SoloRegister(s0, t)
    case _ => false
  }

  lemma RegisterStays(cfg: Config, s0: State, t: Tid, s: State, step: Step)
    requires Shape(cfg, s0) && RegisterPoint(s0, t, s) && Shape(cfg, s) && Ready(cfg, s, step) && Continues(step, t)
    ensures RegisterPoint(s0, t, Do(cfg, s, step))
  {
    if step.RegisterActivate? { AboutToJoinActivates(s0, t); }
  }

  lemma {:induction false} RegisterStaysAlong(cfg: Config, s0: State, t: Tid, s: State, steps: seq<Step>, s': State)
    requires Shape(cfg, s0) && RegisterPoint(s0, t, s)
    requires Leads(cfg, Anything, s, steps, s') && forall i :: 0 <= i < |steps| ==> Continues(steps[i], t)
    ensures RegisterPoint(s0, t, s')
    decreases |steps|
  {
    if steps != [] {
      RegisterStays(cfg, s0, t, s, steps[0]);
      RegisterStaysAlong(cfg, s0, t, Do(cfg, s, steps[0]), steps[1..], s');
    }
  }

  /** Every registration that runs alone and returns activates the next id at head, or is refused past 32. */
  lemma RegisterAlways(cfg: Config, s: State, t: Tid, steps: seq<Step>, s': State)
    requires Shape(cfg, s) && IsCall(steps, BeginRegister(t), t) && Leads(cfg, Anything, s, steps, s')
    requires At(s', t).Idle?
    ensures s' == SoloRegister(s, t)
    ensures s'.numConsumers == s.numConsumers + 1 && s'.head == s.head && s'.log == s.log && s'.minTail == s.minTail
    ensures s'.consumers == if s.numConsumers >= 32 then s.consumers
                            else s.consumers[s.numConsumers := Consumer(s.head, true)]
  {
    RegisterStaysAlong(cfg, s, t, Do(cfg, s, steps[0]), steps[1..], s');
  }

  // ---------------------------------------------------------------------------------------------
  // A pop
  // ---------------------------------------------------------------------------------------------

  /** A step of consumer c's thread. */
  predicate PopsFor(step: Step, c: nat) {
    match step
    case PopBegin(d, into) => d == c
    case PopTail(d) => d == c
    case PopSequence(d) => d == c
    case PopByte(d, i) => d == c
    case PopStore(d) => d == c
    case _ => false
  }

  /** The steps are one pop of consumer c, from its first step on. */
  predicate IsPop(steps: seq<Step>, c: nat, into: Item) {
    && steps != [] && steps[0] == PopBegin(c, into)
    && forall i :: 1 <= i < |steps| ==> PopsFor(steps[i], c) && !steps[i].PopBegin?
  }

  /** Where a pop that runs alone can be. */
  ghost predicate PopPoint(cfg: Config, s0: State, c: nat, s: State)
    requires Shape(cfg, s0) && c < MAX_CONSUMERS
  {
    && |s.pops| == MAX_CONSUMERS
    && match s.pops[c]
       case PopIdle => s == SoloPop(cfg, s0, c)
       case AtPopTail(into) => s0.consumers[c].active && s == SetPop(s0, c, s.pops[c])
       case AtPopSequence(tail, into) =>
         s0.consumers[c].active && tail == s0.consumers[c].tail && s == SetPop(s0, c, s.pops[c])
       case PopCopying(tail, buffer, done) =>
         && !SoloPopFails(cfg, s0, c) && tail == s0.consumers[c].tail && s == SetPop(s0, c, s.pops[c])
         && |buffer| == cfg.width
         && forall i :: 0 <= i < cfg.width && i in done ==> buffer[i] == SoloItem(cfg, s0, c)[i]
  }

  lemma SetPopTwice(s: State, c: nat, a: PopPc, b: PopPc)
    requires c < |s.pops|
    ensures SetPop(SetPop(s, c, a), c, b) == SetPop(s, c, b)
    ensures s.pops[c] == b ==> SetPop(s, c, b) == s
  {
    assert s.pops[c := a][c := b] == s.pops[c := b];
  }

  lemma PopStays(cfg: Config, s0: State, c: nat, s: State, step: Step)
    requires Shape(cfg, s0) && c < MAX_CONSUMERS && s0.pops[c].PopIdle? && PopPoint(cfg, s0, c, s)
    requires Shape(cfg, s) && Ready(cfg, s, step) && PopsFor(step, c) && !step.PopBegin?
    ensures PopPoint(cfg, s0, c, Do(cfg, s, step))
    ensures step.PopStore? ==> !SoloPopFails(cfg, s0, c) && s.pops[c].buffer == SoloItem(cfg, s0, c)
    ensures !step.PopStore? && Do(cfg, s, step).pops[c].PopIdle? ==> SoloPopFails(cfg, s0, c)
  {
    var s' := Do(cfg, s, step);
    SetPopTwice(s0, c, s.pops[c], s'.pops[c]);
    SetPopTwice(s0, c, s.pops[c], PopIdle);
  }

  /** What a pop that runs alone still hands over. */
  lemma {:induction false} PopStaysAlong(cfg: Config, s0: State, c: nat, s: State, steps: seq<Step>, s': State)
    requires Shape(cfg, s0) && c < MAX_CONSUMERS && s0.pops[c].PopIdle? && PopPoint(cfg, s0, c, s)
    requires Leads(cfg, Anything, s, steps, s')
    requires forall i :: 0 <= i < |steps| ==> PopsFor(steps[i], c) && !steps[i].PopBegin?
    ensures PopPoint(cfg, s0, c, s')
    ensures !s.pops[c].PopIdle? && s'.pops[c].PopIdle? ==>
              Handed(cfg, s, steps, c) == if SoloPopFails(cfg, s0, c) then [] else [SoloItem(cfg, s0, c)]
    ensures s.pops[c].PopIdle? ==> steps == []
    decreases |steps|
  {
    if steps != [] {
      PopStays(cfg, s0, c, s, steps[0]);
      PopStaysAlong(cfg, s0, c, Do(cfg, s, steps[0]), steps[1..], s');
    }
  }

  /** Every pop that runs alone and returns fails and changes nothing, or hands over the slot's payload and advances. */
  lemma PopAlways(cfg: Config, s: State, c: nat, into: Item, steps: seq<Step>, s': State)
    requires Shape(cfg, s) && c < MAX_CONSUMERS && IsPop(steps, c, into) && Leads(cfg, Anything, s, steps, s')
    requires |s'.pops| == MAX_CONSUMERS && s'.pops[c].PopIdle?
    ensures s' == SoloPop(cfg, s, c)
    ensures Handed(cfg, s, steps, c) == if SoloPopFails(cfg, s, c) then [] else [SoloItem(cfg, s, c)]
  {
    PopStaysAlong(cfg, s, c, Do(cfg, s, steps[0]), steps[1..], s');
  }

  // ---------------------------------------------------------------------------------------------
  // Any number of pops
  // ---------------------------------------------------------------------------------------------

  /** Nothing is between claim and publication, and consumer c is active. */
  ghost predicate Drainable(cfg: Config, s: State, c: nat) {
    Core(cfg, s) && Bounded(cfg, s) && s.claims == map[] && c < MAX_CONSUMERS && s.consumers[c].active
  }

  /** Then a pop of c finds nothing exactly when c has read the whole log. */
  lemma DrainVerdict(cfg: Config, s: State, c: nat)
    requires Drainable(cfg, s, c) && Ready(cfg, s, PopSequence(c))
    ensures Do(cfg, s, PopSequence(c)).pops[c].PopIdle? <==> s.consumers[c].tail == |s.log|
  {
    assert PopInv(cfg, s, c, s.pops[c]);
    SequenceTells(cfg, s, c);
  }

  lemma TailWithinLog(cfg: Config, s: State, c: nat)
    requires Drainable(cfg, s, c)
    ensures |s.consumers| == MAX_CONSUMERS && s.consumers[c].tail <= |s.log| == s.head
  {
  }

  lemma DrainStep(cfg: Config, s: State, step: Step, c: nat)
    requires Drainable(cfg, s, c) && Ready(cfg, s, step) && PopsFor(step, c)
    ensures var s' := Do(cfg, s, step);
            && Drainable(cfg, s', c) && s'.log == s.log
            && s'.consumers[c].tail == s.consumers[c].tail + (if step.PopStore? then 1 else 0)
    ensures step.PopStore? ==> s.consumers[c].tail < |s.log| && s.pops[c].buffer == s.log[s.consumers[c].tail]
  {
    StepKeepsCore(cfg, s, step);
    assert PopInv(cfg, s, c, s.pops[c]);
    if step.PopStore? { PopStoreConsumers(cfg, s, c); }
  }

  /** Whatever the steps of consumer c's thread, it receives the log from its old tail to its new one. */
  lemma {:induction false} DrainAlways(cfg: Config, s: State, c: nat, steps: seq<Step>, s': State)
    requires Drainable(cfg, s, c) && Leads(cfg, Anything, s, steps, s')
    requires forall i :: 0 <= i < |steps| ==> PopsFor(steps[i], c)
    ensures Drainable(cfg, s', c) && s'.log == s.log && s.consumers[c].tail <= s'.consumers[c].tail <= |s.log|
    ensures Handed(cfg, s, steps, c) == s.log[s.consumers[c].tail..s'.consumers[c].tail]
    decreases |steps|
  {
    hide Core;
    TailWithinLog(cfg, s, c);
    if steps != [] {
      DrainStep(cfg, s, steps[0], c);
      DrainAlways(cfg, Do(cfg, s, steps[0]), c, steps[1..], s');
    }
  }

  /** If its last step finds nothing, it has made exactly head - tail successful pops, of everything that was left. */
  lemma DrainToTheEnd(cfg: Config, s: State, c: nat, steps: seq<Step>, m: State)
    requires Drainable(cfg, s, c) && Leads(cfg, Anything, s, steps, m)
    requires forall i :: 0 <= i < |steps| ==> PopsFor(steps[i], c)
    requires Shape(cfg, m) && Ready(cfg, m, PopSequence(c)) && Do(cfg, m, PopSequence(c)).pops[c].PopIdle?
    ensures s.consumers[c].tail <= s.head == |s.log|
    ensures Handed(cfg, s, steps, c) == s.log[s.consumers[c].tail..]
    ensures |Handed(cfg, s, steps, c)| == s.head - s.consumers[c].tail
  {
    DrainAlways(cfg, s, c, steps, m);
    DrainVerdict(cfg, m, c);
  }

  // ---------------------------------------------------------------------------------------------
  // A queue that nobody reads
  // ---------------------------------------------------------------------------------------------

  /** k positions are claimed and published, min_tail is 0, and no consumer is active. */
  ghost predicate Unheard(cfg: Config, s: State, k: nat) {
    && Shape(cfg, s) && s.head == k && s.minTail == 0 && s.threads.Keys <= {0} && At(s, 0).Idle?
    && forall c :: 0 <= c < MAX_CONSUMERS ==> !s.consumers[c].active
  }

  lemma OneUnheard(cfg: Config, s: State, item: Item, k: nat) returns (steps: seq<Step>, s': State)
    requires Unheard(cfg, s, k) && k < cfg.size && |item| == cfg.width
    ensures Leads(cfg, InRegime, s, steps, s') && Unheard(cfg, s', k + 1)
  {
    steps := PushAlone(cfg, InRegime, s, 0, item);
    s' := SoloPush(cfg, s, 0, item);
    assert Shape(cfg, s');
  }

  lemma NobodyScalar(cs: seq<Consumer>)
    requires forall c :: 0 <= c < |cs| ==> !cs[c].active
    ensures ScalarMin(cs) == 0
  {
    MinOverBounds(cs);
  }

  lemma {:induction false} FillsUnheard(cfg: Config, s: State, item: Item, k: nat) returns (steps: seq<Step>, s': State)
    requires Unheard(cfg, s, k) && k <= cfg.size && |item| == cfg.width
    ensures Leads(cfg, InRegime, s, steps, s') && Unheard(cfg, s', cfg.size)
    decreases cfg.size - k
  {
    if k == cfg.size {
      steps, s' := [], s;
    } else {
      var first, m := OneUnheard(cfg, s, item, k);
      var rest;
      rest, s' := FillsUnheard(cfg, m, item, k + 1);
      LeadsJoin(cfg, InRegime, s, first, m, rest, s');
      steps := first + rest;
    }
  }

  /** Without any consumer, a push fails once SIZE positions are claimed, although nobody is behind. */
  lemma FullForNobody(cfg: Config, s: State, item: Item) returns (steps: seq<Step>, s': State)
    requires IsInit(cfg, s) && |item| == cfg.width
    ensures Leads(cfg, InRegime, s, steps, s') && Shape(cfg, s') && s'.head == cfg.size && !SomeActive(s'.consumers)
    ensures SoloMin(cfg, s') < WORD && SoloPushFails(cfg, s')
  {
    steps, s' := FillsUnheard(cfg, s, item, 0);
    NobodyScalar(s'.consumers);
  }
}
