/** What every step of the queue keeps when its users keep to the regime: safety, and what a scan knows of its start. */
module QueueInvariant {
  import opened Bytes
  import opened RingIndex
  import opened TailScan
  import opened QueueModel
  import opened QueueCore

  /** The snapshot precedes the state, and no consumer has become active since. */
  ghost predicate StartInv(cfg: Config, s: State, start: Snapshot) {
    && start.head <= s.head
    && |start.consumers| == |s.consumers|
    && (forall c :: 0 <= c < |s.consumers| ==>
          && (s.consumers[c].active ==> start.consumers[c].active)
          && start.consumers[c].tail <= s.consumers[c].tail
          && (start.consumers[c].active ==> start.head <= start.consumers[c].tail + cfg.size))
  }

  predicate AccStart(start: Snapshot, m: nat) {
    m == INVALID_POS || MinOver(start.consumers) <= m
  }

  predicate JobStart(job: Job, start: Snapshot) {
    job.PushJob? ==> job.head <= start.head
  }

  /** The scan saw an active consumer if one is active still, or if its result is past 0. */
  ghost predicate ResultStart(s: State, start: Snapshot, result: nat) {
    SomeActive(s.consumers) || result > 0 ==> MinOver(start.consumers) <= result
  }

  ghost predicate PcOrderly(cfg: Config, s: State, pc: Pc)
    requires PcShape(cfg, pc) && |s.consumers| == MAX_CONSUMERS
  {
    match pc
    case Scanning(job, scan) =>
      && JobStart(job, scan.start) && StartInv(cfg, s, scan.start)
      && (scan.sawActive ==> scan.start.consumers[scan.index].active)
      && (forall k :: 0 <= k < 4 ==> AccStart(scan.start, scan.acc[k]))
    case AtStoreMin(job, result, start) =>
      JobStart(job, start) && StartInv(cfg, s, start) && ResultStart(s, start, result)
    case AtRegisterTail(id, head) => head == s.head
    case AtRegisterActivate(id) => s.consumers[id].tail == s.head
    case _ => true
  }

  ghost predicate Orderly(cfg: Config, s: State)
    requires Shape(cfg, s)
  {
    && (forall t :: t in s.threads ==> PcOrderly(cfg, s, s.threads[t]))
    && (s.joining != map[] ==> Quiet(s))
  }

  ghost predicate Inv(cfg: Config, s: State) {
    Core(cfg, s) && Orderly(cfg, s)
  }

  lemma InitInv(cfg: Config, s: State)
    requires IsInit(cfg, s)
    ensures Inv(cfg, s)
  {
  }

  lemma ClaimsHaveCopiers(cfg: Config, s: State)
    requires LogInv(cfg, s)
    ensures s.claims == map[] || exists t :: t in s.threads && s.threads[t].Copying?
  {
    if p :| p in s.claims {
      assert At(s, s.claims[p]).Copying? && s.claims[p] in s.threads;
    }
  }

  /** While registrations are under way nothing is claimed, so every position is published. */
  lemma QuietPublished(cfg: Config, s: State)
    requires Core(cfg, s) && Quiet(s)
    ensures s.claims == map[] && PublishedBelow(s, s.head)
  {
    ClaimsHaveCopiers(cfg, s);
  }

  /** Whatever a thread may store as min_tail is at most head. */
  lemma MinsBelowHead(cfg: Config, s: State, m: nat)
    requires Core(cfg, s) && PublishedBelow(s, m)
    ensures m <= s.head
  {
    assert s.head !in s.published;
  }

  /** In the regime, whoever activates a consumer may. */
  lemma QuietJoinOk(cfg: Config, s: State, id: nat)
    requires Core(cfg, s) && Quiet(s) && id < MAX_CONSUMERS && s.consumers[id].tail == s.head
    ensures JoinOk(cfg, s, id)
  {
    QuietPublished(cfg, s);
    MinsBelowHead(cfg, s, s.minTail);
  }

  /** Thread t registers consumer id: nothing else runs but pops and registrations of other ids. */
  lemma JoiningQuiet(cfg: Config, s: State, t: Tid)
    requires Inv(cfg, s) && Registering(At(s, t))
    ensures Quiet(s) && s.claims == map[] && PublishedBelow(s, s.head)
    ensures RegisterInv(s, t, At(s, t).id)
  {
    assert PcInv(cfg, s, t, At(s, t));
    QuietPublished(cfg, s);
  }

  // ---------------------------------------------------------------------------------------------
  // Keeping to the order
  // ---------------------------------------------------------------------------------------------

  /** The thread that the step moves, if it moves one. */
  predicate MovedBy(step: Step, t: Tid) {
    !step.Unregister? && !step.PopBegin? && !step.PopTail? && !step.PopSequence? && !step.PopByte? && !step.PopStore?
    && step.t == t
  }

  lemma PopsKeepThreads(cfg: Config, s: State, step: Step)
    requires Shape(cfg, s) && Ready(cfg, s, step)
    requires step.Unregister? || step.PopBegin? || step.PopTail? || step.PopSequence? || step.PopByte? || step.PopStore?
    ensures Do(cfg, s, step).threads == s.threads && Do(cfg, s, step).head == s.head
    ensures Do(cfg, s, step).joining == s.joining
  {
  }

  lemma OthersUnmoved(cfg: Config, s: State, step: Step, t: Tid)
    requires Shape(cfg, s) && Ready(cfg, s, step) && !MovedBy(step, t)
    ensures At(Do(cfg, s, step), t) == At(s, t)
  {
    if step.Unregister? || step.PopBegin? || step.PopTail? || step.PopSequence? || step.PopByte? || step.PopStore? {
      PopsKeepThreads(cfg, s, step);
    }
  }

  lemma PopStoreConsumers(cfg: Config, s: State, c: nat)
    requires Core(cfg, s) && Bounded(cfg, s) && Ready(cfg, s, PopStore(c))
    ensures s.consumers[c].active && s.pops[c].tail == s.consumers[c].tail < s.head
    ensures Do(cfg, s, PopStore(c)).consumers == s.consumers[c := s.consumers[c].(tail := s.consumers[c].tail + 1)]
  {
    assert PopInv(cfg, s, c, s.pops[c]);
  }

  /** Tails only grow and no consumer becomes active, but for a registration. */
  lemma ConsumersGrow(cfg: Config, s: State, step: Step, c: nat)
    requires Core(cfg, s) && Bounded(cfg, s) && Ready(cfg, s, step) && c < MAX_CONSUMERS
    requires !step.RegisterTail? && !step.RegisterActivate?
    ensures |Do(cfg, s, step).consumers| == MAX_CONSUMERS
    ensures s.consumers[c].tail <= Do(cfg, s, step).consumers[c].tail
    ensures Do(cfg, s, step).consumers[c].active ==> s.consumers[c].active
    ensures !s.consumers[c].active ==> Do(cfg, s, step).consumers[c].tail == s.consumers[c].tail
  {
    if step.PopStore? { PopStoreConsumers(cfg, s, step.c); }
  }

  lemma HeadGrows(cfg: Config, s: State, step: Step)
    requires Core(cfg, s) && Bounded(cfg, s) && Ready(cfg, s, step)
    ensures s.head <= Do(cfg, s, step).head
    ensures Do(cfg, s, step).head != s.head ==> step.Cas? && At(s, step.t).AtCas?
  {
  }

  lemma ScanOrderlyKept(cfg: Config, s: State, s': State, pc: Pc)
    requires PcShape(cfg, pc) && |s.consumers| == |s'.consumers| == MAX_CONSUMERS && PcOrderly(cfg, s, pc)
    requires !Registering(pc) && s.head <= s'.head
    requires forall c :: 0 <= c < MAX_CONSUMERS ==>
               s.consumers[c].tail <= s'.consumers[c].tail && (s'.consumers[c].active ==> s.consumers[c].active)
    ensures PcOrderly(cfg, s', pc)
  {
  }

  /** Nobody else sets the tail of a consumer that is being registered. */
  lemma JoinerKept(cfg: Config, s: State, step: Step, u: Tid)
    requires Core(cfg, s) && Bounded(cfg, s) && Ready(cfg, s, step) && !MovedBy(step, u) && Registering(At(s, u))
    ensures |Do(cfg, s, step).consumers| == MAX_CONSUMERS && At(s, u).id < MAX_CONSUMERS
    ensures Do(cfg, s, step).consumers[At(s, u).id].tail == s.consumers[At(s, u).id].tail
  {
    assert PcInv(cfg, s, u, At(s, u));
    if step.RegisterTail? || step.RegisterActivate? {
      assert PcInv(cfg, s, step.t, At(s, step.t));
    } else {
      ConsumersGrow(cfg, s, step, At(s, u).id);
    }
  }

  /** What is true of a registration while other registrations and pops move. */
  lemma JoiningOrderlyKept(cfg: Config, s: State, step: Step, u: Tid)
    requires Inv(cfg, s) && Bounded(cfg, s) && Enabled(cfg, s, step) && !MovedBy(step, u) && Registering(At(s, u))
    ensures |Do(cfg, s, step).consumers| == MAX_CONSUMERS && PcOrderly(cfg, Do(cfg, s, step), At(s, u))
  {
    JoiningQuiet(cfg, s, u);
    HeadGrows(cfg, s, step);
    JoinerKept(cfg, s, step, u);
    assert PcOrderly(cfg, s, At(s, u));
  }

  lemma OthersOrderly(cfg: Config, s: State, step: Step, u: Tid)
    requires Inv(cfg, s) && Bounded(cfg, s) && Enabled(cfg, s, step) && !MovedBy(step, u) && u in s.threads
    ensures |Do(cfg, s, step).consumers| == MAX_CONSUMERS && PcOrderly(cfg, Do(cfg, s, step), At(s, u))
  {
    if Registering(At(s, u)) {
      JoiningOrderlyKept(cfg, s, step, u);
    } else if step.RegisterTail? || step.RegisterActivate? {
      JoiningQuiet(cfg, s, step.t);
    } else {
      HeadGrows(cfg, s, step);
      ConsumersGrow(cfg, s, step, 0);
      forall c | 0 <= c < MAX_CONSUMERS
        ensures s.consumers[c].tail <= Do(cfg, s, step).consumers[c].tail
        ensures Do(cfg, s, step).consumers[c].active ==> s.consumers[c].active
      {
        ConsumersGrow(cfg, s, step, c);
      }
      ScanOrderlyKept(cfg, s, Do(cfg, s, step), At(s, u));
    }
  }

  lemma FreshStart(cfg: Config, s: State)
    requires Core(cfg, s)
    ensures StartInv(cfg, s, Begun(s)) && forall k :: 0 <= k < 4 ==> AccStart(Begun(s), NewScan(s).acc[k])
  {
  }

  lemma ScanStepOrderly(cfg: Config, s: State, t: Tid)
    requires Inv(cfg, s) && Ready(cfg, s, ScanLoad(t))
    ensures PcShape(cfg, At(Do(cfg, s, ScanLoad(t)), t)) && PcOrderly(cfg, s, At(Do(cfg, s, ScanLoad(t)), t))
  {
    var pc := At(s, t);
    assert PcOrderly(cfg, s, pc);
    MinOverBounds(pc.scan.start.consumers);
    var scan' := ScanStep(s.consumers, pc.scan);
    forall k | 0 <= k < 4 ensures AccStart(scan'.start, scan'.acc[k]) {
      assert AccStart(pc.scan.start, pc.scan.acc[k]);
    }
  }

  /** With a consumer still active, or a result past 0, a scan's result is at least the minimum when it began. */
  lemma ScanEnds(cfg: Config, s: State, scan: Scan)
    requires Core(cfg, s) && Bounded(cfg, s) && |scan.acc| == 4 && scan.index == MAX_CONSUMERS && ScanInv(s, scan)
    requires forall k :: 0 <= k < 4 ==> AccStart(scan.start, scan.acc[k])
    ensures Safe(s, OrZero(Combine(scan.acc))) && ResultStart(s, scan.start, OrZero(Combine(scan.acc)))
  {
    ScanSafe(cfg, s, scan);
    assert AccStart(scan.start, scan.acc[0]) && AccStart(scan.start, scan.acc[1])
        && AccStart(scan.start, scan.acc[2]) && AccStart(scan.start, scan.acc[3]);
    if c :| 0 <= c < |s.consumers| && s.consumers[c].active {
      assert Combine(scan.acc) <= s.consumers[c].tail;
    }
  }

  lemma ScanFinishOrderly(cfg: Config, s: State, t: Tid)
    requires Inv(cfg, s) && Bounded(cfg, s) && Ready(cfg, s, ScanFinish(t))
    ensures PcShape(cfg, At(Do(cfg, s, ScanFinish(t)), t)) && PcOrderly(cfg, s, At(Do(cfg, s, ScanFinish(t)), t))
  {
    assert PcInv(cfg, s, t, At(s, t)) && PcOrderly(cfg, s, At(s, t));
    ScanEnds(cfg, s, At(s, t).scan);
  }

  lemma RegisterOrderly(cfg: Config, s: State, step: Step)
    requires Inv(cfg, s) && Enabled(cfg, s, step)
    requires step.BeginRegister? || step.RegisterLoad? || step.RegisterTail? || step.RegisterActivate?
    ensures var s' := Do(cfg, s, step);
            |s'.consumers| == MAX_CONSUMERS && PcShape(cfg, At(s', step.t)) && PcOrderly(cfg, s', At(s', step.t))
  {
    if step.t in s.threads { assert PcOrderly(cfg, s, At(s, step.t)); }
  }

  lemma ScanBeginsOrderly(cfg: Config, s: State, step: Step)
    requires Inv(cfg, s) && Ready(cfg, s, step) && (step.LoadMin? || step.BeginRefresh?)
    ensures var s' := Do(cfg, s, step);
            |s'.consumers| == MAX_CONSUMERS && PcShape(cfg, At(s', step.t)) && PcOrderly(cfg, s', At(s', step.t))
  {
    FreshStart(cfg, s);
    if step.LoadMin? { assert PcInv(cfg, s, step.t, At(s, step.t)); }
  }

  /** The other steps of push and refresh leave no scan and no registration under way. */
  lemma WriterOrderly(cfg: Config, s: State, step: Step)
    requires Shape(cfg, s) && Ready(cfg, s, step)
    requires step.BeginPush? || step.LoadHead? || step.StoreMin? || step.Cas? || step.CopyByte? || step.Publish?
    ensures var pc := At(Do(cfg, s, step), step.t);
            pc.Idle? || pc.AtLoadHead? || pc.AtLoadMin? || pc.AtCas? || pc.Copying?
  {
  }

  lemma MoverOrderly(cfg: Config, s: State, step: Step, t: Tid)
    requires Inv(cfg, s) && Bounded(cfg, s) && Enabled(cfg, s, step) && MovedBy(step, t)
    ensures var s' := Do(cfg, s, step);
            |s'.consumers| == MAX_CONSUMERS && PcShape(cfg, At(s', t)) && PcOrderly(cfg, s', At(s', t))
  {
    if step.ScanLoad? {
      ScanStepOrderly(cfg, s, t);
    } else if step.ScanFinish? {
      ScanFinishOrderly(cfg, s, t);
    } else if step.BeginRegister? || step.RegisterLoad? || step.RegisterTail? || step.RegisterActivate? {
      RegisterOrderly(cfg, s, step);
    } else if step.LoadMin? || step.BeginRefresh? {
      ScanBeginsOrderly(cfg, s, step);
    } else {
      WriterOrderly(cfg, s, step);
      StepKeepsCore(cfg, s, step);
    }
  }

  lemma JoiningShrinks(cfg: Config, s: State, step: Step)
    requires Shape(cfg, s) && Ready(cfg, s, step) && !step.BeginRegister?
    ensures Do(cfg, s, step).joining.Keys <= s.joining.Keys
  {
  }

  lemma QuietMoves(cfg: Config, s: State, step: Step)
    requires Shape(cfg, s) && Enabled(cfg, s, step) && Quiet(s) && !step.BeginPush? && !step.BeginRefresh?
    ensures Quiet(Do(cfg, s, step))
  {
  }

  lemma QuietKept(cfg: Config, s: State, step: Step)
    requires Inv(cfg, s) && Enabled(cfg, s, step)
    ensures Do(cfg, s, step).joining != map[] ==> Quiet(Do(cfg, s, step))
  {
    if step.BeginRegister? {
      QuietMoves(cfg, s, step);
    } else if Do(cfg, s, step).joining != map[] {
      JoiningShrinks(cfg, s, step);
      var id :| id in Do(cfg, s, step).joining;
      assert id in s.joining && Registering(At(s, s.joining[id]));
      QuietMoves(cfg, s, step);
    }
  }

  lemma StepKeepsOrder(cfg: Config, s: State, step: Step)
    requires Inv(cfg, s) && Bounded(cfg, s) && Enabled(cfg, s, step) && Shape(cfg, Do(cfg, s, step))
    ensures Orderly(cfg, Do(cfg, s, step))
  {
    var s' := Do(cfg, s, step);
    QuietKept(cfg, s, step);
    forall u | u in s'.threads ensures PcOrderly(cfg, s', s'.threads[u]) {
      if MovedBy(step, u) {
        MoverOrderly(cfg, s, step, u);
      } else {
        OthersUnmoved(cfg, s, step, u);
        if u in s.threads { OthersOrderly(cfg, s, step, u); }
      }
    }
  }

  /** The regime only lets consumers join at safe positions. */
  lemma RegimeJoinsSafely(cfg: Config, s: State, step: Step)
    requires Inv(cfg, s) && Enabled(cfg, s, step)
    ensures Permits(cfg, SafeJoins, s, step)
  {
    if step.RegisterActivate? {
      JoiningQuiet(cfg, s, step.t);
      assert PcOrderly(cfg, s, At(s, step.t));
      QuietJoinOk(cfg, s, At(s, step.t).id);
    }
  }

  /** Every step that the regime allows keeps the invariant, as long as positions stay below 2^64 - SIZE - 1. */
  lemma StepKeepsInv(cfg: Config, s: State, step: Step)
    requires Inv(cfg, s) && Bounded(cfg, s) && Enabled(cfg, s, step)
    ensures Inv(cfg, Do(cfg, s, step))
  {
    RegimeJoinsSafely(cfg, s, step);
    SafeJoinsKeepCore(cfg, s, step);
    StepKeepsOrder(cfg, s, step);
  }
}
