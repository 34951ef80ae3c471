/** Whole runs of the queue. */
module QueueRuns {
  import opened Bytes
  import opened RingIndex
  import opened TailScan
  import opened QueueModel
  import opened QueueCore
  import opened QueueInvariant
  import opened QueueRefinement
  import TicketLog

  /** A run: the states it goes through and the step taken from each but the last. */
  datatype Run = Run(states: seq<State>, steps: seq<Step>) {
    function Last(): State
      requires states != []
    {
      states[|states| - 1]
    }

    /** The run up to step n. */
    function Upto(n: nat): Run
      requires n <= |steps| < |states|
    {
      Run(states[..n + 1], steps[..n])
    }
  }

  ghost predicate Takes(cfg: Config, s: State, step: Step, s': State) {
    Shape(cfg, s) && Enabled(cfg, s, step) && s' == Do(cfg, s, step)
  }

  ghost predicate IsRun(cfg: Config, r: Run) {
    && |r.states| == |r.steps| + 1
    && IsInit(cfg, r.states[0])
    && forall i :: 0 <= i < |r.steps| ==> Takes(cfg, r.states[i], r.steps[i], r.states[i + 1])
  }

  lemma UptoIsRun(cfg: Config, r: Run, n: nat)
    requires IsRun(cfg, r) && n <= |r.steps|
    ensures IsRun(cfg, r.Upto(n)) && r.Upto(n).Last() == r.states[n]
  {
  }

  lemma TakesGrows(cfg: Config, s: State, step: Step, s': State)
    requires Takes(cfg, s, step, s')
    ensures s.log <= s'.log
  {
    StepGrows(cfg, s, step);
  }

  lemma TakesSafely(cfg: Config, s: State, step: Step, s': State)
    requires Takes(cfg, s, step, s') && Inv(cfg, s) && Bounded(cfg, s)
    ensures Inv(cfg, s')
  {
    StepKeepsInv(cfg, s, step);
  }

  lemma {:induction false} LogChain(states: seq<State>, i: nat, j: nat)
    requires i <= j < |states| && forall k :: i <= k < j ==> states[k].log <= states[k + 1].log
    ensures states[i].log <= states[j].log
    decreases j
  {
    if i < j { LogChain(states, i, j - 1); }
  }

  lemma LogGrows(cfg: Config, r: Run, i: nat, j: nat)
    requires IsRun(cfg, r) && i <= j <= |r.steps|
    ensures r.states[i].log <= r.states[j].log
  {
    forall k | i <= k < j ensures r.states[k].log <= r.states[k + 1].log {
      TakesGrows(cfg, r.states[k], r.steps[k], r.states[k + 1]);
    }
    LogChain(r.states, i, j);
  }

  /** Safety: every state of every run satisfies the invariant while positions fit. */
  lemma {:induction false} RunIsSafe(cfg: Config, r: Run, i: nat)
    requires IsRun(cfg, r) && Bounded(cfg, r.Last()) && i <= |r.steps|
    ensures Inv(cfg, r.states[i]) && Bounded(cfg, r.states[i])
    decreases i
  {
    hide Inv, Takes;
    LogGrows(cfg, r, i, |r.steps|);
    if i == 0 {
      InitInv(cfg, r.states[0]);
    } else {
      RunIsSafe(cfg, r, i - 1);
      TakesSafely(cfg, r.states[i - 1], r.steps[i - 1], r.states[i]);
    }
  }

  /** A run in which consumers may register whenever they like, as long as each becomes active at a safe position. */
  ghost predicate IsSafeRun(cfg: Config, r: Run) {
    && |r.states| == |r.steps| + 1
    && IsInit(cfg, r.states[0])
    && forall i :: 0 <= i < |r.steps| ==> JoinsSafely(cfg, r.states[i], r.steps[i], r.states[i + 1])
  }

  ghost predicate JoinsSafely(cfg: Config, s: State, step: Step, s': State) {
    Shape(cfg, s) && Ready(cfg, s, step) && Permits(cfg, SafeJoins, s, step) && s' == Do(cfg, s, step)
  }

  lemma SafeStepGrows(cfg: Config, s: State, step: Step, s': State)
    requires JoinsSafely(cfg, s, step, s')
    ensures s.log <= s'.log
  {
    StepGrows(cfg, s, step);
  }

  lemma SafeStepKeeps(cfg: Config, s: State, step: Step, s': State)
    requires JoinsSafely(cfg, s, step, s') && Core(cfg, s) && Bounded(cfg, s)
    ensures Core(cfg, s')
  {
    SafeJoinsKeepCore(cfg, s, step);
  }

  lemma InitCore(cfg: Config, s: State)
    requires IsInit(cfg, s)
    ensures Core(cfg, s)
  {
    InitInv(cfg, s);
  }

  lemma SafeLogGrows(cfg: Config, r: Run, i: nat, j: nat)
    requires IsSafeRun(cfg, r) && i <= j <= |r.steps|
    ensures r.states[i].log <= r.states[j].log
  {
    forall k | i <= k < j ensures r.states[k].log <= r.states[k + 1].log {
      SafeStepGrows(cfg, r.states[k], r.steps[k], r.states[k + 1]);
    }
    LogChain(r.states, i, j);
  }

  lemma {:induction false} SafeRunIsCore(cfg: Config, r: Run, i: nat)
    requires IsSafeRun(cfg, r) && Bounded(cfg, r.Last()) && i <= |r.steps|
    ensures Core(cfg, r.states[i]) && Bounded(cfg, r.states[i])
    decreases i
  {
    hide Core, JoinsSafely;
    SafeLogGrows(cfg, r, i, |r.steps|);
    if i == 0 {
      InitCore(cfg, r.states[0]);
    } else {
      SafeRunIsCore(cfg, r, i - 1);
      SafeStepKeeps(cfg, r.states[i - 1], r.steps[i - 1], r.states[i]);
    }
  }

  /** Runs that keep to the regime are among them. */
  lemma RegimeRunIsSafeRun(cfg: Config, r: Run)
    requires IsRun(cfg, r) && Bounded(cfg, r.Last())
    ensures IsSafeRun(cfg, r)
  {
    forall i | 0 <= i < |r.steps| ensures JoinsSafely(cfg, r.states[i], r.steps[i], r.states[i + 1]) {
      RunIsSafe(cfg, r, i);
      assert Takes(cfg, r.states[i], r.steps[i], r.states[i + 1]);
      RegimeJoinsSafely(cfg, r.states[i], r.steps[i]);
    }
  }

  /** The last state of some run in which consumers join at safe positions. */
  ghost predicate Reachable(cfg: Config, s: State) {
    Bounded(cfg, s) && exists r :: IsSafeRun(cfg, r) && r.Last() == s
  }

  lemma ReachableCore(cfg: Config, s: State)
    requires Reachable(cfg, s)
    ensures Core(cfg, s)
  {
    var r :| IsSafeRun(cfg, r) && r.Last() == s;
    SafeRunIsCore(cfg, r, |r.steps|);
  }

  lemma SafeUptoReachable(cfg: Config, r: Run, n: nat)
    requires IsSafeRun(cfg, r) && Bounded(cfg, r.Last()) && n <= |r.steps|
    ensures Reachable(cfg, r.states[n])
  {
    SafeRunIsCore(cfg, r, n);
    assert IsSafeRun(cfg, r.Upto(n)) && r.Upto(n).Last() == r.states[n];
  }

  /** Every state of a run in the regime is reachable. */
  lemma RunReaches(cfg: Config, r: Run, n: nat)
    requires IsRun(cfg, r) && Bounded(cfg, r.Last()) && n <= |r.steps|
    ensures Reachable(cfg, r.states[n])
  {
    RegimeRunIsSafeRun(cfg, r);
    SafeUptoReachable(cfg, r, n);
  }

  // ---------------------------------------------------------------------------------------------
  // Refinement of the ticket log
  // ---------------------------------------------------------------------------------------------

  /** What an observer of the log sees of a run. */
  function Events(cfg: Config, r: Run): seq<TicketLog.Event>
    requires |r.steps| <= |r.states|
  {
    seq(|r.steps|, i requires 0 <= i < |r.steps| <= |r.states| => EventAt(cfg, r.states[i], r.steps[i]))
  }

  function EventAt(cfg: Config, s: State, step: Step): TicketLog.Event {
    if Shape(cfg, s) && Ready(cfg, s, step) then EventOf(cfg, s, step) else TicketLog.Internal
  }

  ghost function Ledgers(cfg: Config, r: Run): seq<TicketLog.Ledger>
    requires forall i :: 0 <= i < |r.states| ==> Shape(cfg, r.states[i])
  {
    seq(|r.states|, i requires 0 <= i < |r.states| && Shape(cfg, r.states[i]) => Abs(r.states[i]))
  }

  /** Every interleaving is a history of the ticket log. */
  lemma RunRefines(cfg: Config, r: Run)
    requires IsSafeRun(cfg, r) && Bounded(cfg, r.Last())
    ensures forall i :: 0 <= i < |r.states| ==> Shape(cfg, r.states[i])
    ensures TicketLog.IsHistory(cfg.size, Ledgers(cfg, r), Events(cfg, r))
  {
    forall i | 0 <= i < |r.states| ensures Shape(cfg, r.states[i]) {
      SafeRunIsCore(cfg, r, i);
    }
    forall i | 0 <= i < |r.steps|
      ensures TicketLog.Follows(cfg.size, Ledgers(cfg, r)[i], Events(cfg, r)[i], Ledgers(cfg, r)[i + 1])
    {
      SafeRunIsCore(cfg, r, i);
      assert JoinsSafely(cfg, r.states[i], r.steps[i], r.states[i + 1]);
      StepRefines(cfg, r.states[i], r.steps[i]);
    }
  }

  /** Each active consumer has received exactly the claimed payloads from its join up to its tail. */
  lemma ReceivedIsLog(cfg: Config, r: Run, c: nat)
    requires IsSafeRun(cfg, r) && Bounded(cfg, r.Last()) && c < MAX_CONSUMERS
    requires |r.Last().consumers| == MAX_CONSUMERS && r.Last().consumers[c].active
    ensures var s := r.Last();
            && |s.joins| == MAX_CONSUMERS && s.joins[c] <= s.consumers[c].tail <= |s.log|
            && TicketLog.Stream(Events(cfg, r), c) == s.log[s.joins[c]..s.consumers[c].tail]
  {
    RunRefines(cfg, r);
    assert Shape(cfg, r.Last());
    TicketLog.StreamIsLog(cfg.size, Ledgers(cfg, r), Events(cfg, r), c);
  }

  lemma JoinsAtHead(cfg: Config, s: State, t: Tid)
    requires Inv(cfg, s) && Ready(cfg, s, RegisterActivate(t))
    ensures |s.joins| == |s.consumers| && TicketLog.AllReadable(Abs(s))
    ensures EventOf(cfg, s, RegisterActivate(t)) == TicketLog.Joined(At(s, t).id, |s.log|)
  {
    JoiningQuiet(cfg, s, t);
    assert PcOrderly(cfg, s, At(s, t));
  }

  /** In the regime consumers join at the end of a log that is readable throughout. */
  lemma RegimeJoinsAtEnd(cfg: Config, r: Run, i: nat)
    requires IsRun(cfg, r) && Bounded(cfg, r.Last()) && i < |r.steps| && r.steps[i].RegisterActivate?
    ensures |r.states[i].joins| == |r.states[i].consumers| && TicketLog.AllReadable(Abs(r.states[i]))
    ensures Events(cfg, r)[i].Joined? && Events(cfg, r)[i].pos == |r.states[i].log|
  {
    hide Inv, EventOf;
    RunIsSafe(cfg, r, i);
    assert Takes(cfg, r.states[i], r.steps[i], r.states[i + 1]);
    JoinsAtHead(cfg, r.states[i], r.steps[i].t);
  }

  // ---------------------------------------------------------------------------------------------
  // Order
  // ---------------------------------------------------------------------------------------------

  /** The step is a compare-and-swap that succeeds. */
  predicate Claims(s: State, step: Step) {
    step.Cas? && !step.spurious && At(s, step.t).AtCas? && s.head == At(s, step.t).head
  }

  /** Of two claims the later takes the larger position. */
  lemma ClaimsInOrder(cfg: Config, r: Run, i: nat, j: nat)
    requires IsSafeRun(cfg, r) && Bounded(cfg, r.Last()) && i < j < |r.steps|
    requires Claims(r.states[i], r.steps[i]) && Claims(r.states[j], r.steps[j])
    ensures r.states[i].head < r.states[j].head
  {
    ClaimTakesHead(cfg, r, i);
    ClaimTakesHead(cfg, r, j);
    SafeLogGrows(cfg, r, i + 1, j);
  }

  /** A consumer that joined before a claim and has read past it received the claim's payload there. */
  lemma ClaimReceived(cfg: Config, r: Run, i: nat, c: nat)
    requires IsSafeRun(cfg, r) && Bounded(cfg, r.Last()) && i < |r.steps| && Claims(r.states[i], r.steps[i])
    requires c < MAX_CONSUMERS && |r.Last().consumers| == |r.Last().joins| == MAX_CONSUMERS
    requires r.Last().consumers[c].active && r.Last().joins[c] <= r.states[i].head < r.Last().consumers[c].tail
    ensures var stream, k := TicketLog.Stream(Events(cfg, r), c), r.states[i].head - r.Last().joins[c];
            k < |stream| && stream[k] == At(r.states[i], r.steps[i].t).item
  {
    ClaimTakesHead(cfg, r, i);
    ReceivedIsLog(cfg, r, c);
  }

  /** A claim puts its payload at the position head had, for good. */
  lemma ClaimTakesHead(cfg: Config, r: Run, i: nat)
    requires IsSafeRun(cfg, r) && Bounded(cfg, r.Last()) && i < |r.steps| && Claims(r.states[i], r.steps[i])
    ensures var p := r.states[i].head;
            && p == |r.states[i].log| && p + 1 == |r.states[i + 1].log| <= |r.Last().log|
            && r.Last().log[p] == At(r.states[i], r.steps[i].t).item
  {
    SafeRunIsCore(cfg, r, i);
    assert JoinsSafely(cfg, r.states[i], r.steps[i], r.states[i + 1]);
    SafeLogGrows(cfg, r, i + 1, |r.steps|);
  }

  /** A push that was published before another began has the smaller position. */
  lemma RealTimeOrder(cfg: Config, r: Run, a: nat, b: nat, d: nat)
    requires IsSafeRun(cfg, r) && Bounded(cfg, r.Last()) && a < b < d < |r.steps|
    requires r.steps[a].Publish? && r.steps[b].BeginPush?
    requires Claims(r.states[d], r.steps[d]) && r.steps[d].t == r.steps[b].t
    ensures At(r.states[a], r.steps[a].t).Copying? && At(r.states[a], r.steps[a].t).pos < r.states[d].head
  {
    assert JoinsSafely(cfg, r.states[a], r.steps[a], r.states[a + 1]);
    SafeRunIsCore(cfg, r, a);
    SafeRunIsCore(cfg, r, d);
    assert PcInv(cfg, r.states[a], r.steps[a].t, At(r.states[a], r.steps[a].t));
    SafeLogGrows(cfg, r, a, d);
  }

  // ---------------------------------------------------------------------------------------------
  // A push that fails found the queue full
  // ---------------------------------------------------------------------------------------------

  /** The thread is in push and has not yet claimed a position. */
  predicate Trying(pc: Pc) {
    pc.AtLoadHead? || pc.AtLoadMin? || pc.AtCas? || ((pc.Scanning? || pc.AtStoreMin?) && pc.job.PushJob?)
  }

  /** Thread t is in a scan, or about to store its result, that began at the given snapshot. */
  predicate InScan(pc: Pc, job: Job, start: Snapshot) {
    || (pc.Scanning? && pc.job == job && pc.scan.start == start)
    || (pc.AtStoreMin? && pc.job == job && pc.start == start)
  }

  function JobOf(pc: Pc): Job
    requires pc.Scanning? || pc.AtStoreMin?
  {
    pc.job
  }

  function StartOf(pc: Pc): Snapshot
    requires pc.Scanning? || pc.AtStoreMin?
  {
    if pc.Scanning? then pc.scan.start else pc.start
  }

  /** A step that puts or leaves a thread in a scan took it there just now, or found it there. */
  lemma ScanSource(cfg: Config, s: State, step: Step, t: Tid)
    requires Shape(cfg, s) && Ready(cfg, s, step)
    requires At(Do(cfg, s, step), t).Scanning? || At(Do(cfg, s, step), t).AtStoreMin?
    ensures var pc' := At(Do(cfg, s, step), t);
            || InScan(At(s, t), JobOf(pc'), StartOf(pc'))
            || (Begun(s) == StartOf(pc')
                && (step == BeginRefresh(t)
                    || (step == LoadMin(t) && JobOf(pc') == PushJob(At(s, t).item, At(s, t).head, s.minTail))))
  {
  }

  /** The scan that thread t is in began in an earlier state of the same call. */
  lemma {:induction false} ScanBegan(cfg: Config, r: Run, j: nat, t: Tid) returns (i: nat)
    requires IsRun(cfg, r) && j <= |r.steps|
    requires At(r.states[j], t).Scanning? || At(r.states[j], t).AtStoreMin?
    ensures i < j && (r.steps[i] == LoadMin(t) || r.steps[i] == BeginRefresh(t))
    ensures Begun(r.states[i]) == StartOf(At(r.states[j], t))
    ensures JobOf(At(r.states[j], t)).PushJob? ==> r.steps[i] == LoadMin(t)
    ensures forall k :: i < k <= j ==> InScan(At(r.states[k], t), JobOf(At(r.states[j], t)), Begun(r.states[i]))
    decreases j
  {
    assert j > 0;
    var s, step := r.states[j - 1], r.steps[j - 1];
    assert Takes(cfg, s, step, r.states[j]);
    ScanSource(cfg, s, step, t);
    var job, start := JobOf(At(r.states[j], t)), StartOf(At(r.states[j], t));
    if InScan(At(s, t), job, start) {
      i := ScanBegan(cfg, r, j - 1, t);
    } else {
      i := j - 1;
    }
  }

  /** The step makes a push return false. */
  predicate ReturnsFull(cfg: Config, s: State, step: Step)
    requires Shape(cfg, s) && Ready(cfg, s, step)
  {
    (step.ScanFinish? || step.StoreMin?) && At(s, step.t).job.PushJob? && At(Do(cfg, s, step), step.t).Idle?
  }

  /** The only way out of a push that has claimed nothing: a scan has been made, and its result says full. */
  lemma GivesUpFull(cfg: Config, s: State, step: Step, t: Tid)
    requires Shape(cfg, s) && Ready(cfg, s, step) && Trying(At(s, t)) && At(Do(cfg, s, step), t).Idle?
    ensures step == ScanFinish(t) || step == StoreMin(t)
    ensures ReturnsFull(cfg, s, step)
  {
    if !MovedBy(step, t) { OthersUnmoved(cfg, s, step, t); }
  }

  /** What the scan that thread t is finishing yields. */
  function ResultOf(pc: Pc): nat
    requires (pc.Scanning? && |pc.scan.acc| == 4) || pc.AtStoreMin?
  {
    if pc.Scanning? then OrZero(Combine(pc.scan.acc)) else pc.result
  }

  /** The head is exactly SIZE past the least active tail. */
  ghost predicate ExactlyFull(cfg: Config, head: nat, cs: seq<Consumer>) {
    SomeActive(cs) && head == ScalarMin(cs) + cfg.size
  }

  lemma ReturnedFull(cfg: Config, s: State, step: Step)
    requires Inv(cfg, s) && Bounded(cfg, s) && Enabled(cfg, s, step) && ReturnsFull(cfg, s, step)
    ensures var pc := At(s, step.t); var start, result := StartOf(pc), ResultOf(pc);
            && result + cfg.size <= pc.job.head <= start.head
            && StartInv(cfg, s, start) && ResultStart(s, start, result)
  {
    var pc := At(s, step.t);
    assert PcInv(cfg, s, step.t, pc) && PcOrderly(cfg, s, pc);
    if pc.Scanning? {
      ScanEnds(cfg, s, pc.scan);
    }
    NoWrap(cfg, s, ResultOf(pc));
  }

  /**
   When push returns false, the head it read was exactly SIZE past the least tail at its scan's start, if a consumer is
   still active or the scan's result is past 0. Otherwise the result is 0, nobody is active, and head is at least SIZE.
   */
  lemma FullAtStart(cfg: Config, s: State, step: Step)
    requires Inv(cfg, s) && Bounded(cfg, s) && Enabled(cfg, s, step) && ReturnsFull(cfg, s, step)
    ensures var pc := At(s, step.t); var start := StartOf(pc);
            if SomeActive(s.consumers) || ResultOf(pc) > 0
            then ExactlyFull(cfg, start.head, start.consumers) && pc.job.head == start.head
            else ResultOf(pc) == 0 && cfg.size <= pc.job.head <= start.head
  {
    var pc := At(s, step.t);
    var start := StartOf(pc);
    ReturnedFull(cfg, s, step);
    MinOverBounds(start.consumers);
    if c :| 0 <= c < |s.consumers| && s.consumers[c].active {
      assert start.consumers[c].active && s.consumers[c].tail <= s.head;
    }
    if SomeActive(s.consumers) || ResultOf(pc) > 0 {
      assert MinOver(start.consumers) <= ResultOf(pc) < INVALID_POS;
    }
  }

  /**
   A failed push is genuine. However a push leaves that has claimed nothing, inside the call the queue was exactly full
   for the slowest consumer, unless no consumer is left and its scan's result is 0; then at least SIZE positions had
   been claimed.
   */
  lemma FailedPushIsGenuine(cfg: Config, r: Run, j: nat, t: Tid) returns (i: nat)
    requires IsRun(cfg, r) && Bounded(cfg, r.Last()) && j < |r.steps|
    requires Trying(At(r.states[j], t)) && At(r.states[j + 1], t).Idle?
    ensures i < j && r.steps[i] == LoadMin(t)
    ensures forall k :: i < k <= j ==> !At(r.states[k], t).Idle?
    ensures At(r.states[j], t).AtStoreMin? || (At(r.states[j], t).Scanning? && |At(r.states[j], t).scan.acc| == 4)
    ensures if SomeActive(r.states[j].consumers) || ResultOf(At(r.states[j], t)) > 0
            then ExactlyFull(cfg, r.states[i].head, r.states[i].consumers)
            else ResultOf(At(r.states[j], t)) == 0 && cfg.size <= r.states[i].head
  {
    RunIsSafe(cfg, r, j);
    assert Takes(cfg, r.states[j], r.steps[j], r.states[j + 1]);
    GivesUpFull(cfg, r.states[j], r.steps[j], t);
    FullAtStart(cfg, r.states[j], r.steps[j]);
    i := ScanBegan(cfg, r, j, t);
  }

  // ---------------------------------------------------------------------------------------------
  // Progress of a push
  // ---------------------------------------------------------------------------------------------

  /** The head value below which the thread's current attempt cannot claim. */
  function Seen(s: State, t: Tid): nat {
    match At(s, t)
    case AtLoadMin(item, head) => head
    case AtCas(item, head, minTail) => head
    case Scanning(PushJob(item, head, minTail), scan) => head
    case AtStoreMin(PushJob(item, head, minTail), result, start) => head
    case _ => s.head
  }

  /** The thread goes back to loading head. */
  predicate Restarts(s: State, s': State, t: Tid) {
    !At(s, t).AtLoadHead? && At(s', t).AtLoadHead?
  }

  function Retries(states: seq<State>, t: Tid, a: nat, b: nat): nat
    requires a <= b < |states|
    decreases b
  {
    if a == b then 0
    else Retries(states, t, a, b - 1) + (if Restarts(states[b - 1], states[b], t) then 1 else 0)
  }

  /** Only a compare-and-swap that fails sends a push back, and it fails because head has moved, or spuriously. */
  lemma RestartsByCas(cfg: Config, s: State, step: Step, t: Tid)
    requires Shape(cfg, s) && Ready(cfg, s, step) && !At(s, t).Idle? && Restarts(s, Do(cfg, s, step), t)
    ensures At(s, t).AtCas? && (step == Cas(t, true) || (step == Cas(t, false) && s.head != At(s, t).head))
  {
    if !MovedBy(step, t) { OthersUnmoved(cfg, s, step, t); }
  }

  lemma OwnStepSeen(cfg: Config, s: State, step: Step, t: Tid)
    requires Shape(cfg, s) && Ready(cfg, s, step) && MovedBy(step, t) && Seen(s, t) <= s.head
    requires Trying(At(s, t)) && Trying(At(Do(cfg, s, step), t)) && step != Cas(t, true)
    ensures Seen(s, t) + (if Restarts(s, Do(cfg, s, step), t) then 1 else 0) <= Seen(Do(cfg, s, step), t)
  {
  }

  lemma SeenGrows(cfg: Config, s: State, step: Step, s': State, t: Tid)
    requires JoinsSafely(cfg, s, step, s') && Core(cfg, s) && Core(cfg, s')
    requires Trying(At(s, t)) && Trying(At(s', t)) && step != Cas(t, true)
    ensures Seen(s, t) + (if Restarts(s, s', t) then 1 else 0) <= Seen(s', t)
  {
    SeenBelowHead(cfg, s, t);
    if MovedBy(step, t) {
      OwnStepSeen(cfg, s, step, t);
    } else {
      OthersUnmoved(cfg, s, step, t);
      StepGrows(cfg, s, step);
    }
  }

  lemma SeenGrowsAt(cfg: Config, r: Run, t: Tid, k: nat)
    requires IsSafeRun(cfg, r) && Bounded(cfg, r.Last()) && k < |r.steps|
    requires Trying(At(r.states[k], t)) && Trying(At(r.states[k + 1], t)) && r.steps[k] != Cas(t, true)
    ensures Seen(r.states[k], t) + (if Restarts(r.states[k], r.states[k + 1], t) then 1 else 0)
         <= Seen(r.states[k + 1], t)
  {
    SafeRunIsCore(cfg, r, k);
    SafeRunIsCore(cfg, r, k + 1);
    SeenGrows(cfg, r.states[k], r.steps[k], r.states[k + 1], t);
  }

  lemma {:induction false} RetriesSum(states: seq<State>, t: Tid, a: nat, b: nat)
    requires a <= b < |states|
    requires forall k :: a <= k < b ==>
               Seen(states[k], t) + (if Restarts(states[k], states[k + 1], t) then 1 else 0) <= Seen(states[k + 1], t)
    ensures Retries(states, t, a, b) + Seen(states[a], t) <= Seen(states[b], t)
    decreases b
  {
    if a < b {
      RetriesSum(states, t, a, b - 1);
      assert states[b - 1 + 1] == states[b];
    }
  }

  /** Under a strong compare-and-swap, each time a push goes back the head it works with has moved. */
  lemma RetriesCount(cfg: Config, r: Run, t: Tid, a: nat, b: nat)
    requires IsSafeRun(cfg, r) && Bounded(cfg, r.Last()) && a <= b <= |r.steps|
    requires forall k :: a <= k <= b ==> Trying(At(r.states[k], t))
    requires forall k :: a <= k < b ==> r.steps[k] != Cas(t, true)
    ensures Retries(r.states, t, a, b) + Seen(r.states[a], t) <= Seen(r.states[b], t) <= r.states[b].head
  {
    forall k | a <= k < b
      ensures Seen(r.states[k], t) + (if Restarts(r.states[k], r.states[k + 1], t) then 1 else 0)
           <= Seen(r.states[k + 1], t)
    {
      SeenGrowsAt(cfg, r, t, k);
    }
    RetriesSum(r.states, t, a, b);
    SafeRunIsCore(cfg, r, b);
    SeenBelowHead(cfg, r.states[b], t);
  }

  lemma SeenBelowHead(cfg: Config, s: State, t: Tid)
    requires Core(cfg, s)
    ensures Seen(s, t) <= s.head
  {
    if t in s.threads { assert PcInv(cfg, s, t, s.threads[t]); }
  }

  /** Under a strong compare-and-swap, and while the consumers do not move, one push retries at most as
      often as there was room when it was called. */
  lemma PushProgress(cfg: Config, r: Run, t: Tid, a: nat, b: nat)
    requires IsSafeRun(cfg, r) && Bounded(cfg, r.Last()) && a <= b <= |r.steps|
    requires At(r.states[a], t).AtLoadHead?
    requires forall k :: a <= k <= b ==> Trying(At(r.states[k], t))
    requires forall k :: a <= k < b ==> r.steps[k] != Cas(t, true)
    requires r.states[b].consumers == r.states[a].consumers && SomeActive(r.states[a].consumers)
    ensures r.states[a].head + Retries(r.states, t, a, b) <= ScalarMin(r.states[a].consumers) + cfg.size
  {
    SafeRunIsCore(cfg, r, a);
    SafeRunIsCore(cfg, r, b);
    RetriesCount(cfg, r, t, a, b);
    ScalarMinMeaning(r.states[a].consumers);
  }
}
