/** How many steps of its own a call takes, whatever the others do. */
module QueueProgress {
  import opened TailScan
  import opened QueueModel
  import opened QueueCore
  import opened QueueInvariant
  import opened QueueRuns
  import opened QueueCalls
  import opened QueueAlone

  /** The bytes that are still to be copied. */
  function Uncopied(width: nat, done: set<nat>): set<nat> {
    set i | 0 <= i < width && i !in done
  }

  lemma {:induction false} AllUncopied(width: nat)
    ensures |Uncopied(width, {})| == width
  {
    if width == 0 {
      assert Uncopied(0, {}) == {};
    } else {
      AllUncopied(width - 1);
      assert Uncopied(width, {}) == Uncopied(width - 1, {}) + {width - 1};
    }
  }

  lemma OneLess(width: nat, done: set<nat>, i: nat)
    requires i < width && i !in done
    ensures |Uncopied(width, done + {i})| + 1 == |Uncopied(width, done)|
  {
    assert Uncopied(width, done + {i}) == Uncopied(width, done) - {i};
  }

  // ---------------------------------------------------------------------------------------------
  // Threads
  // ---------------------------------------------------------------------------------------------

  /** The longest that one attempt of a push can be. */
  function Attempt(cfg: Config): nat { cfg.width + 70 }

  /** At most as many steps of its own as this does a call have left, unless a push starts over. */
  function StepsLeft(cfg: Config, pc: Pc): nat
    requires PcShape(cfg, pc)
  {
    match pc
    case Idle => 0
    case AtLoadHead(item) => Attempt(cfg)
    case AtLoadMin(item, head) => cfg.width + 69
    case Scanning(job, scan) =>
      cfg.width + 4 + 2 * (MAX_CONSUMERS - scan.index) - (if scan.sawActive then 1 else 0)
    case AtStoreMin(job, result, start) => cfg.width + 3
    case AtCas(item, head, minTail) => cfg.width + 2
    case Copying(item, pos, done) => |Uncopied(cfg.width, done)| + 1
    case AtRegisterLoad(id) => 3
    case AtRegisterTail(id, head) => 2
    case AtRegisterActivate(id) => 1
  }

  lemma OwnStepCounts(cfg: Config, s: State, step: Step, t: Tid)
    requires Shape(cfg, s) && Ready(cfg, s, step) && MovedBy(step, t) && !At(s, t).Idle?
    requires Shape(cfg, Do(cfg, s, step))
    ensures !Restarts(s, Do(cfg, s, step), t) ==>
              StepsLeft(cfg, At(Do(cfg, s, step), t)) < StepsLeft(cfg, At(s, t))
    ensures Restarts(s, Do(cfg, s, step), t) ==> StepsLeft(cfg, At(s, t)) > 0
  {
    AllUncopied(cfg.width);
    if step.CopyByte? { OneLess(cfg.width, At(s, t).done, step.i); }
  }

  /** The steps of thread t among those from a to b. */
  function OwnSteps(steps: seq<Step>, t: Tid, a: nat, b: nat): nat
    requires a <= b <= |steps|
    decreases b
  {
    if a == b then 0 else OwnSteps(steps, t, a, b - 1) + (if MovedBy(steps[b - 1], t) then 1 else 0)
  }

  lemma StepCounts(cfg: Config, s: State, step: Step, s': State, t: Tid)
    requires JoinsSafely(cfg, s, step, s') && Shape(cfg, s') && !At(s, t).Idle?
    ensures Shape(cfg, s)
    ensures (if MovedBy(step, t) then 1 else 0) + StepsLeft(cfg, At(s', t))
         <= StepsLeft(cfg, At(s, t)) + (if Restarts(s, s', t) then Attempt(cfg) else 0)
  {
    if MovedBy(step, t) {
      OwnStepCounts(cfg, s, step, t);
    } else {
      OthersUnmoved(cfg, s, step, t);
    }
  }

  /** A call takes at most the steps it has left, and those of one more attempt each time a push starts over. */
  lemma {:induction false} CallSteps(cfg: Config, r: Run, t: Tid, a: nat, b: nat)
    requires IsSafeRun(cfg, r) && Bounded(cfg, r.Last()) && a <= b <= |r.steps|
    requires forall k :: a <= k < b ==> !At(r.states[k], t).Idle?
    ensures Shape(cfg, r.states[a]) && Shape(cfg, r.states[b])
    ensures OwnSteps(r.steps, t, a, b) + StepsLeft(cfg, At(r.states[b], t))
         <= StepsLeft(cfg, At(r.states[a], t)) + Retries(r.states, t, a, b) * Attempt(cfg)
    decreases b
  {
    hide JoinsSafely, StepsLeft, Shape, Attempt, Restarts;
    SafeRunShape(cfg, r, b);
    if a < b {
      CallSteps(cfg, r, t, a, b - 1);
      assert JoinsSafely(cfg, r.states[b - 1], r.steps[b - 1], r.states[b - 1 + 1]);
      StepCounts(cfg, r.states[b - 1], r.steps[b - 1], r.states[b], t);
      OneMore(Retries(r.states, t, a, b - 1), Attempt(cfg));
    }
  }

  lemma SafeRunShape(cfg: Config, r: Run, b: nat)
    requires IsSafeRun(cfg, r) && Bounded(cfg, r.Last()) && b <= |r.steps|
    ensures Shape(cfg, r.states[b])
  {
    SafeRunIsCore(cfg, r, b);
  }

  lemma OneMore(n: nat, m: nat)
    ensures (n + 1) * m == n * m + m
  {
  }

  lemma NoMore(n: nat, k: nat, m: nat)
    requires n <= k
    ensures n * m <= k * m
  {
  }

  /**
   Progress, in steps of its own: under a strong compare-and-swap, and while the consumers do not move, a push that has
   not yet claimed has taken no more than one attempt for each free position at its call, and one more.
   */
  lemma PushIsLockFree(cfg: Config, r: Run, t: Tid, a: nat, b: nat)
    requires IsSafeRun(cfg, r) && Bounded(cfg, r.Last()) && a <= b <= |r.steps|
    requires At(r.states[a], t).AtLoadHead?
    requires forall k :: a <= k <= b ==> Trying(At(r.states[k], t))
    requires forall k :: a <= k < b ==> r.steps[k] != Cas(t, true)
    requires r.states[b].consumers == r.states[a].consumers && SomeActive(r.states[a].consumers)
    ensures r.states[a].head <= ScalarMin(r.states[a].consumers) + cfg.size
    ensures var room := ScalarMin(r.states[a].consumers) + cfg.size - r.states[a].head;
            OwnSteps(r.steps, t, a, b) <= (room + 1) * (cfg.width + 70)
  {
    hide ScalarMin, SomeActive, Retries, OwnSteps, JoinsSafely;
    var room := ScalarMin(r.states[a].consumers) + cfg.size - r.states[a].head;
    PushProgress(cfg, r, t, a, b);
    CallSteps(cfg, r, t, a, b);
    NoMore(Retries(r.states, t, a, b), room, Attempt(cfg));
    OneMore(room, Attempt(cfg));
  }

  /** No thread ever waits: inside a call, some step of its own is possible, in the regime too. */
  lemma NeverStuck(cfg: Config, s: State, t: Tid) returns (step: Step)
    requires Shape(cfg, s) && !At(s, t).Idle?
    ensures MovedBy(step, t) && Enabled(cfg, s, step)
  {
    match At(s, t) {
      case AtLoadHead(item) => step := LoadHead(t);
      case AtLoadMin(item, head) => step := LoadMin(t);
      case Scanning(job, scan) => step := if scan.index < MAX_CONSUMERS then ScanLoad(t) else ScanFinish(t);
      case AtStoreMin(job, result, start) => step := StoreMin(t);
      case AtCas(item, head, minTail) => step := Cas(t, false);
      case Copying(item, pos, done) =>
        step := Publish(t);
        if i :| 0 <= i < cfg.width && i !in done { step := CopyByte(t, i); }
      case AtRegisterLoad(id) => step := RegisterLoad(t);
      case AtRegisterTail(id, head) => step := RegisterTail(t);
      case AtRegisterActivate(id) => step := RegisterActivate(t);
    }
  }

  // ---------------------------------------------------------------------------------------------
  // Pops
  // ---------------------------------------------------------------------------------------------

  /** Nor does a pop. */
  lemma PopNeverStuck(cfg: Config, s: State, c: nat) returns (step: Step)
    requires Shape(cfg, s) && c < MAX_CONSUMERS && !s.pops[c].PopIdle?
    ensures PopsFor(step, c) && Enabled(cfg, s, step)
  {
    match s.pops[c] {
      case AtPopTail(into) => step := PopTail(c);
      case AtPopSequence(tail, into) => step := PopSequence(c);
      case PopCopying(tail, buffer, done) =>
        step := PopStore(c);
        if i :| 0 <= i < cfg.width && i !in done { step := PopByte(c, i); }
    }
  }

  function PopStepsLeft(cfg: Config, pc: PopPc): nat {
    match pc
    case PopIdle => 0
    case AtPopTail(into) => cfg.width + 3
    case AtPopSequence(tail, into) => cfg.width + 2
    case PopCopying(tail, buffer, done) => |Uncopied(cfg.width, done)| + 1
  }

  function PopSteps(steps: seq<Step>, c: nat, a: nat, b: nat): nat
    requires a <= b <= |steps|
    decreases b
  {
    if a == b then 0 else PopSteps(steps, c, a, b - 1) + (if PopsFor(steps[b - 1], c) then 1 else 0)
  }

  lemma PopUnmoved(cfg: Config, s: State, step: Step, c: nat)
    requires Shape(cfg, s) && Ready(cfg, s, step) && c < MAX_CONSUMERS && !PopsFor(step, c)
    ensures |Do(cfg, s, step).pops| == MAX_CONSUMERS && Do(cfg, s, step).pops[c] == s.pops[c]
  {
    hide PcShape, PopShape, ScanStep, AfterMin;
  }

  lemma OwnPopStepCounts(cfg: Config, s: State, step: Step, c: nat)
    requires Shape(cfg, s) && Ready(cfg, s, step) && c < MAX_CONSUMERS && PopsFor(step, c)
    ensures |Do(cfg, s, step).pops| == MAX_CONSUMERS
    ensures PopStepsLeft(cfg, Do(cfg, s, step).pops[c])
          < if step.PopBegin? then cfg.width + 4 else PopStepsLeft(cfg, s.pops[c])
    ensures step.PopBegin? ==> s.pops[c].PopIdle?
  {
    AllUncopied(cfg.width);
    if step.PopByte? { OneLess(cfg.width, s.pops[c].done, step.i); }
  }

  lemma PopStepCounts(cfg: Config, s: State, step: Step, s': State, c: nat)
    requires JoinsSafely(cfg, s, step, s') && c < MAX_CONSUMERS
    ensures c < |s.pops| == |s'.pops|
    ensures step.PopBegin? && step.c == c ==> PopStepsLeft(cfg, s'.pops[c]) < cfg.width + 4
    ensures !s.pops[c].PopIdle? ==>
              (if PopsFor(step, c) then 1 else 0) + PopStepsLeft(cfg, s'.pops[c]) <= PopStepsLeft(cfg, s.pops[c])
  {
    hide PopStepsLeft, PcShape, PopShape;
    if PopsFor(step, c) { OwnPopStepCounts(cfg, s, step, c); } else { PopUnmoved(cfg, s, step, c); }
  }

  lemma {:induction false} PopStepsSum(cfg: Config, r: Run, c: nat, into: Item, a: nat, b: nat)
    requires IsSafeRun(cfg, r) && Bounded(cfg, r.Last()) && c < MAX_CONSUMERS && a < b <= |r.steps|
    requires Popping(r, c, into, a, b - 1)
    ensures c < |r.states[b].pops|
    ensures PopSteps(r.steps, c, a, b) + PopStepsLeft(cfg, r.states[b].pops[c]) <= cfg.width + 4
    decreases b
  {
    hide JoinsSafely, PopStepsLeft, Core;
    SafeRunIsCore(cfg, r, b - 1);
    assert JoinsSafely(cfg, r.states[b - 1], r.steps[b - 1], r.states[b - 1 + 1]);
    if a < b - 1 { PopStepsSum(cfg, r, c, into, a, b - 1); }
    PopStepCounts(cfg, r.states[b - 1], r.steps[b - 1], r.states[b], c);
  }

  /** A pop is wait-free: whatever the others do, it has at most the size of a payload and four steps. */
  lemma PopIsWaitFree(cfg: Config, r: Run, c: nat, into: Item, a: nat, j: nat)
    requires IsSafeRun(cfg, r) && Bounded(cfg, r.Last()) && c < MAX_CONSUMERS && Popping(r, c, into, a, j)
    ensures PopSteps(r.steps, c, a, j + 1) <= cfg.width + 4
  {
    PopStepsSum(cfg, r, c, into, a, j + 1);
  }
}
