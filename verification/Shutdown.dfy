/** A run of the queue, as the drain thread sees it until it ends. */
module Shutdown {
  import opened TailScan
  import opened QueueModel
  import opened QueueCore
  import opened QueueInvariant
  import opened QueueRefinement
  import opened QueueRuns
  import opened QueueCalls
  import opened QueueSafety
  import DrainLoop
  import TicketLog

  /** No push is in flight when the stop is requested, after k steps, and none begins later. */
  ghost predicate StopsCalmly(r: Run, k: nat) {
    && k <= |r.steps| < |r.states|
    && (forall t :: t in r.states[k].threads ==> !InPush(r.states[k].threads[t]))
    && forall j :: k <= j < |r.steps| ==> !r.steps[j].BeginPush?
  }

  lemma StaysOut(cfg: Config, s: State, step: Step)
    requires Shape(cfg, s) && Ready(cfg, s, step) && !step.BeginPush?
    requires forall t :: t in s.threads ==> !InPush(s.threads[t])
    ensures forall t :: t in Do(cfg, s, step).threads ==> !InPush(Do(cfg, s, step).threads[t])
    ensures !EventOf(cfg, s, step).Appended? && Do(cfg, s, step).log == s.log
  {
    hide PopShape, ScanStep;
  }

  lemma {:induction false} NoPushAfter(cfg: Config, r: Run, k: nat, j: nat)
    requires IsRun(cfg, r) && StopsCalmly(r, k) && k <= j <= |r.steps|
    ensures forall t :: t in r.states[j].threads ==> !InPush(r.states[j].threads[t])
    decreases j
  {
    if k < j {
      NoPushAfter(cfg, r, k, j - 1);
      assert Takes(cfg, r.states[j - 1], r.steps[j - 1], r.states[j]);
      StaysOut(cfg, r.states[j - 1], r.steps[j - 1]);
    }
  }

  lemma NothingAppendedAfter(cfg: Config, r: Run, k: nat)
    requires IsRun(cfg, r) && StopsCalmly(r, k)
    ensures forall e :: e in Events(cfg, r)[k..] ==> !e.Appended?
  {
    forall j | k <= j < |r.steps| ensures !Events(cfg, r)[j].Appended? {
      NoPushAfter(cfg, r, k, j);
      assert Takes(cfg, r.states[j], r.steps[j], r.states[j + 1]);
      StaysOut(cfg, r.states[j], r.steps[j]);
    }
  }

  lemma ReadableAtStop(cfg: Config, r: Run, k: nat)
    requires IsRun(cfg, r) && Bounded(cfg, r.Last()) && StopsCalmly(r, k)
    ensures |r.states[k].joins| == |r.states[k].consumers| && TicketLog.AllReadable(Abs(r.states[k]))
  {
    RunIsSafe(cfg, r, k);
    RunReaches(cfg, r, k);
    ReadableIffNoPushInFlight(cfg, r.states[k]);
  }

  /** The moves of the other threads in a run in which the stop is requested after k steps. */
  ghost function RunMoves(cfg: Config, r: Run, k: nat): seq<DrainLoop.Move>
    requires IsRun(cfg, r) && k <= |r.steps|
  {
    DrainLoop.MovesWithStop(Events(cfg, r), k)
  }

  /**
   Every run of the queue that stops calmly is a calm schedule of the drain loop's world, and leaves there the log and
   the readable positions that the run leaves in the queue.
   */
  lemma RunIsSchedule(cfg: Config, r: Run, k: nat)
    requires IsRun(cfg, r) && Bounded(cfg, r.Last()) && StopsCalmly(r, k)
    ensures DrainLoop.Calm(DrainLoop.World([], {}, false), RunMoves(cfg, r, k))
    ensures DrainLoop.ApplyAll(DrainLoop.World([], {}, false), RunMoves(cfg, r, k))
         == DrainLoop.World(r.Last().log, r.Last().published, true)
  {
    RegimeRunIsSafeRun(cfg, r);
    RunRefines(cfg, r);
    ReadableAtStop(cfg, r, k);
    NothingAppendedAfter(cfg, r, k);
    DrainLoop.HistoryIsCalm(cfg.size, Ledgers(cfg, r), Events(cfg, r), k);
  }

  /** Between the two states a pop of consumer c has returned. */
  predicate EndsPop(s: State, s': State, c: nat) {
    c < MAX_CONSUMERS && c < |s.pops| == |s'.pops| && !s.pops[c].PopIdle? && s'.pops[c].PopIdle?
  }

  lemma ReadWithinLog(cfg: Config, s: State, c: nat)
    requires Core(cfg, s) && c < MAX_CONSUMERS
    ensures s.consumers[c].tail in s.published ==> s.consumers[c].tail < |s.log|
  {
  }

  /**
   A pop in a run does what the drain loop's pop does to its world: it succeeds exactly when the position at the tail is
   readable, hands over the log's payload there, and moves the tail past it.
   */
  lemma PopAsDrained(cfg: Config, r: Run, i: nat, c: nat, stop: bool)
    requires IsRun(cfg, r) && Bounded(cfg, r.Last()) && i < |r.steps| && EndsPop(r.states[i], r.states[i + 1], c)
    ensures var s, s' := r.states[i], r.states[i + 1];
            && |s.consumers| == |s'.consumers| == MAX_CONSUMERS
            && var w, tail := DrainLoop.World(s.log, s.published, stop), s.consumers[c].tail;
               if DrainLoop.PopReady(w, tail)
               then && s.pops[c].PopCopying? && s.pops[c].buffer == w.log[tail]
                    && r.steps[i] == PopStore(c) && s'.consumers[c].tail == tail + 1
               else r.steps[i] == PopSequence(c) && s'.consumers[c].tail == tail
  {
    hide LogInv, SlotInv, ConsumerInv, ThreadsInv, Safe, Orderly;
    var s, s' := r.states[i], r.states[i + 1];
    RunIsSafe(cfg, r, i);
    RunIsSafe(cfg, r, i + 1);
    assert Takes(cfg, s, r.steps[i], s');
    PopEnds(cfg, s, r.steps[i], s', c);
    ReadWithinLog(cfg, s, c);
  }

  // ---------------------------------------------------------------------------------------------
  // Shutdown completeness inside the step system
  // ---------------------------------------------------------------------------------------------

  lemma {:induction false} LogStops(cfg: Config, r: Run, k: nat, j: nat)
    requires IsRun(cfg, r) && StopsCalmly(r, k) && k <= j <= |r.steps|
    ensures r.states[j].log == r.states[k].log
    decreases j
  {
    if k < j {
      LogStops(cfg, r, k, j - 1);
      NoPushAfter(cfg, r, k, j - 1);
      assert Takes(cfg, r.states[j - 1], r.steps[j - 1], r.states[j]);
      StaysOut(cfg, r.states[j - 1], r.steps[j - 1]);
    }
  }

  /** A pop of consumer c has returned and the consumer is where it was. */
  predicate FindsNothing(s: State, s': State, c: nat) {
    && EndsPop(s, s', c) && c < |s.consumers| == |s'.consumers|
    && s'.consumers[c].tail == s.consumers[c].tail
  }

  /** A pop that finds nothing while no push is in flight has a consumer that is at head. */
  lemma FoundNothing(cfg: Config, s: State, c: nat)
    requires Reachable(cfg, s) && Shape(cfg, s) && Ready(cfg, s, PopSequence(c))
    requires Do(cfg, s, PopSequence(c)).pops[c].PopIdle? && forall t :: t in s.threads ==> !InPush(s.threads[t])
    ensures s.consumers[c].active && s.consumers[c].tail == s.head == |s.log|
  {
    PopFailsIffUnpublished(cfg, s, c);
    PublishedMeans(cfg, s, s.consumers[c].tail);
    NoOverrun(cfg, s, 0, s.minTail);
    ReachableCore(cfg, s);
  }

  lemma CaughtUp(cfg: Config, r: Run, k: nat, j: nat, c: nat)
    requires IsRun(cfg, r) && Bounded(cfg, r.Last()) && StopsCalmly(r, k) && k <= j < |r.steps|
    requires FindsNothing(r.states[j], r.states[j + 1], c)
    ensures r.states[j].consumers[c].active && r.states[j].consumers[c].tail == |r.states[j].log|
    ensures r.states[j].log == r.Last().log
  {
    RunReaches(cfg, r, j);
    NoPushAfter(cfg, r, k, j);
    assert Takes(cfg, r.states[j], r.steps[j], r.states[j + 1]);
    PopAsDrained(cfg, r, j, c, true);
    FoundNothing(cfg, r.states[j], c);
    LogStops(cfg, r, k, j);
    LogStops(cfg, r, k, |r.steps|);
  }

  /** What a consumer has received at any point of a run. */
  lemma ReceivedUpto(cfg: Config, r: Run, j: nat, c: nat)
    requires IsRun(cfg, r) && Bounded(cfg, r.Last()) && j <= |r.steps| && c < MAX_CONSUMERS
    requires |r.states[j].consumers| == MAX_CONSUMERS && r.states[j].consumers[c].active
    ensures var s := r.states[j];
            && |s.joins| == MAX_CONSUMERS && s.joins[c] <= s.consumers[c].tail <= |s.log|
            && TicketLog.Stream(Events(cfg, r.Upto(j)), c) == s.log[s.joins[c]..s.consumers[c].tail]
  {
    RunReaches(cfg, r, j);
    UptoIsRun(cfg, r, j);
    RegimeRunIsSafeRun(cfg, r.Upto(j));
    ReceivedIsLog(cfg, r.Upto(j), c);
  }

  /**
   Whatever the other threads do meanwhile, refresh, pop or register: a consumer that finds nothing after a calm stop
   has received the whole log from where it joined.
   */
  lemma DrainedInRun(cfg: Config, r: Run, k: nat, j: nat, c: nat)
    requires IsRun(cfg, r) && Bounded(cfg, r.Last()) && StopsCalmly(r, k) && k <= j < |r.steps|
    requires FindsNothing(r.states[j], r.states[j + 1], c)
    ensures r.states[j].consumers[c].active && r.states[j].consumers[c].tail == |r.Last().log|
    ensures |r.states[j].joins| == MAX_CONSUMERS && r.states[j].joins[c] <= |r.Last().log|
    ensures TicketLog.Stream(Events(cfg, r.Upto(j)), c) == r.Last().log[r.states[j].joins[c]..]
  {
    CaughtUp(cfg, r, k, j, c);
    ReceivedUpto(cfg, r, j, c);
  }
}
