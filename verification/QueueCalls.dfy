/** Calls inside a run: what a push or a pop has done by the time it returns, whatever ran beside it. */
module QueueCalls {
  import opened RingIndex
  import opened TailScan
  import opened QueueModel
  import opened QueueCore
  import opened QueueInvariant
  import opened QueueRuns
  import TicketLog

  // ---------------------------------------------------------------------------------------------
  // A push
  // ---------------------------------------------------------------------------------------------

  /** The thread is inside push. */
  predicate InPush(pc: Pc) { Trying(pc) || pc.Copying? }

  /** The payload that the push is about. */
  function ItemOf(pc: Pc): Item
    requires InPush(pc)
  {
    if pc.Scanning? || pc.AtStoreMin? then pc.job.item else pc.item
  }

  /** A claim is what moves head, by one, and puts the claimer's payload at the end of the log. */
  lemma ClaimsGrow(cfg: Config, s: State, step: Step)
    requires Shape(cfg, s) && Ready(cfg, s, step)
    ensures var s' := Do(cfg, s, step);
            if Claims(s, step) then s'.head == Add64(s.head, 1) && s'.log == s.log + [At(s, step.t).item]
            else s'.head == s.head && s'.log == s.log
  {
  }

  /** A push keeps its payload and begins to copy exactly when it claims, at the position head had; it returns by
      publishing, or, if it has claimed nothing, by finding the queue full. */
  lemma PushMoves(cfg: Config, s: State, step: Step, t: Tid)
    requires Shape(cfg, s) && Ready(cfg, s, step) && InPush(At(s, t))
    ensures var pc, pc' := At(s, t), At(Do(cfg, s, step), t);
            if Claims(s, step) && step.t == t then Trying(pc) && pc' == Copying(ItemOf(pc), s.head, {})
            else if pc'.Idle? then if pc.Copying? then step == Publish(t) else ReturnsFull(cfg, s, step) && step.t == t
            else
              && InPush(pc') && ItemOf(pc') == ItemOf(pc)
              && (pc.Copying? <==> pc'.Copying?) && (pc.Copying? ==> pc'.pos == pc.pos)
  {
    if !MovedBy(step, t) { OthersUnmoved(cfg, s, step, t); }
  }

  /** The next stage of a push that does not return. */
  lemma PushGoesOn(cfg: Config, s: State, step: Step, s': State, t: Tid)
    requires JoinsSafely(cfg, s, step, s') && InPush(At(s, t)) && !At(s', t).Idle?
    ensures var pc, pc' := At(s, t), At(s', t);
            && InPush(pc') && ItemOf(pc') == ItemOf(pc)
            && if Claims(s, step) && step.t == t then !pc.Copying? && pc'.Copying? && pc'.pos == s.head
               else (pc.Copying? <==> pc'.Copying?) && (pc.Copying? ==> pc'.pos == pc.pos)
  {
    PushMoves(cfg, s, step, t);
  }

  lemma PushBegins(cfg: Config, s: State, step: Step, s': State, t: Tid, item: Item)
    requires JoinsSafely(cfg, s, step, s') && step == BeginPush(t, item)
    ensures InPush(At(s', t)) && ItemOf(At(s', t)) == item && !At(s', t).Copying? && !Claims(s, step)
  {
  }

  /** Step d of the run is a claim of thread t. */
  predicate ClaimBy(r: Run, d: nat, t: Tid) {
    d < |r.steps| < |r.states| && Claims(r.states[d], r.steps[d]) && r.steps[d].t == t
  }

  /** From step a, where it begins, until after step j, thread t is in one push of the item. */
  ghost predicate Pushing(r: Run, t: Tid, item: Item, a: nat, j: nat) {
    && a <= j < |r.steps| < |r.states| && r.steps[a] == BeginPush(t, item)
    && forall k :: a < k <= j ==> !At(r.states[k], t).Idle?
  }

  /** Between its call and its return the push has its payload, and has claimed once or not at all. */
  ghost predicate Stage(r: Run, t: Tid, item: Item, a: nat, k: nat, d: nat)
    requires a < k < |r.states|
  {
    var pc := At(r.states[k], t);
    && InPush(pc) && ItemOf(pc) == item
    && (pc.Copying? ==> a < d < k && ClaimBy(r, d, t) && pc.pos == r.states[d].head)
    && forall e :: a <= e < k && ClaimBy(r, e, t) ==> pc.Copying? && e == d
  }

  lemma {:induction false} PushStage(cfg: Config, r: Run, t: Tid, item: Item, a: nat, k: nat) returns (d: nat)
    requires IsSafeRun(cfg, r) && a < k <= |r.steps| && Pushing(r, t, item, a, k - 1) && !At(r.states[k], t).Idle?
    ensures Stage(r, t, item, a, k, d)
    decreases k
  {
    hide JoinsSafely, Trying;
    var s, step := r.states[k - 1], r.steps[k - 1];
    assert JoinsSafely(cfg, s, step, r.states[k]);
    d := 0;
    if k - 1 == a {
      PushBegins(cfg, s, step, r.states[k], t, item);
    } else {
      d := PushStage(cfg, r, t, item, a, k - 1);
      PushGoesOn(cfg, s, step, r.states[k], t);
      if ClaimBy(r, k - 1, t) { d := k - 1; }
    }
  }

  /**
   A push, from its call to its return, in any run: it returns false after a scan that found the queue full and has
   appended nothing, or it returns true and has appended its own payload, once, in between, and that is readable.
   */
  lemma PushOutcome(cfg: Config, r: Run, t: Tid, item: Item, a: nat, j: nat) returns (d: nat)
    requires IsSafeRun(cfg, r) && Bounded(cfg, r.Last()) && a < j && Pushing(r, t, item, a, j)
    requires At(r.states[j + 1], t).Idle?
    ensures Shape(cfg, r.states[j]) && Ready(cfg, r.states[j], r.steps[j])
    ensures if r.steps[j] != Publish(t)
            then ReturnsFull(cfg, r.states[j], r.steps[j]) && r.steps[j].t == t
                 && forall e :: a <= e <= j ==> !ClaimBy(r, e, t)
            else && a < d < j && ClaimBy(r, d, t) && (forall e :: a <= e <= j && ClaimBy(r, e, t) ==> e == d)
                 && r.states[d].head < |r.Last().log| && r.Last().log[r.states[d].head] == item
                 && r.states[d].head in r.states[j + 1].published
  {
    assert JoinsSafely(cfg, r.states[j], r.steps[j], r.states[j + 1]);
    d := PushStage(cfg, r, t, item, a, j);
    PushMoves(cfg, r.states[j], r.steps[j], t);
    if r.steps[j] == Publish(t) {
      PushClaimed(cfg, r, t, item, a, d);
    }
  }

  /** What a push claims, at any time before it returns, is its own payload, at the position head had. */
  lemma PushClaimed(cfg: Config, r: Run, t: Tid, item: Item, a: nat, d: nat)
    requires IsSafeRun(cfg, r) && Bounded(cfg, r.Last()) && a < d && Pushing(r, t, item, a, d) && ClaimBy(r, d, t)
    ensures r.states[d].head < |r.Last().log| && r.Last().log[r.states[d].head] == item
  {
    var before := PushStage(cfg, r, t, item, a, d);
    ClaimTakesHead(cfg, r, d);
  }

  /** And what a consumer that joined earlier and has read past that position received there. */
  lemma PushReceived(cfg: Config, r: Run, t: Tid, item: Item, a: nat, d: nat, c: nat)
    requires IsSafeRun(cfg, r) && Bounded(cfg, r.Last()) && a < d && Pushing(r, t, item, a, d) && ClaimBy(r, d, t)
    requires c < MAX_CONSUMERS && |r.Last().consumers| == |r.Last().joins| == MAX_CONSUMERS
    requires r.Last().consumers[c].active && r.Last().joins[c] <= r.states[d].head < r.Last().consumers[c].tail
    ensures var stream, k := TicketLog.Stream(Events(cfg, r), c), r.states[d].head - r.Last().joins[c];
            k < |stream| && stream[k] == item
  {
    var before := PushStage(cfg, r, t, item, a, d);
    ClaimReceived(cfg, r, d, c);
  }

  // ---------------------------------------------------------------------------------------------
  // A refresh, and what a push stores
  // ---------------------------------------------------------------------------------------------

  /** The scan of a push is needed: the head it loaded is full by the min_tail it loaded; and what it is about to store
      is another value. */
  predicate Needed(cfg: Config, pc: Pc) {
    ((pc.Scanning? || pc.AtStoreMin?) && pc.job.PushJob? ==>
       cfg.size < WORD && pc.job.minTail < WORD && pc.job.head >= Add64(pc.job.minTail, cfg.size))
    && (pc.AtStoreMin? && pc.job.PushJob? ==> pc.result != pc.job.minTail)
  }

  lemma KeepsNeeded(cfg: Config, s: State, step: Step, s': State, t: Tid)
    requires JoinsSafely(cfg, s, step, s') && Needed(cfg, At(s, t))
    ensures Needed(cfg, At(s', t))
    ensures s'.minTail != s.minTail ==> step.StoreMin? && s'.minTail == At(s, step.t).result
  {
    hide Permits, PcShape, PopShape;
    if !MovedBy(step, t) { OthersUnmoved(cfg, s, step, t); }
  }

  /** A push scans only when the queue looks full to it, and stores min_tail only if the scan yielded another value. */
  lemma {:induction false} PushScansWhenNeeded(cfg: Config, r: Run, j: nat, t: Tid)
    requires IsSafeRun(cfg, r) && j <= |r.steps|
    ensures Needed(cfg, At(r.states[j], t))
    decreases j
  {
    hide JoinsSafely;
    if j > 0 {
      PushScansWhenNeeded(cfg, r, j - 1, t);
      assert JoinsSafely(cfg, r.states[j - 1], r.steps[j - 1], r.states[j - 1 + 1]);
      KeepsNeeded(cfg, r.states[j - 1], r.steps[j - 1], r.states[j], t);
    }
  }

  /** From step a, where it begins, until after step j, thread t is in one refresh. */
  ghost predicate Refreshing(r: Run, t: Tid, a: nat, j: nat) {
    && a <= j < |r.steps| < |r.states| && r.steps[a] == BeginRefresh(t)
    && forall k :: a < k <= j ==> !At(r.states[k], t).Idle?
  }

  lemma RefreshMoves(cfg: Config, s: State, step: Step, s': State, t: Tid, start: Snapshot)
    requires Takes(cfg, s, step, s')
    requires step == BeginRefresh(t) || InScan(At(s, t), RefreshJob, start)
    ensures var begun := if step == BeginRefresh(t) then Begun(s) else start;
            if At(s', t).Idle? then At(s, t).AtStoreMin? && step == StoreMin(t) && s'.minTail == At(s, t).result
            else InScan(At(s', t), RefreshJob, begun)
    ensures step == BeginRefresh(t) ==> At(s, t).Idle?
    ensures step != BeginRefresh(t) && At(s', t).Idle? ==> s'.consumers == s.consumers
  {
    if !MovedBy(step, t) { OthersUnmoved(cfg, s, step, t); }
  }

  lemma {:induction false} RefreshStage(cfg: Config, r: Run, t: Tid, a: nat, k: nat)
    requires IsRun(cfg, r) && a < k <= |r.steps| && Refreshing(r, t, a, k - 1) && !At(r.states[k], t).Idle?
    ensures InScan(At(r.states[k], t), RefreshJob, Begun(r.states[a]))
    decreases k
  {
    hide Takes, InScan;
    var s, step := r.states[k - 1], r.steps[k - 1];
    assert Takes(cfg, s, step, r.states[k]);
    if k - 1 > a { RefreshStage(cfg, r, t, a, k - 1); }
    RefreshMoves(cfg, s, step, r.states[k], t, Begun(r.states[a]));
  }

  /** When a refresh returns, min_tail is at most every active tail, and, with a consumer active, at least the least
      active tail at its call. */
  lemma RefreshOutcome(cfg: Config, r: Run, t: Tid, a: nat, j: nat)
    requires IsRun(cfg, r) && Bounded(cfg, r.Last()) && a < j && Refreshing(r, t, a, j) && At(r.states[j + 1], t).Idle?
    ensures var s' := r.states[j + 1];
            && (forall c :: 0 <= c < |s'.consumers| && s'.consumers[c].active ==> s'.minTail <= s'.consumers[c].tail)
            && (SomeActive(s'.consumers) || s'.minTail > 0 ==> ScalarMin(r.states[a].consumers) <= s'.minTail)
  {
    var s := r.states[j];
    RunIsSafe(cfg, r, j);
    RefreshStage(cfg, r, t, a, j);
    assert Takes(cfg, s, r.steps[j], r.states[j + 1]);
    RefreshMoves(cfg, s, r.steps[j], r.states[j + 1], t, Begun(r.states[a]));
    assert PcInv(cfg, s, t, At(s, t)) && PcOrderly(cfg, s, At(s, t));
  }

  // ---------------------------------------------------------------------------------------------
  // A registration
  // ---------------------------------------------------------------------------------------------

  /** From step a, where it begins, until after step j, thread t is in one registration. */
  ghost predicate Enrolling(r: Run, t: Tid, a: nat, j: nat) {
    && a <= j < |r.steps| < |r.states| && r.steps[a] == BeginRegister(t)
    && forall k :: a < k <= j ==> !At(r.states[k], t).Idle?
  }

  /** The 33rd registration and all later ones are refused at once; only the counter moves. */
  lemma RegistrationsRefused(cfg: Config, s: State, t: Tid)
    requires Shape(cfg, s) && Ready(cfg, s, BeginRegister(t))
    ensures var s' := Do(cfg, s, BeginRegister(t));
            if s.numConsumers >= 32 then s' == s.(numConsumers := s.numConsumers + 1)
            else !At(s', t).Idle? && s'.numConsumers == s.numConsumers + 1 && s'.consumers == s.consumers
  {
  }

  /** The registration has not loaded head, or it did so at step l, and has set its tail to that or is about to. */
  ghost predicate Enrolled(r: Run, t: Tid, a: nat, k: nat, l: nat)
    requires a < k < |r.states|
  {
    var s := r.states[k];
    var id := r.states[a].numConsumers;
    match At(s, t)
    case AtRegisterLoad(i) => i == id
    case AtRegisterTail(i, head) =>
      i == id && a < l < k <= |r.steps| && r.steps[l] == RegisterLoad(t) && head == r.states[l].head
    case AtRegisterActivate(i) =>
      && i == id && a < l < k <= |r.steps| && r.steps[l] == RegisterLoad(t)
      && id < |s.consumers| && s.consumers[id].tail == r.states[l].head
    case _ => false
  }

  lemma RegistrationMoves(cfg: Config, s: State, step: Step, s': State, t: Tid)
    requires JoinsSafely(cfg, s, step, s') && Core(cfg, s) && Bounded(cfg, s)
    requires Registering(At(s, t)) || step == BeginRegister(t)
    ensures step == BeginRegister(t) ==> At(s, t).Idle?
    ensures var pc, pc' := At(s, t), At(s', t);
            match pc
            case AtRegisterLoad(id) => pc' == pc || (step == RegisterLoad(t) && pc' == AtRegisterTail(id, s.head))
            case AtRegisterTail(id, head) =>
              pc' == pc || (pc' == AtRegisterActivate(id) && id < |s'.consumers| && s'.consumers[id].tail == head)
            case AtRegisterActivate(id) =>
              && id < |s.consumers| == |s'.consumers| && s'.consumers[id].tail == s.consumers[id].tail
              && (pc' == pc || (pc'.Idle? && s'.consumers[id].active))
            case _ => pc' == AtRegisterLoad(s.numConsumers) || pc' == pc
  {
    if Registering(At(s, t)) && !MovedBy(step, t) {
      OthersUnmoved(cfg, s, step, t);
      JoinerKept(cfg, s, step, t);
    }
  }

  lemma {:induction false} RegistrationStage(cfg: Config, r: Run, t: Tid, a: nat, k: nat) returns (l: nat)
    requires IsSafeRun(cfg, r) && Bounded(cfg, r.Last())
    requires a < k <= |r.steps| && Enrolling(r, t, a, k - 1) && !At(r.states[k], t).Idle?
    ensures Enrolled(r, t, a, k, l)
    decreases k
  {
    hide JoinsSafely, Core;
    var s, step := r.states[k - 1], r.steps[k - 1];
    assert JoinsSafely(cfg, s, step, r.states[k]);
    SafeRunIsCore(cfg, r, k - 1);
    l := 0;
    if k - 1 > a {
      l := RegistrationStage(cfg, r, t, a, k - 1);
      if At(s, t).AtRegisterLoad? { l := k - 1; }
    }
    RegistrationMoves(cfg, s, step, r.states[k], t);
  }

  /** A registration that returns has made the next id active, at the head that it loaded in between. */
  lemma RegistrationOutcome(cfg: Config, r: Run, t: Tid, a: nat, j: nat) returns (l: nat)
    requires IsSafeRun(cfg, r) && Bounded(cfg, r.Last()) && a < j && Enrolling(r, t, a, j)
    requires At(r.states[j + 1], t).Idle?
    ensures a < l < j && r.steps[l] == RegisterLoad(t)
    ensures var id, cs := r.states[a].numConsumers, r.states[j + 1].consumers;
            id < |cs| && cs[id] == Consumer(r.states[l].head, true)
  {
    l := RegistrationStage(cfg, r, t, a, j);
    SafeRunIsCore(cfg, r, j);
    assert JoinsSafely(cfg, r.states[j], r.steps[j], r.states[j + 1]);
    RegistrationMoves(cfg, r.states[j], r.steps[j], r.states[j + 1], t);
  }

  // ---------------------------------------------------------------------------------------------
  // A pop
  // ---------------------------------------------------------------------------------------------

  /** A pop of an inactive consumer returns at once and changes nothing; another one goes on. */
  lemma PopBegins(cfg: Config, s: State, c: nat, into: Item)
    requires Shape(cfg, s) && Ready(cfg, s, PopBegin(c, into))
    ensures var s' := Do(cfg, s, PopBegin(c, into));
            if s.consumers[c].active then |s'.pops| == MAX_CONSUMERS && !s'.pops[c].PopIdle? else s' == s
  {
  }

  /** The ways out of a pop. */
  lemma PopReturns(cfg: Config, s: State, step: Step, c: nat)
    requires Core(cfg, s) && Bounded(cfg, s) && Ready(cfg, s, step) && c < MAX_CONSUMERS && !s.pops[c].PopIdle?
    requires |Do(cfg, s, step).pops| == MAX_CONSUMERS && Do(cfg, s, step).pops[c].PopIdle?
    ensures step == PopStore(c) || (step == PopSequence(c) && s.consumers[c].tail !in s.published)
  {
    hide LogInv, SlotInv, ConsumerInv, ThreadsInv, Safe;
    assert PopInv(cfg, s, c, s.pops[c]);
    if step == PopSequence(c) { SequenceTells(cfg, s, c); }
  }

  /** From step a, where it begins, until after step j, consumer c is in one pop. */
  ghost predicate Popping(r: Run, c: nat, into: Item, a: nat, j: nat) {
    && a <= j < |r.steps| < |r.states| && r.steps[a] == PopBegin(c, into)
    && forall k :: a < k <= j ==> c < |r.states[k].pops| && !r.states[k].pops[c].PopIdle?
  }

  lemma TailUnset(cfg: Config, s: State, step: Step, c: nat)
    requires Shape(cfg, s) && Ready(cfg, s, step) && c < MAX_CONSUMERS && !step.RegisterTail? && step != PopStore(c)
    ensures |Do(cfg, s, step).consumers| == MAX_CONSUMERS
    ensures Do(cfg, s, step).consumers[c].tail == s.consumers[c].tail
  {
    hide PopShape, ScanStep, AfterMin;
  }

  /** Only the consumer's own pop moves its tail. */
  lemma TailKept(cfg: Config, s: State, step: Step, c: nat)
    requires Core(cfg, s) && Bounded(cfg, s) && Ready(cfg, s, step) && c < MAX_CONSUMERS && s.consumers[c].active
    requires step != PopStore(c)
    ensures |Do(cfg, s, step).consumers| == MAX_CONSUMERS
    ensures Do(cfg, s, step).consumers[c].tail == s.consumers[c].tail
  {
    if step.RegisterTail? {
      assert PcInv(cfg, s, step.t, At(s, step.t));
    } else {
      TailUnset(cfg, s, step, c);
    }
  }

  /** What a pop has done when it returns. */
  lemma PopEnds(cfg: Config, s: State, step: Step, s': State, c: nat)
    requires Core(cfg, s) && Bounded(cfg, s) && Ready(cfg, s, step) && s' == Do(cfg, s, step)
    requires c < MAX_CONSUMERS && !s.pops[c].PopIdle? && |s'.pops| == MAX_CONSUMERS && s'.pops[c].PopIdle?
    ensures |s'.consumers| == MAX_CONSUMERS && s.consumers[c].active
    ensures var tail := s.consumers[c].tail;
            if tail in s.published
            then && step == PopStore(c) && s'.consumers[c].tail == tail + 1
                 && s.pops[c].PopCopying? && tail < |s.log| && s.pops[c].buffer == s.log[tail]
            else step == PopSequence(c) && s'.consumers[c].tail == tail
  {
    hide LogInv, SlotInv, ConsumerInv, ThreadsInv, Safe;
    PopReturns(cfg, s, step, c);
    assert PopInv(cfg, s, c, s.pops[c]);
    if step == PopStore(c) { PopStoreConsumers(cfg, s, c); } else { TailKept(cfg, s, step, c); }
  }

  lemma PopGoesOn(cfg: Config, s: State, step: Step, s': State, c: nat)
    requires JoinsSafely(cfg, s, step, s') && Core(cfg, s) && Bounded(cfg, s) && Core(cfg, s')
    requires c < |s'.pops| && !s'.pops[c].PopIdle?
    ensures c < |s.consumers| == |s'.consumers| == |s.pops| == MAX_CONSUMERS && s'.consumers[c].active
    ensures s.consumers[c].active && s'.consumers[c].tail == s.consumers[c].tail
  {
    hide LogInv, SlotInv, ConsumerInv, ThreadsInv, Safe;
    assert PopInv(cfg, s, c, s.pops[c]) && PopInv(cfg, s', c, s'.pops[c]);
    TailKept(cfg, s, step, c);
  }

  lemma {:induction false} PopStage(cfg: Config, r: Run, c: nat, into: Item, a: nat, k: nat)
    requires IsSafeRun(cfg, r) && Bounded(cfg, r.Last())
    requires a < k <= |r.steps| && Popping(r, c, into, a, k - 1)
    requires c < |r.states[k].pops| && !r.states[k].pops[c].PopIdle?
    ensures c < |r.states[k].consumers| == |r.states[a].consumers| == MAX_CONSUMERS
    ensures r.states[a].consumers[c].active && r.states[k].consumers[c].active
    ensures r.states[k].consumers[c].tail == r.states[a].consumers[c].tail
    decreases k
  {
    hide JoinsSafely, Core;
    var s, step := r.states[k - 1], r.steps[k - 1];
    assert JoinsSafely(cfg, s, step, r.states[k]);
    SafeRunIsCore(cfg, r, k - 1);
    SafeRunIsCore(cfg, r, k);
    PopGoesOn(cfg, s, step, r.states[k], c);
    if k - 1 > a { PopStage(cfg, r, c, into, a, k - 1); }
  }

  /**
   A pop, from its call to its return, in any run: it hands over the log's payload at the tail that the consumer had,
   and moves the tail past it, or it finds that position unpublished and leaves the tail.
   */
  lemma PopOutcome(cfg: Config, r: Run, c: nat, into: Item, a: nat, j: nat)
    requires IsSafeRun(cfg, r) && Bounded(cfg, r.Last()) && a < j && Popping(r, c, into, a, j)
    requires c < |r.states[j + 1].pops| && r.states[j + 1].pops[c].PopIdle?
    ensures c < |r.states[a].consumers| == |r.states[j + 1].consumers| && r.states[a].consumers[c].active
    ensures c < |r.states[j].pops|
    ensures var tail, tail' := r.states[a].consumers[c].tail, r.states[j + 1].consumers[c].tail;
            if tail in r.states[j].published
            then && r.steps[j] == PopStore(c) && tail' == tail + 1 && tail < |r.Last().log|
                 && r.states[j].pops[c].PopCopying? && r.states[j].pops[c].buffer == r.Last().log[tail]
            else r.steps[j] == PopSequence(c) && tail' == tail
  {
    hide LogInv, SlotInv, ConsumerInv, ThreadsInv, Safe;
    PopStage(cfg, r, c, into, a, j);
    SafeRunIsCore(cfg, r, j);
    SafeRunIsCore(cfg, r, j + 1);
    SafeLogGrows(cfg, r, j, |r.steps|);
    assert JoinsSafely(cfg, r.states[j], r.steps[j], r.states[j + 1]);
    PopEnds(cfg, r.states[j], r.steps[j], r.states[j + 1], c);
  }
}
