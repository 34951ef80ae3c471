/** Outside the regime: two runs that lose slot ownership, and which registrations are safe. */
module QueueOutsideRegime {
  import opened Bytes
  import opened RingIndex
  import opened TailScan
  import opened QueueModel
  import opened QueueCore
  import opened QueueInvariant
  import opened QueueSolo

  // ---------------------------------------------------------------------------------------------
  // One thread pushes, consumer 0 reads
  // ---------------------------------------------------------------------------------------------

  /** k positions are claimed, and consumer 0, the only active one, has read up to k; thread t is idle. */
  ghost predicate Fed(cfg: Config, s: State, t: Tid, k: nat) {
    && Shape(cfg, s) && k <= cfg.size && s.head == k && s.minTail == 0
    && At(s, t) == Idle && s.pops[0] == PopIdle && s.consumers[0] == Consumer(k, true)
    && forall c :: 1 <= c < MAX_CONSUMERS ==> !s.consumers[c].active
  }

  /** Other threads, registrations and slot 0 are as they were. */
  ghost predicate Spared(s: State, s': State, t: Tid) {
    && (forall u :: u != t ==> At(s', u) == At(s, u))
    && s'.numConsumers == s.numConsumers && |s'.consumers| == |s.consumers|
  }

  /** One more push by thread t that consumer 0 reads. */
  lemma OneRound(cfg: Config, rule: Rule, s: State, t: Tid, item: Item, k: nat) returns (steps: seq<Step>, s': State)
    requires Fed(cfg, s, t, k) && k < cfg.size && Allowed(cfg, rule, s, BeginPush(t, item))
    ensures Leads(cfg, rule, s, steps, s') && Fed(cfg, s', t, k + 1) && Spared(s, s', t)
  {
    steps := PushAlone(cfg, rule, s, t, item);
    var m := SoloPush(cfg, s, t, item);
    assert Shape(cfg, m);
    var more := PopAlone(cfg, rule, m, 0, item);
    s' := SoloPop(cfg, m, 0);
    LeadsJoin(cfg, rule, s, steps, m, more, s');
    steps := steps + more;
    assert Shape(cfg, s');
  }

  /** Whether another push may begin does not depend on the rounds so far. */
  lemma MayPushAgain(cfg: Config, rule: Rule, s: State, s': State, t: Tid, item: Item)
    requires Allowed(cfg, rule, s, BeginPush(t, item)) && Spared(s, s', t) && At(s', t) == Idle && Shape(cfg, s')
    ensures Allowed(cfg, rule, s', BeginPush(t, item))
  {
    if NoRegistration(s) {
      forall u | u in s'.threads ensures !Registering(s'.threads[u]) {
        assert At(s', u) == if u == t then Idle else At(s, u);
      }
    }
  }

  lemma {:induction false} Rounds(cfg: Config, rule: Rule, s: State, t: Tid, item: Item, k: nat)
    returns (steps: seq<Step>, s': State)
    requires Fed(cfg, s, t, k) && Allowed(cfg, rule, s, BeginPush(t, item))
    ensures Leads(cfg, rule, s, steps, s') && Fed(cfg, s', t, cfg.size) && Spared(s, s', t)
    ensures Allowed(cfg, rule, s', BeginPush(t, item))
    decreases cfg.size - k
  {
    if k == cfg.size {
      steps, s' := [], s;
    } else {
      var first, m := OneRound(cfg, rule, s, t, item, k);
      MayPushAgain(cfg, rule, s, m, t, item);
      var rest;
      rest, s' := Rounds(cfg, rule, m, t, item, k + 1);
      LeadsJoin(cfg, rule, s, first, m, rest, s');
      steps := first + rest;
    }
  }

  lemma OneActive(cs: seq<Consumer>)
    requires |cs| == MAX_CONSUMERS && cs[0].active && cs[0].tail < INVALID_POS
    requires forall c :: 1 <= c < MAX_CONSUMERS ==> !cs[c].active
    ensures ScalarMin(cs) == cs[0].tail
  {
    MinOverBounds(cs);
  }

  /** Once consumer 0 has read SIZE positions, the next push refreshes min_tail to SIZE and is not full. */
  lemma RoomAfterRounds(cfg: Config, s: State, t: Tid)
    requires Fed(cfg, s, t, cfg.size) && 2 * cfg.size < WORD
    ensures SoloMin(cfg, s) == cfg.size && !SoloPushFails(cfg, s)
  {
    OneActive(s.consumers);
  }

  // ---------------------------------------------------------------------------------------------
  // A consumer that registers during a push
  // ---------------------------------------------------------------------------------------------

  lemma ClaimedFirst(cfg: Config, s: State, item: Item)
    requires IsInit(cfg, s) && |item| == cfg.width
    ensures SoloMin(cfg, s) == 0 && !SoloPushFails(cfg, s) && s.(minTail := SoloMin(cfg, s)) == s
    ensures Shape(cfg, Claimed(s, 0, item)) && Claimed(s, 0, item).head == 1
    ensures Claimed(s, 0, item).threads == map[0 := Copying(item, 0, {})]
  {
    ClaimedShape(cfg, s, 0, item);
  }

  lemma JoinedFed(cfg: Config, s: State, m: State, item: Item)
    requires IsInit(cfg, s) && |item| == cfg.width && m == Claimed(s, 0, item) && Shape(cfg, m) && m.head == 1
    requires m.threads == map[0 := Copying(item, 0, {})]
    ensures var s' := SoloRegister(m, 1);
            Fed(cfg, s', 1, 1) && At(s', 0) == Copying(item, 0, {}) && s'.numConsumers == 1 && NoRegistration(s')
  {
    assert Shape(cfg, SoloRegister(m, 1));
  }

  /** A producer claims position 0 and stalls; a consumer registers behind its back. */
  lemma StallAndJoin(cfg: Config, s: State, item: Item) returns (steps: seq<Step>, s': State)
    requires IsInit(cfg, s) && |item| == cfg.width
    ensures Leads(cfg, ButRegistrations, s, steps, s') && Fed(cfg, s', 1, 1) && At(s', 0) == Copying(item, 0, {})
    ensures s'.numConsumers == 1 && NoRegistration(s')
  {
    ClaimedFirst(cfg, s, item);
    steps := ClaimAlone(cfg, ButRegistrations, s, 0, item);
    var m := Claimed(s, 0, item);
    var more := RegisterAlone(cfg, ButRegistrations, m, 1);
    s' := SoloRegister(m, 1);
    JoinedFed(cfg, s, m, item);
    LeadsJoin(cfg, ButRegistrations, s, steps, m, more, s');
    steps := steps + more;
  }

  lemma StallAndFeed(cfg: Config, s: State, item: Item) returns (steps: seq<Step>, s': State)
    requires IsInit(cfg, s) && |item| == cfg.width
    ensures Leads(cfg, ButRegistrations, s, steps, s') && Fed(cfg, s', 1, cfg.size) && At(s', 0) == Copying(item, 0, {})
    ensures s'.numConsumers == 1 && Allowed(cfg, ButRegistrations, s', BeginPush(1, item))
  {
    var first, m := StallAndJoin(cfg, s, item);
    var second;
    second, s' := Rounds(cfg, ButRegistrations, m, 1, item, 1);
    LeadsJoin(cfg, ButRegistrations, s, first, m, second, s');
    steps := first + second;
  }

  lemma SecondClaim(cfg: Config, s: State, item: Item)
    requires Fed(cfg, s, 1, cfg.size) && At(s, 0) == Copying(item, 0, {})
    ensures var s' := Claimed(s.(minTail := cfg.size), 1, item);
            && s'.numConsumers == s.numConsumers
            && At(s', 0) == Copying(item, 0, {}) && At(s', 1) == Copying(item, cfg.size, {})
    ensures cfg.Valid() && SlotOf(cfg, 0) == SlotOf(cfg, cfg.size)
  {
    RingDistinct(0, 0, cfg.size);
  }

  /**
   A consumer that registers while a position is claimed but unpublished breaks slot ownership, whatever the size of the
   queue: SIZE pushes later a second producer claims the slot the first still writes. Only one registration begins in
   the run, and it is the only step outside the regime.
   */
  lemma LateJoinerBreaksOwnership(cfg: Config, s: State, item: Item) returns (steps: seq<Step>, s': State)
    requires IsInit(cfg, s) && |item| == cfg.width && 2 * cfg.size < WORD
    ensures Leads(cfg, ButRegistrations, s, steps, s') && s'.numConsumers == 1
    ensures At(s', 0).Copying? && At(s', 1).Copying?
    ensures SlotOf(cfg, At(s', 0).pos) == SlotOf(cfg, At(s', 1).pos)
  {
    var first, n := StallAndFeed(cfg, s, item);
    RoomAfterRounds(cfg, n, 1);
    var second := ClaimAlone(cfg, ButRegistrations, n, 1, item);
    s' := Claimed(n.(minTail := cfg.size), 1, item);
    SecondClaim(cfg, n, item);
    LeadsJoin(cfg, ButRegistrations, s, first, n, second, s');
    steps := first + second;
  }

  // ---------------------------------------------------------------------------------------------
  // A registration with pushes between its load and its activation
  // ---------------------------------------------------------------------------------------------

  /** Consumer 0 is registered, and thread 1 is about to load head 0 for consumer 1. */
  ghost predicate Loading(cfg: Config, s: State) {
    && Fed(cfg, s, 2, 0) && s.numConsumers == 2 && At(s, 1) == AtRegisterLoad(1)
    && forall u :: u in s.threads && u != 1 ==> s.threads[u].Idle?
  }

  /** It has loaded head 0. */
  ghost predicate LoadedStale(cfg: Config, s: State) {
    && Fed(cfg, s, 2, 0) && s.numConsumers == 2 && At(s, 1) == AtRegisterTail(1, 0)
    && forall u :: u in s.threads && u != 1 ==> s.threads[u].Idle?
  }

  /** No producer is between claim and publication. */
  predicate NoneCopying(s: State) {
    forall u :: u in s.threads ==> !s.threads[u].Copying?
  }

  lemma RegisteredFirst(cfg: Config, s: State)
    requires IsInit(cfg, s)
    ensures var m := SoloRegister(s, 0);
            Shape(cfg, m) && m.threads == map[0 := Idle] && Fed(cfg, m, 2, 0) && m.numConsumers == 1
  {
    assert Shape(cfg, SoloRegister(s, 0));
  }

  lemma TakesSecondId(cfg: Config, m: State)
    requires Fed(cfg, m, 2, 0) && m.numConsumers == 1 && m.threads == map[0 := Idle]
    ensures Allowed(cfg, ButPushes, m, BeginRegister(1)) && Do(cfg, m, BeginRegister(1)) == IdTaken(m, 1)
    ensures Loading(cfg, IdTaken(m, 1))
  {
    assert Shape(cfg, IdTaken(m, 1));
  }

  /** Consumer 0 registers, and thread 1 begins to register consumer 1. */
  lemma RegisterAndBegin(cfg: Config, s: State) returns (steps: seq<Step>, s': State)
    requires IsInit(cfg, s)
    ensures Leads(cfg, ButPushes, s, steps, s') && Loading(cfg, s')
  {
    steps := RegisterAlone(cfg, ButPushes, s, 0);
    var m := SoloRegister(s, 0);
    RegisteredFirst(cfg, s);
    TakesSecondId(cfg, m);
    Then(cfg, ButPushes, s, steps, m, BeginRegister(1));
    steps := steps + [BeginRegister(1)];
    s' := IdTaken(m, 1);
  }

  lemma LoadsStale(cfg: Config, s: State)
    requires Loading(cfg, s)
    ensures Allowed(cfg, ButPushes, s, RegisterLoad(1)) && LoadedStale(cfg, Do(cfg, s, RegisterLoad(1)))
  {
    GoShape(cfg, s, 1, AtRegisterTail(1, 0));
  }

  /** The next push after SIZE rounds takes slot 0 again. */
  lemma Overtake(cfg: Config, s: State, item: Item) returns (steps: seq<Step>, s': State)
    requires Fed(cfg, s, 2, cfg.size) && 2 * cfg.size < WORD && Allowed(cfg, ButPushes, s, BeginPush(2, item))
    requires At(s, 1) == AtRegisterTail(1, 0) && s.numConsumers == 2
    requires forall u :: u in s.threads && u != 1 ==> s.threads[u].Idle?
    ensures Leads(cfg, ButPushes, s, steps, s') && Shape(cfg, s')
    ensures s'.head == cfg.size + 1 && s'.minTail == cfg.size && s'.slots[0].sequence == cfg.size
    ensures At(s', 1) == AtRegisterTail(1, 0) && s'.numConsumers == 2 && s'.pops[1] == s.pops[1]
    ensures NoneCopying(s') && s'.consumers == s.consumers
  {
    RoomAfterRounds(cfg, s, 2);
    RingDistinct(0, 0, cfg.size);
    steps := PushAlone(cfg, ButPushes, s, 2, item);
    s' := SoloPush(cfg, s, 2, item);
    assert Shape(cfg, s');
    forall u | u in s'.threads ensures !s'.threads[u].Copying? {
      assert At(s', u) == if u == 2 then Idle else At(s, u);
    }
  }

  lemma SparedIdle(cfg: Config, s: State, s': State)
    requires LoadedStale(cfg, s) && Spared(s, s', 2) && At(s', 2) == Idle
    ensures At(s', 1) == AtRegisterTail(1, 0) && s'.numConsumers == 2
    ensures forall u :: u in s'.threads && u != 1 ==> s'.threads[u].Idle?
  {
    forall u | u in s'.threads && u != 1 ensures s'.threads[u].Idle? {
      assert At(s', u) == if u == 2 then Idle else At(s, u);
    }
  }

  lemma StaleUptoJoin(cfg: Config, s: State, item: Item) returns (steps: seq<Step>, s': State)
    requires Loading(cfg, s) && |item| == cfg.width && 2 * cfg.size < WORD
    ensures Leads(cfg, ButPushes, s, steps, s') && Shape(cfg, s')
    ensures s'.head == cfg.size + 1 && s'.minTail == cfg.size && s'.slots[0].sequence == cfg.size
    ensures At(s', 1) == AtRegisterTail(1, 0) && s'.numConsumers == 2 && NoneCopying(s')
  {
    LoadsStale(cfg, s);
    One(cfg, ButPushes, s, RegisterLoad(1));
    var a := Do(cfg, s, RegisterLoad(1));
    var second, b := Rounds(cfg, ButPushes, a, 2, item, 0);
    SparedIdle(cfg, a, b);
    var third;
    third, s' := Overtake(cfg, b, item);
    LeadsJoin3(cfg, ButPushes, s, [RegisterLoad(1)], a, second, b, third, s');
    steps := [RegisterLoad(1)] + second + third;
  }

  /** Consumer c is active, and everything below its tail is published; but head is past the tail by more than SIZE,
      min_tail has overtaken it, its slot holds a later position, and a pop fails. */
  ghost predicate Overtaken(cfg: Config, s: State, c: nat) {
    && Shape(cfg, s) && c < MAX_CONSUMERS && s.consumers[c].active
    && var tail := s.consumers[c].tail;
       && PublishedBelow(s, tail)
       && s.head > tail + cfg.size && s.minTail > tail
       && s.slots[SlotOf(cfg, tail)].sequence > tail && SoloPopFails(cfg, s, c)
  }

  lemma MaySetTail(cfg: Config, b: State)
    requires Shape(cfg, b) && At(b, 1).AtRegisterTail?
    ensures Allowed(cfg, ButPushes, b, RegisterTail(1))
  {
  }

  lemma OvertakenFacts(cfg: Config, b: State)
    requires Shape(cfg, b) && b.head == cfg.size + 1 && b.minTail == cfg.size && b.slots[0].sequence == cfg.size
    requires At(b, 1) == AtRegisterTail(1, 0) && b.numConsumers == 2 && NoneCopying(b)
    ensures var s := Do(cfg, b, RegisterTail(1));
            && Allowed(cfg, ButPushes, s, RegisterActivate(1)) && At(s, 1) == AtRegisterActivate(1) && NoneCopying(s)
            && !JoinOk(cfg, s, 1)
            && Overtaken(cfg, Do(cfg, s, RegisterActivate(1)), 1) && !Core(cfg, Do(cfg, s, RegisterActivate(1)))
  {
    RingDistinct(0, 0, cfg.size);
    var s := TailSet(b, 1, 1, 0);
    assert Shape(cfg, s) && Shape(cfg, Activated(s, 1, 1));
  }

  /**
   A consumer that loads head before SIZE + 1 pushes and becomes active after them is lost, whatever the size of the
   queue, although no producer is between claim and publication when it loads nor when it becomes active. Pushes that
   begin during the registration are the only steps outside the regime.
   */
  lemma StaleJoinerIsLost(cfg: Config, s: State, item: Item)
    returns (before: seq<Step>, atLoad: State, window: seq<Step>, atJoin: State)
    requires IsInit(cfg, s) && |item| == cfg.width && 2 * cfg.size < WORD
    ensures Leads(cfg, ButPushes, s, before, atLoad) && At(atLoad, 1) == AtRegisterLoad(1) && NoneCopying(atLoad)
    ensures Leads(cfg, ButPushes, atLoad, window, atJoin) && At(atJoin, 1) == AtRegisterActivate(1)
    ensures NoneCopying(atJoin)
    ensures Allowed(cfg, ButPushes, atJoin, RegisterActivate(1)) && !JoinOk(cfg, atJoin, 1)
    ensures var s' := Do(cfg, atJoin, RegisterActivate(1)); Overtaken(cfg, s', 1) && !Core(cfg, s')
  {
    before, atLoad := RegisterAndBegin(cfg, s);
    var b;
    window, b := StaleUptoJoin(cfg, atLoad, item);
    OvertakenFacts(cfg, b);
    MaySetTail(cfg, b);
    Then(cfg, ButPushes, atLoad, window, b, RegisterTail(1));
    window := window + [RegisterTail(1)];
    atJoin := Do(cfg, b, RegisterTail(1));
  }

  // ---------------------------------------------------------------------------------------------
  // Which registrations are safe
  // ---------------------------------------------------------------------------------------------

  /** No producer is between claim and publication, and no scan is under way. */
  predicate Still(s: State) {
    forall u :: u in s.threads ==> !s.threads[u].Copying? && !s.threads[u].Scanning?
  }

  lemma NoneCopyingPublished(cfg: Config, s: State)
    requires Core(cfg, s)
    ensures NoneCopying(s) <==> PublishedBelow(s, s.head)
  {
    ClaimsHaveCopiers(cfg, s);
    if !NoneCopying(s) {
      var u :| u in s.threads && s.threads[u].Copying?;
      assert PcInv(cfg, s, u, s.threads[u]);
    }
  }

  /** What a caller can check when a consumer becomes active: head has not moved since it was loaded, no producer is
      between claim and publication, and no scan is under way. */
  lemma StillJoinOk(cfg: Config, s: State, id: nat)
    requires Core(cfg, s) && Still(s) && id < MAX_CONSUMERS && s.consumers[id].tail == s.head
    ensures JoinOk(cfg, s, id)
  {
    NoneCopyingPublished(cfg, s);
    MinsBelowHead(cfg, s, s.minTail);
    forall u | u in s.threads ensures HoldsBelow(s.threads[u], id, s.head) {
      HeldBelowHead(cfg, s, u, id);
    }
  }

  lemma HeldBelowHead(cfg: Config, s: State, u: Tid, id: nat)
    requires Core(cfg, s) && u in s.threads && !s.threads[u].Scanning?
    ensures HoldsBelow(s.threads[u], id, s.head)
  {
    var pc := s.threads[u];
    assert PcInv(cfg, s, u, pc);
    match pc {
      case AtStoreMin(job, result, start) =>
        MinsBelowHead(cfg, s, result);
        if job.PushJob? { MinsBelowHead(cfg, s, job.minTail); }
      case AtCas(item, head, minTail) => MinsBelowHead(cfg, s, minTail);
      case _ =>
    }
  }

  /** A step that neither claims nor begins a scan. */
  predicate Patient(cfg: Config, s: State, step: Step)
    requires Shape(cfg, s) && Ready(cfg, s, step)
  {
    match step
    case Cas(t, spurious) => spurious || s.head != At(s, t).head
    case LoadMin(t) => !Full(cfg, At(s, t).head, s.minTail)
    case BeginRefresh(t) => false
    case _ => true
  }

  /** None of the steps claims or begins a scan. */
  ghost predicate PatientAlong(cfg: Config, s: State, steps: seq<Step>)
    decreases |steps|
  {
    steps == []
    || (Shape(cfg, s) && Ready(cfg, s, steps[0]) && Patient(cfg, s, steps[0])
        && PatientAlong(cfg, Do(cfg, s, steps[0]), steps[1..]))
  }

  /** Thread t, if it is past its load, loaded h, and head is h still. */
  ghost predicate Waiting(s: State, t: Tid, h: nat)
    requires |s.consumers| == MAX_CONSUMERS
  {
    && Still(s) && s.head == h
    && (At(s, t).AtRegisterTail? ==> At(s, t).head == h)
    && (At(s, t).AtRegisterActivate? ==> At(s, t).id < MAX_CONSUMERS && s.consumers[At(s, t).id].tail == h)
  }

  lemma StaysStill(cfg: Config, s: State, step: Step)
    requires Shape(cfg, s) && Ready(cfg, s, step) && Still(s) && Patient(cfg, s, step)
    ensures Still(Do(cfg, s, step)) && Do(cfg, s, step).head == s.head
  {
  }

  lemma KeepsWaiting(cfg: Config, s: State, step: Step, t: Tid, h: nat)
    requires Core(cfg, s) && Bounded(cfg, s) && Ready(cfg, s, step) && Patient(cfg, s, step)
    requires Waiting(s, t, h)
    requires Shape(cfg, Do(cfg, s, step))
    ensures Waiting(Do(cfg, s, step), t, h)
  {
    StaysStill(cfg, s, step);
    if !MovedBy(step, t) {
      OthersUnmoved(cfg, s, step, t);
      if Registering(At(s, t)) { JoinerKept(cfg, s, step, t); }
    }
  }

  /**
   The rule for callers: if no producer is between claim and publication and no scan is under way when a registration
   loads head, and none claims and no scan begins until it becomes active, then it joins safely, whatever else moves,
   as long as other consumers that become active meanwhile join safely too.
   */
  lemma {:induction false} QuietWindowIsSafe(cfg: Config, s: State, steps: seq<Step>, s': State, t: Tid, h: nat)
    requires Core(cfg, s) && Waiting(s, t, h) && Leads(cfg, SafeJoins, s, steps, s') && Bounded(cfg, s')
    requires PatientAlong(cfg, s, steps) && At(s', t).AtRegisterActivate?
    ensures Shape(cfg, s') && At(s', t).id < MAX_CONSUMERS && JoinOk(cfg, s', At(s', t).id)
    decreases |steps|
  {
    LeadsLog(cfg, SafeJoins, s, steps, s');
    if steps == [] {
      StillJoinOk(cfg, s, At(s, t).id);
    } else {
      SafeJoinsKeepCore(cfg, s, steps[0]);
      KeepsWaiting(cfg, s, steps[0], t, h);
      QuietWindowIsSafe(cfg, Do(cfg, s, steps[0]), steps[1..], s', t, h);
    }
  }

  lemma AboutToJoinCore(cfg: Config, s: State, t: Tid)
    requires Core(cfg, s) && At(s, t).Idle? && s.numConsumers < MAX_CONSUMERS
    ensures Core(cfg, AboutToJoin(s, t))
  {
    var id := s.numConsumers;
    var a := IdTaken(s, t);
    KeepsIdTaken(cfg, s, t);
    KeepsRegister(cfg, a, RegisterLoad(t));
    KeepsTailSet(cfg, Go(a, t, AtRegisterTail(id, s.head)), t);
  }

  /** No scan that is past consumer id may yet end above head. */
  predicate ScansBelowHead(cfg: Config, s: State, id: nat)
    requires Shape(cfg, s)
  {
    forall u :: u in s.threads && s.threads[u].Scanning? && id < s.threads[u].scan.index ==>
      Combine(s.threads[u].scan.acc) <= s.head
  }

  lemma JobBelowHead(cfg: Config, s: State, u: Tid, id: nat)
    requires Core(cfg, s) && u in s.threads && ScansBelowHead(cfg, s, id)
    ensures HoldsBelow(s.threads[u], id, s.head)
  {
    assert PcInv(cfg, s, u, s.threads[u]);
    if s.threads[u].Scanning? {
      if s.threads[u].job.PushJob? { MinsBelowHead(cfg, s, s.threads[u].job.minTail); }
    } else {
      HeldBelowHead(cfg, s, u, id);
    }
  }

  /** The threads hold no more of min_tail than head exactly when no scan past the id does. */
  lemma HeldExactly(cfg: Config, s: State, id: nat)
    requires Core(cfg, s)
    ensures ScansBelowHead(cfg, s, id) <==> forall u :: u in s.threads ==> HoldsBelow(s.threads[u], id, s.head)
  {
    if ScansBelowHead(cfg, s, id) {
      forall u | u in s.threads ensures HoldsBelow(s.threads[u], id, s.head) {
        JobBelowHead(cfg, s, u, id);
      }
    } else {
      var u :| u in s.threads && s.threads[u].Scanning? && id < s.threads[u].scan.index
               && Combine(s.threads[u].scan.acc) > s.head;
      assert !HoldsBelow(s.threads[u], id, s.head);
    }
  }

  /** What others hold is what they held before the registration began. */
  lemma AboutToJoinHolds(cfg: Config, s: State, c: State, t: Tid, id: nat)
    requires Shape(cfg, s) && At(s, t).Idle? && id == s.numConsumers < MAX_CONSUMERS
    requires c == AboutToJoin(s, t) && Shape(cfg, c)
    ensures (forall u :: u in s.threads ==> HoldsBelow(s.threads[u], id, s.head))
       <==> (forall u :: u in c.threads ==> HoldsBelow(c.threads[u], id, s.head))
  {
    assert forall u :: u in s.threads && u != t ==> u in c.threads && c.threads[u] == s.threads[u];
    assert forall u :: u in c.threads && u != t ==> u in s.threads && c.threads[u] == s.threads[u];
  }

  /** A registration that runs alone keeps safety exactly when no producer is between claim and publication and no scan
      that is past the new id may yet end above head. */
  lemma AloneJoinSafeExactly(cfg: Config, s: State, t: Tid)
    requires Core(cfg, s) && At(s, t).Idle? && s.numConsumers < MAX_CONSUMERS
    ensures Core(cfg, SoloRegister(s, t)) <==> NoneCopying(s) && ScansBelowHead(cfg, s, s.numConsumers)
  {
    var id, c := s.numConsumers, AboutToJoin(s, t);
    AboutToJoinActivates(s, t);
    AboutToJoinCore(cfg, s, t);
    JoinSafeExactly(cfg, c, t);
    NoneCopyingPublished(cfg, s);
    MinsBelowHead(cfg, s, s.minTail);
    HeldExactly(cfg, s, id);
    AboutToJoinHolds(cfg, s, c, t, id);
  }
}
