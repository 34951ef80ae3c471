/** Calls that run alone: what one push, pop or refresh does when nothing else moves meanwhile. */
module QueueSolo {
  import opened Bytes
  import opened RingIndex
  import opened TailScan
  import opened QueueModel
  import opened QueueCore
  import opened QueueInvariant

  /** A step that is ready, and that the rule permits. */
  ghost predicate Allowed(cfg: Config, rule: Rule, s: State, step: Step) {
    Shape(cfg, s) && Ready(cfg, s, step) && Permits(cfg, rule, s, step)
  }

  /** The steps take s to s'. */
  ghost predicate Leads(cfg: Config, rule: Rule, s: State, steps: seq<Step>, s': State)
    decreases |steps|
  {
    if steps == [] then s' == s
    else Allowed(cfg, rule, s, steps[0]) && Leads(cfg, rule, Do(cfg, s, steps[0]), steps[1..], s')
  }

  lemma {:induction false} LeadsJoin(cfg: Config, rule: Rule, s: State, xs: seq<Step>, m: State, ys: seq<Step>,
                                     s': State)
    requires Leads(cfg, rule, s, xs, m) && Leads(cfg, rule, m, ys, s')
    ensures Leads(cfg, rule, s, xs + ys, s')
    decreases |xs|
  {
    if xs == [] {
      assert xs + ys == ys;
    } else {
      assert (xs + ys)[0] == xs[0] && (xs + ys)[1..] == xs[1..] + ys;
      LeadsJoin(cfg, rule, Do(cfg, s, xs[0]), xs[1..], m, ys, s');
    }
  }

  lemma LeadsJoin3(cfg: Config, rule: Rule, s: State, xs: seq<Step>, m: State, ys: seq<Step>, n: State,
                   zs: seq<Step>, s': State)
    requires Leads(cfg, rule, s, xs, m) && Leads(cfg, rule, m, ys, n) && Leads(cfg, rule, n, zs, s')
    ensures Leads(cfg, rule, s, xs + ys + zs, s')
  {
    LeadsJoin(cfg, rule, s, xs, m, ys, n);
    LeadsJoin(cfg, rule, s, xs + ys, n, zs, s');
  }

  lemma {:induction false} LeadsSafely(cfg: Config, s: State, steps: seq<Step>, s': State)
    requires Inv(cfg, s) && Leads(cfg, InRegime, s, steps, s') && Bounded(cfg, s')
    ensures Inv(cfg, s') && s.log <= s'.log
    decreases |steps|
  {
    if steps != [] {
      LeadsLog(cfg, InRegime, s, steps, s');
      StepKeepsInv(cfg, s, steps[0]);
      LeadsSafely(cfg, Do(cfg, s, steps[0]), steps[1..], s');
      StepGrows(cfg, s, steps[0]);
    }
  }

  lemma {:induction false} LeadsLog(cfg: Config, rule: Rule, s: State, steps: seq<Step>, s': State)
    requires Leads(cfg, rule, s, steps, s')
    ensures |s.log| <= |s'.log|
    decreases |steps|
  {
    if steps != [] {
      StepGrows(cfg, s, steps[0]);
      LeadsLog(cfg, rule, Do(cfg, s, steps[0]), steps[1..], s');
    }
  }

  /** The payloads that consumer c's pops hand over along the steps. */
  ghost function Handed(cfg: Config, s: State, steps: seq<Step>, c: nat): seq<Item>
    decreases |steps|
  {
    if steps == [] || !Allowed(cfg, Anything, s, steps[0]) then []
    else
      (if steps[0] == PopStore(c) then [s.pops[c].buffer] else [])
      + Handed(cfg, Do(cfg, s, steps[0]), steps[1..], c)
  }

  lemma {:induction false} HandedJoin(cfg: Config, rule: Rule, s: State, xs: seq<Step>, m: State, ys: seq<Step>, c: nat)
    requires Leads(cfg, rule, s, xs, m)
    ensures Handed(cfg, s, xs + ys, c) == Handed(cfg, s, xs, c) + Handed(cfg, m, ys, c)
    decreases |xs|
  {
    if xs == [] {
      assert xs + ys == ys;
    } else {
      assert (xs + ys)[0] == xs[0] && (xs + ys)[1..] == xs[1..] + ys;
      HandedJoin(cfg, rule, Do(cfg, s, xs[0]), xs[1..], m, ys, c);
    }
  }

  lemma {:induction false} HandedNone(cfg: Config, s: State, steps: seq<Step>, c: nat)
    requires PopStore(c) !in steps
    ensures Handed(cfg, s, steps, c) == []
    decreases |steps|
  {
    if steps != [] && Allowed(cfg, Anything, s, steps[0]) {
      HandedNone(cfg, Do(cfg, s, steps[0]), steps[1..], c);
    }
  }

  lemma One(cfg: Config, rule: Rule, s: State, step: Step)
    requires Allowed(cfg, rule, s, step)
    ensures Leads(cfg, rule, s, [step], Do(cfg, s, step))
  {
    assert Leads(cfg, rule, Do(cfg, s, step), [], Do(cfg, s, step));
  }

  /** The steps so far, and one more. */
  lemma Then(cfg: Config, rule: Rule, s: State, steps: seq<Step>, m: State, step: Step)
    requires Leads(cfg, rule, s, steps, m) && Allowed(cfg, rule, m, step)
    ensures Leads(cfg, rule, s, steps + [step], Do(cfg, m, step))
  {
    One(cfg, rule, m, step);
    LeadsJoin(cfg, rule, s, steps, m, [step], Do(cfg, m, step));
  }

  // ---------------------------------------------------------------------------------------------
  // A scan alone
  // ---------------------------------------------------------------------------------------------

  lemma GoShape(cfg: Config, s: State, t: Tid, pc: Pc)
    requires Shape(cfg, s) && PcShape(cfg, pc)
    ensures Shape(cfg, Go(s, t, pc))
  {
  }

  lemma GoTwice(s: State, t: Tid, a: Pc, b: Pc)
    ensures Go(Go(s, t, a), t, b) == Go(s, t, b)
  {
    assert s.threads[t := a][t := b] == s.threads[t := b];
  }

  predicate LanesAt(cs: seq<Consumer>, scan: Scan) {
    && |scan.acc| == 4 && scan.index <= |cs| && !scan.sawActive
    && forall k :: 0 <= k < 4 ==> scan.acc[k] == Lane(cs[..scan.index], k)
  }

  /** Both loads for the next consumer, as one. */
  function NextScan(cs: seq<Consumer>, scan: Scan): (scan': Scan)
    requires |scan.acc| == 4 && scan.index < |cs| && !scan.sawActive
    ensures LanesAt(cs, scan) ==> LanesAt(cs, scan')
    ensures scan'.index == scan.index + 1 && scan'.start == scan.start
  {
    var scan' := ScanStep(cs, scan);
    var scan'' := if scan'.sawActive then ScanStep(cs, scan') else scan';
    assert cs[..scan.index + 1][..scan.index] == cs[..scan.index];
    scan''
  }

  lemma ScanOne(cfg: Config, rule: Rule, s: State, t: Tid, job: Job, scan: Scan) returns (steps: seq<Step>)
    requires Shape(cfg, s) && PcShape(cfg, Scanning(job, scan)) && scan.index < MAX_CONSUMERS && !scan.sawActive
    ensures Leads(cfg, rule, Go(s, t, Scanning(job, scan)), steps, Go(s, t, Scanning(job, NextScan(s.consumers, scan))))
    ensures PcShape(cfg, Scanning(job, NextScan(s.consumers, scan)))
  {
    hide Leads;
    var a := Go(s, t, Scanning(job, scan));
    var scan' := ScanStep(s.consumers, scan);
    GoShape(cfg, s, t, Scanning(job, scan));
    GoTwice(s, t, Scanning(job, scan), Scanning(job, scan'));
    One(cfg, rule, a, ScanLoad(t));
    steps := [ScanLoad(t)];
    if scan'.sawActive {
      var scan'' := ScanStep(s.consumers, scan');
      GoShape(cfg, s, t, Scanning(job, scan'));
      GoTwice(s, t, Scanning(job, scan'), Scanning(job, scan''));
      Then(cfg, rule, a, steps, Go(s, t, Scanning(job, scan')), ScanLoad(t));
      steps := steps + [ScanLoad(t)];
    }
  }

  /** A scan that runs alone ends with the scalar minimum in its accumulators. */
  lemma {:induction false} ScanAlone(cfg: Config, rule: Rule, s: State, t: Tid, job: Job, scan: Scan)
    returns (steps: seq<Step>, scan': Scan)
    requires Shape(cfg, s) && PcShape(cfg, Scanning(job, scan)) && LanesAt(s.consumers, scan)
    ensures Leads(cfg, rule, Go(s, t, Scanning(job, scan)), steps, Go(s, t, Scanning(job, scan')))
    ensures PcShape(cfg, Scanning(job, scan')) && scan'.index == MAX_CONSUMERS && !scan'.sawActive
    ensures scan'.start == scan.start
    ensures OrZero(Combine(scan'.acc)) == ScalarMin(s.consumers)
    decreases MAX_CONSUMERS - scan.index
  {
    if scan.index == MAX_CONSUMERS {
      LanesCombine(s.consumers);
      assert s.consumers[..MAX_CONSUMERS] == s.consumers;
      steps, scan' := [], scan;
      assert scan.acc == [scan.acc[0], scan.acc[1], scan.acc[2], scan.acc[3]];
    } else {
      var first := ScanOne(cfg, rule, s, t, job, scan);
      var next := NextScan(s.consumers, scan);
      var rest;
      rest, scan' := ScanAlone(cfg, rule, s, t, job, next);
      LeadsJoin(cfg, rule, Go(s, t, Scanning(job, scan)), first, Go(s, t, Scanning(job, next)), rest,
                Go(s, t, Scanning(job, scan')));
      steps := first + rest;
    }
  }

  /** The steps so far, and one more that only moves thread t. */
  lemma Hop(cfg: Config, rule: Rule, s0: State, steps: seq<Step>, s: State, t: Tid, a: Pc, step: Step, b: Pc)
    requires Leads(cfg, rule, s0, steps, Go(s, t, a)) && Shape(cfg, s) && PcShape(cfg, a)
    requires Allowed(cfg, rule, Go(s, t, a), step)
    requires Do(cfg, Go(s, t, a), step) == Go(Go(s, t, a), t, b)
    ensures Leads(cfg, rule, s0, steps + [step], Go(s, t, b))
  {
    GoTwice(s, t, a, b);
    Then(cfg, rule, s0, steps, Go(s, t, a), step);
  }

  // ---------------------------------------------------------------------------------------------
  // A push alone
  // ---------------------------------------------------------------------------------------------

  /** min_tail after a push's look at it. */
  function SoloMin(cfg: Config, s: State): nat
    requires Shape(cfg, s)
  {
    if Full(cfg, s.head, s.minTail) then ScalarMin(s.consumers) else s.minTail
  }

  lemma ScalarMinWord(cfg: Config, s: State)
    requires Shape(cfg, s)
    ensures ScalarMin(s.consumers) < WORD
  {
    MinOverBounds(s.consumers);
  }

  /** The state in which the push is about to compare and swap, or has found the queue full. */
  function Looked(cfg: Config, s: State, t: Tid, item: Item): State
    requires Shape(cfg, s) && SoloMin(cfg, s) < WORD
  {
    var m := SoloMin(cfg, s);
    Go(s.(minTail := m), t, if Full(cfg, s.head, m) then Idle else AtCas(item, s.head, m))
  }

  lemma LookBegins(cfg: Config, rule: Rule, s: State, t: Tid, item: Item) returns (steps: seq<Step>)
    requires Shape(cfg, s) && Allowed(cfg, rule, s, BeginPush(t, item))
    ensures Leads(cfg, rule, s, steps,
                  Go(s, t, if Full(cfg, s.head, s.minTail)
                           then Scanning(PushJob(item, s.head, s.minTail), NewScan(s))
                           else AtCas(item, s.head, s.minTail)))
  {
    One(cfg, rule, s, BeginPush(t, item));
    GoShape(cfg, s, t, AtLoadHead(item));
    Hop(cfg, rule, s, [BeginPush(t, item)], s, t, AtLoadHead(item), LoadHead(t), AtLoadMin(item, s.head));
    GoShape(cfg, s, t, AtLoadMin(item, s.head));
    steps := [BeginPush(t, item)] + [LoadHead(t)];
    Hop(cfg, rule, s, steps, s, t, AtLoadMin(item, s.head), LoadMin(t),
        if Full(cfg, s.head, s.minTail) then Scanning(PushJob(item, s.head, s.minTail), NewScan(s))
        else AtCas(item, s.head, s.minTail));
    steps := steps + [LoadMin(t)];
  }

  /** The end of a scan whose result is stored. */
  lemma StoreResult(cfg: Config, rule: Rule, s0: State, steps: seq<Step>, s: State, t: Tid, job: Job, scan: Scan,
                    result: nat)
    requires Shape(cfg, s) && PcShape(cfg, Scanning(job, scan)) && scan.index == MAX_CONSUMERS
    requires result == OrZero(Combine(scan.acc)) < WORD && !(job.PushJob? && result == job.minTail)
    requires Leads(cfg, rule, s0, steps, Go(s, t, Scanning(job, scan)))
    ensures Leads(cfg, rule, s0, steps + [ScanFinish(t)] + [StoreMin(t)],
                  Go(s.(minTail := result), t, AfterMin(cfg, job, result)))
  {
    var store := AtStoreMin(job, result, scan.start);
    GoShape(cfg, s, t, Scanning(job, scan));
    Hop(cfg, rule, s0, steps, s, t, Scanning(job, scan), ScanFinish(t), store);
    GoShape(cfg, s, t, store);
    Then(cfg, rule, s0, steps + [ScanFinish(t)], Go(s, t, store), StoreMin(t));
    GoTwice(s, t, store, AfterMin(cfg, job, result));
  }

  /** A scan that runs alone in a push or a refresh, up to the store of its result. */
  lemma ScanAndStore(cfg: Config, rule: Rule, s: State, t: Tid, job: Job) returns (steps: seq<Step>)
    requires Shape(cfg, s) && JobShape(cfg, job)
    requires job.PushJob? ==> job.minTail == s.minTail && Full(cfg, job.head, job.minTail)
    ensures ScalarMin(s.consumers) < WORD
    ensures Leads(cfg, rule, Go(s, t, Scanning(job, NewScan(s))), steps,
                  Go(s.(minTail := ScalarMin(s.consumers)), t, AfterMin(cfg, job, ScalarMin(s.consumers))))
  {
    hide Leads;
    ScalarMinWord(cfg, s);
    var begin, result := Go(s, t, Scanning(job, NewScan(s))), ScalarMin(s.consumers);
    var scan;
    steps, scan := ScanAlone(cfg, rule, s, t, job, NewScan(s));
    if job.PushJob? && result == job.minTail {
      GoShape(cfg, s, t, Scanning(job, scan));
      Hop(cfg, rule, begin, steps, s, t, Scanning(job, scan), ScanFinish(t), AfterMin(cfg, job, result));
      assert s.(minTail := result) == s;
      steps := steps + [ScanFinish(t)];
    } else {
      StoreResult(cfg, rule, begin, steps, s, t, job, scan, result);
      steps := steps + [ScanFinish(t)] + [StoreMin(t)];
    }
  }

  lemma LookAlone(cfg: Config, rule: Rule, s: State, t: Tid, item: Item) returns (steps: seq<Step>)
    requires Shape(cfg, s) && Allowed(cfg, rule, s, BeginPush(t, item))
    ensures SoloMin(cfg, s) < WORD && Leads(cfg, rule, s, steps, Looked(cfg, s, t, item))
  {
    steps := LookBegins(cfg, rule, s, t, item);
    if Full(cfg, s.head, s.minTail) {
      var job := PushJob(item, s.head, s.minTail);
      var rest := ScanAndStore(cfg, rule, s, t, job);
      LeadsJoin(cfg, rule, s, steps, Go(s, t, Scanning(job, NewScan(s))), rest, Looked(cfg, s, t, item));
      steps := steps + rest;
    } else {
      assert s.(minTail := s.minTail) == s;
    }
  }

  function Below(n: nat): (b: set<nat>)
    ensures forall i :: i in b <==> 0 <= i < n
  {
    if n == 0 then {} else Below(n - 1) + {n - 1}
  }

  /** The first n bytes of the payload are in the slot. */
  function CopiedUpto(cfg: Config, s: State, t: Tid, item: Item, pos: nat, n: nat): State
    requires Shape(cfg, s) && n <= |item| == cfg.width
  {
    var j := SlotOf(cfg, pos);
    Go(s, t, Copying(item, pos, Below(n)))
    .(slots := s.slots[j := s.slots[j].(data := item[..n] + s.slots[j].data[n..])])
  }

  lemma CopiedUptoShape(cfg: Config, s: State, t: Tid, item: Item, pos: nat, n: nat)
    requires Shape(cfg, s) && n <= |item| == cfg.width && pos < WORD
    ensures Shape(cfg, CopiedUpto(cfg, s, t, item, pos, n))
  {
  }

  lemma CopyNext(cfg: Config, s: State, t: Tid, item: Item, pos: nat, n: nat)
    requires Shape(cfg, s) && n < |item| == cfg.width && pos < WORD
    requires Shape(cfg, CopiedUpto(cfg, s, t, item, pos, n))
    ensures Ready(cfg, CopiedUpto(cfg, s, t, item, pos, n), CopyByte(t, n))
    ensures Do(cfg, CopiedUpto(cfg, s, t, item, pos, n), CopyByte(t, n)) == CopiedUpto(cfg, s, t, item, pos, n + 1)
  {
    var j := SlotOf(cfg, pos);
    var old' := s.slots[j].data;
    assert (item[..n] + old'[n..])[n := item[n]] == item[..n + 1] + old'[n + 1..];
    assert Below(n + 1) == Below(n) + {n};
    GoTwice(s, t, Copying(item, pos, Below(n)), Copying(item, pos, Below(n + 1)));
  }

  lemma CopyNone(cfg: Config, s: State, t: Tid, item: Item, pos: nat)
    requires Shape(cfg, s) && |item| == cfg.width && At(s, t) == Copying(item, pos, {})
    ensures CopiedUpto(cfg, s, t, item, pos, 0) == s
  {
    var j := SlotOf(cfg, pos);
    assert item[..0] + s.slots[j].data[0..] == s.slots[j].data;
    assert Below(0) == {};
  }

  lemma {:induction false} CopyAlone(cfg: Config, rule: Rule, s: State, t: Tid, item: Item, pos: nat, n: nat)
    returns (steps: seq<Step>)
    requires Shape(cfg, s) && n <= |item| == cfg.width && pos < WORD && At(s, t) == Copying(item, pos, {})
    ensures Leads(cfg, rule, s, steps, CopiedUpto(cfg, s, t, item, pos, n))
    decreases n
  {
    if n == 0 {
      CopyNone(cfg, s, t, item, pos);
      steps := [];
    } else {
      steps := CopyAlone(cfg, rule, s, t, item, pos, n - 1);
      var m := CopiedUpto(cfg, s, t, item, pos, n - 1);
      CopiedUptoShape(cfg, s, t, item, pos, n - 1);
      CopyNext(cfg, s, t, item, pos, n - 1);
      Then(cfg, rule, s, steps, m, CopyByte(t, n - 1));
      steps := steps + [CopyByte(t, n - 1)];
    }
  }

  /** A claimed payload is in its slot and published. */
  function Stored(cfg: Config, s: State, t: Tid, item: Item, pos: nat): State
    requires Shape(cfg, s)
  {
    Go(s, t, Idle)
    .(slots := s.slots[SlotOf(cfg, pos) := Slot(pos, item)],
      published := s.published + {pos}, claims := s.claims - {pos})
  }

  lemma StoreAlone(cfg: Config, rule: Rule, s: State, t: Tid, item: Item, pos: nat) returns (steps: seq<Step>)
    requires Shape(cfg, s) && |item| == cfg.width && pos < WORD && At(s, t) == Copying(item, pos, {})
    ensures Leads(cfg, rule, s, steps, Stored(cfg, s, t, item, pos))
  {
    steps := CopyAlone(cfg, rule, s, t, item, pos, cfg.width);
    var m := CopiedUpto(cfg, s, t, item, pos, cfg.width);
    CopiedUptoShape(cfg, s, t, item, pos, cfg.width);
    Then(cfg, rule, s, steps, m, Publish(t));
    var j := SlotOf(cfg, pos);
    assert item[..cfg.width] + s.slots[j].data[cfg.width..] == item;
    GoTwice(s, t, At(m, t), Idle);
    assert Do(cfg, m, Publish(t)) == Stored(cfg, s, t, item, pos);
    steps := steps + [Publish(t)];
  }

  /** What push returns when it runs alone. */
  predicate SoloPushFails(cfg: Config, s: State)
    requires Shape(cfg, s) && SoloMin(cfg, s) < WORD
  {
    Full(cfg, s.head, SoloMin(cfg, s))
  }

  /** The state a push that runs alone leaves. */
  function SoloPush(cfg: Config, s: State, t: Tid, item: Item): State
    requires Shape(cfg, s) && SoloMin(cfg, s) < WORD
  {
    var s' := Go(s, t, Idle).(minTail := SoloMin(cfg, s));
    if SoloPushFails(cfg, s) then s'
    else
      s'.(head := Add64(s.head, 1), log := s.log + [item],
          slots := s.slots[SlotOf(cfg, s.head) := Slot(s.head, item)],
          published := s.published + {s.head}, claims := s.claims - {s.head})
  }

  lemma StoredIsPushed(cfg: Config, s: State, t: Tid, item: Item)
    requires Shape(cfg, s) && |item| == cfg.width && SoloMin(cfg, s) < WORD && !SoloPushFails(cfg, s)
    requires Shape(cfg, Claimed(s.(minTail := SoloMin(cfg, s)), t, item))
    ensures Stored(cfg, Claimed(s.(minTail := SoloMin(cfg, s)), t, item), t, item, s.head) == SoloPush(cfg, s, t, item)
  {
    GoTwice(s, t, Copying(item, s.head, {}), Idle);
    assert s.claims[s.head := t] - {s.head} == s.claims - {s.head};
  }

  lemma ClaimAlone(cfg: Config, rule: Rule, s: State, t: Tid, item: Item) returns (steps: seq<Step>)
    requires Shape(cfg, s) && Allowed(cfg, rule, s, BeginPush(t, item))
    requires SoloMin(cfg, s) < WORD && !SoloPushFails(cfg, s)
    ensures Leads(cfg, rule, s, steps, Claimed(s.(minTail := SoloMin(cfg, s)), t, item))
  {
    steps := LookAlone(cfg, rule, s, t, item);
    var r := s.(minTail := SoloMin(cfg, s));
    var cas := AtCas(item, s.head, r.minTail);
    GoShape(cfg, r, t, cas);
    Then(cfg, rule, s, steps, Go(r, t, cas), Cas(t, false));
    GoTwice(r, t, cas, Copying(item, s.head, {}));
    steps := steps + [Cas(t, false)];
  }

  lemma PushAlone(cfg: Config, rule: Rule, s: State, t: Tid, item: Item) returns (steps: seq<Step>)
    requires Shape(cfg, s) && Allowed(cfg, rule, s, BeginPush(t, item))
    ensures SoloMin(cfg, s) < WORD && Leads(cfg, rule, s, steps, SoloPush(cfg, s, t, item))
  {
    ScalarMinWord(cfg, s);
    if SoloPushFails(cfg, s) {
      steps := LookAlone(cfg, rule, s, t, item);
    } else {
      steps := ClaimAlone(cfg, rule, s, t, item);
      var r := s.(minTail := SoloMin(cfg, s));
      var claimed := Claimed(r, t, item);
      ClaimedShape(cfg, r, t, item);
      var rest := StoreAlone(cfg, rule, claimed, t, item, s.head);
      StoredIsPushed(cfg, s, t, item);
      LeadsJoin(cfg, rule, s, steps, claimed, rest, SoloPush(cfg, s, t, item));
      steps := steps + rest;
    }
  }

  /** A refresh alone stores the scalar minimum. */
  lemma RefreshAlone(cfg: Config, rule: Rule, s: State, t: Tid) returns (steps: seq<Step>)
    requires Shape(cfg, s) && Allowed(cfg, rule, s, BeginRefresh(t))
    ensures Leads(cfg, rule, s, steps, Go(s.(minTail := ScalarMin(s.consumers)), t, Idle))
  {
    One(cfg, rule, s, BeginRefresh(t));
    var rest := ScanAndStore(cfg, rule, s, t, RefreshJob);
    LeadsJoin(cfg, rule, s, [BeginRefresh(t)], Go(s, t, Scanning(RefreshJob, NewScan(s))), rest,
              Go(s.(minTail := ScalarMin(s.consumers)), t, Idle));
    steps := [BeginRefresh(t)] + rest;
  }

  // ---------------------------------------------------------------------------------------------
  // A registration alone
  // ---------------------------------------------------------------------------------------------

  /** The state a registration that runs alone leaves; ids past MAX_CONSUMERS are refused. */
  function SoloRegister(s: State, t: Tid): State
    requires |s.consumers| == |s.joins| == MAX_CONSUMERS
  {
    var id := s.numConsumers;
    if id >= MAX_CONSUMERS then s.(numConsumers := id + 1)
    else
      Go(s, t, Idle)
      .(numConsumers := id + 1, consumers := s.consumers[id := Consumer(s.head, true)],
        joins := s.joins[id := s.head], joining := s.joining - {id})
  }

  /** The state in which a registration that runs alone is about to become active. */
  function AboutToJoin(s: State, t: Tid): State
    requires |s.consumers| == |s.joins| == MAX_CONSUMERS && s.numConsumers < MAX_CONSUMERS
  {
    TailSet(Go(IdTaken(s, t), t, AtRegisterTail(s.numConsumers, s.head)), t, s.numConsumers, s.head)
  }

  lemma AboutToJoinActivates(s: State, t: Tid)
    requires |s.consumers| == |s.joins| == MAX_CONSUMERS && s.numConsumers < MAX_CONSUMERS
    ensures Activated(AboutToJoin(s, t), t, s.numConsumers) == SoloRegister(s, t)
  {
    var id, c := s.numConsumers, AboutToJoin(s, t);
    assert c.threads[t := Idle] == s.threads[t := Idle];
    assert c.consumers[id := c.consumers[id].(active := true)] == s.consumers[id := Consumer(s.head, true)];
    assert c.joining - {id} == s.joining - {id};
  }

  lemma RegisterFirst(cfg: Config, rule: Rule, s: State, t: Tid) returns (steps: seq<Step>)
    requires Shape(cfg, s) && rule != SafeJoins && Allowed(cfg, rule, s, BeginRegister(t))
    requires s.numConsumers < MAX_CONSUMERS
    ensures Shape(cfg, IdTaken(s, t))
    ensures Leads(cfg, rule, s, steps, Go(IdTaken(s, t), t, AtRegisterTail(s.numConsumers, s.head)))
  {
    One(cfg, rule, s, BeginRegister(t));
    assert Shape(cfg, IdTaken(s, t));
    Then(cfg, rule, s, [BeginRegister(t)], IdTaken(s, t), RegisterLoad(t));
    steps := [BeginRegister(t)] + [RegisterLoad(t)];
  }

  lemma RegisterLast(cfg: Config, rule: Rule, s: State, t: Tid, id: nat)
    requires Shape(cfg, s) && id < MAX_CONSUMERS && At(s, t) == AtRegisterTail(id, s.head) && rule != SafeJoins
    ensures Leads(cfg, rule, s, [RegisterTail(t)] + [RegisterActivate(t)],
                  Go(s, t, Idle).(consumers := s.consumers[id := Consumer(s.head, true)],
                                  joins := s.joins[id := s.head], joining := s.joining - {id}))
  {
    hide Leads;
    var m := TailSet(s, t, id, s.head);
    One(cfg, rule, s, RegisterTail(t));
    assert Shape(cfg, m);
    Then(cfg, rule, s, [RegisterTail(t)], m, RegisterActivate(t));
    assert Activated(m, t, id).threads == s.threads[t := Idle];
    assert Activated(m, t, id).consumers == s.consumers[id := Consumer(s.head, true)];
  }

  lemma RegisterEnd(s: State, t: Tid)
    requires |s.consumers| == |s.joins| == MAX_CONSUMERS && s.numConsumers < MAX_CONSUMERS
    ensures var m := Go(IdTaken(s, t), t, AtRegisterTail(s.numConsumers, s.head));
            SoloRegister(s, t) ==
            Go(m, t, Idle).(consumers := m.consumers[s.numConsumers := Consumer(m.head, true)],
                            joins := m.joins[s.numConsumers := m.head], joining := m.joining - {s.numConsumers})
  {
    var id := s.numConsumers;
    assert s.joining[id := t] - {id} == s.joining - {id};
    var threads := s.threads[t := AtRegisterLoad(id)][t := AtRegisterTail(id, s.head)];
    assert threads[t := Idle] == s.threads[t := Idle];
  }

  lemma RegisterAlone(cfg: Config, rule: Rule, s: State, t: Tid) returns (steps: seq<Step>)
    requires Shape(cfg, s) && rule != SafeJoins && Allowed(cfg, rule, s, BeginRegister(t))
    ensures Leads(cfg, rule, s, steps, SoloRegister(s, t))
  {
    if s.numConsumers < MAX_CONSUMERS {
      var id := s.numConsumers;
      steps := RegisterFirst(cfg, rule, s, t);
      var m := Go(IdTaken(s, t), t, AtRegisterTail(id, s.head));
      GoShape(cfg, IdTaken(s, t), t, AtRegisterTail(id, s.head));
      RegisterLast(cfg, rule, m, t, id);
      RegisterEnd(s, t);
      LeadsJoin(cfg, rule, s, steps, m, [RegisterTail(t)] + [RegisterActivate(t)], SoloRegister(s, t));
      steps := steps + ([RegisterTail(t)] + [RegisterActivate(t)]);
    } else {
      One(cfg, rule, s, BeginRegister(t));
      steps := [BeginRegister(t)];
    }
  }

  // ---------------------------------------------------------------------------------------------
  // A pop alone
  // ---------------------------------------------------------------------------------------------

  predicate SoloPopFails(cfg: Config, s: State, c: nat)
    requires Shape(cfg, s) && c < MAX_CONSUMERS
  {
    var consumer := s.consumers[c];
    !consumer.active || s.slots[SlotOf(cfg, consumer.tail)].sequence != consumer.tail
  }

  /** The state a pop that runs alone leaves. */
  function SoloPop(cfg: Config, s: State, c: nat): State
    requires Shape(cfg, s) && c < MAX_CONSUMERS
  {
    if SoloPopFails(cfg, s, c) then s
    else s.(consumers := s.consumers[c := s.consumers[c].(tail := Add64(s.consumers[c].tail, 1))])
  }

  /** The payload a pop that runs alone hands over. */
  function SoloItem(cfg: Config, s: State, c: nat): Item
    requires Shape(cfg, s) && c < MAX_CONSUMERS
  {
    s.slots[SlotOf(cfg, s.consumers[c].tail)].data
  }

  lemma SetPopShape(cfg: Config, s: State, c: nat, pc: PopPc)
    requires Shape(cfg, s) && c < MAX_CONSUMERS && PopShape(cfg, pc)
    ensures Shape(cfg, SetPop(s, c, pc))
  {
  }

  /** The steps so far, and one more that only moves consumer c's thread. */
  lemma HopPop(cfg: Config, rule: Rule, s: State, steps: seq<Step>, c: nat, a: PopPc, step: Step, b: PopPc)
    requires Shape(cfg, s) && c < MAX_CONSUMERS && PopShape(cfg, a) && PopShape(cfg, b)
    requires Leads(cfg, rule, s, steps, SetPop(s, c, a)) && Allowed(cfg, rule, SetPop(s, c, a), step)
    requires Do(cfg, SetPop(s, c, a), step) == SetPop(SetPop(s, c, a), c, b)
    ensures Leads(cfg, rule, s, steps + [step], SetPop(s, c, b)) && Shape(cfg, SetPop(s, c, b))
  {
    assert s.pops[c := a][c := b] == s.pops[c := b];
    Then(cfg, rule, s, steps, SetPop(s, c, a), step);
    SetPopShape(cfg, s, c, b);
  }

  function PopUpto(cfg: Config, s: State, c: nat, into: Item, n: nat): PopPc
    requires Shape(cfg, s) && c < MAX_CONSUMERS && n <= |into| == cfg.width
  {
    PopCopying(s.consumers[c].tail, SoloItem(cfg, s, c)[..n] + into[n..], Below(n))
  }

  lemma PopNext(cfg: Config, s: State, c: nat, into: Item, n: nat)
    requires Shape(cfg, s) && c < MAX_CONSUMERS && n < |into| == cfg.width
    requires Shape(cfg, SetPop(s, c, PopUpto(cfg, s, c, into, n)))
    ensures Ready(cfg, SetPop(s, c, PopUpto(cfg, s, c, into, n)), PopByte(c, n))
    ensures Do(cfg, SetPop(s, c, PopUpto(cfg, s, c, into, n)), PopByte(c, n))
         == SetPop(SetPop(s, c, PopUpto(cfg, s, c, into, n)), c, PopUpto(cfg, s, c, into, n + 1))
  {
    var a, b := PopUpto(cfg, s, c, into, n), PopUpto(cfg, s, c, into, n + 1);
    assert a.buffer[n := SoloItem(cfg, s, c)[n]] == b.buffer;
    assert Below(n + 1) == Below(n) + {n};
  }

  lemma {:induction false} PopCopyAlone(cfg: Config, rule: Rule, s: State, steps: seq<Step>, c: nat, into: Item, n: nat)
    returns (steps': seq<Step>)
    requires Shape(cfg, s) && c < MAX_CONSUMERS && n <= |into| == cfg.width
    requires Leads(cfg, rule, s, steps, SetPop(s, c, PopCopying(s.consumers[c].tail, into, {})))
    ensures Leads(cfg, rule, s, steps', SetPop(s, c, PopUpto(cfg, s, c, into, n)))
    ensures Shape(cfg, SetPop(s, c, PopUpto(cfg, s, c, into, n)))
    ensures PopStore(c) !in steps ==> PopStore(c) !in steps'
    decreases n
  {
    if n == 0 {
      assert SoloItem(cfg, s, c)[..0] + into[0..] == into;
      steps' := steps;
      SetPopShape(cfg, s, c, PopUpto(cfg, s, c, into, 0));
    } else {
      steps' := PopCopyAlone(cfg, rule, s, steps, c, into, n - 1);
      var a, b := PopUpto(cfg, s, c, into, n - 1), PopUpto(cfg, s, c, into, n);
      PopNext(cfg, s, c, into, n - 1);
      HopPop(cfg, rule, s, steps', c, a, PopByte(c, n - 1), b);
      steps' := steps' + [PopByte(c, n - 1)];
    }
  }

  lemma PopTailed(cfg: Config, rule: Rule, s: State, c: nat, into: Item) returns (steps: seq<Step>)
    requires Shape(cfg, s) && c < MAX_CONSUMERS && s.pops[c].PopIdle? && |into| == cfg.width && s.consumers[c].active
    ensures Leads(cfg, rule, s, steps, SetPop(s, c, AtPopSequence(s.consumers[c].tail, into)))
    ensures Shape(cfg, SetPop(s, c, AtPopSequence(s.consumers[c].tail, into)))
    ensures PopStore(c) !in steps
  {
    One(cfg, rule, s, PopBegin(c, into));
    SetPopShape(cfg, s, c, AtPopTail(into));
    HopPop(cfg, rule, s, [PopBegin(c, into)], c, AtPopTail(into), PopTail(c),
           AtPopSequence(s.consumers[c].tail, into));
    steps := [PopBegin(c, into)] + [PopTail(c)];
  }

  /** The first loads of a pop. */
  lemma PopLooks(cfg: Config, rule: Rule, s: State, c: nat, into: Item) returns (steps: seq<Step>)
    requires Shape(cfg, s) && c < MAX_CONSUMERS && s.pops[c].PopIdle? && |into| == cfg.width && s.consumers[c].active
    ensures var tail := s.consumers[c].tail;
            Leads(cfg, rule, s, steps,
                  if SoloPopFails(cfg, s, c) then s else SetPop(s, c, PopCopying(tail, into, {})))
    ensures PopStore(c) !in steps
  {
    var tail := s.consumers[c].tail;
    steps := PopTailed(cfg, rule, s, c, into);
    var next := if SoloPopFails(cfg, s, c) then PopIdle else PopCopying(tail, into, {});
    HopPop(cfg, rule, s, steps, c, AtPopSequence(tail, into), PopSequence(c), next);
    assert SoloPopFails(cfg, s, c) ==> SetPop(s, c, PopIdle) == s;
    steps := steps + [PopSequence(c)];
  }

  /** The end of a pop that hands over a payload. */
  lemma PopEnds(cfg: Config, rule: Rule, s: State, steps: seq<Step>, c: nat, into: Item)
    requires Shape(cfg, s) && c < MAX_CONSUMERS && s.pops[c].PopIdle? && |into| == cfg.width
    requires !SoloPopFails(cfg, s, c)
    requires var last := SetPop(s, c, PopUpto(cfg, s, c, into, cfg.width));
             Leads(cfg, rule, s, steps, last) && Shape(cfg, last)
    ensures Leads(cfg, rule, s, steps + [PopStore(c)], SoloPop(cfg, s, c))
  {
    var pc := PopUpto(cfg, s, c, into, cfg.width);
    Then(cfg, rule, s, steps, SetPop(s, c, pc), PopStore(c));
    assert s.pops[c := pc][c := PopIdle] == s.pops;
  }

  lemma PopHands(cfg: Config, rule: Rule, s: State, front: seq<Step>, last: State, c: nat)
    requires Leads(cfg, rule, s, front, last) && PopStore(c) !in front && Allowed(cfg, rule, last, PopStore(c))
    ensures Handed(cfg, s, front + [PopStore(c)], c) == [last.pops[c].buffer]
  {
    HandedJoin(cfg, rule, s, front, last, [PopStore(c)], c);
    HandedNone(cfg, s, front, c);
    assert Handed(cfg, Do(cfg, last, PopStore(c)), [], c) == [];
  }

  lemma PopSucceeds(cfg: Config, rule: Rule, s: State, looks: seq<Step>, c: nat, into: Item)
    returns (steps: seq<Step>)
    requires Shape(cfg, s) && c < MAX_CONSUMERS && s.pops[c].PopIdle? && |into| == cfg.width
    requires !SoloPopFails(cfg, s, c) && PopStore(c) !in looks
    requires Leads(cfg, rule, s, looks, SetPop(s, c, PopCopying(s.consumers[c].tail, into, {})))
    ensures Leads(cfg, rule, s, steps, SoloPop(cfg, s, c))
    ensures Handed(cfg, s, steps, c) == [SoloItem(cfg, s, c)]
  {
    hide Leads, Handed;
    var front := PopCopyAlone(cfg, rule, s, looks, c, into, cfg.width);
    PopEnds(cfg, rule, s, front, c, into);
    assert SoloItem(cfg, s, c)[..cfg.width] + into[cfg.width..] == SoloItem(cfg, s, c);
    PopHands(cfg, rule, s, front, SetPop(s, c, PopUpto(cfg, s, c, into, cfg.width)), c);
    steps := front + [PopStore(c)];
  }

  /** A pop that runs alone fails, or hands over the slot's payload and moves the tail by one. */
  lemma PopAlone(cfg: Config, rule: Rule, s: State, c: nat, into: Item) returns (steps: seq<Step>)
    requires Shape(cfg, s) && c < MAX_CONSUMERS && s.pops[c].PopIdle? && |into| == cfg.width
    ensures Leads(cfg, rule, s, steps, SoloPop(cfg, s, c))
    ensures Handed(cfg, s, steps, c) == if SoloPopFails(cfg, s, c) then [] else [SoloItem(cfg, s, c)]
  {
    if s.consumers[c].active {
      steps := PopLooks(cfg, rule, s, c, into);
      if SoloPopFails(cfg, s, c) {
        HandedNone(cfg, s, steps, c);
      } else {
        steps := PopSucceeds(cfg, rule, s, steps, c, into);
      }
    } else {
      One(cfg, rule, s, PopBegin(c, into));
      steps := [PopBegin(c, into)];
      HandedNone(cfg, s, steps, c);
    }
  }

  /** Pops alone fail exactly when everything published so far has been read, if nothing is being published. */
  lemma DrainNext(cfg: Config, s: State, c: nat)
    requires Inv(cfg, s) && Bounded(cfg, s) && s.claims == map[]
    requires c < MAX_CONSUMERS && s.consumers[c].active
    ensures var tail := s.consumers[c].tail;
            && tail <= |s.log|
            && (SoloPopFails(cfg, s, c) <==> tail == |s.log|)
            && (tail < |s.log| ==> SoloItem(cfg, s, c) == s.log[tail])
  {
    SequenceTells(cfg, s, c);
    if s.consumers[c].tail < |s.log| {
      assert SlotHolds(cfg, s, s.consumers[c].tail);
    }
  }

  lemma DrainOne(cfg: Config, s: State, c: nat, into: Item) returns (steps: seq<Step>)
    requires Inv(cfg, s) && Bounded(cfg, s) && s.claims == map[] && |into| == cfg.width
    requires c < MAX_CONSUMERS && s.consumers[c].active && s.pops[c].PopIdle? && s.consumers[c].tail < s.head
    ensures SoloPop(cfg, s, c) == s.(consumers := s.consumers[c := Consumer(s.consumers[c].tail + 1, true)])
    ensures Inv(cfg, SoloPop(cfg, s, c)) && Leads(cfg, InRegime, s, steps, SoloPop(cfg, s, c))
    ensures Handed(cfg, s, steps, c) == [s.log[s.consumers[c].tail]]
  {
    DrainNext(cfg, s, c);
    steps := PopAlone(cfg, InRegime, s, c, into);
    LeadsSafely(cfg, s, steps, SoloPop(cfg, s, c));
  }

  /** Consumer c has read everything. */
  function Drained(s: State, c: nat): State
    requires c < |s.consumers|
  {
    s.(consumers := s.consumers[c := Consumer(s.head, true)])
  }

  lemma DrainJoin(cfg: Config, s: State, first: seq<Step>, rest: seq<Step>, c: nat)
    requires Shape(cfg, s) && c < MAX_CONSUMERS && s.consumers[c].tail < |s.log|
    requires SoloPop(cfg, s, c) == s.(consumers := s.consumers[c := Consumer(s.consumers[c].tail + 1, true)])
    requires Leads(cfg, InRegime, s, first, SoloPop(cfg, s, c))
    requires Leads(cfg, InRegime, SoloPop(cfg, s, c), rest, Drained(SoloPop(cfg, s, c), c))
    requires Handed(cfg, s, first, c) == [s.log[s.consumers[c].tail]]
    requires Handed(cfg, SoloPop(cfg, s, c), rest, c) == s.log[s.consumers[c].tail + 1..]
    ensures Leads(cfg, InRegime, s, first + rest, Drained(s, c))
    ensures Handed(cfg, s, first + rest, c) == s.log[s.consumers[c].tail..]
  {
    hide Leads, Handed;
    var m := SoloPop(cfg, s, c);
    assert Drained(m, c) == Drained(s, c);
    LeadsJoin(cfg, InRegime, s, first, m, rest, Drained(m, c));
    HandedJoin(cfg, InRegime, s, first, m, rest, c);
  }

  lemma Nothing(cfg: Config, s: State, c: nat)
    ensures Leads(cfg, InRegime, s, [], s) && Handed(cfg, s, [], c) == []
  {
  }

  /** From a state in which no push is between claim and publication, a consumer that pops alone gets
      each remaining payload once, in order: exactly head - tail successful pops, and then a failure. */
  lemma {:induction false} DrainAlone(cfg: Config, s: State, c: nat, into: Item) returns (steps: seq<Step>)
    requires Inv(cfg, s) && Bounded(cfg, s) && s.claims == map[] && |into| == cfg.width
    requires c < MAX_CONSUMERS && s.consumers[c].active && s.pops[c].PopIdle?
    ensures Leads(cfg, InRegime, s, steps, Drained(s, c))
    ensures Shape(cfg, Drained(s, c)) && SoloPopFails(cfg, Drained(s, c), c)
    ensures s.consumers[c].tail <= |s.log| && Handed(cfg, s, steps, c) == s.log[s.consumers[c].tail..]
    decreases s.head - s.consumers[c].tail
  {
    hide Leads, Handed;
    DrainNext(cfg, s, c);
    if s.consumers[c].tail == s.head {
      assert Drained(s, c) == s;
      Nothing(cfg, s, c);
      assert s.log[s.head..] == [];
      steps := [];
    } else {
      var first := DrainOne(cfg, s, c, into);
      var rest := DrainAlone(cfg, SoloPop(cfg, s, c), c, into);
      assert Drained(SoloPop(cfg, s, c), c) == Drained(s, c);
      DrainJoin(cfg, s, first, rest, c);
      steps := first + rest;
    }
  }
}
