/** What holds in every reachable state of the queue. */
module QueueSafety {
  import opened Bytes
  import opened RingIndex
  import opened TailScan
  import opened QueueModel
  import opened QueueCore
  import opened QueueInvariant
  import opened QueueRefinement
  import opened QueueRuns
  import TicketLog

  /** A position is published exactly when it has been claimed and no producer is still on its way to publish it. */
  lemma PublishedMeans(cfg: Config, s: State, p: nat)
    requires Reachable(cfg, s)
    ensures p in s.published
       <==> p < s.head && forall t :: t in s.threads && s.threads[t].Copying? ==> s.threads[t].pos != p
  {
    ReachableCore(cfg, s);
    if p < s.head && p !in s.published {
      assert p in s.claims && At(s, s.claims[p]).Copying?;
    }
    forall t | t in s.threads && s.threads[t].Copying? ensures s.threads[t].pos in s.claims {
      assert PcInv(cfg, s, t, s.threads[t]);
    }
  }

  /** The log is readable throughout exactly when no push is in flight. */
  lemma ReadableIffNoPushInFlight(cfg: Config, s: State)
    requires Reachable(cfg, s) && |s.joins| == |s.consumers|
    ensures TicketLog.AllReadable(Abs(s)) <==> Producing(s) == {}
  {
    ReachableCore(cfg, s);
    if TicketLog.AllReadable(Abs(s)) {
      forall t | t in s.threads ensures !s.threads[t].Copying? {
        assert PcInv(cfg, s, t, s.threads[t]);
      }
    }
    if Producing(s) == {} {
      forall p | 0 <= p < |s.log| ensures p in s.published {
        PublishedMeans(cfg, s, p);
        assert forall t :: t in s.threads && s.threads[t].Copying? ==> t in Producing(s);
      }
    }
  }

  /** The 64-bit machine computes what unbounded integers would: nothing wraps, and no position is INVALID_POS. */
  lemma NothingWraps(cfg: Config, s: State, t: Tid)
    requires Reachable(cfg, s) && Shape(cfg, s)
    ensures s.head < 0xFFFF_FFFF_FFFF_FFFF == INVALID_POS && Add64(s.head, 1) == s.head + 1
    ensures forall m :: m == s.minTail || m in LocalMins(At(s, t)) ==> m < WORD && Add64(m, cfg.size) == m + cfg.size
    ensures forall c :: 0 <= c < MAX_CONSUMERS ==> Add64(s.consumers[c].tail, 1) == s.consumers[c].tail + 1
    ensures forall j :: 0 <= j < cfg.size ==> s.slots[j].sequence == INVALID_POS || s.slots[j].sequence < s.head
  {
    ReachableCore(cfg, s);
    if t in s.threads { assert PcInv(cfg, s, t, s.threads[t]); }
    forall m | m == s.minTail || m in LocalMins(At(s, t)) ensures m < WORD && Add64(m, cfg.size) == m + cfg.size {
      NoWrap(cfg, s, m);
    }
  }

  /** No two producers are between claim and publication on the same slot. */
  lemma ProducersApart(cfg: Config, s: State, t: Tid, u: Tid)
    requires Reachable(cfg, s) && t != u && At(s, t).Copying? && At(s, u).Copying?
    ensures cfg.Valid() && SlotOf(cfg, At(s, t).pos) != SlotOf(cfg, At(s, u).pos)
  {
    ReachableCore(cfg, s);
    assert PcInv(cfg, s, t, At(s, t)) && PcInv(cfg, s, u, At(s, u));
    ClaimOwnsSlot(cfg, s, At(s, t).pos, At(s, u).pos);
  }

  /** No producer writes the slot that a consumer is between its sequence check and tail store on. */
  lemma ReaderUndisturbed(cfg: Config, s: State, t: Tid, c: nat)
    requires Reachable(cfg, s) && At(s, t).Copying? && c < |s.pops| && s.pops[c].PopCopying?
    ensures cfg.Valid() && SlotOf(cfg, At(s, t).pos) != SlotOf(cfg, s.pops[c].tail)
  {
    ReachableCore(cfg, s);
    assert PcInv(cfg, s, t, At(s, t)) && PopInv(cfg, s, c, s.pops[c]);
    ClaimOwnsSlot(cfg, s, At(s, t).pos, s.pops[c].tail);
  }

  /** The copies of min_tail that thread t holds, and the results it may yet store. */
  function LocalMins(pc: Pc): set<nat> {
    match pc
    case Scanning(PushJob(item, head, minTail), scan) => {minTail}
    case AtStoreMin(PushJob(item, head, minTail), result, start) => {minTail, result}
    case AtStoreMin(RefreshJob, result, start) => {result}
    case AtCas(item, head, minTail) => {minTail}
    case _ => {}
  }

  /** No overrun: everything below min_tail and below every copy of it is published, they trail each active
      consumer, and head is never more than SIZE past an active tail. */
  lemma NoOverrun(cfg: Config, s: State, t: Tid, m: nat)
    requires Reachable(cfg, s) && (m == s.minTail || m in LocalMins(At(s, t)))
    ensures PublishedBelow(s, m) && m <= s.head
    ensures forall c :: 0 <= c < |s.consumers| && s.consumers[c].active ==>
              m <= s.consumers[c].tail <= s.head <= s.consumers[c].tail + cfg.size
  {
    ReachableCore(cfg, s);
    if t in s.threads { assert PcInv(cfg, s, t, s.threads[t]); }
    MinsBelowHead(cfg, s, m);
  }

  /** A pop that is about to look at its slot fails exactly when its position is unpublished, and
      otherwise goes on to copy that position. */
  lemma PopFailsIffUnpublished(cfg: Config, s: State, c: nat)
    requires Reachable(cfg, s) && Shape(cfg, s) && Ready(cfg, s, PopSequence(c))
    ensures s.pops[c].tail == s.consumers[c].tail && s.consumers[c].active
    ensures Do(cfg, s, PopSequence(c)).pops[c].PopIdle? <==> s.consumers[c].tail !in s.published
    ensures s.consumers[c].tail in s.published ==> Do(cfg, s, PopSequence(c)).pops[c].PopCopying?
  {
    ReachableCore(cfg, s);
    assert PopInv(cfg, s, c, s.pops[c]);
    SequenceTells(cfg, s, c);
  }

  lemma SequencesKept(cfg: Config, s: State, step: Step, j: nat)
    requires Shape(cfg, s) && Ready(cfg, s, step) && j < cfg.size && !step.Publish?
    ensures |Do(cfg, s, step).slots| == cfg.size && Do(cfg, s, step).slots[j].sequence == s.slots[j].sequence
  {
  }

  /** The sequence of a slot changes only from nothing to i, or from i to i + SIZE. */
  lemma SequenceAdvances(cfg: Config, s: State, step: Step, j: nat)
    requires Reachable(cfg, s) && Shape(cfg, s) && Ready(cfg, s, step) && j < cfg.size
    ensures |Do(cfg, s, step).slots| == cfg.size
    ensures var q, q' := s.slots[j].sequence, Do(cfg, s, step).slots[j].sequence;
            q' == q || (SlotOf(cfg, q') == j && q == (if q' < cfg.size then INVALID_POS else q' - cfg.size))
  {
    if step.Publish? {
      ReachableCore(cfg, s);
      assert PcInv(cfg, s, step.t, At(s, step.t));
      assert SlotHolds(cfg, s, At(s, step.t).pos);
    } else {
      SequencesKept(cfg, s, step, j);
    }
  }

  /** A position sits in its own slot. */
  lemma SequenceHome(cfg: Config, s: State, j: nat)
    requires Reachable(cfg, s) && Shape(cfg, s) && j < cfg.size
    ensures s.slots[j].sequence == INVALID_POS || SlotOf(cfg, s.slots[j].sequence) == j
  {
    var r :| IsSafeRun(cfg, r) && r.Last() == s;
    SequenceHomeInRun(cfg, r, |r.steps|, j);
  }

  lemma {:induction false} SequenceHomeInRun(cfg: Config, r: Run, n: nat, j: nat)
    requires IsSafeRun(cfg, r) && Bounded(cfg, r.Last()) && n <= |r.steps| && j < cfg.size
    ensures |r.states[n].slots| == cfg.size && cfg.Valid()
    ensures r.states[n].slots[j].sequence == INVALID_POS || SlotOf(cfg, r.states[n].slots[j].sequence) == j
    decreases n
  {
    if n > 0 {
      SequenceHomeInRun(cfg, r, n - 1, j);
      SafeUptoReachable(cfg, r, n - 1);
      assert JoinsSafely(cfg, r.states[n - 1], r.steps[n - 1], r.states[n]);
      SequenceAdvances(cfg, r.states[n - 1], r.steps[n - 1], j);
    }
  }

  /** The sequence of a consumer's slot is never ahead of the consumer. */
  lemma SequenceNeverAhead(cfg: Config, s: State, c: nat)
    requires Reachable(cfg, s) && Shape(cfg, s) && c < MAX_CONSUMERS && s.consumers[c].active
    ensures var q := s.slots[SlotOf(cfg, s.consumers[c].tail)].sequence;
            q == INVALID_POS || q <= s.consumers[c].tail
  {
    hide Reachable;
    NothingWraps(cfg, s, 0);
    NoOverrun(cfg, s, 0, s.minTail);
    var tail := s.consumers[c].tail;
    var j := SlotOf(cfg, tail);
    SequenceHome(cfg, s, j);
    RingDistinct(tail, s.slots[j].sequence, cfg.size);
  }

  // ---------------------------------------------------------------------------------------------
  // Conservation
  // ---------------------------------------------------------------------------------------------

  lemma {:induction false} RangeSize(ps: set<nat>, n: nat)
    requires forall p :: p in ps ==> p < n
    requires forall p: nat :: p < n ==> p in ps
    ensures |ps| == n
    decreases n
  {
    if n == 0 {
      assert ps == {};
    } else {
      RangeSize(ps - {n - 1}, n - 1);
    }
  }

  /** Two sets in one-to-one correspondence are equally large. */
  lemma {:induction false} SameSize(ps: set<nat>, ts: set<Tid>, owner: map<nat, Tid>)
    requires ps <= owner.Keys && (forall p :: p in ps ==> owner[p] in ts)
    requires forall p, q :: p in ps && q in ps && owner[p] == owner[q] ==> p == q
    requires forall t :: t in ts ==> exists p :: p in ps && owner[p] == t
    ensures |ps| == |ts|
    decreases ps
  {
    if p :| p in ps {
      SameSize(ps - {p}, ts - {owner[p]}, owner);
    } else {
      assert ts == {};
    }
  }

  function Producing(s: State): set<Tid> {
    set t | t in s.threads && s.threads[t].Copying?
  }

  lemma OwnersAreProducers(cfg: Config, s: State)
    requires Core(cfg, s)
    ensures |s.claims.Keys| == |Producing(s)|
  {
    forall t | t in Producing(s) ensures exists p :: p in s.claims.Keys && s.claims[p] == t {
      assert PcInv(cfg, s, t, s.threads[t]);
    }
    assert forall p :: p in s.claims ==> At(s, s.claims[p]).Copying? && At(s, s.claims[p]).pos == p;
    SameSize(s.claims.Keys, Producing(s), s.claims);
  }

  /** head counts the published positions and the producers between claim and publication. */
  lemma Conservation(cfg: Config, s: State)
    requires Reachable(cfg, s)
    ensures s.head == |s.published| + |Producing(s)|
  {
    ReachableCore(cfg, s);
    OwnersAreProducers(cfg, s);
    var claimed := s.published + s.claims.Keys;
    RangeSize(claimed, s.head);
    assert s.published !! s.claims.Keys;
  }

  // ---------------------------------------------------------------------------------------------
  // The scan under concurrency
  // ---------------------------------------------------------------------------------------------

  /** With a consumer still active, a scan's result lies between the least active tail when the scan began
      and every active tail when it ends; with none, everything below it is still published. */
  lemma ScanBetween(cfg: Config, r: Run, i: nat, t: Tid)
    requires IsRun(cfg, r) && Bounded(cfg, r.Last()) && i <= |r.steps|
    requires Shape(cfg, r.states[i]) && Ready(cfg, r.states[i], ScanFinish(t))
    ensures var s := r.states[i]; var scan := At(s, t).scan; var result := OrZero(Combine(scan.acc));
            && PublishedBelow(s, result)
            && (SomeActive(s.consumers) || result > 0 ==> ScalarMin(scan.start.consumers) <= result)
            && forall c :: 0 <= c < |s.consumers| && s.consumers[c].active ==> result <= s.consumers[c].tail
  {
    var s := r.states[i];
    RunIsSafe(cfg, r, i);
    assert PcInv(cfg, s, t, At(s, t)) && PcOrderly(cfg, s, At(s, t));
    ScanEnds(cfg, s, At(s, t).scan);
  }
}
