/** The queue class itself, used by one thread at a time: its fields, arrays, loops, and its contract. */
module MpmcQueue {
  import opened Bytes
  import opened RingIndex
  import opened TailScan
  import opened QueueModel
  import opened QueueCore
  import opened QueueInvariant
  import opened QueueSolo

  datatype Registration = Registered(id: nat) | TooManyConsumers

  class Queue {
    const cfg: Config
    var head: nat
    var minTail: nat
    var numConsumers: nat
    const tails: array<nat>
    const active: array<bool>
    const sequences: array<nat>
    const data: array<Item>

    /** The same queue in the step system, between calls. */
    ghost var model: State

    ghost predicate Shaped()
      reads this
    {
      && cfg.Valid()
      && tails.Length == active.Length == MAX_CONSUMERS && sequences.Length == data.Length == cfg.size
      && tails != sequences
    }

    ghost function Consumers(): seq<Consumer>
      reads this, tails, active
      requires tails.Length == active.Length
    {
      seq(tails.Length, c requires 0 <= c < tails.Length reads this, tails, active => Consumer(tails[c], active[c]))
    }

    ghost function Slots(): seq<Slot>
      reads this, sequences, data
      requires sequences.Length == data.Length
    {
      seq(sequences.Length,
          j requires 0 <= j < sequences.Length reads this, sequences, data => Slot(sequences[j], data[j]))
    }

    /** No call is under way. */
    ghost predicate Resting()
      reads this
    {
      && (forall t :: t in model.threads ==> model.threads[t].Idle?)
      && (forall c :: 0 <= c < |model.pops| ==> model.pops[c].PopIdle?)
    }

    ghost predicate Valid()
      reads this, tails, active, sequences, data
    {
      && Shaped() && Inv(cfg, model) && Resting()
      && model.head == head && model.minTail == minTail && model.numConsumers == numConsumers
      && model.consumers == Consumers() && model.slots == Slots()
    }

    /** Whether the next claims still fit 64 bits. */
    predicate RoomForPositions()
      reads this
    {
      head + cfg.size + 2 < WORD
    }

    constructor (cfg: Config)
      requires cfg.Valid()
      ensures Valid() && this.cfg == cfg && model.log == [] && !SomeActive(model.consumers)
      ensures fresh(tails) && fresh(active) && fresh(sequences) && fresh(data)
    {
      this.cfg := cfg;
      head, minTail, numConsumers := 0, 0, 0;
      tails := new nat[MAX_CONSUMERS](_ => 0);
      active := new bool[MAX_CONSUMERS](_ => false);
      sequences := new nat[cfg.size](_ => INVALID_POS);
      data := new Item[cfg.size](_ => Zeros(cfg.width));
      new;
      model := State(0, 0, 0, Consumers(), Slots(), map[], seq(MAX_CONSUMERS, _ => PopIdle),
                     [], {}, map[], map[], seq(MAX_CONSUMERS, _ => 0));
      assert IsInit(cfg, model);
      InitInv(cfg, model);
    }

    /** In a resting queue every claimed position is published. */
    lemma AllPublished()
      requires Valid()
      ensures model.claims == map[] && PublishedBelow(model, model.head) && NoRegistration(model) && Quiet(model)
    {
      QuietPublished(cfg, model);
    }

    /** The unrolled scan computes what the scalar scan computes. */
    method ComputeMinTail() returns (result: nat)
      requires Shaped()
      ensures result == ScalarMin(Consumers()) < WORD
    {
      var min0, min1, min2, min3 := INVALID_POS, INVALID_POS, INVALID_POS, INVALID_POS;
      var i := 0;
      ghost var cs := Consumers();
      while i < MAX_CONSUMERS
        invariant 0 <= i <= MAX_CONSUMERS && i % 4 == 0
        invariant LanesAre(cs, i, min0, min1, min2, min3)
      {
        LanesStep(cs, i, min0, min1, min2, min3);
        if active[i] { min0 := Min(min0, tails[i]); }
        if active[i + 1] { min1 := Min(min1, tails[i + 1]); }
        if active[i + 2] { min2 := Min(min2, tails[i + 2]); }
        if active[i + 3] { min3 := Min(min3, tails[i + 3]); }
        i := i + 4;
      }
      assert cs[..MAX_CONSUMERS] == cs;
      LanesCombine(cs);
      MinOverBounds(cs);
      result := Min(Min(min0, min1), Min(min2, min3));
      if result == INVALID_POS { result := 0; }
    }

    method RecomputeAndStoreMinTail()
      requires Valid() && RoomForPositions()
      modifies this
      ensures Valid()
      ensures minTail == ScalarMin(old(model.consumers))
      ensures model == Go(old(model).(minTail := minTail), 0, Idle)
      ensures head == old(head) && numConsumers == old(numConsumers)
    {
      AllPublished();
      ghost var steps := RefreshAlone(cfg, InRegime, model, 0);
      LeadsSafely(cfg, model, steps, Go(model.(minTail := ScalarMin(model.consumers)), 0, Idle));
      minTail := ComputeMinTail();
      model := Go(model.(minTail := minTail), 0, Idle);
    }

    lemma RegisterKeeps()
      requires Valid() && RoomForPositions()
      ensures Inv(cfg, SoloRegister(model, 0))
      ensures numConsumers < MAX_CONSUMERS ==> !model.consumers[numConsumers].active
    {
      AllPublished();
      var steps := RegisterAlone(cfg, InRegime, model, 0);
      LeadsSafely(cfg, model, steps, SoloRegister(model, 0));
    }

    /** A new consumer sees exactly the pushes that follow its registration. */
    method RegisterConsumer() returns (r: Registration)
      requires Valid() && RoomForPositions()
      modifies this, tails, active
      ensures Valid() && model == SoloRegister(old(model), 0)
      ensures old(numConsumers) >= 32 <==> r.TooManyConsumers?
      ensures r.TooManyConsumers? ==> model.consumers == old(model.consumers)
      ensures r.Registered? ==>
                && r.id == old(numConsumers) < 32 && !old(model.consumers)[r.id].active
                && model.consumers == old(model.consumers)[r.id := Consumer(|model.log|, true)]
      ensures model.log == old(model.log) && numConsumers == old(numConsumers) + 1
    {
      RegisterKeeps();
      ghost var was := model;
      model := SoloRegister(was, 0);
      var id := numConsumers;
      numConsumers := numConsumers + 1;
      if id >= MAX_CONSUMERS {
        return TooManyConsumers;
      }
      tails[id] := head;
      active[id] := true;
      assert was.consumers[id := Consumer(head, true)] == Consumers();
      r := Registered(id);
    }

    method UnregisterConsumer(id: nat)
      requires Valid() && RoomForPositions() && id < MAX_CONSUMERS
      modifies this`model, active
      ensures Valid()
      ensures model == old(model).(consumers := old(model.consumers)[id := old(model.consumers[id]).(active := false)])
    {
      KeepsUnregister(cfg, model, id);
      model := Do(cfg, model, Unregister(id));
      active[id] := false;
      assert model.consumers == Consumers();
    }

    /** compare_exchange_weak on head, which may fail for no reason. */
    method CompareExchangeHead(expected: nat, desired: nat, spurious: bool) returns (ok: bool)
      modifies this`head
      ensures ok <==> !spurious && old(head) == expected
      ensures head == if ok then desired else old(head)
    {
      ok := !spurious && head == expected;
      if ok { head := desired; }
    }

    /** When a push that runs alone fails, in terms of what its caller can see. */
    lemma PushVerdict()
      requires Valid() && RoomForPositions()
      ensures SoloMin(cfg, model) < WORD
      ensures SoloPushFails(cfg, model) <==>
                |model.log| >= (if SomeActive(model.consumers) then ScalarMin(model.consumers) else minTail) + cfg.size
    {
      AllPublished();
      NoWrap(cfg, model, model.minTail);
      ScalarMinWord(cfg, model);
      ScalarMinMeaning(model.consumers);
      assert ScalarMin(model.consumers) <= model.head;
    }

    lemma PushKeeps(item: Item)
      requires Valid() && RoomForPositions() && |item| == cfg.width
      ensures SoloMin(cfg, model) < WORD && Inv(cfg, SoloPush(cfg, model, 0, item))
    {
      AllPublished();
      var steps := PushAlone(cfg, InRegime, model, 0, item);
      LeadsSafely(cfg, model, steps, SoloPush(cfg, model, 0, item));
    }

    /** The retry loop of push: it claims the position head, or finds the queue full. */
    method Claim(spuriousFailures: nat) returns (ok: bool, pos: nat)
      requires Valid() && RoomForPositions()
      modifies this`head, this`minTail
      ensures SoloMin(cfg, model) < WORD && minTail == SoloMin(cfg, model)
      ensures ok <==> !SoloPushFails(cfg, model)
      ensures pos == old(head) && head == if ok then pos + 1 else pos
    {
      ScalarMinWord(cfg, model);
      var left := spuriousFailures;
      while true
        invariant head == old(head) && model.consumers == Consumers()
        invariant minTail == old(minTail) || minTail == SoloMin(cfg, model)
        decreases left
      {
        pos := head;
        var min := minTail;
        if pos >= Add64(min, cfg.size) {
          var newMin := ComputeMinTail();
          if newMin != min {
            minTail := newMin;
            min := newMin;
          }
          if pos >= Add64(min, cfg.size) {
            return false, pos;
          }
        }
        ok := CompareExchangeHead(pos, Add64(pos, 1), left > 0);
        if ok { return; }
        left := left - 1;
      }
    }

    /** Push appends the payload, or says that the queue is full for the slowest active consumer. */
    method Push(item: Item, spuriousFailures: nat) returns (ok: bool)
      requires Valid() && RoomForPositions() && |item| == cfg.width
      modifies this, sequences, data
      ensures Valid()
      ensures SoloMin(cfg, old(model)) < WORD && model == SoloPush(cfg, old(model), 0, item)
      ensures model.log == if ok then old(model.log) + [item] else old(model.log)
      ensures model.consumers == old(model.consumers) && numConsumers == old(numConsumers)
      ensures ok <==> |old(model.log)| <
                        (if SomeActive(old(model.consumers)) then ScalarMin(old(model.consumers)) else old(minTail))
                        + cfg.size
    {
      PushVerdict();
      PushKeeps(item);
      ghost var was := model;
      var pos;
      ok, pos := Claim(spuriousFailures);
      model := SoloPush(cfg, was, 0, item);
      if ok {
        var index := SlotOf(cfg, pos);
        data[index] := item;
        sequences[index] := pos;
        assert was.slots[index := Slot(pos, item)] == Slots();
      }
    }

    /** Pop hands an active consumer the next payload of the log, or fails when it has them all. */
    method Pop(c: nat, into: Item) returns (ok: bool, item: Item)
      requires Valid() && RoomForPositions() && c < MAX_CONSUMERS && |into| == cfg.width
      modifies this`model, tails
      ensures Valid() && model == SoloPop(cfg, old(model), c)
      ensures ok <==> old(active[c]) && old(tails[c]) < |old(model.log)|
      ensures ok ==> item == old(model.log)[old(tails[c])] && tails[c] == old(tails[c]) + 1
      ensures !ok ==> item == into && tails[c] == old(tails[c])
      ensures model.log == old(model.log)
      ensures forall d :: 0 <= d < MAX_CONSUMERS && d != c ==> tails[d] == old(tails[d])
    {
      AllPublished();
      ghost var was := model;
      ghost var steps := PopAlone(cfg, InRegime, model, c, into);
      LeadsSafely(cfg, model, steps, SoloPop(cfg, model, c));
      assert was.consumers[c] == Consumer(tails[c], active[c]);
      if !active[c] {
        return false, into;
      }
      SequenceTells(cfg, was, c);
      var tail := tails[c];
      var index := SlotOf(cfg, tail);
      assert was.slots[index] == Slot(sequences[index], data[index]);
      if sequences[index] != tail {
        return false, into;
      }
      assert SlotHolds(cfg, was, tail);
      item := data[index];
      tails[c] := Add64(tail, 1);
      model := SoloPop(cfg, was, c);
      assert model.consumers == Consumers();
      ok := true;
    }
  }
}
