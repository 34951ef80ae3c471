/** The queue refines the ticket log. */
module QueueRefinement {
  import opened Bytes
  import opened RingIndex
  import opened TailScan
  import opened QueueModel
  import opened QueueCore
  import TicketLog

  function CursorOf(c: Consumer, join: nat): TicketLog.Cursor {
    if c.active then TicketLog.In(join, c.tail) else TicketLog.Out
  }

  function Abs(s: State): TicketLog.Ledger
    requires |s.joins| == |s.consumers|
  {
    TicketLog.Ledger(s.log, s.published,
                     seq(|s.consumers|, c requires 0 <= c < |s.consumers| == |s.joins| =>
                                          CursorOf(s.consumers[c], s.joins[c])))
  }

  /** What a step is to an observer of the log. */
  function EventOf(cfg: Config, s: State, step: Step): TicketLog.Event
    requires Shape(cfg, s) && Ready(cfg, s, step)
  {
    match step
    case Cas(t, spurious) =>
      if !spurious && s.head == At(s, t).head then TicketLog.Appended(At(s, t).item) else TicketLog.Internal
    case Publish(t) => TicketLog.Readable(At(s, t).pos)
    case RegisterActivate(t) => TicketLog.Joined(At(s, t).id, s.consumers[At(s, t).id].tail)
    case Unregister(c) => TicketLog.Left(c)
    case PopBegin(c, into) => if s.consumers[c].active then TicketLog.Internal else TicketLog.FoundInactive(c)
    case PopSequence(c) =>
      if s.slots[SlotOf(cfg, s.pops[c].tail)].sequence == s.pops[c].tail then TicketLog.Internal
      else TicketLog.FoundEmpty(c)
    case PopStore(c) => TicketLog.Delivered(c, s.pops[c].buffer)
    case _ => TicketLog.Internal
  }

  lemma ClaimFollows(cfg: Config, s: State, t: Tid)
    requires Core(cfg, s) && Bounded(cfg, s) && Ready(cfg, s, Cas(t, false)) && s.head == At(s, t).head
    ensures TicketLog.Follows(cfg.size, Abs(s), TicketLog.Appended(At(s, t).item), Abs(Claimed(s, t, At(s, t).item)))
  {
    assert PcInv(cfg, s, t, At(s, t));
  }

  lemma PublishFollows(cfg: Config, s: State, t: Tid)
    requires Core(cfg, s) && Ready(cfg, s, Publish(t))
    ensures var pos := At(s, t).pos;
            TicketLog.Follows(cfg.size, Abs(s), TicketLog.Readable(pos), Abs(Published(s, t, pos, SlotOf(cfg, pos))))
  {
    assert PcInv(cfg, s, t, At(s, t));
  }

  lemma JoinFollows(cfg: Config, s: State, t: Tid)
    requires Core(cfg, s) && Ready(cfg, s, RegisterActivate(t)) && JoinOk(cfg, s, At(s, t).id)
    ensures var id := At(s, t).id;
            TicketLog.Follows(cfg.size, Abs(s), TicketLog.Joined(id, s.consumers[id].tail), Abs(Activated(s, t, id)))
  {
    var id := At(s, t).id;
    assert PcInv(cfg, s, t, At(s, t));
    var tail := s.consumers[id].tail;
    assert Abs(Activated(s, t, id)).cursors == Abs(s).cursors[id := TicketLog.In(tail, tail)];
  }

  lemma TailSetFollows(cfg: Config, s: State, t: Tid)
    requires Core(cfg, s) && Ready(cfg, s, RegisterTail(t))
    ensures Abs(TailSet(s, t, At(s, t).id, At(s, t).head)) == Abs(s)
  {
    assert PcInv(cfg, s, t, At(s, t));
    assert Abs(TailSet(s, t, At(s, t).id, At(s, t).head)).cursors == Abs(s).cursors;
  }

  /** A payload that pop hands over is whole: it is the log entry at the consumer's tail. */
  lemma DeliveryFollows(cfg: Config, s: State, c: nat)
    requires Core(cfg, s) && Bounded(cfg, s) && Ready(cfg, s, PopStore(c))
    ensures TicketLog.Follows(cfg.size, Abs(s), TicketLog.Delivered(c, s.pops[c].buffer), Abs(Do(cfg, s, PopStore(c))))
  {
    var s' := Do(cfg, s, PopStore(c));
    assert PopInv(cfg, s, c, s.pops[c]);
    assert s.pops[c].buffer == s.log[s.pops[c].tail];
    assert Abs(s').cursors == Abs(s).cursors[c := TicketLog.In(s.joins[c], s.pops[c].tail + 1)];
  }

  lemma LeaveFollows(cfg: Config, s: State, c: nat)
    requires Core(cfg, s) && Ready(cfg, s, Unregister(c))
    ensures TicketLog.Follows(cfg.size, Abs(s), TicketLog.Left(c), Abs(Do(cfg, s, Unregister(c))))
  {
    assert Abs(Do(cfg, s, Unregister(c))).cursors == Abs(s).cursors[c := TicketLog.Out];
  }

  /** The steps that an observer of the log does not see. */
  lemma OthersInternal(cfg: Config, s: State, step: Step)
    requires Shape(cfg, s) && Ready(cfg, s, step)
    requires !step.Cas? && !step.Publish? && !step.RegisterTail? && !step.RegisterActivate?
    requires !step.Unregister? && !step.PopStore?
    ensures var s' := Do(cfg, s, step);
            s'.log == s.log && s'.published == s.published && s'.consumers == s.consumers && s'.joins == s.joins
  {
    hide PcShape, PopShape, ScanStep, AfterMin;
  }

  lemma PopFollows(cfg: Config, s: State, step: Step)
    requires Core(cfg, s) && Bounded(cfg, s) && Ready(cfg, s, step)
    requires step.PopBegin? || step.PopSequence? || step.PopTail? || step.PopByte?
    ensures TicketLog.Follows(cfg.size, Abs(s), EventOf(cfg, s, step), Abs(s))
  {
    assert PopInv(cfg, s, step.c, s.pops[step.c]);
    if step.PopSequence? {
      SequenceTells(cfg, s, step.c);
    }
  }

  lemma WriterRefines(cfg: Config, s: State, step: Step)
    requires Core(cfg, s) && Bounded(cfg, s) && Ready(cfg, s, step) && Permits(cfg, SafeJoins, s, step)
    requires (step.Cas? || step.Publish?)
    requires Shape(cfg, Do(cfg, s, step))
    ensures TicketLog.Follows(cfg.size, Abs(s), EventOf(cfg, s, step), Abs(Do(cfg, s, step)))
  {
    if step.Publish? {
      PublishFollows(cfg, s, step.t);
    } else if !step.spurious && s.head == At(s, step.t).head {
      ClaimFollows(cfg, s, step.t);
    } else {
      assert Abs(Do(cfg, s, step)) == Abs(s);
    }
  }

  lemma ReaderRefines(cfg: Config, s: State, step: Step)
    requires Core(cfg, s) && Bounded(cfg, s) && Ready(cfg, s, step) && Permits(cfg, SafeJoins, s, step)
    requires step.RegisterTail? || step.RegisterActivate? || step.Unregister? || step.PopStore?
    requires Shape(cfg, Do(cfg, s, step))
    ensures TicketLog.Follows(cfg.size, Abs(s), EventOf(cfg, s, step), Abs(Do(cfg, s, step)))
  {
    match step {
      case RegisterTail(t) => TailSetFollows(cfg, s, t);
      case RegisterActivate(t) => JoinFollows(cfg, s, t);
      case Unregister(c) => LeaveFollows(cfg, s, c);
      case PopStore(c) => DeliveryFollows(cfg, s, c);
    }
  }

  /** Every step of the queue is a step of the ticket log, or leaves it alone. */
  lemma StepRefines(cfg: Config, s: State, step: Step)
    requires Core(cfg, s) && Bounded(cfg, s) && Ready(cfg, s, step) && Permits(cfg, SafeJoins, s, step)
    requires Shape(cfg, Do(cfg, s, step))
    ensures TicketLog.Follows(cfg.size, Abs(s), EventOf(cfg, s, step), Abs(Do(cfg, s, step)))
  {
    if step.Cas? || step.Publish? {
      WriterRefines(cfg, s, step);
    } else if step.RegisterTail? || step.RegisterActivate? || step.Unregister? || step.PopStore? {
      ReaderRefines(cfg, s, step);
    } else {
      OthersInternal(cfg, s, step);
      assert Abs(Do(cfg, s, step)) == Abs(s);
      if step.PopBegin? || step.PopSequence? || step.PopTail? || step.PopByte? { PopFollows(cfg, s, step); }
    }
  }
}
