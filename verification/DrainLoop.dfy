/**
 The drain thread. Other threads move between its looks at the queue and at the stop request: they append
 payloads, make positions readable and request the stop, as a schedule says.
 */
module DrainLoop {
  import opened Bytes
  import opened DateCache
  import opened LogEntry
  import opened TextLine
  import opened SinkModel
  import opened SinkRuns
  import MMapSink
  import TicketLog

  type Item = seq<Byte>

  datatype OutputFormat = BINARY | TEXT

  // ---------------------------------------------------------------------------------------------
  // The other threads
  // ---------------------------------------------------------------------------------------------

  /** What the drain thread shares with the others. */
  datatype World = World(log: seq<Item>, published: set<nat>, stop: bool) {
    predicate AllReadable() {
      forall p :: 0 <= p < |log| ==> p in published
    }
  }

  datatype Move = Append(item: Item) | MakeReadable(p: nat) | RequestStop

  function Apply(w: World, m: Move): World {
    match m
    case Append(item) => w.(log := w.log + [item])
    case MakeReadable(p) => if p < |w.log| then w.(published := w.published + {p}) else w
    case RequestStop => w.(stop := true)
  }

  function ApplyAll(w: World, moves: seq<Move>): World
    decreases |moves|
  {
    if moves == [] then w else ApplyAll(Apply(w, moves[0]), moves[1..])
  }

  /** The stop is requested some time, no push is in flight then, and none begins after. */
  predicate Calm(w: World, moves: seq<Move>)
    decreases |moves|
  {
    && (w.stop ==> w.AllReadable())
    && if moves == [] then w.stop
       else (w.stop ==> !moves[0].Append?) && Calm(Apply(w, moves[0]), moves[1..])
  }

  function Flatten(schedule: seq<seq<Move>>): seq<Move> {
    if schedule == [] then [] else schedule[0] + Flatten(schedule[1..])
  }

  lemma {:induction false} ApplyJoin(w: World, xs: seq<Move>, ys: seq<Move>)
    ensures ApplyAll(w, xs + ys) == ApplyAll(ApplyAll(w, xs), ys)
    decreases |xs|
  {
    if xs == [] {
      assert xs + ys == ys;
    } else {
      assert (xs + ys)[1..] == xs[1..] + ys;
      ApplyJoin(Apply(w, xs[0]), xs[1..], ys);
    }
  }

  lemma {:induction false} CalmLater(w: World, xs: seq<Move>, ys: seq<Move>)
    requires Calm(w, xs + ys)
    ensures Calm(ApplyAll(w, xs), ys)
    decreases |xs|
  {
    if xs == [] {
      assert xs + ys == ys;
    } else {
      assert (xs + ys)[1..] == xs[1..] + ys;
      CalmLater(Apply(w, xs[0]), xs[1..], ys);
    }
  }

  /** Moves only append to the log and make positions readable, and a stop stays requested; in a calm future nothing is
      appended after it. */
  lemma {:induction false} MovesAppend(w: World, moves: seq<Move>)
    ensures w.log <= ApplyAll(w, moves).log && w.published <= ApplyAll(w, moves).published
    ensures w.stop ==> ApplyAll(w, moves).stop
    ensures Calm(w, moves) ==> ApplyAll(w, moves).stop && (w.stop ==> ApplyAll(w, moves).log == w.log)
    decreases |moves|
  {
    if moves != [] { MovesAppend(Apply(w, moves[0]), moves[1..]); }
  }

  /** What the drain thread shares of a ticket log. */
  function WorldOf(a: TicketLog.Ledger, stop: bool): World {
    World(a.log, a.published, stop)
  }

  /** What an event of the ticket log is to the drain thread. */
  function MoveOf(e: TicketLog.Event): seq<Move> {
    match e
    case Appended(item) => [Append(item)]
    case Readable(p) => [MakeReadable(p)]
    case _ => []
  }

  function Moves(events: seq<TicketLog.Event>): seq<Move> {
    if events == [] then [] else MoveOf(events[0]) + Moves(events[1..])
  }

  lemma StepIsMove(size: nat, a: TicketLog.Ledger, e: TicketLog.Event, a': TicketLog.Ledger, stop: bool)
    requires TicketLog.Follows(size, a, e, a')
    ensures WorldOf(a', stop) == ApplyAll(WorldOf(a, stop), MoveOf(e))
  {
    if MoveOf(e) != [] {
      assert ApplyAll(Apply(WorldOf(a, stop), MoveOf(e)[0]), []) == Apply(WorldOf(a, stop), MoveOf(e)[0]);
    }
  }

  /** A history of the ticket log, from any ledger on, is a sequence of moves. */
  lemma {:induction false} HistoryIsMoves(size: nat, ledgers: seq<TicketLog.Ledger>, events: seq<TicketLog.Event>,
                                          stop: bool)
    requires |ledgers| == |events| + 1
    requires forall i :: 0 <= i < |events| ==> TicketLog.Follows(size, ledgers[i], events[i], ledgers[i + 1])
    ensures WorldOf(ledgers[|events|], stop) == ApplyAll(WorldOf(ledgers[0], stop), Moves(events))
    decreases |events|
  {
    if events != [] {
      StepIsMove(size, ledgers[0], events[0], ledgers[1], stop);
      HistoryIsMoves(size, ledgers[1..], events[1..], stop);
      ApplyJoin(WorldOf(ledgers[0], stop), MoveOf(events[0]), Moves(events[1..]));
    }
  }

  lemma {:induction false} MovesNeverStop(events: seq<TicketLog.Event>)
    ensures RequestStop !in Moves(events)
    ensures (forall e :: e in events ==> !e.Appended?) ==> forall m :: m in Moves(events) ==> m.MakeReadable?
    decreases |events|
  {
    if events != [] { MovesNeverStop(events[1..]); }
  }

  /** Before the stop is requested anything is calm. */
  lemma {:induction false} CalmBefore(w: World, xs: seq<Move>, ys: seq<Move>)
    requires !w.stop && RequestStop !in xs && Calm(ApplyAll(w, xs), ys)
    ensures Calm(w, xs + ys)
    decreases |xs|
  {
    if xs == [] {
      assert xs + ys == ys;
    } else {
      assert (xs + ys)[1..] == xs[1..] + ys && (xs + ys)[0] == xs[0];
      CalmBefore(Apply(w, xs[0]), xs[1..], ys);
    }
  }

  /** After it, as long as nothing is appended. */
  lemma {:induction false} CalmAfter(w: World, ys: seq<Move>)
    requires w.stop && w.AllReadable() && forall m :: m in ys ==> m.MakeReadable?
    ensures Calm(w, ys)
    decreases |ys|
  {
    if ys != [] {
      assert ys[0] in ys;
      CalmAfter(Apply(w, ys[0]), ys[1..]);
    }
  }

  /** The moves of a history in which the stop is requested after k events. */
  function MovesWithStop(events: seq<TicketLog.Event>, k: nat): seq<Move>
    requires k <= |events|
  {
    Moves(events[..k]) + ([RequestStop] + Moves(events[k..]))
  }

  /** If the log is readable throughout when the stop is requested, and nothing is appended later, the moves are calm,
      and they end in what the history ends in. */
  lemma HistoryIsCalm(size: nat, ledgers: seq<TicketLog.Ledger>, events: seq<TicketLog.Event>, k: nat)
    requires |ledgers| == |events| + 1 && k <= |events|
    requires forall i :: 0 <= i < |events| ==> TicketLog.Follows(size, ledgers[i], events[i], ledgers[i + 1])
    requires TicketLog.AllReadable(ledgers[k]) && forall e :: e in events[k..] ==> !e.Appended?
    ensures Calm(WorldOf(ledgers[0], false), MovesWithStop(events, k))
    ensures ApplyAll(WorldOf(ledgers[0], false), MovesWithStop(events, k)) == WorldOf(ledgers[|events|], true)
  {
    var w, xs, ys := WorldOf(ledgers[0], false), Moves(events[..k]), Moves(events[k..]);
    HistoryIsMoves(size, ledgers[..k + 1], events[..k], false);
    HistoryIsMoves(size, ledgers[k..], events[k..], true);
    MovesNeverStop(events[..k]);
    MovesNeverStop(events[k..]);
    var stopped := WorldOf(ledgers[k], true);
    assert ([RequestStop] + ys)[1..] == ys && Apply(WorldOf(ledgers[k], false), RequestStop) == stopped;
    CalmAfter(stopped, ys);
    CalmBefore(w, xs, [RequestStop] + ys);
    ApplyJoin(w, xs, [RequestStop] + ys);
  }

  /** Whether the position at the cursor is readable. */
  predicate PopReady(w: World, tail: nat) {
    tail < |w.log| && tail in w.published
  }

  // ---------------------------------------------------------------------------------------------
  // What is written for the drained entries
  // ---------------------------------------------------------------------------------------------

  predicate Sized(items: seq<Item>) {
    forall i :: 0 <= i < |items| ==> |items[i]| == ENTRY_SIZE
  }

  function Times(items: seq<Item>): seq<nat>
    requires Sized(items)
  {
    seq(|items|, i requires 0 <= i < |items| && Sized(items) => Decode(items[i]).timestamp)
  }

  /** The bytes offered for the last of the items. */
  function RenderLast(format: OutputFormat, render: nat -> Date, cache: Cache, items: seq<Item>): seq<Byte>
    requires Sized(items) && items != []
  {
    var e := Decode(items[|items| - 1]);
    if format.BINARY? then items[|items| - 1]
    else
      EncodeDecode(items[|items| - 1]);
      Line(Stamp(After(render, cache, Times(items)).prefix, e.timestamp), e)
  }

  /** The bytes offered to the sink for each item. */
  function Rendered(format: OutputFormat, render: nat -> Date, cache: Cache, items: seq<Item>): seq<seq<Byte>>
    requires Sized(items)
  {
    if items == [] then []
    else Rendered(format, render, cache, items[..|items| - 1]) + [RenderLast(format, render, cache, items)]
  }

  lemma {:induction false} RenderedFits(format: OutputFormat, render: nat -> Date, cache: Cache, items: seq<Item>)
    requires Sized(items)
    ensures |Rendered(format, render, cache, items)| == |items|
    ensures forall i :: 0 <= i < |items| ==> |Rendered(format, render, cache, items)[i]| <= 170
  {
    if items != [] {
      RenderedFits(format, render, cache, items[..|items| - 1]);
      var e := Decode(items[|items| - 1]);
      EncodeDecode(items[|items| - 1]);
      LineLength(Stamp(After(render, cache, Times(items)).prefix, e.timestamp), e);
    }
  }

  lemma TimesSnoc(items: seq<Item>, item: Item)
    requires Sized(items) && |item| == ENTRY_SIZE
    ensures Sized(items + [item]) && Times(items + [item]) == Times(items) + [Decode(item).timestamp]
    ensures (items + [item])[..|items|] == items && Times(items + [item])[..|items|] == Times(items)
  {
  }

  lemma SliceGrows(log: seq<Item>, log': seq<Item>, a: nat, b: nat)
    requires a <= b <= |log| && log <= log'
    ensures log'[a..b] == log[a..b]
    ensures b < |log'| ==> log'[a..b + 1] == log[a..b] + [log'[b]]
  {
  }

  /** The items were formatted once each, in order, and offered to the sink; cache and sink are as that leaves them. */
  ghost predicate Accounts(format: OutputFormat, render: nat -> Date, geo: Geometry, os: nat -> MapAnswer,
                           items: seq<Item>, cacheThen: Cache, cache: Cache, sinkThen: Sink, sink: Sink,
                           offered: seq<seq<Byte>>)
  {
    && Sized(items)
    && (format.TEXT? ==> cache == After(render, cacheThen, Times(items)))
    && offered == Rendered(format, render, cacheThen, items)
    && geo.Valid() && Writable(geo, offered) && SinkInv(geo, sinkThen)
    && sink == WriteAll(geo, os, sinkThen, offered)
  }

  /** The data that one item renders to, from the cache that its timestamp refreshes. */
  ghost predicate Renders(format: OutputFormat, item: Item, cache: Cache, data: seq<Byte>)
    requires |item| == ENTRY_SIZE
  {
    var e := Decode(item);
    if format.BINARY? then data == item else e.Valid() && data == Line(Stamp(cache.prefix, e.timestamp), e)
  }

  /** One more item. */
  lemma AccountsMore(format: OutputFormat, render: nat -> Date, geo: Geometry, os: nat -> MapAnswer,
                     items: seq<Item>, item: Item, cacheThen: Cache, was: Cache, cache: Cache,
                     sinkThen: Sink, sink: Sink, offered: seq<seq<Byte>>, data: seq<Byte>)
    requires Accounts(format, render, geo, os, items, cacheThen, was, sinkThen, sink, offered)
    requires |item| == ENTRY_SIZE && |data| <= geo.region && Renders(format, item, cache, data)
    requires format.TEXT? ==> cache == Refreshed(render, was, Decode(item).timestamp / NANOS)
    ensures SinkInv(geo, sink)
    ensures Accounts(format, render, geo, os, items + [item], cacheThen, cache, sinkThen,
                     Write(geo, os, sink, data).0, offered + [data])
  {
    TimesSnoc(items, item);
    assert (offered + [data])[..|offered|] == offered;
  }

  // ---------------------------------------------------------------------------------------------
  // The drain thread
  // ---------------------------------------------------------------------------------------------

  class Logger {
    const format: OutputFormat
    const batchSize: nat
    const spinCount: nat
    const sink: MMapSink.MMapSink
    const text: TextFormatter

    /** The queue and the stop token, and the moves of the other threads before each look at them. */
    var world: World
    var schedule: seq<seq<Move>>

    /** The drain thread's consumer. */
    var tail: nat
    var entriesDrained: nat

    /** History: where draining began, the date cache and sink then, and everything offered to the sink. */
    ghost var start: nat
    ghost var cacheThen: Cache
    ghost var sinkThen: Sink
    ghost var offered: seq<seq<Byte>>

    constructor (format: OutputFormat, batchSize: nat, spinCount: nat, sink: MMapSink.MMapSink, text: TextFormatter,
                 world: World, schedule: seq<seq<Move>>, tail: nat)
      requires sink.Valid() && 256 <= sink.geo.region && tail <= |world.log|
      ensures this.format == format && this.sink == sink && this.text == text && this.world == world
      ensures this.schedule == schedule && this.tail == tail && entriesDrained == 0
      ensures Ready()
    {
      this.format, this.batchSize, this.spinCount, this.sink, this.text := format, batchSize, spinCount, sink, text;
      this.world, this.schedule, this.tail, entriesDrained := world, schedule, tail, 0;
      start, cacheThen, sinkThen, offered := tail, text.dates.Contents(), sink.Model(), [];
    }

    /** Nothing has been drained yet. */
    ghost predicate Ready()
      reads this, sink, text.dates
    {
      && sink.Valid() && 256 <= sink.geo.region && start == tail <= |world.log| && offered == []
      && cacheThen == text.dates.Contents() && sinkThen == sink.Model()
    }

    /** What has been drained since the start. */
    ghost function Drained(): seq<Item>
      reads this
      requires start <= tail <= |world.log|
    {
      world.log[start..tail]
    }

    /** Every entry drained so far was formatted once, in order, and offered to the sink. */
    ghost predicate Faithful()
      reads this, sink, text.dates
    {
      && sink.Valid() && 256 <= sink.geo.region
      && start <= tail <= |world.log|
      && Accounts(format, text.dates.render, sink.geo, sink.os, Drained(), cacheThen, text.dates.Contents(),
                  sinkThen, sink.Model(), offered)
    }

    /** The others move, as the schedule says. */
    method Interfere()
      modifies this`world, this`schedule
      ensures Final() == old(Final()) && (old(IsCalm()) ==> IsCalm())
      ensures old(world).log <= world.log && old(world).published <= world.published && (old(world).stop ==> world.stop)
      ensures old(schedule) != [] ==> |schedule| == |old(schedule)| - 1
      ensures old(schedule) == [] ==> schedule == [] && world == old(world) == Final()
    {
      if schedule != [] {
        if IsCalm() { CalmLater(world, schedule[0], Flatten(schedule[1..])); }
        ApplyJoin(world, schedule[0], Flatten(schedule[1..]));
        MovesAppend(world, schedule[0]);
        world := ApplyAll(world, schedule[0]);
        schedule := schedule[1..];
      }
    }

    /** What the log will be when the others are done. */
    ghost function Final(): World
      reads this
    {
      ApplyAll(world, Flatten(schedule))
    }

    /** No push is in flight when the stop is requested, and none begins later. */
    ghost predicate IsCalm()
      reads this
    {
      Calm(world, Flatten(schedule))
    }

    /** The stop will be requested, every payload is an entry, and what has been drained was readable. */
    ghost predicate Settling()
      reads this
    {
      Final().stop && Sized(Final().log) && forall p :: start <= p < tail ==> p in world.published
    }

    method StopRequested() returns (stop: bool)
      requires Settling() && Faithful()
      modifies this`world, this`schedule
      ensures Settling() && Faithful() && Final() == old(Final()) && (old(IsCalm()) ==> IsCalm())
      ensures stop <==> world.stop
      ensures old(schedule) != [] ==> |schedule| == |old(schedule)| - 1
      ensures old(schedule) == [] ==> schedule == [] && stop
    {
      hide Accounts, Calm, ApplyAll;
      ghost var items := Drained();
      Interfere();
      assert Drained() == items;
      stop := world.stop;
    }

    /** pop: the next payload if it is readable. */
    method Pop() returns (ok: bool, item: Item)
      requires Settling() && Faithful()
      modifies this`world, this`schedule, this`tail
      ensures Settling() && Final() == old(Final()) && (old(IsCalm()) ==> IsCalm())
      ensures old(world).log <= world.log && (old(world).stop ==> world.stop)
      ensures old(schedule) != [] ==> |schedule| == |old(schedule)| - 1
      ensures old(schedule) == [] ==> schedule == [] && world == old(world)
      ensures ok ==> tail == old(tail) + 1 <= |world.log| && item == world.log[old(tail)]
      ensures !ok ==> tail == old(tail) && !PopReady(world, tail)
    {
      hide Accounts, Calm, ApplyAll;
      Interfere();
      item := [];
      ok := PopReady(world, tail);
      if ok {
        item := world.log[tail];
        tail := tail + 1;
      }
    }

    /** The bytes for one entry, in the buffer. */
    method Format(item: Item, buf: array<Byte>) returns (written: nat)
      requires |item| == ENTRY_SIZE && buf.Length == MAX_FORMATTED
      modifies text.dates, buf
      ensures format.BINARY? ==>
                text.dates.Contents() == old(text.dates.Contents()) && 0 < written <= 256 && buf[..written] == item
      ensures format.TEXT? ==>
                && text.dates.Contents()
                   == Refreshed(text.dates.render, old(text.dates.Contents()), Decode(item).timestamp / NANOS)
                && Decode(item).Valid() && 0 < written <= 256
                && buf[..written] == Line(Stamp(text.dates.datePrefix, Decode(item).timestamp), Decode(item))
    {
      EncodeDecode(item);
      if format.BINARY? {
        written := FormatBinary(Decode(item), buf, buf.Length);
      } else {
        written := text.Format(Decode(item), buf, buf.Length);
      }
    }

    /** Count the popped entry, format it, and offer what was written to the sink. */
    method Handle(item: Item, ghost items: seq<Item>, buf: array<Byte>)
      requires |item| == ENTRY_SIZE && buf.Length == MAX_FORMATTED
      requires sink.Valid() && 256 <= sink.geo.region
      requires start <= tail <= |world.log| && Drained() == items + [item]
      requires Accounts(format, text.dates.render, sink.geo, sink.os, items, cacheThen, text.dates.Contents(),
                        sinkThen, sink.Model(), offered)
      modifies this`entriesDrained, this`offered, sink, text.dates, buf
      ensures Faithful() && entriesDrained == old(entriesDrained) + 1
    {
      hide SinkInv, WriteAll, Rendered;
      ghost var was, model, sent := text.dates.Contents(), sink.Model(), offered;
      entriesDrained := entriesDrained + 1;
      var written := Format(item, buf);
      ghost var data := buf[..written];
      AccountsMore(format, text.dates.render, sink.geo, sink.os, items, item, cacheThen, was, text.dates.Contents(),
                   sinkThen, model, sent, data);
      if written > 0 {
        var accepted := sink.Append(buf[..written]);
        offered := offered + [data];
      }
    }

    /** Every payload of the log is an entry. */
    lemma ItemSized(p: nat)
      requires Settling() && p < |world.log|
      ensures |world.log[p]| == ENTRY_SIZE
    {
      MovesAppend(world, Flatten(schedule));
    }

    /** Pop one entry, count it, format it, and offer it: one turn of either loop. */
    method DrainOne(buf: array<Byte>) returns (ok: bool)
      requires Settling() && Faithful() && buf.Length == MAX_FORMATTED
      modifies this`world, this`schedule, this`tail, this`entriesDrained, this`offered, sink, text.dates, buf
      ensures Settling() && Faithful() && Final() == old(Final()) && (old(IsCalm()) ==> IsCalm())
      ensures old(world).stop ==> world.stop
      ensures old(schedule) != [] ==> |schedule| == |old(schedule)| - 1
      ensures old(schedule) == [] ==> schedule == [] && world == old(world)
      ensures tail == old(tail) + (if ok then 1 else 0)
      ensures entriesDrained == old(entriesDrained) + (if ok then 1 else 0)
      ensures !ok ==> !PopReady(world, tail)
    {
      hide Accounts, Calm, ApplyAll;
      ghost var items := Drained();
      var item;
      ok, item := Pop();
      SliceGrows(old(world.log), world.log, start, old(tail));
      assert Drained() == if ok then items + [item] else items;
      if ok {
        ItemSized(old(tail));
        Handle(item, items, buf);
      }
    }

    /** Entries are drained until the batch is full or a pop fails. */
    method DrainBatch(buf: array<Byte>) returns (gotAny: bool)
      requires Settling() && Faithful() && buf.Length == MAX_FORMATTED
      modifies this`world, this`schedule, this`tail, this`entriesDrained, this`offered, sink, text.dates, buf
      ensures Settling() && Faithful() && Final() == old(Final()) && (old(IsCalm()) ==> IsCalm())
      ensures |schedule| <= |old(schedule)| && old(tail) <= tail && (gotAny <==> old(tail) < tail)
      ensures tail <= old(tail) + batchSize && (tail == old(tail) + batchSize || !PopReady(world, tail))
      ensures entriesDrained - old(entriesDrained) == tail - old(tail)
    {
      hide Accounts, Calm, ApplyAll;
      gotAny := false;
      var batch := 0;
      while batch < batchSize
        invariant Settling() && Faithful() && Final() == old(Final()) && (old(IsCalm()) ==> IsCalm())
        invariant |schedule| <= |old(schedule)| && tail == old(tail) + batch && (gotAny <==> batch > 0)
        invariant batch <= batchSize
        invariant entriesDrained - old(entriesDrained) == tail - old(tail)
      {
        var ok := DrainOne(buf);
        if !ok { break; }
        gotAny := true;
        batch := batch + 1;
      }
    }

    lemma TailWithinFinal()
      requires Settling() && Faithful()
      ensures tail <= |Final().log|
    {
      MovesAppend(world, Flatten(schedule));
    }

    /** A batch, and a look at the stop request if it was empty. */
    method DrainTurn(buf: array<Byte>) returns (gotAny: bool, stop: bool)
      requires Settling() && Faithful() && buf.Length == MAX_FORMATTED
      modifies this`world, this`schedule, this`tail, this`entriesDrained, this`offered, sink, text.dates, buf
      ensures Settling() && Faithful() && Final() == old(Final()) && (old(IsCalm()) ==> IsCalm())
      ensures tail <= |Final().log|
      ensures stop ==> !gotAny && world.stop
      ensures !stop ==> |schedule| < |old(schedule)| || (|schedule| == |old(schedule)| && old(tail) < tail)
      ensures entriesDrained - old(entriesDrained) == tail - old(tail)
    {
      hide Accounts, Calm, ApplyAll, SinkInv;
      gotAny := DrainBatch(buf);
      stop := false;
      if !gotAny {
        stop := StopRequested();
      }
      TailWithinFinal();
    }

    /** After the stop, entries are drained until a pop fails. */
    method DrainRest(buf: array<Byte>)
      requires Settling() && Faithful() && buf.Length == MAX_FORMATTED && world.stop
      modifies this`world, this`schedule, this`tail, this`entriesDrained, this`offered, sink, text.dates, buf
      ensures Settling() && Faithful() && Final() == old(Final()) && (old(IsCalm()) ==> IsCalm()) && world.stop
      ensures entriesDrained - old(entriesDrained) == tail - old(tail)
      ensures !PopReady(world, tail)
    {
      hide Accounts, Calm, ApplyAll;
      var more := true;
      while more
        invariant Settling() && Faithful() && Final() == old(Final()) && (old(IsCalm()) ==> IsCalm()) && world.stop
        invariant entriesDrained - old(entriesDrained) == tail - old(tail)
        invariant !more ==> !PopReady(world, tail)
        decreases |schedule|, |world.log| - tail, more
      {
        more := DrainOne(buf);
      }
    }

    lemma ReadyIsFaithful()
      requires Ready()
      ensures Faithful()
    {
      assert Drained() == [];
    }

    /** When a pop fails after the stop, in a calm future, everything is drained. */
    lemma CalmlyDrained()
      requires IsCalm() && world.stop && Faithful() && !PopReady(world, tail)
      ensures tail == |world.log| && world.log == Final().log
    {
      MovesAppend(world, Flatten(schedule));
      assert world.AllReadable();
    }

    /** The loop itself, from any point of the drain. */
    method DrainAll(buf: array<Byte>)
      requires Settling() && Faithful() && buf.Length == MAX_FORMATTED
      modifies this`world, this`schedule, this`tail, this`entriesDrained, this`offered, sink, text.dates, buf
      ensures Settling() && Faithful() && Final() == old(Final()) && (old(IsCalm()) ==> IsCalm()) && world.stop
      ensures entriesDrained - old(entriesDrained) == tail - old(tail)
      ensures !PopReady(world, tail)
    {
      hide Accounts, Calm, ApplyAll;
      var consecutiveEmpty := 0;
      ghost var final, calm := Final(), IsCalm();
      while true
        invariant Settling() && Faithful() && Final() == final && (calm ==> IsCalm())
        invariant entriesDrained - old(entriesDrained) == tail - old(tail)
        decreases |schedule|, |final.log| - tail
      {
        var gotAny, stop := DrainTurn(buf);
        if gotAny {
          consecutiveEmpty := 0;
        } else {
          if stop {
            DrainRest(buf);
            break;
          }
          consecutiveEmpty := consecutiveEmpty + 1;
          if consecutiveEmpty >= spinCount {
            consecutiveEmpty := spinCount;
          }
        }
      }
    }

    /** Where the drain ended: at the first position, from its start on, that was not readable at its last pop. */
    ghost predicate EndedAt(from: nat)
      reads this
    {
      && from <= tail <= |world.log| && !PopReady(world, tail)
      && forall p :: from <= p < tail ==> p in world.published
    }

    /** So the drain is complete exactly when everything was readable then. */
    lemma CompleteExactly(from: nat)
      requires EndedAt(from)
      ensures tail == |world.log| <==> forall p :: from <= p < |world.log| ==> p in world.published
    {
    }

    /**
     What the drain loop leaves, whatever the other threads do, as long as the stop is requested some time: the
     consumer is at the first position that was not readable at its last pop; each entry before that was formatted
     once and in order and offered to the sink, and the counter has grown by exactly their number. Shutdown
     completeness: if no push is in flight when the stop is requested and none begins later, that is the whole log.
     */
    method DrainLoop()
      requires Settling() && Ready()
      modifies this`world, this`schedule, this`tail, this`entriesDrained, this`offered, sink, text.dates
      ensures EndedAt(old(tail)) && world.stop && world.log <= old(Final().log)
      ensures entriesDrained - old(entriesDrained) == tail - old(tail)
      ensures Accounts(format, text.dates.render, sink.geo, sink.os, world.log[old(tail)..tail],
                       old(text.dates.Contents()), text.dates.Contents(), old(sink.Model()), sink.Model(), offered)
      ensures old(IsCalm()) ==> tail == |world.log| && world.log == old(Final().log)
    {
      ReadyIsFaithful();
      hide Accounts, Calm, ApplyAll;
      var buf := new Byte[MAX_FORMATTED](_ => 0);
      DrainAll(buf);
      MovesAppend(world, Flatten(schedule));
      if IsCalm() { CalmlyDrained(); }
    }
  }
}
