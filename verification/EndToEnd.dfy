/** From the drained log to the files and back. */
module EndToEnd {
  import opened Bytes
  import opened RingIndex
  import opened DateCache
  import opened LogEntry
  import opened TextLine
  import opened LogReader
  import opened SinkModel
  import opened SinkRuns
  import opened BinaryFill
  import opened TextFill
  import opened DrainLoop
  import MMapSink
  import QueueModel
  import QueueCore
  import QueueRuns
  import QueueCalls
  import Shutdown

  lemma {:induction false} BinaryRendered(render: nat -> Date, cache: Cache, items: seq<Item>)
    requires Sized(items)
    ensures Rendered(BINARY, render, cache, items) == items
  {
    if items != [] {
      BinaryRendered(render, cache, items[..|items| - 1]);
    }
  }

  ghost predicate HasFiles(s: Sink, g: nat) {
    forall i :: 0 <= i <= g ==> i in s.files
  }

  /** The bytes of generation g, then of the newer ones down to the base file. */
  function FileBytes(s: Sink, g: nat): seq<Byte>
    requires HasFiles(s, g)
  {
    s.files[g] + (if g == 0 then [] else FileBytes(s, g - 1))
  }

  /** The records the reader finds in generation g, then in the newer ones down to the base file. */
  function ReadFiles(s: Sink, g: nat): seq<seq<Byte>>
    requires HasFiles(s, g)
  {
    Records(s.files[g]) + (if g == 0 then [] else ReadFiles(s, g - 1))
  }

  lemma {:induction false} ReadingFileByFile(s: Sink, g: nat)
    requires HasFiles(s, g) && forall i :: 1 <= i <= g ==> |s.files[i]| % ENTRY_SIZE == 0
    ensures ReadFiles(s, g) == Records(FileBytes(s, g))
  {
    if g == 0 {
      assert s.files[0] + [] == s.files[0];
    } else {
      ReadingFileByFile(s, g - 1);
      RecordsAppend(s.files[g], FileBytes(s, g - 1));
    }
  }

  /** An older file is its payload; the current one is its payload and zeros. */
  lemma FileIsPayload(geo: Geometry, s: Sink, g: nat)
    requires BinaryGeometry(geo) && BinaryInv(geo, s) && g < |s.epochs| && g <= geo.maxRotated
    requires Present(s, g)
    ensures g > 0 ==> s.files[g] == Payload(s, g)
    ensures g == 0 ==> s.fileOffset <= |s.files[0]| && s.files[0] == Payload(s, 0) + Zeros(|s.files[0]| - s.fileOffset)
  {
    PayloadIsWritten(s, g);
    var e := s.epochs[|s.epochs| - 1 - g];
    assert Holds(s.files[g], e);
    assert e.before + e.written == e.written;
    if g > 0 { assert Zeros(0) == []; }
  }

  lemma AllPresent(geo: Geometry, s: Sink, g: nat)
    requires BinaryGeometry(geo) && BinaryInv(geo, s) && g < |s.epochs| && g <= geo.maxRotated
    ensures Present(s, g) && HasFiles(s, g)
  {
    RetainedPresent(geo, s, g);
  }

  /** Only the current file has padding. */
  lemma {:induction false} BytesAreStream(geo: Geometry, s: Sink, g: nat)
    requires BinaryGeometry(geo) && BinaryInv(geo, s) && g < |s.epochs| && g <= geo.maxRotated
    ensures HasFiles(s, g) && Present(s, g) && s.fileOffset <= |s.files[0]|
    ensures FileBytes(s, g) == ReadBack(s, g) + Zeros(|s.files[0]| - s.fileOffset)
    decreases g
  {
    hide BinaryInv, BinaryGeometry, Holds, Payload;
    AllPresent(geo, s, g);
    FileIsPayload(geo, s, g);
    if g > 0 {
      BytesAreStream(geo, s, g - 1);
      var zeros := Zeros(|s.files[0]| - s.fileOffset);
      assert s.files[g] + (ReadBack(s, g - 1) + zeros) == s.files[g] + ReadBack(s, g - 1) + zeros;
    } else {
      assert s.files[0] + [] == s.files[0];
      assert ReadBack(s, 0) + Zeros(|s.files[0]| - s.fileOffset) == s.files[0];
    }
  }

  // ---------------------------------------------------------------------------------------------
  // The records that are still in the files
  // ---------------------------------------------------------------------------------------------

  function Product(n: nat, k: nat): nat { n * k }

  /** How many records were in the files that were rotated out: none as long as none was. */
  function Missing(geo: Geometry, s: Sink): (n: nat)
    ensures s.rotations <= geo.maxRotated ==> n == 0
  {
    if s.rotations <= geo.maxRotated then 0 else Product(s.rotations - geo.maxRotated, geo.maxFile / ENTRY_SIZE)
  }

  lemma {:induction false} WrittenFull(geo: Geometry, epochs: seq<Epoch>)
    requires forall i :: 0 <= i < |epochs| ==> |epochs[i].written| == geo.maxFile
    ensures |Written(epochs)| == |epochs| * geo.maxFile
  {
    if epochs != [] {
      WrittenFull(geo, epochs[..|epochs| - 1]);
      assert |epochs| * geo.maxFile == (|epochs| - 1) * geo.maxFile + geo.maxFile;
    }
  }

  lemma ProductScaled(n: nat, f: nat)
    requires f % ENTRY_SIZE == 0
    ensures n * f == ENTRY_SIZE * Product(n, f / ENTRY_SIZE)
  {
    var k, r := DivMod(f, ENTRY_SIZE);
    assert n * (k * ENTRY_SIZE) == ENTRY_SIZE * (n * k);
  }

  lemma RotatedOutFull(geo: Geometry, s: Sink, n: nat)
    requires BinaryGeometry(geo) && BinaryInv(geo, s) && n == s.rotations - Oldest(geo, s)
    ensures n < |s.epochs| && forall i :: 0 <= i < n ==> |s.epochs[..n][i].written| == geo.maxFile
    ensures geo.maxFile % ENTRY_SIZE == 0
  {
    RecordsInRegion(geo);
  }

  /** The bytes that were rotated out are whole records. */
  lemma LostIsWhole(geo: Geometry, s: Sink, lost: seq<Byte>)
    requires BinaryGeometry(geo) && BinaryInv(geo, s)
    requires lost == Written(s.epochs[..s.rotations - Oldest(geo, s)])
    ensures |lost| == ENTRY_SIZE * Missing(geo, s)
  {
    hide BinaryInv, Written, Product;
    var n := s.rotations - Oldest(geo, s);
    RotatedOutFull(geo, s, n);
    WrittenFull(geo, s.epochs[..n]);
    ProductScaled(n, geo.maxFile);
    NoneMissing(geo);
  }

  lemma NoneMissing(geo: Geometry)
    ensures Product(0, geo.maxFile / ENTRY_SIZE) == 0
  {
  }

  lemma SplitRecords(items: seq<Item>, lost: seq<Byte>, rest: seq<Byte>, d: nat)
    requires Sized(items) && Concat(items) == lost + rest && |lost| == ENTRY_SIZE * d
    ensures d <= |items| && rest == Concat(items[d..])
  {
    RecordsOfConcat(items);
    assert d <= |items|;
    assert items == items[..d] + items[d..];
    ConcatAppend(items[..d], items[d..]);
    RecordsOfConcat(items[..d]);
    assert rest == (lost + rest)[|lost|..];
    assert Concat(items[d..]) == (Concat(items[..d]) + Concat(items[d..]))[|lost|..];
  }

  /** What the retained files hold is the last of the records. */
  lemma StreamIsRecords(geo: Geometry, os: nat -> MapAnswer, files: Files, items: seq<Item>)
    requires BinaryGeometry(geo) && AllMap(os) && (0 in files ==> files[0] == [])
    requires Sized(items) && Writable(geo, items)
    ensures var s := WriteAll(geo, os, Created(geo, os, files), items);
            && BinaryInv(geo, s) && Present(s, Oldest(geo, s)) && Missing(geo, s) <= |items|
            && ReadBack(s, Oldest(geo, s)) == Concat(items[Missing(geo, s)..])
  {
    hide SinkInv, WriteAll, Holds;
    CreateBinary(geo, os, files);
    ExactFill(geo, os, Create(geo, os, files), items);
    var lost := SinkStream(geo, os, files, items);
    var s := WriteAll(geo, os, Created(geo, os, files), items);
    LostIsWhole(geo, s, lost);
    SplitRecords(items, lost, ReadBack(s, Oldest(geo, s)), Missing(geo, s));
  }

  /** No retained file holds a partial record. */
  lemma FilesAreWhole(geo: Geometry, s: Sink, g: nat)
    requires BinaryGeometry(geo) && BinaryInv(geo, s) && g < |s.epochs| && g <= geo.maxRotated
    ensures HasFiles(s, g) && s.fileOffset <= |s.files[0]|
    ensures (forall i :: 0 <= i <= g ==> |s.files[i]| % ENTRY_SIZE == 0)
  {
    CurrentFileSize(geo, s);
    RecordsInRegion(geo);
  }

  lemma RecordsThenZeros(items: seq<Item>, zeros: nat)
    requires Sized(items)
    ensures Records(Concat(items) + Zeros(zeros)) == items + seq(zeros / ENTRY_SIZE, i => Zeros(ENTRY_SIZE))
  {
    RecordsOfConcat(items);
    RecordsAppend(Concat(items), Zeros(zeros));
    RecordsOfZeros(zeros);
  }

  lemma StreamBytes(geo: Geometry, s: Sink, g: nat, items: seq<Item>) returns (zeros: nat)
    requires BinaryGeometry(geo) && BinaryInv(geo, s) && g < |s.epochs| && g <= geo.maxRotated
    requires Present(s, g) && ReadBack(s, g) == Concat(items)
    ensures HasFiles(s, g) && FileBytes(s, g) == Concat(items) + Zeros(zeros)
  {
    BytesAreStream(geo, s, g);
    zeros := |s.files[0]| - s.fileOffset;
  }

  /** Reading files that hold the stream of the items. */
  lemma ReadingStream(geo: Geometry, s: Sink, g: nat, items: seq<Item>) returns (padding: nat)
    requires BinaryGeometry(geo) && BinaryInv(geo, s) && g < |s.epochs| && g <= geo.maxRotated && Sized(items)
    requires Present(s, g) && ReadBack(s, g) == Concat(items)
    ensures HasFiles(s, g) && ReadFiles(s, g) == items + seq(padding, i => Zeros(ENTRY_SIZE))
  {
    hide BinaryInv, BinaryGeometry;
    var zeros := StreamBytes(geo, s, g, items);
    FilesAreWhole(geo, s, g);
    ReadingFileByFile(s, g);
    RecordsThenZeros(items, zeros);
    padding := zeros / ENTRY_SIZE;
  }

  /**
   End to end in binary mode, when every map succeeds: reading the retained files oldest to newest in 128-byte records
   yields the drained log but for the records of the files that were rotated out, followed by all-zero padding records
   only, and no file ends in a partial record. Nothing is missing as long as no file was rotated out.
   */
  lemma BinaryRoundTrip(geo: Geometry, os: nat -> MapAnswer, files: Files, items: seq<Item>) returns (padding: nat)
    requires BinaryGeometry(geo) && AllMap(os) && (0 in files ==> files[0] == [])
    requires Sized(items) && Writable(geo, items)
    ensures var s := WriteAll(geo, os, Created(geo, os, files), items);
            var g, missing := Oldest(geo, s), Missing(geo, s);
            && HasFiles(s, g) && missing <= |items|
            && (forall i :: 0 <= i <= g ==> |s.files[i]| % ENTRY_SIZE == 0)
            && ReadFiles(s, g) == items[missing..] + seq(padding, i => Zeros(ENTRY_SIZE))
  {
    StreamIsRecords(geo, os, files, items);
    var s := WriteAll(geo, os, Created(geo, os, files), items);
    FilesAreWhole(geo, s, Oldest(geo, s));
    padding := ReadingStream(geo, s, Oldest(geo, s), items[Missing(geo, s)..]);
  }

  /** What the drain loop leaves in the files, read back, is the entries that were pushed. */
  lemma DrainedEntriesRecovered(geo: Geometry, os: nat -> MapAnswer, files: Files, render: nat -> Date,
                                cacheThen: Cache, cache: Cache, items: seq<Item>, entries: seq<Entry>,
                                s: Sink, offered: seq<seq<Byte>>)
    requires BinaryGeometry(geo) && AllMap(os) && (0 in files ==> files[0] == [])
    requires Accounts(BINARY, render, geo, os, items, cacheThen, cache, Create(geo, os, files), s, offered)
    requires s.rotations <= geo.maxRotated
    requires |entries| == |items|
    requires forall i :: 0 <= i < |items| ==> entries[i].Valid() && items[i] == Encode(entries[i])
    ensures HasFiles(s, s.rotations)
    ensures var found := ReadFiles(s, s.rotations);
            && |found| >= |entries|
            && (forall i :: 0 <= i < |entries| ==> |found[i]| == ENTRY_SIZE && Decode(found[i]) == entries[i])
            && (forall i :: |entries| <= i < |found| ==> found[i] == Zeros(ENTRY_SIZE))
  {
    hide SinkInv, WriteAll, Holds;
    BinaryRendered(render, cacheThen, items);
    var padding := BinaryRoundTrip(geo, os, files, items);
    assert items[0..] == items;
    forall i | 0 <= i < |entries| ensures |items[i]| == ENTRY_SIZE && Decode(items[i]) == entries[i] {
      DecodeEncode(entries[i]);
    }
  }

  /** A run of the queue over entries, in which the stop is requested after k steps, with no push in flight and none
      later; and a schedule by which the drain thread, from the start, sees its moves. */
  ghost predicate Scheduled(cfg: QueueModel.Config, r: QueueRuns.Run, k: nat, schedule: seq<seq<Move>>) {
    && cfg.width == ENTRY_SIZE
    && QueueRuns.IsRun(cfg, r) && QueueCore.Bounded(cfg, r.Last()) && Shutdown.StopsCalmly(r, k)
    && Flatten(schedule) == Shutdown.RunMoves(cfg, r, k)
  }

  lemma ScheduledSettles(cfg: QueueModel.Config, r: QueueRuns.Run, k: nat, schedule: seq<seq<Move>>)
    requires Scheduled(cfg, r, k, schedule)
    ensures Calm(World([], {}, false), Flatten(schedule))
    ensures var final := ApplyAll(World([], {}, false), Flatten(schedule)); final.log == r.Last().log && final.stop
    ensures Sized(r.Last().log)
  {
    Shutdown.RunIsSchedule(cfg, r, k);
    QueueRuns.RunIsSafe(cfg, r, |r.steps|);
  }

  /** What the retained files hold: the payloads but for those of files rotated out, as whole records in order, and then
      only zeros. */
  ghost predicate HoldLast(geo: Geometry, s: Sink, payloads: seq<Item>) {
    && Missing(geo, s) <= |payloads| && HasFiles(s, Oldest(geo, s))
    && var last, found := payloads[Missing(geo, s)..], ReadFiles(s, Oldest(geo, s));
       && last <= found
       && forall i :: |last| <= i < |found| ==> found[i] == Zeros(ENTRY_SIZE)
  }

  /** Binary mode with aligned regions and an empty start file, and a system that does not fail. */
  ghost predicate BinaryFromEmpty(format: OutputFormat, geo: Geometry, os: nat -> MapAnswer, files: Files) {
    format.BINARY? && BinaryGeometry(geo) && AllMap(os) && (0 in files ==> files[0] == [])
  }

  /** What the drain loop accounts for in binary mode is what the files hold. */
  lemma AccountedIsHeld(format: OutputFormat, geo: Geometry, os: nat -> MapAnswer, files: Files, render: nat -> Date,
                        cacheThen: Cache, cache: Cache, items: seq<Item>, s: Sink, offered: seq<seq<Byte>>)
    requires BinaryFromEmpty(format, geo, os, files)
    requires Accounts(format, render, geo, os, items, cacheThen, cache, Create(geo, os, files), s, offered)
    ensures HoldLast(geo, s, items)
  {
    BinaryRendered(render, cacheThen, items);
    var padding := BinaryRoundTrip(geo, os, files, items);
  }

  /**
   From the pushes of any interleaving to the files and back: after any run of the queue, if the drain loop ended with
   its postcondition, the files hold every payload that was pushed, once, in claim order, but for those of files
   rotated out, and each decodes to its entry.
   */
  lemma PushedEntriesRecovered(cfg: QueueModel.Config, r: QueueRuns.Run, k: nat, schedule: seq<seq<Move>>,
                               geo: Geometry, os: nat -> MapAnswer, files: Files, render: nat -> Date,
                               cacheThen: Cache, cache: Cache, s: Sink, offered: seq<seq<Byte>>)
    requires Scheduled(cfg, r, k, schedule)
    requires BinaryFromEmpty(BINARY, geo, os, files)
    requires Accounts(BINARY, render, geo, os, ApplyAll(World([], {}, false), Flatten(schedule)).log, cacheThen, cache,
                      Create(geo, os, files), s, offered)
    ensures HoldLast(geo, s, r.Last().log)
    ensures forall p :: 0 <= p < |r.Last().log| ==>
              && |r.Last().log[p]| == ENTRY_SIZE && Decode(r.Last().log[p]).Valid()
              && Encode(Decode(r.Last().log[p])) == r.Last().log[p]
  {
    ScheduledSettles(cfg, r, k, schedule);
    AccountedIsHeld(BINARY, geo, os, files, render, cacheThen, cache, r.Last().log, s, offered);
    forall p | 0 <= p < |r.Last().log|
      ensures Decode(r.Last().log[p]).Valid() && Encode(Decode(r.Last().log[p])) == r.Last().log[p]
    {
      EncodeDecode(r.Last().log[p]);
    }
  }

  lemma HeldAt(geo: Geometry, s: Sink, payloads: seq<Item>, p: nat)
    requires HoldLast(geo, s, payloads) && Missing(geo, s) <= p < |payloads|
    ensures p - Missing(geo, s) < |ReadFiles(s, Oldest(geo, s))|
    ensures ReadFiles(s, Oldest(geo, s))[p - Missing(geo, s)] == payloads[p]
  {
    var last := payloads[Missing(geo, s)..];
    assert last[p - Missing(geo, s)] == payloads[p];
  }

  lemma HeadGrew(cfg: QueueModel.Config, r: QueueRuns.Run, i: nat, j: nat)
    requires QueueRuns.IsSafeRun(cfg, r) && QueueCore.Bounded(cfg, r.Last()) && i <= j <= |r.steps|
    ensures r.states[i].head <= r.states[j].head
  {
    QueueRuns.SafeRunIsCore(cfg, r, i);
    QueueRuns.SafeRunIsCore(cfg, r, j);
    QueueRuns.SafeLogGrows(cfg, r, i, j);
  }

  /**
   One push, from its call to the files: if it returned true, with an entry, then wherever the files hold the log of the
   run they hold that entry, at the position it claimed in between, unless that was in a file rotated out.
   */
  lemma PushedEntryInFiles(cfg: QueueModel.Config, r: QueueRuns.Run, t: QueueModel.Tid, e: Entry, a: nat, j: nat,
                           geo: Geometry, s: Sink) returns (p: nat)
    requires QueueRuns.IsSafeRun(cfg, r) && QueueCore.Bounded(cfg, r.Last()) && e.Valid()
    requires a < j && QueueCalls.Pushing(r, t, Encode(e), a, j) && QueueModel.At(r.states[j + 1], t).Idle?
    requires r.steps[j] == QueueModel.Publish(t)
    requires HoldLast(geo, s, r.Last().log)
    ensures r.states[a].head <= p < r.states[j + 1].head && p in r.states[j + 1].published
    ensures Missing(geo, s) <= p ==>
              var found, k := ReadFiles(s, Oldest(geo, s)), p - Missing(geo, s);
              k < |found| && |found[k]| == ENTRY_SIZE && Decode(found[k]) == e
  {
    hide HoldLast;
    var d := QueueCalls.PushOutcome(cfg, r, t, Encode(e), a, j);
    p := r.states[d].head;
    HeadGrew(cfg, r, a, d);
    HeadGrew(cfg, r, d + 1, j + 1);
    QueueRuns.ClaimTakesHead(cfg, r, d);
    QueueRuns.SafeRunIsCore(cfg, r, d + 1);
    if Missing(geo, s) <= p {
      HeldAt(geo, s, r.Last().log, p);
      DecodeEncode(e);
    }
  }

  /**
   The whole logger: a sink, a formatter and the drain loop, beside any run of the queue. Every payload that was
   pushed is formatted once, in claim order, and offered to the sink; in binary mode, with aligned regions, an empty
   start file and a system that does not fail, the files hold exactly the payloads, but for those of files rotated
   out, and then only zeros.
   */
  method LogRun(ghost cfg: QueueModel.Config, ghost r: QueueRuns.Run, ghost k: nat, schedule: seq<seq<Move>>,
                format: OutputFormat, batchSize: nat, spinCount: nat, geo: Geometry, os: nat -> MapAnswer, files: Files,
                render: nat -> Date, unset: Date)
    returns (sink: MMapSink.MMapSink, drained: nat, ghost cache: Cache, ghost offered: seq<seq<Byte>>)
    requires Scheduled(cfg, r, k, schedule) && geo.Valid() && 256 <= geo.region
    ensures fresh(sink) && drained == |r.Last().log|
    ensures Accounts(format, render, geo, os, r.Last().log, Cache(0, unset), cache, Create(geo, os, files),
                     sink.Model(), offered)
    ensures BinaryFromEmpty(format, geo, os, files) ==> HoldLast(geo, sink.Model(), r.Last().log)
  {
    ScheduledSettles(cfg, r, k, schedule);
    ghost var log := r.Last().log;
    hide Accounts, SinkInv, HoldLast, Scheduled;
    sink := new MMapSink.MMapSink(geo, os, files);
    var text := new TextFormatter(render, unset);
    var logger := new Logger(format, batchSize, spinCount, sink, text, World([], {}, false), schedule, 0);
    logger.DrainLoop();
    drained, cache, offered := logger.entriesDrained, text.dates.Contents(), logger.offered;
    assert logger.world.log[0..logger.tail] == log;
    if BinaryFromEmpty(format, geo, os, files) {
      AccountedIsHeld(format, geo, os, files, render, Cache(0, unset), cache, log, sink.Model(), offered);
    }
  }

  // ---------------------------------------------------------------------------------------------
  // Text mode
  // ---------------------------------------------------------------------------------------------

  /** The last line is rendered from a cache that holds its own second. */
  lemma LastRendered(render: nat -> Date, unset: Date, items: seq<Item>)
    requires Sized(items) && items != [] && Decode(items[0]).timestamp / NANOS != 0
    requires Decode(items[|items| - 1]).Valid()
    ensures var e := Decode(items[|items| - 1]);
            RenderLast(TEXT, render, Cache(0, unset), items) == Line(Fresh(render, e.timestamp), e)
  {
    var times := Times(items);
    FirstThenRest(render, Cache(0, unset), times);
    StampsFrom(render, Refreshed(render, Cache(0, unset), times[0] / NANOS), times[1..]);
    assert After(render, Cache(0, unset), times).sec == Decode(items[|items| - 1]).timestamp / NANOS;
  }

  lemma {:induction false} RenderedAt(render: nat -> Date, cache: Cache, items: seq<Item>, i: nat)
    requires Sized(items) && i < |items|
    ensures |Rendered(TEXT, render, cache, items)| == |items|
    ensures Rendered(TEXT, render, cache, items)[i] == RenderLast(TEXT, render, cache, items[..i + 1])
    decreases |items|
  {
    var n := |items| - 1;
    RenderedFits(TEXT, render, cache, items[..n]);
    if i < n {
      RenderedAt(render, cache, items[..n], i);
      assert items[..n][..i + 1] == items[..i + 1];
    } else {
      assert items[..i + 1] == items;
    }
  }

  /** In text mode, once the first second is past 0, each line is the one rendered without a cache, and parses
      back to the entry. */
  lemma TextRendered(render: nat -> Date, unset: Date, items: seq<Item>, i: nat)
    requires Sized(items) && i < |items| && Decode(items[0]).timestamp / 1_000_000_000 != 0
    ensures |Rendered(TEXT, render, Cache(0, unset), items)| == |items| && Decode(items[i]).Valid()
    ensures var e := Decode(items[i]); var line := Rendered(TEXT, render, Cache(0, unset), items)[i];
            && line == Line(Fresh(render, e.timestamp), e)
            && ParseLine(line)
               == Parsed(render(e.timestamp / 1_000_000_000), e.timestamp % 1_000_000_000,
                         if e.level < 7 then e.level else 7, e.threadId,
                         if e.payloadLen <= 112 then e.payload[..e.payloadLen] else e.payload)
  {
    var e := Decode(items[i]);
    EncodeDecode(items[i]);
    RenderedAt(render, Cache(0, unset), items, i);
    LastRendered(render, unset, items[..i + 1]);
    ParseOfLine(render(e.timestamp / NANOS), e);
  }

  lemma RenderedLines(geo: Geometry, render: nat -> Date, cache: Cache, items: seq<Item>)
    requires Sized(items) && 170 <= geo.page
    ensures AllLines(geo, Rendered(TEXT, render, cache, items))
  {
    RenderedFits(TEXT, render, cache, items);
    forall i | 0 <= i < |items| ensures Rendered(TEXT, render, cache, items)[i] != [] {
      RenderedAt(render, cache, items, i);
    }
  }

  /** A file that starts empty, with whole-page regions and pages that any line fits, and a system that does not
      fail. */
  ghost predicate TextFromEmpty(geo: Geometry, os: nat -> MapAnswer, files: Files) {
    TextGeometry(geo) && 170 <= geo.page && AllMap(os) && (0 in files ==> files[0] == [])
  }

  /**
   The fate of the drained log in text mode, through regions and rotations, by the lengths of its lines: the sink
   keeps every line exactly when the place of the next line is never lost, and certainly when a file is no larger than
   a region.
   */
  lemma TextLinesKept(geo: Geometry, os: nat -> MapAnswer, files: Files, render: nat -> Date, unset: Date,
                      cache: Cache, items: seq<Item>, s: Sink, offered: seq<seq<Byte>>)
    requires TextFromEmpty(geo, os, files)
    requires Accounts(TEXT, render, geo, os, items, Cache(0, unset), cache, Create(geo, os, files), s, offered)
    ensures Accepted(geo, os, Created(geo, os, files), offered) == offered <==> PlaceAfter(geo, At(0, 0), offered).At?
    ensures geo.maxFile <= geo.region ==> Accepted(geo, os, Created(geo, os, files), offered) == offered
  {
    hide Accepted, WriteAll, SinkInv, Rendered;
    RenderedLines(geo, render, Cache(0, unset), items);
    CreatedFirst(geo, os, files);
    TextKeptByLengths(geo, os, Created(geo, os, files), At(0, 0), offered);
    if geo.maxFile <= geo.region { OneRegionFilesLoseNothing(geo, os, files, offered); }
  }

  /** If the place is not lost before line n, it decides: either line n is kept, or it and all later lines are lost. */
  lemma TextLinesLost(geo: Geometry, os: nat -> MapAnswer, files: Files, render: nat -> Date, unset: Date,
                      cache: Cache, items: seq<Item>, s: Sink, offered: seq<seq<Byte>>, n: nat)
    requires TextFromEmpty(geo, os, files)
    requires Accounts(TEXT, render, geo, os, items, Cache(0, unset), cache, Create(geo, os, files), s, offered)
    requires n < |offered| && PlaceAfter(geo, At(0, 0), offered[..n]).At?
    ensures var accepted := Accepted(geo, os, Created(geo, os, files), offered);
            if PlaceAfter(geo, At(0, 0), offered[..n + 1]).At? then offered[..n + 1] <= accepted
            else accepted == offered[..n]
  {
    hide Accepted, WriteAll, SinkInv, Rendered;
    RenderedLines(geo, render, Cache(0, unset), items);
    CreatedFirst(geo, os, files);
    var before, line, later := offered[..n], offered[n], offered[n + 1..];
    assert offered == before + [line] + later && offered[..n + 1] == before + [line] && offered[..n + 1][..n] == before;
    PlaceDecides(geo, os, Created(geo, os, files), At(0, 0), before, line, later);
  }
}
