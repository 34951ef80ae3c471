/** The text formatter: one line per entry, and a parser that reads it back. */
module TextLine {
  import opened Bytes
  import opened Decimal
  import opened DateCache
  import opened LogEntry

  const MAX_FORMATTED: nat := 256
  const OPEN: Byte := 91
  const CLOSE: Byte := 93
  const SPACE: Byte := 32
  const NEWLINE: Byte := 10

  /** The five characters of a level: TRACE, DEBUG, INFO, WARN, ERROR, FATAL, OFF, padded, or question marks. */
  function LevelName(level: nat): (name: seq<Byte>)
    ensures |name| == 5
  {
    match level
    case 0 => [84, 82, 65, 67, 69]
    case 1 => [68, 69, 66, 85, 71]
    case 2 => [73, 78, 70, 79, 32]
    case 3 => [87, 65, 82, 78, 32]
    case 4 => [69, 82, 82, 79, 82]
    case 5 => [70, 65, 84, 65, 76]
    case 6 => [79, 70, 70, 32, 32]
    case _ => [63, 63, 63, 63, 63]
  }

  /** The bytes of a text. */
  function Ascii(text: string): (bs: seq<Byte>)
    requires forall i :: 0 <= i < |text| ==> text[i] as int < 256
    ensures |bs| == |text|
  {
    seq(|text|, i requires 0 <= i < |text| => text[i] as int)
  }

  /** The names in letters. */
  lemma LevelNames(level: nat)
    ensures LevelName(level) == match level
                                case 0 => Ascii("TRACE")
                                case 1 => Ascii("DEBUG")
                                case 2 => Ascii("INFO ")
                                case 3 => Ascii("WARN ")
                                case 4 => Ascii("ERROR")
                                case 5 => Ascii("FATAL")
                                case 6 => Ascii("OFF  ")
                                case _ => Ascii("?????")
  {
  }

  const UNKNOWN_LEVEL: nat := 7

  /** The level with this name. */
  function LevelFrom(name: seq<Byte>, from: nat): nat
    requires from <= UNKNOWN_LEVEL
    decreases UNKNOWN_LEVEL - from
  {
    if from == UNKNOWN_LEVEL || name == LevelName(from) then from else LevelFrom(name, from + 1)
  }

  function PayloadOf(e: Entry): seq<Byte>
    requires e.Valid()
  {
    e.payload[..if e.payloadLen > PAYLOAD_SIZE then PAYLOAD_SIZE else e.payloadLen]
  }

  /** Everything before the thread id. */
  function Header(stamp: seq<Byte>, level: nat): (h: seq<Byte>)
    requires |stamp| == 29
    ensures |h| == 45
  {
    [OPEN] + stamp + [CLOSE, SPACE] + [OPEN] + LevelName(level) + [CLOSE, SPACE] + [OPEN, 116, 105, 100, 58]
  }

  /** The line of an entry whose timestamp renders as stamp. */
  function Line(stamp: seq<Byte>, e: Entry): (line: seq<Byte>)
    requires |stamp| == 29 && e.Valid()
  {
    Header(stamp, e.level) + Digits(e.threadId) + [CLOSE, SPACE] + PayloadOf(e) + [NEWLINE]
  }

  // ---------------------------------------------------------------------------------------------
  // Reading a line back
  // ---------------------------------------------------------------------------------------------

  datatype Parsed = Malformed | Parsed(date: seq<Byte>, nanos: nat, level: nat, threadId: nat, payload: seq<Byte>)

  /** The first closing bracket at or after i, or the end. */
  function Closing(line: seq<Byte>, i: nat): (j: nat)
    requires i <= |line|
    ensures i <= j <= |line|
    decreases |line| - i
  {
    if i == |line| || line[i] == CLOSE then i else Closing(line, i + 1)
  }

  function ParseLine(line: seq<Byte>): Parsed {
    if |line| < 48 then Malformed
    else
      var close := Closing(line, 45);
      if close + 3 > |line| || !AllDigits(line[21..30]) || !AllDigits(line[45..close]) then Malformed
      else
        Parsed(line[1..20], Value(line[21..30]), LevelFrom(line[33..38], 0), Value(line[45..close]),
               line[close + 2..|line| - 1])
  }

  lemma {:induction false} ClosingAfterDigits(line: seq<Byte>, i: nat, j: nat)
    requires i <= j < |line| && line[j] == CLOSE && forall k :: i <= k < j ==> IsDigit(line[k])
    ensures Closing(line, i) == j
    decreases j - i
  {
    if i < j { ClosingAfterDigits(line, i + 1, j); }
  }

  lemma LevelRead(level: nat)
    ensures LevelFrom(LevelName(level), 0) == if level < 7 then level else 7
  {
    var name := LevelName(level);
    assert LevelFrom(name, 7) == 7;
    assert LevelFrom(name, 6) == if name == LevelName(6) then 6 else 7;
    assert LevelFrom(name, 5) == if name == LevelName(5) then 5 else LevelFrom(name, 6);
    assert LevelFrom(name, 4) == if name == LevelName(4) then 4 else LevelFrom(name, 5);
    assert LevelFrom(name, 3) == if name == LevelName(3) then 3 else LevelFrom(name, 4);
    assert LevelFrom(name, 2) == if name == LevelName(2) then 2 else LevelFrom(name, 3);
    assert LevelFrom(name, 1) == if name == LevelName(1) then 1 else LevelFrom(name, 2);
    LevelNamesDiffer(level);
  }

  lemma LevelNamesDiffer(level: nat)
    ensures forall k: nat :: k < 7 && LevelName(k) == LevelName(level) ==> k == level
  {
    forall k: nat | k < 7 && LevelName(k) == LevelName(level) ensures k == level {
      assert LevelName(k)[0] == LevelName(level)[0] && LevelName(k)[1] == LevelName(level)[1];
    }
  }

  lemma HeaderParts(date: Date, ns: nat, level: nat, line: seq<Byte>)
    requires Header(Stamp(date, ns), level) <= line
    ensures line[1..20] == date && line[21..30] == Padded(ns % NANOS, 9) && line[33..38] == LevelName(level)
  {
    var h := Header(Stamp(date, ns), level);
    assert h[1..20] == date && h[21..30] == Padded(ns % NANOS, 9) && h[33..38] == LevelName(level);
    assert line[1..20] == h[1..20] && line[21..30] == h[21..30] && line[33..38] == h[33..38];
  }

  /** The line, byte by byte: all of the payload that the length says, but 112 bytes at the most. */
  lemma LineBytes(stamp: seq<Byte>, e: Entry)
    requires |stamp| == 29 && e.Valid()
    ensures Line(stamp, e) == Ascii("[") + stamp + Ascii("] [") + LevelName(e.level) + Ascii("] [tid:")
                              + Digits(e.threadId) + Ascii("] ")
                              + (if e.payloadLen <= 112 then e.payload[..e.payloadLen] else e.payload) + [10]
  {
    assert Ascii("[") == [OPEN] && Ascii("] [") == [CLOSE, SPACE] + [OPEN] && Ascii("] ") == [CLOSE, SPACE];
    assert Ascii("] [tid:") == [CLOSE, SPACE] + [OPEN, 116, 105, 100, 58];
    assert e.payload[..112] == e.payload;
  }

  /** The length of a line: 48 bytes and the digits and payload, 170 at the most. */
  lemma LineLength(stamp: seq<Byte>, e: Entry)
    requires |stamp| == 29 && e.Valid()
    ensures |Line(stamp, e)| == 48 + |Digits(e.threadId)| + (if e.payloadLen <= 112 then e.payloadLen else 112) <= 170
  {
    assert Pow256(4) == 0x1_0000_0000;
    U32Digits(e.threadId);
  }

  /** Parsing a formatted line gives back the date, nanoseconds, level, thread id and payload. */
  lemma ParseOfLine(date: Date, e: Entry)
    requires e.Valid()
    ensures ParseLine(Line(Stamp(date, e.timestamp), e)) ==
            Parsed(date, e.timestamp % 1_000_000_000, if e.level < 7 then e.level else 7, e.threadId,
                   if e.payloadLen <= 112 then e.payload[..e.payloadLen] else e.payload)
  {
    var line := Line(Stamp(date, e.timestamp), e);
    var h, ds := Header(Stamp(date, e.timestamp), e.level), Digits(e.threadId);
    var close := 45 + |ds|;
    LineLength(Stamp(date, e.timestamp), e);
    HeaderParts(date, e.timestamp, e.level, line);
    assert line[45..close] == ds;
    assert forall k :: 45 <= k < close ==> line[k] == ds[k - 45];
    ClosingAfterDigits(line, 45, close);
    assert line[close + 2..|line| - 1] == PayloadOf(e);
    assert e.payload[..112] == e.payload;
    LevelRead(e.level);
    ValueOfDigits(e.threadId);
    assert Pow10(9) == 1_000_000_000 by { assert Pow10(5) == 100_000; }
    ValueOfPadded(e.timestamp % NANOS, 9);
  }

  // ---------------------------------------------------------------------------------------------
  // The formatter
  // ---------------------------------------------------------------------------------------------

  /** memcpy to the position p, which moves past it. */
  method Put(buf: array<Byte>, p: nat, data: seq<Byte>) returns (p': nat)
    requires p + |data| <= buf.Length
    modifies buf
    ensures p' == p + |data| && buf[..p'] == old(buf[..p]) + data
  {
    forall i | 0 <= i < |data| { buf[p + i] := data[i]; }
    p' := p + |data|;
    assert buf[..p'] == buf[..p] + buf[p..p'];
  }

  class TextFormatter {
    const dates: CachedDateFormatter

    constructor (render: nat -> Date, unset: Date)
      ensures fresh(dates) && dates.render == render && dates.Contents() == Cache(0, unset)
    {
      dates := new CachedDateFormatter(render, unset);
    }

    method PutStamp(ns: nat, buf: array<Byte>, p: nat) returns (p': nat)
      requires p + 29 <= buf.Length
      modifies dates, buf
      ensures dates.Contents() == Refreshed(dates.render, old(dates.Contents()), ns / NANOS)
      ensures p' == p + 29 && buf[..p'] == old(buf[..p]) + Stamp(dates.datePrefix, ns)
    {
      var n := dates.Format(ns, buf, p);
      p' := p + n;
      assert buf[..p'] == buf[..p] + buf[p..p'];
    }

    /** Everything up to the thread id. */
    method PutHeader(ns: nat, level: nat, buf: array<Byte>) returns (p: nat)
      requires MAX_FORMATTED <= buf.Length
      modifies dates, buf
      ensures dates.Contents() == Refreshed(dates.render, old(dates.Contents()), ns / NANOS)
      ensures p == 45 && buf[..p] == Header(Stamp(dates.datePrefix, ns), level)
    {
      p := Put(buf, 0, [OPEN]);
      p := PutStamp(ns, buf, p);
      p := Put(buf, p, [CLOSE, SPACE]);
      p := Put(buf, p, [OPEN]);
      p := Put(buf, p, LevelName(level));
      p := Put(buf, p, [CLOSE, SPACE]);
      p := Put(buf, p, [OPEN, 116, 105, 100, 58]);
    }

    /** Formats the entry with the cached date of its second; nothing if the buffer is too small. */
    method Format(e: Entry, buf: array<Byte>, size: nat) returns (n: nat)
      requires e.Valid() && size <= buf.Length
      modifies dates, buf
      ensures size < 256 ==> n == 0 && dates.Contents() == old(dates.Contents()) && buf[..] == old(buf[..])
      ensures size >= 256 ==>
                && dates.Contents() == Refreshed(dates.render, old(dates.Contents()), e.timestamp / NANOS)
                && 0 < n <= size && buf[..n] == Line(Stamp(dates.datePrefix, e.timestamp), e)
      ensures size >= 256 ==>
                var len := if e.payloadLen <= 112 then e.payloadLen else 112;
                n == 48 + |Digits(e.threadId)| + len && buf[n - 1 - len..n - 1] == e.payload[..len]
    {
      if size < MAX_FORMATTED { return 0; }
      ghost var was := dates.Contents();
      LineLength(Stamp(Refreshed(dates.render, was, e.timestamp / NANOS).prefix, e.timestamp), e);
      var p := PutHeader(e.timestamp, e.level, buf);
      var tidBuf := new Byte[12](_ => 0);
      assert Pow256(4) == 0x1_0000_0000;
      var start := FastU32ToStr(e.threadId, tidBuf, 12);
      p := Put(buf, p, tidBuf[start..12]);
      p := Put(buf, p, [CLOSE, SPACE]);
      var len := if e.payloadLen > PAYLOAD_SIZE then PAYLOAD_SIZE else e.payloadLen;
      if len > 0 {
        p := Put(buf, p, e.payload[..len]);
      }
      n := Put(buf, p, [NEWLINE]);
      assert buf[..n][p - len..p] == e.payload[..len];
    }
  }
}
