/** Timestamps in text: a date prefix cached per second, and nine digits of nanoseconds. */
module DateCache {
  import opened Bytes
  import opened Decimal

  const PREFIX: nat := 19
  const NANOS: nat := 1_000_000_000

  /** A rendered date; which one a second has is up to the time zone. */
  type Date = d: seq<Byte> | |d| == PREFIX witness Zeros(PREFIX)

  datatype Cache = Cache(sec: nat, prefix: Date)

  function Refreshed(render: nat -> Date, cache: Cache, sec: nat): Cache {
    if sec != cache.sec then Cache(sec, render(sec)) else cache
  }

  /** The 29 bytes of a timestamp: date, dot, nanoseconds. */
  function Stamp(date: Date, ns: nat): (s: seq<Byte>)
    ensures |s| == 29
  {
    date + [46] + Padded(ns % NANOS, 9)
  }

  /** A timestamp rendered without a cache. */
  function Fresh(render: nat -> Date, ns: nat): seq<Byte> {
    Stamp(render(ns / NANOS), ns)
  }

  /** What a timestamp says: the date, a dot, and nine digits with the nanoseconds of its second. */
  lemma StampReads(render: nat -> Date, date: Date, ns: nat)
    ensures var s := Stamp(date, ns);
            && s[..19] == date && s[19] == 46
            && AllDigits(s[20..29]) && Value(s[20..29]) == ns % 1_000_000_000
    ensures Fresh(render, ns) == Stamp(render(ns / 1_000_000_000), ns)
  {
    assert Stamp(date, ns)[20..29] == Padded(ns % NANOS, 9);
    assert Pow10(9) == 1_000_000_000 by { assert Pow10(5) == 100_000; }
    ValueOfPadded(ns % NANOS, 9);
  }

  /** The cache after a run of timestamps. */
  function After(render: nat -> Date, cache: Cache, times: seq<nat>): Cache {
    if times == [] then cache
    else Refreshed(render, After(render, cache, times[..|times| - 1]), times[|times| - 1] / NANOS)
  }

  /** What the cached formatter writes for each timestamp of a run. */
  function Stamps(render: nat -> Date, cache: Cache, times: seq<nat>): seq<seq<Byte>> {
    if times == [] then []
    else
      var n := |times| - 1;
      Stamps(render, cache, times[..n]) + [Stamp(After(render, cache, times).prefix, times[n])]
  }

  function FreshStamps(render: nat -> Date, times: seq<nat>): seq<seq<Byte>> {
    if times == [] then []
    else FreshStamps(render, times[..|times| - 1]) + [Fresh(render, times[|times| - 1])]
  }

  lemma {:induction false} StampsFrom(render: nat -> Date, cache: Cache, times: seq<nat>)
    requires cache.prefix == render(cache.sec)
    ensures Stamps(render, cache, times) == FreshStamps(render, times)
    ensures After(render, cache, times).prefix == render(After(render, cache, times).sec)
    ensures times != [] ==> After(render, cache, times).sec == times[|times| - 1] / NANOS
  {
    if times != [] {
      StampsFrom(render, cache, times[..|times| - 1]);
    }
  }

  lemma {:induction false} FirstThenRest(render: nat -> Date, cache: Cache, times: seq<nat>)
    requires times != []
    ensures var first := Refreshed(render, cache, times[0] / NANOS);
            && Stamps(render, cache, times) == [Stamp(first.prefix, times[0])] + Stamps(render, first, times[1..])
            && After(render, cache, times) == After(render, first, times[1..])
            && FreshStamps(render, times) == [Fresh(render, times[0])] + FreshStamps(render, times[1..])
  {
    var n := |times| - 1;
    if n == 0 {
      assert times[..0] == [] && times[1..] == [];
    } else {
      FirstThenRest(render, cache, times[..n]);
      assert times[..n][1..] == times[1..][..n - 1];
    }
  }

  lemma StampDate(d: Date, e: Date, ns: nat)
    requires Stamp(d, ns) == Stamp(e, ns)
    ensures d == e
  {
    assert d == Stamp(d, ns)[..PREFIX] && e == Stamp(e, ns)[..PREFIX];
  }

  /**
   The cached formatter starts with second 0 and an unset prefix. It writes what rendering afresh would
   write, over a whole run, exactly when the first timestamp is past second 0 (or the unset prefix happens to
   be the right date).
   */
  lemma CacheAgreesExactly(render: nat -> Date, unset: Date, times: seq<nat>)
    ensures Stamps(render, Cache(0, unset), times) == FreshStamps(render, times)
       <==> times == [] || times[0] / 1_000_000_000 != 0 || unset == render(0)
  {
    var cache := Cache(0, unset);
    if times != [] {
      FirstThenRest(render, cache, times);
      var first := Refreshed(render, cache, times[0] / NANOS);
      if times[0] / NANOS != 0 || unset == render(0) {
        StampsFrom(render, first, times[1..]);
      } else {
        assert Stamps(render, cache, times)[0] == Stamp(unset, times[0]);
        assert FreshStamps(render, times)[0] == Stamp(render(0), times[0]);
        if Stamps(render, cache, times) == FreshStamps(render, times) {
          StampDate(unset, render(0), times[0]);
        }
      }
    }
  }

  /** At the epoch itself the cache is wrong whenever the unset prefix is not the epoch's date. */
  lemma WrongAtEpoch(render: nat -> Date, unset: Date, ns: nat)
    requires ns < 1_000_000_000 && unset != render(0)
    ensures Stamps(render, Cache(0, unset), [ns]) != FreshStamps(render, [ns])
  {
    CacheAgreesExactly(render, unset, [ns]);
    assert ns / NANOS == 0;
  }

  class CachedDateFormatter {
    const render: nat -> Date
    var cachedSec: nat
    var datePrefix: Date

    constructor (render: nat -> Date, unset: Date)
      ensures this.render == render && cachedSec == 0 && datePrefix == unset
    {
      this.render, cachedSec, datePrefix := render, 0, unset;
    }

    function Contents(): Cache
      reads this
    {
      Cache(cachedSec, datePrefix)
    }

    /** Writes the timestamp at buf[at..at + 29]. */
    method Format(ns: nat, buf: array<Byte>, at: nat) returns (n: nat)
      requires at + 29 <= buf.Length
      modifies this, buf
      ensures Contents() == Refreshed(render, old(Contents()), ns / NANOS)
      ensures n == 29 && buf[at..at + 29] == Stamp(datePrefix, ns)
      ensures cachedSec == ns / 1_000_000_000 && buf[at..at + 19] == datePrefix
      ensures datePrefix == if cachedSec != old(cachedSec) then render(cachedSec) else old(datePrefix)
      ensures buf[at + 19] == 46
      ensures AllDigits(buf[at + 20..at + 29]) && Value(buf[at + 20..at + 29]) == ns % 1_000_000_000
      ensures forall i :: 0 <= i < buf.Length && !(at <= i < at + 29) ==> buf[i] == old(buf[i])
    {
      hide Value, AllDigits, Fresh;
      var sec := ns / NANOS;
      var part: nat := ns % NANOS;
      if sec != cachedSec {
        cachedSec := sec;
        datePrefix := render(sec);
      }
      forall i | 0 <= i < PREFIX { buf[at + i] := datePrefix[i]; }
      buf[at + 19] := 46;
      var i: int := 8;
      assert Padded(part, 9) == Padded(part, 9) + buf[at + 29..at + 29];
      while i >= 0
        invariant -1 <= i <= 8
        invariant Padded(ns % NANOS, 9) == Padded(part, (i + 1) as nat) + buf[at + 21 + i..at + 29]
        invariant buf[at..at + 19] == datePrefix && buf[at + 19] == 46
        invariant forall j :: 0 <= j < buf.Length && !(at <= j < at + 29) ==> buf[j] == old(buf[j])
        invariant Contents() == Refreshed(render, old(Contents()), ns / NANOS)
      {
        ghost var tail := buf[at + 21 + i..at + 29];
        buf[at + 20 + i] := Digit(part % 10);
        assert buf[at + 20 + i..at + 29] == [Digit(part % 10)] + tail;
        assert Padded(part, (i + 1) as nat) == Padded(part / 10, i as nat) + [Digit(part % 10)];
        part := part / 10;
        i := i - 1;
      }
      assert buf[at..at + 29] == buf[at..at + 19] + [buf[at + 19]] + buf[at + 20..at + 29];
      StampReads(render, datePrefix, ns);
      assert buf[at + 20..at + 29] == Stamp(datePrefix, ns)[20..29];
      n := 29;
    }
  }
}
