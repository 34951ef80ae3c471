/** The offline reader of binary log files: 128-byte records, filters and a limit. */
module LogReader {
  import opened Bytes
  import opened LogEntry

  /** The whole records of a file; a partial record at the end is not read. */
  function Records(file: seq<Byte>): (rs: seq<seq<Byte>>)
    ensures |rs| == |file| / ENTRY_SIZE
    ensures forall i :: 0 <= i < |rs| ==> |rs[i]| == ENTRY_SIZE
    decreases |file|
  {
    if |file| < ENTRY_SIZE then [] else [file[..ENTRY_SIZE]] + Records(file[ENTRY_SIZE..])
  }

  lemma {:induction false} RecordsAppend(a: seq<Byte>, b: seq<Byte>)
    requires |a| % ENTRY_SIZE == 0
    ensures Records(a + b) == Records(a) + Records(b)
    decreases |a|
  {
    if a == [] {
      assert a + b == b;
    } else {
      assert (a + b)[..ENTRY_SIZE] == a[..ENTRY_SIZE];
      assert (a + b)[ENTRY_SIZE..] == a[ENTRY_SIZE..] + b;
      RecordsAppend(a[ENTRY_SIZE..], b);
    }
  }

  ghost predicate AllWhole(rs: seq<seq<Byte>>) {
    forall i :: 0 <= i < |rs| ==> |rs[i]| == ENTRY_SIZE
  }

  /** Splitting a concatenation of records gives the records back. */
  lemma {:induction false} RecordsOfConcat(rs: seq<seq<Byte>>)
    requires AllWhole(rs)
    ensures Records(Concat(rs)) == rs && |Concat(rs)| == ENTRY_SIZE * |rs|
  {
    if rs != [] {
      var front, last := rs[..|rs| - 1], rs[|rs| - 1];
      RecordsOfConcat(front);
      RecordsAppend(Concat(front), last);
      assert last[..ENTRY_SIZE] == last && last[ENTRY_SIZE..] == [];
      assert Records(last) == [last];
    }
  }

  /** Zero padding reads as entries whose every field is zero. */
  lemma {:induction false} RecordsOfZeros(n: nat)
    ensures Records(Zeros(n)) == seq(n / ENTRY_SIZE, i => Zeros(ENTRY_SIZE))
    decreases n
  {
    if n >= ENTRY_SIZE {
      assert Zeros(n)[..ENTRY_SIZE] == Zeros(ENTRY_SIZE);
      assert Zeros(n)[ENTRY_SIZE..] == Zeros(n - ENTRY_SIZE);
      RecordsOfZeros(n - ENTRY_SIZE);
    }
  }

  // ---------------------------------------------------------------------------------------------
  // Filters and the limit
  // ---------------------------------------------------------------------------------------------

  datatype Options = Options(minLevel: nat, hasThread: bool, thread: nat, limit: nat)

  predicate Matches(opts: Options, e: Entry) {
    e.level >= opts.minLevel && (opts.hasThread ==> e.threadId == opts.thread)
  }

  /** The bytes of record i. */
  function RecordBytes(file: seq<Byte>, i: nat): (bs: seq<Byte>)
    requires 128 * i + 128 <= |file|
    ensures |bs| == 128
  {
    file[128 * i..128 * i + 128]
  }

  /** The records the reader wants, by their bytes: the level at 12, the thread id in the four bytes from 8 on. */
  ghost predicate Wanted(opts: Options, bs: seq<Byte>)
    requires |bs| == 128
  {
    && bs[12] >= opts.minLevel
    && (opts.hasThread ==> Word32(bs[8], bs[9], bs[10], bs[11]) == opts.thread)
  }

  lemma MatchesWanted(opts: Options, bs: seq<Byte>)
    requires |bs| == 128
    ensures Matches(opts, Decode(bs)) <==> Wanted(opts, bs)
  {
    FourBytes(bs[8..12]);
  }

  /** Increasing numbers of records, all below n. */
  ghost predicate Increasing(from: seq<nat>, n: nat) {
    (forall k, l :: 0 <= k < l < |from| ==> from[k] < from[l]) && forall k :: 0 <= k < |from| ==> from[k] < n
  }

  lemma {:induction false} RecordAt(file: seq<Byte>, i: nat)
    requires i < |file| / 128
    ensures Records(file)[i] == RecordBytes(file, i)
    decreases i
  {
    if i > 0 { RecordAt(file[128..], i - 1); }
  }

  /** Of the records before total exactly the wanted ones are shown, in order; from says which they are. */
  ghost predicate Shows(file: seq<Byte>, opts: Options, shown: seq<Entry>, from: seq<nat>, total: nat) {
    && 128 * total <= |file| && |from| == |shown| && Increasing(from, total)
    && (forall k :: 0 <= k < |from| ==> shown[k] == Decode(RecordBytes(file, from[k])))
    && forall i :: 0 <= i < total ==> (i in from <==> Wanted(opts, RecordBytes(file, i)))
  }

  lemma ShowsNext(file: seq<Byte>, opts: Options, shown: seq<Entry>, from: seq<nat>, total: nat)
    requires Shows(file, opts, shown, from, total) && 128 * (total + 1) <= |file|
    ensures var e := Decode(RecordBytes(file, total));
            if Matches(opts, e) then Shows(file, opts, shown + [e], from + [total], total + 1)
            else Shows(file, opts, shown, from, total + 1)
  {
    hide Matches, Wanted;
    MatchesWanted(opts, RecordBytes(file, total));
    assert forall i :: i in from + [total] <==> i in from || i == total;
  }

  /**
   Reads records until the file ends, or until as many have been shown as the limit says. Of those read it shows exactly
   the wanted ones, in order; and with a limit the last one read is the last one shown.
   */
  method Read(file: seq<Byte>, opts: Options) returns (shown: seq<Entry>, total: nat, ghost from: seq<nat>)
    ensures Shows(file, opts, shown, from, total)
    ensures opts.limit == 0 || |shown| < opts.limit ==> total == |file| / 128
    ensures opts.limit > 0 ==> |shown| <= opts.limit
    ensures opts.limit > 0 && |shown| == opts.limit ==> |from| == |shown| && from[|from| - 1] == total - 1
  {
    hide Matches, Wanted;
    var pos := 0;
    shown, total, from := [], 0, [];
    while pos + ENTRY_SIZE <= |file|
      invariant pos == 128 * total <= |file| && |from| == |shown| && Shows(file, opts, shown, from, total)
      invariant opts.limit > 0 ==> |shown| < opts.limit
    {
      var entry := Decode(file[pos..pos + ENTRY_SIZE]);
      ShowsNext(file, opts, shown, from, total);
      pos := pos + ENTRY_SIZE;
      total := total + 1;
      if Matches(opts, entry) {
        shown := shown + [entry];
        from := from + [total - 1];
        if opts.limit > 0 && |shown| >= opts.limit { break; }
      }
    }
  }
}
