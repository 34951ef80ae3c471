/** Runs of writes to the sink. */
module SinkRuns {
  import opened Bytes
  import opened SinkModel

  lemma StoreHolds(f: seq<Byte>, e: Epoch, data: seq<Byte>)
    requires Holds(f, e) && |e.before| + |e.written| + |data| <= |f|
    ensures Holds(Overwrite(f, |e.before| + |e.written|, data), e.(written := e.written + data))
  {
    var n := |e.before| + |e.written|;
    assert f[..n] == e.before + e.written;
    assert f[n + |data|..] == Zeros(|f| - n - |data|);
  }

  lemma StoreKeeps(geo: Geometry, s: Sink, data: seq<Byte>)
    requires geo.Valid() && SinkInv(geo, s) && s.mapping.MappedAt? && Fits(geo, s, |data|)
    ensures SinkInv(geo, Store(s, data))
  {
    var s' := Store(s, data);
    StoreHolds(s.files[0], LastEpoch(s), data);
    assert LastEpoch(s') == LastEpoch(s).(written := LastEpoch(s).written + data);
    forall g | 1 <= g < |s'.epochs| && g <= geo.maxRotated
      ensures g in s'.files && Holds(s'.files[g], s'.epochs[|s'.epochs| - 1 - g])
    {
      assert s'.epochs[|s'.epochs| - 1 - g] == s.epochs[|s.epochs| - 1 - g];
    }
  }

  /** Whatever the system answers, a write keeps the sink's invariant. */
  lemma WriteKeeps(geo: Geometry, os: nat -> MapAnswer, s: Sink, data: seq<Byte>)
    requires geo.Valid() && SinkInv(geo, s) && |data| <= geo.region
    ensures SinkInv(geo, Write(geo, os, s, data).0)
  {
    if data != [] && s.mapping.MappedAt? {
      if Fits(geo, s, |data|) {
        StoreKeeps(geo, s, data);
      } else {
        RemapKeeps(geo, os, s, |data|);
        var mapped := MapRegion(geo, os, BeforeRemap(geo, s, |data|));
        if mapped.mapping.MappedAt? { StoreKeeps(geo, mapped, data); }
      }
    }
  }

  lemma CreateKeeps(geo: Geometry, os: nat -> MapAnswer, files: Files)
    requires geo.Valid()
    ensures SinkInv(geo, Create(geo, os, files)) && Create(geo, os, files).rotations == 0
    ensures |Create(geo, os, files).epochs| == 1
    ensures Create(geo, os, files).epochs[0] == Epoch(if 0 in files then files[0] else [], [])
  {
    var s := OpenFile(Sink(files, false, Unmapped, 0, 0, 0, 0, 0, []));
    MapKeeps(geo, os, s);
  }

  /** The constructor's sink, which satisfies the invariant whatever was in the files. */
  function Created(geo: Geometry, os: nat -> MapAnswer, files: Files): (s: Sink)
    requires geo.Valid()
    ensures SinkInv(geo, s) && s.rotations == 0 && s.totalBytes == 0
  {
    CreateKeeps(geo, os, files);
    Create(geo, os, files)
  }

  /** A write is accepted whole or not at all; it is accepted exactly when the sink is mapped and the data
      fits the region or the next region can be mapped, which needs a page-aligned offset. */
  lemma WriteAcceptsExactly(geo: Geometry, os: nat -> MapAnswer, s: Sink, data: seq<Byte>)
    requires geo.Valid() && SinkInv(geo, s) && 0 < |data| <= geo.region
    ensures Write(geo, os, s, data).1 == 0 || Write(geo, os, s, data).1 == |data|
    ensures Write(geo, os, s, data).1 == |data| <==>
              && s.mapping.MappedAt?
              && (s.mmapOffset + |data| <= geo.region
                  || (os(s.attempts) == Maps
                      && (s.fileOffset + |data| > geo.maxFile || s.fileOffset % geo.page == 0)))
    ensures Write(geo, os, s, data).0.mapping.Unmapped? <==> Write(geo, os, s, data).1 == 0
  {
    if s.mapping.MappedAt? && !Fits(geo, s, |data|) {
      RemapKeeps(geo, os, s, |data|);
      assert BeforeRemap(geo, s, |data|).attempts == s.attempts;
      assert 0 % geo.page == 0;
    }
  }

  /** An accepted write lies within one mapping, and what was written before it stays. */
  lemma WriteInOneMapping(geo: Geometry, os: nat -> MapAnswer, s: Sink, data: seq<Byte>)
    requires geo.Valid() && SinkInv(geo, s) && 0 < |data| <= geo.region && Write(geo, os, s, data).1 == |data|
    ensures var s' := Write(geo, os, s, data).0;
            && s'.mapping.MappedAt? && 0 in s'.files
            && s'.mapping.base <= s'.fileOffset - |data| < s'.fileOffset
            && s'.fileOffset <= s'.mapping.base + geo.region <= |s'.files[0]|
            && s'.files[0][s'.fileOffset - |data|..s'.fileOffset] == data
  {
    WriteKeeps(geo, os, s, data);
    if !Fits(geo, s, |data|) { RemapKeeps(geo, os, s, |data|); }
  }

  lemma MapTouchesBase(geo: Geometry, os: nat -> MapAnswer, s: Sink)
    requires geo.Valid() && s.isOpen && 0 in s.files
    ensures var m := MapRegion(geo, os, s); 0 in m.files && m.files - {0} == s.files - {0} && m.rotations == s.rotations
  {
  }

  lemma RotationRemains(geo: Geometry, s: Sink, len: nat)
    requires s.isOpen && 0 in s.files
    ensures BeforeRemap(geo, s, len).files - {0}
         == if Rotates(geo, s, len) then Rotated(s.files, geo.maxRotated) else s.files - {0}
  {
  }

  lemma RemapNeverShrinks(geo: Geometry, os: nat -> MapAnswer, s: Sink, len: nat)
    requires geo.Valid() && SinkInv(geo, s) && s.mapping.MappedAt?
    ensures var r := BeforeRemap(geo, s, len); var m := MapRegion(geo, os, r);
            0 in m.files && |r.files[0]| <= |m.files[0]| && m.files - {0} == r.files - {0} && m.rotations == r.rotations
    ensures Rotates(geo, s, len) ==> BeforeRemap(geo, s, len).files - {0} == Rotated(s.files, geo.maxRotated)
  {
    hide Holds, EpochBounded, Rotated, MapRegion;
    RemapKeeps(geo, os, s, len);
    MapKeeps(geo, os, BeforeRemap(geo, s, len));
    MapTouchesBase(geo, os, BeforeRemap(geo, s, len));
    RotationRemains(geo, s, len);
  }

  /** No write shrinks a file or touches a rotated one: without a rotation the base file only grows,
      with one it becomes generation 1 unchanged. */
  lemma WriteNeverShrinks(geo: Geometry, os: nat -> MapAnswer, s: Sink, data: seq<Byte>)
    requires geo.Valid() && SinkInv(geo, s) && |data| <= geo.region
    ensures var s' := Write(geo, os, s, data).0;
            if s'.rotations == s.rotations
            then 0 in s'.files && |s.files[0]| <= |s'.files[0]| && s'.files - {0} == s.files - {0}
            else s'.rotations == s.rotations + 1 && s'.files - {0} == Rotated(s.files, geo.maxRotated)
  {
    if data != [] && s.mapping.MappedAt? && !Fits(geo, s, |data|) {
      RemapKeeps(geo, os, s, |data|);
      RemapNeverShrinks(geo, os, s, |data|);
    }
  }

  // ---------------------------------------------------------------------------------------------
  // The stream
  // ---------------------------------------------------------------------------------------------

  ghost predicate Writable(geo: Geometry, datas: seq<seq<Byte>>) {
    forall i :: 0 <= i < |datas| ==> |datas[i]| <= geo.region
  }

  function WriteAll(geo: Geometry, os: nat -> MapAnswer, s: Sink, datas: seq<seq<Byte>>): (r: Sink)
    requires geo.Valid() && SinkInv(geo, s) && Writable(geo, datas)
    ensures SinkInv(geo, r)
  {
    if datas == [] then s
    else
      var n := |datas| - 1;
      var before := WriteAll(geo, os, s, datas[..n]);
      WriteKeeps(geo, os, before, datas[n]);
      Write(geo, os, before, datas[n]).0
  }

  /** The write, if it is accepted. */
  function Taken(geo: Geometry, os: nat -> MapAnswer, s: Sink, data: seq<Byte>): seq<seq<Byte>>
    requires geo.Valid() && SinkInv(geo, s) && |data| <= geo.region
  {
    if Write(geo, os, s, data).1 == 0 then [] else [data]
  }

  /** The writes that were accepted. */
  function Accepted(geo: Geometry, os: nat -> MapAnswer, s: Sink, datas: seq<seq<Byte>>): seq<seq<Byte>>
    requires geo.Valid() && SinkInv(geo, s) && Writable(geo, datas)
  {
    if datas == [] then []
    else
      var n := |datas| - 1;
      var before := WriteAll(geo, os, s, datas[..n]);
      Accepted(geo, os, s, datas[..n]) + Taken(geo, os, before, datas[n])
  }

  function Written(epochs: seq<Epoch>): seq<Byte> {
    if epochs == [] then [] else Written(epochs[..|epochs| - 1]) + epochs[|epochs| - 1].written
  }

  lemma WrittenSnoc(epochs: seq<Epoch>, e: Epoch)
    ensures Written(epochs + [e]) == Written(epochs) + e.written
  {
    assert (epochs + [e])[..|epochs|] == epochs;
  }

  lemma StoreWritten(s: Sink, data: seq<Byte>)
    requires s.mapping.MappedAt? && 0 in s.files && s.mapping.base + s.mmapOffset + |data| <= |s.files[0]|
    requires s.epochs != []
    ensures Written(Store(s, data).epochs) == Written(s.epochs) + data
  {
    var front, last := s.epochs[..|s.epochs| - 1], LastEpoch(s);
    assert s.epochs == front + [last];
    assert Store(s, data).epochs == front + [last.(written := last.written + data)];
    WrittenSnoc(front, last);
    WrittenSnoc(front, last.(written := last.written + data));
  }

  lemma RemapWritten(geo: Geometry, os: nat -> MapAnswer, s: Sink, len: nat)
    requires geo.Valid() && SinkInv(geo, s) && s.mapping.MappedAt?
    ensures 0 in BeforeRemap(geo, s, len).files
    ensures Written(MapRegion(geo, os, BeforeRemap(geo, s, len)).epochs) == Written(s.epochs)
  {
    RemapKeeps(geo, os, s, len);
    WrittenSnoc(s.epochs, Epoch([], []));
  }

  lemma WriteWritten(geo: Geometry, os: nat -> MapAnswer, s: Sink, data: seq<Byte>)
    requires geo.Valid() && SinkInv(geo, s) && |data| <= geo.region
    ensures Written(Write(geo, os, s, data).0.epochs) == Written(s.epochs) + Concat(Taken(geo, os, s, data))
  {
    hide Holds, EpochBounded, OlderInv, Written;
    ConcatSnoc([], data);
    assert [] + [data] == [data];
    if data != [] && s.mapping.MappedAt? {
      if Fits(geo, s, |data|) {
        StoreWritten(s, data);
      } else {
        RemapKeeps(geo, os, s, |data|);
        RemapWritten(geo, os, s, |data|);
        var m := MapRegion(geo, os, BeforeRemap(geo, s, |data|));
        if m.mapping.MappedAt? { StoreWritten(m, data); }
      }
    }
  }

  /** Over any run, the accepted bytes are the epochs' bytes, in order. */
  lemma {:induction false} AcceptedIsWritten(geo: Geometry, os: nat -> MapAnswer, s: Sink, datas: seq<seq<Byte>>)
    requires geo.Valid() && SinkInv(geo, s) && Writable(geo, datas)
    ensures Written(WriteAll(geo, os, s, datas).epochs) == Written(s.epochs) + Concat(Accepted(geo, os, s, datas))
  {
    hide SinkInv, Write, Written;
    if datas == [] {
      assert Concat(Accepted(geo, os, s, datas)) == [];
    } else {
      var n := |datas| - 1;
      var before, last := WriteAll(geo, os, s, datas[..n]), datas[n];
      var accepted, taken := Accepted(geo, os, s, datas[..n]), Taken(geo, os, before, last);
      calc {
        Written(WriteAll(geo, os, s, datas).epochs);
        Written(Write(geo, os, before, last).0.epochs);
        { WriteWritten(geo, os, before, last); }
        Written(before.epochs) + Concat(taken);
        { AcceptedIsWritten(geo, os, s, datas[..n]); }
        Written(s.epochs) + Concat(accepted) + Concat(taken);
        { ConcatAppend(accepted, taken); }
        Written(s.epochs) + Concat(accepted + taken);
      }
      assert Accepted(geo, os, s, datas) == accepted + taken;
    }
  }

  lemma WriteCounts(geo: Geometry, os: nat -> MapAnswer, s: Sink, data: seq<Byte>)
    requires geo.Valid() && SinkInv(geo, s) && |data| <= geo.region
    ensures Write(geo, os, s, data).0.totalBytes == s.totalBytes + |Concat(Taken(geo, os, s, data))|
  {
    ConcatSnoc([], data);
    assert [] + [data] == [data];
    if data != [] && s.mapping.MappedAt? && !Fits(geo, s, |data|) {
      RemapKeeps(geo, os, s, |data|);
    }
  }

  /** total_bytes_written_ counts exactly the accepted bytes. */
  lemma {:induction false} TotalIsAccepted(geo: Geometry, os: nat -> MapAnswer, s: Sink, datas: seq<seq<Byte>>)
    requires geo.Valid() && SinkInv(geo, s) && Writable(geo, datas)
    ensures WriteAll(geo, os, s, datas).totalBytes == s.totalBytes + |Concat(Accepted(geo, os, s, datas))|
  {
    hide SinkInv, Write, Taken;
    if datas != [] {
      var front, last := datas[..|datas| - 1], datas[|datas| - 1];
      assert datas == front + [last];
      TotalIsAccepted(geo, os, s, front);
      WriteAllNext(geo, os, s, front, last);
      WriteCounts(geo, os, WriteAll(geo, os, s, front), last);
      ConcatAppend(Accepted(geo, os, s, front), Taken(geo, os, WriteAll(geo, os, s, front), last));
    }
  }

  /** The bytes written to generation g: what follows its first contents and precedes its zeros. */
  function Payload(s: Sink, g: nat): seq<Byte>
    requires g < |s.epochs| && g in s.files
    requires |s.epochs[|s.epochs| - 1 - g].before| + |s.epochs[|s.epochs| - 1 - g].written| <= |s.files[g]|
  {
    var e := s.epochs[|s.epochs| - 1 - g];
    s.files[g][|e.before|..|e.before| + |e.written|]
  }

  ghost predicate Present(s: Sink, g: nat) {
    forall i :: 0 <= i <= g ==> i < |s.epochs| && i in s.files && Holds(s.files[i], s.epochs[|s.epochs| - 1 - i])
  }

  /** The files read from generation g to the base file. */
  ghost function ReadBack(s: Sink, g: nat): seq<Byte>
    requires Present(s, g)
  {
    Payload(s, g) + (if g == 0 then [] else ReadBack(s, g - 1))
  }

  lemma {:induction false} WrittenSplit(epochs: seq<Epoch>, k: nat)
    requires k <= |epochs|
    ensures Written(epochs) == Written(epochs[..k]) + Written(epochs[k..])
  {
    if k == |epochs| {
      assert epochs[..k] == epochs;
    } else {
      var n := |epochs| - 1;
      WrittenSplit(epochs[..n], k);
      assert epochs[..n][..k] == epochs[..k];
      assert epochs[k..][..n - k] == epochs[..n][k..];
    }
  }

  lemma PayloadIsWritten(s: Sink, g: nat)
    requires Present(s, g)
    ensures Payload(s, g) == s.epochs[|s.epochs| - 1 - g].written
  {
    assert Holds(s.files[g], s.epochs[|s.epochs| - 1 - g]);
  }

  lemma WrittenHead(epochs: seq<Epoch>)
    requires epochs != []
    ensures Written(epochs) == epochs[0].written + Written(epochs[1..])
  {
    WrittenSplit(epochs, 1);
    WrittenSnoc([], epochs[0]);
    assert [] + [epochs[0]] == epochs[..1];
  }

  lemma {:induction false} ReadBackIsWritten(s: Sink, g: nat)
    requires Present(s, g)
    ensures g < |s.epochs| && ReadBack(s, g) == Written(s.epochs[|s.epochs| - 1 - g..])
    decreases g
  {
    hide Holds;
    var k := |s.epochs| - 1 - g;
    PayloadIsWritten(s, g);
    WrittenHead(s.epochs[k..]);
    assert s.epochs[k..][1..] == s.epochs[k + 1..];
    if g > 0 {
      ReadBackIsWritten(s, g - 1);
    } else {
      assert s.epochs[k + 1..] == [];
    }
  }

  /** The oldest generation that still holds bytes of this run. */
  function Oldest(geo: Geometry, s: Sink): nat {
    if s.rotations <= geo.maxRotated then s.rotations else geo.maxRotated
  }

  lemma RetainedPresent(geo: Geometry, s: Sink, g: nat)
    requires geo.Valid() && SinkInv(geo, s) && g <= Oldest(geo, s)
    ensures Present(s, g)
  {
  }

  lemma RetainedStream(geo: Geometry, s: Sink)
    requires geo.Valid() && SinkInv(geo, s)
    ensures Present(s, Oldest(geo, s))
    ensures Written(s.epochs) == Written(s.epochs[..s.rotations - Oldest(geo, s)]) + ReadBack(s, Oldest(geo, s))
    ensures s.rotations <= geo.maxRotated ==> Written(s.epochs[..s.rotations - Oldest(geo, s)]) == []
  {
    RetainedPresent(geo, s, Oldest(geo, s));
    ReadBackIsWritten(s, Oldest(geo, s));
    WrittenSplit(s.epochs, s.rotations - Oldest(geo, s));
  }

  /**
   Over any run of writes, and whatever the system answers, the retained files read oldest to newest hold a
   suffix of the accepted bytes, in order, and only the files rotated past max_rotated_ are missing.
   */
  lemma SinkStream(geo: Geometry, os: nat -> MapAnswer, files: Files, datas: seq<seq<Byte>>) returns (lost: seq<Byte>)
    requires geo.Valid() && Writable(geo, datas)
    ensures SinkInv(geo, Create(geo, os, files))
    ensures var s := WriteAll(geo, os, Create(geo, os, files), datas);
            && Present(s, Oldest(geo, s))
            && Concat(Accepted(geo, os, Create(geo, os, files), datas)) == lost + ReadBack(s, Oldest(geo, s))
            && lost == Written(s.epochs[..s.rotations - Oldest(geo, s)])
            && (s.rotations <= geo.maxRotated ==> lost == [])
  {
    CreateKeeps(geo, os, files);
    var s0 := Create(geo, os, files);
    assert Written(s0.epochs) == [] by {
      assert s0.epochs == [] + [s0.epochs[0]];
      WrittenSnoc([], s0.epochs[0]);
    }
    var s := WriteAll(geo, os, s0, datas);
    AcceptedIsWritten(geo, os, s0, datas);
    RetainedStream(geo, s);
    lost := Written(s.epochs[..s.rotations - Oldest(geo, s)]);
  }

  /** A retained file that was opened empty holds at most max_file_size_ and one region of written bytes. */
  lemma FileBounded(geo: Geometry, s: Sink, g: nat)
    requires geo.Valid() && SinkInv(geo, s) && g <= Oldest(geo, s) && g < |s.epochs|
    requires s.epochs[|s.epochs| - 1 - g].before == []
    ensures Present(s, g) && |Payload(s, g)| <= geo.maxFile + geo.region
  {
    RetainedPresent(geo, s, g);
    PayloadIsWritten(s, g);
  }

  /** Once unmapped, the sink accepts nothing ever again. */
  lemma {:induction false} DeadForever(geo: Geometry, os: nat -> MapAnswer, s: Sink, datas: seq<seq<Byte>>)
    requires geo.Valid() && SinkInv(geo, s) && Writable(geo, datas) && s.mapping.Unmapped?
    ensures WriteAll(geo, os, s, datas) == s && Accepted(geo, os, s, datas) == []
  {
    if datas != [] {
      DeadForever(geo, os, s, datas[..|datas| - 1]);
    }
  }

  lemma WriteAllNext(geo: Geometry, os: nat -> MapAnswer, s: Sink, datas: seq<seq<Byte>>, last: seq<Byte>)
    requires geo.Valid() && SinkInv(geo, s) && Writable(geo, datas) && |last| <= geo.region
    ensures Writable(geo, datas + [last])
    ensures var m := WriteAll(geo, os, s, datas);
            && WriteAll(geo, os, s, datas + [last]) == Write(geo, os, m, last).0
            && Accepted(geo, os, s, datas + [last]) == Accepted(geo, os, s, datas) + Taken(geo, os, m, last)
  {
    assert (datas + [last])[..|datas|] == datas;
  }

  lemma {:induction false} WriteAllJoin(geo: Geometry, os: nat -> MapAnswer, s: Sink, xs: seq<seq<Byte>>,
                                        ys: seq<seq<Byte>>)
    requires geo.Valid() && SinkInv(geo, s) && Writable(geo, xs) && Writable(geo, ys)
    ensures Writable(geo, xs + ys)
    ensures WriteAll(geo, os, s, xs + ys) == WriteAll(geo, os, WriteAll(geo, os, s, xs), ys)
    decreases |ys|
  {
    hide SinkInv;
    if ys == [] {
      assert xs + ys == xs;
    } else {
      var front, last := ys[..|ys| - 1], ys[|ys| - 1];
      assert ys == front + [last] && xs + ys == (xs + front) + [last];
      WriteAllJoin(geo, os, s, xs, front);
      WriteAllNext(geo, os, s, xs + front, last);
    }
  }

  /** Writing in two goes: what is accepted. */
  lemma {:induction false} AcceptedJoin(geo: Geometry, os: nat -> MapAnswer, s: Sink, xs: seq<seq<Byte>>,
                                        ys: seq<seq<Byte>>)
    requires geo.Valid() && SinkInv(geo, s) && Writable(geo, xs) && Writable(geo, ys)
    ensures Writable(geo, xs + ys)
    ensures Accepted(geo, os, s, xs + ys) == Accepted(geo, os, s, xs) + Accepted(geo, os, WriteAll(geo, os, s, xs), ys)
    decreases |ys|
  {
    hide SinkInv;
    WriteAllJoin(geo, os, s, xs, ys);
    if ys == [] {
      assert xs + ys == xs;
    } else {
      var front, last := ys[..|ys| - 1], ys[|ys| - 1];
      assert xs + ys == (xs + front) + [last];
      WriteAllJoin(geo, os, s, xs, front);
      AcceptedJoin(geo, os, s, xs, front);
      WriteAllNext(geo, os, s, xs + front, last);
    }
  }

  /** A remap at an unaligned offset kills the sink although the system fails nowhere: the write is refused, and with it
      everything after it. */
  lemma UnalignedRemapKills(geo: Geometry, os: nat -> MapAnswer, s: Sink, data: seq<Byte>, later: seq<seq<Byte>>)
    requires geo.Valid() && SinkInv(geo, s) && 0 < |data| <= geo.region && Writable(geo, later)
    requires s.mapping.MappedAt? && !Fits(geo, s, |data|) && !Rotates(geo, s, |data|) && s.fileOffset % geo.page != 0
    ensures Writable(geo, [data] + later) && Accepted(geo, os, s, [data] + later) == []
    ensures WriteAll(geo, os, s, [data] + later) == Write(geo, os, s, data).0
  {
    WriteAcceptsExactly(geo, os, s, data);
    WriteKeeps(geo, os, s, data);
    WriteAllNext(geo, os, s, [], data);
    assert [] + [data] == [data];
    WriteAllJoin(geo, os, s, [data], later);
    AcceptedJoin(geo, os, s, [data], later);
    DeadForever(geo, os, Write(geo, os, s, data).0, later);
  }
}
