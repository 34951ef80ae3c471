/** The sink in binary mode: records of 128 bytes, and regions and files that are whole multiples of them. */
module BinaryFill {
  import opened Bytes
  import opened RingIndex
  import opened SinkModel
  import opened SinkRuns

  const RECORD: nat := 128

  predicate BinaryGeometry(geo: Geometry) {
    && geo.Valid() && geo.region % RECORD == 0 && geo.region % geo.page == 0
    && geo.maxFile > 0 && geo.maxFile % geo.region == 0
  }

  ghost predicate AllRecords(datas: seq<seq<Byte>>) {
    forall i :: 0 <= i < |datas| ==> |datas[i]| == RECORD
  }

  /** Every earlier file is full to the byte; the current one is full up to its mapping. */
  ghost predicate BinaryInv(geo: Geometry, s: Sink)
    requires geo.Valid()
  {
    && SinkInv(geo, s) && s.mapping.MappedAt?
    && s.mapping.base % geo.region == 0 && s.mapping.base < geo.maxFile
    && s.mmapOffset % RECORD == 0
    && (forall i :: 0 <= i < |s.epochs| ==> s.epochs[i].before == [])
    && (forall i :: 0 <= i < |s.epochs| - 1 ==> |s.epochs[i].written| == geo.maxFile)
    && (forall g :: 1 <= g < |s.epochs| && g <= geo.maxRotated ==> g in s.files && |s.files[g]| == geo.maxFile)
  }

  lemma MultipleOfMultiple(k: nat, page: nat, b: nat)
    requires page > 0
    ensures (k * (b * page)) % page == 0
  {
    assert k * (b * page) == (k * b) * page + 0;
    ModUnique(k * (b * page), k * b, page, 0);
  }

  lemma Aligned(x: nat, region: nat, page: nat)
    requires page > 0 && region > 0 && x % region == 0 && region % page == 0
    ensures x % page == 0
  {
    var k, r := DivMod(x, region);
    var b, r' := DivMod(region, page);
    MultipleOfMultiple(k, page, b);
  }

  lemma RecordsInRegion(geo: Geometry)
    requires BinaryGeometry(geo)
    ensures RECORD <= geo.region && geo.region <= geo.maxFile && geo.maxFile % RECORD == 0
  {
    if geo.maxFile < geo.region { ModUnique(geo.maxFile, 0, geo.region, geo.maxFile); }
    Aligned(geo.maxFile, geo.region, RECORD);
  }

  /** A record that does not fit finds the region exactly full, and the file exactly full when it rotates. */
  lemma FullExactly(geo: Geometry, s: Sink)
    requires BinaryGeometry(geo) && BinaryInv(geo, s) && !Fits(geo, s, RECORD)
    ensures s.mmapOffset == geo.region && s.fileOffset % geo.region == 0 && s.fileOffset <= geo.maxFile
    ensures Rotates(geo, s, RECORD) <==> s.fileOffset == geo.maxFile
  {
    RecordsInRegion(geo);
    MultipleGap(s.mapping.base, geo.maxFile, geo.region);
    ModShift(s.mapping.base, geo.region);
    if s.fileOffset < geo.maxFile {
      MultipleGap(s.fileOffset, geo.maxFile, geo.region);
    }
  }

  lemma RotatedFull(geo: Geometry, s: Sink, m: Sink)
    requires BinaryGeometry(geo) && BinaryInv(geo, s) && s.fileOffset == geo.maxFile == |s.files[0]|
    requires m.epochs == s.epochs + [Epoch([], [])]
    requires forall g :: 1 <= g <= geo.maxRotated && g - 1 in s.files ==> g in m.files && m.files[g] == s.files[g - 1]
    ensures forall i :: 0 <= i < |m.epochs| ==> m.epochs[i].before == []
    ensures forall i :: 0 <= i < |m.epochs| - 1 ==> |m.epochs[i].written| == geo.maxFile
    ensures forall g :: 1 <= g < |m.epochs| && g <= geo.maxRotated ==> g in m.files && |m.files[g]| == geo.maxFile
  {
    assert LastEpoch(s).before == [] && |LastEpoch(s).written| == geo.maxFile;
    forall g | 1 <= g < |m.epochs| && g <= geo.maxRotated ensures g in m.files && |m.files[g]| == geo.maxFile {
      assert g - 1 in s.files && m.files[g] == s.files[g - 1];
    }
  }

  lemma RemapExactly(geo: Geometry, os: nat -> MapAnswer, s: Sink)
    requires BinaryGeometry(geo) && AllMap(os) && BinaryInv(geo, s) && !Fits(geo, s, RECORD)
    ensures 0 in BeforeRemap(geo, s, RECORD).files
    ensures BinaryInv(geo, MapRegion(geo, os, BeforeRemap(geo, s, RECORD)))
    ensures MapRegion(geo, os, BeforeRemap(geo, s, RECORD)).mmapOffset == 0
  {
    hide Holds;
    FullExactly(geo, s);
    RemapKeeps(geo, os, s, RECORD);
    RecordsInRegion(geo);
    var r := BeforeRemap(geo, s, RECORD);
    var m := MapRegion(geo, os, r);
    ModUnique(0, 0, geo.region, 0);
    Aligned(r.fileOffset, geo.region, geo.page);
    assert MapSucceeds(geo, os, r);
    if Rotates(geo, s, RECORD) {
      RotatedFull(geo, s, m);
    }
  }

  /** In binary mode every record is accepted, and the files fill to the byte. */
  lemma RecordKeeps(geo: Geometry, os: nat -> MapAnswer, s: Sink, data: seq<Byte>)
    requires BinaryGeometry(geo) && AllMap(os) && BinaryInv(geo, s) && |data| == RECORD && RECORD <= geo.region
    ensures Write(geo, os, s, data).1 == RECORD && BinaryInv(geo, Write(geo, os, s, data).0)
    ensures var s' := Write(geo, os, s, data).0;
            s'.fileOffset == RECORD + (if s'.rotations == s.rotations then s.fileOffset else 0)
            && s'.rotations == if s.fileOffset == geo.maxFile then s.rotations + 1 else s.rotations
  {
    WriteKeeps(geo, os, s, data);
    RecordsInRegion(geo);
    if Fits(geo, s, RECORD) {
      StoredRecord(geo, s, data);
      MultipleGap(s.mapping.base, geo.maxFile, geo.region);
    } else {
      FullExactly(geo, s);
      RemapExactly(geo, os, s);
      RemapKeeps(geo, os, s, RECORD);
      StoredRecord(geo, MapRegion(geo, os, BeforeRemap(geo, s, RECORD)), data);
    }
  }

  lemma StoredRecord(geo: Geometry, s: Sink, data: seq<Byte>)
    requires BinaryGeometry(geo) && BinaryInv(geo, s) && |data| == RECORD && Fits(geo, s, RECORD)
    ensures BinaryInv(geo, Store(s, data))
  {
    StoreKeeps(geo, s, data);
  }

  /** The constructor, over an empty or absent base file. */
  lemma CreateBinary(geo: Geometry, os: nat -> MapAnswer, files: Files)
    requires BinaryGeometry(geo) && AllMap(os) && (0 in files ==> files[0] == [])
    ensures BinaryInv(geo, Create(geo, os, files)) && Create(geo, os, files).fileOffset == 0
  {
    CreateKeeps(geo, os, files);
    ModUnique(0, 0, geo.region, 0);
    ModUnique(0, 0, geo.page, 0);
    MapKeeps(geo, os, OpenFile(Sink(files, false, Unmapped, 0, 0, 0, 0, 0, [])));
  }

  /** Bytes in the rotated files and in the current one. */
  function Filled(geo: Geometry, s: Sink): nat {
    s.rotations * geo.maxFile + s.fileOffset
  }

  lemma FilledMore(geo: Geometry, s: Sink, s': Sink)
    requires if s.fileOffset == geo.maxFile then s'.rotations == s.rotations + 1 && s'.fileOffset == RECORD
             else s'.rotations == s.rotations && s'.fileOffset == s.fileOffset + RECORD
    ensures Filled(geo, s') == Filled(geo, s) + RECORD
  {
    assert (s.rotations + 1) * geo.maxFile == s.rotations * geo.maxFile + geo.maxFile;
  }

  lemma RecordFills(geo: Geometry, os: nat -> MapAnswer, s: Sink, data: seq<Byte>)
    requires BinaryGeometry(geo) && AllMap(os) && BinaryInv(geo, s) && |data| == RECORD && RECORD <= geo.region
    ensures BinaryInv(geo, Write(geo, os, s, data).0)
    ensures Taken(geo, os, s, data) == [data]
    ensures Filled(geo, Write(geo, os, s, data).0) == Filled(geo, s) + RECORD
  {
    RecordKeeps(geo, os, s, data);
    FilledMore(geo, s, Write(geo, os, s, data).0);
  }

  /**
   Exact fill: over any run of records every one is accepted, and the record count fixes the number of
   rotations and the size of the current file, each earlier file holding exactly max_file_size_ bytes.
   */
  lemma {:induction false} ExactFill(geo: Geometry, os: nat -> MapAnswer, s: Sink, datas: seq<seq<Byte>>)
    requires BinaryGeometry(geo) && AllMap(os) && BinaryInv(geo, s) && AllRecords(datas) && Writable(geo, datas)
    ensures BinaryInv(geo, WriteAll(geo, os, s, datas)) && Accepted(geo, os, s, datas) == datas
    ensures Filled(geo, WriteAll(geo, os, s, datas)) == Filled(geo, s) + RECORD * |datas|
  {
    if datas != [] {
      var n := |datas| - 1;
      RecordsInRegion(geo);
      assert datas == datas[..n] + [datas[n]];
      ExactFill(geo, os, s, datas[..n]);
      RecordFills(geo, os, WriteAll(geo, os, s, datas[..n]), datas[n]);
    }
  }

  lemma WholeRecords(x: nat, y: nat)
    requires x % RECORD == 0 && y % RECORD == 0
    ensures (x + y) % RECORD == 0 && (x <= y ==> (y - x) % RECORD == 0)
  {
  }

  /** The current file holds whole records, and never more than max_file_size_ bytes. */
  lemma CurrentFileSize(geo: Geometry, s: Sink)
    requires BinaryGeometry(geo) && BinaryInv(geo, s)
    ensures s.fileOffset <= |s.files[0]| <= geo.maxFile && |s.files[0]| % RECORD == 0 && s.fileOffset % RECORD == 0
    ensures (|s.files[0]| - s.fileOffset) % RECORD == 0
  {
    RecordsInRegion(geo);
    MultipleGap(s.mapping.base, geo.maxFile, geo.region);
    Aligned(s.mapping.base, geo.region, RECORD);
    var base, end := s.mapping.base, s.mapping.base + geo.region;
    WholeRecords(base, geo.region);
    WholeRecords(base, s.mmapOffset);
    WholeRecords(base + s.mmapOffset, end);
  }
}
