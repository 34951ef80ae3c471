/**
 The mapped-file sink as a value: its fields, the files it has (0 is the base path, i is base path + "." + i),
 and what each operation makes of them.
 */
module SinkModel {
  import opened Bytes

  type Files = map<nat, seq<Byte>>

  datatype Geometry = Geometry(region: nat, maxFile: nat, maxRotated: nat, page: nat) {
    predicate Valid() { region > 0 && maxRotated >= 1 && page > 0 }
  }

  /** What the operating system answers to one attempt to extend the file and map the region. */
  datatype MapAnswer = Maps | TruncateFails | MapFails

  /** No attempt fails on the side of the system. */
  ghost predicate AllMap(os: nat -> MapAnswer) {
    forall n: nat :: os(n) == Maps
  }

  /** Unmapped, or mapped with the region starting at this offset of the base file. */
  datatype Mapping = Unmapped | MappedAt(base: nat)

  /** History: one file's life as the base file: its contents when opened and the bytes written since. */
  datatype Epoch = Epoch(before: seq<Byte>, written: seq<Byte>)

  datatype Sink = Sink(
    files: Files,
    isOpen: bool,
    mapping: Mapping,
    mmapOffset: nat,
    fileOffset: nat,
    totalBytes: nat,
    rotations: nat,
    attempts: nat,
    epochs: seq<Epoch>)

  /** ftruncate: cut the file, or extend it with zeros. */
  function Resize(f: seq<Byte>, n: nat): (r: seq<Byte>)
    ensures |r| == n
  {
    if n <= |f| then f[..n] else f + Zeros(n - |f|)
  }

  /** memcpy into a mapping of the file. */
  function Overwrite(f: seq<Byte>, at: nat, data: seq<Byte>): (r: seq<Byte>)
    requires at + |data| <= |f|
    ensures |r| == |f|
  {
    f[..at] + data + f[at + |data|..]
  }

  /** Where generation g comes from when files are rotated. */
  function Source(g: nat, maxRotated: nat): nat
    requires g > 0
  {
    if g <= maxRotated then g - 1 else g
  }

  /** The files after a rotation: each generation below the limit moves up by one, the oldest is lost. */
  function Rotated(files: Files, maxRotated: nat): (r: Files)
    ensures 0 !in r
    ensures forall g :: g > 0 ==> (g in r <==> Source(g, maxRotated) in files)
    ensures forall g :: g in r ==> g > 0 && r[g] == files[Source(g, maxRotated)]
  {
    var moved := set g | g in files.Keys :: g + 1;
    assert forall g :: g > 0 && g - 1 in files ==> g in moved by {
      forall g | g > 0 && g - 1 in files ensures g in moved { assert (g - 1) + 1 in moved; }
    }
    map g | g in moved + files.Keys && g > 0 && Source(g, maxRotated) in files :: files[Source(g, maxRotated)]
  }

  lemma RotatedOnly(files: Files, r: Files, maxRotated: nat)
    requires 0 !in r
    requires forall g :: g > 0 ==> (g in r <==> Source(g, maxRotated) in files)
    requires forall g :: g in r && g > 0 ==> r[g] == files[Source(g, maxRotated)]
    ensures r == Rotated(files, maxRotated)
  {
    var r' := Rotated(files, maxRotated);
    assert forall g :: g in r <==> g in r';
  }

  /** The shift, generation by generation: gaps move up too, the base is gone, and so is what the oldest held. */
  ghost predicate ShiftedUp(was: Files, files: Files, maxRotated: nat) {
    && 0 !in files
    && (1 in files <==> 0 in was) && (0 in was ==> files[1] == was[0])
    && (forall i :: 1 <= i < maxRotated ==> (i + 1 in files <==> i in was) && (i in was ==> files[i + 1] == was[i]))
    && (forall g :: g > maxRotated ==> (g in files <==> g in was) && (g in was ==> files[g] == was[g]))
  }

  lemma RotatedShifts(files: Files, maxRotated: nat)
    requires maxRotated >= 1
    ensures ShiftedUp(files, Rotated(files, maxRotated), maxRotated)
  {
    var r := Rotated(files, maxRotated);
    forall i | 1 <= i < maxRotated
      ensures (i + 1 in r <==> i in files) && (i in files ==> r[i + 1] == files[i])
    {
      assert Source(i + 1, maxRotated) == i;
    }
    assert Source(1, maxRotated) == 0;
    forall g | g > maxRotated ensures (g in r <==> g in files) && (g in files ==> r[g] == files[g]) {
      assert Source(g, maxRotated) == g;
    }
  }

  /** rename: replaces the target; without a source it fails and changes nothing. */
  function Renamed(files: Files, from: nat, to: nat): Files
    requires from != to
  {
    if from in files then (files - {from})[to := files[from]] else files
  }

  /** Generations i + 1 to maxRotated - 1 have moved up, and generation i + 1 is vacant. */
  ghost predicate ShiftedAbove(was: Files, files: Files, i: nat, maxRotated: nat) {
    && i + 1 !in files
    && (forall g: nat :: g <= i || g > maxRotated ==> (g in files <==> g in was) && (g in files ==> files[g] == was[g]))
    && (forall g: nat :: i + 2 <= g <= maxRotated ==>
          (g in files <==> g - 1 in was) && (g in files ==> files[g] == was[g - 1]))
  }

  lemma ShiftBegins(was: Files, maxRotated: nat)
    requires maxRotated >= 1
    ensures ShiftedAbove(was, was - {maxRotated}, maxRotated - 1, maxRotated)
  {
  }

  lemma ShiftStep(was: Files, files: Files, i: nat, maxRotated: nat)
    requires 1 <= i < maxRotated && ShiftedAbove(was, files, i, maxRotated)
    ensures ShiftedAbove(was, Renamed(files, i, i + 1), i - 1, maxRotated)
  {
  }

  lemma ShiftEnds(was: Files, files: Files, maxRotated: nat)
    requires maxRotated >= 1 && ShiftedAbove(was, files, 0, maxRotated)
    ensures Renamed(files, 0, 1) == Rotated(was, maxRotated)
  {
    var r := Renamed(files, 0, 1);
    forall g: nat | g > 0
      ensures g in r <==> Source(g, maxRotated) in was
      ensures g in r ==> r[g] == was[Source(g, maxRotated)]
    {
      assert g == 1 || g > maxRotated || 2 <= g <= maxRotated;
    }
    RotatedOnly(was, r, maxRotated);
  }

  function OpenFile(s: Sink): Sink {
    var files := if 0 in s.files then s.files else s.files[0 := []];
    s.(files := files, isOpen := true, fileOffset := |files[0]|, epochs := s.epochs + [Epoch(files[0], [])])
  }

  function CloseFile(s: Sink): Sink {
    s.(isOpen := false, fileOffset := 0)
  }

  function UnmapRegion(s: Sink): Sink {
    s.(mapping := Unmapped, mmapOffset := 0)
  }

  function RotateFiles(geo: Geometry, s: Sink): Sink {
    s.(rotations := s.rotations + 1, files := Rotated(s.files, geo.maxRotated))
  }

  /** mmap maps only at page-aligned offsets (POSIX.1-2017, mmap(), EINVAL). */
  predicate MapSucceeds(geo: Geometry, os: nat -> MapAnswer, s: Sink)
    requires geo.Valid()
  {
    os(s.attempts) == Maps && s.fileOffset % geo.page == 0
  }

  function MapRegion(geo: Geometry, os: nat -> MapAnswer, s: Sink): Sink
    requires geo.Valid() && (s.isOpen ==> 0 in s.files)
  {
    if !s.isOpen then s
    else
      var s' := s.(attempts := s.attempts + 1);
      if os(s.attempts) == TruncateFails then s'
      else
        var grown := s'.(files := s.files[0 := Resize(s.files[0], s.fileOffset + geo.region)]);
        if MapSucceeds(geo, os, s) then grown.(mapping := MappedAt(s.fileOffset), mmapOffset := 0)
        else grown.(mapping := Unmapped)
  }

  /** The constructor. */
  function Create(geo: Geometry, os: nat -> MapAnswer, files: Files): Sink
    requires geo.Valid()
  {
    MapRegion(geo, os, OpenFile(Sink(files, false, Unmapped, 0, 0, 0, 0, 0, [])))
  }

  predicate Fits(geo: Geometry, s: Sink, len: nat) { s.mmapOffset + len <= geo.region }

  predicate Rotates(geo: Geometry, s: Sink, len: nat) { s.fileOffset + len > geo.maxFile }

  /** The sink that is about to map a new region because the next write does not fit. */
  function BeforeRemap(geo: Geometry, s: Sink, len: nat): (r: Sink)
    requires s.isOpen && 0 in s.files
    ensures r.isOpen && 0 in r.files
  {
    var unmapped := UnmapRegion(s);
    if Rotates(geo, s, len) then OpenFile(RotateFiles(geo, CloseFile(unmapped))) else unmapped
  }

  function LastEpoch(s: Sink): Epoch
    requires s.epochs != []
  {
    s.epochs[|s.epochs| - 1]
  }

  /** The fast path of write. */
  function Store(s: Sink, data: seq<Byte>): Sink
    requires s.mapping.MappedAt? && 0 in s.files && s.mapping.base + s.mmapOffset + |data| <= |s.files[0]|
    requires s.epochs != []
  {
    var last := LastEpoch(s);
    s.(files := s.files[0 := Overwrite(s.files[0], s.mapping.base + s.mmapOffset, data)],
       mmapOffset := s.mmapOffset + |data|,
       fileOffset := s.fileOffset + |data|,
       totalBytes := s.totalBytes + |data|,
       epochs := s.epochs[|s.epochs| - 1 := last.(written := last.written + data)])
  }

  // ---------------------------------------------------------------------------------------------
  // The invariant of the sink
  // ---------------------------------------------------------------------------------------------

  /** The file holds the epoch's bytes, followed by zeros. */
  ghost predicate Holds(f: seq<Byte>, e: Epoch) {
    && |e.before| + |e.written| <= |f|
    && f == e.before + e.written + Zeros(|f| - |e.before| - |e.written|)
  }

  /** A file opened empty is rotated before it grows past max_file_size plus one region. */
  predicate EpochBounded(geo: Geometry, e: Epoch) {
    e.before == [] ==> |e.written| <= geo.maxFile + geo.region
  }

  ghost predicate CurrentInv(geo: Geometry, s: Sink)
    requires geo.Valid()
  {
    && s.isOpen && 0 in s.files && s.epochs != []
    && s.fileOffset == |LastEpoch(s).before| + |LastEpoch(s).written|
    && Holds(s.files[0], LastEpoch(s))
    && |s.files[0]| <= s.fileOffset + geo.region
    && (s.mapping.MappedAt? ==>
          && s.mapping.base + s.mmapOffset == s.fileOffset && s.mmapOffset <= geo.region
          && s.mapping.base + geo.region == |s.files[0]|
          && s.mapping.base % geo.page == 0 && |LastEpoch(s).before| <= s.mapping.base
          && (LastEpoch(s).before == [] ==> s.mapping.base <= geo.maxFile))
    && EpochBounded(geo, LastEpoch(s))
  }

  ghost predicate OlderInv(geo: Geometry, s: Sink) {
    && s.rotations + 1 == |s.epochs|
    && (forall g :: 1 <= g < |s.epochs| && g <= geo.maxRotated ==>
          g in s.files && Holds(s.files[g], s.epochs[|s.epochs| - 1 - g]))
    && (forall i :: 0 <= i < |s.epochs| ==> EpochBounded(geo, s.epochs[i]))
    && (forall i :: 1 <= i < |s.epochs| ==> s.epochs[i].before == [])
  }

  ghost predicate SinkInv(geo: Geometry, s: Sink)
    requires geo.Valid()
  {
    CurrentInv(geo, s) && OlderInv(geo, s)
  }

  /** write: the new sink and the number of bytes it returns. */
  function Write(geo: Geometry, os: nat -> MapAnswer, s: Sink, data: seq<Byte>): (r: (Sink, nat))
    requires geo.Valid() && SinkInv(geo, s) && |data| <= geo.region
  {
    if data == [] || s.mapping.Unmapped? then (s, 0)
    else if Fits(geo, s, |data|) then (Store(s, data), |data|)
    else
      var mapped := MapRegion(geo, os, BeforeRemap(geo, s, |data|));
      if mapped.mapping.Unmapped? then (mapped, 0)
      else
        RemapKeeps(geo, os, s, |data|);
        (Store(mapped, data), |data|)
  }

  lemma OpenKeeps(geo: Geometry, s: Sink)
    requires geo.Valid() && s.epochs != [] && OlderInv(geo, s) && 0 in s.files && Holds(s.files[0], LastEpoch(s))
    ensures var s' := OpenFile(RotateFiles(geo, CloseFile(UnmapRegion(s)))); CurrentInv(geo, s') && OlderInv(geo, s')
    ensures OpenFile(RotateFiles(geo, CloseFile(UnmapRegion(s)))).fileOffset == 0
  {
    var s' := OpenFile(RotateFiles(geo, CloseFile(UnmapRegion(s))));
    assert LastEpoch(s') == Epoch([], []);
    OlderShift(geo, s, s');
  }

  lemma OlderShift(geo: Geometry, s: Sink, s': Sink)
    requires geo.Valid() && s.epochs != [] && OlderInv(geo, s) && 0 in s.files && Holds(s.files[0], LastEpoch(s))
    requires s'.epochs == s.epochs + [Epoch([], [])] && s'.rotations == s.rotations + 1
    requires forall g :: 1 <= g <= geo.maxRotated && g - 1 in s.files ==> g in s'.files && s'.files[g] == s.files[g - 1]
    ensures OlderInv(geo, s')
  {
    hide Holds;
    forall g | 1 <= g < |s'.epochs| && g <= geo.maxRotated
      ensures g in s'.files && Holds(s'.files[g], s'.epochs[|s'.epochs| - 1 - g])
    {
      assert s'.epochs[|s'.epochs| - 1 - g] == s.epochs[|s.epochs| - 1 - (g - 1)];
      assert g - 1 in s.files;
    }
  }

  /** Extending a file with zeros keeps what it holds. */
  lemma GrownHolds(f: seq<Byte>, e: Epoch, n: nat)
    requires Holds(f, e) && |f| <= n
    ensures Holds(Resize(f, n), e) && f <= Resize(f, n)
  {
    assert Resize(f, n) == f + Zeros(n - |f|);
    assert Resize(f, n) == e.before + e.written + Zeros(n - |e.before| - |e.written|);
  }

  /** The three ways an attempt to map can go: nothing happens, or the file is extended with zeros to the end of the
      region and then it is mapped there or not. */
  lemma MapOutcome(geo: Geometry, os: nat -> MapAnswer, s: Sink)
    requires geo.Valid() && s.isOpen && 0 in s.files && s.mapping.Unmapped?
    ensures var m, end := MapRegion(geo, os, s), s.fileOffset + geo.region;
            if os(s.attempts) == TruncateFails then m == s.(attempts := s.attempts + 1)
            else
              && 0 in m.files && m.files - {0} == s.files - {0} && |m.files[0]| == end
              && (forall i :: 0 <= i < end ==> m.files[0][i] == if i < |s.files[0]| then s.files[0][i] else 0)
              && m.mapping == (if os(s.attempts) == Maps && s.fileOffset % geo.page == 0 then MappedAt(s.fileOffset)
                               else Unmapped)
              && (m.mapping.MappedAt? ==> m.mmapOffset == 0)
              && m.fileOffset == s.fileOffset && m.rotations == s.rotations && m.totalBytes == s.totalBytes
  {
  }

  lemma MapKeeps(geo: Geometry, os: nat -> MapAnswer, s: Sink)
    requires geo.Valid() && SinkInv(geo, s) && s.mapping.Unmapped?
    requires LastEpoch(s).before == [] ==> s.fileOffset <= geo.maxFile
    ensures SinkInv(geo, MapRegion(geo, os, s))
    ensures MapRegion(geo, os, s).mapping
         == if os(s.attempts) == Maps && s.fileOffset % geo.page == 0 then MappedAt(s.fileOffset) else Unmapped
    ensures s.files[0] <= MapRegion(geo, os, s).files[0]
  {
    hide Holds;
    GrownHolds(s.files[0], LastEpoch(s), s.fileOffset + geo.region);
  }

  lemma RemapKeeps(geo: Geometry, os: nat -> MapAnswer, s: Sink, len: nat)
    requires geo.Valid() && SinkInv(geo, s) && s.mapping.MappedAt?
    ensures SinkInv(geo, BeforeRemap(geo, s, len))
    ensures BeforeRemap(geo, s, len).fileOffset == if s.fileOffset + len > geo.maxFile then 0 else s.fileOffset
    ensures SinkInv(geo, MapRegion(geo, os, BeforeRemap(geo, s, len)))
    ensures var base := if s.fileOffset + len > geo.maxFile then 0 else s.fileOffset;
            MapRegion(geo, os, BeforeRemap(geo, s, len)).mapping
            == if os(s.attempts) == Maps && base % geo.page == 0 then MappedAt(base) else Unmapped
  {
    if Rotates(geo, s, len) {
      OpenKeeps(geo, s);
    }
    MapKeeps(geo, os, BeforeRemap(geo, s, len));
  }
}
