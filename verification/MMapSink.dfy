/** The sink class: its fields, the calls that change the files, and the loop that rotates them. */
module MMapSink {
  import opened Bytes
  import opened SinkModel
  import opened SinkRuns

  class MMapSink {
    const geo: Geometry
    /** The system's answer to each attempt to extend the file and map the region. */
    const os: nat -> MapAnswer

    var files: Files
    var isOpen: bool
    var mapped: bool
    var mapBase: nat
    var mmapOffset: nat
    var fileOffset: nat
    var totalBytes: nat
    var rotations: nat
    var attempts: nat
    ghost var epochs: seq<Epoch>

    ghost function Model(): Sink
      reads this
    {
      Sink(files, isOpen, if mapped then MappedAt(mapBase) else Unmapped, mmapOffset, fileOffset,
           totalBytes, rotations, attempts, epochs)
    }

    ghost predicate Valid()
      reads this
    {
      geo.Valid() && SinkInv(geo, Model())
    }

    constructor (geo: Geometry, os: nat -> MapAnswer, files: Files)
      requires geo.Valid()
      ensures Valid() && this.geo == geo && this.os == os
      ensures Model() == Create(geo, os, files)
    {
      this.geo, this.os, this.files := geo, os, files;
      isOpen, mapped, mapBase, mmapOffset, fileOffset := false, false, 0, 0, 0;
      totalBytes, rotations, attempts, epochs := 0, 0, 0, [];
      new;
      OpenBase();
      MapNext();
      CreateKeeps(geo, os, files);
    }

    /** open with O_CREAT: an absent base file appears empty; writing starts at its end. */
    method OpenBase()
      modifies this`files, this`isOpen, this`fileOffset, this`epochs
      ensures Model() == OpenFile(old(Model()))
    {
      if 0 !in files {
        files := files[0 := []];
      }
      isOpen := true;
      fileOffset := |files[0]|;
      epochs := epochs + [Epoch(files[0], [])];
    }

    method CloseBase()
      modifies this`isOpen, this`fileOffset
      ensures Model() == CloseFile(old(Model()))
    {
      isOpen := false;
      fileOffset := 0;
    }

    method Unmap()
      modifies this`mapped, this`mmapOffset
      ensures Model() == UnmapRegion(old(Model()))
    {
      mapped := false;
      mmapOffset := 0;
    }

    /** Extend the base file to cover the next region, and map it. */
    method MapNext()
      requires geo.Valid() && (isOpen ==> 0 in files)
      modifies this`files, this`mapped, this`mapBase, this`mmapOffset, this`attempts
      ensures Model() == MapRegion(geo, os, old(Model()))
    {
      if !isOpen { return; }
      var answer := os(attempts);
      attempts := attempts + 1;
      if answer.TruncateFails? { return; }
      files := files[0 := Resize(files[0], fileOffset + geo.region)];
      if answer.MapFails? || fileOffset % geo.page != 0 {
        mapped := false;
        return;
      }
      mapped := true;
      mapBase := fileOffset;
      mmapOffset := 0;
    }

    method Unlink(g: nat)
      modifies this`files
      ensures files == old(files) - {g}
    {
      files := files - {g};
    }

    method Rename(from: nat, to: nat)
      requires from != to
      modifies this`files
      ensures files == Renamed(old(files), from, to)
    {
      if from in files {
        files := (files - {from})[to := files[from]];
      }
    }

    /** Every generation below the limit moves up by one, gaps included; only the oldest is lost. */
    method Rotate()
      requires geo.Valid()
      modifies this`files, this`rotations
      ensures Model() == RotateFiles(geo, old(Model()))
      ensures rotations == old(rotations) + 1 && ShiftedUp(old(files), files, geo.maxRotated)
    {
      hide ShiftedUp, ShiftedAbove, Rotated, Source;
      ghost var was := files;
      var max := geo.maxRotated;
      rotations := rotations + 1;
      Unlink(max);
      var i: nat := max - 1;
      ShiftBegins(was, max);
      while i >= 1
        invariant i <= max - 1 && rotations == old(rotations) + 1
        invariant ShiftedAbove(was, files, i, max)
      {
        ShiftStep(was, files, i, max);
        Rename(i, i + 1);
        i := i - 1;
      }
      ShiftEnds(was, files, max);
      RotatedShifts(was, max);
      Rename(0, 1);
    }

    /** The current region cannot take len more bytes: unmap it, rotate if the file is full, map the next. */
    method Remap(len: nat)
      requires Valid() && mapped
      modifies this
      ensures 0 in BeforeRemap(geo, old(Model()), len).files
      ensures Model() == MapRegion(geo, os, BeforeRemap(geo, old(Model()), len))
    {
      RemapKeeps(geo, os, Model(), len);
      Unmap();
      if fileOffset + len > geo.maxFile {
        CloseBase();
        Rotate();
        OpenBase();
      }
      MapNext();
    }

    /** memcpy into the mapped region. */
    method Copy(data: seq<Byte>)
      requires mapped && 0 in files && mapBase + mmapOffset + |data| <= |files[0]| && epochs != []
      modifies this`files, this`mmapOffset, this`fileOffset, this`totalBytes, this`epochs
      ensures Model() == Store(old(Model()), data)
    {
      files := files[0 := Overwrite(files[0], mapBase + mmapOffset, data)];
      mmapOffset := mmapOffset + |data|;
      fileOffset := fileOffset + |data|;
      totalBytes := totalBytes + |data|;
      ghost var last := epochs[|epochs| - 1];
      epochs := epochs[|epochs| - 1 := last.(written := last.written + data)];
    }

    /** Appends the data whole to the current region, remapping and rotating first if it does not fit;
        returns the number of bytes written, which is 0 when the data could not be written. */
    method Append(data: seq<Byte>) returns (n: nat)
      requires Valid() && |data| <= geo.region
      modifies this
      ensures Valid()
      ensures (Model(), n) == Write(geo, os, old(Model()), data)
      ensures n == 0 || n == |data|
    {
      ghost var was := Model();
      WriteKeeps(geo, os, was, data);
      if data == [] || !mapped {
        return 0;
      }
      if mmapOffset + |data| > geo.region {
        RemapKeeps(geo, os, was, |data|);
        Remap(|data|);
        if !mapped {
          return 0;
        }
      }
      Copy(data);
      n := |data|;
    }
  }
}
