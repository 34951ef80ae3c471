/** The sink in text mode: lines of any length up to a page, over regions of whole pages. */
module TextFill {
  import opened Bytes
  import opened RingIndex
  import opened SinkModel
  import opened SinkRuns

  predicate TextGeometry(geo: Geometry) {
    geo.Valid() && geo.region % geo.page == 0
  }

  ghost predicate AllLines(geo: Geometry, datas: seq<seq<Byte>>) {
    forall i :: 0 <= i < |datas| ==> 0 < |datas[i]| <= geo.page
  }

  lemma PageWithinRegion(geo: Geometry)
    requires TextGeometry(geo)
    ensures geo.page <= geo.region
  {
    if geo.region < geo.page { ModUnique(geo.region, 0, geo.page, geo.region); }
  }

  lemma ModOfSum(base: nat, off: nat, page: nat)
    requires page > 0 && base % page == 0
    ensures (base + off) % page == off % page
  {
    var b, r := DivMod(base, page);
    var o, r' := DivMod(off, page);
    assert (b + o) * page == b * page + o * page;
    ModUnique(base + off, b + o, page, r');
  }

  /** Near its end, an aligned region is at a page boundary only at its end. */
  lemma AlignedOnlyAtEnd(geo: Geometry, base: nat, off: nat, len: nat)
    requires TextGeometry(geo) && base % geo.page == 0 && off <= geo.region < off + len && len <= geo.page
    ensures (base + off) % geo.page == 0 <==> off == geo.region
  {
    ModOfSum(base, off, geo.page);
    if off < geo.region && off % geo.page == 0 {
      MultipleGap(off, geo.region, geo.page);
    }
  }

  /** The write is a line that overflows the region of a file that is not full. */
  predicate Overflows(geo: Geometry, s: Sink, data: seq<Byte>) {
    s.mapping.MappedAt? && !Fits(geo, s, |data|) && !Rotates(geo, s, |data|)
  }

  /** A line that overflows is accepted exactly when the lines before it fill the region to the byte. */
  lemma OverflowExactly(geo: Geometry, os: nat -> MapAnswer, s: Sink, data: seq<Byte>)
    requires TextGeometry(geo) && AllMap(os) && SinkInv(geo, s) && 0 < |data| <= geo.page && Overflows(geo, s, data)
    ensures |data| <= geo.region
    ensures Write(geo, os, s, data).1 == |data| <==> s.mmapOffset == geo.region
    ensures s.mmapOffset != geo.region ==> Write(geo, os, s, data).1 == 0 && Write(geo, os, s, data).0.mapping.Unmapped?
  {
    PageWithinRegion(geo);
    AlignedOnlyAtEnd(geo, s.mapping.base, s.mmapOffset, |data|);
    WriteAcceptsExactly(geo, os, s, data);
  }

  lemma LinesWritable(geo: Geometry, datas: seq<seq<Byte>>)
    requires TextGeometry(geo) && AllLines(geo, datas)
    ensures Writable(geo, datas)
  {
    PageWithinRegion(geo);
  }

  /** The sink takes the line: it fits the region, or the file rotates, or the region is exactly full. */
  predicate Kept(geo: Geometry, s: Sink, line: seq<Byte>) {
    Fits(geo, s, |line|) || Rotates(geo, s, |line|) || s.mmapOffset == geo.region
  }

  /** One line, in any region of any file. */
  lemma LineKeptExactly(geo: Geometry, os: nat -> MapAnswer, s: Sink, line: seq<Byte>)
    requires TextGeometry(geo) && AllMap(os) && SinkInv(geo, s) && s.mapping.MappedAt? && 0 < |line| <= geo.page
    ensures |line| <= geo.region
    ensures Taken(geo, os, s, line) == if Kept(geo, s, line) then [line] else []
    ensures Write(geo, os, s, line).0.mapping.MappedAt? <==> Kept(geo, s, line)
  {
    hide SinkInv, Write;
    PageWithinRegion(geo);
    WriteAcceptsExactly(geo, os, s, line);
    if Overflows(geo, s, line) { OverflowExactly(geo, os, s, line); }
  }

  /** The sink takes each line, in the state that the lines before it leave. */
  ghost predicate AllKept(geo: Geometry, os: nat -> MapAnswer, s: Sink, datas: seq<seq<Byte>>)
    requires geo.Valid() && SinkInv(geo, s) && Writable(geo, datas)
  {
    forall i :: 0 <= i < |datas| ==> Kept(geo, WriteAll(geo, os, s, datas[..i]), datas[i])
  }

  lemma AllKeptNext(geo: Geometry, os: nat -> MapAnswer, s: Sink, datas: seq<seq<Byte>>, last: seq<Byte>)
    requires geo.Valid() && SinkInv(geo, s) && Writable(geo, datas) && |last| <= geo.region
    ensures Writable(geo, datas + [last])
    ensures AllKept(geo, os, s, datas + [last])
       <==> AllKept(geo, os, s, datas) && Kept(geo, WriteAll(geo, os, s, datas), last)
  {
    hide SinkInv, WriteAll;
    var all := datas + [last];
    assert forall i :: 0 <= i < |datas| ==> all[..i] == datas[..i] && all[i] == datas[i];
    assert all[..|datas|] == datas && all[|datas|] == last;
  }

  lemma {:induction false} AcceptedShorter(geo: Geometry, os: nat -> MapAnswer, s: Sink, datas: seq<seq<Byte>>)
    requires geo.Valid() && SinkInv(geo, s) && Writable(geo, datas)
    ensures |Accepted(geo, os, s, datas)| <= |datas|
  {
    hide SinkInv;
    if datas != [] { AcceptedShorter(geo, os, s, datas[..|datas| - 1]); }
  }

  lemma OneMoreKept(accepted: seq<seq<Byte>>, front: seq<seq<Byte>>, taken: seq<seq<Byte>>, last: seq<Byte>)
    requires |accepted| <= |front| && (taken == [] || taken == [last])
    ensures accepted + taken == front + [last] <==> accepted == front && taken == [last]
  {
    if accepted + taken == front + [last] {
      assert accepted == (accepted + taken)[..|front|];
    }
  }

  /** Over any run of lines, from any mapped sink, through regions and rotations: all are accepted, and the sink stays
      mapped, exactly when each is kept. */
  lemma {:induction false} TextKeptExactly(geo: Geometry, os: nat -> MapAnswer, s: Sink, datas: seq<seq<Byte>>)
    requires TextGeometry(geo) && AllMap(os) && SinkInv(geo, s) && s.mapping.MappedAt?
    requires AllLines(geo, datas) && Writable(geo, datas)
    ensures Accepted(geo, os, s, datas) == datas <==> AllKept(geo, os, s, datas)
    ensures AllKept(geo, os, s, datas) ==> WriteAll(geo, os, s, datas).mapping.MappedAt?
  {
    hide SinkInv, Write, Taken, Kept;
    if datas != [] {
      var front, last := datas[..|datas| - 1], datas[|datas| - 1];
      assert datas == front + [last];
      TextKeptExactly(geo, os, s, front);
      AllKeptNext(geo, os, s, front, last);
      WriteAllNext(geo, os, s, front, last);
      AcceptedShorter(geo, os, s, front);
      var m := WriteAll(geo, os, s, front);
      if m.mapping.MappedAt? { LineKeptExactly(geo, os, m, last); }
      TakenOrNot(geo, os, m, last);
      OneMoreKept(Accepted(geo, os, s, front), front, Taken(geo, os, m, last), last);
    }
  }

  lemma TakenOrNot(geo: Geometry, os: nat -> MapAnswer, s: Sink, data: seq<Byte>)
    requires geo.Valid() && SinkInv(geo, s) && |data| <= geo.region
    ensures Taken(geo, os, s, data) == [] || Taken(geo, os, s, data) == [data]
  {
  }

  lemma LostAtOverflow(geo: Geometry, os: nat -> MapAnswer, m: Sink, line: seq<Byte>, later: seq<seq<Byte>>)
    requires TextGeometry(geo) && SinkInv(geo, m) && 0 < |line| <= geo.page && |line| <= geo.region
    requires Writable(geo, later)
    requires Overflows(geo, m, line) && m.mmapOffset != geo.region
    ensures Writable(geo, [line] + later) && Accepted(geo, os, m, [line] + later) == []
  {
    AlignedOnlyAtEnd(geo, m.mapping.base, m.mmapOffset, |line|);
    UnalignedRemapKills(geo, os, m, line, later);
  }

  /** Over any run of lines: a line that overflows a region that is not exactly full is lost, and so is every line
      after it. */
  lemma LostFromOverflow(geo: Geometry, os: nat -> MapAnswer, s: Sink, before: seq<seq<Byte>>, line: seq<Byte>,
                         later: seq<seq<Byte>>)
    requires TextGeometry(geo) && SinkInv(geo, s) && 0 < |line| <= geo.page && |line| <= geo.region
    requires Writable(geo, before) && Writable(geo, later)
    requires var m := WriteAll(geo, os, s, before); Overflows(geo, m, line) && m.mmapOffset != geo.region
    ensures Writable(geo, before + ([line] + later))
    ensures Accepted(geo, os, s, before + ([line] + later)) == Accepted(geo, os, s, before)
  {
    hide Accepted, WriteAll, SinkInv;
    var m := WriteAll(geo, os, s, before);
    LostAtOverflow(geo, os, m, line, later);
    AcceptedJoin(geo, os, s, before, [line] + later);
  }

  lemma KeptOnward(geo: Geometry, os: nat -> MapAnswer, s: Sink, before: seq<seq<Byte>>, line: seq<Byte>,
                   later: seq<seq<Byte>>)
    requires TextGeometry(geo) && AllMap(os) && SinkInv(geo, s) && 0 < |line| <= geo.page && |line| <= geo.region
    requires Writable(geo, before) && Writable(geo, later)
    requires var m := WriteAll(geo, os, s, before); m.mapping.MappedAt? && Kept(geo, m, line)
    ensures Writable(geo, before + [line] + later)
    ensures Accepted(geo, os, s, before) + [line] <= Accepted(geo, os, s, before + [line] + later)
  {
    hide Accepted, WriteAll, SinkInv, Write, Taken;
    LineKeptExactly(geo, os, WriteAll(geo, os, s, before), line);
    WriteAllNext(geo, os, s, before, line);
    AcceptedJoin(geo, os, s, before + [line], later);
  }

  /**
   The fate of a run of lines, from any mapped sink: the lines before the first that is not kept are accepted, and that
   one and all later lines are lost; so a line that is the first in doubt is decided by whether it is kept.
   */
  lemma TextLostExactly(geo: Geometry, os: nat -> MapAnswer, s: Sink, before: seq<seq<Byte>>, line: seq<Byte>,
                        later: seq<seq<Byte>>)
    requires TextGeometry(geo) && AllMap(os) && SinkInv(geo, s) && s.mapping.MappedAt?
    requires AllLines(geo, before) && 0 < |line| <= geo.page && AllLines(geo, later)
    requires Writable(geo, before) && AllKept(geo, os, s, before)
    ensures Writable(geo, before + [line] + later)
    ensures var accepted := Accepted(geo, os, s, before + [line] + later);
            if Kept(geo, WriteAll(geo, os, s, before), line) then before + [line] <= accepted else accepted == before
  {
    hide Accepted, WriteAll, SinkInv;
    PageWithinRegion(geo);
    LinesWritable(geo, later);
    TextKeptExactly(geo, os, s, before);
    if Kept(geo, WriteAll(geo, os, s, before), line) {
      KeptOnward(geo, os, s, before, line, later);
    } else {
      LostFromOverflow(geo, os, s, before, line, later);
      assert before + ([line] + later) == before + [line] + later;
    }
  }

  // ---------------------------------------------------------------------------------------------
  // By the lengths of the lines alone
  // ---------------------------------------------------------------------------------------------

  /** Where the next line goes, or nowhere any more. */
  datatype Place = Lost | At(inRegion: nat, inFile: nat)

  function NextPlace(geo: Geometry, p: Place, len: nat): Place {
    match p
    case Lost => Lost
    case At(r, f) =>
      if r + len <= geo.region then At(r + len, f + len)
      else if f + len > geo.maxFile then At(len, len)
      else if r == geo.region then At(len, f + len)
      else Lost
  }

  function PlaceAfter(geo: Geometry, p: Place, datas: seq<seq<Byte>>): Place {
    if datas == [] then p
    else NextPlace(geo, PlaceAfter(geo, p, datas[..|datas| - 1]), |datas[|datas| - 1]|)
  }

  predicate IsAt(s: Sink, p: Place) {
    match p
    case Lost => s.mapping.Unmapped?
    case At(r, f) => s.mapping.MappedAt? && s.mmapOffset == r && s.fileOffset == f
  }

  lemma LinePlaced(geo: Geometry, os: nat -> MapAnswer, s: Sink, p: Place, line: seq<Byte>)
    requires TextGeometry(geo) && AllMap(os) && SinkInv(geo, s) && IsAt(s, p) && 0 < |line| <= geo.page
    ensures |line| <= geo.region && IsAt(Write(geo, os, s, line).0, NextPlace(geo, p, |line|))
    ensures Taken(geo, os, s, line) == if NextPlace(geo, p, |line|).At? then [line] else []
  {
    PageWithinRegion(geo);
    if p.At? {
      LineKeptExactly(geo, os, s, line);
      if Kept(geo, s, line) && !Fits(geo, s, |line|) {
        RemapKeeps(geo, os, s, |line|);
      }
    }
  }

  /** What a caller can work out from the lengths of the lines: all are accepted exactly when the place is never
      lost. */
  lemma {:induction false} TextKeptByLengths(geo: Geometry, os: nat -> MapAnswer, s: Sink, p: Place,
                                             datas: seq<seq<Byte>>)
    requires TextGeometry(geo) && AllMap(os) && SinkInv(geo, s) && IsAt(s, p) && p.At?
    requires AllLines(geo, datas) && Writable(geo, datas)
    ensures IsAt(WriteAll(geo, os, s, datas), PlaceAfter(geo, p, datas))
    ensures Accepted(geo, os, s, datas) == datas <==> PlaceAfter(geo, p, datas).At?
  {
    hide SinkInv, Write, Taken;
    if datas != [] {
      var front, last := datas[..|datas| - 1], datas[|datas| - 1];
      assert datas == front + [last];
      TextKeptByLengths(geo, os, s, p, front);
      WriteAllNext(geo, os, s, front, last);
      AcceptedShorter(geo, os, s, front);
      var m := WriteAll(geo, os, s, front);
      LinePlaced(geo, os, m, PlaceAfter(geo, p, front), last);
      OneMoreKept(Accepted(geo, os, s, front), front, Taken(geo, os, m, last), last);
    }
  }

  /** The first line at which the place is lost is lost, with all later lines; until then all are accepted. */
  lemma PlaceDecides(geo: Geometry, os: nat -> MapAnswer, s: Sink, p: Place, before: seq<seq<Byte>>, line: seq<Byte>,
                     later: seq<seq<Byte>>)
    requires TextGeometry(geo) && AllMap(os) && SinkInv(geo, s) && IsAt(s, p) && p.At?
    requires AllLines(geo, before) && 0 < |line| <= geo.page && AllLines(geo, later)
    requires PlaceAfter(geo, p, before).At?
    ensures Writable(geo, before + [line] + later)
    ensures var accepted := Accepted(geo, os, s, before + [line] + later);
            if NextPlace(geo, PlaceAfter(geo, p, before), |line|).At? then before + [line] <= accepted
            else accepted == before
  {
    hide Accepted, WriteAll, SinkInv;
    LinesWritable(geo, before);
    TextKeptByLengths(geo, os, s, p, before);
    TextKeptExactly(geo, os, s, before);
    LinePlaced(geo, os, WriteAll(geo, os, s, before), PlaceAfter(geo, p, before), line);
    LineKeptExactly(geo, os, WriteAll(geo, os, s, before), line);
    TextLostExactly(geo, os, s, before, line, later);
  }

  // ---------------------------------------------------------------------------------------------
  // From an empty file
  // ---------------------------------------------------------------------------------------------

  /** The base file is in its first region, with this many bytes written. */
  ghost predicate InFirstRegion(geo: Geometry, s: Sink, written: nat)
    requires geo.Valid()
  {
    SinkInv(geo, s) && s.mapping == MappedAt(0) && s.mmapOffset == s.fileOffset == written && s.rotations == 0
  }

  lemma CreatedFirst(geo: Geometry, os: nat -> MapAnswer, files: Files)
    requires geo.Valid() && AllMap(os) && (0 in files ==> files[0] == [])
    ensures InFirstRegion(geo, Created(geo, os, files), 0)
  {
    CreateKeeps(geo, os, files);
    ModUnique(0, 0, geo.page, 0);
    MapKeeps(geo, os, OpenFile(Sink(files, false, Unmapped, 0, 0, 0, 0, 0, [])));
  }

  lemma FirstRegionStep(geo: Geometry, os: nat -> MapAnswer, s: Sink, data: seq<Byte>, written: nat)
    requires geo.Valid() && InFirstRegion(geo, s, written) && 0 < |data| && written + |data| <= geo.region
    ensures InFirstRegion(geo, Write(geo, os, s, data).0, written + |data|) && Taken(geo, os, s, data) == [data]
  {
    WriteKeeps(geo, os, s, data);
  }

  /** As long as the lines fit the first region, all are accepted. */
  lemma {:induction false} FirstRegionFills(geo: Geometry, os: nat -> MapAnswer, s: Sink, datas: seq<seq<Byte>>)
    requires TextGeometry(geo) && InFirstRegion(geo, s, 0) && AllLines(geo, datas) && Writable(geo, datas)
    requires |Concat(datas)| <= geo.region
    ensures InFirstRegion(geo, WriteAll(geo, os, s, datas), |Concat(datas)|) && Accepted(geo, os, s, datas) == datas
  {
    if datas != [] {
      var n := |datas| - 1;
      assert datas == datas[..n] + [datas[n]];
      FirstRegionFills(geo, os, s, datas[..n]);
      FirstRegionStep(geo, os, WriteAll(geo, os, s, datas[..n]), datas[n], |Concat(datas[..n])|);
      WriteAllNext(geo, os, s, datas[..n], datas[n]);
    }
  }

  /** The sink after the lines that the first region takes. */
  lemma BeforeOverflow(geo: Geometry, os: nat -> MapAnswer, files: Files, before: seq<seq<Byte>>, line: seq<Byte>)
    requires TextGeometry(geo) && AllMap(os) && (0 in files ==> files[0] == []) && AllLines(geo, before)
    requires |Concat(before)| <= geo.region < |Concat(before)| + |line| <= geo.maxFile
    ensures Writable(geo, before) && Accepted(geo, os, Created(geo, os, files), before) == before
    ensures var m := WriteAll(geo, os, Created(geo, os, files), before);
            Overflows(geo, m, line) && m.mmapOffset == |Concat(before)|
  {
    CreatedFirst(geo, os, files);
    LinesWritable(geo, before);
    FirstRegionFills(geo, os, Created(geo, os, files), before);
  }

  /**
   The fate of a text log that starts empty, when no call of the system fails: if a line is the first that the first
   region cannot take, and the file may be larger than that, then it and every later line are lost exactly when the
   lines before it do not fill the region to the byte.
   */
  lemma FirstRegionFate(geo: Geometry, os: nat -> MapAnswer, files: Files, before: seq<seq<Byte>>, line: seq<Byte>,
                        later: seq<seq<Byte>>)
    requires TextGeometry(geo) && AllMap(os) && (0 in files ==> files[0] == [])
    requires AllLines(geo, before) && 0 < |line| <= geo.page && AllLines(geo, later)
    requires |Concat(before)| <= geo.region < |Concat(before)| + |line| <= geo.maxFile
    ensures Writable(geo, before + [line] + later)
    ensures var accepted := Accepted(geo, os, Created(geo, os, files), before + [line] + later);
            if |Concat(before)| == geo.region then before + [line] <= accepted else accepted == before
  {
    hide Accepted, WriteAll, SinkInv;
    PageWithinRegion(geo);
    LinesWritable(geo, later);
    BeforeOverflow(geo, os, files, before, line);
    if |Concat(before)| == geo.region {
      KeptOnward(geo, os, Created(geo, os, files), before, line, later);
    } else {
      LostFromOverflow(geo, os, Created(geo, os, files), before, line, later);
      assert before + ([line] + later) == before + [line] + later;
    }
  }

  // ---------------------------------------------------------------------------------------------
  // Files of one region
  // ---------------------------------------------------------------------------------------------

  /** The base file is mapped from its start, and nothing is past the mapping. */
  ghost predicate AtStart(geo: Geometry, s: Sink)
    requires geo.Valid()
  {
    SinkInv(geo, s) && s.mapping == MappedAt(0) && s.mmapOffset == s.fileOffset
  }

  lemma AtStartStays(geo: Geometry, os: nat -> MapAnswer, s: Sink, data: seq<Byte>)
    requires geo.Valid() && geo.maxFile <= geo.region && AllMap(os) && AtStart(geo, s) && 0 < |data| <= geo.region
    ensures AtStart(geo, Write(geo, os, s, data).0) && Taken(geo, os, s, data) == [data]
  {
    WriteKeeps(geo, os, s, data);
    WriteAcceptsExactly(geo, os, s, data);
    if !Fits(geo, s, |data|) { RemapKeeps(geo, os, s, |data|); }
  }

  lemma {:induction false} AllAcceptedAtStart(geo: Geometry, os: nat -> MapAnswer, s: Sink, datas: seq<seq<Byte>>)
    requires geo.Valid() && geo.maxFile <= geo.region && AllMap(os) && AtStart(geo, s) && Writable(geo, datas)
    requires forall i :: 0 <= i < |datas| ==> datas[i] != []
    ensures AtStart(geo, WriteAll(geo, os, s, datas)) && Accepted(geo, os, s, datas) == datas
  {
    hide SinkInv, Write, Taken;
    if datas != [] {
      var front, last := datas[..|datas| - 1], datas[|datas| - 1];
      assert datas == front + [last];
      AllAcceptedAtStart(geo, os, s, front);
      WriteAllNext(geo, os, s, front, last);
      AtStartStays(geo, os, WriteAll(geo, os, s, front), last);
    }
  }

  /** What a caller can check before opening: if max_file_size_ is at most region_size_, the file starts empty and
      no call of the system fails, then every write of any run is accepted, whatever the lengths. */
  lemma OneRegionFilesLoseNothing(geo: Geometry, os: nat -> MapAnswer, files: Files, datas: seq<seq<Byte>>)
    requires geo.Valid() && geo.maxFile <= geo.region && AllMap(os) && (0 in files ==> files[0] == [])
    requires Writable(geo, datas) && forall i :: 0 <= i < |datas| ==> datas[i] != []
    ensures Accepted(geo, os, Created(geo, os, files), datas) == datas
  {
    CreatedFirst(geo, os, files);
    AllAcceptedAtStart(geo, os, Created(geo, os, files), datas);
  }
}
