/**
 Zeroing DT_FINI_ARRAYSZ in an ELF64 shared object (scripts/patch_nif_fini_array.py).
 Table layouts are those of the ELF header, the program header table and the dynamic
 section in chapters 4 and 5 of the System V gABI.
 */
module ElfPatch {

  type Byte = b: int | 0 <= b < 256

  const PT_DYNAMIC: nat := 2
  const DT_NULL: nat := 0
  const DT_FINI_ARRAYSZ: nat := 0x1C

  /** The unsigned integer some bytes stand for, in either byte order. */
  function Value(bytes: seq<Byte>, little: bool): nat {
    if bytes == [] then 0
    else if little then bytes[0] + 256 * Value(bytes[1..], little)
    else bytes[|bytes| - 1] + 256 * Value(bytes[..|bytes| - 1], little)
  }

  /** The n-byte unsigned integer at `off`. */
  function UInt(d: seq<Byte>, off: nat, n: nat, little: bool): nat
    requires off + n <= |d|
  {
    Value(d[off..off + n], little)
  }

  lemma UIntFrame(d: seq<Byte>, d': seq<Byte>, off: nat, n: nat, little: bool)
    requires off + n <= |d| == |d'| && forall k :: off <= k < off + n ==> d[k] == d'[k]
    ensures UInt(d, off, n, little) == UInt(d', off, n, little)
  {
    assert d[off..off + n] == d'[off..off + n];
  }

  lemma {:induction false} ValueZero(bytes: seq<Byte>, little: bool)
    ensures Value(bytes, little) == 0 <==> forall k :: 0 <= k < |bytes| ==> bytes[k] == 0
  {
    if bytes == [] {
    } else {
      var n := |bytes| - 1;
      ValueZero(if little then bytes[1..] else bytes[..n], little);
      assert bytes == if little then [bytes[0]] + bytes[1..] else bytes[..n] + [bytes[n]];
    }
  }

  lemma UIntZero(d: seq<Byte>, off: nat, n: nat, little: bool)
    requires off + n <= |d|
    ensures UInt(d, off, n, little) == 0 <==> forall k :: off <= k < off + n ==> d[k] == 0
  {
    var bytes := d[off..off + n];
    ValueZero(bytes, little);
    assert forall k :: off <= k < off + n ==> d[k] == bytes[k - off];
  }

  // The value is the one whose digits to base 256 are the bytes.

  function Pow256(n: nat): (p: nat)
    ensures p >= 1
  {
    if n == 0 then 1 else 256 * Pow256(n - 1)
  }

  lemma ScaledSum(a: nat, p: nat, x: nat)
    ensures 256 * (a + p * x) == 256 * a + (256 * p) * x
  {
  }

  /** Byte i of a little-endian value is its digit of weight 256^i: what comes before it is
      less than that weight (see ValueBound), and what comes after it a multiple of the next. */
  lemma {:induction false} LittleDigits(bytes: seq<Byte>, i: nat)
    requires i < |bytes|
    ensures Value(bytes, true)
            == Value(bytes[..i], true) + Pow256(i) * (bytes[i] + 256 * Value(bytes[i + 1..], true))
  {
    if i == 0 {
    } else {
      var tail := bytes[1..];
      LittleDigits(tail, i - 1);
      assert tail[..i - 1] == bytes[..i][1..] && tail[i - 1] == bytes[i] && tail[i..] == bytes[i + 1..];
      ScaledSum(Value(tail[..i - 1], true), Pow256(i - 1), bytes[i] + 256 * Value(bytes[i + 1..], true));
    }
  }

  lemma {:induction false} ValueBound(bytes: seq<Byte>, little: bool)
    ensures Value(bytes, little) < Pow256(|bytes|)
  {
    if bytes == [] {
    } else {
      ValueBound(if little then bytes[1..] else bytes[..|bytes| - 1], little);
    }
  }

  function Reversed(bytes: seq<Byte>): seq<Byte> {
    if bytes == [] then [] else [bytes[|bytes| - 1]] + Reversed(bytes[..|bytes| - 1])
  }

  /** A big-endian value is that of the bytes read backwards. */
  lemma {:induction false} BigIsLittleReversed(bytes: seq<Byte>)
    ensures Value(bytes, false) == Value(Reversed(bytes), true)
  {
    if bytes == [] {
    } else {
      BigIsLittleReversed(bytes[..|bytes| - 1]);
      assert Reversed(bytes)[1..] == Reversed(bytes[..|bytes| - 1]);
    }
  }

  // ----------------------------------------------------------- the two walks

  /** Where program header i starts. */
  function Base(phoff: nat, phentsize: nat, i: nat): nat { phoff + i * phentsize }

  datatype Segment = Dynamic(index: nat, offset: nat, filesz: nat) | NoSegment | SegmentCut

  /** Looks for the first PT_DYNAMIC program header, from index i on. */
  function FindDynamic(d: seq<Byte>, little: bool, phoff: nat, phentsize: nat, phnum: nat, i: nat): Segment
    decreases phnum - i
  {
    var base := Base(phoff, phentsize, i);
    if i >= phnum then NoSegment
    else if base + 4 > |d| then SegmentCut
    else if UInt(d, base, 4, little) != PT_DYNAMIC then FindDynamic(d, little, phoff, phentsize, phnum, i + 1)
    else if base + 0x28 > |d| then SegmentCut
    else Dynamic(i, UInt(d, base + 0x08, 8, little), UInt(d, base + 0x20, 8, little))
  }

  datatype Entry = ValueAt(pos: nat) | NoEntry | EntryCut

  /** Looks for DT_FINI_ARRAYSZ among the 16-byte entries from `off` to `end`, up to DT_NULL. */
  function FindEntry(d: seq<Byte>, little: bool, off: nat, end: nat): (e: Entry)
    ensures e.ValueAt? ==> off + 8 <= e.pos <= |d| - 8
    decreases end - off
  {
    if off >= end then NoEntry
    else if off + 8 > |d| then EntryCut
    else if UInt(d, off, 8, little) == DT_NULL then NoEntry
    else if UInt(d, off, 8, little) != DT_FINI_ARRAYSZ then FindEntry(d, little, off + 16, end)
    else if off + 16 > |d| then EntryCut
    else ValueAt(off + 8)
  }

  // ---------------------------------------------------------------- the patch

  /** `Raised` is Python's IndexError or struct.error on a file cut short. */
  datatype Outcome = NotElf | NotElf64 | NoDynamic | Raised | False | True

  predicate IsElf(d: seq<Byte>) { |d| >= 4 && d[..4] == [0x7f, 0x45, 0x4c, 0x46] }

  predicate Little(d: seq<Byte>)
    requires |d| >= 6
  {
    d[5] == 1
  }

  function Phoff(d: seq<Byte>): nat
    requires |d| >= 0x3A
  {
    UInt(d, 0x20, 8, Little(d))
  }

  function Phentsize(d: seq<Byte>): nat
    requires |d| >= 0x3A
  {
    UInt(d, 0x36, 2, Little(d))
  }

  function Phnum(d: seq<Byte>): nat
    requires |d| >= 0x3A
  {
    UInt(d, 0x38, 2, Little(d))
  }

  function HeaderAt(d: seq<Byte>, i: nat): nat
    requires |d| >= 0x3A
  {
    Base(Phoff(d), Phentsize(d), i)
  }

  function SegmentOf(d: seq<Byte>): Segment
    requires |d| >= 0x3A
  {
    FindDynamic(d, Little(d), Phoff(d), Phentsize(d), Phnum(d), 0)
  }

  function EntryIn(d: seq<Byte>, little: bool, seg: Segment): (e: Entry)
    ensures e.ValueAt? ==> 8 <= e.pos <= |d| - 8
  {
    match seg
    case Dynamic(_, offset, filesz) => FindEntry(d, little, offset, offset + filesz)
    case NoSegment => NoEntry
    case SegmentCut => EntryCut
  }

  function EntryOf(d: seq<Byte>): (e: Entry)
    requires |d| >= 0x3A
    ensures e.ValueAt? ==> 8 <= e.pos <= |d| - 8
  {
    EntryIn(d, Little(d), SegmentOf(d))
  }

  function ValueOf(d: seq<Byte>, pos: nat): nat
    requires |d| >= 0x3A && pos + 8 <= |d|
  {
    UInt(d, pos, 8, Little(d))
  }

  /** What the two walks come to. */
  function TablesVerdict(d: seq<Byte>): Outcome
    requires |d| >= 0x3A
  {
    if SegmentOf(d).NoSegment? then NoDynamic
    else match EntryOf(d)
      case EntryCut => Raised
      case NoEntry => False
      case ValueAt(pos) => if ValueOf(d, pos) == 0 then False else True
  }

  function Verdict(d: seq<Byte>): Outcome {
    if !IsElf(d) then NotElf
    else if |d| < 5 then Raised
    else if d[4] != 2 then NotElf64
    else if |d| < 0x3A then Raised
    else TablesVerdict(d)
  }

  function Zeroed(d: seq<Byte>, pos: nat): (r: seq<Byte>)
    requires pos + 8 <= |d|
    ensures |r| == |d|
  {
    d[..pos] + [0, 0, 0, 0, 0, 0, 0, 0] + d[pos + 8..]
  }

  /** The file after the run. */
  function Rewritten(d: seq<Byte>): seq<Byte> {
    if Verdict(d) == True then Zeroed(d, EntryOf(d).pos) else d
  }

  /** The script's own run over the file's bytes, in place. */
  method Patch(data: array<Byte>) returns (r: Outcome)
    modifies data
    ensures r == Verdict(old(data[..]))
    ensures data[..] == Rewritten(old(data[..]))
  {
    if data.Length < 4 || data[..4] != [0x7f, 0x45, 0x4c, 0x46] {
      return NotElf;
    }
    if data.Length < 5 { return Raised; }
    if data[4] != 2 { return NotElf64; }
    if data.Length < 0x3A { return Raised; }
    r := PatchTables(data);
  }

  /** The part of the run that reads the tables. */
  method PatchTables(data: array<Byte>) returns (r: Outcome)
    requires data.Length >= 0x3A
    modifies data
    ensures r == TablesVerdict(old(data[..]))
    ensures data[..] == if r == True then Zeroed(old(data[..]), EntryOf(old(data[..])).pos) else old(data[..])
  {
    var little := data[5] == 1;
    var segment := WalkProgramHeaders(data, little, UInt(data[..], 0x20, 8, little), UInt(data[..], 0x36, 2, little),
                                      UInt(data[..], 0x38, 2, little));
    assert segment == SegmentOf(data[..]);
    if segment.NoSegment? { return NoDynamic; }
    if segment.SegmentCut? { return Raised; }
    var entry := WalkDynamic(data, little, segment.offset, segment.filesz);
    assert entry == EntryOf(data[..]);
    if entry.EntryCut? { return Raised; }
    if entry.NoEntry? { return False; }
    if UInt(data[..], entry.pos, 8, little) == 0 { return False; }
    ZeroInPlace(data, entry.pos);
    return True;
  }

  method WalkProgramHeaders(data: array<Byte>, little: bool, phoff: nat, phentsize: nat, phnum: nat)
    returns (r: Segment)
    ensures r == FindDynamic(data[..], little, phoff, phentsize, phnum, 0)
  {
    for i := 0 to phnum
      invariant FindDynamic(data[..], little, phoff, phentsize, phnum, 0)
                == FindDynamic(data[..], little, phoff, phentsize, phnum, i)
    {
      var base := Base(phoff, phentsize, i);
      if base + 4 > data.Length { return SegmentCut; }
      if UInt(data[..], base, 4, little) == PT_DYNAMIC {
        if base + 0x28 > data.Length { return SegmentCut; }
        return Dynamic(i, UInt(data[..], base + 0x08, 8, little), UInt(data[..], base + 0x20, 8, little));
      }
    }
    return NoSegment;
  }

  method WalkDynamic(data: array<Byte>, little: bool, offset: nat, filesz: nat) returns (r: Entry)
    ensures r == FindEntry(data[..], little, offset, offset + filesz)
  {
    var off := offset;
    while off < offset + filesz
      invariant FindEntry(data[..], little, offset, offset + filesz)
                == FindEntry(data[..], little, off, offset + filesz)
      decreases offset + filesz - off
    {
      if off + 8 > data.Length { return EntryCut; }
      var tag := UInt(data[..], off, 8, little);
      if tag == DT_NULL { return NoEntry; }
      if tag == DT_FINI_ARRAYSZ {
        return if off + 16 > data.Length then EntryCut else ValueAt(off + 8);
      }
      off := off + 16;
    }
    return NoEntry;
  }

  method ZeroInPlace(data: array<Byte>, pos: nat)
    requires pos + 8 <= data.Length
    modifies data
    ensures data[..] == Zeroed(old(data[..]), pos)
  {
    for k := 0 to 8
      invariant forall j :: 0 <= j < data.Length ==>
                  data[j] == if pos <= j < pos + k then 0 else old(data[j])
    {
      data[pos + k] := 0;
    }
  }

  // ------------------------------------------------------------------ theorems

  lemma ZeroedTouchesOnlyTheValue(d: seq<Byte>, pos: nat, little: bool)
    requires pos + 8 <= |d|
    ensures var d' := Zeroed(d, pos);
            && UInt(d', pos, 8, little) == 0 && (UInt(d, pos, 8, little) != 0 ==> d' != d)
            && (forall k :: pos <= k < pos + 8 ==> d'[k] == 0)
            && (forall k :: 0 <= k < |d| && !(pos <= k < pos + 8) ==> d'[k] == d[k])
  {
    UIntZero(Zeroed(d, pos), pos, 8, little);
  }

  /** The file keeps its length; it changes exactly when the run returns true; and then only
      within the eight value bytes of the entry found, which read zero afterwards. */
  lemma PatchTouchesOnlyTheValue(d: seq<Byte>)
    ensures var d' := Rewritten(d);
            && |d'| == |d|
            && (Verdict(d) == True <==> d' != d)
            && (Verdict(d) == True ==>
                  && |d| >= 0x3A && EntryOf(d).ValueAt?
                  && UInt(d', EntryOf(d).pos, 8, Little(d)) == 0
                  && forall k :: 0 <= k < |d| && !(EntryOf(d).pos <= k < EntryOf(d).pos + 8) ==> d'[k] == d[k])
  {
    if Verdict(d) == True {
      ZeroedTouchesOnlyTheValue(d, EntryOf(d).pos, Little(d));
    }
  }

  /** The program header at `base` is whole enough to be passed over, and is. */
  predicate PassedOver(d: seq<Byte>, little: bool, base: nat) {
    base + 4 <= |d| && UInt(d, base, 4, little) != PT_DYNAMIC
  }

  lemma {:induction false} DynamicIsFirst(d: seq<Byte>, little: bool, phoff: nat, phentsize: nat, phnum: nat, i: nat)
    ensures var r := FindDynamic(d, little, phoff, phentsize, phnum, i);
            r.Dynamic? ==>
              && i <= r.index < phnum && Base(phoff, phentsize, r.index) + 0x28 <= |d|
              && UInt(d, Base(phoff, phentsize, r.index), 4, little) == PT_DYNAMIC
              && r.offset == UInt(d, Base(phoff, phentsize, r.index) + 0x08, 8, little)
              && r.filesz == UInt(d, Base(phoff, phentsize, r.index) + 0x20, 8, little)
              && forall j :: i <= j < r.index ==> PassedOver(d, little, Base(phoff, phentsize, j))
    decreases phnum - i
  {
    if i >= phnum {
    } else {
      DynamicIsFirst(d, little, phoff, phentsize, phnum, i + 1);
    }
  }

  /** The m-th dynamic entry from `off` is there and ends neither the section nor the search. */
  predicate Skipped(d: seq<Byte>, little: bool, off: nat, m: nat) {
    off + 16 * m + 8 <= |d| && UInt(d, off + 16 * m, 8, little) !in {DT_NULL, DT_FINI_ARRAYSZ}
  }

  lemma SkippedShift(d: seq<Byte>, little: bool, off: nat, m: nat)
    requires Skipped(d, little, off + 16, m)
    ensures Skipped(d, little, off, m + 1)
  {
    assert off + 16 + 16 * m == off + 16 * (m + 1);
  }

  lemma {:induction false} EntryIsFirst(d: seq<Byte>, little: bool, off: nat, end: nat) returns (m: nat)
    requires FindEntry(d, little, off, end).ValueAt?
    ensures FindEntry(d, little, off, end).pos == off + 16 * m + 8 && off + 16 * m < end
    ensures UInt(d, off + 16 * m, 8, little) == DT_FINI_ARRAYSZ
    ensures forall j :: 0 <= j < m ==> Skipped(d, little, off, j)
    decreases end - off
  {
    if UInt(d, off, 8, little) == DT_FINI_ARRAYSZ {
      m := 0;
    } else {
      var n := EntryIsFirst(d, little, off + 16, end);
      m := n + 1;
      assert off + 16 + 16 * n == off + 16 * m;
      forall j | 0 <= j < m
        ensures Skipped(d, little, off, j)
      {
        if j > 0 { SkippedShift(d, little, off, j - 1); }
      }
    }
  }

  lemma SegmentIsFirst(d: seq<Byte>, seg: Segment, little: bool)
    requires |d| >= 0x3A && seg == SegmentOf(d) && little == Little(d) && seg.Dynamic?
    ensures seg.index < Phnum(d) && HeaderAt(d, seg.index) + 0x28 <= |d|
    ensures UInt(d, HeaderAt(d, seg.index), 4, little) == PT_DYNAMIC
    ensures seg.offset == UInt(d, HeaderAt(d, seg.index) + 0x08, 8, little)
    ensures seg.filesz == UInt(d, HeaderAt(d, seg.index) + 0x20, 8, little)
    ensures forall j :: 0 <= j < seg.index ==> PassedOver(d, little, HeaderAt(d, j))
  {
    DynamicIsFirst(d, little, Phoff(d), Phentsize(d), Phnum(d), 0);
  }

  /** The entry patched is the first DT_FINI_ARRAYSZ, with no DT_NULL before it, of the first
      PT_DYNAMIC segment. */
  lemma PatchedEntryIsTheFirst(d: seq<Byte>, seg: Segment, little: bool) returns (m: nat)
    requires Verdict(d) == True && seg == SegmentOf(d) && little == Little(d)
    ensures seg.Dynamic? && seg.index < Phnum(d) && HeaderAt(d, seg.index) + 0x28 <= |d|
    ensures UInt(d, HeaderAt(d, seg.index), 4, little) == PT_DYNAMIC
    ensures seg.offset == UInt(d, HeaderAt(d, seg.index) + 0x08, 8, little)
    ensures seg.filesz == UInt(d, HeaderAt(d, seg.index) + 0x20, 8, little)
    ensures forall j :: 0 <= j < seg.index ==> PassedOver(d, little, HeaderAt(d, j))
    ensures EntryOf(d).pos == seg.offset + 16 * m + 8 && 16 * m < seg.filesz
    ensures UInt(d, seg.offset + 16 * m, 8, little) == DT_FINI_ARRAYSZ
    ensures forall j :: 0 <= j < m ==> Skipped(d, little, seg.offset, j)
  {
    SegmentIsFirst(d, seg, little);
    m := EntryIsFirst(d, little, seg.offset, seg.offset + seg.filesz);
  }

  // ------------------------------------------------- what each verdict means

  predicate Elf64(d: seq<Byte>) { |d| >= 0x3A && d[..4] == [0x7f, 0x45, 0x4c, 0x46] && d[4] == 2 }

  /** Where program header i starts: e_phoff and i times e_phentsize. */
  function Place(d: seq<Byte>, i: nat): nat
    requires |d| >= 0x3A
  {
    UInt(d, 0x20, 8, d[5] == 1) + i * UInt(d, 0x36, 2, d[5] == 1)
  }

  /** Program header n, of e_phnum, is the first of type PT_DYNAMIC; those before it are
      within the file. */
  predicate FirstDynamic(d: seq<Byte>, n: nat)
    requires |d| >= 0x3A
  {
    && n < UInt(d, 0x38, 2, d[5] == 1)
    && Place(d, n) + 4 <= |d| && UInt(d, Place(d, n), 4, d[5] == 1) == PT_DYNAMIC
    && forall j :: 0 <= j < n ==> PassedOver(d, d[5] == 1, Place(d, j))
  }

  lemma PlaceIsHeaderAt(d: seq<Byte>)
    requires |d| >= 0x3A
    ensures UInt(d, 0x38, 2, d[5] == 1) == Phnum(d) && Little(d) == (d[5] == 1)
    ensures forall j: nat :: Place(d, j) == HeaderAt(d, j)
    ensures forall j: nat :: Place(d, j) == Base(Phoff(d), Phentsize(d), j)
  {
  }

  /** Entry m of the dynamic section is reached, and its tag is within the file. */
  predicate Reached(d: seq<Byte>, little: bool, offset: nat, filesz: nat, m: nat) {
    16 * m < filesz && offset + 16 * m + 8 <= |d| && forall j :: 0 <= j < m ==> Skipped(d, little, offset, j)
  }

  /** ... and it is DT_FINI_ARRAYSZ, with its value within the file. */
  predicate Found(d: seq<Byte>, little: bool, offset: nat, filesz: nat, m: nat) {
    && Reached(d, little, offset, filesz, m) && offset + 16 * m + 16 <= |d|
    && UInt(d, offset + 16 * m, 8, little) == DT_FINI_ARRAYSZ
  }

  /** ... or it is DT_NULL. */
  predicate Closes(d: seq<Byte>, little: bool, offset: nat, filesz: nat, m: nat) {
    Reached(d, little, offset, filesz, m) && UInt(d, offset + 16 * m, 8, little) == DT_NULL
  }

  ghost predicate AllSkipped(d: seq<Byte>, little: bool, offset: nat, filesz: nat) {
    forall j :: 0 <= j && 16 * j < filesz ==> Skipped(d, little, offset, j)
  }

  lemma {:induction false} HeadersPass(d: seq<Byte>, little: bool, phoff: nat, phentsize: nat, phnum: nat, n: nat)
    requires n <= phnum && forall j :: 0 <= j < n ==> PassedOver(d, little, Base(phoff, phentsize, j))
    ensures FindDynamic(d, little, phoff, phentsize, phnum, 0) == FindDynamic(d, little, phoff, phentsize, phnum, n)
  {
    if n == 0 {
    } else {
      HeadersPass(d, little, phoff, phentsize, phnum, n - 1);
      assert PassedOver(d, little, Base(phoff, phentsize, n - 1));
    }
  }

  lemma {:induction false} AllHeadersPassed(d: seq<Byte>, little: bool, phoff: nat, phentsize: nat,
                                            phnum: nat, i: nat, j: nat)
    requires FindDynamic(d, little, phoff, phentsize, phnum, i).NoSegment? && i <= j < phnum
    ensures PassedOver(d, little, Base(phoff, phentsize, j))
    decreases phnum - i
  {
    if i == j {
    } else {
      AllHeadersPassed(d, little, phoff, phentsize, phnum, i + 1, j);
    }
  }

  lemma {:induction false} EntriesPass(d: seq<Byte>, little: bool, offset: nat, end: nat, m: nat)
    requires forall j :: 0 <= j < m ==> Skipped(d, little, offset, j) && offset + 16 * j < end
    ensures FindEntry(d, little, offset, end) == FindEntry(d, little, offset + 16 * m, end)
  {
    if m == 0 {
    } else {
      EntriesPass(d, little, offset, end, m - 1);
      assert Skipped(d, little, offset, m - 1);
      assert offset + 16 * (m - 1) + 16 == offset + 16 * m;
    }
  }

  /** A walk that finds nothing ended at DT_NULL or at the end of the section. */
  lemma {:induction false} NothingFound(d: seq<Byte>, little: bool, off: nat, end: nat) returns (m: nat)
    requires FindEntry(d, little, off, end).NoEntry?
    ensures forall j :: 0 <= j < m ==> Skipped(d, little, off, j)
    ensures off + 16 * m < end ==> off + 16 * m + 8 <= |d| && UInt(d, off + 16 * m, 8, little) == DT_NULL
    decreases end - off
  {
    if off >= end || UInt(d, off, 8, little) == DT_NULL {
      m := 0;
    } else {
      var n := NothingFound(d, little, off + 16, end);
      m := n + 1;
      assert off + 16 + 16 * n == off + 16 * m;
      forall j | 0 <= j < m
        ensures Skipped(d, little, off, j)
      {
        if j > 0 { SkippedShift(d, little, off, j - 1); }
      }
    }
  }

  lemma {:induction false} FoundExactly(d: seq<Byte>, little: bool, offset: nat, filesz: nat, pos: nat)
    ensures FindEntry(d, little, offset, offset + filesz) == ValueAt(pos)
            <==> exists m: nat :: Found(d, little, offset, filesz, m) && pos == offset + 16 * m + 8
  {
    if FindEntry(d, little, offset, offset + filesz) == ValueAt(pos) {
      var m := EntryIsFirst(d, little, offset, offset + filesz);
      assert Found(d, little, offset, filesz, m);
    }
    if m: nat :| Found(d, little, offset, filesz, m) && pos == offset + 16 * m + 8 {
      EntriesPass(d, little, offset, offset + filesz, m);
    }
  }

  lemma {:induction false} NotFoundExactly(d: seq<Byte>, little: bool, offset: nat, filesz: nat)
    ensures FindEntry(d, little, offset, offset + filesz) == NoEntry
            <==> AllSkipped(d, little, offset, filesz) || exists m: nat :: Closes(d, little, offset, filesz, m)
  {
    if FindEntry(d, little, offset, offset + filesz) == NoEntry {
      var m := NothingFound(d, little, offset, offset + filesz);
      if 16 * m < filesz { assert Closes(d, little, offset, filesz, m); }
    }
    if AllSkipped(d, little, offset, filesz) {
      var n := (filesz + 15) / 16;
      EntriesPass(d, little, offset, offset + filesz, n);
    } else if m: nat :| Closes(d, little, offset, filesz, m) {
      EntriesPass(d, little, offset, offset + filesz, m);
    }
  }

  /** A file is refused for its first bytes exactly when they are not those of ELF, or the
      class byte is there and is not that of ELF64. */
  lemma RefusedExactly(d: seq<Byte>)
    ensures Verdict(d) == NotElf <==> |d| < 4 || d[..4] != [0x7f, 0x45, 0x4c, 0x46]
    ensures Verdict(d) == NotElf64 <==> |d| >= 5 && d[..4] == [0x7f, 0x45, 0x4c, 0x46] && d[4] != 2
  {
  }

  /** An ELF64 file has no dynamic segment exactly when every program header is within the
      file and none is PT_DYNAMIC. */
  lemma {:induction false} NoDynamicExactly(d: seq<Byte>)
    requires Elf64(d)
    ensures Verdict(d) == NoDynamic
            <==> forall j :: 0 <= j < UInt(d, 0x38, 2, d[5] == 1) ==> PassedOver(d, d[5] == 1, Place(d, j))
  {
    PlaceIsHeaderAt(d);
    if SegmentOf(d).NoSegment? {
      forall j | 0 <= j < Phnum(d)
        ensures PassedOver(d, d[5] == 1, Place(d, j))
      {
        AllHeadersPassed(d, Little(d), Phoff(d), Phentsize(d), Phnum(d), 0, j);
      }
    }
    if forall j :: 0 <= j < Phnum(d) ==> PassedOver(d, d[5] == 1, Place(d, j)) {
      assert forall j: nat :: Base(Phoff(d), Phentsize(d), j) == Place(d, j);
      HeadersPass(d, Little(d), Phoff(d), Phentsize(d), Phnum(d), Phnum(d));
    }
  }

  lemma {:induction false} SegmentOfFirst(d: seq<Byte>, n: nat)
    requires Elf64(d) && FirstDynamic(d, n) && Place(d, n) + 0x28 <= |d|
    ensures SegmentOf(d) == Dynamic(n, UInt(d, Place(d, n) + 0x08, 8, d[5] == 1),
                                    UInt(d, Place(d, n) + 0x20, 8, d[5] == 1))
  {
    PlaceIsHeaderAt(d);
    assert forall j: nat :: Base(Phoff(d), Phentsize(d), j) == Place(d, j);
    HeadersPass(d, Little(d), Phoff(d), Phentsize(d), Phnum(d), n);
  }

  /** For an ELF64 file whose first PT_DYNAMIC header is n and lies within the file: the run
      returns true exactly when the walk over the section that header names reaches an entry
      DT_FINI_ARRAYSZ with a nonzero value; it returns false exactly when it reaches one with
      a zero value, or DT_NULL, or passes over them all. */
  lemma {:induction false} VerdictExactly(d: seq<Byte>, n: nat, offset: nat, filesz: nat, little: bool)
    requires Elf64(d) && FirstDynamic(d, n) && Place(d, n) + 0x28 <= |d| && little == (d[5] == 1)
    requires offset == UInt(d, Place(d, n) + 0x08, 8, little) && filesz == UInt(d, Place(d, n) + 0x20, 8, little)
    ensures Verdict(d) == True
            <==> exists m: nat :: Found(d, little, offset, filesz, m) && UInt(d, offset + 16 * m + 8, 8, little) != 0
    ensures Verdict(d) == False
            <==> || (exists m: nat ::
                       Found(d, little, offset, filesz, m) && UInt(d, offset + 16 * m + 8, 8, little) == 0)
                 || (exists m: nat :: Closes(d, little, offset, filesz, m))
                 || AllSkipped(d, little, offset, filesz)
  {
    SegmentOfFirst(d, n);
    var e := FindEntry(d, little, offset, offset + filesz);
    assert EntryOf(d) == e;
    NotFoundExactly(d, little, offset, filesz);
    if e.ValueAt? { FoundExactly(d, little, offset, filesz, e.pos); }
    forall m: nat | Found(d, little, offset, filesz, m)
      ensures e == ValueAt(offset + 16 * m + 8)
    {
      FoundExactly(d, little, offset, filesz, offset + 16 * m + 8);
    }
  }

  /** Byte k is read on the way to the dynamic section: in the ELF header, in the type of a
      program header up to the one found, or in that one's offset and size. */
  ghost predicate OnTheWay(d: seq<Byte>, k: nat)
    requires |d| >= 0x3A && SegmentOf(d).Dynamic?
  {
    || k < 6 || 0x20 <= k < 0x28 || 0x36 <= k < 0x3A
    || (exists i :: 0 <= i <= SegmentOf(d).index && InType(HeaderAt(d, i), k))
    || (var base := HeaderAt(d, SegmentOf(d).index);
        base + 0x08 <= k < base + 0x10 || base + 0x20 <= k < base + 0x28)
  }

  predicate InType(base: nat, k: nat) { base <= k < base + 4 }

  /** The two files agree on n bytes from lo. */
  predicate Same(d: seq<Byte>, d': seq<Byte>, lo: nat, n: nat)
    requires |d| == |d'|
  {
    forall k :: lo <= k < lo + n && k < |d| ==> d[k] == d'[k]
  }

  lemma {:induction false} DynamicFrame(d: seq<Byte>, d': seq<Byte>, little: bool, phoff: nat,
                                        phentsize: nat, phnum: nat, i: nat, r: Segment)
    requires |d| == |d'| && r == FindDynamic(d, little, phoff, phentsize, phnum, i) && r.Dynamic?
    requires forall j :: i <= j <= r.index ==> Same(d, d', Base(phoff, phentsize, j), 4)
    requires Same(d, d', Base(phoff, phentsize, r.index) + 0x08, 8)
    requires Same(d, d', Base(phoff, phentsize, r.index) + 0x20, 8)
    ensures FindDynamic(d', little, phoff, phentsize, phnum, i) == r
    decreases phnum - i
  {
    var base := Base(phoff, phentsize, i);
    DynamicIsFirst(d, little, phoff, phentsize, phnum, i);
    assert Same(d, d', base, 4);
    UIntFrame(d, d', base, 4, little);
    if UInt(d, base, 4, little) == PT_DYNAMIC {
      UIntFrame(d, d', base + 0x08, 8, little);
      UIntFrame(d, d', base + 0x20, 8, little);
    } else {
      DynamicFrame(d, d', little, phoff, phentsize, phnum, i + 1, r);
    }
  }

  /** Rewriting an entry's value moves no tag the walk looks at. */
  lemma {:induction false} EntryFrame(d: seq<Byte>, d': seq<Byte>, little: bool, off: nat, end: nat)
    requires FindEntry(d, little, off, end).ValueAt? && |d| == |d'|
    requires forall k :: off <= k < FindEntry(d, little, off, end).pos ==> d[k] == d'[k]
    ensures FindEntry(d', little, off, end) == FindEntry(d, little, off, end)
    decreases end - off
  {
    UIntFrame(d, d', off, 8, little);
    if UInt(d, off, 8, little) == DT_FINI_ARRAYSZ {
    } else {
      EntryFrame(d, d', little, off + 16, end);
    }
  }

  ghost predicate SameOnTheWay(d: seq<Byte>, d': seq<Byte>)
    requires |d| >= 0x3A && SegmentOf(d).Dynamic?
  {
    |d| == |d'| && forall k :: 0 <= k < |d| && OnTheWay(d, k) ==> d[k] == d'[k]
  }

  lemma {:induction false} HeaderFrame(d: seq<Byte>, d': seq<Byte>)
    requires |d| >= 0x3A && SegmentOf(d).Dynamic? && SameOnTheWay(d, d')
    ensures d'[..6] == d[..6] && Little(d') == Little(d)
    ensures Phoff(d') == Phoff(d) && Phentsize(d') == Phentsize(d) && Phnum(d') == Phnum(d)
  {
    UIntFrame(d, d', 0x20, 8, Little(d));
    UIntFrame(d, d', 0x36, 2, Little(d));
    UIntFrame(d, d', 0x38, 2, Little(d));
  }

  lemma {:induction false} TypeFrame(d: seq<Byte>, d': seq<Byte>, j: nat)
    requires |d| >= 0x3A && SegmentOf(d).Dynamic? && SameOnTheWay(d, d') && j <= SegmentOf(d).index
    ensures Same(d, d', HeaderAt(d, j), 4)
  {
    forall k | HeaderAt(d, j) <= k < HeaderAt(d, j) + 4 && k < |d|
      ensures d[k] == d'[k]
    {
      assert InType(HeaderAt(d, j), k);
      assert OnTheWay(d, k);
    }
  }

  lemma {:induction false} FieldsFrame(d: seq<Byte>, d': seq<Byte>, base: nat)
    requires |d| >= 0x3A && SegmentOf(d).Dynamic? && SameOnTheWay(d, d') && base == HeaderAt(d, SegmentOf(d).index)
    ensures Same(d, d', base + 0x08, 8) && Same(d, d', base + 0x20, 8)
  {
    forall k | (base + 0x08 <= k < base + 0x10 || base + 0x20 <= k < base + 0x28) && k < |d|
      ensures d[k] == d'[k]
    {
      assert OnTheWay(d, k);
    }
  }

  lemma {:induction false} SegmentFrame(d: seq<Byte>, d': seq<Byte>)
    requires |d| >= 0x3A && SegmentOf(d).Dynamic? && SameOnTheWay(d, d')
    ensures SegmentOf(d') == SegmentOf(d)
  {
    HeaderFrame(d, d');
    var r, phoff, phentsize := SegmentOf(d), Phoff(d), Phentsize(d);
    forall j | 0 <= j <= r.index
      ensures Same(d, d', Base(phoff, phentsize, j), 4)
    {
      TypeFrame(d, d', j);
    }
    FieldsFrame(d, d', HeaderAt(d, r.index));
    DynamicFrame(d, d', Little(d), phoff, phentsize, Phnum(d), 0, r);
  }

  lemma {:induction false} ZeroEntryIsLeftAlone(d: seq<Byte>, d': seq<Byte>)
    requires Verdict(d) == True && |d'| == |d| && d'[..6] == d[..6] && SegmentOf(d') == SegmentOf(d)
    requires EntryOf(d') == EntryOf(d) && ValueOf(d', EntryOf(d).pos) == 0
    ensures Verdict(d') == False
  {
    assert d'[..4] == d'[..6][..4] == d[..6][..4] == d[..4];
    assert d'[4] == d'[..6][4] == d[..6][4] == d[4];
  }

  lemma {:induction false} RerunFindsZero(d: seq<Byte>, d': seq<Byte>)
    requires Verdict(d) == True && SegmentOf(d).Dynamic? && SameOnTheWay(d, d')
    requires forall k :: SegmentOf(d).offset <= k < EntryOf(d).pos ==> d[k] == d'[k]
    requires UInt(d', EntryOf(d).pos, 8, Little(d)) == 0
    ensures Verdict(d') == False
  {
    HeaderFrame(d, d');
    SegmentFrame(d, d');
    EntryInFrame(d, d', Little(d), SegmentOf(d));
    ZeroEntryIsLeftAlone(d, d');
  }

  lemma {:induction false} EntryInFrame(d: seq<Byte>, d': seq<Byte>, little: bool, seg: Segment)
    requires |d| == |d'| && seg.Dynamic? && EntryIn(d, little, seg).ValueAt?
    requires forall k :: seg.offset <= k < EntryIn(d, little, seg).pos ==> d[k] == d'[k]
    ensures EntryIn(d', little, seg) == EntryIn(d, little, seg)
  {
    EntryFrame(d, d', little, seg.offset, seg.offset + seg.filesz);
  }

  /** None of the bytes the run sets to zero lies on the way to the dynamic section. */
  ghost predicate ValueOffTheWay(d: seq<Byte>)
    requires Verdict(d) == True && SegmentOf(d).Dynamic?
  {
    forall k :: EntryOf(d).pos <= k < EntryOf(d).pos + 8 && OnTheWay(d, k) ==> d[k] == 0
  }

  lemma {:induction false} OnlyZeroedBytesDiffer(d: seq<Byte>)
    requires Verdict(d) == True && SegmentOf(d).Dynamic? && ValueOffTheWay(d)
    ensures SameOnTheWay(d, Rewritten(d))
  {
    ZeroedTouchesOnlyTheValue(d, EntryOf(d).pos, Little(d));
  }

  /** A second run reads the same bytes on its way if and only if no byte set to zero lies
      on that way, unless it was zero before. */
  lemma {:induction false} RerunRetracesExactlyWhenOffTheWay(d: seq<Byte>)
    requires Verdict(d) == True && SegmentOf(d).Dynamic?
    ensures SameOnTheWay(d, Rewritten(d)) <==> ValueOffTheWay(d)
  {
    ZeroedTouchesOnlyTheValue(d, EntryOf(d).pos, Little(d));
    if ValueOffTheWay(d) { OnlyZeroedBytesDiffer(d); }
  }

  /** Running the script again finds the same entry, now zero, returns false and changes
      nothing, provided no byte it zeroed lies on the way to the dynamic section. */
  lemma {:induction false} PatchIsIdempotent(d: seq<Byte>)
    requires Verdict(d) == True && SegmentOf(d).Dynamic? && ValueOffTheWay(d)
    ensures Verdict(Rewritten(d)) == False && Rewritten(Rewritten(d)) == Rewritten(d)
  {
    PatchTouchesOnlyTheValue(d);
    OnlyZeroedBytesDiffer(d);
    RerunFindsZero(d, Rewritten(d));
  }

  // A file where the value doubles as the number of program headers: the dynamic section
  // starts at 0x30, so its first value occupies 0x38 to 0x40.

  function OverlappingByte(i: nat): Byte {
    match i
    case 0 => 0x7f case 1 => 0x45 case 2 => 0x4c case 3 => 0x46 case 4 => 2 case 5 => 1
    case 0x20 => 0x40            // e_phoff
    case 0x30 => DT_FINI_ARRAYSZ // first dynamic tag
    case 0x38 => 1               // e_phnum, and the value of that tag
    case 0x40 => PT_DYNAMIC      // p_type
    case 0x48 => 0x30            // p_offset
    case 0x60 => 16              // p_filesz
    case _ => 0
  }

  lemma {:induction false} SmallLittle(d: seq<Byte>, off: nat, n: nat)
    requires 0 < n && off + n <= |d| && forall k :: off < k < off + n ==> d[k] == 0
    ensures UInt(d, off, n, true) == d[off]
  {
    UIntZero(d, off + 1, n - 1, true);
    assert d[off..off + n][1..] == d[off + 1..off + n];
  }

  predicate Overlapping(d: seq<Byte>) { |d| == 0x68 && forall k :: 0 <= k < 0x68 ==> d[k] == OverlappingByte(k) }

  lemma {:induction false} OverlapHeader(d: seq<Byte>)
    requires Overlapping(d)
    ensures IsElf(d) && d[4] == 2 && Little(d) && Phoff(d) == 0x40 && Phentsize(d) == 0 && Phnum(d) == 1
  {
    assert d[..4] == [d[0], d[1], d[2], d[3]];
    SmallLittle(d, 0x20, 8);
    SmallLittle(d, 0x36, 2);
    SmallLittle(d, 0x38, 2);
  }

  lemma {:induction false} OverlapSegment(d: seq<Byte>)
    requires Overlapping(d)
    ensures FindDynamic(d, true, 0x40, 0, 1, 0) == Dynamic(0, 0x30, 16)
  {
    assert Base(0x40, 0, 0) == 0x40;
    SmallLittle(d, 0x40, 4);
    SmallLittle(d, 0x48, 8);
    SmallLittle(d, 0x60, 8);
  }

  lemma {:induction false} OverlapEntry(d: seq<Byte>)
    requires Overlapping(d)
    ensures FindEntry(d, true, 0x30, 0x40) == ValueAt(0x38) && UInt(d, 0x38, 8, true) == 1
  {
    SmallLittle(d, 0x30, 8);
    SmallLittle(d, 0x38, 8);
  }

  lemma {:induction false} NoHeadersNoDynamic(d: seq<Byte>)
    requires |d| >= 0x3A && IsElf(d) && d[4] == 2 && d[0x38] == 0 && d[0x39] == 0
    ensures Verdict(d) == NoDynamic
  {
    UIntZero(d, 0x38, 2, Little(d));
  }

  /** There the first run succeeds and the second finds no dynamic segment at all. */
  lemma {:induction false} OverlapBreaksTheRerun() returns (d: seq<Byte>)
    ensures Verdict(d) == True && Verdict(Rewritten(d)) == NoDynamic
  {
    d := seq(0x68, i requires 0 <= i < 0x68 => OverlappingByte(i));
    OverlapHeader(d);
    OverlapSegment(d);
    OverlapEntry(d);
    assert EntryOf(d) == ValueAt(0x38);
    var d' := Rewritten(d);
    assert d' == Zeroed(d, 0x38);
    assert d'[..4] == d[..4];
    NoHeadersNoDynamic(d');
  }

  // A file where the value doubles as the type of the first program header: the dynamic
  // section starts at 0x38, so its first value occupies 0x40 to 0x48. A second header, at
  // 0x78, is also PT_DYNAMIC and points to a section at 0xA0.

  function ShadowingByte(i: nat): Byte {
    match i
    case 0 => 0x7f case 1 => 0x45 case 2 => 0x4c case 3 => 0x46 case 4 => 2 case 5 => 1
    case 0x20 => 0x40            // e_phoff
    case 0x36 => 0x38            // e_phentsize
    case 0x38 => DT_FINI_ARRAYSZ // e_phnum, and the first dynamic tag
    case 0x40 => PT_DYNAMIC      // p_type of header 0, and the value of that tag
    case 0x48 => 0x38            // its p_offset
    case 0x60 => 16              // its p_filesz
    case 0x78 => PT_DYNAMIC      // p_type of header 1
    case 0x80 => 0xA0            // its p_offset
    case 0x98 => 16              // its p_filesz
    case 0xA0 => DT_FINI_ARRAYSZ // the tag of the second section
    case 0xA8 => 1               // and its value
    case _ => 0
  }

  /** The file, before (`type0` is PT_DYNAMIC) and after (it is zero) the first run. */
  predicate Shadowing(d: seq<Byte>, type0: Byte) {
    |d| == 0xB0 && forall k :: 0 <= k < 0xB0 ==> d[k] == if k == 0x40 then type0 else ShadowingByte(k)
  }

  lemma {:induction false} ShadowHeader(d: seq<Byte>, type0: Byte)
    requires Shadowing(d, type0)
    ensures IsElf(d) && d[4] == 2 && Little(d) && Phoff(d) == 0x40 && Phentsize(d) == 0x38 && Phnum(d) == 0x1C
  {
    assert d[..4] == [d[0], d[1], d[2], d[3]];
    SmallLittle(d, 0x20, 8);
    SmallLittle(d, 0x36, 2);
    SmallLittle(d, 0x38, 2);
  }

  lemma {:induction false} ShadowFirst(d: seq<Byte>)
    requires Shadowing(d, PT_DYNAMIC)
    ensures FindDynamic(d, true, 0x40, 0x38, 0x1C, 0) == Dynamic(0, 0x38, 16)
    ensures FindEntry(d, true, 0x38, 0x48) == ValueAt(0x40) && UInt(d, 0x40, 8, true) == 2
  {
    SmallLittle(d, 0x40, 4);
    SmallLittle(d, 0x48, 8);
    SmallLittle(d, 0x60, 8);
    SmallLittle(d, 0x38, 8);
    SmallLittle(d, 0x40, 8);
  }

  lemma {:induction false} ShadowSecond(d: seq<Byte>)
    requires Shadowing(d, 0)
    ensures FindDynamic(d, true, 0x40, 0x38, 0x1C, 0) == Dynamic(1, 0xA0, 16)
  {
    SmallLittle(d, 0x40, 4);
    SmallLittle(d, 0x78, 4);
    SmallLittle(d, 0x80, 8);
    SmallLittle(d, 0x98, 8);
    assert Base(0x40, 0x38, 0) == 0x40 && Base(0x40, 0x38, 1) == 0x78;
    assert FindDynamic(d, true, 0x40, 0x38, 0x1C, 0) == FindDynamic(d, true, 0x40, 0x38, 0x1C, 1);
  }

  lemma {:induction false} ShadowEntry(d: seq<Byte>)
    requires Shadowing(d, 0)
    ensures FindEntry(d, true, 0xA0, 0xB0) == ValueAt(0xA8) && UInt(d, 0xA8, 8, true) == 1
  {
    SmallLittle(d, 0xA0, 8);
    SmallLittle(d, 0xA8, 8);
  }

  /** There both runs succeed, and the second one changes further bytes. */
  lemma {:induction false} OverlapPatchesTwice() returns (d: seq<Byte>)
    ensures Verdict(d) == True && Verdict(Rewritten(d)) == True && Rewritten(Rewritten(d)) != Rewritten(d)
  {
    d := seq(0xB0, i requires 0 <= i < 0xB0 => ShadowingByte(i));
    ShadowHeader(d, PT_DYNAMIC);
    ShadowFirst(d);
    assert EntryOf(d) == ValueAt(0x40);
    var d' := Rewritten(d);
    assert d' == Zeroed(d, 0x40);
    assert Shadowing(d', 0);
    ShadowHeader(d', 0);
    ShadowSecond(d');
    ShadowEntry(d');
    assert EntryOf(d') == ValueAt(0xA8);
    PatchTouchesOnlyTheValue(d');
  }
}
