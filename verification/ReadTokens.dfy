/** Raw report offsets become `A/B/C i READ` operations (scripts/mdapi-xml-convert.py), which the code
    generator turns into accumulator indices (scripts/gputop-oa-codegen.py).  The three tables - offsets
    in the converter, section offsets in the generator, loops in the accumulator - have to agree.
 */
module ReadTokens {
  import opened Common
  import opened OaCounters

  /** Every chipset but Haswell shares one set of parameters. */
  datatype Chipset = HSW | Gen8Plus

  datatype Kind = GpuTime | GpuClock | A | B | C

  datatype ReadExp = Read(kind: Kind, idx: nat) | ReadReg(name: string) | Unknown

  const B_OFFSET: nat := 192
  const C_OFFSET: nat := 224
  const OA_REPORT_SIZE: nat := 256

  function AOffset(chipset: Chipset): nat {
    match chipset case HSW => 12 case Gen8Plus => 16
  }

  function FormatOf(chipset: Chipset): Format {
    match chipset case HSW => A45 case Gen8Plus => A32u40
  }

  function ReadValue(offset: nat): ReadExp {
    if offset == 0x1f0 then ReadReg("PERFCNT1")
    else if offset == 0x1f8 then ReadReg("PERFCNT2")
    else Unknown
  }

  /** read_token_to_rpn_read on a token whose offset has been parsed; an assertion failure is Unknown. */
  function ReadTokenToRpnRead(chipset: Chipset, offset: nat, rawOffsets: bool): ReadExp {
    if rawOffsets then
      if offset < AOffset(chipset) then
        if offset == 4 then Read(GpuTime, 0)
        else if offset == 12 then if chipset == HSW then Unknown else Read(GpuClock, 0)
        else Unknown
      else if offset < B_OFFSET then Read(A, (offset - AOffset(chipset)) / 4)
      else if offset < C_OFFSET then Read(B, (offset - B_OFFSET) / 4)
      else if offset < OA_REPORT_SIZE then Read(C, (offset - C_OFFSET) / 4)
      else ReadValue(offset)
    else
      var idx := offset / 8;
      match chipset
      case HSW =>
        if idx < 1 then Read(GpuTime, 0)
        else if idx < 46 then Read(A, idx - 1)
        else if idx < 54 then Read(B, idx - 46)
        else if idx < 62 then Read(C, idx - 54)
        else ReadValue(offset)
      case Gen8Plus =>
        if idx == 0 then Read(GpuTime, 0)
        else if idx == 1 then Read(GpuClock, 0)
        else if idx < 38 then Read(A, idx - 2)
        else if idx < 46 then Read(B, idx - 38)
        else if idx < 54 then Read(C, idx - 46)
        else ReadValue(offset)
  }

  /** The section offsets the generator stores in a metric set; gpu_clock_offset stays zero on Haswell. */
  function SectionOffset(chipset: Chipset, kind: Kind): nat
    decreases if kind == C then 2 else if kind == B then 1 else 0
  {
    match kind
    case GpuTime => 0
    case GpuClock => if chipset == HSW then 0 else 1
    case A => if chipset == HSW then 1 else 2
    case B => SectionOffset(chipset, A) + (if chipset == HSW then 45 else 36)
    case C => SectionOffset(chipset, B) + 8
  }

  /** The accumulator index that the generated read uses. */
  function SlotOf(chipset: Chipset, e: ReadExp): nat
    requires e.Read?
  {
    SectionOffset(chipset, e.kind) + e.idx
  }

  ghost predicate FedFrom(chipset: Chipset, slot: nat, word: nat) {
    slot < SlotCount(FormatOf(chipset)) && SourceWord(FormatOf(chipset), slot) == word
  }

  /** The bytes of a newer report that only complete 40-bit counters. */
  predicate InHighByteTable(chipset: Chipset, offset: nat) {
    chipset == Gen8Plus && 160 <= offset < 192
  }

  /** A raw report offset names the slot that the word at that offset is added to - unless it points
      into the table of high bytes, which the converter takes for more A counters. */
  lemma RawOffsetNamesFedSlot(chipset: Chipset, offset: nat)
    requires ReadTokenToRpnRead(chipset, offset, true).Read?
    ensures FedFrom(chipset, SlotOf(chipset, ReadTokenToRpnRead(chipset, offset, true)), offset / 4)
       <==> !InHighByteTable(chipset, offset)
  {
    var w := offset / 4;
    assert (offset - AOffset(chipset)) / 4 == w - AOffset(chipset) / 4;
    assert offset >= B_OFFSET ==> (offset - B_OFFSET) / 4 == w - 48;
    assert offset >= C_OFFSET ==> (offset - C_OFFSET) / 4 == w - 56;
  }

  /** The first byte of that table is taken for the counter A 36, whose slot is that of B 0. */
  lemma HighByteNamesB0()
    ensures var e := ReadTokenToRpnRead(Gen8Plus, 160, true);
            && e == Read(A, 36) && SlotOf(Gen8Plus, e) == SlotOf(Gen8Plus, Read(B, 0))
            && FedFrom(Gen8Plus, SlotOf(Gen8Plus, e), 48) && !FedFrom(Gen8Plus, SlotOf(Gen8Plus, e), 160 / 4)
  {
  }

  /** Conversely every slot can be named, through the offset of the word that feeds it. */
  lemma EverySlotIsNamed(chipset: Chipset, slot: nat)
    requires slot < SlotCount(FormatOf(chipset))
    ensures var e := ReadTokenToRpnRead(chipset, 4 * SourceWord(FormatOf(chipset), slot), true);
            e.Read? && SlotOf(chipset, e) == slot
  {
    var offset := 4 * SourceWord(FormatOf(chipset), slot);
    if ReadTokenToRpnRead(chipset, offset, true).Read? && !InHighByteTable(chipset, offset) {
      RawOffsetNamesFedSlot(chipset, offset);
    }
  }

  /** Offsets into the array of totals name the slot at that place. */
  lemma TotalOffsetNamesSlot(chipset: Chipset, offset: nat)
    ensures var e := ReadTokenToRpnRead(chipset, offset, false);
            e.Read? <==> offset / 8 < SlotCount(FormatOf(chipset))
    ensures var e := ReadTokenToRpnRead(chipset, offset, false);
            e.Read? ==> SlotOf(chipset, e) == offset / 8 && (chipset == HSW ==> e.kind != GpuClock)
  {
    var idx := offset / 8;
    if idx >= SlotCount(FormatOf(chipset)) {
      assert ReadTokenToRpnRead(chipset, offset, false) == ReadValue(offset);
    }
  }

  /** Which raw offsets are reads at all: all from the A counters on, the stamp, and the clock - and beyond
      the report two registers. */
  lemma RawOffsetIsRead(chipset: Chipset, offset: nat)
    ensures var e := ReadTokenToRpnRead(chipset, offset, true);
            && (e.Read? <==> offset == 4 || (12 <= offset < 256 && !(chipset == Gen8Plus && 12 < offset < 16)))
            && (e.ReadReg? <==> offset == 0x1f0 || offset == 0x1f8)
            && (e.ReadReg? ==> e.name == if offset == 0x1f0 then "PERFCNT1" else "PERFCNT2")
  {
  }

  // ---------------------------------------------------------------- the bytes of a report

  /** Byte i of a report as it lies in memory. */
  function ReportByte(r: Report, i: nat): (b: nat)
    requires i < 256
    ensures b < 256
  {
    var w := r[i / 4];
    match i % 4
    case 0 => w % 256
    case 1 => w / 0x100 % 256
    case 2 => w / 0x1_0000 % 256
    case _ => w / 0x100_0000
  }

  /** Four bytes make a word, the lowest first. */
  lemma WordOfBytes(r: Report, j: nat)
    requires j < 64
    ensures r[j] == ReportByte(r, 4 * j) + 0x100 * ReportByte(r, 4 * j + 1) + 0x1_0000 * ReportByte(r, 4 * j + 2)
                    + 0x100_0000 * ReportByte(r, 4 * j + 3)
  {
    FourBytes(r[j]);
    assert ReportByte(r, 4 * j) == r[j] % 256;
  }

  lemma HighByteIs(r: Report, i: nat)
    requires i < 32
    ensures HighByte(r, i) == ReportByte(r, 160 + i)
  {
    HighBytesOfWord(r, i / 4);
    WordOfBytes(r, 40 + i / 4);
    assert (160 + i) / 4 == 40 + i / 4;
  }

  /** The byte above the word that is read at a raw offset, if there is one. */
  function HighOffset(chipset: Chipset, offset: nat): (i: Option<nat>)
    ensures i.Some? ==> i.value < 256
  {
    if chipset == Gen8Plus && 16 <= offset < 144 then Some(160 + (offset - 16) / 4) else None
  }

  /** What the slot of a raw offset shows: the word at the offset and, for the 40-bit counters, the byte that
      belongs to it in the table of high bytes. */
  lemma OffsetShows(chipset: Chipset, offset: nat, r: Report)
    requires ReadTokenToRpnRead(chipset, offset, true).Read? && !InHighByteTable(chipset, offset)
    ensures var slot := SlotOf(chipset, ReadTokenToRpnRead(chipset, offset, true));
            && slot < SlotCount(FormatOf(chipset)) && offset / 4 < 64
            && Raw(FormatOf(chipset), slot, r)
               == r[offset / 4] + U32 * (if HighOffset(chipset, offset).Some?
                                         then ReportByte(r, HighOffset(chipset, offset).value) else 0)
  {
    hide Raw, ReportByte, HighByte;
    RawOffsetNamesFedSlot(chipset, offset);
    var slot := SlotOf(chipset, ReadTokenToRpnRead(chipset, offset, true));
    RawParts(FormatOf(chipset), slot, r);
    if HighOffset(chipset, offset).Some? {
      assert slot == 2 + (offset - 16) / 4;
      HighByteIs(r, slot - 2);
    } else {
      assert !Is40Bit(FormatOf(chipset), slot);
    }
  }

  /** A report of zeroes but for one byte. */
  function OneByte(i: nat): Report
    requires i < 256
  {
    seq(64, j => if j == i / 4 then (match i % 4 case 0 => 1 case 1 => 0x100 case 2 => 0x1_0000 case _ => 0x100_0000)
                 else 0)
  }

  lemma OneByteShows(i: nat, k: nat)
    requires i < 256 && k < 256
    ensures ReportByte(OneByte(i), k) == if k == i then 1 else 0
  {
    if i / 4 == k / 4 { assert i == 4 * (i / 4) + i % 4 && k == 4 * (k / 4) + k % 4; }
  }

  /** A token with two offsets, for the word and the high byte of a counter.  The second one is not looked at:
      what is read is the counter made of both if and only if the second is that of the first in the table. */
  lemma Rd40Exact(offset: nat, offset8: nat)
    requires 16 <= offset < 144 && offset % 4 == 0 && offset8 < 256
    ensures ReadTokenToRpnRead(Gen8Plus, offset, true) == Read(A, (offset - 16) / 4)
    ensures (forall r: Report :: Raw(A32u40, SlotOf(Gen8Plus, Read(A, (offset - 16) / 4)), r)
                                 == r[offset / 4] + U32 * ReportByte(r, offset8))
            <==> offset8 == 160 + (offset - 16) / 4
  {
    hide Raw, ReportByte;
    var slot, high := SlotOf(Gen8Plus, Read(A, (offset - 16) / 4)), 160 + (offset - 16) / 4;
    forall r: Report ensures Raw(A32u40, slot, r) == r[offset / 4] + U32 * ReportByte(r, high) {
      OffsetShows(Gen8Plus, offset, r);
    }
    if offset8 != high {
      var r := OneByte(high);
      OneByteShows(high, high);
      OneByteShows(high, offset8);
      assert Raw(A32u40, slot, r) != r[offset / 4] + U32 * ReportByte(r, offset8);
    }
  }

  lemma SampleShows(chipset: Chipset, offset: nat, reports: seq<Report>, truth: seq<seq<nat>>, n: nat)
    requires Sampled(FormatOf(chipset), reports, truth) && n < |reports|
    requires ReadTokenToRpnRead(chipset, offset, true).Read? && !InHighByteTable(chipset, offset)
    ensures var slot := SlotOf(chipset, ReadTokenToRpnRead(chipset, offset, true));
            && slot < |truth[n]| && offset / 4 < 64 && reports[n][offset / 4] == truth[n][slot] % U32
            && (HighOffset(chipset, offset).Some? ==>
                  ReportByte(reports[n], HighOffset(chipset, offset).value) == truth[n][slot] / U32 % 256)
  {
    hide Raw, ReportByte;
    var slot := SlotOf(chipset, ReadTokenToRpnRead(chipset, offset, true));
    OffsetShows(chipset, offset, reports[n]);
    assert Raw(FormatOf(chipset), slot, reports[n]) == truth[n][slot] % Width(FormatOf(chipset), slot);
    if HighOffset(chipset, offset).Some? {
      assert slot == 2 + (offset - 16) / 4;
      FortyBits(truth[n][slot], reports[n][offset / 4], ReportByte(reports[n], HighOffset(chipset, offset).value));
    } else {
      assert Width(FormatOf(chipset), slot) == U32 by { NotWide(chipset, offset); }
    }
  }

  lemma NotWide(chipset: Chipset, offset: nat)
    requires ReadTokenToRpnRead(chipset, offset, true).Read? && HighOffset(chipset, offset).None?
    requires !InHighByteTable(chipset, offset)
    ensures Width(FormatOf(chipset), SlotOf(chipset, ReadTokenToRpnRead(chipset, offset, true))) == U32
  {
  }

  lemma FortyBits(x: nat, low: Word, high: nat)
    requires high < 256 && x % U40 == low + U32 * high
    ensures x % U32 == low && x / U32 % 256 == high
  {
    var q := x / U40;
    assert x == q * U40 + (low + U32 * high) == (q * 256 + high) * U32 + low;
    ModUnique(x, U32, q * 256 + high, low);
    ModUnique(q * 256 + high, 256, q, high);
  }

  /** End to end: the generated read of a counter returns the true growth of the counter that the report
      shows at the converter's offset - and for the 40-bit counters in the byte of the table of high bytes
      that belongs to it. */
  lemma ReadIsTrueGrowth(chipset: Chipset, offset: nat, freq: nat, first: Report, reports: seq<Report>,
                         truth: seq<seq<nat>>)
    requires freq > 0 && |reports| > 0 && Sampled(FormatOf(chipset), reports, truth)
    requires ReadTokenToRpnRead(chipset, offset, true).Read? && !InHighByteTable(chipset, offset)
    ensures var f := FormatOf(chipset);
            var slot := SlotOf(chipset, ReadTokenToRpnRead(chipset, offset, true));
            && FedFrom(chipset, slot, offset / 4)
            && truth[0][slot] <= truth[|truth| - 1][slot]
            && (forall n :: 0 <= n < |reports| ==>
                  && reports[n][offset / 4] == truth[n][slot] % U32
                  && (HighOffset(chipset, offset).Some? ==>
                        ReportByte(reports[n], HighOffset(chipset, offset).value) == truth[n][slot] / U32 % 256))
            && AccumulateAll(f, freq, Init(freq, first), reports).deltas[slot]
               == Wrap64(truth[|truth| - 1][slot] - truth[0][slot])
  {
    hide ReadTokenToRpnRead, SlotOf, Sampled, Accumulate, Wrap64, ReportByte, Raw, HighOffset;
    var slot := SlotOf(chipset, ReadTokenToRpnRead(chipset, offset, true));
    RawOffsetNamesFedSlot(chipset, offset);
    SampledParts(FormatOf(chipset), reports, truth);
    OffsetShows(chipset, offset, reports[0]);
    forall n | 0 <= n < |reports|
      ensures reports[n][offset / 4] == truth[n][slot] % U32
      ensures HighOffset(chipset, offset).Some? ==>
                ReportByte(reports[n], HighOffset(chipset, offset).value) == truth[n][slot] / U32 % 256
    {
      SampleShows(chipset, offset, reports, truth, n);
    }
    TotalsAreTrueGrowth(FormatOf(chipset), freq, Init(freq, first), reports, truth, slot);
  }
}
