/** The whole analysis of one MZ file held in memory: header, estimated size, relocation table,
    code window and both interrupt scans, or the reason the analysis stops. */
module Analyzer {
  import opened Bytes
  import opened Wrappers
  import opened Header
  import opened Geometry
  import opened Scan

  /** The relocation part of a report: absent when the header declares no entries. */
  datatype RelocationSection = NoTable | Table(entries: seq<RelocationEntry>)

  datatype AnalysisError =
    | TruncatedHeader                   // fewer than 28 bytes
    | BadGeometry(reason: GeometryError)
    | TruncatedRelocations              // the declared table runs past the end of the file

  datatype Report = Report(
    header: MZHeader,
    fileSize: nat,
    relocations: RelocationSection,
    codeStart: nat,
    code: seq<byte>,
    intCalls: seq<HitA>,
    interrupts: seq<HitB>)

  /** The file starts with the bytes 'M','Z', as checked before the analysis is run. */
  predicate HasMZMagic(file: seq<byte>)
  {
    |file| >= 2 && file[0] == 'M' as int && file[1] == 'Z' as int
  }

  /** The code buffer: `size` bytes read from offset `start`; a buffer that starts out zeroed keeps
      its zeros wherever the file ends before the buffer is full. */
  function ReadCode(file: seq<byte>, start: nat, size: nat): (code: seq<byte>)
    ensures |code| == size
    ensures start + size <= |file| ==> code == file[start..start + size]
    ensures start <= |file| < start + size ==> code == file[start..] + Zeros(start + size - |file|)
    ensures |file| < start ==> code == Zeros(size)
  {
    seq(size, k requires 0 <= k < size => if start + k < |file| then file[start + k] else 0)
  }

  /** n zero bytes. */
  function Zeros(n: nat): (z: seq<byte>)
    ensures |z| == n
  {
    seq(n, _ => 0)
  }

  /** The relocation section: no table when the header declares none, otherwise the declared
      entries, or None when they do not fit in the file. */
  function RelocationsOf(file: seq<byte>, h: MZHeader): (r: Option<RelocationSection>)
    ensures r == Some(NoTable) <==> h.nreloc == 0
    ensures r.None? <==> h.nreloc > 0 && h.relocpos + RELOCATION_SIZE * h.nreloc > |file|
    ensures r.Some? && r.value.Table? ==>
      && |r.value.entries| == h.nreloc
      && forall k :: 0 <= k < h.nreloc ==>
           r.value.entries[k] == DecodeRelocation(file, h.relocpos + RELOCATION_SIZE * k)
  {
    if h.nreloc == 0 then Some(NoTable)
    else
      match DecodeRelocations(file, h.relocpos, h.nreloc)
      case None => None
      case Some(entries) => Some(Table(entries))
  }

  /** Analyses a file that starts with 'M','Z'. */
  function Analyze(file: seq<byte>): (r: Result<Report, AnalysisError>)
    requires HasMZMagic(file)
    ensures r == Failure(TruncatedHeader) <==> |file| < HEADER_SIZE
    ensures |file| >= HEADER_SIZE ==>
      var h := DecodeHeader(file).value;
      && (r == Failure(BadGeometry(NoPages)) <==> h.nblocks == 0)
      && (r == Failure(TruncatedRelocations) <==>
            h.nblocks > 0 && h.nreloc > 0 && h.relocpos + RELOCATION_SIZE * h.nreloc > |file|)
      && (r == Failure(BadGeometry(CodeStartBeyondFileSize)) <==>
            && h.nblocks > 0
            && RelocationsOf(file, h).Some?
            && CodeStart(h) > (h.nblocks - 1) * PAGE_SIZE + h.lastsize)
    ensures r.Success? ==>
      var rep := r.value;
      && DecodeHeader(file) == Some(rep.header)
      && rep.header.signature == MZ_SIGNATURE
      && rep.fileSize + PAGE_SIZE == rep.header.nblocks * PAGE_SIZE + rep.header.lastsize
      && rep.codeStart == CodeStart(rep.header)
      && rep.codeStart + |rep.code| <= rep.fileSize
      && |rep.code| <= CODE_WINDOW
      && (|rep.code| < CODE_WINDOW ==> rep.codeStart + |rep.code| == rep.fileSize)
      && Some(rep.relocations) == RelocationsOf(file, rep.header)
      && rep.code == ReadCode(file, rep.codeStart, |rep.code|)
      && rep.intCalls == ScanA(rep.code, rep.codeStart)
      && rep.interrupts == ScanB(rep.code, rep.codeStart)
  {
    match DecodeHeader(file)
    case None => Failure(TruncatedHeader)
    case Some(h) =>
      MagicGivesSignature(file);
      match FileSize(h)
      case Failure(e) => Failure(BadGeometry(e))
      case Success(fileSize) =>
        match RelocationsOf(file, h)
        case None => Failure(TruncatedRelocations)
        case Some(relocations) =>
          var codeStart := CodeStart(h);
          match CodeSize(fileSize, codeStart)
          case Failure(e) => Failure(BadGeometry(e))
          case Success(size) =>
            var code := ReadCode(file, codeStart, size);
            Success(Report(h, fileSize, relocations, codeStart, code,
                           ScanA(code, codeStart), ScanB(code, codeStart)))
  }

  /** Every reported file offset is the code start the header gives plus the index in the window,
      and it points at the INT opcode in the file itself: a zero-filled tail never produces a
      report. Pass A's interrupt byte 21 is in the file too; pass B's number byte is whenever the
      file reaches that far. */
  lemma ReportsLocateOpcodes(file: seq<byte>)
    requires HasMZMagic(file) && Analyze(file).Success?
    ensures var rep := Analyze(file).value;
      && (forall k :: 0 <= k < |rep.intCalls| ==>
            && rep.intCalls[k].offset == CodeStart(rep.header) + rep.intCalls[k].index
            && rep.intCalls[k].offset + 1 < |file|
            && file[rep.intCalls[k].offset] == INT_OPCODE
            && file[rep.intCalls[k].offset + 1] == DOS_INTERRUPT)
      && (forall k :: 0 <= k < |rep.interrupts| ==>
            && rep.interrupts[k].offset == CodeStart(rep.header) + rep.interrupts[k].index
            && rep.interrupts[k].offset < |file|
            && file[rep.interrupts[k].offset] == INT_OPCODE
            && (rep.interrupts[k].offset + 1 < |file| ==>
                  file[rep.interrupts[k].offset + 1] == rep.interrupts[k].interrupt))
  {
  }
}
