/** Concrete byte patterns and their reports: the behaviour a reader of the report relies on. */
module Scenarios {
  import opened Bytes
  import opened Wrappers
  import opened DosTables
  import opened Scan
  import opened Header
  import opened Analyzer

  /** MOV AH, fn; INT 21h at index i gives a pass A report for the INT at index i + 2, file offset
      codeStart + i + 2, naming fn by pass A's table. */
  lemma DosCallReported(code: seq<byte>, codeStart: nat, i: nat)
    requires i + 4 <= |code|
    requires code[i] == MOV_AH_OPCODE
    requires code[i + 2] == INT_OPCODE && code[i + 3] == DOS_INTERRUPT
    ensures var hits := ScanA(code, codeStart);
      exists k ::
        && 0 <= k < |hits|
        && hits[k].index == i + 2
        && hits[k].offset == codeStart + i + 2
        && hits[k].call == Some(DosCall(code[i + 1], LabelA(code[i + 1])))
  {
    var j := i + 2;
    assert Matches(PassA, code, j);
    var hits := ScanA(code, codeStart);
    var k := IndexOf(MatchIndices(PassA, code, 0), j);
    assert hits[k].index == j && hits[k].call == CallA(code, j);
  }

  /** The same bytes give a pass B report for that INT whose purpose names fn by pass B's table. */
  lemma DosPurposeReported(code: seq<byte>, codeStart: nat, i: nat)
    requires i + 4 <= |code|
    requires code[i] == MOV_AH_OPCODE
    requires code[i + 2] == INT_OPCODE && code[i + 3] == DOS_INTERRUPT
    ensures var hits := ScanB(code, codeStart);
      exists k ::
        && 0 <= k < |hits|
        && hits[k].index == i + 2
        && hits[k].offset == codeStart + i + 2
        && hits[k].interrupt == DOS_INTERRUPT
        && hits[k].purpose == Some(DosCall(code[i + 1], LabelB(code[i + 1])))
  {
    var j := i + 2;
    assert Matches(PassB, code, j);
    var hits := ScanB(code, codeStart);
    var k := IndexOf(MatchIndices(PassB, code, 0), j);
    assert hits[k].index == j && hits[k].purpose == PurposeB(code, j);
  }

  /** MOV AH, 3Fh; INT 21h is named "Read file" by both passes. */
  lemma ReadFileIsNamed(code: seq<byte>, codeStart: nat, i: nat)
    requires i + 4 <= |code|
    requires code[i] == MOV_AH_OPCODE && code[i + 1] == 0x3F
    requires code[i + 2] == INT_OPCODE && code[i + 3] == DOS_INTERRUPT
    ensures var hits := ScanA(code, codeStart);
      exists k :: 0 <= k < |hits| && hits[k].offset == codeStart + i + 2 &&
        hits[k].call == Some(DosCall(0x3F, Named("Read file")))
    ensures var hits := ScanB(code, codeStart);
      exists k :: 0 <= k < |hits| && hits[k].offset == codeStart + i + 2 &&
        hits[k].purpose == Some(DosCall(0x3F, Named("Read file")))
  {
    DosCallReported(code, codeStart, i);
    DosPurposeReported(code, codeStart, i);
  }

  /** The header of the minimal file: two pages with 100 bytes on the last, a two-paragraph header,
      no relocations. */
  const TinyHeader := MZHeader(MZ_SIGNATURE, 100, 2, 0, 2, 0, 0, 0, 0, 0, 0, 0, 0, 0)

  /** The code of the minimal file: MOV AH, 09h; INT 21h; NOP; NOP. */
  const TinyCode: seq<byte> := [0xB4, 0x09, 0xCD, 0x21, 0x90, 0x90]

  /** A 38-byte file that starts with 'M','Z', holds the minimal header and has the minimal code
      at offset 32. */
  predicate TinyLayout(file: seq<byte>)
  {
    && |file| == 38
    && file[0] == 'M' as int && file[1] == 'Z' as int
    && DecodeHeader(file) == Some(TinyHeader)
    && file[32..38] == TinyCode
  }

  /** One such file: the encoded header, four bytes of padding, then the code. */
  function TinyProgram(): (file: seq<byte>)
    ensures |file| == 38
  {
    EncodeHeader(TinyHeader) + [0, 0, 0, 0] + TinyCode
  }

  /** The file built above has the minimal layout. */
  lemma TinyProgramHasLayout()
    ensures TinyLayout(TinyProgram())
  {
    var file := TinyProgram();
    var head := EncodeHeader(TinyHeader);
    HeaderRoundTrip(TinyHeader);
    DecodeHeaderPrefix(head, [0, 0, 0, 0] + TinyCode);
    assert file == head + ([0, 0, 0, 0] + TinyCode);
    assert file[32..38] == TinyCode;
  }

  /** The minimal file analyses to size 612 with code at 32 and no relocation table, and its
      580-byte code window begins with the minimal code. */
  lemma TinyLayoutGeometry(file: seq<byte>)
    requires TinyLayout(file)
    ensures HasMZMagic(file) && Analyze(file).Success?
    ensures var rep := Analyze(file).value;
      && rep.fileSize == 612
      && rep.codeStart == 32
      && rep.relocations == NoTable
      && |rep.code| == 580
      && rep.code[..6] == TinyCode
  {
    var rep := Analyze(file).value;
    assert rep.code[..6] == file[32..38];
  }

  /** The minimal file's report names "Print string" at offset 34 in both passes. The code window
      runs past the end of the 38-byte file, so all but its first six bytes are zero. */
  lemma TinyLayoutReport(file: seq<byte>)
    requires TinyLayout(file)
    ensures HasMZMagic(file) && Analyze(file).Success?
    ensures var rep := Analyze(file).value;
      && (exists k :: 0 <= k < |rep.intCalls| && rep.intCalls[k].offset == 34 &&
            rep.intCalls[k].call == Some(DosCall(0x09, Named("Print string"))))
      && (exists k :: 0 <= k < |rep.interrupts| && rep.interrupts[k].offset == 34 &&
            rep.interrupts[k].interrupt == 0x21 &&
            rep.interrupts[k].purpose == Some(DosCall(0x09, Named("Print string"))))
  {
    TinyLayoutGeometry(file);
    var rep := Analyze(file).value;
    assert rep.code[0] == 0xB4 && rep.code[1] == 0x09 && rep.code[2] == 0xCD && rep.code[3] == 0x21;
    DosCallReported(rep.code, 32, 0);
    DosPurposeReported(rep.code, 32, 0);
  }
}
