/** The two passes over the code window that find software-interrupt instructions.
    Both are one scan, parametrised by which interrupts it reports. */
module Scan {
  import opened Bytes
  import opened Wrappers
  import opened DosTables
  import Geometry

  /** Opcode of INT n. */
  const INT_OPCODE: byte := 0xCD
  /** The DOS API interrupt number. */
  const DOS_INTERRUPT: byte := 0x21
  /** The second interrupt number the any-interrupt pass labels. */
  const READ_INTERRUPT: byte := 0x3F
  /** Opcode of MOV AH, imm8. */
  const MOV_AH_OPCODE: byte := 0xB4
  /** Context windows reach this many bytes before the matched byte. */
  const CONTEXT_BEFORE: int := 10
  /** Pass A's window ends just before i+10; pass B's includes i+10. */
  const CONTEXT_END_A: int := 10
  const CONTEXT_END_B: int := 11

  /** Pass A reports INT 21h only; pass B reports INT with any number. */
  datatype Pass = PassA | PassB

  /** The instruction that `pass` reports begins at index i: 0xCD with its number byte still inside
      the code (and that number 0x21 for pass A). */
  predicate Matches(pass: Pass, code: seq<byte>, i: nat)
  {
    i + 1 < |code| && code[i] == INT_OPCODE && (pass == PassB || code[i + 1] == DOS_INTERRUPT)
  }

  /** The indices at or after `from` that `pass` reports, in the order a left-to-right scan finds them. */
  function MatchIndices(pass: Pass, code: seq<byte>, from: nat): (r: seq<nat>)
    ensures forall k :: 0 <= k < |r| ==> from <= r[k] && Matches(pass, code, r[k])
    ensures forall k, l :: 0 <= k < l < |r| ==> r[k] < r[l]
    ensures forall i :: from <= i && Matches(pass, code, i) ==> i in r
    decreases |code| - from
  {
    if from + 1 >= |code| then []
    else if Matches(pass, code, from) then [from] + MatchIndices(pass, code, from + 1)
    else MatchIndices(pass, code, from + 1)
  }

  /** `x` clipped to the index range [0, n]. */
  function Clip(x: int, n: nat): (r: nat)
    ensures r <= n
  {
    if x < 0 then 0 else if x > n then n else x
  }

  /** Bounds-checked read: the byte at index k, or None when k lies outside the code. */
  function ByteAt(code: seq<byte>, k: int): (r: Option<byte>)
    ensures r.Some? <==> 0 <= k < |code|
    ensures r.Some? ==> r.value == code[k]
  {
    if 0 <= k < |code| then Some(code[k]) else None
  }

  /** The bytes code[i+j] for j from `j` up to but not including `end`, skipping any that fall
      outside the code: the clipped slice, with nothing invented for the missing positions. */
  function Window(code: seq<byte>, i: nat, j: int, end: int): (r: seq<byte>)
    requires j <= end
    ensures r == code[Clip(i + j, |code|)..Clip(i + end, |code|)]
    decreases end - j
  {
    if j == end then []
    else
      var here := match ByteAt(code, i + j) case Some(b) => [b] case None => [];
      here + Window(code, i, j + 1, end)
  }

  /** Pass A's context: the in-bounds bytes from i-10 up to i+9, at most twenty. */
  function ContextA(code: seq<byte>, i: nat): (r: seq<byte>)
    ensures |r| <= CONTEXT_BEFORE + CONTEXT_END_A
    ensures r == code[Clip(i - CONTEXT_BEFORE, |code|)..Clip(i + CONTEXT_END_A, |code|)]
  {
    Window(code, i, -CONTEXT_BEFORE, CONTEXT_END_A)
  }

  /** One shown position of pass B's context: the matched opcode and the interrupt number are tagged. */
  datatype Cell = Plain(b: byte) | OpcodeTag | InterruptTag(n: byte)

  /** The byte a cell stands for, given that the opcode tag stands for 0xCD. */
  function Shown(c: Cell): byte
  {
    match c
    case Plain(b) => b
    case OpcodeTag => INT_OPCODE
    case InterruptTag(n) => n
  }

  /** Pass B's context: the in-bounds positions from i-10 through i+10, at most twenty-one. */
  function ContextB(code: seq<byte>, i: nat): (r: seq<Cell>)
    requires Matches(PassB, code, i)
    ensures |r| <= CONTEXT_BEFORE + CONTEXT_END_B
    ensures |r| == Clip(i + CONTEXT_END_B, |code|) - Clip(i - CONTEXT_BEFORE, |code|)
  {
    var lo := Clip(i - CONTEXT_BEFORE, |code|);
    var w := Window(code, i, -CONTEXT_BEFORE, CONTEXT_END_B);
    seq(|w|, k requires 0 <= k < |w| =>
      if lo + k == i then OpcodeTag
      else if lo + k == i + 1 then InterruptTag(w[k])
      else Plain(w[k]))
  }

  /** Cell k of pass B's context stands for code[lo + k], where lo is the first in-bounds position
      at or after i-10; exactly the opcode's cell carries the opcode tag and exactly the next cell
      carries the interrupt tag, and both lie inside the context. */
  lemma ContextBCells(code: seq<byte>, i: nat)
    requires Matches(PassB, code, i)
    ensures var r := ContextB(code, i);
      var lo := Clip(i - CONTEXT_BEFORE, |code|);
      && lo <= i && i + 1 < lo + |r|
      && forall k :: 0 <= k < |r| ==>
           && Shown(r[k]) == code[lo + k]
           && (r[k].OpcodeTag? <==> lo + k == i)
           && (r[k].InterruptTag? <==> lo + k == i + 1)
  {
  }

  /** Pass A's function label: present exactly when a MOV AH, fn instruction ends just before
      the INT 21h, and then naming fn by pass A's table (or showing it when unknown). */
  function CallA(code: seq<byte>, i: nat): (r: Option<DosCall>)
    requires Matches(PassA, code, i)
    ensures r.Some? <==> i >= 2 && code[i - 2] == MOV_AH_OPCODE
    ensures r.Some? ==> r.value.fn == code[i - 1] && r.value.meaning == LabelA(code[i - 1])
  {
    if i >= 2 && code[i - 2] == MOV_AH_OPCODE then Some(DosCall(code[i - 1], LabelA(code[i - 1])))
    else None
  }

  /** Pass B's purpose label: present exactly when the interrupt is 0x21 or 0x3F and a byte
      precedes the opcode; it names that byte by pass B's table (or shows it when unknown). */
  function PurposeB(code: seq<byte>, i: nat): (r: Option<DosCall>)
    requires Matches(PassB, code, i)
    ensures r.Some? <==> (code[i + 1] == DOS_INTERRUPT || code[i + 1] == READ_INTERRUPT) && i >= 1
    ensures r.Some? ==> r.value.fn == code[i - 1] && r.value.meaning == LabelB(code[i - 1])
  {
    if (code[i + 1] == DOS_INTERRUPT || code[i + 1] == READ_INTERRUPT) && i >= 1 then
      Some(DosCall(code[i - 1], LabelB(code[i - 1])))
    else None
  }

  /** One pass A report: the index of the INT 21h in the window, its file offset, its context,
      and the MOV AH function if any. */
  datatype HitA = HitA(index: nat, offset: nat, context: seq<byte>, call: Option<DosCall>)

  /** One pass B report: the index of the INT in the window, its interrupt number, its file offset,
      its tagged context, and its purpose. */
  datatype HitB = HitB(index: nat, interrupt: byte, offset: nat, context: seq<Cell>, purpose: Option<DosCall>)

  /** The pass A report for the INT 21h at index i of a window starting at file offset `codeStart`. */
  function ReportA(code: seq<byte>, codeStart: nat, i: nat): (h: HitA)
    requires Matches(PassA, code, i)
    ensures h.index == i
  {
    HitA(i, codeStart + i, ContextA(code, i), CallA(code, i))
  }

  /** The pass B report for the INT at index i of a window starting at file offset `codeStart`. */
  function ReportB(code: seq<byte>, codeStart: nat, i: nat): (h: HitB)
    requires Matches(PassB, code, i)
    ensures h.index == i
  {
    HitB(i, code[i + 1], codeStart + i, ContextB(code, i), PurposeB(code, i))
  }

  /** Pass A over the code window that starts at file offset `codeStart`: one report for each INT 21h
      and for nothing else, in ascending order, each at file offset codeStart + i. */
  function ScanA(code: seq<byte>, codeStart: nat): (r: seq<HitA>)
    ensures forall k :: 0 <= k < |r| ==>
      && Matches(PassA, code, r[k].index)
      && r[k].offset == codeStart + r[k].index
      && r[k].context == ContextA(code, r[k].index)
      && r[k].call == CallA(code, r[k].index)
    ensures forall k, l :: 0 <= k < l < |r| ==> r[k].index < r[l].index
    ensures forall i :: Matches(PassA, code, i) ==> exists k :: 0 <= k < |r| && r[k].index == i
  {
    var found := MatchIndices(PassA, code, 0);
    var hits := seq(|found|, k requires 0 <= k < |found| => ReportA(code, codeStart, found[k]));
    ReportsCoverMatches(PassA, code, found, hits, (h: HitA) => h.index);
    hits
  }

  /** Pass B over the code window that starts at file offset `codeStart`: one report for each INT of
      any number whose number byte lies inside the window, in ascending order, each at file offset
      codeStart + i and carrying the byte after the opcode as the interrupt number. */
  function ScanB(code: seq<byte>, codeStart: nat): (r: seq<HitB>)
    ensures forall k :: 0 <= k < |r| ==>
      && Matches(PassB, code, r[k].index)
      && r[k].offset == codeStart + r[k].index
      && r[k].interrupt == code[r[k].index + 1]
      && r[k].context == ContextB(code, r[k].index)
      && r[k].purpose == PurposeB(code, r[k].index)
    ensures forall k, l :: 0 <= k < l < |r| ==> r[k].index < r[l].index
    ensures forall i :: Matches(PassB, code, i) ==> exists k :: 0 <= k < |r| && r[k].index == i
  {
    var found := MatchIndices(PassB, code, 0);
    var hits := seq(|found|, k requires 0 <= k < |found| => ReportB(code, codeStart, found[k]));
    ReportsCoverMatches(PassB, code, found, hits, (h: HitB) => h.index);
    hits
  }

  /** Reports made one per found index, in order, include a report for every match. */
  lemma ReportsCoverMatches<H>(pass: Pass, code: seq<byte>, found: seq<nat>, hits: seq<H>, index: H -> nat)
    requires found == MatchIndices(pass, code, 0)
    requires |hits| == |found|
    requires forall k :: 0 <= k < |hits| ==> index(hits[k]) == found[k]
    ensures forall i :: Matches(pass, code, i) ==> exists k :: 0 <= k < |hits| && index(hits[k]) == i
  {
    forall i | Matches(pass, code, i)
      ensures exists k :: 0 <= k < |hits| && index(hits[k]) == i
    {
      var k := IndexOf(found, i);
      assert index(hits[k]) == i;
    }
  }

  /** Position of an element known to occur in a sequence. */
  function IndexOf(s: seq<nat>, x: nat): (k: nat)
    requires x in s
    ensures k < |s| && s[k] == x
  {
    if s[0] == x then 0 else 1 + IndexOf(s[1..], x)
  }

  /** The indices in `found` whose instruction is INT 21h, in their original order. */
  function KeepDosCalls(code: seq<byte>, found: seq<nat>): (r: seq<nat>)
  {
    if found == [] then []
    else if found[0] + 1 < |code| && code[found[0] + 1] == DOS_INTERRUPT then
      [found[0]] + KeepDosCalls(code, found[1..])
    else KeepDosCalls(code, found[1..])
  }

  /** Pass A finds exactly the instructions pass B finds whose interrupt number is 0x21,
      in the same order. */
  lemma {:induction false} PassAIsPassBRestricted(code: seq<byte>, from: nat)
    ensures MatchIndices(PassA, code, from) == KeepDosCalls(code, MatchIndices(PassB, code, from))
    decreases |code| - from
  {
    if from + 1 < |code| {
      PassAIsPassBRestricted(code, from + 1);
      var rest := MatchIndices(PassB, code, from + 1);
      if Matches(PassB, code, from) {
        assert ([from] + rest)[0] == from && ([from] + rest)[1..] == rest;
      }
    }
  }

  /** At an INT 21h preceded by MOV AH, fn, both passes name the same function when pass A's table
      knows fn; when fn is one of the sixteen numbers only pass B's table has, pass A shows it as
      unknown while pass B names it. */
  lemma PassesAgreeOnDosCalls(code: seq<byte>, i: nat)
    requires Matches(PassA, code, i) && i >= 2 && code[i - 2] == MOV_AH_OPCODE
    ensures code[i - 1] !in ExtraKeys ==> CallA(code, i) == PurposeB(code, i)
    ensures code[i - 1] in ExtraKeys ==>
      && CallA(code, i) == Some(DosCall(code[i - 1], Unknown(code[i - 1])))
      && PurposeB(code, i).value.meaning.Named?
  {
    TableBExtendsA(code[i - 1]);
    TableAKeys(code[i - 1]);
    TableBKeys(code[i - 1]);
  }

  /** The source's loop bound for pass A, `code.size() - 1`, in 64-bit `size_t` arithmetic. */
  function PassALimitAsWritten(size: nat): (r: nat)
    ensures r < Geometry.SIZE_T_MODULUS
  {
    (size - 1) % Geometry.SIZE_T_MODULUS
  }

  /** On a non-empty window the source's bound admits exactly the indices with a byte after them. */
  lemma PassALimitAgrees(size: nat, i: nat)
    requires 1 <= size <= Geometry.CODE_WINDOW
    ensures i < PassALimitAsWritten(size) <==> i + 1 < size
  {
  }

  /** On an empty window the bound wraps to 2^64 - 1, so the source's loop runs with i = 0 and reads
      code[0] and code[1] of an empty buffer; the model's pass A reports nothing there. */
  lemma PassALimitUnderflows(code: seq<byte>, codeStart: nat)
    requires |code| == 0
    ensures PassALimitAsWritten(|code|) == Geometry.SIZE_T_MODULUS - 1
    ensures 0 < PassALimitAsWritten(|code|) && ByteAt(code, 0) == None
    ensures ScanA(code, codeStart) == []
  {
  }

  /** The index the source reads pass B's function number from: `i - 1` in 64-bit `size_t`
      arithmetic, with no bounds check. */
  function PurposeIndexAsWritten(i: nat): (k: nat)
    ensures k < Geometry.SIZE_T_MODULUS
  {
    (i - 1) % Geometry.SIZE_T_MODULUS
  }

  /** Wherever a byte precedes the opcode, the source's index is the one before it, and the model's
      purpose is read from exactly that byte. */
  lemma PurposeIndexAgrees(code: seq<byte>, i: nat)
    requires |code| <= Geometry.CODE_WINDOW
    requires Matches(PassB, code, i) && i >= 1
    ensures PurposeIndexAsWritten(i) == i - 1
    ensures PurposeB(code, i).Some? ==> PurposeB(code, i).value.fn == code[PurposeIndexAsWritten(i)]
  {
  }

  /** An INT 21h or INT 3Fh at the very start of the window is reported by pass B, but the source's
      function-number index wraps to 2^64 - 1, past the end of any code window; the model reports
      it without a purpose. */
  lemma PurposeReadOutOfBounds(code: seq<byte>)
    requires |code| <= Geometry.CODE_WINDOW
    requires Matches(PassB, code, 0)
    requires code[1] == DOS_INTERRUPT || code[1] == READ_INTERRUPT
    ensures 0 in MatchIndices(PassB, code, 0)
    ensures PurposeIndexAsWritten(0) == Geometry.SIZE_T_MODULUS - 1
    ensures PurposeIndexAsWritten(0) >= |code|
    ensures PurposeB(code, 0) == None
  {
  }
}
