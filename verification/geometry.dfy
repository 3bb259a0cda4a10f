/** File geometry derived from the header: estimated file size, start and length of the code window. */
module Geometry {
  import opened Wrappers
  import opened Header

  const PAGE_SIZE: nat := 512
  const PARAGRAPH_SIZE: nat := 16
  /** The analysis never looks at more than this many code bytes. */
  const CODE_WINDOW: nat := 1024
  /** Values of the source's `uint32_t` and 64-bit `size_t` wrap modulo these. */
  const U32_MODULUS: nat := 0x1_0000_0000
  const SIZE_T_MODULUS: nat := 0x1_0000_0000_0000_0000
  /** The largest size a header with at least one page can describe. */
  const MAX_FILE_SIZE: nat := 0xFFFE * 512 + 0xFFFF

  datatype GeometryError =
    | NoPages                   // nblocks == 0: the page arithmetic underflows
    | CodeStartBeyondFileSize   // hdrsize*16 > fileSize: the code length underflows

  /** Estimated file size: all pages but the last are full, the last holds `lastsize` bytes. */
  function FileSize(h: MZHeader): (r: Result<nat, GeometryError>)
    ensures r.Failure? <==> h.nblocks == 0
    ensures r.Failure? ==> r.error == NoPages
    ensures r.Success? ==> r.value + PAGE_SIZE == h.nblocks * PAGE_SIZE + h.lastsize
    ensures r.Success? ==> r.value <= MAX_FILE_SIZE < U32_MODULUS
  {
    if h.nblocks == 0 then Failure(NoPages)
    else Success((h.nblocks - 1) * PAGE_SIZE + h.lastsize)
  }

  /** Absolute file offset of the load image: the header size counted in 16-byte paragraphs. */
  function CodeStart(h: MZHeader): (r: nat)
    ensures r % PARAGRAPH_SIZE == 0 && r / PARAGRAPH_SIZE == h.hdrsize
  {
    h.hdrsize * PARAGRAPH_SIZE
  }

  /** Length of the code window: whatever lies between the code start and the estimated end
      of file, capped at 1024 bytes; an error when the code would start past the end. */
  function CodeSize(fileSize: nat, codeStart: nat): (r: Result<nat, GeometryError>)
    ensures r.Failure? <==> codeStart > fileSize
    ensures r.Failure? ==> r.error == CodeStartBeyondFileSize
    ensures r.Success? ==> r.value <= CODE_WINDOW && codeStart + r.value <= fileSize
    ensures r.Success? && r.value < CODE_WINDOW ==> codeStart + r.value == fileSize
  {
    if codeStart > fileSize then Failure(CodeStartBeyondFileSize)
    else if fileSize - codeStart < CODE_WINDOW then Success(fileSize - codeStart)
    else Success(CODE_WINDOW)
  }

  /** The file size as the source computes it: the page arithmetic in `int`, stored in a `uint32_t`. */
  function FileSizeAsWritten(h: MZHeader): (r: nat)
    ensures r < U32_MODULUS
  {
    ((h.nblocks - 1) * PAGE_SIZE + h.lastsize) % U32_MODULUS
  }

  /** With at least one page nothing wraps, and the source's value is the estimated size. */
  lemma FileSizeAsWrittenAgrees(h: MZHeader)
    requires h.nblocks >= 1
    ensures FileSize(h) == Success(FileSizeAsWritten(h))
  {
  }

  /** With no pages and a short last page the source's size wraps to more than four gigabytes,
      far beyond anything a header can describe. */
  lemma FileSizeAsWrittenWraps(h: MZHeader)
    requires h.nblocks == 0 && h.lastsize < PAGE_SIZE
    ensures FileSizeAsWritten(h) == U32_MODULUS - PAGE_SIZE + h.lastsize
    ensures FileSizeAsWritten(h) > MAX_FILE_SIZE
    ensures FileSize(h) == Failure(NoPages)
  {
  }

  /** The code length as the source computes it: a `uint32_t` subtraction, then `min` with 1024. */
  function CodeSizeAsWritten(fileSize: nat, codeStart: nat): (r: nat)
    requires fileSize < U32_MODULUS
    ensures r <= CODE_WINDOW
  {
    var remaining := (fileSize - codeStart) % U32_MODULUS;
    if remaining < CODE_WINDOW then remaining else CODE_WINDOW
  }

  /** When the code starts inside the file, the source's length is the model's. */
  lemma CodeSizeAsWrittenAgrees(fileSize: nat, codeStart: nat)
    requires codeStart <= fileSize < U32_MODULUS
    ensures CodeSize(fileSize, codeStart) == Success(CodeSizeAsWritten(fileSize, codeStart))
  {
  }

  /** When the header puts the code past the estimated end of file, the source's subtraction
      wraps and `min` turns it into a full 1024-byte window instead of an error. */
  lemma CodeSizeAsWrittenHidesUnderflow(h: MZHeader, fileSize: nat)
    requires fileSize < U32_MODULUS
    requires CodeStart(h) > fileSize
    ensures CodeSizeAsWritten(fileSize, CodeStart(h)) == CODE_WINDOW
    ensures CodeSize(fileSize, CodeStart(h)) == Failure(CodeStartBeyondFileSize)
  {
  }
}
