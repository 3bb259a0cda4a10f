# MZ executable analyzer — Dafny model

This project models the analysis core of ExeDump: the routine that takes a DOS "MZ" executable,
decodes its 28-byte header, estimates the file size, lists the relocation table, reads a window of
at most 1024 code bytes from the start of the load image, and scans that window twice for software
interrupts. Pass A reports every `INT 21h` (`CD 21`) with its context and, after a `MOV AH, fn`
(`B4 fn`), names the DOS function `fn`. Pass B reports every `INT n` (`CD n`) with a tagged context and,
for `n` = 0x21 or 0x3F, names the function in the byte before the opcode using a larger table.

The file is an in-memory `seq<byte>`. Every step is a pure function:

- `Bytes`: `byte`, `u16` and the little-endian word read.
- `Header`: the `MZHeader` and `RelocationEntry` records. It has decoders and encoders for both and the relocation-table reader.
- `DosTables`: the two `switch` tables, as `NameA` and `NameB`, with their labels.
- `Geometry`: the estimated file size, the code start and the code-window length. It also holds the source's wrapping arithmetic, kept as written so it can be compared.
- `Scan`: the single parametrised scan `MatchIndices`, the clipped context windows, the two labels, and the two passes `ScanA` and `ScanB`.
- `Analyzer`: the whole analysis as `Analyze`. It returns a structured `Report` or the error that stopped it.
- `Scenarios`: concrete byte patterns and what the report says about them.

Reports are records, not text. Pass A's report has the offset, the context bytes and the optional `DosCall`, which is the function number and its label. Pass B's report has the interrupt number, the offset, the context cells and the optional purpose. The code buffer is zero wherever the file ends before the window is full. This follows MZ.cpp:61-62, where a value-initialised `std::vector` receives a short read. The estimated file size is never checked against the real length of the file.

Two behaviours that are easy to misremember are modelled as the code has them:

- Pass A does have an "Unknown function (0x..)" fallback (MZ.cpp:100).
- Pass B's label is computed for interrupt 0x21 or 0x3F whatever the preceding bytes are.

## Model

| member | source | states |
|---|---|---|
| Header.DecodeHeader | MZ.cpp:15-16 | no header exactly when the file is shorter than the 28-byte header |
| Header.DecodeHeaderFields | MZ.hpp:7-22 | field k of the decoded header (signature, lastsize, …, noverlay in declaration order) is the little-endian word at bytes 2k, 2k+1 |
| Header.DecodeHeaderPrefix | MZ.cpp:16 | only the first 28 bytes of the file take part in decoding the header |
| Header.HeaderRoundTrip | MZ.hpp:7-22 | decoding the 28-byte image of any header gives that header back, so the layout loses no field |
| Header.HeaderBytesRoundTrip | MZ.hpp:7-22 | re-encoding the decoded header reproduces the file's first 28 bytes exactly: the packed layout has no padding and no unused byte |
| Header.MagicGivesSignature | Main.cpp:25 | a file whose first bytes are 'M','Z' decodes to signature 0x5A4D |
| Header.RelocationRoundTrip | MZ.hpp:24-27 | an entry is 4 bytes, offset from bytes 0-1 then segment from bytes 2-3; decode and encode are inverse both ways |
| Header.DecodeRelocations | MZ.cpp:46-53 | the table at relocpos yields exactly count entries, entry k decoded from bytes relocpos+4k..relocpos+4k+3 in ascending k, and is absent exactly when a non-empty table runs past the end of the file |
| DosTables.TableAKeys | MZ.cpp:87-101 | pass A's switch names exactly the twelve numbers 00,01,02,09,0A,3C,3D,3E,3F,40,41,4C; every other number gets the "Unknown function" label carrying the number |
| DosTables.TableBKeys | MZ.cpp:135-165 | pass B's switch names exactly those twelve plus the sixteen numbers 0C,10,11,12,13,16,17,1A,1C,1E,1F,25,29,2C,2F,30; the rest fall back to "Unknown function" |
| DosTables.TableBExtendsA | MZ.cpp:132-165 | pass B's table gives the same name as pass A's on every number pass A names, and the two labels differ exactly on the sixteen extra numbers |
| Geometry.FileSize | MZ.cpp:39 | an error exactly when nblocks is 0; otherwise all pages but the last are full and the last holds lastsize bytes, and the size fits in 32 bits |
| Geometry.CodeStart | MZ.cpp:58 | the code starts at the header size counted in 16-byte paragraphs: a multiple of 16 whose paragraph count is hdrsize |
| Geometry.CodeSize | MZ.cpp:59 | an error exactly when the code start lies past the estimated end of file; otherwise at most 1024 bytes and within the file, and the whole rest of the file whenever it is shorter than 1024 |
| Geometry.FileSizeAsWritten | MZ.cpp:39 | the source's uint32_t size is always below 2^32 |
| Geometry.FileSizeAsWrittenAgrees | MZ.cpp:39 | with at least one page the source's value equals the estimated size: no wrap, no off-by-one |
| Geometry.FileSizeAsWrittenWraps | MZ.cpp:39 | with no pages and lastsize < 512 the source's value is 2^32 - 512 + lastsize, beyond any size a header can describe |
| Geometry.CodeSizeAsWritten | MZ.cpp:59 | the source's code length never exceeds 1024 |
| Geometry.CodeSizeAsWrittenAgrees | MZ.cpp:59 | when the code starts inside the file the source's length is the model's |
| Geometry.CodeSizeAsWrittenHidesUnderflow | MZ.cpp:59 | when hdrsize*16 exceeds the file size the source's subtraction wraps and min turns it into a full 1024-byte window, where the model reports an error |
| Scan.MatchIndices | MZ.cpp:110-111 | the scan returns exactly the indices i with code[i] = CD and i+1 inside the window (and code[i+1] = 21 for pass A), each once, strictly ascending |
| Scan.Window | MZ.cpp:74-79 | collecting code[i+j] over a j range while skipping out-of-range positions yields exactly the clipped slice: no invented bytes, none dropped, in order |
| Scan.ContextA | MZ.cpp:74-79 | pass A's context is the in-bounds part of code[i-10 .. i+9], in order, at most 20 bytes |
| Scan.ContextB | MZ.cpp:118-128 | pass B's context has one cell per in-bounds position of i-10 .. i+10, at most 21 |
| Scan.ContextBCells | MZ.cpp:118-128 | cell k stands for the byte at the k-th in-bounds position; only the opcode's cell is tagged [CD], only the next one carries the interrupt tag, and both are present |
| Scan.CallA | MZ.cpp:83-101 | a function label exists exactly when i >= 2 and code[i-2] = B4, and then it is code[i-1] with its pass A label |
| Scan.PurposeB | MZ.cpp:132-166 | a purpose exists exactly when the interrupt is 21 or 3F and a byte precedes the opcode, and then it is code[i-1] with its pass B label |
| Scan.ScanA | MZ.cpp:67-105 | one report per INT 21h and no other, in ascending order, each at file offset codeStart + i with pass A's context and label |
| Scan.ScanB | MZ.cpp:110-170 | one report per CD byte followed by a byte in the window, whatever that byte is, in ascending order, with interrupt = code[i+1], file offset codeStart + i, tagged context and purpose |
| Scan.PassAIsPassBRestricted | MZ.cpp:67-113 | pass A finds exactly pass B's instructions whose interrupt number is 21, in the same order |
| Scan.PassesAgreeOnDosCalls | MZ.cpp:83-165 | after MOV AH, fn and INT 21h both passes name the same function unless fn is one of pass B's sixteen extra numbers, where pass A shows it as unknown |
| Scan.PassALimitAsWritten | MZ.cpp:67 | the source's loop bound code.size() - 1 is a 64-bit size_t value |
| Scan.PassALimitAgrees | MZ.cpp:67 | on a non-empty window that bound admits exactly the indices with a byte after them |
| Scan.PassALimitUnderflows | MZ.cpp:67 | on an empty window the bound is 2^64 - 1, so the source's loop reads past an empty buffer, while the model's pass A reports nothing |
| Scan.PurposeIndexAsWritten | MZ.cpp:133 | the source's index for pass B's function number, i - 1, is a 64-bit size_t value |
| Scan.PurposeIndexAgrees | MZ.cpp:132-133 | wherever a byte precedes the opcode that index is i - 1, and the model's purpose is read from exactly that byte |
| Scan.PurposeReadOutOfBounds | MZ.cpp:132-133 | an INT 21h or INT 3Fh at index 0 is reported by pass B, the source's index wraps to 2^64 - 1, past the end of any code window, and the model gives no purpose |
| Scenarios.DosCallReported | MZ.cpp:67-101 | the bytes B4 fn CD 21 at index i give a pass A report for index i + 2 at file offset codeStart + i + 2 naming fn by pass A's table |
| Scenarios.DosPurposeReported | MZ.cpp:110-166 | the same bytes give a pass B report for index i + 2 with interrupt 21 whose purpose names fn by pass B's table |
| Scenarios.ReadFileIsNamed | MZ.cpp:96 | the bytes B4 3F CD 21 at index i are reported at codeStart + i + 2 as "Read file" by both passes |
| Scenarios.TinyProgramHasLayout | MZ.hpp:7-22 | the 38-byte file made of the encoded header (nblocks 2, lastsize 100, hdrsize 2, nreloc 0), four padding bytes and B4 09 CD 21 90 90 starts with 'M','Z', decodes to that header and has that code at offset 32 |
| Scenarios.TinyLayoutGeometry | MZ.cpp:39-62 | such a file analyses to estimated size 612, code start 32, no relocation table and a 580-byte code window that begins with its code |
| Scenarios.TinyLayoutReport | MZ.cpp:67-166 | such a file gets a pass A report at offset 34 labelled "Print string" and a pass B report at offset 34 with interrupt 21 and purpose "Print string" |
| Analyzer.ReadCode | MZ.cpp:61-62 | the code buffer holds the file's bytes from the code start while they last and zeros after |
| Analyzer.RelocationsOf | MZ.cpp:43-55 | no relocation section exactly when nreloc is 0; otherwise the nreloc entries of the table at relocpos, or a failure exactly when they do not fit in the file |
| Analyzer.Analyze | MZ.cpp:8-173 | each error occurs exactly in its case: short header, no pages, truncated relocations, code start past the end. On success the report holds the decoded header with signature 5A4D, the estimated size, the relocation section, the code window of at most 1024 bytes at hdrsize*16, and both passes over it |
| Analyzer.ReportsLocateOpcodes | MZ.cpp:58-114 | every reported file offset is the code start plus the index in the window and points at the INT opcode byte in the file itself, never at the zero-filled tail; pass A's 21 follows it in the file, and pass B's interrupt number does wherever the file reaches that far |

## Findings

| source | as written | input that shows it | evidently intended | confidence | as-written member | corrected member |
|---|---|---|---|---|---|---|
| MZ.cpp:39 | `(nblocks - 1) * 512 + lastsize` stored in a `uint32_t` | nblocks = 0, lastsize = 0 gives 4294966784 | a header with no pages is rejected | high, not executed | Geometry.FileSizeAsWritten (shown by Geometry.FileSizeAsWrittenWraps) | Geometry.FileSize |
| MZ.cpp:59 | `min(fileSize - hdrsize*16, 1024)` with an unsigned subtraction | fileSize = 612, hdrsize = 64 (code start 1024) gives a 1024-byte window | code starting past the end of file is an error | high, not executed | Geometry.CodeSizeAsWritten (shown by Geometry.CodeSizeAsWrittenHidesUnderflow) | Geometry.CodeSize |
| MZ.cpp:67 | loop bound `code.size() - 1` in `size_t` | an empty code window (fileSize = hdrsize*16) gives bound 2^64 - 1 and a read of code[0] | pass A stops before the last byte and does nothing on an empty window | high, not executed | Scan.PassALimitAsWritten (shown by Scan.PassALimitUnderflows) | Scan.ScanA |
| MZ.cpp:133 | `code[i - 1]` read with no bounds check | code window starting CD 21 gives a read at index 2^64 - 1 | no purpose when nothing precedes the opcode | high, not executed | Scan.PurposeIndexAsWritten (shown by Scan.PurposeReadOutOfBounds) | Scan.PurposeB |

## Left out

- File handling: opening the file, `seekg`, `read` and `close` (MZ.cpp:9-13, 16, 46, 58, 62, 172). The file is a byte sequence passed in.
- Console output: the text of every line and the stream's sticky hex/decimal state. Reports are structured records. Only the labels' names are reproduced, not the `Unknown function (0x..)` text or the printed `MOV AH, 0x..` value, which are kept as the numbers `Unknown(fn)` and `DosCall.fn`.
- `main`, argument checking, exit codes and the `isMZExecutable` probe (Main.cpp:14-43). The probe's 'M','Z' test is `Analyze`'s precondition `HasMZMagic`.
- The unused `DOSHeader` and `PEHeader` structs (Main.cpp:6-12).
- Short header reads. On a file under 28 bytes the source fills the struct with whatever `read` leaves, so its output is undefined. The model returns `TruncatedHeader`.
- Truncated relocation tables. The source keeps going on a failed stream, so its later reads return nothing. The model stops with `TruncatedRelocations`.
- Geometry.FileSize: on a header with no pages (`nblocks = 0`) and `lastsize >= 512` the source's arithmetic does not wrap. The model still rejects every header with no pages, and so `Analyzer.Analyze` fails with `BadGeometry(NoPages)` for it.
- Concurrency and floating point: the routine has neither.
