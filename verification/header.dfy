/** The fixed on-disk layouts of the MZ header and of a relocation-table entry. */
module Header {
  import opened Bytes
  import opened Wrappers

  /** Size in bytes of the packed header: fourteen 16-bit fields. */
  const HEADER_SIZE: nat := 28
  const HEADER_FIELDS: nat := 14
  /** Size in bytes of one relocation entry: two 16-bit fields. */
  const RELOCATION_SIZE: nat := 4
  /** The bytes 'M','Z' read as a little-endian 16-bit value. */
  const MZ_SIGNATURE: u16 := 0x5A4D

  datatype MZHeader = MZHeader(
    signature: u16,
    lastsize: u16,
    nblocks: u16,
    nreloc: u16,
    hdrsize: u16,
    minalloc: u16,
    maxalloc: u16,
    ss: u16,
    sp: u16,
    checksum: u16,
    ip: u16,
    cs: u16,
    relocpos: u16,
    noverlay: u16)
  {
    /** Field number k in declaration order: 0 is signature, 13 is noverlay. */
    function Field(k: nat): u16
      requires k < HEADER_FIELDS
    {
      if k == 0 then signature
      else if k == 1 then lastsize
      else if k == 2 then nblocks
      else if k == 3 then nreloc
      else if k == 4 then hdrsize
      else if k == 5 then minalloc
      else if k == 6 then maxalloc
      else if k == 7 then ss
      else if k == 8 then sp
      else if k == 9 then checksum
      else if k == 10 then ip
      else if k == 11 then cs
      else if k == 12 then relocpos
      else noverlay
    }
  }

  datatype RelocationEntry = RelocationEntry(offset: u16, segment: u16)

  /** Two headers that agree on every numbered field are the same header. */
  lemma FieldsDetermineHeader(h: MZHeader, g: MZHeader)
    requires forall k :: 0 <= k < HEADER_FIELDS ==> h.Field(k) == g.Field(k)
    ensures h == g
  {
    assert h.Field(0) == g.Field(0) && h.Field(1) == g.Field(1) && h.Field(2) == g.Field(2);
    assert h.Field(3) == g.Field(3) && h.Field(4) == g.Field(4) && h.Field(5) == g.Field(5);
    assert h.Field(6) == g.Field(6) && h.Field(7) == g.Field(7) && h.Field(8) == g.Field(8);
    assert h.Field(9) == g.Field(9) && h.Field(10) == g.Field(10) && h.Field(11) == g.Field(11);
    assert h.Field(12) == g.Field(12) && h.Field(13) == g.Field(13);
  }

  /** Reads the header from the first 28 bytes of the file; a file shorter than the header has none. */
  function DecodeHeader(file: seq<byte>): (r: Option<MZHeader>)
    ensures r.None? <==> |file| < HEADER_SIZE
  {
    if |file| < HEADER_SIZE then None
    else
      Some(MZHeader(
        WordAt(file, 0), WordAt(file, 2), WordAt(file, 4), WordAt(file, 6),
        WordAt(file, 8), WordAt(file, 10), WordAt(file, 12), WordAt(file, 14),
        WordAt(file, 16), WordAt(file, 18), WordAt(file, 20), WordAt(file, 22),
        WordAt(file, 24), WordAt(file, 26)))
  }

  /** Field k of a decoded header, in declaration order, is the little-endian word at bytes 2k and 2k+1. */
  lemma DecodeHeaderFields(file: seq<byte>)
    requires |file| >= HEADER_SIZE
    ensures forall k :: 0 <= k < HEADER_FIELDS ==> DecodeHeader(file).value.Field(k) == WordAt(file, 2 * k)
  {
    var h := DecodeHeader(file).value;
    forall k | 0 <= k < HEADER_FIELDS
      ensures h.Field(k) == WordAt(file, 2 * k)
    {
      if k < 7 {
        assert k == 0 || k == 1 || k == 2 || k == 3 || k == 4 || k == 5 || k == 6;
      } else {
        assert k == 7 || k == 8 || k == 9 || k == 10 || k == 11 || k == 12 || k == 13;
      }
    }
  }

  /** Only the first 28 bytes of a file take part in decoding its header. */
  lemma DecodeHeaderPrefix(file: seq<byte>, more: seq<byte>)
    requires |file| >= HEADER_SIZE
    ensures DecodeHeader(file + more) == DecodeHeader(file)
  {
    assert (file + more)[..HEADER_SIZE] == file[..HEADER_SIZE];
  }

  /** The 28 bytes that hold the header on disk. */
  function EncodeHeader(h: MZHeader): (bytes: seq<byte>)
    ensures |bytes| == HEADER_SIZE
  {
    seq(HEADER_SIZE, i requires 0 <= i < HEADER_SIZE => ByteOf(h.Field(i / 2), i % 2))
  }

  /** Decoding the encoding of a header gives the header back. */
  lemma HeaderRoundTrip(h: MZHeader)
    ensures DecodeHeader(EncodeHeader(h)) == Some(h)
  {
    var bytes := EncodeHeader(h);
    var g := DecodeHeader(bytes).value;
    DecodeHeaderFields(bytes);
    forall k | 0 <= k < HEADER_FIELDS
      ensures g.Field(k) == h.Field(k)
    {
      assert bytes[2 * k] == ByteOf(h.Field(k), 0);
      assert bytes[2 * k + 1] == ByteOf(h.Field(k), 1);
      U16OfBytes(h.Field(k));
    }
    FieldsDetermineHeader(g, h);
  }

  /** Re-encoding a decoded header reproduces the first 28 bytes of the file exactly. */
  lemma HeaderBytesRoundTrip(file: seq<byte>)
    requires |file| >= HEADER_SIZE
    ensures EncodeHeader(DecodeHeader(file).value) == file[..HEADER_SIZE]
  {
    var h := DecodeHeader(file).value;
    var bytes := EncodeHeader(h);
    DecodeHeaderFields(file);
    forall i | 0 <= i < HEADER_SIZE
      ensures bytes[i] == file[i]
    {
      var k := i / 2;
      assert h.Field(k) == WordAt(file, 2 * k);
      if i % 2 == 0 {
        assert i == 2 * k;
      } else {
        assert i == 2 * k + 1;
      }
    }
  }

  /** A file that starts with 'M','Z' decodes to the MZ signature. */
  lemma MagicGivesSignature(file: seq<byte>)
    requires |file| >= HEADER_SIZE
    requires file[0] == 'M' as int && file[1] == 'Z' as int
    ensures DecodeHeader(file).value.signature == MZ_SIGNATURE
  {
  }

  /** The entry stored at byte `at`: offset from its first two bytes, segment from the next two. */
  function DecodeRelocation(s: seq<byte>, at: nat): (e: RelocationEntry)
    requires at + RELOCATION_SIZE <= |s|
  {
    RelocationEntry(WordAt(s, at), WordAt(s, at + 2))
  }

  /** The 4 bytes that hold a relocation entry on disk. */
  function EncodeRelocation(e: RelocationEntry): (bytes: seq<byte>)
    ensures |bytes| == RELOCATION_SIZE
  {
    [ByteOf(e.offset, 0), ByteOf(e.offset, 1), ByteOf(e.segment, 0), ByteOf(e.segment, 1)]
  }

  /** Decoding the encoding of an entry gives the entry back, and the reverse for any 4 bytes. */
  lemma RelocationRoundTrip(e: RelocationEntry, s: seq<byte>)
    requires |s| == RELOCATION_SIZE
    ensures DecodeRelocation(EncodeRelocation(e), 0) == e
    ensures EncodeRelocation(DecodeRelocation(s, 0)) == s
  {
    U16OfBytes(e.offset);
    U16OfBytes(e.segment);
  }

  /** The `count` entries of the relocation table that starts at byte `pos`, entry k read from
      bytes pos+4k .. pos+4k+3, in ascending k; None when the table runs past the end of the file. */
  function DecodeRelocations(file: seq<byte>, pos: nat, count: nat): (r: Option<seq<RelocationEntry>>)
    ensures r.Some? <==> count == 0 || pos + RELOCATION_SIZE * count <= |file|
    ensures r.Some? ==> |r.value| == count
    ensures r.Some? ==> forall k :: 0 <= k < count ==> r.value[k] == DecodeRelocation(file, pos + RELOCATION_SIZE * k)
    decreases count
  {
    if count == 0 then Some([])
    else if pos + RELOCATION_SIZE > |file| then None
    else
      match DecodeRelocations(file, pos + RELOCATION_SIZE, count - 1)
      case None => None
      case Some(rest) => Some([DecodeRelocation(file, pos)] + rest)
  }
}
