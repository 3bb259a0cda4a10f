/** The two DOS function-number tables: the one the INT 21h pass consults after a MOV AH,
    and the larger one the any-interrupt pass consults for its "purpose" line. */
module DosTables {
  import opened Bytes
  import opened Wrappers

  /** What a report says about a function number: its table name, or "Unknown function (0x..)". */
  datatype Label = Named(name: string) | Unknown(fn: byte)

  /** A function number together with its label. */
  datatype DosCall = DosCall(fn: byte, meaning: Label)

  /** The INT 21h pass's switch: one case per named function number. */
  function NameA(fn: byte): Option<string>
  {
    match fn
    case 0x00 => Some("Program terminate")
    case 0x01 => Some("Char input with echo")
    case 0x02 => Some("Char output")
    case 0x09 => Some("Print string")
    case 0x0A => Some("Buffered input")
    case 0x3C => Some("Create file")
    case 0x3D => Some("Open file")
    case 0x3E => Some("Close file")
    case 0x3F => Some("Read file")
    case 0x40 => Some("Write file")
    case 0x41 => Some("Delete file")
    case 0x4C => Some("Exit program")
    case _ => None
  }

  /** The any-interrupt pass's switch: one case per named function number. */
  function NameB(fn: byte): Option<string>
  {
    match fn
    case 0x00 => Some("Program terminate")
    case 0x01 => Some("Char input with echo")
    case 0x02 => Some("Char output")
    case 0x09 => Some("Print string")
    case 0x0A => Some("Buffered input")
    case 0x0C => Some("Get keystroke (no echo)")
    case 0x10 => Some("Set cursor position")
    case 0x11 => Some("Get current cursor position")
    case 0x12 => Some("Get video mode")
    case 0x13 => Some("Set video mode")
    case 0x16 => Some("Read keystroke (buffered)")
    case 0x17 => Some("Set default drive")
    case 0x1A => Some("Get current disk drive")
    case 0x1C => Some("Get disk free space")
    case 0x1E => Some("Set file attributes")
    case 0x1F => Some("Get file attributes")
    case 0x25 => Some("Set interrupt vector")
    case 0x29 => Some("Get system time")
    case 0x2C => Some("Get system date")
    case 0x2F => Some("Get drive parameter block")
    case 0x30 => Some("Terminate process")
    case 0x3C => Some("Create file")
    case 0x3D => Some("Open file")
    case 0x3E => Some("Close file")
    case 0x3F => Some("Read file")
    case 0x40 => Some("Write file")
    case 0x41 => Some("Delete file")
    case 0x4C => Some("Exit program")
    case _ => None
  }

  /** The function numbers both switches name. */
  const SharedKeys: set<byte> := {0x00, 0x01, 0x02, 0x09, 0x0A, 0x3C, 0x3D, 0x3E, 0x3F, 0x40, 0x41, 0x4C}

  /** The function numbers only the any-interrupt switch names. */
  const ExtraKeys: set<byte> :=
    {0x0C, 0x10, 0x11, 0x12, 0x13, 0x16, 0x17, 0x1A, 0x1C, 0x1E, 0x1F, 0x25, 0x29, 0x2C, 0x2F, 0x30}

  /** A switch's dispatch: the case's name for `fn`, or the default case that shows `fn` itself. */
  function Lookup(name: Option<string>, fn: byte): (l: Label)
  {
    match name
    case Some(n) => Named(n)
    case None => Unknown(fn)
  }

  /** Label of `fn` in the INT 21h pass. */
  function LabelA(fn: byte): Label
  {
    Lookup(NameA(fn), fn)
  }

  /** Label of `fn` in the any-interrupt pass. */
  function LabelB(fn: byte): Label
  {
    Lookup(NameB(fn), fn)
  }

  /** The INT 21h switch names exactly the twelve shared numbers; every other number
      gets the fallback label that shows it. */
  lemma TableAKeys(fn: byte)
    ensures NameA(fn).Some? <==> fn in SharedKeys
    ensures LabelA(fn).Named? <==> fn in SharedKeys
    ensures fn !in SharedKeys ==> LabelA(fn) == Unknown(fn)
  {
  }

  /** The any-interrupt switch names the shared numbers and the sixteen extra ones, nothing else. */
  lemma TableBKeys(fn: byte)
    ensures NameB(fn).Some? <==> fn in SharedKeys || fn in ExtraKeys
    ensures LabelB(fn).Named? <==> fn in SharedKeys || fn in ExtraKeys
    ensures fn !in SharedKeys && fn !in ExtraKeys ==> LabelB(fn) == Unknown(fn)
  {
  }

  /** The any-interrupt switch agrees with the INT 21h switch on every number the latter names,
      and the two differ exactly on the sixteen extra numbers. */
  lemma TableBExtendsA(fn: byte)
    ensures NameA(fn).Some? ==> NameB(fn) == NameA(fn)
    ensures LabelA(fn) != LabelB(fn) <==> fn in ExtraKeys
  {
  }
}
