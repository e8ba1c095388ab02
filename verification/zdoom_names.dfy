/**
 * ZDoom's global name table (`FName` storage) and the tables the splitters build by naming
 * every object of an in-memory list.
 */
module ZDoomNames {
  import opened Outcome
  import opened Remote

  /** Entries are 16 bytes; the first eight hold a pointer to the characters. */
  const NameEntrySize: nat := 0x10

  /** Where the entry table pointer sits in the name manager. */
  const NameEntries: nat := 0x8

  datatype NameManager = NameManager(address: nat)

  /** The characters of name `index`, read field by field: entry table, entry, characters. */
  function NameCharsAt(m: Memory, nm: NameManager, index: nat): Option<nat>
  {
    match ReadU64(m, nm.address + NameEntries)
    case None => None
    case Some(entries) =>
      match ReadU64(m, entries + index * NameEntrySize)
      case None => None
      case Some(chars) => Some(chars)
  }

  /**
   * `get_chars`: the name with index `index`. An unreadable entry is an error; characters that
   * are not UTF-8 are a panic.
   */
  function GetChars(m: Memory, nm: NameManager, index: nat): (r: Result<string>)
    ensures r.Ok? <==> NameCharsAt(m, nm, index).Some? && NameCharsAt(m, nm, index).value in m.strings
                       && m.strings[NameCharsAt(m, nm, index).value].Utf8?
    ensures r.Ok? ==> r.value == m.strings[NameCharsAt(m, nm, index).value].text
    ensures r.Panic? <==> NameCharsAt(m, nm, index).Some? && NameCharsAt(m, nm, index).value in m.strings
                          && m.strings[NameCharsAt(m, nm, index).value].Invalid?
    ensures r.Err? ==> r == Err(ReadFailed)
  {
    TargetOfThree(m, Bit64, nm.address, NameEntries, index * NameEntrySize, 0x0);
    match ReadPath(m, Bit64, nm.address, [NameEntries, index * NameEntrySize, 0x0], CStringDecoder())
    case Ok(cs) => if cs.Utf8? then Ok(cs.text) else Panic("waaaah..")
    case Err(e) => Err(e)
    case Panic(s) => Panic(s)
  }
}
