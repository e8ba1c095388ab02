/**
 * The process an auto splitter attaches to, seen from outside: a snapshot of its memory, its
 * loaded modules, and the pointer-path evaluation rule every read in the splitters goes through.
 */
module Remote {
  import opened Outcome

  const U8: nat := 0x100
  const U16: nat := 0x1_0000
  const U32: nat := 0x1_0000_0000
  const U64: nat := 0x1_0000_0000_0000_0000

  /** A NUL-terminated byte string in the target: either valid UTF-8 text or not. */
  datatype CString = Utf8(text: string) | Invalid

  /**
   * One instant of the target's memory. `words` holds the little-endian 64-bit word at every
   * readable address (a narrower read keeps its low bytes); `strings` holds the C string that
   * starts at an address.
   */
  datatype Memory = Memory(words: map<nat, nat>, strings: map<nat, CString>)

  /** Width of the pointers a path dereferences. */
  datatype PointerSize = Bit32 | Bit64

  /** A loaded module: where it starts, how long it is, and where each byte signature first matches. */
  datatype ModuleInfo = ModuleInfo(base: nat, size: nat, firstMatch: map<string, nat>)

  /** An attached process: its memory and its modules by name. */
  datatype Process = Process(memory: Memory, modules: map<string, ModuleInfo>)

  /** How a plain value of type `T` is read from an address (a `CheckedBitPattern` read). */
  type Decoder<T> = (Memory, nat) -> Option<T>

  /** Reads the low bytes of the word at `a`, as an unsigned integer below `modulus`. */
  function ReadUnsigned(m: Memory, a: nat, modulus: nat): (r: Option<nat>)
    requires modulus > 0
    ensures r.Some? <==> a in m.words
    ensures r.Some? ==> r.value < modulus
  {
    if a in m.words then Some(m.words[a] % modulus) else None
  }

  function ReadU8(m: Memory, a: nat): Option<nat> { ReadUnsigned(m, a, U8) }
  function ReadU16(m: Memory, a: nat): Option<nat> { ReadUnsigned(m, a, U16) }
  function ReadU32(m: Memory, a: nat): Option<nat> { ReadUnsigned(m, a, U32) }
  function ReadU64(m: Memory, a: nat): Option<nat> { ReadUnsigned(m, a, U64) }

  function ReadPointer(m: Memory, a: nat, size: PointerSize): Option<nat>
  {
    match size
    case Bit32 => ReadU32(m, a)
    case Bit64 => ReadU64(m, a)
  }

  /** Reads the C string that starts at an address (`ArrayCString`). */
  function CStringDecoder(): Decoder<CString>
  {
    (m: Memory, a: nat) => if a in m.strings then Some(m.strings[a]) else None
  }

  /**
   * The address a pointer path designates: every offset but the last is added and the pointer
   * stored there is followed; the last offset is only added.
   */
  function Target(m: Memory, size: PointerSize, base: nat, path: seq<nat>): (r: Option<nat>)
    requires |path| > 0
    decreases |path|
  {
    if |path| == 1 then Some(base + path[0])
    else match ReadPointer(m, base + path[0], size)
      case None => None
      case Some(next) => Target(m, size, next, path[1..])
  }

  /** Reads a value through a pointer path; an empty path designates nothing. */
  function ReadPath<T>(m: Memory, size: PointerSize, base: nat, path: seq<nat>, decode: Decoder<T>): (r: Result<T>)
    ensures !r.Ok? ==> r == Err(ReadFailed)
    ensures r.Ok? <==> |path| > 0 && Target(m, size, base, path).Some?
                       && decode(m, Target(m, size, base, path).value).Some?
    ensures r.Ok? ==> Some(r.value) == decode(m, Target(m, size, base, path).value)
  {
    if |path| == 0 then Err(ReadFailed)
    else match Target(m, size, base, path)
      case None => Err(ReadFailed)
      case Some(a) => OkOr(decode(m, a), ReadFailed)
  }

  /** A one-offset path designates base plus that offset without reading anything. */
  lemma TargetSingle(m: Memory, size: PointerSize, base: nat, off: nat)
    ensures Target(m, size, base, [off]) == Some(base + off)
  {
  }

  /** A two-offset path follows one pointer. */
  lemma TargetOfTwo(m: Memory, size: PointerSize, base: nat, a: nat, b: nat)
    ensures Target(m, size, base, [a, b]) == match ReadPointer(m, base + a, size)
                                             case None => None
                                             case Some(p) => Some(p + b)
  {
    assert [a, b][1..] == [b];
  }

  /** A three-offset path follows two pointers. */
  lemma TargetOfThree(m: Memory, size: PointerSize, base: nat, a: nat, b: nat, c: nat)
    ensures Target(m, size, base, [a, b, c]) == match ReadPointer(m, base + a, size)
                                                case None => None
                                                case Some(p) =>
                                                  match ReadPointer(m, p + b, size)
                                                  case None => None
                                                  case Some(q) => Some(q + c)
  {
    assert [a, b, c][1..] == [b, c];
    match ReadPointer(m, base + a, size)
    case None =>
    case Some(p) => TargetOfTwo(m, size, p, b, c);
  }

  /**
   * Splicing: a path whose last offset is merged with the first offset of a second path
   * designates what the second path designates from the first path's target.
   */
  lemma {:induction false} TargetSplice(m: Memory, size: PointerSize, base: nat, p: seq<nat>, c: seq<nat>)
    requires |p| > 0 && |c| > 0
    ensures Target(m, size, base, p[..|p| - 1] + [p[|p| - 1] + c[0]] + c[1..]) ==
            match Target(m, size, base, p)
            case None => None
            case Some(a) => Target(m, size, a, c)
    decreases |p|
  {
    var joined := p[..|p| - 1] + [p[|p| - 1] + c[0]] + c[1..];
    if |p| == 1 {
      assert joined == [base - base + p[0] + c[0]] + c[1..];
      if |c| > 1 {
        assert joined[1..] == c[1..];
      }
    } else {
      assert joined[0] == p[0];
      var rest := p[1..];
      assert joined[1..] == rest[..|rest| - 1] + [rest[|rest| - 1] + c[0]] + c[1..];
      match ReadPointer(m, base + p[0], size)
      case None =>
      case Some(next) =>
        TargetSplice(m, size, next, rest, c);
    }
  }
}
