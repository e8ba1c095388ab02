/**
 * Pointer paths and memory watchers of the helpers crate: a path names a value in the target
 * by a base address and a chain of offsets; a watcher memoises the value of a path for one
 * tick and keeps the value of the tick before.
 */
module Pointer {
  import opened Outcome
  import opened Remote

  /** What a path is read through: a native process, or a GBA emulator that reads 32-bit pointers. */
  datatype Reader = ProcessReader | EmulatorReader

  datatype PointerPath = PointerPath(
    name: Option<string>,
    reader: Reader,
    base: nat,
    path: seq<nat>,
    size: PointerSize)

  /** A path with 64-bit pointers and no name. */
  function New(reader: Reader, base: nat, path: seq<nat>): PointerPath
  {
    PointerPath(None, reader, base, path, Bit64)
  }

  /** A path with 32-bit pointers and no name. */
  function New32(reader: Reader, base: nat, path: seq<nat>): PointerPath
  {
    PointerPath(None, reader, base, path, Bit32)
  }

  /** The same path with a name for its error messages. */
  function Named(p: PointerPath, name: string): PointerPath
  {
    p.(name := Some(name))
  }

  function LastOrZero(s: seq<nat>): nat
  {
    if |s| > 0 then s[|s| - 1] else 0
  }

  function AllButLast(s: seq<nat>): seq<nat>
  {
    if |s| > 0 then s[..|s| - 1] else []
  }

  /**
   * The path that continues `p` with `c`: the first offset of `c` is added to the last offset of
   * `p` instead of dereferencing it, so `c` is read relative to what `p` designates. The name is
   * dropped. The source panics on an empty `c` and overflows on a sum beyond 64 bits.
   */
  function ChildPath(p: PointerPath, c: seq<nat>): (r: PointerPath)
    requires |c| > 0
    requires LastOrZero(p.path) + c[0] < U64
    ensures r.name == None && r.reader == p.reader && r.base == p.base && r.size == p.size
    ensures |r.path| == (if |p.path| == 0 then 1 else |p.path|) + |c| - 1
    ensures r.path[..|AllButLast(p.path)|] == AllButLast(p.path)
    ensures r.path[|AllButLast(p.path)|] == LastOrZero(p.path) + c[0]
    ensures r.path[|AllButLast(p.path)| + 1..] == c[1..]
  {
    var joined := AllButLast(p.path) + [LastOrZero(p.path) + c[0]] + c[1..];
    assert joined[..|AllButLast(p.path)|] == AllButLast(p.path);
    assert joined[|AllButLast(p.path)| + 1..] == c[1..];
    PointerPath(None, p.reader, p.base, joined, p.size)
  }

  /** The offsets actually followed: a path with no offsets reads at its base address. */
  function Effective(p: PointerPath): (s: seq<nat>)
    ensures |s| > 0
  {
    if |p.path| > 0 then p.path else [0]
  }

  function Truncate32(s: seq<nat>): (t: seq<nat>)
    ensures |t| == |s|
    ensures forall i :: 0 <= i < |s| ==> t[i] == s[i] % U32
  {
    seq(|s|, i requires 0 <= i < |s| => s[i] % U32)
  }

  /**
   * Reads the value a path designates. A native process follows pointers of the path's size;
   * the emulator truncates the base and every offset to 32 bits and follows 32-bit pointers.
   */
  function Read<T>(p: PointerPath, m: Memory, decode: Decoder<T>): Result<T>
  {
    match p.reader
    case ProcessReader => ReadPath(m, p.size, p.base, Effective(p), decode)
    case EmulatorReader => ReadPath(m, Bit32, p.base % U32, Truncate32(Effective(p)), decode)
  }

  /** Where a path points, by the same rules as `Read`. */
  function Address(p: PointerPath, m: Memory): Option<nat>
  {
    match p.reader
    case ProcessReader => Target(m, p.size, p.base, Effective(p))
    case EmulatorReader => Target(m, Bit32, p.base % U32, Truncate32(Effective(p)))
  }

  /** A read is the decoder applied where the path points, and fails with a read error otherwise. */
  lemma ReadAtAddress<T>(p: PointerPath, m: Memory, decode: Decoder<T>)
    ensures Read(p, m, decode) == match Address(p, m)
                                  case None => Err(ReadFailed)
                                  case Some(a) => OkOr(decode(m, a), ReadFailed)
  {
  }

  /** A path with no offsets reads the value stored at its base address, whatever its pointer size. */
  lemma EmptyPathReadsBase<T>(base: nat, size: PointerSize, m: Memory, decode: Decoder<T>)
    ensures Read(PointerPath(None, ProcessReader, base, [], size), m, decode) == OkOr(decode(m, base), ReadFailed)
  {
  }

  /** A name only labels error messages: it never changes what is read. */
  lemma NamedReadsSame<T>(p: PointerPath, name: string, m: Memory, decode: Decoder<T>)
    ensures Read(Named(p, name), m, decode) == Read(p, m, decode)
  {
  }

  /**
   * The point of `child`: reading `ChildPath(p, c)` reads `c` from where `p` points, without
   * dereferencing the parent's final address. (Native reader; see `EmulatorChildReadsFromParent`.)
   */
  lemma ChildReadsFromParent<T>(p: PointerPath, c: seq<nat>, m: Memory, decode: Decoder<T>)
    requires p.reader == ProcessReader
    requires |c| > 0 && LastOrZero(p.path) + c[0] < U64
    ensures Read(ChildPath(p, c), m, decode) == match Address(p, m)
                                            case None => Err(ReadFailed)
                                            case Some(a) => ReadPath(m, p.size, a, c, decode)
  {
    var e := Effective(p);
    assert ChildPath(p, c).path == e[..|e| - 1] + [e[|e| - 1] + c[0]] + c[1..];
    TargetSplice(m, p.size, p.base, e, c);
  }

  /** The emulator reads like a native 32-bit reader when nothing needs truncating. */
  lemma EmulatorReadsAs32<T>(p: PointerPath, m: Memory, decode: Decoder<T>)
    requires p.reader == EmulatorReader
    requires p.base < U32 && forall i :: 0 <= i < |p.path| ==> p.path[i] < U32
    ensures Read(p, m, decode) == Read(p.(reader := ProcessReader, size := Bit32), m, decode)
    ensures Address(p, m) == Address(p.(reader := ProcessReader, size := Bit32), m)
  {
    assert Truncate32(Effective(p)) == Effective(p);
  }

  /** `child` on the emulator, for offsets that fit in 32 bits. */
  lemma EmulatorChildReadsFromParent<T>(p: PointerPath, c: seq<nat>, m: Memory, decode: Decoder<T>)
    requires p.reader == EmulatorReader
    requires p.base < U32 && forall i :: 0 <= i < |p.path| ==> p.path[i] < U32
    requires |c| > 0 && LastOrZero(p.path) + c[0] < U32
    requires forall i :: 0 <= i < |c| ==> c[i] < U32
    ensures Read(ChildPath(p, c), m, decode) == match Address(p, m)
                                            case None => Err(ReadFailed)
                                            case Some(a) => ReadPath(m, Bit32, a, c, decode)
  {
    var q := p.(reader := ProcessReader, size := Bit32);
    var child := ChildPath(p, c);
    forall i | 0 <= i < |child.path|
      ensures child.path[i] < U32
    {
      var k := |AllButLast(p.path)|;
      if i < k {
        assert child.path[i] == AllButLast(p.path)[i] == p.path[i];
      } else if i > k {
        assert child.path[i] == child.path[k + 1..][i - k - 1] == c[i - k];
      }
    }
    EmulatorReadsAs32(child, m, decode);
    EmulatorReadsAs32(p, m, decode);
    assert child.(reader := ProcessReader, size := Bit32) == ChildPath(q, c);
    ChildReadsFromParent(q, c, m, decode);
  }

  /**
   * A value read through a path, memoised per tick (`current`), with the value of the tick
   * before (`old` in the source, `previous` here) and an optional fallback (`default`) used
   * when the read fails.
   */
  class MemoryWatcher<T(==)> {
    const path: PointerPath
    const decode: Decoder<T>
    var cell: Option<T>
    var previous: Option<T>
    var fallback: Option<T>

    /** `MemoryWatcher::new`: a 64-bit unnamed path and empty cells. */
    constructor (reader: Reader, base: nat, offsets: seq<nat>, decode: Decoder<T>)
      ensures path == New(reader, base, offsets) && this.decode == decode
      ensures cell == None && previous == None && fallback == None
    {
      path := New(reader, base, offsets);
      this.decode := decode;
      cell := None;
      previous := None;
      fallback := None;
    }

    /**
     * `From<PointerPath>`: goes through `new`, so the watcher keeps the reader, base and offsets
     * of `p` but reads with 64-bit pointers and without `p`'s name.
     */
    constructor FromPath(p: PointerPath, decode: Decoder<T>)
      ensures path == New(p.reader, p.base, p.path) && this.decode == decode
      ensures cell == None && previous == None && fallback == None
    {
      path := New(p.reader, p.base, p.path);
      this.decode := decode;
      cell := None;
      previous := None;
      fallback := None;
    }

    /** What `current` yields on memory `m`: the memo if set, else the read, else the fallback. */
    function Value(m: Memory): (r: Result<T>)
      reads this
      ensures cell.Some? ==> r == Ok(cell.value)
      ensures cell.None? && Read(path, m, decode).Ok? ==> r == Read(path, m, decode)
      ensures cell.None? && !Read(path, m, decode).Ok? ==>
                r == (if fallback.Some? then Ok(fallback.value) else Read(path, m, decode))
    {
      if cell.Some? then Ok(cell.value)
      else match Read(path, m, decode)
        case Ok(v) => Ok(v)
        case _ => if fallback.Some? then Ok(fallback.value) else Read(path, m, decode)
    }

    /** What `changed` yields: true when there is no previous value, else whether the value differs. */
    function Change(m: Memory): (r: Result<bool>)
      reads this
      ensures previous.None? ==> r == Ok(true)
      ensures previous.Some? ==> (r.Ok? <==> Value(m).Ok?)
      ensures previous.Some? && r.Ok? ==> r.value == (previous.value != Value(m).value)
    {
      if previous.None? then Ok(true)
      else match Value(m)
        case Ok(v) => Ok(previous.value != v)
        case Err(e) => Err(e)
        case Panic(s) => Panic(s)
    }

    /** `current`: the memoised value; a successful outcome (read or fallback) fills the memo. */
    method Current(m: Memory) returns (r: Result<T>)
      modifies this`cell
      ensures r == old(Value(m))
      ensures cell == (if r.Ok? then Some(r.value) else None)
    {
      if cell.Some? {
        return Ok(cell.value);
      }
      r := Read(path, m, decode);
      if !r.Ok? && fallback.Some? {
        r := Ok(fallback.value);
      }
      if r.Ok? {
        cell := Some(r.value);
      }
    }

    /** `old`: the value memoised in the previous tick, if any. */
    function Old(): Option<T>
      reads this
    {
      previous
    }

    /** `changed`: reads (and memoises) the current value only when there is a previous one. */
    method Changed(m: Memory) returns (r: Result<bool>)
      modifies this`cell
      ensures r == old(Change(m))
      ensures old(previous).None? ==> cell == old(cell)
      ensures old(previous).Some? ==> cell == (if old(Value(m)).Ok? then Some(old(Value(m)).value) else None)
    {
      if previous.None? {
        return Ok(true);
      }
      var c := Current(m);
      match c
      case Ok(v) => r := Ok(previous.value != v);
      case Err(e) => r := Err(e);
      case Panic(s) => r := Panic(s);
    }

    /** `default_given` (and `default`, with the type's default value passed in). */
    method DefaultGiven(d: T)
      modifies this`fallback
      ensures fallback == Some(d)
    {
      fallback := Some(d);
    }

    /** `invalidate`: the memo becomes the previous value and is cleared. */
    method Invalidate()
      modifies this`cell, this`previous
      ensures previous == old(cell) && cell == None
    {
      previous := cell;
      cell := None;
    }

    /** `child`: a fresh watcher on the child path (through `From<PointerPath>`). */
    method Child(c: seq<nat>) returns (w: MemoryWatcher<T>)
      requires |c| > 0 && LastOrZero(path.path) + c[0] < U64
      ensures fresh(w)
      ensures w.path == New(path.reader, path.base, ChildPath(path, c).path) && w.decode == decode
      ensures w.cell == None && w.previous == None && w.fallback == None
    {
      w := new MemoryWatcher.FromPath(ChildPath(path, c), decode);
    }
  }

  /**
   * The tick protocol of the splitters: every tick invalidates the watcher, then asks for the
   * current value and whether it changed. Over any run of readable memories the first tick
   * reports a change and every later one reports exactly whether the value differs from the
   * tick before.
   */
  method ChangesOverTicks<T(==)>(w: MemoryWatcher<T>, ms: seq<Memory>) returns (changes: seq<Result<bool>>)
    requires |ms| > 0
    requires w.cell.None? && w.previous.None?
    requires forall i :: 0 <= i < |ms| ==> Read(w.path, ms[i], w.decode).Ok?
    modifies w
    ensures |changes| == |ms|
    ensures changes[0] == Ok(true)
    ensures forall i :: 0 < i < |ms| ==>
              changes[i] == Ok(Read(w.path, ms[i - 1], w.decode).value != Read(w.path, ms[i], w.decode).value)
  {
    changes := [];
    var i := 0;
    while i < |ms|
      invariant 0 <= i <= |ms|
      invariant |changes| == i
      invariant i == 0 ==> w.cell.None? && w.previous.None?
      invariant i > 0 ==> w.cell == Some(Read(w.path, ms[i - 1], w.decode).value)
      invariant i > 0 ==> changes[0] == Ok(true)
      invariant forall j :: 0 < j < i ==>
                  changes[j] == Ok(Read(w.path, ms[j - 1], w.decode).value != Read(w.path, ms[j], w.decode).value)
    {
      w.Invalidate();
      var _ := w.Current(ms[i]);
      var ch := w.Changed(ms[i]);
      changes := changes + [ch];
      i := i + 1;
    }
  }

  /**
   * The hazard of asking only `changed`: with no previous value it does not read, so the memo is
   * never filled, `invalidate` keeps the previous value empty, and every tick reports a change.
   */
  method ChangedOnlyTicks<T(==)>(w: MemoryWatcher<T>, ms: seq<Memory>) returns (changes: seq<Result<bool>>)
    requires w.cell.None? && w.previous.None?
    modifies w
    ensures |changes| == |ms|
    ensures forall i :: 0 <= i < |ms| ==> changes[i] == Ok(true)
  {
    changes := [];
    var i := 0;
    while i < |ms|
      invariant 0 <= i <= |ms|
      invariant |changes| == i
      invariant w.cell.None? && w.previous.None?
      invariant forall j :: 0 <= j < i ==> changes[j] == Ok(true)
    {
      w.Invalidate();
      var ch := w.Changed(ms[i]);
      changes := changes + [ch];
      i := i + 1;
    }
  }
}
