/**
 * The first revision of the ZDoom walker (the splitter at the repository root, for LZDoom): the
 * same arrays, name table and class records as the library, with fixed module offsets instead
 * of signature scans, no memoised class names, and a name table that panics where the library
 * returns an error.
 */
module Legacy {
  import opened Outcome
  import opened Remote
  import opened ZDoomArray
  import opened ZDoomNames
  import opened ZDoomClasses
  import opened ZDoomLevel
  import opened ZDoomPlayer
  import opened NameTables

  /** Fixed offsets from the base of `lzdoom.exe`. */
  const NamedataOffset: nat := 0x9F8E10
  const AllClassesOffset: nat := 0x9F8980
  /** The path to the player actor's class; declared, but no reader of this revision follows it. */
  const PlayerActorClassPath: seq<nat> := [0x7043C0, 0x0, 0x8]

  /** A class record's own field array sits at the fixed offset +0x78 in this revision. */
  const ClassFields: nat := 0x78
  /** The pointer to a class's descriptive type record. */
  const ClassDescriptiveName: nat := 0x88
  /** The level record's map-name pointer. */
  const LevelMapnameOffset: nat := 0x9D8
  /** The player's position, read directly from the player record. */
  const PlayerPosOffset: nat := 0x48

  const NamePanic := "waaaah.."

  /**
   * `get_chars` of this revision: the path [0x8, index * 0x10, 0x0] from the manager. Any
   * failure, an unreadable entry included, is a panic.
   */
  function GetCharsOrPanic(m: Memory, nm: NameManager, index: nat): (r: Result<string>)
    ensures !r.Err?
    ensures r.Ok? <==> NameCharsAt(m, nm, index).Some? && NameCharsAt(m, nm, index).value in m.strings
                       && m.strings[NameCharsAt(m, nm, index).value].Utf8?
  {
    TargetOfThree(m, Bit64, nm.address, NameEntries, index * NameEntrySize, 0x0);
    match ReadPath(m, Bit64, nm.address, [NameEntries, index * NameEntrySize, 0x0], CStringDecoder())
    case Ok(cs) => if cs.Utf8? then Ok(cs.text) else Panic(NamePanic)
    case _ => Panic(NamePanic)
  }

  /** The two revisions read the same names; where the library reports an error, this one panics. */
  lemma GetCharsPanicsForErrors(m: Memory, nm: NameManager, index: nat)
    ensures GetChars(m, nm, index).Ok? ==> GetCharsOrPanic(m, nm, index) == GetChars(m, nm, index)
    ensures GetChars(m, nm, index).Err? ==> GetCharsOrPanic(m, nm, index) == Panic(NamePanic)
    ensures GetChars(m, nm, index).Panic? ==> GetCharsOrPanic(m, nm, index).Panic?
  {
    TargetOfThree(m, Bit64, nm.address, NameEntries, index * NameEntrySize, 0x0);
  }

  /** `PClass::name`: the 32-bit name index at +0x38, resolved; read on every call. */
  function ClassName(m: Memory, nm: NameManager, a: nat): (r: Result<string>)
    ensures ReadU32(m, a + PClassTypeName).None? ==> r == Err(ReadFailed)
    ensures ReadU32(m, a + PClassTypeName).Some? ==> !r.Err?
    ensures ClassNameAt(m, nm, a).Ok? ==> r == ClassNameAt(m, nm, a)
  {
    match ReadU32(m, a + PClassTypeName)
    case None => Err(ReadFailed)
    case Some(index) =>
      GetCharsPanicsForErrors(m, nm, index);
      GetCharsOrPanic(m, nm, index)
  }

  function ClassNamer(m: Memory, nm: NameManager): nat -> Result<string>
  {
    (a: nat) => ClassName(m, nm, a)
  }

  /**
   * `raw_name`: the type record whose pointer is at +0x88, and its descriptive name through
   * [0x48, 0x0]; an unreadable pointer is an error, a name that is not UTF-8 a panic.
   */
  function RawName(m: Memory, a: nat): (r: Result<string>)
    ensures ReadU64(m, a + ClassDescriptiveName).None? ==> r == Err(ReadFailed)
    ensures ReadU64(m, a + ClassDescriptiveName).Some? ==> r == TypeNameAt(m, ReadU64(m, a + ClassDescriptiveName).value)
  {
    match ReadU64(m, a + ClassDescriptiveName)
    case None => Err(ReadFailed)
    case Some(ptype) => TypeNameAt(m, ptype)
  }

  /** `PField::name` of this revision: the name index at +0x28, resolved with panics. */
  function FieldName(m: Memory, nm: NameManager, a: nat): (r: Result<string>)
    ensures ReadU32(m, a + PFieldName).None? ==> r == Err(ReadFailed)
    ensures FieldNameAt(m, nm, a).Ok? ==> r == FieldNameAt(m, nm, a)
  {
    match ReadU32(m, a + PFieldName)
    case None => Err(ReadFailed)
    case Some(index) =>
      GetCharsPanicsForErrors(m, nm, index);
      GetCharsOrPanic(m, nm, index)
  }

  /** The name -> class-address table over the class array at `allClasses`; any name failure fails it. */
  function ClassTableOf(m: Memory, nm: NameManager, allClasses: nat): (r: Result<map<string, nat>>)
  {
    match ReadU32(m, allClasses + ArrayCount)
    case None => Err(ReadFailed)
    case Some(count) => NameTable(ClassNamer(m, nm), ItemsFrom(m, allClasses, 8, PointerDecoder(), count, 0), map[])
  }

  /** The class pointers the array yields, when its count can be read. */
  function ClassItems(m: Memory, allClasses: nat): seq<nat>
    requires ReadU32(m, allClasses + ArrayCount).Some?
  {
    ItemsFrom(m, allClasses, 8, PointerDecoder(), ReadU32(m, allClasses + ArrayCount).value, 0)
  }

  /**
   * Every entry of the table is a class whose name is its key, every readable class is in it,
   * and it exists exactly when every class of the array can be named.
   */
  lemma ClassTableNamesClasses(m: Memory, nm: NameManager, allClasses: nat)
    requires ReadU32(m, allClasses + ArrayCount).Some?
    ensures ClassTableOf(m, nm, allClasses).Ok? <==>
              forall i :: 0 <= i < |ClassItems(m, allClasses)| ==> ClassName(m, nm, ClassItems(m, allClasses)[i]).Ok?
    ensures ClassTableOf(m, nm, allClasses).Ok? ==>
              forall k :: k in ClassTableOf(m, nm, allClasses).value ==> ClassName(m, nm, ClassTableOf(m, nm, allClasses).value[k]) == Ok(k)
    ensures ClassTableOf(m, nm, allClasses).Ok? ==>
              forall i :: 0 <= i < |ClassItems(m, allClasses)| ==>
                ClassName(m, nm, ClassItems(m, allClasses)[i]).value in ClassTableOf(m, nm, allClasses).value
  {
    var items := ClassItems(m, allClasses);
    NameTableEntries(ClassNamer(m, nm), items, map[]);
    assert ClassTableOf(m, nm, allClasses) == NameTable(ClassNamer(m, nm), items, map[]);
    assert forall a :: ClassNamer(m, nm)(a) == ClassName(m, nm, a);
    if ClassTableOf(m, nm, allClasses).Ok? {
      forall i | 0 <= i < |items| ensures ClassName(m, nm, items[i]).value in ClassTableOf(m, nm, allClasses).value {
        assert ClassNamer(m, nm)(items[i]).value in NamesOf(ClassNamer(m, nm), items);
      }
    }
  }

  /** The loaded walker: the name manager and the classes by name. */
  datatype LegacyZDoom = LegacyZDoom(names: NameManager, classes: map<string, nat>)

  /**
   * `PClassManager::load` / the class loop of `ZDoom::load`: one class per element of the array,
   * inserted under its name (a later duplicate replacing an earlier one); the first name that
   * cannot be read aborts the load.
   */
  method LoadClasses(m: Memory, nm: NameManager, allClasses: nat) returns (r: Result<map<string, nat>>)
    ensures r == ClassTableOf(m, nm, allClasses)
  {
    var started := IntoIter(m, allClasses, 8, PointerDecoder());
    if !started.Ok? { return Err(ReadFailed); }
    var it := started.value;
    var namer := ClassNamer(m, nm);
    ghost var all := it.Remaining(m);
    var classes: map<string, nat> := map[];
    while true
      invariant fresh(it) && it.index <= it.size
      invariant it.address == allClasses && it.elemSize == 8 && it.decode == PointerDecoder()
      invariant it.size == ReadU32(m, allClasses + ArrayCount).value
      invariant NameTable(namer, all, map[]) == NameTable(namer, it.Remaining(m), classes)
      decreases it.size - it.index
    {
      var next := it.Next(m);
      if next.None? { break; }
      NameTableCons(namer, next.value, it.Remaining(m), classes);
      var name := ClassName(m, nm, next.value);
      if !name.Ok? { return Fail(name); }
      classes := classes[name.value := next.value];
    }
    r := Ok(classes);
  }

  /**
   * `ZDoom::load`: the module `lzdoom.exe` must be loaded; the name manager and the class array
   * are at fixed offsets from its base (one-offset deep pointers, so nothing is dereferenced).
   */
  function LoadOf(p: Process): (r: Result<LegacyZDoom>)
    ensures "lzdoom.exe" !in p.modules ==> r == Err(ModuleNotFound("lzdoom.exe"))
    ensures r.Ok? ==> "lzdoom.exe" in p.modules
                      && r.value.names == NameManager(p.modules["lzdoom.exe"].base + NamedataOffset)
                      && Ok(r.value.classes) == ClassTableOf(p.memory, r.value.names, p.modules["lzdoom.exe"].base + AllClassesOffset)
  {
    if "lzdoom.exe" !in p.modules then Err(ModuleNotFound("lzdoom.exe"))
    else
      var base := p.modules["lzdoom.exe"].base;
      var names := NameManager(base + NamedataOffset);
      var classes :- ClassTableOf(p.memory, names, base + AllClassesOffset);
      Ok(LegacyZDoom(names, classes))
  }

  method Load(p: Process) returns (r: Result<LegacyZDoom>)
    ensures r == LoadOf(p)
  {
    if "lzdoom.exe" !in p.modules { return Err(ModuleNotFound("lzdoom.exe")); }
    var base := p.modules["lzdoom.exe"].base;
    var names := NameManager(base + NamedataOffset);
    var classes := LoadClasses(p.memory, names, base + AllClassesOffset);
    if !classes.Ok? { return Fail(classes); }
    r := Ok(LegacyZDoom(names, classes.value));
  }

  /** `find_class`: a plain lookup; a class found is one whose name read as `name` when loaded. */
  function FindClass(z: LegacyZDoom, name: string): (r: Option<nat>)
    ensures r.Some? <==> name in z.classes
    ensures r.Some? ==> r.value == z.classes[name]
  {
    if name in z.classes then Some(z.classes[name]) else None
  }

  /** What a loaded walker finds is named as asked, when read from the memory it was loaded from. */
  lemma FoundClassIsNamed(p: Process, name: string)
    requires LoadOf(p).Ok? && FindClass(LoadOf(p).value, name).Some?
    ensures ClassName(p.memory, LoadOf(p).value.names, FindClass(LoadOf(p).value, name).value) == Ok(name)
  {
    var z := LoadOf(p).value;
    ClassTableNamesClasses(p.memory, z.names, p.modules["lzdoom.exe"].base + AllClassesOffset);
  }

  /** One line of the field listing: static or not, offset, name, type name and flags. */
  datatype FieldLine = FieldLine(isStatic: bool, offset: nat, name: string, typeName: string, flags: bv32)

  /**
   * One field of the listing, read in the order the listing reads: flags, offset, name, the
   * type pointer and the type's name; the first failure is the result.
   */
  function FieldLineAt(m: Memory, nm: NameManager, f: nat): (r: Result<FieldLine>)
    ensures r.Ok? ==> Ok(r.value.flags) == FieldFlagsAt(m, f) && Ok(r.value.offset) == ReadAt(m, f + PFieldOffset, U32)
                      && Ok(r.value.name) == FieldName(m, nm, f)
                      && (r.value.isStatic <==> r.value.flags & 0x2000 != 0)
    ensures !FieldFlagsAt(m, f).Ok? ==> r == Err(ReadFailed)
  {
    var flags :- FieldFlagsAt(m, f);
    var offset :- ReadAt(m, f + PFieldOffset, U32);
    var name :- FieldName(m, nm, f);
    var ptype :- OkOr(ReadU64(m, f + PFieldType), ReadFailed);
    var typeName :- TypeNameAt(m, ptype);
    Ok(FieldLine(flags & 0x2000 != 0, offset, name, typeName, flags))
  }

  /** The lines of the fields `fs`, stopping at the first field that fails. */
  function FieldLines(m: Memory, nm: NameManager, fs: seq<nat>): (r: Result<seq<FieldLine>>)
    ensures r.Ok? ==> |r.value| == |fs| && forall i :: 0 <= i < |fs| ==> FieldLineAt(m, nm, fs[i]) == Ok(r.value[i])
    ensures r.Ok? <==> forall i :: 0 <= i < |fs| ==> FieldLineAt(m, nm, fs[i]).Ok?
    decreases |fs|
  {
    if |fs| == 0 then Ok([])
    else
      var first :- FieldLineAt(m, nm, fs[0]);
      var rest :- FieldLines(m, nm, fs[1..]);
      assert forall i :: 1 <= i < |fs| ==> fs[i] == fs[1..][i - 1];
      Ok([first] + rest)
  }

  /** The listing of one class: its name, then a line per field of its own array at +0x78. */
  datatype ClassListing = ClassListing(name: string, fields: seq<FieldLine>)

  function ListingOf(m: Memory, nm: NameManager, a: nat): (r: Result<ClassListing>)
    ensures r.Ok? ==> Ok(r.value.name) == ClassName(m, nm, a)
    ensures r.Ok? ==> ReadU32(m, a + ClassFields + ArrayCount).Some?
                      && Ok(r.value.fields) == FieldLines(m, nm, ItemsFrom(m, a + ClassFields, 8, PointerDecoder(),
                                                                          ReadU32(m, a + ClassFields + ArrayCount).value, 0))
  {
    var name :- ClassName(m, nm, a);
    var count :- OkOr(ReadU32(m, a + ClassFields + ArrayCount), ReadFailed);
    var lines :- FieldLines(m, nm, ItemsFrom(m, a + ClassFields, 8, PointerDecoder(), count, 0));
    Ok(ClassListing(name, lines))
  }

  /**
   * `debug_all_fields`: the listings of the class and its ancestors, the root first. The parent
   * pointer is at +0x0 and a null one ends the chain; `fuel` bounds the chain's length.
   */
  function DebugAllFields(m: Memory, nm: NameManager, a: nat, fuel: nat): (r: Result<seq<ClassListing>>)
    ensures r.Ok? ==> |r.value| >= 1 && Ok(r.value[|r.value| - 1]) == ListingOf(m, nm, a)
    ensures ReadU64(m, a).None? ==> r == Err(ReadFailed)
    decreases fuel
  {
    var parent :- OkOr(ReadU64(m, a), ReadFailed);
    var before :- if parent == 0 then Ok([])
                  else if fuel == 0 then Err(WalkBound)
                  else DebugAllFields(m, nm, parent, fuel - 1);
    var own :- ListingOf(m, nm, a);
    Ok(before + [own])
  }

  /** A class without a parent is listed alone; a class with one comes after its parent's whole listing. */
  lemma DebugListsParentFirst(m: Memory, nm: NameManager, a: nat, fuel: nat)
    requires DebugAllFields(m, nm, a, fuel).Ok?
    ensures var r := DebugAllFields(m, nm, a, fuel).value;
            ReadU64(m, a).Some?
            && (ReadU64(m, a).value == 0 ==> |r| == 1)
            && (ReadU64(m, a).value != 0 ==>
                  fuel > 0 && DebugAllFields(m, nm, ReadU64(m, a).value, fuel - 1).Ok?
                  && r[..|r| - 1] == DebugAllFields(m, nm, ReadU64(m, a).value, fuel - 1).value)
  {
  }

  /** The level of this revision: the map name through [0x9D8, 0x0], memoised. */
  class Level {
    const address: nat
    var nameCell: Option<string>

    constructor (address: nat)
      ensures this.address == address && nameCell == None
    {
      this.address := address;
      nameCell := None;
    }

    /** `invalidate_cache`: forgets the name. */
    method InvalidateCache()
      modifies this`nameCell
      ensures nameCell == None
    {
      nameCell := None;
    }

    /**
     * `name`: the memo if there is one; otherwise a fresh read, remembered only when it
     * succeeds. A name that is not UTF-8 is a panic.
     */
    method Name(m: Memory) returns (r: Result<string>)
      modifies this`nameCell
      ensures old(nameCell).Some? ==> r == Ok(old(nameCell).value) && nameCell == old(nameCell)
      ensures old(nameCell).None? ==> r == LevelNameAt(m, address, LevelMapnameOffset)
      ensures nameCell == if r.Ok? then Some(r.value) else None
    {
      if nameCell.Some? { return Ok(nameCell.value); }
      r := LevelNameAt(m, address, LevelMapnameOffset);
      if r.Ok? { nameCell := Some(r.value); }
    }
  }

  /** The player of this revision: the position at the fixed +0x48 of the player record, memoised. */
  class Player {
    const address: nat
    var posCell: Option<DVector3>

    constructor (address: nat)
      ensures this.address == address && posCell == None
    {
      this.address := address;
      posCell := None;
    }

    /** `invalidate_cache`: forgets the position. */
    method InvalidateCache()
      modifies this`posCell
      ensures posCell == None
    {
      posCell := None;
    }

    /** `pos`: the memo if there is one; otherwise the three words at +0x48, remembered on success. */
    method Pos(m: Memory) returns (r: Result<DVector3>)
      modifies this`posCell
      ensures old(posCell).Some? ==> r == Ok(old(posCell).value) && posCell == old(posCell)
      ensures old(posCell).None? ==> r == ReadVector(m, address + PlayerPosOffset)
      ensures posCell == if r.Ok? then Some(r.value) else None
    {
      if posCell.Some? { return Ok(posCell.value); }
      r := ReadVector(m, address + PlayerPosOffset);
      if r.Ok? { posCell := Some(r.value); }
    }
  }
}
