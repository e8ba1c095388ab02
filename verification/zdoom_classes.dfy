/**
 * ZDoom's run-time type information as the splitters read it: class records (`PClass`), their
 * field records (`PField`) and type records (`PType`), each at fixed offsets, each accessor
 * memoised in the handle that performed it.
 */
module ZDoomClasses {
  import opened Outcome
  import opened Remote
  import opened ZDoomArray
  import opened ZDoomNames
  import opened NameTables

  const PFieldName: nat := 0x28
  const PFieldOffset: nat := 0x38
  const PFieldType: nat := 0x40
  const PFieldFlags: nat := 0x48

  const PClassTypeName: nat := 0x38
  const PClassPType: nat := 0x90

  const PTypeSize: nat := 0xC
  const PTypeAlign: nat := 0x10
  const PTypeFlags: nat := 0x14
  const PTypeDescriptiveName: nat := 0x48

  /** `from_bits_truncate` for `PFieldFlags`: only the 24 defined bits survive. */
  function TruncateFieldFlags(raw: bv32): bv32
  {
    raw & 0xFF_FFFF
  }

  /** `from_bits_truncate` for `TypeFlags`: only the 9 defined bits survive. */
  function TruncateTypeFlags(raw: bv32): bv32
  {
    raw & 0x1FF
  }

  /** Truncation keeps the defined bits of the raw word and clears every other bit. */
  lemma TruncationKeepsDefinedBits(raw: bv32)
    ensures TruncateFieldFlags(raw) & 0xFF_FFFF == raw & 0xFF_FFFF
    ensures TruncateFieldFlags(raw) & 0xFF00_0000 == 0
    ensures TruncateTypeFlags(raw) & 0x1FF == raw & 0x1FF
    ensures TruncateTypeFlags(raw) & 0xFFFF_FE00 == 0
    ensures IsStatic(TruncateFieldFlags(raw)) == IsStatic(raw)
  {
  }

  /** `PFieldFlags::STATIC`, bit 13. */
  predicate IsStatic(flags: bv32)
  {
    flags & 0x2000 != 0
  }

  // ---- Readers over a memory snapshot (what each accessor computes when not memoised) ----

  /** The name of the class record at `a`: a 32-bit name index at +0x38, resolved. */
  function ClassNameAt(m: Memory, nm: NameManager, a: nat): (r: Result<string>)
    ensures ReadU32(m, a + PClassTypeName).None? ==> r == Err(ReadFailed)
    ensures ReadU32(m, a + PClassTypeName).Some? ==> r == GetChars(m, nm, ReadU32(m, a + PClassTypeName).value)
  {
    // A one-offset pointer path reads at `a + 0x38` (`Remote.TargetSingle`).
    match ReadU32(m, a + PClassTypeName)
    case None => Err(ReadFailed)
    case Some(index) => GetChars(m, nm, index)
  }

  function ClassNamer(m: Memory, nm: NameManager): nat -> Result<string>
  {
    (a: nat) => ClassNameAt(m, nm, a)
  }

  /** The name of the field record at `a`: a 32-bit name index at +0x28, resolved. */
  function FieldNameAt(m: Memory, nm: NameManager, a: nat): (r: Result<string>)
    ensures ReadU32(m, a + PFieldName).None? ==> r == Err(ReadFailed)
    ensures ReadU32(m, a + PFieldName).Some? ==> r == GetChars(m, nm, ReadU32(m, a + PFieldName).value)
  {
    match ReadU32(m, a + PFieldName)
    case None => Err(ReadFailed)
    case Some(index) => GetChars(m, nm, index)
  }

  function FieldNamer(m: Memory, nm: NameManager): nat -> Result<string>
  {
    (a: nat) => FieldNameAt(m, nm, a)
  }

  /** A 32-bit (or, with `U64`, 64-bit) read at `a`, as a result. */
  function ReadAt(m: Memory, a: nat, modulus: nat): (r: Result<nat>)
    requires modulus > 0
    ensures r.Ok? <==> a in m.words
    ensures r.Ok? ==> r.value < modulus
    ensures !r.Ok? ==> r == Err(ReadFailed)
  {
    OkOr(ReadUnsigned(m, a, modulus), ReadFailed)
  }

  /** The field flags of the record at `a`: the 32-bit word at +0x48 with its defined bits kept. */
  function FieldFlagsAt(m: Memory, a: nat): (r: Result<bv32>)
    ensures r.Ok? <==> ReadU32(m, a + PFieldFlags).Some?
    ensures r.Ok? ==> r.value & 0xFF00_0000 == 0
    ensures r.Ok? ==> r.value & 0xFF_FFFF == (ReadU32(m, a + PFieldFlags).value as bv32) & 0xFF_FFFF
  {
    match ReadU32(m, a + PFieldFlags)
    case None => Err(ReadFailed)
    case Some(raw) => Ok(TruncateFieldFlags(raw as bv32))
  }

  /** The type flags of the type record at `a`: the 32-bit word at +0x14 with its defined bits kept. */
  function TypeFlagsAt(m: Memory, a: nat): (r: Result<bv32>)
    ensures r.Ok? <==> ReadU32(m, a + PTypeFlags).Some?
    ensures r.Ok? ==> r.value & 0xFFFF_FE00 == 0
    ensures r.Ok? ==> r.value & 0x1FF == (ReadU32(m, a + PTypeFlags).value as bv32) & 0x1FF
  {
    match ReadU32(m, a + PTypeFlags)
    case None => Err(ReadFailed)
    case Some(raw) => Ok(TruncateTypeFlags(raw as bv32))
  }

  /** The descriptive name of the type record at `a`: path [0x48, 0x0]; not UTF-8 is a panic. */
  function TypeNameAt(m: Memory, a: nat): (r: Result<string>)
    ensures r.Ok? <==> ReadU64(m, a + PTypeDescriptiveName).Some?
                       && ReadU64(m, a + PTypeDescriptiveName).value in m.strings
                       && m.strings[ReadU64(m, a + PTypeDescriptiveName).value].Utf8?
    ensures r.Ok? ==> r.value == m.strings[ReadU64(m, a + PTypeDescriptiveName).value].text
    ensures r.Err? ==> r == Err(ReadFailed)
  {
    TargetOfTwo(m, Bit64, a, PTypeDescriptiveName, 0x0);
    match ReadPath(m, Bit64, a, [PTypeDescriptiveName, 0x0], CStringDecoder())
    case Ok(cs) => if cs.Utf8? then Ok(cs.text) else Panic("name should always be utf-8")
    case Err(e) => Err(e)
    case Panic(s) => Panic(s)
  }

  /**
   * The name -> field-address table of the class record at `a`: the field pointers of the
   * `TArray` at `a + fieldsOffset`, each named; an unreadable count or name fails it.
   */
  function FieldTable(m: Memory, nm: NameManager, a: nat, fieldsOffset: nat): Result<map<string, nat>>
  {
    FieldTableAt(m, nm, a + fieldsOffset)
  }

  /** The name -> field-address table of the field `TArray` at `arrayAt`. */
  function FieldTableAt(m: Memory, nm: NameManager, arrayAt: nat): Result<map<string, nat>>
  {
    match ReadU32(m, arrayAt + ArrayCount)
    case None => Err(ReadFailed)
    case Some(count) => NameTable(FieldNamer(m, nm), ItemsFrom(m, arrayAt, 8, PointerDecoder(), count, 0), map[])
  }

  /** Every entry of a field table is a field pointer of the class whose name is its key. */
  lemma FieldTableNamesFields(m: Memory, nm: NameManager, a: nat, fieldsOffset: nat)
    ensures FieldTable(m, nm, a, fieldsOffset).Ok? ==>
              forall k :: k in FieldTable(m, nm, a, fieldsOffset).value ==>
                FieldNameAt(m, nm, FieldTable(m, nm, a, fieldsOffset).value[k]) == Ok(k)
  {
    if ReadU32(m, a + fieldsOffset + ArrayCount).Some? {
      var count := ReadU32(m, a + fieldsOffset + ArrayCount).value;
      NameTableEntries(FieldNamer(m, nm), ItemsFrom(m, a + fieldsOffset, 8, PointerDecoder(), count, 0), map[]);
    }
  }

  // ---- Comparisons of fields ----

  datatype Ordering = Less | Equal | Greater

  function Flip(o: Ordering): Ordering
  {
    match o
    case Less => Greater
    case Equal => Equal
    case Greater => Less
  }

  /** What a field handle reports for its name, offset and flags. */
  datatype FieldView = FieldView(name: Result<string>, offset: Result<nat>, flags: Result<bv32>)

  /** `Ord for PField`: static before non-static, then by offset; unreadable values count as 0. */
  function FieldCmp(a: FieldView, b: FieldView): Ordering
  {
    var flags := if a.flags.Ok? then a.flags.value else 0;
    var otherFlags := if b.flags.Ok? then b.flags.value else 0;
    if IsStatic(flags) && !IsStatic(otherFlags) then Less
    else if !IsStatic(flags) && IsStatic(otherFlags) then Greater
    else
      var offset := if a.offset.Ok? then a.offset.value else 0;
      var otherOffset := if b.offset.Ok? then b.offset.value else 0;
      if offset < otherOffset then Less
      else if offset > otherOffset then Greater
      else Equal
  }

  /** The key a field sorts by: 0 for static and 1 otherwise, then its offset. */
  function SortKey(v: FieldView): (nat, nat)
  {
    (if IsStatic(if v.flags.Ok? then v.flags.value else 0) then 0 else 1,
     if v.offset.Ok? then v.offset.value else 0)
  }

  function CompareKeys(x: (nat, nat), y: (nat, nat)): Ordering
  {
    if x.0 < y.0 || (x.0 == y.0 && x.1 < y.1) then Less
    else if x == y then Equal
    else Greater
  }

  /** The field order is the lexicographic order of sort keys. */
  lemma FieldCmpIsKeyOrder(a: FieldView, b: FieldView)
    ensures FieldCmp(a, b) == CompareKeys(SortKey(a), SortKey(b))
  {
  }

  /** The field order is a total preorder: antisymmetric up to ties, and transitive. */
  lemma FieldCmpIsPreorder(a: FieldView, b: FieldView, c: FieldView)
    ensures FieldCmp(b, a) == Flip(FieldCmp(a, b))
    ensures FieldCmp(a, b) != Greater && FieldCmp(b, c) != Greater ==> FieldCmp(a, c) != Greater
    ensures FieldCmp(a, b) == Less && FieldCmp(b, c) != Greater ==> FieldCmp(a, c) == Less
  {
    FieldCmpIsKeyOrder(a, b);
    FieldCmpIsKeyOrder(b, a);
    FieldCmpIsKeyOrder(b, c);
    FieldCmpIsKeyOrder(a, c);
  }

  /**
   * `PartialEq for PField`: false when either side's flags or name cannot be read (a name that
   * is not UTF-8 panics); otherwise equal names OR equal flags.
   */
  function FieldEq(a: FieldView, b: FieldView): (r: Result<bool>)
    ensures r.Ok? && r.value ==> a.flags.Ok? && b.flags.Ok? && a.name.Ok? && b.name.Ok?
    ensures a.flags.Ok? && b.flags.Ok? && a.name.Ok? && b.name.Ok? ==>
              r == Ok(a.name.value == b.name.value || a.flags.value == b.flags.value)
    ensures !a.flags.Ok? || !b.flags.Ok? ==> r == Ok(false)
  {
    if !a.flags.Ok? || !b.flags.Ok? then Ok(false)
    else if a.name.Panic? then Panic(a.name.message)
    else if b.name.Panic? then Panic(b.name.message)
    else if !a.name.Ok? || !b.name.Ok? then Ok(false)
    else Ok(a.name.value == b.name.value || a.flags.value == b.flags.value)
  }

  /**
   * Equality disagrees with the order: a field whose flags cannot be read is not equal to
   * itself although it compares `Equal`, and two fields with the same name at different offsets
   * are equal although they compare `Less`.
   */
  lemma FieldEqDisagreesWithOrder()
    ensures var v := FieldView(Ok("pos"), Ok(0x28), Err(ReadFailed));
            FieldEq(v, v) == Ok(false) && FieldCmp(v, v) == Equal
    ensures var a := FieldView(Ok("pos"), Ok(0x28), Ok(0));
            var b := FieldView(Ok("pos"), Ok(0x40), Ok(0));
            FieldEq(a, b) == Ok(true) && FieldCmp(a, b) == Less
  {
    assert !IsStatic(0);
  }

  // ---- Handles ----

  /** A type record handle with memoised size, alignment, flags and name. */
  class PType {
    const address: nat
    var sizeCell: Option<nat>
    var alignCell: Option<nat>
    var flagsCell: Option<bv32>
    var nameCell: Option<string>

    constructor (address: nat)
      ensures this.address == address
      ensures sizeCell == None && alignCell == None && flagsCell == None && nameCell == None
    {
      this.address := address;
      sizeCell, alignCell, flagsCell, nameCell := None, None, None, None;
    }

    /** `size`: the 32-bit size at +0xC, memoised. */
    method Size(m: Memory) returns (r: Result<nat>)
      modifies this`sizeCell
      ensures old(sizeCell).Some? ==> r == Ok(old(sizeCell).value)
      ensures old(sizeCell).None? ==> r == ReadAt(m, address + PTypeSize, U32)
      ensures sizeCell == if r.Ok? then Some(r.value) else None
    {
      if sizeCell.Some? { return Ok(sizeCell.value); }
      r := ReadAt(m, address + PTypeSize, U32);
      if r.Ok? { sizeCell := Some(r.value); }
    }

    /** `align`: the 32-bit alignment at +0x10, memoised. */
    method Align(m: Memory) returns (r: Result<nat>)
      modifies this`alignCell
      ensures old(alignCell).Some? ==> r == Ok(old(alignCell).value)
      ensures old(alignCell).None? ==> r == ReadAt(m, address + PTypeAlign, U32)
      ensures alignCell == if r.Ok? then Some(r.value) else None
    {
      if alignCell.Some? { return Ok(alignCell.value); }
      r := ReadAt(m, address + PTypeAlign, U32);
      if r.Ok? { alignCell := Some(r.value); }
    }

    /** `flags`: the type flags at +0x14, truncated, memoised. */
    method Flags(m: Memory) returns (r: Result<bv32>)
      modifies this`flagsCell
      ensures old(flagsCell).Some? ==> r == Ok(old(flagsCell).value)
      ensures old(flagsCell).None? ==> r == TypeFlagsAt(m, address)
      ensures flagsCell == if r.Ok? then Some(r.value) else None
    {
      if flagsCell.Some? { return Ok(flagsCell.value); }
      r := TypeFlagsAt(m, address);
      if r.Ok? { flagsCell := Some(r.value); }
    }

    /** `name`: the descriptive name, memoised. */
    method Name(m: Memory) returns (r: Result<string>)
      modifies this`nameCell
      ensures old(nameCell).Some? ==> r == Ok(old(nameCell).value)
      ensures old(nameCell).None? ==> r == TypeNameAt(m, address)
      ensures nameCell == if r.Ok? then Some(r.value) else None
    {
      if nameCell.Some? { return Ok(nameCell.value); }
      r := TypeNameAt(m, address);
      if r.Ok? { nameCell := Some(r.value); }
    }
  }

  /** A field record handle with memoised name, offset, type and flags. */
  class PField {
    const address: nat
    const names: NameManager
    var nameCell: Option<string>
    var offsetCell: Option<nat>
    var ptypeCell: Option<PType>
    var flagsCell: Option<bv32>

    constructor (address: nat, names: NameManager)
      ensures this.address == address && this.names == names
      ensures nameCell == None && offsetCell == None && ptypeCell == None && flagsCell == None
    {
      this.address := address;
      this.names := names;
      nameCell, offsetCell, ptypeCell, flagsCell := None, None, None, None;
    }

    /** What this handle reports on memory `m` without side effects: memo, else a fresh read. */
    function View(m: Memory): FieldView
      reads this
    {
      FieldView(
        if nameCell.Some? then Ok(nameCell.value) else FieldNameAt(m, names, address),
        if offsetCell.Some? then Ok(offsetCell.value) else ReadAt(m, address + PFieldOffset, U32),
        if flagsCell.Some? then Ok(flagsCell.value) else FieldFlagsAt(m, address))
    }

    /** `name`: the field's name, memoised. */
    method Name(m: Memory) returns (r: Result<string>)
      modifies this`nameCell
      ensures r == old(View(m)).name
      ensures old(nameCell).None? ==> r == FieldNameAt(m, names, address)
      ensures nameCell == if r.Ok? then Some(r.value) else None
      ensures View(m) == old(View(m))
    {
      if nameCell.Some? { return Ok(nameCell.value); }
      r := FieldNameAt(m, names, address);
      if r.Ok? { nameCell := Some(r.value); }
    }

    /** `offset`: the 32-bit offset of the field in its object, at +0x38, memoised. */
    method Offset(m: Memory) returns (r: Result<nat>)
      modifies this`offsetCell
      ensures r == old(View(m)).offset
      ensures old(offsetCell).None? ==> r == ReadAt(m, address + PFieldOffset, U32)
      ensures offsetCell == if r.Ok? then Some(r.value) else None
      ensures View(m) == old(View(m))
    {
      if offsetCell.Some? { return Ok(offsetCell.value); }
      r := ReadAt(m, address + PFieldOffset, U32);
      if r.Ok? { offsetCell := Some(r.value); }
    }

    /** `ptype`: a handle on the type record whose pointer is at +0x40, memoised. */
    method PTypeOf(m: Memory) returns (r: Result<PType>)
      modifies this`ptypeCell
      ensures old(ptypeCell).Some? ==> r == Ok(old(ptypeCell).value)
      ensures old(ptypeCell).None? ==> (r.Ok? <==> ReadU64(m, address + PFieldType).Some?)
      ensures old(ptypeCell).None? && r.Ok? ==>
                fresh(r.value) && r.value.address == ReadU64(m, address + PFieldType).value
      ensures ptypeCell == if r.Ok? then Some(r.value) else None
    {
      if ptypeCell.Some? { return Ok(ptypeCell.value); }
      var at := ReadU64(m, address + PFieldType);
      if at.None? { return Err(ReadFailed); }
      var t := new PType(at.value);
      ptypeCell := Some(t);
      r := Ok(t);
    }

    /** `flags`: the field flags at +0x48, truncated to 24 bits, memoised. */
    method Flags(m: Memory) returns (r: Result<bv32>)
      modifies this`flagsCell
      ensures r == old(View(m)).flags
      ensures old(flagsCell).None? ==> r == FieldFlagsAt(m, address)
      ensures flagsCell == if r.Ok? then Some(r.value) else None
      ensures View(m) == old(View(m))
    {
      if flagsCell.Some? { return Ok(flagsCell.value); }
      r := FieldFlagsAt(m, address);
      if r.Ok? { flagsCell := Some(r.value); }
    }

    /** `cmp`: reads (and memoises) both sides' flags, then their offsets if still tied. */
    method Compare(other: PField, m: Memory) returns (r: Ordering)
      modifies this, other
      ensures r == FieldCmp(old(View(m)), old(other.View(m)))
      ensures View(m) == old(View(m)) && other.View(m) == old(other.View(m))
    {
      ghost var mine := View(m);
      ghost var theirs := other.View(m);
      var flags := Flags(m);
      var otherFlags := other.Flags(m);
      var f := if flags.Ok? then flags.value else 0;
      var g := if otherFlags.Ok? then otherFlags.value else 0;
      if IsStatic(f) && !IsStatic(g) { return Less; }
      if !IsStatic(f) && IsStatic(g) { return Greater; }
      var offset := Offset(m);
      var otherOffset := other.Offset(m);
      var o := if offset.Ok? then offset.value else 0;
      var p := if otherOffset.Ok? then otherOffset.value else 0;
      r := if o < p then Less else if o > p then Greater else Equal;
    }

    /** `eq`: reads (and memoises) both sides' flags, then both names. */
    method Equals(other: PField, m: Memory) returns (r: Result<bool>)
      modifies this, other
      ensures r == FieldEq(old(View(m)), old(other.View(m)))
      ensures View(m) == old(View(m)) && other.View(m) == old(other.View(m))
    {
      var flags := Flags(m);
      var otherFlags := other.Flags(m);
      if !flags.Ok? || !otherFlags.Ok? { return Ok(false); }
      var name := Name(m);
      if name.Panic? { return Panic(name.message); }
      var otherName := other.Name(m);
      if otherName.Panic? { return Panic(otherName.message); }
      if !name.Ok? || !otherName.Ok? { return Ok(false); }
      r := Ok(name.value == otherName.value || flags.value == otherFlags.value);
    }
  }

  /** The addresses of the field handles in a table. */
  function Addresses(fields: map<string, PField>): map<string, nat>
  {
    map k | k in fields :: fields[k].address
  }

  /**
   * The closure `fields` memoises: one field handle per entry of the `TArray` at `arrayAt`, each
   * named (its name memoised) and inserted under that name.
   */
  method ReadFieldTable(m: Memory, names: NameManager, arrayAt: nat) returns (r: Result<map<string, PField>>)
    ensures r.Ok? ==> FieldTableAt(m, names, arrayAt) == Ok(Addresses(r.value))
    ensures !r.Ok? ==> SameFailure(r, FieldTableAt(m, names, arrayAt))
    ensures r.Ok? ==>
              forall k :: k in r.value ==>
                fresh(r.value[k]) && r.value[k].names == names && r.value[k].nameCell == Some(k) && r.value[k].offsetCell.None?
  {
    var started := IntoIter(m, arrayAt, 8, PointerDecoder());
    if !started.Ok? { return Err(ReadFailed); }
    var it := started.value;
    var namer := FieldNamer(m, names);
    ghost var all := it.Remaining(m);
    ghost var found: map<string, nat> := map[];
    var table: map<string, PField> := map[];
    while true
      invariant fresh(it) && it.index <= it.size
      invariant it.address == arrayAt && it.elemSize == 8 && it.decode == PointerDecoder()
      invariant it.size == ReadU32(m, arrayAt + ArrayCount).value
      invariant NameTable(namer, all, map[]) == NameTable(namer, it.Remaining(m), found)
      invariant found.Keys == table.Keys
      invariant forall k :: k in table ==>
                  fresh(table[k]) && table[k].address == found[k] && table[k].names == names
                  && table[k].nameCell == Some(k) && table[k].offsetCell.None?
      decreases it.size - it.index
    {
      var next := it.Next(m);
      if next.None? { break; }
      NameTableCons(namer, next.value, it.Remaining(m), found);
      var field := new PField(next.value, names);
      var name := field.Name(m);
      if !name.Ok? {
        r := Fail(name);
        return;
      }
      table := table[name.value := field];
      found := found[name.value := next.value];
    }
    assert Addresses(table) == found;
    r := Ok(table);
  }

  /** A class record handle with memoised name, type and own-field table. */
  class PClass {
    const address: nat
    const names: NameManager
    const fieldsOffset: nat
    var nameCell: Option<string>
    var ptypeCell: Option<PType>
    var fieldsCell: Option<map<string, PField>>

    constructor (address: nat, names: NameManager, fieldsOffset: nat)
      ensures this.address == address && this.names == names && this.fieldsOffset == fieldsOffset
      ensures nameCell == None && ptypeCell == None && fieldsCell == None
    {
      this.address := address;
      this.names := names;
      this.fieldsOffset := fieldsOffset;
      nameCell, ptypeCell, fieldsCell := None, None, None;
    }

    /** The field handles this class has handed out. */
    function FieldObjects(): set<PField>
      reads this
    {
      if fieldsCell.Some? then fieldsCell.value.Values else {}
    }

    /** The field table this handle reports on memory `m`: its memo, else a fresh read. */
    function FieldsView(m: Memory): Result<map<string, nat>>
      reads this
    {
      if fieldsCell.Some? then Ok(Addresses(fieldsCell.value)) else FieldTable(m, names, address, fieldsOffset)
    }

    /** `name`: the class name, memoised. */
    method Name(m: Memory) returns (r: Result<string>)
      modifies this`nameCell
      ensures old(nameCell).Some? ==> r == Ok(old(nameCell).value)
      ensures old(nameCell).None? ==> r == ClassNameAt(m, names, address)
      ensures nameCell == if r.Ok? then Some(r.value) else None
    {
      if nameCell.Some? { return Ok(nameCell.value); }
      r := ClassNameAt(m, names, address);
      if r.Ok? { nameCell := Some(r.value); }
    }

    /** `ptype`: a handle on the type record whose pointer is at +0x90, memoised. */
    method PTypeOf(m: Memory) returns (r: Result<PType>)
      modifies this`ptypeCell
      ensures old(ptypeCell).Some? ==> r == Ok(old(ptypeCell).value)
      ensures old(ptypeCell).None? ==> (r.Ok? <==> ReadU64(m, address + PClassPType).Some?)
      ensures old(ptypeCell).None? && r.Ok? ==> fresh(r.value) && r.value.address == ReadU64(m, address + PClassPType).value
      ensures ptypeCell == if r.Ok? then Some(r.value) else None
    {
      if ptypeCell.Some? { return Ok(ptypeCell.value); }
      var at := ReadU64(m, address + PClassPType);
      if at.None? { return Err(ReadFailed); }
      var t := new PType(at.value);
      ptypeCell := Some(t);
      r := Ok(t);
    }

    /**
     * `fields`: the class's own fields by name (superclass fields are not included), memoised.
     * Each handle in a fresh table has its name memoised to its key.
     */
    method Fields(m: Memory) returns (r: Result<map<string, PField>>)
      modifies this`fieldsCell
      ensures old(fieldsCell).Some? ==> r == Ok(old(fieldsCell).value)
      ensures old(fieldsCell).None? && r.Ok? ==> FieldTable(m, names, address, fieldsOffset) == Ok(Addresses(r.value))
      ensures old(fieldsCell).None? && r.Ok? ==>
                forall k :: k in r.value ==>
                  fresh(r.value[k]) && r.value[k].names == names && r.value[k].nameCell == Some(k) && r.value[k].offsetCell.None?
      ensures old(fieldsCell).None? && !r.Ok? ==> SameFailure(r, FieldTable(m, names, address, fieldsOffset))
      ensures fieldsCell == if r.Ok? then Some(r.value) else None
      ensures FieldsView(m) == old(FieldsView(m))
    {
      if fieldsCell.Some? { return Ok(fieldsCell.value); }
      r := ReadFieldTable(m, names, address + fieldsOffset);
      if r.Ok? { fieldsCell := Some(r.value); }
    }

    /** A handle on the same record sharing this one's memoised values (`clone`). */
    method Clone() returns (c: PClass)
      ensures fresh(c)
      ensures c.address == address && c.names == names && c.fieldsOffset == fieldsOffset
      ensures c.nameCell == nameCell && c.ptypeCell == ptypeCell && c.fieldsCell == fieldsCell
    {
      c := new PClass(address, names, fieldsOffset);
      c.nameCell, c.ptypeCell, c.fieldsCell := nameCell, ptypeCell, fieldsCell;
    }
  }

  /**
   * The parent class a dump names: the pointer at +0x0, when it is not null. An unreadable
   * pointer is an error.
   */
  function ParentClass(m: Memory, a: nat): (r: Result<Option<nat>>)
    ensures r.Ok? <==> ReadU64(m, a).Some?
    ensures r.Ok? ==> (r.value.Some? <==> ReadU64(m, a).value != 0)
    ensures r.Ok? && r.value.Some? ==> r.value.value == ReadU64(m, a).value
  {
    match ReadU64(m, a)
    case None => Err(ReadFailed)
    case Some(p) => Ok(if p == 0 then None else Some(p))
  }
}
