/**
 * The idTech handle: where the type-info tools live (found by a signature scan of the main
 * module), and class lookups by project and class name.
 */
module IdTech {
  import opened Outcome
  import opened Remote
  import opened Scan
  import opened IdTypeInfo

  /** The engine versions the handle knows; they differ in no offset yet. */
  datatype IdTechVersion = IdTech8

  const TypeinfoSignature: string :=
    "48 8b fa 4c 89 41 08 48 8b d9 48 85 D2 74 25 48 8B 0D ?? ?? ?? ?? E8 ?? ?? ?? ?? 89 03"

  /** The signatures tried for the type-info global, in order: one, displacement at +0x12. */
  const TypeinfoSpecs: seq<ScanSpec> := [ScanSpec(TypeinfoSignature, 0x12, 0x4)]

  /**
   * `Memory::new`: the address of the type-info global. A missing main module is an error; no
   * signature resolving is a panic.
   */
  function TypeinfoAddress(p: Process, moduleName: string): Result<nat>
  {
    if moduleName !in p.modules then Err(ModuleNotFound(moduleName))
    else match FirstFound(p.memory, p.modules[moduleName], TypeinfoSpecs)
      case Some(a) => Ok(a)
      case None => Panic("unable to find addr for typeinfo")
  }

  /**
   * The type-info global is the one signature resolved with offset 0x12 and next-instruction
   * 0x4; when that scan fails the handle panics.
   */
  lemma TypeinfoIsScanned(p: Process, moduleName: string)
    requires moduleName in p.modules
    ensures var scanned := ScanIn(p.memory, p.modules[moduleName], TypeinfoSignature, 0x12, 0x4);
            (scanned.Ok? ==> TypeinfoAddress(p, moduleName) == Ok(scanned.value))
            && (!scanned.Ok? ==> TypeinfoAddress(p, moduleName) == Panic("unable to find addr for typeinfo"))
    ensures TypeinfoAddress(p, moduleName).Ok? <==>
              TypeinfoSignature in p.modules[moduleName].firstMatch
              && ReadU32(p.memory, p.modules[moduleName].firstMatch[TypeinfoSignature] + 0x12).Some?
    ensures TypeinfoAddress(p, moduleName).Ok? ==>
              Some(TypeinfoAddress(p, moduleName).value)
                == RelativeTargetAsWritten(p.memory, p.modules[moduleName].firstMatch[TypeinfoSignature], 0x12, 0x4)
  {
    assert TypeinfoSpecs[1..] == [];
    assert FirstFound(p.memory, p.modules[moduleName], TypeinfoSpecs[1..]) == None;
  }

  /** `Memory::new`, through `find_addr_or_panic`. */
  method MemoryNew(p: Process, version: IdTechVersion, moduleName: string) returns (r: Result<nat>)
    ensures r == TypeinfoAddress(p, moduleName)
  {
    if moduleName !in p.modules { return Err(ModuleNotFound(moduleName)); }
    r := FindAddrOrPanic("typeinfo", p.memory, p.modules[moduleName], TypeinfoSpecs);
  }

  /**
   * The type-info instance `try_load` works from: the pointer stored at the global. An
   * unreadable pointer is an error, and so is a null one.
   */
  function TypeinfoInstance(p: Process, moduleName: string): (r: Result<nat>)
    ensures r.Ok? ==> TypeinfoAddress(p, moduleName).Ok? && r.value != 0
                      && ReadU64(p.memory, TypeinfoAddress(p, moduleName).value) == Some(r.value)
    ensures r == Err(NullPointer) <==>
              TypeinfoAddress(p, moduleName).Ok? && ReadU64(p.memory, TypeinfoAddress(p, moduleName).value) == Some(0)
    ensures !TypeinfoAddress(p, moduleName).Ok? ==> SameFailure(r, TypeinfoAddress(p, moduleName))
  {
    var addr :- TypeinfoAddress(p, moduleName);
    match ReadU64(p.memory, addr)
    case None => Err(ReadFailed)
    case Some(instance) => if instance == 0 then Err(NullPointer) else Ok(instance)
  }

  /**
   * An idTech handle. `directory` stands for the projects' class tables (by project name, then
   * class name), which the loader of this revision does not define.
   */
  class IdTech {
    const typeinfoAddr: nat
    const typeInfo: TypeInfoTools
    const directory: map<string, map<string, ClassTypeInfo>>

    constructor (typeinfoAddr: nat, typeInfo: TypeInfoTools, directory: map<string, map<string, ClassTypeInfo>>)
      ensures this.typeinfoAddr == typeinfoAddr && this.typeInfo == typeInfo && this.directory == directory
    {
      this.typeinfoAddr := typeinfoAddr;
      this.typeInfo := typeInfo;
      this.directory := directory;
    }

    /**
     * `get_class`: a missing project is an error naming it; a missing class in a present
     * project is a different error naming both.
     */
    function GetClass(project: string, cls: string): (r: Result<ClassTypeInfo>)
      ensures project !in directory ==> r == Err(ProjectMissing(project))
      ensures project in directory && cls !in directory[project] ==> r == Err(ClassMissing(cls, project))
      ensures r.Ok? <==> project in directory && cls in directory[project]
      ensures r.Ok? ==> r.value == directory[project][cls] && r.value in Classes()
    {
      if project !in directory then Err(ProjectMissing(project))
      else if cls !in directory[project] then Err(ClassMissing(cls, project))
      else Ok(directory[project][cls])
    }

    ghost function Classes(): set<ClassTypeInfo>
    {
      set p, c | p in directory && c in directory[p] :: directory[p][c]
    }

    /** The classes and the variable handles they hold. */
    ghost function Footprint(): set<object>
      reads Classes()
    {
      Classes() + set c, o | c in Classes() && o in c.VariableObjects() :: o as object
    }

    /** Each variable handle belongs to one class, as each table owns its entries. */
    ghost predicate Valid()
      reads Footprint()
    {
      forall c1, c2 :: c1 in Classes() && c2 in Classes() && c1 != c2 ==> c1.VariableObjects() !! c2.VariableObjects()
    }

    /**
     * `get_offset` on one of this handle's classes: it reports what the class reports, and no
     * offset of any class changes by the memos it fills.
     */
    method GetOffsetIn(cls: ClassTypeInfo, m: Memory, variable: string) returns (r: Result<nat>)
      requires Valid() && cls in Classes()
      modifies Footprint()
      ensures Valid()
      ensures r == old(cls.OffsetView(m, variable))
      ensures forall c, v :: c in Classes() ==> c.OffsetView(m, v) == old(c.OffsetView(m, v))
      ensures forall o :: o in Footprint() ==> o in old(Footprint()) || fresh(o)
    {
      assert cls.variablesCell.Some? && variable in cls.variablesCell.value ==>
               cls.variablesCell.value[variable] in cls.VariableObjects();
      r := cls.GetOffset(m, variable);
      forall c, v | c in Classes() && c != cls
        ensures c.OffsetView(m, v) == old(c.OffsetView(m, v))
        ensures c.VariableObjects() == old(c.VariableObjects())
      {
      }
    }
  }

  /**
   * `try_load`: finds the type-info global and the instance it points to, and builds the
   * handle; a null instance is refused.
   */
  method TryLoad(p: Process, version: IdTechVersion, moduleName: string,
                 directory: map<string, map<string, ClassTypeInfo>>) returns (r: Result<IdTech>)
    ensures r.Ok? <==> TypeinfoInstance(p, moduleName).Ok?
    ensures r.Ok? ==> fresh(r.value) && fresh(r.value.typeInfo) && r.value.typeInfo.Valid()
                      && r.value.typeInfo.address == TypeinfoInstance(p, moduleName).value
                      && r.value.typeInfo.projectsCell.None?
                      && r.value.typeinfoAddr == TypeinfoAddress(p, moduleName).value
                      && r.value.directory == directory
    ensures !r.Ok? ==> SameFailure(r, TypeinfoInstance(p, moduleName))
  {
    var addr := MemoryNew(p, version, moduleName);
    if !addr.Ok? { return Fail(addr); }
    var instance := ReadU64(p.memory, addr.value);
    if instance.None? { return Err(ReadFailed); }
    if instance.value == 0 { return Err(NullPointer); }
    var tools := new TypeInfoTools(instance.value);
    var idtech := new IdTech(addr.value, tools, directory);
    r := Ok(idtech);
  }
}
