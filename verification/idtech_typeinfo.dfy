/**
 * idTech 8's generated run-time type information: the type-info tools hold two projects,
 * a project has a name, a class has a name and a table of variables ended by a null entry,
 * and a variable has a name and a 32-bit offset. Every handle memoises what it reads.
 */
module IdTypeInfo {
  import opened Outcome
  import opened Remote
  import opened NameTables

  // idTypeInfoTools
  const GeneratedTypeInfo: nat := 0x0
  // registeredTypeInfo_t
  const ProjectSize: nat := 0x38
  const ProjectTypeInfoGenerated: nat := 0x0
  const ProjectName: nat := 0x0
  /** The generated table is read as exactly this many projects. */
  const ProjectCount: nat := 2

  // classTypeInfo_t
  const ClassName: nat := 0x0
  const ClassVariables: nat := 0x28
  // classVariableInfo_t
  const VariableSize: nat := 0x58
  const VariableName: nat := 0x10
  const VariableOffset: nat := 0x18

  /** The address of the characters of a project's name: two pointers are followed. */
  function ProjectNameChars(m: Memory, a: nat): Option<nat>
  {
    match ReadU64(m, a + ProjectTypeInfoGenerated)
    case None => None
    case Some(generated) =>
      match ReadU64(m, generated + ProjectName)
      case None => None
      case Some(chars) => Some(chars)
  }

  /**
   * A project's name, through the path [0x0, 0x0, 0x0]: an unreadable pointer is an error,
   * a name that is not UTF-8 is a panic.
   */
  function ProjectNameAt(m: Memory, a: nat): (r: Result<string>)
    ensures r.Ok? <==> ProjectNameChars(m, a).Some? && ProjectNameChars(m, a).value in m.strings
                       && m.strings[ProjectNameChars(m, a).value].Utf8?
    ensures r.Ok? ==> r.value == m.strings[ProjectNameChars(m, a).value].text
    ensures r.Panic? <==> ProjectNameChars(m, a).Some? && ProjectNameChars(m, a).value in m.strings
                          && m.strings[ProjectNameChars(m, a).value].Invalid?
    ensures r.Err? ==> r == Err(ReadFailed)
  {
    TargetOfThree(m, Bit64, a, ProjectTypeInfoGenerated, ProjectName, 0x0);
    match ReadPath(m, Bit64, a, [ProjectTypeInfoGenerated, ProjectName, 0x0], CStringDecoder())
    case Ok(cs) => if cs.Utf8? then Ok(cs.text) else Panic("title should always be utf-8")
    case Err(e) => Err(e)
    case Panic(s) => Panic(s)
  }

  /**
   * The name of a class or a variable record, through the path [nameOffset, 0x0]: an unreadable
   * pointer or string is `ReadFailed`, characters that are not UTF-8 are `NotUtf8`.
   */
  function InfoNameAt(m: Memory, a: nat, nameOffset: nat): (r: Result<string>)
    ensures r.Ok? <==> ReadU64(m, a + nameOffset).Some? && ReadU64(m, a + nameOffset).value in m.strings
                       && m.strings[ReadU64(m, a + nameOffset).value].Utf8?
    ensures r.Ok? ==> r.value == m.strings[ReadU64(m, a + nameOffset).value].text
    ensures r == Err(NotUtf8) <==> ReadU64(m, a + nameOffset).Some? && ReadU64(m, a + nameOffset).value in m.strings
                                   && m.strings[ReadU64(m, a + nameOffset).value].Invalid?
    ensures !r.Ok? ==> r == Err(ReadFailed) || r == Err(NotUtf8)
  {
    TargetOfTwo(m, Bit64, a, nameOffset, 0x0);
    match ReadPath(m, Bit64, a, [nameOffset, 0x0], CStringDecoder())
    case Ok(cs) => if cs.Utf8? then Ok(cs.text) else Err(NotUtf8)
    case _ => Err(ReadFailed)
  }

  /** Names a variable record by its address. */
  function VariableNamer(m: Memory): nat -> Result<string>
  {
    (a: nat) => InfoNameAt(m, a, VariableName)
  }

  /** The address of entry `i` of a variable table. */
  function VariableEntry(base: nat, i: nat): nat
  {
    base + i * VariableSize
  }

  /** The entries `i` up to (not including) `n`. */
  function Entries(base: nat, i: nat, n: nat): (r: seq<nat>)
    requires i <= n
    ensures |r| == n - i
    ensures forall k :: 0 <= k < |r| ==> r[k] == VariableEntry(base, i + k)
  {
    seq<nat>(n - i, k requires 0 <= k < n - i => VariableEntry(base, i + k))
  }

  /**
   * The walk of `get_variables` from entry `i`, with `fuel` entries left to look at: an entry
   * whose first eight bytes are null ends the table; otherwise the entry is named and inserted.
   * Running out of fuel stands for the source's unbounded `for i in 0..`.
   */
  function VariableWalk(m: Memory, base: nat, i: nat, fuel: nat, acc: map<string, nat>): Result<map<string, nat>>
    decreases fuel
  {
    if fuel == 0 then Err(WalkBound)
    else match ReadU64(m, VariableEntry(base, i))
      case None => Err(ReadFailed)
      case Some(head) =>
        if head == 0 then Ok(acc)
        else
          var name :- InfoNameAt(m, VariableEntry(base, i), VariableName);
          VariableWalk(m, base, i + 1, fuel - 1, acc[name := VariableEntry(base, i)])
  }

  /** The variables of the class record at `classAddr`, by name, as addresses of their records. */
  function VariableTable(m: Memory, classAddr: nat, fuel: nat): Result<map<string, nat>>
  {
    match ReadU64(m, classAddr + ClassVariables)
    case None => Err(ReadFailed)
    case Some(base) => VariableWalk(m, base, 0, fuel, map[])
  }

  /**
   * When entry `n` is the first null one and the fuel reaches it, the walk is the name table of
   * the entries before it: entries after the terminator play no part, and a later entry with
   * the same name replaces an earlier one.
   */
  lemma {:induction false} VariableWalkIsNameTable(m: Memory, base: nat, i: nat, n: nat, fuel: nat, acc: map<string, nat>)
    requires i <= n && n - i < fuel
    requires ReadU64(m, VariableEntry(base, n)) == Some(0)
    requires forall j :: i <= j < n ==> ReadU64(m, VariableEntry(base, j)).Some? && ReadU64(m, VariableEntry(base, j)).value != 0
    ensures VariableWalk(m, base, i, fuel, acc) == NameTable(VariableNamer(m), Entries(base, i, n), acc)
    decreases n - i
  {
    if i < n {
      var at := VariableEntry(base, i);
      var rest := Entries(base, i + 1, n);
      assert Entries(base, i, n) == [at] + rest;
      NameTableCons(VariableNamer(m), at, rest, acc);
      assert ReadU64(m, at).Some? && ReadU64(m, at).value != 0;
      var name := InfoNameAt(m, at, VariableName);
      if name.Ok? {
        VariableWalkIsNameTable(m, base, i + 1, n, fuel - 1, acc[name.value := at]);
      }
    }
  }

  /** More fuel changes nothing once the walk has ended without running out. */
  lemma {:induction false} VariableWalkFuelMonotone(m: Memory, base: nat, i: nat, fuel: nat, more: nat, acc: map<string, nat>)
    requires fuel <= more
    requires VariableWalk(m, base, i, fuel, acc) != Err(WalkBound)
    ensures VariableWalk(m, base, i, more, acc) == VariableWalk(m, base, i, fuel, acc)
    decreases fuel
  {
    match ReadU64(m, VariableEntry(base, i))
    case None =>
    case Some(head) =>
      if head != 0 {
        var name := InfoNameAt(m, VariableEntry(base, i), VariableName);
        if name.Ok? {
          VariableWalkFuelMonotone(m, base, i + 1, fuel - 1, more - 1, acc[name.value := VariableEntry(base, i)]);
        }
      }
  }

  /** A variable's offset as the source stores it: a `u32`. */
  type Offset32 = x: nat | x < U32

  /** The offset of the variable record at `a`: the `u32` at +0x18, widened. */
  function VariableOffsetAt(m: Memory, a: nat): (r: Result<nat>)
    ensures r.Ok? <==> ReadU32(m, a + VariableOffset).Some?
    ensures r.Ok? ==> r.value == ReadU32(m, a + VariableOffset).value && r.value < U32
    ensures !r.Ok? ==> r == Err(ReadFailed)
  {
    OkOr(ReadU32(m, a + VariableOffset), ReadFailed)
  }

  /**
   * What `get_offset` on a class reports when nothing is memoised: the variable table, the
   * variable, then its offset.
   */
  function OffsetIn(m: Memory, classAddr: nat, className: string, variable: string, fuel: nat): Result<nat>
  {
    var table :- VariableTable(m, classAddr, fuel);
    if variable !in table then Err(UnknownVariable(variable, className))
    else VariableOffsetAt(m, table[variable])
  }

  /** The project handles `projects()` creates, with memoised names. */
  class TypeInfoProject {
    const address: nat
    var nameCell: Option<string>

    constructor (address: nat)
      ensures this.address == address && nameCell == None
    {
      this.address := address;
      nameCell := None;
    }

    /** `name`: the project's name, memoised. */
    method Name(m: Memory) returns (r: Result<string>)
      modifies this`nameCell
      ensures old(nameCell).Some? ==> r == Ok(old(nameCell).value)
      ensures old(nameCell).None? ==> r == ProjectNameAt(m, address)
      ensures nameCell == if r.Ok? then Some(r.value) else None
    {
      if nameCell.Some? { return Ok(nameCell.value); }
      r := ProjectNameAt(m, address);
      if r.Ok? { nameCell := Some(r.value); }
    }
  }

  /** The `idTypeInfoTools` handle: its projects are created once. */
  class TypeInfoTools {
    const address: nat
    var projectsCell: Option<seq<TypeInfoProject>>

    /** The project handles sit one project size apart from the generated table. */
    predicate Valid()
      reads this
    {
      projectsCell.Some? ==>
        |projectsCell.value| == ProjectCount
        && forall i :: 0 <= i < ProjectCount ==> projectsCell.value[i].address == address + GeneratedTypeInfo + i * ProjectSize
    }

    constructor (address: nat)
      ensures this.address == address && projectsCell == None && Valid()
    {
      this.address := address;
      projectsCell := None;
    }

    /**
     * `projects`: two project handles, at the generated table and one project size after it;
     * the first call creates them and every later call returns the same handles.
     */
    method Projects() returns (r: seq<TypeInfoProject>)
      requires Valid()
      modifies this`projectsCell
      ensures Valid() && projectsCell == Some(r)
      ensures |r| == ProjectCount
      ensures forall i :: 0 <= i < ProjectCount ==> r[i].address == address + GeneratedTypeInfo + i * ProjectSize
      ensures old(projectsCell).Some? ==> r == old(projectsCell).value
      ensures old(projectsCell).None? ==> forall i :: 0 <= i < ProjectCount ==> fresh(r[i]) && r[i].nameCell.None?
    {
      if projectsCell.Some? { return projectsCell.value; }
      var projects: seq<TypeInfoProject> := [];
      var current := address + GeneratedTypeInfo;
      for i := 0 to ProjectCount
        invariant |projects| == i && current == address + GeneratedTypeInfo + i * ProjectSize
        invariant forall j :: 0 <= j < i ==>
                    fresh(projects[j]) && projects[j].nameCell.None?
                    && projects[j].address == address + GeneratedTypeInfo + j * ProjectSize
      {
        var project := new TypeInfoProject(current);
        projects := projects + [project];
        current := current + ProjectSize;
      }
      projectsCell := Some(projects);
      r := projects;
    }
  }

  /** A variable record handle: its name is read when it is created, its offset on demand. */
  class ClassVariableInfo {
    const address: nat
    const name: string
    var offsetCell: Option<Offset32>

    constructor (address: nat, name: string)
      ensures this.address == address && this.name == name && offsetCell == None
    {
      this.address := address;
      this.name := name;
      offsetCell := None;
    }

    /** What `get_offset` reports on memory `m`: the memo, else a fresh read. */
    function OffsetView(m: Memory): (r: Result<nat>)
      reads this
      ensures r.Ok? ==> r.value < U32
    {
      if offsetCell.Some? then Ok(offsetCell.value) else VariableOffsetAt(m, address)
    }

    /** `get_offset`: the variable's offset, memoised; memoising never changes what it reports. */
    method GetOffset(m: Memory) returns (r: Result<nat>)
      modifies this`offsetCell
      ensures r == old(OffsetView(m)) && OffsetView(m) == old(OffsetView(m))
      ensures old(offsetCell).None? ==> r == VariableOffsetAt(m, address)
      ensures offsetCell == if r.Ok? then Some(r.value) else None
    {
      if offsetCell.Some? { return Ok(offsetCell.value); }
      r := VariableOffsetAt(m, address);
      if r.Ok? { offsetCell := Some(r.value); }
    }
  }

  /** `ClassVariableInfo::init`: reads the name; a name that cannot be read builds nothing. */
  method InitVariable(m: Memory, a: nat) returns (r: Result<ClassVariableInfo>)
    ensures r.Ok? <==> InfoNameAt(m, a, VariableName).Ok?
    ensures r.Ok? ==> fresh(r.value) && r.value.address == a && r.value.offsetCell.None?
                      && r.value.name == InfoNameAt(m, a, VariableName).value
    ensures !r.Ok? ==> SameFailure(r, InfoNameAt(m, a, VariableName))
  {
    var name := InfoNameAt(m, a, VariableName);
    if !name.Ok? { return Fail(name); }
    var variable := new ClassVariableInfo(a, name.value);
    r := Ok(variable);
  }

  /** The record addresses of a table of variable handles. */
  function Addresses(variables: map<string, ClassVariableInfo>): (r: map<string, nat>)
    ensures r.Keys == variables.Keys
    ensures forall k :: k in r ==> r[k] == variables[k].address
  {
    map k | k in variables :: variables[k].address
  }

  /**
   * The walk of `get_variables`, building fresh handles: the table it returns has the
   * addresses `VariableTable` gives, and it fails exactly as that does.
   */
  method ReadVariables(m: Memory, classAddr: nat, fuel: nat) returns (r: Result<map<string, ClassVariableInfo>>)
    ensures r.Ok? ==> VariableTable(m, classAddr, fuel) == Ok(Addresses(r.value))
    ensures !r.Ok? ==> SameFailure(r, VariableTable(m, classAddr, fuel))
    ensures r.Ok? ==>
              forall k :: k in r.value ==> fresh(r.value[k]) && r.value[k].name == k && r.value[k].offsetCell.None?
  {
    var baseRead := ReadU64(m, classAddr + ClassVariables);
    if baseRead.None? { return Err(ReadFailed); }
    var base := baseRead.value;
    ghost var found: map<string, nat> := map[];
    var variables: map<string, ClassVariableInfo> := map[];
    var i: nat := 0;
    while i < fuel
      invariant i <= fuel
      invariant VariableWalk(m, base, 0, fuel, map[]) == VariableWalk(m, base, i, fuel - i, found)
      invariant found.Keys == variables.Keys
      invariant forall k :: k in variables ==>
                  fresh(variables[k]) && variables[k].address == found[k] && variables[k].name == k
                  && variables[k].offsetCell.None?
    {
      var at := VariableEntry(base, i);
      var head := ReadU64(m, at);
      if head.None? { return Err(ReadFailed); }
      if head.value == 0 {
        assert Addresses(variables) == found;
        return Ok(variables);
      }
      var variable := InitVariable(m, at);
      if !variable.Ok? { return Fail(variable); }
      variables := variables[variable.value.name := variable.value];
      found := found[variable.value.name := at];
      i := i + 1;
    }
    r := Err(WalkBound);
  }

  /** A class record handle: its name is read when it is created, its variables on demand. */
  class ClassTypeInfo {
    const address: nat
    const name: string
    /** How many variable entries a walk may look at. */
    const walkBound: nat
    var variablesCell: Option<map<string, ClassVariableInfo>>

    constructor (address: nat, name: string, walkBound: nat)
      ensures this.address == address && this.name == name && this.walkBound == walkBound
      ensures variablesCell == None
    {
      this.address := address;
      this.name := name;
      this.walkBound := walkBound;
      variablesCell := None;
    }

    /** The variable handles this class has handed out. */
    function VariableObjects(): set<ClassVariableInfo>
      reads this
    {
      if variablesCell.Some? then variablesCell.value.Values else {}
    }

    /** What `get_variables` reports on memory `m`, as addresses: the memo, else a fresh walk. */
    function VariablesView(m: Memory): Result<map<string, nat>>
      reads this
    {
      if variablesCell.Some? then Ok(Addresses(variablesCell.value)) else VariableTable(m, address, walkBound)
    }

    /** What `get_offset(variable)` reports on memory `m`, memos included. */
    function OffsetView(m: Memory, variable: string): (r: Result<nat>)
      reads this, VariableObjects()
      ensures r.Ok? ==> r.value < U32
    {
      if variablesCell.Some? then
        if variable in variablesCell.value then variablesCell.value[variable].OffsetView(m)
        else Err(UnknownVariable(variable, name))
      else OffsetIn(m, address, name, variable, walkBound)
    }

    /** `get_variables`: the variable handles by name, walked once. */
    method GetVariables(m: Memory) returns (r: Result<map<string, ClassVariableInfo>>)
      modifies this`variablesCell
      ensures old(variablesCell).Some? ==> r == Ok(old(variablesCell).value)
      ensures r.Ok? ==> old(VariablesView(m)) == Ok(Addresses(r.value))
      ensures !r.Ok? ==> SameFailure(r, old(VariablesView(m)))
      ensures old(variablesCell).None? && r.Ok? ==>
                forall k :: k in r.value ==> fresh(r.value[k]) && r.value[k].name == k && r.value[k].offsetCell.None?
      ensures variablesCell == if r.Ok? then Some(r.value) else None
    {
      if variablesCell.Some? { return Ok(variablesCell.value); }
      r := ReadVariables(m, address, walkBound);
      if r.Ok? { variablesCell := Some(r.value); }
    }

    /** `get_variable`: the handle of one variable; an absent name is an error naming both. */
    method GetVariable(m: Memory, variable: string) returns (r: Result<ClassVariableInfo>)
      modifies this`variablesCell
      ensures old(VariablesView(m)).Ok? && variable !in old(VariablesView(m)).value ==>
                r == Err(UnknownVariable(variable, name))
      ensures r.Ok? <==> old(VariablesView(m)).Ok? && variable in old(VariablesView(m)).value
      ensures r.Ok? ==> r.value.address == old(VariablesView(m)).value[variable]
      ensures !old(VariablesView(m)).Ok? ==> SameFailure(r, old(VariablesView(m)))
      ensures r.Ok? ==> variablesCell.Some? && variable in variablesCell.value && r.value == variablesCell.value[variable]
      ensures old(variablesCell).Some? ==> variablesCell == old(variablesCell)
      ensures old(variablesCell).None? ==> (variablesCell.Some? <==> old(VariablesView(m)).Ok?)
      ensures variablesCell.Some? ==> old(VariablesView(m)) == Ok(Addresses(variablesCell.value))
      ensures old(variablesCell).None? && variablesCell.Some? ==>
                forall k :: k in variablesCell.value ==>
                  fresh(variablesCell.value[k]) && variablesCell.value[k].offsetCell.None?
    {
      var variables := GetVariables(m);
      if !variables.Ok? { return Fail(variables); }
      if variable !in variables.value { return Err(UnknownVariable(variable, name)); }
      r := Ok(variables.value[variable]);
    }

    /**
     * `get_offset`: the offset of one variable, through both memos. It reports what
     * `OffsetView` says, and filling the memos changes no offset this class reports.
     */
    method GetOffset(m: Memory, variable: string) returns (r: Result<nat>)
      modifies this`variablesCell
      modifies if variablesCell.Some? && variable in variablesCell.value then {variablesCell.value[variable]} else {}
      ensures r == old(OffsetView(m, variable))
      ensures r.Ok? ==> r.value < U32
      ensures forall v :: OffsetView(m, v) == old(OffsetView(m, v))
      ensures old(variablesCell).Some? ==> variablesCell == old(variablesCell)
      ensures old(variablesCell).None? ==> forall o :: o in VariableObjects() ==> fresh(o)
    {
      ghost var expected := OffsetView(m, variable);
      ghost var cold := variablesCell.None?;
      var found := GetVariable(m, variable);
      if !found.Ok? {
        r := Fail(found);
        if cold {
          var table := VariableTable(m, address, walkBound);
          if !table.Ok? {
            assert expected == table.PropagateFailure();
          }
        }
        return;
      }
      r := found.value.GetOffset(m);
    }
  }

  /** `ClassTypeInfo::init`: reads the class name; a name that cannot be read builds nothing. */
  method InitClass(m: Memory, a: nat, walkBound: nat) returns (r: Result<ClassTypeInfo>)
    ensures r.Ok? <==> InfoNameAt(m, a, ClassName).Ok?
    ensures r.Ok? ==> fresh(r.value) && r.value.address == a && r.value.walkBound == walkBound
                      && r.value.name == InfoNameAt(m, a, ClassName).value && r.value.variablesCell.None?
    ensures !r.Ok? ==> SameFailure(r, InfoNameAt(m, a, ClassName))
  {
    var name := InfoNameAt(m, a, ClassName);
    if !name.Ok? { return Fail(name); }
    var c := new ClassTypeInfo(a, name.value, walkBound);
    r := Ok(c);
  }
}
