/**
 * The ZDoom handle the splitters hold: the layout found at load time, the class table (read
 * once), the level, and the player and game action (memoised until the cache is invalidated);
 * plus the loader that retries until a usable class table has been read.
 */
module ZDoom {
  import opened Outcome
  import opened Remote
  import opened ZDoomArray
  import opened ZDoomNames
  import opened NameTables
  import opened ZDoomClasses
  import opened ZDoomLayout
  import opened ZDoomLevel
  import opened ZDoomPlayer

  /** `GameAction`, stored as a 32-bit code: the constructors in code order. */
  datatype GameAction =
    | Nothing | LoadLevel | NewGame | NewGame2 | RecordGame | LoadGame | LoadGameHideCon
    | LoadGamePlayDemo | AutoLoadGame | SaveGame | AutoSave | PlayDemo | Completed | Slideshow
    | WorldDone | Screenshot | ToggleMap | FullConsole | ResumeConversation | Intro
    | Intermission | TitleLoop

  const GameActions: seq<GameAction> := [
    Nothing, LoadLevel, NewGame, NewGame2, RecordGame, LoadGame, LoadGameHideCon,
    LoadGamePlayDemo, AutoLoadGame, SaveGame, AutoSave, PlayDemo, Completed, Slideshow,
    WorldDone, Screenshot, ToggleMap, FullConsole, ResumeConversation, Intro,
    Intermission, TitleLoop]

  function GameActionCode(g: GameAction): (c: nat)
    ensures c < |GameActions| && GameActions[c] == g
  {
    match g
    case Nothing => 0
    case LoadLevel => 1
    case NewGame => 2
    case NewGame2 => 3
    case RecordGame => 4
    case LoadGame => 5
    case LoadGameHideCon => 6
    case LoadGamePlayDemo => 7
    case AutoLoadGame => 8
    case SaveGame => 9
    case AutoSave => 10
    case PlayDemo => 11
    case Completed => 12
    case Slideshow => 13
    case WorldDone => 14
    case Screenshot => 15
    case ToggleMap => 16
    case FullConsole => 17
    case ResumeConversation => 18
    case Intro => 19
    case Intermission => 20
    case TitleLoop => 21
  }

  /** A checked read of the enumeration: codes 22 and above are not a `GameAction`. */
  function GameActionFromCode(c: nat): (g: Option<GameAction>)
    ensures g.Some? <==> c < 22
    ensures g.Some? ==> g.value == GameActions[c]
  {
    if c < |GameActions| then Some(GameActions[c]) else None
  }

  /** Codes and game actions correspond one to one. */
  lemma GameActionCodeRoundTrip(g: GameAction, c: nat)
    ensures GameActionFromCode(GameActionCode(g)) == Some(g)
    ensures GameActionFromCode(c).Some? ==> GameActionCode(GameActionFromCode(c).value) == c
  {
    if c < 22 {
      var codes := seq(22, i requires 0 <= i < 22 => GameActionCode(GameActions[i]));
      assert codes == seq(22, i => i);
      assert codes[c] == c;
    }
  }

  /** The game action at its global: a checked 32-bit code. */
  function GameActionAt(m: Memory, a: nat): (r: Result<GameAction>)
    ensures r.Ok? <==> ReadU32(m, a).Some? && ReadU32(m, a).value < 22
    ensures r.Ok? ==> GameActionCode(r.value) == ReadU32(m, a).value
    ensures !r.Ok? ==> r == Err(ReadFailed)
  {
    var code :- OkOr(ReadU32(m, a), ReadFailed);
    GameActionCodeRoundTrip(Nothing, code);
    OkOr(GameActionFromCode(code), ReadFailed)
  }

  /** The name -> class-address table: every class pointer of the `AllClasses` array, named. */
  function ClassTable(m: Memory, nm: NameManager, allClasses: nat): Result<map<string, nat>>
  {
    match ReadU32(m, allClasses + ArrayCount)
    case None => Err(ReadFailed)
    case Some(count) => NameTable(ClassNamer(m, nm), ItemsFrom(m, allClasses, 8, PointerDecoder(), count, 0), map[])
  }

  /** Every entry of the class table is a class record whose name is its key. */
  lemma ClassTableNamesClasses(m: Memory, nm: NameManager, allClasses: nat)
    ensures ClassTable(m, nm, allClasses).Ok? ==>
              forall k :: k in ClassTable(m, nm, allClasses).value ==>
                ClassNameAt(m, nm, ClassTable(m, nm, allClasses).value[k]) == Ok(k)
  {
    if ReadU32(m, allClasses + ArrayCount).Some? {
      var count := ReadU32(m, allClasses + ArrayCount).value;
      NameTableEntries(ClassNamer(m, nm), ItemsFrom(m, allClasses, 8, PointerDecoder(), count, 0), map[]);
    }
  }

  function ClassAddresses(classes: map<string, PClass>): map<string, nat>
  {
    map k | k in classes :: classes[k].address
  }

  /**
   * The closure `classes` memoises: one class handle per entry of `AllClasses`, each named
   * (its name memoised) and inserted under that name.
   */
  method ReadClassTable(m: Memory, names: NameManager, allClasses: nat, fieldsOffset: nat) returns (r: Result<map<string, PClass>>)
    ensures r.Ok? ==> ClassTable(m, names, allClasses) == Ok(ClassAddresses(r.value))
    ensures !r.Ok? ==> SameFailure(r, ClassTable(m, names, allClasses))
    ensures r.Ok? ==>
              forall k :: k in r.value ==>
                fresh(r.value[k]) && r.value[k].names == names && r.value[k].nameCell == Some(k)
                && r.value[k].fieldsOffset == fieldsOffset && r.value[k].fieldsCell.None?
  {
    var started := IntoIter(m, allClasses, 8, PointerDecoder());
    if !started.Ok? { return Err(ReadFailed); }
    var it := started.value;
    var namer := ClassNamer(m, names);
    ghost var all := it.Remaining(m);
    ghost var found: map<string, nat> := map[];
    var table: map<string, PClass> := map[];
    while true
      invariant fresh(it) && it.index <= it.size
      invariant it.address == allClasses && it.elemSize == 8 && it.decode == PointerDecoder()
      invariant it.size == ReadU32(m, allClasses + ArrayCount).value
      invariant NameTable(namer, all, map[]) == NameTable(namer, it.Remaining(m), found)
      invariant found.Keys == table.Keys
      invariant forall k :: k in table ==>
                  fresh(table[k]) && table[k].address == found[k] && table[k].names == names
                  && table[k].nameCell == Some(k) && table[k].fieldsOffset == fieldsOffset && table[k].fieldsCell.None?
      decreases it.size - it.index
    {
      var next := it.Next(m);
      if next.None? { break; }
      NameTableCons(namer, next.value, it.Remaining(m), found);
      var cls := new PClass(next.value, names, fieldsOffset);
      var name := cls.Name(m);
      if !name.Ok? {
        r := Fail(name);
        return;
      }
      table := table[name.value := cls];
      found := found[name.value := next.value];
    }
    assert ClassAddresses(table) == found;
    r := Ok(table);
  }

  const ActorMissing := "we should have asserted the Actor class was found"

  class ZDoom {
    const layout: Layout
    const names: NameManager
    const level: Level
    var classesCell: Option<map<string, PClass>>
    var playerCell: Option<Player>
    var gameactionCell: Option<GameAction>

    constructor (layout: Layout)
      ensures this.layout == layout && names == NameManager(layout.namedata)
      ensures fresh(level) && level.address == layout.level && level.offsets == layout.offsets
      ensures level.names == names && level.nameCell == None
      ensures classesCell == None && playerCell == None && gameactionCell == None
    {
      this.layout := layout;
      names := NameManager(layout.namedata);
      level := new Level(layout.level, layout.offsets, NameManager(layout.namedata));
      classesCell, playerCell, gameactionCell := None, None, None;
    }

    /** The class table this handle reports on memory `m`: its memo, else a fresh read. */
    function ClassesView(m: Memory): Result<map<string, nat>>
      reads this
    {
      if classesCell.Some? then Ok(ClassAddresses(classesCell.value)) else ClassTable(m, names, layout.allClasses)
    }

    /** `classes`: every class by name, read once; each fresh handle has its name memoised. */
    method Classes(m: Memory) returns (r: Result<map<string, PClass>>)
      modifies this`classesCell
      ensures old(classesCell).Some? ==> r == Ok(old(classesCell).value)
      ensures r.Ok? <==> old(ClassesView(m)).Ok?
      ensures r.Ok? ==> ClassAddresses(r.value) == old(ClassesView(m)).value
      ensures !r.Ok? ==> SameFailure(r, old(ClassesView(m)))
      ensures old(classesCell).None? && r.Ok? ==>
                forall k :: k in r.value ==>
                  fresh(r.value[k]) && r.value[k].names == names && r.value[k].nameCell == Some(k)
                  && r.value[k].fieldsOffset == layout.offsets.pclassFields && r.value[k].fieldsCell.None?
      ensures classesCell == if r.Ok? then Some(r.value) else None
      ensures ClassesView(m) == old(ClassesView(m))
    {
      if classesCell.Some? { return Ok(classesCell.value); }
      r := ReadClassTable(m, names, layout.allClasses, layout.offsets.pclassFields);
      if r.Ok? { classesCell := Some(r.value); }
    }

    /** `find_class`: the class with that name, if the table has it. */
    method FindClass(name: string, m: Memory) returns (r: Result<Option<PClass>>)
      modifies this`classesCell
      ensures r.Ok? <==> old(ClassesView(m)).Ok?
      ensures r.Ok? ==> (r.value.Some? <==> name in old(ClassesView(m)).value)
      ensures r.Ok? && r.value.Some? ==> r.value.value.address == old(ClassesView(m)).value[name]
      ensures !r.Ok? ==> SameFailure(r, old(ClassesView(m)))
      ensures old(classesCell).Some? ==> classesCell == old(classesCell)
      ensures ClassesView(m) == old(ClassesView(m))
    {
      var classes := Classes(m);
      if !classes.Ok? { return Fail(classes); }
      if name in classes.value {
        r := Ok(Some(classes.value[name]));
      } else {
        r := Ok(None);
      }
    }

    /** `invalidate_cache`: forgets the level name, the player and the game action; keeps the classes. */
    method InvalidateCache()
      modifies level`nameCell, this`playerCell, this`gameactionCell
      ensures level.nameCell == None && playerCell == None && gameactionCell == None
    {
      level.InvalidateCache();
      playerCell := None;
      gameactionCell := None;
    }

    /** `gameaction`: the current game action, memoised. */
    method Gameaction(m: Memory) returns (r: Result<GameAction>)
      modifies this`gameactionCell
      ensures old(gameactionCell).Some? ==> r == Ok(old(gameactionCell).value)
      ensures old(gameactionCell).None? ==> r == GameActionAt(m, layout.gameaction)
      ensures gameactionCell == if r.Ok? then Some(r.value) else None
    {
      if gameactionCell.None? {
        var g := GameActionAt(m, layout.gameaction);
        if !g.Ok? { return g; }
        gameactionCell := Some(g.value);
      }
      r := Ok(gameactionCell.value);
    }

    /**
     * `player`: the first player, memoised, reading fields through a copy of the `Actor` class
     * handle. A class table without `Actor` is a panic.
     */
    method PlayerOf(m: Memory) returns (r: Result<Player>)
      modifies this`playerCell, this`classesCell
      ensures old(playerCell).Some? ==> r == Ok(old(playerCell).value)
      ensures old(playerCell).None? ==> (r.Ok? <==> old(ClassesView(m)).Ok? && "Actor" in old(ClassesView(m)).value)
      ensures old(playerCell).None? && old(ClassesView(m)).Ok? ==>
                (r == Panic(ActorMissing) <==> "Actor" !in old(ClassesView(m)).value)
      ensures old(playerCell).None? && !old(ClassesView(m)).Ok? ==> SameFailure(r, old(ClassesView(m)))
      ensures old(playerCell).None? && r.Ok? ==>
                fresh(r.value) && r.value.address == layout.players && fresh(r.value.actorClass)
                && r.value.actorClass.address == old(ClassesView(m)).value["Actor"]
                && r.value.posCell.None? && r.value.stateCell.None?
      ensures playerCell == if r.Ok? then Some(r.value) else old(playerCell)
      ensures old(classesCell).Some? ==> classesCell == old(classesCell)
      ensures ClassesView(m) == old(ClassesView(m))
    {
      if playerCell.Some? { return Ok(playerCell.value); }
      var classes := Classes(m);
      if !classes.Ok? { return Fail(classes); }
      if "Actor" !in classes.value { return Panic(ActorMissing); }
      var actorClass := classes.value["Actor"].Clone();
      var player := new Player(layout.players + 0x0, actorClass);
      playerCell := Some(player);
      r := Ok(player);
    }
  }

  /**
   * One attempt of `wait_try_load` on a snapshot of the process: an `Err` means "wait and try
   * again", a `Panic` ends the splitter, `Ok` is the layout found and what `loadFn` returned.
   */
  function AttemptLoad<T>(p: Process, version: ZDoomVersion, moduleName: string,
                          loadFn: (Memory, map<string, nat>) -> Result<T>): Result<(Layout, T)>
  {
    var layout :- MemoryNew(p, version, moduleName);
    var classes :- ClassTable(p.memory, NameManager(layout.namedata), layout.allClasses);
    if "Actor" !in classes then Err(NotFound("Actor"))
    else
      var v :- loadFn(p.memory, classes);
      Ok((layout, v))
  }

  /** The first outcome that does not ask to wait decides; none at all is still waiting. */
  function FirstDecisive<X>(attempts: seq<Result<X>>): (r: Result<X>)
    ensures |attempts| == 0 ==> r == Err(WalkBound)
    decreases |attempts|
  {
    if |attempts| == 0 then Err(WalkBound)
    else if attempts[0].Err? then FirstDecisive(attempts[1..])
    else attempts[0]
  }

  /** The outcome of the attempts on successive snapshots. */
  function FirstLoad<T>(snapshots: seq<Process>, version: ZDoomVersion, moduleName: string,
                        loadFn: (Memory, map<string, nat>) -> Result<T>): Result<(Layout, T)>
  {
    FirstDecisive(seq(|snapshots|, i requires 0 <= i < |snapshots| => AttemptLoad(snapshots[i], version, moduleName, loadFn)))
  }

  /**
   * The first decisive outcome is an attempt that did not ask to wait, and every attempt before
   * it did; when all ask to wait, the wait goes on.
   */
  lemma {:induction false} FirstDecisiveIsFirst<X>(attempts: seq<Result<X>>)
    ensures !FirstDecisive(attempts).Err? ==>
              exists i :: 0 <= i < |attempts| && attempts[i] == FirstDecisive(attempts)
                          && forall j :: 0 <= j < i ==> attempts[j].Err?
    ensures (forall j :: 0 <= j < |attempts| ==> attempts[j].Err?) ==> FirstDecisive(attempts) == Err(WalkBound)
    decreases |attempts|
  {
    if |attempts| > 0 {
      var rest := attempts[1..];
      FirstDecisiveIsFirst(rest);
      if attempts[0].Err? && !FirstDecisive(rest).Err? {
        var i :| 0 <= i < |rest| && rest[i] == FirstDecisive(rest) && forall j :: 0 <= j < i ==> rest[j].Err?;
        assert attempts[i + 1] == rest[i];
        forall j | 0 <= j < i + 1 ensures attempts[j].Err? {
          if j > 0 { assert attempts[j] == rest[j - 1]; }
        }
      }
      if forall j :: 0 <= j < |attempts| ==> attempts[j].Err? {
        forall j | 0 <= j < |rest| ensures rest[j].Err? {
          assert rest[j] == attempts[j + 1];
        }
      }
    }
  }

  /** A successful load found the `Actor` class in a table whose every key names its class. */
  lemma LoadedTableHasActor<T>(p: Process, version: ZDoomVersion, moduleName: string,
                               loadFn: (Memory, map<string, nat>) -> Result<T>)
    ensures AttemptLoad(p, version, moduleName, loadFn).Ok? ==>
              var layout := AttemptLoad(p, version, moduleName, loadFn).value.0;
              var table := ClassTable(p.memory, NameManager(layout.namedata), layout.allClasses);
              table.Ok? && "Actor" in table.value
              && ClassNameAt(p.memory, NameManager(layout.namedata), table.value["Actor"]) == Ok("Actor")
  {
    var a := AttemptLoad(p, version, moduleName, loadFn);
    if a.Ok? {
      var layout := MemoryNew(p, version, moduleName);
      assert layout.Ok? && a.value.0 == layout.value;
      ClassTableNamesClasses(p.memory, NameManager(layout.value.namedata), layout.value.allClasses);
    }
  }

  /**
   * One pass of the loop of `wait_try_load`: find the layout, build a fresh handle, read its
   * class table, check for `Actor`, run `loadFn`.
   */
  method TryLoad<T>(p: Process, version: ZDoomVersion, moduleName: string,
                    loadFn: (Memory, map<string, nat>) -> Result<T>) returns (r: Result<(ZDoom, T)>)
    ensures r.Ok? <==> AttemptLoad(p, version, moduleName, loadFn).Ok?
    ensures r.Ok? ==> fresh(r.value.0) && (r.value.0.layout, r.value.1) == AttemptLoad(p, version, moduleName, loadFn).value
    ensures r.Ok? ==> r.value.0.classesCell.Some? && r.value.0.playerCell.None? && r.value.0.gameactionCell.None?
    ensures !r.Ok? ==> SameFailure(r, AttemptLoad(p, version, moduleName, loadFn))
  {
    var layout := MemoryNew(p, version, moduleName);
    if !layout.Ok? { return Fail(layout); }
    var z := new ZDoom(layout.value);
    var classes := z.Classes(p.memory);
    if !classes.Ok? { return Fail(classes); }
    if "Actor" !in classes.value { return Err(NotFound("Actor")); }
    var result := loadFn(p.memory, ClassAddresses(classes.value));
    if !result.Ok? { return Fail(result); }
    r := Ok((z, result.value));
  }

  /**
   * `wait_try_load` over successive snapshots of the process: an attempt that fails with an
   * error waits for the next snapshot, a panic ends the wait. Running out of snapshots is
   * reported as `WalkBound` (the source waits forever).
   */
  method WaitTryLoad<T>(snapshots: seq<Process>, version: ZDoomVersion, moduleName: string,
                        loadFn: (Memory, map<string, nat>) -> Result<T>) returns (r: Result<(ZDoom, T)>)
    ensures r.Ok? <==> FirstLoad(snapshots, version, moduleName, loadFn).Ok?
    ensures r.Ok? ==> fresh(r.value.0) && (r.value.0.layout, r.value.1) == FirstLoad(snapshots, version, moduleName, loadFn).value
    ensures r.Ok? ==> r.value.0.classesCell.Some? && r.value.0.playerCell.None? && r.value.0.gameactionCell.None?
    ensures !r.Ok? ==> SameFailure(r, FirstLoad(snapshots, version, moduleName, loadFn))
  {
    ghost var attempts := seq(|snapshots|, i requires 0 <= i < |snapshots| => AttemptLoad(snapshots[i], version, moduleName, loadFn));
    var i := 0;
    while i < |snapshots|
      invariant 0 <= i <= |snapshots|
      invariant FirstDecisive(attempts) == FirstDecisive(attempts[i..])
    {
      assert attempts[i..][0] == attempts[i];
      assert attempts[i..][1..] == attempts[i + 1..];
      var attempt := TryLoad(snapshots[i], version, moduleName, loadFn);
      if !attempt.Err? { return attempt; }
      i := i + 1;
    }
    r := Err(WalkBound);
  }
}
