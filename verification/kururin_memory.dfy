/**
 * The watcher set of the newer Kuru Kuru Kururin revision: the game-state byte and its codes,
 * the button word, and the eight watchers with their layout and their per-tick advance.
 */
module KururinMemory {
  import opened Outcome
  import opened Remote
  import opened Pointer
  import opened Kururin

  /** Buttons held (`InputFlags`, a `u16` bit set). */
  const ButtonA: nat := 1
  const ButtonB: nat := 2
  const ButtonSelect: nat := 4
  const ButtonStart: nat := 8
  const ButtonRight: nat := 0x10
  const ButtonLeft: nat := 0x20
  const ButtonUp: nat := 0x40
  const ButtonDown: nat := 0x80
  const ButtonR: nat := 0x100
  const ButtonL: nat := 0x200

  /** The top-level menu state (`GameState`); the source's code 0 is called `None` there. */
  datatype GameState = NoState | PressStart | SaveFiles | Game

  function GameStateCode(s: GameState): (b: nat)
    ensures b < 4
  {
    match s
    case NoState => 0
    case PressStart => 1
    case SaveFiles => 2
    case Game => 3
  }

  /** The checked bit pattern of the state byte: the codes 0 to 3, and nothing else. */
  function GameStateOf(b: nat): (r: Option<GameState>)
    ensures r.Some? <==> b < 4
  {
    if b == 0 then Some(NoState)
    else if b == 1 then Some(PressStart)
    else if b == 2 then Some(SaveFiles)
    else if b == 3 then Some(Game)
    else None
  }

  /** Every state reads back from its code, and every readable code is the code of what it reads as. */
  lemma GameStateRoundTrip(s: GameState, b: nat)
    ensures GameStateOf(GameStateCode(s)) == Some(s)
    ensures GameStateOf(b).Some? ==> GameStateCode(GameStateOf(b).value) == b
  {
  }

  /** A state byte outside 0..3 is a failed read, not a state. */
  function GameStateDecoder(): Decoder<GameState>
  {
    (m: Memory, a: nat) => match ReadU8(m, a)
                          case None => None
                          case Some(b) => GameStateOf(b)
  }

  function U16Decoder(): Decoder<nat>
  {
    (m: Memory, a: nat) => ReadU16(m, a)
  }

  /** Where the menu state, its sub-state and the buttons live. */
  const StateByte: nat := 0x3000dca
  const SubstateByte: nat := 0x3000dcb
  const ButtonsWord: nat := 0x3000dec

  /** A watcher on a path (through `From<PointerPath>`) with a fallback (`default`). */
  method WatchWithDefault<T(==)>(p: PointerPath, decode: Decoder<T>, d: T) returns (w: MemoryWatcher<T>)
    ensures fresh(w)
    ensures w.path == New(p.reader, p.base, p.path) && w.decode == decode
    ensures w.fallback == Some(d) && w.cell.None? && w.previous.None?
  {
    w := new MemoryWatcher.FromPath(p, decode);
    w.DefaultGiven(d);
  }

  /** The level watchers of `init`: paths derived from the state block with `child`, and named. */
  method LevelWatchers() returns (world: MemoryWatcher<nat>, subLevel: MemoryWatcher<nat>, gameMode: MemoryWatcher<nat>,
                                  time: MemoryWatcher<nat>, flags: MemoryWatcher<bv32>)
    ensures fresh(world) && fresh(subLevel) && fresh(gameMode) && fresh(time) && fresh(flags)
    ensures world != subLevel && world != gameMode && world != time
    ensures subLevel != gameMode && subLevel != time && gameMode != time
    ensures world.path == New(EmulatorReader, StateBlock, [0x0]) && world.decode == U8Decoder()
    ensures subLevel.path == New(EmulatorReader, StateBlock, [0x1]) && subLevel.decode == U8Decoder()
    ensures gameMode.path == New(EmulatorReader, StateBlock, [0x16]) && gameMode.decode == U8Decoder()
    ensures time.path == New(EmulatorReader, StateBlock, [0x18, 0xB8]) && time.decode == U32Decoder()
    ensures flags.path == New(EmulatorReader, StateBlock, [0x18, 0xBC]) && flags.decode == FlagsDecoder()
    ensures world.fallback == Some(0) && subLevel.fallback == Some(0) && gameMode.fallback == Some(0)
    ensures time.fallback == Some(0) && flags.fallback == Some(0)
    ensures world.cell.None? && subLevel.cell.None? && gameMode.cell.None? && time.cell.None? && flags.cell.None?
    ensures world.previous.None? && subLevel.previous.None? && gameMode.previous.None?
    ensures time.previous.None? && flags.previous.None?
  {
    var base := New32(EmulatorReader, StateBlock, []);
    var important := ChildPath(base, [0x18, 0x0]);
    assert important.path == [0x18, 0x0];
    var worldPath := Named(ChildPath(base, [0x0]), "world");
    var subLevelPath := Named(ChildPath(base, [0x1]), "sub level");
    var gameModePath := Named(ChildPath(base, [0x16]), "game mode");
    var timePath := Named(ChildPath(important, [0xB8]), "time");
    var flagsPath := Named(ChildPath(important, [0xBC]), "flags");
    assert worldPath.path == [0x0] && subLevelPath.path == [0x1] && gameModePath.path == [0x16];
    assert timePath.path == [0x18, 0xB8] && flagsPath.path == [0x18, 0xBC];
    world := WatchWithDefault(worldPath, U8Decoder(), 0);
    subLevel := WatchWithDefault(subLevelPath, U8Decoder(), 0);
    gameMode := WatchWithDefault(gameModePath, U8Decoder(), 0);
    time := WatchWithDefault(timePath, U32Decoder(), 0);
    flags := WatchWithDefault(flagsPath, FlagsDecoder(), 0);
  }

  /** The menu watchers of `init`: state, sub-state and buttons, each at its own address with no offsets. */
  method MenuWatchers() returns (state: MemoryWatcher<GameState>, substate: MemoryWatcher<nat>, inputFlags: MemoryWatcher<nat>)
    ensures fresh(state) && fresh(substate) && fresh(inputFlags) && substate != inputFlags
    ensures state.path == New(EmulatorReader, StateByte, []) && state.decode == GameStateDecoder()
    ensures substate.path == New(EmulatorReader, SubstateByte, []) && substate.decode == U8Decoder()
    ensures inputFlags.path == New(EmulatorReader, ButtonsWord, []) && inputFlags.decode == U16Decoder()
    ensures state.fallback == Some(NoState) && substate.fallback == Some(0) && inputFlags.fallback == Some(0)
    ensures state.cell.None? && substate.cell.None? && inputFlags.cell.None?
    ensures state.previous.None? && substate.previous.None? && inputFlags.previous.None?
  {
    state := WatchWithDefault(Named(New32(EmulatorReader, StateByte, []), "state"), GameStateDecoder(), NoState);
    substate := WatchWithDefault(Named(New32(EmulatorReader, SubstateByte, []), "substate"), U8Decoder(), 0);
    inputFlags := WatchWithDefault(Named(New32(EmulatorReader, ButtonsWord, []), "buttons"), U16Decoder(), 0);
  }

  /** The eight watchers of `Watchers`. The game mode is read as its raw byte. */
  class Watchers {
    const world: MemoryWatcher<nat>
    const subLevel: MemoryWatcher<nat>
    const gameMode: MemoryWatcher<nat>
    const time: MemoryWatcher<nat>
    const flags: MemoryWatcher<bv32>
    const inputFlags: MemoryWatcher<nat>
    const state: MemoryWatcher<GameState>
    const substate: MemoryWatcher<nat>

    ghost predicate Distinct()
      reads this
    {
      world != subLevel && world != gameMode && world != time && world != inputFlags && world != substate
      && subLevel != gameMode && subLevel != time && subLevel != inputFlags && subLevel != substate
      && gameMode != time && gameMode != inputFlags && gameMode != substate
      && time != inputFlags && time != substate && inputFlags != substate
      && flags as object != world && flags as object != subLevel && flags as object != gameMode
      && flags as object != time && flags as object != inputFlags && flags as object != substate
      && state as object != world && state as object != subLevel && state as object != gameMode
      && state as object != time && state as object != inputFlags && state as object != substate
      && state as object != flags
    }

    /**
     * `init`: world, sub-level and game mode at 0x0, 0x1 and 0x16 of the state block; time and
     * flags at 0xB8 and 0xBC of the object it points to at 0x18; state, sub-state and buttons
     * at their own addresses with no offsets. Every watcher falls back to its type's default.
     */
    constructor Init()
      ensures Distinct()
      ensures world.path == New(EmulatorReader, StateBlock, [0x0]) && world.decode == U8Decoder()
      ensures subLevel.path == New(EmulatorReader, StateBlock, [0x1]) && subLevel.decode == U8Decoder()
      ensures gameMode.path == New(EmulatorReader, StateBlock, [0x16]) && gameMode.decode == U8Decoder()
      ensures time.path == New(EmulatorReader, StateBlock, [0x18, 0xB8]) && time.decode == U32Decoder()
      ensures flags.path == New(EmulatorReader, StateBlock, [0x18, 0xBC]) && flags.decode == FlagsDecoder()
      ensures state.path == New(EmulatorReader, StateByte, []) && state.decode == GameStateDecoder()
      ensures substate.path == New(EmulatorReader, SubstateByte, []) && substate.decode == U8Decoder()
      ensures inputFlags.path == New(EmulatorReader, ButtonsWord, []) && inputFlags.decode == U16Decoder()
      ensures world.fallback == Some(0) && subLevel.fallback == Some(0) && gameMode.fallback == Some(0)
      ensures time.fallback == Some(0) && flags.fallback == Some(0) && inputFlags.fallback == Some(0)
      ensures state.fallback == Some(NoState) && substate.fallback == Some(0)
      ensures world.cell.None? && subLevel.cell.None? && gameMode.cell.None? && time.cell.None?
      ensures flags.cell.None? && inputFlags.cell.None? && state.cell.None? && substate.cell.None?
      ensures world.previous.None? && subLevel.previous.None? && gameMode.previous.None? && time.previous.None?
      ensures flags.previous.None? && inputFlags.previous.None? && state.previous.None? && substate.previous.None?
    {
      var w, sl, gm, t, f := LevelWatchers();
      var st, ss, inp := MenuWatchers();
      world, subLevel, gameMode, time, flags := w, sl, gm, t, f;
      inputFlags, state, substate := inp, st, ss;
    }

    /**
     * `invalidate` as written: advances world, sub-level, game mode, time, flags and buttons to
     * the next tick, and leaves the state and sub-state watchers as they are.
     */
    method Invalidate()
      requires Distinct()
      modifies world`cell, world`previous, subLevel`cell, subLevel`previous, gameMode`cell, gameMode`previous
      modifies time`cell, time`previous, flags`cell, flags`previous, inputFlags`cell, inputFlags`previous
      ensures world.previous == old(world.cell) && world.cell.None?
      ensures subLevel.previous == old(subLevel.cell) && subLevel.cell.None?
      ensures gameMode.previous == old(gameMode.cell) && gameMode.cell.None?
      ensures time.previous == old(time.cell) && time.cell.None?
      ensures flags.previous == old(flags.cell) && flags.cell.None?
      ensures inputFlags.previous == old(inputFlags.cell) && inputFlags.cell.None?
      ensures unchanged(state, substate)
    {
      world.Invalidate();
      subLevel.Invalidate();
      gameMode.Invalidate();
      time.Invalidate();
      flags.Invalidate();
      inputFlags.Invalidate();
    }

    /** `invalidate` as evidently intended: every watcher, state and sub-state included, advances. */
    method InvalidateAll()
      requires Distinct()
      modifies world`cell, world`previous, subLevel`cell, subLevel`previous, gameMode`cell, gameMode`previous
      modifies time`cell, time`previous, flags`cell, flags`previous, inputFlags`cell, inputFlags`previous
      modifies state`cell, state`previous, substate`cell, substate`previous
      ensures world.previous == old(world.cell) && world.cell.None?
      ensures subLevel.previous == old(subLevel.cell) && subLevel.cell.None?
      ensures gameMode.previous == old(gameMode.cell) && gameMode.cell.None?
      ensures time.previous == old(time.cell) && time.cell.None?
      ensures flags.previous == old(flags.cell) && flags.cell.None?
      ensures inputFlags.previous == old(inputFlags.cell) && inputFlags.cell.None?
      ensures state.previous == old(state.cell) && state.cell.None?
      ensures substate.previous == old(substate.cell) && substate.cell.None?
    {
      world.Invalidate();
      subLevel.Invalidate();
      gameMode.Invalidate();
      time.Invalidate();
      flags.Invalidate();
      inputFlags.Invalidate();
      state.Invalidate();
      substate.Invalidate();
    }
  }

  /**
   * What the as-written `invalidate` does to the menu state: once a state has been read, every
   * later tick reports that same state, whatever the state byte then holds. With the byte at 1
   * (press start) and then at 3 (in game), the second tick still reports press start.
   */
  method StaleStateAcrossTicks(w: Watchers, first: Memory, second: Memory) returns (before: Result<GameState>, after: Result<GameState>)
    requires w.Distinct() && w.state.cell.None?
    requires Read(w.state.path, first, w.state.decode) == Ok(PressStart)
    requires Read(w.state.path, second, w.state.decode) == Ok(Game)
    modifies w.world, w.subLevel, w.gameMode, w.time, w.flags, w.inputFlags, w.state
    ensures before == Ok(PressStart) && after == Ok(PressStart)
  {
    before := w.state.Current(first);
    w.Invalidate();
    after := w.state.Current(second);
  }

  /** With every watcher advanced, the second tick reports the state the byte then holds. */
  method FreshStateAcrossTicks(w: Watchers, first: Memory, second: Memory) returns (before: Result<GameState>, after: Result<GameState>)
    requires w.Distinct() && w.state.cell.None?
    requires Read(w.state.path, first, w.state.decode) == Ok(PressStart)
    requires Read(w.state.path, second, w.state.decode) == Ok(Game)
    modifies w.world, w.subLevel, w.gameMode, w.time, w.flags, w.inputFlags, w.state, w.substate
    ensures before == Ok(PressStart) && after == Ok(Game)
  {
    before := w.state.Current(first);
    w.InvalidateAll();
    after := w.state.Current(second);
  }
}
