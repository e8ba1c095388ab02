/**
 * The Kuru Kuru Kururin splitter (a GBA game read through an emulator): the game's flag word,
 * the rising-edge test on one of its flags, the level key a completed level splits on, and one
 * tick of the attach loop.
 */
module Kururin {
  import opened Outcome
  import opened Remote
  import opened Pointer
  import opened Splits
  import opened Text
  import opened Timer

  /** Bits of the game's flag word (`GameFlags`, a `u32` in which every bit is a valid value). */
  const HasStarted: bv32 := 1 << 1
  const HasFinished: bv32 := 1 << 3
  const PlayerIsDead: bv32 := 1 << 5
  const PlayerIsSprinting: bv32 := 1 << 12
  const PlayerIsReallySprinting: bv32 := 1 << 13
  const PlayerInHealer: bv32 := 1 << 18

  /** The flag word is any 32-bit pattern. */
  function FlagsDecoder(): Decoder<bv32>
  {
    (m: Memory, a: nat) => match ReadU32(m, a)
                          case None => None
                          case Some(v) => Some(v as bv32)
  }

  /** `u8` and `u32` watchers read the low bytes of the word. */
  function U8Decoder(): Decoder<nat>
  {
    (m: Memory, a: nat) => ReadU8(m, a)
  }

  function U32Decoder(): Decoder<nat>
  {
    (m: Memory, a: nat) => ReadU32(m, a)
  }

  /** `contains` of a flag set: every bit of `flag` is set in `flags`. */
  predicate Contains(flags: bv32, flag: bv32)
  {
    flags & flag == flag
  }

  /**
   * `flag_just_enabled` on the watcher's previous value and its current outcome: without a
   * previous value the answer is no (and the current value is not consulted); otherwise a
   * failed read is passed on, and the answer is whether the flag was off and is now on.
   */
  function JustEnabled(previous: Option<bv32>, current: Result<bv32>, flag: bv32): (r: Result<bool>)
    ensures previous.None? ==> r == Ok(false)
    ensures previous.Some? && !current.Ok? ==> SameFailure(r, current)
    ensures r == Ok(true) <==>
              previous.Some? && current.Ok? && !Contains(previous.value, flag) && Contains(current.value, flag)
  {
    match previous
    case None => Ok(false)
    case Some(before) =>
      match current
      case Ok(now) => Ok(!Contains(before, flag) && Contains(now, flag))
      case Err(e) => Err(e)
      case Panic(s) => Panic(s)
  }

  /** A flag that has just come on cannot come on again at the next tick: it is already on. */
  lemma JustEnabledIsAnEdge(a: bv32, b: bv32, c: bv32, flag: bv32)
    requires JustEnabled(Some(a), Ok(b), flag) == Ok(true)
    ensures JustEnabled(Some(b), Ok(c), flag) == Ok(false)
  {
  }

  /**
   * Over a run of flag words, the ticks that report a rising edge of a one-bit flag are exactly
   * the ticks whose flag is on after a tick where it was off; two reports are always separated
   * by a tick with the flag off.
   */
  lemma {:induction false} EdgesAreSeparated(words: seq<bv32>, flag: bv32, i: nat, j: nat)
    requires 0 < i < j < |words|
    requires JustEnabled(Some(words[i - 1]), Ok(words[i]), flag) == Ok(true)
    requires JustEnabled(Some(words[j - 1]), Ok(words[j]), flag) == Ok(true)
    ensures exists k :: i < k < j && !Contains(words[k], flag)
  {
    assert !Contains(words[j - 1], flag);
  }

  /** `flag_just_enabled` on a watcher: reads (and memoises) the current value only when there is a previous one. */
  method FlagJustEnabled(w: MemoryWatcher<bv32>, m: Memory, flag: bv32) returns (r: Result<bool>)
    modifies w`cell
    ensures r == JustEnabled(old(w.previous), old(w.Value(m)), flag)
    ensures old(w.previous).None? ==> w.cell == old(w.cell)
    ensures old(w.previous).Some? ==> w.cell == (if old(w.Value(m)).Ok? then Some(old(w.Value(m)).value) else None)
  {
    var before := w.Old();
    if before.None? {
      return Ok(false);
    }
    var now := w.Current(m);
    if !now.Ok? {
      return Fail(now);
    }
    r := Ok(!Contains(before.value, flag) && Contains(now.value, flag));
  }

  /** The split key of a completed level: `_level_{world}_{sub_level}`. */
  function LevelKey(world: nat, subLevel: nat): string
  {
    "_level_" + Decimal(world) + "_" + Decimal(subLevel)
  }

  /** Different levels split on different keys: the key determines the world and the sub-level. */
  lemma LevelKeyInjective(w1: nat, s1: nat, w2: nat, s2: nat)
    requires LevelKey(w1, s1) == LevelKey(w2, s2)
    ensures w1 == w2 && s1 == s2
  {
    var a, b := Decimal(w1), Decimal(w2);
    var k1, k2 := LevelKey(w1, s1)[7..], LevelKey(w2, s2)[7..];
    assert k1 == a + "_" + Decimal(s1);
    assert k2 == b + "_" + Decimal(s2);
    assert forall i :: 0 <= i < |a| ==> k1[i] != '_';
    assert forall i :: 0 <= i < |b| ==> k2[i] != '_';
    assert k1[|a|] == '_' && k2[|b|] == '_';
    assert |a| == |b|;
    assert a == k1[..|a|] == k2[..|b|] == b;
    assert Decimal(s1) == k1[|a| + 1..] == k2[|b| + 1..] == Decimal(s2);
    DecimalInjective(w1, w2);
    DecimalInjective(s1, s2);
  }

  /** The values one tick reads. */
  datatype Sample = Sample(time: nat, flags: bv32, world: nat, subLevel: nat)

  /** The tick reads time, flags, world and sub-level in that order and stops at the first failure. */
  function SampleOf(time: Result<nat>, flags: Result<bv32>, world: Result<nat>, subLevel: Result<nat>): (r: Result<Sample>)
    ensures r.Ok? <==> time.Ok? && flags.Ok? && world.Ok? && subLevel.Ok?
    ensures r.Ok? ==> r.value == Sample(time.value, flags.value, world.value, subLevel.value)
    ensures !time.Ok? ==> SameFailure(r, time)
  {
    var t :- time;
    var f :- flags;
    var w :- world;
    var s :- subLevel;
    Ok(Sample(t, f, w, s))
  }

  /** What one tick does: its outcome, what it told the timer, and the completed splits after it. */
  datatype TickReport = TickReport(status: Result<()>, actions: seq<TimerAction>, completed: set<string>)

  /**
   * One pass of the attach loop, given the values read, the flag word of the tick before, the
   * settings, whether the timer reports running once the start decision is made, and the splits
   * completed so far. A failed read or setting ends the pass with that failure; a start is
   * asked for on a rising edge of `HasStarted` in IL mode; the game time is set from the frame
   * counter and paused in IGT mode, resumed otherwise; a rising edge of `HasFinished` tries
   * the level's split, whose own failure is ignored.
   */
  function TickOf(sample: Result<Sample>, previous: Option<bv32>, stored: map<string, SettingValue>,
                  defaults: map<string, bool>, running: bool, completed: set<string>): TickReport
  {
    if !sample.Ok? then TickReport(Fail(sample), [], completed)
    else
      var s := sample.value;
      var il := GetSetting("il_mode", stored, defaults);
      if !il.Ok? then TickReport(Fail(il), [], completed)
      else
        var started := if il.value && JustEnabled(previous, Ok(s.flags), HasStarted) == Ok(true) then [StartTimer] else [];
        var igt := GetSetting("igt_mode", stored, defaults);
        if running && !igt.Ok? then TickReport(Fail(igt), started, completed)
        else
          var timing := if !running then [] else if igt.value then [SetGameTimeFrames(s.time), PauseGameTime] else [ResumeGameTime];
          if JustEnabled(previous, Ok(s.flags), HasFinished) == Ok(true) then
            var key := LevelKey(s.world, s.subLevel);
            var split := BetterSplitDecision(key, stored, defaults, completed) == Ok(true);
            TickReport(Ok(()), started + timing + (if split then [SplitTimer] else []), if split then completed + {key} else completed)
          else TickReport(Ok(()), started + timing, completed)
  }

  /**
   * A tick records a split only on a rising edge of `HasFinished`, only for the level just
   * read, and only while telling the timer to split.
   */
  lemma TickSplitsOnFinishEdge(sample: Result<Sample>, previous: Option<bv32>, stored: map<string, SettingValue>,
                               defaults: map<string, bool>, running: bool, completed: set<string>)
    ensures var t := TickOf(sample, previous, stored, defaults, running, completed);
            completed <= t.completed
            && (t.completed != completed <==> SplitTimer in t.actions)
            && (t.completed != completed ==>
                  sample.Ok? && previous.Some? && !Contains(previous.value, HasFinished)
                  && Contains(sample.value.flags, HasFinished)
                  && t.completed == completed + {LevelKey(sample.value.world, sample.value.subLevel)})
  {
  }

  /** A tick asks for a start exactly on a rising edge of `HasStarted` with IL mode on. */
  lemma TickStartsOnStartEdge(sample: Result<Sample>, previous: Option<bv32>, stored: map<string, SettingValue>,
                              defaults: map<string, bool>, running: bool, completed: set<string>)
    ensures var t := TickOf(sample, previous, stored, defaults, running, completed);
            StartTimer in t.actions <==>
              sample.Ok? && GetSetting("il_mode", stored, defaults) == Ok(true)
              && previous.Some? && !Contains(previous.value, HasStarted) && Contains(sample.value.flags, HasStarted)
  {
  }

  /** A level that has split is never split again, whatever the flags do. */
  lemma TickSplitsLevelOnce(sample: Result<Sample>, previous: Option<bv32>, stored: map<string, SettingValue>,
                            defaults: map<string, bool>, running: bool, completed: set<string>)
    requires sample.Ok? && LevelKey(sample.value.world, sample.value.subLevel) in completed
    ensures var t := TickOf(sample, previous, stored, defaults, running, completed);
            t.completed == completed && SplitTimer !in t.actions
  {
  }

  /** The base of the game's state block, in the emulator's 32-bit address space. */
  const StateBlock: nat := 0x3004420

  /** The watchers the attach loop creates (world, sub-level, frame timer and flag word). */
  class AttachWatchers {
    const world: MemoryWatcher<nat>
    const subLevel: MemoryWatcher<nat>
    const time: MemoryWatcher<nat>
    const flags: MemoryWatcher<bv32>

    ghost predicate Distinct()
      reads this
    {
      world != subLevel && world != time && subLevel != time
      && flags as object != world && flags as object != subLevel && flags as object != time
    }

    /**
     * The layout: world and sub-level are the first two bytes of the state block, and the
     * frame timer and flag word are at 0xB8 and 0xBC of the object the block points to at 0x18.
     * Each is derived with `child` and has no fallback.
     */
    constructor ()
      ensures Distinct()
      ensures fresh(world) && fresh(subLevel) && fresh(time) && fresh(flags)
      ensures world.path == New(EmulatorReader, StateBlock, [0x0]) && world.decode == U8Decoder()
      ensures subLevel.path == New(EmulatorReader, StateBlock, [0x1]) && subLevel.decode == U8Decoder()
      ensures time.path == New(EmulatorReader, StateBlock, [0x18, 0xB8]) && time.decode == U32Decoder()
      ensures flags.path == New(EmulatorReader, StateBlock, [0x18, 0xBC]) && flags.decode == FlagsDecoder()
      ensures world.cell.None? && world.previous.None? && world.fallback.None?
      ensures subLevel.cell.None? && subLevel.previous.None? && subLevel.fallback.None?
      ensures time.cell.None? && time.previous.None? && time.fallback.None?
      ensures flags.cell.None? && flags.previous.None? && flags.fallback.None?
    {
      var base := New32(EmulatorReader, StateBlock, []);
      var worldPath := ChildPath(base, [0x0]);
      var subLevelPath := ChildPath(base, [0x1]);
      var important := ChildPath(base, [0x18, 0x0]);
      assert important.path == [0x18, 0x0];
      var timePath := ChildPath(important, [0xB8]);
      var flagsPath := ChildPath(important, [0xBC]);
      assert worldPath.path == [0x0] && subLevelPath.path == [0x1];
      assert timePath.path == [0x18, 0xB8] && flagsPath.path == [0x18, 0xBC];
      world := new MemoryWatcher.FromPath(worldPath, U8Decoder());
      subLevel := new MemoryWatcher.FromPath(subLevelPath, U8Decoder());
      time := new MemoryWatcher.FromPath(timePath, U32Decoder());
      flags := new MemoryWatcher.FromPath(flagsPath, FlagsDecoder());
    }

    /**
     * The reads at the top of the loop: time, flags, world and sub-level, each memoised, stopping
     * at the first failure.
     */
    method ReadSample(m: Memory) returns (sample: Result<Sample>)
      requires Distinct()
      modifies time`cell, flags`cell, world`cell, subLevel`cell
      ensures sample == SampleOf(old(time.Value(m)), old(flags.Value(m)), old(world.Value(m)), old(subLevel.Value(m)))
      ensures sample.Ok? ==> time.cell == Some(sample.value.time) && flags.cell == Some(sample.value.flags)
                             && world.cell == Some(sample.value.world) && subLevel.cell == Some(sample.value.subLevel)
    {
      var tv := time.Current(m);
      if !tv.Ok? { return Fail(tv); }
      var fv := flags.Current(m);
      if !fv.Ok? { return Fail(fv); }
      var wv := world.Current(m);
      if !wv.Ok? { return Fail(wv); }
      var sv := subLevel.Current(m);
      if !sv.Ok? { return Fail(sv); }
      sample := Ok(Sample(tv.value, fv.value, wv.value, sv.value));
    }

    /**
     * One pass of the attach loop: reads the sample, decides start, game time and split as
     * `TickOf` says, and on success advances all four watchers to the next tick. A failure
     * leaves the previous values alone.
     */
    method Tick(m: Memory, stored: map<string, SettingValue>, defaults: map<string, bool>, running: bool,
                completed: set<string>) returns (t: TickReport)
      requires Distinct()
      modifies time`cell, flags`cell, world`cell, subLevel`cell
      modifies time`previous, flags`previous, world`previous, subLevel`previous
      ensures var sample := SampleOf(old(time.Value(m)), old(flags.Value(m)), old(world.Value(m)), old(subLevel.Value(m)));
              t == TickOf(sample, old(flags.previous), stored, defaults, running, completed)
              && (t.status.Ok? ==>
                    time.previous == Some(sample.value.time) && flags.previous == Some(sample.value.flags)
                    && world.previous == Some(sample.value.world) && subLevel.previous == Some(sample.value.subLevel)
                    && time.cell.None? && flags.cell.None? && world.cell.None? && subLevel.cell.None?)
      ensures !t.status.Ok? ==>
                time.previous == old(time.previous) && flags.previous == old(flags.previous)
                && world.previous == old(world.previous) && subLevel.previous == old(subLevel.previous)
    {
      var sample := ReadSample(m);
      if !sample.Ok? {
        return TickReport(Fail(sample), [], completed);
      }
      t := Decide(sample.value, flags.Old(), stored, defaults, running, completed);
      if t.status.Ok? {
        world.Invalidate();
        subLevel.Invalidate();
        time.Invalidate();
        flags.Invalidate();
      }
    }
  }

  /**
   * The decisions of one pass once the sample is read. The flag watcher's value is memoised by
   * then, so each `flag_just_enabled` call sees the previous flag word and the sampled one.
   */
  method Decide(s: Sample, previous: Option<bv32>, stored: map<string, SettingValue>, defaults: map<string, bool>,
                running: bool, completed: set<string>) returns (t: TickReport)
    ensures t == TickOf(Ok(s), previous, stored, defaults, running, completed)
  {
    var actions := [];
    var il := GetSetting("il_mode", stored, defaults);
    if !il.Ok? { return TickReport(Fail(il), [], completed); }
    if il.value {
      var edge := JustEnabled(previous, Ok(s.flags), HasStarted);
      if edge == Ok(true) { actions := actions + [StartTimer]; }
    }
    if running {
      var igt := GetSetting("igt_mode", stored, defaults);
      if !igt.Ok? { return TickReport(Fail(igt), actions, completed); }
      if igt.value {
        actions := actions + [SetGameTimeFrames(s.time), PauseGameTime];
      } else {
        actions := actions + [ResumeGameTime];
      }
    }
    var completedAfter := completed;
    if JustEnabled(previous, Ok(s.flags), HasFinished) == Ok(true) {
      var split;
      split, completedAfter := BetterSplit(LevelKey(s.world, s.subLevel), stored, defaults, completed);
      if split == Ok(true) { actions := actions + [SplitTimer]; }
    }
    t := TickReport(Ok(()), actions, completedAfter);
  }

  /** The frame timer and the flag word are neighbouring fields of one object: where one is, the other is 4 bytes on. */
  lemma TimeAndFlagsAdjacent(m: Memory)
    ensures var time := Address(New(EmulatorReader, StateBlock, [0x18, 0xB8]), m);
            var flags := Address(New(EmulatorReader, StateBlock, [0x18, 0xBC]), m);
            (time.Some? <==> flags.Some?)
            && (time.Some? ==> ReadU32(m, StateBlock + 0x18).Some?
                               && time.value == ReadU32(m, StateBlock + 0x18).value + 0xB8
                               && flags.value == time.value + 4)
  {
    assert Truncate32([0x18, 0xB8]) == [0x18, 0xB8];
    assert Truncate32([0x18, 0xBC]) == [0x18, 0xBC];
    TargetOfTwo(m, Bit32, StateBlock, 0x18, 0xB8);
    TargetOfTwo(m, Bit32, StateBlock, 0x18, 0xBC);
  }
}
