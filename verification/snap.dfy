/**
 * The Snap the Sentinel splitter (on GZDoom 4.8.2): the level-pair split key, the pause rule,
 * the start with its reset of the completed splits, and the split on the death of the ocean
 * boss, whose health is read from the `DummyOcean` actor on map E1M10.
 */
module Snap {
  import opened Outcome
  import opened Remote
  import opened Text
  import opened Timer
  import opened Splits
  import opened ZDoom
  import opened ZDoomNames
  import opened ZDoomClasses
  import opened ZDoomLayout
  import opened ZDoomLevel
  import opened ZDoomPlayer

  /** The values one tick compares; the ocean health is absent whenever it could not be read. */
  datatype SnapState = SnapState(
    gameaction: GameAction,
    level: string,
    playerstate: PlayerState,
    playerPos: DVector3,
    oceanHealth: Option<nat>)

  /** The split key for going from one level to the next: `_level_{old}_{current}`, lower-cased. */
  function LevelKey(previous: string, current: string): string
  {
    Lower("_level_" + previous + "_" + current)
  }

  /** Lower-casing the whole key is lower-casing each level name. */
  lemma LevelKeyLowersNames(previous: string, current: string)
    ensures LevelKey(previous, current) == "_level_" + Lower(previous) + "_" + Lower(current)
  {
    LowerConcat("_level_" + previous + "_", current);
    LowerConcat("_level_" + previous, "_");
    LowerConcat("_level_", previous);
    assert Lower("_level_") == "_level_";
    assert Lower("_") == "_";
  }

  /** The game's map names are upper case; the keys match the lower-case names the settings declare. */
  lemma KeysMatchSettings()
    ensures LevelKey("E1M1", "E1M2") == "_level_e1m1_e1m2"
    ensures LevelKey("E1M9", "E1M10") == "_level_e1m9_e1m10"
  {
    LevelKeyLowersNames("E1M1", "E1M2");
    LevelKeyLowersNames("E1M9", "E1M10");
    assert Lower("E1M1") == "e1m1" && Lower("E1M2") == "e1m2";
    assert Lower("E1M9") == "e1m9" && Lower("E1M10") == "e1m10";
  }

  /** The key of a level change is never the key of the ocean-death split. */
  lemma LevelKeyIsNotOceanDeath(previous: string, current: string)
    ensures LevelKey(previous, current) != "ocean_death"
  {
    LevelKeyLowersNames(previous, current);
    assert LevelKey(previous, current)[0] == '_';
  }

  /** What `get_ocean_health` treats as no value: every failure but a panic. */
  function OrNone<T>(r: Result<T>): Result<Option<T>>
  {
    match r
    case Ok(v) => Ok(Some(v))
    case Err(_) => Ok(None)
    case Panic(s) => Panic(s)
  }

  const UnwrapNone := "called `Option::unwrap()` on a `None` value"

  /**
   * `get_ocean_health`, on one memory snapshot: nothing unless the level is E1M10 and the
   * `DummyOcean` actor, the `Health` field of `Actor` and the health word can all be read. A
   * class table without `Actor`, or an `Actor` without `Health`, is a panic, as is an invalid
   * name. `classes` is the class table the handle reports (read once and memoised), and
   * `fuel` bounds the actor walk.
   */
  function OceanHealthOf(m: Memory, layout: Layout, classes: Result<map<string, nat>>, fuel: nat): (r: Result<Option<nat>>)
    ensures r.Ok? && r.value.Some? ==>
              LevelNameAt(m, layout.level, layout.offsets.levelMapname) == Ok("E1M10")
              && FindActorIn(m, NameManager(layout.namedata), layout.level, layout.offsets, "DummyOcean", fuel).Ok?
              && r.value.value < U32
    ensures LevelNameAt(m, layout.level, layout.offsets.levelMapname).Err? ==> r == Ok(None)
    ensures (LevelNameAt(m, layout.level, layout.offsets.levelMapname).Ok?
             && LevelNameAt(m, layout.level, layout.offsets.levelMapname).value != "E1M10") ==> r == Ok(None)
  {
    var nm := NameManager(layout.namedata);
    var name :- OrNone(LevelNameAt(m, layout.level, layout.offsets.levelMapname));
    if name.None? || name.value != "E1M10" then Ok(None)
    else
      var ocean :- OrNone(FindActorIn(m, nm, layout.level, layout.offsets, "DummyOcean", fuel));
      if ocean.None? then Ok(None)
      else
        var table :- OrNone(classes);
        if table.None? then Ok(None)
        else if "Actor" !in table.value then Panic(UnwrapNone)
        else
          var fields :- OrNone(FieldTable(m, nm, table.value["Actor"], layout.offsets.pclassFields));
          if fields.None? then Ok(None)
          else if "Health" !in fields.value then Panic(UnwrapNone)
          else
            var offset :- OrNone(ReadAt(m, fields.value["Health"] + PFieldOffset, U32));
            if offset.None? then Ok(None)
            else OrNone(ReadAt(m, ocean.value + offset.value, U32))
  }

  /** Off map E1M10 the ocean has no health, whatever the rest of memory holds. */
  lemma NoOceanHealthElsewhere(m: Memory, layout: Layout, classes: Result<map<string, nat>>, fuel: nat, level: string)
    requires LevelNameAt(m, layout.level, layout.offsets.levelMapname) == Ok(level) && level != "E1M10"
    ensures OceanHealthOf(m, layout, classes, fuel) == Ok(None)
  {
  }

  /**
   * With everything readable, the health is the 32-bit word at the actor's address plus the
   * offset of `Actor.Health`.
   */
  lemma OceanHealthIsActorHealth(m: Memory, layout: Layout, table: map<string, nat>, fuel: nat, ocean: nat,
                                 fields: map<string, nat>, offset: nat)
    requires LevelNameAt(m, layout.level, layout.offsets.levelMapname) == Ok("E1M10")
    requires FindActorIn(m, NameManager(layout.namedata), layout.level, layout.offsets, "DummyOcean", fuel) == Ok(ocean)
    requires "Actor" in table
    requires FieldTable(m, NameManager(layout.namedata), table["Actor"], layout.offsets.pclassFields) == Ok(fields)
    requires "Health" in fields && ReadU32(m, fields["Health"] + PFieldOffset) == Some(offset)
    ensures OceanHealthOf(m, layout, Ok(table), fuel) == OrNone(ReadAt(m, ocean + offset, U32))
  {
  }

  /** A health word as the game's signed 32-bit integer. */
  function Signed32(word: nat): (v: int)
    requires word < U32
    ensures 0 <= v < 0x8000_0000 || -0x8000_0000 <= v < 0
    ensures (v - word) % U32 == 0
  {
    if word < 0x8000_0000 then word else word - U32
  }

  /** The ocean-death condition as written: the words compared as unsigned, so only exactly 0 counts. */
  predicate OceanDeathAsWritten(previous: Option<nat>, current: Option<nat>)
  {
    previous.Some? && current.Some? && previous.value > 0 && current.value <= 0
  }

  /** The ocean-death condition on the health the game keeps: positive before, zero or below now. */
  predicate OceanDeath(previous: Option<nat>, current: Option<nat>)
  {
    previous.Some? && current.Some? && previous.value < U32 && current.value < U32
    && Signed32(previous.value) > 0 && Signed32(current.value) <= 0
  }

  /** A killing blow that takes the health from 50 to -10 is missed as written and seen when read as signed. */
  lemma OceanDeathBelowZero()
    ensures !OceanDeathAsWritten(Some(50), Some(U32 - 10))
    ensures OceanDeath(Some(50), Some(U32 - 10))
    ensures Signed32(U32 - 10) == -10
  {
  }

  /** A signed 32-bit value as the word that holds it. */
  function Unsigned32(v: int): (word: nat)
    requires -0x8000_0000 <= v < 0x8000_0000
    ensures word < U32
    ensures Signed32(word) == v
  {
    if v < 0 then v + U32 else v
  }

  /** Every word is the word of its signed value. */
  lemma SignedRoundTrip(word: nat)
    requires word < U32
    ensures Unsigned32(Signed32(word)) == word
  {
  }

  /** The two conditions agree while the health stays in the non-negative half of the range. */
  lemma OceanDeathAgreesOnNonNegative(previous: nat, current: nat)
    requires previous < 0x8000_0000 && current < 0x8000_0000
    ensures OceanDeath(Some(previous), Some(current)) <==> OceanDeathAsWritten(Some(previous), Some(current))
  {
  }

  /** The signed condition fires on a drop from a positive health to any value at or below zero. */
  lemma OceanDeathOnAnyDrop(previous: int, current: int)
    requires 0 < previous < 0x8000_0000 && -0x8000_0000 <= current <= 0
    ensures OceanDeath(Some(Unsigned32(previous)), Some(Unsigned32(current)))
  {
  }

  /** What one tick does: the requests, the keys split, and the completed set after it. */
  datatype TickReport = TickReport(actions: seq<TimerAction>, split: set<string>, completed: set<string>)

  /**
   * The start condition: on E1M1, at the start position (`atStart` stands for the
   * floating-point position test), the new-game action has just given way to none.
   */
  predicate StartsRun(previous: SnapState, current: SnapState, atStart: bool)
  {
    current.level == "E1M1" && atStart && previous.gameaction == NewGame && current.gameaction == Nothing
  }

  /**
   * One pass of the loop on the states, given whether the ocean-death test fired: a stopped
   * timer starts on a new run, forgetting the completed splits; a running one pauses game time
   * on `WorldDone` and resumes it otherwise, splits on a level change, then on the ocean's death
   * when `oceanSetting` is on.
   */
  function TickWith(previous: SnapState, current: SnapState, phase: TimerPhase, atStart: bool, oceanSetting: bool,
                    oceanDied: bool, stored: map<string, SettingValue>, completed: set<string>): TickReport
  {
    var start := phase == NotRunning && StartsRun(previous, current, atStart);
    var base := if start then {} else completed;
    var started := if start then [StartTimer] else [];
    var phaseAfter := if start then AfterStart(phase) else phase;
    if phaseAfter != Running then TickReport(started, {}, base)
    else
      var timing := if current.gameaction == WorldDone then [PauseGameTime] else [ResumeGameTime];
      var key := LevelKey(previous.level, current.level);
      var levelSplit := if previous.level != current.level && SplitDecision(key, stored, base) then {key} else {};
      var oceanSplit := if oceanSetting && oceanDied && SplitDecision("ocean_death", stored, base + levelSplit)
                        then {"ocean_death"} else {};
      TickReport(started + timing, levelSplit + oceanSplit, base + levelSplit + oceanSplit)
  }

  /** The tick as written: the ocean test compares the health words as unsigned numbers. */
  function TickOf(previous: SnapState, current: SnapState, phase: TimerPhase, atStart: bool, oceanSetting: bool,
                  stored: map<string, SettingValue>, completed: set<string>): TickReport
  {
    TickWith(previous, current, phase, atStart, oceanSetting,
             OceanDeathAsWritten(previous.oceanHealth, current.oceanHealth), stored, completed)
  }

  /** The tick with the ocean test on the game's signed health. */
  function CorrectedTickOf(previous: SnapState, current: SnapState, phase: TimerPhase, atStart: bool, oceanSetting: bool,
                           stored: map<string, SettingValue>, completed: set<string>): TickReport
  {
    TickWith(previous, current, phase, atStart, oceanSetting,
             OceanDeath(previous.oceanHealth, current.oceanHealth), stored, completed)
  }

  /**
   * On E1M10 with the ocean split on, a killing blow from 50 to -10 splits `ocean_death` in the
   * corrected tick and is missed by the tick as written.
   */
  lemma KillingBlowMissedAsWritten(state: SnapState)
    requires state.gameaction == Nothing
    ensures var before := state.(oceanHealth := Some(50));
            var after := state.(oceanHealth := Some(U32 - 10));
            var stored := map["ocean_death" := Bool(true)];
            "ocean_death" !in TickOf(before, after, Running, false, true, stored, {}).split
            && "ocean_death" in CorrectedTickOf(before, after, Running, false, true, stored, {}).split
  {
    var stored := map["ocean_death" := Bool(true)];
    assert SplitDecision("ocean_death", stored, {});
    OceanDeathBelowZero();
  }

  /** One pass of the attach loop once both states are known. */
  method Tick(previous: SnapState, current: SnapState, phase: TimerPhase, atStart: bool, oceanSetting: bool,
              stored: map<string, SettingValue>, completed: set<string>) returns (t: TickReport)
    ensures t == TickOf(previous, current, phase, atStart, oceanSetting, stored, completed)
  {
    var completedNow := completed;
    var phaseNow := phase;
    var actions := [];
    if phaseNow == NotRunning && StartsRun(previous, current, atStart) {
      completedNow := {};
      phaseNow := AfterStart(phaseNow);
      actions := actions + [StartTimer];
    }
    var split := {};
    if phaseNow == Running {
      if current.gameaction == WorldDone {
        actions := actions + [PauseGameTime];
      } else {
        actions := actions + [ResumeGameTime];
      }
      if previous.level != current.level {
        var key := LevelKey(previous.level, current.level);
        var splitNow;
        splitNow, completedNow := Split(key, stored, completedNow);
        if splitNow { split := split + {key}; }
      }
      if oceanSetting && OceanDeathAsWritten(previous.oceanHealth, current.oceanHealth) {
        var splitNow;
        splitNow, completedNow := Split("ocean_death", stored, completedNow);
        if splitNow { split := split + {"ocean_death"}; }
      }
    }
    t := TickReport(actions, split, completedNow);
  }

  /**
   * What a tick promises: it starts exactly on a new run of a stopped timer, and the completed
   * set is emptied exactly then; while running it pauses exactly on `WorldDone`; and a split key
   * is never one completed earlier in the run.
   */
  lemma TickRules(previous: SnapState, current: SnapState, phase: TimerPhase, atStart: bool, oceanSetting: bool,
                  stored: map<string, SettingValue>, completed: set<string>)
    ensures var t := TickOf(previous, current, phase, atStart, oceanSetting, stored, completed);
            (StartTimer in t.actions <==> phase == NotRunning && StartsRun(previous, current, atStart))
            && t.completed == (if StartTimer in t.actions then {} else completed) + t.split
            && (phase == Running ==> (PauseGameTime in t.actions <==> current.gameaction == WorldDone))
            && (StartTimer !in t.actions ==> t.split !! completed)
  {
  }

  /**
   * The ocean-death split needs both health values, the setting, and, as written, a drop from a
   * positive word to exactly 0; a level split needs a change of level and uses the pair's key.
   */
  lemma TickSplitsOnEdges(previous: SnapState, current: SnapState, phase: TimerPhase, atStart: bool, oceanSetting: bool,
                          stored: map<string, SettingValue>, completed: set<string>, key: string)
    requires key in TickOf(previous, current, phase, atStart, oceanSetting, stored, completed).split
    ensures key == "ocean_death" ==>
              oceanSetting && previous.oceanHealth.Some? && current.oceanHealth.Some?
              && OceanDeathAsWritten(previous.oceanHealth, current.oceanHealth)
              && previous.oceanHealth.value > 0 && current.oceanHealth.value == 0
    ensures key != "ocean_death" ==> previous.level != current.level && key == LevelKey(previous.level, current.level)
  {
    LevelKeyIsNotOceanDeath(previous.level, current.level);
  }

  /**
   * The converse: once the timer is running after the start test, a level change whose split
   * decision holds splits its key, and with the setting on an ocean death (as written) whose
   * split decision holds splits `ocean_death`; the decisions are taken against the completed
   * set after a possible reset.
   */
  lemma TickSplitsEveryEnabledEdge(previous: SnapState, current: SnapState, phase: TimerPhase, atStart: bool, oceanSetting: bool,
                                   stored: map<string, SettingValue>, completed: set<string>)
    requires (if phase == NotRunning && StartsRun(previous, current, atStart) then AfterStart(phase) else phase) == Running
    ensures var base := if phase == NotRunning && StartsRun(previous, current, atStart) then {} else completed;
            previous.level != current.level && SplitDecision(LevelKey(previous.level, current.level), stored, base) ==>
              LevelKey(previous.level, current.level) in TickOf(previous, current, phase, atStart, oceanSetting, stored, completed).split
    ensures var base := if phase == NotRunning && StartsRun(previous, current, atStart) then {} else completed;
            oceanSetting && OceanDeathAsWritten(previous.oceanHealth, current.oceanHealth)
            && SplitDecision("ocean_death", stored, base) ==>
              "ocean_death" in TickOf(previous, current, phase, atStart, oceanSetting, stored, completed).split
  {
    LevelKeyIsNotOceanDeath(previous.level, current.level);
  }
}
