/**
 * The Dismantled splitter (on LZDoom 3.82): the start and pause rules, the level and item split
 * keys, the item-pickup rule over the player's inventory, and the inventory name set.
 */
module Dismantled {
  import opened Outcome
  import opened Remote
  import opened Text
  import opened Timer
  import opened Splits
  import opened ZDoom
  import opened ZDoomNames
  import opened ZDoomClasses
  import opened ZDoomPlayer

  /** The values one tick compares. */
  datatype DismantledState = DismantledState(
    gameaction: GameAction,
    level: string,
    playerstate: PlayerState,
    playerPos: DVector3,
    inventories: set<string>)

  /** The split key for entering a level: `_level_` and the level name in lower case. */
  function LevelKey(level: string): string
  {
    "_level_" + Lower(level)
  }

  /** The split key for picking up an item: `_item_` and the class name in lower case. */
  function ItemKey(name: string): string
  {
    "_item_" + Lower(name)
  }

  /** Level and item keys never collide, so one kind of split cannot use up the other. */
  lemma LevelAndItemKeysDiffer(level: string, name: string)
    ensures LevelKey(level) != ItemKey(name)
  {
    assert LevelKey(level)[1] == 'l' && ItemKey(name)[1] == 'i';
  }

  /** The game's map names are upper case; the keys match the lower-case names the settings declare. */
  lemma KeysMatchSettings()
    ensures LevelKey("MAP02") == "_level_map02"
    ensures ItemKey("KeyBasement3") == "_item_keybasement3"
  {
    assert Lower("MAP02") == "map02";
    assert Lower("KeyBasement3") == "keybasement3";
  }

  /**
   * The class name of one inventory item: the class pointer (a u64 at item+0x8), then that
   * class's name. Either read failing is an error.
   */
  function ItemName(m: Memory, nm: NameManager, item: nat): Result<string>
  {
    match ReadU64(m, item + 0x8)
    case None => Err(ReadFailed)
    case Some(cls) => ClassNameAt(m, nm, cls)
  }

  /**
   * The inventory name set: the class names of all the items, or the failure of the first item
   * whose name cannot be read.
   */
  function InventoryNamesOf(m: Memory, nm: NameManager, items: seq<nat>): (r: Result<set<string>>)
    ensures r.Ok? <==> forall i :: 0 <= i < |items| ==> ItemName(m, nm, items[i]).Ok?
    ensures r.Ok? ==> r.value == set i | 0 <= i < |items| && ItemName(m, nm, items[i]).Ok? :: ItemName(m, nm, items[i]).value
    ensures !r.Ok? ==> exists k :: 0 <= k < |items| && SameFailure(r, ItemName(m, nm, items[k]))
                                   && forall j :: 0 <= j < k ==> ItemName(m, nm, items[j]).Ok?
    decreases |items|
  {
    if |items| == 0 then Ok({})
    else
      var name :- ItemName(m, nm, items[0]);
      var rest :- InventoryNamesOf(m, nm, items[1..]);
      assert forall i :: 1 <= i < |items| ==> items[i] == items[1..][i - 1];
      assert rest == set i | 1 <= i < |items| && ItemName(m, nm, items[i]).Ok? :: ItemName(m, nm, items[i]).value by {
        assert forall i :: 0 <= i < |items[1..]| ==> items[1..][i] == items[i + 1];
      }
      Ok({name} + rest)
  }

  /** Joins names already collected with the outcome for the remaining items. */
  function Joined(names: set<string>, rest: Result<set<string>>): Result<set<string>>
  {
    if rest.Ok? then Ok(names + rest.value) else rest
  }

  /** Unfolds the name set of a suffix at its first item. */
  lemma NamesOfSuffix(m: Memory, nm: NameManager, items: seq<nat>, i: nat)
    requires i < |items|
    ensures var first := ItemName(m, nm, items[i]);
            InventoryNamesOf(m, nm, items[i..])
              == if first.Ok? then Joined({first.value}, InventoryNamesOf(m, nm, items[i + 1..])) else Fail(first)
  {
    assert items[i..][0] == items[i] && items[i..][1..] == items[i + 1..];
  }

  /** Collecting one more name before the rest is the same as collecting it with the rest. */
  lemma JoinedShift(names: set<string>, name: string, rest: Result<set<string>>)
    ensures Joined(names, Joined({name}, rest)) == Joined(names + {name}, rest)
  {
    if rest.Ok? {
      assert names + ({name} + rest.value) == (names + {name}) + rest.value;
    }
  }

  /** The inventory loop of `Watchers::update`: item by item, stopping at the first failure. */
  method InventoryNames(m: Memory, nm: NameManager, items: seq<nat>) returns (r: Result<set<string>>)
    ensures r == InventoryNamesOf(m, nm, items)
  {
    var names: set<string> := {};
    assert items[0..] == items;
    ghost var all := InventoryNamesOf(m, nm, items);
    assert all.Ok? ==> {} + all.value == all.value;
    for i := 0 to |items|
      invariant all == Joined(names, InventoryNamesOf(m, nm, items[i..]))
    {
      NamesOfSuffix(m, nm, items, i);
      var name := ItemName(m, nm, items[i]);
      if !name.Ok? { return Fail(name); }
      JoinedShift(names, name.value, InventoryNamesOf(m, nm, items[i + 1..]));
      names := names + {name.value};
    }
    assert items[|items|..] == [];
    r := Ok(names);
  }

  /** The start condition: the intro map gives way to the first map. */
  predicate StartsRun(previous: DismantledState, current: DismantledState)
  {
    previous.level == "map45" && current.level == "MAP01"
  }

  /** The items picked up this tick, when the inventory was known to be non-empty before. */
  function PickedUp(previous: set<string>, current: set<string>): set<string>
  {
    if previous == {} then {} else current - previous
  }

  /** The item keys one tick splits on: keys of picked-up items, not split before, switched on. */
  function ItemSplitKeys(previous: set<string>, current: set<string>, stored: map<string, SettingValue>,
                         completed: set<string>): set<string>
  {
    set name | name in PickedUp(previous, current) && SplitDecision(ItemKey(name), stored, completed) :: ItemKey(name)
  }

  /**
   * The item splits: one split attempt per picked-up item, in any order. Items whose names
   * differ only in case share a key, and only the first of them splits.
   */
  method ItemSplits(previous: set<string>, current: set<string>, stored: map<string, SettingValue>,
                    completed: set<string>) returns (split: set<string>, completedAfter: set<string>)
    ensures split == ItemSplitKeys(previous, current, stored, completed)
    ensures completedAfter == completed + split
  {
    split, completedAfter := {}, completed;
    if previous == {} { return; }
    var todo := current;
    while todo != {}
      invariant todo <= current
      invariant split == set name | name in current - todo && name !in previous
                                    && SplitDecision(ItemKey(name), stored, completed) :: ItemKey(name)
      invariant completedAfter == completed + split
      decreases todo
    {
      var name :| name in todo;
      if name !in previous {
        var splitNow;
        ghost var before := split;
        splitNow, completedAfter := Split(ItemKey(name), stored, completedAfter);
        if splitNow {
          split := split + {ItemKey(name)};
        }
        assert ItemKey(name) in before ==> SplitDecision(ItemKey(name), stored, completed);
      }
      todo := todo - {name};
    }
  }

  /** What one tick does: the requests, the keys split, and the completed set after it. */
  datatype TickReport = TickReport(actions: seq<TimerAction>, split: set<string>, completed: set<string>)

  /**
   * One pass of the loop as written, given the timer phase and the completed set kept from
   * earlier ticks: start on the intro-to-first-map change; while running, pause game time on
   * `WorldDone` and resume it otherwise, split on entering a level, then on picked-up items.
   * The completed set is never emptied.
   */
  function TickOf(previous: DismantledState, current: DismantledState, phase: TimerPhase,
                         stored: map<string, SettingValue>, completed: set<string>): TickReport
  {
    var start := phase == NotRunning && StartsRun(previous, current);
    var started := if start then [StartTimer] else [];
    var phaseAfter := if start then AfterStart(phase) else phase;
    if phaseAfter != Running then TickReport(started, {}, completed)
    else
      var timing := if current.gameaction == WorldDone then [PauseGameTime] else [ResumeGameTime];
      var levelSplit := if previous.level != current.level && SplitDecision(LevelKey(current.level), stored, completed)
                        then {LevelKey(current.level)} else {};
      var items := ItemSplitKeys(previous.inventories, current.inventories, stored, completed + levelSplit);
      TickReport(started + timing, levelSplit + items, completed + levelSplit + items)
  }

  /**
   * A second run in the same game session: the first run entered map02 and is reset; the
   * second run starts, then enters map02 again with its split still switched on, and no split
   * happens.
   */
  lemma SecondRunMissesSplit()
    ensures var stored := map["_level_map02" := Bool(true)];
            var intro := DismantledState(Nothing, "map45", Live, DVector3(0, 0, 0), {});
            var first := DismantledState(Nothing, "MAP01", Live, DVector3(0, 0, 0), {});
            var second := DismantledState(Nothing, "MAP02", Live, DVector3(0, 0, 0), {});
            var startTick := TickOf(intro, first, NotRunning, stored, {"_level_map02"});
            StartTimer in startTick.actions
            && TickOf(first, second, Running, stored, startTick.completed).split == {}
  {
    assert Lower("MAP01") == "map01";
    assert Lower("MAP02") == "map02";
    assert LevelKey("MAP01") == "_level_map01" && LevelKey("MAP02") == "_level_map02";
  }

  /** The tick with the completed set emptied when a run starts (as the other splitters do). */
  function CorrectedTickOf(previous: DismantledState, current: DismantledState, phase: TimerPhase,
                           stored: map<string, SettingValue>, completed: set<string>): TickReport
  {
    var start := phase == NotRunning && StartsRun(previous, current);
    TickOf(previous, current, phase, stored, if start then {} else completed)
  }

  /** With the reset, the second run of the same session splits on entering map02 again. */
  lemma SecondRunSplits()
    ensures var stored := map["_level_map02" := Bool(true)];
            var intro := DismantledState(Nothing, "map45", Live, DVector3(0, 0, 0), {});
            var first := DismantledState(Nothing, "MAP01", Live, DVector3(0, 0, 0), {});
            var second := DismantledState(Nothing, "MAP02", Live, DVector3(0, 0, 0), {});
            var startTick := CorrectedTickOf(intro, first, NotRunning, stored, {"_level_map02"});
            StartTimer in startTick.actions
            && CorrectedTickOf(first, second, Running, stored, startTick.completed).split == {"_level_map02"}
  {
    assert Lower("MAP01") == "map01";
    assert Lower("MAP02") == "map02";
    assert LevelKey("MAP01") == "_level_map01" && LevelKey("MAP02") == "_level_map02";
  }

  /**
   * What a tick promises: it starts exactly on the intro-to-first-map change of a stopped
   * timer; while running it pauses exactly on `WorldDone`; the completed set only grows, by
   * the keys split; and every split is of a key not completed before, in this run or an
   * earlier one.
   */
  lemma TickRules(previous: DismantledState, current: DismantledState, phase: TimerPhase,
                  stored: map<string, SettingValue>, completed: set<string>)
    ensures var t := TickOf(previous, current, phase, stored, completed);
            (StartTimer in t.actions <==> phase == NotRunning && StartsRun(previous, current))
            && (phase == Running ==> (PauseGameTime in t.actions <==> current.gameaction == WorldDone))
            && t.completed == completed + t.split
            && t.split !! completed
  {
  }

  /**
   * The corrected tick keeps the same start and pause rules, and at a start nothing from the
   * previous run counts as completed.
   */
  lemma CorrectedTickRules(previous: DismantledState, current: DismantledState, phase: TimerPhase,
                           stored: map<string, SettingValue>, completed: set<string>)
    ensures var t := CorrectedTickOf(previous, current, phase, stored, completed);
            (StartTimer in t.actions <==> phase == NotRunning && StartsRun(previous, current))
            && (phase == Running ==> (PauseGameTime in t.actions <==> current.gameaction == WorldDone))
            && t.completed == (if StartTimer in t.actions then {} else completed) + t.split
            && (StartTimer !in t.actions ==> t.split !! completed)
  {
  }

  /** A level split happens only on a level change, and item splits only for newly held items after a non-empty inventory. */
  lemma TickSplitsOnChanges(previous: DismantledState, current: DismantledState, phase: TimerPhase,
                            stored: map<string, SettingValue>, completed: set<string>, key: string)
    requires key in TickOf(previous, current, phase, stored, completed).split
    ensures key == LevelKey(current.level) ==> previous.level != current.level
    ensures key != LevelKey(current.level) ==>
              previous.inventories != {}
              && exists name :: name in current.inventories && name !in previous.inventories && key == ItemKey(name)
  {
    forall name { LevelAndItemKeysDiffer(current.level, name); }
  }

  /**
   * The converse: once the timer is running after the start test, a level change whose split
   * decision holds splits its level key, and every newly held item (after a non-empty
   * inventory) whose split decision holds splits its item key.
   */
  lemma {:induction false} TickSplitsEveryEnabledChange(previous: DismantledState, current: DismantledState, phase: TimerPhase,
                                                       stored: map<string, SettingValue>, completed: set<string>)
    requires (if phase == NotRunning && StartsRun(previous, current) then AfterStart(phase) else phase) == Running
    ensures previous.level != current.level && SplitDecision(LevelKey(current.level), stored, completed) ==>
              LevelKey(current.level) in TickOf(previous, current, phase, stored, completed).split
    ensures forall name :: name in current.inventories && name !in previous.inventories && previous.inventories != {}
                           && SplitDecision(ItemKey(name), stored, completed) ==>
              ItemKey(name) in TickOf(previous, current, phase, stored, completed).split
  {
    var t := TickOf(previous, current, phase, stored, completed);
    forall name | name in current.inventories && name !in previous.inventories && previous.inventories != {}
                  && SplitDecision(ItemKey(name), stored, completed)
      ensures ItemKey(name) in t.split
    {
      LevelAndItemKeysDiffer(current.level, name);
      assert name in PickedUp(previous.inventories, current.inventories);
    }
  }

  /** One pass of the attach loop once both states are known; a start leaves the completed set alone. */
  method Tick(previous: DismantledState, current: DismantledState, phase: TimerPhase,
              stored: map<string, SettingValue>, completed: set<string>) returns (t: TickReport)
    ensures t == TickOf(previous, current, phase, stored, completed)
  {
    var completedNow := completed;
    var phaseNow := phase;
    var actions := [];
    if phaseNow == NotRunning && StartsRun(previous, current) {
      phaseNow := AfterStart(phaseNow);
      actions := actions + [StartTimer];
    }
    var split := {};
    if phaseNow == Running {
      if current.gameaction == WorldDone {
        actions := actions + [PauseGameTime];
      } else {
        actions := actions + [ResumeGameTime];
      }
      if previous.level != current.level {
        var splitNow;
        splitNow, completedNow := Split(LevelKey(current.level), stored, completedNow);
        if splitNow { split := {LevelKey(current.level)}; }
      }
      var items;
      items, completedNow := ItemSplits(previous.inventories, current.inventories, stored, completedNow);
      split := split + items;
    }
    t := TickReport(actions, split, completedNow);
  }
}
