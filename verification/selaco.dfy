/**
 * The Selaco splitter: the load-transition state machine that drives game-time pausing, the
 * flattening of the objective tree into a status map, the objective splits, and one tick of
 * the attach loop.
 */
module Selaco {
  import opened Outcome
  import opened Text
  import opened Timer
  import opened Splits
  import opened ZDoom
  import opened ZDoomPlayer

  /** `LevelTransitionLoadState`: where the game is in the sequence of actions around a level change. */
  datatype TransitionState =
    | NotTransitioning
    | ActionCompleted
    | AfterCompletedBeforeWorldDone
    | ActionWorldDone
    | ActionAutoSaveAfterWorldDone

  /** One step of the machine on the game action of the current tick. */
  function NextTransition(s: TransitionState, a: GameAction): TransitionState
  {
    match s
    case NotTransitioning =>
      if a == Completed then ActionCompleted
      else if a == WorldDone then ActionWorldDone
      else s
    case ActionCompleted =>
      if a == Nothing then AfterCompletedBeforeWorldDone
      else if a == WorldDone then ActionWorldDone
      else s
    case AfterCompletedBeforeWorldDone =>
      if a == WorldDone then ActionWorldDone else s
    case ActionWorldDone =>
      if a == AutoSave then ActionAutoSaveAfterWorldDone
      else if a == Nothing then NotTransitioning
      else s
    case ActionAutoSaveAfterWorldDone =>
      if a == Nothing then NotTransitioning else s
  }

  /** A transition starts exactly on a `Completed` or `WorldDone` action. */
  lemma TransitionStarts(a: GameAction)
    ensures NextTransition(NotTransitioning, a) != NotTransitioning <==> a == Completed || a == WorldDone
  {
  }

  /**
   * A transition ends only on a `Nothing` action, and only once `WorldDone` has been seen (in
   * the world-done or auto-save state).
   */
  lemma TransitionEnds(s: TransitionState, a: GameAction)
    requires s != NotTransitioning && NextTransition(s, a) == NotTransitioning
    ensures a == Nothing
    ensures s == ActionWorldDone || s == ActionAutoSaveAfterWorldDone
  {
  }

  /** `WorldDone` always leads to the world-done state, unless the machine is already past it. */
  lemma WorldDoneIsReached(s: TransitionState)
    requires s != ActionWorldDone && s != ActionAutoSaveAfterWorldDone
    ensures NextTransition(s, WorldDone) == ActionWorldDone
  {
  }

  /** The machine over a run of ticks' game actions. */
  function RunTransitions(s: TransitionState, actions: seq<GameAction>): TransitionState
    decreases |actions|
  {
    if |actions| == 0 then s else RunTransitions(NextTransition(s, actions[0]), actions[1..])
  }

  /** Once a transition has started, the game stays loading through any run without a `Nothing` action. */
  lemma {:induction false} LoadingNeedsNothingToEnd(s: TransitionState, actions: seq<GameAction>)
    requires s != NotTransitioning
    requires forall i :: 0 <= i < |actions| ==> actions[i] != Nothing
    ensures RunTransitions(s, actions) != NotTransitioning
    decreases |actions|
  {
    if |actions| > 0 {
      LoadingNeedsNothingToEnd(NextTransition(s, actions[0]), actions[1..]);
    }
  }

  /**
   * After `WorldDone` the run is over as soon as the game goes back to `Nothing`: the actions
   * `WorldDone, Nothing` end any transition that had not yet reached the world-done state.
   */
  lemma {:induction false} WorldDoneThenNothingEnds(s: TransitionState)
    requires s != ActionWorldDone && s != ActionAutoSaveAfterWorldDone
    ensures RunTransitions(s, [WorldDone, Nothing]) == NotTransitioning
  {
    assert [WorldDone, Nothing][1..] == [Nothing];
    assert [Nothing][1..] == [];
  }

  /** An objective of the game's tracker: its title, tag, status and sub-objectives. */
  datatype Objective = Objective(title: string, tag: nat, status: nat, children: seq<Objective>)

  /** The settings key of an objective: `_{tag}`. */
  function ObjectiveKey(tag: nat): string
  {
    "_" + Decimal(tag)
  }

  /** Different tags have different keys. */
  lemma ObjectiveKeyInjective(a: nat, b: nat)
    requires ObjectiveKey(a) == ObjectiveKey(b)
    ensures a == b
  {
    assert Decimal(a) == ObjectiveKey(a)[1..] == ObjectiveKey(b)[1..] == Decimal(b);
    DecimalInjective(a, b);
  }

  /** The objectives in pre-order (each parent before its children), as (tag, status) pairs. */
  function Preorder(objectives: seq<Objective>): seq<(nat, nat)>
  {
    if |objectives| == 0 then []
    else [(objectives[0].tag, objectives[0].status)] + Preorder(objectives[0].children) + Preorder(objectives[1..])
  }

  /** Inserting (tag, status) pairs into a status map in order: a later pair overwrites an earlier one. */
  function InsertAll(entries: seq<(nat, nat)>, statuses: map<string, nat>): map<string, nat>
    decreases |entries|
  {
    if |entries| == 0 then statuses
    else InsertAll(entries[1..], statuses[ObjectiveKey(entries[0].0) := entries[0].1])
  }

  /** Inserting a joined run inserts the first part, then the second. */
  lemma {:induction false} InsertAllConcat(a: seq<(nat, nat)>, b: seq<(nat, nat)>, statuses: map<string, nat>)
    ensures InsertAll(a + b, statuses) == InsertAll(b, InsertAll(a, statuses))
    decreases |a|
  {
    if |a| > 0 {
      assert (a + b)[1..] == a[1..] + b;
      InsertAllConcat(a[1..], b, statuses[ObjectiveKey(a[0].0) := a[0].1]);
    } else {
      assert a + b == b;
    }
  }

  /**
   * What a status map holds after the insertions: every key it had and every inserted tag's
   * key, and for an inserted tag the status of the last pair with that tag.
   */
  lemma {:induction false} InsertAllLastWins(entries: seq<(nat, nat)>, statuses: map<string, nat>, i: nat)
    requires i < |entries|
    requires forall j :: i < j < |entries| ==> entries[j].0 != entries[i].0
    ensures ObjectiveKey(entries[i].0) in InsertAll(entries, statuses)
    ensures InsertAll(entries, statuses)[ObjectiveKey(entries[i].0)] == entries[i].1
    decreases |entries|
  {
    var next := statuses[ObjectiveKey(entries[0].0) := entries[0].1];
    if i == 0 {
      forall j | 0 <= j < |entries[1..]| ensures ObjectiveKey(entries[1..][j].0) != ObjectiveKey(entries[0].0) {
        if ObjectiveKey(entries[1..][j].0) == ObjectiveKey(entries[0].0) {
          ObjectiveKeyInjective(entries[1..][j].0, entries[0].0);
        }
      }
      InsertAllKeeps(entries[1..], next, ObjectiveKey(entries[0].0));
    } else {
      InsertAllLastWins(entries[1..], next, i - 1);
    }
  }

  /** A key that no later pair names keeps its value. */
  lemma {:induction false} InsertAllKeeps(entries: seq<(nat, nat)>, statuses: map<string, nat>, key: string)
    requires key in statuses
    requires forall j :: 0 <= j < |entries| ==> ObjectiveKey(entries[j].0) != key
    ensures key in InsertAll(entries, statuses) && InsertAll(entries, statuses)[key] == statuses[key]
    decreases |entries|
  {
    if |entries| > 0 {
      InsertAllKeeps(entries[1..], statuses[ObjectiveKey(entries[0].0) := entries[0].1], key);
    }
  }

  /** Insertions add exactly the inserted tags' keys. */
  lemma {:induction false} InsertAllKeys(entries: seq<(nat, nat)>, statuses: map<string, nat>)
    ensures InsertAll(entries, statuses).Keys == statuses.Keys + set j | 0 <= j < |entries| :: ObjectiveKey(entries[j].0)
    decreases |entries|
  {
    if |entries| > 0 {
      var next := statuses[ObjectiveKey(entries[0].0) := entries[0].1];
      InsertAllKeys(entries[1..], next);
      var rest := set j | 0 <= j < |entries[1..]| :: ObjectiveKey(entries[1..][j].0);
      var all := set j | 0 <= j < |entries| :: ObjectiveKey(entries[j].0);
      assert all == {ObjectiveKey(entries[0].0)} + rest by {
        forall k | k in all ensures k in {ObjectiveKey(entries[0].0)} + rest {
          var j :| 0 <= j < |entries| && k == ObjectiveKey(entries[j].0);
          if j > 0 { assert k == ObjectiveKey(entries[1..][j - 1].0); }
        }
        forall k | k in rest ensures k in all {
          var j :| 0 <= j < |entries[1..]| && k == ObjectiveKey(entries[1..][j].0);
          assert k == ObjectiveKey(entries[j + 1].0);
        }
      }
    }
  }

  /**
   * `get_objective_status_map`: inserts `_{tag}` with the status of each objective, then
   * recurses into its children, so the map ends up as the pre-order insertion of the tree.
   */
  method AddObjectiveStatuses(objectives: seq<Objective>, statuses: map<string, nat>) returns (r: map<string, nat>)
    ensures r == InsertAll(Preorder(objectives), statuses)
  {
    r := statuses;
    for i := 0 to |objectives|
      invariant InsertAll(Preorder(objectives), statuses) == InsertAll(Preorder(objectives[i..]), r)
    {
      var rest := objectives[i..];
      assert rest[0] == objectives[i] && rest[1..] == objectives[i + 1..];
      InsertAllConcat([(rest[0].tag, rest[0].status)] + Preorder(rest[0].children), Preorder(rest[1..]), r);
      InsertAllConcat([(rest[0].tag, rest[0].status)], Preorder(rest[0].children), r);
      r := r[ObjectiveKey(objectives[i].tag) := objectives[i].status];
      r := AddObjectiveStatuses(objectives[i].children, r);
    }
    assert objectives[|objectives|..] == [];
  }

  /**
   * The status map of one update: the current objectives, then the history, both from an
   * empty map. Whatever a history entry says about a tag overrides the live objective.
   */
  method StatusMap(objectives: seq<Objective>, history: seq<Objective>) returns (r: map<string, nat>)
    ensures r == InsertAll(Preorder(objectives) + Preorder(history), map[])
  {
    r := AddObjectiveStatuses(objectives, map[]);
    r := AddObjectiveStatuses(history, r);
    InsertAllConcat(Preorder(objectives), Preorder(history), map[]);
  }

  /** The values the loop compares (the player's position and the history are carried along). */
  datatype SelacoState = SelacoState(
    gameaction: GameAction,
    level: string,
    playerstate: PlayerState,
    playerPos: DVector3,
    objectiveHistory: seq<Objective>,
    objectiveStatus: map<string, nat>)

  /**
   * `to_states`: the previous and the current state, once every watcher has a pair of values;
   * nothing as long as any of them has not been updated.
   */
  function ToStates(gameaction: Option<Pair<GameAction>>, level: Option<Pair<string>>,
                    playerstate: Option<Pair<PlayerState>>, playerPos: Option<Pair<DVector3>>,
                    history: Option<Pair<seq<Objective>>>, status: Option<Pair<map<string, nat>>>)
    : (r: Option<(SelacoState, SelacoState)>)
    ensures r.Some? <==> gameaction.Some? && level.Some? && playerstate.Some? && playerPos.Some?
                         && history.Some? && status.Some?
    ensures r.Some? ==> r.value.0.level == level.value.previous && r.value.1.level == level.value.current
    ensures r.Some? ==> r.value.0.gameaction == gameaction.value.previous && r.value.1.gameaction == gameaction.value.current
    ensures r.Some? ==> r.value.0.objectiveStatus == status.value.previous && r.value.1.objectiveStatus == status.value.current
  {
    if gameaction.None? || level.None? || playerstate.None? || playerPos.None? || history.None? || status.None? then None
    else Some((
      SelacoState(gameaction.value.previous, level.value.previous, playerstate.value.previous,
                  playerPos.value.previous, history.value.previous, status.value.previous),
      SelacoState(gameaction.value.current, level.value.current, playerstate.value.current,
                  playerPos.value.current, history.value.current, status.value.current)))
  }

  /** The objectives that have just been completed: status 0 before, present and not 0 now. */
  predicate JustCompleted(key: string, previous: map<string, nat>, current: map<string, nat>)
  {
    key in previous && previous[key] == 0 && key in current && current[key] != 0
  }

  /**
   * The objective keys one tick splits on: just completed, not split before, and switched on in
   * the settings (`safe_get_bool`, which behaves as `split`).
   */
  function ObjectiveSplitKeys(previous: map<string, nat>, current: map<string, nat>,
                              stored: map<string, SettingValue>, completed: set<string>): set<string>
  {
    set key | key in previous && JustCompleted(key, previous, current) && SplitDecision(key, stored, completed)
  }

  /**
   * The objective splits: for each key of the previous map, a split attempt when it has just
   * been completed. The order of the keys does not matter: each key is tried once, so each
   * decision sees the completed set as it was before the tick.
   */
  method ObjectiveSplits(previous: map<string, nat>, current: map<string, nat>,
                         stored: map<string, SettingValue>, completed: set<string>)
    returns (split: set<string>, completedAfter: set<string>)
    ensures split == ObjectiveSplitKeys(previous, current, stored, completed)
    ensures completedAfter == completed + split
  {
    split, completedAfter := {}, completed;
    var todo := previous.Keys;
    while todo != {}
      invariant todo <= previous.Keys
      invariant split == set key | key in previous.Keys - todo && JustCompleted(key, previous, current)
                                   && SplitDecision(key, stored, completed)
      invariant completedAfter == completed + split
      decreases todo
    {
      var key :| key in todo;
      if JustCompleted(key, previous, current) {
        assert key !in split;
        var splitNow;
        splitNow, completedAfter := Split(key, stored, completedAfter);
        if splitNow {
          split := split + {key};
        }
      }
      todo := todo - {key};
    }
  }

  /** What one tick does: the transition state and completed splits after it, the requests, and the keys split. */
  datatype TickReport = TickReport(transition: TransitionState, actions: seq<TimerAction>, split: set<string>,
                                   completed: set<string>)

  /** The start condition: a new game on the first level has just begun. */
  predicate StartsRun(previous: SelacoState, current: SelacoState)
  {
    current.level == "SE_01a" && previous.gameaction == NewGame && current.gameaction != NewGame
  }

  /** Whether the game is loading: in a level transition, or the player entering the level. */
  predicate Loading(transition: TransitionState, current: SelacoState)
  {
    transition != NotTransitioning || current.playerstate == Enter
  }

  /**
   * One pass of the loop on the states, given the timer phase at its start: the machine steps;
   * a timer that is not running forgets the completed splits and starts (with game time zero)
   * when a run begins; a running timer pauses game time while loading, resumes it otherwise,
   * and splits on just-completed objectives.
   */
  function TickOf(previous: SelacoState, current: SelacoState, transition: TransitionState, phase: TimerPhase,
                  stored: map<string, SettingValue>, completed: set<string>): TickReport
  {
    var next := NextTransition(transition, current.gameaction);
    var reset := if phase == NotRunning then {} else completed;
    var start := phase == NotRunning && StartsRun(previous, current);
    var phaseAfter := if start then AfterStart(phase) else phase;
    var started := if start then [StartTimer, SetGameTimeZero] else [];
    if phaseAfter != Running then TickReport(next, started, {}, reset)
    else
      var timing := if Loading(next, current) then [PauseGameTime] else [ResumeGameTime];
      var split := ObjectiveSplitKeys(previous.objectiveStatus, current.objectiveStatus, stored, reset);
      TickReport(next, started + timing, split, reset + split)
  }

  /** One pass of the attach loop, once both states are known. */
  method Tick(previous: SelacoState, current: SelacoState, transition: TransitionState, phase: TimerPhase,
              stored: map<string, SettingValue>, completed: set<string>) returns (t: TickReport)
    ensures t == TickOf(previous, current, transition, phase, stored, completed)
  {
    var next := NextTransition(transition, current.gameaction);
    var completedNow := completed;
    var phaseNow := phase;
    var actions := [];
    if phaseNow == NotRunning {
      completedNow := {};
      if StartsRun(previous, current) {
        phaseNow := AfterStart(phaseNow);
        actions := actions + [StartTimer, SetGameTimeZero];
      }
    }
    var split := {};
    if phaseNow == Running {
      if Loading(next, current) {
        actions := actions + [PauseGameTime];
      } else {
        actions := actions + [ResumeGameTime];
      }
      split, completedNow := ObjectiveSplits(previous.objectiveStatus, current.objectiveStatus, stored, completedNow);
    }
    t := TickReport(next, actions, split, completedNow);
  }

  /** A tick starts the timer exactly when it was not running and a new game has begun on the first level. */
  lemma TickStartsOnNewGame(previous: SelacoState, current: SelacoState, transition: TransitionState, phase: TimerPhase,
                            stored: map<string, SettingValue>, completed: set<string>)
    ensures var t := TickOf(previous, current, transition, phase, stored, completed);
            StartTimer in t.actions <==> phase == NotRunning && StartsRun(previous, current)
  {
  }

  /**
   * While the timer runs, game time is paused exactly when the stepped machine is in a
   * transition or the player is entering; a timer that is not running forgets every earlier split.
   */
  lemma TickPausesWhileLoading(previous: SelacoState, current: SelacoState, transition: TransitionState, phase: TimerPhase,
                               stored: map<string, SettingValue>, completed: set<string>)
    ensures var t := TickOf(previous, current, transition, phase, stored, completed);
            (phase == Running ==>
               (PauseGameTime in t.actions <==> Loading(NextTransition(transition, current.gameaction), current))
               && (ResumeGameTime in t.actions <==> !Loading(NextTransition(transition, current.gameaction), current)))
            && (phase == NotRunning ==> t.completed == t.split)
  {
  }

  /** Every objective split is of a just-completed objective that had not split before, and is recorded. */
  lemma TickSplitsCompletedObjectives(previous: SelacoState, current: SelacoState, transition: TransitionState,
                                      phase: TimerPhase, stored: map<string, SettingValue>, completed: set<string>, key: string)
    requires key in TickOf(previous, current, transition, phase, stored, completed).split
    ensures JustCompleted(key, previous.objectiveStatus, current.objectiveStatus)
    ensures phase != NotRunning ==> key !in completed
    ensures key in TickOf(previous, current, transition, phase, stored, completed).completed
  {
  }
}
