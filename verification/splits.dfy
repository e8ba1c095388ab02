/**
 * Split bookkeeping shared by the splitters: reading a boolean setting with declared defaults,
 * splitting at most once per key, and pairing the previous and current values of watchers.
 */
module Splits {
  import opened Outcome

  /** A value in the runner's settings store: a boolean, or a value of another kind. */
  datatype SettingValue = Bool(b: bool) | NotABool

  /**
   * `get_setting`: a stored value wins and must be a boolean; a key that is not stored takes its
   * declared default; a key that is neither is an error.
   */
  function GetSetting(key: string, stored: map<string, SettingValue>, defaults: map<string, bool>): (r: Result<bool>)
    ensures r.Ok? <==> (key in stored && stored[key].Bool?) || (key !in stored && key in defaults)
    ensures r.Ok? ==> r.value == (if key in stored then stored[key].b else defaults[key])
    ensures key in stored && stored[key].NotABool? ==> r == Err(NotBool(key))
    ensures key !in stored && key !in defaults ==> r == Err(UnknownSetting(key))
  {
    if key in stored then
      match stored[key]
      case Bool(b) => Ok(b)
      case NotABool => Err(NotBool(key))
    else if key in defaults then Ok(defaults[key])
    else Err(UnknownSetting(key))
  }

  /** Whether `better_split` splits: not yet completed, and the setting (with defaults) is on. */
  function BetterSplitDecision(key: string, stored: map<string, SettingValue>, defaults: map<string, bool>,
                               completed: set<string>): (r: Result<bool>)
    ensures key in completed ==> r == Ok(false)
    ensures r == Ok(true) <==> key !in completed && GetSetting(key, stored, defaults) == Ok(true)
    ensures !r.Ok? <==> key !in completed && !GetSetting(key, stored, defaults).Ok?
  {
    if key in completed then Ok(false)
    else match GetSetting(key, stored, defaults)
      case Ok(on) => Ok(on)
      case Err(e) => Err(e)
      case Panic(s) => Panic(s)
  }

  /** Whether `split` splits: not yet completed, and a stored boolean setting that is on. */
  function SplitDecision(key: string, stored: map<string, SettingValue>, completed: set<string>): (r: bool)
    ensures r <==> key !in completed && key in stored && stored[key] == Bool(true)
  {
    key !in completed && key in stored && stored[key].Bool? && stored[key].b
  }

  /**
   * `better_split`: splits (and records the key) only when the decision is true; a setting
   * error is passed on without recording anything.
   */
  method BetterSplit(key: string, stored: map<string, SettingValue>, defaults: map<string, bool>,
                     completed: set<string>) returns (r: Result<bool>, completedAfter: set<string>)
    ensures r == BetterSplitDecision(key, stored, defaults, completed)
    ensures completedAfter == if r == Ok(true) then completed + {key} else completed
  {
    completedAfter := completed;
    if key in completed {
      return Ok(false), completedAfter;
    }
    var value := GetSetting(key, stored, defaults);
    if !value.Ok? {
      return Fail(value), completedAfter;
    }
    if !value.value {
      return Ok(false), completedAfter;
    }
    completedAfter := completed + {key};
    r := Ok(true);
  }

  /** `split`: like `better_split`, but missing and non-boolean settings just mean "do not split". */
  method Split(key: string, stored: map<string, SettingValue>, completed: set<string>)
    returns (r: bool, completedAfter: set<string>)
    ensures r == SplitDecision(key, stored, completed)
    ensures completedAfter == if r then completed + {key} else completed
  {
    completedAfter := completed;
    if key in completed {
      return false, completedAfter;
    }
    if key !in stored {
      return false, completedAfter;
    }
    if !stored[key].Bool? {
      return false, completedAfter;
    }
    if !stored[key].b {
      return false, completedAfter;
    }
    completedAfter := completed + {key};
    r := true;
  }

  /** A key that has split once never splits again, by either function. */
  lemma SplitsAtMostOnce(key: string, stored: map<string, SettingValue>, defaults: map<string, bool>, completed: set<string>)
    ensures BetterSplitDecision(key, stored, defaults, completed + {key}) == Ok(false)
    ensures !SplitDecision(key, stored, completed + {key})
  {
  }

  /**
   * The two functions agree whenever the stored value is a boolean; they differ only where
   * `better_split` consults the defaults or reports an error.
   */
  lemma SplitAgreesOnStoredBools(key: string, stored: map<string, SettingValue>, defaults: map<string, bool>, completed: set<string>)
    requires key in stored && stored[key].Bool?
    ensures BetterSplitDecision(key, stored, defaults, completed) == Ok(SplitDecision(key, stored, completed))
  {
  }

  /** The previous and current value of one watcher after an update (asr's `Pair`; its `old` is `previous` here). */
  datatype Pair<T> = Pair(previous: T, current: T)

  /**
   * The `to_states` the state macro generates: all watchers' previous values and all their
   * current values, or nothing if any watcher has not been updated yet. Fields are in
   * declaration order.
   */
  function ToStates<T>(fields: seq<Option<Pair<T>>>): (r: Option<(seq<T>, seq<T>)>)
    ensures r.Some? <==> forall i :: 0 <= i < |fields| ==> fields[i].Some?
    ensures r.Some? ==> |r.value.0| == |fields| == |r.value.1|
    ensures r.Some? ==> forall i :: 0 <= i < |fields| ==>
              r.value.0[i] == fields[i].value.previous && r.value.1[i] == fields[i].value.current
    decreases |fields|
  {
    if |fields| == 0 then Some(([], []))
    else match fields[0]
      case None => None
      case Some(p) =>
        match ToStates(fields[1..])
        case None => None
        case Some(rest) => Some(([p.previous] + rest.0, [p.current] + rest.1))
  }
}
