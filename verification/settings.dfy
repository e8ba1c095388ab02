/**
 * Declaring the splitter's settings from a tree of titles and boolean options: every option
 * is registered in the runner's settings GUI and its default is remembered.
 */
module Settings {
  import opened Outcome

  datatype Setting =
    | TitleSetting(key: string, description: string, tooltip: Option<string>, subsettings: Subsettings)
    | BoolSetting(key: string, description: string, tooltip: Option<string>, default: Option<bool>)

  /** A title's optional list of nested settings. */
  datatype Subsettings = NoSubsettings | Subsettings(items: seq<Setting>)

  /** One registration with the runner's settings GUI. */
  datatype GuiCall =
    | AddTitle(key: string, description: string, headingLevel: nat)
    | AddBool(key: string, description: string, default: bool)
    | SetTooltip(key: string, tooltip: string)

  /** `unwrap_or_default` of an option's declared default. */
  function DefaultValue(s: Setting): bool
    requires s.BoolSetting?
  {
    if s.default.Some? then s.default.value else false
  }

  function TooltipCalls(key: string, tooltip: Option<string>): seq<GuiCall>
  {
    if tooltip.Some? then [SetTooltip(key, tooltip.value)] else []
  }

  /** The defaults map after declaring `s` (pre-order, a later option with the same key wins). */
  function DefaultsOf(s: Setting, acc: map<string, bool>): map<string, bool>
    decreases s, 1
  {
    match s
    case TitleSetting(_, _, _, sub) => if sub.NoSubsettings? then acc else DefaultsOfAll(sub.items, acc)
    case BoolSetting(key, _, _, _) => acc[key := DefaultValue(s)]
  }

  function DefaultsOfAll(ss: seq<Setting>, acc: map<string, bool>): map<string, bool>
    decreases ss, 0
  {
    if |ss| == 0 then acc else DefaultsOfAll(ss[1..], DefaultsOf(ss[0], acc))
  }

  /** The GUI calls declaring `s` makes at heading level `level`. */
  function GuiOf(s: Setting, level: nat): seq<GuiCall>
    decreases s, 1
  {
    match s
    case TitleSetting(key, description, tooltip, sub) =>
      [AddTitle(key, description, level)] + TooltipCalls(key, tooltip)
      + (if sub.NoSubsettings? then [] else GuiOfAll(sub.items, level + 1))
    case BoolSetting(key, description, tooltip, _) =>
      [AddBool(key, description, DefaultValue(s))] + TooltipCalls(key, tooltip)
  }

  function GuiOfAll(ss: seq<Setting>, level: nat): seq<GuiCall>
    decreases ss, 0
  {
    if |ss| == 0 then [] else GuiOf(ss[0], level) + GuiOfAll(ss[1..], level)
  }

  /** The keys of every boolean option anywhere in the tree. */
  function BoolKeys(s: Setting): set<string>
    decreases s, 1
  {
    match s
    case TitleSetting(_, _, _, sub) => if sub.NoSubsettings? then {} else BoolKeysAll(sub.items)
    case BoolSetting(key, _, _, _) => {key}
  }

  function BoolKeysAll(ss: seq<Setting>): set<string>
    decreases ss, 0
  {
    if |ss| == 0 then {} else BoolKeys(ss[0]) + BoolKeysAll(ss[1..])
  }

  /** Declaring a tree adds a default for exactly its boolean options and keeps the others. */
  lemma {:induction false} DefaultsOfKeys(s: Setting, acc: map<string, bool>)
    ensures DefaultsOf(s, acc).Keys == acc.Keys + BoolKeys(s)
    ensures forall k :: k in acc && k !in BoolKeys(s) ==> DefaultsOf(s, acc)[k] == acc[k]
    decreases s, 1
  {
    match s
    case TitleSetting(_, _, _, sub) =>
      if sub.Subsettings? { DefaultsOfAllKeys(sub.items, acc); }
    case BoolSetting(_, _, _, _) =>
  }

  lemma {:induction false} DefaultsOfAllKeys(ss: seq<Setting>, acc: map<string, bool>)
    ensures DefaultsOfAll(ss, acc).Keys == acc.Keys + BoolKeysAll(ss)
    ensures forall k :: k in acc && k !in BoolKeysAll(ss) ==> DefaultsOfAll(ss, acc)[k] == acc[k]
    decreases ss, 0
  {
    if |ss| > 0 {
      DefaultsOfKeys(ss[0], acc);
      DefaultsOfAllKeys(ss[1..], DefaultsOf(ss[0], acc));
    }
  }

  /** The boolean options of a tree, in declaration (pre-)order. */
  function OptionsOf(s: Setting): (r: seq<Setting>)
    ensures forall o :: o in r ==> o.BoolSetting?
    decreases s, 1
  {
    match s
    case TitleSetting(_, _, _, sub) => if sub.NoSubsettings? then [] else OptionsOfAll(sub.items)
    case BoolSetting(_, _, _, _) => [s]
  }

  function OptionsOfAll(ss: seq<Setting>): (r: seq<Setting>)
    ensures forall o :: o in r ==> o.BoolSetting?
    decreases ss, 0
  {
    if |ss| == 0 then [] else OptionsOf(ss[0]) + OptionsOfAll(ss[1..])
  }

  /** Records the defaults of a flat list of options one after another. */
  function Assign(opts: seq<Setting>, acc: map<string, bool>): map<string, bool>
    requires forall o :: o in opts ==> o.BoolSetting?
  {
    if |opts| == 0 then acc else Assign(opts[1..], acc[opts[0].key := DefaultValue(opts[0])])
  }

  lemma {:induction false} AssignAppend(a: seq<Setting>, b: seq<Setting>, acc: map<string, bool>)
    requires forall o :: o in a + b ==> o.BoolSetting?
    ensures Assign(a + b, acc) == Assign(b, Assign(a, acc))
  {
    if |a| > 0 {
      assert (a + b)[1..] == a[1..] + b;
      AssignAppend(a[1..], b, acc[a[0].key := DefaultValue(a[0])]);
    } else {
      assert a + b == b;
    }
  }

  /** Declaring a tree records its options' defaults in declaration order. */
  lemma {:induction false} DefaultsAreAssigned(s: Setting, acc: map<string, bool>)
    ensures DefaultsOf(s, acc) == Assign(OptionsOf(s), acc)
    decreases s, 1
  {
    match s
    case TitleSetting(_, _, _, sub) =>
      if sub.Subsettings? { DefaultsAreAssignedAll(sub.items, acc); }
    case BoolSetting(_, _, _, _) =>
      assert [s][1..] == [];
  }

  lemma {:induction false} DefaultsAreAssignedAll(ss: seq<Setting>, acc: map<string, bool>)
    ensures DefaultsOfAll(ss, acc) == Assign(OptionsOfAll(ss), acc)
    decreases ss, 0
  {
    if |ss| > 0 {
      DefaultsAreAssigned(ss[0], acc);
      DefaultsAreAssignedAll(ss[1..], DefaultsOf(ss[0], acc));
      AssignAppend(OptionsOf(ss[0]), OptionsOfAll(ss[1..]), acc);
    }
  }

  /** A key no option in the list declares keeps its value. */
  lemma {:induction false} AssignKeeps(opts: seq<Setting>, acc: map<string, bool>, k: string)
    requires forall o :: o in opts ==> o.BoolSetting?
    requires k in acc
    requires forall j :: 0 <= j < |opts| ==> opts[j].key != k
    ensures k in Assign(opts, acc) && Assign(opts, acc)[k] == acc[k]
  {
    if |opts| > 0 {
      AssignKeeps(opts[1..], acc[opts[0].key := DefaultValue(opts[0])], k);
    }
  }

  /** The last option declaring a key gives that key its default. */
  lemma {:induction false} AssignLastWins(opts: seq<Setting>, acc: map<string, bool>, i: nat)
    requires forall o :: o in opts ==> o.BoolSetting?
    requires i < |opts|
    requires forall j :: i < j < |opts| ==> opts[j].key != opts[i].key
    ensures opts[i].key in Assign(opts, acc) && Assign(opts, acc)[opts[i].key] == DefaultValue(opts[i])
  {
    var next := acc[opts[0].key := DefaultValue(opts[0])];
    if i == 0 {
      AssignKeeps(opts[1..], next, opts[0].key);
    } else {
      AssignLastWins(opts[1..], next, i - 1);
    }
  }

  /**
   * The defaults map gives each option's key the default of the last option in declaration
   * order that uses it (so a key declared once gets that option's default, or `false`).
   */
  lemma DeclaredDefaultWins(ss: seq<Setting>, i: nat)
    requires i < |OptionsOfAll(ss)|
    requires forall j :: i < j < |OptionsOfAll(ss)| ==> OptionsOfAll(ss)[j].key != OptionsOfAll(ss)[i].key
    ensures OptionsOfAll(ss)[i].key in DefaultsOfAll(ss, map[])
    ensures DefaultsOfAll(ss, map[])[OptionsOfAll(ss)[i].key] == DefaultValue(OptionsOfAll(ss)[i])
  {
    DefaultsAreAssignedAll(ss, map[]);
    AssignLastWins(OptionsOfAll(ss), map[], i);
  }

  /** Every title a tree registers sits at the tree's heading level or deeper. */
  lemma {:induction false} TitlesAtOrBelow(s: Setting, level: nat)
    ensures forall c :: c in GuiOf(s, level) && c.AddTitle? ==> c.headingLevel >= level
    decreases s, 1
  {
    match s
    case TitleSetting(_, _, _, sub) =>
      if sub.Subsettings? { TitlesAtOrBelowAll(sub.items, level + 1); }
    case BoolSetting(_, _, _, _) =>
  }

  lemma {:induction false} TitlesAtOrBelowAll(ss: seq<Setting>, level: nat)
    ensures forall c :: c in GuiOfAll(ss, level) && c.AddTitle? ==> c.headingLevel >= level
    decreases ss, 0
  {
    if |ss| > 0 {
      TitlesAtOrBelow(ss[0], level);
      TitlesAtOrBelowAll(ss[1..], level);
    }
  }

  /** `initialise_setting`: registers `s` (and its subtree one level deeper) and records defaults. */
  method InitialiseSetting(s: Setting, level: nat, defaults: map<string, bool>)
    returns (defaultsAfter: map<string, bool>, calls: seq<GuiCall>)
    ensures defaultsAfter == DefaultsOf(s, defaults)
    ensures calls == GuiOf(s, level)
    decreases s
  {
    match s
    case TitleSetting(key, description, tooltip, sub) =>
      calls := [AddTitle(key, description, level)] + TooltipCalls(key, tooltip);
      defaultsAfter := defaults;
      if sub.NoSubsettings? {
        return;
      }
      var children := sub.items;
      var i := 0;
      while i < |children|
        invariant 0 <= i <= |children|
        invariant DefaultsOfAll(children, defaults) == DefaultsOfAll(children[i..], defaultsAfter)
        invariant calls + GuiOfAll(children[i..], level + 1) == GuiOf(s, level)
      {
        var more;
        defaultsAfter, more := InitialiseSetting(children[i], level + 1, defaultsAfter);
        assert children[i..][1..] == children[i + 1..];
        calls := calls + more;
        i := i + 1;
      }
    case BoolSetting(key, description, tooltip, _) =>
      calls := [AddBool(key, description, DefaultValue(s))] + TooltipCalls(key, tooltip);
      defaultsAfter := defaults[key := DefaultValue(s)];
  }

  /**
   * `initialise_settings`: `parsed` is the outcome of parsing the settings text (`None` when
   * it is malformed, which is an error). Each top-level setting is declared at level 0.
   */
  method InitialiseSettings(parsed: Option<seq<Setting>>) returns (r: Result<map<string, bool>>, calls: seq<GuiCall>)
    ensures parsed.None? ==> r == Err(ParseFailed) && calls == []
    ensures parsed.Some? ==> r == Ok(DefaultsOfAll(parsed.value, map[])) && calls == GuiOfAll(parsed.value, 0)
    ensures parsed.Some? ==> r.value.Keys == BoolKeysAll(parsed.value)
  {
    calls := [];
    if parsed.None? {
      return Err(ParseFailed), calls;
    }
    var settings := parsed.value;
    var defaults: map<string, bool> := map[];
    var i := 0;
    while i < |settings|
      invariant 0 <= i <= |settings|
      invariant DefaultsOfAll(settings, map[]) == DefaultsOfAll(settings[i..], defaults)
      invariant calls + GuiOfAll(settings[i..], 0) == GuiOfAll(settings, 0)
    {
      var more;
      defaults, more := InitialiseSetting(settings[i], 0, defaults);
      assert settings[i..][1..] == settings[i + 1..];
      calls := calls + more;
      i := i + 1;
    }
    assert settings[i..] == [];
    DefaultsOfAllKeys(settings, map[]);
    r := Ok(defaults);
  }
}
