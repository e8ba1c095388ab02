/**
 * A ZDoom player: its state code and the position of its actor, each memoised until the cache
 * is invalidated. Positions are kept as the raw 64-bit words of the three `f64` coordinates.
 */
module ZDoomPlayer {
  import opened Outcome
  import opened Remote
  import opened ZDoomClasses

  const PlayerActorOffset: nat := 0x0
  const PlayerStateOffset: nat := 0x8

  /** `PlayerState`, stored as a 32-bit code. */
  datatype PlayerState = Live | Dead | Reborn | Enter | Gone

  function StateCode(s: PlayerState): (c: nat)
    ensures c < 5
  {
    match s
    case Live => 0
    case Dead => 1
    case Reborn => 2
    case Enter => 3
    case Gone => 4
  }

  /** A checked read of the enumeration: codes outside 0..4 are not a `PlayerState`. */
  function StateFromCode(c: nat): (s: Option<PlayerState>)
    ensures s.Some? <==> c < 5
  {
    if c == 0 then Some(Live)
    else if c == 1 then Some(Dead)
    else if c == 2 then Some(Reborn)
    else if c == 3 then Some(Enter)
    else if c == 4 then Some(Gone)
    else None
  }

  /** The code of a state decodes to that state, and a decoded code is the state's code. */
  lemma StateCodeRoundTrip(s: PlayerState, c: nat)
    ensures StateFromCode(StateCode(s)) == Some(s)
    ensures StateFromCode(c).Some? ==> StateCode(StateFromCode(c).value) == c
  {
  }

  /** `DVector3`: three `f64` words, kept as raw bits. */
  datatype DVector3 = DVector3(x: nat, y: nat, z: nat)

  /** `DVector3::read`: the words at +0x0, +0x8 and +0x10; any unreadable word is an error. */
  function ReadVector(m: Memory, a: nat): (r: Result<DVector3>)
    ensures r.Ok? <==> a in m.words && a + 0x8 in m.words && a + 0x10 in m.words
    ensures r.Ok? ==> r.value == DVector3(ReadU64(m, a).value, ReadU64(m, a + 0x8).value, ReadU64(m, a + 0x10).value)
    ensures !r.Ok? ==> r == Err(ReadFailed)
  {
    var x :- OkOr(ReadU64(m, a), ReadFailed);
    var y :- OkOr(ReadU64(m, a + 0x8), ReadFailed);
    var z :- OkOr(ReadU64(m, a + 0x10), ReadFailed);
    Ok(DVector3(x, y, z))
  }

  /** The player's state read from memory: the 32-bit code at +0x8, checked. */
  function StateAt(m: Memory, player: nat): (r: Result<PlayerState>)
    ensures r.Ok? <==> ReadU32(m, player + PlayerStateOffset).Some? && ReadU32(m, player + PlayerStateOffset).value < 5
    ensures r.Ok? ==> StateCode(r.value) == ReadU32(m, player + PlayerStateOffset).value
    ensures !r.Ok? ==> r == Err(ReadFailed)
  {
    var code :- OkOr(ReadU32(m, player + PlayerStateOffset), ReadFailed);
    StateCodeRoundTrip(Live, code);
    OkOr(StateFromCode(code), ReadFailed)
  }

  /**
   * The position once the offset of the `pos` field is known (or failed): the actor pointer at
   * the player's address is read first, then the offset is used, then the vector is read.
   */
  function PosFrom(m: Memory, player: nat, offset: Result<nat>): (r: Result<DVector3>)
    ensures r.Ok? <==> ReadU64(m, player).Some? && offset.Ok? && ReadVector(m, ReadU64(m, player).value + offset.value).Ok?
    ensures r.Ok? ==> r == ReadVector(m, ReadU64(m, player).value + offset.value)
  {
    var actor :- OkOr(ReadU64(m, player + PlayerActorOffset), ReadFailed);
    var off :- offset;
    ReadVector(m, actor + off)
  }

  /** The position with a freshly read field table of the actor class. */
  function PosWithTable(m: Memory, player: nat, table: Result<map<string, nat>>): (r: Result<DVector3>)
    ensures table.Ok? && "pos" !in table.value ==> r == Err(NotFound("pos"))
    ensures !table.Ok? ==> SameFailure(r, table)
    ensures table.Ok? && "pos" in table.value ==> r == PosFrom(m, player, ReadAt(m, table.value["pos"] + PFieldOffset, U32))
  {
    var fields :- table;
    if "pos" !in fields then Err(NotFound("pos"))
    else PosFrom(m, player, ReadAt(m, fields["pos"] + PFieldOffset, U32))
  }

  /** A player handle: its record address, the `Actor` class it reads fields from, two memo cells. */
  class Player {
    const address: nat
    const actorClass: PClass
    var posCell: Option<DVector3>
    var stateCell: Option<PlayerState>

    constructor (address: nat, actorClass: PClass)
      ensures this.address == address && this.actorClass == actorClass
      ensures posCell == None && stateCell == None
    {
      this.address := address;
      this.actorClass := actorClass;
      posCell, stateCell := None, None;
    }

    /** `invalidate_cache`: position and state are read again next time. */
    method InvalidateCache()
      modifies this`posCell, this`stateCell
      ensures posCell == None && stateCell == None
    {
      posCell, stateCell := None, None;
    }

    /** `state`: the player's state, memoised. */
    method State(m: Memory) returns (r: Result<PlayerState>)
      modifies this`stateCell
      ensures old(stateCell).Some? ==> r == Ok(old(stateCell).value)
      ensures old(stateCell).None? ==> r == StateAt(m, address)
      ensures stateCell == if r.Ok? then Some(r.value) else None
    {
      if stateCell.None? {
        var s := StateAt(m, address);
        if !s.Ok? { return s; }
        stateCell := Some(s.value);
      }
      r := Ok(stateCell.value);
    }

    /** The position this handle reports on memory `m` without side effects. */
    function PosView(m: Memory): Result<DVector3>
      reads this, actorClass, actorClass.FieldObjects()
    {
      if posCell.Some? then Ok(posCell.value)
      else if actorClass.fieldsCell.None? then
        PosWithTable(m, address, FieldTable(m, actorClass.names, actorClass.address, actorClass.fieldsOffset))
      else if "pos" !in actorClass.fieldsCell.value then Err(NotFound("pos"))
      else PosFrom(m, address, actorClass.fieldsCell.value["pos"].View(m).offset)
    }

    /**
     * `pos`: the actor's position, memoised. The `pos` field is looked up in the actor class's
     * own field table (read and memoised on first use); its absence is `NotFound("pos")`.
     */
    method Pos(m: Memory) returns (r: Result<DVector3>)
      modifies this`posCell, actorClass`fieldsCell, actorClass.FieldObjects()
      ensures r == old(PosView(m))
      ensures posCell == if r.Ok? then Some(r.value) else None
      ensures PosView(m) == old(PosView(m))
      ensures actorClass.FieldsView(m) == old(actorClass.FieldsView(m))
      ensures forall f :: f in old(actorClass.FieldObjects()) ==> f.View(m) == old(f.View(m))
    {
      if posCell.Some? { return Ok(posCell.value); }
      r := ReadPos(m);
      if r.Ok? { posCell := Some(r.value); }
    }

    /** The uncached part of `pos`. */
    method ReadPos(m: Memory) returns (r: Result<DVector3>)
      requires posCell.None?
      modifies actorClass`fieldsCell, actorClass.FieldObjects()
      ensures r == old(PosView(m))
      ensures posCell.None? && PosView(m) == r
      ensures actorClass.FieldsView(m) == old(actorClass.FieldsView(m))
      ensures forall f :: f in old(actorClass.FieldObjects()) ==> f.View(m) == old(f.View(m))
    {
      var fields := actorClass.Fields(m);
      if !fields.Ok? { return Fail(fields); }
      if "pos" !in fields.value { return Err(NotFound("pos")); }
      var field := fields.value["pos"];
      var actor := ReadU64(m, address + PlayerActorOffset);
      if actor.None? { return Err(ReadFailed); }
      var offset := field.Offset(m);
      if !offset.Ok? { return Fail(offset); }
      r := ReadVector(m, actor.value + offset.value);
    }
  }
}
