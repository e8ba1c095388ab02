/**
 * The current ZDoom level: its map name (memoised until the cache is invalidated) and the
 * search for an actor of a given class through the per-sector actor lists.
 */
module ZDoomLevel {
  import opened Outcome
  import opened Remote
  import opened ZDoomNames
  import opened ZDoomClasses
  import opened ZDoomLayout

  /** Size of a sector record; the sector array is walked with this stride. */
  const SectorSize: nat := 0x310
  /** Where an actor keeps its class pointer and the link to the next actor of its sector. */
  const ActorClass: nat := 0x8
  const ActorNext: nat := 0x40

  /** The map name behind the level record at `a`: path [mapname, 0x0]; not UTF-8 is a panic. */
  function LevelNameAt(m: Memory, a: nat, mapname: nat): (r: Result<string>)
    ensures r.Ok? <==> ReadU64(m, a + mapname).Some? && ReadU64(m, a + mapname).value in m.strings
                       && m.strings[ReadU64(m, a + mapname).value].Utf8?
    ensures r.Ok? ==> r.value == m.strings[ReadU64(m, a + mapname).value].text
    ensures r.Panic? <==> ReadU64(m, a + mapname).Some? && ReadU64(m, a + mapname).value in m.strings
                          && m.strings[ReadU64(m, a + mapname).value].Invalid?
  {
    TargetOfTwo(m, Bit64, a, mapname, 0x0);
    match ReadPath(m, Bit64, a, [mapname, 0x0], CStringDecoder())
    case Ok(cs) => if cs.Utf8? then Ok(cs.text) else Panic("name should always be utf-8")
    case Err(e) => Err(e)
    case Panic(s) => Panic(s)
  }

  /**
   * The sector records of the level's sector array at `arrayAt`: the count is the 32-bit word at
   * +0x8 and the records start at the pointer at +0x0, one every 0x310 bytes.
   */
  function SectorAddresses(m: Memory, arrayAt: nat): (r: Result<seq<nat>>)
    ensures r.Ok? <==> ReadU32(m, arrayAt + 0x8).Some? && ReadU64(m, arrayAt).Some?
    ensures r.Ok? ==> |r.value| == ReadU32(m, arrayAt + 0x8).value
    ensures r.Ok? ==> forall i :: 0 <= i < |r.value| ==> r.value[i] == ReadU64(m, arrayAt).value + i * SectorSize
  {
    match ReadU32(m, arrayAt + 0x8)
    case None => Err(ReadFailed)
    case Some(count) =>
      match ReadU64(m, arrayAt)
      case None => Err(ReadFailed)
      case Some(data) => Ok(seq(count, i => data + i * SectorSize))
  }

  /**
   * The walk of one sector's actor list from `link`: an unreadable or null link ends the list
   * (`Ok(None)`); an actor whose class cannot be read or named fails the search; an actor whose
   * class is named `target` is the answer. At most `fuel` actors are visited.
   */
  function WalkSector(m: Memory, nm: NameManager, link: nat, target: string, fuel: nat): Result<Option<nat>>
    decreases fuel
  {
    match ReadU64(m, link)
    case None => Ok(None)
    case Some(actor) =>
      if actor == 0 then Ok(None)
      else if fuel == 0 then Err(WalkBound)
      else
        var cls :- OkOr(ReadU64(m, actor + ActorClass), ReadFailed);
        var name :- ClassNameAt(m, nm, cls);
        if name == target then Ok(Some(actor))
        else WalkSector(m, nm, actor + ActorNext, target, fuel - 1)
  }

  /** The sectors searched in order; the first actor found wins. */
  function SearchSectors(m: Memory, nm: NameManager, sectors: seq<nat>, thinglist: nat, target: string, fuel: nat): Result<Option<nat>>
    decreases |sectors|
  {
    if |sectors| == 0 then Ok(None)
    else
      var found :- WalkSector(m, nm, sectors[0] + thinglist, target, fuel);
      if found.Some? then Ok(found)
      else SearchSectors(m, nm, sectors[1..], thinglist, target, fuel)
  }

  /** `find_actor`: the first actor of class `target`; none at all is `NotFound`. */
  function FindActorIn(m: Memory, nm: NameManager, level: nat, offsets: Offsets, target: string, fuel: nat): Result<nat>
  {
    var sectors :- SectorAddresses(m, level + offsets.levelSectors);
    var found :- SearchSectors(m, nm, sectors, offsets.sectorThinglist, target, fuel);
    if found.None? then Err(NotFound(target)) else Ok(found.value)
  }

  /** An actor the walk returns has a class record whose name is the one searched for. */
  lemma {:induction false} WalkSectorFindsNamed(m: Memory, nm: NameManager, link: nat, target: string, fuel: nat)
    ensures WalkSector(m, nm, link, target, fuel).Ok? && WalkSector(m, nm, link, target, fuel).value.Some? ==>
              var actor := WalkSector(m, nm, link, target, fuel).value.value;
              actor != 0 && ReadU64(m, actor + ActorClass).Some?
              && ClassNameAt(m, nm, ReadU64(m, actor + ActorClass).value) == Ok(target)
    decreases fuel
  {
    if fuel > 0 && ReadU64(m, link).Some? && ReadU64(m, link).value != 0 {
      var actor := ReadU64(m, link).value;
      WalkSectorFindsNamed(m, nm, actor + ActorNext, target, fuel - 1);
    }
  }

  lemma {:induction false} SearchSectorsFindsNamed(m: Memory, nm: NameManager, sectors: seq<nat>, thinglist: nat, target: string, fuel: nat)
    ensures SearchSectors(m, nm, sectors, thinglist, target, fuel).Ok? && SearchSectors(m, nm, sectors, thinglist, target, fuel).value.Some? ==>
              var actor := SearchSectors(m, nm, sectors, thinglist, target, fuel).value.value;
              actor != 0 && ReadU64(m, actor + ActorClass).Some?
              && ClassNameAt(m, nm, ReadU64(m, actor + ActorClass).value) == Ok(target)
    decreases |sectors|
  {
    if |sectors| > 0 {
      WalkSectorFindsNamed(m, nm, sectors[0] + thinglist, target, fuel);
      SearchSectorsFindsNamed(m, nm, sectors[1..], thinglist, target, fuel);
    }
  }

  /** Whatever `find_actor` returns is a non-null actor whose class is named `target`. */
  lemma FindActorFindsNamed(m: Memory, nm: NameManager, level: nat, offsets: Offsets, target: string, fuel: nat)
    ensures FindActorIn(m, nm, level, offsets, target, fuel).Ok? ==>
              var actor := FindActorIn(m, nm, level, offsets, target, fuel).value;
              actor != 0 && ReadU64(m, actor + ActorClass).Some?
              && ClassNameAt(m, nm, ReadU64(m, actor + ActorClass).value) == Ok(target)
  {
    var sectors := SectorAddresses(m, level + offsets.levelSectors);
    if sectors.Ok? {
      SearchSectorsFindsNamed(m, nm, sectors.value, offsets.sectorThinglist, target, fuel);
    }
  }

  /** The actors on a sector's list from `link`, in `snext` order, at most `fuel` of them. */
  ghost function Chain(m: Memory, link: nat, fuel: nat): seq<nat>
    decreases fuel
  {
    match ReadU64(m, link)
    case None => []
    case Some(actor) => if actor == 0 || fuel == 0 then [] else [actor] + Chain(m, actor + ActorNext, fuel - 1)
  }

  /** The list from `link` ends (an unreadable or null link) within `fuel` actors. */
  ghost predicate EndsWithin(m: Memory, link: nat, fuel: nat)
    decreases fuel
  {
    match ReadU64(m, link)
    case None => true
    case Some(actor) => actor == 0 || (fuel > 0 && EndsWithin(m, actor + ActorNext, fuel - 1))
  }

  /** The actor's class record reads and is named `target`. */
  ghost predicate OfClass(m: Memory, nm: NameManager, actor: nat, target: string)
  {
    ReadU64(m, actor + ActorClass).Some? && ClassNameAt(m, nm, ReadU64(m, actor + ActorClass).value) == Ok(target)
  }

  /** The actor's class record reads and has a name other than `target`. */
  ghost predicate OfOtherClass(m: Memory, nm: NameManager, actor: nat, target: string)
  {
    ReadU64(m, actor + ActorClass).Some? && ClassNameAt(m, nm, ReadU64(m, actor + ActorClass).value).Ok?
    && ClassNameAt(m, nm, ReadU64(m, actor + ActorClass).value).value != target
  }

  /** The whole list from `link` is walked and holds no actor of class `target`. */
  ghost predicate NoneOfClass(m: Memory, nm: NameManager, link: nat, target: string, fuel: nat)
  {
    EndsWithin(m, link, fuel)
    && forall j :: 0 <= j < |Chain(m, link, fuel)| ==> OfOtherClass(m, nm, Chain(m, link, fuel)[j], target)
  }

  /**
   * The walk returns the first actor of the list whose class is `target`, every actor before it
   * having a readable class of another name; it returns `Ok(None)` exactly when the whole list
   * was walked and no actor in it is of that class.
   */
  lemma {:induction false} WalkSectorIsFirstMatch(m: Memory, nm: NameManager, link: nat, target: string, fuel: nat)
    ensures WalkSector(m, nm, link, target, fuel).Ok? && WalkSector(m, nm, link, target, fuel).value.Some? ==>
              exists i :: 0 <= i < |Chain(m, link, fuel)|
                && Chain(m, link, fuel)[i] == WalkSector(m, nm, link, target, fuel).value.value
                && OfClass(m, nm, Chain(m, link, fuel)[i], target)
                && forall j :: 0 <= j < i ==> OfOtherClass(m, nm, Chain(m, link, fuel)[j], target)
    ensures WalkSector(m, nm, link, target, fuel) == Ok(None) <==> NoneOfClass(m, nm, link, target, fuel)
    decreases fuel
  {
    match ReadU64(m, link)
    case None =>
    case Some(actor) =>
      if actor != 0 && fuel > 0 {
        var next := actor + ActorNext;
        var chain := Chain(m, link, fuel);
        var tail := Chain(m, next, fuel - 1);
        WalkSectorIsFirstMatch(m, nm, next, target, fuel - 1);
        assert chain == [actor] + tail;
        if OfClass(m, nm, actor, target) {
          assert chain[0] == actor;
          assert !OfOtherClass(m, nm, chain[0], target);
        } else if OfOtherClass(m, nm, actor, target) {
          var w := WalkSector(m, nm, next, target, fuel - 1);
          if w.Ok? && w.value.Some? {
            var i :| 0 <= i < |tail| && tail[i] == w.value.value
                     && OfClass(m, nm, tail[i], target)
                     && forall j :: 0 <= j < i ==> OfOtherClass(m, nm, tail[j], target);
            assert chain[i + 1] == tail[i];
            forall j | 0 <= j < i + 1
              ensures OfOtherClass(m, nm, chain[j], target)
            {
              if j > 0 { assert chain[j] == tail[j - 1]; }
            }
          }
          if NoneOfClass(m, nm, next, target, fuel - 1) {
            forall j | 0 <= j < |chain|
              ensures OfOtherClass(m, nm, chain[j], target)
            {
              if j > 0 { assert chain[j] == tail[j - 1]; }
            }
          }
          if NoneOfClass(m, nm, link, target, fuel) {
            forall j | 0 <= j < |tail|
              ensures OfOtherClass(m, nm, tail[j], target)
            {
              assert tail[j] == chain[j + 1];
            }
          }
        } else {
          assert chain[0] == actor;
          assert !OfOtherClass(m, nm, chain[0], target);
        }
      }
  }

  /** The walk of the `k`-th sector's actor list. */
  function SectorWalk(m: Memory, nm: NameManager, sectors: seq<nat>, k: nat, thinglist: nat, target: string, fuel: nat): Result<Option<nat>>
    requires k < |sectors|
  {
    WalkSector(m, nm, sectors[k] + thinglist, target, fuel)
  }

  /** The search is the first sector's walk when that finds something or fails, and the rest's search otherwise. */
  lemma SearchSectorsStep(m: Memory, nm: NameManager, sectors: seq<nat>, thinglist: nat, target: string, fuel: nat)
    requires |sectors| > 0
    ensures SectorWalk(m, nm, sectors, 0, thinglist, target, fuel) == Ok(None) ==>
              SearchSectors(m, nm, sectors, thinglist, target, fuel) == SearchSectors(m, nm, sectors[1..], thinglist, target, fuel)
    ensures SectorWalk(m, nm, sectors, 0, thinglist, target, fuel) != Ok(None) ==>
              SearchSectors(m, nm, sectors, thinglist, target, fuel) == SectorWalk(m, nm, sectors, 0, thinglist, target, fuel)
  {
  }

  /**
   * The sector search returns what the walk of the first sector holding a match returns, every
   * earlier sector's walk having found nothing; it returns `Ok(None)` exactly when every
   * sector's walk found nothing.
   */
  lemma {:induction false} SearchSectorsIsFirstMatch(m: Memory, nm: NameManager, sectors: seq<nat>, thinglist: nat, target: string, fuel: nat)
    ensures SearchSectors(m, nm, sectors, thinglist, target, fuel).Ok? && SearchSectors(m, nm, sectors, thinglist, target, fuel).value.Some? ==>
              exists k :: 0 <= k < |sectors|
                && SectorWalk(m, nm, sectors, k, thinglist, target, fuel) == SearchSectors(m, nm, sectors, thinglist, target, fuel)
                && forall l :: 0 <= l < k ==> SectorWalk(m, nm, sectors, l, thinglist, target, fuel) == Ok(None)
    ensures SearchSectors(m, nm, sectors, thinglist, target, fuel) == Ok(None) <==>
              forall k :: 0 <= k < |sectors| ==> SectorWalk(m, nm, sectors, k, thinglist, target, fuel) == Ok(None)
    decreases |sectors|
  {
    if |sectors| > 0 {
      var rest := sectors[1..];
      var s := SearchSectors(m, nm, sectors, thinglist, target, fuel);
      var sRest := SearchSectors(m, nm, rest, thinglist, target, fuel);
      SearchSectorsIsFirstMatch(m, nm, rest, thinglist, target, fuel);
      SearchSectorsStep(m, nm, sectors, thinglist, target, fuel);
      forall k | 0 <= k < |rest|
        ensures SectorWalk(m, nm, rest, k, thinglist, target, fuel) == SectorWalk(m, nm, sectors, k + 1, thinglist, target, fuel)
      {
        assert rest[k] == sectors[k + 1];
      }
      if SectorWalk(m, nm, sectors, 0, thinglist, target, fuel) == Ok(None) {
        assert s == sRest;
        if sRest.Ok? && sRest.value.Some? {
          var k :| 0 <= k < |rest| && SectorWalk(m, nm, rest, k, thinglist, target, fuel) == sRest
                   && forall l :: 0 <= l < k ==> SectorWalk(m, nm, rest, l, thinglist, target, fuel) == Ok(None);
          forall l | 0 <= l < k + 1
            ensures SectorWalk(m, nm, sectors, l, thinglist, target, fuel) == Ok(None)
          {
            if l > 0 { assert SectorWalk(m, nm, rest, l - 1, thinglist, target, fuel) == Ok(None); }
          }
          assert SectorWalk(m, nm, sectors, k + 1, thinglist, target, fuel) == s;
        }
        if sRest == Ok(None) {
          forall k | 0 <= k < |sectors|
            ensures SectorWalk(m, nm, sectors, k, thinglist, target, fuel) == Ok(None)
          {
            if k > 0 { assert SectorWalk(m, nm, rest, k - 1, thinglist, target, fuel) == Ok(None); }
          }
        }
      } else {
        assert s == SectorWalk(m, nm, sectors, 0, thinglist, target, fuel);
      }
    }
  }

  /** The `k`-th sector's list is walked to its end and holds no actor of class `target`. */
  ghost predicate SectorHasNone(m: Memory, nm: NameManager, sectors: seq<nat>, k: nat, thinglist: nat, target: string, fuel: nat)
    requires k < |sectors|
  {
    NoneOfClass(m, nm, sectors[k] + thinglist, target, fuel)
  }

  /**
   * `find_actor` is `NotFound` exactly when the sector array reads and no sector's list holds an
   * actor of class `target` (each list walked to its end, every actor's class readable and named
   * otherwise); a found actor is the first of its class in sector order, then in list order.
   */
  lemma FindActorIsFirstMatch(m: Memory, nm: NameManager, level: nat, offsets: Offsets, target: string, fuel: nat)
    ensures FindActorIn(m, nm, level, offsets, target, fuel) == Err(NotFound(target)) <==>
              SectorAddresses(m, level + offsets.levelSectors).Ok?
              && var sectors := SectorAddresses(m, level + offsets.levelSectors).value;
                 forall k :: 0 <= k < |sectors| ==> SectorHasNone(m, nm, sectors, k, offsets.sectorThinglist, target, fuel)
    ensures FindActorIn(m, nm, level, offsets, target, fuel).Ok? ==>
              var sectors := SectorAddresses(m, level + offsets.levelSectors).value;
              exists k :: 0 <= k < |sectors|
                && SectorWalk(m, nm, sectors, k, offsets.sectorThinglist, target, fuel)
                   == Ok(Some(FindActorIn(m, nm, level, offsets, target, fuel).value))
                && forall l :: 0 <= l < k ==> SectorHasNone(m, nm, sectors, l, offsets.sectorThinglist, target, fuel)
  {
    var sectorsR := SectorAddresses(m, level + offsets.levelSectors);
    if sectorsR.Ok? {
      var sectors := sectorsR.value;
      var thinglist := offsets.sectorThinglist;
      SearchSectorsIsFirstMatch(m, nm, sectors, thinglist, target, fuel);
      forall k | 0 <= k < |sectors|
        ensures SectorWalk(m, nm, sectors, k, thinglist, target, fuel) == Ok(None)
                <==> SectorHasNone(m, nm, sectors, k, thinglist, target, fuel)
      {
        WalkSectorIsFirstMatch(m, nm, sectors[k] + thinglist, target, fuel);
      }
      var s := SearchSectors(m, nm, sectors, thinglist, target, fuel);
      if s.Err? {
        WalkErrorsAreNotNotFound(m, nm, sectors, thinglist, target, fuel);
      }
    }
  }

  /** The search fails only with read and walk-bound errors, never with `NotFound`. */
  lemma {:induction false} WalkErrorsAreNotNotFound(m: Memory, nm: NameManager, sectors: seq<nat>, thinglist: nat, target: string, fuel: nat)
    ensures SearchSectors(m, nm, sectors, thinglist, target, fuel).Err? ==>
              SearchSectors(m, nm, sectors, thinglist, target, fuel).error in {ReadFailed, WalkBound}
    decreases |sectors|
  {
    if |sectors| > 0 {
      WalkSectorErrors(m, nm, sectors[0] + thinglist, target, fuel);
      WalkErrorsAreNotNotFound(m, nm, sectors[1..], thinglist, target, fuel);
    }
  }

  lemma {:induction false} WalkSectorErrors(m: Memory, nm: NameManager, link: nat, target: string, fuel: nat)
    ensures WalkSector(m, nm, link, target, fuel).Err? ==> WalkSector(m, nm, link, target, fuel).error in {ReadFailed, WalkBound}
    decreases fuel
  {
    if fuel > 0 && ReadU64(m, link).Some? && ReadU64(m, link).value != 0 {
      WalkSectorErrors(m, nm, ReadU64(m, link).value + ActorNext, target, fuel - 1);
    }
  }

  /** The walk bound is exact: a walk that finished within `fuel` steps finishes the same with more. */
  lemma {:induction false} WalkSectorFuelMonotone(m: Memory, nm: NameManager, link: nat, target: string, fuel: nat, more: nat)
    requires fuel <= more
    requires WalkSector(m, nm, link, target, fuel) != Err(WalkBound)
    ensures WalkSector(m, nm, link, target, more) == WalkSector(m, nm, link, target, fuel)
    decreases fuel
  {
    if fuel > 0 && ReadU64(m, link).Some? && ReadU64(m, link).value != 0 {
      var actor := ReadU64(m, link).value;
      if ReadU64(m, actor + ActorClass).Some? && ClassNameAt(m, nm, ReadU64(m, actor + ActorClass).value).Ok?
         && ClassNameAt(m, nm, ReadU64(m, actor + ActorClass).value).value != target {
        WalkSectorFuelMonotone(m, nm, actor + ActorNext, target, fuel - 1, more - 1);
      }
    }
  }

  lemma {:induction false} SearchSectorsFuelMonotone(m: Memory, nm: NameManager, sectors: seq<nat>, thinglist: nat, target: string, fuel: nat, more: nat)
    requires fuel <= more
    requires SearchSectors(m, nm, sectors, thinglist, target, fuel) != Err(WalkBound)
    ensures SearchSectors(m, nm, sectors, thinglist, target, more) == SearchSectors(m, nm, sectors, thinglist, target, fuel)
    decreases |sectors|
  {
    if |sectors| > 0 {
      var first := WalkSector(m, nm, sectors[0] + thinglist, target, fuel);
      if first != Err(WalkBound) {
        WalkSectorFuelMonotone(m, nm, sectors[0] + thinglist, target, fuel, more);
      }
      if first == Ok(None) {
        SearchSectorsFuelMonotone(m, nm, sectors[1..], thinglist, target, fuel, more);
      }
    }
  }

  /** The level handle: its record address and a memoised map name. */
  class Level {
    const address: nat
    const offsets: Offsets
    const names: NameManager
    var nameCell: Option<string>

    constructor (address: nat, offsets: Offsets, names: NameManager)
      ensures this.address == address && this.offsets == offsets && this.names == names
      ensures nameCell == None
    {
      this.address := address;
      this.offsets := offsets;
      this.names := names;
      nameCell := None;
    }

    /** `invalidate_cache`: the next `Name` reads memory again. */
    method InvalidateCache()
      modifies this`nameCell
      ensures nameCell == None
    {
      nameCell := None;
    }

    /** `name`: the map name, memoised once read. */
    method Name(m: Memory) returns (r: Result<string>)
      modifies this`nameCell
      ensures old(nameCell).Some? ==> r == Ok(old(nameCell).value)
      ensures old(nameCell).None? ==> r == LevelNameAt(m, address, offsets.levelMapname)
      ensures nameCell == if r.Ok? then Some(r.value) else None
    {
      if nameCell.Some? { return Ok(nameCell.value); }
      r := LevelNameAt(m, address, offsets.levelMapname);
      if r.Ok? { nameCell := Some(r.value); }
    }

    /**
     * `find_actor`: every sector's actor list in turn, each walked for at most `fuel` actors.
     */
    method FindActor(m: Memory, target: string, fuel: nat) returns (r: Result<nat>)
      ensures r == FindActorIn(m, names, address, offsets, target, fuel)
    {
      var sectors := SectorAddresses(m, address + offsets.levelSectors);
      if !sectors.Ok? { return Fail(sectors); }
      var found := SearchActors(m, sectors.value, target, fuel);
      if !found.Ok? { return Fail(found); }
      if found.value.None? { return Err(NotFound(target)); }
      r := Ok(found.value.value);
    }

    /** The outer loop of `find_actor`: the sectors in order, until one's walk decides. */
    method SearchActors(m: Memory, sectors: seq<nat>, target: string, fuel: nat) returns (r: Result<Option<nat>>)
      ensures r == SearchSectors(m, names, sectors, offsets.sectorThinglist, target, fuel)
    {
      var i := 0;
      while i < |sectors|
        invariant 0 <= i <= |sectors|
        invariant SearchSectors(m, names, sectors, offsets.sectorThinglist, target, fuel)
               == SearchSectors(m, names, sectors[i..], offsets.sectorThinglist, target, fuel)
      {
        var found := WalkActors(m, sectors[i] + offsets.sectorThinglist, target, fuel);
        assert sectors[i..][0] == sectors[i];
        if !found.Ok? { return Fail(found); }
        if found.value.Some? { return found; }
        assert sectors[i..][1..] == sectors[i + 1..];
        i := i + 1;
      }
      r := Ok(None);
    }

    /** The inner loop of `find_actor`: one sector's actor list from `link`. */
    method WalkActors(m: Memory, link: nat, target: string, fuel: nat) returns (r: Result<Option<nat>>)
      ensures r == WalkSector(m, names, link, target, fuel)
    {
      var next: nat := link;
      var steps: nat := fuel;
      while true
        invariant WalkSector(m, names, link, target, fuel) == WalkSector(m, names, next, target, steps)
        decreases steps
      {
        var actor := ReadU64(m, next);
        if actor.None? || actor.value == 0 { return Ok(None); }
        if steps == 0 { return Err(WalkBound); }
        var cls := ReadU64(m, actor.value + ActorClass);
        if cls.None? { return Err(ReadFailed); }
        var name := ClassNameAt(m, names, cls.value);
        if !name.Ok? { return Fail(name); }
        if name.value == target { return Ok(Some(actor.value)); }
        next := actor.value + ActorNext;
        steps := steps - 1;
      }
    }
  }
}
