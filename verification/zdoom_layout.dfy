/**
 * Where a ZDoom build keeps the globals the splitters read: five addresses found by byte
 * signatures in the main module, and four structure offsets that depend on the engine version.
 */
module ZDoomLayout {
  import opened Outcome
  import opened Remote
  import opened Scan

  datatype ZDoomVersion = Lzdoom3_82 | Gzdoom4_8Pre | Gzdoom4_8_2

  /** Structure offsets that moved between engine versions. */
  datatype Offsets = Offsets(pclassFields: nat, levelMapname: nat, levelSectors: nat, sectorThinglist: nat)

  /** `Offsets::new`: the offsets of each supported version. */
  function OffsetsFor(version: ZDoomVersion): (o: Offsets)
    ensures version == Lzdoom3_82 ==> o == Offsets(0x78, 0x2C0, 0x10, 0x180)
    ensures version == Gzdoom4_8Pre ==> o == Offsets(0x80, 0x9F8, 0x50, 0x268)
    ensures version == Gzdoom4_8_2 ==> o == Offsets(0x78, 0x9D8, 0x50, 0x268)
  {
    match version
    case Lzdoom3_82 => Offsets(0x78, 0x2C0, 0x10, 0x180)
    case Gzdoom4_8Pre => Offsets(0x80, 0x9F8, 0x50, 0x268)
    case Gzdoom4_8_2 => Offsets(0x78, 0x9D8, 0x50, 0x268)
  }

  /** The two GZDoom builds share the sector layout and differ in the class and level records. */
  lemma GzdoomBuildsShareSectorLayout()
    ensures OffsetsFor(Gzdoom4_8Pre).levelSectors == OffsetsFor(Gzdoom4_8_2).levelSectors
    ensures OffsetsFor(Gzdoom4_8Pre).sectorThinglist == OffsetsFor(Gzdoom4_8_2).sectorThinglist
    ensures OffsetsFor(Gzdoom4_8Pre).pclassFields != OffsetsFor(Gzdoom4_8_2).pclassFields
    ensures OffsetsFor(Gzdoom4_8Pre).levelMapname != OffsetsFor(Gzdoom4_8_2).levelMapname
  {
  }

  /** The globals of one running game. */
  datatype Layout = Layout(namedata: nat, players: nat, allClasses: nat, level: nat, gameaction: nat, offsets: Offsets)

  const LzNamedata := "0F 84 ?? ?? ?? ?? 48 8B D1 41 B0 01 48 8D 0D ?? ?? ?? ??"
  const LzPlayers := "48 8D 05 ?? ?? ?? ?? 48 03 C8 E8 ?? ?? ?? ?? 48 63 05"
  const LzAllClasses := "48 8B 1D ?? ?? ?? ?? 8B 05 ?? ?? ?? ?? 48 8D 3C C3 48 3B DF 0F 84"
  const LzLevel := "75 D1 89 2D ?? ?? ?? ?? 8B 05"
  const Gameaction := "B2 01 89 05 ?? ?? ?? ?? E8 ?? ?? ?? ?? C7 05 ?? ?? ?? ?? 03 00 00 00 C7 05 ?? ?? ?? ?? 02 00 00 00"
  const GzNamedata := "45 33 C0 48 8B D6 48 8D 0D ?? ?? ?? ?? E8 ?? ?? ?? ?? 44 8B C0 8B 15"
  const GzLevel := "48 8B 05 ?? ?? ?? ?? 48 39 03 75 09 E8"
  const GzPlayers := "48 8B 84 29 ?? ?? ?? ?? 48 85 C0"
  const GzAllClasses := "49 89 46 30 48 8B 1D ?? ?? ?? ?? 8B 05 ?? ?? ?? ?? 48 8D 3C C3 48 3B DF 0F 84"

  /** A displacement-relative global: the signature's first match resolved as `scan_rel` does. */
  function Resolved(m: Memory, mod: ModuleInfo, signature: string, offset: nat, next: nat): Option<nat>
  {
    if signature in mod.firstMatch then RelativeTargetAsWritten(m, mod.firstMatch[signature], offset, next) else None
  }

  /** The LZDoom arm of `Memory::new`: five displacement-relative globals, in source order. */
  function LzdoomLayout(m: Memory, mod: ModuleInfo): (r: Result<Layout>)
    ensures r.Ok? ==>
              Some(r.value.namedata) == Resolved(m, mod, LzNamedata, 0xF, 0x4)
              && Some(r.value.players) == Resolved(m, mod, LzPlayers, 0x3, 0x4)
              && Some(r.value.allClasses) == Resolved(m, mod, LzAllClasses, 0x3, 0x4)
              && Some(r.value.level) == Resolved(m, mod, LzLevel, 0x4, 0x4)
              && Some(r.value.gameaction) == Resolved(m, mod, Gameaction, 0xF, 0x8)
              && r.value.offsets == OffsetsFor(Lzdoom3_82)
    ensures r.Ok? <==> Resolved(m, mod, LzNamedata, 0xF, 0x4).Some? && Resolved(m, mod, LzPlayers, 0x3, 0x4).Some?
                       && Resolved(m, mod, LzAllClasses, 0x3, 0x4).Some? && Resolved(m, mod, LzLevel, 0x4, 0x4).Some?
                       && Resolved(m, mod, Gameaction, 0xF, 0x8).Some?
    ensures r.Panic? ==> exists s :: s in SignaturesOf(Lzdoom3_82) && s !in mod.firstMatch
    ensures r.Err? ==> r == Err(ReadFailed)
    ensures LzNamedata !in mod.firstMatch ==> r.Panic?
    ensures Resolved(m, mod, LzNamedata, 0xF, 0x4).Some? && LzPlayers !in mod.firstMatch ==> r.Panic?
    ensures (Resolved(m, mod, LzNamedata, 0xF, 0x4).Some? && Resolved(m, mod, LzPlayers, 0x3, 0x4).Some?
            && LzAllClasses !in mod.firstMatch) ==> r.Panic?
    ensures (Resolved(m, mod, LzNamedata, 0xF, 0x4).Some? && Resolved(m, mod, LzPlayers, 0x3, 0x4).Some?
            && Resolved(m, mod, LzAllClasses, 0x3, 0x4).Some? && LzLevel !in mod.firstMatch) ==> r.Panic?
    ensures (Resolved(m, mod, LzNamedata, 0xF, 0x4).Some? && Resolved(m, mod, LzPlayers, 0x3, 0x4).Some?
            && Resolved(m, mod, LzAllClasses, 0x3, 0x4).Some? && Resolved(m, mod, LzLevel, 0x4, 0x4).Some?
            && Gameaction !in mod.firstMatch) ==> r.Panic?
  {
    var namedata :- ScanRelOrPanic(m, mod, LzNamedata, 0xF, 0x4);
    var players :- ScanRelOrPanic(m, mod, LzPlayers, 0x3, 0x4);
    var allClasses :- ScanRelOrPanic(m, mod, LzAllClasses, 0x3, 0x4);
    var level :- ScanRelOrPanic(m, mod, LzLevel, 0x4, 0x4);
    var gameaction :- ScanRelOrPanic(m, mod, Gameaction, 0xF, 0x8);
    Ok(Layout(namedata, players, allClasses, level, gameaction, OffsetsFor(Lzdoom3_82)))
  }

  /**
   * The GZDoom arm of `Memory::new`: the level is the pointer stored at its scanned address, and
   * the player array is the module base plus the 32-bit offset four bytes into its signature's
   * match (a missing match is a panic of its own).
   */
  function GzdoomLayout(m: Memory, mod: ModuleInfo, version: ZDoomVersion): (r: Result<Layout>)
    requires version != Lzdoom3_82
    ensures r.Ok? ==>
              Some(r.value.namedata) == Resolved(m, mod, GzNamedata, 0x9, 0x4)
              && Some(r.value.gameaction) == Resolved(m, mod, Gameaction, 0xF, 0x8)
              && Resolved(m, mod, GzLevel, 0x3, 0x4).Some?
              && Some(r.value.level) == ReadU64(m, Resolved(m, mod, GzLevel, 0x3, 0x4).value)
              && GzPlayers in mod.firstMatch
              && ReadU32(m, mod.firstMatch[GzPlayers] + 0x4).Some?
              && r.value.players == mod.base + ReadU32(m, mod.firstMatch[GzPlayers] + 0x4).value
              && Some(r.value.allClasses) == Resolved(m, mod, GzAllClasses, 0x7, 0x4)
              && r.value.offsets == OffsetsFor(version)
    ensures r.Ok? <==> Resolved(m, mod, GzNamedata, 0x9, 0x4).Some? && Resolved(m, mod, Gameaction, 0xF, 0x8).Some?
                       && Resolved(m, mod, GzLevel, 0x3, 0x4).Some?
                       && ReadU64(m, Resolved(m, mod, GzLevel, 0x3, 0x4).value).Some?
                       && GzPlayers in mod.firstMatch && ReadU32(m, mod.firstMatch[GzPlayers] + 0x4).Some?
                       && Resolved(m, mod, GzAllClasses, 0x7, 0x4).Some?
    ensures r.Panic? ==> exists s :: s in SignaturesOf(version) && s !in mod.firstMatch
    ensures r.Err? ==> r == Err(ReadFailed)
    ensures GzNamedata !in mod.firstMatch ==> r.Panic?
    ensures Resolved(m, mod, GzNamedata, 0x9, 0x4).Some? && Gameaction !in mod.firstMatch ==> r.Panic?
    ensures (Resolved(m, mod, GzNamedata, 0x9, 0x4).Some? && Resolved(m, mod, Gameaction, 0xF, 0x8).Some?
            && GzLevel !in mod.firstMatch) ==> r.Panic?
    ensures (Resolved(m, mod, GzNamedata, 0x9, 0x4).Some? && Resolved(m, mod, Gameaction, 0xF, 0x8).Some?
            && Resolved(m, mod, GzLevel, 0x3, 0x4).Some? && ReadU64(m, Resolved(m, mod, GzLevel, 0x3, 0x4).value).Some?
            && GzPlayers !in mod.firstMatch) ==> r.Panic?
    ensures (Resolved(m, mod, GzNamedata, 0x9, 0x4).Some? && Resolved(m, mod, Gameaction, 0xF, 0x8).Some?
            && Resolved(m, mod, GzLevel, 0x3, 0x4).Some? && ReadU64(m, Resolved(m, mod, GzLevel, 0x3, 0x4).value).Some?
            && GzPlayers in mod.firstMatch && ReadU32(m, mod.firstMatch[GzPlayers] + 0x4).Some?
            && GzAllClasses !in mod.firstMatch) ==> r.Panic?
  {
    var namedata :- ScanRelOrPanic(m, mod, GzNamedata, 0x9, 0x4);
    var gameaction :- ScanRelOrPanic(m, mod, Gameaction, 0xF, 0x8);
    var levelAt :- ScanRelOrPanic(m, mod, GzLevel, 0x3, 0x4);
    var level :- OkOr(ReadU64(m, levelAt), ReadFailed);
    if GzPlayers !in mod.firstMatch then Panic("failed to get address")
    else
      var playersOffset :- OkOr(ReadU32(m, mod.firstMatch[GzPlayers] + 0x4), ReadFailed);
      var allClasses :- ScanRelOrPanic(m, mod, GzAllClasses, 0x7, 0x4);
      Ok(Layout(namedata, mod.base + playersOffset, allClasses, level, gameaction, OffsetsFor(version)))
  }

  /**
   * `Memory::new`: the module must be loaded; then every global is scanned for in source order
   * (a signature without a match panics, an unreadable displacement is an error).
   */
  function MemoryNew(p: Process, version: ZDoomVersion, moduleName: string): (r: Result<Layout>)
    ensures moduleName !in p.modules ==> r == Err(ModuleNotFound(moduleName))
    ensures moduleName in p.modules && version == Lzdoom3_82 ==> r == LzdoomLayout(p.memory, p.modules[moduleName])
    ensures moduleName in p.modules && version != Lzdoom3_82 ==> r == GzdoomLayout(p.memory, p.modules[moduleName], version)
  {
    if moduleName !in p.modules then Err(ModuleNotFound(moduleName))
    else if version == Lzdoom3_82 then LzdoomLayout(p.memory, p.modules[moduleName])
    else GzdoomLayout(p.memory, p.modules[moduleName], version)
  }

  /** The signatures a version scans for. */
  function SignaturesOf(version: ZDoomVersion): set<string>
  {
    if version == Lzdoom3_82 then {LzNamedata, LzPlayers, LzAllClasses, LzLevel, Gameaction}
    else {GzNamedata, Gameaction, GzLevel, GzPlayers, GzAllClasses}
  }
}
