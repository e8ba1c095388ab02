/**
 * Doom: The Dark Ages: the player's velocity as three watchers whose paths are derived from
 * field offsets that idTech's type information reports.
 */
module DarkAges {
  import opened Outcome
  import opened Remote
  import opened Pointer
  import opened IdTypeInfo
  import opened IdTech

  /** An `f32` is kept as its raw 32-bit pattern; no arithmetic is done on it. */
  function F32Bits(): Decoder<nat>
  {
    (m: Memory, a: nat) => ReadU32(m, a)
  }

  /** The three component paths of a vector at `path`, given its class's offsets on memory `m`. */
  function Vec3Paths(c: ClassTypeInfo, m: Memory, path: PointerPath): Result<(PointerPath, PointerPath, PointerPath)>
    requires LastOrZero(path.path) + U32 <= U64
    reads c, c.VariableObjects()
  {
    var x :- c.OffsetView(m, "x");
    var y :- c.OffsetView(m, "y");
    var z :- c.OffsetView(m, "z");
    Ok((ChildPath(path, [x]), ChildPath(path, [y]), ChildPath(path, [z])))
  }

  /** What `IdVec3::init` builds its watchers from: class `Engine::idVec3`, then its three offsets. */
  function Vec3Spec(idtech: IdTech, m: Memory, path: PointerPath): Result<(PointerPath, PointerPath, PointerPath)>
    requires LastOrZero(path.path) + U32 <= U64
    reads if idtech.GetClass("Engine", "idVec3").Ok? then {idtech.GetClass("Engine", "idVec3").value} else {}
    reads if idtech.GetClass("Engine", "idVec3").Ok? then idtech.GetClass("Engine", "idVec3").value.VariableObjects() else {}
  {
    var c :- idtech.GetClass("Engine", "idVec3");
    Vec3Paths(c, m, path)
  }

  /** A watcher as `From<PointerPath>` makes it: 64-bit, unnamed, with the path's offsets. */
  ghost predicate Watches(w: MemoryWatcher<nat>, p: PointerPath)
    reads w
  {
    w.path == New(p.reader, p.base, p.path) && w.decode == F32Bits()
    && w.cell.None? && w.previous.None? && w.fallback.None?
  }

  /** A vector of three `f32` watchers. */
  class IdVec3 {
    const x: MemoryWatcher<nat>
    const y: MemoryWatcher<nat>
    const z: MemoryWatcher<nat>

    constructor (x: MemoryWatcher<nat>, y: MemoryWatcher<nat>, z: MemoryWatcher<nat>)
      ensures this.x == x && this.y == y && this.z == z
    {
      this.x := x;
      this.y := y;
      this.z := z;
    }

    /** Each component has its own watcher. */
    predicate Distinct()
    {
      x != y && y != z && x != z
    }

    /** `invalidate`: each of the three watchers moves its value to `old` and clears it. */
    method Invalidate()
      requires Distinct()
      modifies x`cell, x`previous, y`cell, y`previous, z`cell, z`previous
      ensures x.previous == old(x.cell) && x.cell == None
      ensures y.previous == old(y.cell) && y.cell == None
      ensures z.previous == old(z.cell) && z.cell == None
    {
      x.Invalidate();
      y.Invalidate();
      z.Invalidate();
    }
  }

  /** The three offsets of a vector class, read in order `x`, `y`, `z`, as component paths. */
  method ReadVec3Paths(idtech: IdTech, c: ClassTypeInfo, m: Memory, path: PointerPath)
      returns (r: Result<(PointerPath, PointerPath, PointerPath)>)
    requires idtech.Valid() && c in idtech.Classes()
    requires LastOrZero(path.path) + U32 <= U64
    modifies idtech.Footprint()
    ensures idtech.Valid()
    ensures forall c, v :: c in idtech.Classes() ==> c.OffsetView(m, v) == old(c.OffsetView(m, v))
    ensures forall o :: o in idtech.Footprint() ==> o in old(idtech.Footprint()) || fresh(o)
    ensures r == old(Vec3Paths(c, m, path))
  {
    var x := idtech.GetOffsetIn(c, m, "x");
    if !x.Ok? { return Fail(x); }
    var y := idtech.GetOffsetIn(c, m, "y");
    if !y.Ok? { return Fail(y); }
    var z := idtech.GetOffsetIn(c, m, "z");
    if !z.Ok? { return Fail(z); }
    r := Ok((ChildPath(path, [x.value]), ChildPath(path, [y.value]), ChildPath(path, [z.value])));
  }

  /**
   * `IdVec3::init`: looks up `Engine::idVec3` and watches `path` continued by the offsets of
   * `x`, `y` and `z`; a missing class or field builds nothing and reports the first failure.
   */
  method InitVec3(idtech: IdTech, m: Memory, path: PointerPath) returns (r: Result<IdVec3>)
    requires idtech.Valid()
    requires LastOrZero(path.path) + U32 <= U64
    modifies idtech.Footprint()
    ensures idtech.Valid()
    ensures forall c, v :: c in idtech.Classes() ==> c.OffsetView(m, v) == old(c.OffsetView(m, v))
    ensures r.Ok? <==> old(Vec3Spec(idtech, m, path)).Ok?
    ensures !r.Ok? ==> SameFailure(r, old(Vec3Spec(idtech, m, path)))
    ensures r.Ok? ==>
              var paths := old(Vec3Spec(idtech, m, path)).value;
              fresh(r.value) && fresh(r.value.x) && fresh(r.value.y) && fresh(r.value.z) && r.value.Distinct()
              && Watches(r.value.x, paths.0) && Watches(r.value.y, paths.1) && Watches(r.value.z, paths.2)
  {
    var c := idtech.GetClass("Engine", "idVec3");
    if !c.Ok? { return Fail(c); }
    var paths := ReadVec3Paths(idtech, c.value, m, path);
    if !paths.Ok? { return Fail(paths); }
    var wx := new MemoryWatcher.FromPath(paths.value.0, F32Bits());
    var wy := new MemoryWatcher.FromPath(paths.value.1, F32Bits());
    var wz := new MemoryWatcher.FromPath(paths.value.2, F32Bits());
    var v := new IdVec3(wx, wy, wz);
    r := Ok(v);
  }

  /** The player's velocity vector. */
  class IdPlayer {
    const velocity: IdVec3

    constructor (velocity: IdVec3)
      ensures this.velocity == velocity
    {
      this.velocity := velocity;
    }

    /** `invalidate`: passes on to the velocity vector and does nothing else. */
    method Invalidate()
      requires velocity.Distinct()
      modifies velocity.x`cell, velocity.x`previous, velocity.y`cell, velocity.y`previous
      modifies velocity.z`cell, velocity.z`previous
      ensures velocity.x.previous == old(velocity.x.cell) && velocity.x.cell == None
      ensures velocity.y.previous == old(velocity.y.cell) && velocity.y.cell == None
      ensures velocity.z.previous == old(velocity.z.cell) && velocity.z.cell == None
    {
      velocity.Invalidate();
    }
  }

  /**
   * The path of the player's velocity: `path` continued by the offset of the physics info in
   * `idPlayer`, then by the offset of `current` in the physics info plus the offset of
   * `velocity` in the player state.
   */
  function VelocityPathFrom(player: ClassTypeInfo, physics: ClassTypeInfo, state: ClassTypeInfo,
                            m: Memory, path: PointerPath): (r: Result<PointerPath>)
    requires LastOrZero(path.path) + U32 <= U64
    ensures r.Ok? ==> LastOrZero(r.value.path) + U32 <= U64
    reads player, player.VariableObjects(), physics, physics.VariableObjects(), state, state.VariableObjects()
  {
    var info :- player.OffsetView(m, "idPlayerPhysicsInfo");
    var current :- physics.OffsetView(m, "current");
    var velocity :- state.OffsetView(m, "velocity");
    Ok(VelocityChild(path, info, current, velocity))
  }

  /** `path.child([info, current + velocity])`. */
  function VelocityChild(path: PointerPath, info: nat, current: nat, velocity: nat): (r: PointerPath)
    requires LastOrZero(path.path) + U32 <= U64 && info < U32 && current < U32 && velocity < U32
    ensures LastOrZero(r.path) == current + velocity && LastOrZero(r.path) + U32 <= U64
  {
    var r := ChildPath(path, [info, current + velocity]);
    var k := |AllButLast(path.path)|;
    assert r.path[k + 1..] == [current + velocity];
    assert r.path[|r.path| - 1] == r.path[k + 1..][0];
    r
  }

  /** The same, with the three `Game` classes looked up first. */
  function VelocityPath(idtech: IdTech, m: Memory, path: PointerPath): (r: Result<PointerPath>)
    requires LastOrZero(path.path) + U32 <= U64
    ensures r.Ok? ==> LastOrZero(r.value.path) + U32 <= U64
    reads idtech.Footprint()
  {
    var player :- idtech.GetClass("Game", "idPlayer");
    var physics :- idtech.GetClass("Game", "idPlayerPhysicsInfo");
    var state :- idtech.GetClass("Game", "playerPState_t");
    VelocityPathFrom(player, physics, state, m, path)
  }

  /** The three offsets `IdPlayer::init` reads, in order, combined into the velocity path. */
  method ReadVelocityPathFrom(idtech: IdTech, player: ClassTypeInfo, physics: ClassTypeInfo, state: ClassTypeInfo,
                              m: Memory, path: PointerPath) returns (r: Result<PointerPath>)
    requires idtech.Valid() && player in idtech.Classes() && physics in idtech.Classes() && state in idtech.Classes()
    requires LastOrZero(path.path) + U32 <= U64
    modifies idtech.Footprint()
    ensures idtech.Valid()
    ensures forall c, v :: c in idtech.Classes() ==> c.OffsetView(m, v) == old(c.OffsetView(m, v))
    ensures forall o :: o in idtech.Footprint() ==> o in old(idtech.Footprint()) || fresh(o)
    ensures r == old(VelocityPathFrom(player, physics, state, m, path))
  {
    ghost var wantInfo := player.OffsetView(m, "idPlayerPhysicsInfo");
    ghost var wantCurrent := physics.OffsetView(m, "current");
    ghost var wantVelocity := state.OffsetView(m, "velocity");
    ghost var want := VelocityPathFrom(player, physics, state, m, path);
    assert wantInfo.Ok? && wantCurrent.Ok? && wantVelocity.Ok? ==>
             want == Ok(VelocityChild(path, wantInfo.value, wantCurrent.value, wantVelocity.value));
    var info := idtech.GetOffsetIn(player, m, "idPlayerPhysicsInfo");
    if !info.Ok? {
      r := Fail(info);
      assert r == want;
      return;
    }
    assert physics.OffsetView(m, "current") == wantCurrent;
    assert state.OffsetView(m, "velocity") == wantVelocity;
    var current := idtech.GetOffsetIn(physics, m, "current");
    if !current.Ok? {
      r := Fail(current);
      assert r == want;
      return;
    }
    assert state.OffsetView(m, "velocity") == wantVelocity;
    var velocity := idtech.GetOffsetIn(state, m, "velocity");
    if !velocity.Ok? {
      r := Fail(velocity);
      assert r == want;
      return;
    }
    assert info == wantInfo && current == wantCurrent && velocity == wantVelocity;
    r := Ok(VelocityChild(path, info.value, current.value, velocity.value));
    assert r == want;
  }

  /** The offsets `IdPlayer::init` reads, in order, combined into the velocity path. */
  method ReadVelocityPath(idtech: IdTech, m: Memory, path: PointerPath) returns (r: Result<PointerPath>)
    requires idtech.Valid()
    requires LastOrZero(path.path) + U32 <= U64
    modifies idtech.Footprint()
    ensures idtech.Valid()
    ensures forall c, v :: c in idtech.Classes() ==> c.OffsetView(m, v) == old(c.OffsetView(m, v))
    ensures forall o :: o in idtech.Footprint() ==> o in old(idtech.Footprint()) || fresh(o)
    ensures r == old(VelocityPath(idtech, m, path))
  {
    var player := idtech.GetClass("Game", "idPlayer");
    if !player.Ok? { return Fail(player); }
    var physics := idtech.GetClass("Game", "idPlayerPhysicsInfo");
    if !physics.Ok? { return Fail(physics); }
    var state := idtech.GetClass("Game", "playerPState_t");
    if !state.Ok? { return Fail(state); }
    r := ReadVelocityPathFrom(idtech, player.value, physics.value, state.value, m, path);
  }

  /**
   * `IdPlayer::init`: looks up the three `Game` classes in order, reads the three offsets in
   * order, and builds the velocity vector on the derived path; the first failure is reported.
   */
  method InitPlayer(idtech: IdTech, m: Memory, path: PointerPath) returns (r: Result<IdPlayer>)
    requires idtech.Valid()
    requires LastOrZero(path.path) + U32 <= U64
    modifies idtech.Footprint()
    ensures idtech.Valid()
    ensures !old(VelocityPath(idtech, m, path)).Ok? ==> SameFailure(r, old(VelocityPath(idtech, m, path)))
    ensures old(VelocityPath(idtech, m, path)).Ok? ==>
              var vpath := old(VelocityPath(idtech, m, path)).value;
              (r.Ok? <==> old(Vec3Spec(idtech, m, vpath)).Ok?)
              && (!r.Ok? ==> SameFailure(r, old(Vec3Spec(idtech, m, vpath))))
              && (r.Ok? ==>
                    var paths := old(Vec3Spec(idtech, m, vpath)).value;
                    fresh(r.value) && fresh(r.value.velocity) && r.value.velocity.Distinct()
                    && Watches(r.value.velocity.x, paths.0) && Watches(r.value.velocity.y, paths.1)
                    && Watches(r.value.velocity.z, paths.2))
  {
    var vpath := ReadVelocityPath(idtech, m, path);
    if !vpath.Ok? { return Fail(vpath); }
    var c := idtech.GetClass("Engine", "idVec3");
    if c.Ok? {
      assert c.value.OffsetView(m, "x") == old(c.value.OffsetView(m, "x"));
      assert c.value.OffsetView(m, "y") == old(c.value.OffsetView(m, "y"));
      assert c.value.OffsetView(m, "z") == old(c.value.OffsetView(m, "z"));
    }
    assert Vec3Spec(idtech, m, vpath.value) == old(Vec3Spec(idtech, m, vpath.value));
    var vec := InitVec3(idtech, m, vpath.value);
    if !vec.Ok? { return Fail(vec); }
    var p := new IdPlayer(vec.value);
    r := Ok(p);
  }
}
