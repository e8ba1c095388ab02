/**
 * Finding addresses by byte signature. A signature matches an instruction that refers to a
 * global RIP-relatively; the global's address is the address of the 32-bit displacement plus
 * the displacement plus the length of the rest of the instruction.
 */
module Scan {
  import opened Outcome
  import opened Remote

  const I32Limit: nat := 0x8000_0000

  /** Where a signature first matches in a module, if anywhere. */
  function FirstMatch(mod: ModuleInfo, signature: string): (r: Option<nat>)
    ensures r.Some? <==> signature in mod.firstMatch
  {
    if signature in mod.firstMatch then Some(mod.firstMatch[signature]) else None
  }

  /**
   * The resolution step as the scanning functions write it: the displacement read at
   * `matchAddr + offset` is taken as an unsigned 32-bit number.
   */
  function RelativeTargetAsWritten(m: Memory, matchAddr: nat, offset: nat, next: nat): (r: Option<nat>)
    ensures r.Some? <==> ReadU32(m, matchAddr + offset).Some?
    ensures r.Some? ==> r.value >= matchAddr + offset + next
  {
    var at := matchAddr + offset;
    match ReadU32(m, at)
    case None => None
    case Some(d) => Some(at + d + next)
  }

  /** A 32-bit two's-complement reading of `d`. */
  function SignExtend32(d: nat): (r: int)
    requires d < U32
    ensures -(I32Limit as int) <= r < I32Limit
    ensures (r - d) % U32 == 0
  {
    if d < I32Limit then d else d - U32
  }

  /**
   * The resolution step with the displacement sign-extended, as a RIP-relative operand is
   * (a global may lie before the instruction), wrapping in the 64-bit address space.
   */
  function RelativeTarget(m: Memory, matchAddr: nat, offset: nat, next: nat): (r: Option<nat>)
    ensures r.Some? <==> ReadU32(m, matchAddr + offset).Some?
    ensures r.Some? ==> r.value < U64
    ensures r.Some? ==> (r.value - (matchAddr + offset + next) - SignExtend32(ReadU32(m, matchAddr + offset).value)) % U64 == 0
  {
    var at := matchAddr + offset;
    match ReadU32(m, at)
    case None => None
    case Some(d) => Some((at + SignExtend32(d) + next) % U64)
  }

  /** The two readings agree exactly when the displacement is below 2^31 (no overflow assumed). */
  lemma AsWrittenAgreesIffForward(m: Memory, matchAddr: nat, offset: nat, next: nat)
    requires ReadU32(m, matchAddr + offset).Some?
    requires matchAddr + offset + ReadU32(m, matchAddr + offset).value + next < U64
    ensures RelativeTargetAsWritten(m, matchAddr, offset, next) == RelativeTarget(m, matchAddr, offset, next)
            <==> ReadU32(m, matchAddr + offset).value < I32Limit
  {
    var d := ReadU32(m, matchAddr + offset).value;
    var x := matchAddr + offset + d + next;
    if d >= I32Limit {
      var y := x - U32;
      assert (matchAddr + offset + SignExtend32(d) + next) == y;
      if y >= 0 {
        assert y % U64 == y;
      } else {
        assert y % U64 == y + U64;
      }
    }
  }

  /**
   * A global 16 bytes before the displacement field (displacement 0xFFFFFFF0): the unsigned
   * reading lands four gigabytes past the instruction instead.
   */
  lemma BackwardDisplacementMisread()
    ensures RelativeTargetAsWritten(Memory(map[0x1003 := 0xFFFF_FFF0], map[]), 0x1000, 3, 4) == Some(0x1_0000_0FF7)
    ensures RelativeTarget(Memory(map[0x1003 := 0xFFFF_FFF0], map[]), 0x1000, 3, 4) == Some(0xFF7)
  {
    var m := Memory(map[0x1003 := 0xFFFF_FFF0], map[]);
    assert ReadU32(m, 0x1003) == Some(0xFFFF_FFF0);
  }

  /**
   * The helpers crate's `scan_rel`: the module must be loaded, the signature must match in it,
   * and the displacement must be readable; otherwise the corresponding error.
   */
  function ScanRel(p: Process, moduleName: string, signature: string, offset: nat, next: nat): (r: Result<nat>)
    ensures moduleName !in p.modules ==> r == Err(ModuleNotFound(moduleName))
    ensures moduleName in p.modules && FirstMatch(p.modules[moduleName], signature).None? ==> r == Err(SignatureNotFound)
    ensures r.Ok? <==> moduleName in p.modules && signature in p.modules[moduleName].firstMatch
                       && ReadU32(p.memory, p.modules[moduleName].firstMatch[signature] + offset).Some?
    ensures r.Ok? ==> Some(r.value) == RelativeTargetAsWritten(p.memory, p.modules[moduleName].firstMatch[signature], offset, next)
    ensures !r.Ok? ==> r.Err?
  {
    if moduleName !in p.modules then Err(ModuleNotFound(moduleName))
    else ScanIn(p.memory, p.modules[moduleName], signature, offset, next)
  }

  /** idTech's `scan`: `scan_rel` on an already known module range. */
  function ScanIn(m: Memory, mod: ModuleInfo, signature: string, offset: nat, next: nat): (r: Result<nat>)
    ensures FirstMatch(mod, signature).None? ==> r == Err(SignatureNotFound)
    ensures FirstMatch(mod, signature).Some? ==>
              r == OkOr(RelativeTargetAsWritten(m, FirstMatch(mod, signature).value, offset, next), ReadFailed)
  {
    match FirstMatch(mod, signature)
    case None => Err(SignatureNotFound)
    case Some(at) => OkOr(RelativeTargetAsWritten(m, at, offset, next), ReadFailed)
  }

  /** ZDoom's `scan_rel`: like `ScanIn`, but a signature without a match is a panic. */
  function ScanRelOrPanic(m: Memory, mod: ModuleInfo, signature: string, offset: nat, next: nat): (r: Result<nat>)
    ensures r.Panic? <==> signature !in mod.firstMatch
    ensures signature in mod.firstMatch ==> r == ScanIn(m, mod, signature, offset, next)
  {
    if signature !in mod.firstMatch then Panic("failed to get address for " + signature)
    else ScanIn(m, mod, signature, offset, next)
  }

  /** One entry of a list of alternative signatures for the same global. */
  datatype ScanSpec = ScanSpec(signature: string, offset: nat, next: nat)

  /** The address the first spec that resolves gives, if any. */
  function FirstFound(m: Memory, mod: ModuleInfo, specs: seq<ScanSpec>): (r: Option<nat>)
    decreases |specs|
  {
    if |specs| == 0 then None
    else match ScanIn(m, mod, specs[0].signature, specs[0].offset, specs[0].next)
      case Ok(a) => Some(a)
      case _ => FirstFound(m, mod, specs[1..])
  }

  /** `FirstFound` is the result of the first spec that resolves, and none resolves when it is empty. */
  lemma {:induction false} FirstFoundIsFirst(m: Memory, mod: ModuleInfo, specs: seq<ScanSpec>)
    ensures FirstFound(m, mod, specs).None? <==>
              forall i :: 0 <= i < |specs| ==> !ScanIn(m, mod, specs[i].signature, specs[i].offset, specs[i].next).Ok?
    ensures FirstFound(m, mod, specs).Some? ==>
              exists i :: 0 <= i < |specs| && ScanIn(m, mod, specs[i].signature, specs[i].offset, specs[i].next) == Ok(FirstFound(m, mod, specs).value)
                && forall j :: 0 <= j < i ==> !ScanIn(m, mod, specs[j].signature, specs[j].offset, specs[j].next).Ok?
    decreases |specs|
  {
    if |specs| > 0 {
      FirstFoundIsFirst(m, mod, specs[1..]);
      var s := specs[0];
      if !ScanIn(m, mod, s.signature, s.offset, s.next).Ok? {
        if FirstFound(m, mod, specs).Some? {
          var i :| 0 <= i < |specs[1..]| && ScanIn(m, mod, specs[1..][i].signature, specs[1..][i].offset, specs[1..][i].next) == Ok(FirstFound(m, mod, specs).value)
                   && forall j :: 0 <= j < i ==> !ScanIn(m, mod, specs[1..][j].signature, specs[1..][j].offset, specs[1..][j].next).Ok?;
          assert specs[i + 1] == specs[1..][i];
          forall j | 0 <= j < i + 1
            ensures !ScanIn(m, mod, specs[j].signature, specs[j].offset, specs[j].next).Ok?
          {
            if j > 0 { assert specs[j] == specs[1..][j - 1]; }
          }
        } else {
          forall i | 0 <= i < |specs|
            ensures !ScanIn(m, mod, specs[i].signature, specs[i].offset, specs[i].next).Ok?
          {
            if i > 0 { assert specs[i] == specs[1..][i - 1]; }
          }
        }
      }
    }
  }

  /** idTech's `find_addr_or_panic`: tries each signature in turn; none resolving is a panic. */
  method FindAddrOrPanic(name: string, m: Memory, mod: ModuleInfo, specs: seq<ScanSpec>) returns (r: Result<nat>)
    ensures FirstFound(m, mod, specs).Some? ==> r == Ok(FirstFound(m, mod, specs).value)
    ensures FirstFound(m, mod, specs).None? ==> r == Panic("unable to find addr for " + name)
  {
    var i := 0;
    while i < |specs|
      invariant 0 <= i <= |specs|
      invariant FirstFound(m, mod, specs) == FirstFound(m, mod, specs[i..])
    {
      var s := specs[i];
      var found := ScanIn(m, mod, s.signature, s.offset, s.next);
      if found.Ok? {
        return Ok(found.value);
      }
      assert specs[i..][1..] == specs[i + 1..];
      i := i + 1;
    }
    r := Panic("unable to find addr for " + name);
  }
}
