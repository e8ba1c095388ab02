# livesplit-zdoom auto splitters in Dafny

This project models the logic of a family of LiveSplit auto splitters written
in Rust. The splitters read another game process's memory, follow pointer
paths into its engine data structures, and then start, split or pause the
run timer from what they read. The model covers:

- the shared `helpers` crate: pointer paths and memory watchers,
  signature-relative address scans, setting look-ups and the
  "split at most once" bookkeeping, and the settings tree;
- the `zdoom` crate: the engine's dynamic arrays (`TArray`), name table,
  reflected classes, fields and types (`PClass`, `PField`, `PType`), the
  current level and its actor search, the player, the per-version layout
  found by signature scans, and the `try_load` retry loop;
- the `idtech` crate: the typeinfo scan, the typeinfo projects, and the
  class/variable tables walked up to a null sentinel;
- the game splitters: Doom: The Dark Ages (velocity watcher paths),
  Kuru Kuru Kururin (a GBA game read through an emulator), Selaco,
  Dismantled and Snap the Sentinel;
- the legacy top-level `src/` revision of the ZDoom reader.

Target memory is a value, `Remote.Memory`. It maps addresses to machine
words and addresses to C strings, which hold either valid UTF-8 text or
invalid bytes. A pointer path is evaluated the way the host library does it:
every offset but the last is added and then dereferenced, and the last one
is only added (`Remote.Target`). A process is that memory plus its modules,
each with a base, a size and the first match of each byte signature. The
signature matcher itself is not visible, so it is an input.

Errors follow the Rust code. `Outcome.Result` has `Ok`, `Err` and `Panic`
cases, and a `Panic` stands where the source panics on memory it reads
(invalid UTF-8, `unwrap`/`expect` of a missing class or signature).

Rust structures whose methods change their own fields are Dafny classes:

- `MemoryWatcher`;
- the `OnceCell` caches of `PClass`, `PField`, `PType`, `Level`, `Player`,
  `ZDoom`, `ClassTypeInfo`, `ClassVariableInfo` and `TypeInfoTools`;
- the `TArray` iterator;
- the Kururin watchers.

Each method that fills or clears a cache is proved against a view function
of the old state: what the first call reads, what later calls return, and
what `invalidate` leaves behind.

`&mut` collections that free functions update (`completed_splits`, the
defaults map, the objective status map) are passed in and returned. Each
splitter's per-tick decision is a function of the previous and current
snapshots, and a method computes it.

The legacy revision shares the ZDoom data model. Its `TArray`
(src/zdoom.rs:17-72) behaves like zdoom/src/tarray.rs and is modelled by
`ZDoomArray`. Its readers in src/zdoom/pclass.rs repeat those of
src/zdoom.rs, and `Legacy` models both.

## Model

| member | source | states |
|---|---|---|
| Remote.ReadPath | helpers/src/pointer.rs:21-29 | A path read succeeds iff the path is non-empty, every intermediate pointer is readable and the target decodes; the value is the decoded target, and every failure is `ReadFailed` |
| Remote.TargetSplice | helpers/src/pointer.rs:94-116 | Folding a child's first offset into the parent's last offset and appending the rest reaches the same address as resolving the parent and then the child path from there |
| Remote.TargetSingle | helpers/src/pointer.rs:21-29 | A one-offset path is the base plus the offset, with no read |
| Remote.TargetOfTwo | helpers/src/pointer.rs:21-29 | A two-offset path dereferences `base+a` once and adds `b` |
| Remote.TargetOfThree | helpers/src/pointer.rs:21-29 | A three-offset path dereferences twice and adds the last offset |
| Pointer.ChildPath | helpers/src/pointer.rs:94-116 | `child` drops the name and keeps reader, base and size; the new path is the parent's offsets with the last one increased by the child's first, followed by the child's other offsets; an empty parent path counts as `[0]` |
| Pointer.Effective | helpers/src/pointer.rs:125-130 | The path actually read is never empty: an empty offset list reads at offset 0 |
| Pointer.Truncate32 | helpers/src/pointer.rs:34-44 | The emulator backend receives every offset reduced modulo 2^32, in the same order |
| Pointer.ReadAtAddress | helpers/src/pointer.rs:125-141 | Reading a path is resolving its address and decoding there; an unresolvable address is `ReadFailed` |
| Pointer.EmptyPathReadsBase | helpers/src/pointer.rs:125-141 | A path with no offsets reads the value at its base address |
| Pointer.NamedReadsSame | helpers/src/pointer.rs:84-92 | Naming a path does not change what it reads |
| Pointer.ChildReadsFromParent | helpers/src/pointer.rs:94-116 | A child path reads what the child offsets read starting from the parent's resolved address |
| Pointer.EmulatorReadsAs32 | helpers/src/pointer.rs:32-45 | With 32-bit base and offsets, the emulator reader reads exactly what a 32-bit process reader reads |
| Pointer.EmulatorChildReadsFromParent | helpers/src/pointer.rs:32-45 | The child-read property also holds through the emulator reader |
| Pointer.MemoryWatcher.constructor | helpers/src/pointer.rs:156-163 | A new watcher has its path, no cached current value, no old value and no default |
| Pointer.MemoryWatcher.FromPath | helpers/src/pointer.rs:226-231 | Converting a path to a watcher keeps its reader, base and offsets |
| Pointer.MemoryWatcher.Value | helpers/src/pointer.rs:174-188 | The current value is the cached one if present, otherwise the memory read; on a failed read the default is returned when there is one |
| Pointer.MemoryWatcher.Current | helpers/src/pointer.rs:174-188 | `current` returns `Value` and caches it only when it is `Ok` |
| Pointer.MemoryWatcher.Change | helpers/src/pointer.rs:199-205 | With no old value the watcher reports a change; otherwise the result is whether old differs from current, and it fails exactly when the current value does |
| Pointer.MemoryWatcher.Changed | helpers/src/pointer.rs:199-205 | `changed` returns `Change` and touches the cache only when an old value exists |
| Pointer.MemoryWatcher.DefaultGiven | helpers/src/pointer.rs:165-172 | Installing a default records it as the fallback |
| Pointer.MemoryWatcher.Invalidate | helpers/src/pointer.rs:219-224 | `invalidate` moves the cached current value into old and empties the cache |
| Pointer.MemoryWatcher.Child | helpers/src/pointer.rs:194-196 | A watcher's child is a fresh watcher on the child path with an empty state |
| Pointer.ChangesOverTicks | helpers/src/pointer.rs:174-224 | Over a sequence of readable ticks with invalidate between them, `changed` is true on the first tick and afterwards exactly when consecutive reads differ |
| Pointer.ChangedOnlyTicks | helpers/src/pointer.rs:199-205 | Calling `changed` without ever calling `current` reports a change on every tick, because old is never filled |
| Scan.FirstMatch | helpers/src/memory.rs:17-22 | A signature scan finds an address iff the module contains the signature |
| Scan.RelativeTargetAsWritten | helpers/src/memory.rs:25-29 | The as-written scan succeeds iff the displacement word is readable and always lands at or after the end of the instruction |
| Scan.SignExtend32 | helpers/src/memory.rs:27 | Sign extension gives a value in the signed 32-bit range that is congruent to the raw displacement modulo 2^32 |
| Scan.RelativeTarget | helpers/src/memory.rs:25-29 | The corrected scan succeeds iff the displacement is readable, and its target is the instruction end plus the signed displacement, modulo 2^64 |
| Scan.AsWrittenAgreesIffForward | helpers/src/memory.rs:25-29 | The as-written and the corrected targets agree exactly when the displacement is non-negative as a signed 32-bit value |
| Scan.BackwardDisplacementMisread | helpers/src/memory.rs:25-29 | The concrete backward displacement 0xFFFF_FFF0 lands 4 GiB beyond the intended target |
| Scan.ScanRel | helpers/src/memory.rs:6-30 | `scan_rel` fails with a missing module or missing signature, succeeds iff the displacement word after the first match is readable, and then yields the as-written (zero-extended) relative target of that match |
| Scan.ScanIn | idtech/src/lib.rs:103-120 | The idTech scan is the as-written (zero-extended) relative target of the signature's first match, `ReadFailed` when the displacement is unreadable, or `SignatureNotFound` |
| Scan.ScanRelOrPanic | zdoom/src/lib.rs:353-366 | The ZDoom scan panics exactly when the signature is absent and otherwise is the idTech-style scan, with the same zero-extended displacement |
| Scan.FirstFoundIsFirst | idtech/src/lib.rs:85-101 | Trying signatures in order finds nothing iff every scan fails, and otherwise returns the first scan that succeeds |
| Scan.FindAddrOrPanic | idtech/src/lib.rs:85-101 | `find_addr_or_panic` returns the first successful scan and panics with the variable's name when none succeeds |
| Splits.GetSetting | helpers/src/lib.rs:55-75 | A stored boolean wins, else the default; a stored non-boolean is `NotBool` and an unknown key is `UnknownSetting` |
| Splits.BetterSplitDecision | helpers/src/lib.rs:77-103 | A completed key never splits; otherwise the decision is the setting, and it errors exactly when the setting look-up does |
| Splits.BetterSplit | helpers/src/lib.rs:77-103 | `better_split` returns the decision and adds the key to the completed set exactly when it splits |
| Splits.SplitDecision | helpers/src/lib.rs:105-141 | `split` fires iff the key is not completed and its stored setting is `true` |
| Splits.Split | helpers/src/lib.rs:105-141 | `split` returns the decision and adds the key to the completed set exactly when it fires |
| Splits.SplitsAtMostOnce | helpers/src/lib.rs:77-141 | After a key is completed neither split function fires for it again |
| Splits.SplitAgreesOnStoredBools | helpers/src/lib.rs:55-141 | For a key stored as a boolean, both split functions agree |
| Splits.ToStates | helpers/src/lib.rs:31-49 | Pairing old and current snapshots succeeds iff every field has both values, and then the two snapshots are the old and the current values field by field |
| Settings.InitialiseSettings | helpers/src/settings.rs:22-32 | A parse failure is an error with no GUI registration; otherwise the defaults map holds exactly the boolean settings of the whole tree, and the GUI calls are those of a depth-first walk |
| Settings.InitialiseSetting | helpers/src/settings.rs:34-76 | One setting adds its own and its children's defaults and emits its GUI calls before its children's |
| Settings.DefaultsOfKeys | helpers/src/settings.rs:60-73 | A subtree adds exactly its boolean keys and keeps every other default unchanged |
| Settings.DefaultsOfAllKeys | helpers/src/settings.rs:27-29 | A list of settings adds exactly their boolean keys and keeps every other default |
| Settings.OptionsOf | helpers/src/settings.rs:34-76 | The flattened option list holds only boolean options |
| Settings.AssignAppend | helpers/src/settings.rs:27-29 | Recording two lists of defaults one after the other is recording their concatenation |
| Settings.DefaultsAreAssigned | helpers/src/settings.rs:60-73 | Declaring a tree records its boolean options' defaults in declaration order |
| Settings.DefaultsAreAssignedAll | helpers/src/settings.rs:27-29 | The same holds for a list of settings |
| Settings.AssignKeeps | helpers/src/settings.rs:60-73 | A key no recorded option declares keeps its value |
| Settings.AssignLastWins | helpers/src/settings.rs:60-73 | The last option declaring a key gives that key its default |
| Settings.DeclaredDefaultWins | helpers/src/settings.rs:22-32 | In the defaults map, each option's key holds the declared default (or `false` when none is declared) of the last option with that key |
| Settings.TitlesAtOrBelow | helpers/src/settings.rs:46 | Titles are never at a lower heading level than their parent's children |
| Settings.TitlesAtOrBelowAll | helpers/src/settings.rs:56-58 | The same holds for a list of settings |
| Text.Decimal | selaco/src/lib.rs:437 | The decimal text of a number is non-empty and made of digits |
| Text.DecimalInjective | selaco/src/lib.rs:437 | Different numbers have different decimal texts |
| Text.Lower | dismantled/src/lib.rs:178 | Lower-casing keeps the length and maps each character on its own |
| Text.LowerConcat | snap_the_sentinel/src/lib.rs:122 | Lower-casing distributes over concatenation |
| Text.LowerIdempotent | dismantled/src/lib.rs:186 | Lower-casing twice is lower-casing once |
| ZDoomArray.ElementAt | zdoom/src/tarray.rs:46-60 | Element `i` is decoded at the data pointer plus `i` times the element size, and is missing when either read fails |
| ZDoomArray.ItemsFromAreElements | zdoom/src/tarray.rs:46-60 | The items an iterator yields are consecutive elements, never more than the count, and stop early only at an unreadable element |
| ZDoomArray.TArrayIterator.constructor | zdoom/src/tarray.rs:21-32 | A new iterator starts at index 0 with the given count |
| ZDoomArray.TArrayIterator.Next | zdoom/src/tarray.rs:46-60 | Below the count, `next` yields the current element and advances; at or past it, it yields nothing and stays put; the remaining items shrink by exactly the item yielded |
| ZDoomArray.IntoIter | zdoom/src/tarray.rs:21-32 | The iterator exists iff the count at +0x8 is readable, and it then yields exactly the array's elements |
| NameTables.NameTableCons | zdoom/src/lib.rs:111-130 | Building the table from a list inserts the first name and continues, or stops with the first name error |
| NameTables.NameTableEntries | zdoom/src/lib.rs:111-130 | The table is built iff every name resolves; its keys are the names, and each entry resolves back to its key |
| NameTables.NameTableKeeps | zdoom/src/lib.rs:111-130 | An existing entry whose name is not repeated is kept |
| NameTables.NameTableLastWins | zdoom/src/lib.rs:111-130 | With duplicate names the last address inserted wins |
| ZDoomNames.GetChars | zdoom/src/name_manager.rs:15-29 | A name resolves to the text at entry `index*0x10`; an unreadable entry is `ReadFailed` and invalid UTF-8 panics |
| ZDoomClasses.TruncationKeepsDefinedBits | zdoom/src/pclass.rs:183-211 | Truncating field flags keeps exactly bits 0-23 and type flags exactly bits 0-8, so `Static` is preserved |
| ZDoomClasses.ClassNameAt | zdoom/src/pclass.rs:53-62 | A class name is the name-table entry of the index at +0x38 |
| ZDoomClasses.FieldNameAt | zdoom/src/pclass.rs:242-248 | A field name is the name-table entry of the index at +0x28 |
| ZDoomClasses.ReadAt | zdoom/src/pclass.rs:250-253 | A plain field read succeeds iff the word is present and fits the field width |
| ZDoomClasses.FieldFlagsAt | zdoom/src/pclass.rs:264-270 | Field flags are the low 24 bits of the word at +0x48 |
| ZDoomClasses.TypeFlagsAt | zdoom/src/pclass.rs:372-378 | Type flags are the low 9 bits of the word at +0x14 |
| ZDoomClasses.TypeNameAt | zdoom/src/pclass.rs:380-395 | A type name is the C string at the descriptive-name pointer; unreadable is `ReadFailed` |
| ZDoomClasses.FieldTableNamesFields | zdoom/src/pclass.rs:72-87 | Every entry of a class's field table is a field whose name is its key |
| ZDoomClasses.FieldCmpIsKeyOrder | zdoom/src/pclass.rs:299-322 | Static fields come before non-static ones, and then fields are ordered by offset; the name is never consulted, and an unreadable flag word or offset counts as 0 |
| ZDoomClasses.FieldCmpIsPreorder | zdoom/src/pclass.rs:299-322 | The field order is antisymmetric and transitive |
| ZDoomClasses.FieldEq | zdoom/src/pclass.rs:273-289 | Two fields are equal iff their names or their flags are equal; unreadable flags make them unequal |
| ZDoomClasses.FieldEqDisagreesWithOrder | zdoom/src/pclass.rs:273-322 | Equality and ordering disagree: a field is unequal to itself when its flags are unreadable, and two fields equal by name compare as `Less` |
| ZDoomClasses.PType.constructor | zdoom/src/pclass.rs:351-360 | A new type handle has empty caches |
| ZDoomClasses.PType.Size | zdoom/src/pclass.rs:362-365 | The size is read once at +0x0C and then returned from the cache |
| ZDoomClasses.PType.Align | zdoom/src/pclass.rs:367-370 | The alignment is read once at +0x10 and then returned from the cache |
| ZDoomClasses.PType.Flags | zdoom/src/pclass.rs:372-378 | The flags are read once and truncated, then cached |
| ZDoomClasses.PType.Name | zdoom/src/pclass.rs:380-395 | The name is read once, then cached |
| ZDoomClasses.PField.constructor | zdoom/src/pclass.rs:226-240 | A new field handle has empty caches |
| ZDoomClasses.PField.Name | zdoom/src/pclass.rs:242-248 | The field name is its view's name and is cached once read; caching leaves the view unchanged |
| ZDoomClasses.PField.Offset | zdoom/src/pclass.rs:250-253 | The field offset is read at +0x38 and cached; caching leaves the view unchanged |
| ZDoomClasses.PField.PTypeOf | zdoom/src/pclass.rs:255-262 | The field type is a fresh handle at the pointer read at +0x40, cached |
| ZDoomClasses.PField.Flags | zdoom/src/pclass.rs:264-270 | The field flags are read at +0x48, truncated and cached; caching leaves the view unchanged |
| ZDoomClasses.PField.Compare | zdoom/src/pclass.rs:299-322 | Comparing two fields is the field order on their views, and memoising leaves both views unchanged, so comparing again gives the same answer |
| ZDoomClasses.PField.Equals | zdoom/src/pclass.rs:273-289 | Testing two fields is the field equality on their views, and memoising leaves both views unchanged |
| ZDoomClasses.ReadFieldTable | zdoom/src/pclass.rs:72-87 | The loop builds the field table, or fails as it does, and every entry is a fresh field handle with its name already cached |
| ZDoomClasses.PClass.constructor | zdoom/src/pclass.rs:35-51 | A new class handle has empty caches |
| ZDoomClasses.PClass.Name | zdoom/src/pclass.rs:53-62 | The class name is read once and cached |
| ZDoomClasses.PClass.PTypeOf | zdoom/src/pclass.rs:64-70 | The class type is a fresh handle at the pointer read at +0x90, cached |
| ZDoomClasses.PClass.Fields | zdoom/src/pclass.rs:72-87 | The field table is built once from the array at the fields offset and cached, with the same failures as the table function; caching leaves the field-table view unchanged |
| ZDoomClasses.PClass.Clone | zdoom/src/pclass.rs:22-23 | A clone has the same address, name table and cached values |
| ZDoomClasses.ParentClass | zdoom/src/pclass.rs:142-146 | The parent is the class at the pointer at +0x0, and there is none when it is null |
| ZDoomLayout.OffsetsFor | zdoom/src/lib.rs:300-323 | Each engine version has its fixed field offsets |
| ZDoomLayout.GzdoomBuildsShareSectorLayout | zdoom/src/lib.rs:309-320 | The two GZDoom builds share sector offsets but differ in the class-fields and map-name offsets |
| ZDoomLayout.LzdoomLayout | zdoom/src/lib.rs:224-245 | The LZDoom layout succeeds iff all five signatures match and their displacements are readable, and then holds the zero-extended scanned addresses and the LZDoom offsets; in source order, the first missing signature panics and the first unreadable displacement is `ReadFailed` |
| ZDoomLayout.GzdoomLayout | zdoom/src/lib.rs:246-288 | The GZDoom layout succeeds iff every signature matches and every displacement, the level pointer and the player offset are readable; it dereferences the level pointer, takes `players` relative to the module base, and, in source order, panics at the first missing signature |
| ZDoomLayout.MemoryNew | zdoom/src/lib.rs:214-290 | `Memory::new` fails for a missing module and otherwise is the as-written layout of the version |
| ZDoomLevel.LevelNameAt | zdoom/src/level.rs:33-52 | The level name is the C string at the map-name pointer; invalid UTF-8 panics |
| ZDoomLevel.SectorAddresses | zdoom/src/level.rs:55-57 | The sectors are `count` consecutive records of the sector size |
| ZDoomLevel.WalkSectorFindsNamed | zdoom/src/level.rs:58-77 | An actor found in a sector's thing list is non-null and its class has the searched name |
| ZDoomLevel.SearchSectorsFindsNamed | zdoom/src/level.rs:54-82 | An actor found over all sectors is non-null and of the searched class |
| ZDoomLevel.FindActorFindsNamed | zdoom/src/level.rs:54-82 | `find_actor`'s result is non-null and of the searched class |
| ZDoomLevel.WalkSectorIsFirstMatch | zdoom/src/level.rs:58-78 | A sector walk returns the first actor on the `snext` list whose class is the target, every earlier actor having a readable class of another name; it finds nothing exactly when the whole list was walked and holds no actor of that class |
| ZDoomLevel.SearchSectorsStep | zdoom/src/level.rs:57-79 | The search stops at the first sector whose walk finds an actor or fails, and otherwise goes on to the next sector |
| ZDoomLevel.SearchSectorsIsFirstMatch | zdoom/src/level.rs:57-79 | The sector search returns the walk of the first sector that finds an actor, every earlier sector finding none; it finds nothing exactly when no sector's walk finds an actor |
| ZDoomLevel.WalkSectorErrors | zdoom/src/level.rs:59-77 | A walk fails only with a read error or the walk bound |
| ZDoomLevel.WalkErrorsAreNotNotFound | zdoom/src/level.rs:57-79 | The search never fails with `NotFound` |
| ZDoomLevel.FindActorIsFirstMatch | zdoom/src/level.rs:54-82 | `find_actor` is `NotFound` exactly when the sectors read and no sector's list holds an actor of the class; a found actor is the first of its class, in sector order and then in list order |
| ZDoomLevel.WalkSectorFuelMonotone | zdoom/src/level.rs:58-77 | A walk that finishes within a bound gives the same result with any larger bound |
| ZDoomLevel.SearchSectorsFuelMonotone | zdoom/src/level.rs:58-77 | The same holds for the search over all sectors |
| ZDoomLevel.Level.constructor | zdoom/src/level.rs:19-27 | A new level handle has no cached name |
| ZDoomLevel.Level.InvalidateCache | zdoom/src/level.rs:29-31 | `invalidate_cache` clears the cached name |
| ZDoomLevel.Level.Name | zdoom/src/level.rs:33-52 | The name is read once and returned from the cache afterwards; a failed read leaves the cache empty |
| ZDoomLevel.Level.FindActor | zdoom/src/level.rs:54-82 | The nested sector and thing-list loops compute the actor search |
| ZDoomLevel.Level.SearchActors | zdoom/src/level.rs:58-77 | The outer loop over sectors computes the search over all sectors |
| ZDoomLevel.Level.WalkActors | zdoom/src/level.rs:60-76 | The inner loop follows `snext` links until null or a match |
| ZDoomPlayer.StateCodeRoundTrip | zdoom/src/player.rs:28-38 | Player-state codes and states are inverse on codes 0-4 |
| ZDoomPlayer.ReadVector | zdoom/src/player.rs:18-26 | A vector is the three words at +0, +8 and +0x10, and fails if any is unreadable |
| ZDoomPlayer.StateAt | zdoom/src/player.rs:72-78 | The player state is the code at its offset, and fails for an unreadable or unknown code |
| ZDoomPlayer.PosFrom | zdoom/src/player.rs:91-96 | The position is the vector at the player's actor plus the `pos` field offset |
| ZDoomPlayer.PosWithTable | zdoom/src/player.rs:85-96 | A missing `pos` field is `NotFound`; a failed field table fails the same way |
| ZDoomPlayer.Player.constructor | zdoom/src/player.rs:51-65 | A new player handle has empty caches |
| ZDoomPlayer.Player.InvalidateCache | zdoom/src/player.rs:67-70 | `invalidate_cache` clears both caches |
| ZDoomPlayer.Player.State | zdoom/src/player.rs:72-78 | The state is read once and cached |
| ZDoomPlayer.Player.Pos | zdoom/src/player.rs:80-100 | The position is the position view, cached when read; afterwards the position view, the actor class's field-table view and every earlier field's view are unchanged |
| ZDoom.GameActionCodeRoundTrip | zdoom/src/lib.rs:325-351 | Game-action codes and actions are inverse on codes 0-21 |
| ZDoom.GameActionAt | zdoom/src/lib.rs:187-191 | The game action is the code at its address, and fails for an unreadable or unknown code |
| ZDoom.ClassTableNamesClasses | zdoom/src/lib.rs:111-130 | Every entry of the class table is a class whose name is its key |
| ZDoom.ReadClassTable | zdoom/src/lib.rs:111-130 | The loop builds the class table, or fails as it does, and every entry is a fresh class handle with its name cached |
| ZDoom.ZDoom.constructor | zdoom/src/lib.rs:67-80 | A new handle has its layout, a fresh level handle and empty caches |
| ZDoom.ZDoom.Classes | zdoom/src/lib.rs:111-130 | The class table is built once and cached, and caching leaves the class-table view unchanged |
| ZDoom.ZDoom.FindClass | zdoom/src/lib.rs:140-142 | `find_class` finds a class iff the table has the name, and it is that entry; a cached table stays cached and the class-table view is unchanged |
| ZDoom.ZDoom.InvalidateCache | zdoom/src/lib.rs:132-138 | `invalidate_cache` clears the level name, the player and the game action |
| ZDoom.ZDoom.Gameaction | zdoom/src/lib.rs:187-191 | The game action is read once and cached |
| ZDoom.ZDoom.PlayerOf | zdoom/src/lib.rs:168-185 | The player exists iff the class table loads and has `Actor`, and it panics when `Actor` is missing; a cached table stays cached and the class-table view is unchanged |
| ZDoom.FirstDecisiveIsFirst | zdoom/src/lib.rs:54-108 | The retry loop's result is the first attempt that does not fail, and only all attempts failing means none |
| ZDoom.LoadedTableHasActor | zdoom/src/lib.rs:91-96 | A successful load has a class table containing `Actor` named `Actor` |
| ZDoom.TryLoad | zdoom/src/lib.rs:54-108 | One attempt succeeds iff the layout, the class table with `Actor` and the game's load function all succeed; the handle then has its classes cached |
| ZDoom.WaitTryLoad | zdoom/src/lib.rs:34-109 | Retrying over snapshots returns the first successful attempt |
| IdTech.TypeinfoIsScanned | idtech/src/lib.rs:138-148 | The typeinfo address exists iff the signature matches and its displacement is readable, and is then the zero-extended relative target with offset 0x12 and a 4-byte tail; otherwise a panic naming `typeinfo` |
| IdTech.MemoryNew | idtech/src/lib.rs:129-155 | `Memory::new` yields the typeinfo address, as the source's zero-extending scan finds it |
| IdTech.TypeinfoInstance | idtech/src/lib.rs:25-36 | The typeinfo instance is the non-null pointer at the typeinfo address, and a null pointer is an error |
| IdTech.IdTech.constructor | idtech/src/lib.rs:40-46 | The handle keeps the address, the typeinfo tools and the class directory |
| IdTech.IdTech.GetClass | idtech/src/lib.rs:49-68 | A class is found iff its project and class exist, with a distinct error for each missing level |
| IdTech.IdTech.GetOffsetIn | idtech/src/typeinfo/class.rs:89-91 | Asking a class for an offset returns its offset view and changes no offset view |
| IdTech.TryLoad | idtech/src/lib.rs:18-47 | Loading succeeds iff the typeinfo instance is found, and the typeinfo tools start with no projects |
| IdTypeInfo.ProjectNameAt | idtech/src/typeinfo/mod.rs:74-91 | A project name is its C string, and invalid UTF-8 panics |
| IdTypeInfo.TypeInfoProject.constructor | idtech/src/typeinfo/mod.rs:64-72 | A new project has no cached name |
| IdTypeInfo.TypeInfoProject.Name | idtech/src/typeinfo/mod.rs:74-91 | The project name is read once and cached |
| IdTypeInfo.TypeInfoTools.constructor | idtech/src/typeinfo/mod.rs:28-35 | New tools have no project list |
| IdTypeInfo.TypeInfoTools.Projects | idtech/src/typeinfo/mod.rs:37-51 | The project list has the fixed count of projects, at consecutive fixed-size records, and is built once |
| IdTypeInfo.InfoNameAt | idtech/src/typeinfo/class.rs:29-37 | A class or variable name is its C string; invalid UTF-8 is `NotUtf8` |
| IdTypeInfo.Entries | idtech/src/typeinfo/class.rs:57-58 | The variable entries are consecutive records from the table start |
| IdTypeInfo.VariableWalkIsNameTable | idtech/src/typeinfo/class.rs:57-71 | Walking variables up to the null sentinel builds the name table of the entries before it |
| IdTypeInfo.VariableWalkFuelMonotone | idtech/src/typeinfo/class.rs:57 | A walk that finishes within a bound gives the same result with any larger bound |
| IdTypeInfo.VariableOffsetAt | idtech/src/typeinfo/class.rs:127-138 | A variable offset is the 32-bit word at its offset field |
| IdTypeInfo.ClassVariableInfo.constructor | idtech/src/typeinfo/class.rs:118-124 | A new variable handle has no cached offset |
| IdTypeInfo.ClassVariableInfo.GetOffset | idtech/src/typeinfo/class.rs:127-138 | The offset is read once and cached, and the view is unchanged |
| IdTypeInfo.InitVariable | idtech/src/typeinfo/class.rs:104-125 | A variable handle exists iff its name reads, and carries that name |
| IdTypeInfo.ReadVariables | idtech/src/typeinfo/class.rs:49-75 | The loop builds the variable table, or fails as it does, with fresh handles named by their keys |
| IdTypeInfo.ClassTypeInfo.constructor | idtech/src/typeinfo/class.rs:39-46 | A new class handle has no variable table |
| IdTypeInfo.ClassTypeInfo.GetVariables | idtech/src/typeinfo/class.rs:49-75 | The variable table is built once and cached |
| IdTypeInfo.ClassTypeInfo.GetVariable | idtech/src/typeinfo/class.rs:77-87 | A variable is found iff the table has it, and an unknown one is an error naming it and the class |
| IdTypeInfo.ClassTypeInfo.GetOffset | idtech/src/typeinfo/class.rs:89-91 | Asking for an offset returns the offset view, fits 32 bits, and leaves every offset view unchanged |
| IdTypeInfo.InitClass | idtech/src/typeinfo/class.rs:25-47 | A class handle exists iff its name reads, and carries that name |
| DarkAges.IdVec3.constructor | doom_the_dark_ages/src/physics.rs:18-22 | A vector handle keeps its three watchers |
| DarkAges.IdVec3.Invalidate | doom_the_dark_ages/src/physics.rs:26-32 | Invalidating a vector invalidates each of its three watchers |
| DarkAges.ReadVec3Paths | doom_the_dark_ages/src/physics.rs:17-21 | The component paths are the vector's path extended by the offsets of `x`, `y` and `z` |
| DarkAges.InitVec3 | doom_the_dark_ages/src/physics.rs:13-24 | A vector exists iff all three offsets are found, with three distinct fresh watchers on those paths |
| DarkAges.IdPlayer.constructor | doom_the_dark_ages/src/player.rs:20-29 | A player handle keeps its velocity |
| DarkAges.IdPlayer.Invalidate | doom_the_dark_ages/src/player.rs:33-37 | Invalidating the player invalidates its velocity watchers |
| DarkAges.VelocityChild | doom_the_dark_ages/src/player.rs:23-27 | The velocity path ends at the current-state offset plus the velocity offset |
| DarkAges.VelocityPathFrom | doom_the_dark_ages/src/player.rs:16-27 | The velocity path derived from the three classes stays extensible |
| DarkAges.ReadVelocityPath | doom_the_dark_ages/src/player.rs:16-27 | Reading the velocity path returns the path function and leaves every offset view unchanged |
| DarkAges.ReadVelocityPathFrom | doom_the_dark_ages/src/player.rs:16-27 | The same for given classes |
| DarkAges.InitPlayer | doom_the_dark_ages/src/player.rs:12-30 | A player exists iff its velocity path and vector exist, and fails as they do |
| Kururin.JustEnabled | kuru-kuru-kururin/src/lib.rs:81-96 | With no old value the result is false; a current read error is passed on; otherwise it is true iff the flag is off in old and on in current |
| Kururin.JustEnabledIsAnEdge | kuru-kuru-kururin/src/lib.rs:81-96 | A rising edge cannot repeat on the next tick |
| Kururin.EdgesAreSeparated | kuru-kuru-kururin/src/lib.rs:81-96 | Between two rising edges the flag is off at least once |
| Kururin.FlagJustEnabled | kuru-kuru-kururin/src/lib.rs:81-96 | `flag_just_enabled` on a watcher is the edge function of its old and current values |
| Kururin.LevelKeyInjective | kuru-kuru-kururin/src/lib.rs:151-155 | Different world/sub-level pairs have different split keys |
| Kururin.SampleOf | kuru-kuru-kururin/src/lib.rs:123-131 | A tick's sample exists iff all four reads succeed, and the first failure is passed on |
| Kururin.AttachWatchers.ReadSample | kuru-kuru-kururin/src/lib.rs:123-131 | Reading the sample caches the four values |
| Kururin.TickSplitsOnFinishEdge | kuru-kuru-kururin/src/lib.rs:149-157 | The completed set only grows, and a split happens exactly when it grows, which is exactly on a `HasFinished` rising edge and adds that level's key |
| Kururin.TickStartsOnStartEdge | kuru-kuru-kururin/src/lib.rs:133-138 | The timer starts iff IL mode is on and `HasStarted` rises |
| Kururin.TickSplitsLevelOnce | kuru-kuru-kururin/src/lib.rs:150-157 | A completed level never splits again |
| Kururin.AttachWatchers.constructor | kuru-kuru-kururin/src/lib.rs:112-119 | The watchers are world [0x0], sub-level [0x1], time [0x18, 0xB8] and flags [0x18, 0xBC] off the state block |
| Kururin.AttachWatchers.Tick | kuru-kuru-kururin/src/lib.rs:123-163 | A tick computes the decision on its sample, then moves the values into old |
| Kururin.Decide | kuru-kuru-kururin/src/lib.rs:133-157 | The decision on a read sample is the tick function |
| Kururin.TimeAndFlagsAdjacent | kuru-kuru-kururin/src/lib.rs:116-119 | Time and flags resolve together, and flags sit 4 bytes after time |
| KururinMemory.GameStateRoundTrip | kuru-kuru-kururin/src/memory.rs:29-54 | Game-state codes and states are inverse on codes 0-3 |
| KururinMemory.WatchWithDefault | kuru-kuru-kururin/src/memory.rs:95-104 | A watcher with a default is a fresh watcher on the path with that fallback |
| KururinMemory.LevelWatchers | kuru-kuru-kururin/src/memory.rs:69-83 | The level watchers are fresh and distinct, at their fixed state-block paths |
| KururinMemory.MenuWatchers | kuru-kuru-kururin/src/memory.rs:85-93 | The menu watchers read their fixed bytes directly and default to `None` and 0 |
| KururinMemory.Watchers.Init | kuru-kuru-kururin/src/memory.rs:68-105 | `init` builds all eight watchers, distinct, on their paths with their defaults |
| KururinMemory.Watchers.Invalidate | kuru-kuru-kururin/src/memory.rs:107-114 | `invalidate` advances six watchers and leaves state and substate untouched |
| KururinMemory.Watchers.InvalidateAll | kuru-kuru-kururin/src/memory.rs:107-114 | The corrected `invalidate` advances all eight watchers |
| KururinMemory.StaleStateAcrossTicks | kuru-kuru-kururin/src/memory.rs:107-114 | With the source's `invalidate`, the state read on the second tick is still the first tick's |
| KururinMemory.FreshStateAcrossTicks | kuru-kuru-kururin/src/memory.rs:107-114 | With every watcher invalidated, the second tick reads the new state |
| Selaco.TransitionStarts | selaco/src/lib.rs:221-232 | A transition starts only on `Completed` or `WorldDone` |
| Selaco.TransitionEnds | selaco/src/lib.rs:245-264 | A transition ends only on `Nothing`, and only after world-done or its autosave |
| Selaco.WorldDoneIsReached | selaco/src/lib.rs:221-264 | `WorldDone` moves every state before world-done into world-done |
| Selaco.LoadingNeedsNothingToEnd | selaco/src/lib.rs:221-264 | A started transition never ends without a `Nothing` |
| Selaco.WorldDoneThenNothingEnds | selaco/src/lib.rs:221-264 | `WorldDone` followed by `Nothing` always ends a transition |
| Selaco.ObjectiveKeyInjective | selaco/src/lib.rs:437 | Different objective tags have different keys |
| Selaco.InsertAllConcat | selaco/src/lib.rs:435-440 | Inserting two lists is inserting one after the other |
| Selaco.InsertAllLastWins | selaco/src/lib.rs:435-440 | For a repeated tag the status of the last entry wins |
| Selaco.InsertAllKeeps | selaco/src/lib.rs:435-440 | An existing key not among the entries keeps its status |
| Selaco.InsertAllKeys | selaco/src/lib.rs:435-440 | The keys are the old keys plus the entries' keys |
| Selaco.AddObjectiveStatuses | selaco/src/lib.rs:435-440 | The recursive insert adds the objectives in pre-order, parent before children |
| Selaco.StatusMap | selaco/src/lib.rs:395-397 | The status map is the objectives followed by the history |
| Selaco.ToStates | selaco/src/lib.rs:408-432 | Pairing succeeds iff every watched value has old and current, and then the two snapshots hold them |
| Selaco.ObjectiveSplits | selaco/src/lib.rs:289-301 | The loop splits exactly the keys whose status just became non-zero and whose setting is on, and marks them completed |
| Selaco.Tick | selaco/src/lib.rs:221-301 | The tick method computes the tick function |
| Selaco.TickStartsOnNewGame | selaco/src/lib.rs:266-276 | The timer starts iff it is not running and a new game on `SE_01a` has just begun |
| Selaco.TickPausesWhileLoading | selaco/src/lib.rs:278-286 | While running, game time pauses iff a transition is under way or the player is entering; while stopped, the completed set is reset to this tick's splits |
| Selaco.TickSplitsCompletedObjectives | selaco/src/lib.rs:289-301 | Each split key is an objective that just completed, was not completed before, and is completed afterwards |
| Dismantled.LevelAndItemKeysDiffer | dismantled/src/lib.rs:178-186 | Level keys and item keys never collide |
| Dismantled.KeysMatchSettings | dismantled/src/lib.rs:178-186 | The keys for `MAP02` and `KeyBasement3` are the settings' own keys |
| Dismantled.InventoryNamesOf | dismantled/src/lib.rs:229-243 | The inventory set is the set of item class names, and the first name failure is passed on |
| Dismantled.InventoryNames | dismantled/src/lib.rs:229-243 | The loop computes the inventory set |
| Dismantled.ItemSplits | dismantled/src/lib.rs:182-190 | The loop splits exactly the new items whose setting is on, and marks them completed |
| Dismantled.SecondRunMissesSplit | dismantled/src/lib.rs:164-169 | As written, a level split done in one run is refused in the next run |
| Dismantled.SecondRunSplits | dismantled/src/lib.rs:164-169 | With the completed set reset at start, the next run splits again |
| Dismantled.TickRules | dismantled/src/lib.rs:164-190 | The timer starts iff stopped and going from `map45` to `MAP01`; game time pauses iff `WorldDone`; the completed set only grows, by the keys split, and is not reset at a start; no split repeats a key completed earlier, in this run or a previous one |
| Dismantled.CorrectedTickRules | dismantled/src/lib.rs:164-190 | Corrected: with the reset, the start and pause rules are unchanged, and after a start the completed set is just that tick's splits |
| Dismantled.TickSplitsOnChanges | dismantled/src/lib.rs:177-190 | A level split needs a level change; an item split needs a non-empty old inventory and a newly gained item |
| Dismantled.TickSplitsEveryEnabledChange | dismantled/src/lib.rs:177-190 | Once running, a level change whose split decision holds splits its level key, and each newly held item (after a non-empty inventory) whose decision holds splits its item key |
| Dismantled.Tick | dismantled/src/lib.rs:164-198 | The tick method computes the tick as written, which keeps the completed set across a start |
| Snap.LevelKeyLowersNames | snap_the_sentinel/src/lib.rs:121-124 | The level key is `_level_` and both level names lower-cased |
| Snap.KeysMatchSettings | snap_the_sentinel/src/lib.rs:121-124 | The keys of two level changes match the settings' own keys |
| Snap.LevelKeyIsNotOceanDeath | snap_the_sentinel/src/lib.rs:121-132 | No level key equals `ocean_death` |
| Snap.OceanHealthOf | snap_the_sentinel/src/lib.rs:139-164 | There is an ocean health only on `E1M10` with the `DummyOcean` actor found |
| Snap.NoOceanHealthElsewhere | snap_the_sentinel/src/lib.rs:139-145 | On any other level there is no ocean health |
| Snap.OceanHealthIsActorHealth | snap_the_sentinel/src/lib.rs:139-164 | On `E1M10` the ocean health is the actor's `Health` field |
| Snap.Signed32 | snap_the_sentinel/src/lib.rs:156 | Reading a word as `i32` gives the congruent signed value |
| Snap.SignedRoundTrip | snap_the_sentinel/src/lib.rs:156 | Signed and unsigned reinterpretation are inverse |
| Snap.OceanDeathBelowZero | snap_the_sentinel/src/lib.rs:126-132 | As written, health going from 50 to -10 is not a death |
| Snap.OceanDeathAgreesOnNonNegative | snap_the_sentinel/src/lib.rs:126-132 | For non-negative health the corrected and as-written tests agree |
| Snap.OceanDeathOnAnyDrop | snap_the_sentinel/src/lib.rs:126-132 | Corrected: every drop from positive to zero or below is a death |
| Snap.Tick | snap_the_sentinel/src/lib.rs:103-133 | The tick method computes the tick as written, with the ocean test on unsigned health words |
| Snap.KillingBlowMissedAsWritten | snap_the_sentinel/src/lib.rs:121-133 | A running tick with the ocean split on and health going from 50 to -10 splits `ocean_death` only in the corrected tick, not in the tick as written |
| Snap.TickRules | snap_the_sentinel/src/lib.rs:103-119 | The timer starts iff stopped and the start test holds, the completed set is reset exactly then, game time pauses iff `WorldDone`, and no split repeats a completed key |
| Snap.TickSplitsOnEdges | snap_the_sentinel/src/lib.rs:121-132 | An ocean split needs the setting, both health words, and the unsigned test: a positive word before and exactly 0 now; any other split is the key of an actual level change |
| Snap.TickSplitsEveryEnabledEdge | snap_the_sentinel/src/lib.rs:121-132 | Once running, a level change whose split decision holds splits its key, and with the setting on an ocean death by the unsigned test whose decision holds splits `ocean_death` |
| Legacy.GetCharsOrPanic | src/zdoom.rs:84-106 | The legacy name look-up never returns an error; it succeeds iff the name reads as UTF-8 |
| Legacy.GetCharsPanicsForErrors | src/zdoom.rs:84-106 | It agrees with the newer look-up on success and panics where that one errs |
| Legacy.ClassName | src/zdoom.rs:124-132 | The class name is read at +0x38 without caching, and agrees with the newer reader when that succeeds |
| Legacy.RawName | src/zdoom.rs:134-147 | The raw name is the type name at the pointer at +0x88 |
| Legacy.FieldName | src/zdoom.rs:274-282 | The field name agrees with the newer reader when that succeeds |
| Legacy.ClassTableNamesClasses | src/zdoom.rs:193-214 | The table loads iff every class name reads, every entry is named by its key, and every class is in it |
| Legacy.LoadClasses | src/zdoom.rs:193-214 | The loop computes the class table |
| Legacy.FindClass | src/zdoom.rs:216-218 | `find_class` is a plain map look-up |
| Legacy.FoundClassIsNamed | src/zdoom.rs:193-218 | A class found by name has that name |
| Legacy.FieldLineAt | src/zdoom.rs:160-180 | A listing line holds the field's flags, offset and name, and is static iff bit 13 is set |
| Legacy.FieldLines | src/zdoom.rs:160-180 | The lines are one per field, in order |
| Legacy.ListingOf | src/zdoom.rs:149-183 | A class listing is its name and the lines of its fields at the fixed +0x78 |
| Legacy.DebugAllFields | src/zdoom.rs:149-183 | The listing of a class comes last, and an unreadable parent pointer is an error |
| Legacy.DebugListsParentFirst | src/zdoom/pclass.rs:53-69 | A null parent gives only the class's listing; otherwise the parent's listings come first |
| Legacy.LoadOf | src/zdoom/mod.rs:18-40 | Loading needs `lzdoom.exe` and builds the class table from the fixed module offsets |
| Legacy.Load | src/zdoom/mod.rs:18-40 | The load method computes it |
| Legacy.Level.constructor | src/zdoom/level.rs:13-19 | A new level has no cached name |
| Legacy.Level.InvalidateCache | src/zdoom/level.rs:21-23 | `invalidate_cache` clears the name |
| Legacy.Level.Name | src/zdoom/level.rs:25-44 | The name is read once at +0x9D8, cached afterwards, and a failed read leaves the cache empty |
| Legacy.Player.constructor | src/zdoom/player.rs:32-38 | A new player has no cached position |
| Legacy.Player.InvalidateCache | src/zdoom/player.rs:40-42 | `invalidate_cache` clears the position |
| Legacy.Player.Pos | src/zdoom/player.rs:44-53 | The position is read once at +0x48, cached afterwards, and a failed read leaves the cache empty |

## Left out

- The async `main`/`on_attach` loops, process attach, `next_tick`, the retry
  cooldown and `print_message`/`set_variable` are host scheduling and
  logging. A splitter's loop body is a tick function of the previous and
  current snapshots, and `wait_try_load` is a retry over a finite list of
  snapshots.
- ZDoom.WaitTryLoad: with a finite list of snapshots it returns an error
  after the last failing snapshot, where the source would keep waiting.
- The byte-signature matcher of the host library is an input (the first
  match of each signature per module), not an algorithm.
- The RON parser of the settings file is not modelled; the parsed settings
  tree, or its absence, is an input. GUI registration is recorded as a list
  of calls.
- Floating point is not modelled. Vectors are triples of raw words. Also left
  out for that reason:
  - the Selaco results-position split (selaco/src/lib.rs:303-310);
  - the Dismantled true-ending split (dismantled/src/lib.rs:192-197);
  - `get_in_game_time` (kuru-kuru-kururin/src/lib.rs:77-79);
  - the `f32` contents of the Dark Ages vectors.
- Snap.Tick: the start-position comparison
  (snap_the_sentinel/src/lib.rs:104-106) is a boolean input `atStart`,
  because it compares floats.
- Diagnostic text is not modelled: `show_class`, `dump`, `dump_actors`,
  `show_all_classes` and the text of `debug_all_fields`. Legacy.DebugAllFields
  models which classes and fields are listed and in what order, not the
  printed text.
- The 128- and 512-byte length caps of `ArrayCString` are not modelled;
  strings are read whole.
- ZDoomClasses.PClass.Clone copies the cached values, but the cached field
  table's PField objects are shared between the original and the copy, where
  the derived `Clone` gives the copy its own fields with their own cells. A
  field memoised through one handle is therefore memoised through the other.
  What either handle reports is unaffected, because memoising never changes a
  field's view (ZDoomClasses.PField.Flags, Offset and Name state this).
- Callees that the crates call but do not define are modelled by the
  nearest defined analogue:
  - `iter::<u64>()` and `iter_addr` are the `TArray` iterator over pointers
    and over sector records;
  - the five-argument `Player::new` is the four-argument one;
  - `get_inventories` is a list of item addresses;
  - `TypeInfoTools::try_load` and `get_project` are a class directory given
    to IdTech.TryLoad;
  - `current_owned`, `old_owned` and `next_tick` are `current`, the old
    value and `invalidate`;
  - the legacy name manager and `TArray` that src/zdoom/mod.rs:18-40 relies
    on live in src/zdoom/name_manager.rs and src/zdoom/tarray.rs, which are
    not part of this model. Legacy.LoadOf instead uses the `get_chars` of
    src/zdoom.rs:84-106 (Legacy.GetCharsOrPanic, which panics where the newer
    look-up errs) and the newer ZDoomArray iterator.
- The Selaco objective reader (`Objective::read`, `read_objectives`,
  `get_completed_objectives`) is not modelled. The objective tree is an input
  of the status map.
- Snap.OceanHealthOf: the class table is an input, the one the ZDoom handle
  reports, rather than read inside the function.
- Walks over linked actors and over the idTech variable table are bounded
  by a fuel parameter, and running out gives `WalkBound`. The
  fuel-monotonicity lemmas show that a sufficient bound gives the unbounded
  answer.
- Pointer.ChildPath: an empty child path and a `u64` overflow of the
  combined offset panic in the source; here they are preconditions.
- Address arithmetic is unbounded, so wrap-around of `Address` additions is
  not modelled. The emulator's reduction of offsets to 32 bits is stated by
  Pointer.Truncate32 and used through Pointer.EmulatorReadsAs32 for paths
  that already fit 32 bits.
- The idTech `size` cells of the class and variable handles are never read
  by the crate and are not modelled.
- Text.Lower: lower-casing covers ASCII letters only.
- The running timer's phase is an input of each tick.
- KururinMemory.Watchers: the game mode is kept as its raw byte. The source
  decodes it as a `GameMode` value, and that enum is defined outside the
  crate's lib.rs and memory.rs, so its checked conversion is not modelled.
- The legacy reader resolves a one-offset path to base plus offset without
  a read. `DeepPointer` behaves that way, and Remote.TargetSingle states it.
- The legacy `player_actor_class` path (src/zdoom/mod.rs:60-70) is kept as a
  constant, but the source never reads it, so nothing uses it.
- The `src/lib.rs` main loop and the doom_the_dark_ages/src/lib.rs attach
  loop are not modelled; their logic is commented out or uses a watcher API
  that helpers/src/pointer.rs does not define.

## Findings

| source | as written | input that shows it | evidently intended | confidence | as-written member | corrected member |
|---|---|---|---|---|---|---|
| helpers/src/memory.rs:25-29 | the 32-bit RIP-relative displacement is zero-extended before it is added | displacement 0xFFFF_FFF0 at 0x1003 (match 0x1000, offset 3, next 4) gives 0x1_0000_0FF7 | sign-extend the displacement: target 0xFF7 | high, not executed | Scan.BackwardDisplacementMisread | Scan.AsWrittenAgreesIffForward |
| snap_the_sentinel/src/lib.rs:126-132 | health is read as `u32`, so `current <= 0` holds only at exactly 0 | health 50 then -10 (the word 0xFFFF_FFF6) does not split | a drop to zero or below splits | medium, not executed | Snap.KillingBlowMissedAsWritten | Snap.OceanDeathOnAnyDrop |
| kuru-kuru-kururin/src/memory.rs:107-114 | `invalidate` skips `state` and `substate` | state PressStart on one tick and Game on the next still reads PressStart | every watcher advances each tick | medium, not executed | KururinMemory.StaleStateAcrossTicks | KururinMemory.FreshStateAcrossTicks |
| dismantled/src/lib.rs:164-169 | starting the timer never clears `completed_splits` | a level split done in one run is refused in the next run | reset the completed set at start, as Selaco and Snap do | medium, not executed | Dismantled.SecondRunMissesSplit | Dismantled.CorrectedTickRules |
