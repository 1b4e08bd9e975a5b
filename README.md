# xwahacker patch engine, in Dafny

xwahacker is a command-line tool that patches the executables of X-Wing
Alliance and three older LucasArts space-combat games: TIE Fighter 95,
X-Wing 95 and X-Wing vs. TIE Fighter Balance of Power. It treats the
executable as a plain byte array at fixed offsets. A catalog of patches
gives each patch an offset, a length, an "unmodified" flag and the bytes
it writes. Patches covering the same range are gathered into patch
groups, and a group's alternatives are mutually exclusive. A patch is
applied only when the file holds one of the alternatives of its group
(possibly the patch itself), so every change can be switched back.

This project models that engine and proves properties of the model:

- `wrappers.dfy`: the `Option` type.
- `byte_io.dfy` (module `ByteIO`): the bytes of the file and how they are
  accessed.
  - The open file is the class `BinaryFile`, whose `contents` the write
    operations replace.
  - Reads go through the 1024-byte scratch buffer, an `array`, as in the
    tool. A read clears the buffer and then reads what exists.
  - A write stores bytes at an offset and may extend the file.
  - Also here: the little-endian 32-bit load `RL32`, the store `WL32`, and
    their round trips.
- `catalog.dfy` (module `Catalog`): the constant tables.
  - The 57 patch descriptors, with offset, length, "unmodified" flag and
    bytes.
  - The patch groups of the four binaries, the four X-Wing Alliance
    collections and the table of known binaries.
  - The table invariants, proved by computation. Every descriptor fits the
    scratch buffer. The alternatives of a group share one range and have
    pairwise different bytes. No two groups of a profile overlap. Every
    collection lists non-overlapping patches of its profile.
- `engine.dfy` (module `Engine`): the patch engine.
  - Checking a patch (`check_patch`) and counting a profile's patches
    (`count_patches`).
  - Finding a patch's group (`find_patchgroup`) and applying a patch
    (`apply_patch`).
  - Counting collections (`num_collections`) and applying a collection
    (`apply_collection`).
  - Properties:
    - a successful patch writes exactly the target's range, and the target
      then matches;
    - switching a group away and back restores the file;
    - re-applying a patch changes nothing;
    - a failed collection stops at the failing patch and keeps what was
      applied before it.
- `detection.dfy` (module `Detection`): the logic of `main` that decides
  which binary the file is. The binary with the most matching patches
  wins; on a tie the earlier binary wins, and a file that matches nothing
  is taken to be X-Wing Alliance. The module also holds the report of
  which patches the file holds.
- `resolution.dfy` (module `Resolution`): the resolution table of X-Wing
  Alliance.
  - Each of the four modes is set up by `mov eax, width` and
    `mov ecx, height` (opcodes `0xb8` and `0xb9`, each followed by a
    little-endian 32-bit immediate).
  - Reading and redirecting the modes are modelled.
  - Proved: a redirect reads back as the new size and leaves the other
    modes alone.

Integers are unbounded in Dafny. The 32-bit unsigned immediates are kept
below 2^32. Storing an `RL32` result into a signed `int` is written out as
a two's-complement reinterpretation (`AsInt32`). The `main` function's
refusal test for a redirect is `< 0` on both current values, and the model
uses the same test. The patch enumeration has 57 members, so valid patch
numbers are 0 to 56.

## Model

| member | source | states |
|---|---|---|
| ByteIO.ReadRegion | xwahacker.c:40-48 | The buffer after a read holds the file's bytes from the offset where they exist and zeros after them. When the whole range lies inside the file, it holds exactly that slice. |
| ByteIO.ReadBuffer | xwahacker.c:40-48 | The read reports success exactly when all `size` bytes exist. The first `size` bytes of the buffer are cleared and then hold what was read. The rest of the buffer is untouched, and the file is not changed. |
| ByteIO.Overwrite | xwahacker.c:50-57 | A write of no bytes keeps the file's length wherever it lands. Any other write keeps the length unless it runs past the end, where it extends the file to the end of the write. |
| ByteIO.EmptyWriteKeepsFile | xwahacker.c:50-57 | Writing no bytes, even at an offset past the end, leaves the file exactly as it was. |
| ByteIO.OverwriteBytes | xwahacker.c:50-57 | Byte by byte: the written range holds the data, every other old byte is kept, and a gap past the old end reads as zero. |
| ByteIO.OverwriteInside | xwahacker.c:50-57 | A write inside the file keeps its length and leaves exactly the data in the written range. |
| ByteIO.OverwriteElsewhere | xwahacker.c:50-57 | A range of the old file disjoint from the written one is unchanged. |
| ByteIO.OverwriteUnchanged | xwahacker.c:50-57 | Writing the bytes that are already there leaves the file as it was. |
| ByteIO.OverwriteUndo | xwahacker.c:50-57 | Writing back the bytes a write replaced restores the file. |
| ByteIO.ReadBackWritten | xwahacker.c:40-57 | Reading the range just written succeeds and gives back the written data. |
| ByteIO.ReadElsewhere | xwahacker.c:40-57 | Reading a range disjoint from a write gives what it gave before the write. |
| ByteIO.WriteBuffer | xwahacker.c:50-57 | The file becomes the old file with the first `size` bytes of the data written at the offset. |
| ByteIO.RL32 | xwahacker.c:22-25 | The loaded value is an unsigned 32-bit value. |
| ByteIO.WL32 | xwahacker.c:27-33 | The four bytes at the position become the little-endian encoding of the value. Every other byte of the buffer is unchanged. |
| ByteIO.RL32OfLE32 | xwahacker.c:22-33 | Loading what was stored gives the stored value back. |
| ByteIO.LE32OfRL32 | xwahacker.c:22-33 | Storing what was loaded gives the same four bytes back. |
| ByteIO.AsInt32 | xwahacker.c:664-669 | An unsigned 32-bit value stored into a signed `int` becomes the value congruent to it modulo 2^32 in the signed range. It is negative exactly when the value is 2^31 or more. |
| Catalog.DescsValid | xwahacker.c:231-454 | Every descriptor is non-empty, fits the 1024-byte buffer, and carries exactly `len` bytes. |
| Catalog.XwaGroupLayouts | xwahacker.c:126-151 | Each of the first twelve X-Wing Alliance groups has two or more alternatives covering one range. |
| Catalog.XwaGroupLayoutsTail | xwahacker.c:126-151 | The same holds for the remaining eleven groups. |
| Catalog.XwaLeadingGroupsDisjoint | xwahacker.c:126-151 | None of the first six groups overlaps a later group. |
| Catalog.XwaTrailingGroupsDisjoint | xwahacker.c:126-151 | No two of the remaining groups overlap. |
| Catalog.XwaGroupsDisjoint | xwahacker.c:126-151 | No two X-Wing Alliance groups overlap. |
| Catalog.XwaProfileLayout | xwahacker.c:126-151 | Every group covers a single range, and the ranges of the groups are disjoint. |
| Catalog.XwaRenderingValuesDistinct | xwahacker.c:127-131 | The frame buffer, Z-buffer depth, Z-clear method, Z-clear value and starfield on/off groups have alternatives with pairwise different bytes, so they can be told apart. |
| Catalog.XwaStarfieldValuesDistinct | xwahacker.c:132-138 | The same holds for the first star-rendering groups. |
| Catalog.XwaStarfieldTailValuesDistinct | xwahacker.c:139-144 | The same holds for the last star-rendering groups. |
| Catalog.XwaSystemValuesDistinct | xwahacker.c:145-149 | The same holds for the CD-check, voice, resolution-selection and screenshot groups. |
| Catalog.XwaProfileWellFormed | xwahacker.c:125-151 | The X-Wing Alliance profile has non-overlapping groups whose alternatives can be told apart. This is what makes its patching reversible. |
| Catalog.OlderProfilesWellFormed | xwahacker.c:153-166 | The single-group profiles of the three older games are well formed. |
| Catalog.ProfilesWellFormed | xwahacker.c:479-490 | Every profile of the table of known binaries is well formed. |
| Catalog.CollectionOfDistinctGroups | xwahacker.c:455-477 | In a profile with non-overlapping groups, a list of patches taken from strictly increasing groups is a well-formed collection. Every patch belongs to the profile and no two of them overlap. |
| Catalog.IncreasingPairwise | xwahacker.c:455-477 | Group numbers that increase step by step increase between any two positions. |
| Catalog.Render16BitCollectionWellFormed | xwahacker.c:462-466 | "16 bit rendering" is a well-formed collection of the X-Wing Alliance profile. |
| Catalog.Render32BitCollectionWellFormed | xwahacker.c:467-471 | "32 bit rendering" is a well-formed collection of the X-Wing Alliance profile. |
| Catalog.OriginalZClearCollectionWellFormed | xwahacker.c:472-473 | "original Z-buffer clear" is a well-formed collection of the X-Wing Alliance profile. |
| Catalog.FixedZClearCollectionWellFormed | xwahacker.c:474-475 | "fixed Z-buffer clear" is a well-formed collection of the X-Wing Alliance profile. |
| Catalog.CollectionsWellFormed | xwahacker.c:461-477 | Every X-Wing Alliance collection is well formed. |
| Engine.CheckPatch | xwahacker.c:492-507 | The result is true exactly when the patch's range lies inside the file and holds its bytes exactly. A range past the end of the file gives false. Only the scratch buffer is written. |
| Engine.NoMatchesInGroup | xwahacker.c:509-519 | A group adds nothing to the count exactly when none of its alternatives is present. |
| Engine.AllRecognized | xwahacker.c:509-519 | The number of recognised groups reaches the number of groups exactly when every group has an alternative present. |
| Engine.DistinctAlternatives | xwahacker.c:125-151 | In a group whose alternatives share one range and have different bytes, no two alternatives are present at once. |
| Engine.GroupMatchesOneOrNone | xwahacker.c:509-519 | Such a group adds 1 to the count when one of its alternatives is present and 0 otherwise. |
| Engine.CountIsRecognized | xwahacker.c:509-519 | In a well-formed profile, the count of matching patches equals the number of groups recognised and is at most the number of groups. |
| Engine.CountGroup | xwahacker.c:512-516 | The result is the number of the group's alternatives the file holds. |
| Engine.CountPatches | xwahacker.c:509-519 | The result is the number of matching alternatives, summed over all groups of the profile. |
| Engine.GroupOf | xwahacker.c:554-563 | It returns the first group that contains the patch. It returns nothing exactly when no group contains it. |
| Engine.FindPatchGroup | xwahacker.c:554-563 | The nested walk over the groups returns the group `GroupOf` describes. |
| Engine.OnlyGroup | xwahacker.c:554-563 | In a profile whose groups do not overlap, the group found is the one the patch lies in. |
| Engine.FirstMatch | xwahacker.c:571-576 | It returns the first alternative of the group the file holds. It returns nothing exactly when the file holds none of them. |
| Catalog.XwaLeadingOriginalsFirst | xwahacker.c:127-138 | In each of the first twelve X-Wing Alliance groups, the unmodified code is the first alternative and no other alternative is unmodified. |
| Catalog.XwaTrailingOriginalsFirst | xwahacker.c:139-149 | The same holds for the remaining eleven groups. |
| Catalog.GroupsStartWithOriginal | xwahacker.c:126-166 | Every group of every known profile lists the unmodified code first, and only there. |
| Engine.RevertToOriginal | xwahacker.c:565-591 | In every known profile, applying a recognised group's unmodified alternative succeeds and leaves it present. |
| Engine.FindPrevious | xwahacker.c:571-576 | The loop stops at the alternative `FirstMatch` describes. |
| Engine.ApplyAsWritten | xwahacker.c:565-591 | For a patch that lies in some group, the outcome is "no previous state" exactly when no alternative of its group is present. It is never "not in profile". |
| Engine.Apply | xwahacker.c:565-591 | As above, but a patch in no group of the profile is refused, exactly then. |
| Engine.ApplyAt | xwahacker.c:565-586 | Once the group and its first present alternative are known, the outcome is that alternative as the previous state, with the patch's bytes written over its range. |
| Engine.PresentIsFirst | xwahacker.c:571-576 | In a group whose alternatives can be told apart, a present alternative is the first present one. |
| Engine.PatchInPlace | xwahacker.c:581-584 | Writing a patch whose range lies inside the file keeps the length and makes the patch match. |
| Engine.UndoSwitch | xwahacker.c:125 | Writing a patch over an alternative of the same range, then writing the alternative back, gives back the file. |
| Engine.ApplyWritesTarget | xwahacker.c:571-586 | A successful patch reports the first present alternative of its own group, which shares its range. The file keeps its length and the patch then matches. Every byte outside the patch's range is unchanged. |
| Engine.ApplyRestores | xwahacker.c:565-591 | In a well-formed profile, applying the reported previous state after a successful patch succeeds and gives back exactly the original file. It reports the patch as its previous state. |
| Engine.ApplyIdempotent | xwahacker.c:565-591 | Re-applying a patch that was just applied succeeds, reports the patch itself and leaves the file unchanged. |
| Engine.ApplyPatch | xwahacker.c:565-591 | The result is true exactly when `Apply` patches. The file then becomes `Apply`'s file; otherwise it is unchanged. |
| Engine.RunSucceeds | xwahacker.c:593-601 | A run of patches succeeds exactly when every step succeeds from the state its predecessors left. |
| Engine.RunStops | xwahacker.c:593-601 | A failed run ends at some patch `k`. The patches before `k` were all applied and stay applied. Step `k` did not patch, and nothing after it was attempted. |
| Engine.ApplyKeeps | xwahacker.c:581-584 | A successful patch leaves in place every present patch whose range it does not touch. |
| Engine.ApplyAllFirst | xwahacker.c:596-599 | A successful collection is its first patch followed by the rest of the collection. |
| Engine.CollectionRealized | xwahacker.c:593-601 | After a successful collection of non-overlapping patches, the file has its old length and every patch of the collection matches. |
| Engine.XwaCollectionRealized | xwahacker.c:461-477 | After any X-Wing Alliance collection succeeds, all of its patches are present. |
| Engine.ApplyAllKeeps | xwahacker.c:593-601 | A successful collection none of whose patches overlaps a present patch leaves that patch present. |
| Engine.NumCollectionsAsWritten | xwahacker.c:538-542 | For a binary that has a collection table, the count as written agrees with the corrected count: the table's length. |
| Engine.NumCollections | xwahacker.c:538-542 | The count is 0 for a binary without a collection table and the table's length otherwise. |
| Engine.CollectionCounts | xwahacker.c:479-490 | X-Wing Alliance offers four collections and each of the three older binaries offers none. |
| Engine.CollectionIndexValid | xwahacker.c:538-542 | An index below the corrected collection count names an existing collection of the binary. |
| Engine.OlderBinariesLackCollections | xwahacker.c:484-490 | The three older binaries have no collection table. |
| Engine.PatchOutsideProfile | xwahacker.c:707-717 | The TIE Fighter 95 clear patch, an accepted patch number, lies in no X-Wing Alliance group. Applying it to that profile is refused as not in the profile. |
| Engine.ApplyCollection | xwahacker.c:593-601 | The result and the new file are those of applying the collection's patches in order, stopping at the first failure and keeping what was applied before it. |
| Detection.Best | xwahacker.c:649-656 | The chosen binary has the greatest count, and every earlier binary has a strictly smaller count. |
| Detection.NothingMatchedMeansFirst | xwahacker.c:649-656 | When every count is zero, the first binary is chosen. |
| Detection.CountsAreRecognizedGroups | xwahacker.c:509-519 | For every known binary, the detection score is the number of its groups the file is recognised in, at most the number of its groups. |
| Detection.DetectBinary | xwahacker.c:649-656 | The loop chooses `Best` of the binaries' counts and returns the chosen binary's count. |
| Detection.DetectPatches | xwahacker.c:735-736 | For every patch number, the report says whether the file holds that patch. |
| Resolution.DecodeSlot | xwahacker.c:664-669 | A side reads as -1 unless its opcode (`0xb8` for the width, `0xb9` for the height) is in place. Values lie in the signed 32-bit range. |
| Resolution.EncodeSlot | xwahacker.c:698-699 | A redirect writes 10 bytes, with `0xb8` at byte 0 and `0xb9` at byte 5. |
| Resolution.DecodeEncode | xwahacker.c:698-699 | Decoding a written pair gives back the width and height. |
| Resolution.EncodeDecode | xwahacker.c:664-669 | A pair whose two sides were both recognised is exactly the encoding of what it reads as. |
| Resolution.ReadResolutions | xwahacker.c:664-669 | The loop reads all four modes as `CurrentMapping` describes. |
| Resolution.SetResolution | xwahacker.c:686-706 | The redirect is done exactly when all three arguments are valid and both current values of the mode are non-negative. Then exactly the mode's 10 bytes are rewritten with the new pair; otherwise the file is unchanged. |
| Resolution.Redirect | xwahacker.c:664-706 | The modes are read from the file and then mode `num` is redirected. This succeeds exactly when the arguments are valid and both sides of the mode, as read from the file, were recognised. Then exactly the mode's 10 bytes are rewritten; otherwise the file is unchanged. |
| Resolution.SlotsDisjoint | xwahacker.c:11-20 | The instruction pairs of different modes do not overlap. |
| Resolution.SetThenRead | xwahacker.c:698-700 | After a redirect, the mode reads back as the new width and height. |
| Resolution.SetKeepsOthers | xwahacker.c:698-700 | A redirect leaves what every other mode reads as unchanged. |

## Left out

- ByteIO.WriteBuffer: a failed seek or a short write, where `write_buffer` returns 0, is not modelled. The write always completes.
- Engine.ApplyPatch: the "write failed" path of `apply_patch` is therefore not modelled either.
- Resolution.SetResolution: the same holds for the "error writing" path of a redirect.
- ByteIO.RL32: the shift `p[3] << 24` on a promoted `int` overflows for bytes of 128 or more. It is modelled as the unsigned value the code evidently intends, which is what the `uint32_t` result holds in practice.
- The `DEBUG` report of the first differing byte in `check_patch` (compiled out, because `DEBUG` is 0) and every `printf` message are not modelled.
- `list_patches`, `list_collections`, `print_help`, the patch-name table and the printing of the report are not modelled; they only print.
- The detected-patches report is modelled as the sequence of flags it prints from.
- The `argc`/`strcmp` dispatch of `main` is not modelled. Each option is modelled as its own operation.
- `parse_num` is not modelled. Its result is a parameter of the operation: a value in range, or -1 for an invalid argument.
- `fopen`, `malloc`, `rewind`, `fclose` and `free` are not modelled. The file is a `BinaryFile` and the scratch buffer is an array passed in.
- Sentinel-terminated C arrays are sequences. `NO_PATCH` and the `{NULL}` terminators disappear, and `num_collections`'s counting loop becomes the length of the sequence.
- The nested loops of `count_patches` are split into an outer method (`CountPatches`) and an inner method (`CountGroup`). The search loop of `apply_patch` is its own method (`FindPrevious`). The nested walk of `find_patchgroup` stays nested in `FindPatchGroup`. The order of the checks is the same.
- The names of patches, collections and binaries are kept only where the tables hold them. The patch-name strings are not modelled.
- The Qt interface, `xwareplacer.c` and `maincrtstartup.c` are not part of this model.
- Field-of-view, HUD, metapatch and frame-rate operations are not part of this model, because `xwahacker.c` does not define them.

## Findings

| source | as written | input that shows it | evidently intended | confidence | as-written member | corrected member |
|---|---|---|---|---|---|---|
| xwahacker.c:538-542 | `num_collections` reads `collections[i].name` without checking that the binary has a collection table. TIE Fighter 95, X-Wing 95 and Balance of Power have a `NULL` table (xwahacker.c:486-488). | A TIE Fighter 95 executable with the option `-c 0`. `main` calls `num_collections(NULL)` at xwahacker.c:719. | A binary without a table offers no collections, so every collection number is refused as incorrect. | not executed | Engine.NumCollectionsAsWritten, Engine.OlderBinariesLackCollections | Engine.NumCollections, Engine.CollectionIndexValid |
| xwahacker.c:570 | `apply_patch` asserts that the patch lies in a group of the detected profile. The `-p` option accepts any number below `NUM_PATCHES` (xwahacker.c:708), so a patch of another game reaches the assertion. | An X-Wing Alliance executable with `-p 51`. Patch 51 is the TIE Fighter 95 clear patch, which lies in no X-Wing Alliance group. | The patch is refused as a failed patch, and the file is not changed. | not executed | Engine.ApplyAsWritten, Engine.PatchOutsideProfile | Engine.Apply, Engine.ApplyPatch |
