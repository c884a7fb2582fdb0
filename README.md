# rsrc: resource assembly for Windows object files, in Dafny

This project models the core of `rsrc`, a tool that packs Windows resources into a `.syso` COFF object file for the Go linker. The tool has two modes.

- **Resource mode** (`run`). An id allocator hands out 1, 2, 3, … from a 16-bit counter. The manifest is registered first, under the first id. Then each icon file of the comma-separated `-ico` list is registered, left to right. For each file, every decoded image becomes an `RT_ICON` resource bound to its byte range in the file, and one more id goes to an `RT_GROUP_ICON` resource. That resource holds a `GRPICONDIR`: a header `{Reserved 0, Type 1, Count N}` and one entry per image, giving the image's header fields and its id. The version resource comes last and always takes the fixed id 1. The container is then frozen.
- **Raw-data mode** (`rundata`). The output name must end in `.syso`, and the part before that suffix must match `^[a-z0-9_]+$`. The data file is registered under the symbol `_brsrc_<stem>`, followed by `_ersrc_<stem>` bound to two zero bytes.

The output writer walks a tree of three kinds of node:

- plain scalars, written little-endian;
- sized readers, copied verbatim and not descended into;
- composites, whose children are visited in order.

A write error stops all later writes.

Files, one module each:

- `errors.dfy`: `Option`, the run's `Error` kinds, and a `Result` that works with `:-`.
- `binary.dfy`: byte, `uint16` and `uint32` types, and little-endian encoding with its decoder.
- `serializer.dfy`: the node tree, `Flatten` (the bytes a walk writes), the `Writer` class and `Write`.
- `icons.dfy`: `ICONDIR`, the image header fields, `GRPICONDIR` / `GRPICONDIRENTRY`, `Size`, and their byte layout.
- `container.dfy`: resource types and their codes, payloads, entries, and the append-only `Coff` class with `Freeze`.
- `ids.dfy`: the id sequence with its 16-bit wrap-around, and the `IdAllocator` class.
- `text.dfy`: comma splitting (with joining as its inverse) and suffix handling.
- `assembly.dfy`: `AddIcon`, `AddIcons`, `AddVersion` and `Run`, the function `Plan` they are proved against, and the lemmas about ids and order.
- `rawdata.dfy`: output-name validation, symbol names and `RunData`.

Inputs the program reads through code not shown here are parameters of the model. A `Files` map says, for each path, whether it opens, what the icon decoder reports for it, and what version resource the version builder produces from it. A path missing from the map cannot be opened. The empty path is never in the map, because opening `""` always fails; so a trailing comma in the icon list makes the run fail (`TrailingCommaFails`).

Points of the code the model keeps as they are:

- The allocator has no guard against wrap-around. The Go counter is a `uint16` that is incremented after each id, so draw 65535 yields 0 and the sequence then repeats. `IdAt` models exactly that, and the ordering lemmas assume fewer than 65535 draws.
- In raw-data mode, the architecture is checked after the data file is opened (rsrc.go:100-110). In resource mode it is checked before anything else.
- `GRPICONDIR.Size` indexes `Entries[0]`, so on an empty directory the Go code panics. `Size` therefore requires a non-empty directory. `addicon` only builds non-empty ones.
- `Count` is `uint16(len(icons))`, so it is truncated to 16 bits. The model keeps that truncation.

The version resource's fixed id 1 can coincide with the first allocated id. The model reproduces this rather than resolving it, and `VersionIdCollides` states the collision.

## Model

| member | source | states |
|---|---|---|
| `Ids.IdAt` | rsrc.go:137-138 | draw k yields the counter value k+1 truncated to 16 bits; below 65535 draws that is exactly k+1 |
| `Ids.IdsIncrease` | rsrc.go:137 | below the wrap-around, a later draw gives a strictly larger id |
| `Ids.IdsWrapAround` | rsrc.go:137 | draw 65534 gives 65535, draw 65535 gives 0, and draw 65536 repeats the first id |
| `Ids.IdAllocator.Next` | rsrc.go:135-140 | returns the next id in the sequence (1 on the first call) and records it; below the wrap-around it is one more than the previous id and larger than every id issued before |
| `Binary.LittleEndianRoundTrip` | rsrc.go:260-262 | a value that fits in n bytes, written little-endian and read back, is unchanged |
| `Binary.EncodeLE` | rsrc.go:260-262 | a plain field is written as exactly its width in bytes, and those bytes decode to its value |
| `Serializer.FlattenAllAppend` | rsrc.go:259-270 | walking a list of siblings writes each sibling's bytes in order, with nothing between them |
| `Serializer.Writer.Emit` | rsrc.go:260-267 | a write after an error does nothing; otherwise the chunk is appended, or the part that fits is written and the error is recorded |
| `Serializer.Writer.Walk` | rsrc.go:259-270 | scalars are written little-endian, sized readers are copied verbatim without descending, and composites are walked child by child in order; the bytes requested are exactly the flattened node |
| `Serializer.Write` | rsrc.go:250-277 | succeeds exactly when the flattened tree fits the output; the output then holds exactly the flattened tree, and otherwise the prefix that fitted |
| `Icons.HeaderBytes` | rsrc.go:29-32 | ICONDIR is written as Reserved, Type, Count, each 2 bytes little-endian, 6 bytes in all |
| `Icons.EntryBytes` | rsrc.go:38-41 | a GRPICONDIRENTRY is written as Width, Height, ColorCount, Reserved (1 byte each), Planes, BitCount (2 bytes each), BytesInRes (4 bytes) and Id (2 bytes), little-endian, 14 bytes in all |
| `Icons.EntryAt` | rsrc.go:29-32 | in the serialized entry list, entry i occupies bytes 14·i to 14·(i+1) |
| `Icons.GroupEntryBytes` | rsrc.go:29-32 | the serialized directory is 6 + 14·N bytes, and entry i occupies bytes 6 + 14·i to 6 + 14·(i+1) |
| `Icons.GroupSize` | rsrc.go:34-36 | Size (header size plus count times entry size) equals the number of bytes the writer emits for the directory |
| `Icons.GroupStartsWithHeader` | rsrc.go:29-32 | the serialized directory begins with its header fields |
| `Container.TypeCodeInjective` | rsrc.go:21-26 | the four resource kinds have pairwise distinct type codes |
| `Container.ParseArch` | rsrc.go:66 | exactly the architecture names "386" and "amd64" are accepted |
| `Container.Coff.SetArch` | rsrc.go:142-146 | an accepted name sets the architecture; any other name is an error and changes nothing |
| `Container.Coff.AddResource` | rsrc.go:156 | appends one (type, id, payload) entry to an unfrozen container; nothing else changes |
| `Container.Coff.AddData` | rsrc.go:111-112 | appends one named data entry to an unfrozen container |
| `Container.Coff.Freeze` | rsrc.go:175 | freezes the container and leaves its entries unchanged |
| `Text.Split` | rsrc.go:160 | at least one piece (pieces may be empty), and none holding the separator |
| `Text.JoinSplit` | rsrc.go:160 | joining the pieces with commas gives back the list string: nothing lost or reordered |
| `Text.SplitJoin` | rsrc.go:160 | splitting comma-joined, comma-free pieces gives back those pieces |
| `Text.SplitWithoutSeparator` | rsrc.go:160 | a name without a comma is a one-element list |
| `Text.TrimSuffix` | rsrc.go:91 | a name that ends with the suffix is its result followed by the suffix; any other name is returned unchanged |
| `Assembly.IconGroupShape` | rsrc.go:192-206 | N > 0 images give N RT_ICON entries, each bound to (ImageOffset, BytesInRes) of its image in file order, then one RT_GROUP_ICON entry with header {0, 1, N mod 65536} whose i-th entry has image i's header fields and image i's id |
| `Assembly.IconGroupIds` | rsrc.go:197-206 | below the wrap-around, the group's count is N, the ids run consecutively from one more than the ids already drawn, and the group's id exceeds every image id of its file |
| `Assembly.IconGroupBytes` | rsrc.go:194-206 | the registered directory serializes to 6 + 14·N bytes, starting with 0, 1 and N as 16-bit little-endian values |
| `Assembly.AddIcon` | rsrc.go:180-211 | an open or decode failure is returned and registers nothing; otherwise the images and the group are appended as `IconStep` says, and the allocator advances by N+1, or by 0 when the file holds no images |
| `Assembly.EmptyIconFile` | rsrc.go:192 | an icon file with no images registers nothing and draws no id |
| `Assembly.AddIcons` | rsrc.go:159-166 | registers the icon files in list order, each continuing the previous one's ids; the first failure is returned |
| `Assembly.IconsFromStops` | rsrc.go:160-165 | once an icon file fails, the files after it play no part in the outcome |
| `Assembly.AddVersion` | rsrc.go:213-248 | an open or parse failure is returned and registers nothing; otherwise one RT_VERSION entry with id 1 and the built bytes is appended |
| `Assembly.Run` | rsrc.go:133-178 | checks the architecture, then registers the manifest, the icon files in list order and the version, then freezes; the result is exactly `Plan` |
| `Assembly.PlanIds` | rsrc.go:148-173 | in a successful run the k-th allocated resource has the k-th id of the allocator's sequence, and a version resource, when given, comes last with id 1 |
| `Assembly.PlanIdsIncrease` | rsrc.go:135-140 | below the wrap-around, the allocated ids of a run strictly increase and never repeat |
| `Assembly.VersionIdCollides` | rsrc.go:245 | when the version resource follows any other resource, it shares id 1 with the first one, under a different type code |
| `Assembly.PlanKeysDistinct` | rsrc.go:148-173 | below the wrap-around, no two resources of a successful run share both type code and id, the version's id 1 included |
| `Assembly.TrailingCommaFails` | rsrc.go:159-165 | an icon list with a trailing comma splits into the file and the empty path, and the run fails opening the empty path |
| `Assembly.ManifestOnly` | rsrc.go:148-158 | a manifest alone yields exactly one entry: RT_MANIFEST with id 1 |
| `Assembly.ManifestAndTwoImages` | rsrc.go:148-166 | a manifest plus one 2-image icon file yields manifest 1, images 2 and 3, group 4, and four entries |
| `RawData.MatchesSymbolPatternIff` | rsrc.go:92 | `^[a-z0-9_]+$` accepts exactly the non-empty strings made only of a-z, 0-9 and _ |
| `RawData.SymbolName` | rsrc.go:88-98 | accepts exactly the names that end in ".syso" with a non-empty [a-z0-9_] stem; the stem followed by ".syso" is the name; each rejection carries its own error |
| `RawData.RunData` | rsrc.go:87-117 | a bad name is rejected whatever the data file; then a missing data file, then an unknown architecture, is an error; on success the entries are exactly `_brsrc_<stem>` (the data file) then `_ersrc_<stem>` (two zero bytes) |
| `RawData.SymbolsDistinct` | rsrc.go:111-112 | the begin and end symbols differ, and the end marker is 2 bytes long |

## Left out

- The goroutine and channel that feed ids (rsrc.go:135-140) are a sequential counter object. The concurrency has no effect on the ids.
- File I/O is not modelled: `os.Open`, `binutil.SizedOpen`, `ioutil.ReadAll`, `os.Create`, the deferred `Close` calls, and the icon handles left open on purpose. Inputs are a map of what each path yields. Payloads name their file and byte range rather than holding its bytes.
- The icon decoder `ico.DecodeHeaders` is not part of this model. Its result is an input.
- The version builder (`goversioninfo` `ParseJSON`, `Build`, `Walk`) is not part of this model. Its bytes are an input, and a read or parse failure is one error kind.
- The COFF package is not part of this model: section and symbol layout, offsets fixed by `Freeze`, and the tree the container gives the writer. `Run` and `RunData` therefore stop at the frozen container's entries. `Write` is modelled on an explicit node tree, and the group directory is the one payload given a layout (`Icons.GroupNode`).
- The accepted architecture names "386" and "amd64" come from the `-arch` flag's help text (rsrc.go:66). The COFF package's own `Arch` check is not part of this model.
- `Container.Coff.layout` records which constructor made the container (resource section or data section). No contract reads it, because what the layout changes in the COFF package is not part of this model.
- Resource type codes 3, 14, 16 and 24 are the Windows values. The COFF package that defines them is not part of this model.
- `Container.Coff.AddResource`: its precondition that the container is not frozen comes from `Freeze` locking the container. What the COFF package does when that is broken is not shown.
- Write errors come from the operating system. They are modelled as an output that takes at most `capacity` bytes: the write that overflows it writes what fits, and the error is recorded. A failure of `os.Create` and the writer's running offset are not modelled.
- `Assembly.AddIcons`: on an error it does not state which earlier icon files were already registered. The run is abandoned then and that container is never written.
- `main` is not modelled: flag parsing, the usage text, the choice between the two modes, and the exit codes. Neither are the printed C template in raw-data mode (rsrc.go:119-128) or the progress and log messages.
- Reading past the end of an icon file through a section reader is not modelled. A sized reader's content is its bytes.
