# rustvoxels core, modelled in Dafny

This project models the host-side logic of the rustvoxels voxel renderer and
game, and proves properties of that model. It covers:

- the GPU resource atlas (named textures, swap-chain pairs, descriptor textures
  and buffers, selected by frame parity);
- the sparse mip regeneration pass (halve, deduplicate and dispatch per level);
- the full mip clear pass;
- the temporal denoiser's ping-pong output textures;
- the text scene format and the voxel grid it fills;
- the configuration store and its value conversions;
- the pressed-key tracker;
- the entity component list;
- the OBJ mesh assembly and draw sequence.

GPU objects are opaque records handed out by a `Gpu.Device` whose counter makes
every new object distinct. Everything the source obtains from its environment
becomes a parameter:

- the window size;
- the frame counter;
- the read-back change list;
- the OBJ reader's output.

The files are:

- `wrappers.dfy`: Option and Result.
- `arith.dfy`: powers of two and division facts.
- `text.dfy`: the Rust string operations the parsers rely on. These are `split` on one character, removing one character, `trim`, and `parse` for `usize`, `i32` and `bool`.
- `gpu.dfy`: textures, buffers, views and the device.
- `texture_atlas.dfy`, `mipmapper.dfy`, `clear.dfy`, `denoiser.dfy`, `voxel_grid.dfy`, `config.dfy`, `keyboard_tracker.dfy`, `entity.dfy` and `model.dfy`: one module per source file.

A Rust panic (`unwrap`, `expect`, an out-of-bounds index) is modelled as a
`None` or `Failure` result, except for the buffer-mapping steps named under
"## Left out". Where the source mutates state, the model is a
class whose methods state the new state. Where the source is a pure match, the
model is a function.

## Model

| member | source | states |
|---|---|---|
| TextureAtlas.Atlas.constructor | src/renderer/texture_atlas.rs:27-34 | a new atlas is empty (the sampler is not modelled) |
| TextureAtlas.Atlas.Register | src/renderer/texture_atlas.rs:36-54 | inserts a fresh window-sized one-level single texture under the name, replacing any previous entry; every other name keeps its entry |
| TextureAtlas.Atlas.RegisterFromImage | src/renderer/texture_atlas.rs:56-113 | stores a descriptor entry of size (w, h, 1) with mip_levels 1 under the name; every other name keeps its entry |
| TextureAtlas.Atlas.RegisterSwapchain | src/renderer/texture_atlas.rs:115-148 | stores a pair of two distinct fresh window-sized textures under the name; every other name keeps its entry |
| TextureAtlas.Atlas.RegisterFromDescriptor | src/renderer/texture_atlas.rs:150-169 | the stored info equals the descriptor's (width, height, depth_or_array_layers) and mip_level_count, so `get_info` on the name reports exactly that at any window size; every other name keeps its entry |
| TextureAtlas.Atlas.RegisterBuffer | src/renderer/texture_atlas.rs:171-184 | stores a fresh buffer entry under the name; every other name keeps its entry |
| TextureAtlas.Atlas.Resize | src/renderer/texture_atlas.rs:186-196 | the key set is unchanged; swap-chain and single entries are recreated as the same kind at the window size from fresh textures; descriptor and buffer entries are untouched; swap-chain pairs stay distinct |
| TextureAtlas.Atlas.Get | src/renderer/texture_atlas.rs:198-219 | Some exactly for a registered non-buffer name; a swap-chain gives its first texture on even frames and its second on odd frames; the result is always a texture the entry holds |
| TextureAtlas.Atlas.GetView | src/renderer/texture_atlas.rs:221-246 | a default view of exactly the texture `Get` selects, and None exactly when `Get` is None |
| TextureAtlas.Atlas.GetViewSwapchain | src/renderer/texture_atlas.rs:248-276 | Some exactly for swap-chain names; the two views are of different textures, both with the default view descriptor, and the first is the view `get_view` gives of the texture `Get` selects |
| TextureAtlas.Atlas.GetViewDescriptor | src/renderer/texture_atlas.rs:278-306 | a view with the given descriptor of exactly the texture `Get` selects |
| TextureAtlas.Atlas.GetInfo | src/renderer/texture_atlas.rs:308-326 | the stored info for a descriptor entry; (window width, window height, 1) with one level for single and swap-chain entries; None for buffers and missing names |
| TextureAtlas.Atlas.GetBuffer | src/renderer/texture_atlas.rs:328-337 | Some exactly for buffer entries, and then the stored buffer |
| TextureAtlas.GetOrGetBuffer | src/renderer/texture_atlas.rs:198-219 | for a registered name exactly one of `get` and `get_buffer` answers; for a missing name neither answers |
| TextureAtlas.SwapChainAlternates | src/renderer/texture_atlas.rs:205-210 | on a swap-chain, consecutive frames select different textures and frames two apart select the same one; the view pair swaps between consecutive frames |
| Mipmapper.FloorLog2 | src/renderer/mipmapper/mod.rs:81-82 | the result r satisfies 2^r <= n < 2^(r+1) |
| Mipmapper.MipLevelCount | src/renderer/mipmapper/mod.rs:81-82 | mip_levels = floor(log2(min(w, h, l))) - 1, characterised by 2^(r+1) <= min < 2^(r+2); requires min >= 2, where the unsigned subtraction does not underflow |
| Mipmapper.MipLevelCountUnique | src/renderer/mipmapper/mod.rs:81-82 | the bounds pin the level count down uniquely |
| Mipmapper.MipLevelsOf512 | src/renderer/mipmapper/mod.rs:40-82 | the 512-cube volume gets 8 mip levels |
| Mipmapper.MipViews | src/renderer/mipmapper/mod.rs:112-133 | one single-level view per level 0 .. mip_levels - 1, view `mip` having base level `mip`, each equal to the atlas's descriptor view; None exactly when the volume lookup fails |
| Mipmapper.New | src/renderer/mipmapper/mod.rs:35-143 | the pass has 8 levels and its views are exactly MipViews of the volume texture for those 8 levels (view l is the single-level view of mip l); None exactly when the volume is missing from the atlas |
| Mipmapper.TruncHalf | src/renderer/mipmapper/mod.rs:206 | Rust's `/ 2` on i32: the quotient truncated toward zero, bracketed from both sides for either sign |
| Mipmapper.ReadBackAll | src/renderer/mipmapper/mod.rs:191-195 | each read-back position keeps x, y and z and has its fourth component set to 0 |
| Mipmapper.Parents | src/renderer/mipmapper/mod.rs:204-206 | every position is mapped to its parent cell, element by element |
| Mipmapper.Unique | src/renderer/mipmapper/mod.rs:207 | the result has no repeats, holds the same elements as the input and is no longer |
| Mipmapper.FirstIndex | src/renderer/mipmapper/mod.rs:207 | the index of the first occurrence: it holds the element and no earlier index does |
| Mipmapper.UniqueKeepsFirstOrder | src/renderer/mipmapper/mod.rs:207 | the kept elements appear in the order of their first occurrences in the input, as `unique` yields them |
| Mipmapper.UniqueOfDistinct | src/renderer/mipmapper/mod.rs:207 | deduplicating a list without repeats changes nothing |
| Mipmapper.NextLevelIsParentImage | src/renderer/mipmapper/mod.rs:204-208 | a level's set has no repeats, holds exactly the parents of the previous level's positions in the order they first occur, and is no longer |
| Mipmapper.WorkingSetShrinks | src/renderer/mipmapper/mod.rs:203-208 | working sets never grow from level to level, and from level 1 on they have no repeats |
| Mipmapper.DispatchGroups | src/renderer/mipmapper/mod.rs:252-256 | ceil(n / 1024): enough groups to cover n positions, one fewer is not enough, and 0 exactly when n is 0 |
| Mipmapper.EncodeLevel | src/renderer/mipmapper/mod.rs:203-258 | one loop step: the new list is the parent image of the previous level's list, and the appended dispatch reads view l - 1, writes view l, and covers level l's list; the earlier dispatches stay as they were |
| Mipmapper.EncodeLevels | src/renderer/mipmapper/mod.rs:186-258 | one dispatch per level 1 .. mip_levels - 1 in order; dispatch `l` reads view l - 1, writes view l, covers level l's working set and is sized by DispatchGroups |
| Mipmapper.Render | src/renderer/mipmapper/mod.rs:145-260 | None (the source's `unwrap` panic) exactly when the atlas lacks the `voxelizer_binding_voxels_changed_index` or `voxelizer_binding_voxels_changed` buffer; otherwise the dispatches EncodeLevels states |
| Mipmapper.EmptyChangesDispatchNothing | src/renderer/mipmapper/mod.rs:203-256 | an empty change list dispatches zero groups at every level |
| Clear.MipLevelsOf128 | src/renderer/clear.rs:42-74 | the 128-cube volume gets 6 mip levels |
| Clear.BindGroups | src/renderer/clear.rs:127-150 | one bind group per level 1 .. mip_levels - 1; group `i` reads view i and writes view i + 1 |
| Clear.New | src/renderer/clear.rs:37-163 | 6 levels and 5 bind groups; group `i` reads mip i and writes mip i + 1 of the volume texture; the extents are the 128-cube volume's; None exactly when the volume lookup fails |
| Clear.DispatchSize | src/renderer/clear.rs:175-187 | the extent at a level is dim / 2^level when that is at least 1, and 1 otherwise |
| Clear.DispatchSizeNonIncreasing | src/renderer/clear.rs:174-187 | going one level coarser never enlarges a dispatch dimension |
| Clear.Render | src/renderer/clear.rs:165-195 | one dispatch per level 1 .. mip_levels - 1 in order, using bind group level - 1, sized (width, length, height) at that level |
| Denoiser.PastSelection | src/renderer/denoiser/mod.rs:301-311 | even frames sample the first view and write the second; odd frames swap them |
| Denoiser.SampleIsNotAttachment | src/renderer/denoiser/mod.rs:301-311 | with distinct views, the view sampled is never the view written |
| Denoiser.WrittenThenSampled | src/renderer/denoiser/mod.rs:291-311 | what frame n writes is what frame n + 1 samples, and the reverse |
| Denoiser.Denoiser.constructor | src/renderer/denoiser/mod.rs:36-283 | two fresh, distinct, one-level window-sized output textures with default views; the counter starts at 0 |
| Denoiser.Denoiser.Render | src/renderer/denoiser/mod.rs:285-373 | bumps frame_count by one before the choice; samples one output view and attaches the other (never the same one); the attachment is what render_texture_view then returns; nothing else changes |
| Denoiser.Denoiser.Resize | src/renderer/denoiser/mod.rs:376-428 | new input views, two fresh distinct output textures at the new size, and the new size; the counter is kept |
| Denoiser.Denoiser.RenderTextures | src/renderer/denoiser/mod.rs:430-432 | the two output textures in fixed order, matching the views, and distinct |
| Denoiser.Denoiser.RenderTextureView | src/renderer/denoiser/mod.rs:434-440 | the view most recently rendered into, which is the current frame's attachment |
| Denoiser.TwoFrames | src/renderer/denoiser/mod.rs:285-311 | over two renders, the second samples what the first wrote and writes what the first sampled |
| Text.Split | src/game/world/voxel_grid.rs:16 | at least one piece, and no piece holds the separator |
| Text.SplitJoin | src/game/world/voxel_grid.rs:16 | joining the pieces with the separator gives the string back |
| Text.JoinSplit | src/game/world/voxel_grid.rs:20 | splitting separator-free pieces joined with the separator gives the pieces back |
| Text.SplitAfterPieces | src/game/world/voxel_grid.rs:20-34 | separator-free pieces followed by the separator come off first, whatever follows |
| Text.SplitWithoutSeparator | src/game/world/voxel_grid.rs:16-20 | a string without the separator splits into itself alone |
| Text.SplitAfterPiece | src/game/world/voxel_grid.rs:16-20 | a separator-free piece followed by the separator comes off as the first piece |
| Text.RemoveChar | src/game/world/voxel_grid.rs:45 | the character is gone and every other character keeps its number of occurrences (multiset); with RemoveCharConcat the kept characters stay in order |
| Text.RemoveCharConcat | src/game/world/voxel_grid.rs:45 | removal distributes over concatenation, so the characters that stay keep their relative order |
| Text.RemoveAbsentChar | src/game/world/voxel_grid.rs:45 | removing a character the string lacks changes nothing |
| Text.TrimStart | src/game/world/voxel_grid.rs:21 | a suffix of the input whose removed prefix is all whitespace and whose first character is not whitespace |
| Text.TrimEnd | src/game/world/voxel_grid.rs:21 | a prefix of the input whose removed suffix is all whitespace and whose last character is not whitespace |
| Text.TrimUnpadded | src/game/world/voxel_grid.rs:21 | trimming a string with no whitespace at either end changes nothing |
| Text.Decimal | src/game/world/voxel_grid.rs:22 | a non-empty string of digits |
| Text.DecimalValue | src/game/world/voxel_grid.rs:22 | the numeral of n denotes n |
| Text.ParseUnsigned | src/game/world/voxel_grid.rs:22 | Some exactly when the text after an optional leading `+` is a non-empty digit string whose value is at most the maximum, and then that value (so "007" and "+7" read as 7) |
| Text.ParseUnsignedDecimal | src/game/world/voxel_grid.rs:22 | every value up to the maximum parses back from its numeral |
| Text.ParseUnsignedOverflow | src/game/world/voxel_grid.rs:22 | a numeral above the maximum is a parse error |
| Text.ParseI32 | src/config/mod.rs:31 | Some exactly when the text after an optional sign is a non-empty digit string whose value fits (at most 2^31 after `-`, 2^31 - 1 otherwise), and then that value, negated after `-` (so "-0" reads as 0) |
| Text.ParseI32Text | src/config/mod.rs:31 | every i32 value parses back from its numeral |
| VoxelGrid.GridPosition | src/game/world/voxel_grid.rs:82-86 | the channel offset of a position is a multiple of 4 |
| VoxelGrid.GridPositionRadix | src/game/world/voxel_grid.rs:82-86 | the offset is (x + width * (y + length * z)) * 4, with (x, z, y) read from the position |
| VoxelGrid.GridPositionInBounds | src/game/world/voxel_grid.rs:36-86 | an in-range position's 4 channels lie inside the width * height * length * 4 buffer |
| VoxelGrid.GridPositionInjective | src/game/world/voxel_grid.rs:82-86 | two in-range positions share an offset exactly when they are equal |
| VoxelGrid.SlotsDisjoint | src/game/world/voxel_grid.rs:76-86 | distinct in-range positions have non-overlapping 4-channel slots |
| VoxelGrid.Paint | src/game/world/voxel_grid.rs:76-79 | exactly the 4 channels at the offset take the colour's bytes divided by 255; every other channel is unchanged |
| VoxelGrid.PaintOverwrites | src/game/world/voxel_grid.rs:73-80 | painting the same slot twice leaves the second colour |
| VoxelGrid.PaintCommutes | src/game/world/voxel_grid.rs:73-80 | paints to disjoint slots commute |
| VoxelGrid.Zeros | src/game/world/voxel_grid.rs:36-42 | the initial buffer: the given number of channels, all 0.0 |
| VoxelGrid.Lines | src/game/world/voxel_grid.rs:16 | one line per newline-separated piece, line i being piece i with its carriage returns removed; no line holds `\r` or `\n` |
| VoxelGrid.ParseDimensions | src/game/world/voxel_grid.rs:18-34 | success exactly when there are at least three `x`-separated parts and the first three parse as usize after trimming, and then the values are those parses; "expected int" exactly when one of the first three present parts does not parse; "not enough dimensions" exactly when fewer than three parts exist and all present ones parse |
| VoxelGrid.HeaderPartsOfDecimals | src/game/world/voxel_grid.rs:20-33 | parts that start with the numerals of three usize values parse, after trimming, to those three values |
| VoxelGrid.ParseDimensionsOfParts | src/game/world/voxel_grid.rs:18-34 | when the first three trimmed parts parse as usize, the header is those three values |
| VoxelGrid.ParseDimensionsRoundTrip | src/game/world/voxel_grid.rs:18-34 | a header written as `WxHxL` parses back to (W, H, L) |
| VoxelGrid.ParseDimensionsIgnoresRest | src/game/world/voxel_grid.rs:20-34 | anything after a third `x` is never read, since the parts are parsed lazily |
| VoxelGrid.ParseValues | src/game/world/voxel_grid.rs:46-49 | Some exactly when every part parses as usize, and then the values part by part |
| VoxelGrid.ParseVoxelLine | src/game/world/voxel_grid.rs:45-65 | after removing spaces and splitting on commas: "expected int" exactly when some part is not a usize; "not enough data on line index + 1" exactly when all parse but there are not six; on success the position is the first three parses and each colour byte is its parse mod 256, alpha 255 |
| VoxelGrid.ParseVoxelLineOfValues | src/game/world/voxel_grid.rs:46-65 | six parsed values give the voxel at (v0, v1, v2) with colour bytes v3, v4, v5 truncated by `as u8` and alpha 255 |
| VoxelGrid.ParseVoxelLineRoundTrip | src/game/world/voxel_grid.rs:45-65 | a voxel written as six comma-separated numerals parses back to itself |
| VoxelGrid.ApplyLines | src/game/world/voxel_grid.rs:44-68 | a successful run of lines keeps the buffer length |
| VoxelGrid.FirstErrorStands | src/game/world/voxel_grid.rs:44-68 | once a line fails, the later lines do not change the outcome |
| VoxelGrid.ApplyLinesStep | src/game/world/voxel_grid.rs:44-68 | one more line either fails with that line's error or paints that line's voxel onto the previous buffer |
| VoxelGrid.LaterLineWins | src/game/world/voxel_grid.rs:44-68 | each channel holds the value from the last line that wrote it, or its initial value when no line did |
| VoxelGrid.Decode | src/game/world/voxel_grid.rs:15-71 | a header that fails to parse is the error; once it parses, decoding succeeds exactly when the voxel lines apply to the zero buffer of that size, and otherwise fails with their first error; a decoded scene has the header's sizes and width * height * length * 4 channels |
| VoxelGrid.ApplyVoxelLines | src/game/world/voxel_grid.rs:44-68 | lines written from voxels inside the grid apply without error and paint those voxels in order |
| VoxelGrid.SceneLines | src/game/world/voxel_grid.rs:16 | a scene file written as a header line and voxel lines splits back into exactly those lines |
| VoxelGrid.DecodeSceneText | src/game/world/voxel_grid.rs:15-71 | a `WxHxL` header followed by the lines of voxels inside the grid decodes to a W by H by L scene whose cells are those voxels painted in order over zeros |
| VoxelGrid.DecodedCell | src/game/world/voxel_grid.rs:36-68 | each channel of a decoded scene is its last write, or 0.0 |
| VoxelGrid.Grid.constructor | src/game/world/voxel_grid.rs:36-42 | a fresh all-zero buffer of width * height * length * 4 channels |
| VoxelGrid.Grid.SetData | src/game/world/voxel_grid.rs:73-80 | succeeds exactly when the slot lies inside the buffer, and then the buffer is the painted one; otherwise (a panic in the source) nothing changes |
| VoxelGrid.Grid.PaintLines | src/game/world/voxel_grid.rs:44-68 | the buffer after the loop is ApplyLines of the one before, or the first line error is reported |
| VoxelGrid.Grid.GetMipLevels | src/game/world/voxel_grid.rs:240-243 | always 1 |
| VoxelGrid.FromString | src/game/world/voxel_grid.rs:15-71 | a grid exactly when Decode succeeds, with the same sizes and contents; otherwise Decode's error |
| Config.TruncatedMagnitude | src/config/mod.rs:29-30 | the magnitude of a finite float truncated toward zero, bracketed by the significand and the power of two |
| Config.Saturate | src/config/mod.rs:29-30 | clamps to the i32 range, keeping in-range values |
| Config.FloatToI32 | src/config/mod.rs:29-30 | `as i32` on a float: always in the i32 range; NaN gives 0; infinities saturate to the matching end |
| Config.WrapToI32 | src/config/mod.rs:28 | `i64 as i32`: in the i32 range and congruent to the input mod 2^32 |
| Config.WrapToI32InRange | src/config/mod.rs:28 | a value already in the i32 range is unchanged |
| Config.WrapToI32Periodic | src/config/mod.rs:28 | values 2^32 apart wrap to the same i32 |
| Config.ParseBool | src/config/mod.rs:41 | Some exactly for "true" and "false", meaning what they say |
| Config.AsI32 | src/config/mod.rs:24-32 | a bool gives 0 or 1; an i32 is unchanged; an i64 is WrapToI32 of it; an f32/f64 is FloatToI32 of its bits in the matching format; a string is ParseI32 of it, None (a panic) exactly when that fails; every result is in the i32 range |
| Config.AsBool | src/config/mod.rs:34-43 | a bool is unchanged; an integer is true exactly when non-zero; an f32/f64 is true exactly when its bits are not ±0 (so NaN is true); a string is ParseBool of it, None exactly for text other than "true" or "false" |
| Config.AsI32OfText | src/config/mod.rs:31 | an i32 written into a string value reads back as that integer |
| Config.AsBoolAgreesWithAsI32 | src/config/mod.rs:24-43 | for bools and i32s, `as_bool` is true exactly when `as_i32` is non-zero |
| Config.AsBoolAndAsI32DisagreeOnWrap | src/config/mod.rs:24-43 | for an i64 the bool reading differs from "the i32 reading is non-zero" exactly on the non-zero multiples of 2^32, which are true as bools and 0 as i32s |
| Config.AsF32 | src/config/mod.rs:14-22 | panics (None) exactly on a bool |
| Config.WithDefaults | src/config/mod.rs:60-86 | the keys afterwards are the old ones plus the eleven default names; other names keep their values |
| Config.DefaultValues | src/config/mod.rs:60-86 | each of the eleven defaults has the value `initialize` sets |
| Config.DefaultsWellFormed | src/config/mod.rs:60-86 | every default fits its Rust type |
| Config.Config.constructor | src/config/mod.rs:51-58 | a new store holds exactly the defaults |
| Config.Config.Initialize | src/config/mod.rs:60-86 | the store is its old contents with the eleven defaults set |
| Config.Config.SetVar | src/config/mod.rs:88-91 | inserts or replaces one entry; get_var then returns it; every other name is unchanged |
| Config.Config.GetVar | src/config/mod.rs:93-95 | Some exactly for a stored name, and then its value |
| Config.SetTwice | src/config/mod.rs:88-91 | a second set under the same name replaces the first |
| Config.NewHasDefaults | src/config/mod.rs:51-86 | a fresh store answers with the documented defaults and with None for any other name |
| Config.BelowOneIsZero | src/config/mod.rs:29-30 | a finite float below 1 in magnitude converts to 0 |
| Config.FractionalDefaultsAsI32 | src/config/mod.rs:29-30 | the 0.9 and 0.0005 defaults (lines 70 and 77) read as the integer 0 |
| Config.OnePointFiveAsI32 | src/config/mod.rs:29-30 | the 1.5 default (line 74) reads as 1 |
| Config.NinetyAsI32 | src/config/mod.rs:29-30 | the 90.0 default (line 76) reads as 90 |
| Config.FiftyAsI32 | src/config/mod.rs:29-30 | the 50.0 default (line 78) reads as 50 |
| Config.FloatDefaultsAsBool | src/config/mod.rs:39-40 | the 0.9 and 0.0005 defaults (lines 70 and 77) read as true |
| Config.FloatZerosAsBool | src/config/mod.rs:39-40 | +0.0 and -0.0 of either width read as false, and a NaN reads as true |
| KeyboardTracker.Without | src/game/logic/keyboard_tracker.rs:25 | the key is gone, every other key's membership is unchanged, and the list is no longer |
| KeyboardTracker.WithoutConcat | src/game/logic/keyboard_tracker.rs:25 | removal distributes over concatenation, so the remaining keys keep their order |
| KeyboardTracker.WithoutKeepsOthers | src/game/logic/keyboard_tracker.rs:25 | every other key keeps its number of occurrences |
| KeyboardTracker.WithoutAbsent | src/game/logic/keyboard_tracker.rs:25 | removing an unlisted key changes nothing |
| KeyboardTracker.PressThenRelease | src/game/logic/keyboard_tracker.rs:18-27 | a press followed by a release of the same key leaves what the release alone leaves |
| KeyboardTracker.StepTouchesOnlyItsKey | src/game/logic/keyboard_tracker.rs:16-29 | an event only changes whether its own key is pressed |
| KeyboardTracker.KeyboardTracker.constructor | src/game/logic/keyboard_tracker.rs:8-10 | a new tracker reports no key as pressed |
| KeyboardTracker.KeyboardTracker.IsPressed | src/game/logic/keyboard_tracker.rs:12-14 | true exactly when the key is listed at some position |
| KeyboardTracker.KeyboardTracker.InputEvent | src/game/logic/keyboard_tracker.rs:16-29 | a press appends (duplicates allowed) and the key is then pressed; a release removes every occurrence and the key is then not pressed; no key code means no change; other keys are unaffected |
| KeyboardTracker.DoublePressSingleRelease | src/game/logic/keyboard_tracker.rs:18-27 | two presses and one release of a key leave it released |
| Entity.OfKind | src/game/entity/mod.rs:25-38 | only components of the asked type, every one of them, no more than there are |
| Entity.OfKindConcat | src/game/entity/mod.rs:25-38 | the query distributes over concatenation, so insertion order is kept |
| Entity.AppendOtherKind | src/game/entity/mod.rs:21-38 | adding a component of another type does not change the result |
| Entity.AppendSameKind | src/game/entity/mod.rs:21-38 | adding a component of the asked type puts it at the end of the result |
| Entity.OfKindIdempotent | src/game/entity/mod.rs:25-38 | querying a query's result again changes nothing |
| Entity.SlotsOf | src/game/entity/mod.rs:40-53 | every selected position is inside the list |
| Entity.SlotsOfMatch | src/game/entity/mod.rs:25-53 | the positions hold, one for one and in order, what `get_components` returns |
| Entity.SlotsOfIncreasing | src/game/entity/mod.rs:40-53 | the positions are strictly increasing |
| Entity.SlotsOfComplete | src/game/entity/mod.rs:40-53 | a position is selected exactly when its component has the asked type |
| Entity.Entity.constructor | src/game/entity/mod.rs:14-19 | the given uuid and no components |
| Entity.Entity.AddComponent | src/game/entity/mod.rs:21-23 | appends at the end; uuid and earlier components are unchanged |
| Entity.Entity.GetComponents | src/game/entity/mod.rs:25-38 | exactly the components of the asked type, in insertion order |
| Entity.Entity.GetComponentsMut | src/game/entity/mod.rs:40-53 | the slots of the asked type, holding in order what `get_components` returns |
| Entity.AddTransformKeepsModels | src/game/entity/mod.rs:21-38 | adding a transform never changes what a model query returns |
| Model.FormatSize | src/game/entity/components/model/mod.rs:37-42 | attribute sizes are whole numbers of f32s |
| Model.Desc | src/game/entity/components/model/mod.rs:24-48 | stride 32, per-vertex stepping, attributes at offsets 0, 12, 20 with shader locations 0, 1, 2 |
| Model.DescPacked | src/game/entity/components/model/mod.rs:16-48 | the attributes are packed in field order from offset 0 to the stride, at locations 0, 1, 2 |
| Model.AssembleVertices | src/game/entity/components/model/mod.rs:149-164 | positions.len() / 3 vertices, vertex i built from position triple i, texcoord pair i and normal triple i; None (a panic) exactly when texcoords has fewer than 2n entries or normals fewer than 3n |
| Model.Vertices | src/game/entity/components/model/mod.rs:150-164 | the assembled vertices as a value, vertex by vertex |
| Model.FlattenPositionsPrefix | src/game/entity/components/model/mod.rs:150-164 | flattening the first n vertices' positions gives back the first 3n positions |
| Model.FlattenTexCoordsPrefix | src/game/entity/components/model/mod.rs:150-164 | flattening the first n vertices' texture coordinates gives back the first 2n of them |
| Model.FlattenNormalsPrefix | src/game/entity/components/model/mod.rs:150-164 | flattening the first n vertices' normals gives back the first 3n normals |
| Model.FlattenVertices | src/game/entity/components/model/mod.rs:150-164 | assembly loses nothing it reads: the vertex buffer flattens back to the input arrays, less any trailing partial triple |
| Model.MaterialIndex | src/game/entity/components/model/mod.rs:189 | the mesh's material id, or 0 when absent |
| Model.MeshOf | src/game/entity/components/model/mod.rs:184-190 | name and indices copied from the OBJ model; the vertices are the assembled vertex list (which FlattenVertices inverts); num_elements is the index count when it fits in u32; material per MaterialIndex |
| Model.NoMaterialIdDrawsFirstMaterial | src/game/entity/components/model/mod.rs:184-211 | in a loaded model a mesh without a material id is drawn with material 0, and when the file has no materials `render` panics |
| Model.LoadedMeshesFlatten | src/game/entity/components/model/mod.rs:147-191 | every loaded mesh's vertex buffer flattens back to its OBJ position, texture-coordinate and normal arrays, less a trailing partial triple |
| Model.Load | src/game/entity/components/model/mod.rs:72-198 | one material per OBJ material and one mesh per OBJ model, in file order; the transform is kept; None exactly when some mesh's vertex loop panics |
| Model.Draws | src/game/entity/components/model/mod.rs:200-212 | one indexed draw of 0 .. num_elements (one instance) per mesh, in mesh order, with that mesh's material; None exactly when some mesh names a material the model lacks |
| Model.Render | src/game/entity/components/model/mod.rs:200-212 | issues exactly the draws `Draws` describes, stopping at the first bad material index |
| Model.LoadedModelDraws | src/game/entity/components/model/mod.rs:184-211 | a loaded model draws without a panic exactly when every mesh's material index (0 by default) names a loaded material |

## Left out

- GPU plumbing is not modelled: pipelines, bind-group layouts, shader modules, samplers, command encoders, render and compute passes, `queue.write_buffer` and submits. These are foreign calls. Textures, buffers and bind groups are opaque records or positions in a list.
- The shaders are not modelled: ray marching, denoiser reprojection and blur, mip averaging, voxelization.
- Buffer mapping (`map_async`, `device.poll`, and the `unwrap` on the mapping's result) is left out. The read-back change list is a parameter of `Mipmapper.Render`, which checks only that both voxelizer buffers are registered.
- Image decoding in `register_from_image` and texture upload are left out. The image's dimensions are parameters.
- `Mipmapper.MipLevelCount` uses the integer floor(log2) where the source has `f32` `log2` then `floor`. The two agree on the constant sizes the source uses (512 and 128).
- `Mipmapper.MipLevelCount` requires min(w, h, l) >= 2. Below that, the source's `as u32 - 1` underflows.
- `Mipmapper.DispatchGroups` models `(len as f32 / 1024.0).ceil()` as an integer ceiling. The two differ only above 2^24 positions.
- Frame parity and the window size live in the rendering context in the source. Here they are parameters.
- `Denoiser.Denoiser.Render` does not model the u64 wrap of `frame_count`. It cannot be reached in practice.
- The uniforms snapshot and matrix inverse in the denoiser are floating-point work and are not modelled.
- `VoxelGrid.Paint` stores channels as the exact reals byte / 255. The source stores f32.
- `VoxelGrid.Grid.SetData`'s out-of-bounds slice is a panic in the source. Here it is reported and `FromString` fails with `OutOfRange`.
- A coordinate outside the grid whose slot still fits in the buffer aliases another voxel, as in the source.
- A trailing newline in the scene text gives an empty last line. That line fails to parse, exactly as in the source.
- `VoxelGrid.Grid.PaintLines` is the body of the `from_string` loop, split out as a method of the grid. It is not a separate function in the source.
- `set_voxel` and `write_texture_data` upload to the GPU, and the averaging loop of `write_texture_data` never runs (`get_mip_levels` is 1). Both are left out.
- The width, height and length accessors are the grid's constant fields.
- `usize` is assumed to be 64 bits wide (`Text.UsizeMax`).
- The product width * height * length * 4 is not checked for `usize` overflow.
- VoxelGrid.GridPosition: the offset `((x + width * y) + z * width * length) * 4`, and `set_data`'s `p + 4`, are computed over unbounded integers, not 64-bit `usize`. For a position so far outside the grid that the offset passes 2^64, the source panics in a debug build and wraps in a release build (a 1x1x1 grid with the line `4611686018427387904,0,0,1,1,1` paints cell 0 there). The model instead reports `OutOfRange`. Positions inside the grid are unaffected whenever the buffer itself fits in memory, by GridPositionInBounds.
- `Model.MeshOf` models `num_elements` as the index count mod 2^32, the `as u32` truncation. Its contract states the exact count only when the count fits.
- `Config.AsF32` models which kinds convert and that a bool panics. The conversion of an integer, f64 or string to f32 is floating-point work and is not modelled, and neither is the string parse failure.
- `Config.FloatToI32` states saturation for infinities and 0 for NaN. For finite values its contract gives only the i32 range. Exact truncation is proved for the shipped defaults and for every value below 1 (`Config.BelowOneIsZero`).
- HashMap iteration order in `resize` is unspecified. The model visits keys in an arbitrary order. The contract states each entry's treatment in terms that do not depend on the order; only the fresh ids handed out do.
- The `dyn Any` downcast in the entity is modelled as a closed set of component kinds. A downcast succeeds exactly when the kinds agree.
- The OBJ reader (`tobj::load_obj`), its error unwraps and texture file loading are outside the model. Their output is a parameter of `Model.Load`.
- The model's transform is stored unchanged and is otherwise opaque.
- Entity.Entity.GetComponentsMut returns the positions of the matching components, not mutable references. Writes through them are not modelled.
- Model.Render does not record the camera bind group the caller passes in. `render` sets it before every draw and it does not vary between meshes.
- `src/renderer/voxelizer/mod.rs` is not part of this model. Neither are the renderer orchestration, the windowing loop, the UI, shader loading, file I/O, device bootstrap, or the stub modules (transform, raytracer, common uniforms, entity handle).
