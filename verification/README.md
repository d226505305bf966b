# GenerateRegionSystem — a verified model

This project models `GenerateRegionSystem` from dots-blockworld in Dafny. It is the
Unity ECS system that turns a freshly created terrain *region* into a height map and a
column of voxel *chunks*.

Each frame the system asks the engine for every entity that has a `Region` and the
`GenerateRegion` tag but no `HeightMap` buffer. For each such entity the parallel job
does the following:

- It records an `AddBuffer<HeightMap>` into the end-of-simulation entity command
  buffer and fills the 16 × 16 buffer in place. `BuildMap` samples the noise at the
  region origin plus each cell's local position and tracks the highest sample, starting
  from `int.MinValue`.
- If the highest sample is 0 it stops there.
- Otherwise it records four commands for every chunk layer `0 ..= highest / CellSizeY`:
  - instantiate the chunk prefab;
  - set its `VoxelChunk` (index `(region.x, layer, region.y)` and a back reference to
    the region);
  - append the new chunk to the region's `LinkedEntityGroup`;
  - tag it `GenerateChunk`.
- Every command carries the job's `entityInQueryIndex` as its sort key.

The barrier plays the commands back later. Once a region has its height map, the query
no longer selects it.

The model has these parts:

- **numerics.dfy**: C# `int` and `ushort` ranges, and 32-bit wrap-around (`Wrap32`).
- **components.dfy**: the components involved and the entity store (`World`, a map from
  entity to its components). It also holds the query predicate (`Selected`) and the
  freshness of deferred entities.
- **height_map.dfy**: `BuildMap` as an in-place loop over an `array`, proved against the
  specification function `Heights`. The running maximum is the fold `Highest`, with
  lemmas saying that it bounds every cell and is attained.
- **command_buffer.dfy**: the parallel command-buffer writer, as a class whose append-only
  log the recording methods extend. `Instantiate` hands out numbered placeholder entities.
- **playback.dfy**: what the barrier does with the log, as a pure function over the
  entity store.
- **generate_region_system.dfy**: the `ForEach` body (`GenerateRegion`, with its chunk loop
  `RecordChunks`), the query (`QueryRegions`), the job over the query rows (`ForEachRegion`)
  and the update (`OnUpdate`). Each is
  proved against specification functions of the recorded log (`RegionCommands`,
  `PassCommands`).
- **generate_region_properties.dfy**: the layout of one region's commands and of a whole pass.
- **generate_region_replay.dfy**: the world after playback. A second pass selects nothing.

## Model

| member | source | states |
|---|---|---|
| Numerics.Wrap32 | Assets/BlockGame/Runtime/Regions/Generation/GenerateRegionSystem.cs:53-54 | C# `int` arithmetic: a result in range is unchanged, and any result is congruent to the exact value modulo 2^32 |
| Components.NeedsGeneration | Assets/BlockGame/Runtime/Regions/Generation/GenerateRegionSystem.cs:24-28 | the query filter on one entity: it has a `Region` and the `GenerateRegion` tag and no `HeightMap` buffer |
| Components.Selected | Assets/BlockGame/Runtime/Regions/Generation/GenerateRegionSystem.cs:45-46 | the entities the `ForEach` visits: exactly the entities of the store that pass the filter |
| Components.SelectionUpdate | Assets/BlockGame/Runtime/Regions/Generation/GenerateRegionSystem.cs:45-46 | changing one entity's components changes the selection at that entity only, which is selected afterwards exactly when its new components pass the filter; so attaching a height map deselects the region, and a new entity without `Region` is never selected |
| HeightMapBuilder.CellPos | Assets/BlockGame/Runtime/Regions/Generation/GenerateRegionSystem.cs:97-99 | the world position of cell `i` is `origin + IndexToPos(i)` in C# `int`: the exact sum whenever it fits in 32 bits, wrapped otherwise |
| HeightMapBuilder.CellHeight | Assets/BlockGame/Runtime/Regions/Generation/GenerateRegionSystem.cs:100-107 | the cell's height is the sample at its world position (noise, floor and `ushort` cast folded into `sample`) |
| HeightMapBuilder.Heights | Assets/BlockGame/Runtime/Regions/Generation/GenerateRegionSystem.cs:95-107 | the buffer the loop leaves: `n` cells, cell `i` holding its `CellHeight` |
| HeightMapBuilder.Highest | Assets/BlockGame/Runtime/Regions/Generation/GenerateRegionSystem.cs:93-108 | the running maximum is `int.MinValue` for an empty buffer and a `ushort` value (0 ≤ h < 65536) otherwise |
| HeightMapBuilder.HighestIsUpperBound | Assets/BlockGame/Runtime/Regions/Generation/GenerateRegionSystem.cs:93-108 | every cell is at most `highest` |
| HeightMapBuilder.HighestIsAttained | Assets/BlockGame/Runtime/Regions/Generation/GenerateRegionSystem.cs:93-108 | in a non-empty buffer `highest` equals some cell |
| HeightMapBuilder.FlatBufferIsAllZero | Assets/BlockGame/Runtime/Regions/Generation/GenerateRegionSystem.cs:62-63 | for a non-empty buffer, `highest == 0` (the early return) holds exactly when every cell is 0 |
| HeightMapBuilder.BuildMap | Assets/BlockGame/Runtime/Regions/Generation/GenerateRegionSystem.cs:87-110 | after the loop, cell `i` of the buffer holds the sample at `origin + IndexToPos(i)` (32-bit wrapped), and `highest` is the running maximum of the whole buffer |
| CommandBuffers.CommandBuffer.constructor | Assets/BlockGame/Runtime/Regions/Generation/GenerateRegionSystem.cs:36 | a new buffer has an empty log and no placeholders handed out |
| CommandBuffers.CommandBuffer.AddHeightMap | Assets/BlockGame/Runtime/Regions/Generation/GenerateRegionSystem.cs:49 | appends exactly one `AddHeightMap` command for the target; nothing else changes |
| CommandBuffers.CommandBuffer.Instantiate | Assets/BlockGame/Runtime/Regions/Generation/GenerateRegionSystem.cs:71 | returns a new placeholder numbered after all earlier ones and appends one `Instantiate` naming it |
| CommandBuffers.CommandBuffer.SetVoxelChunk | Assets/BlockGame/Runtime/Regions/Generation/GenerateRegionSystem.cs:73-77 | appends exactly one `SetComponent<VoxelChunk>` command |
| CommandBuffers.CommandBuffer.AppendLinked | Assets/BlockGame/Runtime/Regions/Generation/GenerateRegionSystem.cs:79 | appends exactly one `AppendToBuffer<LinkedEntityGroup>` command |
| CommandBuffers.CommandBuffer.AddGenerateChunk | Assets/BlockGame/Runtime/Regions/Generation/GenerateRegionSystem.cs:80 | appends exactly one `AddComponent<GenerateChunk>` command |
| Playback.Apply | Assets/BlockGame/Runtime/Regions/Generation/GenerateRegionSystem.cs:49-80 | playing back one recorded command never removes an entity; a command naming a missing entity, the prefab of an `Instantiate` included, fails |
| Playback.Replay | Assets/BlockGame/Runtime/Regions/Generation/GenerateRegionSystem.cs:84 | the barrier plays the pass's log back serially, in recording order, and playback fails at the first command that fails |
| Playback.ReplayAppend | Assets/BlockGame/Runtime/Regions/Generation/GenerateRegionSystem.cs:84 | playing back two logs in turn is playing back their concatenation; a failure in the first stops it |
| GenerateRegionSystem.Origin | Assets/BlockGame/Runtime/Regions/Generation/GenerateRegionSystem.cs:54 | the region origin `regionIndex * chunkSize` in C# `int`: the exact product whenever it fits in 32 bits, wrapped otherwise |
| GenerateRegionSystem.RegionHeights | Assets/BlockGame/Runtime/Regions/Generation/GenerateRegionSystem.cs:49-50 | a region's height map has `chunkSize * chunkSize` = 256 cells |
| GenerateRegionSystem.ChunkLayerCount | Assets/BlockGame/Runtime/Regions/Generation/GenerateRegionSystem.cs:62-68 | the number of chunk layers is 0 exactly when `highest == 0`; otherwise it is the `n` with `(n-1)·CellSizeY ≤ highest < n·CellSizeY`, i.e. layers `0 ..= highest / CellSizeY` |
| GenerateRegionSystem.DivisionBounds | Assets/BlockGame/Runtime/Regions/Generation/GenerateRegionSystem.cs:65 | `highest / CellSizeY` is the layer containing `highest` |
| GenerateRegionSystem.LayerCommands | Assets/BlockGame/Runtime/Regions/Generation/GenerateRegionSystem.cs:70-80 | one turn of the chunk loop: instantiate the prefab as the layer's placeholder; set its `VoxelChunk` to index `(region.x, layer, region.y)` and region `e`; append it to `e`'s `LinkedEntityGroup`; tag it `GenerateChunk`; all with the work item's sort key, in that order |
| GenerateRegionSystem.ChunkCommands | Assets/BlockGame/Runtime/Regions/Generation/GenerateRegionSystem.cs:68-81 | the first `layers` turns of the chunk loop, layer 0 first, layer `j` using placeholder `base + j` |
| GenerateRegionSystem.RegionCommands | Assets/BlockGame/Runtime/Regions/Generation/GenerateRegionSystem.cs:49-81 | one work item: the height map command first, then the chunk loop over `ChunkLayerCount(highest)` layers (none for a flat region) |
| GenerateRegionSystem.FillHeightMap | Assets/BlockGame/Runtime/Regions/Generation/GenerateRegionSystem.cs:49-60 | the filled buffer is the region's height map, and `highest` is its running maximum |
| GenerateRegionSystem.GenerateRegion | Assets/BlockGame/Runtime/Regions/Generation/GenerateRegionSystem.cs:47-81 | one work item appends exactly `RegionCommands` for its region to the log and hands out exactly one placeholder per chunk layer |
| GenerateRegionSystem.RecordChunks | Assets/BlockGame/Runtime/Regions/Generation/GenerateRegionSystem.cs:68-81 | the chunk loop over layers `0 ..= maxChunkHeight` appends exactly those layers' commands in ascending order and hands out exactly `maxChunkHeight + 1` placeholders |
| GenerateRegionSystem.ChunkStep | Assets/BlockGame/Runtime/Regions/Generation/GenerateRegionSystem.cs:68-81 | one turn of the chunk loop extends the log by that layer's four commands |
| GenerateRegionSystem.RowHeights | Assets/BlockGame/Runtime/Regions/Generation/GenerateRegionSystem.cs:49-60 | each row's work item builds a non-empty height map of 256 cells |
| GenerateRegionSystem.QueryRegions | Assets/BlockGame/Runtime/Regions/Generation/GenerateRegionSystem.cs:43-47 | the query yields every entity with `Region` and `GenerateRegion` but no `HeightMap`, each once, with its `Region` |
| GenerateRegionSystem.EnumeratesSelection | Assets/BlockGame/Runtime/Regions/Generation/GenerateRegionSystem.cs:43-47 | what the engine hands the `ForEach`: every entity with `Region` and `GenerateRegion` but no `HeightMap`, each exactly once, with its own `Region` |
| GenerateRegionSystem.PassLayerCount | Assets/BlockGame/Runtime/Regions/Generation/GenerateRegionSystem.cs:62-68 | the number of chunks the work items of the first `n` rows create: nothing for a height map whose highest cell is 0, otherwise `highest / CellSizeY + 1` each |
| GenerateRegionSystem.PassCommands | Assets/BlockGame/Runtime/Regions/Generation/GenerateRegionSystem.cs:43-82 | the log the work items of the first `n` rows leave, row after row; row `k` records with sort key `k` and its chunk placeholders follow those of rows `0 .. k` |
| GenerateRegionSystem.PassStep | Assets/BlockGame/Runtime/Regions/Generation/GenerateRegionSystem.cs:47 | row `k` of the query records with sort key `k`, and its placeholders are numbered after those of rows `0 .. k` |
| GenerateRegionSystem.ForEachRegion | Assets/BlockGame/Runtime/Regions/Generation/GenerateRegionSystem.cs:43-82 | the job over the query rows appends, row after row, exactly what each row's region records, with `entityInQueryIndex` the row number, and hands out one placeholder per chunk of the pass |
| GenerateRegionSystem.OnUpdate | Assets/BlockGame/Runtime/Regions/Generation/GenerateRegionSystem.cs:34-85 | a pass enumerates the selection and appends, row after row, exactly what each region records |
| GenerateRegionProperties.ChunkCommandsLength | Assets/BlockGame/Runtime/Regions/Generation/GenerateRegionSystem.cs:68-81 | the chunk loop records four commands per layer |
| GenerateRegionProperties.ChunkCommandsAt | Assets/BlockGame/Runtime/Regions/Generation/GenerateRegionSystem.cs:68-81 | layer `j`'s commands sit at positions `4j .. 4j+4`, so layers appear in ascending order |
| GenerateRegionProperties.LayerSubjects | Assets/BlockGame/Runtime/Regions/Generation/GenerateRegionSystem.cs:70-80 | the four commands of one layer all concern that layer's chunk, carry the work item's sort key, and attach no height map |
| GenerateRegionProperties.ChunkCommandsSubjects | Assets/BlockGame/Runtime/Regions/Generation/GenerateRegionSystem.cs:68-81 | every command of the chunk loop carries the sort key and concerns one of the region's new placeholders |
| GenerateRegionProperties.RegionCommandsLayout | Assets/BlockGame/Runtime/Regions/Generation/GenerateRegionSystem.cs:49-81 | for a region: the height map comes first, also for a flat region; a flat region records only it; otherwise there are `highest / CellSizeY + 1` layers in ascending order, four commands each, with the right chunk index and region back reference; every command carries the same sort key |
| GenerateRegionProperties.ChunkCommandAt | Assets/BlockGame/Runtime/Regions/Generation/GenerateRegionSystem.cs:68-81 | command `i` of the chunk loop is command `i % 4` of layer `i / 4` |
| GenerateRegionProperties.ChunkCommandsDistinct | Assets/BlockGame/Runtime/Regions/Generation/GenerateRegionSystem.cs:68-81 | no command is recorded twice: each chunk is instantiated, set, linked and tagged exactly once |
| GenerateRegionProperties.PassSortKeys | Assets/BlockGame/Runtime/Regions/Generation/GenerateRegionSystem.cs:36 | a pass's sort keys are row numbers and never decrease along the log, so playback in sort-key order is playback in recording order |
| GenerateRegionProperties.RegionSortKeys | Assets/BlockGame/Runtime/Regions/Generation/GenerateRegionSystem.cs:47-81 | all of one work item's commands carry its `entityInQueryIndex` |
| GenerateRegionReplay.ReplayLayer | Assets/BlockGame/Runtime/Regions/Generation/GenerateRegionSystem.cs:70-80 | playback of one layer creates the chunk with its `VoxelChunk` and `GenerateChunk` and appends it to the region's group |
| GenerateRegionReplay.ReplayChunks | Assets/BlockGame/Runtime/Regions/Generation/GenerateRegionSystem.cs:68-81 | playback of the chunk loop succeeds; afterwards the region's group is extended by exactly the new chunks in layer order, each chunk holds its index and back reference, and no other entity changes |
| GenerateRegionReplay.ReplayRegion | Assets/BlockGame/Runtime/Regions/Generation/GenerateRegionSystem.cs:47-81 | playback of one region's commands attaches the height map and adds the chunks; the region leaves the selection and nothing else enters or leaves it |
| GenerateRegionReplay.RegionWorldFacts | Assets/BlockGame/Runtime/Regions/Generation/GenerateRegionSystem.cs:45-46 | the new chunks carry no `Region`, so only the region's own selection changes |
| GenerateRegionReplay.ReplayPass | Assets/BlockGame/Runtime/Regions/Generation/GenerateRegionSystem.cs:43-82 | playback of a whole pass succeeds and keeps every entity; each row's entity holds its region's height map, and exactly the rows' entities leave the selection |
| GenerateRegionReplay.SecondPassSelectsNothing | Assets/BlockGame/Runtime/Regions/Generation/GenerateRegionSystem.cs:44-47 | after playback of a pass over the selection, the query selects nothing, so the next pass enumerates no region: no region is processed twice |

## Left out

- The noise (`NoiseUtil.SumOctave` with its settings) and the `floor` / `(ushort)` cast are not part of this model. They form the parameter `sample`, a function from a world position to a `ushort` value; floating point is not modelled.
- `Grid2D.IndexToPos` and `Grid3D.CellSizeY` are not part of this model. They are the parameters `indexToPos` and `cellSizeY` (required positive, as a divisor).
- BuildMap: its `size` parameter is never read by the source and is dropped.
- FillHeightMap: in the source the buffer is recorded first (`AddBuffer`) and filled afterwards, in place, through the returned view. The model fills a fresh array and records the filled contents as one command value. Nothing is recorded between the two, so the log is the same, but aliasing between the command buffer and the array is not modelled.
- ForEachRegion: `ScheduleParallel` runs work items concurrently. The model runs them one after another in query order. Each work item writes with its own sort key, and playback is in sort-key order (see PassSortKeys).
- OnUpdate: the order in which the engine enumerates the query is chosen by `:|` and not constrained further.
- Playback is the engine's. The model gives it the obvious meaning: a command on a missing entity fails (an `Instantiate` whose prefab is missing included), and an instantiated entity is blank. The contents of the chunk prefab are not part of this model.
- Playback.Apply: placeholders are never remapped. The engine turns each placeholder into a new real entity at playback; here the placeholder `Deferred(j)` itself becomes the new entity's key. The source creates a new command buffer on every update (line 36), and the model's buffer numbers from 0 again, so the replay lemmas (ReplayChunks, ReplayRegion, ReplayPass, SecondPassSelectsNothing) require `FreshFrom(w, base)`: no placeholder numbered `base` or above is already in the store. The engine needs no such condition; a model of a later update must continue the numbering rather than restart it.
- Playback.Apply: setting `VoxelChunk` and appending to `LinkedEntityGroup` succeed on any existing entity. In the engine, `SetComponent<VoxelChunk>` (line 73) needs the chunk prefab to carry `VoxelChunk`, and `AppendToBuffer<LinkedEntityGroup>` (line 79) needs the region to own that buffer already. The model assumes both: every entity has a group (empty at first), and setting a component adds it. So "playback succeeds" in ReplayChunks, ReplayRegion, ReplayPass and SecondPassSelectsNothing holds under those two assumptions about the prefab and the region.
- RecordChunks: requires `maxChunkHeight < int.MaxValue`. In the source, the loop `chunkIndexY <= maxChunkHeight` with `++chunkIndexY` would never end at `int.MaxValue`, because the increment wraps. That cannot happen: `highest` is a `ushort` value (Highest), so `maxChunkHeight <= 65535`.
- The `GenerateRegion` tag is never removed by this system. A region leaves the query only because it gains a `HeightMap` buffer, and the model follows that.
- Settings loading (`Resources.Load`), system lookup (`GetOrCreateSystem`), `GetVoxelChunkPrefab` and `AddJobHandleForProducer` are engine plumbing and are not modelled. The prefab is the parameter `chunkPrefab`.
- The `_regionsToGenerate` query and the `RegionGenerated` component are declared but unused by the update, and are not modelled beyond the query predicate they share.
