/** The parallel writer of the end-of-simulation entity command buffer, as
    GenerateRegionSystem uses it: an append-only log of structural commands,
    each tagged with the sort key of the work item that recorded it. */
module CommandBuffers {
  import opened Numerics
  import opened Components

  datatype Command =
    | AddHeightMap(sortKey: int, target: Entity, heights: seq<UShort>)
    | Instantiate(sortKey: int, prefab: Entity, placeholder: Entity)
    | SetVoxelChunk(sortKey: int, target: Entity, value: VoxelChunk)
    | AppendLinked(sortKey: int, owner: Entity, child: Entity)
    | AddGenerateChunk(sortKey: int, target: Entity)

  class CommandBuffer {
    /** The commands recorded so far, in recording order. */
    var log: seq<Command>
    /** The number of the next placeholder `Instantiate` hands out. */
    var nextDeferred: nat

    constructor ()
      ensures log == [] && nextDeferred == 0
    {
      log := [];
      nextDeferred := 0;
    }

    /** `AddBuffer<HeightMap>`: attach a height buffer to `target`. */
    method AddHeightMap(sortKey: int, target: Entity, heights: seq<UShort>)
      modifies this
      ensures log == old(log) + [Command.AddHeightMap(sortKey, target, heights)]
      ensures nextDeferred == old(nextDeferred)
    {
      log := log + [Command.AddHeightMap(sortKey, target, heights)];
    }

    /** `Instantiate`: create a copy of `prefab`; the returned placeholder is
        one this buffer has never handed out before. */
    method Instantiate(sortKey: int, prefab: Entity) returns (placeholder: Entity)
      modifies this
      ensures placeholder == Deferred(old(nextDeferred))
      ensures log == old(log) + [Command.Instantiate(sortKey, prefab, placeholder)]
      ensures nextDeferred == old(nextDeferred) + 1
    {
      placeholder := Deferred(nextDeferred);
      log := log + [Command.Instantiate(sortKey, prefab, placeholder)];
      nextDeferred := nextDeferred + 1;
    }

    /** `SetComponent<VoxelChunk>`. */
    method SetVoxelChunk(sortKey: int, target: Entity, value: VoxelChunk)
      modifies this
      ensures log == old(log) + [Command.SetVoxelChunk(sortKey, target, value)]
      ensures nextDeferred == old(nextDeferred)
    {
      log := log + [Command.SetVoxelChunk(sortKey, target, value)];
    }

    /** `AppendToBuffer<LinkedEntityGroup>`. */
    method AppendLinked(sortKey: int, owner: Entity, child: Entity)
      modifies this
      ensures log == old(log) + [Command.AppendLinked(sortKey, owner, child)]
      ensures nextDeferred == old(nextDeferred)
    {
      log := log + [Command.AppendLinked(sortKey, owner, child)];
    }

    /** `AddComponent<GenerateChunk>`. */
    method AddGenerateChunk(sortKey: int, target: Entity)
      modifies this
      ensures log == old(log) + [Command.AddGenerateChunk(sortKey, target)]
      ensures nextDeferred == old(nextDeferred)
    {
      log := log + [Command.AddGenerateChunk(sortKey, target)];
    }
  }
}
