/** GenerateRegionSystem: for every region that still needs generating, build
    its height map and record, into the end-of-simulation command buffer, the
    commands that attach the height map and create the region's chunks. */
module GenerateRegionSystem {
  import opened Numerics
  import opened Components
  import opened CommandBuffers
  import opened HeightMapBuilder

  /** `chunkSize` in OnUpdate: a region is 16 by 16 cells. */
  const ChunkSize: int := 16

  /** The region's world origin, `regionIndex * chunkSize` in C# `int`. */
  function Origin(regionIndex: Int2): (o: Int2)
    ensures IntMinValue <= regionIndex.x * ChunkSize <= IntMaxValue ==> o.x == regionIndex.x * ChunkSize
    ensures IntMinValue <= regionIndex.y * ChunkSize <= IntMaxValue ==> o.y == regionIndex.y * ChunkSize
  {
    Int2(Wrap32(regionIndex.x * ChunkSize), Wrap32(regionIndex.y * ChunkSize))
  }

  /** The height map the builder produces for the region at `regionIndex`. */
  function RegionHeights(regionIndex: Int2, sample: (Int32, Int32) -> UShort,
                         indexToPos: int -> Int2): (hs: seq<UShort>)
    ensures |hs| == ChunkSize * ChunkSize
  {
    Heights(ChunkSize * ChunkSize, Origin(regionIndex), sample, indexToPos)
  }

  /** Concatenation is associative; stated once so that proofs about growing
      logs need not rediscover it element by element. */
  lemma AppendAssoc<T>(a: seq<T>, b: seq<T>, c: seq<T>)
    ensures (a + b) + c == a + (b + c)
  {
  }

  /** The number of chunk layers a region gets: none when its highest cell is
      0, otherwise layers `0..=highest / cellSizeY`. The top layer is the one
      that holds the highest cell. */
  function ChunkLayerCount(highest: int, cellSizeY: int): (n: nat)
    requires 0 <= highest && cellSizeY > 0
    ensures n == 0 <==> highest == 0
    ensures n > 0 ==> (n - 1) * cellSizeY <= highest < n * cellSizeY
    ensures n <= highest + 1
  {
    if highest == 0 then 0
    else
      DivisionBounds(highest, cellSizeY);
      highest / cellSizeY + 1
  }

  /** Truncating division of a non-negative height by a positive cell size:
      `h / c` is the layer that holds height `h`. */
  lemma DivisionBounds(h: int, c: int)
    requires 0 <= h && 0 < c
    ensures (h / c) * c <= h < (h / c + 1) * c
    ensures 0 <= h / c <= h
  {
    var q := h / c;
    assert h == q * c + h % c;
    assert (q + 1) * c == q * c + c;
    MulAtLeast(q, c);
  }

  lemma {:induction false} MulAtLeast(q: int, c: int)
    requires 0 <= q && 1 <= c
    ensures q <= q * c
  {
    if c > 1 {
      MulAtLeast(q, c - 1);
      assert q * c == q * (c - 1) + q;
    }
  }

  /** The placeholder the command buffer hands out for layer `layer` when its
      counter stood at `base` before the region's first chunk. */
  function ChunkPlaceholder(base: nat, layer: nat): Entity {
    Deferred(base + layer)
  }

  /** The four commands one iteration of the chunk loop records. */
  function LayerCommands(key: int, e: Entity, regionIndex: Int2, prefab: Entity,
                         base: nat, layer: nat): seq<Command>
    requires layer <= IntMaxValue
  {
    var chunk := ChunkPlaceholder(base, layer);
    [ Command.Instantiate(key, prefab, chunk),
      Command.SetVoxelChunk(key, chunk, VoxelChunk(Int3(regionIndex.x, layer, regionIndex.y), e)),
      Command.AppendLinked(key, e, chunk),
      Command.AddGenerateChunk(key, chunk) ]
  }

  /** The commands of the first `layers` iterations of the chunk loop. */
  function ChunkCommands(key: int, e: Entity, regionIndex: Int2, prefab: Entity,
                         base: nat, layers: nat): seq<Command>
    requires layers <= IntMaxValue
  {
    if layers == 0 then []
    else ChunkCommands(key, e, regionIndex, prefab, base, layers - 1)
         + LayerCommands(key, e, regionIndex, prefab, base, layers - 1)
  }

  /** Everything the work item for region `e` records. */
  function RegionCommands(key: int, e: Entity, regionIndex: Int2, heights: seq<UShort>,
                          prefab: Entity, base: nat, cellSizeY: int): seq<Command>
    requires heights != [] && cellSizeY > 0
  {
    [Command.AddHeightMap(key, e, heights)]
    + ChunkCommands(key, e, regionIndex, prefab, base, ChunkLayerCount(Highest(heights), cellSizeY))
  }

  /** The height map of a region: a buffer of `ChunkSize * ChunkSize` cells,
      filled by `BuildMap` from the region's origin, and its highest cell. */
  method FillHeightMap(regionIndex: Int2, sample: (Int32, Int32) -> UShort, indexToPos: int -> Int2)
    returns (heights: seq<UShort>, highest: int)
    ensures heights == RegionHeights(regionIndex, sample, indexToPos)
    ensures highest == Highest(heights)
  {
    var buffer := new UShort[ChunkSize * ChunkSize];
    var origin := Origin(regionIndex);
    highest := BuildMap(buffer, origin, sample, indexToPos);
    heights := buffer[..];
  }

  /** The body of the `ForEach` in OnUpdate, for one region. */
  method GenerateRegion(ecb: CommandBuffer, entityInQueryIndex: int, e: Entity, region: Region,
                        chunkPrefab: Entity, cellSizeY: int,
                        sample: (Int32, Int32) -> UShort, indexToPos: int -> Int2)
    requires cellSizeY > 0
    modifies ecb
    ensures ecb.log == old(ecb.log)
                       + RegionCommands(entityInQueryIndex, e, region.index,
                                        RegionHeights(region.index, sample, indexToPos),
                                        chunkPrefab, old(ecb.nextDeferred), cellSizeY)
    ensures ecb.nextDeferred == old(ecb.nextDeferred)
                                + ChunkLayerCount(Highest(RegionHeights(region.index, sample, indexToPos)), cellSizeY)
  {
    var regionIndex := region.index;
    var heights, highest := FillHeightMap(regionIndex, sample, indexToPos);
    ghost var initial := ecb.log;
    ecb.AddHeightMap(entityInQueryIndex, e, heights);
    ghost var layers := ChunkLayerCount(highest, cellSizeY);
    AppendAssoc(initial, [Command.AddHeightMap(entityInQueryIndex, e, heights)],
                ChunkCommands(entityInQueryIndex, e, regionIndex, chunkPrefab, ecb.nextDeferred, layers));
    if highest == 0 {
      assert ChunkCommands(entityInQueryIndex, e, regionIndex, chunkPrefab, ecb.nextDeferred, layers) == [];
      return;
    }
    var maxChunkHeight := highest / cellSizeY;
    assert maxChunkHeight + 1 == layers;
    RecordChunks(ecb, entityInQueryIndex, e, regionIndex, chunkPrefab, maxChunkHeight);
  }

  /** The chunk loop of the `ForEach` body: for every layer
      `0 ..= maxChunkHeight`, instantiate a chunk, give it its `VoxelChunk`,
      link it into the region's group and tag it for generation. */
  method RecordChunks(ecb: CommandBuffer, entityInQueryIndex: int, e: Entity, regionIndex: Int2,
                      chunkPrefab: Entity, maxChunkHeight: int)
    requires 0 <= maxChunkHeight < IntMaxValue
    modifies ecb
    ensures ecb.log == old(ecb.log)
                       + ChunkCommands(entityInQueryIndex, e, regionIndex, chunkPrefab, old(ecb.nextDeferred),
                                       maxChunkHeight + 1)
    ensures ecb.nextDeferred == old(ecb.nextDeferred) + maxChunkHeight + 1
  {
    ghost var base := ecb.nextDeferred;
    ghost var start := ecb.log;
    for chunkIndexY := 0 to maxChunkHeight + 1
      invariant ecb.log == start + ChunkCommands(entityInQueryIndex, e, regionIndex, chunkPrefab, base, chunkIndexY)
      invariant ecb.nextDeferred == base + chunkIndexY
    {
      ghost var before := ecb.log;
      var chunkIndex := Int3(regionIndex.x, chunkIndexY, regionIndex.y);
      var chunk := ecb.Instantiate(entityInQueryIndex, chunkPrefab);
      ghost var l1 := ecb.log;
      ecb.SetVoxelChunk(entityInQueryIndex, chunk, VoxelChunk(chunkIndex, e));
      ghost var l2 := ecb.log;
      ecb.AppendLinked(entityInQueryIndex, e, chunk);
      ghost var l3 := ecb.log;
      ecb.AddGenerateChunk(entityInQueryIndex, chunk);
      ChunkStep(start, before, l1, l2, l3, ecb.log, entityInQueryIndex, e, regionIndex, chunkPrefab, base,
                chunkIndexY, chunk);
    }
  }

  /** One iteration of the chunk loop appends the four commands of its layer. */
  lemma ChunkStep(start: seq<Command>, before: seq<Command>, l1: seq<Command>, l2: seq<Command>,
                  l3: seq<Command>, after: seq<Command>, key: int,
                  e: Entity, regionIndex: Int2, prefab: Entity, base: nat, layer: nat, chunk: Entity)
    requires layer < IntMaxValue && chunk == ChunkPlaceholder(base, layer)
    requires before == start + ChunkCommands(key, e, regionIndex, prefab, base, layer)
    requires l1 == before + [Command.Instantiate(key, prefab, chunk)]
    requires l2 == l1 + [Command.SetVoxelChunk(key, chunk, VoxelChunk(Int3(regionIndex.x, layer, regionIndex.y), e))]
    requires l3 == l2 + [Command.AppendLinked(key, e, chunk)]
    requires after == l3 + [Command.AddGenerateChunk(key, chunk)]
    ensures after == start + ChunkCommands(key, e, regionIndex, prefab, base, layer + 1)
  {
    var layerCommands := LayerCommands(key, e, regionIndex, prefab, base, layer);
    assert after == before + layerCommands;
    AppendAssoc(start, ChunkCommands(key, e, regionIndex, prefab, base, layer), layerCommands);
  }

  /** One entity the query hands to the `ForEach`, with its `Region`. */
  datatype QueryRow = QueryRow(entity: Entity, region: Region)

  function RowEntities(rows: seq<QueryRow>): set<Entity> {
    set i | 0 <= i < |rows| :: rows[i].entity
  }

  /** The query rows, in some order, are exactly the selected entities of `w`,
      each once, with their `Region` components. */
  ghost predicate EnumeratesSelection(w: World, rows: seq<QueryRow>) {
    RowEntities(rows) == Selected(w)
    && (forall i, j :: 0 <= i < j < |rows| ==> rows[i].entity != rows[j].entity)
    && (forall i :: 0 <= i < |rows| ==>
          rows[i].entity in w && w[rows[i].entity].region == Some(rows[i].region))
  }

  /** Every height map of a pass is non-empty, so each has a highest cell. */
  predicate AllNonEmpty(maps: seq<seq<UShort>>) {
    forall i :: 0 <= i < |maps| ==> maps[i] != []
  }

  /** The height map each row's work item builds, row by row. */
  function RowHeights(rows: seq<QueryRow>, sample: (Int32, Int32) -> UShort,
                      indexToPos: int -> Int2): (maps: seq<seq<UShort>>)
    ensures |maps| == |rows| && AllNonEmpty(maps)
    ensures forall i :: 0 <= i < |rows| ==> |maps[i]| == ChunkSize * ChunkSize
  {
    seq(|rows|, i requires 0 <= i < |rows| => RegionHeights(rows[i].region.index, sample, indexToPos))
  }

  /** How many chunks the work items of the first `n` rows of a pass create,
      row `i` having built height map `maps[i]`. */
  function PassLayerCount(maps: seq<seq<UShort>>, n: nat, cellSizeY: int): nat
    requires n <= |maps| && AllNonEmpty(maps) && cellSizeY > 0
  {
    if n == 0 then 0
    else PassLayerCount(maps, n - 1, cellSizeY) + ChunkLayerCount(Highest(maps[n - 1]), cellSizeY)
  }

  /** Everything the work items of the first `n` rows of a pass record, row
      `i` having built height map `maps[i]`; row `i` records with sort key `i`
      and numbers its placeholders after those of the rows before it. */
  function PassCommands(rows: seq<QueryRow>, maps: seq<seq<UShort>>, n: nat, base: nat, prefab: Entity,
                        cellSizeY: int): seq<Command>
    requires n <= |rows| == |maps| && AllNonEmpty(maps) && cellSizeY > 0
  {
    if n == 0 then []
    else
      PassCommands(rows, maps, n - 1, base, prefab, cellSizeY)
      + RegionCommands(n - 1, rows[n - 1].entity, rows[n - 1].region.index, maps[n - 1], prefab,
                       base + PassLayerCount(maps, n - 1, cellSizeY), cellSizeY)
  }

  /** One iteration of the pass: after the first `k` rows, the work item for
      row `k` records its region's commands with sort key `k` and placeholders
      numbered after those of the earlier rows. */
  lemma PassStep(query: seq<QueryRow>, maps: seq<seq<UShort>>, k: nat, row: QueryRow, offset: nat,
                 start: seq<Command>, before: seq<Command>, after: seq<Command>, base: nat,
                 prefab: Entity, cellSizeY: int)
    requires k < |query| == |maps| && AllNonEmpty(maps) && cellSizeY > 0 && row == query[k]
    requires offset == base + PassLayerCount(maps, k, cellSizeY)
    requires before == start + PassCommands(query, maps, k, base, prefab, cellSizeY)
    requires after == before + RegionCommands(k, row.entity, row.region.index, maps[k], prefab,
                                              offset, cellSizeY)
    ensures after == start + PassCommands(query, maps, k + 1, base, prefab, cellSizeY)
    ensures PassLayerCount(maps, k + 1, cellSizeY) == offset - base + ChunkLayerCount(Highest(maps[k]), cellSizeY)
  {
    AppendAssoc(start, PassCommands(query, maps, k, base, prefab, cellSizeY),
                RegionCommands(k, row.entity, row.region.index, maps[k], prefab, offset, cellSizeY));
  }

  /** The query of the `ForEach` (`WithNone<HeightMap>`, `WithAll<GenerateRegion>`,
      `in Region`), evaluated by the engine: every selected entity once, with its
      `Region`, in an order the engine chooses. */
  method QueryRegions(w: World) returns (rows: seq<QueryRow>)
    ensures EnumeratesSelection(w, rows)
  {
    var pending := Selected(w);
    rows := [];
    while pending != {}
      invariant pending !! RowEntities(rows) && pending + RowEntities(rows) == Selected(w)
      invariant forall i, j :: 0 <= i < j < |rows| ==> rows[i].entity != rows[j].entity
      invariant forall i :: 0 <= i < |rows| ==>
                  rows[i].entity in w && w[rows[i].entity].region == Some(rows[i].region)
      decreases pending
    {
      var e :| e in pending;
      assert e in Selected(w);
      ghost var prev := rows;
      rows := rows + [QueryRow(e, w[e].region.value)];
      assert RowEntities(rows) == RowEntities(prev) + {e} by {
        assert rows[|prev|].entity == e;
        assert forall i :: 0 <= i < |prev| ==> rows[i] == prev[i];
      }
      pending := pending - {e};
    }
  }

  /** The scheduled `ForEach` job: the work item of row `i` runs with
      `entityInQueryIndex == i`, one row after another. */
  method ForEachRegion(ecb: CommandBuffer, query: seq<QueryRow>, chunkPrefab: Entity, cellSizeY: int,
                       sample: (Int32, Int32) -> UShort, indexToPos: int -> Int2)
    requires cellSizeY > 0
    modifies ecb
    ensures ecb.log == old(ecb.log) + PassCommands(query, RowHeights(query, sample, indexToPos), |query|,
                                                   old(ecb.nextDeferred), chunkPrefab, cellSizeY)
    ensures ecb.nextDeferred == old(ecb.nextDeferred)
                                + PassLayerCount(RowHeights(query, sample, indexToPos), |query|, cellSizeY)
  {
    ghost var maps := RowHeights(query, sample, indexToPos);
    ghost var base := ecb.nextDeferred;
    ghost var start := ecb.log;
    for entityInQueryIndex := 0 to |query|
      invariant ecb.log == start + PassCommands(query, maps, entityInQueryIndex, base, chunkPrefab, cellSizeY)
      invariant ecb.nextDeferred == base + PassLayerCount(maps, entityInQueryIndex, cellSizeY)
    {
      ghost var before, offset := ecb.log, ecb.nextDeferred;
      var row := query[entityInQueryIndex];
      GenerateRegion(ecb, entityInQueryIndex, row.entity, row.region, chunkPrefab, cellSizeY, sample, indexToPos);
      assert maps[entityInQueryIndex] == RegionHeights(row.region.index, sample, indexToPos);
      PassStep(query, maps, entityInQueryIndex, row, offset, start, before, ecb.log, base, chunkPrefab,
               cellSizeY);
    }
  }

  /** OnUpdate: run the `ForEach` body over every entity the query selects,
      numbering them from 0 in the order the query yields them. */
  method OnUpdate(w: World, ecb: CommandBuffer, chunkPrefab: Entity, cellSizeY: int,
                  sample: (Int32, Int32) -> UShort, indexToPos: int -> Int2)
    returns (ghost rows: seq<QueryRow>)
    requires cellSizeY > 0
    modifies ecb
    ensures EnumeratesSelection(w, rows)
    ensures ecb.log == old(ecb.log) + PassCommands(rows, RowHeights(rows, sample, indexToPos), |rows|,
                                                   old(ecb.nextDeferred), chunkPrefab, cellSizeY)
    ensures ecb.nextDeferred == old(ecb.nextDeferred)
                                + PassLayerCount(RowHeights(rows, sample, indexToPos), |rows|, cellSizeY)
  {
    var query := QueryRegions(w);
    rows := query;
    ForEachRegion(ecb, query, chunkPrefab, cellSizeY, sample, indexToPos);
  }
}
