/** What playing back the recorded commands does to the entity store: the
    region gets its height map, every chunk exists with its index, back
    reference and tag, and is linked into the region's group; and a region,
    once its height map is attached, is no longer selected. */
module GenerateRegionReplay {
  import opened Numerics
  import opened Components
  import opened CommandBuffers
  import opened Playback
  import opened HeightMapBuilder
  import opened GenerateRegionSystem

  /** A chunk as playback leaves it: a blank entity with its `VoxelChunk`
      set and the `GenerateChunk` tag added. */
  function ChunkData(regionIndex: Int2, layer: nat, e: Entity): EntityData
    requires layer <= IntMaxValue
  {
    Blank.(voxelChunk := Some(VoxelChunk(Int3(regionIndex.x, layer, regionIndex.y), e)),
           generateChunk := true)
  }

  /** The placeholders of the first `n` layers, in layer order. */
  function Placeholders(base: nat, n: nat): seq<Entity> {
    seq(n, j requires 0 <= j < n => ChunkPlaceholder(base, j))
  }

  /** `r` is `w` with `n` chunks of region `e` added and linked. */
  ghost predicate ChunksAdded(w: World, r: World, e: Entity, regionIndex: Int2, base: nat, n: nat)
    requires e in w && n <= IntMaxValue + 1
  {
    r.Keys == w.Keys + (set j | 0 <= j < n :: ChunkPlaceholder(base, j))
    && e in r && r[e] == w[e].(linked := w[e].linked + Placeholders(base, n))
    && (forall j :: 0 <= j < n ==> r[ChunkPlaceholder(base, j)] == ChunkData(regionIndex, j, e))
    && (forall x :: x in w && x != e ==> r[x] == w[x])
  }

  /** The world after the height map is attached to `e`. */
  function WithHeightMap(w: World, e: Entity, heights: seq<UShort>): World
    requires e in w
  {
    w[e := w[e].(heightMap := Some(heights))]
  }

  /** Playing back one layer's four commands. */
  lemma ReplayLayer(w: World, key: int, e: Entity, regionIndex: Int2, prefab: Entity,
                    base: nat, layer: nat)
    requires layer <= IntMaxValue
    requires e in w && prefab in w && ChunkPlaceholder(base, layer) !in w
    ensures Replay(w, LayerCommands(key, e, regionIndex, prefab, base, layer))
            == Some(w[ChunkPlaceholder(base, layer) := ChunkData(regionIndex, layer, e)]
                     [e := w[e].(linked := w[e].linked + [ChunkPlaceholder(base, layer)])])
  {
    var chunk := ChunkPlaceholder(base, layer);
    var cmds := LayerCommands(key, e, regionIndex, prefab, base, layer);
    var w1 := w[chunk := Blank];
    var w2 := w1[chunk := w1[chunk].(voxelChunk := Some(VoxelChunk(Int3(regionIndex.x, layer, regionIndex.y), e)))];
    var w3 := w2[e := w2[e].(linked := w2[e].linked + [chunk])];
    var w4 := w3[chunk := w3[chunk].(generateChunk := true)];
    assert Apply(w, cmds[0]) == Some(w1);
    assert Apply(w1, cmds[1]) == Some(w2);
    assert Apply(w2, cmds[2]) == Some(w3);
    assert Apply(w3, cmds[3]) == Some(w4);
    assert cmds[1..][1..][1..][1..] == [];
    assert Replay(w, cmds) == Replay(w1, cmds[1..]);
    assert Replay(w1, cmds[1..]) == Replay(w2, cmds[1..][1..]);
    assert Replay(w2, cmds[1..][1..]) == Replay(w3, cmds[1..][1..][1..]);
    assert Replay(w3, cmds[1..][1..][1..]) == Replay(w4, []);
    assert w4 == w[chunk := ChunkData(regionIndex, layer, e)][e := w[e].(linked := w[e].linked + [chunk])];
  }

  /** Playing back the chunk loop's commands adds and links every chunk. */
  lemma {:induction false} ReplayChunks(w: World, key: int, e: Entity, regionIndex: Int2, prefab: Entity,
                                        base: nat, n: nat)
    requires n <= IntMaxValue
    requires e in w && prefab in w && FreshFrom(w, base)
    ensures Replay(w, ChunkCommands(key, e, regionIndex, prefab, base, n)).Some?
    ensures ChunksAdded(w, Replay(w, ChunkCommands(key, e, regionIndex, prefab, base, n)).value,
                        e, regionIndex, base, n)
  {
    if n == 0 {
      NoChunksAdded(w, e, regionIndex, base);
    } else {
      ReplayChunks(w, key, e, regionIndex, prefab, base, n - 1);
      ReplayChunksStep(w, Replay(w, ChunkCommands(key, e, regionIndex, prefab, base, n - 1)).value,
                       key, e, regionIndex, prefab, base, n);
    }
  }

  /** Playing back one more layer after the first `n - 1`. */
  lemma ReplayChunksStep(w: World, r1: World, key: int, e: Entity, regionIndex: Int2, prefab: Entity,
                         base: nat, n: nat)
    requires 0 < n <= IntMaxValue
    requires e in w && prefab in w && FreshFrom(w, base)
    requires Replay(w, ChunkCommands(key, e, regionIndex, prefab, base, n - 1)) == Some(r1)
    requires ChunksAdded(w, r1, e, regionIndex, base, n - 1)
    ensures Replay(w, ChunkCommands(key, e, regionIndex, prefab, base, n)).Some?
    ensures ChunksAdded(w, Replay(w, ChunkCommands(key, e, regionIndex, prefab, base, n)).value,
                        e, regionIndex, base, n)
  {
    var prefix := ChunkCommands(key, e, regionIndex, prefab, base, n - 1);
    var last := LayerCommands(key, e, regionIndex, prefab, base, n - 1);
    NextChunkIsFresh(w, r1, e, regionIndex, base, n);
    ReplayAppendFrom(w, prefix, last, r1);
    ReplayLayer(r1, key, e, regionIndex, prefab, base, n - 1);
    ChunksAddedStep(w, r1, e, regionIndex, base, n);
  }

  /** With no layers, nothing is added. */
  lemma NoChunksAdded(w: World, e: Entity, regionIndex: Int2, base: nat)
    requires e in w
    ensures ChunksAdded(w, w, e, regionIndex, base, 0)
  {
    assert Placeholders(base, 0) == [];
    assert w[e].(linked := w[e].linked + []) == w[e];
  }

  /** The placeholder of the next layer is not yet in the world. */
  lemma NextChunkIsFresh(w: World, r1: World, e: Entity, regionIndex: Int2, base: nat, n: nat)
    requires 0 < n <= IntMaxValue
    requires e in w && FreshFrom(w, base)
    requires ChunksAdded(w, r1, e, regionIndex, base, n - 1)
    ensures ChunkPlaceholder(base, n - 1) !in r1
  {
  }

  /** One more chunk keeps `ChunksAdded`. */
  lemma ChunksAddedStep(w: World, r1: World, e: Entity, regionIndex: Int2, base: nat, n: nat)
    requires 0 < n <= IntMaxValue
    requires e in w && FreshFrom(w, base)
    requires ChunksAdded(w, r1, e, regionIndex, base, n - 1)
    ensures ChunksAdded(w, r1[ChunkPlaceholder(base, n - 1) := ChunkData(regionIndex, n - 1, e)]
                          [e := r1[e].(linked := r1[e].linked + [ChunkPlaceholder(base, n - 1)])],
                        e, regionIndex, base, n)
  {
    var chunk := ChunkPlaceholder(base, n - 1);
    assert Placeholders(base, n) == Placeholders(base, n - 1) + [chunk];
    assert (set j | 0 <= j < n :: ChunkPlaceholder(base, j))
           == (set j | 0 <= j < n - 1 :: ChunkPlaceholder(base, j)) + {chunk};
  }

  /** Playing back one region's commands attaches its height map and adds its
      chunks; the placeholders used are no longer fresh, and the region drops
      out of the selection while no other entity enters or leaves it. */
  lemma ReplayRegion(w: World, key: int, e: Entity, regionIndex: Int2, heights: seq<UShort>,
                     prefab: Entity, base: nat, cellSizeY: int)
    requires heights != [] && cellSizeY > 0
    requires e in w && prefab in w && FreshFrom(w, base)
    ensures Replay(w, RegionCommands(key, e, regionIndex, heights, prefab, base, cellSizeY)).Some?
    ensures ChunksAdded(WithHeightMap(w, e, heights),
                        Replay(w, RegionCommands(key, e, regionIndex, heights, prefab, base, cellSizeY)).value,
                        e, regionIndex, base, ChunkLayerCount(Highest(heights), cellSizeY))
    ensures FreshFrom(Replay(w, RegionCommands(key, e, regionIndex, heights, prefab, base, cellSizeY)).value,
                      base + ChunkLayerCount(Highest(heights), cellSizeY))
    ensures Selected(Replay(w, RegionCommands(key, e, regionIndex, heights, prefab, base, cellSizeY)).value)
            == Selected(w) - {e}
  {
    var n := ChunkLayerCount(Highest(heights), cellSizeY);
    var w0 := WithHeightMap(w, e, heights);
    var first := [Command.AddHeightMap(key, e, heights)];
    var chunks := ChunkCommands(key, e, regionIndex, prefab, base, n);
    assert Replay(w, first) == Replay(w0, first[1..]);
    assert first[1..] == [];
    ReplayAppendFrom(w, first, chunks, w0);
    ReplayChunks(w0, key, e, regionIndex, prefab, base, n);
    RegionWorldFacts(w, Replay(w0, chunks).value, e, regionIndex, heights, base, n);
  }

  /** What `ChunksAdded` after the height map means for freshness and for the
      selection. */
  lemma RegionWorldFacts(w: World, r: World, e: Entity, regionIndex: Int2, heights: seq<UShort>,
                         base: nat, n: nat)
    requires n <= IntMaxValue && e in w && FreshFrom(w, base)
    requires ChunksAdded(WithHeightMap(w, e, heights), r, e, regionIndex, base, n)
    ensures FreshFrom(r, base + n)
    ensures Selected(r) == Selected(w) - {e}
  {
    var w0 := WithHeightMap(w, e, heights);
    forall x | x in r && x !in w0
      ensures x.Deferred? && base <= x.id < base + n && !NeedsGeneration(r[x])
    {
      var j :| 0 <= j < n && x == ChunkPlaceholder(base, j);
    }
  }

  /** Every row of a pass names a distinct entity of `w`. */
  ghost predicate DistinctRowsOf(w: World, rows: seq<QueryRow>) {
    (forall i :: 0 <= i < |rows| ==> rows[i].entity in w)
    && (forall i, j :: 0 <= i < j < |rows| ==> rows[i].entity != rows[j].entity)
  }

  /** The entity of each of the first `n` rows holds that row's height map. */
  ghost predicate HeightMapsAttached(r: World, rows: seq<QueryRow>, maps: seq<seq<UShort>>, n: nat)
    requires n <= |rows| == |maps|
  {
    forall i :: 0 <= i < n ==> rows[i].entity in r && r[rows[i].entity].heightMap == Some(maps[i])
  }

  /** `r` is `w` after the first `n` rows of a pass: every entity of `w` is
      kept, only placeholders below `base + PassLayerCount(maps, n)` are used,
      each of those rows' entities holds its height map, and exactly those
      entities have left the selection. */
  ghost predicate PassReplayed(w: World, r: World, rows: seq<QueryRow>, maps: seq<seq<UShort>>, n: nat,
                               base: nat, cellSizeY: int)
    requires n <= |rows| == |maps| && AllNonEmpty(maps) && cellSizeY > 0
  {
    w.Keys <= r.Keys
    && FreshFrom(r, base + PassLayerCount(maps, n, cellSizeY))
    && HeightMapsAttached(r, rows, maps, n)
    && Selected(r) == Selected(w) - RowEntities(rows[..n])
  }

  /** Playing back what the first `n` rows of a pass record succeeds, with
      the effect `PassReplayed` describes. */
  lemma {:induction false} ReplayPass(w: World, rows: seq<QueryRow>, maps: seq<seq<UShort>>, n: nat, base: nat,
                                      prefab: Entity, cellSizeY: int)
    requires n <= |rows| == |maps| && AllNonEmpty(maps) && cellSizeY > 0
    requires DistinctRowsOf(w, rows) && prefab in w && FreshFrom(w, base)
    ensures Replay(w, PassCommands(rows, maps, n, base, prefab, cellSizeY)).Some?
    ensures PassReplayed(w, Replay(w, PassCommands(rows, maps, n, base, prefab, cellSizeY)).value,
                         rows, maps, n, base, cellSizeY)
  {
    if n == 0 {
      assert RowEntities(rows[..0]) == {};
    } else {
      ReplayPass(w, rows, maps, n - 1, base, prefab, cellSizeY);
      ReplayPassStep(w, Replay(w, PassCommands(rows, maps, n - 1, base, prefab, cellSizeY)).value,
                     rows, maps, n, base, prefab, cellSizeY);
    }
  }

  /** Row `n - 1` of a pass, played back after the rows before it. */
  lemma ReplayPassStep(w: World, r1: World, rows: seq<QueryRow>, maps: seq<seq<UShort>>, n: nat, base: nat,
                       prefab: Entity, cellSizeY: int)
    requires 0 < n <= |rows| == |maps| && AllNonEmpty(maps) && cellSizeY > 0
    requires DistinctRowsOf(w, rows) && prefab in w
    requires Replay(w, PassCommands(rows, maps, n - 1, base, prefab, cellSizeY)) == Some(r1)
    requires PassReplayed(w, r1, rows, maps, n - 1, base, cellSizeY)
    ensures Replay(w, PassCommands(rows, maps, n, base, prefab, cellSizeY)).Some?
    ensures PassReplayed(w, Replay(w, PassCommands(rows, maps, n, base, prefab, cellSizeY)).value,
                         rows, maps, n, base, cellSizeY)
  {
    var k := n - 1;
    var offset := base + PassLayerCount(maps, k, cellSizeY);
    var region := RegionCommands(k, rows[k].entity, rows[k].region.index, maps[k], prefab, offset, cellSizeY);
    PassCommandsLast(rows, maps, n, base, prefab, cellSizeY);
    ReplayAppendFrom(w, PassCommands(rows, maps, k, base, prefab, cellSizeY), region, r1);
    RegionEffect(r1, k, rows[k].entity, rows[k].region.index, maps[k], prefab, offset, cellSizeY);
    PassWorldStep(w, r1, Replay(r1, region).value, rows, maps, n, base, cellSizeY);
  }

  /** The last of the first `n` rows records after the rows before it. */
  lemma PassCommandsLast(rows: seq<QueryRow>, maps: seq<seq<UShort>>, n: nat, base: nat, prefab: Entity,
                         cellSizeY: int)
    requires 0 < n <= |rows| == |maps| && AllNonEmpty(maps) && cellSizeY > 0
    ensures PassCommands(rows, maps, n, base, prefab, cellSizeY)
            == PassCommands(rows, maps, n - 1, base, prefab, cellSizeY)
               + RegionCommands(n - 1, rows[n - 1].entity, rows[n - 1].region.index, maps[n - 1], prefab,
                                base + PassLayerCount(maps, n - 1, cellSizeY), cellSizeY)
  {
  }

  /** `ReplayRegion` cut down to the facts `ReplayPass` uses: the chunks it
      adds are forgotten, only the height map, the unchanged other entities,
      the selection and freshness are kept. Stating the smaller summary keeps
      the pass's proof from unfolding `ChunksAdded`. */
  lemma RegionEffect(w: World, key: int, e: Entity, regionIndex: Int2, heights: seq<UShort>,
                     prefab: Entity, base: nat, cellSizeY: int)
    requires heights != [] && cellSizeY > 0
    requires e in w && prefab in w && FreshFrom(w, base)
    ensures Replay(w, RegionCommands(key, e, regionIndex, heights, prefab, base, cellSizeY)).Some?
    ensures RegionReplayed(w, Replay(w, RegionCommands(key, e, regionIndex, heights, prefab, base, cellSizeY)).value,
                           e, heights)
    ensures FreshFrom(Replay(w, RegionCommands(key, e, regionIndex, heights, prefab, base, cellSizeY)).value,
                      base + ChunkLayerCount(Highest(heights), cellSizeY))
  {
    ReplayRegion(w, key, e, regionIndex, heights, prefab, base, cellSizeY);
  }

  /** The part of `ReplayRegion`'s conclusion a pass needs (it follows from
      `ChunksAdded` after `WithHeightMap`): `r` is `w` after the commands of
      region `e`, with its height map attached, the other entities of `w`
      unchanged, and `e` out of the selection. */
  ghost predicate RegionReplayed(w: World, r: World, e: Entity, heights: seq<UShort>) {
    w.Keys <= r.Keys && e in r && r[e].heightMap == Some(heights)
    && (forall x :: x in w && x != e ==> r[x] == w[x])
    && Selected(r) == Selected(w) - {e}
  }

  /** Row `n - 1` of a pass, on the worlds before and after its commands. */
  lemma PassWorldStep(w: World, r1: World, r: World, rows: seq<QueryRow>, maps: seq<seq<UShort>>, n: nat,
                      base: nat, cellSizeY: int)
    requires 0 < n <= |rows| == |maps| && AllNonEmpty(maps) && cellSizeY > 0
    requires DistinctRowsOf(w, rows)
    requires PassReplayed(w, r1, rows, maps, n - 1, base, cellSizeY)
    requires RegionReplayed(r1, r, rows[n - 1].entity, maps[n - 1])
    requires FreshFrom(r, base + PassLayerCount(maps, n - 1, cellSizeY)
                          + ChunkLayerCount(Highest(maps[n - 1]), cellSizeY))
    ensures PassReplayed(w, r, rows, maps, n, base, cellSizeY)
  {
    assert RowEntities(rows[..n]) == RowEntities(rows[..n - 1]) + {rows[n - 1].entity} by {
      assert rows[..n][n - 1] == rows[n - 1];
      assert forall i :: 0 <= i < n - 1 ==> rows[..n - 1][i] == rows[..n][i];
    }
    forall i | 0 <= i < n - 1
      ensures rows[i].entity in r && r[rows[i].entity].heightMap == Some(maps[i])
    {
      assert rows[i].entity != rows[n - 1].entity;
    }
  }

  /** Once the barrier has played back a pass that enumerated the selection,
      the next pass selects no region: every region that lacked a height map
      has one now, and the new chunk entities carry no `Region`. */
  lemma SecondPassSelectsNothing(w: World, rows: seq<QueryRow>, base: nat, prefab: Entity, cellSizeY: int,
                                 sample: (Int32, Int32) -> UShort, indexToPos: int -> Int2)
    requires cellSizeY > 0
    requires EnumeratesSelection(w, rows) && prefab in w && FreshFrom(w, base)
    ensures Replay(w, PassCommands(rows, RowHeights(rows, sample, indexToPos), |rows|, base, prefab,
                                   cellSizeY)).Some?
    ensures Selected(Replay(w, PassCommands(rows, RowHeights(rows, sample, indexToPos), |rows|, base, prefab,
                                            cellSizeY)).value) == {}
    ensures forall next: seq<QueryRow> :: EnumeratesSelection(
                             Replay(w, PassCommands(rows, RowHeights(rows, sample, indexToPos), |rows|, base,
                                                    prefab, cellSizeY)).value, next)
                           ==> next == []
  {
    var maps := RowHeights(rows, sample, indexToPos);
    ReplayPass(w, rows, maps, |rows|, base, prefab, cellSizeY);
    assert rows[..|rows|] == rows;
    var r := Replay(w, PassCommands(rows, maps, |rows|, base, prefab, cellSizeY)).value;
    forall next: seq<QueryRow> | EnumeratesSelection(r, next) ensures next == [] {
      NoRowsWithoutEntities(next);
    }
  }

  /** Rows that name no entity are no rows. */
  lemma NoRowsWithoutEntities(rows: seq<QueryRow>)
    requires RowEntities(rows) == {}
    ensures rows == []
  {
    if rows != [] {
      FirstRowEntity(rows);
    }
  }

  lemma FirstRowEntity(rows: seq<QueryRow>)
    requires rows != []
    ensures rows[0].entity in RowEntities(rows)
  {
  }
}
