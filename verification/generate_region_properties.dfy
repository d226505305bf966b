/** What the commands recorded by one work item say: their number, order,
    sort keys and the chunks they describe. */
module GenerateRegionProperties {
  import opened Numerics
  import opened Components
  import opened CommandBuffers
  import opened HeightMapBuilder
  import opened GenerateRegionSystem

  /** The entity a command is about: the region for the height map, the chunk
      for every chunk command. */
  function Subject(c: Command): Entity {
    match c
    case AddHeightMap(_, e, _) => e
    case Instantiate(_, _, p) => p
    case SetVoxelChunk(_, e, _) => e
    case AppendLinked(_, _, child) => child
    case AddGenerateChunk(_, e) => e
  }

  lemma {:induction false} ChunkCommandsLength(key: int, e: Entity, regionIndex: Int2, prefab: Entity,
                                               base: nat, n: nat)
    requires n <= IntMaxValue
    ensures |ChunkCommands(key, e, regionIndex, prefab, base, n)| == 4 * n
  {
    if n > 0 {
      ChunkCommandsLength(key, e, regionIndex, prefab, base, n - 1);
    }
  }

  /** Layer `j` of the chunk loop occupies positions `4j .. 4j+4`. */
  lemma {:induction false} ChunkCommandsAt(key: int, e: Entity, regionIndex: Int2, prefab: Entity,
                                           base: nat, n: nat, j: nat)
    requires j < n <= IntMaxValue
    ensures |ChunkCommands(key, e, regionIndex, prefab, base, n)| == 4 * n
    ensures ChunkCommands(key, e, regionIndex, prefab, base, n)[4 * j .. 4 * j + 4]
            == LayerCommands(key, e, regionIndex, prefab, base, j)
  {
    ChunkCommandsLength(key, e, regionIndex, prefab, base, n);
    ChunkCommandsLength(key, e, regionIndex, prefab, base, n - 1);
    var prefix := ChunkCommands(key, e, regionIndex, prefab, base, n - 1);
    var last := LayerCommands(key, e, regionIndex, prefab, base, n - 1);
    assert ChunkCommands(key, e, regionIndex, prefab, base, n) == prefix + last;
    if j < n - 1 {
      ChunkCommandsAt(key, e, regionIndex, prefab, base, n - 1, j);
      assert (prefix + last)[4 * j .. 4 * j + 4] == prefix[4 * j .. 4 * j + 4];
    } else {
      assert (prefix + last)[4 * j .. 4 * j + 4] == last;
    }
  }

  /** The four commands of one layer are all about that layer's placeholder. */
  lemma LayerSubjects(key: int, e: Entity, regionIndex: Int2, prefab: Entity, base: nat, layer: nat)
    requires layer <= IntMaxValue
    ensures forall d :: d in LayerCommands(key, e, regionIndex, prefab, base, layer) ==>
              Subject(d) == ChunkPlaceholder(base, layer) && d.sortKey == key && !d.AddHeightMap?
  {
  }

  /** A command of the chunk loop of the work item with sort key `key` whose
      placeholders start at `base`, for `n` layers. */
  predicate IsChunkCommand(c: Command, key: int, base: nat, n: nat) {
    c.sortKey == key && !c.AddHeightMap?
    && Subject(c).Deferred? && base <= Subject(c).id < base + n
  }

  /** Every chunk command carries the work item's sort key, is about one of
      the `n` new placeholders, and none of them attaches a height map. */
  lemma {:induction false} ChunkCommandsSubjects(key: int, e: Entity, regionIndex: Int2, prefab: Entity,
                                                 base: nat, n: nat)
    requires n <= IntMaxValue
    ensures forall i :: 0 <= i < |ChunkCommands(key, e, regionIndex, prefab, base, n)| ==>
              IsChunkCommand(ChunkCommands(key, e, regionIndex, prefab, base, n)[i], key, base, n)
  {
    if n > 0 {
      ChunkCommandsSubjects(key, e, regionIndex, prefab, base, n - 1);
      var prefix := ChunkCommands(key, e, regionIndex, prefab, base, n - 1);
      var last := LayerCommands(key, e, regionIndex, prefab, base, n - 1);
      var cmds := prefix + last;
      assert cmds == ChunkCommands(key, e, regionIndex, prefab, base, n);
      forall i | 0 <= i < |cmds| ensures IsChunkCommand(cmds[i], key, base, n) {
        if i < |prefix| {
          assert cmds[i] == prefix[i] && IsChunkCommand(prefix[i], key, base, n - 1);
        } else {
          LayerSubjects(key, e, regionIndex, prefab, base, n - 1);
          assert cmds[i] in last;
        }
      }
    }
  }

  /** The layout of what one region records: the height map first (also for
      a flat region), then four commands per layer `0..=highest / cellSizeY`
      in ascending order, all with the same sort key. */
  lemma RegionCommandsLayout(key: int, e: Entity, regionIndex: Int2, heights: seq<UShort>,
                             prefab: Entity, base: nat, cellSizeY: int)
    requires heights != [] && cellSizeY > 0
    ensures var cmds := RegionCommands(key, e, regionIndex, heights, prefab, base, cellSizeY);
            var n := ChunkLayerCount(Highest(heights), cellSizeY);
            |cmds| == 1 + 4 * n
            && cmds[0] == Command.AddHeightMap(key, e, heights)
            && (Highest(heights) == 0 ==> cmds == [Command.AddHeightMap(key, e, heights)])
            && (Highest(heights) > 0 ==> n == Highest(heights) / cellSizeY + 1)
            && (forall i :: 0 <= i < |cmds| ==> cmds[i].sortKey == key)
            && (forall i :: 1 <= i < |cmds| ==> !cmds[i].AddHeightMap?)
            && (forall j :: 0 <= j < n ==>
                  cmds[1 + 4 * j .. 5 + 4 * j] == LayerCommands(key, e, regionIndex, prefab, base, j))
  {
    var n := ChunkLayerCount(Highest(heights), cellSizeY);
    var chunks := ChunkCommands(key, e, regionIndex, prefab, base, n);
    var cmds := RegionCommands(key, e, regionIndex, heights, prefab, base, cellSizeY);
    assert cmds == [Command.AddHeightMap(key, e, heights)] + chunks;
    ChunkCommandsLength(key, e, regionIndex, prefab, base, n);
    ChunkCommandsSubjects(key, e, regionIndex, prefab, base, n);
    forall j | 0 <= j < n
      ensures cmds[1 + 4 * j .. 5 + 4 * j] == LayerCommands(key, e, regionIndex, prefab, base, j)
    {
      ChunkCommandsAt(key, e, regionIndex, prefab, base, n, j);
      assert cmds[1 + 4 * j .. 5 + 4 * j] == chunks[4 * j .. 4 * j + 4];
    }
    forall i | 1 <= i < |cmds| ensures cmds[i].sortKey == key && !cmds[i].AddHeightMap? {
      assert cmds[i] == chunks[i - 1] && IsChunkCommand(chunks[i - 1], key, base, n);
    }
  }

  /** The command at position `i` of the chunk loop's log is command
      `i % 4` of layer `i / 4`. */
  lemma ChunkCommandAt(key: int, e: Entity, regionIndex: Int2, prefab: Entity,
                       base: nat, n: nat, i: nat)
    requires n <= IntMaxValue && i < 4 * n
    ensures i < |ChunkCommands(key, e, regionIndex, prefab, base, n)|
    ensures ChunkCommands(key, e, regionIndex, prefab, base, n)[i]
            == LayerCommands(key, e, regionIndex, prefab, base, i / 4)[i % 4]
  {
    var j := i / 4;
    ChunkCommandsAt(key, e, regionIndex, prefab, base, n, j);
    var cmds := ChunkCommands(key, e, regionIndex, prefab, base, n);
    assert cmds[4 * j .. 4 * j + 4][i % 4] == cmds[i];
  }

  /** No command is recorded twice by the chunk loop: together with the
      layout, each chunk is instantiated, given its `VoxelChunk`, linked into
      the region's group and tagged exactly once. */
  lemma ChunkCommandsDistinct(key: int, e: Entity, regionIndex: Int2, prefab: Entity,
                              base: nat, n: nat, i: nat, k: nat)
    requires n <= IntMaxValue
    requires i < |ChunkCommands(key, e, regionIndex, prefab, base, n)|
    requires k < |ChunkCommands(key, e, regionIndex, prefab, base, n)|
    requires ChunkCommands(key, e, regionIndex, prefab, base, n)[i]
             == ChunkCommands(key, e, regionIndex, prefab, base, n)[k]
    ensures i == k
  {
    ChunkCommandsLength(key, e, regionIndex, prefab, base, n);
    ChunkCommandAt(key, e, regionIndex, prefab, base, n, i);
    ChunkCommandAt(key, e, regionIndex, prefab, base, n, k);
    var c := ChunkCommands(key, e, regionIndex, prefab, base, n)[i];
    LayerSubjects(key, e, regionIndex, prefab, base, i / 4);
    LayerSubjects(key, e, regionIndex, prefab, base, k / 4);
    assert Subject(c) == ChunkPlaceholder(base, i / 4) == ChunkPlaceholder(base, k / 4);
    assert i / 4 == k / 4;
    assert i % 4 == k % 4;
  }

  /** Every sort key of `cmds` lies in `[0, bound)`, and the keys never
      decrease along the log. */
  predicate KeysSortedBelow(cmds: seq<Command>, bound: int) {
    (forall i :: 0 <= i < |cmds| ==> 0 <= cmds[i].sortKey < bound)
    && (forall i, j :: 0 <= i <= j < |cmds| ==> cmds[i].sortKey <= cmds[j].sortKey)
  }

  /** A pass records with sort keys that never decrease and name a row, so
      the barrier's playback in sort-key order is playback in recording
      order. */
  lemma {:induction false} PassSortKeys(rows: seq<QueryRow>, maps: seq<seq<UShort>>, n: nat, base: nat,
                                        prefab: Entity, cellSizeY: int)
    requires n <= |rows| == |maps| && AllNonEmpty(maps) && cellSizeY > 0
    ensures KeysSortedBelow(PassCommands(rows, maps, n, base, prefab, cellSizeY), n)
  {
    if n > 0 {
      var k := n - 1;
      PassSortKeys(rows, maps, k, base, prefab, cellSizeY);
      var offset := base + PassLayerCount(maps, k, cellSizeY);
      RegionSortKeys(k, rows[k].entity, rows[k].region.index, maps[k], prefab, offset, cellSizeY);
      SortedAppend(PassCommands(rows, maps, k, base, prefab, cellSizeY),
                   RegionCommands(k, rows[k].entity, rows[k].region.index, maps[k], prefab, offset, cellSizeY), k);
    }
  }

  /** All of one work item's commands carry its sort key. */
  lemma RegionSortKeys(key: int, e: Entity, regionIndex: Int2, heights: seq<UShort>,
                       prefab: Entity, base: nat, cellSizeY: int)
    requires heights != [] && cellSizeY > 0
    ensures forall i :: 0 <= i < |RegionCommands(key, e, regionIndex, heights, prefab, base, cellSizeY)| ==>
              RegionCommands(key, e, regionIndex, heights, prefab, base, cellSizeY)[i].sortKey == key
  {
    RegionCommandsLayout(key, e, regionIndex, heights, prefab, base, cellSizeY);
  }

  /** Appending commands keyed `key` after keys below `key` keeps the keys sorted. */
  lemma SortedAppend(a: seq<Command>, b: seq<Command>, key: nat)
    requires KeysSortedBelow(a, key)
    requires forall i :: 0 <= i < |b| ==> b[i].sortKey == key
    ensures KeysSortedBelow(a + b, key + 1)
  {
    var ab := a + b;
    assert forall i :: |a| <= i < |ab| ==> ab[i] == b[i - |a|];
  }
}
