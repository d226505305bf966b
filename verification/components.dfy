/** The entities and components the generation step reads and writes. */
module Components {
  import opened Numerics

  datatype Option<T> = None | Some(value: T)

  /** Unity's `int2`. */
  datatype Int2 = Int2(x: Int32, y: Int32)

  /** Unity's `int3`. */
  datatype Int3 = Int3(x: Int32, y: Int32, z: Int32)

  /** An entity handle. `Stored` entities exist in the world; `Deferred` ones
      are the placeholders a command buffer hands out for entities it will
      create when it is played back. */
  datatype Entity = Stored(id: nat) | Deferred(id: nat)

  /** The `Region` component: the region's cell in the 2D region grid. */
  datatype Region = Region(index: Int2)

  /** The `VoxelChunk` component: the chunk's 3D index and its owning region. */
  datatype VoxelChunk = VoxelChunk(index: Int3, region: Entity)

  /** The components of one entity that this step looks at or changes. */
  datatype EntityData = EntityData(
    region: Option<Region>,          // Region
    generateRegion: bool,            // GenerateRegion tag
    heightMap: Option<seq<UShort>>,  // HeightMap buffer
    linked: seq<Entity>,             // LinkedEntityGroup buffer
    voxelChunk: Option<VoxelChunk>,  // VoxelChunk
    generateChunk: bool)             // GenerateChunk tag

  /** An entity with none of the components above. */
  const Blank: EntityData := EntityData(None, false, None, [], None, false)

  /** The entity store, as far as this step is concerned. */
  type World = map<Entity, EntityData>

  /** The query of GenerateRegionSystem: entities with `Region` and
      `GenerateRegion` and without `HeightMap`. */
  predicate NeedsGeneration(d: EntityData) {
    d.region.Some? && d.generateRegion && d.heightMap.None?
  }

  function Selected(w: World): set<Entity> {
    set x | x in w && NeedsGeneration(w[x])
  }

  /** Changing one entity's components changes the selection at that entity
      only: it is selected afterwards exactly when its new components pass the
      query's filter. */
  lemma SelectionUpdate(w: World, e: Entity, d: EntityData)
    ensures Selected(w[e := d]) == if NeedsGeneration(d) then Selected(w) + {e} else Selected(w) - {e}
  {
    var u := w[e := d];
    forall x | x in Selected(u) ensures x in (if NeedsGeneration(d) then Selected(w) + {e} else Selected(w) - {e}) {
      if x != e { assert x in w && u[x] == w[x]; }
    }
    forall x | x in (if NeedsGeneration(d) then Selected(w) + {e} else Selected(w) - {e}) ensures x in Selected(u) {
      if x != e { assert x in u && u[x] == w[x]; }
    }
  }

  /** No placeholder numbered `base` or above is already in the world, so
      placeholders handed out from `base` on name new entities. */
  predicate FreshFrom(w: World, base: nat) {
    forall x :: x in w && x.Deferred? ==> x.id < base
  }
}
