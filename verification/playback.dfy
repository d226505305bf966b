/** Playback of a recorded command log against the entity store, done once,
    serially, by the end-of-simulation barrier. Playback belongs to the engine;
    this is the meaning the generation step relies on. */
module Playback {
  import opened Components
  import opened CommandBuffers

  /** The effect of one command; `None` when it names an entity that does not
      exist (the prefab of an `Instantiate` included), or when a placeholder is
      instantiated twice. The new entity is blank: what the chunk prefab holds
      is not part of this model. */
  function Apply(w: World, c: Command): (r: Option<World>)
    ensures r.Some? ==> w.Keys <= r.value.Keys
  {
    match c
    case AddHeightMap(_, e, h) =>
      if e in w then Some(w[e := w[e].(heightMap := Some(h))]) else None
    case Instantiate(_, prefab, p) =>
      if prefab !in w || p in w then None else Some(w[p := Blank])
    case SetVoxelChunk(_, e, v) =>
      if e in w then Some(w[e := w[e].(voxelChunk := Some(v))]) else None
    case AppendLinked(_, o, child) =>
      if o in w then Some(w[o := w[o].(linked := w[o].linked + [child])]) else None
    case AddGenerateChunk(_, e) =>
      if e in w then Some(w[e := w[e].(generateChunk := true)]) else None
  }

  /** Plays the log back in order; stops at the first command that fails. */
  function Replay(w: World, log: seq<Command>): Option<World>
    decreases |log|
  {
    if log == [] then Some(w)
    else
      match Apply(w, log[0])
      case None => None
      case Some(w1) => Replay(w1, log[1..])
  }

  /** Playing back two logs one after the other is playing back their
      concatenation. */
  lemma {:induction false} ReplayAppend(w: World, a: seq<Command>, b: seq<Command>)
    ensures Replay(w, a + b) ==
            match Replay(w, a)
            case None => None
            case Some(w1) => Replay(w1, b)
    decreases |a|
  {
    if a == [] {
      assert a + b == b;
    } else {
      assert (a + b)[0] == a[0] && (a + b)[1..] == a[1..] + b;
      match Apply(w, a[0])
      case None =>
      case Some(w1) => ReplayAppend(w1, a[1..], b);
    }
  }

  /** Once `a` has played back to `w1`, playing back `a + b` continues from `w1`. */
  lemma ReplayAppendFrom(w: World, a: seq<Command>, b: seq<Command>, w1: World)
    requires Replay(w, a) == Some(w1)
    ensures Replay(w, a + b) == Replay(w1, b)
  {
    ReplayAppend(w, a, b);
  }
}
