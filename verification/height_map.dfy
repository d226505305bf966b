/** The height-map builder: `GenerateRegionSystem.BuildMap`, which fills a
    region's height buffer cell by cell and tracks the highest sample. */
module HeightMapBuilder {
  import opened Numerics
  import opened Components

  /** The world position of local cell `i`: the region origin plus the cell's
      local position, added with C# `int` wrap-around. */
  function CellPos(origin: Int2, i: int, indexToPos: int -> Int2): (p: Int2)
    ensures IntMinValue <= origin.x + indexToPos(i).x <= IntMaxValue ==> p.x == origin.x + indexToPos(i).x
    ensures IntMinValue <= origin.y + indexToPos(i).y <= IntMaxValue ==> p.y == origin.y + indexToPos(i).y
  {
    var xz := indexToPos(i);
    Int2(Wrap32(origin.x + xz.x), Wrap32(origin.y + xz.y))
  }

  /** The height stored for cell `i`: the noise sampled at its world position,
      already floored and cast to `ushort` by `sample`. */
  function CellHeight(origin: Int2, i: int, sample: (Int32, Int32) -> UShort,
                      indexToPos: int -> Int2): UShort
  {
    var p := CellPos(origin, i, indexToPos);
    sample(p.x, p.y)
  }

  /** The whole buffer of `n` cells as the builder leaves it. */
  function Heights(n: nat, origin: Int2, sample: (Int32, Int32) -> UShort,
                   indexToPos: int -> Int2): seq<UShort>
  {
    seq(n, i => CellHeight(origin, i, sample, indexToPos))
  }

  /** The running maximum the builder keeps: it starts at `int.MinValue` and
      takes the larger of itself and each cell in turn. */
  function Highest(s: seq<UShort>): (h: int)
    ensures s == [] ==> h == IntMinValue
    ensures s != [] ==> 0 <= h < 0x1_0000
  {
    if s == [] then IntMinValue
    else
      var prev := Highest(s[..|s| - 1]);
      if prev < s[|s| - 1] then s[|s| - 1] else prev
  }

  /** Every cell is at most the running maximum. */
  lemma {:induction false} HighestIsUpperBound(s: seq<UShort>, k: int)
    requires 0 <= k < |s|
    ensures s[k] <= Highest(s)
  {
    if k < |s| - 1 {
      HighestIsUpperBound(s[..|s| - 1], k);
    }
  }

  /** A non-empty buffer's running maximum is one of its cells. */
  lemma {:induction false} HighestIsAttained(s: seq<UShort>) returns (k: nat)
    requires s != []
    ensures k < |s| && s[k] == Highest(s)
  {
    if |s| == 1 || Highest(s[..|s| - 1]) < s[|s| - 1] {
      k := |s| - 1;
    } else {
      k := HighestIsAttained(s[..|s| - 1]);
    }
  }

  /** A non-empty buffer's running maximum is 0 exactly when every cell is 0
      (the flat region). */
  lemma FlatBufferIsAllZero(s: seq<UShort>)
    requires s != []
    ensures Highest(s) == 0 <==> forall k :: 0 <= k < |s| ==> s[k] == 0
  {
    if Highest(s) == 0 {
      forall k | 0 <= k < |s| ensures s[k] == 0 {
        HighestIsUpperBound(s, k);
      }
    }
    var k := HighestIsAttained(s);
  }

  /** Fills `buffer` (the source calls it `map`) in place, cell by cell, and returns the highest height. */
  method BuildMap(buffer: array<UShort>, origin: Int2, sample: (Int32, Int32) -> UShort,
                  indexToPos: int -> Int2) returns (highest: int)
    modifies buffer
    ensures buffer[..] == Heights(buffer.Length, origin, sample, indexToPos)
    ensures highest == Highest(buffer[..])
  {
    highest := IntMinValue;
    for i := 0 to buffer.Length
      invariant forall k :: 0 <= k < i ==> buffer[k] == CellHeight(origin, k, sample, indexToPos)
      invariant highest == Highest(buffer[..i])
    {
      buffer[i] := CellHeight(origin, i, sample, indexToPos);
      assert buffer[..i + 1][..i] == buffer[..i];
      highest := if highest < buffer[i] then buffer[i] else highest;
    }
    assert buffer[..] == buffer[..buffer.Length];
  }
}
