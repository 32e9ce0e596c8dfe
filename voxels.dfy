// The voxel buffer the generator writes into: node content ids over a box of
// integer coordinates, stored flat with x varying fastest, then y, then z
// (VoxelArea::index), so one step in y moves the offset by the x-extent
// (VoxelArea::add_y).

module Voxels {
  import opened Geometry

  /** A node's content id (MapNode::param0; content_t is 16 bits wide). */
  newtype Content = c: int | 0 <= c < 0x1_0000

  /** CONTENT_AIR and CONTENT_IGNORE of the engine's node definitions. */
  const ContentAir: Content := 126
  const ContentIgnore: Content := 127

  /** A VoxelArea: the inclusive box MinEdge..MaxEdge. */
  datatype Area = Area(minEdge: V3s, maxEdge: V3s)

  function ExtentX(a: Area): int { a.maxEdge.x - a.minEdge.x + 1 }
  function ExtentY(a: Area): int { a.maxEdge.y - a.minEdge.y + 1 }
  function ExtentZ(a: Area): int { a.maxEdge.z - a.minEdge.z + 1 }

  predicate AreaEmpty(a: Area)
  {
    ExtentX(a) <= 0 || ExtentY(a) <= 0 || ExtentZ(a) <= 0
  }

  function Volume(a: Area): nat
  {
    if AreaEmpty(a) then 0 else ExtentX(a) * ExtentY(a) * ExtentZ(a)
  }

  predicate Contains(a: Area, p: V3s)
  {
    a.minEdge.x <= p.x <= a.maxEdge.x && a.minEdge.y <= p.y <= a.maxEdge.y && a.minEdge.z <= p.z <= a.maxEdge.z
  }

  /** VoxelArea::index(x, y, z). */
  function Index(a: Area, p: V3s): int
  {
    ((p.z - a.minEdge.z) * ExtentY(a) + (p.y - a.minEdge.y)) * ExtentX(a) + (p.x - a.minEdge.x)
  }

  /** The coordinate stored at offset k: the inverse of Index. */
  function Decode(a: Area, k: int): V3s
    requires !AreaEmpty(a)
  {
    var row := k / ExtentX(a);
    V3s(a.minEdge.x + k % ExtentX(a), a.minEdge.y + row % ExtentY(a), a.minEdge.z + row / ExtentY(a))
  }

  lemma MulAtLeast(d: int, m: int)
    requires d >= 1 && m > 0
    ensures d * m >= m
  {
    assert d * m == m + (d - 1) * m;
  }

  lemma DivModUnique(k: int, m: int, q: int, r: int)
    requires m > 0 && 0 <= r < m && k == q * m + r
    ensures k / m == q && k % m == r
  {
    var q', r' := k / m, k % m;
    assert k == q' * m + r';
    var d := q - q';
    assert d * m == r' - r;
    if d >= 1 {
      MulAtLeast(d, m);
    } else if d <= -1 {
      MulAtLeast(-d, m);
    }
  }

  /** An offset bound by the area: the coordinates inside it fill 0 .. Volume-1. */
  lemma IndexInRange(a: Area, p: V3s)
    requires Contains(a, p)
    ensures !AreaEmpty(a)
    ensures 0 <= Index(a, p) < Volume(a)
  {
    var ex, ey, ez := ExtentX(a), ExtentY(a), ExtentZ(a);
    var row := (p.z - a.minEdge.z) * ey + (p.y - a.minEdge.y);
    RowMajorBound(p.z - a.minEdge.z, ez, p.y - a.minEdge.y, ey);
    RowMajorBound(row, ez * ey, p.x - a.minEdge.x, ex);
    VolumeProduct(a);
  }

  lemma DecodeIndex(a: Area, p: V3s)
    requires Contains(a, p)
    ensures !AreaEmpty(a) && Decode(a, Index(a, p)) == p
  {
    var ex, ey := ExtentX(a), ExtentY(a);
    var dx, dy, dz := p.x - a.minEdge.x, p.y - a.minEdge.y, p.z - a.minEdge.z;
    var row := dz * ey + dy;
    DivModUnique(Index(a, p), ex, row, dx);
    DivModUnique(row, ey, dz, dy);
  }

  lemma IndexDecode(a: Area, k: int)
    requires 0 <= k < Volume(a)
    ensures !AreaEmpty(a) && Contains(a, Decode(a, k)) && Index(a, Decode(a, k)) == k
  {
    var ex, ey, ez := ExtentX(a), ExtentY(a), ExtentZ(a);
    VolumeProduct(a);
    var row := k / ex;
    var col := k % ex;
    var layer := row / ey;
    var dy := row % ey;
    assert k == row * ex + col;
    assert row == layer * ey + dy;
    RowBound(k, ex, ez * ey, row);
    RowBound(row, ey, ez, layer);
    var q := Decode(a, k);
    assert q.x - a.minEdge.x == col && q.y - a.minEdge.y == dy && q.z - a.minEdge.z == layer;
  }

  /** The volume as the row-major product, z-extent times y-extent times x-extent. */
  lemma VolumeProduct(a: Area)
    requires !AreaEmpty(a)
    ensures Volume(a) == (ExtentZ(a) * ExtentY(a)) * ExtentX(a) == ExtentX(a) * (ExtentZ(a) * ExtentY(a))
  {
  }

  /** 0 <= i < n and 0 <= j < m imply 0 <= i * m + j < n * m. */
  lemma RowMajorBound(i: int, n: int, j: int, m: int)
    requires 0 <= i < n && 0 <= j < m
    ensures 0 <= i * m + j < n * m
  {
    MulMonotone(0, i, m);
    MulMonotone(i, n - 1, m);
    assert (n - 1) * m == n * m - m;
  }

  /** k < m * n implies k / m < n. */
  lemma RowBound(k: int, m: int, n: int, row: int)
    requires 0 <= k && m > 0 && k < m * n && row == k / m
    ensures 0 <= row < n
  {
    assert row * m <= k;
    if row >= n {
      MulMonotone(n, row, m);
    }
  }

  lemma MulMonotone(a: int, b: int, m: int)
    requires a <= b && m >= 0
    ensures a * m <= b * m
  {
    assert b * m == a * m + (b - a) * m;
  }

  /** No two coordinates of the area share an offset. */
  lemma IndexInjective(a: Area, p: V3s, q: V3s)
    requires Contains(a, p) && Contains(a, q) && Index(a, p) == Index(a, q)
    ensures p == q
  {
    DecodeIndex(a, p);
    DecodeIndex(a, q);
  }

  /** add_y(em, i, 1): the next coordinate in y is one x-extent further on. */
  lemma IndexNextY(a: Area, p: V3s)
    ensures Index(a, V3s(p.x, p.y + 1, p.z)) == Index(a, p) + ExtentX(a)
  {
  }

  /** VoxelManipulator: the area and its node contents, m_data. */
  class VoxelManipulator {
    var area: Area
    var data: array<Content>

    predicate Valid()
      reads this
    {
      data.Length == Volume(area)
    }

    /** A fixture for callers of the model (the engine allocates the buffer elsewhere): a buffer over `a` whose nodes are all still unwritten. */
    constructor (a: Area)
      ensures area == a && Valid() && fresh(data)
      ensures forall k :: 0 <= k < data.Length ==> data[k] == ContentIgnore
    {
      area := a;
      data := new Content[Volume(a)](_ => ContentIgnore);
    }
  }
}
