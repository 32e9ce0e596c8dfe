// What generateTerrain leaves in the voxel buffer, stated cell by cell: the
// fractal-space point of a voxel, the solidity test on the evaluator's answer,
// and the three-way materialisation rule.

module Terrain {
  import opened Geometry
  import opened Fractals
  import opened Settings
  import opened Voxels

  /** `(v3f(x, y, z) - center) * scale`. */
  function FractalPoint(center: Vec3, scale: real, p: V3s): Vec3
  {
    Vec3((p.x as real - center.x) * scale, (p.y as real - center.y) * scale, (p.z as real - center.z) * scale)
  }

  /** The value of `d` at voxel p: the bound evaluator's answer when internal, otherwise the initial 0. */
  function Sample(r: Resolved, p: V3s): real
  {
    if r.internal then Evaluate(r.func, FractalPoint(r.center, r.scale, p), r.distance, r.iterations) else 0.0
  }

  /** The loop's `d` at voxel p: what the evaluator returned on the point's fractal coordinates, or 0 when not internal. */
  lemma SampleOfLoop(r: Resolved, p: V3s, vec: Vec3, d: real)
    requires vec == FractalPoint(r.center, r.scale, p)
    requires r.internal ==> d == Evaluate(r.func, vec, r.distance, r.iterations)
    requires !r.internal ==> d == 0.0
    ensures d == Sample(r, p)
  {
  }

  /** `(!invert && d > 0) || (invert && d == 0)`. */
  predicate IsSolid(invert: bool, d: real)
  {
    (!invert && d > 0.0) || (invert && d == 0.0)
  }

  predicate SolidAt(r: Resolved, p: V3s)
  {
    IsSolid(r.invert, Sample(r, p))
  }

  /** The node a visited voxel ends with, given the one it had. */
  function NodeAfter(prev: Content, solid: bool, y: int, waterLevel: int, stone: Content, water: Content): Content
  {
    if solid then (if prev == ContentIgnore then stone else prev)
    else if y <= waterLevel then water
    else ContentAir
  }

  /** node_min <= p <= node_max on every axis. */
  predicate InBox(p: V3s, lo: V3s, hi: V3s)
  {
    lo.x <= p.x <= hi.x && lo.y <= p.y <= hi.y && lo.z <= p.z <= hi.z
  }

  predicate BoxEmpty(lo: V3s, hi: V3s)
  {
    lo.x > hi.x || lo.y > hi.y || lo.z > hi.z
  }

  /** The content of voxel p after the pass, given its content `prev` before. */
  function Generated(r: Resolved, p: V3s, prev: Content, lo: V3s, hi: V3s, waterLevel: int,
                     stone: Content, water: Content): Content
  {
    if InBox(p, lo, hi) then NodeAfter(prev, SolidAt(r, p), p.y, waterLevel, stone, water) else prev
  }

  /** The whole buffer after one pass over the box lo..hi. */
  function Materialise(data: seq<Content>, area: Area, r: Resolved, lo: V3s, hi: V3s, waterLevel: int,
                       stone: Content, water: Content): (res: seq<Content>)
    requires |data| == Volume(area)
    ensures |res| == |data|
  {
    seq(|data|, k requires 0 <= k < |data| => Generated(r, Decode(area, k), data[k], lo, hi, waterLevel, stone, water))
  }

  /**
   * The materialisation rule at one voxel of the buffer: outside the box
   * nothing changes; a solid voxel becomes stone only over CONTENT_IGNORE and is
   * otherwise kept; a voxel that is not solid becomes water at or below the
   * water level and air above it.
   */
  lemma MaterialiseAt(data: seq<Content>, area: Area, r: Resolved, lo: V3s, hi: V3s, waterLevel: int,
                      stone: Content, water: Content, p: V3s)
    requires |data| == Volume(area) && Contains(area, p)
    ensures 0 <= Index(area, p) < |data|
    ensures var res := Materialise(data, area, r, lo, hi, waterLevel, stone, water);
            var i := Index(area, p);
            && (!InBox(p, lo, hi) ==> res[i] == data[i])
            && (InBox(p, lo, hi) && SolidAt(r, p) && data[i] == ContentIgnore ==> res[i] == stone)
            && (InBox(p, lo, hi) && SolidAt(r, p) && data[i] != ContentIgnore ==> res[i] == data[i])
            && (InBox(p, lo, hi) && !SolidAt(r, p) && p.y <= waterLevel ==> res[i] == water)
            && (InBox(p, lo, hi) && !SolidAt(r, p) && p.y > waterLevel ==> res[i] == ContentAir)
  {
    IndexInRange(area, p);
    DecodeIndex(area, p);
  }

  /** An empty box (min > max on some axis) writes nothing. */
  lemma MaterialiseEmptyBox(data: seq<Content>, area: Area, r: Resolved, lo: V3s, hi: V3s, waterLevel: int,
                            stone: Content, water: Content)
    requires |data| == Volume(area) && BoxEmpty(lo, hi)
    ensures Materialise(data, area, r, lo, hi, waterLevel, stone, water) == data
  {
  }

  /** Running the pass twice over the same box gives what one pass gives, as long as stone is not CONTENT_IGNORE. */
  lemma MaterialiseIdempotent(data: seq<Content>, area: Area, r: Resolved, lo: V3s, hi: V3s, waterLevel: int,
                              stone: Content, water: Content)
    requires |data| == Volume(area) && stone != ContentIgnore
    ensures var once := Materialise(data, area, r, lo, hi, waterLevel, stone, water);
            Materialise(once, area, r, lo, hi, waterLevel, stone, water) == once
  {
  }

  /** Every evaluator answers 0 or 1, so flipping invert complements solidity at every voxel. */
  lemma InvertFlipComplements(r: Resolved, p: V3s)
    ensures SolidAt(r.(invert := !r.invert), p) <==> !SolidAt(r, p)
  {
  }

  /** Without an internal evaluator `d` stays 0, so a voxel is solid exactly when invert is set. */
  lemma ExternalSolidIffInvert(r: Resolved, p: V3s)
    requires !r.internal
    ensures SolidAt(r, p) <==> r.invert
  {
  }

  /** An unrecognised generator: solid everywhere when invert is set and nowhere otherwise. */
  lemma UnknownGeneratorSolidIffInvert(c: Config, p: V3s)
    requires KindOf(GeneratorOf(c)) == OtherKind
    ensures SolidAt(Resolve(c), p) <==> AsBool(Get(c.values, "invert", 0.0))
  {
  }

  /** A zero distance threshold makes solidity follow invert alone. */
  lemma ZeroDistanceSolidIffInvert(r: Resolved, p: V3s)
    requires r.distance == 0.0
    ensures SolidAt(r, p) <==> r.invert
  {
    if r.internal {
      EvaluateZeroDistance(r.func, FractalPoint(r.center, r.scale, p), r.iterations);
    }
  }

  // The pass part-way through: the cells generateTerrain has visited so far
  // in its z, x, y order.

  /** Whether voxel p comes before the loop position (z, x, y) in the order z, then x, then y. */
  predicate Visited(p: V3s, z: int, x: int, y: int)
  {
    p.z < z || (p.z == z && (p.x < x || (p.x == x && p.y < y)))
  }

  /** The buffer once every voxel before (z, x, y) has been visited. */
  ghost function Progress(before: seq<Content>, area: Area, r: Resolved, lo: V3s, hi: V3s, waterLevel: int,
                          stone: Content, water: Content, z: int, x: int, y: int): (s: seq<Content>)
    requires |before| == Volume(area)
    ensures |s| == |before|
  {
    seq(|before|, k requires 0 <= k < |before| =>
      var p := Decode(area, k);
      if Visited(p, z, x, y) then Generated(r, p, before[k], lo, hi, waterLevel, stone, water) else before[k])
  }

  /** Two loop positions that have visited the same voxels of the box leave the same buffer. */
  lemma ProgressSame(before: seq<Content>, area: Area, r: Resolved, lo: V3s, hi: V3s, waterLevel: int,
                     stone: Content, water: Content, z: int, x: int, y: int, z': int, x': int, y': int)
    requires |before| == Volume(area)
    requires forall p :: InBox(p, lo, hi) ==> (Visited(p, z, x, y) <==> Visited(p, z', x', y'))
    ensures Progress(before, area, r, lo, hi, waterLevel, stone, water, z, x, y)
         == Progress(before, area, r, lo, hi, waterLevel, stone, water, z', x', y')
  {
  }

  /** Before the first voxel nothing has changed. */
  lemma ProgressStart(before: seq<Content>, area: Area, r: Resolved, lo: V3s, hi: V3s, waterLevel: int,
                      stone: Content, water: Content)
    requires |before| == Volume(area)
    ensures Progress(before, area, r, lo, hi, waterLevel, stone, water, lo.z, lo.x, lo.y) == before
  {
  }

  /** Past the last layer the buffer is the materialised one. */
  lemma ProgressEnd(before: seq<Content>, area: Area, r: Resolved, lo: V3s, hi: V3s, waterLevel: int,
                    stone: Content, water: Content, z: int, x: int, y: int)
    requires |before| == Volume(area) && z > hi.z
    ensures Progress(before, area, r, lo, hi, waterLevel, stone, water, z, x, y)
         == Materialise(before, area, r, lo, hi, waterLevel, stone, water)
  {
  }

  /** A voxel not yet visited still holds its old content. */
  lemma ProgressUnvisited(before: seq<Content>, area: Area, r: Resolved, lo: V3s, hi: V3s, waterLevel: int,
                          stone: Content, water: Content, here: V3s)
    requires |before| == Volume(area) && Contains(area, here)
    ensures 0 <= Index(area, here) < |before|
    ensures Progress(before, area, r, lo, hi, waterLevel, stone, water, here.z, here.x, here.y)[Index(area, here)]
         == before[Index(area, here)]
  {
    IndexInRange(area, here);
    DecodeIndex(area, here);
  }

  /** Visiting voxel `here` writes its generated content at its own offset and nowhere else. */
  lemma ProgressStep(before: seq<Content>, area: Area, r: Resolved, lo: V3s, hi: V3s, waterLevel: int,
                     stone: Content, water: Content, here: V3s)
    requires |before| == Volume(area) && Contains(area, here)
    ensures 0 <= Index(area, here) < |before|
    ensures var i := Index(area, here);
            var s := Progress(before, area, r, lo, hi, waterLevel, stone, water, here.z, here.x, here.y);
            var t := Progress(before, area, r, lo, hi, waterLevel, stone, water, here.z, here.x, here.y + 1);
            s[i := Generated(r, here, before[i], lo, hi, waterLevel, stone, water)] == t
  {
    IndexInRange(area, here);
    DecodeIndex(area, here);
    var i := Index(area, here);
    var s := Progress(before, area, r, lo, hi, waterLevel, stone, water, here.z, here.x, here.y);
    var t := Progress(before, area, r, lo, hi, waterLevel, stone, water, here.z, here.x, here.y + 1);
    forall k | 0 <= k < |before| && k != i
      ensures s[k] == t[k]
    {
      IndexDecode(area, k);
    }
  }
}
