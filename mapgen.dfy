// MapgenMath: the generator object.  Its constructor resolves the parameters
// by overwriting them in the order the configuration is read, and
// generateTerrain visits the chunk's box z, then x, then y, writing each
// voxel of the buffer in place.

module Mapgen {
  import opened Geometry
  import opened Fractals
  import opened Settings
  import opened Voxels
  import opened Terrain

  class MapgenMath {
    var mgParams: MapgenMathParams
    var invert: bool
    var size: real
    var scale: real
    var center: Vec3
    var iterations: int
    var distance: real
    var internal: bool
    var func: Evaluator
    /** The node ids of the base generator's stone and water source. */
    var cStone: Content
    var cWaterSource: Content

    /** The resolved parameters the fields hold. */
    function Params(): Resolved
      reads this
    {
      Resolved(invert, size, scale, center, iterations, distance, internal, func)
    }

    /**
     * The generic defaults first, then the generator's block, then the
     * center fallback.  An absent generator is written back as "mandelbox".
     */
    constructor (params_: MapgenMathParams, cStone: Content, cWaterSource: Content)
      modifies params_
      ensures mgParams == params_ && this.cStone == cStone && this.cWaterSource == cWaterSource
      ensures Params() == Resolve(old(params_.params))
      ensures params_.params == WithDefaultGenerator(old(params_.params), "mandelbox")
    {
      ghost var c := params_.params;
      var values := params_.params.values;
      var center := Zero;
      var invert := AsBool(Get(values, "invert", 0.0));
      var size := Get(values, "size", (MapGenerationLimit - 1000) as real);
      var scale := Get(values, "scale", Reciprocal(size));
      if params_.params.center.Some? {
        center := params_.params.center.value;
      }
      var iterations := AsInt(Get(values, "iterations", 10.0));
      var distance := Get(values, "distance", scale);

      var internal := false;
      var func := SphereFn;

      if params_.params.generator.None? {
        params_.params := params_.params.(generator := Some("mandelbox"));
      }
      var generator := params_.params.generator.value;
      ResolveOfKind(c, KindOf(generator));
      if generator == "mengersponge" {
        internal := true;
        func := MengerSpongeFn;
        invert := AsBool(Get(values, "invert", 1.0));
        size := Get(values, "size", ((MapGenerationLimit - 1000) / 2) as real);
        distance := Get(values, "distance", 0.0003);
        if center == Zero {
          center := Vec3(-size, -size, -size);
        }
      } else if generator == "mandelbox" {
        internal := true;
        func := MandelboxFn;
        invert := AsBool(Get(values, "invert", 1.0));
        size := Get(values, "size", 1000.0);
        distance := Get(values, "size", 0.01);
        invert := AsBool(Get(values, "invert", 0.0));
        if center == Zero {
          center := Vec3(size * 0.3, -size * 0.6, size * 0.5);
        }
      } else if generator == "sphere" {
        internal := true;
        func := SphereFn;
        invert := AsBool(Get(values, "invert", 0.0));
        size := Get(values, "size", 100.0);
        distance := Get(values, "distance", size);
        scale := Get(values, "scale", 1.0);
      }
      if params_.params.center.None? && center == Zero {
        center := Vec3(3.0, -size + (-5.0 - (-Indicator(invert) * 10.0)), 3.0);
      }

      mgParams := params_;
      this.cStone := cStone;
      this.cWaterSource := cWaterSource;
      this.invert := invert;
      this.size := size;
      this.scale := scale;
      this.center := center;
      this.iterations := iterations;
      this.distance := distance;
      this.internal := internal;
      this.func := func;
    }

    /** The evaluator's answer at voxel (x, y, z); `d` keeps its value when no internal evaluator is bound. */
    method SampleVoxel(x: int, y: int, z: int, d0: real) returns (d: real)
      requires !internal ==> d0 == 0.0
      ensures d == Sample(Params(), V3s(x, y, z))
    {
      d := d0;
      var vec := FractalPoint(center, scale, V3s(x, y, z));
      if internal {
        d := CallEvaluator(func, vec, distance, iterations);
      }
      SampleOfLoop(Params(), V3s(x, y, z), vec, d);
    }

    /**
     * generateTerrain over the box nodeMin..nodeMax with the given water
     * level; the box lies in the buffer's area unless it is empty.
     */
    method GenerateTerrain(vm: VoxelManipulator, nodeMin: V3s, nodeMax: V3s, waterLevel: int) returns (status: int)
      requires vm.Valid()
      requires BoxEmpty(nodeMin, nodeMax) || (Contains(vm.area, nodeMin) && Contains(vm.area, nodeMax))
      modifies vm.data
      ensures status == 0
      ensures vm.data[..] == Materialise(old(vm.data[..]), vm.area, Params(), nodeMin, nodeMax, waterLevel,
                                         cStone, cWaterSource)
    {
      ghost var before := vm.data[..];
      ghost var r := Params();
      ProgressStart(before, vm.area, r, nodeMin, nodeMax, waterLevel, cStone, cWaterSource);
      var em := ExtentX(vm.area);
      var d := 0.0;
      var z := nodeMin.z;
      while z <= nodeMax.z
        invariant nodeMin.z <= z <= nodeMax.z + 1 || z == nodeMin.z
        invariant !internal ==> d == 0.0
        invariant vm.data[..] == Progress(before, vm.area, r, nodeMin, nodeMax, waterLevel, cStone, cWaterSource,
                                          z, nodeMin.x, nodeMin.y)
      {
        var x := nodeMin.x;
        while x <= nodeMax.x
          invariant nodeMin.x <= x <= nodeMax.x + 1 || x == nodeMin.x
          invariant !internal ==> d == 0.0
          invariant vm.data[..] == Progress(before, vm.area, r, nodeMin, nodeMax, waterLevel, cStone, cWaterSource,
                                            z, x, nodeMin.y)
        {
          var i := Index(vm.area, V3s(x, nodeMin.y, z));
          var y := nodeMin.y;
          while y <= nodeMax.y
            invariant nodeMin.y <= y <= nodeMax.y + 1 || y == nodeMin.y
            invariant i == Index(vm.area, V3s(x, y, z))
            invariant !internal ==> d == 0.0
            invariant vm.data[..] == Progress(before, vm.area, r, nodeMin, nodeMax, waterLevel, cStone, cWaterSource,
                                              z, x, y)
          {
            ghost var here := V3s(x, y, z);
            ghost var current := vm.data[..];
            ProgressUnvisited(before, vm.area, r, nodeMin, nodeMax, waterLevel, cStone, cWaterSource, here);
            ProgressStep(before, vm.area, r, nodeMin, nodeMax, waterLevel, cStone, cWaterSource, here);
            ghost var generated := Generated(r, here, before[i], nodeMin, nodeMax, waterLevel, cStone, cWaterSource);
            d := SampleVoxel(x, y, z, d);
            if (!invert && d > 0.0) || (invert && d == 0.0) {
              if vm.data[i] == ContentIgnore {
                vm.data[i] := cStone;
              } else {
                assert current[i := generated] == current;
              }
            } else if y <= waterLevel {
              vm.data[i] := cWaterSource;
            } else {
              vm.data[i] := ContentAir;
            }
            assert vm.data[..] == current[i := generated];
            IndexNextY(vm.area, here);
            i := i + em;
            y := y + 1;
          }
          ProgressSame(before, vm.area, r, nodeMin, nodeMax, waterLevel, cStone, cWaterSource, z, x, y, z, x + 1, nodeMin.y);
          x := x + 1;
        }
        ProgressSame(before, vm.area, r, nodeMin, nodeMax, waterLevel, cStone, cWaterSource,
                     z, x, nodeMin.y, z + 1, nodeMin.x, nodeMin.y);
        z := z + 1;
      }
      ProgressEnd(before, vm.area, r, nodeMin, nodeMax, waterLevel, cStone, cWaterSource, z, nodeMin.x, nodeMin.y);
      status := 0;
    }
  }
}
