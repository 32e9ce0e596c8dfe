// The three built-in distance evaluators of the math map generator: the
// Menger sponge, the Mandelbox and the sphere. Each is a pure specification
// function over the reals; the two loop evaluators also have an imperative
// version that runs the loop as the generator does and is proved equal to it.
// An evaluator's result is a double that is 1.0 for "inside" and 0.0 otherwise.

module Fractals {
  import opened Geometry

  function Pow(b: real, n: nat): (r: real)
    ensures b > 0.0 ==> r > 0.0
    ensures b >= 1.0 ==> r >= 1.0
  {
    if n == 0 then 1.0 else b * Pow(b, n - 1)
  }

  function Indicator(b: bool): real
  {
    if b then 1.0 else 0.0
  }

  // ---------------------------------------------------------------------------
  // Menger sponge

  const MengerScale: real := 3.0
  /** The loop stops once the squared radius reaches 9. */
  const MengerBailout: real := 9.0

  /** Absolute values of the three coordinates followed by the three conditional swaps. */
  function MengerFold(v: Vec3): Vec3
  {
    var x0, y0, z0 := Abs(v.x), Abs(v.y), Abs(v.z);
    var (x1, y1) := if x0 - y0 < 0.0 then (y0, x0) else (x0, y0);
    var (x2, z1) := if x1 - z0 < 0.0 then (z0, x1) else (x1, z0);
    var (y2, z2) := if y1 - z1 < 0.0 then (z1, y1) else (y1, z1);
    Vec3(x2, y2, z2)
  }

  /** The fold sorts the absolute values of the coordinates into descending order. */
  lemma MengerFoldSorts(v: Vec3)
    ensures var f := MengerFold(v);
            f.x >= f.y >= f.z >= 0.0
            && multiset{f.x, f.y, f.z} == multiset{Abs(v.x), Abs(v.y), Abs(v.z)}
  {
  }

  /** One round of the sponge loop: fold, affine map, shift of z back below the middle. */
  function MengerStep(v: Vec3): Vec3
  {
    var f := MengerFold(v);
    var z := MengerScale * f.z;
    Vec3(MengerScale * f.x - 1.0 * (MengerScale - 1.0),
         MengerScale * f.y - 1.0 * (MengerScale - 1.0),
         if z > 0.5 * 1.0 * (MengerScale - 1.0) then z - 1.0 * (MengerScale - 1.0) else z)
  }

  /** The loop's locals: the point, its cached squared radius r, and the counter i. */
  datatype MengerState = MengerState(v: Vec3, r: real, i: nat)

  function MengerStart(v: Vec3): MengerState
  {
    MengerState(v, Norm2(v), 0)
  }

  /** `for (; i < MI && r < 9; i++) { ...; r = |v|^2 }` started from state `s`. */
  function MengerLoop(s: MengerState, mi: int): MengerState
    decreases mi - s.i
  {
    if s.i < mi && s.r < MengerBailout then
      var w := MengerStep(s.v);
      MengerLoop(MengerState(w, Norm2(w), s.i + 1), mi)
    else
      s
  }

  /** The loop leaves a state it may not enter unchanged, only counts up, stops by MI, stops
      early only on escape, and keeps r equal to the squared radius of the point. */
  lemma {:induction false} MengerLoopFacts(s: MengerState, mi: int)
    ensures var res := MengerLoop(s, mi);
            (!(s.i < mi && s.r < MengerBailout) ==> res == s)
            && res.i >= s.i
            && (s.i <= mi ==> res.i <= mi)
            && (res.i < mi ==> res.r >= MengerBailout)
            && (s.r == Norm2(s.v) ==> res.r == Norm2(res.v))
    decreases mi - s.i
  {
    if s.i < mi && s.r < MengerBailout {
      var w := MengerStep(s.v);
      MengerLoopFacts(MengerState(w, Norm2(w), s.i + 1), mi);
    }
  }

  /** Reference definition: the point after n rounds of the sponge map. */
  function MengerOrbit(v: Vec3, n: nat): Vec3
  {
    if n == 0 then v else MengerStep(MengerOrbit(v, n - 1))
  }

  /** The loop's state after k rounds along the orbit of v0. */
  function OrbitState(v0: Vec3, k: nat): MengerState
  {
    var p := MengerOrbit(v0, k);
    MengerState(p, Norm2(p), k)
  }

  /** One round of the loop moves the state one point further along the orbit. */
  lemma OrbitRound(v0: Vec3, k: nat, mi: int)
    requires k < mi && Norm2(MengerOrbit(v0, k)) < MengerBailout
    ensures MengerLoop(OrbitState(v0, k), mi) == MengerLoop(OrbitState(v0, k + 1), mi)
  {
    var p := MengerOrbit(v0, k);
    assert MengerOrbit(v0, k + 1) == MengerStep(p);
  }

  /** The loop follows the orbit and stops at an escaped orbit point, or at MI. */
  lemma {:induction false} MengerLoopFollowsOrbit(v0: Vec3, k: nat, mi: int)
    ensures var res := MengerLoop(OrbitState(v0, k), mi);
            k <= res.i
            && res.v == MengerOrbit(v0, res.i)
            && (res.i < mi ==> Norm2(MengerOrbit(v0, res.i)) >= MengerBailout)
    decreases mi - k
  {
    var s := OrbitState(v0, k);
    if k < mi && s.r < MengerBailout {
      OrbitRound(v0, k, mi);
      MengerLoopFollowsOrbit(v0, k + 1, mi);
      var res := MengerLoop(OrbitState(v0, k + 1), mi);
      assert MengerLoop(s, mi) == res;
    } else {
      assert MengerLoop(s, mi) == s;
    }
  }

  /** Every orbit point the loop passes before it stops is still inside the bailout radius. */
  lemma {:induction false} MengerLoopStopsAtFirstEscape(v0: Vec3, k: nat, mi: int)
    ensures var res := MengerLoop(OrbitState(v0, k), mi);
            forall j: nat :: k <= j < res.i ==> Norm2(MengerOrbit(v0, j)) < MengerBailout
    decreases mi - k
  {
    var s := OrbitState(v0, k);
    if k < mi && s.r < MengerBailout {
      OrbitRound(v0, k, mi);
      MengerLoopStopsAtFirstEscape(v0, k + 1, mi);
    } else {
      assert MengerLoop(s, mi) == s;
    }
  }

  /** The counter of a run from the input point: 0 <= i <= MI, and no round at all when |v|^2 >= 9. */
  lemma MengerIterationBounds(v: Vec3, mi: int)
    ensures var res := MengerLoop(MengerStart(v), mi);
            0 <= res.i
            && (mi >= 0 ==> res.i <= mi)
            && (mi <= 0 ==> res.i == 0)
            && (Norm2(v) >= MengerBailout ==> res.i == 0 && res.v == v)
            && (res.i < mi ==> res.r >= MengerBailout)
  {
    MengerLoopFacts(MengerStart(v), mi);
  }

  /** `sqrt(r) * pow(3, -i) < d` in squared form. */
  predicate MengerInside(r: real, i: nat, d: real)
  {
    SqrtLess(r, d * Pow(MengerScale, i))
  }

  lemma MengerVerdictSound(r: real, root: real, i: nat, d: real)
    requires root >= 0.0 && root * root == r
    ensures MengerInside(r, i, d) <==> root * (1.0 / Pow(MengerScale, i)) < d
  {
    var p := Pow(MengerScale, i);
    SqrtLessSound(r, root, d * p);
    assert root * (1.0 / p) == root / p;
    QuotientLess(root, p, d);
  }

  /** `mengersponge(x, y, z, d, MI)`. */
  function MengerSponge(x: real, y: real, z: real, d: real, mi: int): (res: real)
    ensures res == 0.0 || res == 1.0
  {
    var s := MengerLoop(MengerStart(Vec3(x, y, z)), mi);
    Indicator(MengerInside(s.r, s.i, d))
  }

  /** A point that starts outside the bailout radius is judged on its own radius. */
  lemma MengerSpongeEscaped(x: real, y: real, z: real, d: real, mi: int)
    requires Norm2(Vec3(x, y, z)) >= MengerBailout
    ensures MengerSponge(x, y, z, d, mi) == Indicator(SqrtLess(Norm2(Vec3(x, y, z)), d))
  {
  }

  method EvalMengerSponge(x0: real, y0: real, z0: real, d: real, mi: int) returns (res: real)
    ensures res == MengerSponge(x0, y0, z0, d, mi)
  {
    var x, y, z := x0, y0, z0;
    var r := Norm2(Vec3(x, y, z));
    var scale := MengerScale;
    var i := 0;
    while i < mi && r < MengerBailout
      invariant 0 <= i
      invariant MengerLoop(MengerState(Vec3(x, y, z), r, i), mi) == MengerLoop(MengerStart(Vec3(x0, y0, z0)), mi)
      decreases mi - i
    {
      ghost var v := Vec3(x, y, z);
      x := Abs(x);
      y := Abs(y);
      z := Abs(z);
      if x - y < 0.0 {
        x, y := y, x;
      }
      if x - z < 0.0 {
        x, z := z, x;
      }
      if y - z < 0.0 {
        y, z := z, y;
      }
      assert Vec3(x, y, z) == MengerFold(v);
      x := scale * x - 1.0 * (scale - 1.0);
      y := scale * y - 1.0 * (scale - 1.0);
      z := scale * z;
      if z > 0.5 * 1.0 * (scale - 1.0) {
        z := z - 1.0 * (scale - 1.0);
      }
      assert Vec3(x, y, z) == MengerStep(v);
      r := Norm2(Vec3(x, y, z));
      i := i + 1;
    }
    res := Indicator(MengerInside(r, i, d));
  }

  // ---------------------------------------------------------------------------
  // Mandelbox

  /** `int s = 7`: the point and the threshold are multiplied by it once. */
  const BoxPrescale: real := 7.0
  const BoxScale: real := 2.0
  const MinRadius2: real := 0.25
  const InitialFixedRadius2: real := 1.0

  /** Reflection of one axis: values beyond 1 or -1 are folded back towards [-1, 1]. */
  function BoxFold(a: real): real
  {
    if a > 1.0 then 2.0 - a else if a < -1.0 then -2.0 - a else a
  }

  /** The fold never moves a value away from 0, and maps [-3, 3] into [-1, 1]. */
  lemma BoxFoldBounds(a: real)
    ensures Abs(BoxFold(a)) <= Abs(a)
    ensures -3.0 <= a <= 3.0 ==> -1.0 <= BoxFold(a) <= 1.0
  {
  }

  function BoxFolded(v: Vec3): Vec3
  {
    Vec3(BoxFold(v.x), BoxFold(v.y), BoxFold(v.z))
  }

  /** The loop's locals: the point, the derivative dr and fixedRadius2, which the loop carries along. */
  datatype BoxState = BoxState(v: Vec3, dr: real, fr2: real)

  /** Sphere inversion of one coordinate of a folded point whose squared radius is r2:
      inside minRadius2 it is scaled by fixedRadius2/minRadius2, between minRadius2 and
      fixedRadius2 by fixedRadius2/r2, and outside it is left alone. */
  function InvertAxis(a: real, r2: real, fr2: real): real
  {
    if r2 < MinRadius2 then a * fr2 / MinRadius2
    else if r2 < fr2 then a * fr2 / r2
    else a
  }

  /** dr follows the innermost branch only. */
  function InvertDerivative(dr: real, r2: real, fr2: real): real
  {
    if r2 < MinRadius2 then dr * fr2 / MinRadius2 else dr
  }

  /** fixedRadius2 is multiplied by fixedRadius2/r2 in the middle branch and kept otherwise. */
  function NextFixedRadius2(r2: real, fr2: real): real
  {
    if r2 < MinRadius2 then fr2
    else if r2 < fr2 then fr2 * (fr2 / r2)
    else fr2
  }

  /** One round: box fold, sphere inversion, then `v = v * scale + pos` and `dr *= scale`. */
  function BoxStep(s: BoxState, pos: Vec3): BoxState
  {
    var f := BoxFolded(s.v);
    var r2 := Norm2(f);
    BoxState(Vec3(InvertAxis(f.x, r2, s.fr2) * BoxScale + pos.x,
                  InvertAxis(f.y, r2, s.fr2) * BoxScale + pos.y,
                  InvertAxis(f.z, r2, s.fr2) * BoxScale + pos.z),
             InvertDerivative(s.dr, r2, s.fr2) * BoxScale, NextFixedRadius2(r2, s.fr2))
  }

  /** The update factor fixedRadius2/r2 exceeds 1 exactly in the branch that applies it. */
  lemma NextFixedRadius2Grows(r2: real, fr2: real)
    requires fr2 > 0.0
    ensures NextFixedRadius2(r2, fr2) >= fr2
    ensures NextFixedRadius2(r2, fr2) > fr2 <==> MinRadius2 <= r2 < fr2
  {
    if MinRadius2 <= r2 < fr2 {
      var q := fr2 / r2;
      assert q * r2 == fr2;
      assert q > 1.0;
      assert fr2 * q > fr2 * 1.0;
    }
  }

  /** fixedRadius2 never decreases, and grows exactly in the branch minRadius2 <= r2 < fixedRadius2. */
  lemma BoxStepRadius(s: BoxState, pos: Vec3)
    requires s.fr2 > 0.0
    ensures BoxStep(s, pos).fr2 >= s.fr2
    ensures BoxStep(s, pos).fr2 > s.fr2 <==> MinRadius2 <= Norm2(BoxFolded(s.v)) < s.fr2
  {
    NextFixedRadius2Grows(Norm2(BoxFolded(s.v)), s.fr2);
  }

  /** The inversion never shrinks dr while fixedRadius2 is at least 1. */
  lemma InvertDerivativeGrows(dr: real, r2: real, fr2: real)
    requires dr > 0.0 && fr2 >= InitialFixedRadius2
    ensures InvertDerivative(dr, r2, fr2) >= dr
  {
    if r2 < MinRadius2 {
      assert dr * fr2 >= dr * 1.0;
    }
  }

  /** While fixedRadius2 is at least 1, every round at least doubles a positive dr. */
  lemma BoxStepDerivative(s: BoxState, pos: Vec3)
    requires s.dr > 0.0 && s.fr2 >= InitialFixedRadius2
    ensures BoxStep(s, pos).dr >= BoxScale * s.dr
  {
    InvertDerivativeGrows(s.dr, Norm2(BoxFolded(s.v)), s.fr2);
  }

  /** `n` rounds of the loop; `for (n = 0; n < nn; n++)` runs no round when nn <= 0. */
  function BoxIterate(s: BoxState, pos: Vec3, n: int): BoxState
    decreases n
  {
    if n <= 0 then s else BoxIterate(BoxStep(s, pos), pos, n - 1)
  }

  /** Unfolding the last round instead of the first. */
  lemma {:induction false} BoxIterateLast(s: BoxState, pos: Vec3, n: nat)
    ensures BoxIterate(s, pos, n + 1) == BoxStep(BoxIterate(s, pos, n), pos)
    decreases n
  {
    if n > 0 {
      BoxIterateLast(BoxStep(s, pos), pos, n - 1);
    }
  }

  /** Chaining the bound on the first rounds with one more doubling round. */
  lemma DoublingChain(a: real, b: real, c: real, p: real)
    requires a > 0.0 && p >= 1.0
    requires b >= a * p
    requires c >= BoxScale * b
    ensures c >= a * (BoxScale * p)
  {
    assert BoxScale * b >= BoxScale * (a * p);
  }

  /** Powers of the scale are at least 1 and unfold by one factor. */
  lemma ScalePower(n: nat)
    requires n > 0
    ensures Pow(BoxScale, n - 1) >= 1.0
    ensures Pow(BoxScale, n) == BoxScale * Pow(BoxScale, n - 1)
  {
  }

  /** The round facts, stated between consecutive iterates. */
  lemma IterateRound(s: BoxState, pos: Vec3, n: nat)
    requires n > 0
    requires BoxIterate(s, pos, n - 1).dr > 0.0
    requires BoxIterate(s, pos, n - 1).fr2 >= InitialFixedRadius2
    ensures BoxIterate(s, pos, n).fr2 >= BoxIterate(s, pos, n - 1).fr2
    ensures BoxIterate(s, pos, n).dr >= BoxScale * BoxIterate(s, pos, n - 1).dr
  {
    var u := BoxIterate(s, pos, n - 1);
    BoxIterateLast(s, pos, n - 1);
    BoxStepRadius(u, pos);
    BoxStepDerivative(u, pos);
  }

  /** Over any number of rounds fixedRadius2 does not decrease and dr grows at least like 2^n. */
  lemma {:induction false} BoxIterateInvariant(s: BoxState, pos: Vec3, n: nat)
    requires s.dr > 0.0 && s.fr2 >= InitialFixedRadius2
    ensures BoxIterate(s, pos, n).fr2 >= s.fr2
    ensures BoxIterate(s, pos, n).dr >= s.dr * Pow(BoxScale, n)
    ensures BoxIterate(s, pos, n).dr > 0.0
    decreases n
  {
    if n > 0 {
      BoxIterateInvariant(s, pos, n - 1);
      IterateRound(s, pos, n);
      ScalePower(n);
      DoublingChain(s.dr, BoxIterate(s, pos, n - 1).dr, BoxIterate(s, pos, n).dr, Pow(BoxScale, n - 1));
    }
  }

  function BoxStart(p: Vec3): BoxState
  {
    BoxState(p, 1.0, InitialFixedRadius2)
  }

  function Prescaled(x: real, y: real, z: real): Vec3
  {
    Vec3(x * BoxPrescale, y * BoxPrescale, z * BoxPrescale)
  }

  /** `r / fabs(dr) < d` with r the length of v, in squared form. */
  predicate BoxInside(s: BoxState, d: real)
  {
    SqrtLess(Norm2(s.v), d * Abs(s.dr))
  }

  /** `mandelbox(x, y, z, d, nn)`: pre-scale, nn rounds, then the distance test. */
  function Mandelbox(x: real, y: real, z: real, d: real, nn: int): (res: real)
    ensures res == 0.0 || res == 1.0
  {
    var p := Prescaled(x, y, z);
    Indicator(BoxInside(BoxIterate(BoxStart(p), p, nn), d * BoxPrescale))
  }

  /** With a positive dr the squared test is the quotient test `r / fabs(dr) < d`. */
  lemma BoxInsideSound(s: BoxState, d: real, root: real)
    requires s.dr > 0.0
    requires root >= 0.0 && root * root == Norm2(s.v)
    ensures BoxInside(s, d) <==> root / Abs(s.dr) < d
  {
    SqrtLessSound(Norm2(s.v), root, d * s.dr);
    QuotientLess(root, s.dr, d);
  }

  /** Any number of rounds from the start state leaves dr positive (none are run when nn <= 0). */
  lemma MandelboxDerivativePositive(p: Vec3, nn: int)
    ensures BoxIterate(BoxStart(p), p, nn).dr > 0.0
  {
    if nn > 0 {
      BoxIterateInvariant(BoxStart(p), p, nn);
    }
  }

  /** After any run dr is positive, so the squared test is the source's quotient test. */
  lemma MandelboxVerdictSound(x: real, y: real, z: real, d: real, nn: int, root: real)
    requires var p := Prescaled(x, y, z);
             root >= 0.0 && root * root == Norm2(BoxIterate(BoxStart(p), p, nn).v)
    ensures var p := Prescaled(x, y, z);
            var s := BoxIterate(BoxStart(p), p, nn);
            s.dr > 0.0
            && (Mandelbox(x, y, z, d, nn) == 1.0 <==> root / Abs(s.dr) < d * BoxPrescale)
  {
    var p := Prescaled(x, y, z);
    MandelboxDerivativePositive(p, nn);
    BoxInsideSound(BoxIterate(BoxStart(p), p, nn), d * BoxPrescale, root);
  }

  /** The pre-scale is applied once: with no rounds it cancels and the test is the sphere's. */
  lemma MandelboxNoRounds(x: real, y: real, z: real, d: real, nn: int)
    requires nn <= 0
    ensures Mandelbox(x, y, z, d, nn) == Sphere(x, y, z, d, nn)
  {
    var v := Vec3(x, y, z);
    assert Norm2(Prescaled(x, y, z)) == 49.0 * Norm2(v);
    assert (d * BoxPrescale) * (d * BoxPrescale) == 49.0 * (d * d);
  }

  // The three branches of the sphere inversion, one lemma each.

  lemma InversionInner(x: real, y: real, z: real, r2: real, dr: real, fr2: real)
    requires r2 < MinRadius2
    ensures InvertAxis(x, r2, fr2) == x * fr2 / MinRadius2 && InvertAxis(y, r2, fr2) == y * fr2 / MinRadius2
            && InvertAxis(z, r2, fr2) == z * fr2 / MinRadius2
            && InvertDerivative(dr, r2, fr2) == dr * fr2 / MinRadius2 && NextFixedRadius2(r2, fr2) == fr2
  {
  }

  lemma InversionMiddle(x: real, y: real, z: real, r2: real, dr: real, fr2: real)
    requires MinRadius2 <= r2 < fr2
    ensures InvertAxis(x, r2, fr2) == x * fr2 / r2 && InvertAxis(y, r2, fr2) == y * fr2 / r2
            && InvertAxis(z, r2, fr2) == z * fr2 / r2
            && InvertDerivative(dr, r2, fr2) == dr && NextFixedRadius2(r2, fr2) == fr2 * (fr2 / r2)
  {
  }

  lemma InversionOuter(x: real, y: real, z: real, r2: real, dr: real, fr2: real)
    requires MinRadius2 <= r2 && fr2 <= r2
    ensures InvertAxis(x, r2, fr2) == x && InvertAxis(y, r2, fr2) == y && InvertAxis(z, r2, fr2) == z
            && InvertDerivative(dr, r2, fr2) == dr && NextFixedRadius2(r2, fr2) == fr2
  {
  }

  /** The sphere-inversion block of mandelbox's loop, on the folded point (x0, y0, z0). */
  method InvertSphere(x0: real, y0: real, z0: real, dr0: real, fr0: real)
    returns (x: real, y: real, z: real, dr: real, fixedRadius2: real)
    ensures var r2 := Norm2(Vec3(x0, y0, z0));
            x == InvertAxis(x0, r2, fr0) && y == InvertAxis(y0, r2, fr0) && z == InvertAxis(z0, r2, fr0)
            && dr == InvertDerivative(dr0, r2, fr0) && fixedRadius2 == NextFixedRadius2(r2, fr0)
  {
    var minRadius2 := MinRadius2;
    x, y, z, dr, fixedRadius2 := x0, y0, z0, dr0, fr0;
    var r2 := x * x + y * y + z * z;
    Norm2Expanded(x0, y0, z0);
    if r2 < minRadius2 {
      x := x * fixedRadius2 / minRadius2;
      y := y * fixedRadius2 / minRadius2;
      z := z * fixedRadius2 / minRadius2;
      dr := dr * fixedRadius2 / minRadius2;
      InversionInner(x0, y0, z0, r2, dr0, fr0);
    } else if r2 < fixedRadius2 {
      x := x * fixedRadius2 / r2;
      y := y * fixedRadius2 / r2;
      z := z * fixedRadius2 / r2;
      fixedRadius2 := fixedRadius2 * (fixedRadius2 / r2);
      InversionMiddle(x0, y0, z0, r2, dr0, fr0);
    } else {
      InversionOuter(x0, y0, z0, r2, dr0, fr0);
    }
  }

  method EvalMandelbox(x0: real, y0: real, z0: real, d0: real, nn: int) returns (res: real)
    ensures res == Mandelbox(x0, y0, z0, d0, nn)
  {
    var s := BoxPrescale;
    var x, y, z, d := x0 * s, y0 * s, z0 * s, d0 * s;
    var posX, posY, posZ := x, y, z;
    var dr := 1.0;
    var scale := BoxScale;
    var fixedRadius2 := InitialFixedRadius2;
    ghost var pos := Vec3(posX, posY, posZ);
    ghost var start := BoxStart(pos);
    var n := 0;
    while n < nn
      invariant 0 <= n && (n <= nn || n == 0)
      invariant BoxState(Vec3(x, y, z), dr, fixedRadius2) == BoxIterate(start, pos, n)
    {
      ghost var w := BoxState(Vec3(x, y, z), dr, fixedRadius2);
      if x > 1.0 {
        x := 2.0 - x;
      } else if x < -1.0 {
        x := -2.0 - x;
      }
      if y > 1.0 {
        y := 2.0 - y;
      } else if y < -1.0 {
        y := -2.0 - y;
      }
      if z > 1.0 {
        z := 2.0 - z;
      } else if z < -1.0 {
        z := -2.0 - z;
      }
      assert Vec3(x, y, z) == BoxFolded(w.v);
      x, y, z, dr, fixedRadius2 := InvertSphere(x, y, z, dr, fixedRadius2);
      x := x * scale + posX;
      y := y * scale + posY;
      z := z * scale + posZ;
      dr := dr * scale;
      BoxIterateLast(start, pos, n);
      n := n + 1;
    }
    if nn <= 0 {
      assert BoxIterate(start, pos, nn) == start == BoxIterate(start, pos, n);
    }
    res := Indicator(BoxInside(BoxState(Vec3(x, y, z), dr, fixedRadius2), d));
  }

  // ---------------------------------------------------------------------------
  // Sphere

  /** `sphere(x, y, z, d, ITR)`: the length of (x, y, z) is below d; ITR is ignored. */
  function Sphere(x: real, y: real, z: real, d: real, itr: int): (res: real)
    ensures res == 0.0 || res == 1.0
  {
    Indicator(SqrtLess(Norm2(Vec3(x, y, z)), d))
  }

  lemma SphereSound(x: real, y: real, z: real, d: real, itr: int, len: real)
    requires len >= 0.0 && len * len == Norm2(Vec3(x, y, z))
    ensures Sphere(x, y, z, d, itr) == 1.0 <==> len < d
  {
    SqrtLessSound(Norm2(Vec3(x, y, z)), len, d);
  }

  lemma SphereExamples()
    ensures Sphere(0.0, 0.0, 0.0, 5.0, 1) == 1.0
    ensures Sphere(10.0, 0.0, 0.0, 5.0, 1) == 0.0
    ensures Sphere(3.0, 4.0, 0.0, 5.0, 1) == 0.0
  {
  }

  // ---------------------------------------------------------------------------
  // Dispatch through the generator's bound evaluator, func

  /** The evaluator a generator binds to `func`. */
  datatype Evaluator = SphereFn | MengerSpongeFn | MandelboxFn

  function Evaluate(f: Evaluator, v: Vec3, d: real, iterations: int): (res: real)
    ensures res == 0.0 || res == 1.0
  {
    match f
    case SphereFn => Sphere(v.x, v.y, v.z, d, iterations)
    case MengerSpongeFn => MengerSponge(v.x, v.y, v.z, d, iterations)
    case MandelboxFn => Mandelbox(v.x, v.y, v.z, d, iterations)
  }

  /** A zero distance threshold leaves every point outside, whatever the evaluator. */
  lemma EvaluateZeroDistance(f: Evaluator, v: Vec3, iterations: int)
    ensures Evaluate(f, v, 0.0, iterations) == 0.0
  {
  }

  /** `(*func)(vec.X, vec.Y, vec.Z, distance, iterations)`. */
  method CallEvaluator(f: Evaluator, v: Vec3, d: real, iterations: int) returns (res: real)
    ensures res == Evaluate(f, v, d, iterations)
  {
    match f
    case SphereFn =>
      res := Sphere(v.x, v.y, v.z, d, iterations);
    case MengerSpongeFn =>
      res := EvalMengerSponge(v.x, v.y, v.z, d, iterations);
    case MandelboxFn =>
      res := EvalMandelbox(v.x, v.y, v.z, d, iterations);
  }
}
