// The "mg_math" configuration and how MapgenMath turns it into generator
// parameters.  A configuration is a string-keyed map of numbers (a JSON null,
// false or true reads as 0, 0 or 1), a generator name that is either absent
// or a string, and an optional "center" object.

module Settings {
  import opened Geometry
  import opened Fractals

  datatype Option<T> = None | Some(value: T)

  /** MAP_GENERATION_LIMIT of the engine's constants header. */
  const MapGenerationLimit: int := 31000

  /**
   * `values` holds the numeric members; `generator` is None when the member
   * is absent or null; `center` is None when the member is absent, null or an
   * empty object, and otherwise holds its x, y and z members (a missing one
   * reads as 0).
   */
  datatype Config = Config(values: map<string, real>, generator: Option<string>, center: Option<Vec3>)

  /** `params.get(key, fallback)`: a present member wins over the fallback. */
  function Get(values: map<string, real>, key: string, fallback: real): real
  {
    if key in values then values[key] else fallback
  }

  /** `asBool()` of a number. */
  predicate AsBool(v: real)
  {
    v != 0.0
  }

  /** `asInt()` of a number: truncation toward zero. */
  function AsInt(v: real): (n: int)
    ensures Abs(n as real) <= Abs(v) < Abs(n as real) + 1.0
    ensures n == 0 || (n > 0 <==> v > 0.0)
  {
    if v >= 0.0 then v.Floor else -((-v).Floor)
  }

  /** `(double)1 / size`; a zero size gives 0 here (infinity in IEEE arithmetic). */
  function Reciprocal(s: real): (q: real)
    ensures s != 0.0 ==> q * s == 1.0
  {
    if s == 0.0 then 0.0 else 1.0 / s
  }

  datatype Kind = MengerKind | MandelboxKind | SphereKind | OtherKind

  function KindOf(generator: string): (k: Kind)
    ensures k == MengerKind <==> generator == "mengersponge"
    ensures k == MandelboxKind <==> generator == "mandelbox"
    ensures k == SphereKind <==> generator == "sphere"
  {
    if generator == "mengersponge" then MengerKind
    else if generator == "mandelbox" then MandelboxKind
    else if generator == "sphere" then SphereKind
    else OtherKind
  }

  /** Sets the generator member to `name` when it is absent (what `params["generator"] = name` does under the emptiness test). */
  function WithDefaultGenerator(c: Config, name: string): (d: Config)
    ensures d.values == c.values && d.center == c.center
    ensures d.generator.Some?
    ensures c.generator.Some? ==> d == c
    ensures c.generator.None? ==> d.generator == Some(name)
  {
    if c.generator.None? then c.(generator := Some(name)) else c
  }

  /** The generator the constructor dispatches on: an absent one reads as "mandelbox". */
  function GeneratorOf(c: Config): string
  {
    WithDefaultGenerator(c, "mandelbox").generator.value
  }

  /** Everything the constructor leaves in the generator's fields. */
  datatype Resolved = Resolved(invert: bool, size: real, scale: real, center: Vec3, iterations: int,
                               distance: real, internal: bool, func: Evaluator)

  /** The generic size default, MAP_GENERATION_LIMIT - 1000. */
  const GenericSize: real := (MapGenerationLimit - 1000) as real

  /** The size default of a kind; the menger one is the integer (MAP_GENERATION_LIMIT - 1000) / 2. */
  function DefaultSize(k: Kind): real
  {
    match k
    case MengerKind => ((MapGenerationLimit - 1000) / 2) as real
    case MandelboxKind => 1000.0
    case SphereKind => 100.0
    case OtherKind => GenericSize
  }

  function EvaluatorOf(k: Kind): Evaluator
  {
    match k
    case MengerKind => MengerSpongeFn
    case MandelboxKind => MandelboxFn
    case SphereKind | OtherKind => SphereFn
  }

  /** The center after the kind's block: the given one, or the kind's default while it is still zero. */
  function KindCenter(k: Kind, given: Option<Vec3>, size: real): (c: Vec3)
    ensures given.Some? && given.value != Zero ==> c == given.value
    ensures (given.None? || given.value == Zero) && k == MengerKind ==> c == Vec3(-size, -size, -size)
    ensures (given.None? || given.value == Zero) && k == MandelboxKind ==> c == Vec3(size * 0.3, -size * 0.6, size * 0.5)
    ensures k != MengerKind && k != MandelboxKind ==> c == (if given.Some? then given.value else Zero)
  {
    var start := if given.Some? then given.value else Zero;
    if start != Zero then start
    else if k == MengerKind then Vec3(-size, -size, -size)
    else if k == MandelboxKind then Vec3(size * 0.3, -size * 0.6, size * 0.5)
    else start
  }

  /**
   * The center: a given center first; while it is still the zero vector the
   * menger and mandelbox defaults; and when no center was given and the result
   * is still zero, the fallback (3, -size - 5 + 10 * invert, 3).
   */
  function ResolveCenter(k: Kind, given: Option<Vec3>, size: real, invert: bool): (c: Vec3)
    ensures given.Some? && given.value != Zero ==> c == given.value
    ensures given.Some? && k != MengerKind && k != MandelboxKind ==> c == given.value
    ensures given.Some? ==> c == KindCenter(k, given, size)
    ensures given.None? ==> c != Zero
    ensures given.None? && KindCenter(k, given, size) == Zero ==> c == Vec3(3.0, -size - 5.0 + 10.0 * Indicator(invert), 3.0)
    ensures given.None? && k != MengerKind && k != MandelboxKind ==> c == Vec3(3.0, -size - 5.0 + 10.0 * Indicator(invert), 3.0)
  {
    var kindCenter := KindCenter(k, given, size);
    if given.None? && kindCenter == Zero then Vec3(3.0, -size - 5.0 + 10.0 * Indicator(invert), 3.0)
    else kindCenter
  }

  /**
   * The parameters the constructor resolves, one rule per field and kind.  The
   * generic scale is derived from the generic size, before any kind replaces
   * the size; mandelbox reads its distance from the "size" member.
   */
  function Resolve(c: Config): (r: Resolved)
    ensures "invert" in c.values ==> r.invert == AsBool(c.values["invert"])
    ensures "size" in c.values ==> r.size == c.values["size"]
    ensures "scale" in c.values ==> r.scale == c.values["scale"]
    ensures "iterations" in c.values ==> r.iterations == AsInt(c.values["iterations"])
    ensures "distance" in c.values && KindOf(GeneratorOf(c)) != MandelboxKind ==> r.distance == c.values["distance"]
    ensures "size" in c.values && KindOf(GeneratorOf(c)) == MandelboxKind ==> r.distance == c.values["size"]
    ensures "invert" !in c.values ==> (r.invert <==> KindOf(GeneratorOf(c)) == MengerKind)
    ensures "size" !in c.values && KindOf(GeneratorOf(c)) == MengerKind ==> r.size == 15000.0
    ensures "size" !in c.values && KindOf(GeneratorOf(c)) == MandelboxKind ==> r.size == 1000.0
    ensures "size" !in c.values && KindOf(GeneratorOf(c)) == SphereKind ==> r.size == 100.0
    ensures "size" !in c.values && KindOf(GeneratorOf(c)) == OtherKind ==> r.size == 30000.0
    ensures "scale" !in c.values && KindOf(GeneratorOf(c)) != SphereKind
            ==> r.scale == Reciprocal(Get(c.values, "size", GenericSize))
    ensures "scale" !in c.values && KindOf(GeneratorOf(c)) == SphereKind ==> r.scale == 1.0
    ensures "iterations" !in c.values ==> r.iterations == 10
    ensures "distance" !in c.values && KindOf(GeneratorOf(c)) == MengerKind ==> r.distance == 0.0003
    ensures "size" !in c.values && KindOf(GeneratorOf(c)) == MandelboxKind ==> r.distance == 0.01
    ensures "distance" !in c.values && KindOf(GeneratorOf(c)) == SphereKind ==> r.distance == r.size
    ensures "distance" !in c.values && KindOf(GeneratorOf(c)) == OtherKind ==> r.distance == r.scale
    ensures r.center == ResolveCenter(KindOf(GeneratorOf(c)), c.center, r.size, r.invert)
    ensures r.internal <==> GeneratorOf(c) in {"mengersponge", "mandelbox", "sphere"}
    ensures GeneratorOf(c) == "mengersponge" ==> r.func == MengerSpongeFn
    ensures GeneratorOf(c) == "mandelbox" ==> r.func == MandelboxFn
    ensures GeneratorOf(c) !in {"mengersponge", "mandelbox"} ==> r.func == SphereFn
    ensures c.center.None? ==> r.center != Zero
  {
    var k := KindOf(GeneratorOf(c));
    var v := c.values;
    var genericScale := Get(v, "scale", Reciprocal(Get(v, "size", GenericSize)));
    var size := Get(v, "size", DefaultSize(k));
    var scale := if k == SphereKind then Get(v, "scale", 1.0) else genericScale;
    var distance :=
      match k
      case MengerKind => Get(v, "distance", 0.0003)
      case MandelboxKind => Get(v, "size", 0.01)
      case SphereKind => Get(v, "distance", size)
      case OtherKind => Get(v, "distance", genericScale);
    var invert := AsBool(Get(v, "invert", if k == MengerKind then 1.0 else 0.0));
    Resolved(invert, size, scale, ResolveCenter(k, c.center, size, invert),
             AsInt(Get(v, "iterations", 10.0)), distance, k != OtherKind, EvaluatorOf(k))
  }

  /** Resolve for one kind, with the kind's table read off. */
  lemma ResolveOfKind(c: Config, k: Kind)
    requires KindOf(GeneratorOf(c)) == k
    ensures var v := c.values;
            var genericScale := Get(v, "scale", Reciprocal(Get(v, "size", GenericSize)));
            var size := Get(v, "size", DefaultSize(k));
            var invert := AsBool(Get(v, "invert", if k == MengerKind then 1.0 else 0.0));
            && Resolve(c).invert == invert
            && Resolve(c).size == size
            && Resolve(c).scale == (if k == SphereKind then Get(v, "scale", 1.0) else genericScale)
            && Resolve(c).center == ResolveCenter(k, c.center, size, invert)
            && Resolve(c).iterations == AsInt(Get(v, "iterations", 10.0))
            && Resolve(c).internal == (k != OtherKind)
            && Resolve(c).func == EvaluatorOf(k)
            && (k == MengerKind ==> Resolve(c).distance == Get(v, "distance", 0.0003))
            && (k == MandelboxKind ==> Resolve(c).distance == Get(v, "size", 0.01))
            && (k == SphereKind ==> Resolve(c).distance == Get(v, "distance", size))
            && (k == OtherKind ==> Resolve(c).distance == Get(v, "distance", genericScale))
  {
  }

  /** With no member set, each kind gets its default table. */
  lemma ResolveDefaults(generator: Option<string>)
    ensures var r := Resolve(Config(map[], generator, None));
            var k := KindOf(GeneratorOf(Config(map[], generator, None)));
            && r.iterations == 10
            && r.invert == (k == MengerKind)
            && (k == MengerKind ==> r.size == 15000.0 && r.distance == 0.0003 && r.scale == 1.0 / 30000.0
                                    && r.center == Vec3(-15000.0, -15000.0, -15000.0) && r.func == MengerSpongeFn)
            && (k == MandelboxKind ==> r.size == 1000.0 && r.distance == 0.01 && r.scale == 1.0 / 30000.0
                                       && r.center == Vec3(300.0, -600.0, 500.0) && r.func == MandelboxFn)
            && (k == SphereKind ==> r.size == 100.0 && r.distance == 100.0 && r.scale == 1.0
                                    && r.center == Vec3(3.0, -105.0, 3.0) && r.func == SphereFn)
            && (k == OtherKind ==> r.size == 30000.0 && r.distance == 1.0 / 30000.0 && r.scale == 1.0 / 30000.0
                                   && r.center == Vec3(3.0, -30005.0, 3.0) && r.func == SphereFn && !r.internal)
  {
  }

  /** An absent generator resolves as mandelbox; after ReadParams it is mengersponge. */
  lemma AbsentGeneratorKinds(c: Config)
    requires c.generator.None?
    ensures KindOf(GeneratorOf(c)) == MandelboxKind
    ensures KindOf(GeneratorOf(WithDefaultGenerator(c, "mengersponge"))) == MengerKind
    ensures Resolve(WithDefaultGenerator(c, "mengersponge")).func == MengerSpongeFn
    ensures Resolve(WithDefaultGenerator(c, "mengersponge")).internal
  {
  }

  /** Writing the default generator back into the configuration does not change what it resolves to. */
  lemma DefaultGeneratorNeutral(c: Config)
    ensures Resolve(WithDefaultGenerator(c, "mandelbox")) == Resolve(c)
  {
  }

  /** An unrecognised generator keeps the sphere function, is not internal, and reads invert with default false. */
  lemma UnknownGenerator(c: Config)
    requires KindOf(GeneratorOf(c)) == OtherKind
    ensures !Resolve(c).internal && Resolve(c).func == SphereFn
    ensures Resolve(c).invert == AsBool(Get(c.values, "invert", 0.0))
  {
  }

  /** The members that describe resolved parameters, under the same keys. */
  function Serialize(r: Resolved, generator: string): (c: Config)
    ensures c.generator == Some(generator) && c.center == Some(r.center)
    ensures forall key :: key in c.values <==> key in {"invert", "size", "scale", "iterations", "distance"}
  {
    Config(map["invert" := Indicator(r.invert), "size" := r.size, "scale" := r.scale,
                "iterations" := r.iterations as real, "distance" := r.distance],
           Some(generator), Some(r.center))
  }

  /**
   * Resolving the serialised parameters gives them back exactly, except for a
   * mandelbox configuration without a "size" member: its distance came from
   * the 0.01 default, and reading it back from "size" gives the size instead.
   */
  lemma ResolveSerializeRoundTrip(c: Config)
    ensures var r := Resolve(c);
            Resolve(Serialize(r, GeneratorOf(c))) == r <==> (KindOf(GeneratorOf(c)) != MandelboxKind || "size" in c.values)
  {
  }

  /** MapgenMathParams: the configuration object the settings hand to the generator. */
  class MapgenMathParams {
    var params: Config

    /** A fixture for callers of the model (the engine creates the object elsewhere): an empty configuration. */
    constructor ()
      ensures params == Config(map[], None, None)
    {
      params := Config(map[], None, None);
    }

    /** readParams: takes the stored "mg_math" configuration and names mengersponge when no generator is set. */
    method ReadParams(stored: Config) returns (ok: bool)
      modifies this
      ensures params == WithDefaultGenerator(stored, "mengersponge")
      ensures ok
    {
      params := stored;
      if params.generator.None? {
        params := params.(generator := Some("mengersponge"));
      }
      ok := true;
    }
  }
}
