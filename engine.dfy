/**
 * `TransportEngine` (src/python/transport.rs): the object that ties a
 * geometry, a random stream, a material registry and transport settings
 * together. `compile` asks the registry for the tables each transport mode
 * needs; `transport` runs the engine's transport agent over a batch of
 * photon states, in place. The agent belongs to the engine and is an
 * oracle here (`Physics`).
 */
module Engine {
  import opened Wrappers
  import opened Errors
  import opened Strides
  import opened NdArrays
  import opened Settings
  import opened Photons
  import opened Registry
  import opened Sweeps

  /** The random stream: the part of its state the transport agent advances. */
  class RandomStream {
    var state: nat

    constructor (state: nat)
      ensures this.state == state
    {
      this.state := state;
    }
  }

  /**
   * The engine's transport agent: `create` stands for `TransportAgent::new`
   * over a geometry and a registry, `run` for one call of its `transport`.
   */
  datatype Physics = Physics(create: (GeometryDefinition, RegistryState) -> Outcome<Error>, run: Runner)

  // ---------------------------------------------------------------------------------------------
  // Python values assigned to the engine's attributes.
  // ---------------------------------------------------------------------------------------------

  /** A Python value, as far as the attribute setters tell values apart. */
  datatype PyValue =
    | PyNone
    | PyBool(b: bool)
    | PyInt(i: int)
    | PyFloat(f: real)
    | PyStr(s: string)
    | PyGeometry(definition: GeometryDefinition)
    | PyRandom(stream: RandomStream)
    | PyRegistry(registry: MaterialRegistry)
    | PySettings(settings: TransportSettings)
    | PyOther

  /** A `&str` argument: only a string converts. */
  function ExtractStr(v: PyValue): (r: Result<string, Error>)
    ensures r.Success? <==> v.PyStr?
    ensures r.Success? ==> r.value == v.s
    ensures r.Failure? ==> r.error == BadExtraction("str")
  {
    if v.PyStr? then Success(v.s) else Failure(BadExtraction("str"))
  }

  /** An `Option<&str>` argument: None, or a string. */
  function ExtractOptStr(v: PyValue): (r: Result<Option<string>, Error>)
    ensures r.Success? <==> v.PyNone? || v.PyStr?
    ensures r.Success? ==> r.value == if v.PyStr? then Some(v.s) else None
    ensures r.Failure? ==> r.error == BadExtraction("str")
  {
    if v.PyNone? then Success(None) else if v.PyStr? then Success(Some(v.s)) else Failure(BadExtraction("str"))
  }

  /** An `Option<bool>` argument: None, or a bool (an int does not convert). */
  function ExtractOptBool(v: PyValue): (r: Result<Option<bool>, Error>)
    ensures r.Success? <==> v.PyNone? || v.PyBool?
    ensures r.Success? ==> r.value == if v.PyBool? then Some(v.b) else None
    ensures r.Failure? ==> r.error == BadExtraction("bool")
  {
    if v.PyNone? then Success(None) else if v.PyBool? then Success(Some(v.b)) else Failure(BadExtraction("bool"))
  }

  /** The largest `usize`, on the 64-bit targets the binding is built for. */
  const USIZE_MAX: nat := 0xFFFF_FFFF_FFFF_FFFF

  /**
   * An `Option<usize>` argument: None, or an int (a bool is an int, 0 or 1).
   * An int below 0 or above `usize::MAX` is an OverflowError; any other
   * value is a TypeError.
   */
  function ExtractOptIndex(v: PyValue): (r: Result<Option<nat>, Error>)
    ensures r.Success? <==> v.PyNone? || v.PyBool? || (v.PyInt? && 0 <= v.i <= USIZE_MAX)
    ensures r.Success? && v.PyInt? ==> r.value == Some(v.i)
    ensures r.Success? && v.PyBool? ==> r.value == Some(if v.b then 1 else 0)
    ensures r.Success? && v.PyNone? ==> r.value == None
    ensures r.Failure? && v.PyInt? ==> r.error == IntOverflow("usize")
    ensures r.Failure? && !v.PyInt? ==> r.error == BadExtraction("usize")
  {
    match v
    case PyNone => Success(None)
    case PyBool(b) => Success(Some(if b then 1 else 0))
    case PyInt(i) => if 0 <= i <= USIZE_MAX then Success(Some(i)) else Failure(IntOverflow("usize"))
    case _ => Failure(BadExtraction("usize"))
  }

  /** An `Option<Float>` argument: None, or a float; ints and bools convert. */
  function ExtractOptFloat(v: PyValue): (r: Result<Option<real>, Error>)
    ensures r.Success? <==> v.PyNone? || v.PyFloat? || v.PyInt? || v.PyBool?
    ensures r.Success? && v.PyFloat? ==> r.value == Some(v.f)
    ensures r.Success? && v.PyInt? ==> r.value == Some(v.i as real)
    ensures r.Success? && v.PyBool? ==> r.value == Some(if v.b then 1.0 else 0.0)
    ensures r.Success? && v.PyNone? ==> r.value == None
    ensures r.Failure? ==> r.error == BadExtraction("float")
  {
    match v
    case PyNone => Success(None)
    case PyFloat(f) => Success(Some(f))
    case PyInt(i) => Success(Some(i as real))
    case PyBool(b) => Success(Some(if b then 1.0 else 0.0))
    case _ => Failure(BadExtraction("float"))
  }

  /** The attributes of `TransportSettings`, each with a getter and a setter. */
  const SettingNames: set<string> := {"mode", "absorption", "boundary", "compton_method", "compton_mode",
    "compton_model", "volume_sources", "rayleigh", "energy_min", "energy_max", "length_max"}

  /** The attributes `TransportEngine.__setattr__` handles itself; every other name goes to its settings. */
  const EngineNames: set<string> := {"geometry", "random", "registry", "settings"}

  /** The settings attributes, once their name is recognised. */
  datatype Attribute =
    | ModeAttr | AbsorptionAttr | BoundaryAttr | ComptonMethodAttr | ComptonModeAttr | ComptonModelAttr
    | VolumeSourcesAttr | RayleighAttr | EnergyMinAttr | EnergyMaxAttr | LengthMaxAttr

  /** The attribute a name designates, if any setter has that name. */
  function AttributeOf(name: string): (r: Option<Attribute>)
    ensures r.None? <==> name !in SettingNames
    ensures r == Some(ModeAttr) <==> name == "mode"
    ensures r == Some(ComptonModeAttr) <==> name == "compton_mode"
    ensures r == Some(VolumeSourcesAttr) <==> name == "volume_sources"
  {
    if name == "mode" then Some(ModeAttr)
    else if name == "absorption" then Some(AbsorptionAttr)
    else if name == "boundary" then Some(BoundaryAttr)
    else if name == "compton_method" then Some(ComptonMethodAttr)
    else if name == "compton_mode" then Some(ComptonModeAttr)
    else if name == "compton_model" then Some(ComptonModelAttr)
    else if name == "volume_sources" then Some(VolumeSourcesAttr)
    else if name == "rayleigh" then Some(RayleighAttr)
    else if name == "energy_min" then Some(EnergyMinAttr)
    else if name == "energy_max" then Some(EnergyMaxAttr)
    else if name == "length_max" then Some(LengthMaxAttr)
    else None
  }

  /**
   * `setattr(settings, name, value)`: the conversion the named setter
   * declares, then the setter's update of (inner, volume_sources); a name
   * no setter has is an AttributeError.
   */
  function Assign(inner: RawSettings, volumeSources: bool, name: string, value: PyValue): (r: Result<(RawSettings, bool), Error>)
    ensures name !in SettingNames ==> r == Failure(NoAttribute(name))
    ensures r.Success? && name != "volume_sources" ==> r.value.1 == volumeSources
  {
    match AttributeOf(name)
    case None => Failure(NoAttribute(name))
    case Some(attr) => Apply(inner, volumeSources, attr, value)
  }

  /**
   * The conversion and update of one recognised setter. Only `volume_sources`
   * touches the constraint and the flag, and it sets both together; only
   * `mode` and `compton_mode` touch the two modes, and they couple them.
   */
  function Apply(inner: RawSettings, volumeSources: bool, attr: Attribute, value: PyValue): (r: Result<(RawSettings, bool), Error>)
    ensures r.Failure? ==> r.error.BadExtraction? || r.error.IntOverflow? || r.error.UnknownName?
    ensures r.Success? && attr != VolumeSourcesAttr ==> r.value.1 == volumeSources && r.value.0.constraint == inner.constraint
    ensures r.Success? && attr == VolumeSourcesAttr ==> r.value.1 == r.value.0.constraint.Some?
    ensures r.Success? && attr != ModeAttr && attr != ComptonModeAttr ==>
      r.value.0.mode == inner.mode && r.value.0.comptonMode == inner.comptonMode
    ensures r.Success? && (attr == ModeAttr || attr == ComptonModeAttr) ==> Coupled(r.value.0)
  {
    match attr
    case ModeAttr =>
      var s :- ExtractStr(value);
      var m :- ParseMode(s);
      Success((WithMode(inner, m), volumeSources))
    case AbsorptionAttr =>
      var s :- ExtractOptStr(value);
      var a :- if s.None? then Success(NoAbsorption) else ParseAbsorption(s.value);
      Success((inner.(absorption := a), volumeSources))
    case BoundaryAttr =>
      var b :- ExtractOptIndex(value);
      Success((inner.(boundary := BoundaryOf(b)), volumeSources))
    case ComptonMethodAttr =>
      var s :- ExtractStr(value);
      var m :- ParseComptonMethod(s);
      Success((inner.(comptonMethod := m), volumeSources))
    case ComptonModeAttr =>
      var s :- ExtractOptStr(value);
      var c :- if s.None? then Success(NoCompton) else ParseComptonMode(s.value);
      Success((WithComptonMode(inner, c), volumeSources))
    case ComptonModelAttr =>
      var s :- ExtractStr(value);
      var m :- ParseComptonModel(s);
      Success((inner.(comptonModel := m), volumeSources))
    case VolumeSourcesAttr =>
      var on :- ExtractOptBool(value);
      Success((inner.(constraint := ConstraintFor(on)), on.GetOr(false)))
    case RayleighAttr =>
      var on :- ExtractOptBool(value);
      Success((inner.(rayleigh := RayleighOf(on)), volumeSources))
    case EnergyMinAttr =>
      var x :- ExtractOptFloat(value);
      Success((inner.(energyMin := x), volumeSources))
    case EnergyMaxAttr =>
      var x :- ExtractOptFloat(value);
      Success((inner.(energyMax := x), volumeSources))
    case LengthMaxAttr =>
      var x :- ExtractOptFloat(value);
      Success((inner.(lengthMax := x), volumeSources))
  }

  /**
   * Whatever is assigned, `volume_sources` still says whether a constraint
   * is set, coupled settings stay coupled, and a successful `mode` or
   * `compton_mode` assignment couples any settings.
   */
  lemma AssignKeepsCouplings(inner: RawSettings, volumeSources: bool, name: string, value: PyValue)
    requires volumeSources == inner.constraint.Some?
    ensures var r := Assign(inner, volumeSources, name, value);
      r.Success? ==> (
        && r.value.1 == r.value.0.constraint.Some?
        && (Coupled(inner) ==> Coupled(r.value.0))
        && (name in {"mode", "compton_mode"} ==> Coupled(r.value.0)))
  {
    var attr := AttributeOf(name);
    if attr.Some? {
      var r := Apply(inner, volumeSources, attr.value, value);
      if r.Success? && attr.value != ModeAttr && attr.value != ComptonModeAttr {
        assert r.value.0.mode == inner.mode && r.value.0.comptonMode == inner.comptonMode;
      }
    }
  }

  /**
   * A failed assignment names the reason: an unknown attribute, a value of
   * the wrong type, an index out of `usize`'s range, or an unknown option name.
   */
  lemma AssignFailures(inner: RawSettings, volumeSources: bool, name: string, value: PyValue)
    ensures var r := Assign(inner, volumeSources, name, value);
      r.Failure? ==> r.error.NoAttribute? || r.error.BadExtraction? || r.error.IntOverflow? || r.error.UnknownName?
    ensures var r := Assign(inner, volumeSources, name, value);
      r.Failure? && r.error.NoAttribute? ==> name !in SettingNames
  {
    var attr := AttributeOf(name);
    if attr.Some? {
      var r := Apply(inner, volumeSources, attr.value, value);
      assert Assign(inner, volumeSources, name, value) == r;
    }
  }

  /** The setter named by `name`, on the settings object. */
  method AssignSetting(settings: TransportSettings, name: string, value: PyValue) returns (r: Outcome<Error>)
    requires settings.Valid()
    modifies settings
    ensures settings.Valid()
    ensures var a := Assign(old(settings.inner), old(settings.volumeSources), name, value);
      && (r.Fail? <==> a.Failure?)
      && (r.Fail? ==> r.error == a.error && unchanged(settings))
      && (r.Pass? ==> (settings.inner, settings.volumeSources) == a.value)
  {
    match AttributeOf(name) {
    case None =>
      r := Fail(NoAttribute(name));
    case Some(attr) =>
      if IsTextual(attr) {
        r := ApplyText(settings, attr, value);
      } else {
        r := ApplyValue(settings, attr, value);
      }
    }
  }

  /** The setters whose value is a name the engine parses. */
  predicate IsTextual(attr: Attribute) {
    attr.ModeAttr? || attr.AbsorptionAttr? || attr.ComptonMethodAttr? || attr.ComptonModeAttr? || attr.ComptonModelAttr?
  }

  /** A setter whose value is a name, on the settings object. */
  method ApplyText(settings: TransportSettings, attr: Attribute, value: PyValue) returns (r: Outcome<Error>)
    requires settings.Valid() && IsTextual(attr)
    modifies settings
    ensures settings.Valid()
    ensures var a := Apply(old(settings.inner), old(settings.volumeSources), attr, value);
      && (r.Fail? <==> a.Failure?)
      && (r.Fail? ==> r.error == a.error && unchanged(settings))
      && (r.Pass? ==> (settings.inner, settings.volumeSources) == a.value)
  {
    match attr {
    case ModeAttr =>
      var sArg := ExtractStr(value);
      if sArg.Failure? {
        return Fail(sArg.error);
      }
      var s := sArg.value;
      r := settings.SetMode(s);
    case AbsorptionAttr =>
      var sArg := ExtractOptStr(value);
      if sArg.Failure? {
        return Fail(sArg.error);
      }
      var s := sArg.value;
      r := settings.SetAbsorption(s);
    case ComptonMethodAttr =>
      var sArg := ExtractStr(value);
      if sArg.Failure? {
        return Fail(sArg.error);
      }
      var s := sArg.value;
      r := settings.SetComptonMethod(s);
    case ComptonModeAttr =>
      var sArg := ExtractOptStr(value);
      if sArg.Failure? {
        return Fail(sArg.error);
      }
      var s := sArg.value;
      r := settings.SetComptonMode(s);
    case ComptonModelAttr =>
      var sArg := ExtractStr(value);
      if sArg.Failure? {
        return Fail(sArg.error);
      }
      var s := sArg.value;
      r := settings.SetComptonModel(s);
    }
  }

  /** A setter whose value is a flag, a number or an index, on the settings object. */
  method ApplyValue(settings: TransportSettings, attr: Attribute, value: PyValue) returns (r: Outcome<Error>)
    requires settings.Valid() && !IsTextual(attr)
    modifies settings
    ensures settings.Valid()
    ensures var a := Apply(old(settings.inner), old(settings.volumeSources), attr, value);
      && (r.Fail? <==> a.Failure?)
      && (r.Fail? ==> r.error == a.error && unchanged(settings))
      && (r.Pass? ==> (settings.inner, settings.volumeSources) == a.value)
  {
    match attr {
    case BoundaryAttr =>
      var bArg := ExtractOptIndex(value);
      if bArg.Failure? {
        return Fail(bArg.error);
      }
      var b := bArg.value;
      settings.SetBoundary(b);
      r := Pass;
    case VolumeSourcesAttr =>
      var onArg := ExtractOptBool(value);
      if onArg.Failure? {
        return Fail(onArg.error);
      }
      var on := onArg.value;
      settings.SetVolumeSources(on);
      r := Pass;
    case RayleighAttr =>
      var onArg := ExtractOptBool(value);
      if onArg.Failure? {
        return Fail(onArg.error);
      }
      var on := onArg.value;
      settings.SetRayleigh(on);
      r := Pass;
    case EnergyMinAttr =>
      var xArg := ExtractOptFloat(value);
      if xArg.Failure? {
        return Fail(xArg.error);
      }
      var x := xArg.value;
      settings.SetEnergyMin(x);
      r := Pass;
    case EnergyMaxAttr =>
      var xArg := ExtractOptFloat(value);
      if xArg.Failure? {
        return Fail(xArg.error);
      }
      var x := xArg.value;
      settings.SetEnergyMax(x);
      r := Pass;
    case LengthMaxAttr =>
      var xArg := ExtractOptFloat(value);
      if xArg.Failure? {
        return Fail(xArg.error);
      }
      var x := xArg.value;
      settings.SetLengthMax(x);
      r := Pass;
    }
  }

  // ---------------------------------------------------------------------------------------------
  // `transport_with`, on values.
  // ---------------------------------------------------------------------------------------------

  /**
   * The settings `transport_with` runs with: a clone of the stored ones,
   * without a constraint when none is given; given constraints are refused
   * in Forward mode and when the settings disable constraints.
   */
  function Prepare(raw: RawSettings, given: bool): (r: Result<RawSettings, Error>)
    ensures r.Success? <==> !given || (raw.mode.Backward? && raw.constraint.Some?)
    ensures given && raw.mode.Forward? ==> r == Failure(ConstraintsInForward)
    ensures given && raw.mode.Backward? && raw.constraint.None? ==> r == Failure(ConstraintsDisabled)
    ensures r.Success? ==> r.value == raw.(constraint := if given then raw.constraint else None)
  {
    if !given then Success(raw.(constraint := None))
    else if raw.mode.Forward? then Failure(ConstraintsInForward)
    else if raw.constraint.None? then Failure(ConstraintsDisabled)
    else Success(raw)
  }

  /** The buffer cells of an array's items, in flat order. */
  ghost function Positions(a: NdArray<CState>): (pos: seq<int>)
    reads a
    requires a.Valid()
    ensures |pos| == Size(a.shape) && Addresses(pos, a.buffer.Length)
    ensures forall k :: 0 <= k < |pos| ==> pos[k] == a.Position(k)
  {
    seq(Size(a.shape), k requires 0 <= k < Size(a.shape) && |a.strides| == |a.shape| => a.Position(k))
  }

  /** Constraint arrays are numpy arrays, and their size is that of the states. */
  ghost predicate Admissible(constraints: Option<ArrayOrFloat>, n: nat)
    reads if constraints.Some? && constraints.value.Array? then {constraints.value.items} else {}
  {
    constraints.Some? && constraints.value.Array? ==>
      constraints.value.items.Valid() && Size(constraints.value.items.shape) == n
  }

  /** The constraint of each particle: a scalar for all, or the array's items in flat order. */
  ghost function ConstraintValues(constraints: Option<ArrayOrFloat>, n: nat): (cons: Option<seq<real>>)
    reads if constraints.Some? && constraints.value.Array? then {constraints.value.items, constraints.value.items.buffer} else {}
    requires Admissible(constraints, n)
    ensures cons.None? <==> constraints.None?
    ensures cons.Some? ==> |cons.value| == n
    ensures constraints.Some? && constraints.value.Float? ==> forall k :: 0 <= k < n ==> cons.value[k] == constraints.value.value
    ensures constraints.Some? && constraints.value.Array? ==>
      forall k :: 0 <= k < n ==> cons.value[k] == constraints.value.items.At(k)
  {
    match constraints
    case None => None
    case Some(Float(v)) => Some(seq(n, _ => v))
    case Some(Array(a)) => Some(a.Prefix(n))
  }

  /**
   * What `transport_with` leaves behind. The status array is created first,
   * then the settings are prepared and the agent created, each failure
   * leaving states and stream alone; then the loop runs as SweepFrom says,
   * and on success the status array has the states' shape and holds the
   * flags in flat order.
   */
  ghost predicate Transported(physics: Physics, g: GeometryDefinition, reg: RegistryState, raw: RawSettings,
                              given: bool, cons: Option<seq<real>>, shape: seq<nat>, pos: seq<int>, writeable: bool,
                              buf0: seq<CState>, rng0: nat, buf1: seq<CState>, rng1: nat, r: Result<NdArray<int>, Error>)
    reads if r.Success? then {r.value, r.value.buffer} else {}
    requires Addresses(pos, |buf0|) && (cons.Some? ==> |cons.value| == |pos|)
  {
    var pre := Prepare(raw, given);
    if !ShapeFits(shape) then buf1 == buf0 && rng1 == rng0 && r.Failure?
    else if pre.Failure? then buf1 == buf0 && rng1 == rng0 && r == Failure(pre.error)
    else if physics.create(g, reg).Fail? then buf1 == buf0 && rng1 == rng0 && r == Failure(physics.create(g, reg).error)
    else
      var sw := SweepFrom(physics.run, pre.value, cons, pos, writeable, 0, buf0, [], rng0);
      && buf1 == sw.buffer && rng1 == sw.rng
      && (r.Success? <==> sw.outcome.Pass?)
      && (r.Failure? ==> r.error == sw.outcome.error)
      && (r.Success? ==> r.value.Valid() && r.value.shape == shape && |pos| == Size(shape) &&
                          r.value.Prefix(|pos|) == sw.flags)
  }

  /** The items of a C-contiguous array occupy distinct cells. */
  lemma ContiguousDistinct(a: NdArray<CState>)
    requires a.Valid() && a.Contiguous()
    ensures Distinct(Positions(a))
  {
    var pos := Positions(a);
    forall k: nat | k < |pos| ensures pos[k] == a.start + k {
      assert Offset(a.shape, a.strides, k) == k;
    }
  }

  // ---------------------------------------------------------------------------------------------
  // The engine.
  // ---------------------------------------------------------------------------------------------

  /** `__setstate__`'s input: the four parts in order, each as its decoding turned out. */
  datatype Snapshot = Snapshot(random: Result<nat, Error>, registry: Result<RegistryState, Error>,
                               settings: Result<RawSettings, Error>, compiled: Result<bool, Error>)

  /** The engine's `geometry` argument: a geometry object, or the path of an external geometry. */
  datatype GeometryArg = GeometryObject(definition: GeometryDefinition) | GeometryPath(path: string)

  /**
   * What `new` draws on for the arguments it is not given: the loader of an
   * external geometry, the entropy a fresh random stream is seeded from, the
   * registry engine and the engine's default settings.
   */
  datatype Environment = Environment(load: string -> Result<GeometryDefinition, Error>, entropy: Result<nat, Error>,
                                     respond: Responder, defaults: RawSettings)

  class TransportEngine {
    var geometry: Option<GeometryDefinition>
    var random: RandomStream
    var registry: MaterialRegistry
    var settings: TransportSettings
    var compiled: bool
    const physics: Physics

    ghost predicate Valid()
      reads this, settings
    {
      settings.Valid()
    }

    constructor Init(geometry: Option<GeometryDefinition>, random: RandomStream, registry: MaterialRegistry,
                     settings: TransportSettings, physics: Physics)
      requires settings.Valid()
      ensures Valid() && !compiled && this.physics == physics
      ensures this.geometry == geometry && this.random == random && this.registry == registry && this.settings == settings
    {
      this.geometry := geometry;
      this.random := random;
      this.registry := registry;
      this.settings := settings;
      this.physics := physics;
      compiled := false;
    }

    /**
     * `TransportEngine(geometry, random, registry, settings)`: a path is
     * loaded as an external geometry, and a missing stream, registry or
     * settings object is made afresh; the engine starts uncompiled.
     */
    static method New(geometry: Option<GeometryArg>, random: Option<RandomStream>, registry: Option<MaterialRegistry>,
                      settings: Option<TransportSettings>, env: Environment, physics: Physics)
      returns (r: Result<TransportEngine, Error>)
      requires settings.Some? ==> settings.value.Valid()
      ensures geometry.Some? && geometry.value.GeometryPath? && env.load(geometry.value.path).Failure? ==>
        r == Failure(env.load(geometry.value.path).error)
      ensures r.Success? <==>
        (geometry.Some? && geometry.value.GeometryPath? ==> env.load(geometry.value.path).Success?) &&
        (random.None? ==> env.entropy.Success?)
      ensures r.Success? ==> (
        var e := r.value;
        && fresh(e) && e.Valid() && !e.compiled && e.physics == physics
        && e.geometry == (if geometry.None? then None
                          else if geometry.value.GeometryObject? then Some(geometry.value.definition)
                          else Some(env.load(geometry.value.path).value))
        && (if random.Some? then e.random == random.value else fresh(e.random) && e.random.state == env.entropy.value)
        && (if registry.Some? then e.registry == registry.value
            else fresh(e.registry) && e.registry.state == RegistryState([], false) && e.registry.respond == env.respond)
        && (if settings.Some? then e.settings == settings.value
            else fresh(e.settings) && e.settings.inner == env.defaults.(constraint := Some(1.0))))
    {
      var definition: Option<GeometryDefinition> := None;
      if geometry.Some? {
        match geometry.value
        case GeometryObject(d) =>
          definition := Some(d);
        case GeometryPath(path) =>
          var loaded :- env.load(path);
          definition := Some(loaded);
      }
      var stream: RandomStream;
      if random.None? {
        var seed :- env.entropy;
        stream := new RandomStream(seed);
      } else {
        stream := random.value;
      }
      var reg: MaterialRegistry;
      if registry.None? {
        reg := new MaterialRegistry(env.respond);
      } else {
        reg := registry.value;
      }
      var s: TransportSettings;
      if settings.None? {
        s := new TransportSettings(env.defaults);
      } else {
        s := settings.value;
      }
      var e := new TransportEngine.Init(definition, stream, reg, s, physics);
      return Success(e);
    }

    /**
     * `__setattr__`: the engine's four attributes take a value of their own
     * type (`None` too for the geometry); any other name is assigned on the
     * settings object. Nothing else changes, `compiled` included.
     */
    method SetAttr(name: string, value: PyValue) returns (r: Outcome<Error>)
      requires Valid()
      requires value.PySettings? ==> value.settings.Valid()
      modifies this, settings
      ensures Valid() && compiled == old(compiled)
      ensures name != "geometry" ==> geometry == old(geometry)
      ensures name != "random" ==> random == old(random)
      ensures name != "registry" ==> registry == old(registry)
      ensures name != "settings" ==> settings == old(settings)
      ensures name == "geometry" ==> (
        if value.PyNone? then r.Pass? && geometry.None?
        else if value.PyGeometry? then r.Pass? && geometry == Some(value.definition)
        else r == Fail(BadExtraction("GeometryDefinition")) && geometry == old(geometry))
      ensures name == "random" ==> (
        if value.PyRandom? then r.Pass? && random == value.stream
        else r == Fail(BadExtraction("RandomStream")) && random == old(random))
      ensures name == "registry" ==> (
        if value.PyRegistry? then r.Pass? && registry == value.registry
        else r == Fail(BadExtraction("MaterialRegistry")) && registry == old(registry))
      ensures name == "settings" ==> (
        if value.PySettings? then r.Pass? && settings == value.settings
        else r == Fail(BadExtraction("TransportSettings")) && settings == old(settings))
      ensures name in EngineNames ==> unchanged(old(settings))
      ensures name !in EngineNames ==> (
        var a := Assign(old(settings.inner), old(settings.volumeSources), name, value);
        && (r.Fail? <==> a.Failure?)
        && (r.Fail? ==> r.error == a.error && unchanged(settings))
        && (r.Pass? ==> (settings.inner, settings.volumeSources) == a.value))
    {
      if name == "geometry" {
        match value
        case PyNone =>
          geometry := None;
        case PyGeometry(d) =>
          geometry := Some(d);
        case _ =>
          return Fail(BadExtraction("GeometryDefinition"));
      } else if name == "random" {
        if !value.PyRandom? {
          return Fail(BadExtraction("RandomStream"));
        }
        random := value.stream;
      } else if name == "registry" {
        if !value.PyRegistry? {
          return Fail(BadExtraction("MaterialRegistry"));
        }
        registry := value.registry;
      } else if name == "settings" {
        if !value.PySettings? {
          return Fail(BadExtraction("TransportSettings"));
        }
        settings := value.settings;
      } else {
        r := AssignSetting(settings, name, value);
        return r;
      }
      return Pass;
    }

    /**
     * `__setstate__`: the random stream, the registry's content, the raw
     * settings and the `compiled` flag are restored in this order, the first
     * part that does not decode stopping it; `volume_sources` is derived
     * from the restored constraint.
     */
    method SetState(snap: Snapshot) returns (r: Outcome<Error>)
      requires Valid()
      modifies this, random, registry, settings
      ensures Valid()
      ensures geometry == old(geometry) && random == old(random) && registry == old(registry) && settings == old(settings)
      ensures random.state == (if snap.random.Success? then snap.random.value else old(random.state))
      ensures registry.state == (if snap.random.Success? && snap.registry.Success? then snap.registry.value
                                 else old(registry.state))
      ensures settings.inner == (if snap.random.Success? && snap.registry.Success? && snap.settings.Success?
                                 then snap.settings.value else old(settings.inner))
      ensures compiled == (if snap.random.Success? && snap.registry.Success? && snap.settings.Success? &&
                              snap.compiled.Success? then snap.compiled.value else old(compiled))
      ensures r.Pass? <==> snap.random.Success? && snap.registry.Success? && snap.settings.Success? && snap.compiled.Success?
      ensures r.Fail? ==> r.error == (if snap.random.Failure? then snap.random.error
                                      else if snap.registry.Failure? then snap.registry.error
                                      else if snap.settings.Failure? then snap.settings.error
                                      else snap.compiled.error)
    {
      if snap.random.Failure? {
        return Fail(snap.random.error);
      }
      random.state := snap.random.value;
      if snap.registry.Failure? {
        return Fail(snap.registry.error);
      }
      registry.state := snap.registry.value;
      if snap.settings.Failure? {
        return Fail(snap.settings.error);
      }
      settings.inner := snap.settings.value;
      settings.volumeSources := settings.inner.constraint.Some?;
      if snap.compiled.Failure? {
        return Fail(snap.compiled.error);
      }
      compiled := snap.compiled.value;
      return Pass;
    }

    /**
     * `compile(mode, atomic_data)`: a bad mode is refused before the
     * registry sees any call. Otherwise the registry receives the calls of
     * CompileRun over the current geometry and settings, and the engine
     * counts as compiled once all of them succeed. The settings are not
     * changed: each pass runs on a copy.
     */
    method Compile(mode: Option<string>, atomicData: Option<string>) returns (r: Outcome<Error>)
      modifies this, registry
      ensures geometry == old(geometry) && random == old(random) && registry == old(registry) && settings == old(settings)
      ensures var parsed := ParseCompileMode(mode, settings.inner.mode);
        && (parsed.Failure? ==> r == Fail(parsed.error) && registry.state == old(registry.state) && compiled == old(compiled))
        && (parsed.Success? ==>
              (registry.state, r) == CompileRun(old(registry.state), geometry, atomicData, parsed.value, settings.inner,
                                                registry.respond)
              && compiled == (old(compiled) || r.Pass?))
    {
      var parsed := ParseCompileMode(mode, settings.inner.mode);
      if parsed.Failure? {
        return Fail(parsed.error);
      }
      var added := registry.CallAll(Adds(geometry));
      if added.Fail? {
        return added;
      }
      var loads := LoadCalls(atomicData, registry.state.atomicLoaded);
      r := registry.CallAll(loads + Computes(Passes(parsed.value, settings.inner)));
      if r.Pass? {
        compiled := true;
      }
    }

    /**
     * `transport(states, sources_energies)`: a constraints array must have
     * as many items as there are states; an engine not yet compiled is
     * compiled in "Both" mode; there must be a geometry; then
     * `transport_with` runs.
     */
    method Transport(states: NdArray<CState>, constraints: Option<ArrayOrFloat>) returns (r: Result<NdArray<int>, Error>)
      requires Valid() && states.Valid()
      requires constraints.Some? && constraints.value.Array? ==> constraints.value.items.Valid()
      modifies this, registry, states.buffer, random
      ensures geometry == old(geometry) && random == old(random) && registry == old(registry) && settings == old(settings)
      ensures constraints.Some? && constraints.value.Array? && Size(constraints.value.items.shape) != Size(states.shape) ==>
        && r == Failure(BadConstraintsSize(Size(states.shape), Size(constraints.value.items.shape)))
        && registry.state == old(registry.state) && compiled == old(compiled)
        && states.buffer[..] == old(states.buffer[..]) && random.state == old(random.state)
      ensures Admissible(constraints, Size(states.shape)) ==> (
        var c := if old(compiled) then (old(registry.state), Pass)
                 else CompileRun(old(registry.state), geometry, None, BothMode, settings.inner, registry.respond);
        && registry.state == c.0 && compiled == (old(compiled) || c.1.Pass?)
        && (c.1.Fail? ==> r == Failure(c.1.error))
        && (c.1.Pass? && geometry.None? ==> r == Failure(NoGeometry))
        && (c.1.Fail? || geometry.None? ==> states.buffer[..] == old(states.buffer[..]) && random.state == old(random.state))
        && (c.1.Pass? && geometry.Some? ==>
              && (r.Success? ==> fresh(r.value))
              && Transported(physics, geometry.value, c.0, settings.inner, constraints.Some?,
                             old(ConstraintValues(constraints, Size(states.shape))), states.shape, old(Positions(states)),
                             states.Writeable(), old(states.buffer[..]), old(random.state), states.buffer[..], random.state, r)))
    {
      if constraints.Some? && constraints.value.Array? {
        var found := constraints.value.Size();
        if found != Size(states.shape) {
          return Failure(BadConstraintsSize(Size(states.shape), found));
        }
      }
      r := TransportChecked(states, constraints);
    }

    /** `transport` once the constraints are known to fit the states. */
    method TransportChecked(states: NdArray<CState>, constraints: Option<ArrayOrFloat>) returns (r: Result<NdArray<int>, Error>)
      requires Valid() && states.Valid() && Admissible(constraints, Size(states.shape))
      modifies this, registry, states.buffer, random
      ensures geometry == old(geometry) && random == old(random) && registry == old(registry) && settings == old(settings)
      ensures
        var c := if old(compiled) then (old(registry.state), Pass)
                 else CompileRun(old(registry.state), geometry, None, BothMode, settings.inner, registry.respond);
        && registry.state == c.0 && compiled == (old(compiled) || c.1.Pass?)
        && (c.1.Fail? ==> r == Failure(c.1.error))
        && (c.1.Pass? && geometry.None? ==> r == Failure(NoGeometry))
        && (c.1.Fail? || geometry.None? ==> states.buffer[..] == old(states.buffer[..]) && random.state == old(random.state))
        && (c.1.Pass? && geometry.Some? ==>
              && (r.Success? ==> fresh(r.value))
              && Transported(physics, geometry.value, c.0, settings.inner, constraints.Some?,
                             old(ConstraintValues(constraints, Size(states.shape))), states.shape, old(Positions(states)),
                             states.Writeable(), old(states.buffer[..]), old(random.state), states.buffer[..], random.state, r))
    {
      ghost var cons := ConstraintValues(constraints, Size(states.shape));
      ghost var pos := Positions(states);
      ghost var buf0 := states.buffer[..];
      ghost var rng0 := random.state;
      ghost var expected := if compiled then (registry.state, Pass)
                            else CompileRun(registry.state, geometry, None, BothMode, settings.inner, registry.respond);
      var c := EnsureCompiled();
      assert registry.state == expected.0 && c == expected.1;
      if c.Fail? {
        return Failure(c.error);
      }
      if geometry.None? {
        return Failure(NoGeometry);
      }
      assert ConstraintValues(constraints, Size(states.shape)) == cons && Positions(states) == pos;
      assert states.buffer[..] == buf0 && random.state == rng0;
      ghost var reg := registry.state;
      r := TransportWith(geometry.value, states, constraints, cons, pos);
      assert Transported(physics, geometry.value, reg, settings.inner, constraints.Some?, cons, states.shape, pos,
                         states.Writeable(), buf0, rng0, states.buffer[..], random.state, r);
    }

    /** The compilation `transport` starts with: none when already compiled, otherwise in "Both" mode. */
    method EnsureCompiled() returns (r: Outcome<Error>)
      modifies this, registry
      ensures geometry == old(geometry) && random == old(random) && registry == old(registry) && settings == old(settings)
      ensures var c := if old(compiled) then (old(registry.state), Pass)
                       else CompileRun(old(registry.state), geometry, None, BothMode, settings.inner, registry.respond);
        registry.state == c.0 && compiled == (old(compiled) || c.1.Pass?) && r == c.1
    {
      r := Pass;
      if !compiled {
        r := Compile(Some("Both"), None);
      }
    }

    /** `transport_with`: as Transported says. */
    method TransportWith(g: GeometryDefinition, states: NdArray<CState>, constraints: Option<ArrayOrFloat>,
                         ghost cons: Option<seq<real>>, ghost pos: seq<int>)
      returns (r: Result<NdArray<int>, Error>)
      requires Valid() && states.Valid() && Admissible(constraints, Size(states.shape))
      requires pos == Positions(states) && cons == ConstraintValues(constraints, Size(states.shape))
      modifies states.buffer, random
      ensures r.Success? ==> fresh(r.value)
      ensures Transported(physics, g, registry.state, settings.inner, constraints.Some?, cons, states.shape, pos,
                          states.Writeable(), old(states.buffer[..]), old(random.state), states.buffer[..], random.state, r)
    {
      var created := Empty<int>(states.shape);
      if created.Failure? {
        return Failure(created.error);
      }
      var status := created.value;
      var s := settings.inner;
      if constraints.None? {
        s := s.(constraint := None);
      }
      if constraints.Some? {
        if s.mode == Forward {
          return Failure(ConstraintsInForward);
        } else if s.constraint.None? {
          return Failure(ConstraintsDisabled);
        }
      }
      assert Prepare(settings.inner, constraints.Some?) == Success(s);
      var agent := physics.create(g, registry.state);
      if agent.Fail? {
        return Failure(agent.error);
      }
      var outcome := RunBatch(states, status, constraints, s, random, cons, pos);
      if outcome.Fail? {
        return Failure(outcome.error);
      }
      return Success(status);
    }

    /** `transport_with`'s loop over the particles, with a fresh status array to fill. */
    method RunBatch(states: NdArray<CState>, status: NdArray<int>, constraints: Option<ArrayOrFloat>, s: RawSettings,
                    stream: RandomStream, ghost cons: Option<seq<real>>, ghost pos: seq<int>)
      returns (outcome: Outcome<Error>)
      requires states.Valid() && Admissible(constraints, Size(states.shape))
      requires pos == Positions(states) && cons == ConstraintValues(constraints, Size(states.shape))
      requires status.Valid() && status.shape == states.shape && status.Writeable()
      requires status.buffer.Length == Size(states.shape) && forall k: nat :: k < Size(states.shape) ==> status.Position(k) == k
      modifies states.buffer, status.buffer, stream
      ensures var sw := SweepFrom(physics.run, s, cons, pos, states.Writeable(), 0, old(states.buffer[..]), [], old(stream.state));
        && states.buffer[..] == sw.buffer && stream.state == sw.rng && outcome == sw.outcome
        && (outcome.Pass? ==> status.Prefix(Size(states.shape)) == sw.flags)
    {
      outcome := RunLoop(states, status, constraints, s, stream, cons, pos);
      if outcome.Pass? {
        assert status.Prefix(Size(states.shape)) == status.buffer[..Size(states.shape)];
      }
    }

    /**
     * Where the loop of RunBatch stands after i particles: the first i flags
     * are written, and what remains of the sweep from there ends where the
     * sweep over the whole batch ends.
     */
    ghost predicate Progress(states: NdArray<CState>, status: NdArray<int>, constraints: Option<ArrayOrFloat>,
                             s: RawSettings, stream: RandomStream, cons: Option<seq<real>>, pos: seq<int>,
                             buf0: seq<CState>, rng0: nat, i: nat, flags: seq<int>)
      reads this, states, states.buffer, status, status.buffer, stream
      reads if constraints.Some? && constraints.value.Array? then {constraints.value.items, constraints.value.items.buffer} else {}
    {
      && states.Valid() && pos == Positions(states) && i <= |pos| && |flags| == i && |buf0| == states.buffer.Length
      && Admissible(constraints, |pos|) && cons == ConstraintValues(constraints, |pos|)
      && status.Valid() && status.Writeable() && status.buffer.Length == |pos| == Size(status.shape)
      && (forall k: nat :: k < |pos| ==> status.Position(k) == k)
      && status.buffer[..i] == flags
      && SweepFrom(physics.run, s, cons, pos, states.Writeable(), i, states.buffer[..], flags, stream.state)
         == SweepFrom(physics.run, s, cons, pos, states.Writeable(), 0, buf0, [], rng0)
    }

    /** One round of the loop of RunBatch: the next particle, or the end of the sweep. */
    method Advance(states: NdArray<CState>, status: NdArray<int>, constraints: Option<ArrayOrFloat>, s: RawSettings,
                   stream: RandomStream, ghost cons: Option<seq<real>>, ghost pos: seq<int>,
                   ghost buf0: seq<CState>, ghost rng0: nat, i: nat, ghost flags: seq<int>)
      returns (r: Outcome<Error>, flag: int)
      requires Progress(states, status, constraints, s, stream, cons, pos, buf0, rng0, i, flags) && i < |pos|
      modifies states.buffer, status.buffer, stream
      ensures r.Pass? ==> Progress(states, status, constraints, s, stream, cons, pos, buf0, rng0, i + 1, flags + [flag])
      ensures r.Fail? ==> SweepFrom(physics.run, s, cons, pos, states.Writeable(), 0, buf0, [], rng0)
                          == Sweep(states.buffer[..], flags, stream.state, r)
    {
      r, flag := RideStep(states, status, constraints, s, i, stream, cons, pos, flags);
      assert constraints.Some? && constraints.value.Array? ==>
        unchanged(constraints.value.items, constraints.value.items.buffer);
      assert Admissible(constraints, |pos|) && cons == ConstraintValues(constraints, |pos|);
    }

    /** The loop of RunBatch, with the flags seen as the status buffer's cells. */
    method RunLoop(states: NdArray<CState>, status: NdArray<int>, constraints: Option<ArrayOrFloat>, s: RawSettings,
                   stream: RandomStream, ghost cons: Option<seq<real>>, ghost pos: seq<int>)
      returns (outcome: Outcome<Error>)
      requires states.Valid() && Admissible(constraints, Size(states.shape))
      requires pos == Positions(states) && cons == ConstraintValues(constraints, Size(states.shape))
      requires status.Valid() && status.shape == states.shape && status.Writeable()
      requires status.buffer.Length == Size(states.shape) && forall k: nat :: k < Size(states.shape) ==> status.Position(k) == k
      modifies states.buffer, status.buffer, stream
      ensures var sw := SweepFrom(physics.run, s, cons, pos, states.Writeable(), 0, old(states.buffer[..]), [], old(stream.state));
        && states.buffer[..] == sw.buffer && stream.state == sw.rng && outcome == sw.outcome
        && (outcome.Pass? ==> status.buffer[..] == sw.flags)
    {
      var n := Size(states.shape);
      ghost var buf0 := states.buffer[..];
      ghost var rng0 := stream.state;
      ghost var flags: seq<int> := [];
      var i := 0;
      while i < n
        invariant Progress(states, status, constraints, s, stream, cons, pos, buf0, rng0, i, flags)
      {
        var step, flag := Advance(states, status, constraints, s, stream, cons, pos, buf0, rng0, i, flags);
        if step.Fail? {
          return step;
        }
        flags := flags + [flag];
        i := i + 1;
      }
      assert status.buffer[..] == status.buffer[..n];
      return Pass;
    }

    /** Records particle i's status flag, after those of the particles before it. */
    static method WriteFlag(status: NdArray<int>, i: nat, flag: int, ghost flags: seq<int>)
      requires status.Valid() && status.Writeable() && i < status.buffer.Length && i < Size(status.shape)
      requires status.Position(i) == i && status.buffer[..i] == flags
      modifies status.buffer
      ensures status.buffer[..i + 1] == flags + [flag]
    {
      var _ := status.Set(i, flag);
      assert status.buffer[..i + 1] == old(status.buffer[..])[i := flag][..i + 1];
    }

    /** One particle of `transport_with`'s loop: read, run through the agent, write back with its flag. */
    method RideStep(states: NdArray<CState>, status: NdArray<int>, constraints: Option<ArrayOrFloat>, s: RawSettings,
                    i: nat, stream: RandomStream, ghost cons: Option<seq<real>>, ghost pos: seq<int>, ghost flags: seq<int>)
      returns (r: Outcome<Error>, flag: int)
      requires states.Valid() && pos == Positions(states) && i < |pos| && |flags| == i
      requires Admissible(constraints, |pos|) && cons == ConstraintValues(constraints, |pos|)
      requires status.Valid() && status.Writeable() && i < status.buffer.Length && i < Size(status.shape)
      requires status.Position(i) == i && status.buffer[..i] == flags
      modifies states.buffer, status.buffer, stream
      ensures r.Pass? ==> status.buffer[..i + 1] == flags + [flag]
      ensures var sw := SweepFrom(physics.run, s, cons, pos, states.Writeable(), i, old(states.buffer[..]), flags, old(stream.state));
        && (r.Fail? ==> sw == Sweep(states.buffer[..], flags, stream.state, r))
        && (r.Pass? ==> sw == SweepFrom(physics.run, s, cons, pos, states.Writeable(), i + 1, states.buffer[..], flags + [flag], stream.state))
    {
      ghost var buf := states.buffer[..];
      ghost var rng := stream.state;
      var particle, photon := ReadParticle(states, constraints, s, i, cons, pos);
      var (result, next) := physics.run(particle, photon, stream.state);
      stream.state := next;
      if result.Failure? {
        assert SweepFrom(physics.run, s, cons, pos, states.Writeable(), i, buf, flags, rng)
            == Sweep(buf, flags, next, Fail(result.error));
        return Fail(result.error), 0;
      }
      var written := states.Set(i, FromPhoton(result.value.0));
      if written.Fail? {
        assert !states.Writeable() && states.buffer[..] == buf;
        return written, 0;
      }
      assert states.buffer[..] == buf[pos[i] := FromPhoton(result.value.0)];
      flag := result.value.1;
      WriteFlag(status, i, flag, flags);
      return Pass, flag;
    }

    /** The settings and the photon particle i is run with. */
    static method ReadParticle(states: NdArray<CState>, constraints: Option<ArrayOrFloat>, s: RawSettings, i: nat,
                               ghost cons: Option<seq<real>>, ghost pos: seq<int>)
      returns (particle: RawSettings, photon: PhotonState)
      requires states.Valid() && pos == Positions(states) && i < |pos|
      requires Admissible(constraints, |pos|) && cons == ConstraintValues(constraints, |pos|)
      ensures particle == SettingsFor(s, cons, i)
      ensures photon == ToPhoton(states.buffer[pos[i]])
    {
      var item := states.Get(i);
      photon := ToPhoton(item.value);
      particle := s;
      if constraints.Some? {
        var c := constraints.value.Get(i);
        particle := s.(constraint := Some(c.value));
      }
    }
  }
}
