/**
 * Transport settings as the Python binding exposes them
 * (`PyTransportSettings`, src/python/transport.rs): the engine's raw
 * settings record plus the `volume_sources` flag, whose setters keep the
 * transport mode coupled with the Compton mode and the flag coupled with
 * the energy constraint.
 */
module Settings {
  import opened Wrappers
  import opened Errors

  datatype TransportMode = Forward | Backward
  datatype ComptonMode = Adjoint | Direct | Inverse | NoCompton
  datatype ComptonMethod = InverseTransform | RejectionSampling
  datatype ComptonModel = KleinNishina | Penelope | ScatteringFunction
  datatype AbsorptionMode = Continuous | Discrete | NoAbsorption
  datatype TransportBoundary = NoBoundary | Sector(index: nat)
  datatype RayleighMode = FormFactor | NoRayleigh

  /** The engine's settings record (`TransportSettings`). */
  datatype RawSettings = RawSettings(
    mode: TransportMode,
    comptonMethod: ComptonMethod,
    comptonMode: ComptonMode,
    comptonModel: ComptonModel,
    absorption: AbsorptionMode,
    boundary: TransportBoundary,
    rayleigh: RayleighMode,
    constraint: Option<real>,
    energyMin: Option<real>,
    energyMax: Option<real>,
    lengthMax: Option<real>)

  // ---------------------------------------------------------------------------------------------
  // Names of the enumerated options (the engine's `TryFrom<&str>` and `Into<&str>`).
  // These conversions live in the engine, which is not part of this model. The tables below
  // are its names as the binding's users see them: the mode names of `compile`'s own match,
  // the Compton names of the Python interface tests, and, for absorption, "Continuous" and
  // "Discrete", which are assumed. Each parser is assumed never to give the none variant,
  // which only `None` selects.
  // ---------------------------------------------------------------------------------------------

  function ParseMode(s: string): (r: Result<TransportMode, Error>)
    ensures r.Failure? <==> s !in {"Forward", "Backward"}
    ensures r.Failure? ==> r.error == UnknownName(s)
  {
    match s
    case "Forward" => Success(Forward)
    case "Backward" => Success(Backward)
    case _ => Failure(UnknownName(s))
  }

  function ModeName(m: TransportMode): (s: string)
    ensures ParseMode(s) == Success(m)
  {
    match m
    case Forward => "Forward"
    case Backward => "Backward"
  }

  function ParseComptonMode(s: string): (r: Result<ComptonMode, Error>)
    ensures r.Failure? <==> s !in {"Adjoint", "Direct", "Inverse"}
    ensures r.Failure? ==> r.error == UnknownName(s)
    ensures r.Success? ==> r.value != NoCompton
  {
    match s
    case "Adjoint" => Success(Adjoint)
    case "Direct" => Success(Direct)
    case "Inverse" => Success(Inverse)
    case _ => Failure(UnknownName(s))
  }

  function ComptonModeName(m: ComptonMode): (s: string)
    requires m != NoCompton
    ensures ParseComptonMode(s) == Success(m)
  {
    match m
    case Adjoint => "Adjoint"
    case Direct => "Direct"
    case Inverse => "Inverse"
  }

  function ParseComptonMethod(s: string): (r: Result<ComptonMethod, Error>)
    ensures r.Failure? <==> s !in {"Inverse Transform", "Rejection Sampling"}
    ensures r.Failure? ==> r.error == UnknownName(s)
  {
    match s
    case "Inverse Transform" => Success(InverseTransform)
    case "Rejection Sampling" => Success(RejectionSampling)
    case _ => Failure(UnknownName(s))
  }

  function ComptonMethodName(m: ComptonMethod): (s: string)
    ensures ParseComptonMethod(s) == Success(m)
  {
    match m
    case InverseTransform => "Inverse Transform"
    case RejectionSampling => "Rejection Sampling"
  }

  function ParseComptonModel(s: string): (r: Result<ComptonModel, Error>)
    ensures r.Failure? <==> s !in {"Klein-Nishina", "Penelope", "Scattering Function"}
    ensures r.Failure? ==> r.error == UnknownName(s)
  {
    match s
    case "Klein-Nishina" => Success(KleinNishina)
    case "Penelope" => Success(Penelope)
    case "Scattering Function" => Success(ScatteringFunction)
    case _ => Failure(UnknownName(s))
  }

  function ComptonModelName(m: ComptonModel): (s: string)
    ensures ParseComptonModel(s) == Success(m)
  {
    match m
    case KleinNishina => "Klein-Nishina"
    case Penelope => "Penelope"
    case ScatteringFunction => "Scattering Function"
  }

  function ParseAbsorption(s: string): (r: Result<AbsorptionMode, Error>)
    ensures r.Failure? <==> s !in {"Continuous", "Discrete"}
    ensures r.Failure? ==> r.error == UnknownName(s)
    ensures r.Success? ==> r.value != NoAbsorption
  {
    match s
    case "Continuous" => Success(Continuous)
    case "Discrete" => Success(Discrete)
    case _ => Failure(UnknownName(s))
  }

  /**
   * The name `get_absorption` returns for a set absorption mode (the engine's `Into<&str>`,
   * applied by `to_optstr!`). Given back to `set_absorption`, whose `from_optstr!` applies the
   * engine's `TryFrom<&str>`, that name selects the same mode: the getter's value can always be
   * set again. Both conversions are the assumed name table of `ParseAbsorption`.
   */
  function AbsorptionName(m: AbsorptionMode): (s: string)
    requires m != NoAbsorption
    ensures ParseAbsorption(s) == Success(m)
  {
    match m
    case Continuous => "Continuous"
    case Discrete => "Discrete"
  }

  // ---------------------------------------------------------------------------------------------
  // The couplings.
  // ---------------------------------------------------------------------------------------------

  /** A Forward run uses direct Compton kinematics; a Backward run adjoint or inverse ones. */
  predicate Coupled(s: RawSettings)
  {
    (s.mode.Forward? ==> s.comptonMode.Direct? || s.comptonMode.NoCompton?) &&
    (s.mode.Backward? ==> !s.comptonMode.Direct?)
  }

  /** The raw update of `set_mode`: the Compton mode follows the transport mode. */
  function WithMode(s: RawSettings, m: TransportMode): (r: RawSettings)
    ensures r.mode == m && Coupled(r)
    ensures r == s.(mode := m, comptonMode := r.comptonMode)
    ensures m == Backward ==> (s.comptonMode == Direct <==> r.comptonMode != s.comptonMode)
    ensures m == Backward && s.comptonMode == Direct ==> r.comptonMode == Adjoint
    ensures m == Forward ==> (s.comptonMode.Adjoint? || s.comptonMode.Inverse? <==> r.comptonMode != s.comptonMode)
    ensures m == Forward && (s.comptonMode.Adjoint? || s.comptonMode.Inverse?) ==> r.comptonMode == Direct
  {
    match m
    case Backward =>
      s.(mode := Backward, comptonMode := if s.comptonMode == Direct then Adjoint else s.comptonMode)
    case Forward =>
      s.(mode := Forward, comptonMode := if s.comptonMode.Adjoint? || s.comptonMode.Inverse? then Direct else s.comptonMode)
  }

  /** The raw update of `set_compton_mode`: the transport mode follows the Compton mode. */
  function WithComptonMode(s: RawSettings, c: ComptonMode): (r: RawSettings)
    ensures r.comptonMode == c && Coupled(r)
    ensures r == s.(comptonMode := c, mode := r.mode, comptonMethod := r.comptonMethod)
    ensures c == Adjoint || c == Inverse ==> r.mode == Backward
    ensures c == Direct ==> r.mode == Forward
    ensures c == NoCompton ==> r.mode == s.mode
    ensures c != Inverse ==> r.comptonMethod == s.comptonMethod
    ensures c == Inverse ==> r.comptonMethod == InverseTransform
  {
    match c
    case Adjoint => s.(comptonMode := Adjoint, mode := Backward)
    case Direct => s.(comptonMode := Direct, mode := Forward)
    case Inverse => s.(comptonMode := Inverse, mode := Backward, comptonMethod := InverseTransform)
    case NoCompton => s.(comptonMode := NoCompton)
  }

  /** On coupled settings, re-asserting the current mode changes nothing. */
  lemma WithModeOnCoupled(s: RawSettings)
    requires Coupled(s)
    ensures WithMode(s, s.mode) == s
  {
  }

  /** `set_mode` is idempotent. */
  lemma WithModeIdempotent(s: RawSettings, m: TransportMode)
    ensures WithMode(WithMode(s, m), m) == WithMode(s, m)
  {
    WithModeOnCoupled(WithMode(s, m));
  }

  /** Setting a Compton mode and then re-asserting the resulting transport mode changes nothing. */
  lemma ComptonModeThenMode(s: RawSettings, c: ComptonMode)
    ensures WithMode(WithComptonMode(s, c), WithComptonMode(s, c).mode) == WithComptonMode(s, c)
  {
    WithModeOnCoupled(WithComptonMode(s, c));
  }

  /** `set_boundary`'s conversion: `None` is no boundary, an index a sector. */
  function BoundaryOf(value: Option<nat>): (b: TransportBoundary)
    ensures b.NoBoundary? <==> value.None?
    ensures b.Sector? ==> b.index == value.value
  {
    match value
    case None => NoBoundary
    case Some(index) => Sector(index)
  }

  /** `get_boundary`'s conversion, the inverse of `BoundaryOf`. */
  function BoundaryValue(b: TransportBoundary): (value: Option<nat>)
    ensures BoundaryOf(value) == b
  {
    match b
    case NoBoundary => None
    case Sector(index) => Some(index)
  }

  lemma BoundaryRoundTrip(value: Option<nat>)
    ensures BoundaryValue(BoundaryOf(value)) == value
  {
  }

  /** `set_rayleigh`'s conversion: `None` counts as false. */
  function RayleighOf(value: Option<bool>): (m: RayleighMode)
    ensures m == FormFactor <==> value == Some(true)
  {
    if value.GetOr(false) then FormFactor else NoRayleigh
  }

  /** `get_rayleigh`'s conversion, the inverse of `RayleighOf` on flags. */
  function RayleighFlag(m: RayleighMode): (flag: bool)
    ensures RayleighOf(Some(flag)) == m
  {
    m == FormFactor
  }

  /** `set_volume_sources`'s constraint: a unit constraint when on, none when off (`None` is off). */
  function ConstraintFor(value: Option<bool>): (c: Option<real>)
    ensures c.Some? <==> value == Some(true)
    ensures c.Some? ==> c.value == 1.0
  {
    if value.GetOr(false) then Some(1.0) else None
  }

  // ---------------------------------------------------------------------------------------------
  // The Python object.
  // ---------------------------------------------------------------------------------------------

  class TransportSettings {
    var inner: RawSettings
    var volumeSources: bool

    /** `volume_sources` is set exactly when a constraint is. */
    ghost predicate Valid()
      reads this
    {
      volumeSources == inner.constraint.Some?
    }

    /** `TransportSettings()`: the engine's defaults with a unit constraint. */
    constructor (defaults: RawSettings)
      ensures Valid()
      ensures inner == defaults.(constraint := Some(1.0)) && volumeSources
    {
      inner := defaults.(constraint := Some(1.0));
      volumeSources := true;
    }

    /** The conversion from raw settings derives the flag from the constraint. */
    constructor FromRaw(raw: RawSettings)
      ensures Valid() && inner == raw
    {
      inner := raw;
      volumeSources := raw.constraint.Some?;
    }

    function GetMode(): (name: string)
      reads this
      ensures ParseMode(name) == Success(inner.mode)
    {
      ModeName(inner.mode)
    }

    method SetMode(value: string) returns (r: Outcome<Error>)
      requires Valid()
      modifies this
      ensures r.Fail? <==> ParseMode(value).Failure?
      ensures r.Fail? ==> r == Fail(UnknownName(value)) && unchanged(this)
      ensures r.Pass? ==> inner == WithMode(old(inner), ParseMode(value).value) && GetMode() == value
      ensures volumeSources == old(volumeSources) && Valid()
    {
      var parsed := ParseMode(value);
      if parsed.Failure? {
        return Fail(parsed.error);
      }
      inner := WithMode(inner, parsed.value);
      return Pass;
    }

    function GetAbsorption(): (name: Option<string>)
      reads this
      ensures name.None? <==> inner.absorption == NoAbsorption
      ensures name.Some? ==> ParseAbsorption(name.value) == Success(inner.absorption)
    {
      if inner.absorption == NoAbsorption then None else Some(AbsorptionName(inner.absorption))
    }

    method SetAbsorption(value: Option<string>) returns (r: Outcome<Error>)
      requires Valid()
      modifies this
      ensures value.Some? && ParseAbsorption(value.value).Failure? <==> r.Fail?
      ensures r.Fail? ==> r == Fail(UnknownName(value.value)) && unchanged(this)
      ensures r.Pass? ==> GetAbsorption() == value
      ensures r.Pass? ==> inner == old(inner).(absorption := inner.absorption)
      ensures volumeSources == old(volumeSources) && Valid()
    {
      if value.None? {
        inner := inner.(absorption := NoAbsorption);
      } else {
        var parsed := ParseAbsorption(value.value);
        if parsed.Failure? {
          return Fail(parsed.error);
        }
        inner := inner.(absorption := parsed.value);
      }
      return Pass;
    }

    function GetBoundary(): (index: Option<nat>)
      reads this
      ensures BoundaryOf(index) == inner.boundary
    {
      BoundaryValue(inner.boundary)
    }

    method SetBoundary(value: Option<nat>)
      requires Valid()
      modifies this
      ensures inner == old(inner).(boundary := BoundaryOf(value)) && GetBoundary() == value
      ensures volumeSources == old(volumeSources) && Valid()
    {
      inner := inner.(boundary := BoundaryOf(value));
    }

    function GetComptonMethod(): (name: string)
      reads this
      ensures ParseComptonMethod(name) == Success(inner.comptonMethod)
    {
      ComptonMethodName(inner.comptonMethod)
    }

    method SetComptonMethod(value: string) returns (r: Outcome<Error>)
      requires Valid()
      modifies this
      ensures r.Fail? <==> ParseComptonMethod(value).Failure?
      ensures r.Fail? ==> r == Fail(UnknownName(value)) && unchanged(this)
      ensures r.Pass? ==> inner == old(inner).(comptonMethod := inner.comptonMethod) && GetComptonMethod() == value
      ensures volumeSources == old(volumeSources) && Valid()
    {
      var parsed := ParseComptonMethod(value);
      if parsed.Failure? {
        return Fail(parsed.error);
      }
      inner := inner.(comptonMethod := parsed.value);
      return Pass;
    }

    function GetComptonMode(): (name: Option<string>)
      reads this
      ensures name.None? <==> inner.comptonMode == NoCompton
      ensures name.Some? ==> ParseComptonMode(name.value) == Success(inner.comptonMode)
    {
      if inner.comptonMode == NoCompton then None else Some(ComptonModeName(inner.comptonMode))
    }

    method SetComptonMode(value: Option<string>) returns (r: Outcome<Error>)
      requires Valid()
      modifies this
      ensures value.Some? && ParseComptonMode(value.value).Failure? <==> r.Fail?
      ensures r.Fail? ==> r == Fail(UnknownName(value.value)) && unchanged(this)
      ensures r.Pass? ==> GetComptonMode() == value
      ensures r.Pass? && value.None? ==> inner == WithComptonMode(old(inner), NoCompton)
      ensures r.Pass? && value.Some? ==> inner == WithComptonMode(old(inner), ParseComptonMode(value.value).value)
      ensures r.Pass? && value.Some? ==> Coupled(inner)
      ensures volumeSources == old(volumeSources) && Valid()
    {
      var mode := NoCompton;
      if value.Some? {
        var parsed := ParseComptonMode(value.value);
        if parsed.Failure? {
          return Fail(parsed.error);
        }
        mode := parsed.value;
      }
      inner := WithComptonMode(inner, mode);
      return Pass;
    }

    function GetComptonModel(): (name: string)
      reads this
      ensures ParseComptonModel(name) == Success(inner.comptonModel)
    {
      ComptonModelName(inner.comptonModel)
    }

    method SetComptonModel(value: string) returns (r: Outcome<Error>)
      requires Valid()
      modifies this
      ensures r.Fail? <==> ParseComptonModel(value).Failure?
      ensures r.Fail? ==> r == Fail(UnknownName(value)) && unchanged(this)
      ensures r.Pass? ==> inner == old(inner).(comptonModel := inner.comptonModel) && GetComptonModel() == value
      ensures volumeSources == old(volumeSources) && Valid()
    {
      var parsed := ParseComptonModel(value);
      if parsed.Failure? {
        return Fail(parsed.error);
      }
      inner := inner.(comptonModel := parsed.value);
      return Pass;
    }

    function GetVolumeSources(): (on: bool)
      reads this
      requires Valid()
      ensures on <==> inner.constraint.Some?
    {
      volumeSources
    }

    method SetVolumeSources(value: Option<bool>)
      requires Valid()
      modifies this
      ensures volumeSources == value.GetOr(false) && Valid()
      ensures inner == old(inner).(constraint := ConstraintFor(value))
    {
      var on := value.GetOr(false);
      volumeSources := on;
      if on {
        inner := inner.(constraint := Some(1.0));
      } else {
        inner := inner.(constraint := None);
      }
    }

    function GetRayleigh(): (on: bool)
      reads this
      ensures RayleighOf(Some(on)) == inner.rayleigh
    {
      RayleighFlag(inner.rayleigh)
    }

    method SetRayleigh(value: Option<bool>)
      requires Valid()
      modifies this
      ensures inner == old(inner).(rayleigh := RayleighOf(value)) && GetRayleigh() == value.GetOr(false)
      ensures volumeSources == old(volumeSources) && Valid()
    {
      inner := inner.(rayleigh := RayleighOf(value));
    }

    method SetEnergyMin(value: Option<real>)
      requires Valid()
      modifies this
      ensures inner == old(inner).(energyMin := value) && volumeSources == old(volumeSources) && Valid()
    {
      inner := inner.(energyMin := value);
    }

    method SetEnergyMax(value: Option<real>)
      requires Valid()
      modifies this
      ensures inner == old(inner).(energyMax := value) && volumeSources == old(volumeSources) && Valid()
    {
      inner := inner.(energyMax := value);
    }

    method SetLengthMax(value: Option<real>)
      requires Valid()
      modifies this
      ensures inner == old(inner).(lengthMax := value) && volumeSources == old(volumeSources) && Valid()
    {
      inner := inner.(lengthMax := value);
    }
  }
}
