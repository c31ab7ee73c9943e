/**
 * Photon states as the binding layer stores them in numpy arrays
 * (`CState`, src/python/transport.rs) and as the transport engine uses them
 * (`PhotonState`), and the `states` helper that builds an array of them.
 */
module Photons {
  import opened Wrappers
  import opened Errors
  import opened Strides
  import opened NdArrays

  /** The C layout: plain float triples for position and direction. */
  datatype CState = CState(energy: real, position: (real, real, real), direction: (real, real, real),
                           length: real, weight: real)

  /** The engine's photon state. */
  datatype PhotonState = PhotonState(energy: real, position: Float3, direction: Float3,
                                     length: real, weight: real)

  function TripleToFloat3(t: (real, real, real)): Float3
  {
    Float3(t.0, t.1, t.2)
  }

  function Float3ToTriple(v: Float3): (real, real, real)
  {
    (v.x, v.y, v.z)
  }

  /** `From<CState> for PhotonState`: field for field. */
  function ToPhoton(c: CState): (p: PhotonState)
    ensures FromPhoton(p) == c
  {
    PhotonState(c.energy, TripleToFloat3(c.position), TripleToFloat3(c.direction), c.length, c.weight)
  }

  /** `From<PhotonState> for CState`: field for field. */
  function FromPhoton(p: PhotonState): (c: CState)
  {
    CState(p.energy, Float3ToTriple(p.position), Float3ToTriple(p.direction), p.length, p.weight)
  }

  /** The conversions are mutually inverse. */
  lemma PhotonRoundTrip(p: PhotonState)
    ensures ToPhoton(FromPhoton(p)) == p
  {
  }

  /** The item `zeros` fills a state array with. */
  const ZeroState := CState(0.0, (0.0, 0.0, 0.0), (0.0, 0.0, 0.0), 0.0, 0.0)

  // ---------------------------------------------------------------------------------------------
  // The `states` helper.
  // ---------------------------------------------------------------------------------------------

  /** A keyword value: one float, or a float triple. */
  datatype FieldValue = Number(v: real) | Triple(t: (real, real, real))

  /** The fields of the state record. */
  const FieldNames := {"energy", "position", "direction", "length", "weight"}

  /** Whether a value fits a field: triples only fit the vector fields. */
  predicate FieldAccepts(key: string, value: FieldValue)
  {
    key in {"position", "direction"} || (key in {"energy", "length", "weight"} && value.Number?)
  }

  /**
   * numpy's assignment `array[key] = value` on one state, for a value that is
   * one float or one triple given to every item: a float broadcasts into a
   * triple field, and an unknown key is refused. A triple is refused by a
   * scalar field here; numpy would broadcast it along a last dimension of 3,
   * one number per item, which this model does not follow.
   */
  function SetField(s: CState, key: string, value: FieldValue): (r: Result<CState, Error>)
    ensures r.Success? <==> FieldAccepts(key, value)
    ensures key !in FieldNames ==> r == Failure(NoSuchField(key))
    ensures key in FieldNames && !FieldAccepts(key, value) ==> r == Failure(BadFieldValue(key))
    ensures r.Success? && key == "energy" ==> r.value == s.(energy := value.v)
    ensures r.Success? && key == "weight" ==> r.value == s.(weight := value.v)
    ensures r.Success? && key == "length" ==> r.value == s.(length := value.v)
    ensures r.Success? && key == "direction" ==>
      r.value == s.(direction := if value.Number? then (value.v, value.v, value.v) else value.t)
    ensures r.Success? && key == "position" ==>
      r.value == s.(position := if value.Number? then (value.v, value.v, value.v) else value.t)
  {
    match key
    case "energy" => if value.Number? then Success(s.(energy := value.v)) else Failure(BadFieldValue(key))
    case "length" => if value.Number? then Success(s.(length := value.v)) else Failure(BadFieldValue(key))
    case "weight" => if value.Number? then Success(s.(weight := value.v)) else Failure(BadFieldValue(key))
    case "position" =>
      Success(s.(position := if value.Number? then (value.v, value.v, value.v) else value.t))
    case "direction" =>
      Success(s.(direction := if value.Number? then (value.v, value.v, value.v) else value.t))
    case _ => Failure(NoSuchField(key))
  }

  /** The keyword assignments applied in order; the first failing one stops. */
  function ApplyKwargs(s: CState, kwargs: seq<(string, FieldValue)>): Result<CState, Error>
  {
    if |kwargs| == 0 then Success(s)
    else
      var prev := ApplyKwargs(s, kwargs[..|kwargs| - 1]);
      if prev.Failure? then prev
      else SetField(prev.value, kwargs[|kwargs| - 1].0, kwargs[|kwargs| - 1].1)
  }

  predicate HasKey(kwargs: seq<(string, FieldValue)>, key: string)
  {
    exists i :: 0 <= i < |kwargs| && kwargs[i].0 == key
  }

  /** The defaults `states` applies to the fields no keyword named. */
  function WithDefaults(s: CState, kwargs: seq<(string, FieldValue)>): CState
  {
    var s := if HasKey(kwargs, "direction") then s else s.(direction := (0.0, 0.0, 1.0));
    var s := if HasKey(kwargs, "energy") then s else s.(energy := 1.0);
    if HasKey(kwargs, "weight") then s else s.(weight := 1.0)
  }

  /** The state every item of the array `states(shape, **kwargs)` holds. */
  function StatesItem(kwargs: seq<(string, FieldValue)>): Result<CState, Error>
  {
    var applied := ApplyKwargs(ZeroState, kwargs);
    if applied.Failure? then applied else Success(WithDefaults(applied.value, kwargs))
  }

  /** The index of the last keyword with this key. */
  ghost predicate LastWith(kwargs: seq<(string, FieldValue)>, key: string, i: int)
  {
    0 <= i < |kwargs| && kwargs[i].0 == key && forall j :: i < j < |kwargs| ==> kwargs[j].0 != key
  }

  /** A field that no keyword names keeps the value it started with. */
  lemma {:induction false} ApplyUntouched(s: CState, kwargs: seq<(string, FieldValue)>)
    requires ApplyKwargs(s, kwargs).Success?
    ensures !HasKey(kwargs, "energy") ==> ApplyKwargs(s, kwargs).value.energy == s.energy
    ensures !HasKey(kwargs, "weight") ==> ApplyKwargs(s, kwargs).value.weight == s.weight
    ensures !HasKey(kwargs, "direction") ==> ApplyKwargs(s, kwargs).value.direction == s.direction
    ensures !HasKey(kwargs, "position") ==> ApplyKwargs(s, kwargs).value.position == s.position
    ensures !HasKey(kwargs, "length") ==> ApplyKwargs(s, kwargs).value.length == s.length
  {
    if |kwargs| > 0 {
      var n := |kwargs| - 1;
      ApplyUntouched(s, kwargs[..n]);
      forall key | HasKey(kwargs[..n], key) ensures HasKey(kwargs, key) {
        var i :| 0 <= i < n && kwargs[..n][i].0 == key;
        assert kwargs[i].0 == key;
      }
    }
  }

  /** `states` gives energy 1, weight 1 and direction (0, 0, 1) unless a keyword sets them. */
  lemma StatesDefaults(kwargs: seq<(string, FieldValue)>)
    requires StatesItem(kwargs).Success?
    ensures !HasKey(kwargs, "energy") ==> StatesItem(kwargs).value.energy == 1.0
    ensures !HasKey(kwargs, "weight") ==> StatesItem(kwargs).value.weight == 1.0
    ensures !HasKey(kwargs, "direction") ==> StatesItem(kwargs).value.direction == (0.0, 0.0, 1.0)
    ensures !HasKey(kwargs, "position") ==> StatesItem(kwargs).value.position == (0.0, 0.0, 0.0)
    ensures !HasKey(kwargs, "length") ==> StatesItem(kwargs).value.length == 0.0
  {
    ApplyUntouched(ZeroState, kwargs);
  }

  /**
   * When a key is repeated, the last keyword carrying it wins. This is a
   * property of the keyword loop alone: the `**kwargs` dict `states` receives
   * cannot repeat a key, so there the case never arises.
   */
  lemma {:induction false} LastEnergyWins(s: CState, kwargs: seq<(string, FieldValue)>, i: int)
    requires ApplyKwargs(s, kwargs).Success? && LastWith(kwargs, "energy", i)
    ensures kwargs[i].1.Number? && ApplyKwargs(s, kwargs).value.energy == kwargs[i].1.v
  {
    var n := |kwargs| - 1;
    if i < n {
      assert LastWith(kwargs[..n], "energy", i);
      LastEnergyWins(s, kwargs[..n], i);
    }
  }

  /** A fresh row-major state array: item k sits in buffer cell k. */
  ghost predicate Fresh(a: NdArray<CState>)
    reads a
  {
    a.Valid() && a.start == 0 && a.buffer.Length == Size(a.shape) &&
    forall k: nat :: k < Size(a.shape) ==> a.Position(k) == k
  }

  /** Every buffer cell holds `v`. */
  ghost predicate Uniform(a: NdArray<CState>, v: CState)
    reads a.buffer
  {
    forall k :: 0 <= k < a.buffer.Length ==> a.buffer[k] == v
  }

  /** On a fresh array, a uniform buffer means every item reads `v`. */
  lemma UniformItems(a: NdArray<CState>, v: CState)
    requires Fresh(a) && Uniform(a, v)
    ensures forall k: nat :: k < Size(a.shape) ==> a.At(k) == v
  {
    forall k: nat | k < Size(a.shape) ensures a.At(k) == v {
      assert a.Position(k) == k;
    }
  }

  /**
   * `array[key] = value` on an array whose cells all hold `v`: the field
   * assignment reaches every cell, and a refused one changes nothing.
   */
  method SetItem(a: NdArray<CState>, key: string, value: FieldValue, ghost v: CState) returns (r: Outcome<Error>)
    requires Uniform(a, v)
    modifies a.buffer
    ensures SetField(v, key, value).Failure? ==>
      r == Fail(SetField(v, key, value).error) && a.buffer[..] == old(a.buffer[..])
    ensures SetField(v, key, value).Success? ==> r == Pass && Uniform(a, SetField(v, key, value).value)
  {
    if !FieldAccepts(key, value) {
      return Fail(if key in FieldNames then BadFieldValue(key) else NoSuchField(key));
    }
    var k := 0;
    while k < a.buffer.Length
      invariant 0 <= k <= a.buffer.Length
      invariant forall k' :: 0 <= k' < k ==> a.buffer[k'] == SetField(v, key, value).value
      invariant forall k' :: k <= k' < a.buffer.Length ==> a.buffer[k'] == v
    {
      a.buffer[k] := SetField(a.buffer[k], key, value).value;
      k := k + 1;
    }
    return Pass;
  }

  /** The keyword loop of `states`: assignments in order, and which defaults they pre-empt. */
  method AssignKwargs(a: NdArray<CState>, kwargs: seq<(string, FieldValue)>)
    returns (r: Outcome<Error>, hasDirection: bool, hasEnergy: bool, hasWeight: bool)
    requires Uniform(a, ZeroState)
    modifies a.buffer
    ensures r.Pass? <==> ApplyKwargs(ZeroState, kwargs).Success?
    ensures r.Fail? ==> r.error == ApplyKwargs(ZeroState, kwargs).error
    ensures r.Pass? ==> (Uniform(a, ApplyKwargs(ZeroState, kwargs).value) &&
      hasDirection == HasKey(kwargs, "direction") &&
      hasEnergy == HasKey(kwargs, "energy") &&
      hasWeight == HasKey(kwargs, "weight"))
  {
    hasDirection, hasEnergy, hasWeight := false, false, false;
    var i := 0;
    ghost var current := ZeroState;
    while i < |kwargs|
      invariant 0 <= i <= |kwargs|
      invariant ApplyKwargs(ZeroState, kwargs[..i]) == Success(current)
      invariant Uniform(a, current)
      invariant hasDirection == HasKey(kwargs[..i], "direction")
      invariant hasEnergy == HasKey(kwargs[..i], "energy")
      invariant hasWeight == HasKey(kwargs[..i], "weight")
    {
      var (key, value) := kwargs[i];
      hasDirection := hasDirection || key == "direction";
      hasEnergy := hasEnergy || key == "energy";
      hasWeight := hasWeight || key == "weight";
      HasKeyStep(kwargs, i);
      assert kwargs[..i + 1][..i] == kwargs[..i];
      var done := SetItem(a, key, value, current);
      if done.Fail? {
        ApplyFirstFailure(ZeroState, kwargs, i + 1);
        return done, hasDirection, hasEnergy, hasWeight;
      }
      current := SetField(current, key, value).value;
      i := i + 1;
    }
    assert kwargs[..i] == kwargs;
    r := Pass;
  }

  lemma HasKeyStep(kwargs: seq<(string, FieldValue)>, i: nat)
    requires i < |kwargs|
    ensures forall key :: HasKey(kwargs[..i + 1], key) <==> HasKey(kwargs[..i], key) || kwargs[i].0 == key
  {
    forall key ensures HasKey(kwargs[..i + 1], key) <==> HasKey(kwargs[..i], key) || kwargs[i].0 == key {
      if HasKey(kwargs[..i + 1], key) {
        var j :| 0 <= j < i + 1 && kwargs[..i + 1][j].0 == key;
        if j < i {
          assert kwargs[..i][j].0 == key;
        }
      }
      if HasKey(kwargs[..i], key) {
        var j :| 0 <= j < i && kwargs[..i][j].0 == key;
        assert kwargs[..i + 1][j].0 == key;
      }
      if kwargs[i].0 == key {
        assert kwargs[..i + 1][i].0 == key;
      }
    }
  }

  /**
   * `states(shape, **kwargs)`: a zero-filled state array (shape [0] when none
   * is given), the keywords applied in order, then the defaults.
   */
  method States(shape: Option<ShapeArg>, kwargs: seq<(string, FieldValue)>) returns (r: Result<NdArray<CState>, Error>)
    ensures var dims := if shape.None? then [0] else shape.value.ToShape();
      r.Success? <==> ShapeFits(dims) && StatesItem(kwargs).Success?
    ensures r.Success? ==> (fresh(r.value) && r.value.Valid() &&
      r.value.shape == (if shape.None? then [0] else shape.value.ToShape()) &&
      forall k: nat :: k < Size(r.value.shape) ==> r.value.At(k) == StatesItem(kwargs).value)
  {
    var dims := if shape.None? then [0] else shape.value.ToShape();
    var a :- Zeros(dims, ZeroState);
    var applied, hasDirection, hasEnergy, hasWeight := AssignKwargs(a, kwargs);
    if applied.Fail? {
      return Failure(applied.error);
    }
    ghost var current := ApplyKwargs(ZeroState, kwargs).value;
    if !hasDirection {
      var _ := SetItem(a, "direction", Triple((0.0, 0.0, 1.0)), current);
      current := current.(direction := (0.0, 0.0, 1.0));
    }
    if !hasEnergy {
      var _ := SetItem(a, "energy", Number(1.0), current);
      current := current.(energy := 1.0);
    }
    if !hasWeight {
      var _ := SetItem(a, "weight", Number(1.0), current);
      current := current.(weight := 1.0);
    }
    UniformItems(a, current);
    return Success(a);
  }

  /** The error of a failing keyword list is the one of its first failing prefix. */
  lemma {:induction false} ApplyFirstFailure(s: CState, kwargs: seq<(string, FieldValue)>, i: nat)
    requires i <= |kwargs| && ApplyKwargs(s, kwargs[..i]).Failure?
    ensures ApplyKwargs(s, kwargs) == ApplyKwargs(s, kwargs[..i])
  {
    if i < |kwargs| {
      var n := |kwargs| - 1;
      assert kwargs[..n][..i] == kwargs[..i];
      ApplyFirstFailure(s, kwargs[..n], i);
    } else {
      assert kwargs[..i] == kwargs;
    }
  }
}
