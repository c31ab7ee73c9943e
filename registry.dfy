/**
 * What `compile` of `TransportEngine` (src/python/transport.rs) asks of the
 * engine's material registry: the geometry's materials are added, atomic
 * data is loaded, and `compute` runs once per transport pass. The registry
 * belongs to the engine; it is modelled as the calls it receives, each
 * answered by an oracle that sees the calls received before.
 */
module Registry {
  import opened Wrappers
  import opened Errors
  import opened Settings
  import Geometry

  // ---------------------------------------------------------------------------------------------
  // Geometries, as the engine sees them.
  // ---------------------------------------------------------------------------------------------

  /** The three kinds of geometry a transport engine can run over. */
  datatype GeometryKind = ExternalKind | SimpleKind | StratifiedKind

  /** A geometry definition: its kind and the materials `materials()` reports. */
  datatype GeometryDefinition = GeometryDefinition(kind: GeometryKind, materials: seq<Geometry.MaterialDefinition>)

  // ---------------------------------------------------------------------------------------------
  // The material registry.
  // ---------------------------------------------------------------------------------------------

  /** A call on the engine's `MaterialRegistry`; `LoadElements(None)` loads the data shipped with the package. */
  datatype RegistryCall =
    | Add(material: Geometry.MaterialDefinition)
    | LoadElements(path: Option<string>)
    | Compute(settings: RawSettings)

  /** How the engine answers a call, given the calls the registry has received before. */
  type Responder = (seq<RegistryCall>, RegistryCall) -> Outcome<Error>

  /** What the registry holds: the calls it has received and whether atomic data is loaded. */
  datatype RegistryState = RegistryState(log: seq<RegistryCall>, atomicLoaded: bool)

  /** One call: it is recorded, and a successful load of elements marks atomic data as loaded. */
  function Issue(s: RegistryState, c: RegistryCall, respond: Responder): (r: (RegistryState, Outcome<Error>))
    ensures r.0.log == s.log + [c] && r.1 == respond(s.log, c)
    ensures r.0.atomicLoaded <==> s.atomicLoaded || (c.LoadElements? && r.1.Pass?)
  {
    var outcome := respond(s.log, c);
    (RegistryState(s.log + [c], s.atomicLoaded || (c.LoadElements? && outcome.Pass?)), outcome)
  }

  /**
   * Calls in order, each under `?`: the first failure stops the sequence.
   * The registry receives a prefix of the calls, all of them when none fails,
   * and at least the failing one otherwise.
   */
  function RunAll(s: RegistryState, calls: seq<RegistryCall>, respond: Responder): (r: (RegistryState, Outcome<Error>))
    ensures |s.log| <= |r.0.log| <= |s.log| + |calls|
    ensures r.0.log == s.log + calls[..|r.0.log| - |s.log|]
    ensures r.1.Pass? ==> r.0.log == s.log + calls
    ensures r.1.Fail? ==> |r.0.log| > |s.log|
    decreases |calls|
  {
    if calls == [] then (s, Pass)
    else
      var (s1, outcome) := Issue(s, calls[0], respond);
      if outcome.Fail? then
        assert calls[..1] == [calls[0]];
        (s1, outcome)
      else
        var r := RunAll(s1, calls[1..], respond);
        var m := |r.0.log| - |s1.log|;
        assert calls[..m + 1] == [calls[0]] + calls[1..][..m];
        assert s1.log + calls[1..][..m] == s.log + calls[..m + 1];
        assert calls == [calls[0]] + calls[1..];
        r
  }

  /** A run that fails ends with the call that failed, answered on the calls received before it. */
  lemma {:induction false} FailureIsLastCall(s: RegistryState, calls: seq<RegistryCall>, respond: Responder)
    ensures var r := RunAll(s, calls, respond);
      r.1.Fail? ==> respond(r.0.log[..|r.0.log| - 1], r.0.log[|r.0.log| - 1]) == r.1
    decreases |calls|
  {
    if calls != [] {
      var (s1, outcome) := Issue(s, calls[0], respond);
      if outcome.Fail? {
        assert s1.log[..|s1.log| - 1] == s.log;
      } else {
        FailureIsLastCall(s1, calls[1..], respond);
      }
    }
  }

  /** The engine's `MaterialRegistry`, answered by `respond`. */
  class MaterialRegistry {
    var state: RegistryState
    const respond: Responder

    /** `MaterialRegistry()`: no call received, no atomic data. */
    constructor (respond: Responder)
      ensures state == RegistryState([], false) && this.respond == respond
    {
      state := RegistryState([], false);
      this.respond := respond;
    }

    method Call(c: RegistryCall) returns (r: Outcome<Error>)
      modifies this
      ensures (state, r) == Issue(old(state), c, respond)
    {
      r := respond(state.log, c);
      state := RegistryState(state.log + [c], state.atomicLoaded || (c.LoadElements? && r.Pass?));
    }

    /** The calls one after the other, stopping at the first failure. */
    method CallAll(calls: seq<RegistryCall>) returns (r: Outcome<Error>)
      modifies this
      ensures (state, r) == RunAll(old(state), calls, respond)
    {
      var i := 0;
      while i < |calls|
        invariant 0 <= i <= |calls|
        invariant RunAll(state, calls[i..], respond) == RunAll(old(state), calls, respond)
      {
        assert calls[i..][1..] == calls[i + 1..];
        var outcome := Call(calls[i]);
        if outcome.Fail? {
          return outcome;
        }
        i := i + 1;
      }
      return Pass;
    }
  }

  // ---------------------------------------------------------------------------------------------
  // `compile`.
  // ---------------------------------------------------------------------------------------------

  /** The passes `compile` can run. */
  datatype CompileMode = AllMode | BackwardMode | BothMode | ForwardMode

  function CompileModeName(m: CompileMode): string
  {
    match m
    case AllMode => "All"
    case BackwardMode => "Backward"
    case BothMode => "Both"
    case ForwardMode => "Forward"
  }

  /**
   * The `mode` argument: with none, the mode of the current settings; else
   * one of four names, and any other is a value error.
   */
  function ParseCompileMode(mode: Option<string>, current: TransportMode): (r: Result<CompileMode, Error>)
    ensures mode.None? ==> r == Success(if current == Forward then ForwardMode else BackwardMode)
    ensures mode.Some? ==> (r.Success? <==> mode.value in {"All", "Backward", "Both", "Forward"})
    ensures mode.Some? && r.Success? ==> CompileModeName(r.value) == mode.value
    ensures r.Failure? ==> r == Failure(BadCompileMode(mode.value))
  {
    match mode
    case None => Success(if current == Forward then ForwardMode else BackwardMode)
    case Some(name) =>
      if name == "All" then Success(AllMode)
      else if name == "Backward" then Success(BackwardMode)
      else if name == "Both" then Success(BothMode)
      else if name == "Forward" then Success(ForwardMode)
      else Failure(BadCompileMode(name))
  }

  /** The settings of the forward pass: Forward mode, an adjoint or inverse Compton mode made direct. */
  function ForwardPass(s: RawSettings): (r: RawSettings)
    ensures r == WithMode(s, Forward)
  {
    s.(mode := Forward, comptonMode := if s.comptonMode.Adjoint? || s.comptonMode.Inverse? then Direct else s.comptonMode)
  }

  /**
   * The settings of the backward pass: Backward mode, a direct Compton mode
   * made adjoint, and inverse-transform sampling for the inverse mode.
   */
  function BackwardPass(s: RawSettings): (r: RawSettings)
    ensures r.mode == Backward && Coupled(r)
    ensures r.comptonMode == WithMode(s, Backward).comptonMode
    ensures r.comptonMode == Inverse ==> r.comptonMethod == InverseTransform
    ensures r.comptonMode != Inverse ==> r == WithMode(s, Backward)
    ensures r == WithMode(s, Backward).(comptonMethod := r.comptonMethod)
  {
    var t := s.(mode := Backward, comptonMode := if s.comptonMode == Direct then Adjoint else s.comptonMode);
    if t.comptonMode == Inverse then t.(comptonMethod := InverseTransform) else t
  }

  /** The settings of the extra pass of "All": Backward, inverse Compton mode, inverse-transform sampling. */
  function InversePass(s: RawSettings): (r: RawSettings)
    ensures r == WithComptonMode(s, Inverse)
  {
    s.(mode := Backward, comptonMode := Inverse, comptonMethod := InverseTransform)
  }

  /** The settings `compute` is called with, pass after pass. */
  function Passes(m: CompileMode, s: RawSettings): (r: seq<RawSettings>)
    ensures forall k :: 0 <= k < |r| ==> Coupled(r[k])
    ensures m == ForwardMode ==> r == [ForwardPass(s)]
    ensures m == BackwardMode ==> r == [BackwardPass(s)]
    ensures m == BothMode ==> r == [ForwardPass(s), BackwardPass(s)]
    ensures m == AllMode ==> r == [ForwardPass(s), BackwardPass(s), WithComptonMode(s, Inverse)]
  {
    (if m != BackwardMode then [ForwardPass(s)] else [])
      + (if m != ForwardMode then [BackwardPass(s)] else [])
      + (if m == AllMode then [InversePass(s)] else [])
  }

  /** The `compute` calls of the passes. */
  function Computes(passes: seq<RawSettings>): (r: seq<RegistryCall>)
    ensures |r| == |passes| && forall k :: 0 <= k < |r| ==> r[k] == Compute(passes[k])
  {
    if passes == [] then [] else [Compute(passes[0])] + Computes(passes[1..])
  }

  /** `update_with`: one `add` per material of the geometry, in order; none without a geometry. */
  function Adds(geometry: Option<GeometryDefinition>): (r: seq<RegistryCall>)
    ensures geometry.None? ==> r == []
    ensures geometry.Some? ==> (|r| == |geometry.value.materials| &&
      forall k :: 0 <= k < |r| ==> r[k] == Add(geometry.value.materials[k]))
  {
    if geometry.None? then [] else AddAll(geometry.value.materials)
  }

  function AddAll(materials: seq<Geometry.MaterialDefinition>): (r: seq<RegistryCall>)
    ensures |r| == |materials| && forall k :: 0 <= k < |r| ==> r[k] == Add(materials[k])
  {
    if materials == [] then [] else [Add(materials[0])] + AddAll(materials[1..])
  }

  /** Atomic data: from the given path, or else the shipped data unless some is loaded already. */
  function LoadCalls(atomicData: Option<string>, loaded: bool): (r: seq<RegistryCall>)
    ensures atomicData.Some? ==> r == [LoadElements(atomicData)]
    ensures atomicData.None? ==> r == if loaded then [] else [LoadElements(None)]
  {
    if atomicData.Some? then [LoadElements(atomicData)] else if loaded then [] else [LoadElements(None)]
  }

  /**
   * What `compile` does to the registry once the mode is parsed: the
   * geometry's materials are added, atomic data is loaded if need be (as
   * the registry stands after the additions), then the passes are computed;
   * the first failure stops it.
   */
  function CompileRun(reg: RegistryState, geometry: Option<GeometryDefinition>, atomicData: Option<string>,
                      m: CompileMode, s: RawSettings, respond: Responder): (r: (RegistryState, Outcome<Error>))
    ensures reg.log <= r.0.log
  {
    var (r1, o1) := RunAll(reg, Adds(geometry), respond);
    if o1.Fail? then (r1, o1)
    else RunAll(r1, LoadCalls(atomicData, r1.atomicLoaded) + Computes(Passes(m, s)), respond)
  }

  /** The material additions do not load atomic data. */
  lemma {:induction false} AddsKeepLoaded(reg: RegistryState, materials: seq<Geometry.MaterialDefinition>, respond: Responder)
    ensures RunAll(reg, AddAll(materials), respond).0.atomicLoaded == reg.atomicLoaded
    decreases |materials|
  {
    if materials != [] {
      var calls := AddAll(materials);
      assert calls[0] == Add(materials[0]);
      assert calls[1..] == AddAll(materials[1..]);
      AddsKeepLoaded(Issue(reg, calls[0], respond).0, materials[1..], respond);
    }
  }

  /**
   * With a registry that accepts every call, `compile` issues exactly: the
   * additions, the load if any, and one `compute` per pass, in that order.
   */
  lemma CompileAccepted(reg: RegistryState, geometry: Option<GeometryDefinition>, atomicData: Option<string>,
                        m: CompileMode, s: RawSettings, respond: Responder)
    requires forall log, c :: respond(log, c) == Pass
    ensures CompileRun(reg, geometry, atomicData, m, s, respond) ==
      (RegistryState(reg.log + Adds(geometry) + LoadCalls(atomicData, reg.atomicLoaded) + Computes(Passes(m, s)),
                     reg.atomicLoaded || LoadCalls(atomicData, reg.atomicLoaded) != []),
       Pass)
  {
    AddsAccepted(reg, geometry, respond);
    var r1 := RegistryState(reg.log + Adds(geometry), reg.atomicLoaded);
    LoadedAfter(r1, LoadCalls(atomicData, reg.atomicLoaded), Computes(Passes(m, s)), respond);
  }

  /** With a registry that accepts every call, the additions are all received and load nothing. */
  lemma AddsAccepted(reg: RegistryState, geometry: Option<GeometryDefinition>, respond: Responder)
    requires forall log, c :: respond(log, c) == Pass
    ensures RunAll(reg, Adds(geometry), respond) == (RegistryState(reg.log + Adds(geometry), reg.atomicLoaded), Pass)
  {
    var adds := Adds(geometry);
    var r := RunAll(reg, adds, respond);
    if geometry.Some? {
      AddsKeepLoaded(reg, geometry.value.materials, respond);
    }
    AcceptedRun(reg, adds, respond);
  }

  /** A registry that accepts every call receives all of them. */
  lemma {:induction false} AcceptedRun(s: RegistryState, calls: seq<RegistryCall>, respond: Responder)
    requires forall log, c :: respond(log, c) == Pass
    ensures RunAll(s, calls, respond).1 == Pass
    decreases |calls|
  {
    if calls != [] {
      var s1 := Issue(s, calls[0], respond).0;
      AcceptedRun(s1, calls[1..], respond);
    }
  }

  /** Running a load (or nothing) and then computations leaves atomic data loaded exactly when it was or the load ran. */
  lemma LoadedAfter(r: RegistryState, loads: seq<RegistryCall>, computes: seq<RegistryCall>, respond: Responder)
    requires forall log, c :: respond(log, c) == Pass
    requires |loads| <= 1 && forall k :: 0 <= k < |loads| ==> loads[k].LoadElements?
    requires forall k :: 0 <= k < |computes| ==> computes[k].Compute?
    ensures RunAll(r, loads + computes, respond) ==
      (RegistryState(r.log + loads + computes, r.atomicLoaded || loads != []), Pass)
  {
    if loads == [] {
      assert loads + computes == computes;
      ComputesKeepLoaded(r, computes, respond);
      assert r.log + loads == r.log;
    } else {
      var load := loads[0];
      assert loads == [load];
      LoadThenComputes(r, load, computes, respond);
      assert loads + computes == [load] + computes;
      assert r.log + loads + computes == r.log + [load] + computes;
    }
  }

  /** A load that succeeds, then computations. */
  lemma LoadThenComputes(r: RegistryState, load: RegistryCall, computes: seq<RegistryCall>, respond: Responder)
    requires forall log, c :: respond(log, c) == Pass
    requires load.LoadElements?
    requires forall k :: 0 <= k < |computes| ==> computes[k].Compute?
    ensures RunAll(r, [load] + computes, respond) == (RegistryState(r.log + [load] + computes, true), Pass)
  {
    var calls := [load] + computes;
    assert calls[0] == load && calls[1..] == computes;
    var s := RegistryState(r.log + [load], true);
    assert Issue(r, load, respond) == (s, Pass);
    ComputesKeepLoaded(s, computes, respond);
  }

  /** Computations do not change whether atomic data is loaded. */
  lemma {:induction false} ComputesKeepLoaded(r: RegistryState, computes: seq<RegistryCall>, respond: Responder)
    requires forall log, c :: respond(log, c) == Pass
    requires forall k :: 0 <= k < |computes| ==> computes[k].Compute?
    ensures RunAll(r, computes, respond) == (RegistryState(r.log + computes, r.atomicLoaded), Pass)
    decreases |computes|
  {
    if computes == [] {
      assert r.log + computes == r.log;
    } else {
      var s := Issue(r, computes[0], respond).0;
      ComputesKeepLoaded(s, computes[1..], respond);
      assert s.log + computes[1..] == r.log + computes;
    }
  }
}
