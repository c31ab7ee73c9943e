/**
 * `StratifiedGeometry(*args)` (src/python/geometry.rs): the positional
 * arguments follow the grammar
 *
 *     [top interface] sector (interface sector)* [bottom interface]
 *
 * and are consumed from the end, so that the engine's builder receives the
 * bottom sector first and every further layer above the ones it already has.
 * The builder itself belongs to the engine; here it records the calls it
 * receives, and whether `push_layer` accepts a layer is an oracle.
 */
module Stratified {
  import opened Wrappers
  import opened Errors
  import opened Topography
  import Geometry

  /** `GeometrySector` as Python holds it: a material, a density and an optional description. */
  datatype GeometrySector = GeometrySector(
    material: Geometry.MaterialDefinition,
    density: Geometry.DensityModel,
    description: Option<string>)

  /** One positional argument, as far as extraction tells them apart: a sector, an interface, or neither. */
  datatype Arg = SectorArg(sector: GeometrySector) | InterfaceArg(interface: PyTopographyInterface) | OtherArg

  /** `extract::<PyRef<PyGeometrySector>>`: a type error for anything but a sector. */
  function AsSector(a: Arg): (r: Result<GeometrySector, Error>)
    ensures r.Success? <==> a.SectorArg?
    ensures r.Success? ==> r.value == a.sector
    ensures r.Failure? ==> r.error == BadExtraction("GeometrySector")
  {
    if a.SectorArg? then Success(a.sector) else Failure(BadExtraction("GeometrySector"))
  }

  /** `extract::<PyTopographyInterface>` followed by the conversion into engine topography data. */
  function AsInterface(a: Arg): (r: Result<seq<TopographyData>, Error>)
    ensures r.Success? <==> a.InterfaceArg?
    ensures r.Success? ==> r.value == ToInterface(a.interface)
    ensures r.Failure? ==> r.error == BadExtraction("TopographyInterface")
  {
    if a.InterfaceArg? then Success(ToInterface(a.interface)) else Failure(BadExtraction("TopographyInterface"))
  }

  // ---------------------------------------------------------------------------------------------
  // The engine's builder.
  // ---------------------------------------------------------------------------------------------

  /** A call the binding makes on the engine's `StratifiedGeometry`. */
  datatype BuildCall =
    | CreateCall(sector: GeometrySector)
    | BottomCall(bottom: seq<TopographyData>)
    | LayerCall(interface: seq<TopographyData>, sector: GeometrySector)
    | TopCall(top: seq<TopographyData>)

  /**
   * Whether `push_layer` accepts a layer, given the calls the geometry has
   * received so far; its checks are the engine's.
   */
  type PushOracle = (seq<BuildCall>, seq<TopographyData>, GeometrySector) -> Outcome<Error>

  /** The engine's `StratifiedGeometry` while it is being built, as the calls it has accepted. */
  class StratifiedGeometry {
    var calls: seq<BuildCall>
    const push: PushOracle

    /** `StratifiedGeometry::new`: a geometry of the one (bottom) sector. */
    constructor (sector: GeometrySector, push: PushOracle)
      ensures calls == [CreateCall(sector)] && this.push == push
    {
      calls := [CreateCall(sector)];
      this.push := push;
    }

    /** `set_bottom`. */
    method SetBottom(bottom: seq<TopographyData>)
      modifies this
      ensures calls == old(calls) + [BottomCall(bottom)]
    {
      calls := calls + [BottomCall(bottom)];
    }

    /** `push_layer`: a layer above the present ones, if the engine accepts it. */
    method PushLayer(interface: seq<TopographyData>, sector: GeometrySector) returns (r: Outcome<Error>)
      modifies this
      ensures r == push(old(calls), interface, sector)
      ensures calls == if r.Pass? then old(calls) + [LayerCall(interface, sector)] else old(calls)
    {
      r := push(calls, interface, sector);
      if r.Pass? {
        calls := calls + [LayerCall(interface, sector)];
      }
    }

    /** `set_top`. */
    method SetTop(top: seq<TopographyData>)
      modifies this
      ensures calls == old(calls) + [TopCall(top)]
    {
      calls := calls + [TopCall(top)];
    }
  }

  // ---------------------------------------------------------------------------------------------
  // The parser.
  // ---------------------------------------------------------------------------------------------

  /** Where the loop starts: the index of the bottom sector, that sector, and the bottom interface if any. */
  datatype Start = Start(last: nat, sector: GeometrySector, bottom: Option<seq<TopographyData>>)

  /**
   * The opening of `new` as written: no argument is an error; a last argument
   * that is a sector is the bottom sector; otherwise it must be an interface,
   * and the sector is taken at n - 2, a `usize` subtraction that underflows
   * (a panic) when the interface is the only argument.
   */
  function StartAsWritten(args: seq<Arg>): (r: Result<Start, Error>)
    ensures |args| == 0 ==> r == Failure(NoArgument)
    ensures |args| == 1 && args[0].InterfaceArg? ==> r == Failure(IndexUnderflow)
    ensures r.Success? ==> r.value.last < |args| && args[r.value.last] == SectorArg(r.value.sector)
  {
    var n := |args|;
    if n == 0 then Failure(NoArgument)
    else if args[n - 1].SectorArg? then Success(Start(n - 1, args[n - 1].sector, None))
    else
      var bottom :- AsInterface(args[n - 1]);
      if n < 2 then Failure(IndexUnderflow)
      else
        var sector :- AsSector(args[n - 2]);
        Success(Start(n - 2, sector, Some(bottom)))
  }

  /**
   * The opening as intended: a lone interface lacks the sector above it, a
   * type error like any other missing sector. Parsing succeeds exactly when
   * the arguments end in a sector, or in a sector and an interface.
   */
  function StartFixed(args: seq<Arg>): (r: Result<Start, Error>)
    ensures |args| == 0 ==> r == Failure(NoArgument)
    ensures r.Success? <==>
      && |args| > 0
      && (|| args[|args| - 1].SectorArg?
          || (args[|args| - 1].InterfaceArg? && |args| >= 2 && args[|args| - 2].SectorArg?))
    ensures r.Success? ==> (
      var n := |args|;
      && r.value.last < n && args[r.value.last] == SectorArg(r.value.sector)
      && (r.value.bottom.None? <==> args[n - 1].SectorArg?)
      && (r.value.bottom.None? ==> r.value.last == n - 1)
      && (r.value.bottom.Some? ==> r.value.last == n - 2 && r.value.bottom.value == ToInterface(args[n - 1].interface)))
    ensures r.Failure? && |args| > 0 && !args[|args| - 1].SectorArg? && !args[|args| - 1].InterfaceArg? ==>
      r.error == BadExtraction("TopographyInterface")
  {
    var n := |args|;
    if n == 0 then Failure(NoArgument)
    else if args[n - 1].SectorArg? then Success(Start(n - 1, args[n - 1].sector, None))
    else
      var bottom :- AsInterface(args[n - 1]);
      if n < 2 then Failure(BadExtraction("GeometrySector"))
      else
        var sector :- AsSector(args[n - 2]);
        Success(Start(n - 2, sector, Some(bottom)))
  }

  /** The two openings differ on one input only: a lone interface, which panics as written. */
  lemma StartsAgree(args: seq<Arg>)
    ensures StartAsWritten(args) != StartFixed(args) <==> |args| == 1 && args[0].InterfaceArg?
  {
  }

  /** The input that shows the underflow: `StratifiedGeometry(0.0)` panics instead of raising a type error. */
  lemma UnderflowWitness()
    ensures var args := [InterfaceArg(ScalarInterface(ConstantItem(0.0)))];
      && StartAsWritten(args) == Failure(IndexUnderflow) && KindOf(StartAsWritten(args).error) == PanicKind
      && StartFixed(args) == Failure(BadExtraction("GeometrySector")) && KindOf(StartFixed(args).error) == TypeErrorKind
  {
  }

  /**
   * The loop of `new` and what follows it, from the sector at index `last`
   * upwards: while two arguments or more remain above it, an interface and
   * the sector above that make one more layer; a single remaining argument is
   * the top interface.
   */
  function Layers(args: seq<Arg>, last: nat, calls: seq<BuildCall>, push: PushOracle): (r: Result<seq<BuildCall>, Error>)
    requires last < |args|
    decreases last
  {
    if last > 1 then
      var interface :- AsInterface(args[last - 1]);
      var sector :- AsSector(args[last - 2]);
      var pushed := push(calls, interface, sector);
      if pushed.Fail? then Failure(pushed.error)
      else Layers(args, last - 2, calls + [LayerCall(interface, sector)], push)
    else if last == 1 then
      var top :- AsInterface(args[0]);
      Success(calls + [TopCall(top)])
    else Success(calls)
  }

  /** The calls `new` makes on the builder, or the error it raises, with the opening corrected. */
  function Build(args: seq<Arg>, push: PushOracle): Result<seq<BuildCall>, Error>
  {
    var start :- StartFixed(args);
    var calls := [CreateCall(start.sector)] + if start.bottom.Some? then [BottomCall(start.bottom.value)] else [];
    Layers(args, start.last, calls, push)
  }

  /** The loop only ever adds calls after those already made. */
  lemma {:induction false} LayersExtend(args: seq<Arg>, last: nat, calls: seq<BuildCall>, push: PushOracle)
    requires last < |args|
    ensures Layers(args, last, calls, push).Success? ==> calls <= Layers(args, last, calls, push).value
    decreases last
  {
    if last > 1 {
      var interface := AsInterface(args[last - 1]);
      var sector := AsSector(args[last - 2]);
      if interface.Success? && sector.Success? {
        var layer := LayerCall(interface.value, sector.value);
        LayersExtend(args, last - 2, calls + [layer], push);
      }
    }
  }

  /**
   * An opening `new` rejects is the error it raises; otherwise the first call
   * creates the geometry from the bottom sector.
   */
  lemma BuildOpens(args: seq<Arg>, push: PushOracle)
    ensures StartFixed(args).Failure? ==> Build(args, push) == Failure(StartFixed(args).error)
    ensures Build(args, push).Success? ==>
      |Build(args, push).value| > 0 && Build(args, push).value[0] == CreateCall(StartFixed(args).value.sector)
  {
    var start := StartFixed(args);
    if start.Success? {
      var calls := [CreateCall(start.value.sector)]
        + if start.value.bottom.Some? then [BottomCall(start.value.bottom.value)] else [];
      LayersExtend(args, start.value.last, calls, push);
    }
  }

  /**
   * `StratifiedGeometry.__new__`: the geometry built by the loop over the
   * arguments is the one the parser describes, and it fails where and as the
   * parser does.
   */
  method NewStratified(args: seq<Arg>, push: PushOracle) returns (r: Result<StratifiedGeometry, Error>)
    ensures r.Failure? <==> Build(args, push).Failure?
    ensures r.Failure? ==> r.error == Build(args, push).error
    ensures r.Success? ==> fresh(r.value) && r.value.push == push && r.value.calls == Build(args, push).value
  {
    var start :- StartFixed(args);
    var inner := new StratifiedGeometry(start.sector, push);
    if start.bottom.Some? {
      inner.SetBottom(start.bottom.value);
    }
    ghost var opening := [CreateCall(start.sector)] + if start.bottom.Some? then [BottomCall(start.bottom.value)] else [];
    assert inner.calls == opening;
    assert Build(args, push) == Layers(args, start.last, opening, push);
    var outcome := PushAll(inner, args, start.last);
    if outcome.Fail? {
      return Failure(outcome.error);
    }
    return Success(inner);
  }

  /**
   * The loop of `new` and the top that follows it, on a geometry opened at
   * the sector at index `last`: it stops at the first argument of the wrong
   * type or the first layer the engine rejects.
   */
  method PushAll(inner: StratifiedGeometry, args: seq<Arg>, last: nat) returns (r: Outcome<Error>)
    requires last < |args|
    modifies inner
    ensures var built := Layers(args, last, old(inner.calls), inner.push);
      && (r.Fail? <==> built.Failure?)
      && (r.Fail? ==> r.error == built.error)
      && (r.Pass? ==> inner.calls == built.value)
  {
    ghost var built := Layers(args, last, inner.calls, inner.push);
    var at: nat := last;
    while at > 1
      invariant at < |args|
      invariant Layers(args, at, inner.calls, inner.push) == built
      decreases at
    {
      var interface := AsInterface(args[at - 1]);
      if interface.Failure? {
        return Fail(interface.error);
      }
      var sector := AsSector(args[at - 2]);
      if sector.Failure? {
        return Fail(sector.error);
      }
      var pushed := inner.PushLayer(interface.value, sector.value);
      if pushed.Fail? {
        return pushed;
      }
      at := at - 2;
    }
    if at == 1 {
      var top := AsInterface(args[0]);
      if top.Failure? {
        return Fail(top.error);
      }
      inner.SetTop(top.value);
    }
    return Pass;
  }

  // ---------------------------------------------------------------------------------------------
  // The grammar, read forwards.
  // ---------------------------------------------------------------------------------------------

  /**
   * A stratified geometry as Python spells it: an optional top interface,
   * the sectors from top to bottom with an interface between each two, and
   * an optional bottom interface.
   */
  datatype Layout = Layout(
    top: Option<PyTopographyInterface>,
    sectors: seq<GeometrySector>,
    interfaces: seq<PyTopographyInterface>,
    bottom: Option<PyTopographyInterface>)
  {
    ghost predicate WellFormed() {
      |sectors| > 0 && |interfaces| == |sectors| - 1
    }
  }

  /** The sectors alternating with the interfaces between them. */
  function Body(sectors: seq<GeometrySector>, interfaces: seq<PyTopographyInterface>): (r: seq<Arg>)
    requires |sectors| > 0 && |interfaces| == |sectors| - 1
    ensures |r| == 2 * |sectors| - 1
    ensures forall k :: 0 <= k < |sectors| ==> r[2 * k] == SectorArg(sectors[k])
    ensures forall k :: 0 <= k < |interfaces| ==> r[2 * k + 1] == InterfaceArg(interfaces[k])
    decreases |sectors|
  {
    if |sectors| == 1 then [SectorArg(sectors[0])]
    else
      Body(sectors[..|sectors| - 1], interfaces[..|interfaces| - 1])
        + [InterfaceArg(interfaces[|interfaces| - 1]), SectorArg(sectors[|sectors| - 1])]
  }

  /** The argument list of a layout. */
  function Render(l: Layout): (args: seq<Arg>)
    requires l.WellFormed()
  {
    (if l.top.Some? then [InterfaceArg(l.top.value)] else [])
      + Body(l.sectors, l.interfaces)
      + (if l.bottom.Some? then [InterfaceArg(l.bottom.value)] else [])
  }

  /** The layers pushed for sectors 0..k, from the bottom one (k) upwards: sector k - 1 over interface k - 1, and so on. */
  function Pushes(sectors: seq<GeometrySector>, interfaces: seq<PyTopographyInterface>, k: nat): seq<BuildCall>
    requires k < |sectors| && |interfaces| == |sectors| - 1
  {
    if k == 0 then []
    else [LayerCall(ToInterface(interfaces[k - 1]), sectors[k - 1])] + Pushes(sectors, interfaces, k - 1)
  }

  /** The calls a layout asks of the builder: the bottom sector, the bottom interface, the layers bottom-up, the top. */
  function Expected(l: Layout): seq<BuildCall>
    requires l.WellFormed()
  {
    Opening(l)
      + Pushes(l.sectors, l.interfaces, |l.sectors| - 1)
      + (if l.top.Some? then [TopCall(ToInterface(l.top.value))] else [])
  }

  /** The calls that open a layout's geometry: its bottom sector, then its bottom interface if it has one. */
  function Opening(l: Layout): seq<BuildCall>
    requires l.WellFormed()
  {
    [CreateCall(l.sectors[|l.sectors| - 1])] + (if l.bottom.Some? then [BottomCall(ToInterface(l.bottom.value))] else [])
  }

  /** Where a layout's bottom sector sits in its arguments. */
  function BottomSector(l: Layout): nat
    requires l.WellFormed()
  {
    (if l.top.Some? then 1 else 0) + 2 * (|l.sectors| - 1)
  }

  /** Concatenation regroups. */
  lemma Regroup<T>(a: seq<T>, b: seq<T>, c: seq<T>)
    ensures a + b + c == a + (b + c)
  {
  }

  /**
   * From index t on, the arguments alternate sector 0, interface 0, sector 1,
   * ..., up to sector k exclusive, and index t + 2k is inside the list.
   */
  ghost predicate Alternates(args: seq<Arg>, t: nat, sectors: seq<GeometrySector>, interfaces: seq<PyTopographyInterface>,
                             k: nat)
    requires k < |sectors| && |interfaces| == |sectors| - 1
    decreases k
  {
    && t + 2 * k < |args|
    && (k > 0 ==>
          && args[t + 2 * (k - 1)] == SectorArg(sectors[k - 1])
          && args[t + 2 * (k - 1) + 1] == InterfaceArg(interfaces[k - 1])
          && Alternates(args, t, sectors, interfaces, k - 1))
  }

  /** The alternation, read off a list that has it at every index. */
  lemma {:induction false} AlternatesAt(args: seq<Arg>, t: nat, sectors: seq<GeometrySector>,
                                        interfaces: seq<PyTopographyInterface>, k: nat)
    requires k < |sectors| && |interfaces| == |sectors| - 1 && t + 2 * k < |args|
    requires forall j :: 0 <= j < k ==> args[t + 2 * j] == SectorArg(sectors[j])
    requires forall j :: 0 <= j < k ==> args[t + 2 * j + 1] == InterfaceArg(interfaces[j])
    ensures Alternates(args, t, sectors, interfaces, k)
    decreases k
  {
    if k > 0 {
      AlternatesAt(args, t, sectors, interfaces, k - 1);
    }
  }

  /**
   * From the sector at index t + 2k of arguments that alternate sector,
   * interface, sector, ... from index t on (after a top interface when t is
   * 1), the loop pushes those k layers bottom-up and ends with the top.
   */
  lemma {:induction false} LayersAlternate(args: seq<Arg>, t: nat, sectors: seq<GeometrySector>,
                                           interfaces: seq<PyTopographyInterface>, k: nat,
                                           calls: seq<BuildCall>, push: PushOracle)
    requires t <= 1 && k < |sectors| && |interfaces| == |sectors| - 1
    requires t == 1 ==> 0 < |args| && args[0].InterfaceArg?
    requires Alternates(args, t, sectors, interfaces, k)
    requires forall c, i, s :: push(c, i, s) == Pass
    ensures Layers(args, t + 2 * k, calls, push) ==
      Success(calls + Pushes(sectors, interfaces, k) + (if t == 1 then [TopCall(ToInterface(args[0].interface))] else []))
    decreases k
  {
    if k == 0 {
      var tail := if t == 1 then [TopCall(ToInterface(args[0].interface))] else [];
      assert Pushes(sectors, interfaces, 0) == [];
      assert calls + Pushes(sectors, interfaces, 0) + tail == calls + tail;
      LayersEnd(args, t, calls, push);
    } else {
      var j := k - 1;
      var layer := LayerCall(ToInterface(interfaces[j]), sectors[j]);
      LayersStep(args, t + 2 * k, t + 2 * j, calls, push, interfaces[j], sectors[j]);
      LayersAlternate(args, t, sectors, interfaces, j, calls + [layer], push);
      PushesStep(sectors, interfaces, k);
      Regroup(calls, [layer], Pushes(sectors, interfaces, j));
    }
  }

  /** The layers pushed first are the highest-indexed ones below the top. */
  lemma PushesStep(sectors: seq<GeometrySector>, interfaces: seq<PyTopographyInterface>, k: nat)
    requires 0 < k < |sectors| && |interfaces| == |sectors| - 1
    ensures Pushes(sectors, interfaces, k) ==
      [LayerCall(ToInterface(interfaces[k - 1]), sectors[k - 1])] + Pushes(sectors, interfaces, k - 1)
  {
  }

  /** The loop's end: nothing, or the top interface when there is one at index 0. */
  lemma LayersEnd(args: seq<Arg>, t: nat, calls: seq<BuildCall>, push: PushOracle)
    requires t <= 1 && t < |args| && (t == 1 ==> args[0].InterfaceArg?)
    ensures Layers(args, t, calls, push) ==
      Success(calls + (if t == 1 then [TopCall(ToInterface(args[0].interface))] else []))
  {
    if t == 1 {
      assert AsInterface(args[0]) == Success(ToInterface(args[0].interface));
    } else {
      assert calls + [] == calls;
    }
  }

  /** One round of the loop: an interface above a sector, pushed as a layer. */
  lemma LayersStep(args: seq<Arg>, last: nat, below: nat, calls: seq<BuildCall>, push: PushOracle,
                   interface: PyTopographyInterface, sector: GeometrySector)
    requires last < |args| && below + 2 == last
    requires args[last - 1] == InterfaceArg(interface) && args[below] == SectorArg(sector)
    requires forall c, i, s :: push(c, i, s) == Pass
    ensures Layers(args, last, calls, push) ==
      Layers(args, below, calls + [LayerCall(ToInterface(interface), sector)], push)
  {
    assert AsInterface(args[last - 1]) == Success(ToInterface(interface));
    assert AsSector(args[last - 2]) == Success(sector);
    assert push(calls, ToInterface(interface), sector) == Pass;
  }

  /** Where each part of a layout lands in an argument list, as it does in the layout's own rendering. */
  ghost predicate Renders(args: seq<Arg>, l: Layout)
    requires l.WellFormed()
  {
    var t, k := (if l.top.Some? then 1 else 0), |l.sectors| - 1;
    && |args| == t + 2 * k + 1 + (if l.bottom.Some? then 1 else 0)
    && (l.top.Some? ==> args[0] == InterfaceArg(l.top.value))
    && (forall j :: 0 <= j <= k ==> args[t + 2 * j] == SectorArg(l.sectors[j]))
    && (forall j :: 0 <= j < k ==> args[t + 2 * j + 1] == InterfaceArg(l.interfaces[j]))
    && (l.bottom.Some? ==> args[|args| - 1] == InterfaceArg(l.bottom.value))
  }

  /** A layout's rendering has the layout's shape. */
  lemma RenderAt(l: Layout)
    requires l.WellFormed()
    ensures Renders(Render(l), l)
  {
    var args := Render(l);
    var t := if l.top.Some? then 1 else 0;
    var body := Body(l.sectors, l.interfaces);
    var k := |l.sectors| - 1;
    assert args == (if l.top.Some? then [InterfaceArg(l.top.value)] else []) + body
      + (if l.bottom.Some? then [InterfaceArg(l.bottom.value)] else []);
    forall j | 0 <= j <= k
      ensures args[t + 2 * j] == SectorArg(l.sectors[j])
    {
      assert args[t + 2 * j] == body[2 * j];
    }
    forall j | 0 <= j < k
      ensures args[t + 2 * j + 1] == InterfaceArg(l.interfaces[j])
    {
      assert args[t + 2 * j + 1] == body[2 * j + 1];
    }
  }

  /**
   * Past its opening, `new` is the loop over the layers: for a list whose
   * bottom sector sits at `last`, under an optional bottom interface.
   */
  lemma BuildFrom(args: seq<Arg>, push: PushOracle, last: nat, sector: GeometrySector,
                  bottom: Option<PyTopographyInterface>)
    requires last < |args| && args[last] == SectorArg(sector)
    requires last == |args| - (if bottom.Some? then 2 else 1)
    requires bottom.Some? ==> args[|args| - 1] == InterfaceArg(bottom.value)
    ensures Build(args, push) ==
      Layers(args, last, [CreateCall(sector)] + (if bottom.Some? then [BottomCall(ToInterface(bottom.value))] else []), push)
  {
    if bottom.Some? {
      assert AsInterface(args[|args| - 1]) == Success(ToInterface(bottom.value));
    }
    assert StartFixed(args) == Success(Start(last, sector, if bottom.Some? then Some(ToInterface(bottom.value)) else None));
  }

  /**
   * The grammar and the parser agree: the arguments of any well-formed
   * layout parse, with an engine that accepts every layer, into the layout's
   * calls, bottom sector first and top interface last.
   */
  lemma RenderParses(l: Layout, push: PushOracle)
    requires l.WellFormed()
    requires forall c, i, s :: push(c, i, s) == Pass
    ensures Build(Render(l), push) == Success(Expected(l))
  {
    RenderAt(l);
    AlternatesAt(Render(l), if l.top.Some? then 1 else 0, l.sectors, l.interfaces, |l.sectors| - 1);
    RenderedLayers(Render(l), l, push);
    RenderedOpens(Render(l), l, push);
  }

  /**
   * From its bottom sector, the loop pushes the layers of arguments that
   * alternate like a layout's bottom-up, and ends with the layout's top.
   */
  lemma RenderedLayers(args: seq<Arg>, l: Layout, push: PushOracle)
    requires l.WellFormed()
    requires Alternates(args, if l.top.Some? then 1 else 0, l.sectors, l.interfaces, |l.sectors| - 1)
    requires l.top.Some? ==> args[0] == InterfaceArg(l.top.value)
    requires forall c, i, s :: push(c, i, s) == Pass
    ensures BottomSector(l) < |args|
    ensures Layers(args, BottomSector(l), Opening(l), push) == Success(Expected(l))
  {
    var t, k := (if l.top.Some? then 1 else 0), |l.sectors| - 1;
    LayersTo(args, t, l.sectors, l.interfaces, k, Opening(l), push, BottomSector(l), Expected(l));
  }

  /** `LayersAlternate`, with the loop's start and its result named. */
  lemma LayersTo(args: seq<Arg>, t: nat, sectors: seq<GeometrySector>, interfaces: seq<PyTopographyInterface>, k: nat,
                 calls: seq<BuildCall>, push: PushOracle, last: nat, expected: seq<BuildCall>)
    requires t <= 1 && k < |sectors| && |interfaces| == |sectors| - 1
    requires t == 1 ==> 0 < |args| && args[0].InterfaceArg?
    requires Alternates(args, t, sectors, interfaces, k)
    requires forall c, i, s :: push(c, i, s) == Pass
    requires last == t + 2 * k
    requires expected == calls + Pushes(sectors, interfaces, k) + (if t == 1 then [TopCall(ToInterface(args[0].interface))] else [])
    ensures last < |args| && Layers(args, last, calls, push) == Success(expected)
  {
    LayersAlternate(args, t, sectors, interfaces, k, calls, push);
  }

  /** The opening of a layout's arguments is its bottom sector and bottom interface, and the loop starts above them. */
  lemma RenderedOpens(args: seq<Arg>, l: Layout, push: PushOracle)
    requires l.WellFormed() && Renders(args, l)
    ensures BottomSector(l) < |args|
    ensures Build(args, push) == Layers(args, BottomSector(l), Opening(l), push)
  {
    BuildFrom(args, push, BottomSector(l), l.sectors[|l.sectors| - 1], l.bottom);
  }
}
