/**
 * Geometry objects of the Python binding (src/python/geometry.rs): sectors
 * and their `repr`, the simple geometry's density accessors, and the
 * `locate` and `trace` sweeps of an external geometry over an abstract
 * tracer.
 */
module Geometry {
  import opened Wrappers
  import opened Errors
  import opened Strides
  import opened NdArrays
  import opened Photons

  /** An engine material definition; only its identity matters here. */
  datatype MaterialDefinition = MaterialDefinition(name: string)

  /** An engine density model; its parameters are left abstract. */
  datatype DensityModel = DensityModel(parameters: seq<real>)

  /** A sector of an engine geometry: a material index, a density and an optional description. */
  datatype Sector = Sector(material: nat, density: DensityModel, description: Option<string>)

  // ---------------------------------------------------------------------------------------------
  // `GeometrySector.__repr__`.
  // ---------------------------------------------------------------------------------------------

  /**
   * The text of `GeometrySector(<material>, <density>)`, with `, '<description>'`
   * before the closing parenthesis when there is a description. The two
   * reprs are those of the Python objects, either of which may fail, the
   * material's first.
   */
  function SectorRepr(material: Result<string, Error>, density: Result<string, Error>,
                      description: Option<string>): (r: Result<string, Error>)
    ensures material.Failure? ==> r == Failure(material.error)
    ensures material.Success? && density.Failure? ==> r == Failure(density.error)
    ensures r.Success? <==> material.Success? && density.Success?
    ensures r.Success? ==> (
      var m, d, s := material.value, density.value, r.value;
      var tail := if description.None? then ")" else ", '" + description.value + "')";
      && |s| == 15 + |m| + 2 + |d| + |tail|
      && s[..15] == "GeometrySector("
      && s[15..15 + |m|] == m
      && s[15 + |m|..15 + |m| + 2] == ", "
      && s[15 + |m| + 2..15 + |m| + 2 + |d|] == d
      && s[15 + |m| + 2 + |d|..] == tail)
  {
    var m :- material;
    var d :- density;
    var tail := if description.None? then ")" else ", '" + description.value + "')";
    var s := "GeometrySector(" + m + ", " + d + tail;
    assert s[..15] == "GeometrySector(";
    assert s[15..15 + |m|] == m;
    assert s[15 + |m|..15 + |m| + 2] == ", ";
    assert s[15 + |m| + 2..15 + |m| + 2 + |d|] == d;
    assert s[15 + |m| + 2 + |d|..] == tail;
    Success(s)
  }

  /** The text loses nothing: with the same material and density reprs it tells the descriptions apart. */
  lemma ReprDescription(m: string, d: string, description1: Option<string>, description2: Option<string>)
    requires SectorRepr(Success(m), Success(d), description1) == SectorRepr(Success(m), Success(d), description2)
    ensures description1 == description2
  {
    var s := SectorRepr(Success(m), Success(d), description1).value;
    var tail1 := if description1.None? then ")" else ", '" + description1.value + "')";
    var tail2 := if description2.None? then ")" else ", '" + description2.value + "')";
    assert tail1 == s[15 + |m| + 2 + |d|..] == tail2;
    if description1.Some? && description2.Some? {
      assert description1.value == tail1[3..|tail1| - 2];
      assert description2.value == tail2[3..|tail2| - 2];
    }
  }

  // ---------------------------------------------------------------------------------------------
  // `SimpleGeometry`.
  // ---------------------------------------------------------------------------------------------

  /** A geometry of one sector filling all space. */
  class SimpleGeometry {
    const materials: seq<MaterialDefinition>
    var sectors: seq<Sector>

    ghost predicate Valid()
      reads this
    {
      |materials| > 0 && |sectors| > 0
    }

    /** The engine's constructor: one material and the one sector made of it. */
    constructor (material: MaterialDefinition, density: DensityModel)
      ensures Valid() && materials == [material] && sectors == [Sector(0, density, None)]
    {
      materials := [material];
      sectors := [Sector(0, density, None)];
    }

    /** `density`: the density of the first sector. */
    function GetDensity(): (d: DensityModel)
      reads this
      requires Valid()
      ensures d == sectors[0].density
    {
      sectors[0].density
    }

    /** Setting `density` replaces the first sector's density and nothing else. */
    method SetDensity(value: DensityModel)
      requires Valid()
      modifies this
      ensures Valid() && GetDensity() == value
      ensures sectors == old(sectors)[0 := old(sectors)[0].(density := value)]
    {
      sectors := sectors[0 := sectors[0].(density := value)];
    }

    /** `material`: the first material. */
    function GetMaterial(): (m: MaterialDefinition)
      reads this
      requires Valid()
      ensures m == materials[0]
    {
      materials[0]
    }
  }

  // ---------------------------------------------------------------------------------------------
  // The tracer of an external geometry, as an oracle.
  // ---------------------------------------------------------------------------------------------

  /**
   * The engine's `ExternalTracer`, over an abstract tracer state: `reset`
   * places it, `sector` names the sector it is in (none once outside),
   * `trace` gives the next step length given the remaining length (none:
   * unbounded), `update` moves it along, `position` is where it is.
   * `rank` is a measure that every move lowers; it stands for the fact that
   * a ride through the geometry ends.
   */
  /** The state of a tracer, identified by a number; what it holds is the engine's. */
  type TracerState = nat

  datatype Tracer = Tracer(
    reset: (Float3, Float3) -> Result<TracerState, Error>,
    sector: TracerState -> Option<nat>,
    trace: (TracerState, Option<real>) -> Result<real, Error>,
    update: (TracerState, real, Float3) -> Result<TracerState, Error>,
    position: TracerState -> Float3,
    rank: TracerState -> nat)

  /** The tracer only names sectors below `m`, and every move lowers its rank. */
  ghost predicate TracerValid(tr: Tracer, m: nat)
  {
    SectorsIn(tr, m) && RankFalls(tr)
  }

  ghost predicate SectorsIn(tr: Tracer, m: nat)
  {
    forall s :: tr.sector(s).Some? ==> tr.sector(s).value < m
  }

  ghost predicate RankFalls(tr: Tracer)
  {
    forall s, l, d :: tr.update(s, l, d).Success? ==> tr.rank(tr.update(s, l, d).value) < tr.rank(s)
  }

  /** The column depth a density model gives a step from a position along a direction. */
  type ColumnDepth = (DensityModel, Float3, Float3, real) -> real

  /** How one pass of a particle's loop ends: an error, the last step, or a move to tracer state `next`. */
  datatype Advance = Stopped(error: Error) | Finished | Moved(next: TracerState, left: Option<real>)

  /** One step of a ride: the sector, its length and what it adds to that sector's bin. */
  datatype Step = Step(sector: nat, length: real, amount: real)

  function Remaining(remaining: Option<real>, step: real): Option<real>
  {
    if remaining.Some? then Some(remaining.value - step) else None
  }

  /**
   * The steps of one ride from tracer state `t`: while inside, trace a step,
   * record it (its length, or the column depth when `density` is set), stop
   * once a bounded remaining length is used up, otherwise move on.
   */
  function Ride(tr: Tracer, m: nat, depth: ColumnDepth, sectors: seq<Sector>, density: bool,
                   t: TracerState, direction: Float3, remaining: Option<real>): (r: Result<seq<Step>, Error>)
    requires TracerValid(tr, m) && m <= |sectors|
    ensures tr.sector(t).None? ==> r == Success([])
    ensures r.Success? ==> forall k :: 0 <= k < |r.value| ==> r.value[k].sector < m
    decreases tr.rank(t)
  {
    match tr.sector(t)
    case None => Success([])
    case Some(sector) =>
      var length :- tr.trace(t, remaining);
      var step := Step(sector, length, Amount(depth, sectors, density, sector, tr.position(t), direction, length));
      if remaining.Some? && remaining.value - length <= 0.0 then Success([step])
      else
        var next :- tr.update(t, length, direction);
        var rest :- Ride(tr, m, depth, sectors, density, next, direction, Remaining(remaining, length));
        Success([step] + rest)
  }

  function LengthSum(steps: seq<Step>): real
  {
    if |steps| == 0 then 0.0 else LengthSum(steps[..|steps| - 1]) + steps[|steps| - 1].length
  }

  lemma LengthSumCons(step: Step, rest: seq<Step>)
    ensures LengthSum([step] + rest) == step.length + LengthSum(rest)
    decreases |rest|
  {
    if |rest| > 0 {
      var n := |rest| - 1;
      assert ([step] + rest)[..n + 1] == [step] + rest[..n];
      LengthSumCons(step, rest[..n]);
    }
  }

  /**
   * A bounded ride stops at its first step that uses the remaining length
   * up: before every later step some length was still left.
   */
  lemma {:induction false} RideStops(tr: Tracer, m: nat, depth: ColumnDepth, sectors: seq<Sector>,
                                         density: bool, t: TracerState, direction: Float3, remaining: real)
    requires TracerValid(tr, m) && m <= |sectors|
    requires Ride(tr, m, depth, sectors, density, t, direction, Some(remaining)).Success?
    ensures var steps := Ride(tr, m, depth, sectors, density, t, direction, Some(remaining)).value;
      forall k :: 0 < k < |steps| ==> remaining - LengthSum(steps[..k]) > 0.0
    decreases tr.rank(t)
  {
    var steps := Ride(tr, m, depth, sectors, density, t, direction, Some(remaining)).value;
    if tr.sector(t).Some? {
      var length := tr.trace(t, Some(remaining)).value;
      if remaining - length > 0.0 {
        var next := tr.update(t, length, direction).value;
        var rest := Ride(tr, m, depth, sectors, density, next, direction, Some(remaining - length)).value;
        RideStops(tr, m, depth, sectors, density, next, direction, remaining - length);
        assert steps == [steps[0]] + rest;
        forall k | 0 < k < |steps| ensures remaining - LengthSum(steps[..k]) > 0.0 {
          assert steps[..k] == [steps[0]] + rest[..k - 1];
          LengthSumCons(steps[0], rest[..k - 1]);
        }
      }
    }
  }

  // ---------------------------------------------------------------------------------------------
  // Binning the steps per sector.
  // ---------------------------------------------------------------------------------------------

  ghost predicate SectorsBelow(steps: seq<Step>, m: nat)
  {
    forall k :: 0 <= k < |steps| ==> steps[k].sector < m
  }

  /** The bins as the loop fills them: each step adds its amount to its sector's bin. */
  function Bin(steps: seq<Step>, m: nat): (bins: seq<real>)
    requires SectorsBelow(steps, m)
    ensures |bins| == m
  {
    if |steps| == 0 then seq(m, _ => 0.0)
    else
      var last := steps[|steps| - 1];
      var bins := Bin(steps[..|steps| - 1], m);
      bins[last.sector := bins[last.sector] + last.amount]
  }

  /** The total of the amounts spent in sector j, an independent account of one bin. */
  function SectorTotal(steps: seq<Step>, j: nat): real
  {
    if |steps| == 0 then 0.0
    else
      var last := steps[|steps| - 1];
      SectorTotal(steps[..|steps| - 1], j) + (if last.sector == j then last.amount else 0.0)
  }

  function AmountSum(steps: seq<Step>): real
  {
    if |steps| == 0 then 0.0 else AmountSum(steps[..|steps| - 1]) + steps[|steps| - 1].amount
  }

  function RealSum(v: seq<real>): real
  {
    if |v| == 0 then 0.0 else RealSum(v[..|v| - 1]) + v[|v| - 1]
  }

  /** Each bin holds the total spent in its sector. */
  lemma {:induction false} BinIsSectorTotal(steps: seq<Step>, m: nat, j: nat)
    requires SectorsBelow(steps, m) && j < m
    ensures Bin(steps, m)[j] == SectorTotal(steps, j)
  {
    if |steps| > 0 {
      BinIsSectorTotal(steps[..|steps| - 1], m, j);
    }
  }

  /** A sector the ride never entered has an empty bin. */
  lemma {:induction false} UnvisitedIsZero(steps: seq<Step>, m: nat, j: nat)
    requires SectorsBelow(steps, m) && j < m
    requires forall k :: 0 <= k < |steps| ==> steps[k].sector != j
    ensures Bin(steps, m)[j] == 0.0
  {
    if |steps| > 0 {
      UnvisitedIsZero(steps[..|steps| - 1], m, j);
    }
  }

  lemma RealSumUpdate(v: seq<real>, j: nat, x: real)
    requires j < |v|
    ensures RealSum(v[j := x]) == RealSum(v) - v[j] + x
    decreases |v|
  {
    var n := |v| - 1;
    if j < n {
      assert v[j := x][..n] == v[..n][j := x];
      RealSumUpdate(v[..n], j, x);
    } else {
      assert v[j := x][..n] == v[..n];
    }
  }

  lemma RealSumZeros(m: nat)
    ensures RealSum(seq(m, _ => 0.0)) == 0.0
  {
    if m > 0 {
      assert seq(m, _ => 0.0)[..m - 1] == seq(m - 1, _ => 0.0);
      RealSumZeros(m - 1);
    }
  }

  /** Binning loses nothing: the bins add up to the ride's total amount. */
  lemma {:induction false} BinTotal(steps: seq<Step>, m: nat)
    requires SectorsBelow(steps, m)
    ensures RealSum(Bin(steps, m)) == AmountSum(steps)
  {
    if |steps| == 0 {
      RealSumZeros(m);
    } else {
      var last := steps[|steps| - 1];
      var bins := Bin(steps[..|steps| - 1], m);
      BinTotal(steps[..|steps| - 1], m);
      RealSumUpdate(bins, last.sector, bins[last.sector] + last.amount);
    }
  }

  function Prepend(prefix: seq<Step>, r: Result<seq<Step>, Error>): Result<seq<Step>, Error>
  {
    if r.Failure? then r else Success(prefix + r.value)
  }

  lemma PrependNothing(r: Result<seq<Step>, Error>)
    ensures Prepend([], r) == r
  {
    if r.Success? {
      assert [] + r.value == r.value;
    }
  }

  lemma PrependPrepend(a: seq<Step>, b: seq<Step>, r: Result<seq<Step>, Error>)
    ensures Prepend(a, Prepend(b, r)) == Prepend(a + b, r)
  {
    if r.Success? {
      assert a + (b + r.value) == (a + b) + r.value;
    }
  }

  lemma BinSnoc(steps: seq<Step>, s: Step, m: nat)
    requires SectorsBelow(steps, m) && s.sector < m
    ensures SectorsBelow(steps + [s], m)
    ensures Bin(steps + [s], m) == Bin(steps, m)[s.sector := Bin(steps, m)[s.sector] + s.amount]
  {
    assert (steps + [s])[..|steps|] == steps;
  }

  /** What a step of `length` in `sector` adds to its bin: the column depth under `density`, else the length. */
  function Amount(depth: ColumnDepth, sectors: seq<Sector>, density: bool, sector: nat, position: Float3,
                  direction: Float3, length: real): real
    requires sector < |sectors|
  {
    if density then depth(sectors[sector].density, position, direction, length) else length
  }

  /** A ride whose first trace fails is that failure. */
  lemma RideTraceFails(tr: Tracer, m: nat, depth: ColumnDepth, sectors: seq<Sector>, density: bool,
                       t: TracerState, direction: Float3, remaining: Option<real>)
    requires TracerValid(tr, m) && m <= |sectors| && tr.sector(t).Some? && tr.trace(t, remaining).Failure?
    ensures Ride(tr, m, depth, sectors, density, t, direction, remaining) == Failure(tr.trace(t, remaining).error)
  {
  }

  /** A ride whose first step uses up the remaining length is that one step. */
  lemma RideEnds(tr: Tracer, m: nat, depth: ColumnDepth, sectors: seq<Sector>, density: bool,
                 t: TracerState, direction: Float3, remaining: Option<real>, length: real)
    requires TracerValid(tr, m) && m <= |sectors| && tr.sector(t).Some? && tr.trace(t, remaining) == Success(length)
    requires remaining.Some? && remaining.value - length <= 0.0
    ensures var sector := tr.sector(t).value;
      Ride(tr, m, depth, sectors, density, t, direction, remaining) ==
      Success([Step(sector, length, Amount(depth, sectors, density, sector, tr.position(t), direction, length))])
  {
  }

  /** A ride whose tracer fails to move after its first step is that failure. */
  lemma RideMoveFails(tr: Tracer, m: nat, depth: ColumnDepth, sectors: seq<Sector>, density: bool,
                      t: TracerState, direction: Float3, remaining: Option<real>, length: real)
    requires TracerValid(tr, m) && m <= |sectors| && tr.sector(t).Some? && tr.trace(t, remaining) == Success(length)
    requires !(remaining.Some? && remaining.value - length <= 0.0) && tr.update(t, length, direction).Failure?
    ensures Ride(tr, m, depth, sectors, density, t, direction, remaining) ==
      Failure(tr.update(t, length, direction).error)
  {
  }

  /** Otherwise a ride is its first step followed by the ride from where the tracer moved. */
  lemma RideMoves(tr: Tracer, m: nat, depth: ColumnDepth, sectors: seq<Sector>, density: bool,
                  t: TracerState, direction: Float3, remaining: Option<real>, length: real)
    requires TracerValid(tr, m) && m <= |sectors| && tr.sector(t).Some? && tr.trace(t, remaining) == Success(length)
    requires !(remaining.Some? && remaining.value - length <= 0.0) && tr.update(t, length, direction).Success?
    ensures var sector := tr.sector(t).value;
      Ride(tr, m, depth, sectors, density, t, direction, remaining) ==
      Prepend([Step(sector, length, Amount(depth, sectors, density, sector, tr.position(t), direction, length))],
              Ride(tr, m, depth, sectors, density, tr.update(t, length, direction).value, direction,
                   Remaining(remaining, length)))
  {
  }

  /** The loop's view of a ride: `done` so far, then the ride from t; one more step keeps it. */
  lemma RideAdvance(tr: Tracer, m: nat, depth: ColumnDepth, sectors: seq<Sector>, density: bool,
                    t0: TracerState, t: TracerState, direction: Float3, length: Option<real>,
                    remaining: Option<real>, step: real, done: seq<Step>)
    requires TracerValid(tr, m) && m <= |sectors| && tr.sector(t).Some? && tr.trace(t, remaining) == Success(step)
    requires !(remaining.Some? && remaining.value - step <= 0.0) && tr.update(t, step, direction).Success?
    requires Ride(tr, m, depth, sectors, density, t0, direction, length) ==
      Prepend(done, Ride(tr, m, depth, sectors, density, t, direction, remaining))
    ensures var sector := tr.sector(t).value;
      var next := tr.update(t, step, direction).value;
      && tr.rank(next) < tr.rank(t)
      && Ride(tr, m, depth, sectors, density, t0, direction, length) ==
         Prepend(done + [Step(sector, step, Amount(depth, sectors, density, sector, tr.position(t), direction, step))],
                 Ride(tr, m, depth, sectors, density, next, direction, Remaining(remaining, step)))
  {
    var sector := tr.sector(t).value;
    var s := Step(sector, step, Amount(depth, sectors, density, sector, tr.position(t), direction, step));
    var next := tr.update(t, step, direction).value;
    RideMoves(tr, m, depth, sectors, density, t, direction, remaining, step);
    PrependPrepend(done, [s], Ride(tr, m, depth, sectors, density, next, direction, Remaining(remaining, step)));
  }

  // ---------------------------------------------------------------------------------------------
  // `ExternalGeometry`.
  // ---------------------------------------------------------------------------------------------

  /** A geometry loaded from an external library; its tracer is an oracle. */
  class ExternalGeometry {
    const materials: seq<MaterialDefinition>
    const sectors: seq<Sector>

    /** The engine's loader hands over the materials and sectors. */
    constructor (materials: seq<MaterialDefinition>, sectors: seq<Sector>)
      ensures this.materials == materials && this.sectors == sectors
    {
      this.materials := materials;
      this.sectors := sectors;
    }

    /** The bins of one particle: the steps of its ride from where the tracer is reset, binned. */
    ghost function ParticleBins(tr: Tracer, depth: ColumnDepth, density: bool, state: PhotonState,
                                length: Option<real>): (r: Result<seq<real>, Error>)
      requires TracerValid(tr, |sectors|)
      ensures r.Success? ==> |r.value| == |sectors|
    {
      var t :- tr.reset(state.position, state.direction);
      RideBins(tr, depth, density, t, state.direction, length)
    }

    /** The bins of a ride from tracer state t. */
    ghost function RideBins(tr: Tracer, depth: ColumnDepth, density: bool, t: TracerState, direction: Float3,
                            length: Option<real>): (r: Result<seq<real>, Error>)
      requires TracerValid(tr, |sectors|)
      ensures r.Success? ==> |r.value| == |sectors|
    {
      var ride :- Ride(tr, |sectors|, depth, sectors, density, t, direction, length);
      Success(Bin(ride, |sectors|))
    }

    /** The bins of a ride known up to its unfinished `rest`. */
    lemma RideBinsOf(tr: Tracer, depth: ColumnDepth, density: bool, t: TracerState, direction: Float3,
                     length: Option<real>, done: seq<Step>, rest: Result<seq<Step>, Error>)
      requires TracerValid(tr, |sectors|)
      requires Ride(tr, |sectors|, depth, sectors, density, t, direction, length) == Prepend(done, rest)
      ensures rest.Failure? ==> RideBins(tr, depth, density, t, direction, length) == Failure(rest.error)
      ensures rest.Success? ==> RideBins(tr, depth, density, t, direction, length) == Success(Bin(done + rest.value, |sectors|))
    {
    }

    /** The `trace` result for the first n particles, their bins one after the other. */
    ghost function TraceBins(tr: Tracer, depth: ColumnDepth, density: bool, states: seq<CState>,
                             lengths: seq<Option<real>>, n: nat): (r: Result<seq<real>, Error>)
      requires TracerValid(tr, |sectors|) && n <= |states| && n <= |lengths|
      ensures r.Success? ==> |r.value| == n * |sectors|
    {
      if n == 0 then Success([])
      else
        var front :- TraceBins(tr, depth, density, states, lengths, n - 1);
        var bins :- ParticleBins(tr, depth, density, ToPhoton(states[n - 1]), lengths[n - 1]);
        Success(front + bins)
    }

    /** The sector every particle starts in, or m when it starts outside: `locate` for the first n. */
    ghost function LocateAll(tr: Tracer, states: seq<CState>, n: nat): (r: Result<seq<nat>, Error>)
      requires SectorsIn(tr, |sectors|) && n <= |states|
      ensures r.Success? ==> |r.value| == n && forall k :: 0 <= k < n ==> r.value[k] <= |sectors|
    {
      if n == 0 then Success([])
      else
        var front :- LocateAll(tr, states, n - 1);
        var state := ToPhoton(states[n - 1]);
        var t :- tr.reset(state.position, state.direction);
        Success(front + [tr.sector(t).GetOr(|sectors|)])
    }

    /** Once a particle fails, `locate` fails with its error whatever follows. */
    lemma {:induction false} LocateFailureStays(tr: Tracer, states: seq<CState>, i: nat, n: nat)
      requires SectorsIn(tr, |sectors|) && i <= n <= |states| && LocateAll(tr, states, i).Failure?
      ensures LocateAll(tr, states, n) == LocateAll(tr, states, i)
      decreases n
    {
      if n > i {
        LocateFailureStays(tr, states, i, n - 1);
      }
    }

    /** Once a particle fails, `trace` fails with its error whatever follows. */
    lemma {:induction false} TraceFailureStays(tr: Tracer, depth: ColumnDepth, density: bool, states: seq<CState>,
                                               lengths: seq<Option<real>>, i: nat, n: nat)
      requires TracerValid(tr, |sectors|) && i <= n <= |states| && n <= |lengths|
      requires TraceBins(tr, depth, density, states, lengths, i).Failure?
      ensures TraceBins(tr, depth, density, states, lengths, n) == TraceBins(tr, depth, density, states, lengths, i)
      decreases n
    {
      if n > i {
        TraceFailureStays(tr, depth, density, states, lengths, i, n - 1);
      }
    }

    /** What the loop of `locate` keeps: the states read as a sequence, and a row-major result of n cells. */
    ghost predicate LocateFrame(tr: Tracer, states: NdArray<CState>, located: NdArray<nat>, items: seq<CState>)
      reads states, states.buffer, located
    {
      && SectorsIn(tr, |sectors|) && states.Valid() && located.Valid() && located.Writeable()
      && |items| == Size(states.shape) == located.buffer.Length == Size(located.shape)
      && items == states.Prefix(|items|)
      && forall k: nat :: k < |items| ==> located.Position(k) == k
    }

    /** A particle whose tracer fails to reset, after particles that all succeed, is the error of `locate`. */
    lemma LocateStops(tr: Tracer, states: seq<CState>, i: nat, e: Error)
      requires SectorsIn(tr, |sectors|) && i < |states|
      requires LocateAll(tr, states, i).Success?
      requires tr.reset(ToPhoton(states[i]).position, ToPhoton(states[i]).direction) == Failure(e)
      ensures LocateAll(tr, states, |states|) == Failure(e)
    {
      LocateFailureStays(tr, states, i + 1, |states|);
    }

    /** One particle of `locate`: reset the tracer on state i and record its sector, m when outside. */
    method LocateOne(tr: Tracer, states: NdArray<CState>, located: NdArray<nat>, ghost items: seq<CState>, i: nat)
      returns (r: Outcome<Error>)
      requires LocateFrame(tr, states, located, items) && i < |items|
      requires LocateAll(tr, items, i) == Success(located.buffer[..i])
      modifies located.buffer
      ensures r.Fail? ==> LocateAll(tr, items, |items|) == Failure(r.error)
      ensures r.Pass? ==> LocateAll(tr, items, i + 1) == Success(located.buffer[..i + 1])
    {
      var state := ReadState(states, i);
      var photon := ToPhoton(state);
      var t := tr.reset(photon.position, photon.direction);
      if t.Failure? {
        LocateStops(tr, items, i, t.error);
        return Fail(t.error);
      }
      var sector := tr.sector(t.value).GetOr(|sectors|);
      ghost var before := located.buffer[..];
      var done := located.Set(i, sector);
      assert located.buffer[..i] == before[..i];
      assert located.buffer[..i + 1] == located.buffer[..i] + [sector];
      return Pass;
    }

    /**
     * `locate`: the start sector of every state, m for outside, in an array of
     * the states' shape; a tracer that cannot be made or reset is an error.
     */
    method Locate(tr: Tracer, tracerReady: Outcome<Error>, states: NdArray<CState>)
      returns (r: Result<NdArray<nat>, Error>)
      requires TracerValid(tr, |sectors|) && states.Valid()
      ensures !ShapeFits(states.shape) ==> r.Failure?
      ensures ShapeFits(states.shape) && tracerReady.Fail? ==> r == Failure(tracerReady.error)
      ensures ShapeFits(states.shape) && tracerReady.Pass? ==>
        var n := Size(states.shape);
        var spec := LocateAll(tr, old(states.Prefix(n)), n);
        && (r.Success? <==> spec.Success?)
        && (r.Failure? ==> r.error == spec.error)
        && (r.Success? ==> (fresh(r.value) && r.value.Valid() && r.value.shape == states.shape &&
              forall k: nat :: k < n ==> r.value.At(k) == spec.value[k]))
    {
      var n := Size(states.shape);
      ghost var items := states.Prefix(n);
      var located :- Empty<nat>(states.shape);
      if tracerReady.Fail? {
        return Failure(tracerReady.error);
      }
      assert states.Prefix(n) == items;
      r := LocateFill(tr, states, located, items);
    }

    /** `locate` once its result array exists: fill it, particle after particle. */
    method LocateFill(tr: Tracer, states: NdArray<CState>, located: NdArray<nat>, ghost items: seq<CState>)
      returns (r: Result<NdArray<nat>, Error>)
      requires SectorsIn(tr, |sectors|) && states.Valid() && located.Valid() && located.Writeable()
      requires located.shape == states.shape && located.buffer.Length == Size(states.shape)
      requires forall k: nat :: k < Size(located.shape) ==> located.Position(k) == k
      requires items == states.Prefix(Size(states.shape))
      modifies located.buffer
      ensures
        var spec := LocateAll(tr, items, |items|);
        && (r.Success? <==> spec.Success?)
        && (r.Failure? ==> r.error == spec.error)
        && (r.Success? ==> (r.value == located && forall k: nat :: k < |items| ==> located.At(k) == spec.value[k]))
    {
      assert LocateFrame(tr, states, located, items);
      var done := LocateLoop(tr, states, located, items);
      if done.Fail? {
        return Failure(done.error);
      }
      RowMajorItems(located, LocateAll(tr, items, |items|).value);
      return Success(located);
    }

    /** The loop of `locate`, over the particles in row-major order. */
    method LocateLoop(tr: Tracer, states: NdArray<CState>, located: NdArray<nat>, ghost items: seq<CState>)
      returns (r: Outcome<Error>)
      requires LocateFrame(tr, states, located, items)
      modifies located.buffer
      ensures r.Fail? ==> LocateAll(tr, items, |items|) == Failure(r.error)
      ensures r.Pass? ==> LocateAll(tr, items, |items|) == Success(located.buffer[..])
    {
      var n := Size(states.shape);
      var i := 0;
      while i < n
        invariant 0 <= i <= n
        invariant LocateAll(tr, items, i) == Success(located.buffer[..i])
      {
        var done := LocateOne(tr, states, located, items, i);
        if done.Fail? {
          return Fail(done.error);
        }
        i := i + 1;
      }
      assert located.buffer[..] == located.buffer[..n];
      return Pass;
    }

    /**
     * What the loop of `trace` keeps while it fills `result`: the states and
     * their lengths read as sequences, and a fresh row-major result of n * m cells.
     */
    ghost predicate TraceFrame(tr: Tracer, states: NdArray<CState>, lengths: Option<ArrayOrFloat>,
                               result: NdArray<real>, items: seq<CState>, lengthList: seq<Option<real>>)
      reads states, states.buffer, result
      reads if lengths.Some? && lengths.value.Array? then {lengths.value.items, lengths.value.items.buffer} else {}
    {
      && TracerValid(tr, |sectors|) && Particles(states, lengths, items, lengthList)
      && result.Valid() && result.Writeable()
      && (lengths.Some? && lengths.value.Array? ==> lengths.value.items.buffer != result.buffer)
      && result.buffer.Length == |items| * |sectors| == Size(result.shape)
      && forall k: nat :: k < result.buffer.Length ==> result.Position(k) == k
    }

    /** A particle whose bins fail, after particles that all succeed, is the error of `trace`. */
    lemma TraceStops(tr: Tracer, depth: ColumnDepth, density: bool, states: seq<CState>,
                     lengths: seq<Option<real>>, i: nat, e: Error)
      requires TracerValid(tr, |sectors|) && i < |states| == |lengths|
      requires TraceBins(tr, depth, density, states, lengths, i).Success?
      requires ParticleBins(tr, depth, density, ToPhoton(states[i]), lengths[i]) == Failure(e)
      ensures TraceBins(tr, depth, density, states, lengths, |states|) == Failure(e)
    {
      TraceBinsFails(tr, depth, density, states, lengths, i, e);
      TraceFailureStays(tr, depth, density, states, lengths, i + 1, |states|);
    }

    /** A particle whose bins fail, after particles that all succeed, fails the bins up to it. */
    lemma TraceBinsFails(tr: Tracer, depth: ColumnDepth, density: bool, states: seq<CState>,
                         lengths: seq<Option<real>>, i: nat, e: Error)
      requires TracerValid(tr, |sectors|) && i < |states| && i < |lengths|
      requires TraceBins(tr, depth, density, states, lengths, i).Success?
      requires ParticleBins(tr, depth, density, ToPhoton(states[i]), lengths[i]) == Failure(e)
      ensures TraceBins(tr, depth, density, states, lengths, i + 1) == Failure(e)
    {
    }

    /** One particle of `trace`: its bins, written after those of the particles before it. */
    method TraceOne(tr: Tracer, depth: ColumnDepth, density: bool, states: NdArray<CState>,
                    lengths: Option<ArrayOrFloat>, result: NdArray<real>,
                    ghost items: seq<CState>, ghost lengthList: seq<Option<real>>, i: nat)
      returns (r: Outcome<Error>)
      requires TraceProgress(tr, depth, density, states, lengths, result, items, lengthList, i) == true
      requires i < |items|
      modifies result.buffer
      ensures r.Fail? ==> TraceBins(tr, depth, density, items, lengthList, |items|) == Failure(r.error)
      ensures r.Pass? ==> TraceProgress(tr, depth, density, states, lengths, result, items, lengthList, i + 1) == true
    {
      var bins := ParticleAt(tr, depth, density, states, lengths, items, lengthList, i);
      if bins.Failure? {
        TraceStops(tr, depth, density, items, lengthList, i, bins.error);
        return Fail(bins.error);
      }
      MulStep(i, |items|, |sectors|);
      PutBins(tr, depth, density, states, lengths, result, items, lengthList, i, i * |sectors|, bins.value);
      return Pass;
    }

    /** The bins of particle i: its state and length read from the arrays, then its ride binned. */
    method ParticleAt(tr: Tracer, depth: ColumnDepth, density: bool, states: NdArray<CState>,
                      lengths: Option<ArrayOrFloat>, ghost items: seq<CState>, ghost lengthList: seq<Option<real>>,
                      i: nat) returns (r: Result<seq<real>, Error>)
      requires TracerValid(tr, |sectors|) && Particles(states, lengths, items, lengthList) && i < |items|
      ensures r == ParticleBins(tr, depth, density, ToPhoton(items[i]), lengthList[i])
    {
      var state, length := ReadParticle(states, lengths, items, lengthList, i);
      r := Grammages(tr, depth, density, ToPhoton(state), length);
    }

    /** The bins of particle i, written after those of the particles before it. */
    method PutBins(tr: Tracer, depth: ColumnDepth, density: bool, states: NdArray<CState>,
                   lengths: Option<ArrayOrFloat>, result: NdArray<real>,
                   ghost items: seq<CState>, ghost lengthList: seq<Option<real>>, i: nat, start: nat, bins: seq<real>)
      requires TraceProgress(tr, depth, density, states, lengths, result, items, lengthList, i) == true
      requires i < |items| && start == i * |sectors|
      requires start + |sectors| == (i + 1) * |sectors| <= |items| * |sectors|
      requires ParticleBins(tr, depth, density, ToPhoton(items[i]), lengthList[i]) == Success(bins)
      modifies result.buffer
      ensures TraceProgress(tr, depth, density, states, lengths, result, items, lengthList, i + 1) == true
    {
      ghost var front := result.buffer[..start];
      assert |bins| == |sectors|;
      WriteBins(result, start, bins);
      TraceBinsStep(tr, depth, density, items, lengthList, i, front, bins, result.buffer[..start + |sectors|]);
    }

    /** The bins of one more particle, after those of the particles before it. */
    lemma TraceBinsStep(tr: Tracer, depth: ColumnDepth, density: bool, states: seq<CState>,
                        lengths: seq<Option<real>>, i: nat, front: seq<real>, bins: seq<real>, written: seq<real>)
      requires TracerValid(tr, |sectors|) && i < |states| && i < |lengths|
      requires TraceBins(tr, depth, density, states, lengths, i) == Success(front)
      requires ParticleBins(tr, depth, density, ToPhoton(states[i]), lengths[i]) == Success(bins)
      requires written == front + bins
      ensures TraceBins(tr, depth, density, states, lengths, i + 1) == Success(written)
    {
    }

    /**
     * How far the loop of `trace` has come: the bins of the first i particles
     * are written. The loop keeps it as one fact, `TraceProgress(..) == true`,
     * rather than conjunct by conjunct.
     */
    ghost predicate TraceProgress(tr: Tracer, depth: ColumnDepth, density: bool, states: NdArray<CState>,
                                  lengths: Option<ArrayOrFloat>, result: NdArray<real>,
                                  items: seq<CState>, lengthList: seq<Option<real>>, i: nat)
      reads states, states.buffer, result, result.buffer
      reads if lengths.Some? && lengths.value.Array? then {lengths.value.items, lengths.value.items.buffer} else {}
    {
      && TraceFrame(tr, states, lengths, result, items, lengthList)
      && i <= |items| && i * |sectors| <= |items| * |sectors|
      && TraceBins(tr, depth, density, items, lengthList, i) == Success(result.buffer[..i * |sectors|])
    }

    /**
     * `trace`: for every state, the bins of its ride, laid out as an array of
     * the states' shape with one more dimension of m sectors. A length array
     * of the wrong size is refused first.
     */
    method Trace(tr: Tracer, tracerReady: Outcome<Error>, depth: ColumnDepth, states: NdArray<CState>,
                 lengths: Option<ArrayOrFloat>, density: Option<bool>) returns (r: Result<NdArray<real>, Error>)
      requires TracerValid(tr, |sectors|) && states.Valid()
      requires lengths.Some? && lengths.value.Array? ==> lengths.value.items.Valid()
      ensures LengthsMismatch(states, lengths) ==>
        r == Failure(BadLengths(Size(states.shape), lengths.value.Size()))
      ensures !LengthsMismatch(states, lengths) && !ShapeFits(states.shape + [|sectors|]) ==> r.Failure?
      ensures !LengthsMismatch(states, lengths) && ShapeFits(states.shape + [|sectors|]) && tracerReady.Fail? ==>
        r == Failure(tracerReady.error)
      ensures !LengthsMismatch(states, lengths) && ShapeFits(states.shape + [|sectors|]) && tracerReady.Pass? ==>
        var n := Size(states.shape);
        var spec := TraceBins(tr, depth, density.GetOr(false), old(states.Prefix(n)), old(LengthList(lengths, n)), n);
        && (r.Success? <==> spec.Success?)
        && (r.Failure? ==> r.error == spec.error)
        && (r.Success? ==> (fresh(r.value) && r.value.Valid() && r.value.shape == states.shape + [|sectors|] &&
              forall k: nat :: k < n * |sectors| ==> r.value.At(k) == spec.value[k]))
    {
      var n := Size(states.shape);
      if lengths.Some? && lengths.value.Array? && lengths.value.Size() != n {
        return Failure(BadLengths(n, lengths.value.Size()));
      }
      r := TraceChecked(tr, tracerReady, depth, states, lengths, density);
    }

    /** `trace` once the lengths are known to fit: make the result array, then fill it. */
    method TraceChecked(tr: Tracer, tracerReady: Outcome<Error>, depth: ColumnDepth, states: NdArray<CState>,
                        lengths: Option<ArrayOrFloat>, density: Option<bool>) returns (r: Result<NdArray<real>, Error>)
      requires TracerValid(tr, |sectors|) && states.Valid()
      requires lengths.Some? && lengths.value.Array? ==> lengths.value.items.Valid()
      requires !LengthsMismatch(states, lengths)
      ensures !ShapeFits(states.shape + [|sectors|]) ==> r.Failure?
      ensures ShapeFits(states.shape + [|sectors|]) && tracerReady.Fail? ==> r == Failure(tracerReady.error)
      ensures ShapeFits(states.shape + [|sectors|]) && tracerReady.Pass? ==>
        var n := Size(states.shape);
        var spec := TraceBins(tr, depth, density.GetOr(false), old(states.Prefix(n)), old(LengthList(lengths, n)), n);
        && (r.Success? <==> spec.Success?)
        && (r.Failure? ==> r.error == spec.error)
        && (r.Success? ==> (fresh(r.value) && r.value.Valid() && r.value.shape == states.shape + [|sectors|] &&
              forall k: nat :: k < n * |sectors| ==> r.value.At(k) == spec.value[k]))
    {
      var n := Size(states.shape);
      ghost var items := states.Prefix(n);
      ghost var lengthList := LengthList(lengths, n);
      var m := |sectors|;
      var result :- Empty<real>(states.shape + [m]);
      SizeAppend(states.shape, m);
      if tracerReady.Fail? {
        return Failure(tracerReady.error);
      }
      assert states.Prefix(n) == items && LengthList(lengths, n) == lengthList;
      r := TraceFill(tr, depth, density.GetOr(false), states, lengths, result, items, lengthList);
    }

    /** `trace` once its result array exists: fill it, particle after particle. */
    method TraceFill(tr: Tracer, depth: ColumnDepth, density: bool, states: NdArray<CState>,
                     lengths: Option<ArrayOrFloat>, result: NdArray<real>,
                     ghost items: seq<CState>, ghost lengthList: seq<Option<real>>)
      returns (r: Result<NdArray<real>, Error>)
      requires TracerValid(tr, |sectors|) && states.Valid() && result.Valid() && result.Writeable()
      requires lengths.Some? && lengths.value.Array? ==>
        lengths.value.items.Valid() && lengths.value.Size() == Size(states.shape) &&
        lengths.value.items.buffer != result.buffer
      requires result.shape == states.shape + [|sectors|]
      requires result.buffer.Length == Size(states.shape) * |sectors| == Size(result.shape)
      requires forall k: nat :: k < Size(result.shape) ==> result.Position(k) == k
      requires items == states.Prefix(Size(states.shape)) && lengthList == LengthList(lengths, Size(states.shape))
      modifies result.buffer
      ensures
        var n := Size(states.shape);
        var spec := TraceBins(tr, depth, density, items, lengthList, n);
        && (r.Success? <==> spec.Success?)
        && (r.Failure? ==> r.error == spec.error)
        && (r.Success? ==> (r.value == result && forall k: nat :: k < n * |sectors| ==> result.At(k) == spec.value[k]))
    {
      var n := Size(states.shape);
      assert TraceFrame(tr, states, lengths, result, items, lengthList);
      var done := TraceLoop(tr, depth, density, states, lengths, result, items, lengthList);
      if done.Fail? {
        return Failure(done.error);
      }
      ghost var bins := TraceBins(tr, depth, density, items, lengthList, n).value;
      RowMajorItems(result, bins);
      return Success(result);
    }

    /** The loop of `trace`, over the particles in row-major order. */
    method TraceLoop(tr: Tracer, depth: ColumnDepth, density: bool, states: NdArray<CState>,
                     lengths: Option<ArrayOrFloat>, result: NdArray<real>,
                     ghost items: seq<CState>, ghost lengthList: seq<Option<real>>)
      returns (r: Outcome<Error>)
      requires TraceFrame(tr, states, lengths, result, items, lengthList)
      modifies result.buffer
      ensures r.Fail? ==> TraceBins(tr, depth, density, items, lengthList, |items|) == Failure(r.error)
      ensures r.Pass? ==> TraceBins(tr, depth, density, items, lengthList, |items|) == Success(result.buffer[..|items| * |sectors|])
    {
      var n := Size(states.shape);
      var i: nat := 0;
      while i < n
        invariant i <= n && TraceProgress(tr, depth, density, states, lengths, result, items, lengthList, i) == true
      {
        var done := TraceOne(tr, depth, density, states, lengths, result, items, lengthList, i);
        if done.Fail? {
          return Fail(done.error);
        }
        i := i + 1;
      }
      return Pass;
    }
    /**
     * One particle's bins: reset the tracer on the state, then accumulate
     * every step of its ride into its sector's bin.
     */
    method Grammages(tr: Tracer, depth: ColumnDepth, density: bool, state: PhotonState,
                        length: Option<real>) returns (r: Result<seq<real>, Error>)
      requires TracerValid(tr, |sectors|)
      ensures r == ParticleBins(tr, depth, density, state, length)
    {
      var t :- tr.reset(state.position, state.direction);
      r := BinRide(tr, depth, density, t, state.direction, length);
    }

    /** The loop of one particle: step the tracer until it leaves, adding each step to its sector's bin. */
    method BinRide(tr: Tracer, depth: ColumnDepth, density: bool, t0: TracerState, direction: Float3,
                   length: Option<real>) returns (r: Result<seq<real>, Error>)
      requires TracerValid(tr, |sectors|)
      ensures r == RideBins(tr, depth, density, t0, direction, length)
    {
      var grammages: seq<real> := seq(|sectors|, _ => 0.0);
      var t := t0;
      ghost var done: seq<Step> := [];
      var remaining := length;
      PrependNothing(Ride(tr, |sectors|, depth, sectors, density, t, direction, remaining));
      while tr.sector(t).Some?
        invariant Riding(tr, depth, density, t0, direction, length, t, remaining, done, grammages)
        decreases tr.rank(t)
      {
        var advance, bins;
        ghost var after;
        advance, bins, after := RideStep(tr, depth, density, t0, direction, length, t, remaining, done, grammages);
        if advance.Stopped? {
          return Failure(advance.error);
        }
        if advance.Finished? {
          return Success(bins);
        }
        t, remaining, done, grammages := advance.next, advance.left, after, bins;
      }
      RideBinsOf(tr, depth, density, t0, direction, length, done, Success([]));
      assert done + [] == done;
      return Success(grammages);
    }

    /**
     * Where the loop of one particle stands: the steps `done` so far, binned
     * into `grammages`, and the rest of the ride from tracer state t.
     */
    ghost predicate Riding(tr: Tracer, depth: ColumnDepth, density: bool, t0: TracerState, direction: Float3,
                           length: Option<real>, t: TracerState, remaining: Option<real>, done: seq<Step>,
                           grammages: seq<real>)
    {
      && TracerValid(tr, |sectors|)
      && SectorsBelow(done, |sectors|)
      && grammages == Bin(done, |sectors|)
      && Ride(tr, |sectors|, depth, sectors, density, t0, direction, length) ==
         Prepend(done, Ride(tr, |sectors|, depth, sectors, density, t, direction, remaining))
    }

    /**
     * One pass of the loop of one particle, in the tracer's sector: trace a
     * step, add it to that sector's bin, stop when the remaining length is
     * used up, else move the tracer.
     */
    method RideStep(tr: Tracer, depth: ColumnDepth, density: bool, t0: TracerState, direction: Float3,
                    length: Option<real>, t: TracerState, remaining: Option<real>, ghost done: seq<Step>,
                    grammages: seq<real>)
      returns (advance: Advance, bins: seq<real>, ghost after: seq<Step>)
      requires tr.sector(t).Some? && Riding(tr, depth, density, t0, direction, length, t, remaining, done, grammages)
      ensures advance.Stopped? ==> RideBins(tr, depth, density, t0, direction, length) == Failure(advance.error)
      ensures advance.Finished? ==> RideBins(tr, depth, density, t0, direction, length) == Success(bins)
      ensures advance.Moved? ==>
        && tr.rank(advance.next) < tr.rank(t)
        && Riding(tr, depth, density, t0, direction, length, advance.next, advance.left, after, bins)
    {
      var m := |sectors|;
      var sector := tr.sector(t).value;
      var traced := tr.trace(t, remaining);
      if traced.Failure? {
        RideTraceFails(tr, m, depth, sectors, density, t, direction, remaining);
        RideBinsOf(tr, depth, density, t0, direction, length, done, Failure(traced.error));
        return Stopped(traced.error), grammages, done;
      }
      var step := traced.value;
      var amount := Amount(depth, sectors, density, sector, tr.position(t), direction, step);
      ghost var s := Step(sector, step, amount);
      bins := grammages[sector := grammages[sector] + amount];
      BinSnoc(done, s, m);
      after := done + [s];
      if remaining.Some? && remaining.value - step <= 0.0 {
        RideEnds(tr, m, depth, sectors, density, t, direction, remaining, step);
        RideBinsOf(tr, depth, density, t0, direction, length, done, Success([s]));
        return Finished, bins, after;
      }
      var moved := tr.update(t, step, direction);
      if moved.Failure? {
        RideMoveFails(tr, m, depth, sectors, density, t, direction, remaining, step);
        RideBinsOf(tr, depth, density, t0, direction, length, done, Failure(moved.error));
        return Stopped(moved.error), bins, after;
      }
      RideAdvance(tr, m, depth, sectors, density, t0, t, direction, length, remaining, step, done);
      return Moved(moved.value, Remaining(remaining, step)), bins, after;
    }
  }

  /** A length array whose size differs from the states'. */
  ghost predicate LengthsMismatch(states: NdArray<CState>, lengths: Option<ArrayOrFloat>)
  {
    lengths.Some? && lengths.value.Array? && lengths.value.Size() != Size(states.shape)
  }

  /** The remaining length particle k starts with: none, the one for all, or its own. */
  ghost function LengthOf(lengths: Option<ArrayOrFloat>, k: nat): Option<real>
    reads if lengths.Some? && lengths.value.Array? then {lengths.value.items, lengths.value.items.buffer} else {}
    requires lengths.Some? && lengths.value.Array? ==> lengths.value.items.Valid() && k < lengths.value.Size()
  {
    if lengths.None? then None
    else if lengths.value.Float? then Some(lengths.value.value)
    else Some(lengths.value.items.At(k))
  }

  /** The remaining lengths the first n particles start with. */
  ghost function LengthList(lengths: Option<ArrayOrFloat>, n: nat): (r: seq<Option<real>>)
    reads if lengths.Some? && lengths.value.Array? then {lengths.value.items, lengths.value.items.buffer} else {}
    requires lengths.Some? && lengths.value.Array? ==> lengths.value.items.Valid() && n <= lengths.value.Size()
    ensures |r| == n && forall k :: 0 <= k < n ==> r[k] == LengthOf(lengths, k)
  {
    if n == 0 then [] else LengthList(lengths, n - 1) + [LengthOf(lengths, n - 1)]
  }

  /**
   * `items` and `lengthList` are the particles of `trace` as its arrays hold
   * them, in row-major order: the states, and the remaining lengths they
   * start with, one per state when the lengths are an array.
   */
  ghost predicate Particles(states: NdArray<CState>, lengths: Option<ArrayOrFloat>,
                            items: seq<CState>, lengthList: seq<Option<real>>)
    reads states, states.buffer
    reads if lengths.Some? && lengths.value.Array? then {lengths.value.items, lengths.value.items.buffer} else {}
  {
    && states.Valid() && |items| == Size(states.shape) == |lengthList|
    && (lengths.Some? && lengths.value.Array? ==> lengths.value.items.Valid() && lengths.value.Size() == |items|)
    && forall k :: 0 <= k < |items| ==> items[k] == states.At(k) && lengthList[k] == LengthOf(lengths, k)
  }

  /** State i of a states array, read through its strides. */
  method ReadState(states: NdArray<CState>, i: nat) returns (state: CState)
    requires states.Valid() && i < Size(states.shape)
    ensures state == states.At(i)
  {
    var s := states.Get(i);
    assert s.Success?;
    state := s.value;
  }

  /** Particle i of `trace`: its state and the remaining length it starts with. */
  method ReadParticle(states: NdArray<CState>, lengths: Option<ArrayOrFloat>,
                      ghost items: seq<CState>, ghost lengthList: seq<Option<real>>, i: nat)
    returns (state: CState, length: Option<real>)
    requires Particles(states, lengths, items, lengthList) && i < |items|
    ensures state == items[i] && length == lengthList[i]
  {
    state := ReadState(states, i);
    length := None;
    if lengths.Some? {
      var l := lengths.value.Get(i);
      assert l.Success?;
      length := Some(l.value);
    }
  }

  /** Writing `bins` into the cells from `start` on of a fresh row-major result array, after the cells before it. */
  method WriteBins(result: NdArray<real>, start: nat, bins: seq<real>)
    requires result.Valid() && result.Writeable()
    requires start + |bins| <= result.buffer.Length == Size(result.shape)
    requires forall k: nat :: k < result.buffer.Length ==> result.Position(k) == k
    modifies result.buffer
    ensures result.buffer[..start + |bins|] == old(result.buffer[..start]) + bins
  {
    ghost var front := result.buffer[..start];
    var j := 0;
    while j < |bins|
      invariant 0 <= j <= |bins|
      invariant result.buffer[..start] == front
      invariant result.buffer[start..start + j] == bins[..j]
      modifies result.buffer
    {
      ghost var before := result.buffer[..];
      var done := result.Set(start + j, bins[j]);
      assert result.buffer[..start] == before[..start];
      assert result.buffer[start..start + j] == before[start..start + j];
      j := j + 1;
    }
    assert result.buffer[..start + |bins|] == result.buffer[..start] + result.buffer[start..start + |bins|];
  }
}
