# goupil's Python binding layer, modelled in Dafny

goupil is a Monte Carlo engine for transporting gamma photons. Its Python
module is a thin layer over the Rust engine. This project models the three
files of that layer that hold logic of their own:

- `src/python/transport.rs`:
  - `TransportSettings`, a record whose setters keep the transport mode
    coupled with the Compton mode, and the `volume_sources` flag coupled with
    the energy constraint;
  - `TransportEngine`: attribute forwarding, restoring a pickled state,
    `compile` (the sequence of `compute` passes it asks the material
    registry for), `transport` and its loop over a batch of photon states;
  - the photon-state conversions and the `states` helper.
- `src/python/numpy.rs`: the strided n-d array.
  - `size` is the product of the shape;
  - `offset_of` breaks a flat index into row-major digits and takes their dot
    product with the strides;
  - bounds checks, and the WRITEABLE / C_CONTIGUOUS flag bits that gate
    `set` and `slice_mut`;
  - the array constructors and the small argument adapters.
- `src/python/geometry.rs`:
  - `TopographyMap` construction (shape inference, the two read-only axes,
    the row-major copy of z, the writeable z view);
  - offset arithmetic and the interface conversions;
  - the variadic argument parser of `StratifiedGeometry`;
  - `GeometrySector.__repr__` and `SimpleGeometry`'s density;
  - `ExternalGeometry.locate` / `trace` over an abstract tracer.

Everything the binding calls in the physics engine is a parameter of the
model:
- the material registry's answers (`Registry.Responder`);
- the transport agent (`Sweeps.Runner`, `Engine.Physics`);
- the geometry tracer (`Geometry.Tracer`) and the column depth of a density
  model (`Geometry.ColumnDepth`);
- `StratifiedGeometry::push_layer` (`Stratified.PushOracle`);
- the loader of external geometries and the entropy source
  (`Engine.Environment`).

Floats are modelled as `real`. Array strides are counted in items rather
than bytes; `Strides.ContiguousOffset` covers any item size. `npy_intp` is
taken to be 64 bits wide and the dimension count is an `i32`, as in the
source's `try_size` and `try_shape`.

A few points of the source that shape the model:
- `SimpleGeometry` takes a material and a density model and is one sector
  filling all space (geometry.rs:86-92).
- With an explicit shape, `TopographyMap` checks only z's total size, not its
  shape (geometry.rs:340-350).
- The engine compiles lazily, on the first `transport` call or on `compile`
  (transport.rs:515-519), not when it is constructed.
- `transport.rs` matches a `Stratified` geometry definition (transport.rs:429,
  538), which the `PyGeometryDefinition` enum of `geometry.rs` lacks
  (geometry.rs:640-643). `Registry.GeometryKind` keeps all three kinds.

Modules, one file each: `Wrappers`, `Errors`, `Strides`, `NdArrays`,
`Photons`, `Settings`, `Registry`, `Sweeps`, `Engine`, `Geometry`,
`Topography`, `Stratified`.

## Model

| member | source | states |
|---|---|---|
| Errors.KindOf | src/python.rs:81-106 | Each error's Python class: IndexError for an index out of range, TypeError for a wrong argument type or a missing geometry, AttributeError for an unknown attribute, OverflowError for an int out of `usize`'s range, a panic for the `n - 2` underflow, and RuntimeError for what the engine refuses, option names included. Every other error is a ValueError. |
| Strides.SizeZeroIff | src/python/numpy.rs:254-259 | The size, the product of the shape, is 0 exactly when some dimension is 0. |
| Strides.SizeAppend | src/python/numpy.rs:254-259 | Appending a dimension of m multiplies the size by m. `trace` relies on this for its result of shape `states.shape + [m]`. |
| Strides.DigitsSound | src/python/numpy.rs:280-297 | For an index below the size, the digits `offset_of` peels off from the last dimension are each below their dimension, and recombine row-major into the index. |
| Strides.DigitsComplete | src/python/numpy.rs:280-297 | Every in-bounds multi-index is the digit decomposition of exactly one flat index below the size, so the decomposition is a bijection. |
| Strides.DotCStrides | src/python/numpy.rs:280-297 | The dot product of a multi-index with C-order strides is the item size times its row-major flat index. |
| Strides.ContiguousOffset | src/python/numpy.rs:280-297 | With C-contiguous strides, `offset_of(index)` is `index * itemsize`. |
| NdArrays.FlagBits | src/python/numpy.rs:679-696 | ReadOnly is 0x0001 and ReadWrite is 0x0401. Both carry C_CONTIGUOUS; only ReadWrite carries WRITEABLE. |
| NdArrays.ClearWriteable | src/python/numpy.rs:241-244 | The WRITEABLE bit becomes 0 and every other bit is kept. |
| NdArrays.TrySize | src/python/numpy.rs:562-570 | Succeeds, with the same value, exactly when the size fits `npy_intp`; otherwise "bad npy_intp value". |
| NdArrays.TryShape | src/python/numpy.rs:546-560 | Succeeds exactly when the dimension count fits i32 and every dimension fits `npy_intp`. The error comes from the count first, then from the first dimension that does not fit. |
| NdArrays.NdArray.Strided | src/python/numpy.rs:216-226 | An array view over a buffer, with its shape, strides, start and flags. |
| NdArrays.NdArray.RowMajor | src/python/numpy.rs:387-406 | A freshly allocated array has C-order strides, so item k sits in buffer cell k. |
| NdArrays.NdArray.OffsetOf | src/python/numpy.rs:280-297 | The reverse loop over the dimensions returns the dot product of the index's row-major digits with the strides, or 0 for a 0-d array. |
| NdArrays.NdArray.Data | src/python/numpy.rs:264-278 | Fails with an index error exactly when `index >= size`; otherwise gives the item's buffer position, which is inside the buffer. |
| NdArrays.NdArray.Get | src/python/numpy.rs:471-475 | Returns item `index`, or the out-of-range error. |
| NdArrays.NdArray.IsWriteable | src/python/numpy.rs:537-544 | Passes exactly when the WRITEABLE bit is set; otherwise "assignment destination is read-only". |
| NdArrays.NdArray.IsContiguous | src/python/numpy.rs:528-535 | Passes exactly when the C_CONTIGUOUS bit is set; otherwise "memory is not C-contiguous". |
| NdArrays.NdArray.Set | src/python/numpy.rs:477-483 | A read-only array refuses the write, and so does an index past the end; either way the buffer is unchanged. Otherwise exactly the item's cell is replaced. |
| NdArrays.NdArray.Readonly | src/python/numpy.rs:241-244 | Clears WRITEABLE and keeps the other flag bits; the array is then read-only. |
| NdArrays.NdArray.SliceMut | src/python/numpy.rs:494-502 | Succeeds exactly on a contiguous, writeable array, checking contiguity first. It hands out the window of `size` cells at the array's start. |
| NdArrays.SliceLayout | src/python/numpy.rs:494-502 | Item k of an array `slice_mut` accepts is cell `start + k` of that window. |
| NdArrays.SetThenGet | src/python/numpy.rs:471-483 | After a successful `set(index, v)` on a contiguous array, `get(index)` reads v and every other item reads what it held before. |
| NdArrays.RowMajorItems | src/python/numpy.rs:459-469 | An array whose item k sits in cell k reads, item for item, its buffer's first cells. |
| NdArrays.Empty | src/python/numpy.rs:387-406 | Succeeds exactly when the shape passes `try_shape`, giving a fresh writeable C-order array of that shape. |
| NdArrays.Zeros | src/python/numpy.rs:504-523 | As `empty`, with every item zero. |
| NdArrays.FromData | src/python/numpy.rs:408-457 | With a shape whose size differs from the data length, fails with "bad ndarray size"; without a shape, the array is 1-D of the data's length. On success it views the data itself, with the requested flags. |
| NdArrays.FromIter | src/python/numpy.rs:459-469 | A fresh array of that shape, whose first items are the iterator's, zipped up to the shorter of the two. |
| NdArrays.ArrayOrFloat.Size | src/python/numpy.rs:815-820 | A float has size 1; an array has its own size. |
| NdArrays.ArrayOrFloat.Get | src/python/numpy.rs:801-806 | A float is returned for every index; an array is read at the index, with an index error past its end. |
| NdArrays.ShapeArg.ToShape | src/python/numpy.rs:846-853 | A scalar n becomes the 1-D shape [n]; a vector is kept as it is. |
| NdArrays.Float3ToArray | src/python/numpy.rs:829-838 | A fresh read-only 1-D array of 3 items holding x, y and z. |
| Photons.ToPhoton | src/python/transport.rs:636-646 | The conversion to the engine's photon state is undone by the conversion back. |
| Photons.PhotonRoundTrip | src/python/transport.rs:648-658 | Converting back and forth is the identity in the other direction too, so the two conversions are mutually inverse. |
| Photons.SetField | src/python/transport.rs:687 | Assigning a keyword to the field of that name: an unknown field, or a value of the wrong kind, is an error. On success only the named field changes. |
| Photons.ApplyUntouched | src/python/transport.rs:676-689 | A field that no keyword names keeps the value it started with. |
| Photons.ApplyFirstFailure | src/python/transport.rs:676-689 | The keywords are applied in order and the first failing one decides the error. |
| Photons.LastEnergyWins | src/python/transport.rs:676-689 | When a key is repeated, the last keyword carrying it decides the field. |
| Photons.StatesDefaults | src/python/transport.rs:690-698 | Unless a keyword sets them, energy is 1, weight is 1 and direction is (0, 0, 1); position and length stay zero. |
| Photons.SetItem | src/python/transport.rs:687 | `array[key] = value` on a uniform array: it fails on a bad key or value, and otherwise every cell holds the updated state. |
| Photons.AssignKwargs | src/python/transport.rs:673-689 | The loop over the keywords applies them to every item, as ApplyKwargs does, and records whether direction, energy and weight were named. |
| Photons.States | src/python/transport.rs:667-700 | `states(shape, **kwargs)` builds a fresh array of the given shape, or of shape [0] when none is given. Every item is the zero state with the keywords applied, then the defaults. It fails when the shape or a keyword does. |
| Settings.ParseMode | src/python/transport.rs:94-96 | Only "Forward" and "Backward" are accepted; any other string is refused with its name. |
| Settings.ModeName | src/python/transport.rs:89-92 | The name `get_mode` returns parses back to the mode. |
| Settings.ParseComptonMode | src/python/transport.rs:158-160 | The name table of the engine's `ComptonMode::try_from`, which `from_optstr!` calls for a string: only "Adjoint", "Direct" and "Inverse", the names of docs/tests/test_interface.py:68, are accepted, and a string never gives the none mode, which only `None` selects (assumed: see "## Left out"). |
| Settings.ComptonModeName | src/python/transport.rs:153-156 | The name of a set Compton mode parses back to it. |
| Settings.ParseComptonMethod | src/python/transport.rs:147-151 | Only "Inverse Transform" and "Rejection Sampling" are accepted. |
| Settings.ComptonMethodName | src/python/transport.rs:142-145 | The name parses back to the method. |
| Settings.ParseComptonModel | src/python/transport.rs:182-186 | Only "Klein-Nishina", "Penelope" and "Scattering Function" are accepted. |
| Settings.ComptonModelName | src/python/transport.rs:177-180 | The name parses back to the model. |
| Settings.ParseAbsorption | src/python/transport.rs:119-123 | The name table of the engine's `AbsorptionMode::try_from`, which `from_optstr!` calls for a string: only "Continuous" and "Discrete" are accepted, and a string never gives the none mode, which only `None` selects. Both the names and the refusal of "None" are assumed: see "## Left out". |
| Settings.AbsorptionName | src/python/transport.rs:114-117 | The name `get_absorption` returns for a set mode (the engine's `Into<&str>` through `to_optstr!`) is accepted by `set_absorption`'s `try_from` and selects the same mode, so the getter's value can always be set again. This round trip is stated over the assumed name table of `Settings.ParseAbsorption`. |
| Settings.WithMode | src/python/transport.rs:95-112 | Sets the mode and couples the result: Backward turns Direct into Adjoint and keeps the others; Forward turns Adjoint or Inverse into Direct and keeps the others. No other field changes. |
| Settings.WithComptonMode | src/python/transport.rs:159-175 | Sets the Compton mode and couples the result. Adjoint or Inverse gives Backward, Direct gives Forward, and none keeps the mode. Only Inverse forces the InverseTransform method. |
| Settings.WithModeOnCoupled | src/python/transport.rs:95-112 | On coupled settings, re-asserting the current mode changes nothing. |
| Settings.WithModeIdempotent | src/python/transport.rs:95-112 | Setting the same mode twice is setting it once. |
| Settings.ComptonModeThenMode | src/python/transport.rs:159-175 | Setting a Compton mode leaves settings that its resulting transport mode does not change. |
| Settings.BoundaryOf | src/python/transport.rs:134-140 | None is no boundary, and an index is that sector. |
| Settings.BoundaryValue | src/python/transport.rs:126-131 | The getter's value converts back to the boundary. |
| Settings.BoundaryRoundTrip | src/python/transport.rs:126-140 | `set_boundary(v)` followed by `get_boundary()` gives v. |
| Settings.RayleighOf | src/python/transport.rs:214-222 | FormFactor exactly when the value is `Some(true)`; None counts as false. |
| Settings.RayleighFlag | src/python/transport.rs:206-211 | The getter's flag converts back to the mode. |
| Settings.ConstraintFor | src/python/transport.rs:194-203 | A unit constraint exactly when the value is `Some(true)`; none otherwise. |
| Settings.TransportSettings.constructor | src/python/transport.rs:80-87 | The engine's defaults with a unit constraint, and `volume_sources` on. |
| Settings.TransportSettings.FromRaw | src/python/transport.rs:44-55 | `volume_sources` is derived from whether a constraint is set. |
| Settings.TransportSettings.GetMode | src/python/transport.rs:89-92 | The name of the current mode. |
| Settings.TransportSettings.SetMode | src/python/transport.rs:94-112 | A bad name fails and changes nothing. Otherwise the settings become WithMode's, the getter reads the name back, and `volume_sources` stays in step with the constraint. |
| Settings.TransportSettings.GetAbsorption | src/python/transport.rs:114-117 | None exactly for no absorption, otherwise the mode's name. |
| Settings.TransportSettings.SetAbsorption | src/python/transport.rs:119-123 | None clears the mode, a valid name sets it, and a bad name fails without change. Only `absorption` changes. |
| Settings.TransportSettings.GetBoundary | src/python/transport.rs:125-131 | The boundary's index, or None. |
| Settings.TransportSettings.SetBoundary | src/python/transport.rs:133-140 | Only the boundary changes, and the getter reads the value back. |
| Settings.TransportSettings.GetComptonMethod | src/python/transport.rs:142-145 | The method's name. |
| Settings.TransportSettings.SetComptonMethod | src/python/transport.rs:147-151 | A bad name fails without change; otherwise only the method changes, and it reads back. |
| Settings.TransportSettings.GetComptonMode | src/python/transport.rs:153-156 | None exactly for no Compton mode, otherwise its name. |
| Settings.TransportSettings.SetComptonMode | src/python/transport.rs:158-175 | A bad name fails without change. Otherwise the settings become WithComptonMode's, the getter reads the value back, and a named mode leaves them coupled. |
| Settings.TransportSettings.GetComptonModel | src/python/transport.rs:177-180 | The model's name. |
| Settings.TransportSettings.SetComptonModel | src/python/transport.rs:182-186 | A bad name fails without change; otherwise only the model changes, and it reads back. |
| Settings.TransportSettings.GetVolumeSources | src/python/transport.rs:188-191 | True exactly when a constraint is set. |
| Settings.TransportSettings.SetVolumeSources | src/python/transport.rs:193-203 | The flag becomes the value (None is false), and the constraint becomes 1 or none with it. Nothing else changes. |
| Settings.TransportSettings.GetRayleigh | src/python/transport.rs:205-211 | True exactly for form-factor Rayleigh scattering. |
| Settings.TransportSettings.SetRayleigh | src/python/transport.rs:213-222 | Only the Rayleigh mode changes, and the getter reads back the value, with None as false. |
| Settings.TransportSettings.SetEnergyMin | src/python/transport.rs:229-233 | Only `energy_min` changes. |
| Settings.TransportSettings.SetEnergyMax | src/python/transport.rs:240-244 | Only `energy_max` changes. |
| Settings.TransportSettings.SetLengthMax | src/python/transport.rs:251-255 | Only `length_max` changes. |
| Registry.Issue | src/python/transport.rs:458 | One registry call is appended to the log. Atomic data counts as loaded once a load has succeeded. |
| Registry.RunAll | src/python/transport.rs:553-555 | Calls are issued in order and the first failure stops them. The log then holds a prefix of the calls: all of them on success, at least one on failure. |
| Registry.FailureIsLastCall | src/python/transport.rs:553-555 | A failed run ends with the call that failed, answered on the calls received before it. |
| Registry.MaterialRegistry.constructor | src/python/transport.rs:311-314 | A new registry has received no call and has no atomic data. |
| Registry.MaterialRegistry.Call | src/python/transport.rs:458 | The registry's state and the answer are Issue's. |
| Registry.MaterialRegistry.CallAll | src/python/transport.rs:553-555 | The loop over the calls ends as RunAll says. |
| Registry.ParseCompileMode | src/python/transport.rs:399-414 | Without a mode, it follows the current transport mode. Only "All", "Backward", "Both" and "Forward" are accepted; anything else is a value error. |
| Registry.ForwardPass | src/python/transport.rs:450-459 | The settings of the forward pass are those `set_mode("Forward")` would give. |
| Registry.BackwardPass | src/python/transport.rs:463-475 | The settings of the backward pass are those `set_mode("Backward")` would give, with InverseTransform forced when the Compton mode is Inverse. |
| Registry.InversePass | src/python/transport.rs:478-487 | The extra pass of "All" is `set_compton_mode("Inverse")` on the settings. |
| Registry.Passes | src/python/transport.rs:449-488 | Forward gives one forward pass and Backward one backward pass. Both gives the forward then the backward pass, and All adds the inverse pass. Every pass is coupled. |
| Registry.Computes | src/python/transport.rs:449-488 | One `compute` call per pass, in order. |
| Registry.Adds | src/python/transport.rs:421-433 | One `add` per material of the geometry, in order; none without a geometry. |
| Registry.AddAll | src/python/transport.rs:421-433 | One `add` call per material, in order. |
| Registry.LoadCalls | src/python/transport.rs:436-443 | A given path is always loaded. Without a path, the default data is loaded only when none is yet. |
| Registry.CompileRun | src/python/transport.rs:416-491 | The calls of `compile` extend the registry's log. |
| Registry.AddsKeepLoaded | src/python/transport.rs:549-557 | Adding materials does not change whether atomic data is loaded. |
| Registry.AcceptedRun | src/python/transport.rs:549-557 | A registry that accepts every call receives all of them. |
| Registry.AddsAccepted | src/python/transport.rs:421-433 | A registry that accepts every call receives all the additions, which load nothing. |
| Registry.ComputesKeepLoaded | src/python/transport.rs:449-488 | `compute` calls do not change whether atomic data is loaded. |
| Registry.LoadThenComputes | src/python/transport.rs:436-488 | A load followed by `compute` calls leaves atomic data loaded. |
| Registry.LoadedAfter | src/python/transport.rs:436-488 | After the optional load and the computations, atomic data is loaded exactly when it already was or a load ran. |
| Registry.CompileAccepted | src/python/transport.rs:416-491 | With a registry that accepts everything, `compile` issues exactly the additions, then the load if any, then one `compute` per pass, and succeeds. |
| Sweeps.SweepFrom | src/python/transport.rs:598-615 | The loop writes one flag per particle it completes and passes exactly when all are done. On a read-only states array nothing is written, and the first particle fails with the read-only error unless the agent already failed on it. |
| Sweeps.Rides | src/python/transport.rs:608 | The reference run: the agent over the jobs in order, collecting its results; it passes exactly when all jobs are done. |
| Sweeps.Jobs | src/python/transport.rs:599-607 | Particle k runs with its own constraint (or the stored settings) on the photon held at its position. |
| Sweeps.FlagsOf | src/python/transport.rs:610 | The status flags, in particle order. |
| Sweeps.SweepRidesFrom | src/python/transport.rs:598-615 | Without shared cells, the in-place loop from particle i is the reference run over the original photons. The random stream and the outcome agree, each finished photon is written at its own position with its flag, and every other cell keeps its original. |
| Sweeps.SweepRides | src/python/transport.rs:598-615 | The same for the whole batch. |
| Sweeps.IdleSweep | src/python/transport.rs:636-658 | An agent that returns every photon unchanged leaves the states buffer as it was, because the two conversions are inverse. |
| Engine.ExtractStr | src/python/transport.rs:339 | A string value is extracted; anything else is a type error. |
| Engine.ExtractOptStr | src/python/transport.rs:339 | None or a string is accepted. |
| Engine.ExtractOptBool | src/python/transport.rs:339 | None or a bool is accepted. |
| Engine.ExtractOptIndex | src/python/transport.rs:339 | None, a bool or an int from 0 to `usize::MAX` is accepted as an index. Any other int is an OverflowError, and any other value a TypeError. |
| Engine.ExtractOptFloat | src/python/transport.rs:339 | None, a float, an int or a bool is accepted as a float. |
| Engine.AttributeOf | src/python/transport.rs:339 | A name designates a setter exactly when it is one of the settings' attribute names; "mode", "compton_mode" and "volume_sources" designate theirs. |
| Engine.Apply | src/python/transport.rs:339 | One recognised setter: it fails only on extraction (a wrong type, or an index out of `usize`'s range) or on an unknown option name. Only `volume_sources` touches the constraint and the flag, keeping them in step, and only `mode` and `compton_mode` touch the modes, leaving them coupled. |
| Engine.ApplyText | src/python/transport.rs:339 | A setter that takes a name, run on the settings object, does what Apply says. A failure changes nothing. |
| Engine.ApplyValue | src/python/transport.rs:339 | A setter that takes a flag, a number or an index, run on the settings object, does what Apply says. A failure changes nothing. |
| Engine.Assign | src/python/transport.rs:339 | A name with no setter is an attribute error. Every setter except `volume_sources` keeps the flag. |
| Engine.AssignKeepsCouplings | src/python/transport.rs:339 | Whatever is assigned, the flag still says whether a constraint is set, and coupled settings stay coupled. A successful `mode` or `compton_mode` assignment couples any settings. |
| Engine.AssignFailures | src/python/transport.rs:339 | A failed assignment is an unknown attribute, a value of the wrong type, an index out of `usize`'s range or an unknown option name. |
| Engine.AssignSetting | src/python/transport.rs:339 | The settings object fails exactly as Assign does, and keeps `volume_sources` in step with the constraint. |
| Engine.Prepare | src/python/transport.rs:575-589 | Without constraints, the run's constraint is cleared. With constraints, a Forward mode or a disabled constraint is a value error. |
| Engine.Positions | src/python/transport.rs:599-609 | The buffer cells of the states' items, all inside the buffer. |
| Engine.ConstraintValues | src/python/transport.rs:601-606 | One constraint per particle: the scalar for all, or item k of the array. |
| Engine.ContiguousDistinct | src/python/transport.rs:598-615 | The items of a C-contiguous array occupy distinct cells, so SweepRides applies to it. |
| Engine.TransportEngine.Init | src/python/transport.rs:319 | An engine starts uncompiled, with the given parts. |
| Engine.TransportEngine.New | src/python/transport.rs:286-320 | A path is loaded as an external geometry. A missing stream, registry or settings object is created afresh. It fails exactly when loading or seeding fails. |
| Engine.TransportEngine.SetAttr | src/python/transport.rs:326-342 | The four engine attributes take a value of their own type, and None too for the geometry. Any other name is assigned on the settings object as Assign says. Nothing else changes, `compiled` included. |
| Engine.TransportEngine.SetState | src/python/transport.rs:345-364 | The stream, the registry, the settings and `compiled` are restored in order, and the first part that fails stops it. `volume_sources` is derived from the restored constraint. |
| Engine.TransportEngine.Compile | src/python/transport.rs:385-494 | A bad mode fails before the registry sees any call. Otherwise the registry receives CompileRun's calls, and the engine is compiled once they all succeed. The stored settings are unchanged. |
| Engine.TransportEngine.EnsureCompiled | src/python/transport.rs:515-519 | Nothing happens when already compiled; otherwise `compile("Both")` runs. |
| Engine.TransportEngine.Transport | src/python/transport.rs:496-545 | A constraints array of the wrong size fails first, changing nothing. Then the engine is compiled if it was not, a missing geometry is an error, and `transport_with` runs as Transported says. |
| Engine.TransportEngine.TransportChecked | src/python/transport.rs:514-545 | With constraints that fit: the engine is compiled unless it already was. A compile failure, then a missing geometry, is the error, with states and stream untouched. Otherwise `transport_with` runs as Transported says. |
| Engine.TransportEngine.TransportWith | src/python/transport.rs:559-619 | The status array is created, the settings prepared and the agent made, each failure leaving states and stream alone. Then the batch is run as SweepFrom says. On success the status array has the states' shape and holds the flags. |
| Engine.TransportEngine.RunBatch | src/python/transport.rs:598-615 | The loop ends with the states buffer, the random stream and the outcome that SweepFrom gives, and writes status flag i for particle i. |
| Engine.TransportEngine.RunLoop | src/python/transport.rs:598-615 | The loop over the particles ends with the states buffer, the random stream and the outcome SweepFrom gives; on success the status buffer holds the flags. |
| Engine.TransportEngine.Advance | src/python/transport.rs:599-611 | One round of the loop keeps the states and flags in step with SweepFrom, or ends it with SweepFrom's result. |
| Engine.TransportEngine.RideStep | src/python/transport.rs:600-610 | One particle: read it, run the agent, write the state back and then its flag, as one step of SweepFrom. |
| Engine.TransportEngine.WriteFlag | src/python/transport.rs:610 | Particle i's status flag is written after the flags of the particles before it. |
| Engine.TransportEngine.ReadParticle | src/python/transport.rs:600-607 | Particle i's settings carry its own constraint, and its photon is the state stored at its position. |
| Geometry.SectorRepr | src/python/geometry.rs:49-72 | The text is `GeometrySector(<material>, <density>)`, with `, '<description>'` before the closing parenthesis when there is a description. The material's repr failing comes first. |
| Geometry.ReprDescription | src/python/geometry.rs:49-72 | With the same material and density, different descriptions give different texts. |
| Geometry.SimpleGeometry.constructor | src/python/geometry.rs:86-92 | One material and one sector of that material and density. |
| Geometry.SimpleGeometry.GetDensity | src/python/geometry.rs:94-97 | The density of sector 0. |
| Geometry.SimpleGeometry.SetDensity | src/python/geometry.rs:99-103 | Only sector 0's density changes, and it reads back. |
| Geometry.SimpleGeometry.GetMaterial | src/python/geometry.rs:105-108 | Material 0. |
| Geometry.Ride | src/python/geometry.rs:217-243 | One particle's steps: none from outside the geometry, and only sectors the geometry has. |
| Geometry.RideStops | src/python/geometry.rs:231-234 | A bounded ride stops at its first step that uses up the remaining length: before every later step some length was left. |
| Geometry.Bin | src/python/geometry.rs:208-230 | One bin per sector. |
| Geometry.BinIsSectorTotal | src/python/geometry.rs:220-230 | Each bin is the total of the amounts spent in its sector: lengths, or column depths with `density`. |
| Geometry.UnvisitedIsZero | src/python/geometry.rs:208 | A sector the ride never entered has a zero bin. |
| Geometry.BinTotal | src/python/geometry.rs:220-230 | The bins add up to the ride's total amount. |
| Geometry.ExternalGeometry.ParticleBins | src/python/geometry.rs:207-243 | One particle's bins: one per sector. |
| Geometry.ExternalGeometry.TraceBins | src/python/geometry.rs:206-248 | All particles' bins, particle after particle: n times m values, or the first error. |
| Geometry.ExternalGeometry.RideBins | src/python/geometry.rs:207-243 | The bins of one ride from a tracer state: one per sector, or the ride's error. |
| Geometry.ExternalGeometry.TraceStops | src/python/geometry.rs:206-248 | A particle whose bins fail, after particles that all succeed, decides `trace`'s error. |
| Geometry.ExternalGeometry.LocateStops | src/python/geometry.rs:164-169 | A particle whose tracer fails to reset, after particles that all succeed, decides `locate`'s error. |
| Geometry.ExternalGeometry.LocateAll | src/python/geometry.rs:164-169 | One sector index per particle, m meaning outside, or the first error. |
| Geometry.ExternalGeometry.LocateFailureStays | src/python/geometry.rs:164-169 | The first failing particle decides `locate`'s error. |
| Geometry.ExternalGeometry.TraceFailureStays | src/python/geometry.rs:206-248 | The first failing particle decides `trace`'s error. |
| Geometry.ExternalGeometry.Locate | src/python/geometry.rs:158-176 | A result array of the states' shape, or the error of creating it or the tracer; item k is particle k's start sector, or m outside. |
| Geometry.ExternalGeometry.LocateLoop | src/python/geometry.rs:164-173 | The loop fills the result as LocateAll says. |
| Geometry.ExternalGeometry.LocateFill | src/python/geometry.rs:164-176 | Once the result array exists, `locate` fills it as LocateAll says, or returns the first error. |
| Geometry.ExternalGeometry.LocateOne | src/python/geometry.rs:165-167 | One particle: reset the tracer on its state and record its sector, or m outside; a reset error is `locate`'s error. |
| Geometry.ExternalGeometry.Trace | src/python/geometry.rs:178-251 | A length array of the wrong size is refused first. The result has shape `states.shape + [m]`, and cell `i * m + j` is particle i's bin j, as TraceBins says. |
| Geometry.ExternalGeometry.TraceLoop | src/python/geometry.rs:206-248 | The loop fills the result as TraceBins says. |
| Geometry.ExternalGeometry.TraceFill | src/python/geometry.rs:206-250 | Once the result array exists, `trace` fills it as TraceBins says, or returns the first error. |
| Geometry.ExternalGeometry.TraceOne | src/python/geometry.rs:207-247 | One particle: its m bins are written after those of the particles before it; its error is `trace`'s error. |
| Geometry.ExternalGeometry.ParticleAt | src/python/geometry.rs:207-243 | Particle i's state and length are read and its ride is binned, as ParticleBins says. |
| Geometry.ExternalGeometry.PutBins | src/python/geometry.rs:244-247 | Particle i's bins land in cells `i * m` to `i * m + m - 1`, so the result now holds TraceBins for the first i + 1 particles. |
| Geometry.ExternalGeometry.TraceChecked | src/python/geometry.rs:197-250 | With lengths that fit: `empty` of shape `states.shape + [m]` fails first, then the tracer's creation. Otherwise the result is fresh, of that shape, and filled as TraceBins says, or the first error is returned. |
| Geometry.ExternalGeometry.Grammages | src/python/geometry.rs:207-243 | One particle's loop ends with ParticleBins' bins. |
| Geometry.ExternalGeometry.BinRide | src/python/geometry.rs:217-243 | The inner loop over the tracer's steps ends with RideBins' bins. |
| Geometry.ExternalGeometry.RideStep | src/python/geometry.rs:218-236 | One pass of the inner loop: an error, the last step, or a move, each consistent with RideBins. |
| Geometry.WriteBins | src/python/geometry.rs:244-247 | The bins are written from cell `j0` on, and the cells before `j0` keep what they held. |
| Geometry.LengthList | src/python/geometry.rs:210-216 | The remaining length each particle starts with: none without lengths, the scalar for all, or item k of the array. |
| Geometry.ReadState | src/python/geometry.rs:208 | State i read through the strides is the array's item i. |
| Geometry.ReadParticle | src/python/geometry.rs:208-216 | Particle i's state, and the remaining length it starts with: none without lengths, the scalar, or item i of the array. |
| Topography.TopographyMap.constructor | src/python/geometry.rs:369-371 | A map of `ny * nx` zero elevations over the given ranges. |
| Topography.MapShape | src/python/geometry.rs:324-353 | The errors, in order: neither shape nor z; z not 2-D without a shape; z's size differing from the shape's product. Otherwise the shape is the given one or z's. |
| Topography.MapShapeCoversZ | src/python/geometry.rs:372-379 | Whatever the shape came from, z holds one item per node, so the copy never reads past its end. |
| Topography.AxisAffine | src/python/geometry.rs:355-366 | With two nodes or more, node i, the last one included, is min plus i steps of `(max - min) / (n - 1)`. |
| Topography.AxisEvenlySpaced | src/python/geometry.rs:355-366 | Successive nodes differ by one step, so the axis rises when min <= max. |
| Topography.AxisOfOne | src/python/geometry.rs:355-366 | An axis of one node holds max. |
| Topography.Linspace | src/python/geometry.rs:355-366 | An axis of 0 nodes fails at the first write. Otherwise a fresh read-only 1-D array holds node values min, the interior steps, then max. |
| Topography.StartAxis | src/python/geometry.rs:355-360 | `empty` of n nodes, then min written to node 0. An axis too long for `npy_intp` fails at `empty`, and an axis of 0 nodes at that write. |
| Topography.FillAxis | src/python/geometry.rs:358-364 | The interior nodes and max are written, and the axis is made read-only. |
| Topography.WriteNode | src/python/geometry.rs:361 | A write into a writeable axis changes that node only. |
| Topography.PyTopographyMap.constructor | src/python/geometry.rs:385-386 | The object wraps the map and its axes, before its z view exists. |
| Topography.AxesOutcome | src/python/geometry.rs:383-384 | The axes succeed exactly when both lengths are positive and fit `npy_intp`; x's error comes first. |
| Topography.NewMap | src/python/geometry.rs:317-400 | The shape errors come first and then the axes' errors. On success the map has the given ranges and shape, z is copied row-major (zeros when absent), x has a node per column and y a node per row, both read-only, and `map.z` is a writeable view of the map's own elevations. |
| Topography.NewGrid | src/python/geometry.rs:369-379 | A fresh map of that grid whose node k holds z's item k, or 0 without z. |
| Topography.NewAxes | src/python/geometry.rs:383-384 | The x axis is built and then the y axis; the first failure decides. |
| Topography.AttachZ | src/python/geometry.rs:385-397 | The z view shares the map's elevations, is writeable, and has shape (ny, nx) in row-major order. |
| Topography.ViewIsMap | src/python/geometry.rs:389-397 | Reading node k through the view reads the map's elevation k, so a write through `map.z` is what the engine sees. |
| Topography.CopyZ | src/python/geometry.rs:372-379 | The nested loop copies z's first `ny * nx` items into the map, in order. |
| Topography.CopyRow | src/python/geometry.rs:374-377 | One row of the copy. |
| Topography.CopyNode | src/python/geometry.rs:375-376 | Node `i * nx + j` takes z's item `i * nx + j`. |
| Topography.MapAdd | src/python/geometry.rs:402-406 | `map + c` refers to the same map, with offset c. |
| Topography.MapRadd | src/python/geometry.rs:408-410 | `c + map` is `map + c`. |
| Topography.MapSub | src/python/geometry.rs:412-414 | `map - c` has offset `-c`. |
| Topography.OffsetAdd | src/python/geometry.rs:453-457 | `offset + c` refers to the same map, with the offsets summed. |
| Topography.OffsetRadd | src/python/geometry.rs:459-461 | `c + offset` is `offset + c`. |
| Topography.OffsetSub | src/python/geometry.rs:463-465 | `offset - c` subtracts c. |
| Topography.NewOffset | src/python/geometry.rs:437-451 | `TopographyOffset(map, r)` is `map + r`, and `TopographyOffset(offset, r)` is `offset + r`. |
| Topography.ShiftsAdd | src/python/geometry.rs:402-465 | Shifting twice is shifting once by the sum, and shifting back returns to offset 0. |
| Topography.SubUndoesAdd | src/python/geometry.rs:402-465 | Subtracting undoes adding, and the reflected operators agree with the plain ones. |
| Topography.ToData | src/python/geometry.rs:595-607 | Constant, map and offset map one to one onto the engine's data, maps replaced by the engine maps they wrap. |
| Topography.ConvertAll | src/python/geometry.rs:622-629 | A sequence converts item by item, keeping order and length. |
| Topography.ToInterface | src/python/geometry.rs:615-631 | A scalar becomes a one-item vector; a sequence converts item by item. |
| Topography.InterfaceShapes | src/python/geometry.rs:615-631 | A scalar interface is the one-item sequence, and converting distributes over concatenation. |
| Stratified.AsSector | src/python/geometry.rs:515 | Only a sector argument extracts as a sector. |
| Stratified.AsInterface | src/python/geometry.rs:512-513 | Only an interface argument extracts as one, converted. |
| Stratified.StratifiedGeometry.constructor | src/python/geometry.rs:527 | A geometry of one sector. |
| Stratified.StratifiedGeometry.SetBottom | src/python/geometry.rs:529-531 | Records the bottom interface. |
| Stratified.StratifiedGeometry.PushLayer | src/python/geometry.rs:546 | A layer is pushed when the engine accepts it; otherwise the engine's error is returned and nothing is recorded. |
| Stratified.StratifiedGeometry.SetTop | src/python/geometry.rs:550-554 | Records the top interface. |
| Stratified.StartAsWritten | src/python/geometry.rs:497-522 | The opening of `new` as written. No argument is an error, and a single interface argument underflows `n - 2`. On success the last sector is found where it says. |
| Stratified.StartFixed | src/python/geometry.rs:497-522 | The opening with that underflow closed. It succeeds exactly when the last argument is a sector, or an interface preceded by a sector; the first extraction that fails decides the error. |
| Stratified.StartsAgree | src/python/geometry.rs:508-522 | The two openings differ exactly on a single interface argument. |
| Stratified.UnderflowWitness | src/python/geometry.rs:514 | For one constant interface, the opening as written underflows while the fixed one reports a missing sector. |
| Stratified.LayersExtend | src/python/geometry.rs:534-548 | The layer loop only appends to the calls made so far. |
| Stratified.LayersStep | src/python/geometry.rs:534-548 | One round of the loop: an interface above a sector is pushed as a layer, and the loop moves two arguments up. |
| Stratified.LayersEnd | src/python/geometry.rs:549-554 | The loop ends with nothing more, or with the top interface when one is at index 0. |
| Stratified.BuildFrom | src/python/geometry.rs:497-554 | Past its opening, `new` is the layer loop started from the bottom sector and the optional bottom interface. |
| Stratified.BuildOpens | src/python/geometry.rs:497-554 | A failed opening is `new`'s error. A successful build starts with the bottom sector, then the bottom interface if any. |
| Stratified.NewStratified | src/python/geometry.rs:497-556 | The while loop over the layers ends with Build's calls, or its error, with the opening corrected (see "## Findings"): a single interface argument gives a missing-sector error where the source underflows `n - 2`. |
| Stratified.Body | src/python/geometry.rs:534-548 | The alternating sector, interface, ..., sector list of a layout. |
| Stratified.LayersAlternate | src/python/geometry.rs:534-548 | On an alternating list, the loop pushes the layers bottom-up. |
| Stratified.PushAll | src/python/geometry.rs:534-554 | The while loop and the top that follows it make the calls of the layer loop, stop at its first error, and report that error. |
| Stratified.LayersTo | src/python/geometry.rs:534-554 | From sector k of an alternating list, with an engine accepting every layer, the loop pushes the layers bottom-up and then the top, if there is one. |
| Stratified.RenderedLayers | src/python/geometry.rs:534-554 | From a layout's bottom sector, the loop makes exactly the layout's calls. |
| Stratified.RenderedOpens | src/python/geometry.rs:497-533 | A layout's arguments open at its bottom sector and bottom interface, and `new` continues with the loop from there. |
| Stratified.RenderParses | src/python/geometry.rs:497-554 | Every argument list of the grammar `[top] sector (interface sector)* [bottom]` parses, with an engine accepting every layer, into the layout's calls: the bottom sector first, the layers bottom-up, the top interface last. |

## Left out

- numpy's C-API plumbing: the capsule table, dtype objects, `PyTypeInfo` and the Python object conversions. The model's arrays are Dafny arrays with shape, strides, start and flags.
- `PyUntypedArray::shape`, `ndim`, `dtype` and `slice`: these are field reads. `shape` and `size` are the model's `shape` field and `Strides.Size`.
- `ArrayOrFloat::is_float` is the predicate `NdArrays.ArrayOrFloat.IsFloat`, with no contract of its own. `ArrayOrFloat3` is only an extraction target.
- `TransportSettings` getters of `energy_min`, `energy_max` and `length_max`: these are reads of `inner`.
- `__getattr__` of the engine forwards to the settings object. Its getters are modelled; the forwarding itself is not.
- Pickling: the msgpack encoding of `__getstate__` and `__setstate__` is not modelled. Each decoded part is an input of `Engine.TransportEngine.SetState`, and `__getstate__` is not modelled.
- The physics engine is not part of this model. Registry computations, element loading, the transport agent, tracers, column depths, `push_layer`, `set_top` and `set_bottom` are oracles. Their results are inputs, and a successful `push_layer`, `set_top` or `set_bottom` is recorded as a call.
- The Ctrl+C polling every 100 or 1000 iterations is not modelled, nor are `Rc` sharing, the `Send` declarations and the GIL.
- Floating point: floats are reals. `Engine.ExtractOptFloat` accepts every int, while PyO3's `f64` extraction raises OverflowError for an int beyond the range of `f64`. `Topography.Linspace` computes the interior nodes exactly. The source divides by zero for an axis of one node, but that quotient is never used, so the model skips it. Infinity for an unbounded `trace` length is `None`.
- `Geometry.Ride`: termination rests on the tracer's `rank` falling at every move, a property assumed of the engine's tracer.
- `ExternalGeometry::new`, `update_material`, `update_sector` and `TopographyMap.__call__` delegate to the engine and are not modelled.
- The material and sector tuples that `ExternalGeometry` and `StratifiedGeometry` export, and `GeometrySector::new`, are object wrapping with no logic of their own.
- The keyword arguments that `compile` forwards to `compute` are not modelled. A `compute` call carries only its settings.
- `prefix`, the default atomic-data path, is not modelled. `Registry.LoadCalls` marks it with `None`.
- `NdArrays.TrySize`: `usize` inputs are taken as unbounded naturals, and `npy_intp` as 64 bits.
- `NdArrays.SetThenGet` is stated for C-contiguous arrays only, because arbitrary strides may alias cells.
- `Sweeps.SweepRides` is stated for arrays whose items occupy distinct cells, which `Engine.ContiguousDistinct` gives for C-contiguous ones. With aliasing strides the loop is still modelled exactly by `Sweeps.SweepFrom`.
- Photons.SetField, Photons.SetItem, Photons.AssignKwargs, Photons.States: keyword values are one float or one triple, given to every item. numpy's broadcasting of a value that holds one entry per item is not modelled. For example, `states(3, energy=(1.0, 2.0, 3.0))` gives item k the energy k + 1 in the source, but the model refuses a triple on a scalar field, so its contracts do not describe such calls.
- Settings.ParseMode, Settings.ParseComptonMode, Settings.ParseComptonMethod, Settings.ParseComptonModel, Settings.ParseAbsorption: the option-name tables are the engine's `TryFrom<&str>` and `Into<&str>`, which are not part of this model. The Compton names are those of docs/tests/test_interface.py:62-69 and 223-225, and the mode names those of `compile`'s match (src/python/transport.rs:406-408). The absorption names "Continuous" and "Discrete", and the refusal of the string "None" by every parser, are assumed. If the engine accepts "None", `set_absorption("None")` and `set_compton_mode("None")` succeed in the source where the model fails with `UnknownName`.
- `Topography.MapShape` computes `shape[0] * shape[1]` without the `usize` overflow of the source.

## Findings

| source | as written | input that shows it | evidently intended | confidence | as-written member | corrected member |
|---|---|---|---|---|---|---|
| src/python/geometry.rs:514 | When the last argument is not a sector, `last = n - 2` is computed with no check that n >= 2. | `StratifiedGeometry(0.0)`: one constant interface, so n = 1 and `n - 2` underflows `usize` (a panic in a debug build). | The argument list is refused with a missing-sector extraction error, as for any other list whose bottom interface has no sector before it. | not executed | Stratified.StartAsWritten, Stratified.UnderflowWitness | Stratified.StartFixed, Stratified.StartsAgree |
