/**
 * The Monte Carlo loop of `transport_with` (src/python/transport.rs), stated
 * on values: particle after particle, the state is read from the states
 * array, run through the transport agent, and written back with its status
 * flag. The agent belongs to the engine and is an oracle here; it threads
 * the random stream's state from one particle to the next.
 */
module Sweeps {
  import opened Wrappers
  import opened Errors
  import opened Settings
  import opened Photons

  /**
   * One run of the transport agent: settings, photon and the random stream's
   * state in; the photon's final state with its status flag (or an error),
   * and the stream's new state, out.
   */
  type Runner = (RawSettings, PhotonState, nat) -> (Result<(PhotonState, int), Error>, nat)

  /** The settings particle k is run with: with constraints, its own constraint replaces the stored one. */
  function SettingsFor(base: RawSettings, cons: Option<seq<real>>, k: nat): RawSettings
    requires cons.Some? ==> k < |cons.value|
  {
    if cons.Some? then base.(constraint := Some(cons.value[k])) else base
  }

  /** Buffer positions that all fall inside a buffer of this size. */
  ghost predicate Addresses(pos: seq<int>, size: nat)
  {
    forall k :: 0 <= k < |pos| ==> 0 <= pos[k] < size
  }

  /** No two particles share a buffer cell, as in a C-contiguous array. */
  ghost predicate Distinct(pos: seq<int>)
  {
    forall k, k' :: 0 <= k < k' < |pos| ==> pos[k] != pos[k']
  }

  /** Where a sweep ends: the states buffer, the flags written so far, the stream state and the outcome. */
  datatype Sweep = Sweep(buffer: seq<CState>, flags: seq<int>, rng: nat, outcome: Outcome<Error>)

  /**
   * The loop from particle i on. A failing run stops it with the stream
   * already advanced; on a read-only states array the first write fails,
   * after the agent has run once.
   */
  function SweepFrom(run: Runner, base: RawSettings, cons: Option<seq<real>>, pos: seq<int>, writeable: bool,
                     i: nat, buffer: seq<CState>, flags: seq<int>, rng: nat): (r: Sweep)
    requires Addresses(pos, |buffer|) && (cons.Some? ==> |cons.value| == |pos|)
    requires i <= |pos| && |flags| == i
    ensures |r.buffer| == |buffer| && flags <= r.flags
    ensures r.outcome.Pass? <==> |r.flags| == |pos|
    ensures !writeable ==> r.buffer == buffer && r.flags == flags && (r.outcome.Pass? <==> i == |pos|)
    ensures !writeable && i < |pos| ==>
      var first := run(SettingsFor(base, cons, i), ToPhoton(buffer[pos[i]]), rng).0;
      r.outcome == if first.Success? then Fail(ReadOnlyDestination) else Fail(first.error)
    decreases |pos| - i
  {
    if i == |pos| then Sweep(buffer, flags, rng, Pass)
    else
      var (result, rng1) := run(SettingsFor(base, cons, i), ToPhoton(buffer[pos[i]]), rng);
      if result.Failure? then Sweep(buffer, flags, rng1, Fail(result.error))
      else if !writeable then Sweep(buffer, flags, rng1, Fail(ReadOnlyDestination))
      else
        SweepFrom(run, base, cons, pos, writeable, i + 1, buffer[pos[i] := FromPhoton(result.value.0)],
                  flags + [result.value.1], rng1)
  }

  /**
   * The reference: the agent over a list of jobs (settings, photon), from job
   * i on, one after the other, threading the stream state and collecting its
   * results after those already `done`; the first failure stops it.
   */
  function Rides(run: Runner, jobs: seq<(RawSettings, PhotonState)>, i: nat, done: seq<(PhotonState, int)>, rng: nat)
    : (r: (seq<(PhotonState, int)>, nat, Outcome<Error>))
    requires i <= |jobs| && |done| == i
    ensures done <= r.0 && |r.0| <= |jobs|
    ensures r.2.Pass? <==> |r.0| == |jobs|
    decreases |jobs| - i
  {
    if i == |jobs| then (done, rng, Pass)
    else
      var (result, rng1) := run(jobs[i].0, jobs[i].1, rng);
      if result.Failure? then (done, rng1, Fail(result.error))
      else Rides(run, jobs, i + 1, done + [result.value], rng1)
  }

  /** The jobs of a batch: particle k's settings and the photon stored at its position. */
  function Jobs(base: RawSettings, cons: Option<seq<real>>, pos: seq<int>, buffer: seq<CState>): (jobs: seq<(RawSettings, PhotonState)>)
    requires Addresses(pos, |buffer|) && (cons.Some? ==> |cons.value| == |pos|)
    ensures |jobs| == |pos|
    ensures forall k :: 0 <= k < |pos| ==> jobs[k] == (SettingsFor(base, cons, k), ToPhoton(buffer[pos[k]]))
  {
    seq(|pos|, k requires 0 <= k < |pos| => (SettingsFor(base, cons, k), ToPhoton(buffer[pos[k]])))
  }

  /** The status flags of the agent's results, in order. */
  function FlagsOf(outs: seq<(PhotonState, int)>): (flags: seq<int>)
    ensures |flags| == |outs| && forall k :: 0 <= k < |outs| ==> flags[k] == outs[k].1
  {
    seq(|outs|, k requires 0 <= k < |outs| => outs[k].1)
  }

  /** Cell p is none of the first n particles' positions. */
  ghost predicate Spared(pos: seq<int>, n: nat, p: int)
    requires n <= |pos|
  {
    forall k :: 0 <= k < n ==> pos[k] != p
  }

  /**
   * Without shared cells, the in-place loop is the reference run over the
   * photons the batch started with (`orig`). From particle i on, with the
   * first i particles written and their results `done`: the stream and the
   * outcome agree, each particle the agent finished is written at its own
   * position and its flag recorded, and every other cell keeps its original.
   */
  lemma {:induction false} SweepRidesFrom(run: Runner, base: RawSettings, cons: Option<seq<real>>, pos: seq<int>,
                                          orig: seq<CState>, i: nat, buffer: seq<CState>,
                                          done: seq<(PhotonState, int)>, rng: nat)
    requires Addresses(pos, |orig|) && (cons.Some? ==> |cons.value| == |pos|) && Distinct(pos)
    requires |buffer| == |orig| && i <= |pos| && |done| == i
    requires forall k :: 0 <= k < i ==> buffer[pos[k]] == FromPhoton(done[k].0)
    requires forall p :: 0 <= p < |orig| && Spared(pos, i, p) ==> buffer[p] == orig[p]
    ensures var sw := SweepFrom(run, base, cons, pos, true, i, buffer, FlagsOf(done), rng);
            var r := Rides(run, Jobs(base, cons, pos, orig), i, done, rng);
            && sw.rng == r.1 && sw.outcome == r.2 && sw.flags == FlagsOf(r.0)
            && (forall k :: 0 <= k < |r.0| ==> sw.buffer[pos[k]] == FromPhoton(r.0[k].0))
            && (forall p :: 0 <= p < |orig| && Spared(pos, |r.0|, p) ==> sw.buffer[p] == orig[p])
    decreases |pos| - i
  {
    if i < |pos| {
      var jobs := Jobs(base, cons, pos, orig);
      assert Spared(pos, i, pos[i]);
      assert buffer[pos[i]] == orig[pos[i]];
      var (result, rng1) := run(SettingsFor(base, cons, i), ToPhoton(buffer[pos[i]]), rng);
      if result.Success? {
        var next := buffer[pos[i] := FromPhoton(result.value.0)];
        var done' := done + [result.value];
        assert FlagsOf(done') == FlagsOf(done) + [result.value.1];
        forall k | 0 <= k < i + 1 ensures next[pos[k]] == FromPhoton(done'[k].0) {
          if k < i {
            assert pos[k] != pos[i];
          }
        }
        forall p | 0 <= p < |orig| && Spared(pos, i + 1, p) ensures next[p] == orig[p] {
          assert pos[i] != p;
          assert Spared(pos, i, p);
        }
        SweepRidesFrom(run, base, cons, pos, orig, i + 1, next, done', rng1);
      }
    }
  }

  /** The whole batch: without shared cells, `transport_with`'s loop is the reference run over the original photons. */
  lemma SweepRides(run: Runner, base: RawSettings, cons: Option<seq<real>>, pos: seq<int>, buffer: seq<CState>, rng: nat)
    requires Addresses(pos, |buffer|) && (cons.Some? ==> |cons.value| == |pos|) && Distinct(pos)
    ensures var sw := SweepFrom(run, base, cons, pos, true, 0, buffer, [], rng);
            var r := Rides(run, Jobs(base, cons, pos, buffer), 0, [], rng);
            && sw.rng == r.1 && sw.outcome == r.2 && sw.flags == FlagsOf(r.0)
            && (forall k :: 0 <= k < |r.0| ==> sw.buffer[pos[k]] == FromPhoton(r.0[k].0))
            && (forall p :: 0 <= p < |buffer| && Spared(pos, |r.0|, p) ==> sw.buffer[p] == buffer[p])
  {
    assert FlagsOf([]) == [];
    SweepRidesFrom(run, base, cons, pos, buffer, 0, buffer, [], rng);
  }

  /**
   * An agent that hands every photon back as it received it leaves the
   * states buffer as it was, shared cells or not: the conversions to and
   * from the engine's photon state are mutually inverse.
   */
  lemma {:induction false} IdleSweep(run: Runner, base: RawSettings, cons: Option<seq<real>>, pos: seq<int>, writeable: bool,
                                     i: nat, buffer: seq<CState>, flags: seq<int>, rng: nat)
    requires Addresses(pos, |buffer|) && (cons.Some? ==> |cons.value| == |pos|)
    requires i <= |pos| && |flags| == i
    requires forall s, p, g :: run(s, p, g).0.Success? ==> run(s, p, g).0.value.0 == p
    ensures SweepFrom(run, base, cons, pos, writeable, i, buffer, flags, rng).buffer == buffer
    decreases |pos| - i
  {
    if i < |pos| && writeable {
      var (result, rng1) := run(SettingsFor(base, cons, i), ToPhoton(buffer[pos[i]]), rng);
      if result.Success? {
        assert FromPhoton(result.value.0) == buffer[pos[i]];
        assert buffer[pos[i] := FromPhoton(result.value.0)] == buffer;
        IdleSweep(run, base, cons, pos, writeable, i + 1, buffer, flags + [result.value.1], rng1);
      }
    }
  }
}
