/** Setup of a data-logger run: the roll-mode warning, the waveform
    generator (AWG) setup and the voltage ramp step, together with the
    sequence of AWG events the sampling loop issues for a ramp.

    Voltages, the ramp step and offsets are exact reals: the model states
    the ramp's properties in exact arithmetic, not in floating point. */
module Ramp {
  import opened Wrappers

  /** The warning printed to the error stream before sampling starts. */
  datatype Warning =
    | NoWarning
    | RollModeNotEnabled   // no ramp requested, but the scope is not in roll mode
    | RollModeEnabled      // a ramp is requested, but the scope is in roll mode

  /** The commands written to the AWG, on channel `C<ch>`. */
  datatype AwgCommand =
    | OutputHiZ(ch: int)                // OUTP LOAD,HZ,PLRT,NOR
    | WaveDC(ch: int)                   // BSWV WVTP,DC
    | SetOffset(ch: int, volts: real)   // BSWV OFST,<volts>
    | OutputOn(ch: int)                 // OUTP ON

  /** What the instruments see: an AWG write, or a settling wait (a fixed
      delay followed by an operation-complete poll of both instruments). */
  datatype Event = AwgWrite(cmd: AwgCommand) | Settle

  /** The warning decision made from the AWG channel selector `cawg`
      (0 = no ramp), the sample limit (0 = unlimited) and whether the
      scope reports roll mode. */
  function RollWarning(cawg: int, limit: int, scrollmode: bool): (w: Warning)
    ensures cawg == 0 ==> (w != NoWarning <==> !scrollmode)
    ensures cawg != 0 && limit != 0 ==> (w != NoWarning <==> scrollmode)
    ensures cawg != 0 && limit == 0 ==> w == NoWarning
    ensures w == RollModeNotEnabled ==> cawg == 0 && !scrollmode
    ensures w == RollModeEnabled ==> cawg != 0 && scrollmode
  {
    if cawg == 0 then
      if !scrollmode then RollModeNotEnabled else NoWarning
    else if limit != 0 then
      if scrollmode then RollModeEnabled else NoWarning
    else
      NoWarning
  }

  /** Whether the AWG is set up at all: a channel is selected and the
      run has a sample limit. */
  predicate AwgActive(cawg: int, limit: int) {
    cawg != 0 && limit != 0
  }

  /** The four writes that put AWG channel `cawg` into DC, high-impedance
      output mode at offset `vmin` and switch its output on. */
  function SetupWrites(cawg: int, vmin: int): seq<Event> {
    [AwgWrite(OutputHiZ(cawg)), AwgWrite(WaveDC(cawg)),
     AwgWrite(SetOffset(cawg, vmin as real)), AwgWrite(OutputOn(cawg))]
  }

  /** The ramp step `dvawg`. It stays 0 unless the AWG is active; then it
      is `(vmax - vmin) / (limit - 1)`, and `None` stands for the division
      by zero that aborts the run when `limit == 1`. */
  function RampStep(cawg: int, limit: int, vmin: int, vmax: int): (step: Option<real>)
    ensures step.None? <==> AwgActive(cawg, limit) && limit == 1
    ensures step.Some? && step.value != 0.0 <==> AwgActive(cawg, limit) && limit != 1 && vmin != vmax
    ensures step.Some? && AwgActive(cawg, limit) ==> step.value * (limit - 1) as real == (vmax - vmin) as real
  {
    if !AwgActive(cawg, limit) then Some(0.0)
    else if limit == 1 then None
    else Some((vmax - vmin) as real / (limit - 1) as real)
  }

  /** The offset programmed before sample `i` of a ramp. */
  function OffsetAt(vmin: real, step: real, i: nat): real {
    vmin + i as real * step
  }

  /** The events the sampling loop issues over its first `k` iterations:
      nothing when the step is 0, otherwise an offset write and a settling
      wait per iteration. */
  function RampLog(ch: int, vmin: real, step: real, k: nat): seq<Event> {
    if step == 0.0 || k == 0 then []
    else RampLog(ch, vmin, step, k - 1) + [AwgWrite(SetOffset(ch, OffsetAt(vmin, step, k - 1))), Settle]
  }

  /** The offsets written to the AWG, in the order they were written. */
  function OffsetsWritten(log: seq<Event>): seq<real> {
    if log == [] then []
    else
      OffsetsWritten(log[..|log| - 1]) +
      match log[|log| - 1]
      case AwgWrite(SetOffset(_, v)) => [v]
      case _ => []
  }

  /** The number of settling waits in a log. */
  function Settles(log: seq<Event>): nat {
    if log == [] then 0
    else Settles(log[..|log| - 1]) + if log[|log| - 1] == Settle then 1 else 0
  }

  lemma {:induction false} OffsetsWrittenAppend(a: seq<Event>, b: seq<Event>)
    ensures OffsetsWritten(a + b) == OffsetsWritten(a) + OffsetsWritten(b)
    ensures Settles(a + b) == Settles(a) + Settles(b)
    decreases |b|
  {
    if b == [] {
      assert a + b == a;
    } else {
      var b' := b[..|b| - 1];
      assert (a + b)[..|a + b| - 1] == a + b';
      assert (a + b)[|a + b| - 1] == b[|b| - 1];
      OffsetsWrittenAppend(a, b');
    }
  }

  /** The events of one ramp iteration write one offset and wait once. */
  lemma IterationEvents(ch: int, v: real)
    ensures OffsetsWritten([AwgWrite(SetOffset(ch, v)), Settle]) == [v]
    ensures Settles([AwgWrite(SetOffset(ch, v)), Settle]) == 1
  {
    var write := [AwgWrite(SetOffset(ch, v))];
    var tail := write + [Settle];
    assert tail[..|tail| - 1] == write;
    assert write[..|write| - 1] == [];
    assert OffsetsWritten(write) == [v];
    assert Settles(write) == 0;
    assert tail == [AwgWrite(SetOffset(ch, v)), Settle];
  }

  /** The first `k` offsets are the first `k - 1` followed by offset `k - 1`. */
  lemma OffsetsSnoc(vmin: real, step: real, k: nat)
    requires k > 0
    ensures seq(k, i requires 0 <= i < k => OffsetAt(vmin, step, i)) ==
            seq(k - 1, i requires 0 <= i < k - 1 => OffsetAt(vmin, step, i)) + [OffsetAt(vmin, step, k - 1)]
  {
  }

  /** Over `k` iterations a nonzero step writes exactly the offsets
      `vmin + i * step`, `i < k`, each followed by a settling wait; a zero
      step writes nothing and never waits. */
  lemma {:induction false} RampOffsets(ch: int, vmin: real, step: real, k: nat)
    ensures OffsetsWritten(RampLog(ch, vmin, step, k)) ==
            if step == 0.0 then [] else seq(k, i requires 0 <= i < k => OffsetAt(vmin, step, i))
    ensures Settles(RampLog(ch, vmin, step, k)) == if step == 0.0 then 0 else k
  {
    if step != 0.0 && k != 0 {
      var v := OffsetAt(vmin, step, k - 1);
      RampOffsets(ch, vmin, step, k - 1);
      OffsetsWrittenAppend(RampLog(ch, vmin, step, k - 1), [AwgWrite(SetOffset(ch, v)), Settle]);
      IterationEvents(ch, v);
      OffsetsSnoc(vmin, step, k);
    }
  }

  /** With `limit >= 2` the ramp step lands the last offset exactly on
      `vmax`. */
  lemma RampEndpoint(cawg: int, limit: int, vmin: int, vmax: int)
    requires cawg != 0 && limit >= 2
    ensures RampStep(cawg, limit, vmin, vmax).Some?
    ensures OffsetAt(vmin as real, RampStep(cawg, limit, vmin, vmax).value, limit - 1) == vmax as real
  {
  }

  /** A ramp over `limit >= 2` samples writes exactly `limit` offsets in the
      loop, the first `vmin` and the last `vmax`, each one step above the
      one before, whenever `vmin != vmax`. */
  lemma LoopOffsetsSpanRange(cawg: int, limit: int, vmin: int, vmax: int)
    requires cawg != 0 && limit >= 2 && vmin != vmax
    ensures RampStep(cawg, limit, vmin, vmax).Some?
    ensures var step := RampStep(cawg, limit, vmin, vmax).value;
      var offs := OffsetsWritten(RampLog(cawg, vmin as real, step, limit));
      && |offs| == limit && offs[0] == vmin as real && offs[limit - 1] == vmax as real
      && forall i :: 0 < i < |offs| ==> offs[i] - offs[i - 1] == step
  {
    var step := RampStep(cawg, limit, vmin, vmax).value;
    RampOffsets(cawg, vmin as real, step, limit);
    RampEndpoint(cawg, limit, vmin, vmax);
  }

  /** The number of samples a run with a nonzero `limit` takes. */
  function Iterations(limit: int): nat {
    if limit > 0 then limit else 0
  }

  /** The AWG log of a completed run: the setup writes when a channel is
      selected, then the ramp. */
  function RunLog(cawg: int, limit: int, vmin: int, step: real): seq<Event> {
    (if cawg != 0 then SetupWrites(cawg, vmin) else []) + RampLog(cawg, vmin as real, step, Iterations(limit))
  }

  /** Over a whole run with a sample limit, the AWG is programmed to `vmin`
      once at setup when a channel is selected, and then once per sample
      with a settling wait each, exactly when the step is nonzero; with no
      channel selected, or `vmin == vmax`, the loop writes nothing. */
  lemma {:induction false} RunOffsets(cawg: int, limit: int, vmin: int, vmax: int)
    requires limit != 0 && !(cawg != 0 && limit == 1)
    ensures RampStep(cawg, limit, vmin, vmax).Some?
    ensures var step := RampStep(cawg, limit, vmin, vmax).value;
      var log := RunLog(cawg, limit, vmin, step);
      && OffsetsWritten(log) ==
           (if cawg != 0 then [vmin as real] else []) +
           (if step == 0.0 then [] else seq(Iterations(limit), i requires 0 <= i < Iterations(limit) => OffsetAt(vmin as real, step, i)))
      && Settles(log) == (if step == 0.0 then 0 else Iterations(limit))
      && (cawg == 0 || vmin == vmax ==> Settles(log) == 0 && |OffsetsWritten(log)| == (if cawg != 0 then 1 else 0))
  {
    var step := RampStep(cawg, limit, vmin, vmax).value;
    var setup := if cawg != 0 then SetupWrites(cawg, vmin) else [];
    RampOffsets(cawg, vmin as real, step, Iterations(limit));
    OffsetsWrittenAppend(setup, RampLog(cawg, vmin as real, step, Iterations(limit)));
    if cawg != 0 {
      SetupOffsets(cawg, vmin);
    }
  }

  /** The setup writes program one offset, `vmin`, and never wait. */
  lemma SetupOffsets(cawg: int, vmin: int)
    ensures OffsetsWritten(SetupWrites(cawg, vmin)) == [vmin as real]
    ensures Settles(SetupWrites(cawg, vmin)) == 0
  {
    var w := SetupWrites(cawg, vmin);
    assert w[..1][..0] == [];
    assert OffsetsWritten(w[..1]) == [] && Settles(w[..1]) == 0;
    assert w[..2][..1] == w[..1];
    assert OffsetsWritten(w[..2]) == [] && Settles(w[..2]) == 0;
    assert w[..3][..2] == w[..2];
    assert OffsetsWritten(w[..3]) == [vmin as real] && Settles(w[..3]) == 0;
    assert w[..4][..3] == w[..3];
    assert w[..4] == w;
  }

  /** Ramping 0 V to 4 V over five samples programs 0, 1, 2, 3 and 4 V. */
  lemma FiveSampleRamp()
    ensures RampStep(1, 5, 0, 4) == Some(1.0)
    ensures OffsetsWritten(RampLog(1, 0.0, 1.0, 5)) == [0.0, 1.0, 2.0, 3.0, 4.0]
  {
    RampOffsets(1, 0.0, 1.0, 5);
  }
}
