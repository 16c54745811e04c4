/** The data logger end to end: a run of the sampling loop followed by the
    CSV table built from its accumulators. */
module DataLogger {
  import opened Wrappers
  import opened Ramp
  import opened Sampling
  import opened Results

  /** A logger's accumulators always satisfy what the CSV builder needs. */
  lemma LoggerTabulable(l: Logger)
    requires l.Valid()
    ensures Tabulable(l.channels, l.xpts, l.ypts, l.start)
  {
  }

  /** Runs the logger and, when the run completes, tabulates its samples.
      The table has one row per sample, and its timestamp column gives back
      the clock reading of each sample; the AWG sees the run's setup and
      ramp writes. */
  method LogToCsv(l: Logger, limit: int, cawg: int, vmin: int, vmax: int, scrollmode: bool,
                  clock: seq<real>, level: (nat, nat) -> real)
    returns (warning: Warning, outcome: Outcome, header: seq<Field>, rows: seq<seq<Field>>)
    requires l.Valid() && l.xpts == [] && l.awgLog == []
    requires limit != 0
    requires limit <= |clock|
    modifies l
    ensures l.Valid()
    ensures warning == RollWarning(cawg, limit, scrollmode)
    ensures outcome == DivisionByZero <==> cawg != 0 && limit == 1
    ensures outcome == DivisionByZero ==> l.xpts == [] && l.awgLog == SetupWrites(cawg, vmin)
    ensures outcome == Completed ==>
      l.awgLog == RunLog(cawg, limit, vmin, RampStep(cawg, limit, vmin, vmax).value)
    ensures outcome == DivisionByZero ==> header == [] && rows == []
    ensures outcome == Completed ==>
      && header == Header(l.channels)
      && |rows| == Iterations(limit)
      && (forall i :: 0 <= i < |rows| ==> |rows[i]| == 2 + |l.channels|)
      && (forall i :: 0 <= i < |rows| ==> rows[i][0] == Stamp(clock[i]) && rows[i][1] == Seconds(clock[i] - clock[0]))
      && (forall i, idx :: 0 <= i < |rows| && 0 <= idx < |l.channels| ==> rows[i][2 + idx] == Volts(level(i, idx)))
  {
    header, rows := [], [];
    warning, outcome := l.Run(limit, cawg, vmin, vmax, scrollmode, clock, level);
    if outcome == Completed {
      LoggerTabulable(l);
      header, rows := CreateCsv(l.channels, l.xpts, l.ypts, l.start);
      forall i | 0 <= i < |rows|
        ensures |rows[i]| == 2 + |l.channels|
        ensures rows[i][0] == Stamp(clock[i]) && rows[i][1] == Seconds(clock[i] - clock[0])
        ensures forall idx :: 0 <= idx < |l.channels| ==> rows[i][2 + idx] == Volts(level(i, idx))
      {
        assert IsRow(rows[i], l.channels, l.xpts, l.ypts, l.start.value, i);
      }
    }
  }
}
