/** The sampling loop of the data logger: a `Logger` holds the loop counter,
    the running AWG offset, the start instant, the elapsed-time list `xpts`,
    one reading list per channel in `ypts`, the per-name dictionary
    `rawData`, and the log of everything sent to the AWG.

    The clock is a sequence of timestamps (seconds), one per iteration, and
    the scope's triggered voltage measurement is an oracle
    `level(iteration, channelIndex)`. */
module Sampling {
  import opened Wrappers
  import opened Ramp

  /** The column of readings taken in iteration `i`, in channel order. */
  function Reading(ypts: seq<seq<real>>, i: nat): (row: seq<real>)
    requires forall idx :: 0 <= idx < |ypts| ==> i < |ypts[idx]|
    ensures |row| == |ypts|
  {
    seq(|ypts|, idx requires 0 <= idx < |ypts| => ypts[idx][i])
  }

  /** The readings of `row` that were taken on a channel named `ch`, in
      channel order. */
  function Picked(ch: string, chs: seq<string>, row: seq<real>): seq<real>
    requires |chs| == |row|
  {
    if chs == [] then []
    else
      Picked(ch, chs[..|chs| - 1], row[..|row| - 1]) +
      if chs[|chs| - 1] == ch then [row[|row| - 1]] else []
  }

  /** What `raw_data[ch]` holds after `k` iterations: every reading taken on
      a channel named `ch`, iteration by iteration and in channel order
      within an iteration. */
  function Merged(ch: string, chs: seq<string>, ypts: seq<seq<real>>, k: nat): seq<real>
    requires |ypts| == |chs|
    requires forall idx :: 0 <= idx < |ypts| ==> k <= |ypts[idx]|
  {
    if k == 0 then []
    else Merged(ch, chs, ypts, k - 1) + Picked(ch, chs, Reading(ypts, k - 1))
  }

  /** Extending the channel prefix by one channel picks that channel's
      reading for its own name and nothing for any other name. */
  lemma PickedStep(ch: string, chs: seq<string>, row: seq<real>, idx: nat)
    requires |chs| == |row| && idx < |chs|
    ensures Picked(ch, chs[..idx + 1], row[..idx + 1]) ==
      Picked(ch, chs[..idx], row[..idx]) + (if chs[idx] == ch then [row[idx]] else [])
  {
    assert chs[..idx + 1][..idx] == chs[..idx];
    assert row[..idx + 1][..idx] == row[..idx];
  }

  /** `Merged` looks only at the first `k` readings of each channel. */
  lemma {:induction false} MergedPrefix(ch: string, chs: seq<string>, a: seq<seq<real>>, b: seq<seq<real>>, k: nat)
    requires |a| == |chs| && |b| == |chs|
    requires forall idx :: 0 <= idx < |chs| ==> k <= |a[idx]| && k <= |b[idx]| && a[idx][..k] == b[idx][..k]
    ensures Merged(ch, chs, a, k) == Merged(ch, chs, b, k)
  {
    if k > 0 {
      forall idx | 0 <= idx < |chs|
        ensures k - 1 <= |a[idx]| && k - 1 <= |b[idx]| && a[idx][..k - 1] == b[idx][..k - 1]
      {
        assert a[idx][..k - 1] == a[idx][..k][..k - 1];
        assert b[idx][..k - 1] == b[idx][..k][..k - 1];
      }
      MergedPrefix(ch, chs, a, b, k - 1);
      assert Reading(a, k - 1) == Reading(b, k - 1) by {
        forall idx | 0 <= idx < |chs| ensures a[idx][k - 1] == b[idx][k - 1] {
          assert a[idx][k - 1] == a[idx][..k][k - 1];
          assert b[idx][k - 1] == b[idx][..k][k - 1];
        }
      }
    }
  }

  /** Appending one reading to every channel's list appends that
      iteration's readings for `ch` to `Merged`. */
  lemma MergedAppendRow(ch: string, chs: seq<string>, before: seq<seq<real>>, after: seq<seq<real>>,
                        row: seq<real>, k: nat)
    requires |before| == |chs| && |after| == |chs| && |row| == |chs|
    requires forall idx :: 0 <= idx < |chs| ==> |before[idx]| == k && after[idx] == before[idx] + [row[idx]]
    ensures Merged(ch, chs, after, k + 1) == Merged(ch, chs, before, k) + Picked(ch, chs, row)
  {
    forall idx | 0 <= idx < |chs| ensures after[idx][..k] == before[idx][..k] {
      assert after[idx][..k] == before[idx];
    }
    MergedPrefix(ch, chs, after, before, k);
    assert Reading(after, k) == row;
  }

  /** The parallel accumulators after `|xpts|` samples: one reading list
      per channel, as long as `xpts`, and one `rawData` list per channel
      name holding that name's readings. */
  ghost predicate Accumulated(chs: seq<string>, xpts: seq<real>, ypts: seq<seq<real>>,
                              rawData: map<string, seq<real>>)
  {
    && |ypts| == |chs|
    && (forall idx :: 0 <= idx < |ypts| ==> |ypts[idx]| == |xpts|)
    && (forall ch :: ch in rawData <==> ch in chs)
    && (forall ch :: ch in rawData ==> rawData[ch] == Merged(ch, chs, ypts, |xpts|))
  }

  /** Appending one elapsed time, and one reading per channel to both
      `ypts` and `rawData`, keeps the accumulators parallel. */
  lemma AccumulatedAppend(chs: seq<string>, xpts: seq<real>, ypts: seq<seq<real>>, rawData: map<string, seq<real>>,
                          x: real, row: seq<real>, ypts': seq<seq<real>>, rawData': map<string, seq<real>>)
    requires Accumulated(chs, xpts, ypts, rawData) && |row| == |chs|
    requires |ypts'| == |chs| && forall idx :: 0 <= idx < |chs| ==> ypts'[idx] == ypts[idx] + [row[idx]]
    requires rawData'.Keys == rawData.Keys
    requires forall ch :: ch in rawData' ==> rawData'[ch] == rawData[ch] + Picked(ch, chs, row)
    ensures Accumulated(chs, xpts + [x], ypts', rawData')
  {
    var k := |xpts|;
    assert |xpts + [x]| == k + 1;
    forall idx | 0 <= idx < |chs| ensures |ypts[idx]| == k && |ypts'[idx]| == k + 1 {
    }
    forall ch | ch in rawData'
      ensures rawData'[ch] == Merged(ch, chs, ypts', k + 1)
    {
      assert rawData[ch] == Merged(ch, chs, ypts, k);
      MergedAppendRow(ch, chs, ypts, ypts', row, k);
    }
  }

  /** When no two channels share a name, a channel's own reading is the only
      one picked for its name. */
  lemma {:induction false} PickedDistinct(chs: seq<string>, row: seq<real>, idx: nat)
    requires |chs| == |row| && idx < |chs|
    requires forall i, j :: 0 <= i < j < |chs| ==> chs[i] != chs[j]
    ensures Picked(chs[idx], chs, row) == [row[idx]]
  {
    var last := |chs| - 1;
    if idx == last {
      assert Picked(chs[idx], chs[..last], row[..last]) == [] by {
        PickedAbsent(chs[idx], chs[..last], row[..last]);
      }
    } else {
      PickedDistinct(chs[..last], row[..last], idx);
    }
  }

  /** No reading is picked for a name no channel carries. */
  lemma {:induction false} PickedAbsent(ch: string, chs: seq<string>, row: seq<real>)
    requires |chs| == |row|
    requires forall i :: 0 <= i < |chs| ==> chs[i] != ch
    ensures Picked(ch, chs, row) == []
  {
    if chs != [] {
      PickedAbsent(ch, chs[..|chs| - 1], row[..|row| - 1]);
    }
  }

  /** With distinct channel names, `raw_data[channels[idx]]` is exactly
      the reading list `ypts[idx]`; only repeated names merge lists. */
  lemma {:induction false} MergedDistinct(chs: seq<string>, ypts: seq<seq<real>>, k: nat, idx: nat)
    requires |ypts| == |chs| && idx < |chs|
    requires forall i :: 0 <= i < |ypts| ==> k <= |ypts[i]|
    requires forall i, j :: 0 <= i < j < |chs| ==> chs[i] != chs[j]
    ensures Merged(chs[idx], chs, ypts, k) == ypts[idx][..k]
  {
    if k > 0 {
      MergedDistinct(chs, ypts, k - 1, idx);
      PickedDistinct(chs, Reading(ypts, k - 1), idx);
      assert ypts[idx][..k] == ypts[idx][..k - 1] + [ypts[idx][k - 1]];
    }
  }

  /** Two channels both named "CH1" share one `raw_data` list, which
      interleaves their readings. */
  lemma RepeatedNameMerges(a0: real, b0: real, a1: real, b1: real)
    ensures Merged("CH1", ["CH1", "CH1"], [[a0, a1], [b0, b1]], 2) == [a0, b0, a1, b1]
  {
    var chs := ["CH1", "CH1"];
    var ypts := [[a0, a1], [b0, b1]];
    assert chs[..1] == ["CH1"] && chs[..1][..0] == [];
    assert Reading(ypts, 0) == [a0, b0] && Reading(ypts, 1) == [a1, b1];
    assert Picked("CH1", chs, [a0, b0]) == [a0, b0] by {
      assert [a0, b0][..1] == [a0] && [a0][..0] == [];
      assert Picked("CH1", ["CH1"], [a0]) == [a0];
    }
    assert Picked("CH1", chs, [a1, b1]) == [a1, b1] by {
      assert [a1, b1][..1] == [a1] && [a1][..0] == [];
      assert Picked("CH1", ["CH1"], [a1]) == [a1];
    }
    assert Merged("CH1", chs, ypts, 1) == [a0, b0] by {
      assert Merged("CH1", chs, ypts, 0) == [];
    }
  }

  /** How a run ended: all samples taken, or aborted by the division by
      zero in the ramp step before the first sample. */
  datatype Outcome = Completed | DivisionByZero

  class Logger {
    const channels: seq<string>

    var n: nat                           // samples taken so far
    var vawg: real                       // the next AWG offset to program
    var start: Option<real>              // timestamp of the first sample
    var xpts: seq<real>                  // elapsed time of each sample
    var ypts: seq<seq<real>>             // readings, one list per channel
    var rawData: map<string, seq<real>>  // readings, one list per channel name
    var awgLog: seq<Event>               // everything sent to the AWG, in order

    /** The invariant the sampling loop keeps after every iteration. */
    ghost predicate Valid()
      reads this
    {
      && Accumulated(channels, xpts, ypts, rawData)
      && n == |xpts|
      && (start.None? <==> xpts == [])
      && (xpts != [] ==> xpts[0] == 0.0)
    }

    /** The accumulators as they are before the first sample. */
    constructor (channels: seq<string>)
      ensures Valid()
      ensures this.channels == channels
      ensures n == 0 && start == None && xpts == [] && awgLog == []
      ensures forall idx :: 0 <= idx < |ypts| ==> ypts[idx] == []
      ensures forall ch :: ch in rawData ==> rawData[ch] == []
    {
      this.channels := channels;
      n := 0;
      vawg := 0.0;
      start := None;
      xpts := [];
      ypts := seq(|channels|, _ => []);
      rawData := map ch | ch in channels :: [];
      awgLog := [];
    }

    /** The inner loop of one iteration: appends `readings[idx]` to the
        list of `channels[idx]` and to the `rawData` list of its name, in
        channel order. */
    method RecordReadings(readings: seq<real>)
      requires |ypts| == |channels| && |readings| == |channels|
      requires forall ch :: ch in channels ==> ch in rawData
      modifies this`ypts, this`rawData
      ensures |ypts| == |channels|
      ensures forall idx :: 0 <= idx < |channels| ==> ypts[idx] == old(ypts)[idx] + [readings[idx]]
      ensures rawData.Keys == old(rawData).Keys
      ensures forall ch :: ch in rawData ==> rawData[ch] == old(rawData)[ch] + Picked(ch, channels, readings)
    {
      var idx := 0;
      while idx < |channels|
        invariant 0 <= idx <= |channels|
        invariant |ypts| == |channels|
        invariant forall j :: 0 <= j < idx ==> ypts[j] == old(ypts)[j] + [readings[j]]
        invariant forall j :: idx <= j < |channels| ==> ypts[j] == old(ypts)[j]
        invariant rawData.Keys == old(rawData).Keys
        invariant forall ch :: ch in rawData ==>
          rawData[ch] == old(rawData)[ch] + Picked(ch, channels[..idx], readings[..idx])
      {
        var ch := channels[idx];
        var v := readings[idx];
        ypts := ypts[idx := ypts[idx] + [v]];
        rawData := rawData[ch := rawData[ch] + [v]];
        forall c | c in rawData
          ensures rawData[c] == old(rawData)[c] + Picked(c, channels[..idx + 1], readings[..idx + 1])
        {
          PickedStep(c, channels, readings, idx);
        }
        idx := idx + 1;
      }
      assert channels[..|channels|] == channels && readings[..|readings|] == readings;
    }

    /** One iteration of the sampling loop on AWG channel `awgch` with ramp
        step `dvawg`, at clock reading `now`, with `readings[idx]` the value
        measured on `channels[idx]`. */
    method Sample(awgch: int, dvawg: real, now: real, readings: seq<real>)
      requires Valid()
      requires |readings| == |channels|
      modifies this
      ensures Valid()
      ensures n == old(n) + 1
      ensures dvawg != 0.0 ==> awgLog == old(awgLog) + [AwgWrite(SetOffset(awgch, old(vawg))), Settle]
                               && vawg == old(vawg) + dvawg
      ensures dvawg == 0.0 ==> awgLog == old(awgLog) && vawg == old(vawg)
      ensures start == Some(if old(start).Some? then old(start).value else now)
      ensures xpts == old(xpts) + [now - start.value]
      ensures forall idx :: 0 <= idx < |channels| ==> ypts[idx] == old(ypts)[idx] + [readings[idx]]
      ensures forall ch :: ch in rawData ==> rawData[ch] == old(rawData)[ch] + Picked(ch, channels, readings)
    {
      if dvawg != 0.0 {
        awgLog := awgLog + [AwgWrite(SetOffset(awgch, vawg))];
        vawg := vawg + dvawg;
        awgLog := awgLog + [Settle];
      }

      if start.None? {
        start := Some(now);
      }
      var elapsed := now - start.value;
      xpts := xpts + [elapsed];

      RecordReadings(readings);
      n := n + 1;
      AccumulatedAppend(channels, old(xpts), old(ypts), old(rawData), elapsed, readings, ypts, rawData);
    }

    /** The sampling loop proper: `limit` iterations on AWG channel
        `awgch` with ramp step `dvawg`, starting the ramp at `vmin`. */
    method SamplingLoop(limit: int, awgch: int, vmin: int, dvawg: real,
                        clock: seq<real>, level: (nat, nat) -> real)
      requires Valid() && xpts == []
      requires limit != 0
      requires limit <= |clock|
      modifies this
      ensures Valid()
      ensures n == Iterations(limit)
      ensures forall i :: 0 <= i < n ==> xpts[i] == clock[i] - clock[0]
      ensures forall idx, i :: 0 <= idx < |channels| && 0 <= i < n ==> ypts[idx][i] == level(i, idx)
      ensures start == (if n == 0 then None else Some(clock[0]))
      ensures vawg == OffsetAt(vmin as real, dvawg, n)
      ensures awgLog == old(awgLog) + RampLog(awgch, vmin as real, dvawg, n)
    {
      n := 0;
      start := None;
      vawg := vmin as real;
      while n < limit || limit == 0
        invariant Valid()
        invariant n <= Iterations(limit)
        invariant forall i :: 0 <= i < n ==> xpts[i] == clock[i] - clock[0]
        invariant forall idx, i :: 0 <= idx < |channels| && 0 <= i < n ==> ypts[idx][i] == level(i, idx)
        invariant start == (if n == 0 then None else Some(clock[0]))
        invariant vawg == OffsetAt(vmin as real, dvawg, n)
        invariant awgLog == old(awgLog) + RampLog(awgch, vmin as real, dvawg, n)
        decreases limit - n
      {
        var i := n;
        var readings := seq(|channels|, idx requires 0 <= idx < |channels| => level(i, idx));
        ghost var ys := ypts;
        Sample(awgch, dvawg, clock[i], readings);
        forall idx, j | 0 <= idx < |channels| && 0 <= j < n
          ensures ypts[idx][j] == level(j, idx)
        {
          if j < i {
            assert ypts[idx][j] == ys[idx][j];
          }
        }
      }
    }

    /** A whole run: the setup decisions, then `limit` samples (none when
        `limit` is negative). `clock[i]` is the timestamp read in iteration
        `i`; `level(i, idx)` is the reading of `channels[idx]` in
        iteration `i`. */
    method Run(limit: int, cawg: int, vmin: int, vmax: int, scrollmode: bool,
               clock: seq<real>, level: (nat, nat) -> real)
      returns (warning: Warning, outcome: Outcome)
      requires Valid() && xpts == [] && awgLog == []
      requires limit != 0
      requires limit <= |clock|
      modifies this
      ensures Valid()
      ensures warning == RollWarning(cawg, limit, scrollmode)
      ensures outcome == DivisionByZero <==> cawg != 0 && limit == 1
      ensures outcome == DivisionByZero ==> xpts == [] && awgLog == SetupWrites(cawg, vmin)
      ensures outcome == Completed ==> n == Iterations(limit) && |xpts| == n
      ensures outcome == Completed ==> forall i :: 0 <= i < n ==> xpts[i] == clock[i] - clock[0]
      ensures outcome == Completed ==>
        forall idx, i :: 0 <= idx < |channels| && 0 <= i < n ==> ypts[idx][i] == level(i, idx)
      ensures outcome == Completed ==> start == (if n == 0 then None else Some(clock[0]))
      ensures outcome == Completed ==>
        awgLog == RunLog(cawg, limit, vmin, RampStep(cawg, limit, vmin, vmax).value)
    {
      warning := RollWarning(cawg, limit, scrollmode);
      if AwgActive(cawg, limit) {
        awgLog := awgLog + SetupWrites(cawg, vmin);
      }
      var dvawg := 0.0;
      match RampStep(cawg, limit, vmin, vmax) {
        case None =>
          outcome := DivisionByZero;
          return;
        case Some(s) =>
          dvawg := s;
      }
      outcome := Completed;
      SamplingLoop(limit, cawg, vmin, dvawg, clock, level);
    }
  }

  /** After a run over distinct channel names, each name's `raw_data` list
      is that channel's reading list. */
  lemma RawDataMirrorsColumns(l: Logger, idx: nat)
    requires l.Valid() && idx < |l.channels|
    requires forall i, j :: 0 <= i < j < |l.channels| ==> l.channels[i] != l.channels[j]
    ensures l.channels[idx] in l.rawData && l.rawData[l.channels[idx]] == l.ypts[idx]
  {
    MergedDistinct(l.channels, l.ypts, |l.xpts|, idx);
    assert l.ypts[idx][..|l.xpts|] == l.ypts[idx];
  }
}
