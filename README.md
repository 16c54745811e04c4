# Data logger: setup, sampling loop and result table

This project models the bookkeeping of `datalogger.py`. That script logs
oscilloscope (DSO) channel voltages at a fixed interval. It can also sweep
the DC offset of a waveform generator (AWG) channel from `vmin` to `vmax`,
one step per sample. When the loop ends it writes a CSV table and can plot
the series. The instruments and the clock are replaced by inputs:

- the DSO's roll-mode answer is the bool `scrollmode`;
- the wall clock is a sequence `clock` of timestamps in seconds, one per
  iteration;
- `measure_level` is an oracle `level(iteration, channelIndex)`;
- everything sent to the AWG is appended to a log `awgLog` of `Event`s.
  An event is an AWG write (`AwgCommand`) or a settling wait (`Settle`, the
  script's `wait()`).

Modules:

- `Ramp` (`ramp.dfy`) holds the setup decisions, which are pure functions:
  - the roll-mode warning (`RollWarning`);
  - whether the AWG is set up at all (`AwgActive`), and its four setup
    writes (`SetupWrites`);
  - the ramp step `dvawg` (`RampStep`). It is `None` for the division by
    zero that aborts a one-sample run with an AWG channel selected.
  It also specifies the events the loop sends for a ramp (`RampLog`, and
  `RunLog` for a whole run), with lemmas on the offsets written
  (`OffsetsWritten`) and the settling waits (`Settles`).
- `Sampling` (`sampling.dfy`) holds `class Logger`. Its fields are the
  script's module-level state:
  - `n`, `vawg` and `start`;
  - the parallel lists `xpts` and `ypts`;
  - the per-name dictionary `rawData`;
  - the AWG log.
  `Valid()` is the invariant kept after every iteration. `RecordReadings`
  is the inner per-channel loop, `Sample` is one iteration, `SamplingLoop`
  is the `while` loop, and `Run` is setup followed by the loop. `Merged`
  says what `raw_data[ch]` holds, including when two channels share a name.
- `Results` (`results.dfy`) holds `create_csv` as the method `CreateCsv`,
  with nested loops. `IsTable` gives the layout: the header, then one row
  per sample. A read-back (`HeaderChannels`, `Column`) recovers the inputs.
  This module also models the plot's colour choice.
- `DataLogger` (`datalogger.dfy`) is the run followed by the table, as at
  the end of the script.

Voltages, elapsed times and the ramp step are exact `real`s. Python's floats
are idealised, so every ramp property is stated in exact arithmetic.

In three places the code behaves differently from what a reader might expect, and the model follows the code:

- A one-sample run with an AWG channel selected (`-n 1 -awg 1`) is not
  treated as "no ramp". The code prints the roll-mode warning if the scope
  is in roll mode, sends the four AWG setup writes, and then divides by zero at `datalogger.py:85`. No
  sample is taken. `Run` returns `DivisionByZero` in exactly that case, and
  the log then holds exactly the setup writes.
- Elapsed times are not claimed to be strictly increasing. The code only
  computes `now - start`, and the model takes whatever clock readings it is
  given. What is proved is that the first elapsed time is exactly 0 and
  that every one is `clock[i] - clock[0]`.
- A negative sample limit is accepted by the argument parser. With a
  negative limit and an AWG channel, the AWG is set up and a step is
  computed, but the loop runs zero times. `Iterations` models this.

## Model

| member | source | states |
|---|---|---|
| `Ramp.RollWarning` | datalogger.py:74-79 | With no AWG channel, a warning is issued iff roll mode is off. With an AWG channel and a sample limit, a warning is issued iff roll mode is on. With an AWG channel and no limit, there is no warning. Each warning kind implies its cause. |
| `Ramp.RampStep` | datalogger.py:70-85 | The step is undefined (division by zero) iff the AWG is active and `limit == 1`. It is nonzero iff the AWG is active, `limit != 1` and `vmin != vmax`. When the AWG is active, `step * (limit - 1) == vmax - vmin`. |
| `Ramp.SetupOffsets` | datalogger.py:80-84 | The AWG setup programs exactly one offset, `vmin`, and issues no settling wait. |
| `Ramp.RampOffsets` | datalogger.py:101-106 | Over `k` iterations, a nonzero step writes exactly the offsets `vmin + i*step` for `i < k`, in order, with one settling wait each. A zero step writes nothing and never waits. |
| `Ramp.RampEndpoint` | datalogger.py:85 | For `limit >= 2` the step is defined, and the offset before the last sample, `vmin + (limit-1)*step`, equals `vmax` exactly. |
| `Ramp.LoopOffsetsSpanRange` | datalogger.py:99-106 | A ramp over `limit >= 2` samples with `vmin != vmax` writes exactly `limit` offsets in the loop. The first is `vmin`, the last is `vmax`, and consecutive offsets differ by the step. |
| `Ramp.RunOffsets` | datalogger.py:74-106 | Over a whole limited run, the offsets written are `vmin` once at setup (when a channel is selected), then `vmin + i*step` for each sample when the step is nonzero. There is one wait per loop write. With no channel selected, or `vmin == vmax`, the loop sends no offset write and no wait. |
| `Ramp.FiveSampleRamp` | datalogger.py:85-106 | Five samples ramping 0 V to 4 V program the offsets 0, 1, 2, 3 and 4 V, with a step of 1 V. |
| `Sampling.MergedDistinct` | datalogger.py:115-118 | When no two channels share a name, `raw_data[channels[idx]]` after `k` samples is exactly the first `k` readings of `ypts[idx]`. |
| `Sampling.RepeatedNameMerges` | datalogger.py:90 | For example, two channels both named `CH1`, over two samples, share one `raw_data` list, which interleaves their readings sample by sample (`a0, b0, a1, b1`). |
| `Sampling.RawDataMirrorsColumns` | datalogger.py:90-95 | For any valid logger state with distinct channel names, each name's `raw_data` list equals that channel's `ypts` list. |
| `Sampling.Logger.constructor` | datalogger.py:87-95 | The accumulators start out empty: one empty reading list per channel, one empty `raw_data` list per name, no samples and no start time. |
| `Sampling.Logger.RecordReadings` | datalogger.py:115-118 | In channel order, each `ypts[idx]` gains exactly that channel's reading. Each `raw_data` name gains the readings of the channels with that name. The set of keys is unchanged. |
| `Sampling.Logger.Sample` | datalogger.py:103-121 | One iteration. When the step is nonzero, it writes the current offset, waits, and advances `vawg` by the step; otherwise it changes neither. It fixes `start` on the first sample and never changes it afterwards. It appends `now - start` to `xpts` and one reading per channel. It advances `n` by one and keeps `Valid()`. |
| `Sampling.Logger.SamplingLoop` | datalogger.py:99-122 | The loop runs exactly `Iterations(limit)` times. Afterwards `xpts[i] == clock[i] - clock[0]`, `ypts[idx][i] == level(i, idx)`, `start` is the first timestamp, and `vawg` is `vmin + n*step`. The AWG log gained exactly `RampLog`. |
| `Sampling.Logger.Run` | datalogger.py:68-122 | The warning is `RollWarning`. The run aborts with `DivisionByZero` iff an AWG channel is selected and `limit == 1`, after the setup writes and before any sample. Otherwise it takes exactly `Iterations(limit)` samples, each with the elapsed times, readings and start above, and the AWG sees exactly `RunLog`. |
| `Results.CreateCsv` | datalogger.py:40-50 | The header is `Timestamp`, `Elapsed Time [s]`, then the channels. There are exactly `len(xpts)` rows. Row `i` is the time `start + xpts[i]`, the elapsed `xpts[i]`, then `ypts[j][i]` for each channel `j` in order. |
| `Results.CsvRoundTrip` | datalogger.py:43-50 | Reading a table back recovers the channel list from the header, `xpts` from column 1, each `ypts[j]` (up to `len(xpts)`) from column `2 + j`, and `start + xpts[i]` from column 0. Every row has `2 + len(channels)` fields. |
| `Results.ColorIndex` | datalogger.py:30-36 | The colour index is always within the four-colour palette. Channels 0 to 3 get their own index. |
| `Results.PlotSeries` | datalogger.py:35-36 | There is one series per channel, in order. Each series is labelled with its channel, plots `xpts` against that channel's `ypts`, and has a colour from the palette. Channels 0 to 3 get the palette's colours in order. |
| `Results.PaletteCycles` | datalogger.py:30-36 | Neighbouring channels get different colours, and the colour repeats every four channels. |
| `DataLogger.LoggerTabulable` | datalogger.py:125-130 | Every valid logger state meets `create_csv`'s needs: a reading for every channel at every sample, and a start time once there is a sample. |
| `DataLogger.LogToCsv` | datalogger.py:99-130 | After a completed run, the table has one row per sample. Row `i` holds the clock reading `clock[i]`, the elapsed `clock[i] - clock[0]`, and `level(i, idx)` for each channel. The logger stays valid, and the AWG sees exactly `RunLog`. On the division-by-zero abort, no table is built, no sample is taken, and the AWG has seen only the setup writes. |

## Left out

- Instrument I/O is not modelled: `dso.query`, `awg.write`, `measure_level`, `active_channels` and `close_resources` come from the `eelib` library and pyvisa, and `eelib` is not part of this model. Readings are an oracle, AWG writes are log entries, and the channel list is an input.
- One call of `wait()` (datalogger.py:22-26), that is the 0.5 s delay together with both `*OPC?` operation-complete polls, is recorded as a single `Settle` event. The inter-sample `time.sleep` (datalogger.py:122) is not modelled.
- `datetime.now()` (datalogger.py:108) is replaced by the input sequence `clock` of timestamps in seconds. `timedelta` and microsecond resolution are idealised as real subtraction and addition.
- Text formatting is not modelled: `strftime`, the `:.3f`, `:.5f` and `:9.3f` formats, and the console `print`s (datalogger.py:47-49, 92-96, 113, 119). CSV fields are abstract values (`Field`).
- Floating-point rounding of `vawg = vawg + dvawg` and of the division is not modelled. All ramp properties hold in exact real arithmetic only.
- `Sampling.Logger.Run`: requires `limit != 0`. The unlimited mode (`limit == 0`) never leaves its loop (datalogger.py:102) and has no terminating model. Its setup decisions are still modelled: `RollWarning` gives no warning when an AWG channel is selected, and since `AwgActive(cawg, 0)` is false, `RampStep` gives `Some(0.0)`.
- Argument parsing (datalogger.py:53-65), opening and writing the CSV file (datalogger.py:41-42, 44, 50), and the matplotlib calls in `plot` (datalogger.py:31-38) are not modelled beyond the series and colours they receive.
- `Sampling.Logger.constructor`: the logger's lists are created before the setup runs, whereas the script creates them after the setup. The only case where this is visible is the division-by-zero abort, where the script has not yet created them and the model leaves them empty.
- `Results.CreateCsv`: requires every channel's list to hold a reading for every sample, and `start` to be set when there is a sample. The script raises an exception otherwise. Its only caller always meets this requirement (`DataLogger.LoggerTabulable`).
