/** The result sink: the CSV table written after the sampling loop, and the
    colour each channel's series gets in the plot.

    Fields are abstract values; the text formatting of timestamps and of
    numbers to 3 or 5 decimals is not part of this model. */
module Results {
  import opened Wrappers

  /** One CSV field. */
  datatype Field =
    | Label(text: string)   // a header cell
    | Stamp(at: real)       // wall-clock time of a sample, in seconds
    | Seconds(value: real)  // elapsed time since the first sample
    | Volts(value: real)    // one channel's reading

  /** The header row: the two fixed column titles, then one column per
      channel in channel order. */
  function Header(channels: seq<string>): (h: seq<Field>)
    ensures |h| == 2 + |channels|
  {
    [Label("Timestamp"), Label("Elapsed Time [s]")] +
    seq(|channels|, j requires 0 <= j < |channels| => Label(channels[j]))
  }

  /** What `create_csv` needs of its inputs: a reading for every channel at
      every sample, and a start instant whenever there is a sample. */
  predicate Tabulable(channels: seq<string>, xpts: seq<real>, ypts: seq<seq<real>>, start: Option<real>) {
    && |channels| <= |ypts|
    && (forall j :: 0 <= j < |channels| ==> |xpts| <= |ypts[j]|)
    && (xpts != [] ==> start.Some?)
  }

  /** Row `i` of the table: the sample's wall-clock time, its elapsed time,
      then each channel's reading in channel order. */
  ghost predicate IsRow(row: seq<Field>, channels: seq<string>, xpts: seq<real>, ypts: seq<seq<real>>,
                        start: real, i: nat)
    requires Tabulable(channels, xpts, ypts, Some(start)) && i < |xpts|
  {
    && |row| == 2 + |channels|
    && row[0] == Stamp(start + xpts[i])
    && row[1] == Seconds(xpts[i])
    && forall j :: 0 <= j < |channels| ==> row[2 + j] == Volts(ypts[j][i])
  }

  /** The layout of the file: the header, then exactly one row per sample. */
  ghost predicate IsTable(header: seq<Field>, rows: seq<seq<Field>>,
                          channels: seq<string>, xpts: seq<real>, ypts: seq<seq<real>>, start: Option<real>)
    requires Tabulable(channels, xpts, ypts, start)
  {
    && header == Header(channels)
    && |rows| == |xpts|
    && forall i :: 0 <= i < |rows| ==> IsRow(rows[i], channels, xpts, ypts, start.value, i)
  }

  /** Builds the CSV header and data rows, row by row and field by field. */
  method CreateCsv(channels: seq<string>, xpts: seq<real>, ypts: seq<seq<real>>, start: Option<real>)
    returns (header: seq<Field>, rows: seq<seq<Field>>)
    requires Tabulable(channels, xpts, ypts, start)
    ensures IsTable(header, rows, channels, xpts, ypts, start)
  {
    header := Header(channels);
    rows := [];
    var i := 0;
    while i < |xpts|
      invariant 0 <= i <= |xpts|
      invariant |rows| == i
      invariant forall r :: 0 <= r < i ==> IsRow(rows[r], channels, xpts, ypts, start.value, r)
    {
      var row := [Stamp(start.value + xpts[i]), Seconds(xpts[i])];
      var j := 0;
      while j < |channels|
        invariant 0 <= j <= |channels|
        invariant |row| == 2 + j
        invariant row[0] == Stamp(start.value + xpts[i]) && row[1] == Seconds(xpts[i])
        invariant forall c :: 0 <= c < j ==> row[2 + c] == Volts(ypts[c][i])
      {
        row := row + [Volts(ypts[j][i])];
        j := j + 1;
      }
      rows := rows + [row];
      i := i + 1;
    }
  }

  /** The channel names read back from a header row, if it is one. */
  function HeaderChannels(header: seq<Field>): Option<seq<string>> {
    if |header| < 2 || header[0] != Label("Timestamp") || header[1] != Label("Elapsed Time [s]") then None
    else if forall c :: 2 <= c < |header| ==> header[c].Label? then
      Some(seq(|header| - 2, j requires 0 <= j < |header| - 2 => header[j + 2].text))
    else None
  }

  /** Column `c` of the data rows, read back as numbers. */
  function Column(rows: seq<seq<Field>>, c: nat): seq<real>
    requires forall i :: 0 <= i < |rows| ==> c < |rows[i]| && !rows[i][c].Label?
  {
    seq(|rows|, i requires 0 <= i < |rows| =>
      match rows[i][c]
      case Stamp(t) => t
      case Seconds(x) => x
      case Volts(v) => v)
  }

  /** Reading a table back gives the channel list from its header, the
      elapsed times from column 1, each channel's readings from column
      `2 + j`, and from column 0 the start instant plus each elapsed time. */
  lemma CsvRoundTrip(header: seq<Field>, rows: seq<seq<Field>>,
                     channels: seq<string>, xpts: seq<real>, ypts: seq<seq<real>>, start: Option<real>)
    requires Tabulable(channels, xpts, ypts, start)
    requires IsTable(header, rows, channels, xpts, ypts, start)
    ensures HeaderChannels(header) == Some(channels)
    ensures forall i :: 0 <= i < |rows| ==> 1 < |rows[i]| && rows[i][1].Seconds?
    ensures forall i :: 0 <= i < |rows| ==> 0 < |rows[i]| && rows[i][0].Stamp?
    ensures Column(rows, 1) == xpts
    ensures forall i :: 0 <= i < |rows| ==> |rows[i]| == 2 + |channels|
    ensures forall i, c :: 0 <= i < |rows| && 2 <= c < |rows[i]| ==> rows[i][c].Volts?
    ensures forall c :: 2 <= c < 2 + |channels| ==> Column(rows, c) == ypts[c - 2][..|xpts|]
    ensures xpts != [] ==> Column(rows, 0) == seq(|xpts|, i requires 0 <= i < |xpts| => start.value + xpts[i])
  {
    assert seq(|header| - 2, j requires 0 <= j < |header| - 2 => header[j + 2].text) == channels;
    forall i, c | 0 <= i < |rows| && 2 <= c < 2 + |channels|
      ensures |rows[i]| == 2 + |channels| && rows[i][c] == Volts(ypts[c - 2][i])
    {
      assert IsRow(rows[i], channels, xpts, ypts, start.value, i);
    }
    forall c | 2 <= c < 2 + |channels|
      ensures Column(rows, c) == ypts[c - 2][..|xpts|]
    {
      var col := Column(rows, c);
      assert |col| == |ypts[c - 2][..|xpts|]|;
      forall i | 0 <= i < |col| ensures col[i] == ypts[c - 2][..|xpts|][i] {
        assert rows[i][c] == Volts(ypts[c - 2][i]);
      }
    }
  }

  /** The plot's fixed palette. */
  const Colors: seq<string> := ["gold", "magenta", "cyan", "limegreen"]

  /** The palette index of channel `idx`'s series. */
  function ColorIndex(idx: nat): (c: nat)
    ensures c < |Colors|
    ensures idx < |Colors| ==> c == idx
  {
    idx % |Colors|
  }

  /** One line series of the plot: elapsed times against one channel's
      readings, labelled with the channel name. */
  datatype Series = Series(name: string, color: string, xs: seq<real>, ys: seq<real>)

  /** The series `plot` draws, one per channel in channel order. */
  function PlotSeries(xpts: seq<real>, ypts: seq<seq<real>>, channels: seq<string>): (s: seq<Series>)
    requires |channels| <= |ypts|
    ensures |s| == |channels|
    ensures forall idx :: 0 <= idx < |s| ==>
      s[idx].name == channels[idx] && s[idx].xs == xpts && s[idx].ys == ypts[idx] && s[idx].color in Colors
    ensures forall idx :: 0 <= idx < |s| && idx < |Colors| ==> s[idx].color == Colors[idx]
  {
    seq(|channels|, idx requires 0 <= idx < |channels| =>
      Series(channels[idx], Colors[ColorIndex(idx)], xpts, ypts[idx]))
  }

  /** Neighbouring channels get different colours, and the palette repeats
      every four channels. */
  lemma PaletteCycles(xpts: seq<real>, ypts: seq<seq<real>>, channels: seq<string>)
    requires |channels| <= |ypts|
    ensures var s := PlotSeries(xpts, ypts, channels);
      && (forall idx :: 0 < idx < |s| ==> s[idx].color != s[idx - 1].color)
      && (forall idx :: |Colors| <= idx < |s| ==> s[idx].color == s[idx - |Colors|].color)
  {
    var s := PlotSeries(xpts, ypts, channels);
    forall idx | 0 < idx < |s| ensures s[idx].color != s[idx - 1].color {
      assert s[idx].color == Colors[idx % 4] && s[idx - 1].color == Colors[(idx - 1) % 4];
    }
    forall idx | |Colors| <= idx < |s| ensures s[idx].color == s[idx - |Colors|].color {
      assert s[idx].color == Colors[idx % 4] && s[idx - 4].color == Colors[(idx - 4) % 4];
    }
  }
}
