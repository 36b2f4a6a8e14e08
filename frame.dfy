/**
 * The series builder: the `chartData` record handed to the bar chart each tick,
 * a bar dataset for the readings and two line datasets for the thresholds.
 */
module Frame {
  import opened Wrappers
  import opened Alarm

  datatype BarDataset = BarDataset(
    name: string,
    backgroundColor: seq<Colour>,
    borderColor: seq<Option<Colour>>,
    borderWidth: nat,
    hoverBackgroundColor: Colour,
    hoverBorderColor: Colour,
    data: seq<RawValue>)

  /** A flat threshold line (`name` is the dataset label); `showDataLabels` is the `datalabels.display` option. */
  datatype LineDataset = LineDataset(
    name: string,
    backgroundColor: Colour,
    borderColor: Colour,
    borderWidth: nat,
    data: seq<real>,
    pointRadius: nat,
    showDataLabels: bool)

  /** The three datasets in the order the chart receives them: bars, minor line, major line. */
  datatype ChartData = ChartData(labels: seq<string>, bars: BarDataset, minorLine: LineDataset, majorLine: LineDataset)

  /** Every series has one entry per process variable. */
  ghost predicate WellFormed(f: ChartData, n: nat) {
    |f.labels| == n && |f.bars.data| == n &&
    |f.bars.backgroundColor| == n && |f.bars.borderColor| == n &&
    |f.minorLine.data| == n && |f.majorLine.data| == n
  }

  /** Every bar is coloured from its own reading under the one threshold pair `t`. */
  ghost predicate ColouredWith(f: ChartData, t: Thresholds)
    requires |f.bars.backgroundColor| == |f.bars.data| && |f.bars.borderColor| == |f.bars.data|
  {
    forall i :: 0 <= i < |f.bars.data| ==>
      f.bars.backgroundColor[i] == FillColour(f.bars.data[i], t) &&
      f.bars.borderColor[i] == BorderColour(f.bars.data[i], t)
  }

  /** The record `updateContent` builds from the PV list, the last readings, their colours and the two lines. */
  function Build(pvs: seq<string>, values: seq<RawValue>, bg: seq<Colour>, border: seq<Option<Colour>>,
                 minorArray: seq<real>, majorArray: seq<real>): (f: ChartData)
    ensures |values| == |bg| == |border| == |minorArray| == |majorArray| == |pvs| ==> WellFormed(f, |pvs|)
    ensures f.bars.hoverBackgroundColor == OkBg && f.bars.hoverBorderColor == HoverLine
    ensures f.minorLine.borderColor == MinorLine && f.majorLine.borderColor == MajorLine
    ensures f.minorLine.pointRadius == 0 && !f.minorLine.showDataLabels
    ensures f.majorLine.pointRadius == 0 && !f.majorLine.showDataLabels
  {
    ChartData(
      pvs,
      BarDataset("MKS - Cold Cathode", bg, border, 1, OkBg, HoverLine, values),
      LineDataset("Minor Alarm", MinorBg, MinorLine, 1, minorArray, 0, false),
      LineDataset("Major Alarm", MajorBg, MajorLine, 1, majorArray, 0, false))
  }
}
