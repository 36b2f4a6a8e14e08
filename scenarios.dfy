/**
 * Worked ticks: three gauges under the default thresholds (minor 1e-8,
 * major 1e-7), coloured as one refresh colours them.
 */
module Scenarios {
  import opened Wrappers
  import opened Alarm
  import opened Series
  import opened ThresholdStore

  /** Readings 5e-9, 5e-8 and 5e-7 land in OK, MINOR and MAJOR; only the MAJOR bar has no border. */
  lemma OneReadingPerBand()
    ensures FillSeries([Number(0.000000005), Number(0.00000005), Number(0.0000005)],
                       Thresholds(DefaultMinor, DefaultMajor)) == [OkBg, MinorBg, MajorBg]
    ensures BorderSeries([Number(0.000000005), Number(0.00000005), Number(0.0000005)],
                         Thresholds(DefaultMinor, DefaultMajor)) == [Some(OkLine), Some(MinorLine), None]
  {
  }

  /** Readings 0, 5e-9 and `NaN`: the zero and the `NaN` are masked, so all three bars look OK. */
  lemma InvalidReadingsMasked()
    ensures FillSeries([Number(0.0), Number(0.000000005), NotANumber],
                       Thresholds(DefaultMinor, DefaultMajor)) == [OkBg, OkBg, OkBg]
    ensures BorderSeries([Number(0.0), Number(0.000000005), NotANumber],
                         Thresholds(DefaultMinor, DefaultMajor)) == [Some(OkLine), Some(OkLine), Some(OkLine)]
  {
  }

  /** A provider snapshot that lacks one of the gauges makes the read fail. */
  lemma UnknownPvFailsRead(g1: string, g2: string)
    requires g1 != g2
    ensures ReadValues([g1, g2], map[g1 := Undefined]) == None
  {
  }
}
