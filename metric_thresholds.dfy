/**
  Gauge levels of the UI: a latency in milliseconds and a CPU percentage are each
  classified as low, medium or high by two fixed thresholds.
 */
module MetricThresholds {

  /** The UI's `GaugeLevel`; `None` is part of the type but no classifier returns it. */
  datatype GaugeLevel = Low | Med | High | None

  const LatencyHighThreshold: real := 300.0
  const LatencyMedThreshold: real := 150.0
  const CpuHighThreshold: real := 80.0
  const CpuMedThreshold: real := 70.0

  /** The order low < med < high in which gauges read; `None` sits below all three. */
  function Rank(level: GaugeLevel): int
  {
    match level
    case None => 0
    case Low => 1
    case Med => 2
    case High => 3
  }

  /** `getLatencyLevel`. */
  function LatencyLevel(val: real): (level: GaugeLevel)
    ensures level == Low <==> val < 150.0
    ensures level == Med <==> 150.0 <= val < 300.0
    ensures level == High <==> 300.0 <= val
  {
    if val < LatencyMedThreshold then Low
    else if val < LatencyHighThreshold then Med
    else High
  }

  /** `getCPULevel`. */
  function CpuLevel(val: real): (level: GaugeLevel)
    ensures level == Low <==> val < 70.0
    ensures level == Med <==> 70.0 <= val < 80.0
    ensures level == High <==> 80.0 <= val
  {
    if val < CpuMedThreshold then Low
    else if val < CpuHighThreshold then Med
    else High
  }

  /** Neither classifier ever answers `None`. */
  lemma NeverNone(val: real)
    ensures LatencyLevel(val) != None && CpuLevel(val) != None
  {
  }

  /** A larger latency never reads as a lower level. */
  lemma LatencyLevelMonotone(a: real, b: real)
    requires a <= b
    ensures Rank(LatencyLevel(a)) <= Rank(LatencyLevel(b))
  {
  }

  /** A larger CPU load never reads as a lower level. */
  lemma CpuLevelMonotone(a: real, b: real)
    requires a <= b
    ensures Rank(CpuLevel(a)) <= Rank(CpuLevel(b))
  {
  }

  /**
    The level changes exactly at the two thresholds: just below each one the level is
    one step lower than at the threshold itself.
   */
  lemma LatencyBoundaries(eps: real)
    requires 0.0 < eps
    ensures LatencyLevel(LatencyMedThreshold - eps) == Low && LatencyLevel(LatencyMedThreshold) == Med
    ensures LatencyLevel(LatencyHighThreshold - eps) != High && LatencyLevel(LatencyHighThreshold) == High
  {
  }

  lemma CpuBoundaries(eps: real)
    requires 0.0 < eps
    ensures CpuLevel(CpuMedThreshold - eps) == Low && CpuLevel(CpuMedThreshold) == Med
    ensures CpuLevel(CpuHighThreshold - eps) != High && CpuLevel(CpuHighThreshold) == High
  {
  }
}
