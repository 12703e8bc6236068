/** Measurements and the gating test that decides whether a measurement may join
    a track (test4_2.py:16-22 and 82-87; test1.py:16-22 and 68-73). */
module Gating {

  /** One detection: spherical position (degrees, degrees, range), Doppler and time. */
  datatype Measurement = Measurement(
    azimuth: real,
    elevation: real,
    range: real,
    doppler: real,
    timestamp: real)

  /** Euclidean distance between the Cartesian positions of two measurements. The
      spherical-to-Cartesian conversion is trigonometry on floats and is kept
      abstract: every operation that needs a distance takes one as a parameter. */
  type Distance = (Measurement, Measurement) -> real

  /** The three gate widths entered by the operator. */
  datatype Thresholds = Thresholds(doppler: real, range: real, time: real)

  /** The Doppler value the CSV loader gives every measurement (test4_2.py:153). */
  const DefaultDoppler: real := 1.0

  /** True when two measurements share their spherical position. */
  predicate SamePosition(a: Measurement, b: Measurement) {
    a.azimuth == b.azimuth && a.elevation == b.elevation && a.range == b.range
  }

  /** A distance behaves like the Euclidean norm at least this far: two measurements
      at the same spherical position are zero apart. */
  ghost predicate ZeroOnSamePosition(dist: Distance) {
    forall a, b :: SamePosition(a, b) ==> dist(a, b) == 0.0
  }

  function Abs(x: real): (r: real)
    ensures r >= 0.0
    ensures r == x || r == -x
  {
    if x < 0.0 then -x else x
  }

  /** Strict Doppler gate: the difference lies strictly inside the open interval
      around zero, so a non-positive threshold accepts nothing. */
  function DopplerCorrelation(doppler1: real, doppler2: real, threshold: real): (r: bool)
    ensures r <==> -threshold < doppler1 - doppler2 < threshold
    ensures r ==> threshold > 0.0
  {
    Abs(doppler1 - doppler2) < threshold
  }

  /** Strict range gate on an already computed distance: a distance equal to the
      threshold is rejected, and no distance passes a non-positive threshold. */
  function RangeGate(distance: real, threshold: real): (r: bool)
    ensures distance >= threshold ==> !r
    ensures r && distance >= 0.0 ==> threshold > 0.0
  {
    distance < threshold
  }

  /** The combined gate between a candidate measurement and the last measurement
      of a track: strict Doppler, strict range, non-strict time. */
  predicate Gate(th: Thresholds, dist: Distance, candidate: Measurement, last: Measurement)
    ensures Gate(th, dist, candidate, last) <==>
              && -th.doppler < candidate.doppler - last.doppler < th.doppler
              && dist(candidate, last) < th.range
              && candidate.timestamp - last.timestamp <= th.time
  {
    && DopplerCorrelation(candidate.doppler, last.doppler, th.doppler)
    && RangeGate(dist(candidate, last), th.range)
    && candidate.timestamp - last.timestamp <= th.time
  }

  /** The Doppler test does not depend on which measurement is the candidate. */
  lemma DopplerSymmetric(doppler1: real, doppler2: real, threshold: real)
    ensures DopplerCorrelation(doppler1, doppler2, threshold)
            == DopplerCorrelation(doppler2, doppler1, threshold)
  {
  }

  /** The boundaries: equal Doppler difference or equal distance is rejected, a time
      difference equal to the time threshold is accepted. */
  lemma GateBoundaries(th: Thresholds, dist: Distance, candidate: Measurement, last: Measurement)
    ensures candidate.doppler - last.doppler == th.doppler ==> !Gate(th, dist, candidate, last)
    ensures dist(candidate, last) == th.range ==> !Gate(th, dist, candidate, last)
    ensures && DopplerCorrelation(candidate.doppler, last.doppler, th.doppler)
            && dist(candidate, last) < th.range
            && candidate.timestamp - last.timestamp == th.time
            ==> Gate(th, dist, candidate, last)
  {
  }

  /** Widening every gate never rejects a measurement that was accepted before. */
  lemma GateMonotone(th: Thresholds, wider: Thresholds, dist: Distance, candidate: Measurement, last: Measurement)
    requires th.doppler <= wider.doppler && th.range <= wider.range && th.time <= wider.time
    requires Gate(th, dist, candidate, last)
    ensures Gate(wider, dist, candidate, last)
  {
  }
}
