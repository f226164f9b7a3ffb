/**
 * src/app/_components/map/space-data-table.tsx: the pure rules behind the
 * real-time space-data panel: linear range mapping, the Kp-index wording and
 * the cloud-coverage wording.
 */
module SpaceDataTable {
  import opened Wrappers

  /** `mapRange`: the linear map sending [inMin, inMax] onto [outMin, outMax]. */
  function MapRange(value: real, inMin: real, inMax: real, outMin: real, outMax: real): real
    requires inMin != inMax
  {
    ((value - inMin) * (outMax - outMin)) / (inMax - inMin) + outMin
  }

  /**
   * `mapRange` sends the point that lies a fraction t of the way from inMin to
   * inMax to the point a fraction t of the way from outMin to outMax; in
   * particular inMin goes to outMin and inMax to outMax.
   */
  lemma MapRangeInterpolates(t: real, inMin: real, inMax: real, outMin: real, outMax: real)
    requires inMin != inMax
    ensures MapRange(inMin + t * (inMax - inMin), inMin, inMax, outMin, outMax) == outMin + t * (outMax - outMin)
    ensures MapRange(inMin, inMin, inMax, outMin, outMax) == outMin
    ensures MapRange(inMax, inMin, inMax, outMin, outMax) == outMax
  {
    var d := inMax - inMin;
    var k := outMax - outMin;
    calc {
      MapRange(inMin + t * d, inMin, inMax, outMin, outMax);
      ((t * d) * k) / d + outMin;
      { assert (t * d) * k == (t * k) * d; }
      ((t * k) * d) / d + outMin;
      t * k + outMin;
    }
  }

  /** The wave height drawn for a cloud coverage: `mapRange(cloudCoverage, 100, 0, 12, -4)`. */
  function WaveHeight(cloudCoverage: real): real
  {
    MapRange(cloudCoverage, 100.0, 0.0, 12.0, -4.0)
  }

  /**
   * A clear sky (0 %) draws the wave at -4 and a full cover (100 %) at 12; in
   * between the height grows linearly, 0.16 per percentage point.
   */
  lemma WaveHeightRange(cloudCoverage: real)
    ensures WaveHeight(cloudCoverage) == 0.16 * cloudCoverage - 4.0
    ensures WaveHeight(0.0) == -4.0 && WaveHeight(100.0) == 12.0
    ensures 0.0 <= cloudCoverage <= 100.0 ==> -4.0 <= WaveHeight(cloudCoverage) <= 12.0
  {
    MapRangeInterpolates((cloudCoverage - 100.0) / -100.0, 100.0, 0.0, 12.0, -4.0);
    assert 100.0 + ((cloudCoverage - 100.0) / -100.0) * (0.0 - 100.0) == cloudCoverage;
  }

  /** One row of the Kp-index description table. */
  datatype KpDescription = KpDescription(threshold: int, text: string)

  const Descriptions: seq<KpDescription> := [
    KpDescription(0, "auroras are mostly confined to high latitudes, and visibility is minimal."),
    KpDescription(1, "faint auroras may be visible in northern skies."),
    KpDescription(2, "auroras become brighter and more dynamic."),
    KpDescription(3, "bright auroras visible overhead, often pale green."),
    KpDescription(4, "bright, colorful displays are common."),
    KpDescription(5, "vibrant colors including red and purple may appear."),
    KpDescription(6, "dynamic displays that are memorable."),
    KpDescription(7, "visible in southern skies, with a high likelihood of colorful displays."),
    KpDescription(8, "auroras can be seen around 50° latitude."),
    KpDescription(9, "possible visibility as far south as 40° latitude, with vivid red auroras likely.")
  ]

  /**
   * `descriptions.find((desc, index) => kpi < index + 1)`, scanning from
   * position `index`: the first position whose upper bound exceeds kpi.
   * The `threshold` member is never consulted.
   */
  function FindFrom(kpi: real, index: nat): (found: Option<nat>)
    requires index <= |Descriptions|
    decreases |Descriptions| - index
    ensures found.Some? ==>
      && index <= found.value < |Descriptions|
      && kpi < (found.value + 1) as real
      && (found.value > index ==> found.value as real <= kpi)
    ensures found.None? ==> index == |Descriptions| || |Descriptions| as real <= kpi
  {
    if index == |Descriptions| then None
    else if kpi < (index + 1) as real then Some(index)
    else FindFrom(kpi, index + 1)
  }

  /** `getKpIndexDescription`: the found row's text, or the last row's when nothing is found. */
  function KpIndexDescription(kpi: real): (text: string)
    ensures exists i :: 0 <= i < |Descriptions| && text == Descriptions[i].text
  {
    match FindFrom(kpi, 0)
    case Some(i) => Descriptions[i].text
    case None => Descriptions[|Descriptions| - 1].text
  }

  /** The band a Kp value falls in: below 1 is band 0, from 9 up is band 9, otherwise its integer part. */
  function Band(kpi: real): (band: nat)
    ensures band < |Descriptions|
  {
    if kpi < 1.0 then 0 else if kpi >= 9.0 then 9 else kpi.Floor as nat
  }

  /**
   * The description is the one at the kpi's band: position i for
   * i <= kpi < i + 1, position 0 for every kpi below 1 (negatives included)
   * and the last position for every kpi of 9 or more.
   */
  lemma KpIndexDescriptionByBand(kpi: real)
    ensures KpIndexDescription(kpi) == Descriptions[Band(kpi)].text
  {
    match FindFrom(kpi, 0)
    case Some(i) =>
      if 0 < i < 9 {
        assert i as real <= kpi < (i + 1) as real;
        assert kpi.Floor == i;
      }
    case None =>
  }

  /** The table's thresholds coincide with the positions the lookup actually uses. */
  lemma ThresholdsArePositions()
    ensures forall i :: 0 <= i < |Descriptions| ==> Descriptions[i].threshold == i
  {
  }

  const EnableGps := "Enable GPS location"
  const TooHigh := "a bit too high to be fair"
  const Visible := "you should be able to see it"
  const No := "no"

  /**
   * The cloud-coverage wording. Without a position it asks for GPS; an
   * undefined coverage fails both comparisons and reads "no", as does a
   * negative one.
   */
  function CloudCoverageWording(hasPosition: bool, cloudCoverage: Option<real>): (text: string)
    ensures text == EnableGps <==> !hasPosition
    ensures text == TooHigh <==> hasPosition && cloudCoverage.Some? && cloudCoverage.value > 50.0
    ensures text == Visible <==> hasPosition && cloudCoverage.Some? && 0.0 <= cloudCoverage.value <= 50.0
    ensures text == No <==> hasPosition && (cloudCoverage.None? || cloudCoverage.value < 0.0)
  {
    if !hasPosition then EnableGps
    else if cloudCoverage.Some? && cloudCoverage.value > 50.0 then TooHigh
    else if cloudCoverage.Some? && cloudCoverage.value >= 0.0 then Visible
    else No
  }
}
