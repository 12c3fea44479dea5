/** AQI banding of the environmental dashboard (app/Mainmaps/page.tsx).

    The page classifies an AQI value four times: the circle colour
    (`getAqiColor`), the badge class, the status label and the summary text
    class.  Each is written in the source as its own if-chain over the
    cut-offs 50/100/150/200/300; here each chain is kept as written and proved
    equal to one shared reference, `Band`, so that all four provably agree. */
module Aqi {

  /** Upper ends (inclusive) of the first five bands of the US EPA Air Quality
      Index; a value equal to a cut-off belongs to the lower band. */
  const Cutoffs: seq<real> := [50.0, 100.0, 150.0, 200.0, 300.0]

  /** Number of cut-offs strictly below `v` in `cs`. */
  function CountBelow(cs: seq<real>, v: real): (n: nat)
    ensures n <= |cs|
  {
    if cs == [] then 0 else (if cs[0] < v then 1 else 0) + CountBelow(cs[1..], v)
  }

  /** Reference definition of the band: 0 = Good, 1 = Moderate,
      2 = Unhealthy for Sensitive Groups, 3 = Unhealthy, 4 = Very Unhealthy,
      5 = Hazardous. */
  function Band(aqi: real): (b: nat)
    ensures b < 6
  {
    CountBelow(Cutoffs, aqi)
  }

  // The four tables, indexed by band, as the page uses them.
  const Colors: seq<string> :=
    ["#00E400", "#FFFF00", "#FF7E00", "#FF0000", "#99004C", "#7E0023"]
  const Labels: seq<string> :=
    ["Good", "Moderate", "Unhealthy for Sensitive Groups", "Unhealthy", "Very Unhealthy", "Hazardous"]
  const BadgeClasses: seq<string> :=
    ["bg-green-100 text-green-700", "bg-yellow-100 text-yellow-700", "bg-orange-100 text-orange-700",
     "bg-red-100 text-red-700", "bg-purple-100 text-purple-700", "bg-pink-100 text-pink-700"]
  const SummaryClasses: seq<string> :=
    ["text-green-600", "text-yellow-600", "text-orange-600", "text-red-600", "text-purple-600", "text-pink-600"]
  /** Summary text class shown while no usable reading is present. */
  const NoReadingClass: string := "text-gray-700"

  /** `CountBelow` never decreases as the value rises. */
  lemma {:induction false} CountBelowMonotone(cs: seq<real>, a: real, b: real)
    requires a <= b
    ensures CountBelow(cs, a) <= CountBelow(cs, b)
  {
    if cs != [] {
      CountBelowMonotone(cs[1..], a, b);
    }
  }

  /** The band index never decreases as the AQI rises. */
  lemma BandMonotone(a: real, b: real)
    requires a <= b
    ensures Band(a) <= Band(b)
  {
    CountBelowMonotone(Cutoffs, a, b);
  }

  /** The reference band spelled out against the cut-offs. */
  lemma BandCases(v: real)
    ensures v <= 50.0 ==> Band(v) == 0
    ensures 50.0 < v <= 100.0 ==> Band(v) == 1
    ensures 100.0 < v <= 150.0 ==> Band(v) == 2
    ensures 150.0 < v <= 200.0 ==> Band(v) == 3
    ensures 200.0 < v <= 300.0 ==> Band(v) == 4
    ensures 300.0 < v ==> Band(v) == 5
  {
    var c0: seq<real> := [];
    var c1: seq<real> := [300.0];
    var c2: seq<real> := [200.0, 300.0];
    var c3: seq<real> := [150.0, 200.0, 300.0];
    var c4: seq<real> := [100.0, 150.0, 200.0, 300.0];
    assert c1[1..] == c0 && c2[1..] == c1 && c3[1..] == c2 && c4[1..] == c3 && Cutoffs[1..] == c4;
    assert CountBelow(c1, v) == (if 300.0 < v then 1 else 0);
    assert CountBelow(c2, v) == (if 200.0 < v then 1 else 0) + CountBelow(c1, v);
    assert CountBelow(c3, v) == (if 150.0 < v then 1 else 0) + CountBelow(c2, v);
    assert CountBelow(c4, v) == (if 100.0 < v then 1 else 0) + CountBelow(c3, v);
    assert Band(v) == (if 50.0 < v then 1 else 0) + CountBelow(c4, v);
  }

  /** `getAqiColor`, as written. */
  function AqiColor(aqi: real): (c: string)
    ensures c == Colors[Band(aqi)]
  {
    BandCases(aqi);
    if aqi <= 50.0 then "#00E400"               // Good
    else if aqi <= 100.0 then "#FFFF00"         // Moderate
    else if aqi <= 150.0 then "#FF7E00"         // Unhealthy for Sensitive Groups
    else if aqi <= 200.0 then "#FF0000"         // Unhealthy
    else if aqi <= 300.0 then "#99004C"         // Very Unhealthy
    else "#7E0023"                              // Hazardous
  }

  /** The badge class ladder of the air-quality card. */
  function BadgeClass(aqi: real): (c: string)
    ensures c == BadgeClasses[Band(aqi)]
  {
    BandCases(aqi);
    if aqi <= 50.0 then "bg-green-100 text-green-700"
    else if aqi <= 100.0 then "bg-yellow-100 text-yellow-700"
    else if aqi <= 150.0 then "bg-orange-100 text-orange-700"
    else if aqi <= 200.0 then "bg-red-100 text-red-700"
    else if aqi <= 300.0 then "bg-purple-100 text-purple-700"
    else "bg-pink-100 text-pink-700"
  }

  /** The status label ladder of the air-quality card. */
  function StatusLabel(aqi: real): (s: string)
    ensures s == Labels[Band(aqi)]
  {
    BandCases(aqi);
    if aqi <= 50.0 then "Good"
    else if aqi <= 100.0 then "Moderate"
    else if aqi <= 150.0 then "Unhealthy for Sensitive Groups"
    else if aqi <= 200.0 then "Unhealthy"
    else if aqi <= 300.0 then "Very Unhealthy"
    else "Hazardous"
  }

  /** The summary text class of the recommendation panel's air-quality card;
      `usable` is "a reading is present and its status is ok". */
  function SummaryClass(usable: bool, aqi: real): (c: string)
    ensures usable ==> c == SummaryClasses[Band(aqi)]
    ensures !usable ==> c == NoReadingClass && c !in SummaryClasses
  {
    BandCases(aqi);
    if !usable then "text-gray-700"
    else if aqi <= 50.0 then "text-green-600"
    else if aqi <= 100.0 then "text-yellow-600"
    else if aqi <= 150.0 then "text-orange-600"
    else if aqi <= 200.0 then "text-red-600"
    else if aqi <= 300.0 then "text-purple-600"
    else "text-pink-600"
  }

  /** No two entries of a table coincide. */
  ghost predicate Distinct(t: seq<string>)
  {
    forall i, j :: 0 <= i < j < |t| ==> t[i] != t[j]
  }

  lemma TablesDistinct()
    ensures |Colors| == |Labels| == |BadgeClasses| == |SummaryClasses| == 6
    ensures Distinct(Colors) && Distinct(Labels) && Distinct(BadgeClasses) && Distinct(SummaryClasses)
  {
  }

  /** `getAqiColor` is a step function with exactly the six EPA results,
      stated in both directions for every band. */
  lemma AqiColorBands(v: real)
    ensures v <= 50.0 <==> AqiColor(v) == "#00E400"
    ensures 50.0 < v <= 100.0 <==> AqiColor(v) == "#FFFF00"
    ensures 100.0 < v <= 150.0 <==> AqiColor(v) == "#FF7E00"
    ensures 150.0 < v <= 200.0 <==> AqiColor(v) == "#FF0000"
    ensures 200.0 < v <= 300.0 <==> AqiColor(v) == "#99004C"
    ensures 300.0 < v <==> AqiColor(v) == "#7E0023"
  {
    BandCases(v);
    TablesDistinct();
  }

  /** The four ladders partition the AQI range identically: two values get the
      same colour exactly when they get the same label, the same badge and the
      same summary class, and exactly when they are in the same band. */
  lemma LaddersAgree(a: real, b: real)
    ensures AqiColor(a) == AqiColor(b) <==> Band(a) == Band(b)
    ensures StatusLabel(a) == StatusLabel(b) <==> Band(a) == Band(b)
    ensures BadgeClass(a) == BadgeClass(b) <==> Band(a) == Band(b)
    ensures SummaryClass(true, a) == SummaryClass(true, b) <==> Band(a) == Band(b)
  {
    TablesDistinct();
    var i, j := Band(a), Band(b);
    if i != j {
      if i < j {
        assert Colors[i] != Colors[j] && Labels[i] != Labels[j];
        assert BadgeClasses[i] != BadgeClasses[j] && SummaryClasses[i] != SummaryClasses[j];
      } else {
        assert Colors[j] != Colors[i] && Labels[j] != Labels[i];
        assert BadgeClasses[j] != BadgeClasses[i] && SummaryClasses[j] != SummaryClasses[i];
      }
    }
  }
}
