/**
 * The numbers the atmosphere geometry is built from: the altitude limits of the N layers in
 * the flat (stacked slabs) and curved (concentric shells) topologies, the search for the
 * layer a detector altitude falls in, the detector's thickness, and the clamps that keep a
 * detector inside its layer.
 */
module Geometry {
  import opened Toolkit

  /** The lower and upper altitude limit of one layer, in toolkit length units. */
  datatype Bounds = Bounds(lo: real, hi: real)

  predicate Contains(b: Bounds, x: real) {
    b.lo <= x <= b.hi
  }

  /**
   * Where a detector ends up: the layer it is a daughter of, its position (the centre's local
   * z in a flat layer, the inner radius of its shell in a curved one) and its thickness.
   */
  datatype PlacedDetector = PlacedDetector(layer: nat, position: real, thickness: real)

  // ---------------------------------------------------------------- layer limits

  /**
   * The offset from an altitude above ground to a coordinate of the flat world, whose centre
   * is at half height: the ground goes to the world's bottom face and the top of the
   * atmosphere to its top face.
   */
  function FlatCorrection(height: real): (r: real)
    ensures 0.0 + r == FlatWorld(height).lo && height + r == FlatWorld(height).hi
  {
    -height / 2.0
  }

  /** The offset from an altitude above ground to a radius of the curved world: the Earth's radius. */
  function CurvedCorrection(earthRadiusKm: real): (r: real)
    ensures earthRadiusKm > 0.0 ==> r > 0.0
  {
    earthRadiusKm * km
  }

  /** Layer i of the flat world: i layer heights above the bottom, two half-heights thick. */
  function FlatLimit(height: real, n: nat, i: nat): Bounds
    requires n > 0
  {
    var boxHeight := height / n as real / 2.0;
    var cf := FlatCorrection(height);
    Bounds(i as real * height / n as real + cf, i as real * height / n as real + 2.0 * boxHeight + cf)
  }

  function FlatLimits(height: real, n: nat): (r: seq<Bounds>)
    requires n > 0
    ensures |r| == n
  {
    seq(n, i requires 0 <= i < n => FlatLimit(height, n, i))
  }

  /** Where flat layer i's box is placed: i layer heights and half a layer above the bottom. */
  function FlatLayerCentre(height: real, n: nat, i: nat): real
    requires n > 0
  {
    i as real * height / n as real + height / n as real / 2.0 + FlatCorrection(height)
  }

  /** Each flat layer's box is centred on its limits, half a layer above its lower limit. */
  lemma FlatLayerCentred(height: real, n: nat, i: nat)
    requires n > 0
    ensures FlatLayerCentre(height, n, i) == FlatLimit(height, n, i).lo + height / n as real / 2.0
    ensures 2.0 * FlatLayerCentre(height, n, i) == FlatLimit(height, n, i).lo + FlatLimit(height, n, i).hi
  {
  }

  /** Layer i of the curved world: the shell between cf + i and cf + i + 1 layer heights. */
  function CurvedLimit(cf: real, height: real, n: nat, i: nat): Bounds
    requires n > 0
  {
    Bounds(cf + i as real * height / n as real, cf + (i + 1) as real * height / n as real)
  }

  function CurvedLimits(cf: real, height: real, n: nat): (r: seq<Bounds>)
    requires n > 0
    ensures |r| == n
  {
    seq(n, i requires 0 <= i < n => CurvedLimit(cf, height, n, i))
  }

  /**
   * Reference shape of both topologies: every layer is t thick and each one starts where
   * the one below it ends.
   */
  ghost predicate Stacked(limits: seq<Bounds>, t: real) {
    && (forall i :: 0 <= i < |limits| ==> limits[i].hi == limits[i].lo + t)
    && (forall i :: 0 <= i < |limits| - 1 ==> limits[i + 1].lo == limits[i].hi)
  }

  // ---------------------------------------------------------------- arithmetic helpers

  lemma MulLe(a: real, b: real, t: real)
    requires a <= b && t >= 0.0
    ensures a * t <= b * t
  {
    assert (b - a) * t >= 0.0;
  }

  lemma MulLt(a: real, b: real, t: real)
    requires a < b && t > 0.0
    ensures a * t < b * t
  {
    assert (b - a) * t > 0.0;
  }

  lemma Distrib(i: int, t: real)
    ensures (i + 1) as real * t == i as real * t + t
  {
  }

  /** Dividing a product by one of its factors gives the other. */
  lemma QuotientOfProduct(x: real, y: real, d: real)
    requires d != 0.0 && y * d == x
    ensures x / d == y
  {
  }

  /** i * H / N is i layer thicknesses H/N. */
  lemma ScaledThickness(ir: real, height: real, nr: real)
    requires nr > 0.0
    ensures ir * height / nr == ir * (height / nr)
  {
    var t := height / nr;
    assert t * nr == height;
    assert (ir * t) * nr == ir * (t * nr);
    QuotientOfProduct(ir * height, ir * t, nr);
  }

  /** n layers of thickness H/N make up the height H. */
  lemma LayersMakeHeight(height: real, n: nat)
    requires n > 0
    ensures n as real * (height / n as real) == height
  {
  }

  // ---------------------------------------------------------------- both topologies are stacked

  lemma FlatLimitArith(height: real, n: nat, i: nat)
    requires n > 0
    ensures FlatLimit(height, n, i).lo == FlatCorrection(height) + i as real * (height / n as real)
    ensures FlatLimit(height, n, i).hi == FlatLimit(height, n, i).lo + height / n as real
  {
    ScaledThickness(i as real, height, n as real);
  }

  lemma CurvedLimitArith(cf: real, height: real, n: nat, i: nat)
    requires n > 0
    ensures CurvedLimit(cf, height, n, i).lo == cf + i as real * (height / n as real)
    ensures CurvedLimit(cf, height, n, i).hi == CurvedLimit(cf, height, n, i).lo + height / n as real
  {
    var t := height / n as real;
    ScaledThickness(i as real, height, n as real);
    ScaledThickness((i + 1) as real, height, n as real);
    Distrib(i, t);
  }

  /** Flat layer i + 1 starts where layer i ends. */
  lemma FlatLimitNext(height: real, n: nat, i: nat)
    requires n > 0
    ensures FlatLimit(height, n, i + 1).lo == FlatLimit(height, n, i).hi
  {
    FlatLimitArith(height, n, i);
    FlatLimitArith(height, n, i + 1);
    Distrib(i, height / n as real);
  }

  /** Curved shell i + 1 starts where shell i ends. */
  lemma CurvedLimitNext(cf: real, height: real, n: nat, i: nat)
    requires n > 0
    ensures CurvedLimit(cf, height, n, i + 1).lo == CurvedLimit(cf, height, n, i).hi
  {
    CurvedLimitArith(cf, height, n, i);
    CurvedLimitArith(cf, height, n, i + 1);
    Distrib(i, height / n as real);
  }

  /** The bottom flat layer starts at -H/2 and the top one ends at H/2. */
  lemma FlatLimitEnds(height: real, n: nat)
    requires n > 0
    ensures FlatLimit(height, n, 0).lo == -height / 2.0
    ensures FlatLimit(height, n, n - 1).hi == height / 2.0
  {
    var t := height / n as real;
    FlatLimitArith(height, n, 0);
    FlatLimitArith(height, n, n - 1);
    Distrib(n - 1, t);
    LayersMakeHeight(height, n);
  }

  /** The bottom shell starts at cf and the top one ends at cf + H. */
  lemma CurvedLimitEnds(cf: real, height: real, n: nat)
    requires n > 0
    ensures CurvedLimit(cf, height, n, 0).lo == cf
    ensures CurvedLimit(cf, height, n, n - 1).hi == cf + height
  {
    var t := height / n as real;
    CurvedLimitArith(cf, height, n, 0);
    CurvedLimitArith(cf, height, n, n - 1);
    Distrib(n - 1, t);
    LayersMakeHeight(height, n);
  }

  /** The flat layers are stacked H/N thick from the bottom face -H/2 to the top face H/2. */
  lemma FlatLimitsStacked(height: real, n: nat)
    requires n > 0
    ensures var limits := FlatLimits(height, n);
      Stacked(limits, height / n as real) && limits[0].lo == -height / 2.0 && limits[n - 1].hi == height / 2.0
  {
    var limits := FlatLimits(height, n);
    var t := height / n as real;
    forall i | 0 <= i < n
      ensures limits[i].hi == limits[i].lo + t
    {
      FlatLimitArith(height, n, i);
    }
    forall i | 0 <= i < n - 1
      ensures limits[i + 1].lo == limits[i].hi
    {
      FlatLimitNext(height, n, i);
    }
    FlatLimitEnds(height, n);
  }

  /** The curved shells are stacked H/N thick from the Earth's radius cf up to cf + H. */
  lemma CurvedLimitsStacked(cf: real, height: real, n: nat)
    requires n > 0
    ensures var limits := CurvedLimits(cf, height, n);
      Stacked(limits, height / n as real) && limits[0].lo == cf && limits[n - 1].hi == cf + height
  {
    var limits := CurvedLimits(cf, height, n);
    var t := height / n as real;
    forall i | 0 <= i < n
      ensures limits[i].hi == limits[i].lo + t
    {
      CurvedLimitArith(cf, height, n, i);
    }
    forall i | 0 <= i < n - 1
      ensures limits[i + 1].lo == limits[i].hi
    {
      CurvedLimitNext(cf, height, n, i);
    }
    CurvedLimitEnds(cf, height, n);
  }

  // ---------------------------------------------------------------- properties of stacked layers

  /** Higher layers start higher: layer j starts at or above the top of every layer below it. */
  lemma {:induction false} StackedOrdered(limits: seq<Bounds>, t: real, i: nat, j: nat)
    requires Stacked(limits, t) && t > 0.0 && i < j < |limits|
    ensures limits[i].hi <= limits[j].lo
    decreases j - i
  {
    if i + 1 < j {
      StackedOrdered(limits, t, i + 1, j);
    }
  }

  /**
   * Stacked layers of positive thickness each lie within the span from the bottom of the
   * first to the top of the last.
   */
  lemma StackedSpan(limits: seq<Bounds>, t: real)
    requires Stacked(limits, t) && t > 0.0 && |limits| > 0
    ensures forall i :: 0 <= i < |limits| ==>
      limits[0].lo <= limits[i].lo < limits[i].hi <= limits[|limits| - 1].hi
  {
    var n := |limits|;
    forall i | 0 <= i < n
      ensures limits[0].lo <= limits[i].lo < limits[i].hi <= limits[n - 1].hi
    {
      if 0 < i {
        StackedOrdered(limits, t, 0, i);
      }
      if i < n - 1 {
        StackedOrdered(limits, t, i, n - 1);
      }
    }
  }

  /** Every altitude from the bottom of layer k to the top of the last lies in a layer k or above. */
  lemma {:induction false} StackedCoversFrom(limits: seq<Bounds>, t: real, alt: real, k: nat)
    requires Stacked(limits, t) && k < |limits|
    requires limits[k].lo <= alt <= limits[|limits| - 1].hi
    ensures exists j :: k <= j < |limits| && Contains(limits[j], alt)
    decreases |limits| - k
  {
    if alt > limits[k].hi {
      StackedCoversFrom(limits, t, alt, k + 1);
    }
  }

  /**
   * Where stacked layers put an altitude at or above their bottom: into the lowest layer that
   * holds it when it is below their top, into layer 0 (which it is above) otherwise.
   */
  lemma StackedLookup(limits: seq<Bounds>, t: real, alt: real)
    requires Stacked(limits, t) && t > 0.0 && |limits| > 0 && limits[0].lo <= alt
    ensures var j := EnclosingLayer(limits, alt);
      && limits[j].lo <= alt
      && (alt <= limits[|limits| - 1].hi ==>
            Contains(limits[j], alt) && forall k :: 0 <= k < j ==> !Contains(limits[k], alt))
      && (alt > limits[|limits| - 1].hi ==> j == 0 && alt > limits[0].hi)
  {
    StackedSpan(limits, t);
    if alt <= limits[|limits| - 1].hi {
      StackedCoversFrom(limits, t, alt, 0);
    }
  }

  // ---------------------------------------------------------------- layer lookup

  /** The first index from j on whose layer contains `alt`, or |limits| if there is none. */
  function FirstEnclosing(limits: seq<Bounds>, alt: real, j: nat): (r: nat)
    requires j <= |limits|
    ensures j <= r <= |limits|
    ensures r < |limits| ==> Contains(limits[r], alt)
    ensures forall k :: j <= k < r ==> !Contains(limits[k], alt)
    decreases |limits| - j
  {
    if j == |limits| then |limits|
    else if Contains(limits[j], alt) then j
    else FirstEnclosing(limits, alt, j + 1)
  }

  /**
   * The layer a detector at `alt` is placed in: the lowest layer that contains it (the lower
   * one on a shared boundary), or layer 0 when none does.
   */
  function EnclosingLayer(limits: seq<Bounds>, alt: real): (r: nat)
    ensures |limits| > 0 ==> r < |limits|
    ensures (exists j :: 0 <= j < |limits| && Contains(limits[j], alt)) ==>
      Contains(limits[r], alt) && forall k :: 0 <= k < r ==> !Contains(limits[k], alt)
    ensures (forall j :: 0 <= j < |limits| ==> !Contains(limits[j], alt)) ==> r == 0
  {
    var f := FirstEnclosing(limits, alt, 0);
    if f == |limits| then 0 else f
  }

  /** In stacked layers an altitude on the boundary of layers j and j + 1 goes to layer j. */
  lemma BoundaryGoesToLowerLayer(limits: seq<Bounds>, t: real, j: nat)
    requires Stacked(limits, t) && t > 0.0 && j + 1 < |limits|
    ensures limits[j].hi == limits[j + 1].lo
    ensures EnclosingLayer(limits, limits[j].hi) == j
  {
    var alt := limits[j].hi;
    assert Contains(limits[j], alt);
    forall k | 0 <= k < j
      ensures !Contains(limits[k], alt)
    {
      StackedOrdered(limits, t, k, j);
    }
  }

  // ---------------------------------------------------------------- detector size and clamps

  /** The detector's thickness: 10 mm, or a tenth of a layer's thickness if that is less. */
  function DetectorThickness(height: real, n: nat): (r: real)
    requires n > 0
    ensures r <= 10.0 * mm
    ensures r <= height / n as real / 10.0
    ensures r == 10.0 * mm || r == height / n as real / 10.0
  {
    if 10.0 * mm <= height / n as real / 10.0 then 10.0 * mm else height / n as real / 10.0
  }

  /** The detector is positive and at most a tenth of a layer when the atmosphere has height. */
  lemma DetectorThicknessFits(height: real, n: nat)
    requires height > 0.0 && n > 0
    ensures 0.0 < DetectorThickness(height, n) <= height / n as real / 10.0
  {
  }

  /**
   * The detector's centre in the local coordinates of a flat layer [-b, b] whose lower
   * limit is `lo`: the altitude's offset from the layer's centre, moved down to touch the top
   * face when it would stick out above, and moved up by half its thickness when it would
   * stick out below.
   */
  function FlatDetectorPosition(lo: real, b: real, alt: real, s: real): (r: real)
    ensures 0.0 <= s ==> (r < alt - (lo + b) ==> r + s / 2.0 == b)
    ensures 0.0 <= s ==> (r > alt - (lo + b) ==> r - s / 2.0 == alt - (lo + b))
    ensures 0.0 <= s <= b ==> r + s / 2.0 <= b
  {
    var p := alt - (lo + b);
    if p + s / 2.0 > b then b - s / 2.0
    else if p - s / 2.0 < -b then p + s / 2.0
    else p
  }

  /**
   * A detector no thicker than its layer whose altitude is not below the layer's lower limit
   * ends up wholly inside the layer: unmoved when it fits, its top face on the layer's top
   * when it stuck out above, its bottom face at the altitude when it stuck out below.
   */
  lemma FlatDetectorInsideLayer(lo: real, b: real, alt: real, s: real)
    requires 0.0 < s <= b && lo <= alt
    ensures var pos := FlatDetectorPosition(lo, b, alt, s);
      -b <= pos - s / 2.0 && pos + s / 2.0 <= b
    ensures var pos := FlatDetectorPosition(lo, b, alt, s); var p := alt - (lo + b);
      && (p + s / 2.0 > b ==> pos + s / 2.0 == b)
      && (-b <= p - s / 2.0 && p + s / 2.0 <= b ==> pos == p)
      && (p + s / 2.0 <= b && p - s / 2.0 < -b ==> pos - s / 2.0 == p)
  {
  }

  /**
   * The inner radius of a detector shell in a curved layer with upper limit `hi`: the
   * altitude itself when the shell fits below `hi`, else the shell is lowered to touch `hi`.
   */
  function CurvedDetectorBase(hi: real, alt: real, s: real): (r: real)
    ensures r + s <= hi && r <= alt
    ensures r < alt ==> r + s == hi
  {
    if alt + s <= hi then alt else hi - s
  }

  /** A detector shell no thicker than its layer, starting at or above its bottom, stays inside it. */
  lemma CurvedDetectorInsideLayer(lo: real, hi: real, alt: real, s: real)
    requires 0.0 < s <= hi - lo && lo <= alt
    ensures var r := CurvedDetectorBase(hi, alt, s);
      lo <= r && r + s <= hi &&
      (alt + s <= hi ==> r == alt) && (alt + s > hi ==> r + s == hi)
  {
  }

  // ---------------------------------------------------------------- placements

  /** A detector `altKm` above ground in the flat world: its layer, local centre and thickness. */
  function FlatPlacement(height: real, n: nat, altKm: real): (d: PlacedDetector)
    requires n > 0
    ensures d.layer < n && d.thickness == DetectorThickness(height, n)
    ensures var alt := altKm * km + FlatCorrection(height);
      (d.layer == 0 || Contains(FlatLimits(height, n)[d.layer], alt)) &&
      forall k :: 0 <= k < d.layer ==> !Contains(FlatLimits(height, n)[k], alt)
  {
    var limits := FlatLimits(height, n);
    var alt := altKm * km + FlatCorrection(height);
    var layer := EnclosingLayer(limits, alt);
    var s := DetectorThickness(height, n);
    PlacedDetector(layer, FlatDetectorPosition(limits[layer].lo, height / n as real / 2.0, alt, s), s)
  }

  function FlatPlacements(height: real, n: nat, altsKm: seq<real>): (r: seq<PlacedDetector>)
    requires n > 0
    ensures |r| == |altsKm|
  {
    seq(|altsKm|, i requires 0 <= i < |altsKm| => FlatPlacement(height, n, altsKm[i]))
  }

  /** A detector `altKm` above ground in the curved world: its layer, inner radius and thickness. */
  function CurvedPlacement(earthRadiusKm: real, height: real, n: nat, altKm: real): (d: PlacedDetector)
    requires n > 0
    ensures d.layer < n && d.thickness == DetectorThickness(height, n)
    ensures var cf := CurvedCorrection(earthRadiusKm); var alt := altKm * km + cf;
      (d.layer == 0 || Contains(CurvedLimits(cf, height, n)[d.layer], alt)) &&
      forall k :: 0 <= k < d.layer ==> !Contains(CurvedLimits(cf, height, n)[k], alt)
  {
    var cf := CurvedCorrection(earthRadiusKm);
    var limits := CurvedLimits(cf, height, n);
    var alt := altKm * km + cf;
    var layer := EnclosingLayer(limits, alt);
    var s := DetectorThickness(height, n);
    PlacedDetector(layer, CurvedDetectorBase(limits[layer].hi, alt, s), s)
  }

  function CurvedPlacements(earthRadiusKm: real, height: real, n: nat, altsKm: seq<real>): (r: seq<PlacedDetector>)
    requires n > 0
    ensures |r| == |altsKm|
  {
    seq(|altsKm|, i requires 0 <= i < |altsKm| => CurvedPlacement(earthRadiusKm, height, n, altsKm[i]))
  }

  /** A non-negative altitude in km is a non-negative length, and a positive one positive. */
  lemma AltitudeSign(altKm: real)
    ensures altKm >= 0.0 ==> altKm * km >= 0.0
    ensures altKm * km > 0.0 ==> altKm > 0.0
  {
    if altKm >= 0.0 {
      MulLe(0.0, altKm, km);
    } else {
      MulLt(altKm, 0.0, km);
    }
  }

  /**
   * Where the flat lookup puts a detector at a non-negative altitude: a layer whose lower
   * limit it is not below; the lowest layer containing it when it is within the atmosphere;
   * layer 0, which it is above, otherwise.
   */
  lemma FlatLookup(height: real, n: nat, altKm: real)
    requires height > 0.0 && n > 0 && altKm >= 0.0
    ensures var limits := FlatLimits(height, n); var alt := altKm * km + FlatCorrection(height);
      var j := EnclosingLayer(limits, alt);
      && j < n && limits[j].lo <= alt
      && (altKm * km <= height ==>
            Contains(limits[j], alt) && forall k :: 0 <= k < j ==> !Contains(limits[k], alt))
      && (altKm * km > height ==> j == 0 && alt > limits[0].hi)
  {
    var limits := FlatLimits(height, n);
    FlatLimitsStacked(height, n);
    AltitudeSign(altKm);
    StackedLookup(limits, height / n as real, altKm * km + FlatCorrection(height));
  }

  /** The curved counterpart of FlatLookup, for shells stacked from the Earth's radius. */
  lemma CurvedLookup(earthRadiusKm: real, height: real, n: nat, altKm: real)
    requires height > 0.0 && n > 0 && altKm >= 0.0
    ensures var cf := CurvedCorrection(earthRadiusKm); var limits := CurvedLimits(cf, height, n);
      var alt := altKm * km + cf; var j := EnclosingLayer(limits, alt);
      && j < n && limits[j].lo <= alt && limits[j].hi == limits[j].lo + height / n as real
      && (altKm * km <= height ==>
            Contains(limits[j], alt) && forall k :: 0 <= k < j ==> !Contains(limits[k], alt))
      && (altKm * km > height ==> j == 0 && alt > limits[0].hi)
  {
    var cf := CurvedCorrection(earthRadiusKm);
    var limits := CurvedLimits(cf, height, n);
    CurvedLimitsStacked(cf, height, n);
    AltitudeSign(altKm);
    StackedLookup(limits, height / n as real, altKm * km + cf);
  }

  /**
   * Any detector at a non-negative altitude in the flat world is placed in a real layer and
   * wholly inside it; when the altitude is within the atmosphere that layer is the lowest one
   * containing it.
   */
  lemma FlatPlacementInsideLayer(height: real, n: nat, altKm: real)
    requires height > 0.0 && n > 0 && altKm >= 0.0
    ensures var d := FlatPlacement(height, n, altKm); var b := height / n as real / 2.0;
      d.layer < n && -b <= d.position - d.thickness / 2.0 && d.position + d.thickness / 2.0 <= b
    ensures altKm * km <= height ==>
      var d := FlatPlacement(height, n, altKm); var limits := FlatLimits(height, n);
      Contains(limits[d.layer], altKm * km + FlatCorrection(height)) &&
      forall k :: 0 <= k < d.layer ==> !Contains(limits[k], altKm * km + FlatCorrection(height))
  {
    var limits := FlatLimits(height, n);
    var alt := altKm * km + FlatCorrection(height);
    var layer := EnclosingLayer(limits, alt);
    FlatLookup(height, n, altKm);
    DetectorThicknessFits(height, n);
    FlatDetectorInsideLayer(limits[layer].lo, height / n as real / 2.0, alt, DetectorThickness(height, n));
  }

  /**
   * A detector above the flat atmosphere lies in no layer, so it is put in layer 0 with its
   * top face on that layer's top: near the ground, not at the top of the atmosphere.
   */
  lemma FlatAboveAtmosphereLandsInLayerZero(height: real, n: nat, altKm: real)
    requires height > 0.0 && n > 0 && altKm * km > height
    ensures var d := FlatPlacement(height, n, altKm);
      d.layer == 0 && d.position + d.thickness / 2.0 == height / n as real / 2.0
  {
    var limits := FlatLimits(height, n);
    var alt := altKm * km + FlatCorrection(height);
    AltitudeSign(altKm);
    FlatLookup(height, n, altKm);
    FlatLimitsStacked(height, n);
    DetectorThicknessFits(height, n);
    FlatDetectorInsideLayer(limits[0].lo, height / n as real / 2.0, alt, DetectorThickness(height, n));
  }

  /** A detector on the ground of the flat world sits in layer 0 with its bottom face on the ground. */
  lemma FlatGroundDetector(height: real, n: nat)
    requires height > 0.0 && n > 0
    ensures var d := FlatPlacement(height, n, 0.0);
      d.layer == 0 && d.position - d.thickness / 2.0 == -(height / n as real / 2.0)
  {
    var limits := FlatLimits(height, n);
    FlatLimitsStacked(height, n);
    assert Contains(limits[0], FlatCorrection(height));
    DetectorThicknessFits(height, n);
  }

  /**
   * Any detector at a non-negative altitude in the curved world is placed in a real shell and
   * wholly inside it; when the altitude is within the atmosphere that shell is the lowest one
   * containing it.
   */
  lemma CurvedPlacementInsideLayer(earthRadiusKm: real, height: real, n: nat, altKm: real)
    requires height > 0.0 && n > 0 && altKm >= 0.0
    ensures var d := CurvedPlacement(earthRadiusKm, height, n, altKm);
      var limits := CurvedLimits(CurvedCorrection(earthRadiusKm), height, n);
      d.layer < n && limits[d.layer].lo <= d.position && d.position + d.thickness <= limits[d.layer].hi
    ensures altKm * km <= height ==>
      var d := CurvedPlacement(earthRadiusKm, height, n, altKm);
      var cf := CurvedCorrection(earthRadiusKm);
      var limits := CurvedLimits(cf, height, n);
      Contains(limits[d.layer], altKm * km + cf) &&
      forall k :: 0 <= k < d.layer ==> !Contains(limits[k], altKm * km + cf)
  {
    var cf := CurvedCorrection(earthRadiusKm);
    var limits := CurvedLimits(cf, height, n);
    var alt := altKm * km + cf;
    var layer := EnclosingLayer(limits, alt);
    CurvedLookup(earthRadiusKm, height, n, altKm);
    DetectorThicknessFits(height, n);
    CurvedDetectorInsideLayer(limits[layer].lo, limits[layer].hi, alt, DetectorThickness(height, n));
  }

  /** A detector above the curved atmosphere is put in shell 0, touching that shell's top. */
  lemma CurvedAboveAtmosphereLandsInLayerZero(earthRadiusKm: real, height: real, n: nat, altKm: real)
    requires height > 0.0 && n > 0 && altKm * km > height
    ensures var d := CurvedPlacement(earthRadiusKm, height, n, altKm);
      d.layer == 0 && d.position + d.thickness == CurvedCorrection(earthRadiusKm) + height / n as real
  {
    var cf := CurvedCorrection(earthRadiusKm);
    var limits := CurvedLimits(cf, height, n);
    var alt := altKm * km + cf;
    AltitudeSign(altKm);
    CurvedLookup(earthRadiusKm, height, n, altKm);
    CurvedLimitsStacked(cf, height, n);
    DetectorThicknessFits(height, n);
    CurvedDetectorInsideLayer(limits[0].lo, limits[0].hi, alt, DetectorThickness(height, n));
  }

  // ---------------------------------------------------------------- world volumes

  /**
   * The opening angle of the curved world's spherical sector: the angle whose arc at the
   * Earth's radius is the world's size.
   */
  function SectorAngle(size: real, earthRadiusKm: real): (r: real)
    requires earthRadiusKm > 0.0
    ensures r * CurvedCorrection(earthRadiusKm) == size * radian
    ensures size > 0.0 ==> r > 0.0
  {
    size / CurvedCorrection(earthRadiusKm) * radian
  }

  /** The flat world's z extent: a box of half-height H/2 centred on the origin. */
  function FlatWorld(height: real): (r: Bounds)
    ensures height > 0.0 ==> r.lo < r.hi && r.hi - r.lo == height
  {
    Bounds(-height / 2.0, height / 2.0)
  }

  /** The curved world's radial extent: the shell from the Earth's radius to H above it. */
  function CurvedWorld(earthRadiusKm: real, height: real): (r: Bounds)
    ensures height > 0.0 ==> r.lo < r.hi && r.hi - r.lo == height
  {
    Bounds(CurvedCorrection(earthRadiusKm), CurvedCorrection(earthRadiusKm) + height)
  }

  /**
   * The flat layers tile the world box: contiguous, H/N thick each, from its bottom face to
   * its top face.
   */
  lemma FlatLayersTileWorld(height: real, n: nat)
    requires height > 0.0 && n > 0
    ensures var limits := FlatLimits(height, n); var w := FlatWorld(height);
      && limits[0].lo == w.lo && limits[n - 1].hi == w.hi
      && (forall i :: 0 <= i < n - 1 ==> limits[i].hi == limits[i + 1].lo)
      && (forall i :: 0 <= i < n ==> w.lo <= limits[i].lo < limits[i].hi <= w.hi)
      && (forall i :: 0 <= i < n ==> limits[i].hi - limits[i].lo == height / n as real)
  {
    FlatLimitsStacked(height, n);
    StackedSpan(FlatLimits(height, n), height / n as real);
  }

  /** The curved shells tile the world shell the same way. */
  lemma CurvedLayersTileWorld(earthRadiusKm: real, height: real, n: nat)
    requires height > 0.0 && n > 0
    ensures var limits := CurvedLimits(CurvedCorrection(earthRadiusKm), height, n);
      var w := CurvedWorld(earthRadiusKm, height);
      && limits[0].lo == w.lo && limits[n - 1].hi == w.hi
      && (forall i :: 0 <= i < n - 1 ==> limits[i].hi == limits[i + 1].lo)
      && (forall i :: 0 <= i < n ==> w.lo <= limits[i].lo < limits[i].hi <= w.hi)
      && (forall i :: 0 <= i < n ==> limits[i].hi - limits[i].lo == height / n as real)
  {
    var cf := CurvedCorrection(earthRadiusKm);
    CurvedLimitsStacked(cf, height, n);
    StackedSpan(CurvedLimits(cf, height, n), height / n as real);
  }
}
