/**
 * Picking one day's atmosphere profile out of the profile table and resampling its density
 * and temperature onto the N layer sample heights.
 */
module Profile {
  import opened Wrappers
  import opened Interpolation
  import opened Toolkit

  /** One day's sparse profile: altitudes in km, temperatures in K, densities in kg/m3. */
  datatype DayProfile = DayProfile(altitude: seq<real>, temperature: seq<real>, density: seq<real>)

  datatype ProfileError =
    | MissingDay(key: string)  // the day's key is absent from the table
    | EmptyProfile             // no sample points to interpolate from
    | LengthMismatch           // a value column's length differs from the altitude column's

  /** The N layer sample heights (toolkit length units) and the values resampled onto them. */
  datatype Resampled = Resampled(density: seq<real>, temperature: seq<real>, heights: seq<real>)

  function DigitChar(d: nat): char
    requires d < 10
  {
    (48 + d) as char
  }

  /** The decimal text of `n`, as Python's str writes an int: the key a day is stored under. */
  function DecimalString(n: nat): (s: string)
    ensures |s| > 0
    ensures forall i :: 0 <= i < |s| ==> '0' <= s[i] <= '9'
  {
    if n < 10 then [DigitChar(n)] else DecimalString(n / 10) + [DigitChar(n % 10)]
  }

  /** The number a string of decimal digits denotes. */
  function DigitsValue(s: string): nat
    requires forall i :: 0 <= i < |s| ==> '0' <= s[i] <= '9'
  {
    if |s| == 0 then 0 else 10 * DigitsValue(s[..|s| - 1]) + (s[|s| - 1] as int - 48)
  }

  /** Reading a key back gives its day, so distinct days never share a key. */
  lemma {:induction false} DecimalStringRoundTrip(n: nat)
    ensures DigitsValue(DecimalString(n)) == n
  {
    var s := DecimalString(n);
    if n >= 10 {
      DecimalStringRoundTrip(n / 10);
      assert s[..|s| - 1] == DecimalString(n / 10);
    }
  }

  lemma DecimalStringInjective(m: nat, n: nat)
    requires DecimalString(m) == DecimalString(n)
    ensures m == n
  {
    DecimalStringRoundTrip(m);
    DecimalStringRoundTrip(n);
  }

  /**
   * The profile of day `dayIdx`, resampled onto `n` heights evenly spaced from 0 to `height`:
   * density and temperature are each interpolated, clamped, against the day's altitudes in
   * toolkit length units. A missing day, an empty profile or columns of unequal length are
   * errors.
   */
  function Resample(data: map<string, DayProfile>, dayIdx: nat, height: real, n: nat): (r: Result<Resampled, ProfileError>)
    ensures r.Failure? <==>
      DecimalString(dayIdx) !in data ||
      |data[DecimalString(dayIdx)].altitude| == 0 ||
      |data[DecimalString(dayIdx)].density| != |data[DecimalString(dayIdx)].altitude| ||
      |data[DecimalString(dayIdx)].temperature| != |data[DecimalString(dayIdx)].altitude|
    ensures r.Failure? && DecimalString(dayIdx) !in data ==> r.error == MissingDay(DecimalString(dayIdx))
    ensures r.Success? ==>
      |r.value.density| == n && |r.value.temperature| == n && r.value.heights == Linspace(0.0, height, n)
  {
    var key := DecimalString(dayIdx);
    if key !in data then Failure(MissingDay(key))
    else
      var day := data[key];
      var xp := ScaleAll(day.altitude, km);
      if |xp| == 0 then Failure(EmptyProfile)
      else if |day.density| != |xp| || |day.temperature| != |xp| then Failure(LengthMismatch)
      else
        var heights := Linspace(0.0, height, n);
        Success(Resampled(
          seq(n, i requires 0 <= i < n => Interp(heights[i], xp, day.density)),
          seq(n, i requires 0 <= i < n => Interp(heights[i], xp, day.temperature)),
          heights))
  }

  /** The profile of a day the table holds, in the well-formed case (strictly increasing altitudes). */
  ghost predicate WellFormedDay(data: map<string, DayProfile>, dayIdx: nat) {
    var key := DecimalString(dayIdx);
    key in data && 0 < |data[key].altitude| &&
    |data[key].density| == |data[key].altitude| && |data[key].temperature| == |data[key].altitude| &&
    StrictlyIncreasing(data[key].altitude)
  }

  /**
   * Resampling is exact at the profile's own points: a layer height that coincides with a
   * profile altitude gets that altitude's density and temperature.
   */
  lemma ResampleAtProfilePoint(data: map<string, DayProfile>, dayIdx: nat, height: real, n: nat, i: nat, k: nat)
    requires WellFormedDay(data, dayIdx) && i < n
    requires var day := data[DecimalString(dayIdx)];
      k < |day.altitude| && Linspace(0.0, height, n)[i] == day.altitude[k] * km
    ensures var r := Resample(data, dayIdx, height, n); var day := data[DecimalString(dayIdx)];
      r.Success? && r.value.density[i] == day.density[k] && r.value.temperature[i] == day.temperature[k]
  {
    var day := data[DecimalString(dayIdx)];
    var xp := ScaleAll(day.altitude, km);
    ScaleAllIncreasing(day.altitude, km);
    InterpAtKnot(xp, day.density, k);
    InterpAtKnot(xp, day.temperature, k);
  }

  /** Above the profile's top altitude a layer holds the top values: nothing is extrapolated. */
  lemma ResampleAboveProfile(data: map<string, DayProfile>, dayIdx: nat, height: real, n: nat, i: nat)
    requires WellFormedDay(data, dayIdx) && i < n
    requires var day := data[DecimalString(dayIdx)];
      Linspace(0.0, height, n)[i] >= day.altitude[|day.altitude| - 1] * km
    ensures var r := Resample(data, dayIdx, height, n); var day := data[DecimalString(dayIdx)];
      r.Success? &&
      r.value.density[i] == day.density[|day.density| - 1] &&
      r.value.temperature[i] == day.temperature[|day.temperature| - 1]
  {
    var day := data[DecimalString(dayIdx)];
    var xp := ScaleAll(day.altitude, km);
    ScaleAllIncreasing(day.altitude, km);
    InterpRightClamp(Linspace(0.0, height, n)[i], xp, day.density);
    InterpRightClamp(Linspace(0.0, height, n)[i], xp, day.temperature);
  }

  /** Every resampled density lies within the day's own density range, for any table. */
  lemma ResampleWithinRange(data: map<string, DayProfile>, dayIdx: nat, height: real, n: nat, i: nat)
    requires Resample(data, dayIdx, height, n).Success? && i < n
    ensures var r := Resample(data, dayIdx, height, n); var day := data[DecimalString(dayIdx)];
      Min(day.density) <= r.value.density[i] <= Max(day.density) &&
      Min(day.temperature) <= r.value.temperature[i] <= Max(day.temperature)
  {
  }

  /**
   * Ten layers over 70 km on a two-point profile, (0 km, 300 K, 1.2 kg/m3) and
   * (70 km, 220 K, 0.01 kg/m3): the bottom layer gets the ground values and the top one the
   * values at 70 km.
   */
  lemma TwoPointProfileScenario()
    ensures var data := map["0" := DayProfile([0.0, 70.0], [300.0, 220.0], [1.2, 0.01])];
      var r := Resample(data, 0, 70.0 * km, 10);
      r.Success? &&
      r.value.density[0] == 1.2 && r.value.density[9] == 0.01 &&
      r.value.temperature[0] == 300.0 && r.value.temperature[9] == 220.0
  {
    var data := map["0" := DayProfile([0.0, 70.0], [300.0, 220.0], [1.2, 0.01])];
    assert DecimalString(0) == "0";
    assert WellFormedDay(data, 0);
    assert Linspace(0.0, 70.0 * km, 10)[0] == 0.0 * km;
    ResampleAtProfilePoint(data, 0, 70.0 * km, 10, 0, 0);
    assert Linspace(0.0, 70.0 * km, 10)[9] == 70.0 * km;
    ResampleAtProfilePoint(data, 0, 70.0 * km, 10, 9, 1);
  }
}
