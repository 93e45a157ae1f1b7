/**
 * The magnetic field vector of every layer, from one of two sources: a geomagnetic model
 * queried at each layer's sample height, or a table of field readings over altitude,
 * interpolated to those heights. Both give tesla, with z pointing up.
 */
module MagneticField {
  import opened Wrappers
  import opened Toolkit
  import opened Interpolation
  import Calendar
  import Configuration

  /** Tesla per nanotesla: model readings and table columns are in nanotesla. */
  const TeslaPerNanotesla: real := 0.000000001

  /** A geomagnetic model's reading: north, east and downward components, in nanotesla. */
  datatype GeoMagReading = GeoMagReading(x: real, y: real, z: real)

  /**
   * The geomagnetic model, queried with geodetic latitude and longitude (degrees), altitude
   * (km) and decimal year. Its internals are not part of this model.
   */
  type GeoMagModel = (real, real, real, real) -> GeoMagReading

  /** One row of a field table: components in nanotesla at an altitude in km. */
  datatype FieldRow = FieldRow(x: real, y: real, z: real, altitude: real)

  datatype FieldError =
    | EmptyTable                        // a table without rows: there is nothing to interpolate from
    | BadDate(error: Calendar.DateError)  // the decimal year of the setting's date cannot be computed

  /** The reading a field vector came from: the inverse of FromModel. */
  function ToModel(v: Vector3): GeoMagReading {
    GeoMagReading(v.x / TeslaPerNanotesla, v.y / TeslaPerNanotesla, -(v.z / TeslaPerNanotesla))
  }

  /**
   * A model reading as a field vector: in tesla, and with the vertical component negated,
   * since the model counts it positive towards the Earth's centre.
   */
  function FromModel(g: GeoMagReading): (v: Vector3)
    ensures ToModel(v) == g
    ensures v.z > 0.0 <==> g.z < 0.0
  {
    Vector3(g.x * TeslaPerNanotesla, g.y * TeslaPerNanotesla, -g.z * TeslaPerNanotesla)
  }

  /** The model's field at each sample height, the heights given in toolkit length units. */
  function ModelField(model: GeoMagModel, latitude: real, longitude: real, year: real, heights: seq<real>): (r: seq<Vector3>)
    ensures |r| == |heights|
  {
    seq(|heights|, i requires 0 <= i < |heights| => FromModel(model(latitude, longitude, heights[i] / km, year)))
  }

  /** Layer i's vector is the model's reading at layer i's sample height in km, and nothing else. */
  lemma ModelFieldReadsSampleHeights(model: GeoMagModel, latitude: real, longitude: real, year: real, heights: seq<real>, i: nat)
    requires i < |heights|
    ensures ToModel(ModelField(model, latitude, longitude, year, heights)[i]) ==
      model(latitude, longitude, heights[i] / km, year)
  {
  }

  /**
   * Over layers sampled from the ground to the top of an atmosphere H high, the model is
   * queried first at 0 km and last at H in km.
   */
  lemma ModelQueriedFromGroundToTop(model: GeoMagModel, latitude: real, longitude: real, year: real, height: real, n: nat)
    requires n > 1
    ensures var r := ModelField(model, latitude, longitude, year, Linspace(0.0, height, n));
      ToModel(r[0]) == model(latitude, longitude, 0.0, year) &&
      ToModel(r[n - 1]) == model(latitude, longitude, height / km, year)
  {
    var heights := Linspace(0.0, height, n);
    ModelFieldReadsSampleHeights(model, latitude, longitude, year, heights, 0);
    ModelFieldReadsSampleHeights(model, latitude, longitude, year, heights, n - 1);
  }

  /** The table's x, y and z columns in tesla, and its altitudes in toolkit length units. */
  function XColumn(rows: seq<FieldRow>): (r: seq<real>)
    ensures |r| == |rows|
  {
    ScaleAll(seq(|rows|, k requires 0 <= k < |rows| => rows[k].x), TeslaPerNanotesla)
  }

  function YColumn(rows: seq<FieldRow>): (r: seq<real>)
    ensures |r| == |rows|
  {
    ScaleAll(seq(|rows|, k requires 0 <= k < |rows| => rows[k].y), TeslaPerNanotesla)
  }

  function ZColumn(rows: seq<FieldRow>): (r: seq<real>)
    ensures |r| == |rows|
  {
    ScaleAll(seq(|rows|, k requires 0 <= k < |rows| => rows[k].z), TeslaPerNanotesla)
  }

  function Altitudes(rows: seq<FieldRow>): (r: seq<real>)
    ensures |r| == |rows|
  {
    ScaleAll(seq(|rows|, k requires 0 <= k < |rows| => rows[k].altitude), km)
  }

  /** Row k of the table as a field vector in tesla (no sign change: the table is already z-up). */
  function RowField(row: FieldRow): Vector3 {
    Vector3(row.x * TeslaPerNanotesla, row.y * TeslaPerNanotesla, row.z * TeslaPerNanotesla)
  }

  /**
   * The table's field at each sample height: each component interpolated, clamped, against
   * the altitudes. Every component stays within the range of its column; an empty table is
   * an error.
   */
  function TableField(rows: seq<FieldRow>, heights: seq<real>): (r: Result<seq<Vector3>, FieldError>)
    ensures r.Failure? <==> |rows| == 0
    ensures r.Success? ==> |r.value| == |heights| && forall i :: 0 <= i < |heights| ==>
      && Min(XColumn(rows)) <= r.value[i].x <= Max(XColumn(rows))
      && Min(YColumn(rows)) <= r.value[i].y <= Max(YColumn(rows))
      && Min(ZColumn(rows)) <= r.value[i].z <= Max(ZColumn(rows))
  {
    if |rows| == 0 then Failure(EmptyTable)
    else
      var alts := Altitudes(rows);
      Success(seq(|heights|, i requires 0 <= i < |heights| =>
        Vector3(Interp(heights[i], alts, XColumn(rows)),
                Interp(heights[i], alts, YColumn(rows)),
                Interp(heights[i], alts, ZColumn(rows)))))
  }

  /** A one-row table gives every layer that row's field, whatever the altitudes. */
  lemma OneRowTable(row: FieldRow, heights: seq<real>)
    ensures var r := TableField([row], heights);
      r.Success? && forall i :: 0 <= i < |heights| ==> r.value[i] == RowField(row)
  {
  }

  /** With increasing altitudes, a layer sampled exactly at a row's altitude gets that row's field. */
  lemma TableExactAtRow(rows: seq<FieldRow>, heights: seq<real>, i: nat, k: nat)
    requires k < |rows| && i < |heights|
    requires StrictlyIncreasing(seq(|rows|, j requires 0 <= j < |rows| => rows[j].altitude))
    requires heights[i] == rows[k].altitude * km
    ensures var r := TableField(rows, heights); r.Success? && r.value[i] == RowField(rows[k])
  {
    var raw := seq(|rows|, j requires 0 <= j < |rows| => rows[j].altitude);
    ScaleAllIncreasing(raw, km);
    InterpAtKnot(Altitudes(rows), XColumn(rows), k);
    InterpAtKnot(Altitudes(rows), YColumn(rows), k);
    InterpAtKnot(Altitudes(rows), ZColumn(rows), k);
  }

  /** With increasing altitudes, a layer above the table's top row gets the top row's field. */
  lemma TableClampsAboveTopRow(rows: seq<FieldRow>, heights: seq<real>, i: nat)
    requires 0 < |rows| && i < |heights|
    requires StrictlyIncreasing(seq(|rows|, j requires 0 <= j < |rows| => rows[j].altitude))
    requires heights[i] >= rows[|rows| - 1].altitude * km
    ensures var r := TableField(rows, heights); r.Success? && r.value[i] == RowField(rows[|rows| - 1])
  {
    var raw := seq(|rows|, j requires 0 <= j < |rows| => rows[j].altitude);
    ScaleAllIncreasing(raw, km);
    InterpRightClamp(heights[i], Altitudes(rows), XColumn(rows));
    InterpRightClamp(heights[i], Altitudes(rows), YColumn(rows));
    InterpRightClamp(heights[i], Altitudes(rows), ZColumn(rows));
  }

  /**
   * The per-layer field for a validated field setting: from the table when the (lower-cased)
   * source is "file", from the model at the setting's position and decimal year otherwise.
   * The decimal year is read once per layer, so with at least one layer a date in the last
   * representable year makes the model source fail; with none it is never read.
   */
  function LayerFields(mag: Configuration.MagneticFieldConfig, model: GeoMagModel, rows: seq<FieldRow>, heights: seq<real>): (r: Result<seq<Vector3>, FieldError>)
    requires Calendar.ValidDate(mag.magTime.date)
    ensures r.Failure? <==>
      if mag.magSource == "file" then |rows| == 0
      else |heights| > 0 && mag.magTime.date.year == Calendar.MaxYear
    ensures r.Success? ==> |r.value| == |heights|
    ensures r.Success? && mag.magSource != "file" ==>
      r.value == ModelField(model, mag.latitude, mag.longitude, Calendar.DecimalYear(mag.magTime.date), heights)
  {
    if mag.magSource != "file" then
      var year := Configuration.DecimalYear(mag);
      if |heights| == 0 then Success([])
      else if year.Failure? then Failure(BadDate(year.error))
      else Success(ModelField(model, mag.latitude, mag.longitude, year.value, heights))
    else TableField(rows, heights)
  }

  /**
   * Any source other than "file" selects the model and ignores the table; it fails only
   * when there are layers and the date lies in the last representable year.
   */
  lemma ModelSourceIgnoresTable(mag: Configuration.MagneticFieldConfig, model: GeoMagModel, rows: seq<FieldRow>, other: seq<FieldRow>, heights: seq<real>)
    requires Calendar.ValidDate(mag.magTime.date) && mag.magSource != "file"
    ensures LayerFields(mag, model, rows, heights) == LayerFields(mag, model, other, heights)
    ensures LayerFields(mag, model, rows, heights).Success? <==>
      |heights| == 0 || mag.magTime.date.year < Calendar.MaxYear
  {
  }
}
