/**
 * The detector construction: it resamples the day's profile and builds the layer materials
 * when created, fills the altitude limits of the N layers and places the sensitive detectors
 * when the world is built (flat or curved), and attaches one magnetic field to each layer and
 * one sensitive detector object to each placed detector.
 */
module Construction {
  import opened Wrappers
  import opened Toolkit
  import opened Interpolation
  import opened Geometry
  import Configuration
  import Profile
  import Materials
  import MagneticField
  import Detector
  import Calendar

  /** A field that has the same value everywhere: its components in toolkit field units. */
  class UniformMagneticField {
    var fbx: real
    var fby: real
    var fbz: real

    /** The field given in tesla. */
    constructor (x: real, y: real, z: real)
      ensures fbx == x * tesla && fby == y * tesla && fbz == z * tesla
    {
      fbx := x * tesla;
      fby := y * tesla;
      fbz := z * tesla;
    }

    function Field(): Vector3
      reads this
    {
      Vector3(fbx, fby, fbz)
    }

    /** Writes the field into the first three slots of `bfield`, whatever the point. */
    method GetFieldValue(point: Vector3, bfield: array<real>)
      requires bfield.Length >= 3
      modifies bfield
      ensures bfield[0] == fbx && bfield[1] == fby && bfield[2] == fbz
      ensures forall k :: 3 <= k < bfield.Length ==> bfield[k] == old(bfield[k])
    {
      bfield[0] := fbx;
      bfield[1] := fby;
      bfield[2] := fbz;
    }

    /** Sets the y component to `val` as given, with no unit conversion. */
    method SetFieldy(val: real)
      modifies this`fby
      ensures fby == val
      ensures fbx == old(fbx) && fbz == old(fbz)
    {
      fby := val;
    }
  }

  class DetectorConstruction {
    const config: Configuration.ConstructorConfig
    const saveDir: string
    const processNum: int
    /** The number of layers, N. */
    const densityPoints: nat
    /** The atmosphere's height H and the world's size, in toolkit length units. */
    const atmosphereHeight: real
    const size: real
    /** Per layer: density, temperature and the height (above ground) they were sampled at. */
    const density: seq<real>
    const temperature: seq<real>
    const interHeights: seq<real>
    const materials: seq<Materials.Material>
    /** Layer i's lower and upper limit, in world coordinates. */
    const altitudeLimits: array<Bounds>

    /** Added to a height above ground to get a world coordinate. */
    var correctionFactor: real
    var exportGdml: bool
    /** The placed sensitive detectors, in configuration order. */
    var sensitiveDetectors: seq<PlacedDetector>
    /** layerFields[i] is the field attached to layer i. */
    var layerFields: seq<UniformMagneticField>
    /** sensDetectors[i] is the detector object attached to placed detector i. */
    var sensDetectors: seq<Detector.SensDetector>

    ghost predicate Valid() {
      && Configuration.ValidConstructor(config)
      && densityPoints > 0 && atmosphereHeight > 0.0 && size > 0.0
      && altitudeLimits.Length == densityPoints
      && |density| == densityPoints && |temperature| == densityPoints
      && |interHeights| == densityPoints && |materials| == densityPoints
    }

    /**
     * Built from a validated configuration of the custom geometry: the day's profile
     * resampled onto N heights from 0 to H, one material per layer, and the altitude limits
     * zeroed until the world is built.
     */
    constructor (cfg: Configuration.Config, processNum: int, profiles: map<string, Profile.DayProfile>)
      requires Configuration.ValidConstructor(cfg.construction) && cfg.construction.inputGeom == "custom"
      requires Profile.Resample(profiles, cfg.construction.densityProfile.dayIdx as nat,
        cfg.construction.atmosHeight * km, cfg.construction.atmosNPoints as nat).Success?
      requires Materials.Alternating(cfg.construction.atmosComp)
      ensures Valid()
      ensures config == cfg.construction && saveDir == cfg.saveDir && this.processNum == processNum
      ensures densityPoints == cfg.construction.atmosNPoints
      ensures atmosphereHeight == cfg.construction.atmosHeight * km && size == cfg.construction.atmosSize * km
      ensures var p := Profile.Resample(profiles, cfg.construction.densityProfile.dayIdx as nat,
          cfg.construction.atmosHeight * km, cfg.construction.atmosNPoints as nat).value;
        density == p.density && temperature == p.temperature && interHeights == p.heights
      ensures materials == Materials.DefineMaterials(density, temperature, cfg.construction.atmosComp).value
      ensures fresh(altitudeLimits)
      ensures forall i :: 0 <= i < altitudeLimits.Length ==> altitudeLimits[i] == Bounds(0.0, 0.0)
      ensures correctionFactor == 0.0 && exportGdml == cfg.construction.exportGdml
      ensures sensitiveDetectors == [] && layerFields == [] && sensDetectors == []
    {
      var c := cfg.construction;
      config := c;
      saveDir := cfg.saveDir;
      this.processNum := processNum;
      correctionFactor := 0.0;
      densityPoints := c.atmosNPoints as nat;
      atmosphereHeight := c.atmosHeight * km;
      size := c.atmosSize * km;
      exportGdml := c.exportGdml;
      var p := Profile.Resample(profiles, c.densityProfile.dayIdx as nat, c.atmosHeight * km, c.atmosNPoints as nat).value;
      density := p.density;
      temperature := p.temperature;
      interHeights := p.heights;
      materials := Materials.DefineMaterials(p.density, p.temperature, c.atmosComp).value;
      altitudeLimits := new Bounds[c.atmosNPoints as nat](_ => Bounds(0.0, 0.0));
      sensitiveDetectors := [];
      layerFields := [];
      sensDetectors := [];
    }

    /** The state a built flat world leaves behind: its offset and its layer limits. */
    ghost predicate FlatBuilt()
      reads this, altitudeLimits
    {
      && densityPoints > 0
      && correctionFactor == FlatCorrection(atmosphereHeight)
      && altitudeLimits[..] == FlatLimits(atmosphereHeight, densityPoints)
    }

    /** The state a built curved world leaves behind: its offset and its shell limits. */
    ghost predicate CurvedBuilt()
      reads this, altitudeLimits
    {
      && densityPoints > 0
      && correctionFactor == CurvedCorrection(config.earthRadius)
      && altitudeLimits[..] == CurvedLimits(correctionFactor, atmosphereHeight, densityPoints)
    }

    /**
     * For each altitude (world coordinates), the first layer whose limits hold it, searched
     * from the bottom; layer 0 when none does.
     */
    method LocateDetectors(alts: seq<real>) returns (layers: seq<nat>)
      ensures |layers| == |alts|
      ensures forall i :: 0 <= i < |alts| ==> layers[i] == EnclosingLayer(altitudeLimits[..], alts[i])
    {
      ghost var limits := altitudeLimits[..];
      var layerOf := new nat[|alts|](_ => 0);
      for i := 0 to |alts|
        invariant forall k :: 0 <= k < i ==> layerOf[k] == EnclosingLayer(limits, alts[k])
      {
        var layer := 0;
        var j := 0;
        while j < altitudeLimits.Length
          invariant 0 <= j <= altitudeLimits.Length
          invariant layer == 0
          invariant forall k :: 0 <= k < j ==> !Contains(limits[k], alts[i])
        {
          if alts[i] >= altitudeLimits[j].lo && alts[i] <= altitudeLimits[j].hi {
            assert Contains(limits[j], alts[i]);
            layer := j;
            break;
          }
          j := j + 1;
        }
        layerOf[i] := layer;
      }
      layers := layerOf[..];
    }

    /**
     * The flat world: a box H high centred on the origin, offset -H/2, N slabs of thickness
     * H/N stacked from its bottom face and, when detectors are enabled, each detector placed
     * in the layer found for it and clamped inside that layer.
     */
    method ConstructFlatWorld() returns (world: Bounds)
      requires Valid()
      modifies this`correctionFactor, this`sensitiveDetectors, altitudeLimits
      ensures FlatBuilt()
      ensures world == FlatWorld(atmosphereHeight)
      ensures config.sensitiveDetectors.enabled ==>
        sensitiveDetectors == FlatPlacements(atmosphereHeight, densityPoints, config.sensitiveDetectors.altitude)
      ensures !config.sensitiveDetectors.enabled ==> sensitiveDetectors == old(sensitiveDetectors)
    {
      world := Bounds(-atmosphereHeight / 2.0, atmosphereHeight / 2.0);
      correctionFactor := -atmosphereHeight / 2.0;
      var n := densityPoints;
      var boxHeight := atmosphereHeight / n as real / 2.0;
      for i := 0 to n
        invariant forall k :: 0 <= k < i ==> altitudeLimits[k] == FlatLimit(atmosphereHeight, n, k)
        modifies altitudeLimits
      {
        altitudeLimits[i] := Bounds(
          i as real * atmosphereHeight / n as real + correctionFactor,
          i as real * atmosphereHeight / n as real + 2.0 * boxHeight + correctionFactor);
      }
      assert altitudeLimits[..] == FlatLimits(atmosphereHeight, n);
      if config.sensitiveDetectors.enabled {
        var altsKm := config.sensitiveDetectors.altitude;
        var cf := correctionFactor;
        var alts := seq(|altsKm|, i requires 0 <= i < |altsKm| => altsKm[i] * km + cf);
        var layers := LocateDetectors(alts);
        var s := DetectorThickness(atmosphereHeight, n);
        var placed: seq<PlacedDetector> := [];
        for i := 0 to |alts|
          invariant placed == FlatPlacements(atmosphereHeight, n, altsKm)[..i]
        {
          var upperLim := boxHeight;
          var layerCentre := altitudeLimits[layers[i]].lo + boxHeight;
          var lowerLim := -boxHeight;
          var position := alts[i] - layerCentre;
          if position + s / 2.0 > upperLim {
            position := upperLim - s / 2.0;
          } else if position - s / 2.0 < lowerLim {
            position := position + s / 2.0;
          }
          placed := placed + [PlacedDetector(layers[i], position, s)];
        }
        sensitiveDetectors := placed;
      }
    }

    /**
     * The curved world: the shell from the Earth's radius to H above it over a sector whose
     * arc at the Earth's radius is the world's size, offset the Earth's radius, N shells of
     * thickness H/N and, when detectors are enabled, each detector shell placed in the layer
     * found for it and lowered to fit under that layer's top.
     */
    method ConstructSphericalWorld() returns (world: Bounds, angle: real)
      requires Valid()
      modifies this`correctionFactor, this`sensitiveDetectors, altitudeLimits
      ensures CurvedBuilt()
      ensures world == CurvedWorld(config.earthRadius, atmosphereHeight)
      ensures angle == SectorAngle(size, config.earthRadius)
      ensures config.sensitiveDetectors.enabled ==>
        sensitiveDetectors == CurvedPlacements(config.earthRadius, atmosphereHeight, densityPoints, config.sensitiveDetectors.altitude)
      ensures !config.sensitiveDetectors.enabled ==> sensitiveDetectors == old(sensitiveDetectors)
    {
      var earthRad := config.earthRadius * km;
      angle := size / earthRad * radian;
      correctionFactor := earthRad;
      world := Bounds(correctionFactor, correctionFactor + atmosphereHeight);
      var n := densityPoints;
      for i := 0 to n
        invariant forall k :: 0 <= k < i ==> altitudeLimits[k] == CurvedLimit(correctionFactor, atmosphereHeight, n, k)
        modifies altitudeLimits
      {
        altitudeLimits[i] := Bounds(
          correctionFactor + i as real * atmosphereHeight / n as real,
          correctionFactor + (i + 1) as real * atmosphereHeight / n as real);
      }
      assert altitudeLimits[..] == CurvedLimits(correctionFactor, atmosphereHeight, n);
      if config.sensitiveDetectors.enabled {
        var altsKm := config.sensitiveDetectors.altitude;
        var cf := correctionFactor;
        var alts := seq(|altsKm|, i requires 0 <= i < |altsKm| => altsKm[i] * km + cf);
        var layers := LocateDetectors(alts);
        var s := DetectorThickness(atmosphereHeight, n);
        var placed: seq<PlacedDetector> := [];
        for i := 0 to |alts|
          invariant placed == CurvedPlacements(config.earthRadius, atmosphereHeight, n, altsKm)[..i]
        {
          var upperLim := altitudeLimits[layers[i]].hi;
          var chosenAlt;
          if alts[i] + s <= upperLim {
            chosenAlt := alts[i];
          } else {
            chosenAlt := upperLim - s;
          }
          placed := placed + [PlacedDetector(layers[i], chosenAlt, s)];
        }
        sensitiveDetectors := placed;
      }
    }

    /**
     * Builds the world of the configured geometry (flat, else curved) and clears the export
     * flag, so that the geometry is exported at most once.
     */
    method Construct() returns (world: Bounds)
      requires Valid()
      modifies this`correctionFactor, this`sensitiveDetectors, this`exportGdml, altitudeLimits
      ensures config.geometry == "flat" ==> FlatBuilt() && world == FlatWorld(atmosphereHeight)
      ensures config.geometry != "flat" ==> CurvedBuilt() && world == CurvedWorld(config.earthRadius, atmosphereHeight)
      ensures config.sensitiveDetectors.enabled ==>
        sensitiveDetectors ==
          if config.geometry == "flat" then FlatPlacements(atmosphereHeight, densityPoints, config.sensitiveDetectors.altitude)
          else CurvedPlacements(config.earthRadius, atmosphereHeight, densityPoints, config.sensitiveDetectors.altitude)
      ensures !config.sensitiveDetectors.enabled ==> sensitiveDetectors == old(sensitiveDetectors)
      ensures !exportGdml
    {
      if config.geometry == "flat" {
        world := ConstructFlatWorld();
      } else {
        var angle;
        world, angle := ConstructSphericalWorld();
      }
      if exportGdml {
        exportGdml := false;
      }
    }

    /**
     * The field vector (tesla) of every layer from the configured source: the geomagnetic
     * model queried at each sample height in a loop, or the field table interpolated to
     * the sample heights.
     */
    method GetMagneticField(mag: Configuration.MagneticFieldConfig, model: MagneticField.GeoMagModel, table: seq<MagneticField.FieldRow>)
      returns (r: Result<seq<Vector3>, MagneticField.FieldError>)
      requires Valid() && Calendar.ValidDate(mag.magTime.date)
      ensures r == MagneticField.LayerFields(mag, model, table, interHeights)
    {
      if mag.magSource != "file" {
        var magField := new Vector3[densityPoints](_ => Vector3(0.0, 0.0, 0.0));
        for i := 0 to densityPoints
          invariant i > 0 ==> Configuration.DecimalYear(mag).Success?
          invariant forall k :: 0 <= k < i ==>
            magField[k] == MagneticField.ModelField(model, mag.latitude, mag.longitude,
              Configuration.DecimalYear(mag).value, interHeights)[k]
        {
          var year := Configuration.DecimalYear(mag);
          if year.Failure? {
            return Failure(MagneticField.BadDate(year.error));
          }
          var reading := model(mag.latitude, mag.longitude, interHeights[i] / km, year.value);
          magField[i] := MagneticField.FromModel(reading);
        }
        var year := Configuration.DecimalYear(mag).value;
        assert magField[..] == MagneticField.ModelField(model, mag.latitude, mag.longitude, year, interHeights);
        r := Success(magField[..]);
      } else {
        r := MagneticField.TableField(table, interHeights);
      }
    }

    /** One new uniform field per vector, each given the vector as tesla. */
    static method NewLayerFields(fields: seq<Vector3>) returns (attached: seq<UniformMagneticField>)
      ensures |attached| == |fields|
      ensures forall i :: 0 <= i < |fields| ==> fresh(attached[i]) && attached[i].Field() == Scale(fields[i], tesla)
    {
      attached := [];
      for i := 0 to |fields|
        invariant |attached| == i
        invariant forall k :: 0 <= k < i ==> fresh(attached[k]) && attached[k].Field() == Scale(fields[k], tesla)
      {
        var f := new UniformMagneticField(fields[i].x, fields[i].y, fields[i].z);
        attached := attached + [f];
      }
    }

    /** `count` new sensitive detectors, named by index, sharing this construction's settings and offset. */
    method NewSensDetectors(count: nat) returns (detectors: seq<Detector.SensDetector>)
      ensures |detectors| == count
      ensures forall i :: 0 <= i < count ==>
        && fresh(detectors[i])
        && detectors[i].name == "sensitive_detector_" + Profile.DecimalString(i)
        && detectors[i].processNum == processNum
        && detectors[i].acceptedParticles == Detector.AcceptedSet(config.sensitiveDetectors.particles)
        && detectors[i].correctionFactor == correctionFactor
    {
      detectors := [];
      for i := 0 to count
        invariant |detectors| == i
        invariant forall k :: 0 <= k < i ==>
          && fresh(detectors[k])
          && detectors[k].name == "sensitive_detector_" + Profile.DecimalString(k)
          && detectors[k].processNum == processNum
          && detectors[k].acceptedParticles == Detector.AcceptedSet(config.sensitiveDetectors.particles)
          && detectors[k].correctionFactor == correctionFactor
      {
        var d := new Detector.SensDetector(config, "sensitive_detector_" + Profile.DecimalString(i), processNum, correctionFactor);
        detectors := detectors + [d];
      }
    }

    /**
     * When the field is enabled, gives layer i a uniform field of layer i's vector (an error
     * in getting the vectors propagates and nothing is attached); then gives every placed
     * detector a sensitive detector named after its index, carrying the world's offset.
     */
    method ConstructSDandField(model: MagneticField.GeoMagModel, table: seq<MagneticField.FieldRow>)
      returns (outcome: Outcome<MagneticField.FieldError>)
      requires Valid()
      modifies this`layerFields, this`sensDetectors
      ensures var fields := MagneticField.LayerFields(config.magneticField, model, table, interHeights);
        outcome.Fail? <==> config.magneticField.enabled && fields.Failure?
      ensures outcome.Fail? ==> layerFields == old(layerFields) && sensDetectors == old(sensDetectors)
      ensures outcome.Pass? && config.magneticField.enabled ==>
        var fields := MagneticField.LayerFields(config.magneticField, model, table, interHeights).value;
        |layerFields| == densityPoints &&
        forall i :: 0 <= i < densityPoints ==> fresh(layerFields[i]) && layerFields[i].Field() == Scale(fields[i], tesla)
      ensures !config.magneticField.enabled ==> layerFields == old(layerFields)
      ensures outcome.Pass? ==>
        |sensDetectors| == |sensitiveDetectors| &&
        forall i :: 0 <= i < |sensDetectors| ==>
          && fresh(sensDetectors[i])
          && sensDetectors[i].name == "sensitive_detector_" + Profile.DecimalString(i)
          && sensDetectors[i].processNum == processNum
          && sensDetectors[i].acceptedParticles == Detector.AcceptedSet(config.sensitiveDetectors.particles)
          && sensDetectors[i].correctionFactor == correctionFactor
    {
      if config.magneticField.enabled {
        var magField := GetMagneticField(config.magneticField, model, table);
        if magField.Failure? {
          return Fail(magField.error);
        }
        layerFields := NewLayerFields(magField.value);
      }
      sensDetectors := NewSensDetectors(|sensitiveDetectors|);
      return Pass;
    }
  }

  /**
   * The profile and field of flat layer i are sampled at linspace(0, H, N)[i], not at the
   * layer's middle; that height still lies within layer i's limits.
   */
  lemma FlatSampleInsideLayer(height: real, n: nat, i: nat)
    requires height > 0.0 && i < n
    ensures Contains(FlatLimit(height, n, i), Linspace(0.0, height, n)[i] + FlatCorrection(height))
  {
    LinspaceInsideBand(height, n, i);
    FlatLimitArith(height, n, i);
    Distrib(i, height / n as real);
  }

  /** The same holds for the shells of the curved world. */
  lemma CurvedSampleInsideLayer(cf: real, height: real, n: nat, i: nat)
    requires height > 0.0 && i < n
    ensures Contains(CurvedLimit(cf, height, n, i), Linspace(0.0, height, n)[i] + cf)
  {
    LinspaceInsideBand(height, n, i);
    CurvedLimitArith(cf, height, n, i);
    Distrib(i, height / n as real);
  }
}
