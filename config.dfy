/**
 * The simulation's configuration records and the checks made when they are built: per-field
 * bounds, lower- or upper-casing of the choice fields, and each record's own consistency check.
 * A check that fails is a configuration error; a record that passes comes back normalised.
 */
module Configuration {
  import opened Wrappers
  import Calendar

  datatype ConfigError =
    | OutOfRange(field: string)
    | InvalidChoice(field: string, value: string)
    | Empty(field: string)

  const GeneratorTypes: seq<string> := ["gps", "particle_gun"]
  /** The primaries a particle gun may shoot. */
  const GunParticles: seq<string> :=
    ["e-", "e+", "gamma", "mu-", "mu+", "nu_e", "nu_mu", "proton", "neutron", "geantino", "chargedgeantino"]
  /** The names a sensitive detector may accept: the gun's particles and the wildcard "all". */
  const DetectorParticles: seq<string> := GunParticles + ["all"]
  const InputGeometries: seq<string> := ["gdml", "custom"]
  const Geometries: seq<string> := ["flat", "curved"]
  const LoggerLevels: seq<string> := ["DEBUG", "INFO", "WARNING", "ERROR", "CRITICAL"]

  // ---------------------------------------------------------------- string normalisation

  function LowerChar(c: char): char {
    if 'A' <= c <= 'Z' then (c as int + 32) as char else c
  }

  function UpperChar(c: char): char {
    if 'a' <= c <= 'z' then (c as int - 32) as char else c
  }

  /** Lower-casing (ASCII letters). */
  function Lower(s: string): (r: string)
    ensures |r| == |s| && forall i :: 0 <= i < |s| ==> r[i] == LowerChar(s[i])
  {
    seq(|s|, i requires 0 <= i < |s| => LowerChar(s[i]))
  }

  /** Upper-casing (ASCII letters). */
  function Upper(s: string): (r: string)
    ensures |r| == |s| && forall i :: 0 <= i < |s| ==> r[i] == UpperChar(s[i])
  {
    seq(|s|, i requires 0 <= i < |s| => UpperChar(s[i]))
  }

  /** Normalising twice is normalising once, so a normalised record passes unchanged. */
  lemma LowerIdempotent(s: string)
    ensures Lower(Lower(s)) == Lower(s)
  {
    assert forall i :: 0 <= i < |s| ==> LowerChar(LowerChar(s[i])) == LowerChar(s[i]);
  }

  // ---------------------------------------------------------------- paths

  /** The index of the last `c` in `s`, or -1. */
  function LastIndexOf(s: string, c: char): (r: int)
    ensures -1 <= r < |s|
    ensures r >= 0 ==> s[r] == c && forall k :: r < k < |s| ==> s[k] != c
    ensures r == -1 ==> forall k :: 0 <= k < |s| ==> s[k] != c
    decreases |s|
  {
    if |s| == 0 then -1
    else if s[|s| - 1] == c then |s| - 1
    else LastIndexOf(s[..|s| - 1], c)
  }

  /**
   * The final component of a path as a path object parses it: empty components (from
   * repeated or trailing separators) and "." components are dropped, and the name is the
   * last component left, or "" when none is.
   */
  function FileName(path: string): (r: string)
    ensures r != "." && '/' !in r
    decreases |path|
  {
    var i := LastIndexOf(path, '/');
    var last := path[i + 1..];
    if last != "" && last != "." then last
    else if i < 0 then ""
    else FileName(path[..i])
  }

  /**
   * A path's suffix: from the final component's last dot, unless that dot is its first or
   * last character; "" otherwise.
   */
  function Suffix(path: string): (r: string)
    ensures var name := FileName(path);
      r == "" || (2 <= |r| < |name| && r[0] == '.' && '.' !in r[1..] && name[|name| - |r|..] == r)
  {
    var name := FileName(path);
    var i := LastIndexOf(name, '.');
    if 0 < i < |name| - 1 then name[i..] else ""
  }

  /** A trailing separator or "." component changes neither the final component nor the suffix. */
  lemma TrailingComponentsIgnored(path: string)
    ensures FileName(path + "/") == FileName(path) && FileName(path + "/.") == FileName(path)
    ensures Suffix(path + "/") == Suffix(path) && Suffix(path + "/.") == Suffix(path)
  {
    var p1 := path + "/";
    assert LastIndexOf(p1, '/') == |path|;
    assert p1[..|path|] == path;
    var p2 := path + "/.";
    assert LastIndexOf(p2[..|p2| - 1], '/') == |path| by {
      assert p2[..|p2| - 1] == p1;
    }
    assert LastIndexOf(p2, '/') == |path|;
    assert p2[|path| + 1..] == ".";
    assert p2[..|path|] == path;
  }

  /** A path has suffix ".json" exactly when its final component ends in ".json" after a non-empty stem. */
  lemma JsonSuffix(path: string)
    ensures var name := FileName(path);
      Suffix(path) == ".json" <==> |name| > 5 && name[|name| - 5..] == ".json"
  {
    var name := FileName(path);
    var i := LastIndexOf(name, '.');
    if |name| > 5 && name[|name| - 5..] == ".json" {
      assert name[|name| - 5] == '.';
      assert i == |name| - 5;
    }
    if Suffix(path) == ".json" {
      assert 0 < i < |name| - 1 && name[i..] == ".json";
    }
  }

  // ---------------------------------------------------------------- records

  datatype GeneratorConfig = GeneratorConfig(
    genType: string,
    nEvents: int,
    energy: real,
    particle: string,
    position: (real, real, real),
    direction: (real, real, real))

  datatype SensitiveDetectorConfig = SensitiveDetectorConfig(
    enabled: bool,
    altitude: seq<real>,
    particles: seq<string>)

  datatype DensityProfileConfig = DensityProfileConfig(densityFile: string, dayIdx: int)

  datatype MagneticFieldConfig = MagneticFieldConfig(
    enabled: bool,
    magSource: string,
    magFile: string,
    latitude: real,
    longitude: real,
    magTime: Calendar.DateTime)

  /**
   * One entry of the atmosphere's composition: an element symbol or a percentage. Any entry
   * that converts to a float, a numeric string such as "70" included, is a `Number` with that
   * value; every other entry is a `Symbol`.
   */
  datatype CompEntry = Symbol(name: string) | Number(value: real)

  datatype ConstructorConfig = ConstructorConfig(
    inputGeom: string,
    gdmlFile: string,
    magneticField: MagneticFieldConfig,
    sensitiveDetectors: SensitiveDetectorConfig,
    exportGdml: bool,
    geometry: string,
    earthRadius: real,
    atmosSize: real,
    atmosHeight: real,
    atmosComp: seq<CompEntry>,
    atmosNPoints: int,
    densityProfile: DensityProfileConfig)

  datatype Config = Config(
    randomSeed: int,
    numProcesses: int,
    loggerLevel: string,
    particlesPerRun: int,
    generator: GeneratorConfig,
    construction: ConstructorConfig,
    macroFiles: seq<string>,
    saveDir: string,
    timeResolution: real)

  // ---------------------------------------------------------------- validators

  /**
   * The generator passes when its counts are in range and its (lower-cased) type is gps or
   * particle_gun; the particle is checked, against the gun's list, only for a particle gun.
   */
  function ValidateGenerator(c: GeneratorConfig): (r: Result<GeneratorConfig, ConfigError>)
    ensures r.Success? <==>
      c.nEvents >= 1 && c.energy > 0.0 && Lower(c.genType) in GeneratorTypes &&
      (Lower(c.genType) == "particle_gun" ==> Lower(c.particle) in GunParticles)
    ensures r.Success? ==> r.value == c.(genType := Lower(c.genType), particle := Lower(c.particle))
  {
    var n := c.(genType := Lower(c.genType), particle := Lower(c.particle));
    if c.nEvents < 1 then Failure(OutOfRange("n_events"))
    else if c.energy <= 0.0 then Failure(OutOfRange("energy"))
    else if n.genType !in GeneratorTypes then Failure(InvalidChoice("gen_type", n.genType))
    else if n.genType == "particle_gun" && n.particle !in GunParticles then Failure(InvalidChoice("particle", n.particle))
    else Success(n)
  }

  /** A general particle source is accepted whatever its particle field says. */
  lemma GpsIgnoresParticle(c: GeneratorConfig)
    requires c.genType == "gps" && c.nEvents >= 1 && c.energy > 0.0
    ensures ValidateGenerator(c).Success?
  {
    assert Lower("gps") == "gps";
  }

  /** The wildcard "all" is a detector setting, never a particle a gun can shoot. */
  lemma GunRejectsWildcard(c: GeneratorConfig)
    requires c.genType == "particle_gun" && c.particle == "all"
    ensures ValidateGenerator(c).Failure?
  {
    assert Lower("particle_gun") == "particle_gun";
    assert Lower("all") == "all";
  }

  /**
   * A disabled detector set always passes; an enabled one needs at least one altitude, at
   * least one particle, no negative altitude and only names from the detector list.
   */
  function ValidateSensitiveDetectors(c: SensitiveDetectorConfig): (r: Result<SensitiveDetectorConfig, ConfigError>)
    ensures r.Success? <==>
      (c.enabled ==>
        |c.altitude| > 0 && |c.particles| > 0 &&
        (forall a :: a in c.altitude ==> a >= 0.0) &&
        (forall p :: p in c.particles ==> p in DetectorParticles))
    ensures r.Success? ==> r.value == c
  {
    if !c.enabled then Success(c)
    else if |c.altitude| == 0 then Failure(Empty("altitude"))
    else if |c.particles| == 0 then Failure(Empty("particles"))
    else if exists a :: a in c.altitude && a < 0.0 then Failure(OutOfRange("altitude"))
    else if exists p :: p in c.particles && p !in DetectorParticles then Failure(InvalidChoice("particles", ""))
    else Success(c)
  }

  function ValidateDensityProfile(c: DensityProfileConfig): (r: Result<DensityProfileConfig, ConfigError>)
    ensures r.Success? <==> c.dayIdx >= 0
  {
    if c.dayIdx < 0 then Failure(OutOfRange("day_idx")) else Success(c)
  }

  /** Latitude within [-90, 90], longitude within [-180, 180], the source lower-cased. */
  function ValidateMagneticField(c: MagneticFieldConfig): (r: Result<MagneticFieldConfig, ConfigError>)
    ensures r.Success? <==>
      -90.0 <= c.latitude <= 90.0 && -180.0 <= c.longitude <= 180.0 && Calendar.ValidDate(c.magTime.date)
    ensures r.Success? ==> r.value == c.(magSource := Lower(c.magSource))
  {
    if c.latitude < -90.0 || c.latitude > 90.0 then Failure(OutOfRange("latitude"))
    else if c.longitude < -180.0 || c.longitude > 180.0 then Failure(OutOfRange("longitude"))
    else if !Calendar.ValidDate(c.magTime.date) then Failure(OutOfRange("mag_time"))
    else Success(c.(magSource := Lower(c.magSource)))
  }

  /**
   * The decimal year the geomagnetic model is queried at: that of the date, whatever the
   * time. Computed as written, it fails for a date in the last representable year.
   */
  function DecimalYear(c: MagneticFieldConfig): (r: Result<real, Calendar.DateError>)
    requires Calendar.ValidDate(c.magTime.date)
    ensures r.Failure? <==> c.magTime.date.year == Calendar.MaxYear
    ensures r.Success? ==>
      r.value == Calendar.DecimalYear(c.magTime.date) &&
      c.magTime.date.year as real <= r.value < (c.magTime.date.year + 1) as real
  {
    Calendar.DecimalYearOfTime(c.magTime)
  }

  /** What a constructor configuration that passed validation satisfies. */
  ghost predicate ValidConstructor(c: ConstructorConfig) {
    && c.inputGeom in InputGeometries
    && c.geometry in Geometries
    && c.earthRadius > 0.0 && c.atmosSize > 0.0 && c.atmosHeight > 0.0
    && |c.atmosComp| >= 2
    && c.atmosNPoints > 0
    && c.densityProfile.dayIdx >= 0
    && ValidateMagneticField(c.magneticField) == Success(c.magneticField)
    && ValidateSensitiveDetectors(c.sensitiveDetectors).Success?
  }

  /**
   * The constructor configuration: its nested records, its bounds (positive radius, size and
   * height, at least one layer, at least two composition entries) and, after lower-casing,
   * an input geometry of gdml or custom and a geometry of flat or curved.
   */
  function ValidateConstructor(c: ConstructorConfig): (r: Result<ConstructorConfig, ConfigError>)
    ensures r.Success? <==>
      && ValidateMagneticField(c.magneticField).Success?
      && ValidateSensitiveDetectors(c.sensitiveDetectors).Success?
      && ValidateDensityProfile(c.densityProfile).Success?
      && c.earthRadius > 0.0 && c.atmosSize > 0.0 && c.atmosHeight > 0.0
      && |c.atmosComp| >= 2 && c.atmosNPoints > 0
      && Lower(c.inputGeom) in InputGeometries && Lower(c.geometry) in Geometries
  {
    var mf := ValidateMagneticField(c.magneticField);
    var sd := ValidateSensitiveDetectors(c.sensitiveDetectors);
    var dp := ValidateDensityProfile(c.densityProfile);
    if mf.Failure? then Failure(mf.error)
    else if sd.Failure? then Failure(sd.error)
    else if dp.Failure? then Failure(dp.error)
    else if c.earthRadius <= 0.0 then Failure(OutOfRange("earth_radius"))
    else if c.atmosSize <= 0.0 then Failure(OutOfRange("atmos_size"))
    else if c.atmosHeight <= 0.0 then Failure(OutOfRange("atmos_height"))
    else if |c.atmosComp| < 2 then Failure(OutOfRange("atmos_comp"))
    else if c.atmosNPoints <= 0 then Failure(OutOfRange("atmos_n_points"))
    else
      var n := c.(inputGeom := Lower(c.inputGeom), geometry := Lower(c.geometry), magneticField := mf.value);
      if n.inputGeom !in InputGeometries then Failure(InvalidChoice("input_geom", n.inputGeom))
      else if n.geometry !in Geometries then Failure(InvalidChoice("geometry", n.geometry))
      else Success(n)
  }

  /** A configuration that passes comes back satisfying ValidConstructor, choices lower-cased. */
  lemma ValidateConstructorSound(c: ConstructorConfig)
    requires ValidateConstructor(c).Success?
    ensures ValidConstructor(ValidateConstructor(c).value)
    ensures ValidateConstructor(c).value.geometry == Lower(c.geometry)
  {
    var n := ValidateConstructor(c).value;
    LowerIdempotent(c.magneticField.magSource);
    assert ValidateMagneticField(n.magneticField) == Success(n.magneticField);
  }

  /**
   * The whole configuration: its counts in range, its generator and constructor valid, the
   * upper-cased logger level one of the five standard levels and a ".json" density file.
   */
  function ValidateConfig(c: Config): (r: Result<Config, ConfigError>)
    ensures r.Success? <==>
      && c.randomSeed > 0 && c.numProcesses >= 1 && c.particlesPerRun >= 1 && c.timeResolution > 0.0
      && ValidateGenerator(c.generator).Success? && ValidateConstructor(c.construction).Success?
      && Upper(c.loggerLevel) in LoggerLevels
      && Suffix(c.construction.densityProfile.densityFile) == ".json"
    ensures r.Success? ==> r.value.loggerLevel == Upper(c.loggerLevel)
  {
    var g := ValidateGenerator(c.generator);
    var k := ValidateConstructor(c.construction);
    if c.randomSeed <= 0 then Failure(OutOfRange("random_seed"))
    else if c.numProcesses < 1 then Failure(OutOfRange("num_processes"))
    else if c.particlesPerRun < 1 then Failure(OutOfRange("particles_per_run"))
    else if c.timeResolution <= 0.0 then Failure(OutOfRange("time_resolution"))
    else if g.Failure? then Failure(g.error)
    else if k.Failure? then Failure(k.error)
    else if Upper(c.loggerLevel) !in LoggerLevels then Failure(InvalidChoice("logger_level", Upper(c.loggerLevel)))
    else if Suffix(c.construction.densityProfile.densityFile) != ".json" then Failure(InvalidChoice("density_file", ""))
    else Success(c.(loggerLevel := Upper(c.loggerLevel), generator := g.value, construction := k.value))
  }
}
