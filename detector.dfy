/**
 * The sensitive detector: which particles it records, the row it appends to the analysis
 * manager's table for a hit, and the rule that stops a track once it reaches the ground.
 */
module Detector {
  import opened Toolkit
  import Configuration
  import Geometry

  /** The name that makes a detector record every particle. */
  const Wildcard: string := "all"

  /** A corrected z at or below this (5000 mm) counts as ground level. */
  const GroundLevel: real := 5000.0 * mm

  datatype TrackStatus = Alive | StopAndKill

  /** A particle track; only its status is ever changed by a detector. */
  class Track {
    const trackId: int
    const particleName: string
    const pdgEncoding: int
    var status: TrackStatus

    constructor (trackId: int, particleName: string, pdgEncoding: int)
      ensures this.trackId == trackId && this.particleName == particleName
      ensures this.pdgEncoding == pdgEncoding && status == Alive
    {
      this.trackId := trackId;
      this.particleName := particleName;
      this.pdgEncoding := pdgEncoding;
      status := Alive;
    }
  }

  /** The pre-step point of a step: momentum, position (world coordinates) and global time (ns). */
  datatype StepPoint = StepPoint(momentum: Vector3, position: Vector3, globalTime: real)

  /** A step inside a detector: its track, the id of the current event and its pre-step point. */
  datatype Step = Step(track: Track, eventId: int, preStep: StepPoint)

  /**
   * One row of the hit table: event, track and process ids, particle name and code, momentum,
   * position with z measured from the ground, and global time in seconds.
   */
  datatype HitRow = HitRow(
    eventId: int,
    trackId: int,
    processNum: int,
    particleName: string,
    pdgEncoding: int,
    momentum: Vector3,
    x: real,
    y: real,
    z: real,
    time: real)

  /** The analysis manager's hit table; rows are only ever appended. */
  class AnalysisManager {
    var rows: seq<HitRow>

    constructor ()
      ensures rows == []
    {
      rows := [];
    }
  }

  /** The set of particle names a detector configured with `particles` accepts. */
  function AcceptedSet(particles: seq<string>): set<string> {
    set p | p in particles
  }

  /** A detector records a particle it names, or any particle when it names the wildcard. */
  function Accepts(accepted: set<string>, particleName: string): (r: bool)
    ensures Wildcard in accepted ==> r
    ensures Wildcard !in accepted ==> (r <==> particleName in accepted)
  {
    particleName in accepted || Wildcard in accepted
  }

  /** The z of a world position measured from the ground, given the geometry's offset. */
  function GroundZ(z: real, correctionFactor: real): (r: real)
    ensures r + correctionFactor == z
  {
    z - correctionFactor
  }

  /** A track has reached the ground when its world z is at most GroundLevel above the offset. */
  function ReachedGround(z: real, correctionFactor: real): (r: bool)
    ensures r <==> z <= correctionFactor + GroundLevel
  {
    GroundZ(z, correctionFactor) <= GroundLevel
  }

  /**
   * The row recorded for a step: x and y unchanged, z from the ground, the time converted to
   * seconds, the rest copied from the step, its track and the detector's process number.
   */
  function RecordRow(step: Step, processNum: int, correctionFactor: real): (r: HitRow)
    ensures r.z + correctionFactor == step.preStep.position.z
    ensures r.x == step.preStep.position.x && r.y == step.preStep.position.y
    ensures r.time * second == step.preStep.globalTime
    ensures r.particleName == step.track.particleName && r.processNum == processNum
  {
    var p := step.preStep;
    HitRow(step.eventId, step.track.trackId, processNum, step.track.particleName, step.track.pdgEncoding,
      p.momentum, p.position.x, p.position.y, GroundZ(p.position.z, correctionFactor), p.globalTime / second)
  }

  class SensDetector {
    const name: string
    const processNum: int
    const acceptedParticles: set<string>
    /** Subtracted from a world z to get the height above ground. */
    const correctionFactor: real

    constructor (config: Configuration.ConstructorConfig, name: string, processNum: int, correctionFactor: real := 0.0)
      ensures this.name == name && this.processNum == processNum
      ensures acceptedParticles == AcceptedSet(config.sensitiveDetectors.particles)
      ensures this.correctionFactor == correctionFactor
    {
      this.name := name;
      this.processNum := processNum;
      acceptedParticles := AcceptedSet(config.sensitiveDetectors.particles);
      this.correctionFactor := correctionFactor;
    }

    /**
     * Handles one step in the detector. A particle it does not accept is ignored. An
     * accepted one gets exactly one row appended, and its track is stopped and killed when
     * its z from the ground is at most GroundLevel (the row is still written). Always
     * reports the hit as processed.
     */
    method ProcessHits(step: Step, sink: AnalysisManager) returns (processed: bool)
      modifies step.track, sink
      ensures processed
      ensures !Accepts(acceptedParticles, step.track.particleName) ==>
        sink.rows == old(sink.rows) && step.track.status == old(step.track.status)
      ensures Accepts(acceptedParticles, step.track.particleName) ==>
        sink.rows == old(sink.rows) + [RecordRow(step, processNum, correctionFactor)]
      ensures Accepts(acceptedParticles, step.track.particleName) ==>
        step.track.status ==
          if ReachedGround(step.preStep.position.z, correctionFactor) then StopAndKill else old(step.track.status)
    {
      var track := step.track;
      if track.particleName !in acceptedParticles && Wildcard !in acceptedParticles {
        return true;
      }
      var zPos := step.preStep.position.z - correctionFactor;
      if zPos <= GroundLevel {
        track.status := StopAndKill;
      }
      sink.rows := sink.rows + [RecordRow(step, processNum, correctionFactor)];
      return true;
    }
  }

  /**
   * The accepted set holds exactly the configured names; for a detector setting that passed
   * validation and is enabled it is non-empty and holds only names from the detector list.
   */
  lemma ValidatedAcceptedSet(c: Configuration.SensitiveDetectorConfig)
    requires Configuration.ValidateSensitiveDetectors(c).Success? && c.enabled
    ensures forall p :: p in AcceptedSet(c.particles) <==> p in c.particles
    ensures AcceptedSet(c.particles) != {}
    ensures forall p :: p in AcceptedSet(c.particles) ==> p in Configuration.DetectorParticles
  {
    assert c.particles[0] in AcceptedSet(c.particles);
  }

  /** A detector configured with the wildcard records every particle. */
  lemma WildcardAcceptsAll(particles: seq<string>, particleName: string)
    requires Wildcard in particles
    ensures Accepts(AcceptedSet(particles), particleName)
  {
  }

  /** Without the wildcard, a detector records exactly the particles it names. */
  lemma AcceptsNamedOnly(particles: seq<string>, particleName: string)
    requires Wildcard !in particles
    ensures Accepts(AcceptedSet(particles), particleName) <==> particleName in particles
  {
  }

  /**
   * In the flat world, a hit at the world z of a point `altKm` above ground is recorded at
   * z = altKm km, and its track is killed exactly when that is at most GroundLevel.
   */
  lemma FlatHitRecordsAltitude(step: Step, processNum: int, height: real, altKm: real)
    requires step.preStep.position.z == altKm * km + Geometry.FlatCorrection(height)
    ensures RecordRow(step, processNum, Geometry.FlatCorrection(height)).z == altKm * km
    ensures ReachedGround(step.preStep.position.z, Geometry.FlatCorrection(height)) <==> altKm * km <= GroundLevel
  {
  }

  /**
   * In the curved world, on the sector's axis only (x = y = 0): there the world z is the
   * radius, so z minus the Earth's radius is the height above ground.
   */
  lemma CurvedHitRecordsAltitude(step: Step, processNum: int, earthRadiusKm: real, altKm: real)
    requires step.preStep.position.x == 0.0 && step.preStep.position.y == 0.0
    requires step.preStep.position.z == altKm * km + Geometry.CurvedCorrection(earthRadiusKm)
    ensures RecordRow(step, processNum, Geometry.CurvedCorrection(earthRadiusKm)).z == altKm * km
    ensures ReachedGround(step.preStep.position.z, Geometry.CurvedCorrection(earthRadiusKm)) <==> altKm * km <= GroundLevel
  {
  }

  /** The squared distance of a point from the curved world's axis. */
  function OffAxis(p: Vector3): real {
    p.x * p.x + p.y * p.y
  }

  /** A positive number exceeds every number whose square is smaller than its own square. */
  lemma BelowBySquares(z: real, r: real)
    requires r > 0.0 && z * z < r * r
    ensures z < r
  {
  }

  /**
   * Off the curved world's axis the recorded z is not the height above ground: for a hit at
   * distance R + a from the centre (R the Earth's radius, a the altitude) with x or y not
   * zero, the recorded z is below a, so the ground test sees the track lower than it is.
   */
  lemma CurvedOffAxisRecordsBelowAltitude(step: Step, processNum: int, earthRadiusKm: real, altKm: real)
    requires Geometry.CurvedCorrection(earthRadiusKm) + altKm * km > 0.0
    requires OffAxis(step.preStep.position) > 0.0
    requires OffAxis(step.preStep.position) + step.preStep.position.z * step.preStep.position.z ==
      (Geometry.CurvedCorrection(earthRadiusKm) + altKm * km) * (Geometry.CurvedCorrection(earthRadiusKm) + altKm * km)
    ensures RecordRow(step, processNum, Geometry.CurvedCorrection(earthRadiusKm)).z < altKm * km
  {
    var radius := Geometry.CurvedCorrection(earthRadiusKm) + altKm * km;
    var p := step.preStep.position;
    BelowBySquares(p.z, radius);
  }

  /**
   * With the default Earth radius (6371 km) and world size (100 km), a hit 0.5 km above the
   * ground near the sector's edge is recorded 0.25 km below ground and its track is killed,
   * although it is 100 times higher than GroundLevel. The point (x, 0, z) lies at distance
   * R + 0.5 km from the centre, and x / z is below the sector's opening angle, so its polar
   * angle (which is at most x / z) is inside the sector.
   */
  lemma CurvedEdgeHitKilledAboveGround()
    ensures var cf := Geometry.CurvedCorrection(6371.0);
      var radius := cf + 0.5 * km;
      var x := radius * 260.0 / 16901.0;
      var z := radius * 16899.0 / 16901.0;
      && x * x + z * z == radius * radius
      && x / z < Geometry.SectorAngle(100.0 * km, 6371.0)
      && 0.5 * km > GroundLevel
      && GroundZ(z, cf) < 0.0
      && ReachedGround(z, cf)
  {
  }
}
