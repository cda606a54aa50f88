/**
 * The five kinds of message the aggregator consumes, one per topic, with the
 * fields the handlers read. A field read with a plain `data.get(k)` is a
 * `Scalar` (a missing key reads as `Null`); an identity field is an
 * `Option<string>`; a field read with a default says how a missing key is told
 * apart.
 */
module Messages {
  import opened Wrappers
  import opened Json

  /** One entry of a speed message's `sensor_readings`; `speedKmh` is `None` when the key is absent. */
  datatype Reading = Reading(sensorId: Scalar, speedKmh: Option<real>)

  /**
   * A vehicle's `current_destination`: a JSON object, or anything else
   * (null, a string, a number), which the builder treats alike.
   */
  datatype Destination = NotObject | Object(fields: map<string, Scalar>)

  /** `dest and isinstance(dest, dict)`: the destination is a JSON object with at least one key. */
  predicate IsNonEmptyObject(d: Destination) {
    d.Object? && d.fields != map[]
  }

  /** A message of the city-speed-sensors topic. An absent `sensor_readings` reads as `[]`. */
  datatype SpeedMsg = SpeedMsg(
    districtId: Option<string>, edgeId: Option<string>,
    latitude: Scalar, longitude: Scalar, speedKmh: Scalar,
    sensorReadings: seq<Reading>, timestamp: Scalar)

  /** A message of the city-weather-sensors topic. */
  datatype WeatherMsg = WeatherMsg(
    districtId: Option<string>, edgeId: Option<string>,
    temperatureC: Scalar, humidity: Scalar, weatherConditions: Scalar, timestamp: Scalar)

  /** A message of the city-camera-sensors topic. */
  datatype CameraMsg = CameraMsg(
    districtId: Option<string>, edgeId: Option<string>,
    roadCondition: Scalar, confidenceScore: Scalar, vehicleCount: Scalar, timestamp: Scalar)

  /**
   * A message of the vehicles-telemetry topic. `speedKmh` is `None` when the key
   * is absent or null; `incidentDetected` and `operational` are `None` when the
   * key is absent (the handler then stores `False` and `True`).
   */
  datatype VehicleMsg = VehicleMsg(
    vehicleId: Option<string>, vehicleType: Scalar, name: Scalar,
    latitude: Scalar, longitude: Scalar, altitudeM: Scalar,
    speedKmh: Option<real>, directionDegrees: Scalar, heading: Scalar,
    batteryLevelPercent: Scalar, incidentDetected: Option<Scalar>,
    routePriority: Scalar, currentDestination: Destination,
    operational: Option<Scalar>, timestamp: Scalar)

  /** A message of the buildings-monitoring topic. An absent `measurements` reads as `{}`. */
  datatype BuildingMsg = BuildingMsg(
    buildingId: Option<string>, name: Scalar, buildingType: Scalar,
    latitude: Scalar, longitude: Scalar, sensorType: Option<string>,
    measurements: map<string, Scalar>, timestamp: Scalar)

  /** A message tagged with the topic it came from. */
  datatype Message =
    | SpeedSensor(speed: SpeedMsg)
    | WeatherSensor(weather: WeatherMsg)
    | CameraSensor(camera: CameraMsg)
    | VehicleTelemetry(vehicle: VehicleMsg)
    | BuildingMonitoring(building: BuildingMsg)
}
