/**
 * The snapshot builder as its source writes it: a configured object whose
 * steps walk the exported state with loops, each proved to produce what the
 * corresponding function of `SnapshotModel` describes.
 */
module SnapshotBuilding {
  import opened Wrappers
  import opened Json
  import opened Messages
  import opened OrderedMaps
  import opened Seqs
  import opened StateModel
  import opened SnapshotModel

  class SnapshotBuilder {
    const cityId: Scalar
    const cityName: Scalar
    const version: Scalar

    /** The configuration the builder was created with. */
    function Settings(): Config {
      Config(cityId, cityName, version)
    }

    /** Each setting comes from `cityConfig`, or its default when absent. */
    constructor (cityConfig: map<string, Scalar>)
      ensures Settings() == ConfigFrom(cityConfig)
    {
      cityId := GetOr(cityConfig, "cityId", Str("laquila-dt-001"));
      cityName := GetOr(cityConfig, "name", Str("L'Aquila Digital Twin"));
      version := GetOr(cityConfig, "version", Str("1.0"));
    }

    /** The whole snapshot; `clock` is the current time in ISO form. */
    method BuildSnapshot(state: StateExport, clock: string) returns (snap: Snapshot)
      ensures snap == SnapshotModel.BuildSnapshot(Settings(), state, clock)
    {
      var now := clock + "Z";
      var districts := BuildDistricts(state);
      var transport := BuildPublicTransport(state);
      var emergency := BuildEmergencyServices(state);
      snap := Snapshot(cityId, now, cityName, version, now, districts, transport, emergency);
    }

    /** One entry per district, in insertion order. */
    method BuildDistricts(state: StateExport) returns (districts: seq<DistrictOut>)
      ensures districts == Districts(state)
    {
      districts := [];
      var items := Items(state.districts);
      var buildings := Items(state.buildings);
      var i := 0;
      while i < |items|
        invariant 0 <= i <= |items|
        invariant districts == FlatMap(items[..i], DistrictsOf(buildings))
      {
        var (d, dist) := items[i];
        var sensors := BuildDistrictSensors(dist);
        var inDistrict := BuildDistrictBuildings(d, state.buildings);
        var stations := BuildWeatherStations(dist);
        districts := districts + [DistrictOut(d, DistrictName(d), sensors, inDistrict, stations)];
        FlatMapPrefix(items, i, DistrictsOf(buildings));
        i := i + 1;
      }
      assert items[..i] == items;
    }

    /** The sensors of a district: per edge, one per speed reading, then the camera. */
    method BuildDistrictSensors(dist: DistrictState) returns (sensors: seq<Sensor>)
      ensures sensors == DistrictSensors(Items(dist.edges))
    {
      sensors := [];
      var items := Items(dist.edges);
      var i := 0;
      while i < |items|
        invariant 0 <= i <= |items|
        invariant sensors == FlatMap(items[..i], EdgeSensors)
      {
        var (e, edge) := items[i];
        var fromReadings := [];
        if edge.speed.Some? {
          fromReadings := BuildReadingSensors(edge.speed.value);
        }
        var fromCamera := [];
        if edge.camera.Some? {
          var camera := edge.camera.value;
          fromCamera := [TrafficCamera(Str("camera-" + e), EdgeLocation(edge),
                                       CongestionLevel(camera.roadCondition), camera.roadCondition,
                                       camera.confidenceScore, camera.vehicleCount, camera.timestamp)];
        }
        sensors := sensors + fromReadings + fromCamera;
        FlatMapPrefix(items, i, EdgeSensors);
        i := i + 1;
      }
      assert items[..i] == items;
    }

    /** One `vehicleCount` sensor per reading of an edge's speed data, in order. */
    method BuildReadingSensors(sd: SpeedData) returns (sensors: seq<Sensor>)
      ensures sensors == FlatMap(sd.sensorReadings, ReadingSensors(sd))
    {
      sensors := [];
      var readings := sd.sensorReadings;
      var j := 0;
      while j < |readings|
        invariant 0 <= j <= |readings|
        invariant sensors == FlatMap(readings[..j], ReadingSensors(sd))
      {
        var reading := readings[j];
        sensors := sensors + [VehicleCount(reading.sensorId, Location(sd.latitude, sd.longitude),
                                           Trunc(reading.speedKmh.GetOr(0.0)), sd.timestamp)];
        FlatMapPrefix(readings, j, ReadingSensors(sd));
        j := j + 1;
      }
      assert readings[..j] == readings;
    }

    /** The buildings whose id or type matches one of district `d`'s building types. */
    method BuildDistrictBuildings(d: string, buildings: OMap<Building>) returns (inDistrict: seq<BuildingOut>)
      ensures inDistrict == DistrictBuildings(d, Items(buildings))
    {
      inDistrict := [];
      var types := BuildingTypes(d);
      var items := Items(buildings);
      var i := 0;
      while i < |items|
        invariant 0 <= i <= |items|
        invariant inDistrict == FlatMap(items[..i], InDistrict(d))
      {
        var (b, bldg) := items[i];
        if BelongsTo(types, b, bldg.buildingType) {
          var sensors := BuildBuildingSensors(bldg);
          inDistrict := inDistrict + [BuildingOut(b, bldg.name, bldg.buildingType,
                                                  Location(bldg.latitude, bldg.longitude), sensors)];
        }
        FlatMapPrefix(items, i, InDistrict(d));
        i := i + 1;
      }
      assert items[..i] == items;
    }

    /** The air quality and acoustic sensors of a building, in insertion order. */
    method BuildBuildingSensors(bldg: Building) returns (sensors: seq<BuildingSensorOut>)
      ensures sensors == BuildingSensors(bldg)
    {
      sensors := [];
      var items := Items(bldg.sensors);
      var i := 0;
      while i < |items|
        invariant 0 <= i <= |items|
        invariant sensors == FlatMap(items[..i], SensorsOf(bldg.buildingId))
      {
        var (t, sd) := items[i];
        if t == "air_quality" {
          var data := sd.data;
          sensors := sensors + [AirQuality(bldg.buildingId + "-aq", Get(data, "pm25_ugm3"), Get(data, "pm10_ugm3"),
                                           Get(data, "no2_ugm3"), Get(data, "co_ppm"), Get(data, "o3_ugm3"),
                                           sd.timestamp)];
        } else if t == "acoustic" {
          var data := sd.data;
          sensors := sensors + [Acoustic(bldg.buildingId + "-acoustic", Get(data, "noise_level_db"),
                                         Get(data, "peak_db"), Get(data, "average_db_1h"), sd.timestamp)];
        }
        FlatMapPrefix(items, i, SensorsOf(bldg.buildingId));
        i := i + 1;
      }
      assert items[..i] == items;
    }

    /** The station of the first edge with weather data; the walk stops there. */
    method BuildWeatherStations(dist: DistrictState) returns (stations: seq<WeatherStation>)
      ensures stations == WeatherStations(Items(dist.edges))
    {
      stations := [];
      var items := Items(dist.edges);
      var i := 0;
      while i < |items|
        invariant 0 <= i <= |items|
        invariant stations == []
        invariant forall j :: 0 <= j < i ==> items[j].1.weather.None?
      {
        var (e, edge) := items[i];
        if edge.weather.Some? {
          var weather := edge.weather.value;
          stations := [WeatherStation("ws-" + e, "Weather Station " + e, EdgeLocation(edge),
                                      weather.temperatureC, weather.humidity, weather.weatherConditions,
                                      weather.timestamp)];
          FirstWeatherAt(items, i);
          return;
        }
        i := i + 1;
      }
    }

    /** The buses, and an empty list of stations. */
    method BuildPublicTransport(state: StateExport) returns (transport: PublicTransport)
      ensures transport == PublicTransportOf(Items(state.vehicles))
    {
      var buses := [];
      var items := Items(state.vehicles);
      var i := 0;
      while i < |items|
        invariant 0 <= i <= |items|
        invariant buses == FlatMap(items[..i], BusesOf)
      {
        var (v, veh) := items[i];
        if veh.vehicleType == Str("bus") {
          buses := buses + [Bus(v, veh.name, Location(veh.latitude, veh.longitude), CurrentStop(veh.currentDestination),
                                veh.speedKmh, if Truthy(veh.operational) then OnTime else Delayed)];
        }
        FlatMapPrefix(items, i, BusesOf);
        i := i + 1;
      }
      assert items[..i] == items;
      transport := PublicTransport(buses, []);
    }

    /** The emergency units and the incidents they detected. */
    method BuildEmergencyServices(state: StateExport) returns (services: EmergencyServices)
      ensures services == Emergency(Items(state.vehicles))
    {
      var units := [];
      var incidents := [];
      var items := Items(state.vehicles);
      var i := 0;
      while i < |items|
        invariant 0 <= i <= |items|
        invariant units == FlatMap(items[..i], UnitsOf)
        invariant incidents == FlatMap(items[..i], IncidentsOf)
      {
        var (v, veh) := items[i];
        if veh.vehicleType in {Str("ambulance"), Str("firetruck"), Str("police")} {
          var status := Available;
          if veh.routePriority == Str("critical") {
            status := Responding;
          } else if veh.speedKmh.GetOr(0.0) > 0.0 {
            status := Patrol;
          }
          var destination := None;
          if status == Responding && IsNonEmptyObject(veh.currentDestination) {
            var dest := veh.currentDestination.fields;
            destination := Some(Location(Get(dest, "latitude"), Get(dest, "longitude")));
          }
          units := units + [Unit(v, UnitType(veh.vehicleType), status, Location(veh.latitude, veh.longitude), destination)];
          if Truthy(veh.incidentDetected) {
            incidents := incidents + [Incident("INC-" + v, Location(veh.latitude, veh.longitude), veh.timestamp, [v])];
          }
        }
        FlatMapPrefix(items, i, UnitsOf);
        FlatMapPrefix(items, i, IncidentsOf);
        i := i + 1;
      }
      assert items[..i] == items;
      services := EmergencyServices(incidents, units);
    }
  }
}
