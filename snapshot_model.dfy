/**
 * The snapshot builder as pure functions from the state manager's export to
 * the output document. Each `for` loop of the builder that appends to a list
 * is a `FlatMap` over the entries it walks; the loop-based versions are in
 * `SnapshotBuilding`.
 */
module SnapshotModel {
  import opened Wrappers
  import opened Json
  import opened Messages
  import opened OrderedMaps
  import opened Seqs
  import opened StateModel

  /** A `{latitude, longitude}` object. */
  datatype Location = Location(latitude: Scalar, longitude: Scalar)

  /**
   * An entry of a district's `sensors`. A speed reading becomes a
   * `vehicleCount` sensor (unit `km/h`, status `active`); a camera becomes a
   * `trafficCamera` sensor (unit `congestionLevel`, status `active`).
   */
  datatype Sensor =
    | VehicleCount(sensorId: Scalar, location: Location, value: int, lastUpdated: Scalar)
    | TrafficCamera(sensorId: Scalar, location: Location, value: int,
                    roadCondition: Scalar, confidenceScore: Scalar, vehicleCount: Scalar, lastUpdated: Scalar)

  /** An entry of a building's `sensors` (status `operational`). */
  datatype BuildingSensorOut =
    | AirQuality(sensorId: string, pm25: Scalar, pm10: Scalar, no2: Scalar, co: Scalar, o3: Scalar, lastUpdated: Scalar)
    | Acoustic(sensorId: string, noiseLevelDb: Scalar, peakDb: Scalar, averageDb1h: Scalar, lastUpdated: Scalar)

  /** An entry of a district's `buildings` (status `operational`). */
  datatype BuildingOut = BuildingOut(
    buildingId: string, name: Scalar, buildingType: Scalar, location: Location, sensors: seq<BuildingSensorOut>)

  /** An entry of a district's `weatherStations` (elevation 700, status `active`). */
  datatype WeatherStation = WeatherStation(
    stationId: string, name: string, location: Location,
    temperature: Scalar, humidity: Scalar, weatherConditions: Scalar, lastUpdated: Scalar)

  /** An entry of `districts` (its `location` is the fixed centre of L'Aquila). */
  datatype DistrictOut = DistrictOut(
    districtId: string, name: string, sensors: seq<Sensor>,
    buildings: seq<BuildingOut>, weatherStations: seq<WeatherStation>)

  datatype BusStatus = OnTime | Delayed

  /** An entry of `publicTransport.buses`; `speed` is the stored `speed_kmh`, null when missing. */
  datatype Bus = Bus(busId: string, route: Scalar, location: Location, currentStop: Scalar,
                     speed: Option<real>, status: BusStatus)

  datatype PublicTransport = PublicTransport(buses: seq<Bus>, stations: seq<Scalar>)

  datatype UnitStatus = Responding | Patrol | Available

  /** An entry of `emergencyServices.units`. */
  datatype Unit = Unit(unitId: string, unitType: Scalar, status: UnitStatus, location: Location,
                       destination: Option<Location>)

  /** An entry of `emergencyServices.incidents` (type `collision`, priority `critical`, status `in-progress`). */
  datatype Incident = Incident(incidentId: string, location: Location, reportedAt: Scalar, respondingUnits: seq<string>)

  datatype EmergencyServices = EmergencyServices(incidents: seq<Incident>, units: seq<Unit>)

  /** The builder's configuration. */
  datatype Config = Config(cityId: Scalar, name: Scalar, version: Scalar)

  /** The snapshot document; `timestamp` and `metadata.lastUpdated` are the same clock reading. */
  datatype Snapshot = Snapshot(
    cityId: Scalar, timestamp: string, name: Scalar, version: Scalar, lastUpdated: string,
    districts: seq<DistrictOut>, publicTransport: PublicTransport, emergencyServices: EmergencyServices)

  /** `SnapshotBuilder.__init__`: each setting from the configuration, or its default. */
  function ConfigFrom(cfg: map<string, Scalar>): (c: Config)
    ensures c.cityId == if "cityId" in cfg then cfg["cityId"] else Str("laquila-dt-001")
    ensures c.name == if "name" in cfg then cfg["name"] else Str("L'Aquila Digital Twin")
    ensures c.version == if "version" in cfg then cfg["version"] else Str("1.0")
  {
    Config(GetOr(cfg, "cityId", Str("laquila-dt-001")),
           GetOr(cfg, "name", Str("L'Aquila Digital Twin")),
           GetOr(cfg, "version", Str("1.0")))
  }

  // ---------------------------------------------------------------- sensors

  /** `_road_condition_to_congestion`: the fixed table, 50 for anything else. */
  function CongestionLevel(condition: Scalar): (level: int)
    ensures 10 <= level <= 100
    ensures condition == Str("clear") ==> level == 10
    ensures condition == Str("congestion") ==> level == 70
    ensures condition == Str("accident") ==> level == 95
    ensures condition == Str("obstacles") ==> level == 80
    ensures condition == Str("flooding") ==> level == 100
    ensures level == 50 <==> !KnownCondition(condition)
  {
    match condition
    case Str(c) =>
      if c == "clear" then 10
      else if c == "congestion" then 70
      else if c == "accident" then 95
      else if c == "obstacles" then 80
      else if c == "flooding" then 100
      else 50
    case _ => 50
  }

  /** One of the five road conditions the table knows. */
  predicate KnownCondition(condition: Scalar) {
    condition in {Str("clear"), Str("congestion"), Str("accident"), Str("obstacles"), Str("flooding")}
  }

  /** `edge_data.get('latitude')`, `edge_data.get('longitude')`: only a speed message writes them. */
  function EdgeLocation(edge: Edge): Location {
    match edge.speed
    case Some(sd) => Location(sd.latitude, sd.longitude)
    case None => Location(Null, Null)
  }

  /** The sensor a speed reading becomes; a reading without `speed_kmh` counts as 0. */
  function ReadingSensor(sd: SpeedData, r: Reading): Sensor {
    VehicleCount(r.sensorId, Location(sd.latitude, sd.longitude), Trunc(r.speedKmh.GetOr(0.0)), sd.timestamp)
  }

  /** The sensors of one speed dictionary: one per reading, in order. */
  function ReadingSensors(sd: SpeedData): ((Reading) -> seq<Sensor>) {
    (r: Reading) => [ReadingSensor(sd, r)]
  }

  /** The camera sensor of edge `e`. */
  function CameraOut(e: string, edge: Edge, c: CameraData): Sensor {
    TrafficCamera(Str("camera-" + e), EdgeLocation(edge), CongestionLevel(c.roadCondition),
                  c.roadCondition, c.confidenceScore, c.vehicleCount, c.timestamp)
  }

  /** The sensors one edge contributes: its readings if it has speed data, then its camera if it has one. */
  function EdgeSensors(p: (string, Edge)): seq<Sensor> {
    var (e, edge) := p;
    (match edge.speed
     case Some(sd) => FlatMap(sd.sensorReadings, ReadingSensors(sd))
     case None => [])
    + (match edge.camera
       case Some(c) => [CameraOut(e, edge, c)]
       case None => [])
  }

  /** How many sensors an edge should yield: its readings when it has speed data, plus one for a camera. */
  function SensorCount(p: (string, Edge)): nat {
    (if p.1.speed.Some? then |p.1.speed.value.sensorReadings| else 0) + (if p.1.camera.Some? then 1 else 0)
  }

  /**
   * `_build_district_sensors` over the district's own edge dictionaries: as
   * many sensors as readings on its speed edges plus cameras on its edges.
   */
  function DistrictSensors(edges: seq<(string, Edge)>): (r: seq<Sensor>)
    ensures |r| == Sum(edges, SensorCount)
  {
    EdgeSensorsCounted(edges);
    FlatMapLength(edges, EdgeSensors, SensorCount);
    FlatMap(edges, EdgeSensors)
  }

  /** Each edge yields the number of sensors `SensorCount` says. */
  lemma EdgeSensorsCounted(edges: seq<(string, Edge)>)
    ensures forall i :: 0 <= i < |edges| ==> SensorCount(edges[i]) == |EdgeSensors(edges[i])|
  {
    forall i | 0 <= i < |edges|
      ensures SensorCount(edges[i]) == |EdgeSensors(edges[i])|
    {
      var edge := edges[i].1;
      if edge.speed.Some? {
        var sd := edge.speed.value;
        FlatMapSingletons(sd.sensorReadings, ReadingSensors(sd));
      }
    }
  }

  /**
   * The camera sensors of a district are exactly one per edge with camera
   * data, named `camera-<edge id>` and valued by the edge's road condition.
   */
  lemma CameraSensors(edges: seq<(string, Edge)>, e: string)
    ensures (exists s :: s in DistrictSensors(edges) && s.TrafficCamera? && s.sensorId == Str("camera-" + e))
        <==> (exists i :: 0 <= i < |edges| && edges[i].0 == e && edges[i].1.camera.Some?)
    ensures forall s :: s in DistrictSensors(edges) && s.TrafficCamera? ==>
        exists i :: 0 <= i < |edges| && edges[i].1.camera.Some? && s == CameraOut(edges[i].0, edges[i].1, edges[i].1.camera.value)
  {
    forall s | s in DistrictSensors(edges)
      ensures s.TrafficCamera? ==>
        exists i :: 0 <= i < |edges| && edges[i].1.camera.Some? && s == CameraOut(edges[i].0, edges[i].1, edges[i].1.camera.value)
    {
      FlatMapMember(edges, EdgeSensors, s);
      var i :| 0 <= i < |edges| && s in EdgeSensors(edges[i]);
      if s.TrafficCamera? {
        EdgeSensorKinds(edges[i], s);
      }
    }
    if exists i :: 0 <= i < |edges| && edges[i].0 == e && edges[i].1.camera.Some? {
      var i :| 0 <= i < |edges| && edges[i].0 == e && edges[i].1.camera.Some?;
      var s := CameraOut(e, edges[i].1, edges[i].1.camera.value);
      assert s in EdgeSensors(edges[i]);
      FlatMapMember(edges, EdgeSensors, s);
    }
    if exists s :: s in DistrictSensors(edges) && s.TrafficCamera? && s.sensorId == Str("camera-" + e) {
      var s :| s in DistrictSensors(edges) && s.TrafficCamera? && s.sensorId == Str("camera-" + e);
      var i :| 0 <= i < |edges| && edges[i].1.camera.Some? && s == CameraOut(edges[i].0, edges[i].1, edges[i].1.camera.value);
      PrefixInjective("camera-", edges[i].0, e);
    }
  }

  /** A camera sensor of an edge is that edge's camera sensor. */
  lemma EdgeSensorKinds(p: (string, Edge), s: Sensor)
    requires s in EdgeSensors(p) && s.TrafficCamera?
    ensures p.1.camera.Some? && s == CameraOut(p.0, p.1, p.1.camera.value)
  {
    if p.1.speed.Some? {
      var sd := p.1.speed.value;
      if s in FlatMap(sd.sensorReadings, ReadingSensors(sd)) {
        FlatMapMember(sd.sensorReadings, ReadingSensors(sd), s);
      }
    }
  }

  /** Two ids built on the same prefix are equal only when their suffixes are. */
  lemma PrefixInjective(prefix: string, a: string, b: string)
    ensures prefix + a == prefix + b <==> a == b
  {
    if prefix + a == prefix + b {
      assert a == (prefix + a)[|prefix|..];
      assert b == (prefix + b)[|prefix|..];
    }
  }

  // -------------------------------------------------------------- buildings

  /** The building types assigned to each district. */
  function BuildingTypes(d: string): seq<string> {
    if d == "district-centro" then ["hospital", "school"]
    else if d == "district-collemaggio" then ["basilica"]
    else if d == "district-pettino" then ["office", "university"]
    else []
  }

  /**
   * `any(bt in building_id or bt == building_type for bt in building_types)`.
   */
  predicate BelongsTo(types: seq<string>, id: string, buildingType: Scalar) {
    exists i :: 0 <= i < |types| && (IsSubstring(types[i], id) || buildingType == Str(types[i]))
  }

  /** Membership, with the substring test spelt out as an occurrence at some position. */
  lemma BelongsToAt(types: seq<string>, id: string, buildingType: Scalar)
    ensures BelongsTo(types, id, buildingType) <==>
      exists i :: 0 <= i < |types| && ((exists k :: OccursAt(types[i], id, k)) || buildingType == Str(types[i]))
  {
    forall i | 0 <= i < |types| {
      IsSubstringAt(types[i], id);
    }
  }

  /** `_build_building_sensors`' entry for one sensor: only air quality and acoustic sensors are kept. */
  function SensorOut(id: string, p: (string, BuildingSensor)): seq<BuildingSensorOut> {
    var (t, sd) := p;
    if t == "air_quality" then
      [AirQuality(id + "-aq", Get(sd.data, "pm25_ugm3"), Get(sd.data, "pm10_ugm3"), Get(sd.data, "no2_ugm3"),
                  Get(sd.data, "co_ppm"), Get(sd.data, "o3_ugm3"), sd.timestamp)]
    else if t == "acoustic" then
      [Acoustic(id + "-acoustic", Get(sd.data, "noise_level_db"), Get(sd.data, "peak_db"),
                Get(sd.data, "average_db_1h"), sd.timestamp)]
    else []
  }

  function SensorsOf(id: string): ((string, BuildingSensor)) -> seq<BuildingSensorOut> {
    (p: (string, BuildingSensor)) => SensorOut(id, p)
  }

  /**
   * `_build_building_sensors`: the sensors of a building, in insertion order.
   * Each comes from the building's `air_quality` entry, with id
   * `<building id>-aq`, or from its `acoustic` entry, with id
   * `<building id>-acoustic`.
   */
  function BuildingSensors(bldg: Building): (r: seq<BuildingSensorOut>)
    ensures forall s :: s in r ==>
      (s.AirQuality? ==> s.sensorId == bldg.buildingId + "-aq" && "air_quality" in bldg.sensors.vals) &&
      (s.Acoustic? ==> s.sensorId == bldg.buildingId + "-acoustic" && "acoustic" in bldg.sensors.vals)
  {
    SensorsFromEntries(bldg);
    FlatMap(Items(bldg.sensors), SensorsOf(bldg.buildingId))
  }

  /** 1 for the entry with key `t`, 0 for any other. */
  function KeyIs<V>(t: string): ((string, V)) -> nat {
    (p: (string, V)) => if p.0 == t then 1 else 0
  }

  /** 1 for an air quality or acoustic entry. */
  function Kept(p: (string, BuildingSensor)): nat {
    if p.0 == "air_quality" || p.0 == "acoustic" then 1 else 0
  }

  /**
   * A building has one air quality sensor if it has an `air_quality` entry,
   * one acoustic sensor if it has an `acoustic` entry, and no other sensor.
   */
  lemma BuildingSensorCount(bldg: Building)
    requires WellFormed(bldg.sensors)
    ensures |BuildingSensors(bldg)| ==
      (if "air_quality" in bldg.sensors.vals then 1 else 0) + (if "acoustic" in bldg.sensors.vals then 1 else 0)
  {
    var items := Items(bldg.sensors);
    ItemKeys(bldg.sensors);
    FlatMapLength(items, SensorsOf(bldg.buildingId), Kept);
    SumKept(items);
    CountKey(items, "air_quality");
    CountKey(items, "acoustic");
  }

  /** Every sensor built from a building's entries comes from its air quality or acoustic entry. */
  lemma SensorsFromEntries(bldg: Building)
    ensures forall s :: s in FlatMap(Items(bldg.sensors), SensorsOf(bldg.buildingId)) ==>
      (s.AirQuality? ==> s.sensorId == bldg.buildingId + "-aq" && "air_quality" in bldg.sensors.vals) &&
      (s.Acoustic? ==> s.sensorId == bldg.buildingId + "-acoustic" && "acoustic" in bldg.sensors.vals)
  {
    var items := Items(bldg.sensors);
    forall s | s in FlatMap(items, SensorsOf(bldg.buildingId))
      ensures (s.AirQuality? ==> s.sensorId == bldg.buildingId + "-aq" && "air_quality" in bldg.sensors.vals) &&
              (s.Acoustic? ==> s.sensorId == bldg.buildingId + "-acoustic" && "acoustic" in bldg.sensors.vals)
    {
      FlatMapMember(items, SensorsOf(bldg.buildingId), s);
      var i :| 0 <= i < |items| && s in SensorsOf(bldg.buildingId)(items[i]);
      ItemIn(bldg.sensors, items[i]);
    }
  }

  /** Kept entries are the air quality entries plus the acoustic entries. */
  lemma {:induction false} SumKept(ps: seq<(string, BuildingSensor)>)
    ensures Sum(ps, Kept) == Sum(ps, KeyIs("air_quality")) + Sum(ps, KeyIs("acoustic"))
    decreases |ps|
  {
    if ps != [] {
      SumKept(ps[..|ps| - 1]);
    }
  }

  /** Among entries with distinct keys, key `t` occurs once if at all. */
  lemma {:induction false} CountKey<V>(ps: seq<(string, V)>, t: string)
    requires forall i, j :: 0 <= i < j < |ps| ==> ps[i].0 != ps[j].0
    ensures Sum(ps, KeyIs(t)) == if exists i :: 0 <= i < |ps| && ps[i].0 == t then 1 else 0
    decreases |ps|
  {
    if ps != [] {
      var front := ps[..|ps| - 1];
      assert forall i :: 0 <= i < |front| ==> front[i] == ps[i];
      CountKey(front, t);
      if ps[|ps| - 1].0 == t {
        assert !exists i :: 0 <= i < |front| && front[i].0 == t;
      }
    }
  }

  /** The output entry of a building. */
  function BuildingOutOf(p: (string, Building)): BuildingOut {
    var (b, bldg) := p;
    BuildingOut(b, bldg.name, bldg.buildingType, Location(bldg.latitude, bldg.longitude), BuildingSensors(bldg))
  }

  function InDistrict(d: string): ((string, Building)) -> seq<BuildingOut> {
    (p: (string, Building)) => if BelongsTo(BuildingTypes(d), p.0, p.1.buildingType) then [BuildingOutOf(p)] else []
  }

  /** `_build_district_buildings`: the buildings assigned to district `d`, in insertion order. */
  function DistrictBuildings(d: string, buildings: seq<(string, Building)>): (r: seq<BuildingOut>)
    ensures forall o :: o in r ==> BelongsTo(BuildingTypes(d), o.buildingId, o.buildingType)
    ensures BuildingTypes(d) == [] ==> r == []
  {
    ListedBelong(d, buildings);
    FlatMap(buildings, InDistrict(d))
  }

  /** Only buildings that match one of the district's types are listed, so none when it has no types. */
  lemma ListedBelong(d: string, buildings: seq<(string, Building)>)
    ensures forall o :: o in FlatMap(buildings, InDistrict(d)) ==> BelongsTo(BuildingTypes(d), o.buildingId, o.buildingType)
    ensures BuildingTypes(d) == [] ==> FlatMap(buildings, InDistrict(d)) == []
  {
    forall o | o in FlatMap(buildings, InDistrict(d))
      ensures BelongsTo(BuildingTypes(d), o.buildingId, o.buildingType)
    {
      FlatMapMember(buildings, InDistrict(d), o);
    }
    if BuildingTypes(d) == [] {
      FlatMapNothing(buildings, InDistrict(d));
    }
  }

  /**
   * A building is listed under district `d` exactly when one of the
   * district's building types occurs in its id or equals its type.
   */
  lemma DistrictBuildingsMember(d: string, buildings: seq<(string, Building)>, o: BuildingOut)
    ensures o in DistrictBuildings(d, buildings) <==>
      exists i :: 0 <= i < |buildings| && BelongsTo(BuildingTypes(d), buildings[i].0, buildings[i].1.buildingType)
                  && o == BuildingOutOf(buildings[i])
  {
    FlatMapMember(buildings, InDistrict(d), o);
  }

  // -------------------------------------------------------- weather stations

  /** The position of the first edge with weather data, if any. */
  function FirstWeather(edges: seq<(string, Edge)>): (r: Option<nat>)
    ensures r.Some? ==> r.value < |edges| && edges[r.value].1.weather.Some?
    ensures r.Some? ==> forall j :: 0 <= j < r.value ==> edges[j].1.weather.None?
    ensures r.None? ==> forall j :: 0 <= j < |edges| ==> edges[j].1.weather.None?
    decreases |edges|
  {
    if edges == [] then None
    else if edges[0].1.weather.Some? then Some(0)
    else
      match FirstWeather(edges[1..])
      case None => None
      case Some(i) => Some(i + 1)
  }

  /** The first edge with weather data is the one the walk stops at. */
  lemma FirstWeatherAt(edges: seq<(string, Edge)>, i: nat)
    requires i < |edges| && edges[i].1.weather.Some?
    requires forall j :: 0 <= j < i ==> edges[j].1.weather.None?
    ensures FirstWeather(edges) == Some(i)
  {
  }

  /** The station an edge with weather data becomes. */
  function Station(e: string, edge: Edge, w: WeatherData): WeatherStation {
    WeatherStation("ws-" + e, "Weather Station " + e, EdgeLocation(edge),
                   w.temperatureC, w.humidity, w.weatherConditions, w.timestamp)
  }

  /** `_build_weather_stations`: the station of the first edge with weather data, and no other. */
  function WeatherStations(edges: seq<(string, Edge)>): (r: seq<WeatherStation>)
    ensures |r| <= 1
    ensures |r| == 1 <==> exists i :: 0 <= i < |edges| && edges[i].1.weather.Some?
    ensures |r| == 1 ==>
      exists i :: 0 <= i < |edges| && edges[i].1.weather.Some?
        && (forall j :: 0 <= j < i ==> edges[j].1.weather.None?)
        && r[0] == Station(edges[i].0, edges[i].1, edges[i].1.weather.value) && r[0].stationId == "ws-" + edges[i].0
  {
    match FirstWeather(edges)
    case None => []
    case Some(i) => [Station(edges[i].0, edges[i].1, edges[i].1.weather.value)]
  }

  // -------------------------------------------------------------- districts

  /** The display names of the known districts; any other district is named by its id. */
  function DistrictName(d: string): (name: string)
    ensures d == "district-centro" ==> name == "Centro Storico"
    ensures d == "district-collemaggio" ==> name == "Collemaggio"
    ensures d == "district-pettino" ==> name == "Pettino"
    ensures d !in {"district-centro", "district-collemaggio", "district-pettino"} ==> name == d
  {
    if d == "district-centro" then "Centro Storico"
    else if d == "district-collemaggio" then "Collemaggio"
    else if d == "district-pettino" then "Pettino"
    else d
  }

  /** One district entry, built from the district's own edge dictionaries. */
  function DistrictOf(d: string, dist: DistrictState, buildings: seq<(string, Building)>): DistrictOut {
    var edges := Items(dist.edges);
    DistrictOut(d, DistrictName(d), DistrictSensors(edges), DistrictBuildings(d, buildings), WeatherStations(edges))
  }

  function DistrictsOf(buildings: seq<(string, Building)>): ((string, DistrictState)) -> seq<DistrictOut> {
    (p: (string, DistrictState)) => [DistrictOf(p.0, p.1, buildings)]
  }

  /** `_build_districts`: one entry per district entry, in iteration order. */
  function Districts(x: StateExport): (r: seq<DistrictOut>)
    ensures |r| == |Items(x.districts)|
    ensures forall i :: 0 <= i < |r| ==>
      r[i] == DistrictOf(Items(x.districts)[i].0, Items(x.districts)[i].1, Items(x.buildings))
  {
    FlatMapSingletons(Items(x.districts), DistrictsOf(Items(x.buildings)));
    FlatMap(Items(x.districts), DistrictsOf(Items(x.buildings)))
  }

  /** One district entry per district, in insertion order, each carrying its own id. */
  lemma DistrictsInOrder(x: StateExport)
    requires WellFormed(x.districts)
    ensures |Districts(x)| == |x.districts.keys|
    ensures forall i :: 0 <= i < |x.districts.keys| ==>
      Districts(x)[i] == DistrictOf(x.districts.keys[i], x.districts.vals[x.districts.keys[i]], Items(x.buildings))
  {
    ItemsAt(x.districts);
  }

  // -------------------------------------------------------- public transport

  /** `_get_current_stop`. */
  function CurrentStop(dest: Destination): (stop: Scalar)
    ensures !IsNonEmptyObject(dest) ==> stop == Str("In Transit")
    ensures IsNonEmptyObject(dest) ==> stop == GetOr(dest.fields, "location_name", Str("Unknown Stop"))
  {
    if IsNonEmptyObject(dest) then GetOr(dest.fields, "location_name", Str("Unknown Stop")) else Str("In Transit")
  }

  /** The bus entry of a vehicle. */
  function BusOf(v: string, veh: Vehicle): Bus {
    Bus(v, veh.name, Location(veh.latitude, veh.longitude), CurrentStop(veh.currentDestination),
        veh.speedKmh, if Truthy(veh.operational) then OnTime else Delayed)
  }

  predicate IsBus(veh: Vehicle) {
    veh.vehicleType == Str("bus")
  }

  function BusesOf(p: (string, Vehicle)): seq<Bus> {
    if IsBus(p.1) then [BusOf(p.0, p.1)] else []
  }

  /** `_build_public_transport`: the buses, and no stations. */
  function PublicTransportOf(vehicles: seq<(string, Vehicle)>): (r: PublicTransport)
    ensures r.stations == []
  {
    PublicTransport(FlatMap(vehicles, BusesOf), [])
  }

  /**
   * The buses are exactly the vehicles of type `bus`, each on time exactly
   * when its `operational` flag is truthy.
   */
  lemma BusesExactly(vehicles: seq<(string, Vehicle)>, b: Bus)
    ensures b in PublicTransportOf(vehicles).buses <==>
      exists i :: 0 <= i < |vehicles| && IsBus(vehicles[i].1) && b == BusOf(vehicles[i].0, vehicles[i].1)
    ensures b in PublicTransportOf(vehicles).buses ==>
      exists i :: 0 <= i < |vehicles| && vehicles[i].0 == b.busId && IsBus(vehicles[i].1)
               && b.route == vehicles[i].1.name && b.speed == vehicles[i].1.speedKmh
               && (b.status == OnTime <==> Truthy(vehicles[i].1.operational))
  {
    FlatMapMember(vehicles, BusesOf, b);
  }

  // ----------------------------------------------------- emergency services

  /** `vehicle_type in {'ambulance', 'firetruck', 'police'}`. */
  predicate IsEmergency(veh: Vehicle) {
    veh.vehicleType in {Str("ambulance"), Str("firetruck"), Str("police")}
  }

  /** `unit_type_mapping.get(vehicle_type, vehicle_type)`: only `firetruck` is renamed. */
  function UnitType(t: Scalar): (u: Scalar)
    ensures t == Str("firetruck") ==> u == Str("fire-truck")
    ensures t != Str("firetruck") ==> u == t
  {
    if t == Str("firetruck") then Str("fire-truck") else t
  }

  /**
   * A unit's status: responding on a critical route, else on patrol when
   * moving, else available. A missing speed counts as 0 (see
   * `UnitStatusAsWritten` for what the source does instead).
   */
  function StatusOf(veh: Vehicle): (st: UnitStatus)
    ensures st == Responding <==> veh.routePriority == Str("critical")
    ensures st == Patrol <==> veh.routePriority != Str("critical") && veh.speedKmh.Some? && veh.speedKmh.value > 0.0
  {
    if veh.routePriority == Str("critical") then Responding
    else if veh.speedKmh.GetOr(0.0) > 0.0 then Patrol
    else Available
  }

  /**
   * The status decision as the source writes it: `speed_kmh` is always
   * stored, as null when the message had none, so `get('speed_kmh', 0) > 0`
   * compares null with 0 and raises; `None` stands for that error.
   */
  function UnitStatusAsWritten(veh: Vehicle): (st: Option<UnitStatus>)
    ensures st.None? <==> veh.routePriority != Str("critical") && veh.speedKmh.None?
  {
    if veh.routePriority == Str("critical") then Some(Responding)
    else match veh.speedKmh
      case None => None
      case Some(x) => if x > 0.0 then Some(Patrol) else Some(Available)
  }

  /** Wherever the source's decision does not raise, the corrected one agrees with it. */
  lemma StatusAgrees(veh: Vehicle)
    ensures UnitStatusAsWritten(veh).Some? ==> UnitStatusAsWritten(veh).value == StatusOf(veh)
  {
  }

  /** A police car whose telemetry carries no `speed_kmh`, on a non-critical route. */
  const PoliceWithoutSpeed: VehicleMsg := VehicleMsg(
    Some("police-1"), Str("police"), Str("Volante 1"), Num(42.35), Num(13.40), Null,
    None, Null, Null, Null, None, Str("normal"), NotObject, None, Str("2024-01-01T00:00:00"))

  /**
   * After that message the stored vehicle's speed is null, so the source's
   * status decision raises while the corrected one reports the unit available.
   */
  lemma MissingSpeedRaises(now: int)
    ensures var s := UpdateVehicle(Initial(), PoliceWithoutSpeed, now);
      "police-1" in s.vehicles.vals
      && IsEmergency(s.vehicles.vals["police-1"])
      && UnitStatusAsWritten(s.vehicles.vals["police-1"]).None?
      && StatusOf(s.vehicles.vals["police-1"]) == Available
  {
  }

  /** The destination a unit reports: only when responding, and only for a non-empty object. */
  function DestinationOf(veh: Vehicle, st: UnitStatus): (r: Option<Location>)
    ensures r.Some? <==> st == Responding && IsNonEmptyObject(veh.currentDestination)
  {
    if st == Responding && IsNonEmptyObject(veh.currentDestination)
    then Some(Location(Get(veh.currentDestination.fields, "latitude"), Get(veh.currentDestination.fields, "longitude")))
    else None
  }

  /** The unit entry of an emergency vehicle. */
  function UnitOf(v: string, veh: Vehicle): Unit {
    var st := StatusOf(veh);
    Unit(v, UnitType(veh.vehicleType), st, Location(veh.latitude, veh.longitude), DestinationOf(veh, st))
  }

  /** The incident entry of an emergency vehicle that detected one. */
  function IncidentOf(v: string, veh: Vehicle): Incident {
    Incident("INC-" + v, Location(veh.latitude, veh.longitude), veh.timestamp, [v])
  }

  function UnitsOf(p: (string, Vehicle)): seq<Unit> {
    if IsEmergency(p.1) then [UnitOf(p.0, p.1)] else []
  }

  function IncidentsOf(p: (string, Vehicle)): seq<Incident> {
    if IsEmergency(p.1) && Truthy(p.1.incidentDetected) then [IncidentOf(p.0, p.1)] else []
  }

  /** `_build_emergency_services`: never more incidents than units. */
  function Emergency(vehicles: seq<(string, Vehicle)>): (r: EmergencyServices)
    ensures |r.incidents| <= |r.units|
  {
    FlatMapLengthLe(vehicles, IncidentsOf, UnitsOf);
    EmergencyServices(FlatMap(vehicles, IncidentsOf), FlatMap(vehicles, UnitsOf))
  }

  /** The units are exactly the ambulances, fire trucks and police vehicles. */
  lemma UnitsExactly(vehicles: seq<(string, Vehicle)>, u: Unit)
    ensures u in Emergency(vehicles).units <==>
      exists i :: 0 <= i < |vehicles| && IsEmergency(vehicles[i].1) && u == UnitOf(vehicles[i].0, vehicles[i].1)
  {
    FlatMapMember(vehicles, UnitsOf, u);
  }

  /** An incident named `INC-<v>` exists exactly when emergency vehicle `v` detected one. */
  lemma IncidentsExactly(vehicles: seq<(string, Vehicle)>, v: string)
    ensures (exists n :: n in Emergency(vehicles).incidents && n.incidentId == "INC-" + v) <==>
      exists i :: 0 <= i < |vehicles| && vehicles[i].0 == v && IsEmergency(vehicles[i].1) && Truthy(vehicles[i].1.incidentDetected)
  {
    var incidents := Emergency(vehicles).incidents;
    if exists i :: 0 <= i < |vehicles| && vehicles[i].0 == v && IsEmergency(vehicles[i].1) && Truthy(vehicles[i].1.incidentDetected) {
      var i :| 0 <= i < |vehicles| && vehicles[i].0 == v && IsEmergency(vehicles[i].1) && Truthy(vehicles[i].1.incidentDetected);
      FlatMapMember(vehicles, IncidentsOf, IncidentOf(v, vehicles[i].1));
    }
    if exists n :: n in incidents && n.incidentId == "INC-" + v {
      var n :| n in incidents && n.incidentId == "INC-" + v;
      FlatMapMember(vehicles, IncidentsOf, n);
      var i :| 0 <= i < |vehicles| && n in IncidentsOf(vehicles[i]);
      PrefixInjective("INC-", vehicles[i].0, v);
    }
  }

  /** Every incident is answered by the one vehicle that reported it, and that vehicle is listed as a unit. */
  lemma IncidentAnswered(vehicles: seq<(string, Vehicle)>, n: Incident)
    requires n in Emergency(vehicles).incidents
    ensures exists i :: 0 <= i < |vehicles| && n.incidentId == "INC-" + vehicles[i].0 && n.respondingUnits == [vehicles[i].0]
                      && UnitOf(vehicles[i].0, vehicles[i].1) in Emergency(vehicles).units
  {
    FlatMapMember(vehicles, IncidentsOf, n);
    var i :| 0 <= i < |vehicles| && n in IncidentsOf(vehicles[i]);
    UnitsExactly(vehicles, UnitOf(vehicles[i].0, vehicles[i].1));
  }

  // --------------------------------------------------------------- snapshot

  /** `build_snapshot`, with `clock` the ISO form of the current time. */
  function BuildSnapshot(c: Config, x: StateExport, clock: string): (snap: Snapshot)
    ensures snap.timestamp == snap.lastUpdated == clock + "Z"
    ensures snap.cityId == c.cityId && snap.name == c.name && snap.version == c.version
  {
    Snapshot(c.cityId, clock + "Z", c.name, c.version, clock + "Z",
             Districts(x), PublicTransportOf(Items(x.vehicles)), Emergency(Items(x.vehicles)))
  }
}
