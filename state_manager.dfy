/**
 * The state manager as an object whose handlers update its maps in place.
 * Each handler is proved to leave the object in the state the matching
 * function of `StateModel` computes from the old state; what those functions
 * promise is proved there.
 */
module StateManagement {
  import opened Wrappers
  import opened Json
  import opened Messages
  import opened OrderedMaps
  import opened StateModel

  class StateManager {
    /** `state_ttl`, in microseconds. */
    const stateTtl: int
    var districts: OMap<District>
    var edges: OMap<Ref>
    var cells: map<Ref, Edge>
    var nextRef: Ref
    var vehicles: OMap<Vehicle>
    var buildings: OMap<Building>
    var lastUpdate: map<string, int>

    /** The manager's maps as one value. */
    function State(): Store
      reads this
    {
      Store(districts, edges, cells, nextRef, vehicles, buildings, lastUpdate)
    }

    ghost predicate Valid()
      reads this
    {
      StateModel.Valid(State())
    }

    /** A manager with empty maps and a TTL of `stateTtlSeconds` seconds, 30 by default. */
    constructor (stateTtlSeconds: int := 30)
      ensures Valid() && State() == Initial() && stateTtl == stateTtlSeconds * 1_000_000
    {
      stateTtl := stateTtlSeconds * 1_000_000;
      districts, edges, cells, nextRef := Empty(), Empty(), map[], 0;
      vehicles, buildings, lastUpdate := Empty(), Empty(), map[];
    }

    /** `update_speed_sensor`, with `now` the current time. */
    method UpdateSpeedSensor(m: SpeedMsg, now: int)
      requires Valid()
      modifies this
      ensures Valid() && State() == UpdateSpeed(old(State()), m, now)
    {
      if !Present(m.districtId) || !Present(m.edgeId) {
        return;
      }
      var d, e := m.districtId.value, m.edgeId.value;
      SpeedInSteps(State(), m, now);
      var ref := BindNewEdge(Edge(d, e, Some(SpeedRecord(m)), None, None));
      LinkIntoDistrict(d, e, ref);
      lastUpdate := lastUpdate[SpeedKey(e) := now];
    }

    /** `self.edges_state[edge_id] = {...}`: a new dictionary, bound to its edge id. */
    method BindNewEdge(rec: Edge) returns (ref: Ref)
      modifies this
      ensures ref == old(nextRef) && nextRef == ref + 1
      ensures cells == old(cells)[ref := rec] && edges == Put(old(edges), rec.edgeId, ref)
      ensures districts == old(districts) && vehicles == old(vehicles)
      ensures buildings == old(buildings) && lastUpdate == old(lastUpdate)
    {
      ref := nextRef;
      cells := cells[ref := rec];
      edges := Put(edges, rec.edgeId, ref);
      nextRef := nextRef + 1;
    }

    /** District `d` is created when missing, then links dictionary `ref` under edge id `e`. */
    method LinkIntoDistrict(d: string, e: string, ref: Ref)
      modifies this
      ensures
        var ds := if d !in old(districts).vals then Put(old(districts), d, District(d, Empty())) else old(districts);
        districts == Put(ds, d, ds.vals[d].(edges := Put(ds.vals[d].edges, e, ref)))
      ensures edges == old(edges) && cells == old(cells) && nextRef == old(nextRef)
      ensures vehicles == old(vehicles) && buildings == old(buildings) && lastUpdate == old(lastUpdate)
    {
      if d !in districts.vals {
        districts := Put(districts, d, District(d, Empty()));
      }
      districts := Put(districts, d, districts.vals[d].(edges := Put(districts.vals[d].edges, e, ref)));
    }

    /** `update_weather_sensor`, with `now` the current time. */
    method UpdateWeatherSensor(m: WeatherMsg, now: int)
      requires Valid()
      modifies this
      ensures Valid() && State() == UpdateWeather(old(State()), m, now)
    {
      if !Present(m.districtId) || !Present(m.edgeId) {
        return;
      }
      var d, e := m.districtId.value, m.edgeId.value;
      ghost var s := State();
      var ref := MergeEdge(d, e);
      SetEdge(ref, cells[ref].(weather := Some(WeatherRecord(m))));
      LinkEdge(d, e, ref);
      lastUpdate := lastUpdate[WeatherKey(e) := now];
      MergeInSteps(s, d, e, EdgeBase(s, d, e).(weather := Some(WeatherRecord(m))));
    }

    /** `update_camera_sensor`, with `now` the current time. */
    method UpdateCameraSensor(m: CameraMsg, now: int)
      requires Valid()
      modifies this
      ensures Valid() && State() == UpdateCamera(old(State()), m, now)
    {
      if !Present(m.districtId) || !Present(m.edgeId) {
        return;
      }
      var d, e := m.districtId.value, m.edgeId.value;
      ghost var s := State();
      var ref := MergeEdge(d, e);
      SetEdge(ref, cells[ref].(camera := Some(CameraRecord(m))));
      LinkEdge(d, e, ref);
      lastUpdate := lastUpdate[CameraKey(e) := now];
      MergeInSteps(s, d, e, EdgeBase(s, d, e).(camera := Some(CameraRecord(m))));
    }

    /**
     * `if edge_id not in self.edges_state: self.edges_state[edge_id] = {...}`:
     * the dictionary of edge `e`, created minimal when missing.
     */
    method MergeEdge(d: string, e: string) returns (ref: Ref)
      requires Valid() && d != "" && e != ""
      modifies this
      ensures ref == MergeRef(old(State()), e)
      ensures ref in cells && cells == old(cells)[ref := EdgeBase(old(State()), d, e)]
      ensures edges == Put(old(edges), e, ref)
      ensures nextRef == if e in old(edges.vals) then old(nextRef) else old(nextRef) + 1
      ensures districts == old(districts) && vehicles == old(vehicles)
      ensures buildings == old(buildings) && lastUpdate == old(lastUpdate)
    {
      if e !in edges.vals {
        ref := BindNewEdge(Edge(d, e, None, None, None));
      } else {
        ref := edges.vals[e];
        assert cells == cells[ref := cells[ref]];
        assert edges == Put(edges, e, ref);
      }
    }

    /** `self.edges_state[edge_id].update(...)`: the dictionary `ref` now holds `rec`. */
    method SetEdge(ref: Ref, rec: Edge)
      modifies this
      ensures cells == old(cells)[ref := rec]
      ensures districts == old(districts) && edges == old(edges) && nextRef == old(nextRef)
      ensures vehicles == old(vehicles) && buildings == old(buildings) && lastUpdate == old(lastUpdate)
    {
      cells := cells[ref := rec];
    }

    /** `if district_id in self.districts_state: ...['edges'][edge_id] = self.edges_state[edge_id]`. */
    method LinkEdge(d: string, e: string, ref: Ref)
      modifies this
      ensures districts == LinkIfExists(old(districts), d, e, ref)
      ensures edges == old(edges) && cells == old(cells) && nextRef == old(nextRef)
      ensures vehicles == old(vehicles) && buildings == old(buildings) && lastUpdate == old(lastUpdate)
    {
      if d in districts.vals {
        districts := Put(districts, d, districts.vals[d].(edges := Put(districts.vals[d].edges, e, ref)));
      }
    }

    /** `update_vehicle`, with `now` the current time. */
    method UpdateVehicleTelemetry(m: VehicleMsg, now: int)
      requires Valid()
      modifies this
      ensures Valid() && State() == UpdateVehicle(old(State()), m, now)
    {
      if !Present(m.vehicleId) {
        return;
      }
      var v := m.vehicleId.value;
      vehicles := Put(vehicles, v, VehicleRecord(v, m));
      lastUpdate := lastUpdate[VehicleKey(v) := now];
    }

    /** `update_building`, with `now` the current time. */
    method UpdateBuildingMonitoring(m: BuildingMsg, now: int)
      requires Valid()
      modifies this
      ensures Valid() && State() == UpdateBuilding(old(State()), m, now)
    {
      if !Present(m.buildingId) {
        return;
      }
      var b := m.buildingId.value;
      BuildingInSteps(State(), m, now);
      if b !in buildings.vals {
        AddBuilding(NewBuilding(b, m));
      }
      if Present(m.sensorType) {
        var t := m.sensorType.value;
        SetSensor(b, BuildingSensor(t, m.measurements, m.timestamp));
      }
      lastUpdate := lastUpdate[BuildingKey(b) := now];
    }

    /** `self.buildings_state[building_id] = {...}` for a new building. */
    method AddBuilding(bldg: Building)
      modifies this
      ensures buildings == Put(old(buildings), bldg.buildingId, bldg)
      ensures districts == old(districts) && edges == old(edges) && cells == old(cells)
      ensures nextRef == old(nextRef) && vehicles == old(vehicles) && lastUpdate == old(lastUpdate)
    {
      buildings := Put(buildings, bldg.buildingId, bldg);
    }

    /** `self.buildings_state[building_id]['sensors'][sensor_type] = {...}`. */
    method SetSensor(b: string, sensor: BuildingSensor)
      requires b in buildings.vals
      modifies this
      ensures buildings == Put(old(buildings), b, old(buildings).vals[b].(sensors := Put(old(buildings).vals[b].sensors, sensor.sensorType, sensor)))
      ensures districts == old(districts) && edges == old(edges) && cells == old(cells)
      ensures nextRef == old(nextRef) && vehicles == old(vehicles) && lastUpdate == old(lastUpdate)
    {
      var bldg := buildings.vals[b];
      buildings := Put(buildings, b, bldg.(sensors := Put(bldg.sensors, sensor.sensorType, sensor)));
    }

    /** `cleanup_stale_state`: every update time older than the TTL is deleted, one key at a time. */
    method CleanupStaleState(now: int)
      requires Valid()
      modifies this
      ensures Valid() && State() == Cleanup(old(State()), now, stateTtl)
    {
      var stale := set k | k in lastUpdate && now - lastUpdate[k] > stateTtl;
      ghost var all := stale;
      while stale != {}
        invariant stale <= all
        invariant lastUpdate.Keys == old(lastUpdate).Keys - (all - stale)
        invariant forall k :: k in lastUpdate ==> lastUpdate[k] == old(lastUpdate)[k]
        invariant State() == old(State()).(lastUpdate := lastUpdate)
        decreases stale
      {
        var k :| k in stale;
        lastUpdate := lastUpdate - {k};
        stale := stale - {k};
      }
      assert lastUpdate == Cleanup(old(State()), now, stateTtl).lastUpdate;
    }

    /** `get_snapshot_state`: clean up, then export. */
    method GetSnapshotState(now: int) returns (x: StateExport)
      requires Valid()
      modifies this
      ensures Valid() && State() == Cleanup(old(State()), now, stateTtl)
      ensures x == Export(old(State()))
    {
      CleanupStaleState(now);
      CleanupKeepsEntities(old(State()), now, stateTtl);
      x := Export(State());
    }

    /** `get_stats`: the number of entries of each map. */
    method GetStats() returns (st: Stats)
      requires Valid()
      ensures st == Stats(|districts.vals|, |edges.vals|, |vehicles.vals|, |buildings.vals|, |lastUpdate|)
    {
      LenIsCardinality(districts);
      LenIsCardinality(edges);
      LenIsCardinality(vehicles);
      LenIsCardinality(buildings);
      st := Stats(Len(districts), Len(edges), Len(vehicles), Len(buildings), |lastUpdate|);
    }

    /** The consumer callbacks: each topic's messages go to their own handler. */
    method Consume(msg: Message, now: int)
      requires Valid()
      modifies this
      ensures Valid() && State() == Apply(old(State()), msg, now)
    {
      match msg
      case SpeedSensor(m) => UpdateSpeedSensor(m, now);
      case WeatherSensor(m) => UpdateWeatherSensor(m, now);
      case CameraSensor(m) => UpdateCameraSensor(m, now);
      case VehicleTelemetry(m) => UpdateVehicleTelemetry(m, now);
      case BuildingMonitoring(m) => UpdateBuildingMonitoring(m, now);
    }
  }
}
