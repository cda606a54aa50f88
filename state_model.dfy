/**
 * The state manager's data as values, and each of its operations as a
 * function from the old state to the new one.
 *
 * The manager keeps edges in two places: `edges_state` maps an edge id to an
 * edge dictionary, and every district's `edges` maps edge ids to edge
 * dictionaries too. Python shares these dictionaries by reference, so an
 * in-place update of an edge is seen through every district that holds the
 * same dictionary, while a district that still holds a dictionary the edge map
 * has since replaced keeps seeing the old one. The model makes the sharing
 * explicit: edge dictionaries live in `cells` under a `Ref`, and both maps hold
 * refs.
 */
module StateModel {
  import opened Wrappers
  import opened Json
  import opened Messages
  import opened OrderedMaps

  /** The identity of an edge dictionary. */
  type Ref = nat

  /** The keys a speed message writes into an edge (`sensor_type` is always `'speed'`). */
  datatype SpeedData = SpeedData(
    latitude: Scalar, longitude: Scalar, speedKmh: Scalar,
    sensorReadings: seq<Reading>, timestamp: Scalar)

  /** An edge's `weather` sub-record. */
  datatype WeatherData = WeatherData(
    temperatureC: Scalar, humidity: Scalar, weatherConditions: Scalar, timestamp: Scalar)

  /** An edge's `camera` sub-record. */
  datatype CameraData = CameraData(
    roadCondition: Scalar, confidenceScore: Scalar, vehicleCount: Scalar, timestamp: Scalar)

  /**
   * An edge dictionary: `district_id` and `edge_id` always, the keys of a speed
   * message when one created it, and the `weather` and `camera` keys once set.
   */
  datatype Edge = Edge(
    districtId: string, edgeId: string,
    speed: Option<SpeedData>, weather: Option<WeatherData>, camera: Option<CameraData>)

  /** A district dictionary: its id and the edge dictionaries it links, by edge id. */
  datatype District = District(districtId: string, edges: OMap<Ref>)

  /** A vehicle dictionary, as the vehicle handler stores it. */
  datatype Vehicle = Vehicle(
    vehicleId: string, vehicleType: Scalar, name: Scalar,
    latitude: Scalar, longitude: Scalar, altitudeM: Scalar,
    speedKmh: Option<real>, directionDegrees: Scalar, heading: Scalar,
    batteryLevelPercent: Scalar, incidentDetected: Scalar,
    routePriority: Scalar, currentDestination: Destination,
    operational: Scalar, timestamp: Scalar)

  /** One entry of a building's `sensors`, keyed by its sensor type. */
  datatype BuildingSensor = BuildingSensor(sensorType: string, data: map<string, Scalar>, timestamp: Scalar)

  /** A building dictionary. */
  datatype Building = Building(
    buildingId: string, name: Scalar, buildingType: Scalar,
    latitude: Scalar, longitude: Scalar, sensors: OMap<BuildingSensor>)

  /**
   * Everything the manager holds: the four entity maps, the edge dictionaries
   * they refer to, and the `last_update_time` tracking map (times in
   * microseconds).
   */
  datatype Store = Store(
    districts: OMap<District>,
    edges: OMap<Ref>,
    cells: map<Ref, Edge>,
    nextRef: Ref,
    vehicles: OMap<Vehicle>,
    buildings: OMap<Building>,
    lastUpdate: map<string, int>)

  /** The state of a freshly constructed manager. */
  function Initial(): (s: Store)
    ensures Valid(s)
  {
    Store(Empty(), Empty(), map[], 0, Empty(), Empty(), map[])
  }

  /** Every linked edge id is non-empty and names an edge dictionary with that `edge_id`. */
  ghost predicate LinksResolve(cells: map<Ref, Edge>, links: OMap<Ref>) {
    forall e :: e in links.vals ==> e != "" && links.vals[e] in cells && cells[links.vals[e]].edgeId == e
  }

  /** A district is stored under its own non-empty id and its links resolve. */
  ghost predicate DistrictOk(cells: map<Ref, Edge>, d: string, dist: District) {
    d != "" && dist.districtId == d && WellFormed(dist.edges) && LinksResolve(cells, dist.edges)
  }

  /** A building is stored under its own non-empty id and so is each of its sensors. */
  ghost predicate BuildingOk(b: string, bldg: Building) {
    && b != "" && bldg.buildingId == b && WellFormed(bldg.sensors)
    && forall t :: t in bldg.sensors.vals ==> t != "" && bldg.sensors.vals[t].sensorType == t
  }

  /** Every district is well formed. */
  ghost predicate DistrictsOk(cells: map<Ref, Edge>, districts: OMap<District>) {
    forall d :: d in districts.vals ==> DistrictOk(cells, d, districts.vals[d])
  }

  /** Every vehicle is stored under its own non-empty id. */
  ghost predicate VehiclesOk(vehicles: OMap<Vehicle>) {
    forall v :: v in vehicles.vals ==> v != "" && vehicles.vals[v].vehicleId == v
  }

  /** Every building is well formed. */
  ghost predicate BuildingsOk(buildings: OMap<Building>) {
    forall b :: b in buildings.vals ==> BuildingOk(b, buildings.vals[b])
  }

  /** Every edge dictionary was allocated before `nextRef`. */
  ghost predicate CellsBelow(cells: map<Ref, Edge>, nextRef: Ref) {
    forall r :: r in cells ==> r < nextRef
  }

  /** The invariant every handler keeps. */
  ghost predicate Valid(s: Store) {
    && WellFormed(s.districts) && WellFormed(s.edges) && WellFormed(s.vehicles) && WellFormed(s.buildings)
    && CellsBelow(s.cells, s.nextRef)
    && LinksResolve(s.cells, s.edges)
    && DistrictsOk(s.cells, s.districts)
    && VehiclesOk(s.vehicles)
    && BuildingsOk(s.buildings)
  }

  /** The edge dictionaries that a map of links refers to. */
  function Resolve(cells: map<Ref, Edge>, links: OMap<Ref>): (r: OMap<Edge>)
    requires LinksResolve(cells, links)
    ensures r.keys == links.keys && r.vals.Keys == links.vals.Keys
  {
    OMap(links.keys, map e | e in links.vals :: cells[links.vals[e]])
  }

  /** A newly allocated dictionary changes nothing an existing link sees. */
  lemma ResolveFresh(cells: map<Ref, Edge>, links: OMap<Ref>, ref: Ref, rec: Edge)
    requires LinksResolve(cells, links) && ref !in cells
    ensures LinksResolve(cells[ref := rec], links)
    ensures Resolve(cells[ref := rec], links) == Resolve(cells, links)
  {
  }

  /** Linking a dictionary under its own edge id adds it to the resolved view. */
  lemma ResolveLink(cells: map<Ref, Edge>, links: OMap<Ref>, e: string, ref: Ref)
    requires LinksResolve(cells, links) && e != "" && ref in cells && cells[ref].edgeId == e
    ensures LinksResolve(cells, Put(links, e, ref))
    ensures Resolve(cells, Put(links, e, ref)) == Put(Resolve(cells, links), e, cells[ref])
  {
    LinkResolves(cells, links, e, ref);
    LinkView(cells, links, e, ref);
  }

  lemma LinkResolves(cells: map<Ref, Edge>, links: OMap<Ref>, e: string, ref: Ref)
    requires LinksResolve(cells, links) && e != "" && ref in cells && cells[ref].edgeId == e
    ensures LinksResolve(cells, Put(links, e, ref))
  {
  }

  lemma LinkView(cells: map<Ref, Edge>, links: OMap<Ref>, e: string, ref: Ref)
    requires LinksResolve(cells, links) && LinksResolve(cells, Put(links, e, ref)) && ref in cells
    ensures Resolve(cells, Put(links, e, ref)) == Put(Resolve(cells, links), e, cells[ref])
  {
    var links' := Put(links, e, ref);
    var a := Resolve(cells, links');
    var b := Put(Resolve(cells, links), e, cells[ref]);
    assert a.vals.Keys == links'.vals.Keys == b.vals.Keys;
    forall k | k in a.vals
      ensures a.vals[k] == b.vals[k]
    {
    }
    assert a.vals == b.vals;
  }

  /**
   * Updating a dictionary in place (keeping its `edge_id`) is seen exactly
   * through the links that hold that dictionary.
   */
  lemma ResolveInPlace(cells: map<Ref, Edge>, links: OMap<Ref>, ref: Ref, rec: Edge)
    requires LinksResolve(cells, links) && ref in cells && rec.edgeId == cells[ref].edgeId
    ensures LinksResolve(cells[ref := rec], links)
    ensures Resolve(cells[ref := rec], links) ==
      if rec.edgeId in links.vals && links.vals[rec.edgeId] == ref
      then Put(Resolve(cells, links), rec.edgeId, rec)
      else Resolve(cells, links)
  {
    var cells' := cells[ref := rec];
    assert forall e :: e in links.vals && e != rec.edgeId ==> links.vals[e] != ref;
  }

  /** `edges_state`, with its dictionaries. */
  function EdgesView(s: Store): OMap<Edge>
    requires Valid(s)
  {
    Resolve(s.cells, s.edges)
  }

  /** `districts_state[d]['edges']`, with its dictionaries. */
  function View(s: Store, d: string): OMap<Edge>
    requires Valid(s) && d in s.districts.vals
  {
    Resolve(s.cells, s.districts.vals[d].edges)
  }

  /** District `d` holds the very dictionary that `edges_state[e]` holds. */
  ghost predicate SharesLive(s: Store, d: string, e: string)
    requires d in s.districts.vals
  {
    e in s.edges.vals && e in s.districts.vals[d].edges.vals
    && s.districts.vals[d].edges.vals[e] == s.edges.vals[e]
  }

  // Keys of the `last_update_time` map.
  function SpeedKey(e: string): string { "edge_" + e + "_speed" }
  function WeatherKey(e: string): string { "edge_" + e + "_weather" }
  function CameraKey(e: string): string { "edge_" + e + "_camera" }
  function VehicleKey(v: string): string { "vehicle_" + v }
  function BuildingKey(b: string): string { "building_" + b }

  /** The keys a speed message writes into its edge dictionary. */
  function SpeedRecord(m: SpeedMsg): SpeedData {
    SpeedData(m.latitude, m.longitude, m.speedKmh, m.sensorReadings, m.timestamp)
  }

  /** `update_speed_sensor`: a missing district or edge id changes nothing. */
  function UpdateSpeed(s: Store, m: SpeedMsg, now: int): (r: Store)
    requires Valid(s)
    ensures Valid(r)
    ensures !Present(m.districtId) || !Present(m.edgeId) ==> r == s
  {
    if !Present(m.districtId) || !Present(m.edgeId) then s
    else
      var d, e := m.districtId.value, m.edgeId.value;
      var r := Replace(s, d, e, Edge(d, e, Some(SpeedRecord(m)), None, None));
      r.(lastUpdate := s.lastUpdate[SpeedKey(e) := now])
  }

  /**
   * The speed handler in the order the source performs it: a new dictionary
   * under `nextRef`, bound to the edge id, the district created if missing,
   * then linked.
   */
  lemma SpeedInSteps(s: Store, m: SpeedMsg, now: int)
    requires Valid(s) && Present(m.districtId) && Present(m.edgeId)
    ensures
      var d, e, ref := m.districtId.value, m.edgeId.value, s.nextRef;
      var ds := if d !in s.districts.vals then Put(s.districts, d, District(d, Empty())) else s.districts;
      UpdateSpeed(s, m, now) ==
        Store(Put(ds, d, ds.vals[d].(edges := Put(ds.vals[d].edges, e, ref))), Put(s.edges, e, ref),
              s.cells[ref := Edge(d, e, Some(SpeedRecord(m)), None, None)], ref + 1,
              s.vehicles, s.buildings, s.lastUpdate[SpeedKey(e) := now])
  {
    var d, e, ref := m.districtId.value, m.edgeId.value, s.nextRef;
    var dist := DistrictOrNew(s, d);
    PutPut(s.districts, d, dist, dist.(edges := Put(dist.edges, e, ref)));
  }

  /** District `d` as it stands, or a new district with no edges. */
  function DistrictOrNew(s: Store, d: string): District {
    if d in s.districts.vals then s.districts.vals[d] else District(d, Empty())
  }

  /**
   * The edge part of the speed handler: `rec` becomes a new dictionary that
   * replaces `edges_state[e]` and is linked into district `d`, which is
   * created when missing.
   */
  function Replace(s: Store, d: string, e: string, rec: Edge): (r: Store)
    requires Valid(s) && d != "" && e != "" && rec.edgeId == e
    ensures Valid(r)
  {
    var ref := s.nextRef;
    var dist := DistrictOrNew(s, d);
    var r := Store(Put(s.districts, d, dist.(edges := Put(dist.edges, e, ref))),
                   Put(s.edges, e, ref), s.cells[ref := rec], ref + 1,
                   s.vehicles, s.buildings, s.lastUpdate);
    ReplaceKeepsValid(s, r, d, e, rec);
    r
  }

  lemma ReplaceKeepsValid(s: Store, r: Store, d: string, e: string, rec: Edge)
    requires Valid(s) && d != "" && e != "" && rec.edgeId == e
    requires r.cells == s.cells[s.nextRef := rec] && r.nextRef == s.nextRef + 1
    requires r.edges == Put(s.edges, e, s.nextRef)
    requires r.districts == Put(s.districts, d, DistrictOrNew(s, d).(edges := Put(DistrictOrNew(s, d).edges, e, s.nextRef)))
    requires r.vehicles == s.vehicles && r.buildings == s.buildings
    ensures Valid(r)
  {
    var ref, dist := s.nextRef, DistrictOrNew(s, d);
    assert ref !in s.cells;
    LinksRewrite(s.cells, s.edges, ref, rec);
    DistrictsRewrite(s.cells, s.districts, ref, rec);
    DistrictOrNewOk(s, d);
    LinksRewrite(s.cells, dist.edges, ref, rec);
    LinkOk(r.cells, d, dist, e, ref);
    PutDistrictsOk(r.cells, s.districts, d, dist.(edges := Put(dist.edges, e, ref)));
    PutWellFormed(s.edges, e, ref);
    LinkResolves(r.cells, s.edges, e, ref);
  }

  /** Overwriting a dictionary with one of the same `edge_id` keeps every link resolving. */
  lemma LinksRewrite(cells: map<Ref, Edge>, links: OMap<Ref>, ref: Ref, rec: Edge)
    requires LinksResolve(cells, links) && (ref in cells ==> cells[ref].edgeId == rec.edgeId)
    ensures LinksResolve(cells[ref := rec], links)
  {
  }

  /** Overwriting a dictionary with one of the same `edge_id` keeps every district well formed. */
  lemma DistrictsRewrite(cells: map<Ref, Edge>, ds: OMap<District>, ref: Ref, rec: Edge)
    requires DistrictsOk(cells, ds) && (ref in cells ==> cells[ref].edgeId == rec.edgeId)
    ensures DistrictsOk(cells[ref := rec], ds)
  {
    forall d | d in ds.vals
      ensures DistrictOk(cells[ref := rec], d, ds.vals[d])
    {
      assert DistrictOk(cells, d, ds.vals[d]);
      LinksRewrite(cells, ds.vals[d].edges, ref, rec);
    }
  }

  /** Linking a dictionary under its own edge id keeps a district well formed. */
  lemma LinkOk(cells: map<Ref, Edge>, d: string, dist: District, e: string, ref: Ref)
    requires DistrictOk(cells, d, dist) && e != "" && ref in cells && cells[ref].edgeId == e
    ensures DistrictOk(cells, d, dist.(edges := Put(dist.edges, e, ref)))
  {
    PutWellFormed(dist.edges, e, ref);
    LinkResolves(cells, dist.edges, e, ref);
  }

  /** Storing a well-formed district under its own id keeps the district map well formed. */
  lemma PutDistrictsOk(cells: map<Ref, Edge>, ds: OMap<District>, d: string, dist: District)
    requires WellFormed(ds) && DistrictsOk(cells, ds) && DistrictOk(cells, d, dist)
    ensures WellFormed(Put(ds, d, dist)) && DistrictsOk(cells, Put(ds, d, dist))
  {
    PutWellFormed(ds, d, dist);
  }

  /**
   * What `Replace` does to the views: `edges_state[e]` and district `d` see
   * `rec`, and every other district sees what it saw before.
   */
  lemma ReplaceEffect(s: Store, d: string, e: string, rec: Edge)
    requires Valid(s) && d != "" && e != "" && rec.edgeId == e
    ensures
      var r := Replace(s, d, e, rec);
      && EdgesView(r) == Put(EdgesView(s), e, rec)
      && r.districts.keys == (if d in s.districts.vals then s.districts.keys else s.districts.keys + [d])
      && d in r.districts.vals
      && View(r, d) == Put(if d in s.districts.vals then View(s, d) else Empty(), e, rec)
      && (forall d' :: d' in s.districts.vals && d' != d ==> d' in r.districts.vals && View(r, d') == View(s, d'))
  {
    var ref := s.nextRef;
    assert ref !in s.cells;
    StoreInto(s.cells, s.edges, e, ref, rec, true);
    ReplaceOwnDistrict(s, d, e, rec);
    ReplaceOtherDistricts(s, d, e, rec);
  }

  lemma ReplaceOwnDistrict(s: Store, d: string, e: string, rec: Edge)
    requires Valid(s) && d != "" && e != "" && rec.edgeId == e
    ensures
      var r := Replace(s, d, e, rec);
      && d in r.districts.vals
      && View(r, d) == Put(if d in s.districts.vals then View(s, d) else Empty(), e, rec)
  {
    ReplaceDistrict(s, d, e, rec, d);
  }

  lemma ReplaceOtherDistricts(s: Store, d: string, e: string, rec: Edge)
    requires Valid(s) && d != "" && e != "" && rec.edgeId == e
    ensures
      var r := Replace(s, d, e, rec);
      forall d' :: d' in s.districts.vals && d' != d ==> d' in r.districts.vals && View(r, d') == View(s, d')
  {
    var r := Replace(s, d, e, rec);
    forall d' | d' in s.districts.vals && d' != d
      ensures View(r, d') == View(s, d')
    {
      ReplaceDistrict(s, d, e, rec, d');
    }
  }

  /** One district's view after `Replace`. */
  lemma ReplaceDistrict(s: Store, d: string, e: string, rec: Edge, d': string)
    requires Valid(s) && d != "" && e != "" && rec.edgeId == e && d' != ""
    requires d' == d || d' in s.districts.vals
    ensures
      var ref := s.nextRef;
      var cells := s.cells[ref := rec];
      var links := DistrictOrNew(s, d').edges;
      var links' := if d' == d then Put(links, e, ref) else links;
      && LinksResolve(cells, links')
      && Resolve(cells, links') ==
         if d' == d then Put(Resolve(s.cells, links), e, rec) else Resolve(s.cells, links)
  {
    var ref := s.nextRef;
    assert ref !in s.cells;
    DistrictOrNewOk(s, d');
    StoreInto(s.cells, DistrictOrNew(s, d').edges, e, ref, rec, d' == d);
  }

  /** District `d` as it stands, or a new one, is well formed. */
  lemma DistrictOrNewOk(s: Store, d: string)
    requires Valid(s) && d != ""
    ensures DistrictOk(s.cells, d, DistrictOrNew(s, d))
  {
  }

  /**
   * After a speed update for district `d` and edge `e`, `edges_state[e]` is a
   * new dictionary holding only the message's fields (any earlier `weather` or
   * `camera` key is gone); district `d` exists, created last when it was
   * missing, and links that same dictionary; every other district sees what
   * it saw before, including one that linked the replaced dictionary of `e`.
   */
  lemma SpeedReplacesEdge(s: Store, m: SpeedMsg, now: int)
    requires Valid(s) && Present(m.districtId) && Present(m.edgeId)
    ensures
      var r := UpdateSpeed(s, m, now);
      var d, e := m.districtId.value, m.edgeId.value;
      var rec := Edge(d, e, Some(SpeedRecord(m)), None, None);
      && EdgesView(r) == Put(EdgesView(s), e, rec)
      && r.districts.keys == (if d in s.districts.vals then s.districts.keys else s.districts.keys + [d])
      && d in r.districts.vals
      && View(r, d) == Put(if d in s.districts.vals then View(s, d) else Empty(), e, rec)
      && (forall d' :: d' in s.districts.vals && d' != d ==> d' in r.districts.vals && View(r, d') == View(s, d'))
      && r.vehicles == s.vehicles && r.buildings == s.buildings
      && r.lastUpdate == s.lastUpdate[SpeedKey(e) := now]
  {
    var d, e := m.districtId.value, m.edgeId.value;
    ReplaceEffect(s, d, e, Edge(d, e, Some(SpeedRecord(m)), None, None));
  }

  /** The dictionary a weather or camera update starts from: `edges_state[e]`, or a minimal one. */
  function EdgeBase(s: Store, d: string, e: string): (base: Edge)
    requires Valid(s)
    ensures base.edgeId == e
    ensures e !in s.edges.vals ==> base == Edge(d, e, None, None, None)
  {
    if e in s.edges.vals then s.cells[s.edges.vals[e]] else Edge(d, e, None, None, None)
  }

  /** `districts_state[d]['edges'][e] = ref` when district `d` exists; nothing otherwise. */
  function LinkIfExists(ds: OMap<District>, d: string, e: string, ref: Ref): (r: OMap<District>)
    ensures r.keys == ds.keys && r.vals.Keys == ds.vals.Keys
    ensures forall d' :: d' in ds.vals && d' != d ==> r.vals[d'] == ds.vals[d']
  {
    if d in ds.vals then Put(ds, d, ds.vals[d].(edges := Put(ds.vals[d].edges, e, ref))) else ds
  }

  /**
   * The common part of the weather and camera handlers: store `rec` as the
   * dictionary of edge `e` (in place when the edge exists, as a new dictionary
   * otherwise) and link it into district `d` if that district exists.
   */
  function Merge(s: Store, d: string, e: string, rec: Edge): (r: Store)
    requires Valid(s) && d != "" && e != "" && rec.edgeId == e
    ensures Valid(r)
  {
    var ref := MergeRef(s, e);
    var r := Store(LinkIfExists(s.districts, d, e, ref), Put(s.edges, e, ref), s.cells[ref := rec],
                   if e in s.edges.vals then s.nextRef else s.nextRef + 1,
                   s.vehicles, s.buildings, s.lastUpdate);
    MergeValid(s, d, e, rec, r);
    r
  }

  /** The dictionary a weather or camera update writes: the existing one of `e`, or a new one. */
  function MergeRef(s: Store, e: string): Ref {
    if e in s.edges.vals then s.edges.vals[e] else s.nextRef
  }

  /**
   * What `Merge` does to the views: `edges_state[e]` sees `rec`, and so does
   * every district that links `e`'s dictionary, plus district `d`; the other
   * districts see what they saw before.
   */
  lemma MergeEffect(s: Store, d: string, e: string, rec: Edge)
    requires Valid(s) && d != "" && e != "" && rec.edgeId == e
    ensures
      var r := Merge(s, d, e, rec);
      && EdgesView(r) == Put(EdgesView(s), e, rec)
      && r.districts.keys == s.districts.keys
      && (forall d' :: d' in s.districts.vals ==>
            d' in r.districts.vals &&
            View(r, d') == if d' == d || SharesLive(s, d', e) then Put(View(s, d'), e, rec) else View(s, d'))
  {
    var r := Merge(s, d, e, rec);
    var ref := MergeRef(s, e);
    assert ref in s.cells ==> s.cells[ref].edgeId == e;
    StoreInto(s.cells, s.edges, e, ref, rec, true);
    forall d' | d' in s.districts.vals
      ensures View(r, d') == if d' == d || SharesLive(s, d', e) then Put(View(s, d'), e, rec) else View(s, d')
    {
      MergeDistrict(s, d, e, rec, ref, d');
    }
  }

  lemma MergeValid(s: Store, d: string, e: string, rec: Edge, r: Store)
    requires Valid(s) && d != "" && e != "" && rec.edgeId == e
    requires r.cells == s.cells[MergeRef(s, e) := rec]
    requires r.nextRef == if e in s.edges.vals then s.nextRef else s.nextRef + 1
    requires r.edges == Put(s.edges, e, MergeRef(s, e))
    requires r.districts == LinkIfExists(s.districts, d, e, MergeRef(s, e))
    requires r.vehicles == s.vehicles && r.buildings == s.buildings
    ensures Valid(r)
  {
    var ref := MergeRef(s, e);
    assert ref in s.cells ==> s.cells[ref].edgeId == e;
    LinksRewrite(s.cells, s.edges, ref, rec);
    DistrictsRewrite(s.cells, s.districts, ref, rec);
    if d in s.districts.vals {
      var dist := s.districts.vals[d];
      assert DistrictOk(r.cells, d, dist);
      LinkOk(r.cells, d, dist, e, ref);
      PutDistrictsOk(r.cells, s.districts, d, dist.(edges := Put(dist.edges, e, ref)));
    }
    PutWellFormed(s.edges, e, ref);
    LinkResolves(r.cells, s.edges, e, ref);
  }

  /** One district's view after `Merge`. */
  lemma MergeDistrict(s: Store, d: string, e: string, rec: Edge, ref: Ref, d': string)
    requires Valid(s) && d != "" && e != "" && rec.edgeId == e && d' in s.districts.vals
    requires ref == MergeRef(s, e)
    ensures
      var cells := s.cells[ref := rec];
      var dist := LinkIfExists(s.districts, d, e, ref).vals[d'];
      && DistrictOk(cells, d', dist)
      && Resolve(cells, dist.edges) ==
         if d' == d || SharesLive(s, d', e) then Put(View(s, d'), e, rec) else View(s, d')
  {
    var links := s.districts.vals[d'].edges;
    assert DistrictOk(s.cells, d', s.districts.vals[d']);
    assert ref in s.cells ==> s.cells[ref].edgeId == e;
    assert SharesLive(s, d', e) <==> e in links.vals && links.vals[e] == ref;
    StoreInto(s.cells, links, e, ref, rec, d' == d);
  }

  /**
   * Storing `rec` under `ref` (an existing dictionary of edge `e`, or a new
   * one), and linking it under `e` when `link` holds, changes what a map of
   * links sees exactly when it links `ref`.
   */
  lemma StoreInto(cells: map<Ref, Edge>, links: OMap<Ref>, e: string, ref: Ref, rec: Edge, link: bool)
    requires WellFormed(links) && LinksResolve(cells, links) && e != "" && rec.edgeId == e
    requires ref in cells ==> cells[ref].edgeId == e
    ensures
      var cells' := cells[ref := rec];
      var links' := if link then Put(links, e, ref) else links;
      && WellFormed(links') && LinksResolve(cells', links')
      && Resolve(cells', links') ==
         if link || (e in links.vals && links.vals[e] == ref) then Put(Resolve(cells, links), e, rec)
         else Resolve(cells, links)
  {
    var cells' := cells[ref := rec];
    PutWellFormed(links, e, ref);
    if ref in cells {
      ResolveInPlace(cells, links, ref, rec);
    } else {
      ResolveFresh(cells, links, ref, rec);
    }
    if link {
      ResolveLink(cells', links, e, ref);
      PutPut(Resolve(cells, links), e, rec, rec);
    }
  }

  /**
   * `Merge` in the order the handlers perform it: the dictionary of `e` is
   * found or created minimal, then overwritten with `rec`, then linked.
   */
  lemma MergeInSteps(s: Store, d: string, e: string, rec: Edge)
    requires Valid(s) && d != "" && e != "" && rec.edgeId == e
    ensures
      var ref := MergeRef(s, e);
      Merge(s, d, e, rec) ==
        Store(LinkIfExists(s.districts, d, e, ref), Put(s.edges, e, ref), s.cells[ref := EdgeBase(s, d, e)][ref := rec],
              if e in s.edges.vals then s.nextRef else s.nextRef + 1,
              s.vehicles, s.buildings, s.lastUpdate)
  {
    var ref := MergeRef(s, e);
    assert s.cells[ref := EdgeBase(s, d, e)][ref := rec] == s.cells[ref := rec];
  }

  /** The `weather` sub-record a weather message writes. */
  function WeatherRecord(m: WeatherMsg): WeatherData {
    WeatherData(m.temperatureC, m.humidity, m.weatherConditions, m.timestamp)
  }

  /** The `camera` sub-record a camera message writes. */
  function CameraRecord(m: CameraMsg): CameraData {
    CameraData(m.roadCondition, m.confidenceScore, m.vehicleCount, m.timestamp)
  }

  /** `update_weather_sensor`: a missing district or edge id changes nothing. */
  function UpdateWeather(s: Store, m: WeatherMsg, now: int): (r: Store)
    requires Valid(s)
    ensures Valid(r)
    ensures !Present(m.districtId) || !Present(m.edgeId) ==> r == s
  {
    if !Present(m.districtId) || !Present(m.edgeId) then s
    else
      var d, e := m.districtId.value, m.edgeId.value;
      var r := Merge(s, d, e, EdgeBase(s, d, e).(weather := Some(WeatherRecord(m))));
      r.(lastUpdate := s.lastUpdate[WeatherKey(e) := now])
  }

  /** `update_camera_sensor`: a missing district or edge id changes nothing. */
  function UpdateCamera(s: Store, m: CameraMsg, now: int): (r: Store)
    requires Valid(s)
    ensures Valid(r)
    ensures !Present(m.districtId) || !Present(m.edgeId) ==> r == s
  {
    if !Present(m.districtId) || !Present(m.edgeId) then s
    else
      var d, e := m.districtId.value, m.edgeId.value;
      var r := Merge(s, d, e, EdgeBase(s, d, e).(camera := Some(CameraRecord(m))));
      r.(lastUpdate := s.lastUpdate[CameraKey(e) := now])
  }

  /**
   * A weather update sets only the `weather` key of edge `e` (creating a
   * minimal `{district_id, edge_id}` dictionary when the edge is unknown) and
   * keeps every other key. The change is seen through every district that
   * holds the same dictionary; district `d` links it if `d` exists; no district
   * is created.
   */
  lemma WeatherMergesSubRecord(s: Store, m: WeatherMsg, now: int)
    requires Valid(s) && Present(m.districtId) && Present(m.edgeId)
    ensures
      var r := UpdateWeather(s, m, now);
      var d, e := m.districtId.value, m.edgeId.value;
      var base := if e in EdgesView(s).vals then EdgesView(s).vals[e] else Edge(d, e, None, None, None);
      var rec := base.(weather := Some(WeatherRecord(m)));
      && EdgesView(r) == Put(EdgesView(s), e, rec)
      && r.districts.keys == s.districts.keys
      && (forall d' :: d' in s.districts.vals ==>
            d' in r.districts.vals &&
            View(r, d') == if d' == d || SharesLive(s, d', e) then Put(View(s, d'), e, rec) else View(s, d'))
      && r.vehicles == s.vehicles && r.buildings == s.buildings
      && r.lastUpdate == s.lastUpdate[WeatherKey(e) := now]
  {
    var d, e := m.districtId.value, m.edgeId.value;
    var rec := EdgeBase(s, d, e).(weather := Some(WeatherRecord(m)));
    MergeEffect(s, d, e, rec);
  }

  /** The camera counterpart of `WeatherMergesSubRecord`: only the `camera` key changes. */
  lemma CameraMergesSubRecord(s: Store, m: CameraMsg, now: int)
    requires Valid(s) && Present(m.districtId) && Present(m.edgeId)
    ensures
      var r := UpdateCamera(s, m, now);
      var d, e := m.districtId.value, m.edgeId.value;
      var base := if e in EdgesView(s).vals then EdgesView(s).vals[e] else Edge(d, e, None, None, None);
      var rec := base.(camera := Some(CameraRecord(m)));
      && EdgesView(r) == Put(EdgesView(s), e, rec)
      && r.districts.keys == s.districts.keys
      && (forall d' :: d' in s.districts.vals ==>
            d' in r.districts.vals &&
            View(r, d') == if d' == d || SharesLive(s, d', e) then Put(View(s, d'), e, rec) else View(s, d'))
      && r.vehicles == s.vehicles && r.buildings == s.buildings
      && r.lastUpdate == s.lastUpdate[CameraKey(e) := now]
  {
    var d, e := m.districtId.value, m.edgeId.value;
    var rec := EdgeBase(s, d, e).(camera := Some(CameraRecord(m)));
    MergeEffect(s, d, e, rec);
  }

  /**
   * The vehicle dictionary `update_vehicle` stores: every field copied from
   * the message, with `incident_detected` defaulting to `False` and
   * `operational` to `True` when the key is absent.
   */
  function VehicleRecord(v: string, m: VehicleMsg): (r: Vehicle)
    ensures r.vehicleId == v
    ensures r.incidentDetected == if m.incidentDetected.Some? then m.incidentDetected.value else Bool(false)
    ensures r.operational == if m.operational.Some? then m.operational.value else Bool(true)
  {
    Vehicle(v, m.vehicleType, m.name, m.latitude, m.longitude, m.altitudeM,
            m.speedKmh, m.directionDegrees, m.heading, m.batteryLevelPercent,
            m.incidentDetected.GetOr(Bool(false)), m.routePriority, m.currentDestination,
            m.operational.GetOr(Bool(true)), m.timestamp)
  }

  /**
   * `update_vehicle`: a missing vehicle id changes nothing; otherwise the
   * vehicle's dictionary is replaced as a whole (a new vehicle goes last) and
   * its update time is recorded; nothing else changes.
   */
  function UpdateVehicle(s: Store, m: VehicleMsg, now: int): (r: Store)
    requires Valid(s)
    ensures Valid(r)
    ensures !Present(m.vehicleId) ==> r == s
  {
    if !Present(m.vehicleId) then s
    else
      var v := m.vehicleId.value;
      PutWellFormed(s.vehicles, v, VehicleRecord(v, m));
      s.(vehicles := Put(s.vehicles, v, VehicleRecord(v, m)), lastUpdate := s.lastUpdate[VehicleKey(v) := now])
  }

  /**
   * After a telemetry message with a vehicle id, that vehicle's dictionary is
   * the one built from this message alone (nothing of an earlier message
   * survives), a new vehicle goes last, the other vehicles are unchanged and
   * nothing else in the state changes but the vehicle's update time.
   */
  lemma VehicleUpdateEffect(s: Store, m: VehicleMsg, now: int)
    requires Valid(s) && Present(m.vehicleId)
    ensures
      var r := UpdateVehicle(s, m, now);
      var v := m.vehicleId.value;
      && r.vehicles.vals == s.vehicles.vals[v := VehicleRecord(v, m)]
      && r.vehicles.keys == (if v in s.vehicles.vals then s.vehicles.keys else s.vehicles.keys + [v])
      && r == s.(vehicles := r.vehicles, lastUpdate := s.lastUpdate[VehicleKey(v) := now])
  {
  }

  /**
   * The last telemetry message of a vehicle wins: a second message for the
   * same vehicle leaves the state exactly as if the first had never arrived.
   */
  lemma VehicleLastWriteWins(s: Store, m1: VehicleMsg, m2: VehicleMsg, t1: int, t2: int)
    requires Valid(s) && Present(m1.vehicleId) && m2.vehicleId == m1.vehicleId
    ensures UpdateVehicle(UpdateVehicle(s, m1, t1), m2, t2) == UpdateVehicle(s, m2, t2)
  {
    var v, k := m1.vehicleId.value, VehicleKey(m1.vehicleId.value);
    var r1 := UpdateVehicle(s, m1, t1);
    assert r1 == s.(vehicles := Put(s.vehicles, v, VehicleRecord(v, m1)), lastUpdate := s.lastUpdate[k := t1]);
    PutPut(s.vehicles, v, VehicleRecord(v, m1), VehicleRecord(v, m2));
    assert s.lastUpdate[k := t1][k := t2] == s.lastUpdate[k := t2];
  }

  /** The building dictionary `update_building` creates on the first message for a building. */
  function NewBuilding(b: string, m: BuildingMsg): Building {
    Building(b, m.name, m.buildingType, m.latitude, m.longitude, Empty())
  }

  /**
   * `update_building`: a missing building id changes nothing; otherwise the
   * building is created from this message when it is new, the sensor the
   * message names (if any) is overwritten with the message's measurements,
   * and the building's update time is recorded.
   */
  function UpdateBuilding(s: Store, m: BuildingMsg, now: int): (r: Store)
    requires Valid(s)
    ensures Valid(r)
    ensures !Present(m.buildingId) ==> r == s
  {
    if !Present(m.buildingId) then s
    else
      var b := m.buildingId.value;
      var bldg := BuildingAfter(s, b, m);
      BuildingKeepsValid(s, b, m);
      s.(buildings := Put(s.buildings, b, bldg), lastUpdate := s.lastUpdate[BuildingKey(b) := now])
  }

  /** Building `b` once the message is applied: created if new, then the named sensor set. */
  function BuildingAfter(s: Store, b: string, m: BuildingMsg): Building {
    var bldg := if b in s.buildings.vals then s.buildings.vals[b] else NewBuilding(b, m);
    if Present(m.sensorType)
    then bldg.(sensors := Put(bldg.sensors, m.sensorType.value, BuildingSensor(m.sensorType.value, m.measurements, m.timestamp)))
    else bldg
  }

  lemma BuildingKeepsValid(s: Store, b: string, m: BuildingMsg)
    requires Valid(s) && b != ""
    ensures Valid(s.(buildings := Put(s.buildings, b, BuildingAfter(s, b, m))))
  {
    var bldg := if b in s.buildings.vals then s.buildings.vals[b] else NewBuilding(b, m);
    assert BuildingOk(b, bldg);
    if Present(m.sensorType) {
      var t := m.sensorType.value;
      PutSensorOk(b, bldg, t, BuildingSensor(t, m.measurements, m.timestamp));
    }
    PutBuildingsOk(s.buildings, b, BuildingAfter(s, b, m));
  }

  lemma PutSensorOk(b: string, bldg: Building, t: string, sensor: BuildingSensor)
    requires BuildingOk(b, bldg) && t != "" && sensor.sensorType == t
    ensures BuildingOk(b, bldg.(sensors := Put(bldg.sensors, t, sensor)))
  {
    PutWellFormed(bldg.sensors, t, sensor);
  }

  lemma PutBuildingsOk(bs: OMap<Building>, b: string, bldg: Building)
    requires WellFormed(bs) && BuildingsOk(bs) && BuildingOk(b, bldg)
    ensures WellFormed(Put(bs, b, bldg)) && BuildingsOk(Put(bs, b, bldg))
  {
    PutWellFormed(bs, b, bldg);
  }

  /**
   * The building handler in the order the source performs it: the building
   * is created when missing, then the named sensor is set.
   */
  lemma BuildingInSteps(s: Store, m: BuildingMsg, now: int)
    requires Valid(s) && Present(m.buildingId)
    ensures
      var b := m.buildingId.value;
      var bs := if b !in s.buildings.vals then Put(s.buildings, b, NewBuilding(b, m)) else s.buildings;
      var bs' := if Present(m.sensorType)
        then Put(bs, b, bs.vals[b].(sensors := Put(bs.vals[b].sensors, m.sensorType.value,
                                                   BuildingSensor(m.sensorType.value, m.measurements, m.timestamp))))
        else bs;
      UpdateBuilding(s, m, now) == s.(buildings := bs', lastUpdate := s.lastUpdate[BuildingKey(b) := now])
  {
    var b := m.buildingId.value;
    var before := if b in s.buildings.vals then s.buildings.vals[b] else NewBuilding(b, m);
    PutPut(s.buildings, b, before, BuildingAfter(s, b, m));
    if b in s.buildings.vals {
      assert Put(s.buildings, b, before) == s.buildings;
    }
  }

  /**
   * After a building message: the building exists; its name, type and
   * coordinates are those of the first message that created it, never
   * overwritten later; its sensors are the old ones (none for a new building)
   * with the named sensor set to this message's measurements, or unchanged
   * when the message names no sensor type; every other building, and
   * everything else in the state, is unchanged.
   */
  lemma BuildingUpdateEffect(s: Store, m: BuildingMsg, now: int)
    requires Valid(s) && Present(m.buildingId)
    ensures
      var r := UpdateBuilding(s, m, now);
      var b := m.buildingId.value;
      var before := if b in s.buildings.vals then s.buildings.vals[b] else NewBuilding(b, m);
      && b in r.buildings.vals
      && r.buildings.vals[b].(sensors := before.sensors) == before
      && r.buildings.vals[b].sensors ==
         (if Present(m.sensorType)
          then Put(before.sensors, m.sensorType.value, BuildingSensor(m.sensorType.value, m.measurements, m.timestamp))
          else before.sensors)
      && (forall b' :: b' in s.buildings.vals && b' != b ==> b' in r.buildings.vals && r.buildings.vals[b'] == s.buildings.vals[b'])
      && r.buildings.keys == (if b in s.buildings.vals then s.buildings.keys else s.buildings.keys + [b])
      && r == s.(buildings := r.buildings, lastUpdate := s.lastUpdate[BuildingKey(b) := now])
  {
  }

  /**
   * `cleanup_stale_state`: the update times older than the TTL are dropped
   * from the tracking map, and nothing else is touched; the districts, edges,
   * vehicles and buildings those times belong to stay in the state.
   */
  function Cleanup(s: Store, now: int, ttl: int): (r: Store)
    ensures forall k :: k in r.lastUpdate <==> k in s.lastUpdate && now - s.lastUpdate[k] <= ttl
    ensures forall k :: k in r.lastUpdate ==> r.lastUpdate[k] == s.lastUpdate[k]
    ensures r == s.(lastUpdate := r.lastUpdate)
  {
    s.(lastUpdate := map k | k in s.lastUpdate && now - s.lastUpdate[k] <= ttl :: s.lastUpdate[k])
  }

  /** Cleaning up twice at the same time is cleaning up once. */
  lemma CleanupIdempotent(s: Store, now: int, ttl: int)
    ensures Cleanup(Cleanup(s, now, ttl), now, ttl) == Cleanup(s, now, ttl)
  {
  }

  /** A later cleanup subsumes an earlier one: what the earlier one dropped the later one drops too. */
  lemma CleanupLater(s: Store, t1: int, t2: int, ttl: int)
    requires t1 <= t2
    ensures Cleanup(Cleanup(s, t1, ttl), t2, ttl) == Cleanup(s, t2, ttl)
  {
    var a, b := Cleanup(Cleanup(s, t1, ttl), t2, ttl), Cleanup(s, t2, ttl);
    assert a.lastUpdate.Keys == b.lastUpdate.Keys;
  }

  /** An exported district: its id and the edge dictionaries it links. */
  datatype DistrictState = DistrictState(districtId: string, edges: OMap<Edge>)

  /** The entity counts of `total_entities`. */
  datatype Totals = Totals(districts: nat, edges: nat, vehicles: nat, buildings: nat)

  /** The dictionary `get_snapshot_state` returns. */
  datatype StateExport = StateExport(
    districts: OMap<DistrictState>, edges: OMap<Edge>,
    vehicles: OMap<Vehicle>, buildings: OMap<Building>, totals: Totals)

  /**
   * The aggregated state handed to the snapshot builder: shallow copies of the
   * four entity maps, in their insertion order, with every link resolved to
   * the dictionary it holds, and their sizes.
   */
  function Export(s: Store): (x: StateExport)
    requires Valid(s)
    ensures x.districts.keys == s.districts.keys && x.districts.vals.Keys == s.districts.vals.Keys
    ensures forall d :: d in x.districts.vals ==> x.districts.vals[d] == DistrictState(d, View(s, d))
    ensures x.edges == EdgesView(s) && x.vehicles == s.vehicles && x.buildings == s.buildings
    ensures x.totals == Totals(Len(s.districts), Len(s.edges), Len(s.vehicles), Len(s.buildings))
  {
    StateExport(
      OMap(s.districts.keys, map d | d in s.districts.vals :: DistrictState(d, View(s, d))),
      EdgesView(s), s.vehicles, s.buildings,
      Totals(Len(s.districts), Len(s.edges), Len(s.vehicles), Len(s.buildings)))
  }

  /**
   * An export is self-consistent: its maps are well formed, every district's
   * edges are well formed and carry their own ids, and each total is the
   * number of entries of its map.
   */
  lemma ExportConsistent(s: Store)
    requires Valid(s)
    ensures
      var x := Export(s);
      && WellFormed(x.districts) && WellFormed(x.edges) && WellFormed(x.vehicles) && WellFormed(x.buildings)
      && (forall d :: d in x.districts.vals ==> WellFormed(x.districts.vals[d].edges))
      && (forall e :: e in x.edges.vals ==> x.edges.vals[e].edgeId == e)
      && x.totals == Totals(|x.districts.vals|, |x.edges.vals|, |x.vehicles.vals|, |x.buildings.vals|)
  {
    var x := Export(s);
    forall d | d in x.districts.vals
      ensures WellFormed(x.districts.vals[d].edges)
    {
      assert DistrictOk(s.cells, d, s.districts.vals[d]);
    }
    LenIsCardinality(s.districts);
    LenIsCardinality(s.edges);
    LenIsCardinality(s.vehicles);
    LenIsCardinality(s.buildings);
  }

  /**
   * `get_snapshot_state` cleans up before it exports, yet the export is the
   * same as without the cleanup: expired update times never remove an entity.
   */
  lemma CleanupKeepsEntities(s: Store, now: int, ttl: int)
    requires Valid(s)
    ensures Valid(Cleanup(s, now, ttl)) && Export(Cleanup(s, now, ttl)) == Export(s)
  {
  }

  /** The dictionary `get_stats` returns. */
  datatype Stats = Stats(districts: nat, edges: nat, vehicles: nat, buildings: nat, updates: nat)

  /** `get_stats`: the sizes of the four entity maps and of the update-time map. */
  function Statistics(s: Store): (st: Stats)
    requires Valid(s)
    ensures st == Stats(|s.districts.vals|, |s.edges.vals|, |s.vehicles.vals|, |s.buildings.vals|, |s.lastUpdate|)
  {
    LenIsCardinality(s.districts);
    LenIsCardinality(s.edges);
    LenIsCardinality(s.vehicles);
    LenIsCardinality(s.buildings);
    Stats(Len(s.districts), Len(s.edges), Len(s.vehicles), Len(s.buildings), |s.lastUpdate|)
  }

  /** The handler each topic's messages are given to. */
  function Apply(s: Store, msg: Message, now: int): (r: Store)
    requires Valid(s)
    ensures Valid(r)
  {
    match msg
    case SpeedSensor(m) => UpdateSpeed(s, m, now)
    case WeatherSensor(m) => UpdateWeather(s, m, now)
    case CameraSensor(m) => UpdateCamera(s, m, now)
    case VehicleTelemetry(m) => UpdateVehicle(s, m, now)
    case BuildingMonitoring(m) => UpdateBuilding(s, m, now)
  }
}
