# Snapshot aggregator core, modelled and verified in Dafny

This project models the two sequential components at the centre of the city
digital twin's snapshot aggregator.

- **The state manager.** It is an in-memory store of district, edge (road
  segment), vehicle and building state. One handler per Kafka topic updates
  it:
  - city speed sensors;
  - city weather sensors;
  - city camera sensors;
  - vehicle telemetry;
  - building monitoring.

  The store also keeps a map of last-update times that a time-to-live cleanup
  prunes. It exports its maps, with entity totals, for the snapshot builder.
- **The snapshot builder.** It projects that export into the snapshot
  document. The document has districts, with their sensors, buildings and
  weather station, plus public transport (buses) and emergency services
  (units and incidents).

Modules:

- `Wrappers`, `Json` and `Messages` hold the values the components pass
  around:
  - JSON scalars, with Python truthiness;
  - `dict.get` and `int()` truncation;
  - the substring test;
  - the five message kinds.
- `Seqs` defines `FlatMap`: walk a list and append each element's outputs.
  Every builder loop has this shape.
- `OrderedMaps` models a Python dict as a key sequence in insertion order
  plus a map. `Put` keeps an existing key's position and appends a new key.
- `StateModel` holds the store as a value, each handler as a function on it,
  and the lemmas about what each handler keeps and changes.
- **Aliasing.**
  - Edge dictionaries live in a heap, `cells`, indexed by reference.
  - `edges` and each district's `edges` map an edge id to a reference.
  - This keeps two behaviours the source has. A weather or camera update
    changes the shared dictionary, so it shows through every district that
    links it. A speed update allocates a new dictionary, so a district still
    linking the old one keeps seeing the old contents.
- `StateManagement.StateManager` is the class the source defines:
  - its maps are fields;
  - each handler is a method with a `modifies` clause;
  - each handler is proved to reach the state the matching `StateModel`
    function computes;
  - `CleanupStaleState` deletes stale keys one at a time in a loop.
- `SnapshotModel` defines the builder as functions and proves their
  properties.
- `SnapshotBuilding.SnapshotBuilder` is the builder class with its loops,
  including the early exit of the weather-station walk. Each method is proved
  equal to its `SnapshotModel` function.

Times are integer microseconds. The current time is a parameter, and the TTL
is its number of seconds times 1 000 000.

## Model

| member | source | states |
|---|---|---|
| StateModel.Initial | prototype/snapshot-aggregator/state_manager.py:38-47 | The empty store satisfies the store invariant (unique keys, links resolve to dictionaries with the right edge id, entities stored under their own ids). |
| StateModel.UpdateSpeed | prototype/snapshot-aggregator/state_manager.py:54-90 | Keeps the invariant; with a missing or empty district id or edge id the whole store is unchanged. |
| StateModel.SpeedInSteps | prototype/snapshot-aggregator/state_manager.py:69-88 | The speed handler's result is the source's step order: allocate a new edge dictionary, bind it in `edges_state`, create the district with no edges if absent, link the new dictionary into it, record the `edge_<e>_speed` time. |
| StateModel.SpeedReplacesEdge | prototype/snapshot-aggregator/state_manager.py:69-88 | After a speed update, edge e is a dictionary holding only this message's speed data, with no weather or camera sub-record. District d exists (appended if it was new) and sees exactly that dictionary at e. Every other district sees what it saw before. Vehicles and buildings are unchanged. Only the speed time key is written. |
| StateModel.Replace | prototype/snapshot-aggregator/state_manager.py:69-87 | The speed handler's store change (new edge dictionary, bound in `edges_state` and linked into the district) keeps the store invariant. |
| StateModel.ResolveInPlace | prototype/snapshot-aggregator/state_manager.py:110-117 | Updating one edge dictionary in place changes the view of a link map exactly when that map links the same dictionary. |
| StateModel.EdgeBase | prototype/snapshot-aggregator/state_manager.py:107-108 | An unknown edge starts as a dictionary with only its district id and edge id; the edge id is always kept. |
| StateModel.LinkIfExists | prototype/snapshot-aggregator/state_manager.py:120-121 | Linking an edge never creates a district and never changes district order or any district other than d. |
| StateModel.Merge | prototype/snapshot-aggregator/state_manager.py:107-121 | The weather and camera handlers' store change (merge into the edge dictionary in place, link into an existing district) keeps the store invariant. |
| StateModel.MergeInSteps | prototype/snapshot-aggregator/state_manager.py:107-121 | The weather and camera handlers' shared part is the source's step order: create the minimal edge if unknown, update that dictionary in place, link it into d only if d exists. |
| StateModel.MergeEffect | prototype/snapshot-aggregator/state_manager.py:107-121 | After the in-place merge, `edges_state[e]` and every district that links e's dictionary (and d, if it exists) see the merged record; all other districts are unchanged; no district is added. |
| StateModel.UpdateWeather | prototype/snapshot-aggregator/state_manager.py:92-124 | Keeps the invariant; with a missing district id or edge id the store is unchanged. |
| StateModel.WeatherMergesSubRecord | prototype/snapshot-aggregator/state_manager.py:107-122 | A weather update sets only the `weather` sub-record of edge e. It keeps the edge's other keys, or starts from the minimal dictionary. The change is seen by every district sharing the dictionary. It never creates a district. Vehicles and buildings are unchanged, and only the weather time key is written. |
| StateModel.UpdateCamera | prototype/snapshot-aggregator/state_manager.py:126-158 | Keeps the invariant; with a missing district id or edge id the store is unchanged. |
| StateModel.CameraMergesSubRecord | prototype/snapshot-aggregator/state_manager.py:141-156 | The same as for weather, for the `camera` sub-record and the camera time key. |
| StateModel.VehicleRecord | prototype/snapshot-aggregator/state_manager.py:174-190 | The stored vehicle carries its id. `incident_detected` defaults to false and `operational` to true when the message lacks them; a present value is kept as sent. |
| StateModel.UpdateVehicle | prototype/snapshot-aggregator/state_manager.py:160-193 | Keeps the invariant; with a missing or empty vehicle id the store is unchanged. |
| StateModel.VehicleUpdateEffect | prototype/snapshot-aggregator/state_manager.py:174-192 | The vehicle's record is replaced by the one built from this message. A new vehicle goes last. No other vehicle and no other map changes, and the `vehicle_<v>` time is recorded. |
| StateModel.VehicleLastWriteWins | prototype/snapshot-aggregator/state_manager.py:174-190 | Two updates of the same vehicle equal the second one alone: nothing of the first message survives. |
| StateModel.UpdateBuilding | prototype/snapshot-aggregator/state_manager.py:195-229 | Keeps the invariant; with a missing or empty building id the store is unchanged. |
| StateModel.BuildingInSteps | prototype/snapshot-aggregator/state_manager.py:208-228 | The building handler's result is the source's step order: initialise the building if new, then overwrite the named sensor slot if a sensor type is given, then record the time. |
| StateModel.BuildingUpdateEffect | prototype/snapshot-aggregator/state_manager.py:208-226 | Name, type and position come from the first message for the building id and never change. A later message only overwrites `sensors[sensor_type]`. A message without a sensor type leaves the sensors unchanged. Other buildings are unchanged, as are the other maps. |
| StateModel.Cleanup | prototype/snapshot-aggregator/state_manager.py:238-247 | Keeps exactly the tracking keys whose age is at most the TTL, with their times, and changes nothing else. |
| StateModel.CleanupIdempotent | prototype/snapshot-aggregator/state_manager.py:238-247 | A second cleanup at the same time removes nothing more. |
| StateModel.CleanupLater | prototype/snapshot-aggregator/state_manager.py:238-247 | A cleanup followed by a later one equals the later one alone. |
| StateModel.CleanupKeepsEntities | prototype/snapshot-aggregator/state_manager.py:231-271 | Cleanup keeps the invariant and leaves the export (districts, edges, vehicles, buildings, totals) exactly as it was. |
| StateModel.Export | prototype/snapshot-aggregator/state_manager.py:249-271 | The export lists the districts in order, each with the edge dictionaries its links resolve to. It carries the edges, vehicles and buildings as stored, and totals equal to the number of keys of each map. |
| StateModel.ExportConsistent | prototype/snapshot-aggregator/state_manager.py:260-271 | Every exported map has unique keys, every exported edge carries its own id, and each reported total equals the number of entries of its map. |
| StateModel.Statistics | prototype/snapshot-aggregator/state_manager.py:273-287 | The statistics are the sizes of the four entity maps and of the tracking map. |
| StateModel.Apply | prototype/snapshot-aggregator/snapshot_aggregator.py:124-130 | Each message kind reaches its topic's handler, and the invariant is kept. |
| OrderedMaps.Put | prototype/snapshot-aggregator/state_manager.py:69 | Assigning a key sets its value; an existing key keeps its position and a new key goes last. |
| OrderedMaps.LenIsCardinality | prototype/snapshot-aggregator/state_manager.py:265-270 | `len` of a dict is the number of its distinct keys. |
| OrderedMaps.ItemsAt | prototype/snapshot-aggregator/snapshot_builder.py:95 | Iterating a dict yields each key once, in insertion order, with its value. |
| StateManagement.StateManager.constructor | prototype/snapshot-aggregator/state_manager.py:31-52 | A new manager is empty, satisfies the invariant, and holds the TTL in microseconds; the TTL is 30 seconds unless given. |
| StateManagement.StateManager.UpdateSpeedSensor | prototype/snapshot-aggregator/state_manager.py:54-90 | Updating the fields in place reaches `UpdateSpeed` of the old state and keeps the invariant. |
| StateManagement.StateManager.BindNewEdge | prototype/snapshot-aggregator/state_manager.py:69-78 | Allocates a new edge dictionary and binds it in `edges_state`; nothing else changes. |
| StateManagement.StateManager.LinkIntoDistrict | prototype/snapshot-aggregator/state_manager.py:81-87 | Creates the district if absent and links the edge into it; nothing else changes. |
| StateManagement.StateManager.UpdateWeatherSensor | prototype/snapshot-aggregator/state_manager.py:92-124 | Reaches `UpdateWeather` of the old state and keeps the invariant. |
| StateManagement.StateManager.UpdateCameraSensor | prototype/snapshot-aggregator/state_manager.py:126-158 | Reaches `UpdateCamera` of the old state and keeps the invariant. |
| StateManagement.StateManager.MergeEdge | prototype/snapshot-aggregator/state_manager.py:107-108 | Finds edge e's dictionary, or creates and binds the minimal one; nothing else changes. |
| StateManagement.StateManager.SetEdge | prototype/snapshot-aggregator/state_manager.py:110-117 | Overwrites one edge dictionary in place; no link changes. |
| StateManagement.StateManager.LinkEdge | prototype/snapshot-aggregator/state_manager.py:120-121 | Links the edge into d only if d exists; nothing else changes. |
| StateManagement.StateManager.UpdateVehicleTelemetry | prototype/snapshot-aggregator/state_manager.py:160-193 | Reaches `UpdateVehicle` of the old state and keeps the invariant. |
| StateManagement.StateManager.UpdateBuildingMonitoring | prototype/snapshot-aggregator/state_manager.py:195-229 | Reaches `UpdateBuilding` of the old state and keeps the invariant. |
| StateManagement.StateManager.AddBuilding | prototype/snapshot-aggregator/state_manager.py:209-217 | Adds the initial building record; nothing else changes. |
| StateManagement.StateManager.SetSensor | prototype/snapshot-aggregator/state_manager.py:220-226 | Overwrites one sensor slot of one building; nothing else changes. |
| StateManagement.StateManager.CleanupStaleState | prototype/snapshot-aggregator/state_manager.py:231-247 | The deletion loop reaches `Cleanup` of the old state: exactly the stale keys are gone, and the entity maps are untouched. |
| StateManagement.StateManager.GetSnapshotState | prototype/snapshot-aggregator/state_manager.py:249-271 | Cleans up, then returns the export, which equals the export before cleanup. |
| StateManagement.StateManager.GetStats | prototype/snapshot-aggregator/state_manager.py:273-287 | Returns the sizes of the four entity maps and of the tracking map, changing nothing. |
| StateManagement.StateManager.Consume | prototype/snapshot-aggregator/snapshot_aggregator.py:124-130 | Reaches `Apply` of the old state for any message. |
| Json.Trunc | prototype/snapshot-aggregator/snapshot_builder.py:138 | `int()` of a number truncates toward zero: the greatest integer not above a non-negative number, the least integer not below a negative one. |
| Json.GetOr | prototype/snapshot-aggregator/snapshot_builder.py:36-38 | `dict.get(k, default)` is the stored value when the key is present, else the default; `dict.get(k)` is the same with null as the default. |
| Json.Present | prototype/snapshot-aggregator/state_manager.py:65 | An id passes the handlers' `if not id` guard exactly when the JSON value it reads as is truthy: present and non-empty. |
| Json.IsSubstringAt | prototype/snapshot-aggregator/snapshot_builder.py:216 | `bt in building_id` holds exactly when `bt` occurs at some position of the id. |
| SnapshotModel.ConfigFrom | prototype/snapshot-aggregator/snapshot_builder.py:36-38 | `cityId`, `name` and `version` are each the configured value when the key is present, else `laquila-dt-001`, `L'Aquila Digital Twin` and `1.0`. |
| SnapshotModel.CongestionLevel | prototype/snapshot-aggregator/snapshot_builder.py:167-184 | clear, congestion, accident, obstacles and flooding give 10, 70, 95, 80 and 100. The result is 50 exactly when the condition is none of them. It always lies in 10..100. |
| SnapshotModel.DistrictName | prototype/snapshot-aggregator/snapshot_builder.py:89-93 | The three known districts get their display names (Centro Storico, Collemaggio, Pettino); any other district is named by its id. |
| SnapshotModel.Districts | prototype/snapshot-aggregator/snapshot_builder.py:95-108 | One district entry per district entry of the export, in iteration order, the i-th built from the i-th district and the stored buildings. |
| SnapshotModel.DistrictsInOrder | prototype/snapshot-aggregator/snapshot_builder.py:95-108 | One entry per district, in iteration order, each built from the key and that district's own edges. |
| SnapshotModel.DistrictSensors | prototype/snapshot-aggregator/snapshot_builder.py:126-163 | A district has as many sensors as there are readings on its edges with speed data, plus one per edge with camera data. |
| SnapshotModel.CameraSensors | prototype/snapshot-aggregator/snapshot_builder.py:145-163 | A sensor `camera-<e>` exists exactly when edge e has camera data. Every camera sensor is the one built from its edge's camera data. |
| SnapshotModel.BelongsToAt | prototype/snapshot-aggregator/snapshot_builder.py:216 | Membership holds when one of the district's types occurs in the building id at some position or equals its type. |
| SnapshotModel.DistrictBuildingsMember | prototype/snapshot-aggregator/snapshot_builder.py:204-228 | A building is listed under a district exactly when one of the district's types is a substring of its id or equals its type. |
| SnapshotModel.DistrictBuildings | prototype/snapshot-aggregator/snapshot_builder.py:204-228 | Every listed building matches one of the district's types, by substring of its id or equality with its type; a district with no building types gets no buildings. |
| SnapshotModel.BuildingSensorCount | prototype/snapshot-aggregator/snapshot_builder.py:245-274 | A building has one output sensor per `air_quality` entry and one per `acoustic` entry, so at most one of each, and no other sensors. |
| SnapshotModel.BuildingSensors | prototype/snapshot-aggregator/snapshot_builder.py:245-274 | An air quality sensor is named `<building id>-aq` and exists only with an `air_quality` entry; an acoustic one is named `<building id>-acoustic` and exists only with an `acoustic` entry. |
| SnapshotModel.FirstWeather | prototype/snapshot-aggregator/snapshot_builder.py:292-312 | Finds the first edge with weather data: every earlier edge has none, and none is found only when no edge has any. |
| SnapshotModel.WeatherStations | prototype/snapshot-aggregator/snapshot_builder.py:278-314 | At most one station. There is one exactly when some edge has weather data, and it is built from the first such edge in iteration order, with id `ws-<e>`. |
| SnapshotModel.CurrentStop | prototype/snapshot-aggregator/snapshot_builder.py:349-362 | `In Transit` unless the destination is a non-empty object; otherwise its `location_name`, or `Unknown Stop`. |
| SnapshotModel.PublicTransportOf | prototype/snapshot-aggregator/snapshot_builder.py:344-347 | The stations list is always empty. |
| SnapshotModel.BusesExactly | prototype/snapshot-aggregator/snapshot_builder.py:329-342 | The buses are exactly the vehicles of type `bus`. Each carries its vehicle's id, name as route and stored speed, and is on time exactly when `operational` is truthy. |
| SnapshotModel.UnitType | prototype/snapshot-aggregator/snapshot_builder.py:386-401 | `firetruck` is reported as `fire-truck`; every other type is reported unchanged. |
| SnapshotModel.StatusOf | prototype/snapshot-aggregator/snapshot_builder.py:393-397 | Responding exactly on a critical route; otherwise patrol exactly when moving; otherwise available. A missing speed counts as 0. |
| SnapshotModel.UnitStatusAsWritten | prototype/snapshot-aggregator/snapshot_builder.py:393-397 | The source's decision raises exactly when the route is not critical and the stored speed is null. |
| SnapshotModel.StatusAgrees | prototype/snapshot-aggregator/snapshot_builder.py:393-397 | Wherever the source's decision does not raise, the corrected one gives the same status. |
| SnapshotModel.MissingSpeedRaises | prototype/snapshot-aggregator/state_manager.py:181 | A police telemetry message without speed on a normal route is stored with a null speed. The source's status decision then raises, while the corrected one reports the unit available. |
| SnapshotModel.DestinationOf | prototype/snapshot-aggregator/snapshot_builder.py:409-416 | A unit has a destination exactly when it is responding and its destination is a non-empty object. |
| SnapshotModel.UnitsExactly | prototype/snapshot-aggregator/snapshot_builder.py:379-418 | The units are exactly the ambulances, fire trucks and police vehicles, each built from its own record. |
| SnapshotModel.IncidentsExactly | prototype/snapshot-aggregator/snapshot_builder.py:420-434 | An incident `INC-<v>` exists exactly when emergency vehicle v has a truthy `incident_detected`. |
| SnapshotModel.IncidentAnswered | prototype/snapshot-aggregator/snapshot_builder.py:420-434 | Every incident's responding units are just the vehicle that reported it, and that vehicle is listed as a unit. |
| SnapshotModel.Emergency | prototype/snapshot-aggregator/snapshot_builder.py:381-434 | There are never more incidents than units: every incident comes from a vehicle that is also listed as a unit. |
| SnapshotModel.BuildSnapshot | prototype/snapshot-aggregator/snapshot_builder.py:42-71 | The snapshot carries the configured city id, name and version. Its timestamp and `lastUpdated` are the same clock reading, suffixed with `Z`. |
| SnapshotBuilding.SnapshotBuilder.constructor | prototype/snapshot-aggregator/snapshot_builder.py:29-40 | Each setting is taken from the configuration, or its default when absent. |
| SnapshotBuilding.SnapshotBuilder.BuildSnapshot | prototype/snapshot-aggregator/snapshot_builder.py:42-71 | Produces `SnapshotModel.BuildSnapshot` for the builder's configuration. |
| SnapshotBuilding.SnapshotBuilder.BuildDistricts | prototype/snapshot-aggregator/snapshot_builder.py:73-110 | The loop over districts produces `Districts`. |
| SnapshotBuilding.SnapshotBuilder.BuildDistrictSensors | prototype/snapshot-aggregator/snapshot_builder.py:112-165 | The loop over edges produces `DistrictSensors`. |
| SnapshotBuilding.SnapshotBuilder.BuildReadingSensors | prototype/snapshot-aggregator/snapshot_builder.py:128-143 | The inner loop over readings gives one `vehicleCount` sensor per reading, in order. |
| SnapshotBuilding.SnapshotBuilder.BuildDistrictBuildings | prototype/snapshot-aggregator/snapshot_builder.py:186-230 | The loop over buildings produces `DistrictBuildings`. |
| SnapshotBuilding.SnapshotBuilder.BuildBuildingSensors | prototype/snapshot-aggregator/snapshot_builder.py:232-276 | The loop over sensor entries produces `BuildingSensors`. |
| SnapshotBuilding.SnapshotBuilder.BuildWeatherStations | prototype/snapshot-aggregator/snapshot_builder.py:278-314 | The loop that stops at the first edge with weather data produces `WeatherStations`. |
| SnapshotBuilding.SnapshotBuilder.BuildPublicTransport | prototype/snapshot-aggregator/snapshot_builder.py:316-347 | The loop over vehicles produces `PublicTransportOf`. |
| SnapshotBuilding.SnapshotBuilder.BuildEmergencyServices | prototype/snapshot-aggregator/snapshot_builder.py:364-439 | The loop that reassigns the status variable produces `Emergency`, with the corrected status. |

## Left out

- The re-entrant lock (state_manager.py:50): every call is modelled as atomic and sequential. The builder reading the exported nested dictionaries after the lock is released is not modelled.
- Logging, the Kafka consumer and producer threads, the scheduler, retries and configuration loading in snapshot_aggregator.py. Only its topic-to-handler table is modelled, as `Apply`.
- prototype/graph-static-map/generate_laquila_graph.py is not part of this model: it is file I/O, geospatial library calls and float rounding.
- The wall clock is a parameter (`now` for the state manager, `clock` for the builder's ISO string).
- Floating-point numbers are opaque `real` payloads. Only `int()` truncation and the `speed_kmh > 0` comparison are modelled.
- Speed is modelled as a number or absent. A speed of another JSON type (a string, a boolean) is not modelled.
- A reading whose `speed_kmh` is present but null is not modelled: `int(None)` would raise. An absent reading speed counts as 0, as in the source.
- Message fields that the source passes through without looking inside them are scalars: coordinates, timestamps, names, and the values inside a building's `measurements` object. The `measurements` object itself is a map from keys to such values, and `sensor_readings` is a list of readings. JSON lists and nested objects in the other fields are not modelled, except that `current_destination` is an object or not.
- Messages.SpeedMsg: `sensor_readings` is always a list of objects. A speed message whose `sensor_readings` is explicitly null (stored as such, state_manager.py:76) or holds a non-object element is not modelled; on it the source's `SnapshotModel.DistrictSensors` step raises (iterating null at snapshot_builder.py:130, `reading.get` on a non-object at :132).
- Messages.BuildingMsg: `measurements` is always an object. A building message whose `measurements` is explicitly null (stored as such, state_manager.py:224) is not modelled; on it the source's `SnapshotModel.BuildingSensors` step raises (`.get` on null at snapshot_builder.py:247-252 and 263-268).
- StateManagement.StateManager.constructor: the TTL is a whole number of seconds. A fractional `state_ttl_seconds` read from the JSON configuration (snapshot_aggregator.py:68-70) is not modelled.
- Ids are strings or absent. A non-string truthy id (a number) is not modelled.
- The fixed output constants are stated in comments and not carried as fields. These are the unit and status strings, the L'Aquila centre (42.3498, 13.3995), the station elevation 700, the incident's type, priority and status, and the sensor `type` labels.
- `get_snapshot_state` returns shallow copies. The model returns values, so later in-place changes cannot show through an export already taken.
- The docstring of `cleanup_stale_state` says stale entries are removed. The code only deletes their tracking times and leaves every entity in place. The model follows the code, and `CleanupKeepsEntities` states the consequence.
- SnapshotBuilding.SnapshotBuilder.BuildEmergencyServices, SnapshotBuilding.SnapshotBuilder.BuildSnapshot, SnapshotModel.UnitOf, SnapshotModel.Emergency, SnapshotModel.BuildSnapshot: use the corrected status (see Findings). On `SnapshotModel.PoliceWithoutSpeed` the source's `build_snapshot` raises, while these list the unit as available; `SnapshotModel.MissingSpeedRaises` exhibits that input.

## Findings

| source | as written | input that shows it | evidently intended | confidence | as-written member | corrected member |
|---|---|---|---|---|---|---|
| prototype/snapshot-aggregator/snapshot_builder.py:396 | The status decision compares `vehicle_data.get('speed_kmh', 0) > 0`. The default never applies, because the state manager always stores the key, as null when the message had no speed (state_manager.py:181). `None > 0` raises `TypeError`, and the whole snapshot fails. | A police telemetry message with no `speed_kmh` and a non-critical `route_priority` (`SnapshotModel.PoliceWithoutSpeed`) | A missing speed counts as 0, so the unit is available | not executed | SnapshotModel.UnitStatusAsWritten, SnapshotModel.MissingSpeedRaises | SnapshotModel.StatusOf |
