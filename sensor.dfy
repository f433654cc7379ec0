/**
 * The sensor platform: the fixed table of sensor descriptors, the sensor entity
 * that projects one key out of the coordinator's snapshot, and the platform
 * setup that checks the location, makes the first refresh and creates one
 * sensor per descriptor.
 */
module Sensor {
  import opened Wrappers
  import opened Classifier
  import opened Coordinator

  /** A sensor entity description: the snapshot key it shows and its display hints. */
  datatype Descriptor = Descriptor(
    key: string,
    name: string,
    deviceClass: Option<string>,
    icon: Option<string>,
    stateClass: Option<string>)

  /** The host's constants for the air-quality device class and a measured state. */
  const DeviceClassAqi: string := "aqi"
  const StateClassMeasurement: string := "measurement"

  /** The three readings, in declaration order. */
  const SensorTypes: seq<Descriptor> := [
    Descriptor("stationname", "Air Quality Stationname", None, None, None),
    Descriptor("lki", "Air Quality Index", Some(DeviceClassAqi), Some("mdi:gauge"), Some(StateClassMeasurement)),
    Descriptor("lki_text", "Air Quality Status", None, None, None)
  ]

  /**
   * The table's hints: only the index reading carries a device class (air quality),
   * an icon and a state class (measurement); the keys are the snapshot's first three.
   */
  lemma SensorTypesTable()
    ensures |SensorTypes| == 3
    ensures forall d :: d in SensorTypes ==> d.key in SnapshotKeys - {"timestamp"}
    ensures forall d :: d in SensorTypes && d.deviceClass.Some? ==>
              d.key == "lki" && d.deviceClass == Some("aqi") && d.stateClass == Some("measurement")
    ensures forall d :: d in SensorTypes && d.key != "lki" ==>
              d.deviceClass.None? && d.icon.None? && d.stateClass.None?
    ensures exists d :: d in SensorTypes && d.key == "lki" && d.deviceClass == Some("aqi") &&
              d.icon == Some("mdi:gauge") && d.stateClass == Some("measurement")
  {
  }

  /** The display name of a sensor: the configured prefix, a space, the descriptor's name. */
  function SensorName(clientName: string, d: Descriptor): (name: string)
    ensures |name| == |clientName| + 1 + |d.name|
    ensures name[..|clientName|] == clientName && name[|clientName|] == ' '
    ensures name[|clientName| + 1..] == d.name
  {
    clientName + " " + d.name
  }

  /** Every descriptor's key is one of the snapshot's keys, so every reading is defined. */
  lemma DescriptorKeysInSnapshot(snap: Snapshot)
    requires IsSnapshot(snap)
    ensures forall d :: d in SensorTypes ==> d.key in snap
    ensures forall i, j :: 0 <= i < j < |SensorTypes| ==> SensorTypes[i].key != SensorTypes[j].key
  {
  }

  /** Whatever the prefix, the three sensors get three different names. */
  lemma SensorNamesDistinct(clientName: string)
    ensures forall i, j :: 0 <= i < j < |SensorTypes| ==>
              SensorName(clientName, SensorTypes[i]) != SensorName(clientName, SensorTypes[j])
  {
    forall i, j | 0 <= i < j < |SensorTypes|
      ensures SensorName(clientName, SensorTypes[i]) != SensorName(clientName, SensorTypes[j])
    {
      var a, b := SensorName(clientName, SensorTypes[i]), SensorName(clientName, SensorTypes[j]);
      assert a[|clientName| + 1..] == SensorTypes[i].name;
      assert b[|clientName| + 1..] == SensorTypes[j].name;
    }
  }

  /**
   * Reading the three sensors back from a snapshot returns exactly what the refresh
   * put into it: the station, the index as fetched, and the index's label.
   */
  lemma ReadingsRoundTrip(station: Option<StationId>, data: Measurement)
    requires BuildSnapshot(station, data).Success?
    ensures var snap := BuildSnapshot(station, data).value;
      && snap[SensorTypes[0].key] == StationValue(station)
      && snap[SensorTypes[1].key] == data["LKI"]
      && snap[SensorTypes[2].key] == Text(Classify(data["LKI"].n))
  {
  }

  /** A fetched index of 2 gives the readings (station, 2, "goed"). */
  lemma ReadingsForIndexTwo(id: StationId, timestamp: Value)
    ensures var snap := BuildSnapshot(Some(id), map["LKI" := Num(2.0), "timestamp" := timestamp]);
      && snap.Success?
      && snap.value[SensorTypes[0].key] == Text(id)
      && snap.value[SensorTypes[1].key] == Num(2.0)
      && snap.value[SensorTypes[2].key] == Text("goed")
  {
  }

  /** The error an attribute lookup on a Python value without that attribute raises. */
  datatype AttributeError = AttributeError(owner: string, attribute: string)

  /**
   * The key lookup as written, through the device class rather than the description:
   * neither None nor a string has an attribute `key`.
   */
  function DeviceClassKeyAsWritten(deviceClass: Option<string>): (r: Result<string, AttributeError>)
    ensures r.Failure? && r.error.attribute == "key"
    ensures r.error.owner == if deviceClass.None? then "NoneType" else "str"
  {
    match deviceClass
    case None => Failure(AttributeError("NoneType", "key"))
    case Some(_) => Failure(AttributeError("str", "key"))
  }

  /** For every descriptor in the table the lookup as written raises. */
  lemma AsWrittenLookupAlwaysFails()
    ensures forall d :: d in SensorTypes ==> DeviceClassKeyAsWritten(d.deviceClass).Failure?
  {
  }

  /** One reading exposed to the host: a projection of the coordinator's snapshot. */
  class LMNSensor {
    const coordinator: LMNUpdateCoordinator
    const description: Descriptor
    const name: string
    const deviceClass: Option<string>
    const icon: Option<string>
    const stateClass: Option<string>
    /** The value shown to the host; None until the sensor first processes data. */
    var nativeValue: Option<Value>

    constructor (coordinator: LMNUpdateCoordinator, description: Descriptor, clientName: string)
      ensures this.coordinator == coordinator && this.description == description
      ensures name == SensorName(clientName, description)
      ensures deviceClass == description.deviceClass && icon == description.icon
      ensures stateClass == description.stateClass
      ensures nativeValue == None
    {
      this.coordinator := coordinator;
      this.description := description;
      name := SensorName(clientName, description);
      deviceClass := description.deviceClass;
      icon := description.icon;
      stateClass := description.stateClass;
      nativeValue := None;
    }

    /** Take the entry under this sensor's key from the coordinator's current snapshot. */
    method ProcessData()
      requires coordinator.Valid() && coordinator.data.Some? && description in SensorTypes
      modifies this`nativeValue
      ensures description.key in coordinator.data.value
      ensures nativeValue == Some(coordinator.data.value[description.key])
    {
      DescriptorKeysInSnapshot(coordinator.data.value);
      nativeValue := Some(coordinator.data.value[description.key]);
    }
  }

  /** What the platform setup ends in. */
  datatype SetupOutcome =
    | LocationMissing                 // returns False, creates nothing
    | NotReady                        // the first refresh failed; creates no sensor
    | Added(coordinator: LMNUpdateCoordinator, sensors: seq<LMNSensor>)

  /** A configuration entry, falling back to the host's value when it is not configured. */
  function ConfiguredOr(configured: Option<real>, host: Option<real>): (v: Option<real>)
    ensures v.None? <==> configured.None? && host.None?
    ensures configured.Some? ==> v == configured
    ensures configured.None? ==> v == host
  {
    if configured.Some? then configured else host
  }

  /**
   * Platform setup. The coordinates come from the configuration or else from the
   * host; `nearest` and `fetch` answer the first refresh's calls to the service.
   */
  method SetupPlatform(
    confLatitude: Option<real>, confLongitude: Option<real>,
    hostLatitude: Option<real>, hostLongitude: Option<real>,
    clientName: string,
    nearest: Option<StationId>, fetch: Option<StationId> -> Measurement)
    returns (outcome: SetupOutcome)
    ensures var lat, lon := ConfiguredOr(confLatitude, hostLatitude), ConfiguredOr(confLongitude, hostLongitude);
      outcome.LocationMissing? <==> lat.None? || lon.None?
    ensures var lat, lon := ConfiguredOr(confLatitude, hostLatitude), ConfiguredOr(confLongitude, hostLongitude);
      outcome.NotReady? <==> lat.Some? && lon.Some? && BuildSnapshot(nearest, fetch(nearest)).Failure?
    ensures outcome.Added? ==>
      && outcome.coordinator.latitude == ConfiguredOr(confLatitude, hostLatitude).value
      && outcome.coordinator.longitude == ConfiguredOr(confLongitude, hostLongitude).value
      && outcome.coordinator.station == nearest
      && outcome.coordinator.data == Some(BuildSnapshot(nearest, fetch(nearest)).value)
      && outcome.coordinator.Valid()
      && outcome.coordinator.lookupCalls == 1
    ensures outcome.Added? ==>
      && |outcome.sensors| == |SensorTypes|
      && forall i :: 0 <= i < |outcome.sensors| ==>
           && outcome.sensors[i].coordinator == outcome.coordinator
           && outcome.sensors[i].description == SensorTypes[i]
           && outcome.sensors[i].name == SensorName(clientName, SensorTypes[i])
           && outcome.sensors[i].nativeValue.None?
    ensures outcome.Added? ==>
      && fresh(outcome.coordinator)
      && (forall i :: 0 <= i < |outcome.sensors| ==> fresh(outcome.sensors[i]))
      && (forall i, j :: 0 <= i < j < |outcome.sensors| ==> outcome.sensors[i] != outcome.sensors[j])
  {
    var latitude := ConfiguredOr(confLatitude, hostLatitude);
    var longitude := ConfiguredOr(confLongitude, hostLongitude);
    if latitude.None? || longitude.None? {
      return LocationMissing;
    }

    var coordinator := new LMNUpdateCoordinator(latitude.value, longitude.value);
    var ok := coordinator.Refresh(nearest, fetch);
    if !ok {
      return NotReady;
    }

    var sensors: seq<LMNSensor> := [];
    for i := 0 to |SensorTypes|
      invariant |sensors| == i
      invariant forall j :: 0 <= j < i ==>
                  && sensors[j].coordinator == coordinator
                  && sensors[j].description == SensorTypes[j]
                  && sensors[j].name == SensorName(clientName, SensorTypes[j])
                  && sensors[j].nativeValue.None?
      invariant coordinator.station == nearest
      invariant coordinator.data == Some(BuildSnapshot(nearest, fetch(nearest)).value)
      invariant coordinator.Valid() && coordinator.lookupCalls == 1
      invariant fresh(coordinator) && forall j :: 0 <= j < i ==> fresh(sensors[j])
      invariant forall j, k :: 0 <= j < k < i ==> sensors[j] != sensors[k]
    {
      var sensor := new LMNSensor(coordinator, SensorTypes[i], clientName);
      sensors := sensors + [sensor];
    }
    outcome := Added(coordinator, sensors);
  }
}
