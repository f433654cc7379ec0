# LuchtmeetNet air-quality sensor — a Dafny model

This project models the Home Assistant `luchtmeetnet` sensor platform. The platform looks up the
monitoring station nearest to a configured coordinate, polls that station's latest measurement, and
classifies the LKI air-quality index into one of six Dutch labels. It then exposes three readings:
the station, the index and the label.

Four modules:

- `Wrappers` (`wrappers.dfy`): `Option` (Python's `None`) and `Result` (a value or a raised exception).
- `Classifier` (`classifier.dfy`): the `if/elif` chain of the coordinator as the pure function
  `Classify`. It is checked against an independent reference definition, `Band`, which counts how
  many of the upper bounds 3, 6, 8, 10, 11 the index exceeds. The lemmas prove the band boundaries,
  the band intervals and monotonicity.
- `Coordinator` (`coordinator.dfy`): the class `LMNUpdateCoordinator`. Its field `station` starts as
  `None` and is set at most once. `UpdateData` is one refresh, and the pure function `BuildSnapshot`
  specifies the dictionary it returns or the exception it raises. The functions `StationAfter`,
  `LookupCalls` and `Resolutions` describe a run of refreshes. The lemmas about them prove that the
  station is resolved once and then kept, and `RunRefreshes` ties them to the object: N calls of
  `UpdateData` leave its station and its lookup count where the fold says.
- `Sensor` (`sensor.dfy`): the three-entry descriptor table and the class `LMNSensor`, which stores
  its display name and projects its key out of the coordinator's snapshot. `SetupPlatform` covers the
  location check, the first refresh and the loop that creates one sensor per descriptor.

The measurement service is not part of this model. Its two calls become inputs:

- `nearest`: what the nearest-station lookup answers when it is called. This is the `"number"` of
  the record it returns, or `None`.
- `fetch`: the measurement service, a function from the station asked for (possibly `None`) to the
  record it returns.

Values in records and snapshots are the dynamically typed `Value` (`Null`, `Num`, `Text`).

Behaviour of `sensor.py` that the model keeps:

- The labels are the Dutch strings of `sensor.py` ("goed", "matig", "onvoldoende", "slecht",
  "zeer slecht", "Geen data beschikbaar").
- A missing `"LKI"` raises a `KeyError` at line 113. That is outside the `try` block, so it is not
  wrapped as `UpdateFailed`. Only a missing `"timestamp"` is wrapped.
- When the nearest-station lookup finds nothing, the measurement is still fetched with a `None`
  station and the refresh can succeed with `stationname` equal to `None`: the fetch is not skipped.

Other slips in `sensor.py` that the model reads past, taking the evident intent:

- Line 36 chains an assignment to `tuple[...]` where a type annotation was meant.
- Line 45 lacks a comma after `icon="mdi:gauge"`.
- Line 149 uses `callback`, which is never imported.

As written, the module would not load. The model uses the descriptor table that the code evidently
means.

## Model

| member | source | states |
|---|---|---|
| `Classifier.Classify` | custom_components/luchtmeetnet/sensor.py:113-124 | total; the label is one of the six; "goed" exactly when lki <= 3; "Geen data beschikbaar" exactly when lki > 11 |
| `Classifier.LabelsDistinct` | custom_components/luchtmeetnet/sensor.py:114-124 | the six labels are pairwise different, so each index gets exactly one of them |
| `Classifier.ClassifyIsBand` | custom_components/luchtmeetnet/sensor.py:114-124 | the first-match-wins chain agrees with the reference band (number of upper bounds strictly below the index) |
| `Classifier.ClassifyBands` | custom_components/luchtmeetnet/sensor.py:115-124 | each inner band is half-open with an inclusive upper bound: (3,6] matig, (6,8] onvoldoende, (8,10] slecht, (10,11] zeer slecht, in both directions |
| `Classifier.ClassifyAtBoundaries` | custom_components/luchtmeetnet/sensor.py:114-124 | 3, 6, 8, 10, 11 fall in the lower band; 3.0001 … 11.0001 in the next one; 50 gets "Geen data beschikbaar" |
| `Classifier.BoundsBelowMonotone` | custom_components/luchtmeetnet/sensor.py:115-124 | a larger index exceeds at least as many bounds |
| `Classifier.ClassifyMonotone` | custom_components/luchtmeetnet/sensor.py:115-124 | if a <= b then the label of a comes no later in the label list than the label of b |
| `Coordinator.StationValue` | custom_components/luchtmeetnet/sensor.py:127 | the snapshot's station entry is None exactly while no station is resolved, and otherwise the station's number |
| `Coordinator.NextStation` | custom_components/luchtmeetnet/sensor.py:107-110 | one refresh keeps a resolved station; the station stays None only when it was None and the lookup found nothing; any change is from None to the lookup's answer |
| `Coordinator.BuildSnapshot` | custom_components/luchtmeetnet/sensor.py:112-133 | success exactly when LKI is present and numeric and timestamp is present; missing LKI is an unwrapped KeyError; non-numeric LKI is a TypeError; missing timestamp is UpdateFailed(KeyError); a success has exactly the four keys with station, fetched LKI, its label and fetched timestamp |
| `Coordinator.ResolvedStationIsStable` | custom_components/luchtmeetnet/sensor.py:107-110 | once a station is stored, later refreshes keep it and never call the lookup |
| `Coordinator.LookupUntilResolved` | custom_components/luchtmeetnet/sensor.py:107-110 | the lookup is called on every refresh up to and including the first that finds a station, and on none after it; the stored station is that first answer |
| `Coordinator.ResolvesAtMostOnce` | custom_components/luchtmeetnet/sensor.py:99-110 | across any run of refreshes the station field changes at most once, and exactly once when it started as None and ended resolved |
| `Coordinator.RunExtendedByOne` | custom_components/luchtmeetnet/sensor.py:107-110 | one more refresh at the end of a run advances the stored station by one resolve-once step and adds one lookup exactly when the station was still None |
| `Coordinator.PromptResolverCalledOnce` | custom_components/luchtmeetnet/sensor.py:107-110 | with a lookup that succeeds on the first refresh, N >= 1 refreshes call it exactly once |
| `Coordinator.UnresolvedStationStillReported` | custom_components/luchtmeetnet/sensor.py:108-131 | with no station resolved, a well-formed measurement still gives a snapshot, with stationname None |
| `Coordinator.LMNUpdateCoordinator.constructor` | custom_components/luchtmeetnet/sensor.py:95-103 | binds the coordinates; station starts as None; no lookup made yet |
| `Coordinator.LMNUpdateCoordinator.UpdateData` | custom_components/luchtmeetnet/sensor.py:105-133 | calls the lookup only while the station is None and stores its answer if it found one; fetches with the station as it then stands; returns BuildSnapshot of that fetch |
| `Coordinator.LMNUpdateCoordinator.Refresh` | custom_components/luchtmeetnet/sensor.py:81 | the framework refresh around UpdateData: a success replaces the held snapshot, a failure keeps the previous one; every held snapshot is complete |
| `Coordinator.RunRefreshes` | custom_components/luchtmeetnet/sensor.py:105-110 | N consecutive calls of UpdateData leave the coordinator's station equal to the fold over the lookup answers and raise its lookup count by exactly the fold's count, tying the resolve-once lemmas to the object |
| `Sensor.SensorTypesTable` | custom_components/luchtmeetnet/sensor.py:36-52 | three descriptors whose keys are snapshot keys other than timestamp; the index reading has device class aqi, icon mdi:gauge and state class measurement, and no other reading has any of these hints |
| `Sensor.SensorName` | custom_components/luchtmeetnet/sensor.py:145 | the name is the client name, one space, then the descriptor's name |
| `Sensor.SensorNamesDistinct` | custom_components/luchtmeetnet/sensor.py:145 | for any client name the three sensors get different names |
| `Sensor.DescriptorKeysInSnapshot` | custom_components/luchtmeetnet/sensor.py:36-52 | the three descriptor keys are distinct and present in every complete snapshot |
| `Sensor.ReadingsRoundTrip` | custom_components/luchtmeetnet/sensor.py:126-131 | projecting the descriptors' keys out of a built snapshot gives back the station, the fetched LKI and its label unchanged |
| `Sensor.ReadingsForIndexTwo` | custom_components/luchtmeetnet/sensor.py:113-131 | a measurement with LKI 2 yields the readings (station, 2, "goed") |
| `Sensor.DeviceClassKeyAsWritten` | custom_components/luchtmeetnet/sensor.py:152 | the as-written lookup of `key` on the device class always raises AttributeError, with owner NoneType or str by the device class's type |
| `Sensor.AsWrittenLookupAlwaysFails` | custom_components/luchtmeetnet/sensor.py:152 | the key lookup through the device class, as written, raises for every descriptor |
| `Sensor.LMNSensor.constructor` | custom_components/luchtmeetnet/sensor.py:139-147 | copies the descriptor's hints, keeps the descriptor and the coordinator, and forms the display name |
| `Sensor.LMNSensor.ProcessData` | custom_components/luchtmeetnet/sensor.py:150-152 | the sensor's key is in the coordinator's snapshot, and the native value becomes the entry under that key |
| `Sensor.ConfiguredOr` | custom_components/luchtmeetnet/sensor.py:69-70 | a coordinate is the configured one if present, else exactly the host's; absent only when both are |
| `Sensor.SetupPlatform` | custom_components/luchtmeetnet/sensor.py:67-91 | returns LocationMissing exactly when latitude or longitude is absent after the fallback; NotReady exactly when the first refresh fails; otherwise one sensor per descriptor, in order, on the new coordinator, with the formed names, and the coordinator holds the first snapshot after exactly one lookup; no sensor has a value yet; the coordinator and the sensors are new objects and the sensors pairwise distinct |

## Findings

| source | as written | input that shows it | evidently intended | confidence | as-written member | corrected member |
|---|---|---|---|---|---|---|
| custom_components/luchtmeetnet/sensor.py:152 | `self.coordinator.data[self.device_class.key]`: `device_class` is `None` or the string `"aqi"`, and neither has an attribute `key` | any descriptor, e.g. `stationname` (device class `None`) | `self.coordinator.data[self.description.key]` | high, not executed | `Sensor.AsWrittenLookupAlwaysFails` | `Sensor.LMNSensor.ProcessData` |

## Left out

- The calls into the `LuchtmeetNet` client (lines 98, 108, 112) are HTTP requests. Their answers are the `nearest` and `fetch` parameters. Network errors they might raise are not modelled.
- A nearest-station record without a `"number"` entry, or with `None` there (line 110), is not modelled. The lookup's answer is taken to be that number or no result.
- An LKI that is a Python `bool` is not modelled. Such a value compares as an integer. The modelled values are `None`, numbers and strings, and `None` and strings both raise `TypeError`.
- Scheduling and the 300-second interval (lines 101-103), `async`/`await`, `async_write_ha_state` (line 154) and `async_add_entities` (line 91) are host-framework behaviour.
- The schema validation of coordinates and name (lines 54-64), `float(...)` (line 76) and logging (lines 73, 78) are library code or carry no behaviour here. The client name is taken as already defaulted to a string.
- Coordinator.LMNUpdateCoordinator.Refresh: the keep-last-snapshot behaviour belongs to the host's coordinator, not to `sensor.py`. It is modelled only so that line 152 has data to read and line 81 has an outcome.
- Classifier.Classify: the index is a `real`, so a float NaN is not modelled. In `sensor.py` every `<=` against NaN is false and NaN gets "Geen data beschikbaar", although `NaN > 11` is false too; the contract's "exactly when lki > 11" holds only for non-NaN indices.
- Sensor.LMNSensor.ProcessData: nothing in `sensor.py` calls `_async_process_data`, and nothing in the model calls `ProcessData`. Whether the host framework ever invokes a method of that name is outside this model, so the native value may in practice never be assigned.
