/**
 * The update coordinator: on each refresh it resolves the nearest station once
 * (lazily, and only until a lookup succeeds), fetches that station's latest
 * measurement and builds a four-key snapshot. The two calls into the
 * measurement service are inputs: the answer of the nearest-station lookup,
 * and the measurement service itself as a function of the station asked for.
 */
module Coordinator {
  import opened Wrappers
  import opened Classifier

  /** The "number" of a monitoring station, as returned by the nearest-station lookup. */
  type StationId = string

  /** A dynamically typed value of a measurement record or a snapshot. */
  datatype Value = Null | Num(n: real) | Text(s: string)

  /** The record returned by the measurement service. */
  type Measurement = map<string, Value>

  /** The dictionary a successful refresh hands to the sensors. */
  type Snapshot = map<string, Value>

  /** The Python exceptions a refresh can end in. */
  datatype Error =
    | KeyError(key: string)      // a subscript of a missing key
    | TypeError                  // `<=` between a non-number and an int
    | UpdateFailed(cause: Error) // the framework's failure wrapper

  const SnapshotKeys: set<string> := {"stationname", "lki", "lki_text", "timestamp"}

  /** The station as a snapshot value: Python's None while unresolved. */
  function StationValue(station: Option<StationId>): (v: Value)
    ensures v.Null? <==> station.None?
    ensures station.Some? ==> v == Text(station.value)
  {
    match station
    case None => Null
    case Some(id) => Text(id)
  }

  /** A complete snapshot: exactly the four keys, and a label that agrees with the index. */
  predicate IsSnapshot(snap: Snapshot)
  {
    && snap.Keys == SnapshotKeys
    && snap["lki"].Num?
    && snap["lki_text"] == Text(Classify(snap["lki"].n))
    && !snap["stationname"].Num?
  }

  /**
   * Building the snapshot from the fetched record. A missing "LKI" raises before
   * the try block and is not wrapped; a non-numeric one fails the first comparison;
   * a missing "timestamp" raises inside the try block and is wrapped.
   */
  function BuildSnapshot(station: Option<StationId>, data: Measurement): (r: Result<Snapshot, Error>)
    ensures r.Success? <==> "LKI" in data && data["LKI"].Num? && "timestamp" in data
    ensures "LKI" !in data ==> r == Failure(KeyError("LKI"))
    ensures "LKI" in data && !data["LKI"].Num? ==> r == Failure(TypeError)
    ensures "LKI" in data && data["LKI"].Num? && "timestamp" !in data ==>
              r == Failure(UpdateFailed(KeyError("timestamp")))
    ensures r.Success? ==> IsSnapshot(r.value)
    ensures r.Success? ==>
              && r.value["stationname"] == StationValue(station)
              && r.value["lki"] == data["LKI"]
              && r.value["lki_text"] == Text(Classify(data["LKI"].n))
              && r.value["timestamp"] == data["timestamp"]
  {
    if "LKI" !in data then Failure(KeyError("LKI"))
    else
      var lki := data["LKI"];
      if !lki.Num? then Failure(TypeError)
      else if "timestamp" !in data then Failure(UpdateFailed(KeyError("timestamp")))
      else Success(map[
        "stationname" := StationValue(station),
        "lki" := lki,
        "lki_text" := Text(Classify(lki.n)),
        "timestamp" := data["timestamp"]])
  }

  /** The station after one refresh whose nearest-station lookup (if made) answers `nearest`. */
  function NextStation(station: Option<StationId>, nearest: Option<StationId>): (next: Option<StationId>)
    ensures station.Some? ==> next == station
    ensures next.None? <==> station.None? && nearest.None?
    ensures next != station ==> station.None? && next == nearest
  {
    if station.None? then nearest else station
  }

  /** The station after a run of refreshes whose lookups would answer `answers`, in order. */
  function StationAfter(station: Option<StationId>, answers: seq<Option<StationId>>): (last: Option<StationId>)
    decreases |answers|
  {
    if answers == [] then station
    else StationAfter(NextStation(station, answers[0]), answers[1..])
  }

  /** How many of those refreshes call the nearest-station lookup. */
  function LookupCalls(station: Option<StationId>, answers: seq<Option<StationId>>): (n: nat)
    ensures n <= |answers|
    decreases |answers|
  {
    if answers == [] then 0
    else (if station.None? then 1 else 0) + LookupCalls(NextStation(station, answers[0]), answers[1..])
  }

  /** How many of those refreshes store a station (change the station field). */
  function Resolutions(station: Option<StationId>, answers: seq<Option<StationId>>): (n: nat)
    decreases |answers|
  {
    if answers == [] then 0
    else
      var next := NextStation(station, answers[0]);
      (if next != station then 1 else 0) + Resolutions(next, answers[1..])
  }

  /** The position of the first lookup that finds a station, or |answers| if none does. */
  function FirstFound(answers: seq<Option<StationId>>): (k: nat)
    ensures k <= |answers|
    ensures k < |answers| ==> answers[k].Some?
    ensures forall i :: 0 <= i < k ==> answers[i].None?
  {
    if answers == [] then 0
    else if answers[0].Some? then 0
    else 1 + FirstFound(answers[1..])
  }

  /** Once resolved, the station never changes and the lookup is never called again. */
  lemma {:induction false} ResolvedStationIsStable(id: StationId, answers: seq<Option<StationId>>)
    ensures StationAfter(Some(id), answers) == Some(id)
    ensures LookupCalls(Some(id), answers) == 0
    ensures Resolutions(Some(id), answers) == 0
    decreases |answers|
  {
    if answers != [] {
      ResolvedStationIsStable(id, answers[1..]);
    }
  }

  /**
   * The lookup is called on every refresh until one finds a station, and on none
   * after it; the station stored is the one that first lookup found.
   */
  lemma {:induction false} LookupUntilResolved(answers: seq<Option<StationId>>)
    ensures var k := FirstFound(answers);
      && LookupCalls(None, answers) == (if k < |answers| then k + 1 else |answers|)
      && StationAfter(None, answers) == (if k < |answers| then answers[k] else None)
    decreases |answers|
  {
    if answers != [] {
      if answers[0].Some? {
        ResolvedStationIsStable(answers[0].value, answers[1..]);
      } else {
        LookupUntilResolved(answers[1..]);
        assert FirstFound(answers) == 1 + FirstFound(answers[1..]);
      }
    }
  }

  /** Across any number of refreshes the station field is set at most once. */
  lemma {:induction false} ResolvesAtMostOnce(station: Option<StationId>, answers: seq<Option<StationId>>)
    ensures Resolutions(station, answers) <= 1
    ensures Resolutions(station, answers) == 1 <==> station.None? && StationAfter(station, answers).Some?
    decreases |answers|
  {
    if answers != [] {
      var next := NextStation(station, answers[0]);
      if next.Some? {
        ResolvedStationIsStable(next.value, answers[1..]);
      } else {
        ResolvesAtMostOnce(next, answers[1..]);
      }
    }
  }

  /** One more refresh at the end of a run: the fold advances by one step. */
  lemma {:induction false} RunExtendedByOne(station: Option<StationId>, answers: seq<Option<StationId>>, nearest: Option<StationId>)
    ensures StationAfter(station, answers + [nearest]) == NextStation(StationAfter(station, answers), nearest)
    ensures LookupCalls(station, answers + [nearest])
              == LookupCalls(station, answers) + (if StationAfter(station, answers).None? then 1 else 0)
    decreases |answers|
  {
    if answers == [] {
      assert [] + [nearest] == [nearest];
      assert [nearest][1..] == [];
    } else {
      assert (answers + [nearest])[1..] == answers[1..] + [nearest];
      RunExtendedByOne(NextStation(station, answers[0]), answers[1..], nearest);
    }
  }

  /** With a resolver that answers at once, N >= 1 refreshes call it exactly once. */
  lemma {:induction false} PromptResolverCalledOnce(id: StationId, answers: seq<Option<StationId>>)
    requires |answers| >= 1 && answers[0] == Some(id)
    ensures LookupCalls(None, answers) == 1
    ensures StationAfter(None, answers) == Some(id)
  {
    ResolvedStationIsStable(id, answers[1..]);
  }

  /**
   * An unresolved station does not fail a refresh by itself: the measurement is
   * still built, with Python's None as the station name.
   */
  lemma UnresolvedStationStillReported(data: Measurement)
    requires "LKI" in data && data["LKI"].Num? && "timestamp" in data
    ensures BuildSnapshot(None, data).Success?
    ensures BuildSnapshot(None, data).value["stationname"] == Null
  {
  }

  /** The coordinator object and its one piece of own state, the resolved station. */
  class LMNUpdateCoordinator {
    const latitude: real
    const longitude: real
    /** None until a nearest-station lookup has found a station. */
    var station: Option<StationId>
    /** The last successful snapshot, kept by the framework across failed refreshes. */
    var data: Option<Snapshot>
    /** How many times the nearest-station lookup has been called. */
    ghost var lookupCalls: nat

    ghost predicate Valid()
      reads this
    {
      data.Some? ==> IsSnapshot(data.value)
    }

    constructor (latitude: real, longitude: real)
      ensures this.latitude == latitude && this.longitude == longitude
      ensures station == None && data == None && lookupCalls == 0
      ensures Valid()
    {
      this.latitude := latitude;
      this.longitude := longitude;
      station := None;
      data := None;
      lookupCalls := 0;
    }

    /**
     * One refresh of the coordinator's data. `nearest` is what the nearest-station
     * lookup answers if it is called; `fetch` is the measurement service, called
     * with the station as it stands after the lookup (possibly None).
     */
    method UpdateData(nearest: Option<StationId>, fetch: Option<StationId> -> Measurement)
      returns (r: Result<Snapshot, Error>)
      modifies this`station, this`lookupCalls
      ensures station == NextStation(old(station), nearest)
      ensures lookupCalls == old(lookupCalls) + (if old(station).None? then 1 else 0)
      ensures r == BuildSnapshot(station, fetch(station))
    {
      if station.None? {
        lookupCalls := lookupCalls + 1;
        if nearest.Some? {
          station := Some(nearest.value);
        }
      }
      var measurement := fetch(station);
      if "LKI" !in measurement {
        return Failure(KeyError("LKI"));
      }
      var lki := measurement["LKI"];
      if !lki.Num? {
        return Failure(TypeError);
      }
      var quality := Classify(lki.n);
      if "timestamp" !in measurement {
        return Failure(UpdateFailed(KeyError("timestamp")));
      }
      r := Success(map[
        "stationname" := StationValue(station),
        "lki" := lki,
        "lki_text" := Text(quality),
        "timestamp" := measurement["timestamp"]]);
    }

    /**
     * The framework's refresh around UpdateData: a successful snapshot replaces the
     * held data, a failure leaves the last good snapshot in place.
     */
    method Refresh(nearest: Option<StationId>, fetch: Option<StationId> -> Measurement)
      returns (success: bool)
      requires Valid()
      modifies this`station, this`lookupCalls, this`data
      ensures Valid()
      ensures station == NextStation(old(station), nearest)
      ensures lookupCalls == old(lookupCalls) + (if old(station).None? then 1 else 0)
      ensures success == BuildSnapshot(station, fetch(station)).Success?
      ensures data == if success then Some(BuildSnapshot(station, fetch(station)).value) else old(data)
    {
      var r := UpdateData(nearest, fetch);
      success := r.Success?;
      if success {
        data := Some(r.value);
      }
    }
  }

  /**
   * A run of refreshes, one per answer of the nearest-station lookup, as the host's
   * scheduler makes them; the results are discarded. The object ends where the
   * fold over the answers ends, having called the lookup as often as it counts.
   */
  method RunRefreshes(c: LMNUpdateCoordinator, answers: seq<Option<StationId>>,
                      fetch: Option<StationId> -> Measurement)
    modifies c`station, c`lookupCalls
    ensures c.station == StationAfter(old(c.station), answers)
    ensures c.lookupCalls == old(c.lookupCalls) + LookupCalls(old(c.station), answers)
  {
    for i := 0 to |answers|
      invariant c.station == StationAfter(old(c.station), answers[..i])
      invariant c.lookupCalls == old(c.lookupCalls) + LookupCalls(old(c.station), answers[..i])
    {
      RunExtendedByOne(old(c.station), answers[..i], answers[i]);
      assert answers[..i + 1] == answers[..i] + [answers[i]];
      var _ := c.UpdateData(answers[i], fetch);
    }
    assert answers[..|answers|] == answers;
  }
}
