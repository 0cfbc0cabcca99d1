/** The server side of the tracker (maman_tracker.py:13, 479-549, 551-670):
    the module-level `locations` list, the three capture handlers, the
    write-through to `locations.json`, and the dashboard request. The Flask
    request is reduced to its decoded JSON body, `request.remote_addr` and the
    formatted `datetime.now()` are parameters, and `jsonify(...)` becomes a
    `Reply`. */
module Tracker {
  import opened Json
  import opened Records
  import opened Dashboard

  /** Why a handler raised instead of replying. */
  datatype Failure =
    | NotAnObject          // `data[...] = ...` on a body that is not a JSON object
    | MissingKey(key: string)  // `data['latitude']` / `data['longitude']` absent

  /** `jsonify({'status': status})`, or the server error of an uncaught exception. */
  datatype Reply = Ack(status: string) | ServerError(failure: Failure)

  class LocationLog {
    /** `locations`, in order of arrival. */
    var locations: seq<Record>
    /** Every `save_to_file()` of this process, oldest first: each entry is
        the list `json.dump` wrote to `locations.json`, whose content is the
        last entry. */
    ghost var snapshots: seq<seq<Record>>

    /** Every record carries the server's stamp, and every file written so
        far holds a prefix of the current log (the log is append-only). */
    ghost predicate Valid()
      reads this
    {
      && StampedLog(locations)
      && forall k :: 0 <= k < |snapshots| ==> snapshots[k] <= locations
    }

    /** `locations = []` at start-up (maman_tracker.py:13); nothing written yet. */
    constructor ()
      ensures Valid()
      ensures locations == [] && snapshots == []
    {
      locations := [];
      snapshots := [];
    }

    /** `save_to_file()` (maman_tracker.py:547-549): the file is overwritten
        with the whole current log. */
    method SaveToFile()
      requires Valid()
      modifies this`snapshots
      ensures Valid()
      ensures snapshots == old(snapshots) + [locations]
    {
      snapshots := snapshots + [locations];
    }

    /** `capture_ip` (maman_tracker.py:479-505). */
    method CaptureIp(body: Json, remoteAddr: string, now: string) returns (reply: Reply)
      requires Valid()
      modifies this
      ensures Valid()
      ensures body.JObject? ==>
        && locations == old(locations) + [Stamp(body.fields, Ip, remoteAddr, now)]
        && snapshots == old(snapshots) + [locations]
        && reply == Ack("success")
      ensures !body.JObject? ==>
        && locations == old(locations)
        && snapshots == old(snapshots)
        && reply == ServerError(NotAnObject)
    {
      if !body.JObject? {
        return ServerError(NotAnObject);
      }
      var data := body.fields;
      data := data["source" := JString(IpSource)];
      data := data["accuracy_type" := JString(IpAccuracy)];
      data := data["user_ip" := JString(remoteAddr)];
      data := data["captured_at" := JString(now)];
      StampIsStamped(body.fields, Ip, remoteAddr, now);
      locations := locations + [data];
      SaveToFile();
      reply := Ack("success");
    }

    /** `capture_gps` (maman_tracker.py:507-534). The record is appended
        before `data['latitude']` and `data['longitude']` are read, so a body
        without them is logged and the handler then fails before the file is
        written. */
    method CaptureGps(body: Json, remoteAddr: string, now: string) returns (reply: Reply)
      requires Valid()
      modifies this
      ensures Valid()
      ensures body.JObject? ==>
        locations == old(locations) + [Stamp(body.fields, Gps, remoteAddr, now)]
      ensures body.JObject? && "latitude" in body.fields && "longitude" in body.fields ==>
        && snapshots == old(snapshots) + [locations]
        && reply == Ack("success")
      ensures body.JObject? && "latitude" !in body.fields ==>
        && snapshots == old(snapshots)
        && reply == ServerError(MissingKey("latitude"))
      ensures body.JObject? && "latitude" in body.fields && "longitude" !in body.fields ==>
        && snapshots == old(snapshots)
        && reply == ServerError(MissingKey("longitude"))
      ensures !body.JObject? ==>
        && locations == old(locations)
        && snapshots == old(snapshots)
        && reply == ServerError(NotAnObject)
    {
      if !body.JObject? {
        return ServerError(NotAnObject);
      }
      var data := body.fields;
      data := data["source" := JString(GpsSource)];
      data := data["accuracy_type" := JString(GpsAccuracy)];
      data := data["user_ip" := JString(remoteAddr)];
      data := data["captured_at" := JString(now)];
      StampIsStamped(body.fields, Gps, remoteAddr, now);
      locations := locations + [data];
      if "latitude" !in data {
        return ServerError(MissingKey("latitude"));
      }
      if "longitude" !in data {
        return ServerError(MissingKey("longitude"));
      }
      SaveToFile();
      reply := Ack("success");
    }

    /** `capture_denied` (maman_tracker.py:536-545): acknowledges without
        touching the log or the file (the method has no `modifies` clause). */
    method CaptureDenied(body: Json) returns (reply: Reply)
      ensures reply == Ack("logged")
    {
      reply := Ack("logged");
    }

    /** `view_logs` (maman_tracker.py:609-667): the statistics, then the loop
        over `enumerate(reversed(locations), 1)`, then the empty-log notice. */
    method ViewLogs() returns (page: Page)
      requires Valid()
      ensures AllDisplayable(locations)
      ensures page == View(locations)
      ensures |page.entries| == |locations|
      ensures forall k :: 0 <= k < |locations| ==> page.entries[k] == RenderEntry(k + 1, locations[|locations| - 1 - k])
    {
      var log := locations;
      StampedLogIsDisplayable(log);
      var total := |log|;
      var summary := Summarize(log);
      var entries: seq<Entry> := [];
      var i := 1;
      while i <= total
        invariant 1 <= i <= total + 1
        invariant |entries| == i - 1
        invariant forall k :: 0 <= k < |entries| ==> entries[k] == RenderEntry(k + 1, log[total - 1 - k])
      {
        entries := entries + [RenderEntry(i, log[total - i])];
        i := i + 1;
      }
      ListingCharacterized(log, entries);
      page := Page(summary, entries, total == 0);
    }
  }

  /** The end-to-end run of one IP capture and one GPS capture through the
      handlers and the dashboard. */
  method IpThenGpsScenario(ipBody: Record, gpsBody: Record, addr: string, t1: string, t2: string)
    requires "latitude" in gpsBody && "longitude" in gpsBody
  {
    var tracker := new LocationLog();
    var r1 := tracker.CaptureIp(JObject(ipBody), addr, t1);
    var r2 := tracker.CaptureGps(JObject(gpsBody), addr, t2);
    assert tracker.locations == [Stamp(ipBody, Ip, addr, t1), Stamp(gpsBody, Gps, addr, t2)];
    var page := tracker.ViewLogs();
    IpThenGpsPage(ipBody, gpsBody, addr, t1, t2);
    assert r1 == Ack("success") && r2 == Ack("success");
    assert page.summary == Summary(2, 1, 1, 50);
    assert page.entries[0].isGps;
    assert |tracker.snapshots| == 2 && tracker.snapshots[1] == tracker.locations;
  }

  /** A GPS body without coordinates is logged, but the file is not written. */
  method GpsWithoutCoordinatesScenario()
  {
    var tracker := new LocationLog();
    var reply := tracker.CaptureGps(JObject(map["accuracy" := JNumber("8")]), "203.0.113.7", "2024-05-01 12:00:00");
    assert reply == ServerError(MissingKey("latitude"));
    assert |tracker.locations| == 1 && tracker.snapshots == [];
  }

  /** Only a denial: nothing is logged and the dashboard shows the notice. */
  method DeniedOnlyScenario()
  {
    var tracker := new LocationLog();
    var reply := tracker.CaptureDenied(JObject(map["error" := JString("User denied Geolocation"), "code" := JNumber("1")]));
    var page := tracker.ViewLogs();
    assert reply == Ack("logged");
    assert page.summary.total == 0 && page.summary.gpsCount == 0 && page.emptyNotice;
  }
}
