/** The `/logs` dashboard (maman_tracker.py:551-670): statistics and a listing
    recomputed from the whole location log on every request. The HTML text is
    not modelled; each capture becomes a structured entry holding what the page
    shows for it. */
module Dashboard {
  import opened Json
  import opened Records

  /** What `view_logs` subscripts in every record: `loc['source']` (a string,
      since `'GPS' in loc['source']` is a substring test) and `loc['captured_at']`. */
  predicate Displayable(loc: Record) {
    "source" in loc && loc["source"].JString? && "captured_at" in loc
  }

  predicate AllDisplayable(log: seq<Record>) {
    forall i :: 0 <= i < |log| ==> Displayable(log[i])
  }

  /** Every record carries the server's stamp; the handlers keep the log so. */
  ghost predicate StampedLog(log: seq<Record>) {
    forall i :: 0 <= i < |log| ==> Stamped(log[i])
  }

  lemma StampedLogIsDisplayable(log: seq<Record>)
    requires StampedLog(log)
    ensures AllDisplayable(log)
  {
    forall i | 0 <= i < |log| ensures Displayable(log[i]) {
      assert Stamped(log[i]);
    }
  }

  function SourceOf(loc: Record): string
    requires Displayable(loc)
  {
    loc["source"].s
  }

  /** `'GPS' in loc['source']` */
  predicate IsGps(loc: Record)
    requires Displayable(loc)
  {
    Contains(SourceOf(loc), "GPS")
  }

  /** `sum(1 for loc in locations if needle in loc['source'])` */
  function CountWith(log: seq<Record>, needle: string): (n: nat)
    requires AllDisplayable(log)
    ensures n <= |log|
    ensures n == 0 <==> forall i :: 0 <= i < |log| ==> !Contains(SourceOf(log[i]), needle)
    ensures n == |log| <==> forall i :: 0 <= i < |log| ==> Contains(SourceOf(log[i]), needle)
  {
    if log == [] then 0
    else
      var rest := CountWith(log[1..], needle);
      assert forall i :: 1 <= i < |log| ==> log[i] == log[1..][i - 1];
      (if Contains(SourceOf(log[0]), needle) then 1 else 0) + rest
  }

  /** A capture appended at the end adds one to exactly the counts whose
      substring its source contains. */
  lemma {:induction false} CountAppend(log: seq<Record>, loc: Record, needle: string)
    requires AllDisplayable(log) && Displayable(loc)
    ensures AllDisplayable(log + [loc])
    ensures CountWith(log + [loc], needle)
         == CountWith(log, needle) + (if Contains(SourceOf(loc), needle) then 1 else 0)
  {
    var grown := log + [loc];
    assert forall i :: 0 <= i < |log| ==> grown[i] == log[i];
    if log != [] {
      assert grown[1..] == log[1..] + [loc];
      CountAppend(log[1..], loc, needle);
    }
  }

  /** Multiplying by a positive count keeps a strict order. */
  lemma MulStrictlyMonotonic(t: nat, x: int, y: int)
    requires t > 0 && x < y
    ensures t * x < t * y
  {
    var k := y - x;
    assert t * y == t * x + t * k;
    assert t * k >= t by {
      assert t * k == t * (k - 1) + t;
    }
  }

  /** The integer percentage of `gps` out of `total` captures lies in
      0..100 and reaches 100 exactly when every capture is counted. */
  lemma PercentBounds(gps: nat, total: nat)
    requires 0 < total && gps <= total
    ensures gps * 100 / total <= 100
    ensures gps * 100 / total == 100 <==> gps == total
  {
    var a := gps * 100;
    var q, r := a / total, a % total;
    assert a == total * q + r && 0 <= r < total;
    if q > 100 {
      MulStrictlyMonotonic(total, 100, q);
      assert false;
    }
    if gps < total && q == 100 {
      assert false;
    }
    if gps == total && q < 100 {
      MulStrictlyMonotonic(total, q, 100);
      assert false;
    }
  }

  /** The displayed success rate, `int(gps_count/total*100) if total > 0 else 0`,
      computed here in exact arithmetic (see README for the floating-point
      difference); the contract states only what also holds of the source. */
  function SuccessRate(gps: nat, total: nat): (rate: nat)
    requires gps <= total
    ensures rate <= 100
    ensures total == 0 || gps == 0 ==> rate == 0
    ensures total > 0 ==> (rate == 100 <==> gps == total)
  {
    if total > 0 then
      PercentBounds(gps, total);
      gps * 100 / total
    else 0
  }

  datatype Summary = Summary(total: nat, gpsCount: nat, ipCount: nat, successRate: nat)

  /** The statistics block (maman_tracker.py:609-611, 630). */
  function Summarize(log: seq<Record>): (s: Summary)
    requires AllDisplayable(log)
    ensures s.total == |log|
    ensures s.gpsCount <= s.total && s.ipCount <= s.total
  {
    var gps := CountWith(log, "GPS");
    Summary(|log|, gps, CountWith(log, "IP"), SuccessRate(gps, |log|))
  }

  /** Every record is counted exactly once: as GPS or as IP, never both. */
  lemma {:induction false} TotalIsSum(log: seq<Record>)
    requires StampedLog(log)
    ensures AllDisplayable(log)
    ensures Summarize(log).total == Summarize(log).gpsCount + Summarize(log).ipCount
  {
    StampedLogIsDisplayable(log);
    if log != [] {
      var init := log[..|log| - 1];
      var last := log[|log| - 1];
      assert log == init + [last];
      assert StampedLog(init) by {
        forall i | 0 <= i < |init| ensures Stamped(init[i]) { assert init[i] == log[i]; }
      }
      TotalIsSum(init);
      CountAppend(init, last, "GPS");
      CountAppend(init, last, "IP");
      assert Stamped(last);
      Classify(Ip);
      Classify(Gps);
    }
  }

  /** The success rate reaches its endpoints exactly: 100 when every capture
      is GPS, 0 when none is, and 0 on an empty log. */
  lemma RateEndpoints(log: seq<Record>)
    requires AllDisplayable(log)
    ensures Summarize(log).successRate <= 100
    ensures |log| == 0 ==> Summarize(log).successRate == 0
    ensures |log| > 0 ==> (Summarize(log).successRate == 100 <==> forall i :: 0 <= i < |log| ==> IsGps(log[i]))
    ensures (forall i :: 0 <= i < |log| ==> !IsGps(log[i])) ==> Summarize(log).successRate == 0
  {
  }

  /** What a capture handler's append does to the statistics. */
  lemma SummaryAfterCapture(log: seq<Record>, data: Record, kind: Kind, remoteAddr: string, now: string)
    requires StampedLog(log)
    ensures AllDisplayable(log) && AllDisplayable(log + [Stamp(data, kind, remoteAddr, now)])
    ensures var before, after := Summarize(log), Summarize(log + [Stamp(data, kind, remoteAddr, now)]);
      && after.total == before.total + 1
      && after.gpsCount == before.gpsCount + (if kind == Gps then 1 else 0)
      && after.ipCount == before.ipCount + (if kind == Ip then 1 else 0)
  {
    StampedLogIsDisplayable(log);
    var loc := Stamp(data, kind, remoteAddr, now);
    StampIsStamped(data, kind, remoteAddr, now);
    CountAppend(log, loc, "GPS");
    CountAppend(log, loc, "IP");
    Classify(kind);
  }

  /** The fixed caveat every IP entry shows in place of a numeric accuracy. */
  const CityLevelCaveat: string := "City-level (~10-50km)"

  datatype Details =
    | GpsDetails(accuracy: Shown, altitude: Shown, speed: Shown)
    | IpDetails(city: Shown, region: Shown, caveat: string, isp: Shown)

  /** One capture as the dashboard shows it: the `Capture #i` number, the
      badge (GPS or IP) and its source text, the coordinates line, the
      type-specific lines, the IP and time lines and the map link's query. */
  datatype Entry = Entry(
    number: nat,
    isGps: bool,
    source: string,
    latitude: Shown,
    longitude: Shown,
    details: Details,
    ip: Shown,
    capturedAt: Json,
    mapLatitude: Shown,
    mapLongitude: Shown)

  /** The body of the loop at maman_tracker.py:636-664 for capture `#i`. */
  function RenderEntry(i: nat, loc: Record): Entry
    requires Displayable(loc)
  {
    var isGps := IsGps(loc);
    Entry(
      i, isGps, SourceOf(loc),
      Get(loc, "latitude", "N/A"), Get(loc, "longitude", "N/A"),
      if isGps then GpsDetails(Get(loc, "accuracy", "N/A"), Get(loc, "altitude", "N/A"), Get(loc, "speed", "N/A"))
      else IpDetails(Get(loc, "city", "Unknown"), Get(loc, "region", "Unknown"), CityLevelCaveat, Get(loc, "isp", "Unknown")),
      if "user_ip" in loc then Stored(loc["user_ip"]) else Get(loc, "ip", "Unknown"),
      loc["captured_at"],
      Get(loc, "latitude", "0"), Get(loc, "longitude", "0"))
  }

  /** What the dashboard shows for a record a handler appended: its kind
      decides the badge and the type-specific lines, the server's address and
      timestamp are shown, and every other line shows the client's value or
      the default. */
  lemma EntryOfCapture(i: nat, data: Record, kind: Kind, remoteAddr: string, now: string)
    ensures Displayable(Stamp(data, kind, remoteAddr, now))
    ensures var e := RenderEntry(i, Stamp(data, kind, remoteAddr, now));
      && e.number == i
      && e.isGps == (kind == Gps)
      && e.source == SourceText(kind)
      && e.ip == Stored(JString(remoteAddr))
      && e.capturedAt == JString(now)
      && e.latitude == Get(data, "latitude", "N/A") && e.longitude == Get(data, "longitude", "N/A")
      && e.details == (if kind == Gps
                       then GpsDetails(Get(data, "accuracy", "N/A"), Get(data, "altitude", "N/A"), Get(data, "speed", "N/A"))
                       else IpDetails(Get(data, "city", "Unknown"), Get(data, "region", "Unknown"), CityLevelCaveat, Get(data, "isp", "Unknown")))
  {
    var loc := Stamp(data, kind, remoteAddr, now);
    Classify(kind);
    assert IsGps(loc) == (kind == Gps);
    ClientKeyShown(data, kind, remoteAddr, now, "latitude");
    ClientKeyShown(data, kind, remoteAddr, now, "longitude");
    var e := RenderEntry(i, loc);
    if kind == Gps {
      ClientKeyShown(data, kind, remoteAddr, now, "accuracy");
      ClientKeyShown(data, kind, remoteAddr, now, "altitude");
      ClientKeyShown(data, kind, remoteAddr, now, "speed");
      assert e.details == GpsDetails(Get(data, "accuracy", "N/A"), Get(data, "altitude", "N/A"), Get(data, "speed", "N/A"));
    } else {
      ClientKeyShown(data, kind, remoteAddr, now, "city");
      ClientKeyShown(data, kind, remoteAddr, now, "region");
      ClientKeyShown(data, kind, remoteAddr, now, "isp");
      assert e.details == IpDetails(Get(data, "city", "Unknown"), Get(data, "region", "Unknown"), CityLevelCaveat, Get(data, "isp", "Unknown"));
    }
  }

  /** A key the server does not assign reads back as the client sent it. */
  lemma ClientKeyShown(data: Record, kind: Kind, remoteAddr: string, now: string, key: string)
    requires key !in ServerKeys
    ensures forall default :: Get(Stamp(data, kind, remoteAddr, now), key, default) == Get(data, key, default)
  {
  }

  /** Python's `reversed(locations)`. */
  function Reversed<T>(s: seq<T>): (r: seq<T>)
    ensures |r| == |s|
    ensures forall k :: 0 <= k < |s| ==> r[k] == s[|s| - 1 - k]
  {
    if s == [] then [] else Reversed(s[1..]) + [s[0]]
  }

  /** `enumerate(records, start)` with each record rendered. */
  function Enumerate(records: seq<Record>, start: nat): (entries: seq<Entry>)
    requires AllDisplayable(records)
    ensures |entries| == |records|
  {
    if records == [] then []
    else
      assert AllDisplayable(records[1..]) by {
        forall i | 0 <= i < |records| - 1 ensures Displayable(records[1..][i]) { assert records[1..][i] == records[i + 1]; }
      }
      [RenderEntry(start, records[0])] + Enumerate(records[1..], start + 1)
  }

  lemma {:induction false} EnumerateAt(records: seq<Record>, start: nat, k: nat)
    requires AllDisplayable(records) && k < |records|
    ensures Enumerate(records, start)[k] == RenderEntry(start + k, records[k])
  {
    if k > 0 {
      assert AllDisplayable(records[1..]) by {
        forall i | 0 <= i < |records| - 1 ensures Displayable(records[1..][i]) { assert records[1..][i] == records[i + 1]; }
      }
      EnumerateAt(records[1..], start + 1, k - 1);
    }
  }

  lemma ReversedDisplayable(log: seq<Record>)
    requires AllDisplayable(log)
    ensures AllDisplayable(Reversed(log))
  {
    var r := Reversed(log);
    forall k | 0 <= k < |r| ensures Displayable(r[k]) { assert r[k] == log[|log| - 1 - k]; }
  }

  /** `for i, loc in enumerate(reversed(locations), 1)` (maman_tracker.py:636). */
  function Listing(log: seq<Record>): seq<Entry>
    requires AllDisplayable(log)
  {
    ReversedDisplayable(log);
    Enumerate(Reversed(log), 1)
  }

  /** Entry `#i` of the listing is `locations[total - i]`: the listing has one
      entry per capture, most recent first, numbered from 1. */
  lemma ListingAt(log: seq<Record>, i: nat)
    requires AllDisplayable(log) && 1 <= i <= |log|
    ensures |Listing(log)| == |log|
    ensures Listing(log)[i - 1] == RenderEntry(i, log[|log| - i])
  {
    ReversedDisplayable(log);
    EnumerateAt(Reversed(log), 1, i - 1);
  }

  /** The listing is the only sequence with one entry per capture in which
      position `k` shows capture `#k+1`, i.e. `locations[total - 1 - k]`. */
  lemma ListingCharacterized(log: seq<Record>, entries: seq<Entry>)
    requires AllDisplayable(log) && |entries| == |log|
    requires forall k :: 0 <= k < |log| ==> entries[k] == RenderEntry(k + 1, log[|log| - 1 - k])
    ensures entries == Listing(log)
  {
    var listing := Listing(log);
    if log != [] {
      ListingAt(log, 1);
    }
    assert |listing| == |log|;
    forall k | 0 <= k < |log| ensures entries[k] == listing[k] {
      ListingAt(log, k + 1);
    }
  }

  /** After an append the new capture is entry `#1`, and every earlier entry
      moves down one place with its number increased by one. */
  lemma ListingAfterAppend(log: seq<Record>, loc: Record)
    requires AllDisplayable(log) && Displayable(loc)
    ensures AllDisplayable(log + [loc])
    ensures |Listing(log + [loc])| == |Listing(log)| + 1
    ensures Listing(log + [loc])[0] == RenderEntry(1, loc)
    ensures forall i :: 0 <= i < |log| ==>
      Listing(log + [loc])[i + 1] == Listing(log)[i].(number := i + 2)
  {
    var grown := log + [loc];
    assert AllDisplayable(grown) by {
      forall i | 0 <= i < |grown| ensures Displayable(grown[i]) {
        if i < |log| { assert grown[i] == log[i]; }
      }
    }
    ListingAt(grown, 1);
    if log != [] { ListingAt(log, 1); }
    forall i | 0 <= i < |log| ensures Listing(grown)[i + 1] == Listing(log)[i].(number := i + 2) {
      var older := log[|log| - (i + 1)];
      assert grown[|grown| - (i + 2)] == older;
      ListingAt(grown, i + 2);
      ListingAt(log, i + 1);
      Renumbered(older, i + 1, i + 2);
    }
  }

  /** An entry's number is the only thing its position changes. */
  lemma Renumbered(loc: Record, i: nat, j: nat)
    requires Displayable(loc)
    ensures RenderEntry(j, loc) == RenderEntry(i, loc).(number := j)
  {
  }

  /** The whole page: statistics, entries, and the notice shown on an empty log. */
  datatype Page = Page(summary: Summary, entries: seq<Entry>, emptyNotice: bool)

  /** `view_logs` (maman_tracker.py:609-667) as a value. */
  function View(log: seq<Record>): (p: Page)
    requires AllDisplayable(log)
    ensures p.emptyNotice <==> p.entries == []
    ensures p.emptyNotice <==> p.summary.total == 0
  {
    Page(Summarize(log), Listing(log), |log| == 0)
  }

  /** One IP capture followed by one GPS capture: two captures, one of each
      kind, a 50% success rate, and the GPS capture listed first as `#1`. */
  lemma IpThenGpsPage(ipBody: Record, gpsBody: Record, addr: string, t1: string, t2: string)
    ensures AllDisplayable([Stamp(ipBody, Ip, addr, t1), Stamp(gpsBody, Gps, addr, t2)])
    ensures var page := View([Stamp(ipBody, Ip, addr, t1), Stamp(gpsBody, Gps, addr, t2)]);
      && page.summary == Summary(2, 1, 1, 50)
      && page.entries[0].isGps && page.entries[0].number == 1
      && !page.emptyNotice
  {
    var ip, gps := Stamp(ipBody, Ip, addr, t1), Stamp(gpsBody, Gps, addr, t2);
    StampIsStamped(ipBody, Ip, addr, t1);
    StampIsStamped(gpsBody, Gps, addr, t2);
    assert StampedLog([]);
    SummaryAfterCapture([], ipBody, Ip, addr, t1);
    assert [ip] + [gps] == [ip, gps];
    assert StampedLog([ip]);
    SummaryAfterCapture([ip], gpsBody, Gps, addr, t2);
    ListingAt([ip, gps], 1);
    EntryOfCapture(1, gpsBody, Gps, addr, t2);
    assert SuccessRate(1, 2) == 50;
  }
}
