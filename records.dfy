/** The records the two capture handlers append to the location log
    (maman_tracker.py:479-534): the client's dictionary with four keys
    overwritten by the server. */
module Records {
  import opened Json

  const IpSource: string := "IP Geolocation (Approximate)"
  const GpsSource: string := "GPS Precise (Permission Granted)"
  const IpAccuracy: string := "City-Level"
  const GpsAccuracy: string := "Meter-Level"

  /** The keys the server assigns, whatever the client sent under them. */
  const ServerKeys: set<string> := {"source", "accuracy_type", "user_ip", "captured_at"}

  datatype Kind = Ip | Gps

  function SourceText(k: Kind): string {
    match k
    case Ip => IpSource
    case Gps => GpsSource
  }

  function AccuracyText(k: Kind): string {
    match k
    case Ip => IpAccuracy
    case Gps => GpsAccuracy
  }

  /** `p` occurs in `s` starting at index `i`. */
  predicate OccursAt(s: string, p: string, i: nat) {
    i + |p| <= |s| && s[i..i + |p|] == p
  }

  /** Python's `p in s` on strings: `p` occurs in `s` at some index. */
  predicate Contains(s: string, p: string) {
    exists i :: 0 <= i <= |s| - |p| && OccursAt(s, p, i)
  }

  /** A string cannot contain `p` if one of the characters of `p` is absent from it. */
  lemma MissingCharNotContained(s: string, p: string, j: nat)
    requires j < |p| && p[j] !in s
    ensures !Contains(s, p)
  {
    if i :| 0 <= i <= |s| - |p| && OccursAt(s, p, i) {
      assert false;
    }
  }

  /** The GPS source string is classified as GPS and not as IP by the
      dashboard's substring tests (maman_tracker.py:610-611, 637). */
  lemma GpsSourceClassified()
    ensures Contains(GpsSource, "GPS") && !Contains(GpsSource, "IP")
  {
    assert OccursAt(GpsSource, "GPS", 0);
    assert 'I' !in GpsSource;
    MissingCharNotContained(GpsSource, "IP", 0);
  }

  /** The IP source string is classified as IP and not as GPS. */
  lemma IpSourceClassified()
    ensures Contains(IpSource, "IP") && !Contains(IpSource, "GPS")
  {
    assert OccursAt(IpSource, "IP", 0);
    assert 'S' !in IpSource;
    MissingCharNotContained(IpSource, "GPS", 2);
  }

  /** Each kind's source string contains its own marker and not the other's. */
  lemma Classify(k: Kind)
    ensures Contains(SourceText(k), "GPS") <==> k == Gps
    ensures Contains(SourceText(k), "IP") <==> k == Ip
  {
    GpsSourceClassified();
    IpSourceClassified();
  }

  /** The record a handler appends: the client's dictionary with `source`,
      `accuracy_type`, `user_ip` and `captured_at` assigned by the server
      (maman_tracker.py:481-485, 509-513). */
  function Stamp(data: Record, kind: Kind, remoteAddr: string, now: string): (r: Record)
    ensures r.Keys == data.Keys + ServerKeys
    ensures r["source"] == JString(SourceText(kind))
    ensures r["accuracy_type"] == JString(AccuracyText(kind))
    ensures r["user_ip"] == JString(remoteAddr)
    ensures r["captured_at"] == JString(now)
    ensures forall k :: k in data && k !in ServerKeys ==> r[k] == data[k]
  {
    data["source" := JString(SourceText(kind))]
        ["accuracy_type" := JString(AccuracyText(kind))]
        ["user_ip" := JString(remoteAddr)]
        ["captured_at" := JString(now)]
  }

  /** What every record in the log satisfies: it carries one of the two
      server source strings, the matching accuracy type, and the server's
      address and timestamp strings. */
  predicate Stamped(r: Record) {
    && "source" in r && "accuracy_type" in r && "user_ip" in r && "captured_at" in r
    && (|| (r["source"] == JString(IpSource) && r["accuracy_type"] == JString(IpAccuracy))
        || (r["source"] == JString(GpsSource) && r["accuracy_type"] == JString(GpsAccuracy)))
    && r["user_ip"].JString?
    && r["captured_at"].JString?
  }

  lemma StampIsStamped(data: Record, kind: Kind, remoteAddr: string, now: string)
    ensures Stamped(Stamp(data, kind, remoteAddr, now))
  {
  }
}
