/** The GeoClue2 Location object built from one merged fix
    (geoclue2_location.cpp, set_from_geoclue1_position). */
module Location {
  import opened Values
  import Decimal
  import FixMerger

  /** A CLOCK_REALTIME reading, the fallback when the fix carries no usable
      timestamp. */
  datatype Clock = Clock(sec: int, nsec: Nanoseconds)

  /** tv_nsec of a timespec: below one second. */
  type Nanoseconds = n: nat | n < 1_000_000_000

  /** The `(tt)` Timestamp property: seconds and microseconds as guint64. */
  datatype Timestamp = Timestamp(sec: nat, usec: nat)

  /** The read-only properties of an org.freedesktop.GeoClue2.Location. There
      is no climb: the interface has no such property. */
  datatype Properties = Properties(
    latitude: Double,
    longitude: Double,
    accuracy: Double,
    altitude: Double,
    speed: Double,
    heading: Double,
    description: string,
    timestamp: Timestamp)

  /** A location object: its path, its properties once set, and whether it
      has been exported on the bus. */
  datatype LocationObject = LocationObject(path: string, properties: Option<Properties>, exported: bool)

  /** A freshly constructed location: no properties, not yet exported, so
      the first SetFromPosition is the one that exports it. */
  function NewLocation(path: string): (loc: LocationObject)
    ensures loc.path == path && loc.properties.None? && !loc.exported
    ensures ExportedOnlyWhenSet(loc)
  {
    LocationObject(path, None, false)
  }

  /** Properties are set before the object is ever exported. */
  predicate ExportedOnlyWhenSet(loc: LocationObject) {
    loc.exported ==> loc.properties.Some?
  }

  /** The signed seconds and microseconds the Timestamp property is built
      from: the parsed decimal text with zero microseconds, or the clock when
      the text is empty or does not parse. */
  function SignedTimestamp(text: string, now: Clock): (int, int) {
    if text != [] then
      match Decimal.ParseLongLong(text)
      case Some(sec) => (sec, 0)
      case None => (now.sec, now.nsec / 1000)
    else (now.sec, now.nsec / 1000)
  }

  /** The Timestamp property: both halves cast to guint64. */
  function TimestampOf(text: string, now: Clock): (t: Timestamp)
    ensures t.sec < Uint64Modulus && t.usec < 1_000_000
  {
    var (sec, usec) := SignedTimestamp(text, now);
    Timestamp(ToUint64(sec), ToUint64(usec))
  }

  /** set_from_geoclue1_position: copy the fix into the properties, then
      export the object if it was not exported yet. The second result tells
      whether this call exported it. */
  function SetFromPosition(loc: LocationObject, pos: FixMerger.Position, now: Clock): (r: (LocationObject, bool))
    ensures r.0.path == loc.path
    ensures r.0.exported && ExportedOnlyWhenSet(r.0)
    ensures r.1 <==> !loc.exported
    ensures var p := r.0.properties.value;
      && p.latitude == pos.latitude && p.longitude == pos.longitude
      && p.accuracy == pos.accuracy && p.altitude == pos.altitude
      && p.speed == pos.speed && p.heading == pos.heading
      && p.description == ""
  {
    var props := Properties(
      pos.latitude, pos.longitude, pos.accuracy, pos.altitude,
      pos.speed, pos.heading, "", TimestampOf(pos.timestamp, now));
    (loc.(properties := Some(props), exported := true), !loc.exported)
  }

  /** The timestamp round trip: the integer the legacy signal carried,
      written by `to_string` and read back by `stoll`, reaches the Timestamp
      property unchanged with zero microseconds when it is not negative, and
      modulo 2^64 when it is. The clock is never consulted. */
  lemma TimestampRoundTrip(t: Int32, now: Clock, now': Clock)
    ensures TimestampOf(Decimal.IntToString(t as int), now) == TimestampOf(Decimal.IntToString(t as int), now')
    ensures t >= 0 ==> TimestampOf(Decimal.IntToString(t as int), now) == Timestamp(t as int, 0)
    ensures t < 0 ==> TimestampOf(Decimal.IntToString(t as int), now) == Timestamp(t as int + Uint64Modulus, 0)
  {
    Decimal.ParseToString(t as int);
  }

  /** A fix without a timestamp takes the clock reading instead. */
  lemma EmptyTimestampUsesClock(now: Clock)
    requires 0 <= now.sec <= Int64Max
    ensures TimestampOf("", now) == Timestamp(now.sec, now.nsec / 1000)
  {
  }

  /** Setting the properties of a location twice exports it once: the second
      call only overwrites the properties. */
  lemma ExportedAtMostOnce(path: string, p1: FixMerger.Position, p2: FixMerger.Position, now1: Clock, now2: Clock)
    ensures var (first, exported1) := SetFromPosition(NewLocation(path), p1, now1);
      var (second, exported2) := SetFromPosition(first, p2, now2);
      exported1 && !exported2 && second.exported
  {
  }

  /** Every fix the merger produces maps to a location whose Timestamp is the
      signal's integer timestamp (modulo 2^64) and whose position fields are
      the signal's. */
  lemma MergedFixLocation(lv: FixMerger.LastVelocity, s: FixMerger.PositionSample, m: FixMerger.Marker,
                          path: string, now: Clock)
    ensures var fix := FixMerger.OnPosition(lv, s, m).0;
      var p := SetFromPosition(NewLocation(path), fix, now).0.properties.value;
      && p.latitude == s.latitude && p.longitude == s.longitude
      && p.altitude == s.altitude && p.accuracy == s.accuracyH
      && p.timestamp == Timestamp(ToUint64(s.timestamp as int), 0)
  {
    var fix := FixMerger.OnPosition(lv, s, m).0;
    FixMerger.FixTimestampReadsBack(lv, s, m);
    assert fix.timestamp != [];
  }
}
