/** The fix merger of the legacy backend: velocity samples are stored and
    folded into the position samples that follow them while a freshness
    marker lasts (geoclue1_backend.cpp, on_position_changed and
    on_velocity_changed). */
module FixMerger {
  import opened Values
  import Decimal

  /** VELOCITY_FRESH_STEPS: the number of position updates a velocity sample
      is meant to stay usable for. */
  const VelocityFreshSteps: nat := 2

  /** GeoClue1Position: one merged fix as handed to the position callback. */
  datatype Position = Position(
    latitude: Double,
    longitude: Double,
    altitude: Double,
    accuracy: Double,
    speed: Double,
    heading: Double,
    climb: Double,
    timestamp: string)

  /** A default-constructed GeoClue1Position. */
  const DefaultPosition: Position :=
    Position(Num(0.0), Num(0.0), Num(0.0), Num(0.0), Unknown, Unknown, Unknown, "")

  /** GeoClue1Velocity: the raw sample as handed to the velocity callback. */
  datatype Velocity = Velocity(speed: Double, direction: Double, climb: Double, timestamp: string)

  /** The arguments of the legacy PositionChanged signal, `(iiddd(idd))`. */
  datatype PositionSample = PositionSample(
    fields: Int32,
    timestamp: Int32,
    latitude: Double,
    longitude: Double,
    altitude: Double,
    accuracyLevel: Int32,
    accuracyH: Double,
    accuracyV: Double)

  /** The arguments of the legacy VelocityChanged signal, `(iiddd)`. */
  datatype VelocitySample = VelocitySample(
    fields: Int32,
    timestamp: Int32,
    speed: Double,
    direction: Double,
    climb: Double)

  /** How the freshness marker stores a number. The daemon declares it `bool`,
      so storing VELOCITY_FRESH_STEPS saturates to `true` (read back as 1);
      a counter would keep the number as written. */
  datatype Marker = BoolMarker | CounterMarker

  /** The marker type the daemon actually uses. */
  const AsWritten: Marker := BoolMarker

  /** The value the marker reads back as after `is_fresh = n`. */
  function Store(m: Marker, n: nat): (r: nat)
    ensures m.CounterMarker? ==> r == n
    ensures m.BoolMarker? ==> r <= 1 && (r == 0 <==> n == 0)
  {
    match m
    case BoolMarker => if n != 0 then 1 else 0
    case CounterMarker => n
  }

  /** The value the marker reads back as after `is_fresh -= 1` on a marker
      reading `n > 0`. */
  function Decrement(m: Marker, n: nat): (r: nat)
    requires n > 0
    ensures r < n
    ensures n <= 1 || m.CounterMarker? ==> r == n - 1
  {
    Store(m, n - 1)
  }

  /** The number of position fixes one velocity sample reaches. */
  function Window(m: Marker): nat {
    Store(m, VelocityFreshSteps)
  }

  /** m_last_velocity: the stored velocity and its freshness marker. */
  datatype LastVelocity = LastVelocity(freshness: nat, speed: Double, direction: Double, climb: Double)

  /** The stored velocity before any sample: not fresh, every value unknown. */
  const InitialLastVelocity: LastVelocity := LastVelocity(0, Unknown, Unknown, Unknown)

  /** The stored values carry no NaN. */
  predicate Sanitized(lv: LastVelocity) {
    !lv.speed.NaN? && !lv.direction.NaN? && !lv.climb.NaN?
  }

  /** The stored velocity a VelocityChanged sample leaves behind. */
  function Stored(v: VelocitySample, m: Marker): LastVelocity {
    LastVelocity(Store(m, VelocityFreshSteps), Sanitize(v.speed), Sanitize(v.direction), Sanitize(v.climb))
  }

  /** on_velocity_changed: store the sanitised sample, make it fresh, and hand
      the raw, unsanitised sample to the velocity callback. */
  function OnVelocity(lv: LastVelocity, v: VelocitySample, m: Marker): (r: (LastVelocity, Velocity))
    ensures r.0.freshness == Window(m) && r.0.freshness > 0
    ensures Sanitized(r.0)
    ensures !v.speed.NaN? ==> r.0.speed == v.speed
    ensures v.speed.NaN? ==> r.0.speed == Unknown
    ensures !v.direction.NaN? ==> r.0.direction == v.direction
    ensures v.direction.NaN? ==> r.0.direction == Unknown
    ensures !v.climb.NaN? ==> r.0.climb == v.climb
    ensures v.climb.NaN? ==> r.0.climb == Unknown
    ensures r.1.speed == v.speed && r.1.direction == v.direction && r.1.climb == v.climb
    ensures Decimal.ParseLongLong(r.1.timestamp) == Some(v.timestamp as int)
  {
    Decimal.ParseToString(v.timestamp as int);
    (Stored(v, m), Velocity(v.speed, v.direction, v.climb, Decimal.IntToString(v.timestamp as int)))
  }

  /** True when `p` carries exactly the stored velocity `lv`. */
  predicate CarriesVelocity(p: Position, lv: LastVelocity) {
    p.speed == lv.speed && p.heading == lv.direction && p.climb == lv.climb
  }

  /** True when `p` carries no velocity at all. */
  predicate VelocityUnknown(p: Position) {
    p.speed == Unknown && p.heading == Unknown && p.climb == Unknown
  }

  /** The fields of a fix that come from the position sample itself. */
  predicate FromSample(p: Position, s: PositionSample) {
    && p.latitude == s.latitude
    && p.longitude == s.longitude
    && p.altitude == s.altitude
    && p.accuracy == s.accuracyH
    && p.timestamp == Decimal.IntToString(s.timestamp as int)
  }

  /** on_position_changed: turn a position sample into a fix, folding in the
      stored velocity while it is fresh and using up one freshness step. */
  function OnPosition(lv: LastVelocity, s: PositionSample, m: Marker): (r: (Position, LastVelocity))
    ensures FromSample(r.0, s)
    ensures lv.freshness > 0 ==> CarriesVelocity(r.0, lv) && r.1 == lv.(freshness := Decrement(m, lv.freshness))
    ensures lv.freshness == 0 ==> VelocityUnknown(r.0) && r.1 == lv
  {
    var base := DefaultPosition.(
      latitude := s.latitude,
      longitude := s.longitude,
      altitude := s.altitude,
      accuracy := s.accuracyH,
      timestamp := Decimal.IntToString(s.timestamp as int));
    if lv.freshness > 0 then
      (base.(speed := lv.speed, heading := lv.direction, climb := lv.climb),
       lv.(freshness := Decrement(m, lv.freshness)))
    else
      (base.(speed := Unknown, heading := Unknown, climb := Unknown), lv)
  }

  /** The timestamp text of a fix reads back, through `stoll`, as the
      sample's integer timestamp. */
  lemma FixTimestampReadsBack(lv: LastVelocity, s: PositionSample, m: Marker)
    ensures Decimal.ParseLongLong(OnPosition(lv, s, m).0.timestamp) == Some(s.timestamp as int)
  {
    Decimal.ParseToString(s.timestamp as int);
  }

  /** Merges a run of position samples that arrive with no velocity sample
      between them. */
  function MergeAll(lv: LastVelocity, ss: seq<PositionSample>, m: Marker): (r: (seq<Position>, LastVelocity))
    ensures |r.0| == |ss|
    decreases |ss|
  {
    if |ss| == 0 then ([], lv)
    else
      var (p, lv') := OnPosition(lv, ss[0], m);
      var (ps, last) := MergeAll(lv', ss[1..], m);
      ([p] + ps, last)
  }

  /** Freshness decay: of the fixes that follow a stored velocity, the first
      `lv.freshness` carry it (for a counter marker) and the rest carry none; the
      stored values themselves never change. */
  lemma {:induction false} MergeAllDecay(lv: LastVelocity, ss: seq<PositionSample>)
    ensures var (ps, last) := MergeAll(lv, ss, CounterMarker);
      && last.speed == lv.speed && last.direction == lv.direction && last.climb == lv.climb
      && last.freshness == (if lv.freshness >= |ss| then lv.freshness - |ss| else 0)
      && (forall i :: 0 <= i < |ss| ==> FromSample(ps[i], ss[i]))
      && (forall i :: 0 <= i < |ss| ==> if i < lv.freshness then CarriesVelocity(ps[i], lv) else VelocityUnknown(ps[i]))
    decreases |ss|
  {
    if |ss| > 0 {
      var (p, lv') := OnPosition(lv, ss[0], CounterMarker);
      MergeAllDecay(lv', ss[1..]);
      var (ps, last) := MergeAll(lv', ss[1..], CounterMarker);
      assert MergeAll(lv, ss, CounterMarker) == ([p] + ps, last);
      forall i | 0 <= i < |ss|
        ensures FromSample(([p] + ps)[i], ss[i])
        ensures if i < lv.freshness then CarriesVelocity(([p] + ps)[i], lv) else VelocityUnknown(([p] + ps)[i])
      {
        if i > 0 {
          assert ([p] + ps)[i] == ps[i - 1];
          assert ss[1..][i - 1] == ss[i];
        }
      }
    }
  }

  /** On markers holding 0 or 1 the two marker kinds behave alike, so the
      daemon's boolean marker acts as a counter started at 1. */
  lemma {:induction false} BoolMarkerActsAsCounter(lv: LastVelocity, ss: seq<PositionSample>)
    requires lv.freshness <= 1
    ensures MergeAll(lv, ss, BoolMarker) == MergeAll(lv, ss, CounterMarker)
    decreases |ss|
  {
    if |ss| > 0 {
      var (p, lv') := OnPosition(lv, ss[0], BoolMarker);
      assert OnPosition(lv, ss[0], CounterMarker) == (p, lv');
      BoolMarkerActsAsCounter(lv', ss[1..]);
    }
  }

  /** What the daemon does: a velocity sample reaches exactly ONE following
      fix (the next one); every later fix reports speed, heading and climb as
      unknown, although VELOCITY_FRESH_STEPS is 2. */
  lemma AsWrittenWindowIsOne(lv: LastVelocity, v: VelocitySample, ss: seq<PositionSample>)
    ensures Window(AsWritten) == 1
    ensures var stored := OnVelocity(lv, v, AsWritten).0;
      var ps := MergeAll(stored, ss, AsWritten).0;
      && (|ss| > 0 ==> CarriesVelocity(ps[0], stored))
      && forall i :: 1 <= i < |ss| ==> VelocityUnknown(ps[i])
  {
    var stored := OnVelocity(lv, v, AsWritten).0;
    BoolMarkerActsAsCounter(stored, ss);
    MergeAllDecay(stored, ss);
  }

  /** What VELOCITY_FRESH_STEPS asks for, and what a counter marker gives:
      the next two fixes carry the velocity and the third and later ones do
      not. */
  lemma IntendedWindowIsTwo(lv: LastVelocity, v: VelocitySample, ss: seq<PositionSample>)
    ensures Window(CounterMarker) == VelocityFreshSteps == 2
    ensures var stored := OnVelocity(lv, v, CounterMarker).0;
      var ps := MergeAll(stored, ss, CounterMarker).0;
      && forall i :: 0 <= i < |ss| ==> (if i < 2 then CarriesVelocity(ps[i], stored) else VelocityUnknown(ps[i]))
  {
    var stored := OnVelocity(lv, v, CounterMarker).0;
    MergeAllDecay(stored, ss);
  }

  /** One event reaching the merger. */
  datatype Sample = PositionChanged(position: PositionSample) | VelocityChanged(velocity: VelocitySample)

  /** Feeds a stream of samples through the merger and collects the fixes. */
  function Merge(lv: LastVelocity, events: seq<Sample>, m: Marker): (r: (seq<Position>, LastVelocity))
    decreases |events|
  {
    if |events| == 0 then ([], lv)
    else
      match events[0]
      case VelocityChanged(v) => Merge(OnVelocity(lv, v, m).0, events[1..], m)
      case PositionChanged(s) =>
        var (p, lv') := OnPosition(lv, s, m);
        var (ps, last) := Merge(lv', events[1..], m);
        ([p] + ps, last)
  }

  /** A fix whose velocity fields carry no NaN. */
  predicate NoNaNVelocity(p: Position) {
    !p.speed.NaN? && !p.heading.NaN? && !p.climb.NaN?
  }

  /** NaN never reaches a fix: starting from sanitised stored values, every fix
      of any sample stream has a non-NaN speed, heading and climb, whatever
      the velocity samples contained. */
  lemma {:induction false} MergeNeverYieldsNaN(lv: LastVelocity, events: seq<Sample>, m: Marker)
    requires Sanitized(lv)
    ensures Sanitized(Merge(lv, events, m).1)
    ensures forall i :: 0 <= i < |Merge(lv, events, m).0| ==> NoNaNVelocity(Merge(lv, events, m).0[i])
    decreases |events|
  {
    if |events| > 0 {
      match events[0]
      case VelocityChanged(v) =>
        MergeNeverYieldsNaN(OnVelocity(lv, v, m).0, events[1..], m);
      case PositionChanged(s) =>
        var r := OnPosition(lv, s, m);
        MergeNeverYieldsNaN(r.1, events[1..], m);
        var rest := Merge(r.1, events[1..], m);
        assert Merge(lv, events, m) == ([r.0] + rest.0, rest.1);
        assert NoNaNVelocity(r.0);
        forall i | 0 <= i < |[r.0] + rest.0|
          ensures NoNaNVelocity(([r.0] + rest.0)[i])
        {
          if i > 0 { assert ([r.0] + rest.0)[i] == rest.0[i - 1]; }
        }
    }
  }

  /** The stored velocity before any sample is already sanitised and stale. */
  lemma InitialLastVelocityIsStale()
    ensures Sanitized(InitialLastVelocity) && InitialLastVelocity.freshness == 0
    ensures DefaultPosition.speed == DefaultPosition.heading == DefaultPosition.climb == Unknown
  {
  }
}
