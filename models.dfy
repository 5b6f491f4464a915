/**
 * The feed envelope and the untagged update dispatch.
 *
 * A socket message may carry an update list under "M" and a snapshot under "R".  Each update's
 * "A" is a triple `[tag, payload, timestamp]`; the untagged `Update` enum tries its variants in
 * declaration order and takes the first whose marker accepts the tag and whose payload type
 * accepts the payload.  Because no two markers share a tag, the tag alone picks the category.
 */
module Models {
  import opened Wrappers
  import opened Json
  import opened Deserializer
  import opened Foreign
  import opened Markers
  import Updates
  import Snapshot

  // ---------------------------------------------------------------- update categories

  /** The variants of the untagged `Update` enum. */
  datatype Category =
    | Heartbeat
    | TopThree
    | TimingStats
    | TimingAppData
    | WeatherData
    | TrackStatus
    | SessionInfo
    | LapCount
    | TimingData
    | TeamRadio
    | TlaRcm
    | ExtrapolatedClock
    | RaceControlMessages
    | PitLaneTimeCollection
    | LapSeries
    | SessionData
    | CarData
    | Positions
    | DriverList

  /** The order in which the untagged enum tries its variants. */
  const VariantOrder: seq<Category> :=
    [Heartbeat, TopThree, TimingStats, TimingAppData, WeatherData, TrackStatus, SessionInfo,
     LapCount, TimingData, TeamRadio, TlaRcm, ExtrapolatedClock, RaceControlMessages,
     PitLaneTimeCollection, LapSeries, SessionData, CarData, Positions, DriverList]

  /** The marker in a variant's first position.  The pit-lane and lap-series variants name
      marker types that do not exist, so no tag selects them. */
  function MarkerOfVariant(c: Category): (r: Option<Marker>)
    ensures r.None? <==> c == PitLaneTimeCollection || c == LapSeries
    ensures r.Some? ==> CategoryOfMarker(r.value) == c
  {
    match c
    case Heartbeat => Some(HeartbeatMarker)
    case TopThree => Some(TopThreeMarker)
    case TimingStats => Some(TimingStatsMarker)
    case TimingAppData => Some(TimingAppDataMarker)
    case WeatherData => Some(WeatherDataMarker)
    case TrackStatus => Some(TrackStatusMarker)
    case SessionInfo => Some(SessionInfoMarker)
    case LapCount => Some(LapCountMarker)
    case TimingData => Some(TimingDataMarker)
    case TeamRadio => Some(TeamRadioMarker)
    case TlaRcm => Some(TlaRcmMarker)
    case ExtrapolatedClock => Some(ExtrapolatedClockMarker)
    case RaceControlMessages => Some(RaceControlMessagesMarker)
    case PitLaneTimeCollection => None
    case LapSeries => None
    case SessionData => Some(SessionDataMarker)
    case CarData => Some(CarDataMarker)
    case Positions => Some(PositionsMarker)
    case DriverList => Some(DriverListMarker)
  }

  /** Whether variant `c` accepts `tag` in its marker position. */
  predicate VariantAccepts(c: Category, tag: string) {
    MarkerOfVariant(c).Some? && Accepts(MarkerOfVariant(c).value, tag)
  }

  /** The variant whose marker is `m`. */
  function CategoryOfMarker(m: Marker): Category {
    match m
    case HeartbeatMarker => Heartbeat
    case ExtrapolatedClockMarker => ExtrapolatedClock
    case TopThreeMarker => TopThree
    case TimingStatsMarker => TimingStats
    case TimingAppDataMarker => TimingAppData
    case WeatherDataMarker => WeatherData
    case TrackStatusMarker => TrackStatus
    case RaceControlMessagesMarker => RaceControlMessages
    case SessionInfoMarker => SessionInfo
    case SessionDataMarker => SessionData
    case LapCountMarker => LapCount
    case TimingDataMarker => TimingData
    case TeamRadioMarker => TeamRadio
    case TlaRcmMarker => TlaRcm
    case DriverListMarker => DriverList
    case CarDataMarker => CarData
    case PositionsMarker => Category.Positions
  }

  /** The variant a tag selects: the tag decoder of the update dispatch. */
  function TagCategory(tag: string): (r: Option<Category>)
    ensures r.Some? ==> VariantAccepts(r.value, tag)
    ensures r.None? ==> forall c :: !VariantAccepts(c, tag)
  {
    match MarkerOf(tag)
    case None => None
    case Some(m) => MarkerRoundTrip(m); Some(CategoryOfMarker(m))
  }

  /** The variant of a marker has that marker. */
  lemma MarkerRoundTrip(m: Marker)
    ensures MarkerOfVariant(CategoryOfMarker(m)) == Some(m)
  {
  }

  /** Whichever variant accepts a tag, the tag decoder returns that variant. */
  lemma TagDeterminesCategory(c: Category, tag: string)
    requires VariantAccepts(c, tag)
    ensures TagCategory(tag) == Some(c)
  {
    OnlyMarker(MarkerOfVariant(c).value, tag);
  }

  /** A variant accepts a tag exactly when the tag decoder returns it: because the markers are
      disjoint, the tag alone determines the category. */
  lemma TagCategoryExact(tag: string)
    ensures forall c :: VariantAccepts(c, tag) <==> TagCategory(tag) == Some(c)
  {
    forall c | VariantAccepts(c, tag) ensures TagCategory(tag) == Some(c) {
      TagDeterminesCategory(c, tag);
    }
  }

  /** Both timing-data tags select the `TimingData` variant. */
  lemma TimingDataF1IsTimingData()
    ensures TagCategory("TimingData") == Some(TimingData)
    ensures TagCategory("TimingDataF1") == Some(TimingData)
  {
    TagDeterminesCategory(TimingData, "TimingData");
    TagDeterminesCategory(TimingData, "TimingDataF1");
  }

  // ---------------------------------------------------------------- payload records

  datatype Heartbeat = HeartbeatRecord(utc: int)

  /** Heartbeat: one required `Utc` timestamp. */
  function DecodeHeartbeat(v: Value, date: Value -> Option<int>): (r: Option<Heartbeat>)
    ensures r.Some? <==> v.Object? && "Utc" in v.fields && date(v.fields["Utc"]).Some?
    ensures r.Some? ==> date(v.fields["Utc"]) == Some(r.value.utc)
  {
    if !v.Object? then None
    else
      var utc :- Required(v.fields, "Utc", date);
      Some(HeartbeatRecord(utc))
  }

  datatype LapCount = LapCountRecord(currentLap: Option<int>, totalLaps: Option<int>)

  /** LapCount: two optional integers, so an object with neither is a valid lap count. */
  function DecodeLapCount(v: Value): (r: Option<LapCount>)
    ensures r.Some? <==> v.Object? && OptionalFieldDecodes(v.fields, "CurrentLap", AsI64)
                         && OptionalFieldDecodes(v.fields, "TotalLaps", AsI64)
    ensures r.Some? ==> OptionalFieldIs(v.fields, "CurrentLap", AsI64, r.value.currentLap)
                        && OptionalFieldIs(v.fields, "TotalLaps", AsI64, r.value.totalLaps)
    ensures v.Object? && "CurrentLap" !in v.fields && "TotalLaps" !in v.fields ==> r == Some(LapCountRecord(None, None))
  {
    if !v.Object? then None
    else
      var currentLap :- Optional(v.fields, "CurrentLap", AsI64);
      var totalLaps :- Optional(v.fields, "TotalLaps", AsI64);
      Some(LapCountRecord(currentLap, totalLaps))
  }

  datatype DriverStatus = OnTrack | OffTrack

  function DriverStatusName(s: DriverStatus): string {
    match s
    case OnTrack => "OnTrack"
    case OffTrack => "OffTrack"
  }

  /** `DriverStatus` reads exactly "OnTrack" and "OffTrack". */
  function DriverStatusOf(s: string): (r: Option<DriverStatus>)
    ensures forall d :: DriverStatusName(d) == s <==> r == Some(d)
  {
    if s == "OnTrack" then Some(OnTrack)
    else if s == "OffTrack" then Some(OffTrack)
    else None
  }

  /** A `DriverStatus` field. */
  function AsDriverStatus(v: Value): (r: Option<DriverStatus>)
    ensures forall d :: r == Some(d) <==> v == Str(DriverStatusName(d))
  {
    AsEnum(v, DriverStatusOf)
  }

  datatype EntryValue = EntryValue(status: DriverStatus, x: int, y: int, z: int)

  /** One car position: a status and three `i64` coordinates. */
  function DecodeEntryValue(v: Value): (r: Option<EntryValue>)
    ensures r.Some? <==> v.Object? && FieldDecodes(v.fields, "Status", AsDriverStatus) && FieldDecodes(v.fields, "X", AsI64)
                         && FieldDecodes(v.fields, "Y", AsI64) && FieldDecodes(v.fields, "Z", AsI64)
    ensures r.Some? ==> FieldIs(v.fields, "Status", AsDriverStatus, r.value.status) && FieldIs(v.fields, "X", AsI64, r.value.x)
                        && FieldIs(v.fields, "Y", AsI64, r.value.y) && FieldIs(v.fields, "Z", AsI64, r.value.z)
  {
    if !v.Object? then None
    else
      var status :- Required(v.fields, "Status", AsDriverStatus);
      var x :- Required(v.fields, "X", AsI64);
      var y :- Required(v.fields, "Y", AsI64);
      var z :- Required(v.fields, "Z", AsI64);
      Some(EntryValue(status, x, y, z))
  }

  datatype PositionElement = PositionElement(timestamp: int, entries: map<string, EntryValue>)

  /** One position sample: `entries` is kf-filtered, so a car with a bad status is dropped. */
  function DecodePositionElement(v: Value, date: Value -> Option<int>): (r: Option<PositionElement>)
    ensures r.Some? <==> v.Object? && "Timestamp" in v.fields && date(v.fields["Timestamp"]).Some?
                         && "Entries" in v.fields && v.fields["Entries"].Object?
    ensures r.Some? ==> IsKfFiltered(v.fields["Entries"].fields, DecodeEntryValue, r.value.entries)
    ensures r.Some? ==> date(v.fields["Timestamp"]) == Some(r.value.timestamp)
  {
    if !v.Object? then None
    else
      var timestamp :- Required(v.fields, "Timestamp", date);
      var entries :- Required(v.fields, "Entries", x => KfFilter(x, DecodeEntryValue).ToOption());
      Some(PositionElement(timestamp, entries))
  }

  datatype Positions = PositionsRecord(position: seq<PositionElement>)

  /** Positions: a plain list of samples, all-or-nothing. */
  function DecodePositions(v: Value, date: Value -> Option<int>): (r: Option<Positions>)
    ensures r.Some? <==> v.Object? && "Position" in v.fields && v.fields["Position"].Array?
                         && forall i :: 0 <= i < |v.fields["Position"].items| ==> DecodePositionElement(v.fields["Position"].items[i], date).Some?
    ensures r.Some? ==> |r.value.position| == |v.fields["Position"].items|
    ensures r.Some? ==> forall i :: 0 <= i < |r.value.position| ==> DecodePositionElement(v.fields["Position"].items[i], date) == Some(r.value.position[i])
  {
    if !v.Object? then None
    else
      var position :- Required(v.fields, "Position", x => SeqOf(x, y => DecodePositionElement(y, date)));
      Some(PositionsRecord(position))
  }

  /** Whether the payload type of variant `c` accepts `p`.  Collections whose logic is modelled
      use their decoders; records that only list fields ask `Externals.records`.  The CarData
      and Positions variants never get here: their variant helpers read the whole triple. */
  ghost predicate PayloadAccepted(c: Category, p: Value, ext: Externals) {
    match c
    case Heartbeat => DecodeHeartbeat(p, ext.date).Some?
    case TopThree => Updates.DecodeTopThree(p, Opaque(ext, "updates::LineElement")).Some?
    case TimingStats => Updates.DecodeTimingStats(p, Opaque(ext, "updates::TimingStatsLine")).Some?
    case TimingAppData => Updates.DecodeTimingAppData(p, Opaque(ext, "updates::TimingAppDataLine")).Some?
    case WeatherData => ext.records("WeatherData", p)
    case TrackStatus => ext.records("TrackStatus", p)
    case SessionInfo => ext.records("SessionInfo", p)
    case LapCount => DecodeLapCount(p).Some?
    case TimingData => Updates.DecodeTimingData(p, Opaque(ext, "updates::TimingDataLine")).Some?
    case TeamRadio => Updates.DecodeTeamRadio(p, Opaque(ext, "updates::Capture")).Some?
    case TlaRcm => ext.records("TlaRcm", p)
    case ExtrapolatedClock => ext.records("updates::ExtrapolatedClock", p)
    case RaceControlMessages => Updates.DecodeRaceControlMessages(p, ext.date).Some?
    case PitLaneTimeCollection => Updates.DecodePitLaneTimeCollection(p).Some?
    case LapSeries => MapOf(p, Updates.DecodeLapSeries).Some?
    case SessionData => ext.records("updates::SessionData", p)
    case DriverList => true
    case CarData => false
    case Positions => false
  }

  // ---------------------------------------------------------------- the untagged dispatch

  /** A decoded update: its variant, its payload and its timestamp.  The payload is kept as the
      feed sent it, except in the two variants read by a variant helper, which keep the helper's
      result. */
  datatype Update = Update(category: Category, payload: Value, timestamp: string)

  /** Whether `v` has the shape of an update triple: a tag string, a payload, a timestamp string. */
  predicate IsTriple(v: Value) {
    v.Array? && |v.items| == 3 && v.items[0].Str? && v.items[2].Str?
  }

  /** The variants whose whole triple is read by a helper of their own rather than by the
      derived tuple deserializer. */
  predicate ByVariantHelper(c: Category) {
    c == CarData || c == Category.Positions
  }

  /** One variant's attempt at the triple. */
  ghost function TryVariant(c: Category, v: Value, ext: Externals): (r: Option<Update>)
    ensures r.Some? ==> r.value.category == c
    ensures !ByVariantHelper(c) ==>
              (r.Some? <==> IsTriple(v) && VariantAccepts(c, v.items[0].s) && PayloadAccepted(c, v.items[1], ext))
    ensures !ByVariantHelper(c) && r.Some? ==> r.value.payload == v.items[1] && r.value.timestamp == v.items[2].s
  {
    if c == CarData then
      var read :- ext.carVariant(v);
      Some(Update(c, read.0, read.1))
    else if c == Category.Positions then
      var read :- ext.positionsVariant(v);
      Some(Update(c, read.0, read.1))
    else if IsTriple(v) && VariantAccepts(c, v.items[0].s) && PayloadAccepted(c, v.items[1], ext) then
      Some(Update(c, v.items[1], v.items[2].s))
    else
      None
  }

  /** What the tag lemmas assume of the two undefined variant helpers: like the derived tuple
      deserializer, each reads only a triple whose tag its own marker accepts. */
  ghost predicate VariantHelpersCheckTag(ext: Externals) {
    (forall v :: ext.carVariant(v).Some? ==> IsTriple(v) && VariantAccepts(CarData, v.items[0].s))
    && (forall v :: ext.positionsVariant(v).Some? ==> IsTriple(v) && VariantAccepts(Category.Positions, v.items[0].s))
  }

  /** The first variant in `order` that accepts the triple. */
  ghost function FirstMatch(order: seq<Category>, v: Value, ext: Externals): (r: Option<Update>)
    ensures r.Some? ==> r.value.category in order && TryVariant(r.value.category, v, ext) == r
    ensures r.None? <==> forall i :: 0 <= i < |order| ==> TryVariant(order[i], v, ext).None?
    ensures r.Some? ==> exists i :: 0 <= i < |order| && order[i] == r.value.category
                                    && forall j :: 0 <= j < i ==> TryVariant(order[j], v, ext).None?
  {
    if order == [] then None
    else if TryVariant(order[0], v, ext).Some? then TryVariant(order[0], v, ext)
    else
      var r := FirstMatch(order[1..], v, ext);
      assert forall i :: 1 <= i < |order| ==> order[i] == order[1..][i - 1];
      if r.Some? then
        var k :| 0 <= k < |order[1..]| && order[1..][k] == r.value.category
                 && forall j :: 0 <= j < k ==> TryVariant(order[1..][j], v, ext).None?;
        assert order[k + 1] == r.value.category;
        assert forall j :: 0 <= j < k + 1 ==> TryVariant(order[j], v, ext).None?;
        r
      else
        r
  }

  /** The untagged `Update` enum: the first variant, in declaration order, that accepts. */
  ghost function DecodeUpdate(v: Value, ext: Externals): (r: Option<Update>)
    ensures r.None? <==> forall c :: TryVariant(c, v, ext).None?
    ensures r.Some? ==> TryVariant(r.value.category, v, ext) == r
    ensures r.Some? ==> exists i :: 0 <= i < |VariantOrder| && VariantOrder[i] == r.value.category
                                    && forall j :: 0 <= j < i ==> TryVariant(VariantOrder[j], v, ext).None?
    ensures r.Some? && !ByVariantHelper(r.value.category) ==>
              IsTriple(v) && r.value.payload == v.items[1] && r.value.timestamp == v.items[2].s
              && Some(r.value.category) == TagCategory(v.items[0].s)
    ensures r.Some? && r.value.category == CarData ==> ext.carVariant(v) == Some((r.value.payload, r.value.timestamp))
    ensures r.Some? && r.value.category == Category.Positions ==>
              ext.positionsVariant(v) == Some((r.value.payload, r.value.timestamp))
    ensures r.Some? && VariantHelpersCheckTag(ext) ==> IsTriple(v) && Some(r.value.category) == TagCategory(v.items[0].s)
  {
    var r := FirstMatch(VariantOrder, v, ext);
    if r.Some? then VariantTag(r.value.category, v, ext); r
    else CompleteSearchFails(v, ext); r
  }

  /** The search in declaration order fails only when no variant reads the triple. */
  lemma CompleteSearchFails(v: Value, ext: Externals)
    requires FirstMatch(VariantOrder, v, ext).None?
    ensures forall c :: TryVariant(c, v, ext).None?
  {
    forall c ensures TryVariant(c, v, ext).None? {
      EveryVariantTried(c);
      var i :| 0 <= i < |VariantOrder| && VariantOrder[i] == c;
    }
  }

  /** A variant that reads the triple was chosen by its tag, unless an unconstrained variant
      helper read it. */
  lemma VariantTag(c: Category, v: Value, ext: Externals)
    requires TryVariant(c, v, ext).Some?
    ensures c == CarData ==> ext.carVariant(v) == Some((TryVariant(c, v, ext).value.payload, TryVariant(c, v, ext).value.timestamp))
    ensures c == Category.Positions ==>
              ext.positionsVariant(v) == Some((TryVariant(c, v, ext).value.payload, TryVariant(c, v, ext).value.timestamp))
    ensures !ByVariantHelper(c) || VariantHelpersCheckTag(ext) ==> IsTriple(v) && TagCategory(v.items[0].s) == Some(c)
  {
    if !ByVariantHelper(c) || VariantHelpersCheckTag(ext) {
      assert IsTriple(v) && VariantAccepts(c, v.items[0].s);
      TagDeterminesCategory(c, v.items[0].s);
    }
  }

  /** The dispatch straight from the tag, with no search. */
  ghost function DispatchByTag(v: Value, ext: Externals): Option<Update> {
    if IsTriple(v) && TagCategory(v.items[0].s).Some? then
      TryVariant(TagCategory(v.items[0].s).value, v, ext)
    else
      None
  }

  lemma {:induction false} FirstMatchByTag(order: seq<Category>, v: Value, ext: Externals)
    requires VariantHelpersCheckTag(ext)
    ensures FirstMatch(order, v, ext) ==
              (if DispatchByTag(v, ext).Some? && DispatchByTag(v, ext).value.category in order
               then DispatchByTag(v, ext) else None)
  {
    if order != [] {
      FirstMatchByTag(order[1..], v, ext);
      if TryVariant(order[0], v, ext).Some? {
        assert IsTriple(v) && VariantAccepts(order[0], v.items[0].s);
        TagDeterminesCategory(order[0], v.items[0].s);
      }
    }
  }

  /** Searching the variants in order gives the same update as dispatching on the tag: the
      order of the untagged enum never matters, because the markers are disjoint. */
  lemma UpdateDeterminedByTag(v: Value, ext: Externals)
    requires VariantHelpersCheckTag(ext)
    ensures DecodeUpdate(v, ext) == DispatchByTag(v, ext)
  {
    FirstMatchByTag(VariantOrder, v, ext);
    if DispatchByTag(v, ext).Some? {
      EveryVariantTried(DispatchByTag(v, ext).value.category);
    }
  }

  /** The untagged enum tries every variant. */
  lemma EveryVariantTried(c: Category)
    ensures c in VariantOrder
  {
    assert c == VariantOrder[0] || c == VariantOrder[1] || c == VariantOrder[2] || c == VariantOrder[3]
        || c == VariantOrder[4] || c == VariantOrder[5] || c == VariantOrder[6] || c == VariantOrder[7]
        || c == VariantOrder[8] || c == VariantOrder[9] || c == VariantOrder[10] || c == VariantOrder[11]
        || c == VariantOrder[12] || c == VariantOrder[13] || c == VariantOrder[14] || c == VariantOrder[15]
        || c == VariantOrder[16] || c == VariantOrder[17] || c == VariantOrder[18];
  }

  /** No update is ever decoded as a pit-lane or lap-series variant. */
  lemma UndefinedMarkersNeverMatch(v: Value, ext: Externals)
    ensures DecodeUpdate(v, ext).Some? ==> DecodeUpdate(v, ext).value.category != PitLaneTimeCollection
    ensures DecodeUpdate(v, ext).Some? ==> DecodeUpdate(v, ext).value.category != LapSeries
  {
    NoMarkerNoMatch(PitLaneTimeCollection, v, ext);
    NoMarkerNoMatch(LapSeries, v, ext);
  }

  /** A variant without a marker rejects every triple. */
  lemma NoMarkerNoMatch(c: Category, v: Value, ext: Externals)
    requires MarkerOfVariant(c).None?
    ensures TryVariant(c, v, ext).None?
  {
  }

  /** A driver-list update keeps any payload, uninterpreted. */
  lemma DriverListKeepsPayload(p: Value, timestamp: string, ext: Externals)
    requires VariantHelpersCheckTag(ext)
    ensures DecodeUpdate(Array([Str("DriverList"), p, Str(timestamp)]), ext) == Some(Update(DriverList, p, timestamp))
  {
    var v := Array([Str("DriverList"), p, Str(timestamp)]);
    assert IsTriple(v) && v.items[0].s == "DriverList" && v.items[1] == p;
    TagDeterminesCategory(DriverList, "DriverList");
    assert TryVariant(DriverList, v, ext) == Some(Update(DriverList, p, timestamp));
    UpdateDeterminedByTag(v, ext);
  }

  // ---------------------------------------------------------------- the snapshot

  /** The snapshot.  Records that only list fields are kept as the raw value their schema
      accepted. */
  datatype Data = Data(
    heartbeat: Heartbeat,
    extrapolatedClock: Value,
    topThree: Value,
    timingStats: Snapshot.TimingStats,
    timingAppData: Snapshot.TimingAppData,
    weatherData: Value,
    trackStatus: Value,
    raceControlMessages: Snapshot.RaceControlMessages,
    sessionInfo: Value,
    sessionData: Value,
    timingData: Snapshot.TimingData,
    teamRadio: Option<Snapshot.TeamRadio>,
    tlaRcm: Option<Value>,
    lapCount: Option<LapCount>,
    lapSeries: map<string, Snapshot.LapSeries>,
    driverList: map<string, Snapshot.DriverList>,
    carData: Snapshot.CarData,
    position: Positions)

  /** A zlib-compressed field: inflated, then decoded. */
  function Inflated<T>(ext: Externals, dec: Value -> Option<T>): Value -> Option<T> {
    x => var y :- ext.inflate(x); dec(y)
  }

  /** The snapshot: `LapSeries` and `DriverList` are kf-filtered maps; `CarData.z` and
      `Position.z` are inflated before they are decoded. */
  function DecodeData(v: Value, ext: Externals): (r: Option<Data>)
    ensures r.Some? ==> v.Object? && "LapSeries" in v.fields && v.fields["LapSeries"].Object?
                        && IsKfFiltered(v.fields["LapSeries"].fields, Snapshot.DecodeLapSeries, r.value.lapSeries)
    ensures r.Some? ==> "DriverList" in v.fields && v.fields["DriverList"].Object?
                        && IsKfFiltered(v.fields["DriverList"].fields, Snapshot.DecodeDriverList, r.value.driverList)
    ensures r.Some? ==> "CarData.z" in v.fields && ext.inflate(v.fields["CarData.z"]).Some?
                        && Snapshot.DecodeCarData(ext.inflate(v.fields["CarData.z"]).value) == Some(r.value.carData)
    ensures r.Some? ==> "Position.z" in v.fields && ext.inflate(v.fields["Position.z"]).Some?
                        && DecodePositions(ext.inflate(v.fields["Position.z"]).value, ext.date) == Some(r.value.position)
  {
    if !v.Object? then None
    else
      var f := v.fields;
      var heartbeat :- Required(f, "Heartbeat", x => DecodeHeartbeat(x, ext.date));
      var extrapolatedClock :- Required(f, "ExtrapolatedClock", Opaque(ext, "data::ExtrapolatedClock"));
      var topThree :- Required(f, "TopThree", Opaque(ext, "data::TopThree"));
      var timingStats :- Required(f, "TimingStats", x => Snapshot.DecodeTimingStats(x, ext));
      var timingAppData :- Required(f, "TimingAppData", Snapshot.DecodeTimingAppData);
      var weatherData :- Required(f, "WeatherData", Opaque(ext, "WeatherData"));
      var trackStatus :- Required(f, "TrackStatus", Opaque(ext, "TrackStatus"));
      var raceControlMessages :- Required(f, "RaceControlMessages", Snapshot.DecodeRaceControlMessages);
      var sessionInfo :- Required(f, "SessionInfo", Opaque(ext, "SessionInfo"));
      var sessionData :- Required(f, "SessionData", Opaque(ext, "data::SessionData"));
      var timingData :- Required(f, "TimingData", x => Snapshot.DecodeTimingData(x, ext));
      var teamRadio :- Optional(f, "TeamRadio", Snapshot.DecodeTeamRadio);
      var tlaRcm :- Optional(f, "TlaRcm", Opaque(ext, "TlaRcm"));
      var lapCount :- Optional(f, "LapCount", DecodeLapCount);
      var lapSeries :- Required(f, "LapSeries", x => KfFilter(x, Snapshot.DecodeLapSeries).ToOption());
      var driverList :- Required(f, "DriverList", x => KfFilter(x, Snapshot.DecodeDriverList).ToOption());
      var carData :- Required(f, "CarData.z", Inflated(ext, Snapshot.DecodeCarData));
      var position :- Required(f, "Position.z", Inflated(ext, x => DecodePositions(x, ext.date)));
      Some(Data(heartbeat, extrapolatedClock, topThree, timingStats, timingAppData, weatherData,
                trackStatus, raceControlMessages, sessionInfo, sessionData, timingData, teamRadio,
                tlaRcm, lapCount, lapSeries, driverList, carData, position))
  }

  /** The snapshot's driver and lap-series maps never hold the bookkeeping key. */
  lemma SnapshotMapsHaveNoKf(v: Value, ext: Externals)
    requires DecodeData(v, ext).Some?
    ensures KF !in DecodeData(v, ext).value.lapSeries && KF !in DecodeData(v, ext).value.driverList
  {
  }

  // ---------------------------------------------------------------- the envelope

  datatype Message = Message(a: Update)

  /** One message: its "A" field is an update triple. */
  ghost function DecodeMessage(v: Value, ext: Externals): (r: Option<Message>)
    ensures r.Some? <==> v.Object? && "A" in v.fields && DecodeUpdate(v.fields["A"], ext).Some?
    ensures r.Some? ==> DecodeUpdate(v.fields["A"], ext) == Some(r.value.a)
  {
    if !v.Object? then None
    else
      var a :- Required(v.fields, "A", x => DecodeUpdate(x, ext));
      Some(Message(a))
  }

  datatype SocketMessage = SocketMessage(m: Option<seq<Message>>, r: Option<Data>)

  /** The envelope: an optional update list "M" and an optional snapshot "R"; either, both or
      neither may be present. */
  ghost function DecodeSocketMessage(v: Value, ext: Externals): (r: Option<SocketMessage>)
    ensures r.Some? <==> v.Object? && Optional(v.fields, "M", x => SeqOf(x, y => DecodeMessage(y, ext))).Some?
                         && Optional(v.fields, "R", x => DecodeData(x, ext)).Some?
    ensures r.Some? ==> (r.value.m.None? <==> "M" !in v.fields || v.fields["M"] == Null)
    ensures r.Some? ==> (r.value.r.None? <==> "R" !in v.fields || v.fields["R"] == Null)
    ensures r.Some? && r.value.m.Some? ==>
              v.fields["M"].Array? && |r.value.m.value| == |v.fields["M"].items|
              && forall i :: 0 <= i < |r.value.m.value| ==> DecodeMessage(v.fields["M"].items[i], ext) == Some(r.value.m.value[i])
    ensures r.Some? && r.value.r.Some? ==> DecodeData(v.fields["R"], ext) == Some(r.value.r.value)
  {
    if !v.Object? then None
    else
      var m :- Optional(v.fields, "M", x => SeqOf(x, y => DecodeMessage(y, ext)));
      var r :- Optional(v.fields, "R", x => DecodeData(x, ext));
      Some(SocketMessage(m, r))
  }
}
