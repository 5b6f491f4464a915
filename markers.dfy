/**
 * The marker enums: fieldless enums whose only job is to accept the tag string that opens an
 * update triple.  Each marker accepts exactly its variant names (or their renames), matched
 * exactly and case-sensitively.
 */
module Markers {
  import opened Wrappers

  datatype Marker =
    | HeartbeatMarker
    | ExtrapolatedClockMarker
    | TopThreeMarker
    | TimingStatsMarker
    | TimingAppDataMarker
    | WeatherDataMarker
    | TrackStatusMarker
    | RaceControlMessagesMarker
    | SessionInfoMarker
    | SessionDataMarker
    | LapCountMarker
    | TimingDataMarker
    | TeamRadioMarker
    | TlaRcmMarker
    | DriverListMarker
    | CarDataMarker
    | PositionsMarker

  /** Whether the marker enum `m` deserializes from the string `tag`. */
  predicate Accepts(m: Marker, tag: string) {
    match m
    case HeartbeatMarker => tag == "Heartbeat"
    case ExtrapolatedClockMarker => tag == "ExtrapolatedClock"
    case TopThreeMarker => tag == "TopThree"
    case TimingStatsMarker => tag == "TimingStats"
    case TimingAppDataMarker => tag == "TimingAppData"
    case WeatherDataMarker => tag == "WeatherData"
    case TrackStatusMarker => tag == "TrackStatus"
    case RaceControlMessagesMarker => tag == "RaceControlMessages"
    case SessionInfoMarker => tag == "SessionInfo"
    case SessionDataMarker => tag == "SessionData"
    case LapCountMarker => tag == "LapCount"
    case TimingDataMarker => tag == "TimingData" || tag == "TimingDataF1"
    case TeamRadioMarker => tag == "TeamRadio"
    case TlaRcmMarker => tag == "TlaRcm"
    case DriverListMarker => tag == "DriverList"
    case CarDataMarker => tag == "CarData.z"
    case PositionsMarker => tag == "Position.z"
  }

  /** The tag table: the marker that accepts `tag`, if any. */
  function MarkerOf(tag: string): (r: Option<Marker>)
    ensures r.Some? ==> Accepts(r.value, tag)
    ensures r.None? ==> forall m :: !Accepts(m, tag)
  {
    if tag == "Heartbeat" then Some(HeartbeatMarker)
    else if tag == "ExtrapolatedClock" then Some(ExtrapolatedClockMarker)
    else if tag == "TopThree" then Some(TopThreeMarker)
    else if tag == "TimingStats" then Some(TimingStatsMarker)
    else if tag == "TimingAppData" then Some(TimingAppDataMarker)
    else if tag == "WeatherData" then Some(WeatherDataMarker)
    else if tag == "TrackStatus" then Some(TrackStatusMarker)
    else if tag == "RaceControlMessages" then Some(RaceControlMessagesMarker)
    else if tag == "SessionInfo" then Some(SessionInfoMarker)
    else if tag == "SessionData" then Some(SessionDataMarker)
    else if tag == "LapCount" then Some(LapCountMarker)
    else if tag == "TimingData" || tag == "TimingDataF1" then Some(TimingDataMarker)
    else if tag == "TeamRadio" then Some(TeamRadioMarker)
    else if tag == "TlaRcm" then Some(TlaRcmMarker)
    else if tag == "DriverList" then Some(DriverListMarker)
    else if tag == "CarData.z" then Some(CarDataMarker)
    else if tag == "Position.z" then Some(PositionsMarker)
    else None
  }

  /** Whichever marker accepts a tag, the table returns that marker. */
  lemma OnlyMarker(m: Marker, tag: string)
    requires Accepts(m, tag)
    ensures MarkerOf(tag) == Some(m)
  {
    match m
    case HeartbeatMarker =>
    case ExtrapolatedClockMarker =>
    case TopThreeMarker =>
    case TimingStatsMarker =>
    case TimingAppDataMarker =>
    case WeatherDataMarker =>
    case TrackStatusMarker =>
    case RaceControlMessagesMarker =>
    case SessionInfoMarker =>
    case SessionDataMarker =>
    case LapCountMarker =>
    case TimingDataMarker =>
    case TeamRadioMarker =>
    case TlaRcmMarker =>
    case DriverListMarker =>
    case CarDataMarker =>
    case PositionsMarker =>
  }

  /** The table is exact: a marker accepts a tag exactly when the table returns it, so no tag
      is accepted by two markers and the table is a partial function from tags to markers. */
  lemma MarkerOfExact(tag: string)
    ensures forall m :: Accepts(m, tag) <==> MarkerOf(tag) == Some(m)
  {
    forall m | Accepts(m, tag) ensures MarkerOf(tag) == Some(m) {
      OnlyMarker(m, tag);
    }
  }

  /** Two markers never share a tag. */
  lemma MarkersDisjoint(m1: Marker, m2: Marker, tag: string)
    requires Accepts(m1, tag) && Accepts(m2, tag)
    ensures m1 == m2
  {
    OnlyMarker(m1, tag);
    OnlyMarker(m2, tag);
  }

  /** "TimingData" and "TimingDataF1" both select the timing-data marker. */
  lemma TimingDataTags()
    ensures MarkerOf("TimingData") == Some(TimingDataMarker)
    ensures MarkerOf("TimingDataF1") == Some(TimingDataMarker)
  {
  }

  /** Car telemetry is tagged "CarData.z"; plain "CarData" is no tag. */
  lemma CarDataTag()
    ensures MarkerOf("CarData.z") == Some(CarDataMarker)
    ensures MarkerOf("CarData") == None
  {
  }

  /** Positions are tagged "Position.z" (singular); "Positions" is no tag. */
  lemma PositionsTag()
    ensures MarkerOf("Position.z") == Some(PositionsMarker)
    ensures MarkerOf("Positions") == None
  {
  }

  /** Matching is case-sensitive. */
  lemma CaseSensitiveTags()
    ensures MarkerOf("Heartbeat") == Some(HeartbeatMarker)
    ensures MarkerOf("heartbeat") == None
  {
  }
}
