/**
 * The snapshot-side payload types (the `data` module): its own copies of the race-control and
 * tyre enums, the car telemetry maps, and the timing collections whose `lines` maps go through
 * `kf_remover`.  Snapshot records declare most fields as required, so a line that lacks one is
 * dropped from its kf-filtered map instead of failing the snapshot.
 *
 * Nested records that hold no logic (sectors, speeds, lap-time records, ...) are opaque: the
 * decoders ask `Externals.records` whether serde accepts them and keep the raw value.
 */
module Snapshot {
  import opened Wrappers
  import opened Json
  import opened Deserializer
  import opened Foreign
  import Updates

  // ---------------------------------------------------------------- enums

  datatype Category = Drs | Flag | Other | SafetyCar | CarEvent

  function CategoryName(c: Category): string {
    match c
    case Drs => "Drs"
    case Flag => "Flag"
    case Other => "Other"
    case SafetyCar => "SafetyCar"
    case CarEvent => "CarEvent"
  }

  /** `Category` reads exactly its variant names. */
  function CategoryOf(s: string): (r: Option<Category>)
    ensures forall c :: CategoryName(c) == s <==> r == Some(c)
  {
    if s == "Drs" then Some(Drs)
    else if s == "Flag" then Some(Category.Flag)
    else if s == "Other" then Some(Other)
    else if s == "SafetyCar" then Some(SafetyCar)
    else if s == "CarEvent" then Some(CarEvent)
    else None
  }

  /** A `Category` field: a JSON string naming one variant. */
  function AsCategory(v: Value): (r: Option<Category>)
    ensures forall c :: r == Some(c) <==> v == Str(CategoryName(c))
  {
    AsEnum(v, CategoryOf)
  }

  datatype Flag = Chequered | Clear | DoubleYellow | Green | Yellow | Red | Blue | BlackAndWhite

  function FlagName(f: Flag): string {
    match f
    case Chequered => "CHEQUERED"
    case Clear => "CLEAR"
    case DoubleYellow => "DOUBLE YELLOW"
    case Green => "GREEN"
    case Yellow => "YELLOW"
    case Red => "RED"
    case Blue => "BLUE"
    case BlackAndWhite => "BLACK AND WHITE"
  }

  /** `Flag` reads exactly the eight upper-case renames. */
  function FlagOf(s: string): (r: Option<Flag>)
    ensures forall f :: FlagName(f) == s <==> r == Some(f)
  {
    if s == "CHEQUERED" then Some(Chequered)
    else if s == "CLEAR" then Some(Clear)
    else if s == "DOUBLE YELLOW" then Some(DoubleYellow)
    else if s == "GREEN" then Some(Green)
    else if s == "YELLOW" then Some(Yellow)
    else if s == "RED" then Some(Red)
    else if s == "BLUE" then Some(Blue)
    else if s == "BLACK AND WHITE" then Some(BlackAndWhite)
    else None
  }

  /** A `Flag` field. */
  function AsFlag(v: Value): (r: Option<Flag>)
    ensures forall f :: r == Some(f) <==> v == Str(FlagName(f))
  {
    AsEnum(v, FlagOf)
  }

  datatype Scope = Sector | Track | Driver

  function ScopeName(c: Scope): string {
    match c
    case Sector => "Sector"
    case Track => "Track"
    case Driver => "Driver"
  }

  /** `Scope` reads exactly its variant names. */
  function ScopeOf(s: string): (r: Option<Scope>)
    ensures forall c :: ScopeName(c) == s <==> r == Some(c)
  {
    if s == "Sector" then Some(Sector)
    else if s == "Track" then Some(Track)
    else if s == "Driver" then Some(Driver)
    else None
  }

  /** A `Scope` field. */
  function AsScope(v: Value): (r: Option<Scope>)
    ensures forall c :: r == Some(c) <==> v == Str(ScopeName(c))
  {
    AsEnum(v, ScopeOf)
  }

  datatype Compound = Hard | Medium | Soft | Intermediate | Wet | Unknown

  function CompoundName(c: Compound): string {
    match c
    case Hard => "HARD"
    case Medium => "MEDIUM"
    case Soft => "SOFT"
    case Intermediate => "INTERMEDIATE"
    case Wet => "WET"
    case Unknown => "UNKNOWN"
  }

  /** `Compound` reads exactly the six upper-case renames. */
  function CompoundOf(s: string): (r: Option<Compound>)
    ensures forall c :: CompoundName(c) == s <==> r == Some(c)
  {
    if s == "HARD" then Some(Hard)
    else if s == "MEDIUM" then Some(Medium)
    else if s == "SOFT" then Some(Soft)
    else if s == "INTERMEDIATE" then Some(Intermediate)
    else if s == "WET" then Some(Wet)
    else if s == "UNKNOWN" then Some(Unknown)
    else None
  }

  /** A `Compound` field. */
  function AsCompound(v: Value): (r: Option<Compound>)
    ensures forall c :: r == Some(c) <==> v == Str(CompoundName(c))
  {
    AsEnum(v, CompoundOf)
  }

  // The update-side variant of the same name.
  function UpdateCategory(c: Category): Updates.Category {
    match c
    case Drs => Updates.Drs
    case Flag => Updates.Category.Flag
    case Other => Updates.Other
    case SafetyCar => Updates.SafetyCar
    case CarEvent => Updates.CarEvent
  }

  function UpdateFlag(f: Flag): Updates.Flag {
    match f
    case Chequered => Updates.Chequered
    case Clear => Updates.Clear
    case DoubleYellow => Updates.DoubleYellow
    case Green => Updates.Green
    case Yellow => Updates.Yellow
    case Red => Updates.Red
    case Blue => Updates.Blue
    case BlackAndWhite => Updates.BlackAndWhite
  }

  function UpdateScope(c: Scope): Updates.Scope {
    match c
    case Sector => Updates.Sector
    case Track => Updates.Track
    case Driver => Updates.Driver
  }

  function UpdateCompound(c: Compound): Updates.Compound {
    match c
    case Hard => Updates.Hard
    case Medium => Updates.Medium
    case Soft => Updates.Soft
    case Intermediate => Updates.Intermediate
    case Wet => Updates.Wet
    case Unknown => Updates.Unknown
  }

  /** The snapshot and update Category tables read the same strings into the same variants. */
  lemma CategoryTablesAgree(s: string)
    ensures CategoryOf(s).Some? <==> Updates.CategoryOf(s).Some?
    ensures CategoryOf(s).Some? ==> Updates.CategoryOf(s) == Some(UpdateCategory(CategoryOf(s).value))
  {
  }

  /** The snapshot and update Flag tables read the same strings into the same variants. */
  lemma FlagTablesAgree(s: string)
    ensures FlagOf(s).Some? <==> Updates.FlagOf(s).Some?
    ensures FlagOf(s).Some? ==> Updates.FlagOf(s) == Some(UpdateFlag(FlagOf(s).value))
  {
  }

  /** The snapshot and update Scope tables read the same strings into the same variants. */
  lemma ScopeTablesAgree(s: string)
    ensures ScopeOf(s).Some? <==> Updates.ScopeOf(s).Some?
    ensures ScopeOf(s).Some? ==> Updates.ScopeOf(s) == Some(UpdateScope(ScopeOf(s).value))
  {
  }

  /** The snapshot and update Compound tables read the same strings into the same variants. */
  lemma CompoundTablesAgree(s: string)
    ensures CompoundOf(s).Some? <==> Updates.CompoundOf(s).Some?
    ensures CompoundOf(s).Some? ==> Updates.CompoundOf(s) == Some(UpdateCompound(CompoundOf(s).value))
  {
  }

  // ---------------------------------------------------------------- car telemetry

  datatype Car = Car(channels: map<string, int>)

  /** A car's channels: kf-filtered integers, so a channel that is not an `i64` is dropped. */
  function DecodeCar(v: Value): (r: Option<Car>)
    ensures r.Some? <==> v.Object? && "Channels" in v.fields && v.fields["Channels"].Object?
    ensures r.Some? ==> IsKfFiltered(v.fields["Channels"].fields, AsI64, r.value.channels)
  {
    if !v.Object? then None
    else
      var channels :- Required(v.fields, "Channels", x => KfFilter(x, AsI64).ToOption());
      Some(Car(channels))
  }

  datatype EntryElement = EntryElement(utc: string, cars: map<string, Car>)

  /** One telemetry sample: `cars` is kf-filtered, so an undecodable car is dropped. */
  function DecodeEntryElement(v: Value): (r: Option<EntryElement>)
    ensures r.Some? <==> v.Object? && "Utc" in v.fields && v.fields["Utc"].Str?
                         && "Cars" in v.fields && v.fields["Cars"].Object?
    ensures r.Some? ==> IsKfFiltered(v.fields["Cars"].fields, DecodeCar, r.value.cars)
    ensures r.Some? ==> v.fields["Utc"] == Str(r.value.utc)
  {
    if !v.Object? then None
    else
      var utc :- Required(v.fields, "Utc", AsStr);
      var cars :- Required(v.fields, "Cars", x => KfFilter(x, DecodeCar).ToOption());
      Some(EntryElement(utc, cars))
  }

  datatype CarData = CarData(entries: seq<EntryElement>)

  /** CarData: a plain list of samples; one bad sample fails it. */
  function DecodeCarData(v: Value): (r: Option<CarData>)
    ensures r.Some? <==> v.Object? && "Entries" in v.fields && v.fields["Entries"].Array?
                         && forall i :: 0 <= i < |v.fields["Entries"].items| ==> DecodeEntryElement(v.fields["Entries"].items[i]).Some?
    ensures r.Some? ==> |r.value.entries| == |v.fields["Entries"].items|
    ensures r.Some? ==> forall i :: 0 <= i < |r.value.entries| ==> DecodeEntryElement(v.fields["Entries"].items[i]) == Some(r.value.entries[i])
  {
    if !v.Object? then None
    else
      var entries :- Required(v.fields, "Entries", x => SeqOf(x, DecodeEntryElement));
      Some(CarData(entries))
  }

  /** A channel whose value is not an integer never appears in a decoded car. */
  lemma NonIntegerChannelDropped(v: Value, channel: string)
    requires DecodeCar(v).Some?
    requires channel in v.fields["Channels"].fields
    requires !v.fields["Channels"].fields[channel].Int?
    ensures channel !in DecodeCar(v).value.channels
  {
  }

  // ---------------------------------------------------------------- driver list

  datatype DriverList = DriverList(
    racingNumber: string, broadcastName: string, fullName: string, tla: string, line: int,
    teamName: string, teamColour: string, firstName: string, lastName: string,
    reference: string, headshotUrl: Option<string>, countryCode: string,
    nameFormat: Option<string>)

  /** One driver-list entry; every field but the head-shot URL and name format is required. */
  function DecodeDriverList(v: Value): (r: Option<DriverList>)
    ensures r.Some? <==> v.Object? && FieldDecodes(v.fields, "RacingNumber", AsStr) && FieldDecodes(v.fields, "BroadcastName", AsStr)
                         && FieldDecodes(v.fields, "FullName", AsStr) && FieldDecodes(v.fields, "Tla", AsStr)
                         && FieldDecodes(v.fields, "Line", AsI64) && FieldDecodes(v.fields, "TeamName", AsStr)
                         && FieldDecodes(v.fields, "TeamColour", AsStr) && FieldDecodes(v.fields, "FirstName", AsStr)
                         && FieldDecodes(v.fields, "LastName", AsStr) && FieldDecodes(v.fields, "Reference", AsStr)
                         && OptionalFieldDecodes(v.fields, "HeadshotUrl", AsStr) && FieldDecodes(v.fields, "CountryCode", AsStr)
                         && OptionalFieldDecodes(v.fields, "NameFormat", AsStr)
    ensures r.Some? ==> FieldIs(v.fields, "RacingNumber", AsStr, r.value.racingNumber)
                        && FieldIs(v.fields, "BroadcastName", AsStr, r.value.broadcastName)
                        && FieldIs(v.fields, "FullName", AsStr, r.value.fullName) && FieldIs(v.fields, "Tla", AsStr, r.value.tla)
                        && FieldIs(v.fields, "Line", AsI64, r.value.line) && FieldIs(v.fields, "TeamName", AsStr, r.value.teamName)
                        && FieldIs(v.fields, "TeamColour", AsStr, r.value.teamColour)
                        && FieldIs(v.fields, "FirstName", AsStr, r.value.firstName)
                        && FieldIs(v.fields, "LastName", AsStr, r.value.lastName)
                        && FieldIs(v.fields, "Reference", AsStr, r.value.reference)
                        && OptionalFieldIs(v.fields, "HeadshotUrl", AsStr, r.value.headshotUrl)
                        && FieldIs(v.fields, "CountryCode", AsStr, r.value.countryCode)
                        && OptionalFieldIs(v.fields, "NameFormat", AsStr, r.value.nameFormat)
  {
    if !v.Object? then None
    else
      var f := v.fields;
      var racingNumber :- Required(f, "RacingNumber", AsStr);
      var broadcastName :- Required(f, "BroadcastName", AsStr);
      var fullName :- Required(f, "FullName", AsStr);
      var tla :- Required(f, "Tla", AsStr);
      var line :- Required(f, "Line", AsI64);
      var teamName :- Required(f, "TeamName", AsStr);
      var teamColour :- Required(f, "TeamColour", AsStr);
      var firstName :- Required(f, "FirstName", AsStr);
      var lastName :- Required(f, "LastName", AsStr);
      var reference :- Required(f, "Reference", AsStr);
      var headshotUrl :- Optional(f, "HeadshotUrl", AsStr);
      var countryCode :- Required(f, "CountryCode", AsStr);
      var nameFormat :- Optional(f, "NameFormat", AsStr);
      Some(DriverList(racingNumber, broadcastName, fullName, tla, line, teamName, teamColour,
                      firstName, lastName, reference, headshotUrl, countryCode, nameFormat))
  }

  // ---------------------------------------------------------------- race control

  datatype RaceControlMessage = RaceControlMessage(
    utc: string,
    lap: Option<int>,
    category: Category,
    flag: Option<Flag>,
    scope: Option<Scope>,
    message: string,
    sector: Option<int>,
    status: Option<string>,
    mode: Option<string>)

  /** One snapshot race-control message (its `Utc` stays a string). */
  function DecodeRaceControlMessage(v: Value): (r: Option<RaceControlMessage>)
    ensures r.Some? <==> v.Object? && FieldDecodes(v.fields, "Utc", AsStr) && OptionalFieldDecodes(v.fields, "Lap", AsI64)
                         && FieldDecodes(v.fields, "Category", AsCategory) && OptionalFieldDecodes(v.fields, "Flag", AsFlag)
                         && OptionalFieldDecodes(v.fields, "Scope", AsScope) && FieldDecodes(v.fields, "Message", AsStr)
                         && OptionalFieldDecodes(v.fields, "Sector", AsI64) && OptionalFieldDecodes(v.fields, "Status", AsStr)
                         && OptionalFieldDecodes(v.fields, "Mode", AsStr)
    ensures r.Some? ==> FieldIs(v.fields, "Utc", AsStr, r.value.utc) && OptionalFieldIs(v.fields, "Lap", AsI64, r.value.lap)
                        && FieldIs(v.fields, "Category", AsCategory, r.value.category)
                        && OptionalFieldIs(v.fields, "Flag", AsFlag, r.value.flag)
                        && OptionalFieldIs(v.fields, "Scope", AsScope, r.value.scope)
                        && FieldIs(v.fields, "Message", AsStr, r.value.message)
                        && OptionalFieldIs(v.fields, "Sector", AsI64, r.value.sector)
                        && OptionalFieldIs(v.fields, "Status", AsStr, r.value.status)
                        && OptionalFieldIs(v.fields, "Mode", AsStr, r.value.mode)
  {
    if !v.Object? then None
    else
      var f := v.fields;
      var utc :- Required(f, "Utc", AsStr);
      var lap :- Optional(f, "Lap", AsI64);
      var category :- Required(f, "Category", AsCategory);
      var flag :- Optional(f, "Flag", AsFlag);
      var scope :- Optional(f, "Scope", AsScope);
      var message :- Required(f, "Message", AsStr);
      var sector :- Optional(f, "Sector", AsI64);
      var status :- Optional(f, "Status", AsStr);
      var mode :- Optional(f, "Mode", AsStr);
      Some(RaceControlMessage(utc, lap, category, flag, scope, message, sector, status, mode))
  }

  datatype RaceControlMessages = RaceControlMessages(messages: seq<RaceControlMessage>)

  /** In the snapshot the messages are a plain list, in order; one bad message fails it. */
  function DecodeRaceControlMessages(v: Value): (r: Option<RaceControlMessages>)
    ensures r.Some? <==> v.Object? && "Messages" in v.fields && v.fields["Messages"].Array?
                         && forall i :: 0 <= i < |v.fields["Messages"].items| ==> DecodeRaceControlMessage(v.fields["Messages"].items[i]).Some?
    ensures r.Some? ==> |r.value.messages| == |v.fields["Messages"].items|
    ensures r.Some? ==> forall i :: 0 <= i < |r.value.messages| ==> DecodeRaceControlMessage(v.fields["Messages"].items[i]) == Some(r.value.messages[i])
  {
    if !v.Object? then None
    else
      var messages :- Required(v.fields, "Messages", x => SeqOf(x, DecodeRaceControlMessage));
      Some(RaceControlMessages(messages))
  }

  // ---------------------------------------------------------------- team radio

  datatype Capture = Capture(utc: string, racingNumber: string, path: string)

  /** One team-radio capture: three required strings. */
  function DecodeCapture(v: Value): (r: Option<Capture>)
    ensures r.Some? <==> v.Object? && "Utc" in v.fields && v.fields["Utc"].Str?
                         && "RacingNumber" in v.fields && v.fields["RacingNumber"].Str?
                         && "Path" in v.fields && v.fields["Path"].Str?
    ensures r.Some? ==> r.value == Capture(v.fields["Utc"].s, v.fields["RacingNumber"].s, v.fields["Path"].s)
  {
    if !v.Object? then None
    else
      var utc :- Required(v.fields, "Utc", AsStr);
      var racingNumber :- Required(v.fields, "RacingNumber", AsStr);
      var path :- Required(v.fields, "Path", AsStr);
      Some(Capture(utc, racingNumber, path))
  }

  datatype TeamRadio = TeamRadio(captures: seq<Capture>)

  /** In the snapshot the captures are a plain list, in order; one bad capture fails it. */
  function DecodeTeamRadio(v: Value): (r: Option<TeamRadio>)
    ensures r.Some? <==> v.Object? && "Captures" in v.fields && v.fields["Captures"].Array?
                         && forall i :: 0 <= i < |v.fields["Captures"].items| ==> DecodeCapture(v.fields["Captures"].items[i]).Some?
    ensures r.Some? ==> |r.value.captures| == |v.fields["Captures"].items|
    ensures r.Some? ==> forall i :: 0 <= i < |r.value.captures| ==> DecodeCapture(v.fields["Captures"].items[i]) == Some(r.value.captures[i])
  {
    if !v.Object? then None
    else
      var captures :- Required(v.fields, "Captures", x => SeqOf(x, DecodeCapture));
      Some(TeamRadio(captures))
  }

  // ---------------------------------------------------------------- timing app data

  datatype Stint = Stint(
    lapTime: Option<string>, lapNumber: Option<int>, lapFlags: int, compound: Compound,
    isNew: string, tyresNotChanged: string, totalLaps: int, startLaps: int)

  /** One stint; its compound is read through the exact-match `Compound` table. */
  function DecodeStint(v: Value): (r: Option<Stint>)
    ensures r.Some? <==> v.Object? && OptionalFieldDecodes(v.fields, "LapTime", AsStr)
                         && OptionalFieldDecodes(v.fields, "LapNumber", AsI64) && FieldDecodes(v.fields, "LapFlags", AsI64)
                         && FieldDecodes(v.fields, "Compound", AsCompound) && FieldDecodes(v.fields, "New", AsStr)
                         && FieldDecodes(v.fields, "TyresNotChanged", AsStr) && FieldDecodes(v.fields, "TotalLaps", AsI64)
                         && FieldDecodes(v.fields, "StartLaps", AsI64)
    ensures r.Some? ==> OptionalFieldIs(v.fields, "LapTime", AsStr, r.value.lapTime)
                        && OptionalFieldIs(v.fields, "LapNumber", AsI64, r.value.lapNumber)
                        && FieldIs(v.fields, "LapFlags", AsI64, r.value.lapFlags)
                        && FieldIs(v.fields, "Compound", AsCompound, r.value.compound)
                        && FieldIs(v.fields, "New", AsStr, r.value.isNew)
                        && FieldIs(v.fields, "TyresNotChanged", AsStr, r.value.tyresNotChanged)
                        && FieldIs(v.fields, "TotalLaps", AsI64, r.value.totalLaps)
                        && FieldIs(v.fields, "StartLaps", AsI64, r.value.startLaps)
  {
    if !v.Object? then None
    else
      var f := v.fields;
      var lapTime :- Optional(f, "LapTime", AsStr);
      var lapNumber :- Optional(f, "LapNumber", AsI64);
      var lapFlags :- Required(f, "LapFlags", AsI64);
      var compound :- Required(f, "Compound", AsCompound);
      var isNew :- Required(f, "New", AsStr);
      var tyresNotChanged :- Required(f, "TyresNotChanged", AsStr);
      var totalLaps :- Required(f, "TotalLaps", AsI64);
      var startLaps :- Required(f, "StartLaps", AsI64);
      Some(Stint(lapTime, lapNumber, lapFlags, compound, isNew, tyresNotChanged, totalLaps, startLaps))
  }

  /** A line's stint list: every stint must decode. */
  function DecodeStints(v: Value): Option<seq<Stint>> {
    SeqOf(v, DecodeStint)
  }

  datatype TimingAppDataLine = TimingAppDataLine(
    racingNumber: string, line: int, gridPos: Option<string>, stints: Option<seq<Stint>>)

  /** One snapshot timing-app line: racing number and line are required, stints optional. */
  function DecodeTimingAppDataLine(v: Value): (r: Option<TimingAppDataLine>)
    ensures r.Some? <==> v.Object? && FieldDecodes(v.fields, "RacingNumber", AsStr) && FieldDecodes(v.fields, "Line", AsI64)
                         && OptionalFieldDecodes(v.fields, "GridPos", AsStr) && OptionalFieldDecodes(v.fields, "Stints", DecodeStints)
    ensures r.Some? ==> FieldIs(v.fields, "RacingNumber", AsStr, r.value.racingNumber)
                        && FieldIs(v.fields, "Line", AsI64, r.value.line)
                        && OptionalFieldIs(v.fields, "GridPos", AsStr, r.value.gridPos)
                        && OptionalFieldIs(v.fields, "Stints", DecodeStints, r.value.stints)
    ensures r.Some? && r.value.stints.Some? ==>
              v.fields["Stints"].Array? && |r.value.stints.value| == |v.fields["Stints"].items|
              && forall i :: 0 <= i < |r.value.stints.value| ==> DecodeStint(v.fields["Stints"].items[i]) == Some(r.value.stints.value[i])
  {
    if !v.Object? then None
    else
      var f := v.fields;
      var racingNumber :- Required(f, "RacingNumber", AsStr);
      var line :- Required(f, "Line", AsI64);
      var gridPos :- Optional(f, "GridPos", AsStr);
      var stints :- Optional(f, "Stints", DecodeStints);
      Some(TimingAppDataLine(racingNumber, line, gridPos, stints))
  }

  datatype TimingAppData = TimingAppData(lines: map<string, TimingAppDataLine>)

  /** Snapshot TimingAppData: kf-filtered `lines`; it fails only when `Lines` is not a map. */
  function DecodeTimingAppData(v: Value): (r: Option<TimingAppData>)
    ensures r.Some? <==> v.Object? && "Lines" in v.fields && v.fields["Lines"].Object?
    ensures r.Some? ==> IsKfFiltered(v.fields["Lines"].fields, DecodeTimingAppDataLine, r.value.lines)
  {
    if !v.Object? then None
    else
      var lines :- Required(v.fields, "Lines", x => KfFilter(x, DecodeTimingAppDataLine).ToOption());
      Some(TimingAppData(lines))
  }

  // ---------------------------------------------------------------- timing data

  datatype TimingDataLine = TimingDataLine(
    gapToLeader: Option<string>, intervalToPositionAhead: Option<Value>, line: int,
    position: string, showPosition: bool, racingNumber: string, retired: bool, inPit: bool,
    pitOut: bool, stopped: bool, status: int, numberOfLaps: Option<int>,
    numberOfPitStops: Option<int>, sectors: Value, speeds: Value, bestLapTime: Value,
    lastLapTime: Value)

  /** The fields a snapshot timing line cannot do without. */
  const TimingDataLineRequired: set<string> :=
    {"Line", "Position", "ShowPosition", "RacingNumber", "Retired", "InPit", "PitOut",
     "Stopped", "Status", "Sectors", "Speeds", "BestLapTime", "LastLapTime"}

  /** One snapshot timing line: it decodes only when every required field is present. */
  function DecodeTimingDataLine(v: Value, ext: Externals): (r: Option<TimingDataLine>)
    ensures r.Some? ==> v.Object? && forall name :: name in TimingDataLineRequired ==> name in v.fields
    ensures r.Some? <==> v.Object? && OptionalFieldDecodes(v.fields, "GapToLeader", AsStr)
                         && OptionalFieldDecodes(v.fields, "IntervalToPositionAhead", Opaque(ext, "data::IntervalToPositionAhead"))
                         && FieldDecodes(v.fields, "Line", AsI64) && FieldDecodes(v.fields, "Position", AsStr)
                         && FieldDecodes(v.fields, "ShowPosition", AsBool) && FieldDecodes(v.fields, "RacingNumber", AsStr)
                         && FieldDecodes(v.fields, "Retired", AsBool) && FieldDecodes(v.fields, "InPit", AsBool)
                         && FieldDecodes(v.fields, "PitOut", AsBool) && FieldDecodes(v.fields, "Stopped", AsBool)
                         && FieldDecodes(v.fields, "Status", AsI64) && OptionalFieldDecodes(v.fields, "NumberOfLaps", AsI64)
                         && OptionalFieldDecodes(v.fields, "NumberOfPitStops", AsI64)
                         && FieldDecodes(v.fields, "Sectors", Opaque(ext, "Vec<data::Sector>"))
                         && FieldDecodes(v.fields, "Speeds", Opaque(ext, "data::Speeds"))
                         && FieldDecodes(v.fields, "BestLapTime", Opaque(ext, "data::BestLapTime"))
                         && FieldDecodes(v.fields, "LastLapTime", Opaque(ext, "data::LastLapTime"))
    ensures r.Some? ==> OptionalFieldIs(v.fields, "GapToLeader", AsStr, r.value.gapToLeader)
                        && OptionalFieldIs(v.fields, "IntervalToPositionAhead", Opaque(ext, "data::IntervalToPositionAhead"), r.value.intervalToPositionAhead)
                        && FieldIs(v.fields, "Line", AsI64, r.value.line) && FieldIs(v.fields, "Position", AsStr, r.value.position)
                        && FieldIs(v.fields, "ShowPosition", AsBool, r.value.showPosition)
                        && FieldIs(v.fields, "RacingNumber", AsStr, r.value.racingNumber)
                        && FieldIs(v.fields, "Retired", AsBool, r.value.retired) && FieldIs(v.fields, "InPit", AsBool, r.value.inPit)
                        && FieldIs(v.fields, "PitOut", AsBool, r.value.pitOut) && FieldIs(v.fields, "Stopped", AsBool, r.value.stopped)
                        && FieldIs(v.fields, "Status", AsI64, r.value.status)
                        && OptionalFieldIs(v.fields, "NumberOfLaps", AsI64, r.value.numberOfLaps)
                        && OptionalFieldIs(v.fields, "NumberOfPitStops", AsI64, r.value.numberOfPitStops)
    ensures r.Some? ==> v.fields["Sectors"] == r.value.sectors && ext.records("Vec<data::Sector>", r.value.sectors)
                        && v.fields["Speeds"] == r.value.speeds && ext.records("data::Speeds", r.value.speeds)
                        && v.fields["BestLapTime"] == r.value.bestLapTime && ext.records("data::BestLapTime", r.value.bestLapTime)
                        && v.fields["LastLapTime"] == r.value.lastLapTime && ext.records("data::LastLapTime", r.value.lastLapTime)
  {
    if !v.Object? then None
    else
      var f := v.fields;
      var gapToLeader :- Optional(f, "GapToLeader", AsStr);
      var interval :- Optional(f, "IntervalToPositionAhead", Opaque(ext, "data::IntervalToPositionAhead"));
      var line :- Required(f, "Line", AsI64);
      var position :- Required(f, "Position", AsStr);
      var showPosition :- Required(f, "ShowPosition", AsBool);
      var racingNumber :- Required(f, "RacingNumber", AsStr);
      var retired :- Required(f, "Retired", AsBool);
      var inPit :- Required(f, "InPit", AsBool);
      var pitOut :- Required(f, "PitOut", AsBool);
      var stopped :- Required(f, "Stopped", AsBool);
      var status :- Required(f, "Status", AsI64);
      var numberOfLaps :- Optional(f, "NumberOfLaps", AsI64);
      var numberOfPitStops :- Optional(f, "NumberOfPitStops", AsI64);
      var sectors :- Required(f, "Sectors", Opaque(ext, "Vec<data::Sector>"));
      var speeds :- Required(f, "Speeds", Opaque(ext, "data::Speeds"));
      var bestLapTime :- Required(f, "BestLapTime", Opaque(ext, "data::BestLapTime"));
      var lastLapTime :- Required(f, "LastLapTime", Opaque(ext, "data::LastLapTime"));
      Some(TimingDataLine(gapToLeader, interval, line, position, showPosition, racingNumber,
                          retired, inPit, pitOut, stopped, status, numberOfLaps,
                          numberOfPitStops, sectors, speeds, bestLapTime, lastLapTime))
  }

  datatype TimingData = TimingData(sessionPart: Option<int>, lines: map<string, TimingDataLine>)

  /** Snapshot TimingData: its success does not depend on any line. */
  function DecodeTimingData(v: Value, ext: Externals): (r: Option<TimingData>)
    ensures r.Some? <==> v.Object? && "Lines" in v.fields && v.fields["Lines"].Object?
                         && OptionalFieldDecodes(v.fields, "SessionPart", AsI8)
    ensures r.Some? ==> IsKfFiltered(v.fields["Lines"].fields, x => DecodeTimingDataLine(x, ext), r.value.lines)
    ensures r.Some? ==> OptionalFieldIs(v.fields, "SessionPart", AsI8, r.value.sessionPart)
  {
    if !v.Object? then None
    else
      var sessionPart :- Optional(v.fields, "SessionPart", AsI8);
      var lines :- Required(v.fields, "Lines", x => KfFilter(x, y => DecodeTimingDataLine(y, ext)).ToOption());
      Some(TimingData(sessionPart, lines))
  }

  /** A line missing a required field is dropped from `lines`; the snapshot still decodes. */
  lemma MissingFieldDropsLine(v: Value, ext: Externals, key: string, name: string)
    requires DecodeTimingData(v, ext).Some?
    requires key in v.fields["Lines"].fields
    requires name in TimingDataLineRequired
    requires v.fields["Lines"].fields[key].Object? && name !in v.fields["Lines"].fields[key].fields
    ensures key !in DecodeTimingData(v, ext).value.lines
  {
    var line := v.fields["Lines"].fields[key];
    assert DecodeTimingDataLine(line, ext).None?;
  }

  // ---------------------------------------------------------------- timing stats

  datatype TimingStatsLine = TimingStatsLine(
    line: int, racingNumber: string, personalBestLapTime: Value, bestSectors: Value,
    bestSpeeds: Value)

  /** One snapshot timing-stats line: every field is required. */
  function DecodeTimingStatsLine(v: Value, ext: Externals): (r: Option<TimingStatsLine>)
    ensures r.Some? <==> v.Object? && FieldDecodes(v.fields, "Line", AsI64) && FieldDecodes(v.fields, "RacingNumber", AsStr)
                         && "PersonalBestLapTime" in v.fields && ext.records("data::PersonalBestLapTime", v.fields["PersonalBestLapTime"])
                         && "BestSectors" in v.fields && ext.records("Vec<data::BestSector>", v.fields["BestSectors"])
                         && "BestSpeeds" in v.fields && ext.records("data::BestSpeeds", v.fields["BestSpeeds"])
    ensures r.Some? ==> FieldIs(v.fields, "Line", AsI64, r.value.line) && FieldIs(v.fields, "RacingNumber", AsStr, r.value.racingNumber)
                        && r.value.personalBestLapTime == v.fields["PersonalBestLapTime"]
                        && r.value.bestSectors == v.fields["BestSectors"] && r.value.bestSpeeds == v.fields["BestSpeeds"]
  {
    if !v.Object? then None
    else
      var f := v.fields;
      var line :- Required(f, "Line", AsI64);
      var racingNumber :- Required(f, "RacingNumber", AsStr);
      var personalBest :- Required(f, "PersonalBestLapTime", Opaque(ext, "data::PersonalBestLapTime"));
      var bestSectors :- Required(f, "BestSectors", Opaque(ext, "Vec<data::BestSector>"));
      var bestSpeeds :- Required(f, "BestSpeeds", Opaque(ext, "data::BestSpeeds"));
      Some(TimingStatsLine(line, racingNumber, personalBest, bestSectors, bestSpeeds))
  }

  datatype TimingStats = TimingStats(lines: map<string, TimingStatsLine>, sessionType: Option<string>)

  /** Snapshot TimingStats: kf-filtered `lines` and an optional session type. */
  function DecodeTimingStats(v: Value, ext: Externals): (r: Option<TimingStats>)
    ensures r.Some? <==> v.Object? && "Lines" in v.fields && v.fields["Lines"].Object?
                         && OptionalFieldDecodes(v.fields, "SessionType", AsStr)
    ensures r.Some? ==> IsKfFiltered(v.fields["Lines"].fields, x => DecodeTimingStatsLine(x, ext), r.value.lines)
    ensures r.Some? ==> OptionalFieldIs(v.fields, "SessionType", AsStr, r.value.sessionType)
  {
    if !v.Object? then None
    else
      var lines :- Required(v.fields, "Lines", x => KfFilter(x, y => DecodeTimingStatsLine(y, ext)).ToOption());
      var sessionType :- Optional(v.fields, "SessionType", AsStr);
      Some(TimingStats(lines, sessionType))
  }

  // ---------------------------------------------------------------- lap series

  datatype LapSeries = LapSeries(racingNumber: string, lapPosition: seq<string>)

  /** One snapshot lap series: the lap positions are a plain list of strings, in order. */
  function DecodeLapSeries(v: Value): (r: Option<LapSeries>)
    ensures r.Some? <==> v.Object? && "RacingNumber" in v.fields && v.fields["RacingNumber"].Str?
                         && "LapPosition" in v.fields && v.fields["LapPosition"].Array?
                         && forall i :: 0 <= i < |v.fields["LapPosition"].items| ==> v.fields["LapPosition"].items[i].Str?
    ensures r.Some? ==> |r.value.lapPosition| == |v.fields["LapPosition"].items|
                        && forall i :: 0 <= i < |r.value.lapPosition| ==> v.fields["LapPosition"].items[i] == Str(r.value.lapPosition[i])
    ensures r.Some? ==> v.fields["RacingNumber"] == Str(r.value.racingNumber)
  {
    if !v.Object? then None
    else
      var racingNumber :- Required(v.fields, "RacingNumber", AsStr);
      var lapPosition :- Required(v.fields, "LapPosition", x => SeqOf(x, AsStr));
      Some(LapSeries(racingNumber, lapPosition))
  }
}
