/**
 * The update-side payload types: the fieldless enums read by exact-match string tables, the
 * untagged pit-time choice, and the collections whose keyed maps go through `kf_remover`,
 * `flatten_map_to_vec` or a plain map decode.
 *
 * The line records of TimingAppData, TimingData, TimingStats and TopThree, and TeamRadio's
 * capture record, are decoder parameters.  The first two lines use helpers the source does not
 * define (`map_or_vec_to_vec_optional`, `flatten_map_to_vec_optional`) and the capture names a
 * type it does not resolve (`super::Capture`); the TimingStats and TopThree lines only list
 * fields, so they are kept opaque like the other such records.
 */
module Updates {
  import opened Wrappers
  import opened Json
  import opened Deserializer

  // ---------------------------------------------------------------- race-control enums

  datatype Category = Drs | Flag | Other | SafetyCar | CarEvent

  function CategoryName(c: Category): string {
    match c
    case Drs => "Drs"
    case Flag => "Flag"
    case Other => "Other"
    case SafetyCar => "SafetyCar"
    case CarEvent => "CarEvent"
  }

  /** `Category` reads exactly its variant names. */
  function CategoryOf(s: string): (r: Option<Category>)
    ensures forall c :: CategoryName(c) == s <==> r == Some(c)
  {
    if s == "Drs" then Some(Drs)
    else if s == "Flag" then Some(Category.Flag)
    else if s == "Other" then Some(Other)
    else if s == "SafetyCar" then Some(SafetyCar)
    else if s == "CarEvent" then Some(CarEvent)
    else None
  }

  /** A `Category` field: a JSON string naming one variant. */
  function AsCategory(v: Value): (r: Option<Category>)
    ensures forall c :: r == Some(c) <==> v == Str(CategoryName(c))
  {
    AsEnum(v, CategoryOf)
  }

  datatype Flag = Chequered | Clear | DoubleYellow | Green | Yellow | Red | Blue | BlackAndWhite

  function FlagName(f: Flag): string {
    match f
    case Chequered => "CHEQUERED"
    case Clear => "CLEAR"
    case DoubleYellow => "DOUBLE YELLOW"
    case Green => "GREEN"
    case Yellow => "YELLOW"
    case Red => "RED"
    case Blue => "BLUE"
    case BlackAndWhite => "BLACK AND WHITE"
  }

  /** `Flag` reads exactly the eight upper-case renames. */
  function FlagOf(s: string): (r: Option<Flag>)
    ensures forall f :: FlagName(f) == s <==> r == Some(f)
  {
    if s == "CHEQUERED" then Some(Chequered)
    else if s == "CLEAR" then Some(Clear)
    else if s == "DOUBLE YELLOW" then Some(DoubleYellow)
    else if s == "GREEN" then Some(Green)
    else if s == "YELLOW" then Some(Yellow)
    else if s == "RED" then Some(Red)
    else if s == "BLUE" then Some(Blue)
    else if s == "BLACK AND WHITE" then Some(BlackAndWhite)
    else None
  }

  /** A `Flag` field. */
  function AsFlag(v: Value): (r: Option<Flag>)
    ensures forall f :: r == Some(f) <==> v == Str(FlagName(f))
  {
    AsEnum(v, FlagOf)
  }

  datatype Scope = Sector | Track | Driver

  function ScopeName(c: Scope): string {
    match c
    case Sector => "Sector"
    case Track => "Track"
    case Driver => "Driver"
  }

  /** `Scope` reads exactly its variant names. */
  function ScopeOf(s: string): (r: Option<Scope>)
    ensures forall c :: ScopeName(c) == s <==> r == Some(c)
  {
    if s == "Sector" then Some(Sector)
    else if s == "Track" then Some(Track)
    else if s == "Driver" then Some(Driver)
    else None
  }

  /** A `Scope` field. */
  function AsScope(v: Value): (r: Option<Scope>)
    ensures forall c :: r == Some(c) <==> v == Str(ScopeName(c))
  {
    AsEnum(v, ScopeOf)
  }

  datatype Compound = Hard | Medium | Soft | Intermediate | Wet | Unknown

  function CompoundName(c: Compound): string {
    match c
    case Hard => "HARD"
    case Medium => "MEDIUM"
    case Soft => "SOFT"
    case Intermediate => "INTERMEDIATE"
    case Wet => "WET"
    case Unknown => "UNKNOWN"
  }

  /** `Compound` reads exactly the six upper-case renames. */
  function CompoundOf(s: string): (r: Option<Compound>)
    ensures forall c :: CompoundName(c) == s <==> r == Some(c)
  {
    if s == "HARD" then Some(Hard)
    else if s == "MEDIUM" then Some(Medium)
    else if s == "SOFT" then Some(Soft)
    else if s == "INTERMEDIATE" then Some(Intermediate)
    else if s == "WET" then Some(Wet)
    else if s == "UNKNOWN" then Some(Unknown)
    else None
  }

  // ---------------------------------------------------------------- race-control messages

  datatype RaceControlMessage = RaceControlMessage(
    utc: int,
    lap: Option<int>,
    category: Category,
    flag: Option<Flag>,
    scope: Option<Scope>,
    message: string,
    sector: Option<int>,
    status: Option<string>,
    mode: Option<string>,
    racingNumber: Option<string>)

  /** One race-control message; `date` is `parse_chrono_date`. */
  function DecodeRaceControlMessage(v: Value, date: Value -> Option<int>): (r: Option<RaceControlMessage>)
    ensures r.Some? <==> v.Object? && FieldDecodes(v.fields, "Utc", date) && OptionalFieldDecodes(v.fields, "Lap", AsI64)
                         && FieldDecodes(v.fields, "Category", AsCategory) && OptionalFieldDecodes(v.fields, "Flag", AsFlag)
                         && OptionalFieldDecodes(v.fields, "Scope", AsScope) && FieldDecodes(v.fields, "Message", AsStr)
                         && OptionalFieldDecodes(v.fields, "Sector", AsI64) && OptionalFieldDecodes(v.fields, "Status", AsStr)
                         && OptionalFieldDecodes(v.fields, "Mode", AsStr) && OptionalFieldDecodes(v.fields, "RacingNumber", AsStr)
    ensures r.Some? ==> FieldIs(v.fields, "Utc", date, r.value.utc) && OptionalFieldIs(v.fields, "Lap", AsI64, r.value.lap)
                        && FieldIs(v.fields, "Category", AsCategory, r.value.category)
                        && OptionalFieldIs(v.fields, "Flag", AsFlag, r.value.flag)
                        && OptionalFieldIs(v.fields, "Scope", AsScope, r.value.scope)
                        && FieldIs(v.fields, "Message", AsStr, r.value.message)
                        && OptionalFieldIs(v.fields, "Sector", AsI64, r.value.sector)
                        && OptionalFieldIs(v.fields, "Status", AsStr, r.value.status)
                        && OptionalFieldIs(v.fields, "Mode", AsStr, r.value.mode)
                        && OptionalFieldIs(v.fields, "RacingNumber", AsStr, r.value.racingNumber)
  {
    if !v.Object? then None
    else
      var f := v.fields;
      var utc :- Required(f, "Utc", date);
      var lap :- Optional(f, "Lap", AsI64);
      var category :- Required(f, "Category", AsCategory);
      var flag :- Optional(f, "Flag", AsFlag);
      var scope :- Optional(f, "Scope", AsScope);
      var message :- Required(f, "Message", AsStr);
      var sector :- Optional(f, "Sector", AsI64);
      var status :- Optional(f, "Status", AsStr);
      var mode :- Optional(f, "Mode", AsStr);
      var racingNumber :- Optional(f, "RacingNumber", AsStr);
      Some(RaceControlMessage(utc, lap, category, flag, scope, message, sector, status, mode, racingNumber))
  }

  /** Messages keyed by number on the wire, flattened: the list is known up to order. */
  datatype RaceControlMessages = RaceControlMessages(messages: multiset<RaceControlMessage>)

  ghost function DecodeRaceControlMessages(v: Value, date: Value -> Option<int>): (r: Option<RaceControlMessages>)
    ensures r.Some? <==> v.Object? && "Messages" in v.fields && v.fields["Messages"].Object?
                         && AllConvert(v.fields["Messages"].fields, x => DecodeRaceControlMessage(x, date))
    ensures r.Some? ==> |r.value.messages| == |v.fields["Messages"].fields|
    ensures r.Some? ==> IsFlattened(v.fields["Messages"].fields, x => DecodeRaceControlMessage(x, date), r.value.messages)
  {
    if !v.Object? then None
    else
      var messages :- Required(v.fields, "Messages", x => Flatten(x, y => DecodeRaceControlMessage(y, date)).ToOption());
      Some(RaceControlMessages(messages))
  }

  // ---------------------------------------------------------------- keyed collections

  datatype TimingAppData<L> = TimingAppData(lines: map<string, L>)

  /** TimingAppData: `lines` goes through `kf_remover`, so it never fails on a line. */
  function DecodeTimingAppData<L>(v: Value, line: Value -> Option<L>): (r: Option<TimingAppData<L>>)
    ensures r.Some? <==> v.Object? && "Lines" in v.fields && v.fields["Lines"].Object?
    ensures r.Some? ==> IsKfFiltered(v.fields["Lines"].fields, line, r.value.lines)
  {
    if !v.Object? then None
    else
      var lines :- Required(v.fields, "Lines", x => KfFilter(x, line).ToOption());
      Some(TimingAppData(lines))
  }

  datatype TimingData<L> = TimingData(sessionPart: Option<int>, lines: map<string, L>)

  /** TimingData: an optional `i8` session part and kf-filtered `lines`. */
  function DecodeTimingData<L>(v: Value, line: Value -> Option<L>): (r: Option<TimingData<L>>)
    ensures r.Some? <==> v.Object? && "Lines" in v.fields && v.fields["Lines"].Object?
                         && OptionalFieldDecodes(v.fields, "SessionPart", AsI8)
    ensures r.Some? ==> IsKfFiltered(v.fields["Lines"].fields, line, r.value.lines)
    ensures r.Some? ==> OptionalFieldIs(v.fields, "SessionPart", AsI8, r.value.sessionPart)
    ensures r.Some? && r.value.sessionPart.Some? ==> I8_MIN <= r.value.sessionPart.value <= I8_MAX
  {
    if !v.Object? then None
    else
      var sessionPart :- Optional(v.fields, "SessionPart", AsI8);
      var lines :- Required(v.fields, "Lines", x => KfFilter(x, line).ToOption());
      Some(TimingData(sessionPart, lines))
  }

  datatype TimingStats<L> = TimingStats(lines: map<string, L>, sessionType: Option<string>)

  /** TimingStats: kf-filtered `lines` and an optional session type. */
  function DecodeTimingStats<L>(v: Value, line: Value -> Option<L>): (r: Option<TimingStats<L>>)
    ensures r.Some? <==> v.Object? && "Lines" in v.fields && v.fields["Lines"].Object?
                         && OptionalFieldDecodes(v.fields, "SessionType", AsStr)
    ensures r.Some? ==> IsKfFiltered(v.fields["Lines"].fields, line, r.value.lines)
    ensures r.Some? ==> OptionalFieldIs(v.fields, "SessionType", AsStr, r.value.sessionType)
  {
    if !v.Object? then None
    else
      var lines :- Required(v.fields, "Lines", x => KfFilter(x, line).ToOption());
      var sessionType :- Optional(v.fields, "SessionType", AsStr);
      Some(TimingStats(lines, sessionType))
  }

  datatype TopThree<L> = TopThree(lines: multiset<L>)

  /** TopThree: `lines` goes through `flatten_map_to_vec`: one line per key, and a single bad
      line fails the whole payload. */
  ghost function DecodeTopThree<L>(v: Value, line: Value -> Option<L>): (r: Option<TopThree<L>>)
    ensures r.Some? <==> v.Object? && "Lines" in v.fields && v.fields["Lines"].Object?
                         && AllConvert(v.fields["Lines"].fields, line)
    ensures r.Some? ==> |r.value.lines| == |v.fields["Lines"].fields|
    ensures r.Some? ==> IsFlattened(v.fields["Lines"].fields, line, r.value.lines)
  {
    if !v.Object? then None
    else
      var lines :- Required(v.fields, "Lines", x => Flatten(x, line).ToOption());
      Some(TopThree(lines))
  }

  datatype TeamRadio<C> = TeamRadio(captures: multiset<C>)

  /** TeamRadio: `captures` goes through `flatten_map_to_vec`. */
  ghost function DecodeTeamRadio<C>(v: Value, capture: Value -> Option<C>): (r: Option<TeamRadio<C>>)
    ensures r.Some? <==> v.Object? && "Captures" in v.fields && v.fields["Captures"].Object?
                         && AllConvert(v.fields["Captures"].fields, capture)
    ensures r.Some? ==> |r.value.captures| == |v.fields["Captures"].fields|
    ensures r.Some? ==> IsFlattened(v.fields["Captures"].fields, capture, r.value.captures)
  {
    if !v.Object? then None
    else
      var captures :- Required(v.fields, "Captures", x => Flatten(x, capture).ToOption());
      Some(TeamRadio(captures))
  }

  // ---------------------------------------------------------------- pit times

  datatype PitTimeEnum =
    | PitTime(racingNumber: string, duration: string, lap: string)
    | Deleted(numbers: seq<string>)

  /** The three string fields of `PitTime` in an object. */
  function PitTimeFromObject(v: Value): (r: Option<PitTimeEnum>)
    ensures r.Some? <==> v.Object? && FieldDecodes(v.fields, "RacingNumber", AsStr)
                         && FieldDecodes(v.fields, "Duration", AsStr) && FieldDecodes(v.fields, "Lap", AsStr)
    ensures r.Some? ==> r.value.PitTime? && FieldIs(v.fields, "RacingNumber", AsStr, r.value.racingNumber)
                        && FieldIs(v.fields, "Duration", AsStr, r.value.duration)
                        && FieldIs(v.fields, "Lap", AsStr, r.value.lap)
  {
    if !v.Object? then None
    else
      var racingNumber :- Required(v.fields, "RacingNumber", AsStr);
      var duration :- Required(v.fields, "Duration", AsStr);
      var lap :- Required(v.fields, "Lap", AsStr);
      Some(PitTime(racingNumber, duration, lap))
  }

  /** `PitTime` as serde derives it: a derived struct also reads a JSON array holding its fields
      in declaration order, here exactly three strings. */
  function PitTimeFromArray(v: Value): (r: Option<PitTimeEnum>)
    ensures r.Some? <==> v.Array? && |v.items| == 3 && forall i :: 0 <= i < 3 ==> v.items[i].Str?
    ensures r.Some? ==> r.value.PitTime? && v.items == [Str(r.value.racingNumber), Str(r.value.duration), Str(r.value.lap)]
  {
    if v.Array? && |v.items| == 3 && v.items[0].Str? && v.items[1].Str? && v.items[2].Str? then
      Some(PitTime(v.items[0].s, v.items[1].s, v.items[2].s))
    else
      None
  }

  /** A list of strings, as the `Deleted` variant reads it. */
  function StringList(v: Value): Option<seq<string>> {
    SeqOf(v, AsStr)
  }

  /** The untagged `PitTimeEnum` as written: `PitTime` is tried first, in either of its serde
      forms, and only then `Deleted`. */
  function DecodePitTimeEnumAsWritten(v: Value): (r: Option<PitTimeEnum>)
    ensures PitTimeFromObject(v).Some? ==> r == PitTimeFromObject(v)
    ensures PitTimeFromArray(v).Some? ==> r == PitTimeFromArray(v)
    ensures r.Some? && r.value.Deleted? ==> StringList(v) == Some(r.value.numbers) && |r.value.numbers| != 3
    ensures v.Array? && PitTimeFromArray(v).None? ==> (r.Some? <==> forall i :: 0 <= i < |v.items| ==> v.items[i].Str?)
    ensures v.Array? && PitTimeFromArray(v).None? && r.Some? ==>
              r.value.Deleted? && |r.value.numbers| == |v.items|
              && forall i :: 0 <= i < |v.items| ==> v.items[i] == Str(r.value.numbers[i])
    ensures !v.Object? && !v.Array? ==> r.None?
  {
    match v
    case Object(_) => PitTimeFromObject(v)
    case Array(_) =>
      if PitTimeFromArray(v).Some? then PitTimeFromArray(v)
      else var numbers :- StringList(v); Some(Deleted(numbers))
    case _ => None
  }

  /** Three deleted racing numbers are read as one pit time. */
  lemma ThreeDeletedNumbersReadAsPitTime()
    ensures StringList(Array([Str("44"), Str("1"), Str("16")])) == Some(["44", "1", "16"])
    ensures DecodePitTimeEnumAsWritten(Array([Str("44"), Str("1"), Str("16")])) == Some(PitTime("44", "1", "16"))
  {
    var v := Array([Str("44"), Str("1"), Str("16")]);
    var numbers := StringList(v);
    assert forall i :: 0 <= i < 3 ==> AsStr(v.items[i]).Some?;
    assert numbers.Some? && |numbers.value| == 3;
    assert AsStr(v.items[0]) == Some(numbers.value[0]);
    assert AsStr(v.items[1]) == Some(numbers.value[1]);
    assert AsStr(v.items[2]) == Some(numbers.value[2]);
    assert numbers.value == ["44", "1", "16"];
    assert PitTimeFromArray(v) == Some(PitTime("44", "1", "16"));
  }

  /** The pit-time choice as intended: an object with the three fields is a `PitTime`, and any
      list of strings is `Deleted`, whatever its length. */
  function DecodePitTimeEnum(v: Value): (r: Option<PitTimeEnum>)
    ensures v.Object? ==> r == PitTimeFromObject(v)
    ensures v.Array? ==> (r.Some? <==> forall i :: 0 <= i < |v.items| ==> v.items[i].Str?)
    ensures v.Array? && r.Some? ==> r.value.Deleted? && |r.value.numbers| == |v.items|
    ensures v.Array? && r.Some? ==> forall i :: 0 <= i < |v.items| ==> v.items[i] == Str(r.value.numbers[i])
    ensures !v.Object? && !v.Array? ==> r.None?
  {
    match v
    case Object(_) => PitTimeFromObject(v)
    case Array(_) => var numbers :- StringList(v); Some(Deleted(numbers))
    case _ => None
  }

  /** The two choices differ only on arrays of exactly three strings. */
  lemma PitTimeChoicesAgree(v: Value)
    requires !(v.Array? && |v.items| == 3)
    ensures DecodePitTimeEnumAsWritten(v) == DecodePitTimeEnum(v)
  {
  }

  datatype PitLaneTimeCollection = PitLaneTimeCollection(pitTimes: map<string, PitTimeEnum>)

  /** PitLaneTimeCollection: `pit_times` is a plain map, so every entry (a `"_kf"` entry too) must
      decode as a pit time, with the pit-time choice as written. */
  function DecodePitLaneTimeCollection(v: Value): (r: Option<PitLaneTimeCollection>)
    ensures r.Some? <==> v.Object? && "PitTimes" in v.fields && v.fields["PitTimes"].Object?
                         && forall k :: k in v.fields["PitTimes"].fields ==> DecodePitTimeEnumAsWritten(v.fields["PitTimes"].fields[k]).Some?
    ensures r.Some? ==> r.value.pitTimes.Keys == v.fields["PitTimes"].fields.Keys
    ensures r.Some? ==> forall k :: k in r.value.pitTimes ==> DecodePitTimeEnumAsWritten(v.fields["PitTimes"].fields[k]) == Some(r.value.pitTimes[k])
  {
    if !v.Object? then None
    else
      var pitTimes :- Required(v.fields, "PitTimes", x => MapOf(x, DecodePitTimeEnumAsWritten));
      Some(PitLaneTimeCollection(pitTimes))
  }

  /** In a collection too, a deletion of three cars is read as one pit time. */
  lemma CollectionReadsThreeDeletedNumbersAsPitTime()
    ensures DecodePitLaneTimeCollection(Object(map["PitTimes" := Object(map["1" := Array([Str("44"), Str("1"), Str("16")])])]))
            == Some(PitLaneTimeCollection(map["1" := PitTime("44", "1", "16")]))
  {
    ThreeDeletedNumbersReadAsPitTime();
    var entry := Array([Str("44"), Str("1"), Str("16")]);
    var times := Object(map["1" := entry]);
    assert times.fields.Keys == {"1"};
    var pitTimes := MapOf(times, DecodePitTimeEnumAsWritten);
    assert pitTimes.Some?;
    assert pitTimes.value["1"] == PitTime("44", "1", "16");
    assert pitTimes.value == map["1" := PitTime("44", "1", "16")];
  }

  // ---------------------------------------------------------------- lap times

  datatype BestLapTime = BestLapTime(value: string, lap: Option<int>, deleted: Option<seq<string>>)

  /** BestLapTime: `deleted` is read from the wire key `"_deleted"` as an optional list of
      strings. */
  function DecodeBestLapTime(v: Value): (r: Option<BestLapTime>)
    ensures r.Some? <==> v.Object? && FieldDecodes(v.fields, "Value", AsStr) && OptionalFieldDecodes(v.fields, "Lap", AsI64)
                         && OptionalFieldDecodes(v.fields, "_deleted", StringList)
    ensures r.Some? ==> FieldIs(v.fields, "Value", AsStr, r.value.value) && OptionalFieldIs(v.fields, "Lap", AsI64, r.value.lap)
    ensures r.Some? ==> (r.value.deleted.None? <==> "_deleted" !in v.fields || v.fields["_deleted"] == Null)
    ensures r.Some? && r.value.deleted.Some? ==>
              v.fields["_deleted"].Array? && |v.fields["_deleted"].items| == |r.value.deleted.value|
              && forall i :: 0 <= i < |r.value.deleted.value| ==> v.fields["_deleted"].items[i] == Str(r.value.deleted.value[i])
  {
    if !v.Object? then None
    else
      var value :- Required(v.fields, "Value", AsStr);
      var lap :- Optional(v.fields, "Lap", AsI64);
      var deleted :- Optional(v.fields, "_deleted", StringList);
      Some(BestLapTime(value, lap, deleted))
  }

  datatype LapSeries = LapSeries(lapPosition: map<string, string>)

  /** LapSeries: `lap_position` is a plain map of strings. */
  function DecodeLapSeries(v: Value): (r: Option<LapSeries>)
    ensures r.Some? <==> v.Object? && "LapPosition" in v.fields && v.fields["LapPosition"].Object?
                         && forall k :: k in v.fields["LapPosition"].fields ==> v.fields["LapPosition"].fields[k].Str?
    ensures r.Some? ==> r.value.lapPosition.Keys == v.fields["LapPosition"].fields.Keys
    ensures r.Some? ==> forall k :: k in r.value.lapPosition ==> v.fields["LapPosition"].fields[k] == Str(r.value.lapPosition[k])
  {
    if !v.Object? then None
    else
      var lapPosition :- Required(v.fields, "LapPosition", x => MapOf(x, AsStr));
      Some(LapSeries(lapPosition))
  }
}
