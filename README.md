# f1-dash-data-parser: the message-decoding front end, in Dafny

This project models how the F1 live-timing parser turns one socket message into something the
rest of the program can use. It covers these parts:

- **The envelope** (`SocketMessage`). It may hold an update list under `"M"` and a full snapshot
  under `"R"`.
- **`parse_message`**. It classifies the envelope as `Update(payloads)`, `Replay(snapshot)` or
  `Empty`. An update list takes precedence over a snapshot, and an empty list gives `Empty`.
- **The untagged `Update` enum**. Each update is a `[tag, payload, timestamp]` triple. The enum
  tries its variants in declaration order. A variant matches when its marker enum accepts the
  tag and its payload type accepts the payload.
- **The marker enums**, as an exact-match tag table.
- **The two map-reshaping deserializer helpers.**
  - `kf_remover` drops the `"_kf"` bookkeeping key and silently discards entries that do not
    convert.
  - `flatten_map_to_vec` turns a keyed map into a list. It fails if any single entry fails.
- **The payload types of the update stream (`updates`) and of the snapshot (`data`)**: their
  wire-string enum tables, the kf-filtered `lines`, `cars` and `channels` maps, the flattened
  message and capture lists, and the untagged `PitTimeEnum`.

JSON values are modelled as a datatype (`Json.Value`). serde's rules for derived types are
written out:

- A missing or `null` `Option` field reads as `None`.
- A missing required field fails the struct.
- Unknown keys are ignored.
- A `Vec` or a plain `HashMap` decodes all-or-nothing.
- A unit enum is read from a string naming one of its variants.
- `i64` and `i8` ranges are explicit.

The things the code calls but whose behaviour is not visible are parameters, bundled in
`Foreign.Externals`:

- `parse_chrono_date`, the timestamp parser;
- `inflate_zlib`, which does base64, then DEFLATE, then JSON;
- `inflate_zlib_variant_car` and `inflate_zlib_variant_pos`, which the CarData and Positions
  variants name for reading their whole triple but which the source never defines;
- the schemas of records that only list fields, such as `WeatherData`, `SessionInfo` and the
  sector and speed records.

`HashMap` iteration order is unspecified. So `flatten_map_to_vec` is specified up to permutation:
a multiset on the function side, and a method that may visit the keys in any order.

Modules follow the source:

| module | file |
|---|---|
| `Deserializer` | `src/parser/deserializer.rs` |
| `Markers` | `src/parser/models/markers.rs` |
| `Updates` | `src/parser/models/updates.rs` |
| `Snapshot` | `src/parser/models/data.rs` |
| `Models` | `src/parser/models.rs` |
| `Parser` | `src/parser.rs` |

`Json`, `Wrappers` and `Foreign` hold the shared value model.

## Model

| member | source | states |
|---|---|---|
| Deserializer.KfFilter | src/parser/deserializer.rs:7-21 | succeeds exactly when the input is a map and otherwise fails with NotAMap. On success: no `"_kf"` key; every kept key is an input key; a non-`"_kf"` key is kept exactly when its value converts; each kept value is the conversion of its input value |
| Deserializer.KfRemover | src/parser/deserializer.rs:12-20 | the loop that removes `"_kf"` and inserts each converted entry returns exactly KfFilter's result, whatever order it visits the keys in |
| Deserializer.ConvertedBagRemove | src/parser/deserializer.rs:31-33 | converting all entries but one, then adding that entry's conversion, gives the whole bag, so the visiting order does not matter |
| Deserializer.ConvertedBagSize | src/parser/deserializer.rs:31-34 | when every entry converts, the converted bag has one element per entry |
| Deserializer.ConvertedBagSource | src/parser/deserializer.rs:31-33 | every element of the converted bag is the conversion of some entry |
| Deserializer.ConvertedBagVisit | src/parser/deserializer.rs:31-33 | visiting one more key keeps every visited entry convertible and adds exactly that entry's conversion to the bag |
| Deserializer.Flatten | src/parser/deserializer.rs:23-37 | fails with NotAMap exactly when the input is not a map, and with InvalidItem exactly when some entry fails to convert. On success the list has one element per entry, contains every entry's conversion, and holds nothing else |
| Deserializer.FlattenMapToVec | src/parser/deserializer.rs:28-36 | the push loop with early error exit fails exactly when Flatten fails, with the same error. On success the vector has one element per entry and is a permutation of Flatten's elements |
| Markers.Accepts | src/parser/models/markers.rs:3-89 | each marker enum accepts exactly its own variant name: "TimingData" and "TimingDataF1" for the timing-data marker, "CarData.z" and "Position.z" for the two compressed markers, and its own name for each of the rest |
| Markers.MarkerOf | src/parser/models/markers.rs:3-89 | the table returns only a marker that accepts the tag, and returns nothing only when no marker accepts it |
| Markers.OnlyMarker | src/parser/models/markers.rs:3-89 | whichever marker accepts a tag, the table returns exactly that marker |
| Markers.MarkerOfExact | src/parser/models/markers.rs:3-89 | a marker accepts a tag exactly when the table returns it, so the tag table is a partial function from tags to markers |
| Markers.MarkersDisjoint | src/parser/models/markers.rs:3-89 | two markers that accept the same tag are the same marker |
| Markers.TimingDataTags | src/parser/models/markers.rs:58-62 | "TimingData" and "TimingDataF1" both select the timing-data marker |
| Markers.CarDataTag | src/parser/models/markers.rs:79-83 | "CarData.z" selects the car-data marker and plain "CarData" selects none |
| Markers.PositionsTag | src/parser/models/markers.rs:85-89 | "Position.z" selects the positions marker and "Positions" selects none |
| Markers.CaseSensitiveTags | src/parser/models/markers.rs:3-6 | "Heartbeat" is a tag and "heartbeat" is not |
| Updates.CategoryOf | src/parser/models/updates.rs:51-58 | reads a string into a Category exactly when the string is that variant's name |
| Updates.FlagOf | src/parser/models/updates.rs:60-78 | reads a string into a Flag exactly when it is that variant's upper-case rename, e.g. "DOUBLE YELLOW" and "BLACK AND WHITE" |
| Updates.ScopeOf | src/parser/models/updates.rs:80-85 | reads a string into a Scope exactly when it is that variant's name |
| Updates.CompoundOf | src/parser/models/updates.rs:152-166 | reads a string into a Compound exactly when it is one of HARD, MEDIUM, SOFT, INTERMEDIATE, WET, UNKNOWN, naming that variant |
| Updates.DecodeRaceControlMessage | src/parser/models/updates.rs:35-49 | decodes exactly when it is an object whose `Utc` parses, whose `Category` and `Message` decode, and whose optional fields (`Lap`, `Flag`, `Scope`, `Sector`, `Status`, `Mode`, `RacingNumber`) are each absent, null or decodable. Each field of the result is the wire value: the timestamp from the date parser, the enums named by their wire strings, and each optional field None exactly when absent or null |
| Updates.DecodeRaceControlMessages | src/parser/models/updates.rs:28-33 | the keyed messages map decodes exactly when every message decodes. The result has one message per key and is the flattened multiset of the decoded messages |
| Updates.DecodeTimingAppData | src/parser/models/updates.rs:121-126 | decodes exactly when `Lines` is a map, whatever the lines hold. `lines` is its kf-filtered conversion |
| Updates.DecodeTimingData | src/parser/models/updates.rs:168-174 | decodes exactly when `Lines` is a map and `SessionPart` is absent, null or an `i8`. `lines` is kf-filtered, and the session part is None exactly when absent or null and otherwise the wire `i8` |
| Updates.DecodeTimingStats | src/parser/models/updates.rs:260-266 | decodes exactly when `Lines` is a map and `SessionType` is absent, null or a string. `lines` is kf-filtered, and the session type is None exactly when absent or null and otherwise the wire string |
| Updates.DecodeTopThree | src/parser/models/updates.rs:304-309 | decodes exactly when every keyed line decodes. The result has one line per key and is the flattened multiset |
| Updates.DecodeTeamRadio | src/parser/models/updates.rs:114-119 | decodes exactly when every keyed capture decodes. The result has one capture per key and is the flattened multiset |
| Updates.PitTimeFromObject | src/parser/models/updates.rs:345-349 | an object reads as PitTime exactly when `RacingNumber`, `Duration` and `Lap` are strings, and the three fields are those strings |
| Updates.PitTimeFromArray | src/parser/models/updates.rs:345-349 | serde's array form of PitTime: an array reads as PitTime exactly when it holds three strings, which become racing number, duration and lap in that order |
| Updates.DecodePitTimeEnumAsWritten | src/parser/models/updates.rs:336-349 | PitTime is tried first, as an object or as a three-string array. Any other array decodes exactly when all its items are strings, and then it is Deleted with those strings in order; a Deleted result never has three numbers. A value that is neither object nor array is rejected |
| Updates.ThreeDeletedNumbersReadAsPitTime | src/parser/models/updates.rs:336-349 | `["44","1","16"]` is a valid list of deleted racing numbers, yet the untagged enum reads it as PitTime("44","1","16") |
| Updates.CollectionReadsThreeDeletedNumbersAsPitTime | src/parser/models/updates.rs:330-349 | a pit-lane collection whose entry lists the three deleted numbers `["44","1","16"]` decodes with that entry as PitTime("44","1","16") |
| Updates.DecodePitTimeEnum | src/parser/models/updates.rs:336-349 | an object is read as PitTime with its three fields. An array decodes exactly when all its items are strings, and then it is Deleted with those strings in order |
| Updates.PitTimeChoicesAgree | src/parser/models/updates.rs:336-349 | the as-written and intended pit-time choices agree on every value except arrays of exactly three items |
| Updates.DecodePitLaneTimeCollection | src/parser/models/updates.rs:330-334 | `PitTimes` is a plain map read with the pit-time choice as written. It decodes exactly when every entry decodes, keeps every key, and maps each key to its entry's decoding |
| Updates.DecodeBestLapTime | src/parser/models/updates.rs:206-213 | decodes exactly when `Value` is a string and `Lap` and `_deleted` are each absent, null or decodable. The value and lap are the wire values. `deleted` is read from the wire key `"_deleted"`: None exactly when that key is absent or null, and otherwise the key's strings in order |
| Updates.DecodeLapSeries | src/parser/models/updates.rs:351-355 | decodes exactly when `LapPosition` is a map of strings. It keeps every key, and each key maps to its wire string |
| Snapshot.CategoryOf | src/parser/models/data.rs:73-80 | the snapshot Category table reads exactly its variant names |
| Snapshot.FlagOf | src/parser/models/data.rs:82-100 | the snapshot Flag table reads exactly the eight upper-case renames |
| Snapshot.ScopeOf | src/parser/models/data.rs:102-107 | the snapshot Scope table reads exactly its variant names |
| Snapshot.CompoundOf | src/parser/models/data.rs:175-189 | the snapshot Compound table reads exactly the six upper-case renames |
| Snapshot.CategoryTablesAgree | src/parser/models/data.rs:73-80 | the snapshot Category table accepts exactly the strings the update-side table accepts, and reads each into the variant of the same name |
| Snapshot.FlagTablesAgree | src/parser/models/data.rs:82-100 | the snapshot Flag table accepts exactly the update-side strings, and reads each into the variant of the same name |
| Snapshot.ScopeTablesAgree | src/parser/models/data.rs:102-107 | the snapshot Scope table accepts exactly the update-side strings, and reads each into the variant of the same name |
| Snapshot.CompoundTablesAgree | src/parser/models/data.rs:175-189 | the snapshot Compound table matches the update-side table string for string and variant for variant |
| Snapshot.DecodeCar | src/parser/models/data.rs:20-25 | a car decodes exactly when `Channels` is a map. Its channels are the kf-filtered `i64` values |
| Snapshot.NonIntegerChannelDropped | src/parser/models/data.rs:20-25 | a channel whose value is not an integer is not in the decoded car |
| Snapshot.DecodeEntryElement | src/parser/models/data.rs:12-18 | a sample decodes exactly when `Utc` is a string and `Cars` is a map. Its timestamp is the wire string and its cars are the kf-filtered decoded cars |
| Snapshot.DecodeCarData | src/parser/models/data.rs:6-10 | decodes exactly when `Entries` is an array whose every sample decodes. The i-th entry is the decoding of the i-th item |
| Snapshot.DecodeDriverList | src/parser/models/data.rs:27-43 | an entry decodes exactly when its eleven required fields decode (ten strings and an `i64` line) and `HeadshotUrl` and `NameFormat` are each absent, null or a string. Every field of the result is the wire value, the two optional ones None exactly when absent or null |
| Snapshot.DecodeRaceControlMessage | src/parser/models/data.rs:59-71 | decodes exactly when `Utc`, `Category` and `Message` decode and the optional fields are each absent, null or decodable. Every field is the wire value (the timestamp stays a string), the enums named by their wire strings, each optional field None exactly when absent or null |
| Snapshot.DecodeRaceControlMessages | src/parser/models/data.rs:53-57 | the snapshot message list decodes exactly when every item decodes, in order, one message per item |
| Snapshot.DecodeCapture | src/parser/models/data.rs:138-144 | a capture decodes exactly when Utc, RacingNumber and Path are strings, and it holds those strings |
| Snapshot.DecodeTeamRadio | src/parser/models/data.rs:132-136 | the snapshot capture list decodes exactly when every item decodes, in order, one capture per item |
| Snapshot.DecodeStint | src/parser/models/data.rs:162-173 | a stint decodes exactly when its six required fields decode and `LapTime` and `LapNumber` are each absent, null or decodable. Every field is the wire value; the compound is the variant its wire string names |
| Snapshot.DecodeTimingAppDataLine | src/parser/models/data.rs:153-160 | a line decodes exactly when the racing number and line decode and `GridPos` and `Stints` are each absent, null or decodable. Racing number, line and grid position are the wire values. Stints are None exactly when absent or null, and otherwise the i-th stint is the decoding of the i-th item |
| Snapshot.DecodeTimingAppData | src/parser/models/data.rs:146-151 | decodes exactly when `Lines` is a map. `lines` is the kf-filtered line map |
| Snapshot.DecodeTimingDataLine | src/parser/models/data.rs:199-219 | a line decodes exactly when every required field (Line, Position, ShowPosition, RacingNumber, Retired, InPit, PitOut, Stopped, Status, Sectors, Speeds, BestLapTime, LastLapTime) decodes and every optional one is absent, null or decodable. Every field is the wire value, and the four nested records are the raw values their schemas accept |
| Snapshot.DecodeTimingData | src/parser/models/data.rs:191-197 | decodes exactly when `Lines` is a map and `SessionPart` is absent, null or an `i8`, whatever the lines hold. `lines` is kf-filtered and the session part is the wire value, None when absent or null |
| Snapshot.MissingFieldDropsLine | src/parser/models/data.rs:191-219 | a line that lacks a required field is missing from `lines`, while the snapshot still decodes |
| Snapshot.DecodeTimingStatsLine | src/parser/models/data.rs:279-287 | a line decodes exactly when line and racing number decode and the three nested records are present and accepted by their schemas. Every field is the wire value |
| Snapshot.DecodeTimingStats | src/parser/models/data.rs:271-277 | decodes exactly when `Lines` is a map and `SessionType` is absent, null or a string. `lines` is kf-filtered and the session type is the wire value, None when absent or null |
| Snapshot.DecodeLapSeries | src/parser/models/data.rs:338-343 | decodes exactly when RacingNumber is a string and LapPosition an array of strings. The racing number is the wire string and the lap positions are those strings in order |
| Models.MarkerOfVariant | src/parser/models.rs:61-105 | every variant names a marker type in its first position except PitLaneTimeCollection and LapSeries, whose markers do not exist; each marker leads back to its variant |
| Models.PayloadAccepted | src/parser/models.rs:61-105 | the payload type in each variant's second position: the modelled decoders for the collections, the record schemas for records that only list fields, any value for DriverList |
| Models.TagCategory | src/parser/models.rs:58-106 | the tag decoder returns only a variant whose marker accepts the tag, and returns nothing only when no variant's marker accepts it |
| Models.MarkerRoundTrip | src/parser/models.rs:61-105 | the variant chosen for a marker has that marker in its first position |
| Models.TagDeterminesCategory | src/parser/models.rs:58-106 | whichever variant's marker accepts a tag, the tag decoder returns exactly that variant |
| Models.TagCategoryExact | src/parser/models.rs:58-106 | a variant accepts a tag exactly when the tag decoder returns it, so the tag alone determines the category |
| Models.TimingDataF1IsTimingData | src/parser/models.rs:69 | both "TimingData" and "TimingDataF1" select the TimingData variant |
| Models.FirstMatch | src/parser/models.rs:58-106 | the search fails exactly when no variant of the list reads the triple. Otherwise it returns the update of the first variant in the list that reads it: every earlier variant rejects the triple |
| Models.TryVariant | src/parser/models.rs:58-106 | a variant that reads the triple yields that variant. Outside CarData and Positions, it reads the triple exactly when the triple is well formed, its marker accepts the tag and its payload type accepts the payload, and it keeps payload and timestamp |
| Models.DecodeUpdate | src/parser/models.rs:58-106 | decoding fails exactly when no variant reads the triple. Otherwise the result is the update of the first variant, in declaration order, that reads it. Outside CarData and Positions, a decoded update is a three-element array of tag string, payload and timestamp string; it keeps the payload and timestamp, and its variant is the one the tag selects. A CarData or Positions update is what that variant's helper read. When both helpers read only triples tagged with their own marker, every variant is the one the tag selects |
| Models.CompleteSearchFails | src/parser/models.rs:58-106 | the search in declaration order fails only when no variant at all reads the triple |
| Models.VariantTag | src/parser/models.rs:58-106 | a variant that reads a triple is the one its tag selects, unless it is CarData or Positions read by a helper that does not check its marker; the two helper variants hold what their helper returned |
| Models.FirstMatchByTag | src/parser/models.rs:58-106 | when both variant helpers check their marker, searching any list of variants finds the tag-selected variant exactly when it is in the list and accepts the triple |
| Models.UpdateDeterminedByTag | src/parser/models.rs:58-106 | when both variant helpers check their marker, trying the variants in declaration order gives the same update as dispatching directly on the tag |
| Models.EveryVariantTried | src/parser/models.rs:58-106 | every variant of the enum is in the order the untagged match tries |
| Models.UndefinedMarkersNeverMatch | src/parser/models.rs:85-95 | no update decodes as the PitLaneTimeCollection or LapSeries variant |
| Models.NoMarkerNoMatch | src/parser/models.rs:85-95 | a variant with no marker type reads no triple |
| Models.DriverListKeepsPayload | src/parser/models.rs:105 | when both variant helpers check their marker, a "DriverList" triple decodes for every payload and keeps that payload uninterpreted |
| Models.DecodeHeartbeat | src/parser/models.rs:108-113 | a heartbeat decodes exactly when `Utc` parses as a date, and it holds that date |
| Models.DecodeLapCount | src/parser/models.rs:135-140 | decodes exactly when both counts are absent, null or `i64`, so an object with neither decodes. Each count is None exactly when absent or null and otherwise the wire integer |
| Models.DriverStatusOf | src/parser/models.rs:220-226 | reads exactly "OnTrack" and "OffTrack", each into its variant |
| Models.DecodeEntryValue | src/parser/models.rs:211-218 | decodes exactly when the status names a variant and X, Y and Z are `i64`. The status is the variant its wire string names and the coordinates are the wire integers |
| Models.DecodePositionElement | src/parser/models.rs:202-209 | decodes exactly when the timestamp parses and `Entries` is a map. The timestamp is the parsed date and the entries are kf-filtered |
| Models.DecodePositions | src/parser/models.rs:196-200 | decodes exactly when `Position` is an array whose every sample decodes. The i-th sample is the decoding of the i-th item |
| Models.DecodeData | src/parser/models.rs:28-56 | `LapSeries` and `DriverList` are kf-filtered maps. `CarData.z` and `Position.z` are inflated, then decoded |
| Models.SnapshotMapsHaveNoKf | src/parser/models.rs:46-50 | the snapshot's lap-series and driver-list maps never hold `"_kf"` |
| Models.DecodeMessage | src/parser/models.rs:22-26 | a message decodes exactly when its `"A"` is an update that decodes, and it holds that update |
| Models.DecodeSocketMessage | src/parser/models.rs:15-20 | `M` and `R` are each optional, and absent or null gives None. A present `M` gives one message per item, in order. A present `R` is the snapshot decoded from the raw `R` field |
| Parser.Classify | src/parser.rs:11-36 | Update exactly when M is present and non-empty, with one payload per message in order and never an empty list. Replay exactly when M is absent and R present, carrying R unchanged. Empty otherwise |
| Parser.ParseMessage | src/parser.rs:17-35 | the early-return branches and the push loop compute exactly Classify |
| Parser.UpdatesTakePrecedence | src/parser.rs:17-33 | when M is present, replacing R by anything leaves the result unchanged, and it is never Replay |
| Parser.ParseRaw | src/parser.rs:14-35 | for a raw envelope that decodes: Update exactly when M is a non-empty array, with one payload per item; Replay exactly when M is absent or null and R present and not null |
| Parser.RawUpdatePayloads | src/parser.rs:14-28 | for a raw envelope that decodes with a non-empty M, the i-th payload is that of the update decoded from the i-th message's `"A"` triple, which outside CarData and Positions is the triple's middle element |
| Parser.RawReplay | src/parser.rs:14-33 | for a raw envelope with no M and a non-null R, the result is a replay of exactly the snapshot decoded from R |

## Left out

- JSON text parsing of the raw message and the panic from `unwrap` on a malformed one (src/parser.rs:14-15). `Parser.ParseRaw` requires an envelope that decodes, and `ParseMessage` starts from the decoded envelope.
- The `println!` logging in `parse_message` (src/parser.rs:12): it is output only.
- `inflate_zlib` (base64 and DEFLATE, from the `base64` and `flate2` crates): it is the `Externals.inflate` parameter.
- `parse_chrono_date`: it is the `Externals.date` parameter, which maps a timestamp to milliseconds.
- `flatten_map_to_vec_optional` and `map_or_vec_to_vec_optional` are referenced but never defined, and are not part of this model. The records whose fields use them are opaque.
- `inflate_zlib_variant_car` and `inflate_zlib_variant_pos` are also referenced but never defined. They are the `Externals.carVariant` and `Externals.positionsVariant` parameters and may read any triple. Models.FirstMatchByTag, Models.UpdateDeterminedByTag and Models.DriverListKeepsPayload therefore hold only under `VariantHelpersCheckTag`, the hypothesis that each helper reads only triples tagged with its own marker.
- Records that only list fields are kept as raw values that `Externals.records` accepts. This covers WeatherData, TrackStatus, SessionInfo with Meeting, Circuit and Country, TlaRcm, SessionData, ExtrapolatedClock, the data-side TopThree, and the update-side lines, sectors, speeds and lap-time records.
- `updates::ExtrapolatedClock`, `updates::CarData` and `super::Capture` do not exist in the source, so their schemas are opaque records too.
- The `PitLaneTimeCollectionMarker` and `LapSeriesMarker` types do not exist in markers.rs. The model gives those two variants no marker, so no tag selects them. Their payload decoders are modelled anyway.
- The `models::DataType` named in `ParsedMessage` does not exist, and `update.a.1` is a field access on an enum, which Rust does not provide. The model reads it as the variant's second field, the payload, and keeps each payload as a JSON value. That value is the one the feed sent, except in the CarData and Positions variants, where it is whatever `Externals.carVariant` or `Externals.positionsVariant` returned.
- serde also reads a derived struct from a JSON array of its fields in declaration order. The model reads that form only for `PitTime`, where it decides between two variants. Every other record written as an array is treated as undecodable. Examples: a `Cars`, `Lines`, `DriverList` or `LapSeries` entry, which `kf_remover` would then keep; or a Heartbeat or LapCount payload.
- serde also reads a unit enum variant from the single-key map form, such as `{"GREEN": null}`. The model treats that form as undecodable.
- src/main.rs, src/file_loader.rs and src/history.rs: process entry, argument and file I/O, and an unfinished history draft.
- Models.DecodeData: the contract covers the kf maps and the inflated fields. The other fields are decoded by the decoders named in its body.

## Findings

| source | as written | input that shows it | evidently intended | confidence | as-written member | corrected member |
|---|---|---|---|---|---|---|
| src/parser/models/updates.rs:336-349 | the untagged `PitTimeEnum` tries `PitTime` first. A derived struct also reads from a JSON array of its fields in order, so a list of exactly three strings becomes a `PitTime` | `["44", "1", "16"]` as a deleted-numbers list | any list of strings is `Deleted` | medium, not executed | Updates.DecodePitTimeEnumAsWritten, Updates.ThreeDeletedNumbersReadAsPitTime, Updates.CollectionReadsThreeDeletedNumbersAsPitTime | Updates.DecodePitTimeEnum, Updates.PitTimeChoicesAgree |
