# Planetiler runner and stream archives in Dafny

This project models three sequential components of the tile pipeline and proves properties about them.

- **`FlatMapRunner`** (module `Runner`) is the pipeline driver.
  - It keeps an ordered registry of named stages, which rejects duplicate names. OpenStreetMap sources are split into two passes.
  - `run()` checks four guards in a fixed order, sets a one-shot `ran` flag and applies the overwrite policy.
  - It then lists the phases and runs every stage in registration order. Last, it releases the profile, deletes `node.db`, sorts the features and writes the output.
  - The file system and the collaborators are abstract. Whether the output exists is a parameter. The events that throw are a set parameter: a stage's work stops at the first of them. Every file-system and collaborator effect the model keeps is an `Event` appended to the runner's `trace`. Opening the databases also sets the `nodeLocations` and `featureDb` fields, and `ran` and `config` are field updates.
  - The function `Execute` describes a whole run after the guards. `Run` is proved to produce exactly `Execute`'s events and outcome.
- **`WriteableProtoStreamArchive`** (module `ProtoStreamArchive`) converts archive metadata to the stream's message types.
  - The conversion is a pure mapping: null fields are omitted and the field-type enum is mapped one to one.
  - The writers append entries to an `EntryStream`. Each entry is one case of a tagged union: Initialization, Tile or Finish.
  - The model adds a reading direction (`Import…`), which the source does not have. It serves as a reference inverse. The export is proved to lose nothing except the difference between a null and an empty list or map.
- **`WriteableCsvArchive`** (module `CsvArchive`) formats one line per tile: `x<col>y<col>z<col>encoded<line>`.
  - The three numbers are Java `%d` decimals, modelled in module `Text`.
  - A null payload gives an empty field.
  - The separators and the encoder are fixed at construction.
  - Splitting on the separators reads every record back, provided the separators do not clash with the fields (`SafeSeparators`).
  - A record has no trailing column separator: the format string at `WriteableCsvArchive.java:119-120` has exactly three column separators, between the four fields.

`Archive` holds the shared value types: tile coordinates, encoding results and the archive metadata record. `Wrappers` holds the `Option` and `Outcome` types.

## Model

| member | source | states |
|---|---|---|
| `Text.NatToDecimal` | planetiler-core/src/main/java/com/onthegomap/planetiler/stream/WriteableCsvArchive.java:119 | `%d` of a non-negative number is a non-empty string of digits, with a leading `0` only for zero, and zero is exactly `0` |
| `Text.IntToDecimal` | planetiler-core/src/main/java/com/onthegomap/planetiler/stream/WriteableCsvArchive.java:119 | `%d` of any int starts with `-` exactly for negatives, is digits after the first character, has no leading zero (zero is exactly `0`, and no `-0…`), so it is a canonical decimal |
| `Text.NatToDecimalRoundTrip` | planetiler-core/src/main/java/com/onthegomap/planetiler/stream/WriteableCsvArchive.java:119 | reading the digits back gives the number |
| `Text.CanonicalDigitsUnique` | planetiler-core/src/main/java/com/onthegomap/planetiler/stream/WriteableCsvArchive.java:119 | a digit string without a leading zero is the rendering of the number it denotes |
| `Text.NegativeDecimalUnique` | planetiler-core/src/main/java/com/onthegomap/planetiler/stream/WriteableCsvArchive.java:119 | a minus sign followed by such digits of a non-zero magnitude is the rendering of the negative number it denotes |
| `Text.CanonicalDecimalUnique` | planetiler-core/src/main/java/com/onthegomap/planetiler/stream/WriteableCsvArchive.java:119 | every canonical decimal is `%d` of the number it parses to, so `%d` writes exactly the canonical decimals and no other spelling of a number |
| `Text.DecimalRoundTrip` | planetiler-core/src/main/java/com/onthegomap/planetiler/stream/WriteableCsvArchive.java:119 | reading a `%d` string back gives the original int, sign included |
| `Text.DecimalAvoids` | planetiler-core/src/main/java/com/onthegomap/planetiler/stream/WriteableCsvArchive.java:119 | a `%d` string contains no character other than digits and `-` |
| `Text.Split` | planetiler-core/src/main/java/com/onthegomap/planetiler/stream/WriteableCsvArchive.java:27 | a consumer's split on a separator always yields at least one field |
| `Text.JoinSplit` | planetiler-core/src/main/java/com/onthegomap/planetiler/stream/WriteableCsvArchive.java:27 | splitting loses nothing: joining the fields with the separator gives back the text |
| `Text.SplitWithoutSeparator` | planetiler-core/src/main/java/com/onthegomap/planetiler/stream/WriteableCsvArchive.java:27 | text without the separator is one field |
| `Text.SplitAfterField` | planetiler-core/src/main/java/com/onthegomap/planetiler/stream/WriteableCsvArchive.java:27 | a field free of the separator's first character, followed by the separator, splits off as exactly that field |
| `CsvArchive.EncodedField` | planetiler-core/src/main/java/com/onthegomap/planetiler/stream/WriteableCsvArchive.java:116 | no contract of its own: `AbsentPayload` and `PresentPayload` state the null and non-null cases |
| `CsvArchive.RecordBody` | planetiler-core/src/main/java/com/onthegomap/planetiler/stream/WriteableCsvArchive.java:118-120 | no contract of its own: `SplitBody` and `BodyRoundTrip` state that it holds exactly the four fields, in order |
| `CsvArchive.Record` | planetiler-core/src/main/java/com/onthegomap/planetiler/stream/WriteableCsvArchive.java:116-120 | a record always ends with the line separator |
| `CsvArchive.SplitBody` | planetiler-core/src/main/java/com/onthegomap/planetiler/stream/WriteableCsvArchive.java:118-120 | when the column separator does not clash, a record body splits into exactly four fields: dec x, dec y, dec z, encoded |
| `CsvArchive.BodyRoundTrip` | planetiler-core/src/main/java/com/onthegomap/planetiler/stream/WriteableCsvArchive.java:118-120 | a body parses back to x, y, z (in that order) and the encoded field |
| `CsvArchive.RecordRoundTrip` | planetiler-core/src/main/java/com/onthegomap/planetiler/stream/WriteableCsvArchive.java:113-120 | under `SafeSeparators`, one record parses back to the tile's x, y, z and its encoded payload |
| `CsvArchive.AbsentPayload` | planetiler-core/src/main/java/com/onthegomap/planetiler/stream/WriteableCsvArchive.java:116 | a null payload gives the same record whatever the encoder, with an empty fourth field |
| `CsvArchive.PresentPayload` | planetiler-core/src/main/java/com/onthegomap/planetiler/stream/WriteableCsvArchive.java:116 | a present payload gives `encoder(data)` as the fourth field |
| `CsvArchive.DefaultSeparatorsExample` | planetiler-core/src/main/java/com/onthegomap/planetiler/stream/WriteableCsvArchive.java:119-120 | tile x=1, y=2, z=3 with `,` and `\n` is the line `1,2,3,` + encoded + `\n` |
| `CsvArchive.OutputAppend` | planetiler-core/src/main/java/com/onthegomap/planetiler/stream/WriteableCsvArchive.java:113-124 | each further write extends the stream text by exactly that tile's record |
| `CsvArchive.BodyAvoidsLineStart` | planetiler-core/src/main/java/com/onthegomap/planetiler/stream/WriteableCsvArchive.java:119-120 | under `SafeSeparators`, no record body contains the first character of the line separator |
| `CsvArchive.OutputLines` | planetiler-core/src/main/java/com/onthegomap/planetiler/stream/WriteableCsvArchive.java:119-120 | splitting n records on the line separator gives the n bodies, then an empty remainder |
| `CsvArchive.BodiesRoundTrip` | planetiler-core/src/main/java/com/onthegomap/planetiler/stream/WriteableCsvArchive.java:118-120 | every body of the stream parses back to its tile's fields, in order |
| `CsvArchive.OutputRoundTrip` | planetiler-core/src/main/java/com/onthegomap/planetiler/stream/WriteableCsvArchive.java:113-124 | n writes give n line-terminated records, and the whole stream reads back as the n tiles' fields in write order |
| `CsvArchive.CsvTileWriter.constructor` | planetiler-core/src/main/java/com/onthegomap/planetiler/stream/WriteableCsvArchive.java:97-104 | the separators and the encoder are stored as given; nothing is written yet |
| `CsvArchive.CsvTileWriter.Write` | planetiler-core/src/main/java/com/onthegomap/planetiler/stream/WriteableCsvArchive.java:113-124 | on an open writer, appends exactly `Record(t)` and leaves earlier output as it was; on a closed one, fails and writes nothing |
| `CsvArchive.CsvTileWriter.Close` | planetiler-core/src/main/java/com/onthegomap/planetiler/stream/WriteableCsvArchive.java:127-133 | the writer is closed afterwards |
| `CsvArchive.WriteableCsvArchive.constructor` | planetiler-core/src/main/java/com/onthegomap/planetiler/stream/WriteableCsvArchive.java:70-76 | the separators and the encoder are captured once |
| `CsvArchive.WriteableCsvArchive.NewTileWriter` | planetiler-core/src/main/java/com/onthegomap/planetiler/stream/WriteableCsvArchive.java:84-86 | every tile writer gets the archive's separators and encoder, and starts empty and open |
| `CsvArchive.WriteOneTile` | planetiler-core/src/main/java/com/onthegomap/planetiler/stream/WriteableCsvArchive.java:84-133 | a new writer, one write and a close leave exactly one record, which parses back to the tile |
| `CsvArchive.WriteNext` | planetiler-core/src/main/java/com/onthegomap/planetiler/stream/WriteableCsvArchive.java:113-124 | a writer holding the records of `ts` holds those of `ts + [t]` after writing `t` |
| `ProtoStreamArchive.SetIfNotNull` | planetiler-core/src/main/java/com/onthegomap/planetiler/stream/WriteableProtoStreamArchive.java:129-133 | no contract beyond its definition: `ExportMetadataFields` states which fields are set exactly when non-null, and `ImportExportMetadata` that nothing else is lost |
| `ProtoStreamArchive.ExportFieldType` | planetiler-core/src/main/java/com/onthegomap/planetiler/stream/WriteableProtoStreamArchive.java:116-120 | the mapping is total and never yields the zero enum value |
| `ProtoStreamArchive.ExportFieldTypeInjective` | planetiler-core/src/main/java/com/onthegomap/planetiler/stream/WriteableProtoStreamArchive.java:116-120 | NUMBER, BOOLEAN and STRING map one to one onto FIELD_TYPE_NUMBER, FIELD_TYPE_BOOLEAN and FIELD_TYPE_STRING |
| `ProtoStreamArchive.ExportEnvelope` | planetiler-core/src/main/java/com/onthegomap/planetiler/stream/WriteableProtoStreamArchive.java:90-100 | a null envelope converts to null and a non-null one to a message |
| `ProtoStreamArchive.ExportCoordinate` | planetiler-core/src/main/java/com/onthegomap/planetiler/stream/WriteableProtoStreamArchive.java:102-110 | a null center converts to null and a non-null one to a message |
| `ProtoStreamArchive.ExportFields` | planetiler-core/src/main/java/com/onthegomap/planetiler/stream/WriteableProtoStreamArchive.java:115-122 | every field key is kept, and no other |
| `ProtoStreamArchive.AddVectorLayers` | planetiler-core/src/main/java/com/onthegomap/planetiler/stream/WriteableProtoStreamArchive.java:80-82 | layers are appended after the existing ones, in input order, each converted |
| `ProtoStreamArchive.ExportMetadata` | planetiler-core/src/main/java/com/onthegomap/planetiler/stream/WriteableProtoStreamArchive.java:67-88 | the conversion itself has no contract of its own: `ExportMetadataFields` states it field by field, `ImportExportMetadata` and `ExportMetadataInjective` state what it keeps and loses |
| `ProtoStreamArchive.ExportVectorLayer` | planetiler-core/src/main/java/com/onthegomap/planetiler/stream/WriteableProtoStreamArchive.java:112-127 | no contract of its own: `ExportVectorLayerFields` states it field by field and `ImportExportVectorLayer` that it loses nothing |
| `ProtoStreamArchive.ExportMetadataFields` | planetiler-core/src/main/java/com/onthegomap/planetiler/stream/WriteableProtoStreamArchive.java:67-88 | each scalar field is set exactly when non-null, with its value; bounds and center are set exactly when non-null and copy their numbers; layers follow the input one-for-one, none if null; `others` is copied, empty if null |
| `ProtoStreamArchive.ExportVectorLayerFields` | planetiler-core/src/main/java/com/onthegomap/planetiler/stream/WriteableProtoStreamArchive.java:112-127 | the id is always set; every field key is kept with its type mapped; description and zooms are set exactly when present |
| `ProtoStreamArchive.ImportExportFields` | planetiler-core/src/main/java/com/onthegomap/planetiler/stream/WriteableProtoStreamArchive.java:115-122 | a layer's field map reads back exactly as given |
| `ProtoStreamArchive.ImportExportVectorLayer` | planetiler-core/src/main/java/com/onthegomap/planetiler/stream/WriteableProtoStreamArchive.java:112-127 | one converted layer reads back as the original |
| `ProtoStreamArchive.ImportVectorLayers` | planetiler-core/src/main/java/com/onthegomap/planetiler/stream/WriteableProtoStreamArchive.java:80-82 | the reading direction keeps one layer per message layer |
| `ProtoStreamArchive.ImportExportVectorLayers` | planetiler-core/src/main/java/com/onthegomap/planetiler/stream/WriteableProtoStreamArchive.java:80-82 | the converted layer list reads back as the original list, in order |
| `ProtoStreamArchive.ImportPointwise` | planetiler-core/src/main/java/com/onthegomap/planetiler/stream/WriteableProtoStreamArchive.java:80-82 | layer lists that read back element by element read back as a whole |
| `ProtoStreamArchive.ImportExportMetadata` | planetiler-core/src/main/java/com/onthegomap/planetiler/stream/WriteableProtoStreamArchive.java:67-88 | converted metadata is well formed and reads back as the input, except that an empty list or map reads back as null |
| `ProtoStreamArchive.ExportCanonical` | planetiler-core/src/main/java/com/onthegomap/planetiler/stream/WriteableProtoStreamArchive.java:80-85 | a null list or map and an empty one convert identically |
| `ProtoStreamArchive.ExportMetadataInjective` | planetiler-core/src/main/java/com/onthegomap/planetiler/stream/WriteableProtoStreamArchive.java:67-88 | two metadata records convert to the same message exactly when they agree up to null versus empty collections |
| `ProtoStreamArchive.EntryStream.WriteDelimited` | planetiler-core/src/main/java/com/onthegomap/planetiler/stream/WriteableProtoStreamArchive.java:61 | an open stream gains exactly the one entry at its end; a closed stream fails unchanged |
| `ProtoStreamArchive.WriteableProtoStreamArchive.constructor` | planetiler-core/src/main/java/com/onthegomap/planetiler/stream/WriteableProtoStreamArchive.java:24-26 | the archive writes to the primary stream it is given |
| `ProtoStreamArchive.WriteableProtoStreamArchive.WriteEntry` | planetiler-core/src/main/java/com/onthegomap/planetiler/stream/WriteableProtoStreamArchive.java:59-65 | the entry goes to the primary stream, and a failure surfaces as an error result |
| `ProtoStreamArchive.WriteableProtoStreamArchive.Initialize` | planetiler-core/src/main/java/com/onthegomap/planetiler/stream/WriteableProtoStreamArchive.java:38-46 | appends exactly one Initialization entry carrying the converted metadata to the primary stream |
| `ProtoStreamArchive.WriteableProtoStreamArchive.Finish` | planetiler-core/src/main/java/com/onthegomap/planetiler/stream/WriteableProtoStreamArchive.java:49-57 | appends exactly one Finish entry carrying the converted metadata to the primary stream |
| `ProtoStreamArchive.WriteableProtoStreamArchive.NewTileWriter` | planetiler-core/src/main/java/com/onthegomap/planetiler/stream/WriteableProtoStreamArchive.java:33-35 | the tile writer writes to the stream it is given |
| `ProtoStreamArchive.TileEntryOf` | planetiler-core/src/main/java/com/onthegomap/planetiler/stream/WriteableProtoStreamArchive.java:145-155 | a Tile entry whose z, x, y are the coordinate's and whose data are the tile's bytes |
| `ProtoStreamArchive.ProtoTileArchiveWriter.constructor` | planetiler-core/src/main/java/com/onthegomap/planetiler/stream/WriteableProtoStreamArchive.java:139-141 | the writer keeps the stream it is given |
| `ProtoStreamArchive.ProtoTileArchiveWriter.Write` | planetiler-core/src/main/java/com/onthegomap/planetiler/stream/WriteableProtoStreamArchive.java:144-162 | appends exactly one Tile entry for the tile to its stream; a closed stream fails unchanged |
| `ProtoStreamArchive.ProtoTileArchiveWriter.Close` | planetiler-core/src/main/java/com/onthegomap/planetiler/stream/WriteableProtoStreamArchive.java:165-171 | its stream is closed afterwards |
| `ProtoStreamArchive.FramedBetween` | planetiler-core/src/main/java/com/onthegomap/planetiler/stream/WriteableProtoStreamArchive.java:38-57 | between one Initialization and one Finish, a stream is framed exactly when every entry in between is a Tile |
| `ProtoStreamArchive.TileEntries` | planetiler-core/src/main/java/com/onthegomap/planetiler/stream/WriteableProtoStreamArchive.java:144-162 | one Tile entry per tile, each the entry of that tile, in write order |
| `ProtoStreamArchive.TileArchiveFramed` | planetiler-core/src/main/java/com/onthegomap/planetiler/stream/WriteableProtoStreamArchive.java:38-57 | any tiles written between one Initialization and one Finish give a framed stream |
| `ProtoStreamArchive.WriteTiles` | planetiler-core/src/main/java/com/onthegomap/planetiler/stream/WriteableProtoStreamArchive.java:144-162 | one write per tile on an open stream appends exactly the tiles' entries, in write order |
| `ProtoStreamArchive.WriteTileArchive` | planetiler-core/src/main/java/com/onthegomap/planetiler/stream/WriteableProtoStreamArchive.java:38-57 | initialize, n tile writes and finish on the primary stream give exactly the Initialization, the n tiles' entries in write order and the Finish; the stream is framed and still open |
| `Runner.ExceptionOf` | core/src/main/java/com/onthegomap/flatmap/FlatMapRunner.java:101-152 | duplicate names and an existing output are IllegalArgumentExceptions, and the four guards IllegalStateExceptions; the contract states the kinds, and `RegisterTwice` and `RunTwice` state two of the messages |
| `Runner.SubStagesOf` | core/src/main/java/com/onthegomap/flatmap/FlatMapRunner.java:159 | `getOrDefault(stage, List.of(stage))`; no contract of its own: `PhaseLinesListEverySubStage` states what the listing does with it |
| `Runner.SubStageLines` | core/src/main/java/com/onthegomap/flatmap/FlatMapRunner.java:159-161 | one listing line per sub-stage |
| `Runner.SubStageLinesAt` | core/src/main/java/com/onthegomap/flatmap/FlatMapRunner.java:159-161 | line j names sub-stage j with its description, or an empty description if it has none |
| `Runner.PhaseLinesListEverySubStage` | core/src/main/java/com/onthegomap/flatmap/FlatMapRunner.java:158-162 | for every registered stage, each entry of `SubStagesOf` (the sub-stages recorded under its name, or the name itself when none are) is listed with its description, or an empty one if it has none |
| `Runner.RunTask` | core/src/main/java/com/onthegomap/flatmap/FlatMapRunner.java:79-87 | no contract of its own: `RunTaskEvents` states it |
| `Runner.RunTaskEvents` | core/src/main/java/com/onthegomap/flatmap/FlatMapRunner.java:79-87 | a source-guarded task is a no-op that succeeds when the profile does not care about the source; otherwise it performs its work's events in order, stopping at the first that throws; all its events are work events |
| `Runner.PerformEvents` | core/src/main/java/com/onthegomap/flatmap/FlatMapRunner.java:64-69 | no contract of its own: `PerformEventsPrefix` states it |
| `Runner.PerformEventsPrefix` | core/src/main/java/com/onthegomap/flatmap/FlatMapRunner.java:64-69 | the events performed are a prefix of the work's events; the work succeeds exactly when none of them throws, and then all were performed; otherwise the last one performed is the first that throws |
| `Runner.OsmPassesInOrder` | core/src/main/java/com/onthegomap/flatmap/FlatMapRunner.java:64-69 | pass 1 runs before pass 2; when pass 1 throws, pass 2 never starts; otherwise the source succeeds exactly when pass 2 does not throw |
| `Runner.RunStages` | core/src/main/java/com/onthegomap/flatmap/FlatMapRunner.java:177-179 | no contract of its own: `StagesSucceedIff`, `StagesRunInOrder`, `FirstFailureStops` and `StageFailureIsFinal` state the loop's behaviour |
| `Runner.StageFailureIsFinal` | core/src/main/java/com/onthegomap/flatmap/FlatMapRunner.java:177-179 | once a stage has thrown, later stages run nothing |
| `Runner.FlattenAppend` | core/src/main/java/com/onthegomap/flatmap/FlatMapRunner.java:177-179 | concatenating one more stage's events appends them at the end |
| `Runner.StagesSucceedIff` | core/src/main/java/com/onthegomap/flatmap/FlatMapRunner.java:177-179 | the stage loop completes exactly when every stage succeeds |
| `Runner.StagesRunInOrder` | core/src/main/java/com/onthegomap/flatmap/FlatMapRunner.java:177-179 | a completed loop ran each stage exactly once, in registration order |
| `Runner.FirstFailureStops` | core/src/main/java/com/onthegomap/flatmap/FlatMapRunner.java:177-179 | when stage k is the first to throw, the loop reports k, and ran exactly stages 0..k |
| `Runner.FailedNameIdentifiesStage` | core/src/main/java/com/onthegomap/flatmap/FlatMapRunner.java:177-179 | with distinct stage names, the name a failed run reports is that of the one stage that threw |
| `Runner.FirstFailingStage` | core/src/main/java/com/onthegomap/flatmap/FlatMapRunner.java:177-179 | when not every stage succeeds, some stage is the first to throw |
| `Runner.StageFailureNamesOneStage` | core/src/main/java/com/onthegomap/flatmap/FlatMapRunner.java:177-179 | with distinct stage names, a failed stage loop reports the name of exactly one stage |
| `Runner.SetupEvents` | core/src/main/java/com/onthegomap/flatmap/FlatMapRunner.java:149-172 | no contract of its own: `OverwritePolicy` and `FlatMapRunner.Prepare` state the order of the setup effects |
| `Runner.FinishEvents` | core/src/main/java/com/onthegomap/flatmap/FlatMapRunner.java:181-187 | no contract of its own: `SuccessfulRunOrder` states that a completed run ends with release, delete `node.db`, sort and write |
| `Runner.Execute` | core/src/main/java/com/onthegomap/flatmap/FlatMapRunner.java:149-187 | no contract of its own: `OverwritePolicy`, `SuccessfulRunOrder` and `FailedRunWritesNoArchive` state it, and `FlatMapRunner.Run` is proved to follow it |
| `Runner.StageEventsAreWork` | core/src/main/java/com/onthegomap/flatmap/FlatMapRunner.java:177-179 | the stage loop produces only the stages' own work |
| `Runner.OverwritePolicy` | core/src/main/java/com/onthegomap/flatmap/FlatMapRunner.java:149-153 | the output is deleted, as the first effect, exactly when overwrite or force is set; otherwise an existing output fails the run with no effect, and a missing one lets it go on |
| `Runner.SuccessfulRunOrder` | core/src/main/java/com/onthegomap/flatmap/FlatMapRunner.java:177-187 | a completed run had every stage succeed, then ends with the stages' events, then release profile, delete `node.db`, sort, write output |
| `Runner.FailedRunWritesNoArchive` | core/src/main/java/com/onthegomap/flatmap/FlatMapRunner.java:177-187 | a run that fails in a stage or on an existing output never releases the profile, never sorts and never writes the output; nothing after the stages can fail in this model |
| `Runner.FlatMapRunner.Guard` | core/src/main/java/com/onthegomap/flatmap/FlatMapRunner.java:134-145 | the first failing guard in the order profile, output, sources, already ran, each an IllegalStateException; none exactly when all four pass |
| `Runner.FlatMapRunner.constructor` | core/src/main/java/com/onthegomap/flatmap/FlatMapRunner.java:45-50 | an empty registry, nothing set, and `tmpDir` from the `tmpdir` argument, default `data/tmp` |
| `Runner.FlatMapRunner.AddStage` | core/src/main/java/com/onthegomap/flatmap/FlatMapRunner.java:101-108 | a duplicate name fails and changes nothing; a fresh name is appended after the existing stages with its description; names stay distinct |
| `Runner.FlatMapRunner.AddStageWithoutDescription` | core/src/main/java/com/onthegomap/flatmap/FlatMapRunner.java:110-116 | the same check and append, recording no description |
| `Runner.FlatMapRunner.AddOsmSource` | core/src/main/java/com/onthegomap/flatmap/FlatMapRunner.java:56-70 | the input file, the sub-stages `name_pass1` and `name_pass2` and their descriptions are recorded before registration; it then registers a source-guarded OSM reader |
| `Runner.FlatMapRunner.AddOsmSourceChecked` | core/src/main/java/com/onthegomap/flatmap/FlatMapRunner.java:56-70 | the same registration with the duplicate check first: a duplicate name fails and changes nothing |
| `Runner.FlatMapRunner.AddShapefileSource` | core/src/main/java/com/onthegomap/flatmap/FlatMapRunner.java:73-77 | registers a source-guarded shapefile reader described as "Process features in " + path |
| `Runner.FlatMapRunner.AddShapefileSourceWithProjection` | core/src/main/java/com/onthegomap/flatmap/FlatMapRunner.java:89-93 | the same, with the projection passed to the reader |
| `Runner.FlatMapRunner.AddNaturalEarthSource` | core/src/main/java/com/onthegomap/flatmap/FlatMapRunner.java:95-99 | registers a source-guarded Natural Earth reader whose temporary database is `tmpDir/natearth.sqlite` |
| `Runner.FlatMapRunner.SetProfile` | core/src/main/java/com/onthegomap/flatmap/FlatMapRunner.java:118-121 | the profile is set |
| `Runner.FlatMapRunner.SetOutput` | core/src/main/java/com/onthegomap/flatmap/FlatMapRunner.java:123-126 | the output is the argument's path if given, else the default |
| `Runner.FlatMapRunner.OverwriteOutput` | core/src/main/java/com/onthegomap/flatmap/FlatMapRunner.java:128-131 | overwrite is set, and so is the output |
| `Runner.FlatMapRunner.PhaseListing` | core/src/main/java/com/onthegomap/flatmap/FlatMapRunner.java:158-162 | the nested loop lists exactly `PhaseLines`: stages in registration order, each by its sub-stages |
| `Runner.FlatMapRunner.Prepare` | core/src/main/java/com/onthegomap/flatmap/FlatMapRunner.java:149-172 | the optional delete, the phase announcement, then creating `tmpDir`, opening `node.db` and opening `feature.db` there, in that order |
| `Runner.FlatMapRunner.RunAllStages` | core/src/main/java/com/onthegomap/flatmap/FlatMapRunner.java:177-179 | the stage loop appends exactly the events of `RunStages` and reports its first failure |
| `Runner.FlatMapRunner.Launch` | core/src/main/java/com/onthegomap/flatmap/FlatMapRunner.java:149-187 | after the guards, the trace gains exactly `Execute`'s events and the result is its outcome; the node and feature databases are opened in `tmpDir` unless the run fails on an existing output (no overwrite, no force), and are left as they were when it does; a stage failure names exactly one registered stage |
| `Runner.FlatMapRunner.Run` | core/src/main/java/com/onthegomap/flatmap/FlatMapRunner.java:133-187 | a failing guard returns its error and changes nothing; otherwise `ran` is set, the config is derived, the trace and result are exactly `Execute`'s, the databases are opened exactly when the run gets past the existing-output check, and a stage failure names exactly one registered stage |
| `Runner.RegisterTwice` | core/src/main/java/com/onthegomap/flatmap/FlatMapRunner.java:101-104 | registering a name a second time always fails, as an IllegalArgumentException "Duplicate stage name: " + name |
| `Runner.DuplicateOsmSourceAsWritten` | core/src/main/java/com/onthegomap/flatmap/FlatMapRunner.java:56-70 | after `AddStage(name, …)`, a failing `AddOsmSource(name, …)` leaves the stage announced as `name_pass1` and `name_pass2` with the OpenStreetMap descriptions |
| `Runner.DuplicateOsmSourceChecked` | core/src/main/java/com/onthegomap/flatmap/FlatMapRunner.java:101-108 | with the checked registration, the stage is still announced under its own name and description |
| `Runner.RunTwice` | core/src/main/java/com/onthegomap/flatmap/FlatMapRunner.java:143-147 | after a run that passed its guards, whatever became of it, a second run fails with the IllegalStateException "Can only run once"; a run stopped by a guard repeats the same error |

## Left out

- The protobuf wire encoding (`writeDelimitedTo`, `parseDelimitedFrom`) is a library call whose code is not part of this model. Entries are datatype values appended to a sequence. The `main` debug reader is left out.
- Sharding and the choice of the primary output stream live in the stream-archive base class, which is not part of this model. The primary stream and each tile writer's stream are explicit `EntryStream` parameters. The writers' `Writer`/`OutputStream` become a string or an entry sequence.
- `StreamArchiveUtils.csvOptionColumnSeparator`, `csvOptionLineSeparator` and `csvOptionBinaryEncoding` are not part of this model. The separators and the encoder they derive from the format options become constructor parameters of `CsvArchive.WriteableCsvArchive`.
- The binary-to-text codec (`CsvBinaryEncoding`: base64, hex) is not part of this model. The encoder is an uninterpreted function `seq<byte> -> string`, chosen once at construction. `SafeSeparators` states what the round trip needs of it.
- `Text.IntToDecimal` models Java's `%d` with ASCII digits and a leading `-`. Locale-specific digits are not modelled.
- `CsvArchive.RecordRoundTrip`, `CsvArchive.OutputRoundTrip`: the side condition `SafeSeparators` is slightly stronger than "the separator does not occur in the field". The column separator must not start with a digit or `-`. The first character of the line separator must not occur in the body. This is because the split is leftmost and works on multi-character separators.
- UTF-8 encoding, buffered-writer flushing and general I/O failures are not modelled. The only failure modelled is a write to a closed stream, which stands in for "an I/O failure aborts the write".
- `CsvArchive.CsvTileWriter.Close` and `ProtoStreamArchive.ProtoTileArchiveWriter.Close` do not model a failing close.
- `ProtoStreamArchive.ProtoTileArchiveWriter.Write` requires non-null tile data. `ByteString.copyFrom(null)` has no behaviour that can be stated from the code shown.
- Null in places the Java does not guard is not modelled: a null layer id, null field map, null map key or null map value would throw a `NullPointerException`. These are plain values in the model.
- The `.proto` schema of the stream messages is not part of this model. The message types assume proto3 explicit presence for the optional scalar fields of `Metadata` and `VectorLayer`: a set field is distinguishable from an unset one. `ProtoStreamArchive.ExportMetadataInjective` and `ImportExportMetadata` rely on that.
- Floating-point values (envelope, center, zoom) are kept as their 64-bit patterns and only copied.
- Runner side effects are events, not file-system operations. This covers `Files.*`, `FileUtils.deleteFile`, logging text, `Stats`, timers and `stats.monitorFile`. The phase listing is the sequence of (sub-stage, description) pairs the log prints.
- `Runner.FlatMapRunner.Run`: `CommonParams.from` is reduced to the one flag the runner reads (`forceOverwrite`, taken from the arguments). Thread count and temp-storage compression are passed on to collaborators that are not modelled.
- The collaborators are not part of this model: the OSM, shapefile and Natural Earth readers, `LongLongMap`, `FeatureSort`, `FeatureGroup`, `MbtilesWriter` and `Profile.release`. Each shows up as an event. Each event of a stage's work either completes or throws, as chosen by the `failing` set. How it throws, the external sort and the tile grouping cannot be modelled from these files.
- `Runner.Execute`: only the events of a stage's work can throw. Deleting the output, creating `tmpDir`, opening `node.db` and `feature.db`, `profile.release()`, deleting `node.db`, `featureDb.sort()` and `MbtilesWriter.writeOutput` always succeed in the model. A run that fails in those steps, and its partial effects, are not modelled.
- Creating `featureMap` is left out, and so is auto-tuning the configuration from the OSM input file. `osmInputFile` is recorded as the input path it wraps.
- `create()` and `Arguments.fromJvmProperties` read JVM properties. The model's constructor takes the arguments instead. `Arguments.file`/`inputFile` become a key lookup with a default; their descriptions and logging are left out.

## Findings

| source | as written | input that shows it | evidently intended | confidence | as-written member | corrected member |
|---|---|---|---|---|---|---|
| core/src/main/java/com/onthegomap/flatmap/FlatMapRunner.java:56-70 | `addOsmSource` records `osmInputFile`, `subStages[name]` and the two pass descriptions before `addStage` checks the name, so a duplicate name throws after those updates | `addStage("a", d, t)` then `addOsmSource("a", p)`: the second call throws, and the phase listing now announces the custom stage "a" as `a_pass1` and `a_pass2` with the OpenStreetMap descriptions | a duplicate name fails and changes nothing, as `addStage` does | low; not executed | `Runner.DuplicateOsmSourceAsWritten` (over `Runner.FlatMapRunner.AddOsmSource`) | `Runner.DuplicateOsmSourceChecked` (over `Runner.FlatMapRunner.AddOsmSourceChecked`) |
