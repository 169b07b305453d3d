# amv-train-tracker: a verified model of the tracker's core

The tracker is a Java service. It shows station timeboards for Amtrak, VIA Rail and the San Joaquins, and it mirrors a live map of moving trains. This project models its core in Dafny and proves properties of that model. The core has four parts:

- **Timeboards** (`timeboard.dfy`, `schedule_time.dfy`).
  - Every stored stop time at a station is matched against a GTFS Realtime feed.
  - A feed entity matches when its trip id equals the stop's trip id or contains `"_AMTK_" + id`.
  - The entity must also have more stop-time updates than the stop index: the stop sequence minus one, shifted back up by one on route `SJ2`.
  - The update is picked by list position, never by its `stop_sequence` field.
  - Each matching entity appends one row. The row is copied first whenever the current one already has a date.
  - Schedule times such as `25:30:00` are shifted by a whole-hour zone offset and rendered as `hh:mm AM/PM`.
- **Static schedule import** (`importer.dfy`).
  - There is one row mapper per archive layout: Amtrak, VIA and San Joaquin.
  - The header-skipping CSV loop handles each archive entry.
  - The VIA route-name table and the Amtrak station-name table are included.
  - The curated station list is read by `setStations`, a separate loop of the same header-skipping shape.
  - The three-archive refresh ties these together.
- **Station directory** (`gtfs.dfy`): lookups by code and by id, and the name search with its second pass, in which every `e` becomes `é`.
- **Live trains** (`trains.dfy`).
  - The refresh cycle runs against the train store: mark all inactive, upsert every train whose next station is found, delete the inactive ones.
  - Both entry points are modelled: the scheduled update and the update endpoint.
  - The search endpoint applies the railroad fallback, then merges and sorts.
  - The listing is sorted by train number.

Parts the model leaves abstract become parameters:

- the feeds, CSV lines and archive entries are plain sequences;
- the time-zone database is the `zoneHour`, `formatEpoch` and `formatDate` functions;
- the current instant is `now`;
- the `TimeboardRow` copy constructor is `copyRow` and the timeboard's ordering is `sortRows`;
- the store's search queries are functions;
- the element a station lookup's hash set yields first is `pick`.

A fetch that fails is an `Err` input. Java exceptions become `Result`/`Option` values. Every exception the model covers propagates as far as it does in the code. The exception `ZoneId.of` throws for an unknown zone id is not covered (see "Left out").

Behaviour of the code that is easy to misread, which the model follows:

- A time that `parseTime` cannot handle, and a negative stop index with a matching entity, throw out of `buildRow`. The whole station query fails, not just one row (`QueryError`). The index is `stop_sequence - 1` in 32-bit arithmetic, raised by one again on route `SJ2`. So it is negative for a stop sequence from -2147483647 to 0 on other routes and for any negative stop sequence on `SJ2`. A stop sequence of -2147483648 on another route wraps around to the largest int, no entity has that many updates, and the stop time adds nothing (`StopIndexCases`, `WrappedStopIndexSkipped`).
- A short CSV row or a bad integer column ends the whole static refresh. So does a timed-out archive. Nothing is saved, and the other sources do not go ahead (`RefreshNeedsEverySource`).
- The hour handed to the `HH:mm:ss` parser is never wrapped down after the offset is added. An adjusted hour of 24 is still accepted when the rest is `:00:00`, because the default resolver reads `24:00:00` as the midnight that ends the day. Any other hour above 23 is rejected.
- Amtrak route names are taken from the routes file as they are. Only VIA route names go through a table.

## Model

| member | source | states |
|---|---|---|
| Common.ParseInt | amtrakTracker/src/main/java/com/kiron/amtrakTracker/service/StationServiceImp.java:453-455 | Integer.parseInt: a string of digits, `+` then digits, or `-` then digits parses to its decimal value (negated after `-`) exactly when that value fits in 32 bits; an empty string, a bare sign or any other character is a NumberFormatException |
| Common.Wrap32 | amtrakTracker/src/main/java/com/kiron/amtrakTracker/service/StationServiceImp.java:130 | Java int arithmetic: the result is in the 32-bit range, congruent to the exact value modulo 2^32, and equal to it when it fits |
| Common.TwoDigits | amtrakTracker/src/main/java/com/kiron/amtrakTracker/service/StationServiceImp.java:463 | `%02d` of 0..99 is two digits whose decimal value is the number |
| Common.Tokens | amtrakTracker/src/main/java/com/kiron/amtrakTracker/service/StationServiceImp.java:450-452 | StringTokenizer's tokens are non-empty and never contain the delimiter |
| Common.TokensCons | amtrakTracker/src/main/java/com/kiron/amtrakTracker/service/StationServiceImp.java:450-472 | a delimiter-free run followed by the delimiter is the next token, and tokenizing resumes after the delimiter |
| Common.TokensSingle | amtrakTracker/src/main/java/com/kiron/amtrakTracker/service/StationServiceImp.java:450-472 | a non-empty string without the delimiter is exactly one token |
| Common.ReplaceChar | amtrakTracker/src/main/java/com/kiron/amtrakTracker/service/StationServiceImp.java:57 | `replace("e", "é")` keeps the length, turns every `e` into `é` and keeps every other character, so no `e` is left; a string without `e` comes back unchanged |
| ScheduleTime.ParseTime | amtrakTracker/src/main/java/com/kiron/amtrakTracker/service/StationServiceImp.java:445-475 | the loop that subtracts 24 computes the specified result for every input, including every failure |
| ScheduleTime.ScheduleTimeSucceedsIff | amtrakTracker/src/main/java/com/kiron/amtrakTracker/service/StationServiceImp.java:450-474 | success exactly when there are three tokens, the first is an int, minutes and seconds are two-digit fields below 60, and the adjusted hour is 0..23 (or 24 at :00:00) |
| ScheduleTime.ScheduleTimeFailures | amtrakTracker/src/main/java/com/kiron/amtrakTracker/service/StationServiceImp.java:460-474 | fewer than three tokens fails, and so does an adjusted hour above 24, or of 24 with anything but `:00:00` |
| ScheduleTime.AdjustHourCongruent | amtrakTracker/src/main/java/com/kiron/amtrakTracker/service/StationServiceImp.java:453-470 | the adjusted hour is congruent to hour + offset modulo 24 |
| ScheduleTime.AdjustHour | amtrakTracker/src/main/java/com/kiron/amtrakTracker/service/StationServiceImp.java:453-468 | definition: the hour handed to the parser; stated by `ScheduleTime.AdjustHourCongruent` |
| ScheduleTime.ScheduleTimeOf | amtrakTracker/src/main/java/com/kiron/amtrakTracker/service/StationServiceImp.java:445-475 | definition: parseTime's result or exception; `ScheduleTime.ParseTime` is proved to compute it and `ScheduleTime.ScheduleTimeSucceedsIff` and `ScheduleTime.ScheduleTimeValue` describe it |
| ScheduleTime.ScheduleTimeValue | amtrakTracker/src/main/java/com/kiron/amtrakTracker/service/StationServiceImp.java:453-474 | a result is the 12-hour rendering of (hour + offset) mod 24 with the input's minutes; seconds are dropped |
| ScheduleTime.ScheduleTimeShape | amtrakTracker/src/main/java/com/kiron/amtrakTracker/service/StationServiceImp.java:447-474 | a result reads `hh:mm AM` or `hh:mm PM` with hh in 01..12 and the input's minute field |
| ScheduleTime.TimeTokens | amtrakTracker/src/main/java/com/kiron/amtrakTracker/service/StationServiceImp.java:450-472 | `a:b:c` with colon-free non-empty parts yields the tokens a, b, c |
| ScheduleTime.PastMidnightExample | amtrakTracker/src/main/java/com/kiron/amtrakTracker/service/StationServiceImp.java:453-474 | `25:30:00` one hour ahead of New York shows as `02:30 AM` |
| ScheduleTime.LateEveningAheadRejected | amtrakTracker/src/main/java/com/kiron/amtrakTracker/service/StationServiceImp.java:464-474 | `23:30:00` one hour ahead of New York is rejected, because the hour becomes 24 and is not wrapped |
| Gtfs.FindByCode | amtrakTracker/src/main/java/com/kiron/amtrakTracker/service/StationServiceImp.java:77 | the station found has exactly that code; none found means no stored station has it |
| Gtfs.FindById | amtrakTracker/src/main/java/com/kiron/amtrakTracker/service/StationServiceImp.java:105-106 | the station found has exactly that id; none found means no stored station has it |
| Gtfs.StationsByCode | amtrakTracker/src/main/java/com/kiron/amtrakTracker/service/StationServiceImp.java:49-53 | definition: the stored stations whose code contains the query, ignoring case; used by the live-train lookup (`Trains.ScheduledZoneOfMatch`) |
| Gtfs.StationsByName | amtrakTracker/src/main/java/com/kiron/amtrakTracker/service/StationServiceImp.java:55-61 | definition: the union of the name search for the query and for the query with `e` replaced by `é`; its members are stated by `Gtfs.StationsByNameMembers` |
| Gtfs.StationsByNameMembers | amtrakTracker/src/main/java/com/kiron/amtrakTracker/service/StationServiceImp.java:55-60 | a station is found exactly when its name contains the query or the query with `e` replaced by `é`; a query without `e` gets only the plain matches |
| Importer.ViaRouteNameCases | amtrakTracker/src/main/java/com/kiron/amtrakTracker/service/StationServiceImp.java:431-443 | a listed VIA service gets the table's name, any other gets `Corridor: ` + name, and only the latter starts with that prefix |
| Importer.ViaRouteNameExamples | amtrakTracker/src/main/java/com/kiron/amtrakTracker/service/StationServiceImp.java:437-441 | "Jasper - Prince Rupert" maps to "Skeena" and an unlisted route to its corridor name |
| Importer.AmtrakStationNameCases | amtrakTracker/src/main/java/com/kiron/amtrakTracker/service/StationServiceImp.java:418-429 | a listed code gets the table's name (NYP gets Moynihan Train Hall), any other keeps the given name |
| Importer.ViaTripNumberCases | amtrakTracker/src/main/java/com/kiron/amtrakTracker/service/StationServiceImp.java:391-399 | an empty number column is 0, `digits-rest` is the digits' value, and a plain int column is that int |
| Importer.ViaTripNumberBareHyphen | amtrakTracker/src/main/java/com/kiron/amtrakTracker/service/StationServiceImp.java:393-395 | a number column of just `-` has no first token and throws |
| Importer.SanJoaquinKeeps | amtrakTracker/src/main/java/com/kiron/amtrakTracker/service/StationServiceImp.java:305-325 | San Joaquin stop times and trips are kept only for 3-character ids, a trip's number parses from its id, the only route is SJ2 named "San Joaquins", and other rows add nothing |
| Importer.SanJoaquinImportKeepsFilters | amtrakTracker/src/main/java/com/kiron/amtrakTracker/service/StationServiceImp.java:305-325 | importing San Joaquin lines keeps those filters true of every list |
| Importer.MapLineTargetsEntry | amtrakTracker/src/main/java/com/kiron/amtrakTracker/service/StationServiceImp.java:274-281 | a stop-time record only comes from `stop_times.txt`, a route only from `routes.txt`, a trip only from `trips.txt` |
| Importer.ImportLinesAppends | amtrakTracker/src/main/java/com/kiron/amtrakTracker/service/StationServiceImp.java:266-283 | an entry only appends, at most one record per line, and only to the list its name selects |
| Importer.LinesErrorSticks | amtrakTracker/src/main/java/com/kiron/amtrakTracker/service/StationServiceImp.java:266-283 | after a failing line, later lines change nothing |
| Importer.GtfsTables.constructor | amtrakTracker/src/main/java/com/kiron/amtrakTracker/service/StationServiceImp.java:195-198 | the lists start empty |
| Importer.GtfsTables.Add | amtrakTracker/src/main/java/com/kiron/amtrakTracker/service/StationServiceImp.java:305-324 | one mapped row is appended to its own list |
| Importer.GtfsTables.ImportEntry | amtrakTracker/src/main/java/com/kiron/amtrakTracker/service/StationServiceImp.java:263-283 | the header line is skipped and every later line goes through the format's mapper in order, up to the first failure |
| Importer.GtfsTables.ImportLine | amtrakTracker/src/main/java/com/kiron/amtrakTracker/service/StationServiceImp.java:274-282 | one line after the header: the format's mapper either throws, which is returned, or yields a record that is appended |
| Importer.GtfsTables.ImportArchive | amtrakTracker/src/main/java/com/kiron/amtrakTracker/service/StationServiceImp.java:243-289 | only `stop_times.txt`, `routes.txt` and `trips.txt` are read, in archive order, and a failure ends the archive |
| Importer.GtfsTables.ImportEntryAt | amtrakTracker/src/main/java/com/kiron/amtrakTracker/service/StationServiceImp.java:243-288 | one archive entry: a file of interest is read through the CSV loop, any other entry is closed unread |
| Importer.SetStations | amtrakTracker/src/main/java/com/kiron/amtrakTracker/service/StationServiceImp.java:496-516 | every line after the header becomes a station with columns id, admin area, code, name, time zone, website |
| Importer.UpdateGtfs | amtrakTracker/src/main/java/com/kiron/amtrakTracker/service/StationServiceImp.java:187-220 | Amtrak, VIA and San Joaquin are imported in that order into shared lists, then the station list is read; any failure ends the refresh |
| Importer.RefreshNeedsEverySource | amtrakTracker/src/main/java/com/kiron/amtrakTracker/service/StationServiceImp.java:201-205 | if any one archive fails, nothing is refreshed |
| Importer.MapAmtrak | amtrakTracker/src/main/java/com/kiron/amtrakTracker/service/StationServiceImp.java:328-361 | definition: updateAmtrakGTFS for one line (stop times from columns 0-4, routes from 0 and 3, trips from 2, 0, 3, 6); its targets and error paths are stated by `Importer.MapLineTargetsEntry` and `Importer.ImportLinesAppends` |
| Importer.MapVia | amtrakTracker/src/main/java/com/kiron/amtrakTracker/service/StationServiceImp.java:363-403 | definition: updateViaGTFS for one line, with route names through `ViaRouteName` and train numbers through `ViaTripNumber`; stated by `Importer.MapLineTargetsEntry`, `Importer.ViaRouteNameCases` and `Importer.ViaTripNumberCases` |
| Importer.MapSanJoaquin | amtrakTracker/src/main/java/com/kiron/amtrakTracker/service/StationServiceImp.java:292-326 | definition: updateSanJGTFS for one line, keeping only 3-character ids and route SJ2; stated by `Importer.SanJoaquinKeeps` |
| Importer.ViaTripNumber | amtrakTracker/src/main/java/com/kiron/amtrakTracker/service/StationServiceImp.java:391-399 | definition: the VIA train-number column; its cases are stated by `Importer.ViaTripNumberCases` and `Importer.ViaTripNumberBareHyphen` |
| Importer.ViaRouteName | amtrakTracker/src/main/java/com/kiron/amtrakTracker/service/StationServiceImp.java:431-443 | definition: the VIA route-name table with the `Corridor: ` default; stated by `Importer.ViaRouteNameCases` |
| Importer.AmtrakStationName | amtrakTracker/src/main/java/com/kiron/amtrakTracker/service/StationServiceImp.java:418-429 | definition: the Amtrak station-name table with the feed name as default; stated by `Importer.AmtrakStationNameCases` |
| Importer.StationsOfLines | amtrakTracker/src/main/java/com/kiron/amtrakTracker/service/StationServiceImp.java:496-516 | definition: the stations of the curated list, or the first row's index error; `Importer.SetStations` is proved to compute it |
| Timeboard.StopsAt | amtrakTracker/src/main/java/com/kiron/amtrakTracker/service/StationServiceImp.java:86 | exactly the stop times at the station |
| Timeboard.Candidates | amtrakTracker/src/main/java/com/kiron/amtrakTracker/service/StationServiceImp.java:139-148 | an entity is kept exactly when it has a trip update for the trip with more updates than the stop index |
| Timeboard.CandidatesAppend | amtrakTracker/src/main/java/com/kiron/amtrakTracker/service/StationServiceImp.java:137-148 | the kept entities stay in feed order: filtering a concatenation filters each part |
| Timeboard.StopIndexCases | amtrakTracker/src/main/java/com/kiron/amtrakTracker/service/StationServiceImp.java:130-133 | the index is the stop sequence on SJ2 and one less elsewhere, except that -2147483648 wraps to 2147483647; it is negative exactly for SJ2 sequences below 0 and other sequences from -2147483647 to 0 |
| Timeboard.WrappedStopIndexSkipped | amtrakTracker/src/main/java/com/kiron/amtrakTracker/service/StationServiceImp.java:130-148 | a stop sequence of -2147483648 off SJ2 skips every entity of int-sized update lists: no row and no exception |
| Timeboard.StopIndex | amtrakTracker/src/main/java/com/kiron/amtrakTracker/service/StationServiceImp.java:130-133 | definition: `stop_sequence - 1` in int arithmetic, plus one again on SJ2; stated by `Timeboard.StopIndexCases` |
| Timeboard.Fill | amtrakTracker/src/main/java/com/kiron/amtrakTracker/service/StationServiceImp.java:158-180 | definition: one update applied to a row; stated by `Timeboard.FillRules` and `Timeboard.FillDated` |
| Timeboard.MatchRows | amtrakTracker/src/main/java/com/kiron/amtrakTracker/service/StationServiceImp.java:137-183 | definition: the rows and the error of the entity loop; `Timeboard.StationTimeboard.MatchFeed` is proved to compute it and `Timeboard.MatchRowsShape` and `Timeboard.MatchRowsNegativeIndex` describe it |
| Timeboard.BuildRowOf | amtrakTracker/src/main/java/com/kiron/amtrakTracker/service/StationServiceImp.java:101-184 | definition: the rows and the error of buildRow for one stop time; `Timeboard.StationTimeboard.BuildRow` is proved to compute it and `Timeboard.BuildRowDanglingReferences` describes it |
| Timeboard.StationTimeboard.constructor | amtrakTracker/src/main/java/com/kiron/amtrakTracker/service/StationServiceImp.java:82-83 | a board carries the code, name, website and admin area, with no rows |
| Timeboard.StationTimeboard.AddRow | amtrakTracker/src/main/java/com/kiron/amtrakTracker/service/StationServiceImp.java:181 | the row is appended |
| Timeboard.StationTimeboard.SortTimeboard | amtrakTracker/src/main/java/com/kiron/amtrakTracker/service/StationServiceImp.java:97 | the rows become the timeboard's ordering of them |
| Timeboard.StationTimeboard.BuildRow | amtrakTracker/src/main/java/com/kiron/amtrakTracker/service/StationServiceImp.java:101-184 | the rows appended for one stop time are exactly the specified ones, including failure from a bad time or a negative index |
| Timeboard.StationTimeboard.MatchFeed | amtrakTracker/src/main/java/com/kiron/amtrakTracker/service/StationServiceImp.java:137-183 | the entity loop appends exactly the rows of the matching entities, in feed order |
| Timeboard.GetTrainsAtStation | amtrakTracker/src/main/java/com/kiron/amtrakTracker/service/StationServiceImp.java:68-99 | no board for an unknown code; otherwise the Amtrak feed is used exactly when the code has 3 characters, every stop time at the station is processed in order, and the rows are sorted once at the end |
| Timeboard.StationTimeboard.BuildRows | amtrakTracker/src/main/java/com/kiron/amtrakTracker/service/StationServiceImp.java:88-95 | every stop time goes through buildRow in stored order; the first exception ends the loop, and otherwise the board holds all their rows in order |
| Timeboard.StationRowsFirstError | amtrakTracker/src/main/java/com/kiron/amtrakTracker/service/StationServiceImp.java:88-95 | the first stop time whose row building throws decides the query's error, whatever follows it |
| Timeboard.StationRowsSucceed | amtrakTracker/src/main/java/com/kiron/amtrakTracker/service/StationServiceImp.java:88-95 | when no stop time's row building throws, the query succeeds |
| Timeboard.FillRules | amtrakTracker/src/main/java/com/kiron/amtrakTracker/service/StationServiceImp.java:158-180 | how one update fills a row: arrival, departure, neither; the late flags are only raised; the scheduled times, number, destination and route name are kept, and the actual time too when the update has neither event |
| Timeboard.FillDated | amtrakTracker/src/main/java/com/kiron/amtrakTracker/service/StationServiceImp.java:158-180 | every filled row has a date |
| Timeboard.FirstRowKeepsSchedule | amtrakTracker/src/main/java/com/kiron/amtrakTracker/service/StationServiceImp.java:112-128 | the first row a stop time adds carries its scheduled times and the trip's number, destination and route name |
| Timeboard.MatchRowsCount | amtrakTracker/src/main/java/com/kiron/amtrakTracker/service/StationServiceImp.java:137-183 | with a usable index nothing fails, one row per matching entity, all dated |
| Timeboard.MatchRowsAt | amtrakTracker/src/main/java/com/kiron/amtrakTracker/service/StationServiceImp.java:151-181 | the k-th row is the k-th matching entity's update applied to a copy of row k-1 (or to the base row) |
| Timeboard.MatchRowsShape | amtrakTracker/src/main/java/com/kiron/amtrakTracker/service/StationServiceImp.java:137-183 | all of the above for every row at once |
| Timeboard.MatchRowsNegativeIndex | amtrakTracker/src/main/java/com/kiron/amtrakTracker/service/StationServiceImp.java:137-151 | with a negative index (see `Timeboard.StopIndexCases` for which stop sequences give one), the loop adds nothing, and it throws exactly when some entity passes the trip and length tests |
| Timeboard.BuildRowDanglingReferences | amtrakTracker/src/main/java/com/kiron/amtrakTracker/service/StationServiceImp.java:118-128 | a missing trip or route (with both times parsed) returns normally: no row and no error; a failing stop time adds no row |
| Timeboard.TwoServiceDays | amtrakTracker/src/main/java/com/kiron/amtrakTracker/service/StationServiceImp.java:153-156 | two entities of one trip give two dated rows, the second filled from a copy of the first |
| Timeboard.ShortUpdateListSkipped | amtrakTracker/src/main/java/com/kiron/amtrakTracker/service/StationServiceImp.java:146-148 | an entity with no update at the stop's position is skipped without error |
| Trains.Upserts | amtrakTracker/src/main/java/com/kiron/amtrakTracker/scheduled/TrainAPIUpdate.java:44-64 | no more trains are upserted than the snapshot holds |
| Trains.Scheduled | amtrakTracker/src/main/java/com/kiron/amtrakTracker/scheduled/TrainAPIUpdate.java:47-61 | definition: no train when no station code contains the next-station code, otherwise the train with its arrival rendered in the zone of the station the lookup hands out; stated by `Trains.ScheduledZoneOfMatch` and `Trains.UpsertsScheduled` |
| Trains.ScheduledZoneOfMatch | amtrakTracker/src/main/java/com/kiron/amtrakTracker/scheduled/TrainAPIUpdate.java:47-61 | when the lookup hands out one of the found stations, the arrival is rendered in the zone of a station whose code contains the next-station code |
| Trains.TrainStore.SetAllInactive | amtrakTracker/src/main/java/com/kiron/amtrakTracker/scheduled/TrainAPIUpdate.java:42 | no record is active; records are kept |
| Trains.TrainStore.AddTrain | amtrakTracker/src/main/java/com/kiron/amtrakTracker/scheduled/TrainAPIUpdate.java:63 | the train replaces the record with its id and is active |
| Trains.TrainStore.DeleteInactiveTrains | amtrakTracker/src/main/java/com/kiron/amtrakTracker/scheduled/TrainAPIUpdate.java:66 | only the active records remain, and afterwards the stored ids are exactly the active ones |
| Trains.ScheduleAndUpsert | amtrakTracker/src/main/java/com/kiron/amtrakTracker/scheduled/TrainAPIUpdate.java:45-63 | a train whose next station is unknown leaves the store alone; otherwise it gets its scheduled arrival and is upserted |
| Trains.UpsertSnapshot | amtrakTracker/src/main/java/com/kiron/amtrakTracker/controller/TrainController.java:49-72 | the snapshot's found trains are upserted in order, and the response lists every train |
| Trains.UpsertStep | amtrakTracker/src/main/java/com/kiron/amtrakTracker/controller/TrainController.java:49-72 | one turn of the loop moves the store and the response list on by exactly the next snapshot train |
| Trains.UpdateTrains | amtrakTracker/src/main/java/com/kiron/amtrakTracker/scheduled/TrainAPIUpdate.java:35-71 | a failed fetch leaves the store untouched; otherwise the store ends with exactly the upserted trains, after one mark, the upserts and one delete |
| Trains.UpdateAllTrains | amtrakTracker/src/main/java/com/kiron/amtrakTracker/controller/TrainController.java:39-79 | the same cycle, returning every snapshot train; a failed fetch is returned before the store is touched |
| Trains.ApplyUpsertsKeys | amtrakTracker/src/main/java/com/kiron/amtrakTracker/scheduled/TrainAPIUpdate.java:63 | upserts add exactly their ids to the store's keys |
| Trains.LastUpsertWins | amtrakTracker/src/main/java/com/kiron/amtrakTracker/scheduled/TrainAPIUpdate.java:63 | an id ends up holding its last upsert |
| Trains.UpsertedValuesIndependent | amtrakTracker/src/main/java/com/kiron/amtrakTracker/scheduled/TrainAPIUpdate.java:42-66 | an upserted id's record does not depend on the earlier store |
| Trains.CycleOutcome | amtrakTracker/src/main/java/com/kiron/amtrakTracker/scheduled/TrainAPIUpdate.java:42-66 | after a cycle the store is the upserts alone, whatever it held before |
| Trains.UpsertedIds | amtrakTracker/src/main/java/com/kiron/amtrakTracker/scheduled/TrainAPIUpdate.java:44-64 | an id is upserted exactly when some snapshot train with that id has a next station that is found |
| Trains.UpsertsScheduled | amtrakTracker/src/main/java/com/kiron/amtrakTracker/scheduled/TrainAPIUpdate.java:56-63 | every upserted train has a scheduled arrival and comes from a snapshot train with the same id, number and next station |
| Trains.SkippedTrainRemoved | amtrakTracker/src/main/java/com/kiron/amtrakTracker/scheduled/TrainAPIUpdate.java:49-66 | a train whose lookup fails is gone after the cycle, even if it was stored before |
| Trains.CycleReplay | amtrakTracker/src/main/java/com/kiron/amtrakTracker/scheduled/TrainAPIUpdate.java:42-66 | replaying the same snapshot leaves the store unchanged |
| Trains.CycleCallOrder | amtrakTracker/src/main/java/com/kiron/amtrakTracker/scheduled/TrainAPIUpdate.java:42-66 | one mark first, one delete last, and only upserts between them, in snapshot order |
| Trains.UpsertCallsShape | amtrakTracker/src/main/java/com/kiron/amtrakTracker/controller/TrainController.java:49-72 | one addTrain call per upserted train, in order |
| Trains.ResponsesCoverSnapshot | amtrakTracker/src/main/java/com/kiron/amtrakTracker/controller/TrainController.java:49-72 | the response has one entry per snapshot train in order: as parsed when the station is not found, scheduled otherwise |
| Trains.InsertPermutes | amtrakTracker/src/main/java/com/kiron/amtrakTracker/controller/TrainController.java:114 | inserting adds exactly that train |
| Trains.InsertSorted | amtrakTracker/src/main/java/com/kiron/amtrakTracker/controller/TrainController.java:114 | inserting into a sorted list keeps it sorted by number |
| Trains.InsertStable | amtrakTracker/src/main/java/com/kiron/amtrakTracker/controller/TrainController.java:114 | the inserted train goes ahead of every train with its number |
| Trains.SortByNumberCorrect | amtrakTracker/src/main/java/com/kiron/amtrakTracker/controller/TrainController.java:114 | the sort orders by number, is a permutation, and keeps equal numbers in their original order |
| Trains.GetAllTrains | amtrakTracker/src/main/java/com/kiron/amtrakTracker/controller/TrainController.java:82-92 | the listing comes back sorted by number, as a stable permutation |
| Trains.Search | amtrakTracker/src/main/java/com/kiron/amtrakTracker/controller/TrainController.java:95-118 | the result is the merged results sorted stably by number, with nothing dropped or deduplicated |
| Trains.Merged | amtrakTracker/src/main/java/com/kiron/amtrakTracker/controller/TrainController.java:100-113 | definition: the name results, or the railroad results when the name and number results are both empty, then the number results; stated by `Trains.MergedFallback` |
| Trains.MergedFallback | amtrakTracker/src/main/java/com/kiron/amtrakTracker/controller/TrainController.java:100-111 | a query that does not parse gets no number results; the railroad results are the whole result exactly when the name and number results are both empty; otherwise the name results come first, then the number results |

## Left out

- Network access, ZIP and CSV decoding, protobuf and JSON parsing. Feeds, archive entries and CSV rows are given as sequences, and a failed download is an `Err` input.
- Fetching the two feeds in getTrainsAtStation: both are read before the station lookup, and a failure there is not modelled.
- The time-zone database, the system clock and the system default zone. They are the `zoneHour`, `formatEpoch`, `formatDate` and `now` parameters. So the hour offset between a station's zone and New York is the difference of two opaque hour readings.
- Timeboard.StationTimeboard.SortTimeboard: the timeboard's own ordering is not part of this model, so the contract says only that the rows become that ordering of themselves.
- Timeboard.MatchRowsAt: the `TimeboardRow` copy constructor is not part of this model. A later row is filled from `copyRow` of the previous row, with no claim about which fields the copy keeps. The late flags are proved to be only ever raised, relative to the row that is filled.
- Trains.Scheduled: the station the lookup's hash set yields first is the `pick` parameter, a function of the set. A different matching station, with its time zone, may be the one Java's iteration order gives.
- The train store's internals and its search queries. The store is modelled as records keyed by train id with an active set. `addTrain` upserts as active and `deleteInactiveTrains` removes the rest. The name, number and railroad queries are functions the search is given.
- Trains.GetAllTrains: the store's listing order is an input. Only the sort applied to it is modelled.
- Trains.Search: `List.sort` on the merged list is modelled by a stable insertion sort on values (`SortByNumber`), not as an in-place sort of the list.
- `closest`, because it computes floating-point distances. It is unused by the application.
- `addStationAdmin` and `getAdmin1`: deprecated geocoding calls over JSON.
- The commented-out `stops.txt` mappers, because they are dead code.
- Logging, `@Scheduled` timing and concurrency between the scheduled update and the endpoints.
- Timeboard.GetTrainsAtStation: `ZoneId.of` throws for a stored time zone that is not a valid zone id (in buildRow's offset and in formatEpoch), and that exception ends the station query. The zone functions here are total parameters, so an invalid zone id is not modelled.
- Trains.UpdateTrains: `ZoneId.of` on a found station's time zone throws a DateTimeException that the cycle's catch clause does not handle. The trains after it are not upserted, and `deleteInactiveTrains` is skipped, so every record not yet upserted stays inactive. The zone rendering here is a total parameter, so this path is not modelled.
- Trains.UpdateAllTrains: the same `ZoneId.of` exception escapes the update endpoint before `deleteInactiveTrains`; not modelled, for the same reason.
- Timeboard.WrappedStopIndexSkipped: feed update lists are unbounded sequences here; the lemma assumes what protobuf guarantees, that a list holds at most 2147483647 updates.
- Common.ParseInt: only ASCII digits are accepted. Java also accepts other Unicode decimal digits.
- Common.ContainsIgnoreCase: case folding is ASCII only. The database's case-insensitive match may fold more characters.
- ScheduleTime.Clock12: the AM/PM markers are the English ones. The JVM's default locale is not modelled.
- ScheduleTime.AdjustHour: the hour arithmetic is unbounded. Java's 32-bit sum of hour and offset could only wrap for hours near the int limit, and those are rejected either way.
