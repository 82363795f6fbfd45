# GTFS Realtime silver flattening, in Dafny

This project models the core of a small ingestion pipeline for GTFS Realtime
feeds. Two blob triggers receive a serialized `FeedMessage` (the GTFS
Realtime reference, `gtfs-realtime.proto`). Each decodes it and flattens it
into rows with one snapshot timestamp. Each is meant to write the rows as a
Parquet file under a date-partitioned path. As written, each raises instead
whenever rows were parsed (see "## Findings").

- `Feed` holds the decoded message: `FeedEntity`, `TripUpdate`,
  `StopTimeUpdate`, `StopTimeEvent`, `TripDescriptor`, `VehicleDescriptor`,
  `VehiclePosition` and `Position`. Every optional proto2 field is an
  `Option`, `Some` exactly when its has-bit is set. The plain getter of an
  unset field yields the proto2 default, written `GetOr("")` or
  `GetOr(FloatDefault)`.
- `TripUpdates` models `parse_tripupdates`. It emits one row per stop-time
  update of every entity that has a `trip_update`. `ParseTripUpdates` is the
  source's nested loop. It is proved equal to the specification function
  `TripUpdateRows`, and the lemmas about that function give the fan-out
  count, the order, snapshot uniformity and the presence rules.
- `VehiclePositions` models `parse_vehiclepositions` the same way, with one
  row per entity that has a `vehicle`.
- `PartitionDate` models `_extract_dt`, which is identical in both trigger
  modules. The regular expression `dt=(\d{4}-\d{2}-\d{2})` is a leftmost
  scan, `SearchFrom`.
- `Decimal` models Python's `str` of the integer stamp used in the file name.
- `TripUpdatesFunction` and `VehiclePositionsFunction` model each trigger's
  `main`. They cover the `date or None` step, the early return on an empty
  row list and the destination path. `HandleBlobAsWritten` is `main` as
  written, and `HandleBlob` is the intended behaviour.

The snapshot string, today's UTC date and the integer stamp are parameters
because the clock is outside the model. The result of `ParseFromString` is an
input of type `Decoded = Result<FeedMessage, DecodeError>`, and a decode
failure propagates as the error.

Three behaviours of the code are easy to misread:
- When a position is present but one of `latitude`, `longitude`, `bearing`
  or `speed` is unset, `getattr` yields the proto2 default 0.0, never `None`.
- In vehicle-position rows, `route_id` and `trip_id` are copied as read, so
  an unset or empty id is `""`, not `None`. The same holds for `vehicle_id`
  in trip-update rows. Only the trip-update fields written with `or None`
  turn `""` into `None`.
- A decode failure is raised as an exception, not returned as a value. The
  model's `Failure`/`Raised` results stand for that exception.

## Model

| member | source | states |
|---|---|---|
| `Wrappers.NoneIfEmpty` | shared/gtfs_parsers.py:20-23 | `s or None` is None exactly when `s` is empty and is otherwise `s` unchanged |
| `TripUpdates.StopTimeRow` | shared/gtfs_parsers.py:17-29 | the row dict built for one stop-time update; it has no contract of its own, and `StopTimeRowFields` states what each field holds |
| `TripUpdates.StopTimeRowFields` | shared/gtfs_parsers.py:17-29 | route, trip, start date and stop id are None iff the field reads as "" (unset or empty) and otherwise the value; each delay is present, including 0, iff the event and its `delay` are both present; vehicle id is None iff the descriptor is absent and otherwise the id read with default "" |
| `TripUpdates.StopTimeRows` | shared/gtfs_parsers.py:16-29 | the inner loop yields exactly one row per stop-time update |
| `TripUpdates.StopTimeRowsStep` | shared/gtfs_parsers.py:16-29 | one more pass of the inner loop appends exactly the row of the next stop-time update |
| `TripUpdates.StopTimeRowsAt` | shared/gtfs_parsers.py:16-29 | the k-th row of the inner loop is built from the k-th stop-time update |
| `TripUpdates.EntityRows` | shared/gtfs_parsers.py:11-17 | an entity without `trip_update` yields no rows; one with N stop-time updates yields exactly N |
| `TripUpdates.EntityRowsAt` | shared/gtfs_parsers.py:11-29 | row k of an entity exists only when it carries a trip update with more than k stop-time updates, and is built from the k-th of them |
| `TripUpdates.EntityRowsShareTripFields` | shared/gtfs_parsers.py:14-28 | all rows of one entity share snapshot, entity id, route id, trip id, start date and vehicle id |
| `TripUpdates.TripUpdateRows` | shared/gtfs_parsers.py:10-30 | the flattened row list of a feed; it has no contract of its own, and the lemmas below and `ParseTripUpdates` pin its length, order, contents and snapshot |
| `TripUpdates.TripUpdateRowsStep` | shared/gtfs_parsers.py:11-29 | one more pass of the outer loop appends exactly the rows of the next entity |
| `TripUpdates.TripUpdateRowsSnapshot` | shared/gtfs_parsers.py:9-18 | every row of one call carries the one snapshot string |
| `TripUpdates.TripUpdateRowsConcat` | shared/gtfs_parsers.py:10-30 | flattening a concatenation of entity lists is the concatenation of their flattenings |
| `TripUpdates.TripUpdateRowsCount` | shared/gtfs_parsers.py:11-17 | the row count equals the number of stop-time updates summed over trip-update entities |
| `TripUpdates.TripUpdateRowsOrder` | shared/gtfs_parsers.py:11-29 | the k-th update of entity i is the row at index (updates of entities before i) + k: entity order, then update order |
| `TripUpdates.NoTripUpdatesNoRows` | shared/gtfs_parsers.py:11-13 | a feed with no trip-update entity (only alerts or vehicles) yields an empty list, not an error |
| `TripUpdates.TripUpdateRowsSnapshotOnly` | shared/gtfs_parsers.py:7-9 | two calls on the same feed at different snapshots give the same rows except `snapshot_utc` |
| `TripUpdates.ParseTripUpdates` | shared/gtfs_parsers.py:7-30 | a malformed payload fails with its decode error; otherwise the nested loop returns exactly `TripUpdateRows` of the entities |
| `VehiclePositions.PositionRow` | shared/gtfs_parsers.py:39-51 | route and trip ids are None iff `trip` is absent and otherwise unnormalised; vehicle id is None iff the descriptor is absent; without `position` all four coordinates are None; with it none is, and each of latitude, longitude, bearing and speed is the field value or 0.0 when unset |
| `VehiclePositions.VehiclePositionRows` | shared/gtfs_parsers.py:34-42 | every row of one call carries the one snapshot string |
| `VehiclePositions.VehiclePositionRowsConcat` | shared/gtfs_parsers.py:35-52 | flattening a concatenation of entity lists is the concatenation of their flattenings |
| `VehiclePositions.VehiclePositionRowsCount` | shared/gtfs_parsers.py:36-41 | exactly one row per entity with a `vehicle` field and none for the others |
| `VehiclePositions.VehiclePositionRowsOrder` | shared/gtfs_parsers.py:36-51 | the row of vehicle entity i sits at index (vehicle entities before i): rows keep entity order |
| `VehiclePositions.NoVehiclesNoRows` | shared/gtfs_parsers.py:36-38 | a feed with no vehicle entity yields an empty list |
| `VehiclePositions.VehiclePositionRowsSnapshotOnly` | shared/gtfs_parsers.py:32-34 | two calls on the same feed at different snapshots give the same rows except `snapshot_utc` |
| `VehiclePositions.ParseVehiclePositions` | shared/gtfs_parsers.py:32-52 | a malformed payload fails with its decode error; otherwise the loop returns exactly `VehiclePositionRows` of the entities |
| `Decimal.NatToDecimal` | tripupdates/__init__.py:62-64 | the decimal spelling of a natural number is non-empty, all digits, without a leading zero |
| `Decimal.IntToDecimal` | vehiclepositions/__init__.py:60-61 | `str` of an integer starts with '-' iff it is negative, and the rest is digits without a leading zero (a lone "0" aside) |
| `Decimal.NatToDecimalRoundTrip` | tripupdates/__init__.py:62-64 | reading back the digits of a natural number gives the number |
| `Decimal.IntToDecimalRoundTrip` | vehiclepositions/__init__.py:60-61 | the stamp written into the file name parses back to the same integer |
| `PartitionDate.SearchFrom` | tripupdates/__init__.py:19-26 | the scan returns the leftmost index at or after its start where `dt=dddd-dd-dd` matches, or none when no such index exists |
| `PartitionDate.SearchDt` | vehiclepositions/__init__.py:17-24 | the search succeeds iff some match exists; its capture is the 10 characters after the leftmost "dt=" and has the shape dddd-dd-dd |
| `PartitionDate.ExtractDt` | tripupdates/__init__.py:21-27 | a non-empty date parameter is returned unchanged; otherwise the leftmost match's date in the blob name (None read as ""), which has shape dddd-dd-dd; with no match, today's date |
| `PartitionDate.DateAfterPrefix` | vehiclepositions/__init__.py:22-24 | a name holding `dt=<date>` after a prefix without '=' yields exactly that date |
| `PartitionDate.FallbackDateAfterDir` | tripupdates/__init__.py:21-26 | with no date parameter, a name that continues a directory ending in `dt=` (and holding no other '=') with a date has that date as its partition date |
| `TripUpdatesFunction.DestinationPath` | tripupdates/__init__.py:64 | the path starts with "clean/gtfsrt/tripupdates/dt=" + dt + "/part-" and ends with ".parquet" |
| `TripUpdatesFunction.HandleBlobAsWritten` | tripupdates/__init__.py:47-59 | as written, `main` never uploads: a decode failure raises its error, an empty row list returns, and any non-empty row list raises at `pd.to_datetime(dt).dt` |
| `TripUpdatesFunction.OneRowFeedOutcomes` | tripupdates/__init__.py:42-74 | for a one-row feed on the bound path with `date` "2024-05-01", the code as written raises, while the intended handler uploads that row under that date |
| `TripUpdatesFunction.HandleBlob` | tripupdates/__init__.py:42-66 | intended behaviour: a decode failure raises; an empty row list returns with nothing uploaded; otherwise the rows are written to "clean/gtfsrt/tripupdates/dt=" + dt + "/part-" + stamp + ".parquet", where dt is the `date` binding if non-empty and otherwise `_extract_dt` of the blob name with no parameter |
| `TripUpdatesFunction.DestinationDateRoundTrip` | tripupdates/__init__.py:62-64 | for a date-shaped dt, `_extract_dt` applied to the destination path recovers dt |
| `TripUpdatesFunction.SourceBlobDate` | tripupdates/__init__.py:43-49 | for a blob on the bound path `bronze/raw/gtfsrt/tripupdates/dt={date}/hr={hour}/{filename}.pb`, the fallback with no binding recovers the date |
| `VehiclePositionsFunction.DestinationPath` | vehiclepositions/__init__.py:61 | the path starts with "clean/gtfsrt/vehiclepositions/dt=" + dt + "/part-" and ends with ".parquet" |
| `VehiclePositionsFunction.HandleBlobAsWritten` | vehiclepositions/__init__.py:45-56 | as written, `main` never uploads: a decode failure raises its error, an empty row list returns, and any non-empty row list raises at `pd.to_datetime(dt).dt` |
| `VehiclePositionsFunction.OneRowFeedOutcomes` | vehiclepositions/__init__.py:40-71 | for a one-row feed on the bound path with `date` "2024-05-01", the code as written raises, while the intended handler uploads that row under that date |
| `VehiclePositionsFunction.HandleBlob` | vehiclepositions/__init__.py:40-63 | intended behaviour: a decode failure raises; an empty row list returns with nothing uploaded; otherwise the rows are written to "clean/gtfsrt/vehiclepositions/dt=" + dt + "/part-" + stamp + ".parquet", with dt chosen as in the trip-updates trigger |
| `VehiclePositionsFunction.DestinationDateRoundTrip` | vehiclepositions/__init__.py:60-61 | for a date-shaped dt, `_extract_dt` applied to the destination path recovers dt |
| `VehiclePositionsFunction.SourceBlobDate` | vehiclepositions/__init__.py:41-47 | for a blob on the bound path `bronze/raw/gtfsrt/vehiclepositions/dt={date}/hr={hour}/{filename}.pb`, the fallback with no binding recovers the date |

## Findings

| source | as written | input that shows it | evidently intended | confidence | as-written member | corrected member |
|---|---|---|---|---|---|---|
| tripupdates/__init__.py:59 | `df["dt"] = pd.to_datetime(dt).dt.date`: on a `str`, `pd.to_datetime` returns a scalar `Timestamp`, which has no `.dt` accessor. The `AttributeError` is logged and re-raised at lines 72-74, so lines 62-66 (stamp, `dst`, upload) are never reached | any blob that parses to at least one row, e.g. one trip update with one stop-time update at `bronze/raw/gtfsrt/tripupdates/dt=2024-05-01/hr=07/feed.pb` | a `dt` date column (e.g. `pd.to_datetime(dt).date()`), then the upload to `clean/gtfsrt/tripupdates/dt={dt}/part-{stamp}.parquet` | high, from pandas' documented return type; not executed | `TripUpdatesFunction.HandleBlobAsWritten`, `TripUpdatesFunction.OneRowFeedOutcomes` | `TripUpdatesFunction.HandleBlob` |
| vehiclepositions/__init__.py:56 | the same `pd.to_datetime(dt).dt.date`, re-raised at lines 69-71, so lines 60-63 are never reached | any blob that parses to at least one row, e.g. one entity with a `vehicle` at `bronze/raw/gtfsrt/vehiclepositions/dt=2024-05-01/hr=07/feed.pb` | a `dt` date column, then the upload to `clean/gtfsrt/vehiclepositions/dt={dt}/part-{stamp}.parquet` | high, from pandas' documented return type; not executed | `VehiclePositionsFunction.HandleBlobAsWritten`, `VehiclePositionsFunction.OneRowFeedOutcomes` | `VehiclePositionsFunction.HandleBlob` |

## Left out

- Protobuf wire decoding (`FeedMessage.ParseFromString`) is a foreign library call. Its result is the `Decoded` input.
- Clock reads (`_now_utc_iso`, `datetime.now(...).date()`, the `timestamp()` stamp) are parameters: `snap`, `today` and `stamp`.
- Floating-point values are raw 32-bit patterns that are only copied. The default 0.0 is the all-zero pattern.
- Python's truthiness of a present `position` message (`if pos`) is taken to be always true, as for any protobuf message object.
- Schema fields the flatteners never read (alert contents, event `time` and `uncertainty`, schedule relationships, timestamps) are not represented. The entity `id` is a plain string because the schema requires it.
- Python's `\d` also matches non-ASCII Unicode digits. The model accepts only ASCII '0'-'9'.
- The pandas DataFrame and the Parquet serialisation are not modelled. The `dt` column is modelled only through the `AttributeError` that `pd.to_datetime(dt).dt` raises as written.
- HandleBlobAsWritten: `DateColumnFailed` stands for whichever exception building the `dt` column raises. That is the `AttributeError` from `.dt`, or pandas' own parse error when `dt` is not a date it can read, such as a `date` binding "foo". The model does not tell the two apart, because pandas' date parser is not modelled.
- HandleBlob: in the intended handler, building a date column from a `dt` that pandas cannot parse as a date would also raise, for example a malformed `date` binding. `Uploaded` does not capture that, because pandas' date parser is not modelled.
- The Azure plumbing is not modelled: `_upload_parquet`, the `ACCOUNT_URL` check, `DefaultAzureCredential`, `BlobServiceClient`, `upload_blob` with `overwrite=False` and `SILVER_CONTAINER`.
- Logging and the re-raise of exceptions other than a decode failure are not modelled. The `hour` and `filename` bindings are only logged.
