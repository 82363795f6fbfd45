/** The trip-updates blob trigger (`tripupdates/__init__.py`, `main`): the
    partition date, the early return when nothing was parsed, and the
    destination path of the Parquet file. As written, `main` raises while
    building the `dt` column whenever rows were parsed (`HandleBlobAsWritten`);
    `HandleBlob` is the evidently intended behaviour, where `Uploaded`
    records what would be written and where. The DataFrame, the Parquet
    serialisation and the upload itself are not modelled. */
module TripUpdatesFunction {
  import opened Wrappers
  import opened Feed
  import opened TripUpdates
  import opened Decimal
  import opened PartitionDate

  /** The directory prefix of every destination, up to the partition date. */
  const DestinationDir: string := "clean/gtfsrt/tripupdates/dt="

  /** The directory prefix of every blob the trigger is bound to, up to the date. */
  const SourceDir: string := "bronze/raw/gtfsrt/tripupdates/dt="

  /** Both prefixes end in `dt=` and hold no other '='. */
  lemma DirShapes()
    ensures |DestinationDir| >= 3 && DestinationDir[|DestinationDir| - 3..] == "dt="
    ensures '=' !in DestinationDir[..|DestinationDir| - 3]
    ensures |SourceDir| >= 3 && SourceDir[|SourceDir| - 3..] == "dt="
    ensures '=' !in SourceDir[..|SourceDir| - 3]
  {
  }

  /** The container-relative path of the Parquet file for partition `dt`:
      `clean/gtfsrt/tripupdates/dt={dt}/part-{stamp}.parquet`. */
  function DestinationPath(dt: string, stamp: int): (p: string)
    // Under the `dt=` partition directory, a `part-` file with the Parquet extension.
    ensures DestinationDir + dt + "/part-" <= p
    ensures |p| >= 8 && p[|p| - 8..] == ".parquet"
  {
    DestinationDir + dt + ("/part-" + IntToDecimal(stamp) + ".parquet")
  }

  /** The blob path the trigger is bound to: `bronze/raw/gtfsrt/tripupdates/dt={date}/hr={hour}/{filename}.pb`. */
  function SourceBlobName(date: string, hour: string, filename: string): string {
    SourceDir + date + ("/hr=" + hour + "/" + filename + ".pb")
  }

  /** Why an invocation of `main` raised. */
  datatype Error =
    | Undecodable(decodeError: DecodeError)
      /** The exception raised while building the `dt` column: `pd.to_datetime`
          of a string is a scalar `Timestamp`, which has no `.dt` accessor
          (or, for a `dt` pandas cannot parse, `pd.to_datetime` itself raises). */
    | DateColumnFailed

  /** How one invocation of `main` ends. */
  datatype Outcome =
    | Raised(error: Error)
    | NothingParsed
    | Uploaded(dst: string, dt: string, rows: seq<TripUpdateRow>)

  /** `main(myblob, date, hour, filename)` as evidently intended, with the
      partition-date column built from `dt` without raising: `blobName` is the blob's name
      (possibly None), `payload` what decoding its bytes produced, `snap`,
      `today` and `stamp` the clock readings. */
  method HandleBlob(blobName: Option<string>, date: string, payload: Decoded, snap: string, today: string, stamp: int)
    returns (outcome: Outcome)
    ensures outcome.Raised? <==> payload.Failure?
    ensures payload.Failure? ==> outcome == Raised(Undecodable(payload.error))
    ensures outcome.NothingParsed? <==> payload.Success? && TripUpdateRows(payload.value.entities, snap) == []
    ensures outcome.Uploaded? ==>
      outcome.rows == TripUpdateRows(payload.value.entities, snap) && outcome.rows != []
    // An empty `date` binding is passed on as None, so the blob name decides.
    ensures outcome.Uploaded? && date != "" ==> outcome.dt == date
    ensures outcome.Uploaded? && date == "" ==> outcome.dt == ExtractDt(blobName, None, today)
    ensures outcome.Uploaded? ==>
      outcome.dst == DestinationDir + outcome.dt + ("/part-" + IntToDecimal(stamp) + ".parquet")
  {
    var dt := ExtractDt(blobName, NoneIfEmpty(date), today);
    var parsed := ParseTripUpdates(payload, snap);
    if parsed.Failure? {
      return Raised(Undecodable(parsed.error));
    }
    var rows := parsed.value;
    if rows == [] {
      return NothingParsed;
    }
    return Uploaded(DestinationPath(dt, stamp), dt, rows);
  }

  /** `main` as written: building the `dt` column with `pd.to_datetime(dt).dt.date`
      raises `AttributeError` before the stamp, the path or the upload are
      reached, and the handler logs and re-raises it. Only a failed decode and
      an empty row list end differently. */
  method HandleBlobAsWritten(blobName: Option<string>, date: string, payload: Decoded, snap: string, today: string)
    returns (outcome: Outcome)
    ensures !outcome.Uploaded?
    ensures payload.Failure? ==> outcome == Raised(Undecodable(payload.error))
    ensures outcome.NothingParsed? <==> payload.Success? && TripUpdateRows(payload.value.entities, snap) == []
    ensures payload.Success? && TripUpdateRows(payload.value.entities, snap) != [] ==> outcome == Raised(DateColumnFailed)
  {
    var dt := ExtractDt(blobName, NoneIfEmpty(date), today);
    var parsed := ParseTripUpdates(payload, snap);
    if parsed.Failure? {
      return Raised(Undecodable(parsed.error));
    }
    if parsed.value == [] {
      return NothingParsed;
    }
    return Raised(DateColumnFailed);
  }

  /** A well-formed feed with one row, on the trigger's own path: as written
      the invocation raises, where the intended one uploads to the bound date. */
  method OneRowFeedOutcomes(snap: string, today: string, stamp: int) returns (asWritten: Outcome, intended: Outcome)
    ensures asWritten == Raised(DateColumnFailed)
    ensures intended.Uploaded? && intended.dt == "2024-05-01" && |intended.rows| == 1
  {
    var e := FeedEntity("e1", Some(TripUpdate(TripDescriptor(Some("t1"), Some("r1"), None), None, [StopTimeUpdate(Some("s1"), None, None)])), None);
    var feed := FeedMessage([e]);
    assert feed.entities[..0] == [];
    assert TripUpdateRows(feed.entities, snap) != [];
    var name := SourceBlobName("2024-05-01", "07", "feed");
    asWritten := HandleBlobAsWritten(Some(name), "2024-05-01", Success(feed), snap, today);
    intended := HandleBlob(Some(name), "2024-05-01", Success(feed), snap, today, stamp);
  }

  /** The partition date of a destination path is the one `_extract_dt` reads back from it. */
  lemma DestinationDateRoundTrip(dt: string, stamp: int, today: string)
    requires IsDateShape(dt)
    ensures ExtractDt(Some(DestinationPath(dt, stamp)), None, today) == dt
  {
    var rest := "/part-" + IntToDecimal(stamp) + ".parquet";
    DirShapes();
    FallbackDateAfterDir(DestinationDir, dt, rest, today);
  }

  /** For a blob on the trigger's own path, the regex fallback recovers the `date` binding. */
  lemma SourceBlobDate(date: string, hour: string, filename: string, today: string)
    requires IsDateShape(date)
    ensures ExtractDt(Some(SourceBlobName(date, hour, filename)), None, today) == date
  {
    var rest := "/hr=" + hour + "/" + filename + ".pb";
    DirShapes();
    FallbackDateAfterDir(SourceDir, date, rest, today);
  }
}
