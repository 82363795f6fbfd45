/** The already-decoded GTFS Realtime `FeedMessage`, restricted to the fields
    the flatteners read (messages FeedEntity, TripUpdate, StopTimeUpdate,
    StopTimeEvent, TripDescriptor, VehicleDescriptor, VehiclePosition and
    Position of `gtfs-realtime.proto`).

    Every optional proto2 field is an `Option`: `Some` exactly when its
    has-bit is set. Reading a field with the plain getter yields its default
    when it is unset; that is `GetOr` with the proto2 default. */
module Feed {
  import opened Wrappers

  /** A proto `int32`. */
  newtype Int32 = x: int | -0x8000_0000 <= x < 0x8000_0000

  /** A proto `float` (IEEE-754 single precision), kept as its raw bits:
      the flatteners only copy these values, never compute with them. */
  type Float32 = bv32

  /** The proto2 default of a `float` field, 0.0, whose bits are all zero. */
  const FloatDefault: Float32 := 0

  datatype TripDescriptor = TripDescriptor(
    tripId: Option<string>,
    routeId: Option<string>,
    startDate: Option<string>)

  datatype VehicleDescriptor = VehicleDescriptor(id: Option<string>)

  /** Only `delay` is read; `time` and `uncertainty` are not part of this model. */
  datatype StopTimeEvent = StopTimeEvent(delay: Option<Int32>)

  datatype StopTimeUpdate = StopTimeUpdate(
    stopId: Option<string>,
    arrival: Option<StopTimeEvent>,
    departure: Option<StopTimeEvent>)

  /** `trip` is required in the schema and is read without a presence check;
      an unset descriptor reads as one whose fields are all unset. */
  datatype TripUpdate = TripUpdate(
    trip: TripDescriptor,
    vehicle: Option<VehicleDescriptor>,
    stopTimeUpdates: seq<StopTimeUpdate>)

  datatype Position = Position(
    latitude: Option<Float32>,
    longitude: Option<Float32>,
    bearing: Option<Float32>,
    speed: Option<Float32>)

  datatype VehiclePosition = VehiclePosition(
    trip: Option<TripDescriptor>,
    vehicle: Option<VehicleDescriptor>,
    position: Option<Position>)

  /** One entity of the feed. Its optional payloads are independent fields,
      as in the schema; the alert payload, which no flattener reads, is not
      represented. */
  datatype FeedEntity = FeedEntity(
    id: string,
    tripUpdate: Option<TripUpdate>,
    vehicle: Option<VehiclePosition>)

  datatype FeedMessage = FeedMessage(entities: seq<FeedEntity>)

  /** `FeedMessage.ParseFromString` rejected the payload. */
  datatype DecodeError = MalformedFeed

  /** What decoding one payload produced; the wire decoder itself is not modelled. */
  type Decoded = Result<FeedMessage, DecodeError>
}
