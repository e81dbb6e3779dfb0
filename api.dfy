/**
 * The wire-level records: the protobuf messages of api/v1 (not part of this
 * model's sources, described by their use in the pipeline and the processor)
 * and the queue message of the Kafka client.
 */
module Api {

  newtype uint8 = x: int | 0 <= x < 256

  type Bytes = seq<uint8>

  /** The kind of a location; the protobuf zero value is `Unspecified`. */
  datatype LocationKind = Unspecified | Minio

  /** Addresses a blob in the object store. */
  datatype Location = Location(kind: LocationKind, bucket: string, objectName: string)

  /** One unit of work: the frame id and where its bytes live. */
  datatype InputFrame = InputFrame(frameId: string, frameLocation: Location)

  /** The description of a processed frame: its provenance and where the converted blob went. */
  datatype ConvertedBlob = ConvertedBlob(frameId: string, frameLocation: Location, convertedLocation: Location)

  /**
   * A queue message. `offset` is the position token the reader needs back on
   * commit; a message built for writing leaves it at zero, as Go's zero value does.
   */
  datatype Message = Message(key: string, value: Bytes, offset: int)
}
