/**
 * Foundation's JSONDecoder and JSONEncoder, which the client cannot see
 * into: each is a total function from bytes to a decoded shape or an error
 * (or from a shape to bytes or an error), supplied by the caller.
 */
module Json {
  import opened Wrappers
  import opened Utf8
  import opened Models

  /** The error a throwing decode or encode reports (Swift's `Error`). */
  datatype CodingError = CodingError(description: string)

  /** The four conversions the client performs. */
  datatype JsonCodec = JsonCodec(
    decodeIdentify: seq<byte> -> Result<APIContainer<IdentifyResult>, CodingError>,
    decodeEnrollment: seq<byte> -> Result<APIContainer<EnrollmentResult>, CodingError>,
    decodeErrorResponse: seq<byte> -> Result<APIErrorResponse, CodingError>,
    encodeDeleteRequest: DeleteRequest -> Result<seq<byte>, CodingError>)
}
