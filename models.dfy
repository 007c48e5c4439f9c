/** The wire shapes of Models/IdentifyResponse.swift, plus the delete request body. */
module Models {
  import opened Wrappers

  /**
   * The server's similarity score, a Swift `Double`. The client only passes
   * it through, so a real number stands in for it.
   */
  type Similarity = real

  /** `APIContainer<T>`: every success envelope. */
  datatype APIContainer<T> = APIContainer(transactionId: string, result: T)

  /** `IdentifyResult`: both fields optional on the wire. */
  datatype IdentifyResult = IdentifyResult(templateId: Option<string>, similarity: Option<Similarity>)

  /** `EnrollmentResult`: the template id is required. */
  datatype EnrollmentResult = EnrollmentResult(templateId: string)

  /** `APIErrorResult`: the server's structured error. */
  datatype APIErrorResult = APIErrorResult(status: string, code: int, info: string)

  /** `APIErrorResponse`: the error envelope. */
  datatype APIErrorResponse = APIErrorResponse(transactionId: string, result: APIErrorResult)

  /** `DeleteRequest`: the JSON body of a delete call. */
  datatype DeleteRequest = DeleteRequest(templateId: string)
}
