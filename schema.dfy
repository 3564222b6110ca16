/**
 * The values that cross the gateway's boundaries: the upscaling parameters,
 * an uploaded file, the HTTP errors it raises and what the remote service
 * answered.
 */
module Schema {
  import opened Wrappers
  import opened Json

  newtype byte = x: int | 0 <= x < 256

  /** The upscaling parameters; `urls` is absent unless a caller supplies it. */
  datatype UpscaleRequest = UpscaleRequest(
    model: string,
    scale: string,
    saveImageAs: string,
    enhanceFace: bool,
    urls: Option<seq<string>>)

  /** An uploaded file: its name and content type as the client sent them, and its bytes. */
  datatype UploadFile = UploadFile(filename: Option<string>, contentType: Option<string>, content: seq<byte>)

  /** An HTTP error response: status code and detail text. */
  datatype HttpError = HttpError(statusCode: int, detail: string)

  /**
   * What one call to the remote service came back with: either the request
   * failed (no connection, a timeout, a non-success status or a body that is
   * not JSON), or it succeeded and its body decoded to a JSON value.
   */
  datatype RemoteReply = RequestFailed(reason: string) | Received(body: Json)
}
