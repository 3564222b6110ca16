/**
 * The two HTTP routes under `/upscale`: `POST /images` checks the uploads
 * before anything is sent to the remote service, and `GET /task/{task_id}`
 * hands back whatever the service made of the status reply.
 */
module Route {
  import opened Wrappers
  import opened Json
  import opened Schema
  import PyText
  import Service

  const MaxFiles: nat := 3
  const AllowedTypes: seq<string> := ["image/jpeg", "image/jpg", "image/png", "image/webp"]
  const TooManyFiles: HttpError := HttpError(400, "Maximum 3 files allowed per request")

  predicate IsAllowedType(contentType: Option<string>)
  {
    contentType.Some? && contentType.value in AllowedTypes
  }

  /** `str(file.content_type)`: the type as sent, or `None` when there was none. */
  function ContentTypeText(contentType: Option<string>): string
  {
    match contentType
    case Some(s) => s
    case None => "None"
  }

  /** The 400 raised for a file of the wrong type; it names that type and lists the allowed ones. */
  function InvalidType(contentType: Option<string>): HttpError
  {
    HttpError(400, "Invalid file type: " + ContentTypeText(contentType) + ". Allowed: " + PyText.Join(AllowedTypes, ", "))
  }

  /** The position of the first file, in upload order, whose type is not allowed. */
  function FirstDisallowed(files: seq<UploadFile>): (r: Option<nat>)
    ensures r.Some? ==> r.value < |files| && !IsAllowedType(files[r.value].contentType)
    ensures r.Some? ==> forall j :: 0 <= j < r.value ==> IsAllowedType(files[j].contentType)
    ensures r.None? <==> forall j :: 0 <= j < |files| ==> IsAllowedType(files[j].contentType)
  {
    if |files| == 0 then None
    else if !IsAllowedType(files[0].contentType) then Some(0)
    else match FirstDisallowed(files[1..])
      case Some(i) => Some(i + 1)
      case None => None
  }

  /**
   * The checks `upscale_images` makes before it calls the service: first the
   * number of files, then each file's content type in upload order. `None`
   * means the upload passes.
   */
  function ValidateUploads(files: seq<UploadFile>): (r: Option<HttpError>)
    ensures r.None? <==> |files| <= MaxFiles && forall j :: 0 <= j < |files| ==> IsAllowedType(files[j].contentType)
    ensures r.Some? ==> r.value.statusCode == 400
  {
    if |files| > MaxFiles then Some(TooManyFiles)
    else match FirstDisallowed(files)
      case Some(i) => Some(InvalidType(files[i].contentType))
      case None => None
  }

  /** More than three files are refused for their number, whatever their types. */
  lemma CountCheckedFirst(files: seq<UploadFile>)
    requires |files| > MaxFiles
    ensures ValidateUploads(files) == Some(TooManyFiles)
  {
  }

  /** Three files are not too many: with allowed types they pass. */
  lemma ThreeFilesPass(files: seq<UploadFile>)
    requires |files| == 3
    requires forall j :: 0 <= j < |files| ==> IsAllowedType(files[j].contentType)
    ensures ValidateUploads(files).None?
  {
  }

  /** A type error names the first offending file's type, in upload order. */
  lemma TypeErrorNamesFirstOffender(files: seq<UploadFile>, i: nat)
    requires |files| <= MaxFiles && i < |files|
    requires !IsAllowedType(files[i].contentType)
    requires forall j :: 0 <= j < i ==> IsAllowedType(files[j].contentType)
    ensures ValidateUploads(files) == Some(InvalidType(files[i].contentType))
  {
  }

  /**
   * Both routes are declared with `response_model=dict`: FastAPI checks that
   * the handler's result is a dict and answers a server error when it is not.
   */
  const ResponseNotDict: HttpError := HttpError(500, "Internal Server Error")

  /** The answer a `response_model=dict` route sends for a handler result. */
  function AsDictResponse(r: Result<Json, HttpError>): (out: Result<Json, HttpError>)
    ensures out.Success? ==> out.value.JObject? && out == r
    ensures r.Success? && r.value.JObject? ==> out == r
    ensures r.Failure? ==> out == r
    ensures r.Success? && !r.value.JObject? ==> out == Failure(ResponseNotDict)
  {
    match r
    case Success(JObject(_)) => r
    case Success(_) => Failure(ResponseNotDict)
    case Failure(_) => r
  }

  /**
   * A status reply that is a dict is answered with its normalised form; any
   * other decoded reply ends as a server error, either because the service
   * raised or because the result is not a dict.
   */
  lemma StatusReplyAnswer(body: Json)
    ensures body.JObject? ==> AsDictResponse(Service.Normalised(body)) == Service.Normalised(body)
    ensures !body.JObject? ==>
      AsDictResponse(Service.Normalised(body)) in {Failure(Service.ProcessingFailure), Failure(ResponseNotDict)}
  {
  }

  /** What `POST /upscale/images` does with one upload. */
  datatype RouteOutcome =
    | Rejected(error: HttpError)
    | Forwarded(request: Service.StartTaskRequest, response: Result<Json, HttpError>)

  /**
   * `upscale_images` route: a failed check ends the request with its 400 and
   * nothing is sent; otherwise the service is called with the form values and
   * no source URLs, so the outgoing form never has a `urls` field.
   */
  method UpscaleImages(
    svc: Service.Service,
    files: seq<UploadFile>,
    model: string,
    scale: string,
    saveImageAs: string,
    enhanceFace: bool,
    reply: RemoteReply)
    returns (out: RouteOutcome)
    ensures out.Rejected? <==> ValidateUploads(files).Some?
    ensures out.Rejected? ==> out.error == ValidateUploads(files).value
    ensures out.Forwarded? ==>
      && out.request.url == svc.apiUrl + "/start-task"
      && Service.IsFilesDataFor(out.request.files, files)
      && Service.IsPayloadFor(out.request.payload, UpscaleRequest(model, scale, saveImageAs, enhanceFace, None))
      && !Has(out.request.payload, "urls")
    ensures out.Forwarded? && reply.Received? && reply.body.JObject? ==> out.response == Success(reply.body)
    ensures out.Forwarded? && reply.Received? && !reply.body.JObject? ==> out.response == Failure(ResponseNotDict)
    ensures out.Forwarded? && reply.RequestFailed? ==>
      out.response == Failure(HttpError(500, "Error communicating with Upscayl API: " + reply.reason))
  {
    if |files| > MaxFiles {
      return Rejected(TooManyFiles);
    }
    var i := 0;
    while i < |files|
      invariant 0 <= i <= |files|
      invariant forall j :: 0 <= j < i ==> IsAllowedType(files[j].contentType)
    {
      if !IsAllowedType(files[i].contentType) {
        TypeErrorNamesFirstOffender(files, i);
        return Rejected(InvalidType(files[i].contentType));
      }
      i := i + 1;
    }
    var params := UpscaleRequest(model, scale, saveImageAs, enhanceFace, None);
    var request, response := Service.UpscaleImages(svc, files, params, reply);
    Service.PayloadUrlsRoundTrip(request.payload, params);
    return Forwarded(request, AsDictResponse(response));
  }

  /**
   * `get_task_status` route: the service's answer, passed back unchanged
   * when it is a dict or an error.
   */
  method GetTaskStatus(svc: Service.Service, taskId: string, reply: RemoteReply)
    returns (response: Result<Json, HttpError>)
    ensures response.Success? ==> response.value.JObject?
    ensures reply.Received? ==> response == AsDictResponse(Service.Normalised(reply.body))
    ensures reply.RequestFailed? ==>
      response == Failure(HttpError(500, "Error fetching task status: " + reply.reason))
  {
    var _, result := Service.GetTaskStatus(svc, taskId, reply);
    return AsDictResponse(result);
  }
}
