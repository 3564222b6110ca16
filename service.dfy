/**
 * `UpscayleService`: the client of the remote upscaling API. Its two calls
 * are modelled by the request each one sends and by what it makes of the
 * remote reply, which is an input here.
 */
module Service {
  import opened Wrappers
  import opened Json
  import opened Schema
  import PyText
  import JsonText

  const DefaultApiUrl: string := "https://api.upscayl.org"
  const CdnBaseUrl: string := "https://upscayl.org"
  const MissingKeyMessage: string := "UPSCAYLE_API_KEY not set in environment variables"

  /** The two environment settings; each may be unset. */
  datatype Settings = Settings(apiKey: Option<string>, apiUrl: Option<string>)

  /** A configured client: the API base URL and the key sent with every call. */
  datatype Service = Service(apiUrl: string, apiKey: string)

  /** Python truthiness of an optional string: set and not empty. */
  predicate IsSet(o: Option<string>)
  {
    o.Some? && o.value != ""
  }

  /**
   * `UpscayleService.__init__`: the URL falls back to the public API when it
   * is unset, and construction fails with a `ValueError` when the key is.
   */
  function NewService(settings: Settings): (r: Result<Service, string>)
    ensures r.Failure? <==> !IsSet(settings.apiKey)
    ensures r.Failure? ==> r.error == MissingKeyMessage
    ensures r.Success? ==> r.value.apiKey == settings.apiKey.value && r.value.apiKey != ""
    ensures r.Success? && IsSet(settings.apiUrl) ==> r.value.apiUrl == settings.apiUrl.value
    ensures r.Success? && !IsSet(settings.apiUrl) ==> r.value.apiUrl == DefaultApiUrl
  {
    var apiUrl := if IsSet(settings.apiUrl) then settings.apiUrl.value else DefaultApiUrl;
    if !IsSet(settings.apiKey) then Failure(MissingKeyMessage)
    else Success(Service(apiUrl, settings.apiKey.value))
  }

  // ---------------------------------------------------------------------
  // Starting a task

  /** One part of the multipart upload: `(filename, content, content_type)`. */
  datatype FilePart = FilePart(filename: Option<string>, content: seq<byte>, contentType: Option<string>)

  /** The POST that starts a task. */
  datatype StartTaskRequest = StartTaskRequest(
    url: string,
    headers: seq<(string, string)>,
    payload: seq<(string, string)>,
    files: seq<(string, FilePart)>,
    timeoutSeconds: nat)

  function PartOf(f: UploadFile): FilePart
  {
    FilePart(f.filename, f.content, f.contentType)
  }

  /** The multipart field name of the file at position `idx`: `f"{idx}.file"`. */
  function FileKey(idx: nat): string
  {
    PyText.Decimal(idx) + ".file"
  }

  /** Files at different positions get different field names. */
  lemma FileKeyInjective(i: nat, j: nat)
    requires FileKey(i) == FileKey(j)
    ensures i == j
  {
    var a, b := PyText.Decimal(i), PyText.Decimal(j);
    assert |a| == |b|;
    assert a == FileKey(i)[..|a|] == FileKey(j)[..|b|] == b;
    PyText.DecimalInjective(i, j);
  }

  /**
   * The multipart dict for `files`, in insertion order: pair `i` is
   * `"{i}.file"` with the name, bytes and type of file `i`.
   */
  ghost predicate IsFilesDataFor(filesData: seq<(string, FilePart)>, files: seq<UploadFile>)
  {
    && |filesData| == |files|
    && forall i :: 0 <= i < |files| ==> filesData[i] == (FileKey(i), PartOf(files[i]))
  }

  method BuildFilesData(files: seq<UploadFile>) returns (filesData: seq<(string, FilePart)>)
    ensures IsFilesDataFor(filesData, files)
  {
    filesData := [];
    var idx := 0;
    while idx < |files|
      invariant 0 <= idx <= |files|
      invariant |filesData| == idx
      invariant forall i :: 0 <= i < idx ==> filesData[i] == (FileKey(i), PartOf(files[i]))
    {
      forall i | 0 <= i < idx
        ensures Keys(filesData)[i] != FileKey(idx)
      {
        if FileKey(i) == FileKey(idx) {
          FileKeyInjective(i, idx);
        }
      }
      HasIffInKeys(filesData, FileKey(idx));
      PutNew(filesData, FileKey(idx), PartOf(files[idx]));
      filesData := Put(filesData, FileKey(idx), PartOf(files[idx]));
      idx := idx + 1;
    }
  }

  /** Every file can be looked up under its own field name: no two pairs share a key. */
  lemma FilesDataLookup(filesData: seq<(string, FilePart)>, files: seq<UploadFile>, i: nat)
    requires IsFilesDataFor(filesData, files) && i < |files|
    ensures Get(filesData, FileKey(i)) == Some(PartOf(files[i]))
  {
    forall j | 0 <= j < i
      ensures filesData[j].0 != FileKey(i)
    {
      if FileKey(j) == FileKey(i) {
        FileKeyInjective(j, i);
      }
    }
    GetFirst(filesData, FileKey(i), i);
  }

  /** Python truthiness of the optional URL list: given and not empty. */
  predicate HasUrls(urls: Option<seq<string>>)
  {
    urls.Some? && |urls.value| > 0
  }

  /**
   * The form fields for `params`: model, scale and output format verbatim,
   * the face flag as lower-case `"true"`/`"false"`, and a JSON-encoded `urls`
   * field only when URLs were given, in that order.
   */
  ghost predicate IsPayloadFor(payload: seq<(string, string)>, params: UpscaleRequest)
  {
    && Keys(payload) == ["model", "scale", "saveImageAs", "enhanceFace"] + (if HasUrls(params.urls) then ["urls"] else [])
    && Get(payload, "model") == Some(params.model)
    && Get(payload, "scale") == Some(params.scale)
    && Get(payload, "saveImageAs") == Some(params.saveImageAs)
    && Get(payload, "enhanceFace") == Some(if params.enhanceFace then "true" else "false")
    && (HasUrls(params.urls) ==> Get(payload, "urls") == Some(JsonText.Dumps(params.urls.value)))
  }

  method BuildPayload(params: UpscaleRequest) returns (payload: seq<(string, string)>)
    ensures IsPayloadFor(payload, params)
  {
    payload := [
      ("model", params.model),
      ("scale", params.scale),
      ("saveImageAs", params.saveImageAs),
      ("enhanceFace", PyText.Lower(PyText.BoolText(params.enhanceFace)))
    ];
    PyText.LowerBoolText(params.enhanceFace);
    GetFirst(payload, "model", 0);
    GetFirst(payload, "scale", 1);
    GetFirst(payload, "saveImageAs", 2);
    GetFirst(payload, "enhanceFace", 3);
    assert Keys(payload) == ["model", "scale", "saveImageAs", "enhanceFace"];
    if HasUrls(params.urls) {
      HasIffInKeys(payload, "urls");
      PutKeys(payload, "urls", JsonText.Dumps(params.urls.value));
      payload := Put(payload, "urls", JsonText.Dumps(params.urls.value));
    }
  }

  /** The `urls` field, when present, reads back as exactly the given list. */
  lemma PayloadUrlsRoundTrip(payload: seq<(string, string)>, params: UpscaleRequest)
    requires IsPayloadFor(payload, params)
    ensures Has(payload, "urls") <==> HasUrls(params.urls)
    ensures HasUrls(params.urls) ==> JsonText.Loads(Get(payload, "urls").value) == params.urls
  {
    HasIffInKeys(payload, "urls");
    if HasUrls(params.urls) {
      JsonText.LoadsDumps(params.urls.value);
    } else {
      assert Keys(payload) == ["model", "scale", "saveImageAs", "enhanceFace"];
    }
  }

  /**
   * `upscale_images`: sends the files and parameters to `/start-task` with
   * the API key and a 30-second timeout, and returns the decoded reply; a
   * failed request becomes an HTTP 500.
   */
  method UpscaleImages(svc: Service, files: seq<UploadFile>, params: UpscaleRequest, reply: RemoteReply)
    returns (request: StartTaskRequest, response: Result<Json, HttpError>)
    ensures request.url == svc.apiUrl + "/start-task"
    ensures request.headers == [("X-API-Key", svc.apiKey)]
    ensures request.timeoutSeconds == 30
    ensures IsFilesDataFor(request.files, files)
    ensures IsPayloadFor(request.payload, params)
    ensures reply.Received? ==> response == Success(reply.body)
    ensures reply.RequestFailed? ==>
      response == Failure(HttpError(500, "Error communicating with Upscayl API: " + reply.reason))
  {
    var filesData := BuildFilesData(files);
    var payload := BuildPayload(params);
    var headers := [("X-API-Key", svc.apiKey)];
    request := StartTaskRequest(svc.apiUrl + "/start-task", headers, payload, filesData, 30);
    match reply
    case RequestFailed(reason) =>
      response := Failure(HttpError(500, "Error communicating with Upscayl API: " + reason));
    case Received(body) =>
      response := Success(body);
  }

  // ---------------------------------------------------------------------
  // Task status

  /** The POST that asks for a task's status. */
  datatype StatusRequest = StatusRequest(
    url: string,
    headers: seq<(string, string)>,
    body: Json,
    timeoutSeconds: nat)

  const ProcessingFailure: HttpError := HttpError(500, "Error processing task status: ")

  /** `s` contains `"data"` as a substring (Python's `"data" in s` on a string). */
  predicate MentionsData(s: string)
  {
    |s| >= 4 && (s[..4] == "data" || MentionsData(s[1..]))
  }

  /**
   * The URL one entry of `data.files` contributes: its `url` if it has one,
   * otherwise the CDN base joined with its `path`; nothing for an entry that
   * is not an object or has neither field.
   */
  function EntryUrl(entry: Json): Option<Json>
  {
    match entry
    case JObject(ms) =>
      if Has(ms, "url") then Get(ms, "url")
      else if Has(ms, "path") then Some(JString(CdnBaseUrl + "/" + PyText.Str(Get(ms, "path").value)))
      else None
    case _ => None
  }

  /** What one entry adds to `image_urls`: its URL, or nothing. */
  function Contribution(entry: Json): seq<Json>
  {
    match EntryUrl(entry)
    case Some(u) => [u]
    case None => []
  }

  /** The URLs of `files`, entry by entry. */
  function ImageUrls(files: seq<Json>): seq<Json>
  {
    if |files| == 0 then [] else ImageUrls(files[..|files| - 1]) + Contribution(files[|files| - 1])
  }

  /** `data["files"]` when it is a list, otherwise no entries. */
  function FilesOf(data: Members): seq<Json>
  {
    match Get<Json>(data, "files")
    case Some(JArray(items)) => items
    case _ => []
  }

  /** `data.get("status", "")`. */
  function TaskStatusOf(data: Members): Json
  {
    match Get<Json>(data, "status")
    case Some(v) => v
    case None => JString("")
  }

  /** `result` after `result["image_urls"] = …` and `result["task_status"] = …`. */
  function Annotated(ms: Members, data: Members): Members
  {
    Put(Put(ms, "image_urls", JArray(ImageUrls(FilesOf(data)))), "task_status", TaskStatusOf(data))
  }

  /**
   * What `get_task_status` makes of a decoded reply. A dict with a `data`
   * dict gains `image_urls` and `task_status`; a dict without `data` is
   * returned as it is. A `data` that is not a dict, and a reply that is not a
   * dict but mentions `"data"` or cannot be searched at all, raise in Python
   * and end as an HTTP 500.
   */
  function Normalised(result: Json): Result<Json, HttpError>
  {
    match result
    case JObject(ms) =>
      (match Get<Json>(ms, "data")
       case None => Success(result)
       case Some(JObject(data)) => Success(JObject(Annotated(ms, data)))
       case Some(_) => Failure(ProcessingFailure))
    case JArray(items) => if JString("data") in items then Failure(ProcessingFailure) else Success(result)
    case JString(s) => if MentionsData(s) then Failure(ProcessingFailure) else Success(result)
    case _ => Failure(ProcessingFailure)
  }

  /** The normalisation block of `get_task_status`, run on the decoded reply. */
  method NormaliseStatus(result: Json) returns (r: Result<Json, HttpError>)
    ensures r == Normalised(result)
  {
    if !result.JObject? {
      // `"data" in result` on a list or a string is a membership test that
      // raises when it succeeds, because such a value cannot be indexed by a
      // string; on any other value the test itself raises.
      var hasData := match result
        case JArray(items) => JString("data") in items
        case JString(s) => MentionsData(s)
        case _ => true;
      r := if hasData then Failure(ProcessingFailure) else Success(result);
      return;
    }
    var members := result.members;
    if !Has(members, "data") {
      r := Success(result);
      return;
    }
    var data := Get(members, "data").value;
    if !data.JObject? {
      r := Failure(ProcessingFailure);
      return;
    }
    var imageUrls: seq<Json> := [];
    var taskStatus := if Has(data.members, "status") then Get(data.members, "status").value else JString("");
    if Has(data.members, "files") && Get(data.members, "files").value.JArray? {
      var items := Get(data.members, "files").value.items;
      var i := 0;
      while i < |items|
        invariant 0 <= i <= |items|
        invariant imageUrls == ImageUrls(items[..i])
      {
        var fileInfo := items[i];
        if fileInfo.JObject? {
          if Has(fileInfo.members, "url") {
            imageUrls := imageUrls + [Get(fileInfo.members, "url").value];
          } else if Has(fileInfo.members, "path") {
            imageUrls := imageUrls + [JString(CdnBaseUrl + "/" + PyText.Str(Get(fileInfo.members, "path").value))];
          }
        }
        assert items[..i + 1][..i] == items[..i];
        i := i + 1;
      }
      assert items[..|items|] == items;
    }
    members := Put(members, "image_urls", JArray(imageUrls));
    members := Put(members, "task_status", taskStatus);
    r := Success(JObject(members));
  }

  /**
   * `get_task_status`: asks `/get-task-status` about `taskId` with the API key,
   * a JSON body and a 10-second timeout, then normalises the decoded reply; a
   * failed request becomes an HTTP 500.
   */
  method GetTaskStatus(svc: Service, taskId: string, reply: RemoteReply)
    returns (request: StatusRequest, response: Result<Json, HttpError>)
    ensures request.url == svc.apiUrl + "/get-task-status"
    ensures request.headers == [("X-API-Key", svc.apiKey), ("Content-Type", "application/json")]
    ensures request.body == JObject([("data", JObject([("taskId", JString(taskId))]))])
    ensures request.timeoutSeconds == 10
    ensures reply.RequestFailed? ==>
      response == Failure(HttpError(500, "Error fetching task status: " + reply.reason))
    ensures reply.Received? ==> response == Normalised(reply.body)
  {
    var body := JObject([("data", JObject([("taskId", JString(taskId))]))]);
    var headers := [("X-API-Key", svc.apiKey), ("Content-Type", "application/json")];
    request := StatusRequest(svc.apiUrl + "/get-task-status", headers, body, 10);
    match reply
    case RequestFailed(reason) =>
      response := Failure(HttpError(500, "Error fetching task status: " + reason));
    case Received(result) =>
      response := NormaliseStatus(result);
  }

  // ---------------------------------------------------------------------
  // What the normalisation promises

  /** The URLs of a concatenation are the URLs of its parts, in order. */
  lemma {:induction false} ImageUrlsAppend(a: seq<Json>, b: seq<Json>)
    ensures ImageUrls(a + b) == ImageUrls(a) + ImageUrls(b)
  {
    if |b| > 0 {
      var b' := b[..|b| - 1];
      assert (a + b)[..|a + b| - 1] == a + b';
      assert (a + b)[|a + b| - 1] == b[|b| - 1];
      ImageUrlsAppend(a, b');
    } else {
      assert a + b == a;
    }
  }

  /**
   * Entry `i` contributes at most one URL, and it sits right after the URLs
   * of the entries before it and right before those of the entries after it.
   */
  lemma SplitAt<T>(s: seq<T>, i: nat)
    requires i < |s|
    ensures s == s[..i] + [s[i]] + s[i + 1..]
  {
  }

  lemma ImageUrlsSingle(entry: Json)
    ensures ImageUrls([entry]) == Contribution(entry)
  {
    assert [entry][..0] == [];
  }

  lemma EntryPosition(files: seq<Json>, i: nat)
    requires i < |files|
    ensures ImageUrls(files) == ImageUrls(files[..i]) + Contribution(files[i]) + ImageUrls(files[i + 1..])
  {
    var before, after := files[..i], files[i + 1..];
    var upTo := before + [files[i]];
    SplitAt(files, i);
    ImageUrlsAppend(upTo, after);
    assert ImageUrls(files) == ImageUrls(upTo) + ImageUrls(after);
    ImageUrlsAppend(before, [files[i]]);
    ImageUrlsSingle(files[i]);
    assert ImageUrls(upTo) == ImageUrls(before) + Contribution(files[i]);
  }

  /** An entry with a direct `url` contributes that value, whatever its `path`. */
  lemma DirectUrlPreferred(files: seq<Json>, i: nat)
    requires i < |files| && files[i].JObject? && Has(files[i].members, "url")
    ensures |ImageUrls(files[..i])| < |ImageUrls(files)|
    ensures ImageUrls(files)[|ImageUrls(files[..i])|] == Get(files[i].members, "url").value
  {
    EntryPosition(files, i);
  }

  /** An entry with a `path` string and no `url` contributes the CDN URL of that path. */
  lemma PathJoinedToCdn(files: seq<Json>, i: nat, path: string)
    requires i < |files| && files[i].JObject?
    requires !Has(files[i].members, "url") && Get(files[i].members, "path") == Some(JString(path))
    ensures |ImageUrls(files[..i])| < |ImageUrls(files)|
    ensures ImageUrls(files)[|ImageUrls(files[..i])|] == JString("https://upscayl.org/" + path)
  {
    EntryPosition(files, i);
    assert PyText.Str(JString(path)) == path;
    assert Contribution(files[i]) == [JString(CdnBaseUrl + "/" + path)];
    assert CdnBaseUrl + "/" + path == "https://upscayl.org/" + path;
    IndexAfterPrefix(ImageUrls(files[..i]), JString(CdnBaseUrl + "/" + path), ImageUrls(files[i + 1..]));
  }

  lemma IndexAfterPrefix<T>(a: seq<T>, x: T, b: seq<T>)
    ensures |a| < |a + [x] + b| && (a + [x] + b)[|a|] == x
  {
  }

  /** An entry that is not an object, or has neither field, contributes nothing. */
  lemma EntrySkipped(files: seq<Json>, i: nat)
    requires i < |files|
    requires !files[i].JObject? || (!Has(files[i].members, "url") && !Has(files[i].members, "path"))
    ensures ImageUrls(files) == ImageUrls(files[..i]) + ImageUrls(files[i + 1..])
  {
    EntryPosition(files, i);
    assert EntryUrl(files[i]).None?;
    DropEmptyMiddle(ImageUrls(files[..i]), Contribution(files[i]), ImageUrls(files[i + 1..]));
  }

  lemma DropEmptyMiddle<T>(a: seq<T>, b: seq<T>, c: seq<T>)
    requires b == []
    ensures a + b + c == a + c
  {
  }

  /** The positions of the entries that contribute a URL, in increasing order. */
  ghost function Sources(files: seq<Json>): seq<nat>
  {
    if |files| == 0 then []
    else Sources(files[..|files| - 1]) + (if EntryUrl(files[|files| - 1]).Some? then [|files| - 1] else [])
  }

  /**
   * `image_urls` lists, in the order of the entries, one URL for each entry
   * that has one and nothing for the others; so it is never longer than
   * `files`.
   */
  lemma {:induction false} ImageUrlsFollowEntries(files: seq<Json>)
    ensures |Sources(files)| == |ImageUrls(files)| <= |files|
    ensures forall k :: 0 <= k < |Sources(files)| ==>
      Sources(files)[k] < |files| && EntryUrl(files[Sources(files)[k]]) == Some(ImageUrls(files)[k])
    ensures forall k, l :: 0 <= k < l < |Sources(files)| ==> Sources(files)[k] < Sources(files)[l]
    ensures forall i :: 0 <= i < |files| ==> (i in Sources(files) <==> EntryUrl(files[i]).Some?)
  {
    if |files| > 0 {
      var init := files[..|files| - 1];
      ImageUrlsFollowEntries(init);
      forall k | 0 <= k < |Sources(init)|
        ensures files[Sources(init)[k]] == init[Sources(init)[k]]
      {
      }
    }
  }

  /** A reply without `data` comes back exactly as it arrived. */
  lemma NormaliseWithoutData(ms: Members)
    requires !Has(ms, "data")
    ensures Normalised(JObject(ms)) == Success(JObject(ms))
  {
  }

  /**
   * A reply with a `data` object keeps every other key and value and the
   * order of its keys; it gains `image_urls`, the URLs of `data.files` (none
   * when `files` is missing or not a list), and `task_status`, which is
   * `data.status` as it came or `""`.
   */
  lemma NormaliseWithData(ms: Members, data: Members)
    requires Get(ms, "data") == Some(JObject(data))
    ensures Normalised(JObject(ms)) == Success(JObject(Annotated(ms, data)))
    ensures var out := Annotated(ms, data);
      && Get(out, "image_urls") == Some(JArray(ImageUrls(FilesOf(data))))
      && Get(out, "task_status") == (if Has(data, "status") then Get(data, "status") else Some(JString("")))
      && (forall k :: k != "image_urls" && k != "task_status" ==> Get(out, k) == Get(ms, k))
      && |ms| <= |out| <= |ms| + 2
      && Keys(out)[..|ms|] == Keys(ms)
      && (forall j :: |ms| <= j < |out| ==> Keys(out)[j] in ["image_urls", "task_status"])
    ensures !(Has(data, "files") && Get(data, "files").value.JArray?) ==>
      Get(Annotated(ms, data), "image_urls") == Some(JArray([]))
  {
    PutTwo(ms, "image_urls", JArray(ImageUrls(FilesOf(data))), "task_status", TaskStatusOf(data));
  }

  /** A `data` value that is not an object makes the call fail with HTTP 500. */
  lemma NormaliseDataNotObject(ms: Members)
    requires Has(ms, "data") && !Get(ms, "data").value.JObject?
    ensures Normalised(JObject(ms)).Failure?
    ensures Normalised(JObject(ms)).error.statusCode == 500
  {
  }

  /** Normalising an already normalised reply changes nothing. */
  lemma NormaliseIdempotent(result: Json)
    requires Normalised(result).Success?
    ensures Normalised(Normalised(result).value) == Normalised(result)
  {
    if result.JObject? && Has(result.members, "data") {
      var data := Get(result.members, "data").value;
      NormaliseTwiceWithData(result.members, data.members);
    } else {
      assert Normalised(result) == Success(result);
    }
  }

  lemma NormaliseTwiceWithData(ms: Members, data: Members)
    requires Get(ms, "data") == Some(JObject(data))
    ensures Normalised(JObject(ms)).Success?
    ensures Normalised(Normalised(JObject(ms)).value) == Normalised(JObject(ms))
  {
    var out := Annotated(ms, data);
    assert Get(out, "data") == Some(JObject(data));
    AnnotatedTwice(ms, data);
  }

  lemma AnnotatedTwice(ms: Members, data: Members)
    ensures Annotated(Annotated(ms, data), data) == Annotated(ms, data)
  {
    PutTwoAgain(ms, "image_urls", JArray(ImageUrls(FilesOf(data))), "task_status", TaskStatusOf(data));
  }
}
