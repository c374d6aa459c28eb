/** The decision logic of `HypermediaClientService`: the busy counter
    behind `isBusy$`, request headers, the request body each action type
    sends, the file-upload body, the callbacks an action response or error
    produces, the mapping of transport errors to problem-details values
    (`application/problem+json`, RFC 7807) and the file name a download
    takes from its `Content-Disposition` header.

    The HTTP client is a log of the requests handed to it; a response or a
    transport error is a parameter of the method that awaits it. */
module HypermediaClient {
  import opened Values
  import opened SirenModel

  const ProblemDetailsMimeType := "application/problem+json"

  // ---------------------------------------------------------------------
  // Headers

  /** An `HttpHeaders` instance: one value per header name; `set` replaces
      the value in place. */
  type HttpHeaders = map<string, string>

  /** `headers.get(name)`, `null` when the header is absent. */
  function HeaderValue(headers: HttpHeaders, name: string): Option<string> {
    if name in headers then Some(headers[name]) else None
  }

  /** `createHeaders(withContentType)`: `Accept` is always the Siren media
      type; `Content-Type` is present exactly when the argument is truthy,
      and nothing else is set. */
  function CreateHeaders(withContentType: Value): (h: HttpHeaders)
    ensures HeaderValue(h, "Accept") == Some(MediaTypeSiren)
    ensures HeaderValue(h, "Content-Type") == if Truthy(withContentType) then Some(ToStr(withContentType)) else None
    ensures forall name :: name in h ==> name == "Accept" || name == "Content-Type"
  {
    var headers: HttpHeaders := map[];
    var headers := if Truthy(withContentType) then headers["Content-Type" := ToStr(withContentType)] else headers;
    headers["Accept" := MediaTypeSiren]
  }

  // ---------------------------------------------------------------------
  // Requests and responses

  /** A part of a `FormData` body. */
  datatype FormPart = FormPart(name: string, file: File)

  /** What a request carries: nothing (`null`), a JSON value, a `FormData`
      or one raw file. */
  datatype Body = NoBody | JsonBody(value: Value) | FormBody(parts: seq<FormPart>) | FileBody(file: File)

  /** A call of `httpClient.get` or `httpClient.request`. */
  datatype Request = Request(httpMethod: string, url: Value, headers: HttpHeaders, body: Body)

  /** An `HttpResponse`; `headers` is `None` when the object has none. */
  datatype HttpResponse = HttpResponse(headers: Option<HttpHeaders>, body: Value)

  /** The kinds of `Error` instance a transport error can carry. */
  datatype ErrorKind = PlainError | SyntaxError

  /** The `error` payload of an `HttpErrorResponse`:
      - `Json`: the body the server sent, or `null`;
      - `Exception`: an `Error` instance raised on the client side;
      - `ParseFailure`: the wrapper an HTTP client builds around a body it
        could not parse, whose own `error` member is a `SyntaxError`. */
  datatype Payload =
    | Json(value: Value)
    | Exception(kind: ErrorKind, message: string)
    | ParseFailure(text: string)

  datatype HttpErrorResponse = HttpErrorResponse(status: int, error: Payload, headers: Option<HttpHeaders>)

  /** How a request ends: a response, or a transport error. */
  datatype HttpOutcome = Response(response: HttpResponse) | ErrorResponse(errorResponse: HttpErrorResponse)

  /** `ActionResults`. */
  datatype ActionResults = ActionUndefined | ActionPending | ActionError | ActionOk

  /** One call of the `actionResult` callback passed to `executeAction`. */
  datatype ActionCallback = ActionCallback(
    result: ActionResults,
    resultLocation: Option<string>,
    content: Value,
    problemDetailsError: Option<ProblemDetailsError>)

  // ---------------------------------------------------------------------
  // Problem details

  /** A `ProblemDetailsError`: the members of the object it was built from,
      plus any that `Object.assign` copied onto it. */
  datatype ProblemDetailsError = ProblemDetailsError(members: seq<Member>)

  function Field(p: ProblemDetailsError, k: string): Option<Value> {
    Lookup(p.members, k)
  }

  function ClientProblem(kind: string, title: string, detail: string, status: int): ProblemDetailsError {
    ProblemDetailsError([
      Member("type", Str(kind)), Member("title", Str(title)),
      Member("detail", Str(detail)), Member("status", Num(status))])
  }

  /** The body was not the JSON that was expected. */
  const ContentError := ClientProblem("Client.ContentError", "Content error", "Server did not respond with expected content (json)", 406)
  /** The request failed on the client side. */
  const RequestError := ClientProblem("Client.RequestError", "Client error on request", "Could not execute request.", 0)
  /** Status 0: the request never reached the server, or CORS refused it. */
  const UnreachableError := ClientProblem("Client.RequestError", "Client error on request",
                                          "Could not execute request. Check if the API is reachable and CORS settings.", 0)

  function ApiError(status: int, rawObject: Value): ProblemDetailsError {
    ProblemDetailsError([
      Member("type", Str("ApiError")), Member("title", Str("API error")),
      Member("detail", Str("API returned a generic error.")), Member("status", Num(status)),
      Member("rawObject", rawObject)])
  }

  /** The response has headers whose `Content-Type` mentions the
      problem-details media type. */
  predicate IsProblemDetailsResponse(e: HttpErrorResponse) {
    e.headers.Some? && var contentType := HeaderValue(e.headers.value, "Content-Type");
    contentType.Some? && Contains(contentType.value, ProblemDetailsMimeType)
  }

  /** The type and status members of a problem built by `ClientProblem`. */
  lemma ClientProblemFields(kind: string, title: string, detail: string, status: int)
    ensures var p := ClientProblem(kind, title, detail, status);
      Field(p, "type") == Some(Str(kind)) && Field(p, "detail") == Some(Str(detail)) && Field(p, "status") == Some(Num(status))
  {
    var ms := ClientProblem(kind, title, detail, status).members;
    LookupCons(ms[0], ms[1..]);
    LookupCons(ms[1], ms[2..]);
    LookupCons(ms[2], ms[3..]);
    LookupCons(ms[3], ms[4..]);
  }

  lemma ApiErrorFields(status: int, rawObject: Value)
    ensures var p := ApiError(status, rawObject);
      Field(p, "type") == Some(Str("ApiError")) && Field(p, "status") == Some(Num(status)) && Field(p, "rawObject") == Some(rawObject)
  {
    var ms := ApiError(status, rawObject).members;
    LookupCons(ms[0], ms[1..]);
    LookupCons(ms[1], ms[2..]);
    LookupCons(ms[2], ms[3..]);
    LookupCons(ms[3], ms[4..]);
    LookupCons(ms[4], ms[5..]);
  }

  /** `MapHttpErrorResponseToProblemDetails` as written: the first matching
      rule decides. Reading `message` of a `null` payload at status 0
      throws. `stringify` is `JSON.stringify(_, null, 4)`. */
  function ProblemDetailsOfAsWritten(e: HttpErrorResponse, stringify: Value -> string): (r: Result<ProblemDetailsError>)
    ensures r.Fail? <==> e.status == 0 && e.error.Json? && IsNullish(e.error.value)
    ensures r.Ok? ==> r.value == ProblemDetailsOf(e, stringify)
  {
    match e.error
    case ParseFailure(_) => Ok(ContentError)
    case Exception(_, _) => Ok(RequestError)
    case Json(body) =>
      if e.status == 0 then
        if IsNullish(body) then Fail(TypeError) else Ok(UnreachableError)
      else if IsProblemDetailsResponse(e) then Ok(ProblemDetailsError(Assign([Member("rawObject", body)], body)))
      else Ok(ApiError(e.status, if Truthy(body) then Str(stringify(body)) else Null))
  }

  /** `MapHttpErrorResponseToProblemDetails` with the message read guarded,
      so that status 0 always gives the unreachable-server problem. The
      rules, in order:
      - a body that failed to parse is a content error (406);
      - an `Error` payload is a client-side request error (0);
      - status 0 is the unreachable-server error (0);
      - a problem-details response is its own payload, with `rawObject`
        set to that payload unless the payload has a `rawObject` member;
      - anything else is a generic API error carrying the transport status
        and the serialized payload, or `null` for a falsy payload. */
  function ProblemDetailsOf(e: HttpErrorResponse, stringify: Value -> string): (r: ProblemDetailsError)
  {
    match e.error
    case ParseFailure(_) => ContentError
    case Exception(_, _) => RequestError
    case Json(body) =>
      if e.status == 0 then UnreachableError
      else if IsProblemDetailsResponse(e) then ProblemDetailsError(Assign([Member("rawObject", body)], body))
      else ApiError(e.status, if Truthy(body) then Str(stringify(body)) else Null)
  }

  /** The client-side rules, which the headers never affect. */
  lemma ClientSideProblems(e: HttpErrorResponse, stringify: Value -> string)
    ensures var r := ProblemDetailsOf(e, stringify);
      && (e.error.ParseFailure? ==>
            Field(r, "type") == Some(Str("Client.ContentError")) && Field(r, "status") == Some(Num(406)))
      && (e.error.Exception? ==>
            Field(r, "type") == Some(Str("Client.RequestError")) && Field(r, "status") == Some(Num(0)))
      && (e.error.Json? && e.status == 0 ==>
            Field(r, "type") == Some(Str("Client.RequestError")) && Field(r, "status") == Some(Num(0))
            && Field(r, "detail") == Some(Str("Could not execute request. Check if the API is reachable and CORS settings.")))
      && (e.error.ParseFailure? || e.error.Exception? || e.status == 0 ==>
            forall h :: ProblemDetailsOf(e.(headers := h), stringify) == r)
  {
    ClientProblemFields("Client.ContentError", "Content error", "Server did not respond with expected content (json)", 406);
    ClientProblemFields("Client.RequestError", "Client error on request", "Could not execute request.", 0);
    ClientProblemFields("Client.RequestError", "Client error on request",
                        "Could not execute request. Check if the API is reachable and CORS settings.", 0);
  }

  /** A problem-details response from the server carries every member of
      its payload, the last one when a key repeats; `rawObject` is the
      payload itself unless the payload has its own `rawObject`. */
  lemma ServerProblemDetails(e: HttpErrorResponse, stringify: Value -> string)
    requires e.error.Json? && e.status != 0 && IsProblemDetailsResponse(e)
    ensures var r, entries := ProblemDetailsOf(e, stringify), OwnEntries(e.error.value);
      && (forall k :: HasKey(entries, k) ==> Field(r, k) == LookupLast(entries, k))
      && (!HasKey(entries, "rawObject") ==> Field(r, "rawObject") == Some(e.error.value))
  {
    LookupCons(Member("rawObject", e.error.value), []);
  }

  /** Any other server error is a generic API error with the transport's
      status, and the serialized payload when there is one. */
  lemma GenericApiError(e: HttpErrorResponse, stringify: Value -> string)
    requires e.error.Json? && e.status != 0 && !IsProblemDetailsResponse(e)
    ensures var r := ProblemDetailsOf(e, stringify);
      && Field(r, "type") == Some(Str("ApiError"))
      && Field(r, "status") == Some(Num(e.status))
      && Field(r, "rawObject") == Some(if Truthy(e.error.value) then Str(stringify(e.error.value)) else Null)
  {
    ApiErrorFields(e.status, if Truthy(e.error.value) then Str(stringify(e.error.value)) else Null);
  }

  /** A `null` payload at status 0 makes the code as written throw, where
      the unreachable-server problem was meant. */
  lemma NullPayloadAtStatusZero(stringify: Value -> string)
    ensures ProblemDetailsOfAsWritten(HttpErrorResponse(0, Json(Null), None), stringify) == Fail(TypeError)
    ensures ProblemDetailsOf(HttpErrorResponse(0, Json(Null), None), stringify) == UnreachableError
  {
  }

  /** `HandleActionError` as written: one callback with the error result
      and the problem details, unless building the problem details throws,
      in which case nothing is called back. */
  function ActionErrorCallbacks(e: HttpErrorResponse, stringify: Value -> string): (r: Result<seq<ActionCallback>>)
    ensures r.Fail? <==> e.status == 0 && e.error.Json? && IsNullish(e.error.value)
    ensures r.Ok? ==> |r.value| == 1 && r.value[0].result == ActionError && r.value[0].resultLocation == None && r.value[0].content == Null
    ensures r.Ok? ==> r.value[0].problemDetailsError == Some(ProblemDetailsOf(e, stringify))
  {
    var details :- ProblemDetailsOfAsWritten(e, stringify);
    Ok([ActionCallback(ActionError, None, Null, Some(details))])
  }

  /** `HandleActionError` over the corrected classifier: always exactly one
      error callback. */
  function ActionErrorCallbacksCorrected(e: HttpErrorResponse, stringify: Value -> string): (r: seq<ActionCallback>)
    ensures |r| == 1 && r[0].result == ActionError && r[0].resultLocation == None && r[0].content == Null
    ensures r[0].problemDetailsError == Some(ProblemDetailsOf(e, stringify))
  {
    [ActionCallback(ActionError, None, Null, Some(ProblemDetailsOf(e, stringify)))]
  }

  // ---------------------------------------------------------------------
  // Action responses

  /** `OnActionResponse` as written: without a `Location` header the
      callback runs with a `null` location and then, as there is no early
      return, once more. Headers that are missing make `get` throw before
      the check that was meant to catch them. */
  function ActionResponseCallbacksAsWritten(response: HttpResponse): (r: Result<seq<ActionCallback>>)
    ensures r.Fail? <==> response.headers.None?
    ensures r.Ok? ==> forall i :: 0 <= i < |r.value| ==> r.value[i] == ActionCallback(ActionOk, HeaderValue(response.headers.value, "Location"), response.body, None)
    ensures r.Ok? ==> |r.value| == if HeaderValue(response.headers.value, "Location").None? then 2 else 1
  {
    if response.headers.None? then Fail(TypeError)
    else
      var location := HeaderValue(response.headers.value, "Location");
      var calls := if location.None? then [ActionCallback(ActionOk, None, response.body, None)] else [];
      Ok(calls + [ActionCallback(ActionOk, location, response.body, None)])
  }

  /** `OnActionResponse` with the early return: exactly one callback, with
      the `Location` header or `null`. */
  function ActionResponseCallbacks(response: HttpResponse): (r: Result<seq<ActionCallback>>)
    ensures r.Fail? <==> response.headers.None?
    ensures r.Ok? ==> r.value == [ActionCallback(ActionOk, HeaderValue(response.headers.value, "Location"), response.body, None)]
  {
    if response.headers.None? then Fail(TypeError)
    else
      var location := HeaderValue(response.headers.value, "Location");
      if location.None? then Ok([ActionCallback(ActionOk, None, response.body, None)])
      else Ok([ActionCallback(ActionOk, location, response.body, None)])
  }

  /** The two agree exactly when the response has a `Location` header (or
      no headers at all); a response without one is reported twice. */
  lemma ActionResponseDoubleCallback(response: HttpResponse)
    ensures ActionResponseCallbacksAsWritten(response) == ActionResponseCallbacks(response) <==>
      response.headers.None? || HeaderValue(response.headers.value, "Location").Some?
    ensures ActionResponseCallbacksAsWritten(HttpResponse(Some(map[]), Null)).value ==
      ActionResponseCallbacks(HttpResponse(Some(map[]), Null)).value + ActionResponseCallbacks(HttpResponse(Some(map[]), Null)).value
  {
    if response.headers.Some? {
      var location := HeaderValue(response.headers.value, "Location");
      var call := ActionCallback(ActionOk, location, response.body, None);
      if location.None? {
        assert |ActionResponseCallbacksAsWritten(response).value| == 2;
      } else {
        assert [] + [call] == [call];
      }
    }
  }

  /** The callbacks an action's request produces as written, whichever way
      it ends. */
  function ActionCallbacks(outcome: HttpOutcome, stringify: Value -> string): Result<seq<ActionCallback>> {
    match outcome
    case Response(response) => ActionResponseCallbacksAsWritten(response)
    case ErrorResponse(e) => ActionErrorCallbacks(e, stringify)
  }

  /** The callbacks with both defects corrected: every outcome gives exactly
      one callback, except a response without headers, which still throws. */
  function ActionCallbacksCorrected(outcome: HttpOutcome, stringify: Value -> string): (r: Result<seq<ActionCallback>>)
    ensures r.Fail? <==> outcome.Response? && outcome.response.headers.None?
    ensures r.Ok? ==> |r.value| == 1
  {
    match outcome
    case Response(response) => ActionResponseCallbacks(response)
    case ErrorResponse(e) => Ok(ActionErrorCallbacksCorrected(e, stringify))
  }

  /** The service as written and the corrected one call back the same way
      exactly when a response has a `Location` header (or no headers), or an
      error response is not a `null` payload at status 0. */
  lemma ActionCallbacksAgree(outcome: HttpOutcome, stringify: Value -> string)
    ensures ActionCallbacks(outcome, stringify) == ActionCallbacksCorrected(outcome, stringify) <==>
      match outcome
      case Response(response) => response.headers.None? || HeaderValue(response.headers.value, "Location").Some?
      case ErrorResponse(e) => !(e.status == 0 && e.error.Json? && IsNullish(e.error.value))
  {
    match outcome
    case Response(response) => ActionResponseDoubleCallback(response);
    case ErrorResponse(e) =>
  }

  // ---------------------------------------------------------------------
  // Request bodies

  /** `createWaheStyleActionParameters`: the parameters wrapped as
      `[ { [waheActionParameterName]: parameters } ]`. Only `null` is
      refused; `undefined` parameters are wrapped like any other value. */
  function WaheStyleActionParameters(action: HypermediaAction): (r: Result<Value>)
    ensures r.Fail? <==> action.parameters == Null
    ensures r.Fail? ==> r.error == ParametersMissing
    ensures r.Ok? ==> r.value.Arr? && |r.value.items| == 1 && r.value.items[0].Obj?
    ensures r.Ok? ==> OwnEntries(r.value.items[0]) == [Member(ToStr(action.waheActionParameterName), action.parameters)]
  {
    if action.parameters == Null then Fail(ParametersMissing)
    else Ok(Arr([Obj(SetMember([], ToStr(action.waheActionParameterName), action.parameters))]))
  }

  /** How the receiving side reads a wrapped parameter object: the member
      named after the parameter in the single element of the array. */
  function UnwrappedParameters(body: Value, parameterName: Value): Option<Value> {
    if body.Arr? && |body.items| == 1 && body.items[0].Obj? then Lookup(body.items[0].members, ToStr(parameterName))
    else None
  }

  /** Unwrapping gives back exactly the parameters that were wrapped. */
  lemma WaheStyleRoundTrip(action: HypermediaAction)
    requires action.parameters != Null
    ensures UnwrappedParameters(WaheStyleActionParameters(action).value, action.waheActionParameterName) == Some(action.parameters)
  {
  }

  /** The `FormData` of an upload: every file under `files`, in order. */
  function FormParts(files: seq<File>): (parts: seq<FormPart>)
    ensures |parts| == |files|
    ensures forall i :: 0 <= i < |files| ==> parts[i] == FormPart("files", files[i])
  {
    seq(|files|, i requires 0 <= i < |files| => FormPart("files", files[i]))
  }

  /** `BuildBodyForFileUpload`: at least one file is needed; a multipart
      upload sends them all, an octet-stream upload exactly one, and any
      other declared type is refused. */
  function FileUploadBody(action: HypermediaAction): (r: Result<Body>)
  {
    if |action.files| < 1 then Fail(NoFileSpecified)
    else if action.contentType == Str(MediaTypeFormData) then Ok(FormBody(FormParts(action.files)))
    else if action.contentType == Str(MediaTypeOctetStream) then
      if |action.files| > 1 then Fail(OctetStreamWithMultipleFiles) else Ok(FileBody(action.files[0]))
    else Fail(UnsupportedUploadType(action.contentType))
  }

  /** The upload rules: which inputs are accepted, which error each refused
      input gets, and that the body carries the action's files. */
  lemma FileUploadRules(action: HypermediaAction)
    ensures var r, files, t := FileUploadBody(action), action.files, action.contentType;
      && (r.Ok? <==> |files| >= 1 && (t == Str(MediaTypeFormData) || (t == Str(MediaTypeOctetStream) && |files| == 1)))
      && (files == [] ==> r == Fail(NoFileSpecified))
      && (files != [] && t != Str(MediaTypeFormData) && t != Str(MediaTypeOctetStream) ==> r == Fail(UnsupportedUploadType(t)))
      && (|files| > 1 && t == Str(MediaTypeOctetStream) ==> r == Fail(OctetStreamWithMultipleFiles))
      && (r.Ok? && r.value.FormBody? ==> |r.value.parts| == |files| && forall i :: 0 <= i < |files| ==> r.value.parts[i].file == files[i])
      && (r.Ok? ==> r.value.FormBody? || (r.value.FileBody? && files == [r.value.file]))
  {
    assert MediaTypeFormData != MediaTypeOctetStream;
  }

  /** The body `executeAction` sends for each action type. */
  function RequestBody(action: HypermediaAction, useEmbeddingPropertyForActionParameters: bool): (r: Result<Body>)
  {
    match action.actionType
    case NoParameters => Ok(NoBody)
    case FileUpload => FileUploadBody(action)
    case JsonObjectParameters =>
      if useEmbeddingPropertyForActionParameters then
        var parameters :- WaheStyleActionParameters(action);
        Ok(JsonBody(parameters))
      else Ok(JsonBody(action.parameters))
  }

  /** A parameterless action sends no body; a JSON action sends its
      parameters, wrapped when the embedding setting is on, and fails only
      for `null` parameters in that mode. */
  lemma RequestBodyRules(action: HypermediaAction, useEmbedding: bool)
    ensures var r := RequestBody(action, useEmbedding);
      && (action.actionType == NoParameters ==> r == Ok(NoBody))
      && (action.actionType == FileUpload ==> r == FileUploadBody(action))
      && (action.actionType == JsonObjectParameters && !useEmbedding ==> r == Ok(JsonBody(action.parameters)))
      && (action.actionType == JsonObjectParameters && useEmbedding ==>
            (r.Fail? <==> action.parameters == Null)
            && (r.Ok? ==> r.value.JsonBody? && UnwrappedParameters(r.value.value, action.waheActionParameterName) == Some(action.parameters)))
  {
    if action.actionType == JsonObjectParameters && useEmbedding && action.parameters != Null {
      WaheStyleRoundTrip(action);
    }
  }

  // ---------------------------------------------------------------------
  // Downloads

  /** The file name `DownloadAsFile` takes from a `Content-Disposition`
      header: the text between the first and second `=` of the second
      `;`-separated segment. No header gives `undefined`; a segment without
      `=` gives `undefined`; a header without `;` throws. */
  function DownloadFileName(contentDisposition: Option<string>): (r: Result<Option<string>>)
    ensures contentDisposition.None? ==> r == Ok(None)
    ensures contentDisposition.Some? ==> (r.Fail? <==> ';' !in contentDisposition.value)
    ensures r.Ok? && r.value.Some? ==> ';' !in r.value.value && '=' !in r.value.value
  {
    match contentDisposition
    case None => Ok(None)
    case Some(header) =>
      var segments := Split(header, ';');
      if |segments| < 2 then Fail(TypeError)
      else
        var pair := Split(segments[1], '=');
        if |pair| < 2 then Ok(None) else Ok(Some(pair[1]))
  }

  /** A header `type;key=name` with plain parts yields `name`, whatever
      further `;`-separated parameters follow it. */
  lemma DownloadFileNameOf(dispositionType: string, key: string, name: string, tail: string)
    requires ';' !in dispositionType && ';' !in key && '=' !in key && ';' !in name && '=' !in name
    requires tail == [] || tail[0] == ';'
    ensures DownloadFileName(Some(dispositionType + ";" + key + "=" + name + tail)) == Ok(Some(name))
  {
    var parameter := key + "=" + name;
    assert ';' !in parameter by {
      forall i | 0 <= i < |parameter| ensures parameter[i] != ';' {
        if i < |key| { assert parameter[i] == key[i]; }
        else if i > |key| { assert parameter[i] == name[i - |key| - 1]; }
      }
    }
    assert dispositionType + ";" + key + "=" + name + tail == dispositionType + [';'] + (parameter + tail);
    SplitAfterFirst(dispositionType, ';', parameter + tail);
    if tail == [] {
      assert parameter + tail == parameter;
    } else {
      assert parameter + tail == parameter + [';'] + tail[1..];
      SplitAfterFirst(parameter, ';', tail[1..]);
    }
    assert Split(dispositionType + ";" + key + "=" + name + tail, ';')[1] == parameter;
    assert key + "=" + name == key + ['='] + name;
    SplitAfterFirst(key, '=', name);
  }

  /** A header `type;parameter` whose parameter has no `=` yields no name,
      whatever further `;`-separated parameters follow it. */
  lemma DownloadFileNameWithoutValue(dispositionType: string, parameter: string, tail: string)
    requires ';' !in dispositionType && ';' !in parameter && '=' !in parameter
    requires tail == [] || tail[0] == ';'
    ensures DownloadFileName(Some(dispositionType + ";" + parameter + tail)) == Ok(None)
  {
    assert dispositionType + ";" + parameter + tail == dispositionType + [';'] + (parameter + tail);
    SplitAfterFirst(dispositionType, ';', parameter + tail);
    if tail == [] {
      assert parameter + tail == parameter;
    } else {
      assert parameter + tail == parameter + [';'] + tail[1..];
      SplitAfterFirst(parameter, ';', tail[1..]);
    }
  }

  // ---------------------------------------------------------------------
  // The service

  class HypermediaClientService {
    var busyRequestsCounter: int
    /** Every value `isBusy$` has held, oldest first. */
    var isBusy: seq<bool>
    /** The requests handed to the HTTP client, oldest first. */
    var sent: seq<Request>
    /** `settings.useEmbeddingPropertyForActionParameters`. */
    const useEmbeddingPropertyForActionParameters: bool
    /** `JSON.stringify(_, null, 4)`. */
    const stringify: Value -> string

    /** `isBusy$` holds whether a counted request is pending. */
    predicate Valid()
      reads this
    {
      busyRequestsCounter >= 0 && |isBusy| > 0 && isBusy[|isBusy| - 1] == (busyRequestsCounter != 0)
    }

    constructor(useEmbeddingPropertyForActionParameters: bool, stringify: Value -> string)
      ensures Valid()
      ensures busyRequestsCounter == 0 && isBusy == [false] && sent == []
      ensures this.useEmbeddingPropertyForActionParameters == useEmbeddingPropertyForActionParameters
      ensures this.stringify == stringify
    {
      busyRequestsCounter := 0;
      isBusy := [false];
      sent := [];
      this.useEmbeddingPropertyForActionParameters := useEmbeddingPropertyForActionParameters;
      this.stringify := stringify;
    }

    /** `AddBusyRequest`: one more pending request; `isBusy$` turns true. */
    method AddBusyRequest()
      requires Valid()
      modifies this
      ensures Valid()
      ensures busyRequestsCounter == old(busyRequestsCounter) + 1
      ensures isBusy == old(isBusy) + [true]
      ensures sent == old(sent)
    {
      busyRequestsCounter := busyRequestsCounter + 1;
      isBusy := isBusy + [busyRequestsCounter != 0];
    }

    /** `RemoveBusyRequest`: one pending request fewer. */
    method RemoveBusyRequest()
      modifies this
      ensures busyRequestsCounter == old(busyRequestsCounter) - 1
      ensures isBusy == old(isBusy) + [busyRequestsCounter != 0]
      ensures sent == old(sent)
    {
      busyRequestsCounter := busyRequestsCounter - 1;
      isBusy := isBusy + [busyRequestsCounter != 0];
    }

    /** `ExecuteRequest` up to the arrival of the response or error: counted
        as pending while in flight, and no longer once it ends. */
    method ExecuteRequest(action: HypermediaAction, headers: HttpHeaders, body: Body)
      requires Valid()
      modifies this
      ensures Valid()
      ensures busyRequestsCounter == old(busyRequestsCounter)
      ensures isBusy == old(isBusy) + [true, old(busyRequestsCounter) != 0]
      ensures sent == old(sent) + [Request(MethodName(action.httpMethod), action.href, headers, body)]
    {
      AddBusyRequest();
      sent := sent + [Request(MethodName(action.httpMethod), action.href, headers, body)];
      RemoveBusyRequest();
    }

    /** `Navigate` as written, up to the arrival of the response: the
        request is counted as pending and never uncounted, so `isBusy$`
        stays true from then on. Publishing the deserialized object and
        the mapping of the result are RxJS plumbing. */
    method Navigate(url: string)
      requires Valid()
      modifies this
      ensures Valid()
      ensures busyRequestsCounter == old(busyRequestsCounter) + 1
      ensures isBusy == old(isBusy) + [true]
      ensures sent == old(sent) + [Request(MethodName(GET), Str(url), map["Accept" := MediaTypeSiren], NoBody)]
    {
      var headers: HttpHeaders := map["Accept" := MediaTypeSiren];
      AddBusyRequest();
      sent := sent + [Request(MethodName(GET), Str(url), headers, NoBody)];
    }

    /** `Navigate` with the request uncounted when it ends, as
        `ExecuteRequest` does: `isBusy$` returns to its previous value. */
    method NavigateCorrected(url: string)
      requires Valid()
      modifies this
      ensures Valid()
      ensures busyRequestsCounter == old(busyRequestsCounter)
      ensures isBusy[|isBusy| - 1] == old(isBusy[|isBusy| - 1])
      ensures sent == old(sent) + [Request(MethodName(GET), Str(url), map["Accept" := MediaTypeSiren], NoBody)]
    {
      var headers: HttpHeaders := map["Accept" := MediaTypeSiren];
      AddBusyRequest();
      sent := sent + [Request(MethodName(GET), Str(url), headers, NoBody)];
      RemoveBusyRequest();
    }

    /** `BuildBodyForFileUpload`, appending the files to the form one by
        one. */
    method BuildBodyForFileUpload(action: HypermediaAction) returns (r: Result<Body>)
      ensures r == FileUploadBody(action)
    {
      if |action.files| < 1 {
        return Fail(NoFileSpecified);
      }
      if action.contentType == Str(MediaTypeFormData) {
        var formData: seq<FormPart> := [];
        var i := 0;
        while i < |action.files|
          invariant 0 <= i <= |action.files|
          invariant formData == FormParts(action.files[..i])
        {
          formData := formData + [FormPart("files", action.files[i])];
          i := i + 1;
        }
        assert action.files[..i] == action.files;
        return Ok(FormBody(formData));
      } else if action.contentType == Str(MediaTypeOctetStream) {
        if |action.files| > 1 {
          return Fail(OctetStreamWithMultipleFiles);
        }
        return Ok(FileBody(action.files[0]));
      }
      return Fail(UnsupportedUploadType(action.contentType));
    }

    /** `executeAction`: choose the body, send the request with the
        action's method and content type, and report the outcome to the
        callback. A body that cannot be built throws before anything is
        sent. */
    method ExecuteAction(action: HypermediaAction, outcome: HttpOutcome) returns (r: Result<seq<ActionCallback>>)
      requires Valid()
      modifies this
      ensures Valid()
      ensures busyRequestsCounter == old(busyRequestsCounter)
      ensures RequestBody(action, useEmbeddingPropertyForActionParameters).Fail? ==>
        r == Fail(RequestBody(action, useEmbeddingPropertyForActionParameters).error) && sent == old(sent) && isBusy == old(isBusy)
      ensures RequestBody(action, useEmbeddingPropertyForActionParameters).Ok? ==>
        && sent == old(sent) + [Request(MethodName(action.httpMethod), action.href, CreateHeaders(action.contentType),
                                        RequestBody(action, useEmbeddingPropertyForActionParameters).value)]
        && isBusy == old(isBusy) + [true, old(busyRequestsCounter) != 0]
        && r == ActionCallbacks(outcome, stringify)
    {
      var requestBody: Body := NoBody;
      match action.actionType {
        case NoParameters =>
        case FileUpload =>
          requestBody :- BuildBodyForFileUpload(action);
        case JsonObjectParameters =>
          if useEmbeddingPropertyForActionParameters {
            var parameters :- WaheStyleActionParameters(action);
            requestBody := JsonBody(parameters);
          } else {
            requestBody := JsonBody(action.parameters);
          }
      }
      var headers := CreateHeaders(action.contentType);
      ExecuteRequest(action, headers, requestBody);
      match outcome {
        case Response(response) =>
          r := ActionResponseCallbacksAsWritten(response);
        case ErrorResponse(e) =>
          r := ActionErrorCallbacks(e, stringify);
      }
    }

    /** `DownloadAsFile`: a plain GET, not counted as busy; the result is
        the body and the file name from `Content-Disposition`. */
    method DownloadAsFile(downloadUrl: string, response: HttpResponse) returns (r: Result<(Value, Option<string>)>)
      modifies this
      ensures busyRequestsCounter == old(busyRequestsCounter) && isBusy == old(isBusy)
      ensures sent == old(sent) + [Request(MethodName(GET), Str(downloadUrl), map[], NoBody)]
      ensures response.headers.None? ==> r == Fail(TypeError)
      ensures response.headers.Some? ==>
        var name := DownloadFileName(HeaderValue(response.headers.value, "content-disposition"));
        r == if name.Fail? then Fail(name.error) else Ok((response.body, name.value))
    {
      sent := sent + [Request(MethodName(GET), Str(downloadUrl), map[], NoBody)];
      if response.headers.None? {
        return Fail(TypeError);
      }
      var fileName :- DownloadFileName(HeaderValue(response.headers.value, "content-disposition"));
      r := Ok((response.body, fileName));
    }
  }
}
