/**
 * `APIClient` (APIClient.swift): the three operations of the face API.
 *
 * Each operation is a method that builds its `URLRequest` step by step and
 * returns the request it hands to the transport (`sent`, None when the call
 * ends before handing a request to the transport) together with the value it
 * passes to its completion handler (`result`). The transport is the
 * parameter `network`, mapping the request sent to what the data task
 * reports; JSON coding is the parameter `json`. The response mappings are
 * pure functions of the transport outcome.
 */
module APIClient {
  import opened Wrappers
  import opened Utf8
  import opened Models
  import opened Json
  import opened Http
  import opened Whitespace
  import opened Multipart
  import APIConstants

  /** `APIError`. */
  datatype APIError =
    | Network(transportError: TransportError)
    | Server(statusCode: int, message: string, code: Option<int>)
    | Decoding(codingError: CodingError)
    | InvalidResponse(reason: string)
    | Unknown

  /** The success value of `identify`: the best match and its score. */
  datatype IdentifyMatch = IdentifyMatch(templateId: string, similarity: Similarity)

  // ---------------------------------------------------------------------------
  // Request construction

  /** A query flag as sent on the wire. */
  function FlagValue(flag: bool): (s: string)
    ensures s == "true" || s == "false"
    ensures s == "true" <==> flag
  {
    if flag then "true" else "false"
  }

  /** The two query items of `identify` and `enroll`, in order. */
  function QueryItems(checkLiveness: bool, checkDeepfake: bool): (items: seq<QueryItem>)
    ensures |items| == 2
    ensures items[0].name == "check_liveness" && (items[0].value == "true" <==> checkLiveness)
    ensures items[1].name == "check_deepfake" && (items[1].value == "true" <==> checkDeepfake)
    ensures forall i :: 0 <= i < |items| ==> items[i].value in {"true", "false"}
  {
    [QueryItem("check_liveness", FlagValue(checkLiveness)),
     QueryItem("check_deepfake", FlagValue(checkDeepfake))]
  }

  /** Both credential headers carry the configured values. */
  predicate HasAuthHeaders(headers: map<string, string>)
  {
    && "APP-ID" in headers && headers["APP-ID"] == APIConstants.AppId
    && "APP-KEY" in headers && headers["APP-KEY"] == APIConstants.AppKey
  }

  /** `setAuthHeaders(&request)`: sets both credential headers and touches nothing else. */
  method SetAuthHeaders(request: URLRequest) returns (updated: URLRequest)
    ensures HasAuthHeaders(updated.headers)
    ensures updated.headers == request.headers["APP-ID" := APIConstants.AppId]["APP-KEY" := APIConstants.AppKey]
    ensures updated.url == request.url && updated.httpMethod == request.httpMethod
    ensures updated.httpBody == request.httpBody
  {
    updated := request;
    updated := updated.(headers := updated.headers["APP-ID" := APIConstants.AppId]);
    updated := updated.(headers := updated.headers["APP-KEY" := APIConstants.AppKey]);
  }

  /** The private `Data.append(_ string:)`: appends the UTF-8 bytes of `s`. */
  function AppendString(data: seq<byte>, s: string): (r: seq<byte>)
    ensures |r| >= |data| + |s|
    ensures r[..|data|] == data
  {
    data + Encode(s)
  }

  /** What `Data.append(_ string:)` adds is exactly the string, readable back. */
  lemma AppendStringKeepsText(data: seq<byte>, s: string)
    ensures |AppendString(data, s)| >= |data| + |s|
    ensures AppendString(data, s)[..|data|] == data
    ensures Decode(AppendString(data, s)[|data|..]) == Some(s)
  {
    DecodeEncode(s);
    assert (data + Encode(s))[|data|..] == Encode(s);
  }

  /** The boundary token built from a generated UUID string. */
  function Boundary(uuid: string): (b: string)
    ensures |b| == 9 + |uuid| && b[..9] == "----OOTO-" && b[9..] == uuid
  {
    "----OOTO-" + uuid
  }

  /** The single image part both uploads start with. */
  function PhotoPart(jpeg: seq<byte>): (p: Part)
    ensures p.filename.Some? && p.contentType.Some? && p.content == jpeg
  {
    Part("photo", Some("image.jpg"), Some("image/jpeg"), jpeg)
  }

  /** The optional text part of `enroll`: no file name, no content type. */
  function TemplateIdPart(templateId: string): (p: Part)
    ensures p.filename.None? && p.contentType.None? && |templateId| <= |p.content|
  {
    Part("templateId", None, None, Encode(templateId))
  }

  /** The parts `enroll` uploads: the photo, then the custom id when one is given. */
  function EnrollParts(jpeg: seq<byte>, customTemplateId: Option<string>): (parts: seq<Part>)
    ensures |parts| == if customTemplateId.Some? then 2 else 1
    ensures parts[0] == PhotoPart(jpeg)
    ensures customTemplateId.Some? ==> parts[1] == TemplateIdPart(customTemplateId.value)
  {
    [PhotoPart(jpeg)] + if customTemplateId.Some? then [TemplateIdPart(customTemplateId.value)] else []
  }

  /** The headers of a multipart upload. */
  function MultipartHeaders(boundary: string): (h: map<string, string>)
    ensures h.Keys == {"APP-ID", "APP-KEY", "Content-Type"}
  {
    map[]["APP-ID" := APIConstants.AppId]["APP-KEY" := APIConstants.AppKey]
      ["Content-Type" := "multipart/form-data; boundary=" + boundary]
  }

  /** The headers of the JSON delete call. */
  function JsonHeaders(): (h: map<string, string>)
    ensures h.Keys == {"APP-ID", "APP-KEY", "Content-Type", "Accept"}
  {
    map[]["APP-ID" := APIConstants.AppId]["APP-KEY" := APIConstants.AppKey]
      ["Content-Type" := "application/json"]["Accept" := "application/json"]
  }

  // ---------------------------------------------------------------------------
  // Response mapping

  /**
   * `handleIdentifyOrMapNoFace`: the completion value of `identify`. A
   * transport error wins over everything; a missing HTTP response or missing
   * data is `unknown`; status 200 must decode and carry both optional
   * fields; any other status is a server error, "No faces found" for code 5.
   */
  function HandleIdentifyOrMapNoFace(t: TransportOutcome, json: JsonCodec): (r: Result<IdentifyMatch, APIError>)
    ensures t.error.Some? ==> r == Failure(Network(t.error.value))
    ensures r.Failure? && r.error.Network? <==> t.error.Some?
    ensures r == Failure(Unknown) <==> t.error.None? && !(t.IsHttp() && t.data.Some?)
    ensures r.Success? <==>
      && t.IsHttp() && t.data.Some? && t.Status() == 200
      && json.decodeIdentify(t.data.value).Success?
      && json.decodeIdentify(t.data.value).value.result.templateId.Some?
      && json.decodeIdentify(t.data.value).value.result.similarity.Some?
    ensures r.Success? ==>
      var decoded := json.decodeIdentify(t.data.value).value.result;
      r.value == IdentifyMatch(decoded.templateId.value, decoded.similarity.value)
    ensures r.Failure? && r.error.InvalidResponse? <==>
      && t.IsHttp() && t.data.Some? && t.Status() == 200
      && json.decodeIdentify(t.data.value).Success?
      && (json.decodeIdentify(t.data.value).value.result.templateId.None?
          || json.decodeIdentify(t.data.value).value.result.similarity.None?)
    ensures r.Failure? && r.error.InvalidResponse? ==> r.error.reason == "empty identify result"
    ensures r.Failure? && r.error.Decoding? <==>
      t.IsHttp() && t.data.Some? && t.Status() == 200 && json.decodeIdentify(t.data.value).Failure?
    ensures r.Failure? && r.error.Decoding? ==> r.error.codingError == json.decodeIdentify(t.data.value).error
    ensures r.Failure? && r.error.Server? <==> t.IsHttp() && t.data.Some? && t.Status() != 200
    ensures r.Failure? && r.error.Server? ==>
      var err := json.decodeErrorResponse(t.data.value);
      && r.error.statusCode == t.Status()
      && (err.Success? ==> r.error.code == Some(err.value.result.code))
      && (err.Success? && err.value.result.code == 5 ==> r.error.message == "No faces found")
      && (err.Success? && err.value.result.code != 5 ==> r.error.message == err.value.result.info)
      && (err.Failure? ==> r.error.message == "server error" && r.error.code.None?)
  {
    if t.error.Some? then Failure(Network(t.error.value))
    else if !t.IsHttp() || t.data.None? then Failure(Unknown)
    else
      var status := t.Status();
      var data := t.data.value;
      if status == 200 then
        match json.decodeIdentify(data)
        case Failure(e) => Failure(Decoding(e))
        case Success(decoded) =>
          if decoded.result.templateId.Some? && decoded.result.similarity.Some? then
            Success(IdentifyMatch(decoded.result.templateId.value, decoded.result.similarity.value))
          else
            Failure(InvalidResponse("empty identify result"))
      else
        match json.decodeErrorResponse(data)
        case Success(err) =>
          var mapped := if err.result.code == 5 then "No faces found" else err.result.info;
          Failure(Server(status, mapped, Some(err.result.code)))
        case Failure(_) =>
          Failure(Server(status, "server error", None))
  }

  /**
   * The completion closure of `enroll`: the same order of checks as identify;
   * status 200 yields the decoded template id, any other status a server
   * error with the server's message and code, or "server error" and no code.
   */
  function EnrollResponse(t: TransportOutcome, json: JsonCodec): (r: Result<string, APIError>)
    ensures t.error.Some? ==> r == Failure(Network(t.error.value))
    ensures r.Failure? && r.error.Network? <==> t.error.Some?
    ensures r == Failure(Unknown) <==> t.error.None? && !(t.IsHttp() && t.data.Some?)
    ensures r.Success? <==>
      t.IsHttp() && t.data.Some? && t.Status() == 200 && json.decodeEnrollment(t.data.value).Success?
    ensures r.Success? ==> r.value == json.decodeEnrollment(t.data.value).value.result.templateId
    ensures r.Failure? && r.error.Decoding? <==>
      t.IsHttp() && t.data.Some? && t.Status() == 200 && json.decodeEnrollment(t.data.value).Failure?
    ensures r.Failure? && r.error.Decoding? ==> r.error.codingError == json.decodeEnrollment(t.data.value).error
    ensures !(r.Failure? && r.error.InvalidResponse?)
    ensures r.Failure? && r.error.Server? <==> t.IsHttp() && t.data.Some? && t.Status() != 200
    ensures r.Failure? && r.error.Server? ==>
      var err := json.decodeErrorResponse(t.data.value);
      && r.error.statusCode == t.Status()
      && (err.Success? ==> r.error.message == err.value.result.info && r.error.code == Some(err.value.result.code))
      && (err.Failure? ==> r.error.message == "server error" && r.error.code.None?)
  {
    if t.error.Some? then Failure(Network(t.error.value))
    else if !t.IsHttp() || t.data.None? then Failure(Unknown)
    else
      var status := t.Status();
      var data := t.data.value;
      if status == 200 then
        match json.decodeEnrollment(data)
        case Failure(e) => Failure(Decoding(e))
        case Success(decoded) => Success(decoded.result.templateId)
      else
        var err := json.decodeErrorResponse(data);
        var message := if err.Success? then err.value.result.info else "server error";
        var code := if err.Success? then Some(err.value.result.code) else None;
        Failure(Server(status, message, code))
  }

  /** The status band `deleteTemplate` counts as success. */
  predicate IsSuccessStatus(status: int)
  {
    200 <= status <= 299
  }

  /**
   * The completion closure of `deleteTemplate`: a transport error, then a
   * missing HTTP response (data is not required); any 2xx status succeeds
   * whatever the body; otherwise the error envelope, if the body decodes.
   */
  function DeleteResponse(t: TransportOutcome, json: JsonCodec): (r: Result<(), APIError>)
    ensures t.error.Some? ==> r == Failure(Network(t.error.value))
    ensures r.Failure? && r.error.Network? <==> t.error.Some?
    ensures r == Failure(Unknown) <==> t.error.None? && !t.IsHttp()
    ensures r.Success? <==> t.IsHttp() && IsSuccessStatus(t.Status())
    ensures !(r.Failure? && (r.error.Decoding? || r.error.InvalidResponse?))
    ensures r.Failure? && r.error.Server? <==> t.IsHttp() && !IsSuccessStatus(t.Status())
    ensures r.Failure? && r.error.Server? ==>
      && r.error.statusCode == t.Status()
      && (t.data.Some? && json.decodeErrorResponse(t.data.value).Success? ==>
            var err := json.decodeErrorResponse(t.data.value).value.result;
            r.error.message == err.info && r.error.code == Some(err.code))
      && (t.data.None? || json.decodeErrorResponse(t.data.value).Failure? ==>
            r.error.message == "server error" && r.error.code.None?)
  {
    if t.error.Some? then Failure(Network(t.error.value))
    else if !t.IsHttp() then Failure(Unknown)
    else if IsSuccessStatus(t.Status()) then
      // A 200 with a non-empty body is also decoded as an acknowledgement,
      // and that decode's outcome is thrown away.
      Success(())
    else if t.data.Some? && json.decodeErrorResponse(t.data.value).Success? then
      var err := json.decodeErrorResponse(t.data.value).value;
      Failure(Server(t.Status(), err.result.info, Some(err.result.code)))
    else
      Failure(Server(t.Status(), "server error", None))
  }

  // ---------------------------------------------------------------------------
  // Operations

  /**
   * `identify`: a JPEG that fails to encode ends the call; otherwise a POST
   * to the identify endpoint with both query flags, both credentials and a
   * one-part multipart body, whose outcome the identify mapping interprets.
   * Both flags default to false, as in the source.
   */
  method Identify(
    jpeg: Option<seq<byte>>, uuid: string, network: URLRequest -> TransportOutcome, json: JsonCodec,
    checkLiveness: bool := false, checkDeepfake: bool := false)
    returns (sent: Option<URLRequest>, result: Result<IdentifyMatch, APIError>)
    ensures jpeg.None? <==> sent.None?
    ensures jpeg.None? ==> result == Failure(InvalidResponse("failed to encode jpeg"))
    ensures jpeg.Some? ==>
      && sent.value.url == Url(APIConstants.BaseURL, APIConstants.IdentifyEndpoint,
                               QueryItems(checkLiveness, checkDeepfake))
      && sent.value.httpMethod == "POST"
      && sent.value.headers == MultipartHeaders(Boundary(uuid))
      && HasAuthHeaders(sent.value.headers)
      && sent.value.httpBody == Some(Body(Boundary(uuid), [PhotoPart(jpeg.value)]))
      && result == HandleIdentifyOrMapNoFace(network(sent.value), json)
  {
    if jpeg.None? {
      return None, Failure(InvalidResponse("failed to encode jpeg"));
    }
    var imageData := jpeg.value;
    var url := Url(APIConstants.BaseURL, APIConstants.IdentifyEndpoint, QueryItems(checkLiveness, checkDeepfake));
    var request := NewRequest(url);
    request := request.(httpMethod := "POST");
    request := SetAuthHeaders(request);
    var boundary := Boundary(uuid);
    request := request.(headers := request.headers["Content-Type" := "multipart/form-data; boundary=" + boundary]);
    assert request.headers == MultipartHeaders(boundary) && HasAuthHeaders(request.headers);

    var body := IdentifyBody(boundary, imageData);
    request := request.(httpBody := Some(body));

    sent := Some(request);
    result := HandleIdentifyOrMapNoFace(network(request), json);
  }

  /**
   * The body `identify` appends, piece by piece. The two photo header lines
   * are written through the part they describe; PhotoHeaderText proves them
   * equal to the literal lines of the source.
   */
  method IdentifyBody(boundary: string, imageData: seq<byte>) returns (body: seq<byte>)
    ensures body == Body(boundary, [PhotoPart(imageData)])
  {
    var photo := PhotoPart(imageData);
    body := [];
    body := AppendString(body, "--" + boundary + "\r\n");
    body := AppendString(body, DispositionLine(photo));
    body := AppendString(body, ContentTypeLine(photo) + "\r\n");
    body := body + imageData;
    body := AppendString(body, "\r\n--" + boundary + "--\r\n");
    assert [] + Encode("--" + boundary + "\r\n") == Encode(Delimiter(boundary));
    CrlfThenClose(boundary);
    IdentifyBodyLayout(boundary, imageData);
  }

  /**
   * The body `enroll` appends: the photo part as in `identify` but with its
   * own line break, the templateId part when a custom id is given
   * (TemplateIdHeaderText gives its literal header line), then the close.
   */
  method EnrollBody(boundary: string, imageData: seq<byte>, customTemplateId: Option<string>)
    returns (body: seq<byte>)
    ensures body == Body(boundary, EnrollParts(imageData, customTemplateId))
  {
    var photo := PhotoPart(imageData);
    body := [];
    body := AppendString(body, "--" + boundary + "\r\n");
    body := AppendString(body, DispositionLine(photo));
    body := AppendString(body, ContentTypeLine(photo) + "\r\n");
    body := body + imageData;
    body := AppendString(body, "\r\n");
    assert [] + Encode("--" + boundary + "\r\n") == Encode(Delimiter(boundary));
    PhotoPartBytes(boundary, imageData);
    ghost var photoBytes := body;

    if customTemplateId.Some? {
      var tid := customTemplateId.value;
      body := AppendString(body, "--" + boundary + "\r\n");
      body := AppendString(body, DispositionLine(TemplateIdPart(tid)) + "\r\n");
      body := AppendString(body, tid + "\r\n");
      TemplateIdPartBytes(boundary, tid);
      AppendAssoc3(photoBytes, Encode(Delimiter(boundary)),
                   Encode(DispositionLine(TemplateIdPart(tid)) + "\r\n"), Encode(tid + "\r\n"));
      assert body == photoBytes + PartBytes(boundary, TemplateIdPart(tid));
    }
    ghost var partBytes := body;

    body := AppendString(body, "--" + boundary + "--\r\n");
    assert body == partBytes + Encode(CloseDelimiter(boundary));
    EnrollBodyLayout(boundary, imageData, customTemplateId);
  }

  /**
   * `enroll`: as `identify`, but to the add endpoint, and with a second,
   * `templateId` part exactly when a custom id is given (an empty one too);
   * its outcome is interpreted by the enroll mapping. By default there is no
   * custom id and both flags are false, as in the source.
   */
  method Enroll(
    jpeg: Option<seq<byte>>, uuid: string, network: URLRequest -> TransportOutcome, json: JsonCodec,
    customTemplateId: Option<string> := None, checkLiveness: bool := false, checkDeepfake: bool := false)
    returns (sent: Option<URLRequest>, result: Result<string, APIError>)
    ensures jpeg.None? <==> sent.None?
    ensures jpeg.None? ==> result == Failure(InvalidResponse("failed to encode jpeg"))
    ensures jpeg.Some? ==>
      && sent.value.url == Url(APIConstants.BaseURL, APIConstants.AddTemplateEndpoint,
                               QueryItems(checkLiveness, checkDeepfake))
      && sent.value.httpMethod == "POST"
      && sent.value.headers == MultipartHeaders(Boundary(uuid))
      && HasAuthHeaders(sent.value.headers)
      && sent.value.httpBody == Some(Body(Boundary(uuid), EnrollParts(jpeg.value, customTemplateId)))
      && result == EnrollResponse(network(sent.value), json)
  {
    if jpeg.None? {
      return None, Failure(InvalidResponse("failed to encode jpeg"));
    }
    var imageData := jpeg.value;
    var url := Url(APIConstants.BaseURL, APIConstants.AddTemplateEndpoint, QueryItems(checkLiveness, checkDeepfake));
    var request := NewRequest(url);
    request := request.(httpMethod := "POST");
    request := SetAuthHeaders(request);
    var boundary := Boundary(uuid);
    request := request.(headers := request.headers["Content-Type" := "multipart/form-data; boundary=" + boundary]);
    assert request.headers == MultipartHeaders(boundary) && HasAuthHeaders(request.headers);

    var body := EnrollBody(boundary, imageData, customTemplateId);
    request := request.(httpBody := Some(body));

    sent := Some(request);
    result := EnrollResponse(network(request), json);
  }

  /**
   * `deleteTemplate`: an id that is empty after trimming ends the call before
   * any request exists; otherwise a JSON POST to the delete endpoint whose
   * body is the encoded trimmed id, interpreted by the delete mapping.
   */
  method DeleteTemplate(templateId: string, network: URLRequest -> TransportOutcome, json: JsonCodec)
    returns (sent: Option<URLRequest>, result: Result<(), APIError>)
    ensures Trim(templateId) == [] ==>
      sent.None? && result == Failure(InvalidResponse("templateId is empty after trim"))
    ensures Trim(templateId) != [] ==>
      var encoded := json.encodeDeleteRequest(DeleteRequest(Trim(templateId)));
      && (encoded.Failure? ==> sent.None? && result == Failure(Decoding(encoded.error)))
      && (encoded.Success? ==>
            && sent == Some(URLRequest(Url(APIConstants.BaseURL, APIConstants.DeleteEndpoint, []),
                                      "POST", JsonHeaders(), Some(encoded.value)))
            && HasAuthHeaders(sent.value.headers)
            && result == DeleteResponse(network(sent.value), json))
  {
    var trimmed := Trim(templateId);
    if trimmed == [] {
      return None, Failure(InvalidResponse("templateId is empty after trim"));
    }

    var request := NewRequest(Url(APIConstants.BaseURL, APIConstants.DeleteEndpoint, []));
    request := request.(httpMethod := "POST");
    request := SetAuthHeaders(request);
    request := request.(headers := request.headers["Content-Type" := "application/json"]);
    request := request.(headers := request.headers["Accept" := "application/json"]);

    var body := DeleteRequest(trimmed);
    var encoded := json.encodeDeleteRequest(body);
    if encoded.Failure? {
      return None, Failure(Decoding(encoded.error));
    }
    request := request.(httpBody := Some(encoded.value));

    sent := Some(request);
    result := DeleteResponse(network(request), json);
  }

  /**
   * The photo part's header lines are, character for character, the ones
   * `identify` and `enroll` append (APIClient.swift:49-50 and 89-90).
   */
  lemma PhotoHeaderText(jpeg: seq<byte>)
    ensures DispositionLine(PhotoPart(jpeg)) ==
      "Content-Disposition: form-data; name=\"photo\"; filename=\"image.jpg\"\r\n"
    ensures ContentTypeLine(PhotoPart(jpeg)) + "\r\n" == "Content-Type: image/jpeg\r\n\r\n"
  {
    var x := "Content-Disposition: form-data; name=\"" + "photo" + "\"";
    var y := "; filename=\"" + "image.jpg" + "\"";
    NameParamText();
    FilenameParamText();
    DispositionText();
    assert DispositionLine(PhotoPart(jpeg)) == x + y + "\r\n";
    assert x + y + "\r\n" == x + (y + "\r\n");
  }

  // Three small steps of PhotoHeaderText: comparing the literal lines in
  // pieces keeps each comparison short.

  lemma NameParamText()
    ensures "Content-Disposition: form-data; name=\"" + "photo" + "\"" ==
      "Content-Disposition: form-data; name=\"photo\""
  {
  }

  lemma FilenameParamText()
    ensures "; filename=\"" + "image.jpg" + "\"" + "\r\n" == "; filename=\"image.jpg\"\r\n"
  {
  }

  lemma DispositionText()
    ensures "Content-Disposition: form-data; name=\"photo\"" + "; filename=\"image.jpg\"\r\n" ==
      "Content-Disposition: form-data; name=\"photo\"; filename=\"image.jpg\"\r\n"
  {
  }

  /** The pieces `identify` appends around the image make up the one-part body. */
  lemma IdentifyBodyLayout(boundary: string, jpeg: seq<byte>)
    ensures
      var photo := PhotoPart(jpeg);
      Encode(Delimiter(boundary)) + Encode(DispositionLine(photo)) + Encode(ContentTypeLine(photo) + "\r\n")
      + jpeg + (Encode("\r\n") + Encode(CloseDelimiter(boundary)))
      == Body(boundary, [photo])
  {
    var photo := PhotoPart(jpeg);
    var e1 := Encode(Delimiter(boundary));
    var e2 := Encode(DispositionLine(photo));
    var e3 := Encode(ContentTypeLine(photo) + "\r\n");
    PartHeaderBytes(boundary, photo);
    SinglePartBody(boundary, photo);
    AppendAssoc(e1 + e2 + e3 + jpeg, Encode("\r\n"), Encode(CloseDelimiter(boundary)));
  }

  /** A one-part body is that part followed by the closing line. */
  lemma SinglePartBody(boundary: string, p: Part)
    ensures Body(boundary, [p]) == PartBytes(boundary, p) + Encode(CloseDelimiter(boundary))
  {
    assert [p][1..] == [];
  }

  /** The closing string `identify` appends is a line break and then the closing line. */
  lemma CrlfThenClose(boundary: string)
    ensures Encode("\r\n--" + boundary + "--\r\n") == Encode("\r\n") + Encode(CloseDelimiter(boundary))
  {
    assert "\r\n--" == "\r\n" + "--";
    assert "\r\n--" + boundary + "--\r\n" == "\r\n" + CloseDelimiter(boundary);
    EncodeConcat("\r\n", CloseDelimiter(boundary));
  }

  // AppendAssoc, AppendAssoc3 (and Whitespace.Regroup) state associativity in
  // a lemma of their own: checked inside the larger proofs that use them, the
  // same fact makes the solver run out of resource.

  /** Concatenation is associative (stated once so that proofs need not rediscover it). */
  lemma AppendAssoc(a: seq<byte>, b: seq<byte>, c: seq<byte>)
    ensures (a + b) + c == a + (b + c)
  {
  }

  /** A part's header bytes are its three header pieces, each encoded. */
  lemma PartHeaderBytes(boundary: string, p: Part)
    ensures Encode(PartHeader(boundary, p)) ==
      Encode(Delimiter(boundary)) + Encode(DispositionLine(p)) + Encode(ContentTypeLine(p) + "\r\n")
  {
    var d := Delimiter(boundary);
    var l := DispositionLine(p);
    var c := ContentTypeLine(p) + "\r\n";
    assert PartHeader(boundary, p) == d + l + c;
    EncodeConcat(d, l);
    EncodeConcat(d + l, c);
  }

  /** The templateId header line `enroll` appends, with its blank line (APIClient.swift:97). */
  lemma TemplateIdHeaderText(templateId: string)
    ensures DispositionLine(TemplateIdPart(templateId)) + "\r\n" ==
      "Content-Disposition: form-data; name=\"templateId\"\r\n\r\n"
  {
  }

  /** The three strings `enroll` appends for a custom id are the templateId part. */
  lemma TemplateIdPartBytes(boundary: string, templateId: string)
    ensures
      var p := TemplateIdPart(templateId);
      Encode(Delimiter(boundary)) + Encode(DispositionLine(p) + "\r\n") + Encode(templateId + "\r\n")
      == PartBytes(boundary, p)
  {
    var p := TemplateIdPart(templateId);
    var d := Delimiter(boundary);
    var l := DispositionLine(p) + "\r\n";
    assert ContentTypeLine(p) == "";
    assert PartHeader(boundary, p) == d + l;
    EncodeConcat(d, l);
    EncodeConcat(templateId, "\r\n");
    AppendAssoc(Encode(d) + Encode(l), Encode(templateId), Encode("\r\n"));
  }

  /** The parts of an enroll body followed by the closing line make up the body. */
  lemma EnrollBodyLayout(boundary: string, jpeg: seq<byte>, customTemplateId: Option<string>)
    ensures Body(boundary, EnrollParts(jpeg, customTemplateId)) ==
      PartBytes(boundary, PhotoPart(jpeg))
      + (if customTemplateId.Some? then PartBytes(boundary, TemplateIdPart(customTemplateId.value)) else [])
      + Encode(CloseDelimiter(boundary))
  {
    var photo := PhotoPart(jpeg);
    var parts := EnrollParts(jpeg, customTemplateId);
    assert parts[0] == photo;
    if customTemplateId.Some? {
      var t := TemplateIdPart(customTemplateId.value);
      assert parts[1..] == [t];
      SinglePartBody(boundary, t);
      AppendAssoc(PartBytes(boundary, photo), PartBytes(boundary, t), Encode(CloseDelimiter(boundary)));
    } else {
      assert parts == [photo];
      SinglePartBody(boundary, photo);
    }
  }

  lemma AppendAssoc3(a: seq<byte>, b: seq<byte>, c: seq<byte>, d: seq<byte>)
    ensures a + b + c + d == a + (b + c + d)
  {
  }

  /** The appends that write the photo part, terminated by its line break, are that part. */
  lemma PhotoPartBytes(boundary: string, jpeg: seq<byte>)
    ensures
      var photo := PhotoPart(jpeg);
      Encode(Delimiter(boundary)) + Encode(DispositionLine(photo)) + Encode(ContentTypeLine(photo) + "\r\n")
        + jpeg + Encode("\r\n")
      == PartBytes(boundary, photo)
  {
    PartHeaderBytes(boundary, PhotoPart(jpeg));
  }

  // ---------------------------------------------------------------------------
  // Properties across operations

  /** Every request the client builds carries both credentials. */
  lemma RequestsCarryCredentials(boundary: string)
    ensures HasAuthHeaders(MultipartHeaders(boundary))
    ensures MultipartHeaders(boundary)["Content-Type"] == "multipart/form-data; boundary=" + boundary
    ensures HasAuthHeaders(JsonHeaders())
    ensures JsonHeaders()["Content-Type"] == "application/json" && JsonHeaders()["Accept"] == "application/json"
  {
  }

  /**
   * `enroll` uploads a second part exactly when a custom id is given, even
   * an empty one; without one its body is the body of `identify`.
   */
  lemma EnrollAddsPartIffCustomId(boundary: string, jpeg: seq<byte>, customTemplateId: Option<string>)
    ensures Body(boundary, EnrollParts(jpeg, customTemplateId)) == Body(boundary, [PhotoPart(jpeg)])
      <==> customTemplateId.None?
  {
    var photo := PhotoPart(jpeg);
    if customTemplateId.Some? {
      var t := TemplateIdPart(customTemplateId.value);
      assert EnrollParts(jpeg, customTemplateId) == [photo] + [t];
      BodyLength(boundary, [photo], t);
      assert |Encode(PartHeader(boundary, t))| >= |PartHeader(boundary, t)| > 0;
    } else {
      assert EnrollParts(jpeg, customTemplateId) == [photo];
    }
  }

  /** The templateId part's content reads back as the id that was given. */
  lemma TemplateIdReadsBack(templateId: string)
    ensures Decode(TemplateIdPart(templateId).content) == Some(templateId)
  {
    DecodeEncode(templateId);
  }

  /**
   * The three completion mappings check the transport the same way: an
   * error first, whatever else is reported, then a missing HTTP response.
   */
  lemma TransportChecksComeFirst(t: TransportOutcome, json: JsonCodec)
    ensures t.error.Some? ==>
      && HandleIdentifyOrMapNoFace(t, json) == Failure(Network(t.error.value))
      && EnrollResponse(t, json) == Failure(Network(t.error.value))
      && DeleteResponse(t, json) == Failure(Network(t.error.value))
    ensures t.error.None? && !t.IsHttp() ==>
      && HandleIdentifyOrMapNoFace(t, json) == Failure(Unknown)
      && EnrollResponse(t, json) == Failure(Unknown)
      && DeleteResponse(t, json) == Failure(Unknown)
  {
  }

  /**
   * Outside the 2xx band, with a body, the three calls report the same server
   * error, except that identify shows "No faces found" for code 5.
   */
  lemma ServerErrorsAgree(t: TransportOutcome, json: JsonCodec)
    requires t.error.None? && t.IsHttp() && t.data.Some? && !IsSuccessStatus(t.Status())
    ensures EnrollResponse(t, json).Failure? && DeleteResponse(t, json).Failure?
    ensures EnrollResponse(t, json).error == DeleteResponse(t, json).error
    ensures HandleIdentifyOrMapNoFace(t, json).Failure?
    ensures var e := EnrollResponse(t, json).error;
      HandleIdentifyOrMapNoFace(t, json).error ==
        if e.code == Some(5) then Server(e.statusCode, "No faces found", e.code) else e
  {
  }

  /**
   * Delete accepts every 2xx status and needs no body; identify and enroll
   * accept only 200 and need a body.
   */
  lemma SuccessBandsDiffer(t: TransportOutcome, json: JsonCodec)
    requires t.error.None? && t.IsHttp() && IsSuccessStatus(t.Status()) && t.Status() != 200
    ensures DeleteResponse(t, json) == Success(())
    ensures t.data.Some? ==>
      && HandleIdentifyOrMapNoFace(t, json).Failure? && HandleIdentifyOrMapNoFace(t, json).error.Server?
      && EnrollResponse(t, json).Failure? && EnrollResponse(t, json).error.Server?
    ensures t.data.None? ==>
      HandleIdentifyOrMapNoFace(t, json) == Failure(Unknown) && EnrollResponse(t, json) == Failure(Unknown)
  {
  }

  /**
   * A 400 whose error envelope carries code 5: identify replaces the
   * server's message, enroll passes it on, and both keep status and code.
   */
  lemma NoFacesExample(t: TransportOutcome, json: JsonCodec, transactionId: string, info: string)
    requires t.error.None? && t.response == Some(HTTPURLResponse(400)) && t.data.Some?
    requires json.decodeErrorResponse(t.data.value) ==
      Success(APIErrorResponse(transactionId, APIErrorResult("err", 5, info)))
    ensures HandleIdentifyOrMapNoFace(t, json) == Failure(Server(400, "No faces found", Some(5)))
    ensures EnrollResponse(t, json) == Failure(Server(400, info, Some(5)))
    ensures DeleteResponse(t, json) == Failure(Server(400, info, Some(5)))
  {
  }
}
