# OOTO face API client: a Dafny model

This project models `APIClient`, the client of the OOTO cloud face API
(`OotoFaceApiExample/APIClient.swift`). The client has three operations:

- **identify** uploads a JPEG as `multipart/form-data` and gets back the best
  matching template and its similarity;
- **enroll** uploads a JPEG, and optionally a custom template id, and gets
  back the id of the new template;
- **deleteTemplate** sends a trimmed template id as a JSON body.

Every request carries the `APP-ID` and `APP-KEY` credential headers. Every
completion value is a `Result` whose failure side is the `APIError`
enumeration: network, server, decoding, invalidResponse or unknown.

Files:

- `wrappers.dfy`: `Option` and `Result`.
- `constants.dfy`: `APIConstants` (base URL, endpoints, credentials).
- `models.dfy`: the wire structs of `Models/IdentifyResponse.swift` and the
  delete request body.
- `json.dfy`: the JSON coder, as a value of four coding functions.
- `http.dfy`: `URLRequest`, `URLResponse`, and what a data task reports.
- `utf8.dfy`: the UTF-8 encoding behind the private `Data.append(_ string:)`,
  with a decoder and the round trip.
- `whitespace.dfy`: `trimmingCharacters(in: .whitespacesAndNewlines)`. Like
  Foundation's `CharacterSet`, it tests one Unicode scalar value at a time;
  a Dafny `char` is such a scalar. The set is the one CoreFoundation's
  `CFCharacterSet` spells out; that library is not part of this model.
- `multipart.dfy`: a reference definition of the multipart layout the client
  writes by hand.
- `api_client.dfy`: the client itself.

Swift's `URLRequest` and `Data` are value types that the client mutates
field by field. The three operations are therefore methods that update a
local `request` and `body` step by step, in the order of the source. Each
method returns two values:

- `sent`: the request handed to the transport, or `None` when the call ends
  before handing a request to the transport;
- `result`: the value passed to the completion handler.

The transport is a parameter, `network`, which maps the request sent to the
`(data, response, error)` triple the data task reports. Each response
closure is a pure function of that triple.

The methods are proved against the reference definitions:

- the uploaded body equals the multipart `Body` of the parts the operation
  sends;
- the headers are exactly the credentials plus the content-type header
  (multipart with its boundary for the uploads; `application/json` for
  deleteTemplate, which also sends `Accept: application/json`);
- the result is the response mapping applied to what the transport
  reports.

The response mappings are specified outcome by outcome, each outcome with an
if-and-only-if condition. Lemmas relate the operations to each other:

- the order of the transport checks;
- the agreement of server errors across the three calls;
- the different success bands (delete accepts any 2xx, with or without a
  body).

## Model

| member | source | states |
|---|---|---|
| APIClient.FlagValue | OotoFaceApiExample/APIClient.swift:37-38 | a query flag is sent as exactly "true" or "false", and as "true" exactly when it is set |
| APIClient.QueryItems | OotoFaceApiExample/APIClient.swift:36-39 | identify and enroll send exactly two query items, check_liveness then check_deepfake, each "true" exactly when its flag is set |
| APIClient.SetAuthHeaders | OotoFaceApiExample/APIClient.swift:174-177 | both credential headers are set to the configured values; no other header, the URL, the method and the body are unchanged |
| APIClient.AppendStringKeepsText | OotoFaceApiExample/APIClient.swift:4-8 | appending a string keeps the existing bytes, adds at least one byte per character, and the added bytes decode back to the string |
| APIClient.AppendString | OotoFaceApiExample/APIClient.swift:4-8 | the private `Data.append(_ string:)`: the existing bytes stay in front, followed by at least one byte per character of the string (its UTF-8 encoding) |
| Utf8.EncodeChar | OotoFaceApiExample/APIClient.swift:6 | one scalar becomes 1 to 4 bytes: a single byte exactly for ASCII, otherwise a lead byte and continuation bytes in 0x80-0xBF |
| Utf8.Encode | OotoFaceApiExample/APIClient.swift:6 | a string of n scalars becomes between n and 4n bytes |
| Utf8.EncodeConcat | OotoFaceApiExample/APIClient.swift:4-8 | appending two strings in turn appends the encoding of their concatenation |
| Utf8.EncodeAscii | OotoFaceApiExample/APIClient.swift:6 | an ASCII string is written as its own code points, one byte each |
| Utf8.DecodeFirstEncodeChar | OotoFaceApiExample/APIClient.swift:6 | the decoder reads one encoded scalar back from the front of any byte sequence, with its length |
| Utf8.DecodeEncode | OotoFaceApiExample/APIClient.swift:6 | decoding the UTF-8 bytes of any string gives the string back |
| Utf8.EncodeInjective | OotoFaceApiExample/APIClient.swift:6 | different strings are appended as different bytes |
| Whitespace.IsWhitespaceOrNewline | OotoFaceApiExample/APIClient.swift:130 | the `.whitespacesAndNewlines` set, one scalar at a time, as CoreFoundation's table lists it: the Unicode 3.2 Zs scalars (U+0020, U+00A0, U+1680, U+2000-U+200B, U+202F, U+205F, U+3000), the Zl and Zp scalars U+2028 and U+2029, plus U+0009-U+000D and U+0085 |
| Whitespace.LeadingCount | OotoFaceApiExample/APIClient.swift:130 | the leading run of whitespace and newline characters: all whitespace, followed by a non-whitespace character or the end |
| Whitespace.TrailingCount | OotoFaceApiExample/APIClient.swift:130 | the trailing run of whitespace and newline characters, preceded by a non-whitespace character or the start |
| Whitespace.Trim | OotoFaceApiExample/APIClient.swift:130 | the trim is the slice between the two whitespace runs; it neither starts nor ends with whitespace; it is empty exactly when the id is all whitespace |
| Whitespace.TrimOfTrimmed | OotoFaceApiExample/APIClient.swift:130 | a string with no whitespace at either end is left as it is |
| Whitespace.TrimIdempotent | OotoFaceApiExample/APIClient.swift:130 | trimming twice is trimming once |
| Whitespace.TrimOfSlice | OotoFaceApiExample/APIClient.swift:130 | any non-empty slice whose ends are not whitespace, with only whitespace outside it, is the trim |
| Whitespace.ZeroWidthSpaceTrimmed | OotoFaceApiExample/APIClient.swift:130-133 | a lone U+200B trims to the empty id that deleteTemplate rejects, and U+200B around an id is trimmed away |
| Whitespace.TrimSplits | OotoFaceApiExample/APIClient.swift:130 | every string is its leading whitespace run, then its trim, then its trailing whitespace run |
| Whitespace.TrimOfFramed | OotoFaceApiExample/APIClient.swift:130 | a core with no whitespace at its ends, framed by whitespace runs, is the trim |
| Whitespace.TrimIgnoresPadding | OotoFaceApiExample/APIClient.swift:130-143 | whitespace around an id does not change the id deleteTemplate sends |
| Multipart.BodyEndsWithClose | OotoFaceApiExample/APIClient.swift:101 | every multipart body ends with the closing --boundary-- line |
| Multipart.BodyStartsWithHeader | OotoFaceApiExample/APIClient.swift:86-90 | a body starts with the full header of its first part |
| Multipart.PartBytesStartWithHeader | OotoFaceApiExample/APIClient.swift:88-91 | a part's bytes start with its encoded header |
| Multipart.HeaderStartsWithDelimiter | OotoFaceApiExample/APIClient.swift:88 | a part's header starts with the --boundary line |
| Multipart.BodyStartsWithDelimiter | OotoFaceApiExample/APIClient.swift:88 | a body with parts starts with the --boundary line |
| Multipart.BodyLength | OotoFaceApiExample/APIClient.swift:94-99 | adding a part to a body lengthens it by exactly that part's bytes |
| APIClient.Boundary | OotoFaceApiExample/APIClient.swift:44 | the boundary is "----OOTO-" followed by the generated UUID string, 9 characters longer than the UUID (the same expression at line 83) |
| APIClient.MultipartHeaders | OotoFaceApiExample/APIClient.swift:42-45 | the header set of an upload (also lines 82-84) has exactly the keys APP-ID, APP-KEY and Content-Type; their values are stated by RequestsCarryCredentials |
| APIClient.JsonHeaders | OotoFaceApiExample/APIClient.swift:137-140 | the header set of deleteTemplate has exactly the keys APP-ID, APP-KEY, Content-Type and Accept; their values are stated by RequestsCarryCredentials |
| APIClient.PhotoPart | OotoFaceApiExample/APIClient.swift:88-91 | the photo part is a file part (it has a filename and a content type) carrying exactly the JPEG bytes; its literal header lines are stated by PhotoHeaderText |
| APIClient.TemplateIdPart | OotoFaceApiExample/APIClient.swift:96-98 | the templateId part is a plain field (no filename, no content type) with at least one content byte per character of the id; TemplateIdReadsBack shows the content decodes back to the id |
| APIClient.EnrollParts | OotoFaceApiExample/APIClient.swift:86-99 | enroll uploads the photo part first, then the templateId part exactly when a custom id is given: two parts with one, one part without |
| Http.TransportOutcome.IsHttp | OotoFaceApiExample/APIClient.swift:151-152 | the guard every response closure passes before reading a status: no transport error, and the response is an `HTTPURLResponse` (the same checks at lines 105-106 and 185-186) |
| APIClient.IsSuccessStatus | OotoFaceApiExample/APIClient.swift:156 | the success band of deleteTemplate: the statuses 200 to 299 inclusive |
| APIClient.HandleIdentifyOrMapNoFace | OotoFaceApiExample/APIClient.swift:179-209 | a transport error wins; unknown exactly when there is no HTTP response or no data; success exactly on 200 with a decoded envelope holding both fields, carrying them; invalidResponse("empty identify result") exactly when a field is missing; decoding exactly when the 200 envelope fails to decode, carrying the decoder's error; server exactly on any other status, with that status and the envelope's code, "No faces found" for code 5, otherwise the envelope's info, or "server error" and no code when the envelope fails to decode |
| APIClient.EnrollResponse | OotoFaceApiExample/APIClient.swift:104-122 | the same order of checks; success exactly on 200 with a decoded envelope, carrying its template id; decoding exactly when that envelope fails; never invalidResponse; server exactly on any other status, with the envelope's info and code, or "server error" and no code |
| APIClient.DeleteResponse | OotoFaceApiExample/APIClient.swift:150-170 | a transport error wins; unknown exactly when there is no HTTP response, whether or not there is data; success exactly on a 2xx status, whatever the body; never decoding or invalidResponse; server exactly outside 2xx, with the envelope's info and code when data is present and decodes, otherwise "server error" and no code |
| APIClient.Identify | OotoFaceApiExample/APIClient.swift:23-58 | no JPEG: invalidResponse("failed to encode jpeg") and nothing sent; otherwise exactly one POST to base + /identify with both query flags, the credential headers and the multipart content type for the boundary, a one-part photo body, and the identify mapping of what the transport reports |
| APIClient.IdentifyBody | OotoFaceApiExample/APIClient.swift:47-53 | the five appends of identify produce the multipart body of the single photo part |
| APIClient.Enroll | OotoFaceApiExample/APIClient.swift:61-123 | no JPEG: invalidResponse("failed to encode jpeg") and nothing sent; otherwise exactly one POST to base + /add with both query flags, the credential and multipart headers, the photo part and, when a custom id is given, the templateId part, and the enroll mapping of what the transport reports |
| APIClient.EnrollBody | OotoFaceApiExample/APIClient.swift:86-102 | the appends of enroll, including the optional templateId block, produce the multipart body of the enroll parts |
| APIClient.DeleteTemplate | OotoFaceApiExample/APIClient.swift:126-171 | an id that is empty after trimming fails with invalidResponse("templateId is empty after trim") and sends nothing; an encoder failure fails with decoding and sends nothing; otherwise exactly one POST to base + /delete carrying the credential and JSON headers and the encoding of the trimmed id, with the delete mapping of what the transport reports |
| APIClient.PhotoHeaderText | OotoFaceApiExample/APIClient.swift:89-90 | the photo part's header lines are the literal Content-Disposition and Content-Type lines the source appends |
| APIClient.TemplateIdHeaderText | OotoFaceApiExample/APIClient.swift:97 | the templateId part's header line is the literal line the source appends, blank line included |
| APIClient.IdentifyBodyLayout | OotoFaceApiExample/APIClient.swift:47-52 | the pieces identify appends, closing line included, are the one-part body |
| APIClient.CrlfThenClose | OotoFaceApiExample/APIClient.swift:52 | identify's last append is the photo's line break followed by the closing line |
| APIClient.PhotoPartBytes | OotoFaceApiExample/APIClient.swift:88-92 | the pieces enroll appends for the photo, line break included, are the photo part |
| APIClient.TemplateIdPartBytes | OotoFaceApiExample/APIClient.swift:96-98 | the three pieces enroll appends for a custom id are the templateId part, whose content is the id |
| APIClient.EnrollBodyLayout | OotoFaceApiExample/APIClient.swift:86-101 | an enroll body is the photo part, then the templateId part when a custom id is given, then the closing line |
| APIClient.RequestsCarryCredentials | OotoFaceApiExample/APIClient.swift:136-140 | the multipart and the JSON header sets both carry both credentials, with their content type (and Accept for JSON) |
| APIClient.EnrollAddsPartIffCustomId | OotoFaceApiExample/APIClient.swift:94-99 | enroll uploads a second part exactly when a custom id is given, even an empty one; without one it uploads identify's body |
| APIClient.TemplateIdReadsBack | OotoFaceApiExample/APIClient.swift:98 | the templateId part's content decodes back to the id given |
| APIClient.TransportChecksComeFirst | OotoFaceApiExample/APIClient.swift:150-154 | in all three calls a transport error gives network whatever else is reported, and then a missing HTTP response gives unknown |
| APIClient.ServerErrorsAgree | OotoFaceApiExample/APIClient.swift:164-169 | outside 2xx, with a body, enroll and delete report the same server error, and identify reports it too except for the "No faces found" message on code 5 |
| APIClient.SuccessBandsDiffer | OotoFaceApiExample/APIClient.swift:156-162 | on a 2xx status other than 200, delete succeeds with or without a body, while identify and enroll give a server error (with a body) or unknown (without one) |
| APIClient.NoFacesExample | OotoFaceApiExample/APIClient.swift:199-201 | a 400 with code 5 gives identify "No faces found" and enroll and delete the server's own message, all with status 400 and code 5 |

## Left out

- The asynchronous `URLSession` data task and its completion queue are left out. Each call's transport is the parameter `network`, applied once to the request sent, and the completion value is returned.
- `UIImage.jpegData(compressionQuality:)` is left out. Its outcome is the `Option` parameter `jpeg`.
- `UUID().uuidString` is left out. Each upload takes the UUID string as a parameter, so freshness of the boundary is not modelled.
- `JSONDecoder` and `JSONEncoder` are left out: the JSON wire format is not modelled. The coder is the parameter `json`, one function per type the client codes, each returning the value or a coding error.
- The decode of `DeleteSuccessResponse` on a non-empty 200 body (APIClient.swift:157-159) is left out. Its outcome is discarded and cannot change the result. `DeleteRequest` and `DeleteSuccessResponse` are declared in a file that is not part of this model; `DeleteRequest` is modelled from its use, with one `templateId` field.
- `Similarity` is a real number, not a 64-bit float. The client only passes the value through.
- `Int` status and error codes are unbounded integers. The client only compares and passes them on, so the 64-bit width never matters.
- URL composition is not modelled. `URLComponents` and `appendingPathComponent` become a `Url` value holding the base, the endpoint and the query items; percent-encoding and the rendered URL string are not modelled.
- Header names are not case-insensitive here. The request's headers are a map keyed by the exact header names the client uses.
- Utf8.Encode: a Dafny `char` is a Unicode scalar value, so `string.data(using: .utf8)` never fails, and the skipped-append branch of `Data.append(_ string:)` is unreachable and not modelled.
- The photo and templateId header lines are written through the parts that describe them rather than as string literals. PhotoHeaderText and TemplateIdHeaderText prove them equal to the source's literals.
- `ViewController.swift`, the UI that calls the client, is not part of this model.
