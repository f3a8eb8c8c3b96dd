/**
 * The Immich client: its configuration, the requests it builds (paths, headers,
 * multipart fields) and the early-exit error handling of `PingServer`,
 * `GetCurrentUser` and `UploadAsset`. The network round trip and JSON decoding
 * are supplied as functions; the multipart body is the ordered list of its parts.
 */
module ImmichClient {
  import opened Wrappers
  import opened Text
  import opened GoTime
  import opened Decimal
  import opened ImmichResponse

  /** A configured client: API root (`<url>/api`), API key and device id (the host name). */
  datatype Client = Client(endPoint: string, apiKey: string, deviceID: string)

  datatype PingResponse = PingResponse(res: string)
  datatype UserResponse = UserResponse(id: string, email: string, name: string)
  datatype AssetUploadResponse = AssetUploadResponse(id: string, status: string, message: string)

  /** Request headers: each name maps to its values in the order they were added. */
  type Header = map<string, seq<string>>

  /** The value of a form field: literal text, or a time rendered in RFC 3339 format. */
  datatype FieldValue = Plain(text: string) | Rfc3339(time: Time)

  /** One part of a multipart/form-data body (RFC 7578). */
  datatype Part =
    | FilePart(fieldName: string, fileName: string, content: seq<bv8>)
    | FieldPart(fieldName: string, value: FieldValue)

  /** An HTTP request as handed to the transport; `body` is None for a nil body. */
  datatype Request = Request(verb: string, url: string, header: Header, body: Option<seq<Part>>)

  /**
   * The steps of an upload whose error return the source checks: opening the file
   * (which can fail for an existing file too, for instance without permission), then
   * building the request.
   */
  datatype Step =
    | OpenFile | StatFile | CreateFormFile | CopyFile
    | WriteDeviceAssetId | WriteDeviceId | WriteCreatedAt | WriteModifiedAt
    | NewRequest

  /**
   * Everything outside the client: which construction steps fail and with what error,
   * the multipart boundary (random in the source), the transport (`http.Client.Do`)
   * and the JSON decoders for the expected response type.
   */
  datatype Env<T> = Env(
    faults: map<Step, Error>,
    boundary: string,
    send: Request -> Result<Response, Error>,
    decoders: Decoders<T>)

  /** `header.Add(name, value)`. */
  function AddHeader(h: Header, name: string, value: string): (h': Header)
    ensures h'.Keys == h.Keys + {name}
    ensures h'[name] == (if name in h then h[name] else []) + [value]
    ensures forall k :: k in h && k != name ==> h'[k] == h[k]
  {
    h[name := (if name in h then h[name] else []) + [value]]
  }

  /** `NewClient`; the host-name lookup is a parameter. */
  function NewClient(endpoint: string, apiKey: string, hostname: Result<string, Error>): (r: Result<Client, Error>)
    ensures hostname.Failure? <==> r.Failure?
    ensures r.Failure? ==> r.error == hostname.error
  {
    match hostname
    case Failure(e) => Failure(e)
    case Success(h) => Success(Client(endpoint + "/api", apiKey, h))
  }

  /** The headers of every request: `Accept: application/json` and `X-API-Key`. */
  function JsonHeader(c: Client): Header {
    AddHeader(AddHeader(map[], "Accept", "application/json"), "X-API-Key", c.apiKey)
  }

  function GetRequest(c: Client, path: string): Request {
    Request("GET", c.endPoint + path, JsonHeader(c), None)
  }

  const PingPath: string := "/server/ping"
  const CurrentUserPath: string := "/users/me"
  const AssetsPath: string := "/assets"

  /** `"<name>-<size>"`: the id under which the server de-duplicates uploads. */
  function DeviceAssetId(name: string, size: nat): string {
    name + "-" + FormatInt(size)
  }

  /** The upload body: the file first, then the four fields in a fixed order. */
  function UploadParts(c: Client, name: string, content: seq<bv8>, created: Time, modified: Time): seq<Part> {
    [ FilePart("assetData", name, content),
      FieldPart("deviceAssetId", Plain(DeviceAssetId(name, |content|))),
      FieldPart("deviceId", Plain(c.deviceID)),
      FieldPart("fileCreatedAt", Rfc3339(created)),
      FieldPart("fileModifiedAt", Rfc3339(modified)) ]
  }

  function MultipartContentType(boundary: string): string {
    "multipart/form-data; boundary=" + boundary
  }

  function UploadRequest(c: Client, name: string, content: seq<bv8>, created: Time, modified: Time,
                         boundary: string): Request
  {
    Request("POST", c.endPoint + AssetsPath,
            AddHeader(AddHeader(AddHeader(map[], "Content-Type", MultipartContentType(boundary)),
                                "Accept", "application/json"),
                      "X-API-Key", c.apiKey),
            Some(UploadParts(c, name, content, created, modified)))
  }

  /**
   * The callers' use of parseResponse: an error is returned as is; otherwise the
   * object, decoded or still at its zero value, is returned.
   */
  function Deliver<T>(p: Parsed<T>, zero: T): (r: Result<T, Error>)
    ensures r.Failure? <==> p.Failed?
    ensures p.Failed? ==> r == Failure(p.error)
    ensures r.Success? ==> r.value == (if p.Decoded? then p.value else zero)
  {
    match p
    case Failed(e) => Failure(e)
    case Decoded(v) => Success(v)
    case Untouched => Success(zero)
  }

  /** Sending a built request and reading its response: transport error, parse error, or the object. */
  function Exchange<T>(req: Request, zero: T, env: Env<T>): Result<T, Error> {
    match env.send(req)
    case Failure(e) => Failure(e)
    case Success(resp) => Deliver(ParseResponse(Some(resp), env.decoders), zero)
  }

  /** The construction steps of an upload after the file is opened, in the order they run. */
  const UploadSteps: seq<Step> := [OpenFile, StatFile, CreateFormFile, CopyFile, WriteDeviceAssetId,
                                   WriteDeviceId, WriteCreatedAt, WriteModifiedAt, NewRequest]

  /** The index of the first step that fails, or `|steps|` when none does. */
  function FirstFault(steps: seq<Step>, faults: map<Step, Error>): (k: nat)
    ensures k <= |steps|
    ensures forall j :: 0 <= j < k ==> steps[j] !in faults
    ensures k < |steps| ==> steps[k] in faults
    decreases |steps|
  {
    if steps == [] then 0
    else if steps[0] in faults then 0
    else 1 + FirstFault(steps[1..], faults)
  }

  /** The first failing step is the one at `k` when it fails and none before it does. */
  lemma FirstFaultIs(steps: seq<Step>, faults: map<Step, Error>, k: nat)
    requires k <= |steps|
    requires forall j :: 0 <= j < k ==> steps[j] !in faults
    requires k < |steps| ==> steps[k] in faults
    ensures FirstFault(steps, faults) == k
  {
  }

  function NoSuchFile(path: string): Error {
    "open " + path + ": no such file or directory"
  }

  /** What an upload returns, and the request it sent if it got that far. */
  datatype Upload = Upload(result: Result<AssetUploadResponse, Error>, sent: Option<Request>)

  const ZeroAsset: AssetUploadResponse := AssetUploadResponse("", "", "")

  /**
   * `UploadAsset` as a whole: a missing file, or the first failing step (opening the
   * file, then building the request),
   * ends it with that error before anything is sent; otherwise the request is built
   * from the file's base name and content and exchanged with the server.
   */
  function UploadOutcome(c: Client, files: map<string, seq<bv8>>, path: string,
                         created: Time, modified: Time, env: Env<AssetUploadResponse>): (u: Upload)
    ensures path !in files ==> u == Upload(Failure(NoSuchFile(path)), None)
    ensures u.sent.None? <==> path !in files || FirstFault(UploadSteps, env.faults) < |UploadSteps|
    ensures u.sent.None? ==> u.result.Failure?
    ensures u.sent.Some? ==>
              && u.sent.value == UploadRequest(c, Base(path), files[path], created, modified, env.boundary)
              && u.result == Exchange(u.sent.value, ZeroAsset, env)
  {
    if path !in files then Upload(Failure(NoSuchFile(path)), None)
    else
      var k := FirstFault(UploadSteps, env.faults);
      if k < |UploadSteps| then Upload(Failure(env.faults[UploadSteps[k]]), None)
      else
        var req := UploadRequest(c, Base(path), files[path], created, modified, env.boundary);
        Upload(Exchange(req, ZeroAsset, env), Some(req))
  }

  /** An upload whose construction step `k` is the first to fail returns that step's error and sends nothing. */
  lemma UploadFailsAt(c: Client, files: map<string, seq<bv8>>, path: string,
                      created: Time, modified: Time, env: Env<AssetUploadResponse>, k: nat)
    requires path in files && k < |UploadSteps|
    requires NoFaultBetween(env.faults, 0, k)
    requires UploadSteps[k] in env.faults
    ensures UploadOutcome(c, files, path, created, modified, env) == Upload(Failure(env.faults[UploadSteps[k]]), None)
  {
    FirstFaultIs(UploadSteps, env.faults, k);
  }

  /** A file that exists but cannot be opened ends the upload with the open error; nothing is sent. */
  lemma OpenFailureOnExistingFile(c: Client, files: map<string, seq<bv8>>, path: string,
                                  created: Time, modified: Time, env: Env<AssetUploadResponse>)
    requires path in files && OpenFile in env.faults
    ensures UploadOutcome(c, files, path, created, modified, env) == Upload(Failure(env.faults[OpenFile]), None)
  {
    UploadFailsAt(c, files, path, created, modified, env, 0);
  }

  /**
   * An answer that parseResponse leaves untouched (no body, or 204 No Content) is a
   * success carrying the zero object, whatever the status code; for an upload the
   * zero object has the empty status.
   */
  lemma UntouchedAnswerIsZero<T>(req: Request, zero: T, env: Env<T>, resp: Response)
    requires env.send(req) == Success(resp)
    requires resp.body.None? || resp.statusCode == StatusNoContent
    ensures Exchange(req, zero, env) == Success(zero)
  {
  }

  /** An upload in which no construction step fails sends the full request. */
  lemma UploadSends(c: Client, files: map<string, seq<bv8>>, path: string,
                    created: Time, modified: Time, env: Env<AssetUploadResponse>)
    requires path in files
    requires NoFaultBetween(env.faults, 0, |UploadSteps|)
    ensures var req := UploadRequest(c, Base(path), files[path], created, modified, env.boundary);
            UploadOutcome(c, files, path, created, modified, env) == Upload(Exchange(req, ZeroAsset, env), Some(req))
  {
    FirstFaultIs(UploadSteps, env.faults, |UploadSteps|);
  }

  /** `mime/multipart.Writer` over an in-memory buffer; each write step may fail. */
  class MultipartWriter {
    const boundary: string
    var parts: seq<Part>
    var closed: bool

    constructor (boundary: string)
      ensures this.boundary == boundary && parts == [] && !closed
    {
      this.boundary := boundary;
      parts := [];
      closed := false;
    }

    function FormDataContentType(): string
      reads this
    {
      MultipartContentType(boundary)
    }

    /** Starts a file part; its content is written afterwards. */
    method CreateFormFile(fieldName: string, fileName: string, fault: Option<Error>) returns (err: Option<Error>)
      modifies this
      ensures err == fault && closed == old(closed)
      ensures parts == if fault.None? then old(parts) + [FilePart(fieldName, fileName, [])] else old(parts)
    {
      err := fault;
      if fault.None? {
        parts := parts + [FilePart(fieldName, fileName, [])];
      }
    }

    /** Copies bytes into the file part started last. */
    method CopyIntoFilePart(data: seq<bv8>, fault: Option<Error>) returns (err: Option<Error>)
      requires parts != [] && parts[|parts| - 1].FilePart?
      modifies this
      ensures err == fault && closed == old(closed)
      ensures fault.Some? ==> parts == old(parts)
      ensures fault.None? ==>
                var last := old(parts)[|old(parts)| - 1];
                parts == old(parts)[..|old(parts)| - 1] + [last.(content := last.content + data)]
    {
      err := fault;
      if fault.None? {
        var last := parts[|parts| - 1];
        parts := parts[..|parts| - 1] + [last.(content := last.content + data)];
      }
    }

    method WriteField(fieldName: string, value: FieldValue, fault: Option<Error>) returns (err: Option<Error>)
      modifies this
      ensures err == fault && closed == old(closed)
      ensures parts == if fault.None? then old(parts) + [FieldPart(fieldName, value)] else old(parts)
    {
      err := fault;
      if fault.None? {
        parts := parts + [FieldPart(fieldName, value)];
      }
    }

    /** Writes the closing boundary; the source ignores its error. */
    method Close()
      modifies this
      ensures closed && parts == old(parts)
    {
      closed := true;
    }
  }

  function FaultAt(faults: map<Step, Error>, step: Step): Option<Error> {
    if step in faults then Some(faults[step]) else None
  }

  /** Whether no step of `UploadSteps[lo..hi]` fails. */
  predicate NoFaultBetween(faults: map<Step, Error>, lo: nat, hi: nat)
    requires lo <= hi <= |UploadSteps|
  {
    forall j :: lo <= j < hi ==> UploadSteps[j] !in faults
  }

  lemma NoFaultJoin(faults: map<Step, Error>, lo: nat, mid: nat, hi: nat)
    requires lo <= mid <= hi <= |UploadSteps|
    requires NoFaultBetween(faults, lo, mid) && NoFaultBetween(faults, mid, hi)
    ensures NoFaultBetween(faults, lo, hi)
  {
  }

  /**
   * The multipart file part of `UploadAsset` (steps 2 and 3 of `UploadSteps`):
   * `failed` is the index of the failing step, or 4 when both succeeded.
   */
  method WriteFilePart(writer: MultipartWriter, name: string, content: seq<bv8>, faults: map<Step, Error>)
    returns (err: Option<Error>, ghost failed: nat)
    requires writer.parts == []
    modifies writer
    ensures writer.closed == old(writer.closed)
    ensures 2 <= failed <= 4 && NoFaultBetween(faults, 2, failed)
    ensures failed < 4 ==> UploadSteps[failed] in faults && err == Some(faults[UploadSteps[failed]])
    ensures failed == 4 ==> err.None? && writer.parts == [FilePart("assetData", name, content)]
  {
    err := writer.CreateFormFile("assetData", name, FaultAt(faults, CreateFormFile));
    if err.Some? {
      return err, 2;
    }
    err := writer.CopyIntoFilePart(content, FaultAt(faults, CopyFile));
    if err.Some? {
      return err, 3;
    }
    assert [] + content == content;
    failed := 4;
  }

  /**
   * The four form fields of `UploadAsset` (steps 4 to 7 of `UploadSteps`):
   * `failed` is the index of the failing step, or 8 when all succeeded.
   */
  method WriteUploadFields(writer: MultipartWriter, c: Client, name: string, size: nat,
                           createdAt: Time, modifiedAt: Time, faults: map<Step, Error>)
    returns (err: Option<Error>, ghost failed: nat)
    modifies writer
    ensures writer.closed == old(writer.closed)
    ensures 4 <= failed <= 8 && NoFaultBetween(faults, 4, failed)
    ensures failed < 8 ==> UploadSteps[failed] in faults && err == Some(faults[UploadSteps[failed]])
    ensures failed == 8 ==> err.None? && writer.parts == old(writer.parts) + [
              FieldPart("deviceAssetId", Plain(DeviceAssetId(name, size))),
              FieldPart("deviceId", Plain(c.deviceID)),
              FieldPart("fileCreatedAt", Rfc3339(createdAt)),
              FieldPart("fileModifiedAt", Rfc3339(modifiedAt))]
  {
    err := writer.WriteField("deviceAssetId", Plain(DeviceAssetId(name, size)), FaultAt(faults, WriteDeviceAssetId));
    if err.Some? {
      return err, 4;
    }
    err := writer.WriteField("deviceId", Plain(c.deviceID), FaultAt(faults, WriteDeviceId));
    if err.Some? {
      return err, 5;
    }
    err := writer.WriteField("fileCreatedAt", Rfc3339(createdAt), FaultAt(faults, WriteCreatedAt));
    if err.Some? {
      return err, 6;
    }
    err := writer.WriteField("fileModifiedAt", Rfc3339(modifiedAt), FaultAt(faults, WriteModifiedAt));
    if err.Some? {
      return err, 7;
    }
    failed := 8;
  }

  /**
   * `UploadAsset`: open and stat the staged file, fill the multipart body part by
   * part, build the POST with its headers, send it and parse the answer. Every
   * failing step returns its error with no response, and no later step runs.
   */
  method UploadAsset(c: Client, files: map<string, seq<bv8>>, path: string, createdAt: Time, modifiedAt: Time,
                     env: Env<AssetUploadResponse>)
    returns (result: Result<AssetUploadResponse, Error>, sent: Option<Request>)
    ensures Upload(result, sent) == UploadOutcome(c, files, path, createdAt, modifiedAt, env)
  {
    sent := None;
    if path !in files {
      return Failure(NoSuchFile(path)), None;
    }
    if OpenFile in env.faults {
      UploadFailsAt(c, files, path, createdAt, modifiedAt, env, 0);
      return Failure(env.faults[OpenFile]), None;
    }
    var content := files[path];
    if StatFile in env.faults {
      UploadFailsAt(c, files, path, createdAt, modifiedAt, env, 1);
      return Failure(env.faults[StatFile]), None;
    }
    var name := Base(path);

    var writer := new MultipartWriter(env.boundary);
    var err, failed := WriteFilePart(writer, name, content, env.faults);
    NoFaultJoin(env.faults, 0, 2, failed);
    if err.Some? {
      UploadFailsAt(c, files, path, createdAt, modifiedAt, env, failed);
      return Failure(err.value), None;
    }
    err, failed := WriteUploadFields(writer, c, name, |content|, createdAt, modifiedAt, env.faults);
    NoFaultJoin(env.faults, 0, 4, failed);
    if err.Some? {
      UploadFailsAt(c, files, path, createdAt, modifiedAt, env, failed);
      return Failure(err.value), None;
    }
    writer.Close();

    assert writer.parts == UploadParts(c, name, content, createdAt, modifiedAt);
    if NewRequest in env.faults {
      UploadFailsAt(c, files, path, createdAt, modifiedAt, env, 8);
      return Failure(env.faults[NewRequest]), None;
    }
    NoFaultJoin(env.faults, 0, 8, 9);
    UploadSends(c, files, path, createdAt, modifiedAt, env);
    var req := Request("POST", c.endPoint + AssetsPath, map[], Some(writer.parts));
    req := req.(header := AddHeader(req.header, "Content-Type", writer.FormDataContentType()));
    req := req.(header := AddHeader(req.header, "Accept", "application/json"));
    req := req.(header := AddHeader(req.header, "X-API-Key", c.apiKey));
    sent := Some(req);

    var response := env.send(req);
    if response.Failure? {
      return Failure(response.error), sent;
    }
    result := Deliver(ParseResponse(Some(response.value), env.decoders), ZeroAsset);
  }

  /** The shared shape of `PingServer` and `GetCurrentUser`: build a GET, add the headers, send, parse. */
  method GetJson<T>(c: Client, path: string, zero: T, env: Env<T>) returns (result: Result<T, Error>, sent: Option<Request>)
    ensures sent.None? <==> NewRequest in env.faults
    ensures sent.None? ==> result == Failure(env.faults[NewRequest])
    ensures sent.Some? ==> sent.value == GetRequest(c, path) && result == Exchange(sent.value, zero, env)
  {
    if NewRequest in env.faults {
      return Failure(env.faults[NewRequest]), None;
    }
    var req := Request("GET", c.endPoint + path, map[], None);
    req := req.(header := AddHeader(req.header, "Accept", "application/json"));
    req := req.(header := AddHeader(req.header, "X-API-Key", c.apiKey));
    sent := Some(req);

    var response := env.send(req);
    if response.Failure? {
      return Failure(response.error), sent;
    }
    result := Deliver(ParseResponse(Some(response.value), env.decoders), zero);
  }

  /** `PingServer`: GET `<endPoint>/server/ping`. */
  method PingServer(c: Client, env: Env<PingResponse>) returns (result: Result<PingResponse, Error>, sent: Option<Request>)
    ensures sent.None? <==> NewRequest in env.faults
    ensures sent.None? ==> result == Failure(env.faults[NewRequest])
    ensures sent.Some? ==> sent.value == GetRequest(c, PingPath)
    ensures sent.Some? ==> result == Exchange(sent.value, PingResponse(""), env)
  {
    result, sent := GetJson(c, PingPath, PingResponse(""), env);
  }

  /** `GetCurrentUser`: GET `<endPoint>/users/me`. */
  method GetCurrentUser(c: Client, env: Env<UserResponse>) returns (result: Result<UserResponse, Error>, sent: Option<Request>)
    ensures sent.None? <==> NewRequest in env.faults
    ensures sent.None? ==> result == Failure(env.faults[NewRequest])
    ensures sent.Some? ==> sent.value == GetRequest(c, CurrentUserPath)
    ensures sent.Some? ==> result == Exchange(sent.value, UserResponse("", "", ""), env)
  {
    result, sent := GetJson(c, CurrentUserPath, UserResponse("", "", ""), env);
  }

  /** The three endpoints, spelled out from the URL the client was configured with. */
  lemma EndpointUrls(endpoint: string, apiKey: string, host: string, name: string, content: seq<bv8>,
                     created: Time, modified: Time, boundary: string)
    ensures var c := NewClient(endpoint, apiKey, Success(host)).value;
            && c.deviceID == host
            && GetRequest(c, PingPath).url == endpoint + "/api" + "/server/ping"
            && GetRequest(c, CurrentUserPath).url == endpoint + "/api" + "/users/me"
            && UploadRequest(c, name, content, created, modified, boundary).url == endpoint + "/api" + "/assets"
  {
    var c := NewClient(endpoint, apiKey, Success(host)).value;
    UploadUrl(c, name, content, created, modified, boundary);
  }

  lemma UploadUrl(c: Client, name: string, content: seq<bv8>, created: Time, modified: Time, boundary: string)
    ensures UploadRequest(c, name, content, created, modified, boundary).url == c.endPoint + AssetsPath
  {
  }

  /** Every request carries `Accept: application/json` and the API key; the upload also its multipart content type. */
  lemma RequestHeaders(c: Client, path: string, name: string, content: seq<bv8>,
                       created: Time, modified: Time, boundary: string)
    ensures var h := GetRequest(c, path).header;
            h.Keys == {"Accept", "X-API-Key"} && h["Accept"] == ["application/json"] && h["X-API-Key"] == [c.apiKey]
    ensures var h := UploadRequest(c, name, content, created, modified, boundary).header;
            && h.Keys == {"Content-Type", "Accept", "X-API-Key"}
            && h["Content-Type"] == ["multipart/form-data; boundary=" + boundary]
            && h["Accept"] == ["application/json"] && h["X-API-Key"] == [c.apiKey]
  {
  }

  /**
   * The upload body is the file followed by the four fields in a fixed order, and
   * both timestamps are the ones passed in.
   */
  lemma UploadFieldOrder(c: Client, name: string, content: seq<bv8>, created: Time, modified: Time)
    ensures var parts := UploadParts(c, name, content, created, modified);
            && |parts| == 5
            && (forall k :: 0 <= k < 5 ==> parts[k].fieldName == ["assetData", "deviceAssetId", "deviceId", "fileCreatedAt", "fileModifiedAt"][k])
            && parts[0] == FilePart("assetData", name, content)
            && parts[3].value == Rfc3339(created) && parts[4].value == Rfc3339(modified)
  {
  }

  /**
   * The device asset id depends only on the name and the size: two files with the
   * same name and size give the same id and the same fields, whatever their bytes.
   */
  lemma DeviceAssetIdIgnoresContent(c: Client, name: string, content1: seq<bv8>, content2: seq<bv8>,
                                    created: Time, modified: Time)
    requires |content1| == |content2|
    ensures UploadParts(c, name, content1, created, modified)[1..] == UploadParts(c, name, content2, created, modified)[1..]
  {
  }

  /** Splitting `n + "-" + d` at a dash that is followed only by digits is unambiguous. */
  lemma DigitSuffixLength(n1: string, d1: string, n2: string, d2: string)
    requires n1 + "-" + d1 == n2 + "-" + d2
    requires AllDigits(d1) && AllDigits(d2)
    ensures |d1| == |d2|
  {
    var x := n1 + "-" + d1;
    assert x[|n1|] == '-' && x[|n2|] == '-';
  }

  /** Different (name, size) pairs never share a device asset id. */
  lemma DeviceAssetIdInjective(name1: string, size1: nat, name2: string, size2: nat)
    requires DeviceAssetId(name1, size1) == DeviceAssetId(name2, size2)
    ensures name1 == name2 && size1 == size2
  {
    var d1, d2 := FormatNat(size1), FormatNat(size2);
    var x := DeviceAssetId(name1, size1);
    assert x == name1 + "-" + d1 && x == name2 + "-" + d2;
    DigitSuffixLength(name1, d1, name2, d2);
    assert d1 == x[|x| - |d1|..] == d2;
    assert name1 == x[..|name1|] == name2;
    FormatNatInjective(size1, size2);
  }
}
