/**
  `DiagnosisService` (derm_dx/Services/DiagnosisService.swift): preparing the
  photo for the classifier, the `multipart/form-data` request body, and the
  decision which result the completion receives.

  The platform calls the service makes are parameters, bundled in `Platform`;
  the network is a function from the upload to what the upload task's
  completion handler receives.
*/
module Services {
  import opened Wrappers
  import opened Geometry
  import opened Utf8
  import opened Models

  /** The platform collaborators of the service, all opaque. */
  datatype Platform = Platform(
    /** Whether `image.cgImage?.cropping(to: rect)` yields an image. */
    cropSucceeds: (Image, Rect) -> bool,
    /** `UIImage.jpegData(compressionQuality:)`. */
    jpegData: (Image, real) -> Option<Bytes>,
    /** The JSON text parser inside `JSONDecoder`. */
    parseJson: Bytes -> Option<Json>,
    /** Swift's `Float(String)`. */
    parseFloat: string -> Option<real>,
    /** `localizedDescription` of a decoding error. */
    describeDecodingError: DecodeError -> string)

  const ApiUrl: string := "https://cedricnagata-skin-lesion-classifier--skin-lesion-cla-d628c3-dev.modal.run/predict"

  /** The classifier takes 384 x 384 images. */
  const TargetSize: Size := Size(384.0, 384.0)

  const JpegQuality: real := 0.95

  // ---------------------------------------------------------------------------
  // Preparing the image

  /** The rectangle `cropToSquare` cuts out: the largest square, centred. */
  function SquareCropRect(size: Size): (r: Rect)
    ensures r.width == r.height == Min(size.width, size.height)
    ensures r.x == 0.0 || r.y == 0.0
    ensures Within(r, size)
    ensures r.MidX() == size.width / 2.0 && r.MidY() == size.height / 2.0
  {
    var side := Min(size.width, size.height);
    Rect((size.width - side) / 2.0, (size.height - side) / 2.0, side, side)
  }

  /** `cropToSquare`: the square crop, or the image itself when the platform
      cannot crop it. */
  function CropToSquare(image: Image, platform: Platform): (r: Image)
    ensures var rect := SquareCropRect(SizeOf(image));
            if platform.cropSucceeds(image, rect) then
              && r == Cropped(image, rect)
              && SizeOf(r).width == SizeOf(r).height == Min(SizeOf(image).width, SizeOf(image).height)
            else r == image
  {
    var rect := SquareCropRect(SizeOf(image));
    if platform.cropSucceeds(image, rect) then Cropped(image, rect) else image
  }

  /** The image `prepareImageForAPI` hands to the JPEG encoder: the square
      crop stretched over a fresh 384 x 384 canvas. */
  function ResizeForApi(image: Image, platform: Platform): (r: Image)
    ensures SizeOf(r) == TargetSize
    ensures r.Rendered? && r.background == None && |r.layers| == 1
    ensures r.layers[0].image == CropToSquare(image, platform)
    ensures r.layers[0].frame == Rect(0.0, 0.0, TargetSize.width, TargetSize.height)
  {
    Rendered(TargetSize, None, [Layer(CropToSquare(image, platform), Rect(0.0, 0.0, TargetSize.width, TargetSize.height))])
  }

  /** `prepareImageForAPI`: the JPEG bytes, at quality 0.95, of the square
      crop drawn over a 384 x 384 canvas, or `None` when encoding fails. */
  function PrepareImageForApi(image: Image, platform: Platform): (r: Option<Bytes>)
    ensures r == platform.jpegData(
                   Rendered(TargetSize, None, [Layer(CropToSquare(image, platform), Rect(0.0, 0.0, 384.0, 384.0))]),
                   0.95)
  {
    platform.jpegData(ResizeForApi(image, platform), JpegQuality)
  }

  // ---------------------------------------------------------------------------
  // The boundary and the Content-Type header

  /** `"Boundary-\(UUID().uuidString)"`, with the UUID text as a parameter. */
  function Boundary(uuid: string): string {
    "Boundary-" + uuid
  }

  predicate IsHexDigit(c: char) {
    '0' <= c <= '9' || 'A' <= c <= 'F' || 'a' <= c <= 'f'
  }

  /** The shape of `UUID().uuidString`: 8-4-4-4-12 hexadecimal digits. */
  predicate IsUuidString(u: string) {
    && |u| == 36
    && forall i :: 0 <= i < 36 ==>
         if i == 8 || i == 13 || i == 18 || i == 23 then u[i] == '-' else IsHexDigit(u[i])
  }

  /** A character allowed in a boundary other than space (section 5.1.1 of RFC 2046). */
  predicate IsBoundaryCharNoSpace(c: char) {
    || '0' <= c <= '9' || 'A' <= c <= 'Z' || 'a' <= c <= 'z'
    || c in {'\'', '(', ')', '+', '_', ',', '-', '.', '/', ':', '=', '?'}
  }

  /** A boundary as section 5.1.1 of RFC 2046 allows it: 1 to 70 characters,
      none outside the boundary alphabet, not ending in a space. */
  predicate IsRfc2046Boundary(b: string) {
    && 1 <= |b| <= 70
    && (forall i :: 0 <= i < |b| ==> IsBoundaryCharNoSpace(b[i]) || b[i] == ' ')
    && IsBoundaryCharNoSpace(b[|b| - 1])
  }

  /** Every boundary the service makes from a UUID is a valid RFC 2046
      boundary, and plain ASCII, so it encodes byte for character. */
  lemma UuidBoundaryIsValid(uuid: string)
    requires IsUuidString(uuid)
    ensures IsRfc2046Boundary(Boundary(uuid))
    ensures IsAscii(Boundary(uuid))
  {
    var b := Boundary(uuid);
    assert |b| == 45;
    forall i | 0 <= i < |b|
      ensures IsBoundaryCharNoSpace(b[i]) && b[i] as int < 0x80
    {
      if i >= 9 {
        assert b[i] == uuid[i - 9];
      }
    }
  }

  const ContentTypePrefix: string := "multipart/form-data; boundary="

  /** The value of the request's `Content-Type` header. */
  function ContentTypeHeader(boundary: string): string {
    ContentTypePrefix + boundary
  }

  /** The boundary parameter a receiver reads back from a `Content-Type` value. */
  function HeaderBoundary(header: string): Option<string> {
    if |ContentTypePrefix| <= |header| && header[..|ContentTypePrefix|] == ContentTypePrefix
    then Some(header[|ContentTypePrefix|..])
    else None
  }

  lemma HeaderBoundaryRoundTrip(boundary: string)
    ensures HeaderBoundary(ContentTypeHeader(boundary)) == Some(boundary)
  {
    var h := ContentTypeHeader(boundary);
    assert h[..|ContentTypePrefix|] == ContentTypePrefix;
    assert h[|ContentTypePrefix|..] == boundary;
  }

  // ---------------------------------------------------------------------------
  // The part header (section 4.2 of RFC 7578)

  const FieldName: string := "image"
  const FileName: string := "image.jpg"

  const DispositionPrefix: string := "Content-Disposition: form-data; name=\""
  const FileNameInfix: string := "\"; filename=\""
  const DispositionSuffix: string := "\"\r\n"

  /** A `Content-Disposition` line naming a form field and its file name. */
  function DispositionLine(name: string, filename: string): string {
    DispositionPrefix + name + FileNameInfix + filename + DispositionSuffix
  }

  /** The index of the first double quote of `s`, or `|s|` when there is none. */
  function IndexOfQuote(s: string): (i: nat)
    ensures i <= |s|
    ensures i < |s| ==> s[i] == '"'
    ensures forall j :: 0 <= j < i ==> s[j] != '"'
  {
    if s == [] then 0
    else if s[0] == '"' then 0
    else 1 + IndexOfQuote(s[1..])
  }

  function StripPrefix(s: string, prefix: string): Option<string> {
    if |prefix| <= |s| && s[..|prefix|] == prefix then Some(s[|prefix|..]) else None
  }

  /** Reads the field name and file name back out of a `Content-Disposition` line. */
  function ParseDisposition(line: string): Option<(string, string)> {
    match StripPrefix(line, DispositionPrefix)
    case None => None
    case Some(rest) =>
      var i := IndexOfQuote(rest);
      match StripPrefix(rest[i..], FileNameInfix)
      case None => None
      case Some(rest') =>
        var j := IndexOfQuote(rest');
        if rest'[j..] == DispositionSuffix then Some((rest[..i], rest'[..j])) else None
  }

  predicate QuoteFree(s: string) {
    forall i :: 0 <= i < |s| ==> s[i] != '"'
  }

  lemma IndexOfQuoteAfter(a: string, b: string)
    requires QuoteFree(a)
    requires |b| > 0 && b[0] == '"'
    ensures IndexOfQuote(a + b) == |a|
  {
    assert (a + b)[|a|] == '"';
  }

  /** The disposition line of a quote-free name and file name parses back to them. */
  lemma ParseDispositionLine(name: string, filename: string)
    requires QuoteFree(name) && QuoteFree(filename)
    ensures ParseDisposition(DispositionLine(name, filename)) == Some((name, filename))
  {
    var line := DispositionLine(name, filename);
    var rest := name + FileNameInfix + filename + DispositionSuffix;
    assert line == DispositionPrefix + rest;
    assert line[..|DispositionPrefix|] == DispositionPrefix;
    assert line[|DispositionPrefix|..] == rest;
    assert rest == name + (FileNameInfix + filename + DispositionSuffix);
    IndexOfQuoteAfter(name, FileNameInfix + filename + DispositionSuffix);
    var i := |name|;
    assert rest[..i] == name;
    var tail := rest[i..];
    assert tail == FileNameInfix + (filename + DispositionSuffix);
    assert tail[..|FileNameInfix|] == FileNameInfix;
    var rest' := tail[|FileNameInfix|..];
    assert rest' == filename + DispositionSuffix;
    IndexOfQuoteAfter(filename, DispositionSuffix);
    assert rest'[..|filename|] == filename;
    assert rest'[|filename|..] == DispositionSuffix;
  }

  /** The `Content-Disposition` line the service sends. */
  const DispositionText: string := "Content-Disposition: form-data; name=\"image\"; filename=\"image.jpg\"\r\n"

  /** The part header of the request names the field `image` and the file
      `image.jpg`. */
  lemma PartNamesImageField()
    ensures DispositionText == DispositionLine(FieldName, FileName)
  {
  }

  /** A receiver reads the field name `image` and the file name `image.jpg`
      back out of that line. */
  lemma PartHeaderParses()
    ensures ParseDisposition(DispositionText) == Some((FieldName, FileName))
  {
    PartNamesImageField();
    assert QuoteFree(FieldName) && QuoteFree(FileName);
    ParseDispositionLine(FieldName, FileName);
  }

  // ---------------------------------------------------------------------------
  // The body

  /** `--boundary` CRLF: the dash-boundary that opens the only part. */
  function DelimiterLine(boundary: string): Bytes {
    Encode("--" + boundary + "\r\n")
  }

  /** `--boundary--` CRLF: the close delimiter. */
  function CloseDelimiterLine(boundary: string): Bytes {
    Encode("--" + boundary + "--\r\n")
  }

  const ContentTypeLine: string := "Content-Type: image/jpeg\r\n\r\n"

  /** Everything before the image bytes. */
  function PartHeader(boundary: string): Bytes {
    DelimiterLine(boundary) + Encode(DispositionText) + Encode(ContentTypeLine)
  }

  /** Everything after the image bytes. */
  function Trailer(boundary: string): Bytes {
    Encode(Crlf) + CloseDelimiterLine(boundary)
  }

  const Crlf: string := "\r\n"

  /** The multipart body with the image as its only part. */
  function FormBody(imageData: Bytes, boundary: string): (body: Bytes)
    ensures |body| == |PartHeader(boundary)| + |imageData| + |Trailer(boundary)|
    ensures body[..|PartHeader(boundary)|] == PartHeader(boundary)
    ensures body[|PartHeader(boundary)|..|PartHeader(boundary)| + |imageData|] == imageData
    ensures body[|body| - |CloseDelimiterLine(boundary)|..] == CloseDelimiterLine(boundary)
  {
    var body := PartHeader(boundary) + imageData + Trailer(boundary);
    assert body == (PartHeader(boundary) + imageData + Encode(Crlf)) + CloseDelimiterLine(boundary);
    body
  }

  /** A receiver's view of the body: the bytes between the part header and
      the trailer, given the boundary it read from the `Content-Type` header. */
  function ExtractFile(body: Bytes, boundary: string): Option<Bytes> {
    var head := PartHeader(boundary);
    var tail := Trailer(boundary);
    if |head| + |tail| <= |body| && body[..|head|] == head && body[|body| - |tail|..] == tail
    then Some(body[|head|..|body| - |tail|])
    else None
  }

  /** The image bytes come back out of the body verbatim. */
  lemma ExtractFormBody(imageData: Bytes, boundary: string)
    ensures ExtractFile(FormBody(imageData, boundary), boundary) == Some(imageData)
  {
    var head := PartHeader(boundary);
    var tail := Trailer(boundary);
    var body := FormBody(imageData, boundary);
    assert body == head + imageData + tail;
    assert body[|body| - |tail|..] == tail;
    assert body[|head|..|body| - |tail|] == imageData;
  }

  /** The opening delimiter line, byte for byte, for an ASCII boundary. */
  lemma DelimiterLineBytes(boundary: string)
    requires IsAscii(boundary)
    ensures |DelimiterLine(boundary)| == |boundary| + 4
    ensures DelimiterLine(boundary)[..2] == ['-' as int, '-' as int]
    ensures DelimiterLine(boundary)[2..|boundary| + 2] == AsciiCodes(boundary)
    ensures DelimiterLine(boundary)[|boundary| + 2..] == ['\r' as int, '\n' as int]
  {
    var s := "--" + boundary + "\r\n";
    assert IsAscii(s) by {
      forall i | 0 <= i < |s| ensures s[i] as int < 0x80 {
        if 2 <= i < |boundary| + 2 {
          assert s[i] == boundary[i - 2];
        }
      }
    }
    EncodeAscii(s);
    var e := Encode(s);
    assert e[2..|boundary| + 2] == AsciiCodes(boundary) by {
      forall i | 0 <= i < |boundary| ensures e[2..|boundary| + 2][i] == AsciiCodes(boundary)[i] {
        assert s[i + 2] == boundary[i];
      }
    }
  }

  function AsciiCodes(s: string): seq<int> {
    seq(|s|, i requires 0 <= i < |s| => s[i] as int)
  }

  /** `createFormData`: appends the pieces to an empty buffer, one by one. */
  method CreateFormData(imageData: Bytes, boundary: string) returns (data: Bytes)
    ensures data == FormBody(imageData, boundary)
  {
    data := [];
    data := data + Encode("--" + boundary + "\r\n");
    data := data + Encode(DispositionText);
    data := data + Encode(ContentTypeLine);
    data := data + imageData;
    data := data + Encode(Crlf);
    data := data + Encode("--" + boundary + "--\r\n");
  }

  // ---------------------------------------------------------------------------
  // The result the completion receives

  /** The errors the completion can receive. */
  datatype Error =
    | NSError(domain: string, code: int, description: string)
    | Transport(networkError: NetworkError)
    | Decoding(decodeError: DecodeError)

  /** A transport-level failure of the upload task. */
  datatype NetworkError = NetworkError(code: int, description: string)

  datatype HttpResponse = HttpResponse(statusCode: int)

  /** The `(data, response, error)` triple of the upload task's completion handler. */
  datatype TaskOutcome = TaskOutcome(data: Option<Bytes>, response: Option<HttpResponse>, error: Option<NetworkError>)

  const PrepareFailure: Error := NSError("DiagnosisService", 1, "Failed to prepare image")
  const NoDataFailure: Error := NSError("DiagnosisService", 2, "No data received")

  /** `error.localizedDescription`. */
  function ErrorDescription(e: Error, platform: Platform): string {
    match e
    case NSError(_, _, description) => description
    case Transport(cause) => cause.description
    case Decoding(cause) => platform.describeDecodingError(cause)
  }

  /** `JSONDecoder().decode(DiagnosisResponse.self, from: data)`. */
  function DecodeBody(data: Bytes, platform: Platform): (r: Result<DiagnosisResponse, DecodeError>)
    ensures platform.parseJson(data).None? ==> r == Failure(DataCorrupted)
    ensures platform.parseJson(data).Some? ==> r == Models.Decode(platform.parseJson(data).value, platform.parseFloat)
    ensures r.Success? <==>
              && platform.parseJson(data).Some?
              && var json := platform.parseJson(data).value;
                 json.JObject? && ClassKey in json.fields && json.fields[ClassKey].JString?
  {
    match platform.parseJson(data)
    case None => Failure(DataCorrupted)
    case Some(json) => Models.Decode(json, platform.parseFloat)
  }

  /** The completion handler of the upload task: a transport error wins, then
      missing data, then the decoder decides; the status code is never read. */
  function Dispatch(outcome: TaskOutcome, platform: Platform): (r: Result<DiagnosisResponse, Error>)
    ensures outcome.error.Some? ==> r == Failure(Transport(outcome.error.value))
    ensures r == Failure(NoDataFailure) <==> outcome.error.None? && outcome.data.None?
    ensures r.Success? <==>
              outcome.error.None? && outcome.data.Some? && DecodeBody(outcome.data.value, platform).Success?
    ensures r.Success? ==> r.value == DecodeBody(outcome.data.value, platform).value
    ensures r.Failure? && r.error.Decoding? ==>
              outcome.error.None? && outcome.data.Some? &&
              DecodeBody(outcome.data.value, platform) == Failure(r.error.decodeError)
    ensures outcome.error.None? && outcome.data.Some? && DecodeBody(outcome.data.value, platform).Failure? ==>
              r == Failure(Decoding(DecodeBody(outcome.data.value, platform).error))
  {
    if outcome.error.Some? then Failure(Transport(outcome.error.value))
    else if outcome.data.None? then Failure(NoDataFailure)
    else match DecodeBody(outcome.data.value, platform)
      case Success(response) => Success(response)
      case Failure(e) => Failure(Decoding(e))
  }

  /** The HTTP response, and so its status code, never changes the result. */
  lemma DispatchIgnoresStatus(outcome: TaskOutcome, response: Option<HttpResponse>, platform: Platform)
    ensures Dispatch(outcome.(response := response), platform) == Dispatch(outcome, platform)
  {
  }

  datatype Request = Request(url: string, httpMethod: string, headers: map<string, string>)

  /** `URLSession.shared.uploadTask(with: request, from: body)`. */
  datatype Upload = Upload(request: Request, body: Bytes)

  /** The request `getDiagnosis` builds for a boundary: a POST to the
      classifier whose only header announces the boundary. */
  function RequestFor(boundary: string): (r: Request)
    ensures r.url == ApiUrl && r.httpMethod == "POST"
    ensures r.headers.Keys == {"Content-Type"}
    ensures HeaderBoundary(r.headers["Content-Type"]) == Some(boundary)
  {
    HeaderBoundaryRoundTrip(boundary);
    Request(ApiUrl, "POST", map["Content-Type" := ContentTypeHeader(boundary)])
  }

  /** The upload `getDiagnosis` starts for the JPEG bytes and a boundary. */
  function UploadFor(jpeg: Bytes, boundary: string): Upload {
    Upload(RequestFor(boundary), FormBody(jpeg, boundary))
  }

  /** The result the completion of `getDiagnosis` receives, as a function of
      the image, the UUID text, the platform and the network: the code 1
      failure exactly when no JPEG is made, and otherwise what the completion
      handler makes of the network's answer to the upload. */
  function ServiceResult(image: Image, uuid: string, platform: Platform, transport: Upload -> TaskOutcome)
    : (r: Result<DiagnosisResponse, Error>)
    ensures r == Failure(PrepareFailure) <==> PrepareImageForApi(image, platform).None?
    ensures PrepareImageForApi(image, platform).Some? ==>
              r == Dispatch(transport(UploadFor(PrepareImageForApi(image, platform).value, Boundary(uuid))), platform)
    ensures r.Success? <==>
              && PrepareImageForApi(image, platform).Some?
              && var outcome := transport(UploadFor(PrepareImageForApi(image, platform).value, Boundary(uuid)));
                 outcome.error.None? && outcome.data.Some? && DecodeBody(outcome.data.value, platform).Success?
    ensures r.Failure? && r.error.Transport? ==>
              && PrepareImageForApi(image, platform).Some?
              && transport(UploadFor(PrepareImageForApi(image, platform).value, Boundary(uuid))).error
                 == Some(r.error.networkError)
  {
    match PrepareImageForApi(image, platform)
    case None => Failure(PrepareFailure)
    case Some(jpeg) => Dispatch(transport(UploadFor(jpeg, Boundary(uuid))), platform)
  }

  /** `getDiagnosis`: the upload it starts, if any, and the result its
      completion receives. `uuid` is the text of the fresh `UUID()`;
      `transport` is what the network answers to an upload. */
  method GetDiagnosis(image: Image, uuid: string, platform: Platform, transport: Upload -> TaskOutcome)
    returns (upload: Option<Upload>, result: Result<DiagnosisResponse, Error>)
    ensures upload.None? <==> PrepareImageForApi(image, platform).None?
    ensures upload.None? ==> result == Failure(PrepareFailure)
    ensures upload.Some? ==>
              && upload.value.request.url == ApiUrl
              && upload.value.request.httpMethod == "POST"
              && "Content-Type" in upload.value.request.headers
              && HeaderBoundary(upload.value.request.headers["Content-Type"]) == Some(Boundary(uuid))
              && upload.value.body == FormBody(PrepareImageForApi(image, platform).value, Boundary(uuid))
              && upload.value == UploadFor(PrepareImageForApi(image, platform).value, Boundary(uuid))
              && result == Dispatch(transport(upload.value), platform)
    ensures result == ServiceResult(image, uuid, platform, transport)
  {
    var imageData := PrepareImageForApi(image, platform);
    if imageData.None? {
      return None, Failure(PrepareFailure);
    }
    var boundary := Boundary(uuid);
    var request := RequestFor(boundary);
    var formData := CreateFormData(imageData.value, boundary);
    var task := Upload(request, formData);
    upload := Some(task);
    result := Dispatch(transport(task), platform);
  }

  /** A receiver that takes the boundary from the `Content-Type` header
      recovers exactly the JPEG bytes the service prepared. */
  lemma UploadCarriesImage(upload: Upload, imageData: Bytes, uuid: string)
    requires "Content-Type" in upload.request.headers
    requires HeaderBoundary(upload.request.headers["Content-Type"]) == Some(Boundary(uuid))
    requires upload.body == FormBody(imageData, Boundary(uuid))
    ensures ExtractFile(upload.body, HeaderBoundary(upload.request.headers["Content-Type"]).value) == Some(imageData)
  {
    ExtractFormBody(imageData, Boundary(uuid));
  }
}
