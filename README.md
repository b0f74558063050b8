# derm_dx core, modelled in Dafny

derm_dx is an iOS app: the user photographs a skin lesion, positions it in a
crop square, and the app posts the cropped photo to a remote classifier that
answers with a prediction, a class label and a confidence. This project models
the parts of the app that are logic rather than layout:

- `DiagnosisService`: the centred square crop, the 384 x 384 image handed to
  the JPEG encoder, the boundary and `Content-Type` header, the
  `multipart/form-data` body built by `createFormData`, and the rule that
  decides which result the completion receives (`services.dfy`, with the
  UTF-8 encoding that `String.data(using: .utf8)` performs in `utf8.dfy`).
- `DiagnosisResponse.init(from:)`: the tolerant decoder over a parsed JSON
  value (`models.dfy`).
- `DiagnosisViewModel`: the four published fields and how `processDiagnosis`,
  its completion and `reset` change them (`view_models.dfy`).
- The crop screen of `ContentView`: the minimum scale, the gesture updates of
  the `@State` crop fields, and the geometry of `createCroppedImage`
  (`content_view.dfy`).
- `ImageCropView`: its initial scale, Reset button, gestures and crop
  geometry (`image_crop_view.dfy`).

`CGFloat` and `Float` are modelled as `real`. Images are opaque: an image is
a photo of a given size, a crop of another image by a rectangle, or what a
renderer made from a canvas size, an optional background fill and the images
drawn into it with their frames (`geometry.dfy`). The platform calls the
service makes (whether `cgImage.cropping` succeeds, JPEG encoding, the JSON
text parser, `Float(String)`, the description of a decoding error) are the
function fields of `Services.Platform`; the UUID text and the network's
answer to an upload are parameters.

Where the app's stated intent and its code disagree, the model follows the
code:

- `calculateInitialScale` is meant to start every photo at a scale that
  fills the crop square. With the `scaledToFill` placement of
  `createCroppedImage` this holds for portrait and square photos only: for a
  landscape photo the minimum scale `1/aspect` draws the photo exactly as wide
  as the square and less high, leaving black bands above and below it
  (`ContentScreen.LandscapeInitialCropBands`,
  `ContentScreen.InitialCropCoverage`).
- A response with an empty but present body is not reported as "No data
  received": only a missing body is. An empty body goes to the decoder like any
  other body (`Services.Dispatch`, `Services.DecodeBody`); whether the JSON
  parser rejects it is up to that parser.
- The HTTP status code is only logged; a 4xx or 5xx answer whose body decodes
  is a success (`Services.DispatchIgnoresStatus`).

## Model

| member | source | states |
|---|---|---|
| Utf8.EncodeScalar | derm_dx/Services/DiagnosisService.swift:98-105 | every character encodes to one to four bytes, a valid lead byte for that length followed by continuation bytes, and to a single byte equal to its code exactly when it is ASCII |
| Utf8.Encode | derm_dx/Services/DiagnosisService.swift:98-105 | a string of n characters encodes to between n and 4n bytes |
| Utf8.EncodeAppend | derm_dx/Services/DiagnosisService.swift:98-105 | encoding an interpolated string yields the encodings of its pieces, concatenated |
| Utf8.EncodeAscii | derm_dx/Services/DiagnosisService.swift:98 | an ASCII string (such as every boundary) encodes to its character codes, one byte per character |
| Utf8.DecodeEncode | derm_dx/Services/DiagnosisService.swift:98-105 | an independent UTF-8 decoder recovers every encoded string, so the text lines of the body lose nothing |
| Models.DecodeFloat | derm_dx/Models/DiagnosisResponse.swift:20 | a Float decode succeeds exactly on a JSON number and yields it; otherwise it reports the key as missing, null or mistyped |
| Models.DecodeString | derm_dx/Models/DiagnosisResponse.swift:30 | a String decode succeeds exactly on a JSON string and yields it; otherwise it reports the key as missing, null or mistyped |
| Models.TolerantFloat | derm_dx/Models/DiagnosisResponse.swift:19-27 | a numeric field is the number when it is one (whatever the string parser would say), else the parse of a parseable string, else 0.0 |
| Models.Decode | derm_dx/Models/DiagnosisResponse.swift:16-41 | decoding succeeds if and only if the top level is an object whose `class` is a string; the result carries that label and the two tolerantly resolved numbers; a failure names the missing, null or mistyped `class`, a `null` top level (value not found), or another non-object top level (type mismatch) |
| Models.StringFormDecodesLikeNumber | derm_dx/Models/DiagnosisResponse.swift:22-24 | a numeric field sent as a string that parses to x decodes exactly like the field sent as the number x |
| Models.NumericFieldsNeverFail | derm_dx/Models/DiagnosisResponse.swift:19-40 | whatever `prediction` and `confidence` hold, or whether they are present, decoding succeeds or fails exactly as without them |
| Models.FieldsResolvedIndependently | derm_dx/Models/DiagnosisResponse.swift:32-40 | changing `prediction` leaves the decoded `confidence` and label as they were |
| Services.SquareCropRect | derm_dx/Services/DiagnosisService.swift:82-85 | the crop is a square of side min(w, h), flush with at least one edge, inside the image and centred on it |
| Services.CropToSquare | derm_dx/Services/DiagnosisService.swift:87-91 | the result is the square crop (of side min(w, h)) when the platform can crop, and the image itself otherwise |
| Services.ResizeForApi | derm_dx/Services/DiagnosisService.swift:69-75 | the image handed to the JPEG encoder is always 384 x 384: a fresh canvas with no fill and the square crop stretched over all of it |
| Services.PrepareImageForApi | derm_dx/Services/DiagnosisService.swift:65-79 | the result is what the JPEG encoder makes, at quality 0.95, of a 384 x 384 canvas with the square crop drawn over all of it; `None` exactly when that encoding fails |
| Services.UuidBoundaryIsValid | derm_dx/Services/DiagnosisService.swift:19 | a boundary made from any UUID text is a valid boundary under section 5.1.1 of RFC 2046 and plain ASCII |
| Services.HeaderBoundaryRoundTrip | derm_dx/Services/DiagnosisService.swift:20 | the boundary a receiver reads from the `Content-Type` value is the one the service chose |
| Services.PartNamesImageField | derm_dx/Services/DiagnosisService.swift:99 | the part header line is the section 4.2 RFC 7578 disposition line for field `image` and file `image.jpg` |
| Services.ParseDispositionLine | derm_dx/Services/DiagnosisService.swift:99 | a disposition line with quote-free names parses back to exactly those names |
| Services.PartHeaderParses | derm_dx/Services/DiagnosisService.swift:99 | a receiver reads the field name `image` and the file name `image.jpg` out of the part header |
| Services.FormBody | derm_dx/Services/DiagnosisService.swift:95-107 | the body's length is the sum of its pieces; it starts with the part header, holds the image bytes right after it, and ends with the close delimiter |
| Services.CreateFormData | derm_dx/Services/DiagnosisService.swift:94-108 | appending the six pieces to an empty buffer builds exactly that body |
| Services.DelimiterLineBytes | derm_dx/Services/DiagnosisService.swift:98 | the opening delimiter is two dashes, the boundary's bytes and CRLF |
| Services.ExtractFormBody | derm_dx/Services/DiagnosisService.swift:98-105 | the bytes between the part header and the trailer are exactly the image bytes, unmodified |
| Services.UploadCarriesImage | derm_dx/Services/DiagnosisService.swift:19-28 | a receiver using the boundary from the request's header extracts exactly the JPEG bytes that were prepared |
| Services.DecodeBody | derm_dx/Services/DiagnosisService.swift:51-59 | a body that is not JSON fails as corrupted data; a body that is JSON is decoded by the `DiagnosisResponse` decoder, with its response or its error, so decoding succeeds exactly on an object with a string `class` |
| Services.Dispatch | derm_dx/Services/DiagnosisService.swift:28-60 | a transport error wins; the code 2 failure happens exactly when there is neither error nor data; success happens exactly when the data decode, with the decoded value; the decoder's failure, and only it, becomes a decoding error carrying the decoder's own error |
| Services.DispatchIgnoresStatus | derm_dx/Services/DiagnosisService.swift:36-38 | the HTTP response, and so its status code, never changes the result |
| Services.RequestFor | derm_dx/Services/DiagnosisService.swift:15-20 | the request is a POST to the classifier URL whose only header is `Content-Type`, from which a receiver reads back exactly the chosen boundary |
| Services.ServiceResult | derm_dx/Services/DiagnosisService.swift:8-63 | the completion receives the code 1 failure exactly when no JPEG is made; otherwise it receives whatever the completion handler (`Services.Dispatch`) makes of the network's answer to the upload, so a response exactly when the network answers with no error and a body that decodes, with the decoded response, the code 2 failure without a body, and the decoder's own error when decoding fails; a transport failure is the network's own error for that upload |
| Services.GetDiagnosis | derm_dx/Services/DiagnosisService.swift:8-63 | no upload is made exactly when JPEG preparation fails, and then the result is the code 1 failure; otherwise the upload is a POST to the fixed URL whose header boundary is the boundary of the body, which carries the prepared JPEG, and the result is the dispatch of the network's answer |
| ViewModels.DiagnosisViewModel.constructor | derm_dx/ViewModels/DiagnosisViewModel.swift:8-11 | a new view model shows nothing and is not loading |
| ViewModels.DiagnosisViewModel.Begin | derm_dx/ViewModels/DiagnosisViewModel.swift:14-17 | the photo is captured, loading starts and both the previous result and error are cleared |
| ViewModels.DiagnosisViewModel.Complete | derm_dx/ViewModels/DiagnosisViewModel.swift:21-27 | loading stops; a success publishes the response, a failure the error's description, and nothing else changes |
| ViewModels.DiagnosisViewModel.ProcessDiagnosis | derm_dx/ViewModels/DiagnosisViewModel.swift:13-31 | after the request completes the photo is still captured, loading is over, never both a result and an error are shown, and what is shown is the service's result or its error text |
| ViewModels.DiagnosisViewModel.Reset | derm_dx/ViewModels/DiagnosisViewModel.swift:33-37 | the photo, result and error are cleared and the loading flag is untouched |
| ViewModels.AlertTexts | derm_dx/ViewModels/DiagnosisViewModel.swift:26-27 | the alert reads "Failed to prepare image" without JPEG data, the transport error's description after a transport error, and "No data received" without a body |
| ContentScreen.MinScale | derm_dx/ContentView.swift:71-77 | the minimum scale lies in (0, 1]; it is 1 for a portrait photo and the reciprocal of the aspect ratio otherwise, so 1 for a square photo |
| ContentScreen.FillSize | derm_dx/ContentView.swift:258-269 | the fill size keeps the photo's aspect ratio, has one side equal to the crop size and neither side shorter |
| ContentScreen.DrawRect | derm_dx/ContentView.swift:271-281 | the photo is drawn at the fill size times the scale, with its centre at the canvas centre moved by the offset |
| ContentScreen.CreateCroppedImage | derm_dx/ContentView.swift:243-286 | the result is always a crop-size square, filled black, with the photo drawn once into the draw rectangle |
| ContentScreen.ContentView.constructor | derm_dx/ContentView.swift:14-19 | the crop starts with no offset, scale 1 and minimum 1, and satisfies the scale invariant |
| ContentScreen.ContentView.ResetCropState | derm_dx/ContentView.swift:236-241 | offsets become zero and scales 1; the minimum and the stored size are kept, and the scale invariant still holds |
| ContentScreen.ContentView.CalculateInitialScale | derm_dx/ContentView.swift:58-82 | the photo's size is stored, offsets are zero, and the minimum, the scale and the last scale all equal the photo's minimum scale |
| ContentScreen.ContentView.DragChanged | derm_dx/ContentView.swift:151-156 | the offset is the offset at the drag's start plus the translation; nothing else changes |
| ContentScreen.ContentView.DragEnded | derm_dx/ContentView.swift:157-159 | the current offset becomes the start offset of the next drag |
| ContentScreen.ContentView.MagnifyChanged | derm_dx/ContentView.swift:163-167 | the scale is the start scale times the magnification, raised to the minimum when below it, so it never drops below the minimum |
| ContentScreen.ContentView.MagnifyEnded | derm_dx/ContentView.swift:168-170 | the current scale becomes the start scale of the next pinch |
| ContentScreen.ContentView.Retake | derm_dx/ContentView.swift:189-193 | the view model forgets the photo and its outcome and the crop is reset |
| ContentScreen.ContentView.Analyze | derm_dx/ContentView.swift:210-223 | the view model analyses the crop rendered with the current offset and scale, and shows that analysis's outcome |
| ContentScreen.CoverageByOffset | derm_dx/ContentView.swift:276-284 | the drawn photo covers the canvas exactly when each offset component is at most half the drawn photo's overhang on that axis |
| ContentScreen.CentredCoverage | derm_dx/ContentView.swift:272-284 | a centred photo covers the canvas exactly when the scale is at least 1 |
| ContentScreen.InitialCropCoverage | derm_dx/ContentView.swift:70-81 | the initial crop covers the canvas exactly when the photo is not landscape |
| ContentScreen.LandscapeInitialCropBands | derm_dx/ContentView.swift:76 | for a landscape photo at the minimum scale the drawn photo spans the canvas width but is shorter than the canvas, with equal black bands above and below |
| CropScreen.DrawRect | derm_dx/Views/ImageCropView.swift:147-153 | the photo is drawn at its own size times the scale, with its centre at the canvas centre moved by the offset |
| CropScreen.CreateCroppedImage | derm_dx/Views/ImageCropView.swift:137-155 | the result is always a crop-size square, filled black, with the photo drawn once into the draw rectangle |
| CropScreen.FitSize | derm_dx/Views/ImageCropView.swift:34-36 | the preview size keeps the photo's aspect ratio and has its longer side equal to the crop size |
| CropScreen.ImageCropView.constructor | derm_dx/Views/ImageCropView.swift:9-12 | the crop starts with no offset and scale 1 |
| CropScreen.ImageCropView.SetupInitialScale | derm_dx/Views/ImageCropView.swift:126-134 | a landscape photo starts with scale and last scale equal to the reciprocal of its aspect ratio; any other photo leaves both unchanged |
| CropScreen.ImageCropView.Reset | derm_dx/Views/ImageCropView.swift:91-96 | offsets become zero and both scales 1 |
| CropScreen.ImageCropView.DragChanged | derm_dx/Views/ImageCropView.swift:41-46 | the offset is the offset at the drag's start plus the translation; nothing else changes |
| CropScreen.ImageCropView.DragEnded | derm_dx/Views/ImageCropView.swift:47-49 | the current offset becomes the start offset of the next drag |
| CropScreen.ImageCropView.MagnifyChanged | derm_dx/Views/ImageCropView.swift:53-55 | the scale is the start scale times the magnification, raised to 1 when below it, so after any pinch it is at least 1, even after a landscape start below 1 |
| CropScreen.ImageCropView.MagnifyEnded | derm_dx/Views/ImageCropView.swift:56-58 | the current scale becomes the start scale of the next pinch |
| CropScreen.CentredDrawing | derm_dx/Views/ImageCropView.swift:149-150 | with no offset, the uncovered canvas is split equally between opposite sides |
| CropScreen.CentredCoverage | derm_dx/Views/ImageCropView.swift:147-153 | a centred photo covers the canvas exactly when its scaled size is at least the crop size on both sides |
| CropScreen.LandscapeSetupDrawsHeightWide | derm_dx/Views/ImageCropView.swift:129-133 | at the initial landscape scale the photo is drawn as wide as its own height, whatever the crop size |
| CropScreen.PreviewMatchesCrop | derm_dx/Views/ImageCropView.swift:147 | the rendered crop matches the fitted preview only for a photo whose longer side already equals the crop size |

## Left out

- Pixels: what `cgImage.cropping`, `UIGraphicsImageRenderer`, `draw(in:)` and JPEG encoding do to pixel data is opaque; the model records only the rectangles and canvases handed to them, and treats crop success and JPEG output as platform functions.
- Services.CropToSquare: the rectangle is computed from `image.size`, in points, but `cgImage.cropping(to:)` takes pixels, and the image's `scale` and `imageOrientation` are not modelled. The image `Analyze` hands over is always a `UIGraphicsImageRenderer` image (ContentView.swift:245-247 never yields nil), whose `cgImage` is cropSize·s pixels wide at screen scale s, so the app keeps only the top-left 1/s² of the user's crop (a quarter at s = 2, a ninth at s = 3). In the model the size of `Cropped(image, rect)` is the rectangle, so the crop of a square render is the whole render.
- Services.ResizeForApi: the 384 x 384 canvas is in points, and the renderer draws it at the screen scale s, so the JPEG the classifier receives is 384·s pixels square (768 or 1152 on current iPhones); the model states only the 384 x 384 point size.
- Services.SquareCropRect: stated over `real`, so the rounding `cropping(to:)` applies to a fractional rectangle is not modelled.
- Float arithmetic: `CGFloat` and `Float` are `real`, so rounding, and a JSON number too large for `Float` being rejected by the decoder, are not modelled.
- JSON text: the JSON parser inside `JSONDecoder`, `Float(String)` and the text of a `DecodingError` are platform functions; only the keyed decoding on a parsed value is modelled.
- Transport and concurrency: `URLSession`, `task.resume()`, the hop to the main queue and the asynchronous completion are replaced by a function from the upload to what its completion receives; `ProcessDiagnosis` runs the completion right away.
- ViewModels.DiagnosisViewModel.ProcessDiagnosis: the `[weak self]` capture is not modelled; a view model released before the completion would be left unchanged, whereas the model always updates it.
- Logging: the `print` calls and the debug decoding of the body as a UTF-8 string have no effect on the result.
- `UUID()` is a parameter (its text); that it is fresh on every call is not modelled.
- The body does not check that the boundary is absent from the image bytes, and neither does the model.
- Divisions: the aspect ratios need a positive height (and `FillSize` a positive width) as preconditions; the app divides by these sizes without checking.
- SwiftUI: layout, `GeometryReader` (the crop size is a parameter; the app uses 0.7 and 0.8 of the smaller screen side), the rendering of the preview (only `ImageCropView`'s fitted placement is modelled, by `CropScreen.FitSize` and `CropScreen.PreviewMatchesCrop`), clipping, the alert binding, `isShowingCamera`, `isCropping`, the welcome and loading views, and the Take Photo, Cancel and Crop buttons' presentation effects (the Take Photo button also sets the view model's `capturedImage` to nil, which is not modelled).
- `CustomCameraView`, `ResultsView` and the Flask `app.py` are not part of this model: the first is camera-session control, the second layout, the third a different server.
