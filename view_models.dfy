/**
  `DiagnosisViewModel` (derm_dx/ViewModels/DiagnosisViewModel.swift): the
  published state the screens observe while a photo is analysed.

  `processDiagnosis` sets the loading state at once and finishes when the
  service's completion runs on the main queue; here the two halves are
  `Begin` and `Complete`, and `ProcessDiagnosis` runs them around the
  service call.
*/
module ViewModels {
  import opened Wrappers
  import opened Geometry
  import opened Models
  import Services

  class DiagnosisViewModel {
    var capturedImage: Option<Image>
    var diagnosisResult: Option<DiagnosisResponse>
    var isLoading: bool
    var errorMessage: Option<string>

    /** Nothing captured, nothing loading, nothing to show. */
    constructor()
      ensures capturedImage == None && diagnosisResult == None
      ensures !isLoading && errorMessage == None
    {
      capturedImage := None;
      diagnosisResult := None;
      isLoading := false;
      errorMessage := None;
    }

    /** The screen never has both a result and an error alert to show. */
    predicate ShowsAtMostOne()
      reads this
    {
      diagnosisResult.None? || errorMessage.None?
    }

    /** The synchronous part of `processDiagnosis`: remember the photo, show
        the loading view and clear the previous outcome. */
    method Begin(image: Image)
      modifies this
      ensures capturedImage == Some(image) && isLoading
      ensures diagnosisResult == None && errorMessage == None
    {
      capturedImage := Some(image);
      isLoading := true;
      diagnosisResult := None;
      errorMessage := None;
    }

    /** The completion of `processDiagnosis`: stop loading, then publish the
        response or the error's description; the rest stays as it was. */
    method Complete(result: Result<DiagnosisResponse, Services.Error>, platform: Services.Platform)
      modifies this
      ensures !isLoading
      ensures capturedImage == old(capturedImage)
      ensures result.Success? ==>
                diagnosisResult == Some(result.value) && errorMessage == old(errorMessage)
      ensures result.Failure? ==>
                && errorMessage == Some(Services.ErrorDescription(result.error, platform))
                && diagnosisResult == old(diagnosisResult)
    {
      isLoading := false;
      match result
      case Success(response) =>
        diagnosisResult := Some(response);
      case Failure(error) =>
        errorMessage := Some(Services.ErrorDescription(error, platform));
    }

    /** `processDiagnosis`, with the service's completion already delivered:
        the photo stays captured, loading is over, and exactly the outcome of
        the service is shown. */
    method ProcessDiagnosis(image: Image, uuid: string, platform: Services.Platform,
                            transport: Services.Upload -> Services.TaskOutcome)
      modifies this
      ensures capturedImage == Some(image) && !isLoading
      ensures ShowsAtMostOne()
      ensures diagnosisResult == ShownResult(Services.ServiceResult(image, uuid, platform, transport))
      ensures errorMessage == ShownError(Services.ServiceResult(image, uuid, platform, transport), platform)
    {
      Begin(image);
      var _, result := Services.GetDiagnosis(image, uuid, platform, transport);
      Complete(result, platform);
    }

    /** `reset`: forget the photo and its outcome; `isLoading` is untouched. */
    method Reset()
      modifies this
      ensures capturedImage == None && diagnosisResult == None && errorMessage == None
      ensures isLoading == old(isLoading)
    {
      capturedImage := None;
      diagnosisResult := None;
      errorMessage := None;
    }
  }

  /** The response a finished analysis shows, if it succeeded. */
  function ShownResult(result: Result<DiagnosisResponse, Services.Error>): Option<DiagnosisResponse> {
    if result.Success? then Some(result.value) else None
  }

  /** The alert text a finished analysis shows, if it failed. */
  function ShownError(result: Result<DiagnosisResponse, Services.Error>, platform: Services.Platform): Option<string> {
    if result.Failure? then Some(Services.ErrorDescription(result.error, platform)) else None
  }

  /** The alert texts of the service's own failures: code 1 when no JPEG
      could be made, the transport error's description when the upload
      failed, code 2 when the upload returned no body. */
  lemma AlertTexts(image: Image, uuid: string, platform: Services.Platform,
                   transport: Services.Upload -> Services.TaskOutcome)
    ensures Services.PrepareImageForApi(image, platform).None? ==>
              ShownError(Services.ServiceResult(image, uuid, platform, transport), platform) == Some("Failed to prepare image")
    ensures Services.PrepareImageForApi(image, platform).Some? ==>
              var jpeg := Services.PrepareImageForApi(image, platform).value;
              var boundary := Services.Boundary(uuid);
              var outcome := transport(Services.Upload(Services.RequestFor(boundary), Services.FormBody(jpeg, boundary)));
              && (outcome.error.Some? ==>
                    ShownError(Services.ServiceResult(image, uuid, platform, transport), platform) == Some(outcome.error.value.description))
              && (outcome.error.None? && outcome.data.None? ==>
                    ShownError(Services.ServiceResult(image, uuid, platform, transport), platform) == Some("No data received"))
  {
  }
}
