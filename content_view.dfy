/**
  The crop screen of `ContentView` (derm_dx/ContentView.swift): the `@State`
  crop parameters that the drag and pinch gestures update, the scale a new
  photo starts at, and the square image the Analyze button renders and hands
  to the view model.

  The preview draws the photo `scaledToFill` into the crop square, then
  applies `cropScale` and `cropOffset`; `createCroppedImage` repeats that
  placement on a black `cropSize x cropSize` canvas.
*/
module ContentScreen {
  import opened Wrappers
  import opened Geometry
  import ViewModels
  import Services

  /** The minimum scale `calculateInitialScale` allows: 1 for a portrait
      photo, the reciprocal of the aspect ratio otherwise. */
  function MinScale(imageSize: Size): (s: real)
    requires imageSize.height > 0.0
    ensures 0.0 < s <= 1.0
    ensures AspectRatio(imageSize) < 1.0 ==> s == 1.0
    ensures AspectRatio(imageSize) >= 1.0 ==> s * AspectRatio(imageSize) == 1.0
  {
    var aspect := AspectRatio(imageSize);
    if aspect < 1.0 then 1.0 else 1.0 / aspect
  }

  /** The size at which the photo, keeping its aspect ratio, fills a
      `cropSize` square: its shorter side is exactly `cropSize`. */
  function FillSize(imageSize: Size, cropSize: real): (r: Size)
    requires imageSize.width > 0.0 && imageSize.height > 0.0
    ensures r.width * imageSize.height == r.height * imageSize.width
    ensures cropSize >= 0.0 ==> r.width >= cropSize && r.height >= cropSize
    ensures r.width == cropSize || r.height == cropSize
  {
    var aspect := AspectRatio(imageSize);
    if aspect < 1.0 then
      var h := cropSize / aspect;
      assert h * aspect == cropSize;
      Size(cropSize, h)
    else
      Size(cropSize * aspect, cropSize)
  }

  /** The rectangle the photo is drawn into: the fill size times `scale`,
      centred on the canvas and then moved by `offset`. */
  function DrawRect(imageSize: Size, offset: Size, scale: real, cropSize: real): (r: Rect)
    requires imageSize.width > 0.0 && imageSize.height > 0.0
    ensures r.width == FillSize(imageSize, cropSize).width * scale
    ensures r.height == FillSize(imageSize, cropSize).height * scale
    ensures r.MidX() == cropSize / 2.0 + offset.width
    ensures r.MidY() == cropSize / 2.0 + offset.height
  {
    var fill := FillSize(imageSize, cropSize);
    var drawWidth := fill.width * scale;
    var drawHeight := fill.height * scale;
    Rect(cropSize / 2.0 - drawWidth / 2.0 + offset.width, cropSize / 2.0 - drawHeight / 2.0 + offset.height,
         drawWidth, drawHeight)
  }

  /** `createCroppedImage`: a `cropSize` square, filled black, with the photo
      drawn into `DrawRect`. The renderer always yields an image, so the
      Analyze button's fallback to the uncropped photo is never taken. */
  function CreateCroppedImage(image: Image, offset: Size, scale: real, cropSize: real): (r: Image)
    requires SizeOf(image).width > 0.0 && SizeOf(image).height > 0.0
    ensures SizeOf(r) == Size(cropSize, cropSize)
    ensures r.Rendered? && r.background == Some(Black) && |r.layers| == 1
    ensures r.layers[0].image == image
    ensures r.layers[0].frame == DrawRect(SizeOf(image), offset, scale, cropSize)
  {
    Rendered(Size(cropSize, cropSize), Some(Black), [Layer(image, DrawRect(SizeOf(image), offset, scale, cropSize))])
  }

  /** The `@State` crop parameters of `ContentView`. */
  class ContentView {
    var cropOffset: Size
    var cropScale: real
    var lastOffset: Size
    var lastScale: real
    var initialImageSize: Size
    var minScale: real

    /** The pinch gesture never takes the scale below the minimum, and the
        minimum never exceeds 1. */
    predicate Valid()
      reads this
    {
      0.0 < minScale <= 1.0 && minScale <= cropScale && minScale <= lastScale
    }

    constructor()
      ensures Valid()
      ensures cropOffset == Zero && cropScale == 1.0 && lastOffset == Zero && lastScale == 1.0
      ensures initialImageSize == Zero && minScale == 1.0
    {
      cropOffset := Zero;
      cropScale := 1.0;
      lastOffset := Zero;
      lastScale := 1.0;
      initialImageSize := Zero;
      minScale := 1.0;
    }

    /** `resetCropState`: no offset, scale 1; the minimum is kept. */
    method ResetCropState()
      modifies this
      ensures cropOffset == Zero && cropScale == 1.0 && lastOffset == Zero && lastScale == 1.0
      ensures initialImageSize == old(initialImageSize) && minScale == old(minScale)
      ensures old(0.0 < minScale <= 1.0) ==> Valid()
    {
      cropOffset := Zero;
      cropScale := 1.0;
      lastOffset := Zero;
      lastScale := 1.0;
    }

    /** `calculateInitialScale` (also the Reset Crop button): remember the
        photo's size, reset the crop and start at the minimum scale. */
    method CalculateInitialScale(imageSize: Size)
      requires imageSize.height > 0.0
      modifies this
      ensures Valid()
      ensures initialImageSize == imageSize && minScale == MinScale(imageSize)
      ensures cropScale == minScale && lastScale == minScale
      ensures cropOffset == Zero && lastOffset == Zero
    {
      var imageAspect := imageSize.width / imageSize.height;
      initialImageSize := imageSize;
      ResetCropState();
      if imageAspect < 1.0 {
        minScale := 1.0;
      } else {
        minScale := 1.0 / imageAspect;
      }
      cropScale := minScale;
      lastScale := cropScale;
    }

    /** The drag gesture's `onChanged`: the offset at the gesture's start
        plus the translation so far. */
    method DragChanged(translation: Size)
      requires Valid()
      modifies this
      ensures Valid()
      ensures cropOffset == Size(lastOffset.width + translation.width, lastOffset.height + translation.height)
      ensures lastOffset == old(lastOffset) && cropScale == old(cropScale) && lastScale == old(lastScale)
      ensures initialImageSize == old(initialImageSize) && minScale == old(minScale)
    {
      cropOffset := Size(lastOffset.width + translation.width, lastOffset.height + translation.height);
    }

    /** The drag gesture's `onEnded`. */
    method DragEnded()
      requires Valid()
      modifies this
      ensures Valid()
      ensures lastOffset == old(cropOffset) && cropOffset == old(cropOffset)
      ensures cropScale == old(cropScale) && lastScale == old(lastScale)
      ensures initialImageSize == old(initialImageSize) && minScale == old(minScale)
    {
      lastOffset := cropOffset;
    }

    /** The pinch gesture's `onChanged`: the scale at the gesture's start
        times the magnification, but never below the minimum. */
    method MagnifyChanged(magnification: real)
      requires Valid()
      modifies this
      ensures Valid()
      ensures cropScale >= lastScale * magnification && cropScale >= minScale
      ensures cropScale == lastScale * magnification || cropScale == minScale
      ensures cropOffset == old(cropOffset) && lastOffset == old(lastOffset) && lastScale == old(lastScale)
      ensures initialImageSize == old(initialImageSize) && minScale == old(minScale)
    {
      var newScale := lastScale * magnification;
      cropScale := Max(minScale, newScale);
    }

    /** The pinch gesture's `onEnded`. */
    method MagnifyEnded()
      requires Valid()
      modifies this
      ensures Valid()
      ensures lastScale == old(cropScale) && cropScale == old(cropScale)
      ensures cropOffset == old(cropOffset) && lastOffset == old(lastOffset)
      ensures initialImageSize == old(initialImageSize) && minScale == old(minScale)
    {
      lastScale := cropScale;
    }

    /** The Retake button: the view model forgets the photo and the crop is
        reset (presenting the camera is not modelled). */
    method Retake(viewModel: ViewModels.DiagnosisViewModel)
      requires Valid()
      modifies this, viewModel
      ensures Valid()
      ensures viewModel.capturedImage == None && viewModel.diagnosisResult == None
      ensures viewModel.errorMessage == None && viewModel.isLoading == old(viewModel.isLoading)
      ensures cropOffset == Zero && cropScale == 1.0 && lastOffset == Zero && lastScale == 1.0
      ensures initialImageSize == old(initialImageSize) && minScale == old(minScale)
    {
      viewModel.Reset();
      ResetCropState();
    }

    /** The Analyze button: render the crop as the preview shows it and
        analyse that image. */
    method Analyze(image: Image, cropSize: real, viewModel: ViewModels.DiagnosisViewModel, uuid: string,
                   platform: Services.Platform, transport: Services.Upload -> Services.TaskOutcome)
      requires SizeOf(image).width > 0.0 && SizeOf(image).height > 0.0
      modifies viewModel
      ensures var cropped := CreateCroppedImage(image, cropOffset, cropScale, cropSize);
              var result := Services.ServiceResult(cropped, uuid, platform, transport);
              && viewModel.capturedImage == Some(cropped)
              && !viewModel.isLoading
              && viewModel.diagnosisResult == ViewModels.ShownResult(result)
              && viewModel.errorMessage == ViewModels.ShownError(result, platform)
    {
      var croppedImage := CreateCroppedImage(image, cropOffset, cropScale, cropSize);
      viewModel.ProcessDiagnosis(croppedImage, uuid, platform, transport);
    }
  }

  /** The drawn photo covers the whole canvas exactly when the offset, on
      each axis, is no larger than half of what the drawn photo overhangs. */
  lemma CoverageByOffset(imageSize: Size, offset: Size, scale: real, cropSize: real)
    requires imageSize.width > 0.0 && imageSize.height > 0.0
    ensures var r := DrawRect(imageSize, offset, scale, cropSize);
            CoversSquare(r, cropSize) <==>
              Abs(offset.width) <= (r.width - cropSize) / 2.0 && Abs(offset.height) <= (r.height - cropSize) / 2.0
  {
    CoverageByCentre(DrawRect(imageSize, offset, scale, cropSize), cropSize);
  }

  /** A centred photo covers the canvas exactly when it is not zoomed out
      below its fill size. */
  lemma CentredCoverage(imageSize: Size, scale: real, cropSize: real)
    requires imageSize.width > 0.0 && imageSize.height > 0.0
    requires cropSize > 0.0
    ensures CoversSquare(DrawRect(imageSize, Zero, scale, cropSize), cropSize) <==> scale >= 1.0
  {
    var fill := FillSize(imageSize, cropSize);
    var r := DrawRect(imageSize, Zero, scale, cropSize);
    CoverageByOffset(imageSize, Zero, scale, cropSize);
    assert CoversSquare(r, cropSize) <==> r.width >= cropSize && r.height >= cropSize;
    ScaledFillCovers(fill.width, fill.height, scale, cropSize);
  }

  /** A rectangle whose shorter side is `side`, scaled by `scale`, is at
      least `side` on both sides exactly when `scale` is at least 1. */
  lemma ScaledFillCovers(width: real, height: real, scale: real, side: real)
    requires side > 0.0 && width >= side && height >= side
    requires width == side || height == side
    ensures width * scale >= side && height * scale >= side <==> scale >= 1.0
  {
    if scale >= 1.0 {
      assert width * scale - width == width * (scale - 1.0) >= 0.0;
      assert height * scale - height == height * (scale - 1.0) >= 0.0;
      assert width * scale >= side && height * scale >= side;
    } else {
      assert side - side * scale == side * (1.0 - scale) > 0.0;
      if width == side {
        assert width * scale < side;
      } else {
        assert height * scale < side;
      }
    }
  }

  /** The crop a new photo starts with covers the canvas exactly when the
      photo is not landscape. */
  lemma InitialCropCoverage(imageSize: Size, cropSize: real)
    requires imageSize.width > 0.0 && imageSize.height > 0.0
    requires cropSize > 0.0
    ensures CoversSquare(DrawRect(imageSize, Zero, MinScale(imageSize), cropSize), cropSize) <==>
              AspectRatio(imageSize) <= 1.0
  {
    var aspect := AspectRatio(imageSize);
    CentredCoverage(imageSize, MinScale(imageSize), cropSize);
    if aspect > 1.0 {
      assert MinScale(imageSize) < 1.0;
    }
  }

  /** For a landscape photo the initial crop spans the canvas's width but
      leaves black bands above and below it. */
  lemma LandscapeInitialCropBands(imageSize: Size, cropSize: real)
    requires imageSize.width > 0.0 && imageSize.height > 0.0
    requires AspectRatio(imageSize) > 1.0
    requires cropSize > 0.0
    ensures var r := DrawRect(imageSize, Zero, MinScale(imageSize), cropSize);
            && r.x == 0.0 && r.width == cropSize
            && r.height < cropSize && r.y == (cropSize - r.height) / 2.0 && r.y > 0.0
  {
    var aspect := AspectRatio(imageSize);
    var s := MinScale(imageSize);
    var fill := FillSize(imageSize, cropSize);
    assert fill == Size(cropSize * aspect, cropSize);
    assert fill.width * s == cropSize * (aspect * s);
    assert cropSize * s < cropSize;
  }
}
