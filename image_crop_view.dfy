/**
  `ImageCropView` (derm_dx/Views/ImageCropView.swift): a crop screen whose
  `@State` scale and offset the gestures update, with a Reset button and a
  Crop button that renders the square.

  Unlike `ContentView`, this screen draws the photo at its own size times
  `scale` (no fill size), and pinching never zooms out below 1.
*/
module CropScreen {
  import opened Wrappers
  import opened Geometry

  /** The rectangle `createCroppedImage` draws the photo into: its own size
      times `scale`, centred on the canvas and then moved by `offset`. */
  function DrawRect(imageSize: Size, offset: Size, scale: real, cropSize: real): (r: Rect)
    ensures r.width == imageSize.width * scale && r.height == imageSize.height * scale
    ensures r.MidX() == cropSize / 2.0 + offset.width
    ensures r.MidY() == cropSize / 2.0 + offset.height
  {
    var drawSize := Size(imageSize.width * scale, imageSize.height * scale);
    Rect((cropSize - drawSize.width) / 2.0 + offset.width, (cropSize - drawSize.height) / 2.0 + offset.height,
         drawSize.width, drawSize.height)
  }

  /** `createCroppedImage`: a `cropSize` square, filled black, with the photo
      drawn into `DrawRect`. */
  function CreateCroppedImage(image: Image, offset: Size, scale: real, cropSize: real): (r: Image)
    ensures SizeOf(r) == Size(cropSize, cropSize)
    ensures r.Rendered? && r.background == Some(Black) && |r.layers| == 1
    ensures r.layers[0].image == image
    ensures r.layers[0].frame == DrawRect(SizeOf(image), offset, scale, cropSize)
  {
    Rendered(Size(cropSize, cropSize), Some(Black), [Layer(image, DrawRect(SizeOf(image), offset, scale, cropSize))])
  }

  /** The size at which the preview shows the photo (`scaledToFit`): the
      photo shrunk or grown, keeping its aspect ratio, until its longer side
      is `cropSize`. */
  function FitSize(imageSize: Size, cropSize: real): (r: Size)
    requires imageSize.width > 0.0 && imageSize.height > 0.0
    requires cropSize > 0.0
    ensures Max(r.width, r.height) == cropSize
    ensures r.width * imageSize.height == r.height * imageSize.width
  {
    var k := cropSize / Max(imageSize.width, imageSize.height);
    assert k * Max(imageSize.width, imageSize.height) == cropSize;
    assert imageSize.width * k * imageSize.height == imageSize.height * k * imageSize.width;
    if imageSize.width >= imageSize.height then
      assert imageSize.height * k <= imageSize.width * k;
      Size(imageSize.width * k, imageSize.height * k)
    else
      assert imageSize.width * k <= imageSize.height * k;
      Size(imageSize.width * k, imageSize.height * k)
  }

  /** The `@State` crop parameters of `ImageCropView`. */
  class ImageCropView {
    var offset: Size
    var scale: real
    var lastOffset: Size
    var lastScale: real

    constructor()
      ensures offset == Zero && scale == 1.0 && lastOffset == Zero && lastScale == 1.0
    {
      offset := Zero;
      scale := 1.0;
      lastOffset := Zero;
      lastScale := 1.0;
    }

    /** `setupInitialScale`: a landscape photo starts at the reciprocal of
        its aspect ratio, so that its width is drawn at its height; any
        other photo keeps the current scale. */
    method SetupInitialScale(imageSize: Size)
      requires imageSize.height > 0.0
      modifies this
      ensures AspectRatio(imageSize) > 1.0 ==>
                scale == lastScale && scale * AspectRatio(imageSize) == 1.0
      ensures AspectRatio(imageSize) <= 1.0 ==> scale == old(scale) && lastScale == old(lastScale)
      ensures offset == old(offset) && lastOffset == old(lastOffset)
    {
      var imageAspect := imageSize.width / imageSize.height;
      if imageAspect > 1.0 {
        scale := 1.0 / imageAspect;
        lastScale := scale;
      }
    }

    /** The Reset button. */
    method Reset()
      modifies this
      ensures offset == Zero && scale == 1.0 && lastOffset == Zero && lastScale == 1.0
    {
      offset := Zero;
      scale := 1.0;
      lastOffset := Zero;
      lastScale := 1.0;
    }

    /** The drag gesture's `onChanged`. */
    method DragChanged(translation: Size)
      modifies this
      ensures offset == Size(lastOffset.width + translation.width, lastOffset.height + translation.height)
      ensures lastOffset == old(lastOffset) && scale == old(scale) && lastScale == old(lastScale)
    {
      offset := Size(lastOffset.width + translation.width, lastOffset.height + translation.height);
    }

    /** The drag gesture's `onEnded`. */
    method DragEnded()
      modifies this
      ensures lastOffset == old(offset) && offset == old(offset)
      ensures scale == old(scale) && lastScale == old(lastScale)
    {
      lastOffset := offset;
    }

    /** The pinch gesture's `onChanged`: the scale at the gesture's start
        times the magnification, but never below 1. */
    method MagnifyChanged(magnification: real)
      modifies this
      ensures scale >= 1.0 && scale >= lastScale * magnification
      ensures scale == 1.0 || scale == lastScale * magnification
      ensures offset == old(offset) && lastOffset == old(lastOffset) && lastScale == old(lastScale)
    {
      scale := Max(1.0, lastScale * magnification);
    }

    /** The pinch gesture's `onEnded`. */
    method MagnifyEnded()
      modifies this
      ensures lastScale == old(scale) && scale == old(scale)
      ensures offset == old(offset) && lastOffset == old(lastOffset)
    {
      lastScale := scale;
    }
  }

  /** With no offset, the photo is drawn centred on the canvas, so any
      uncovered canvas is shared equally between opposite sides. */
  lemma CentredDrawing(imageSize: Size, scale: real, cropSize: real)
    ensures var r := DrawRect(imageSize, Zero, scale, cropSize);
            r.x == cropSize - r.MaxX() && r.y == cropSize - r.MaxY()
  {
  }

  /** A centred photo covers the canvas exactly when its drawn size is at
      least the canvas on both sides. */
  lemma CentredCoverage(imageSize: Size, scale: real, cropSize: real)
    ensures CoversSquare(DrawRect(imageSize, Zero, scale, cropSize), cropSize) <==>
              imageSize.width * scale >= cropSize && imageSize.height * scale >= cropSize
  {
    CoverageByCentre(DrawRect(imageSize, Zero, scale, cropSize), cropSize);
  }

  /** After `setupInitialScale`, a landscape photo is drawn exactly as wide
      as it is high in the source (its width is scaled to its height). */
  lemma LandscapeSetupDrawsHeightWide(imageSize: Size, cropSize: real)
    requires imageSize.height > 0.0 && AspectRatio(imageSize) > 1.0
    ensures var r := DrawRect(imageSize, Zero, 1.0 / AspectRatio(imageSize), cropSize);
            r.width == imageSize.height && r.height * AspectRatio(imageSize) == imageSize.height
  {
    var aspect := AspectRatio(imageSize);
    assert imageSize.width == aspect * imageSize.height;
  }

  /** The crop button renders what the preview shows only for a photo whose
      longer side is already `cropSize`: the preview scales the fitted size,
      the renderer the photo's own size. */
  lemma PreviewMatchesCrop(imageSize: Size, offset: Size, scale: real, cropSize: real)
    requires imageSize.width > 0.0 && imageSize.height > 0.0
    requires cropSize > 0.0 && scale > 0.0
    ensures (DrawRect(FitSize(imageSize, cropSize), offset, scale, cropSize) == DrawRect(imageSize, offset, scale, cropSize))
              <==> Max(imageSize.width, imageSize.height) == cropSize
  {
    var fit := FitSize(imageSize, cropSize);
    var longer := Max(imageSize.width, imageSize.height);
    if fit == imageSize {
      assert longer == cropSize;
    }
    if DrawRect(fit, offset, scale, cropSize) == DrawRect(imageSize, offset, scale, cropSize) {
      assert fit.width * scale == imageSize.width * scale;
      assert fit.height * scale == imageSize.height * scale;
      assert fit.width == imageSize.width;
      assert fit.height == imageSize.height;
    }
  }
}
