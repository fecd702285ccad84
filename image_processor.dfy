/** The upload check run before classification: an ordered chain of
    resolution, aspect-ratio and colour-mode tests over the image's size
    and mode, the first matching test deciding the verdict. */
module ImageProcessor {

  /** What the check reads from a PIL image: its size and its mode. */
  datatype ImageInfo = ImageInfo(width: nat, height: nat, mode: string)

  /** The `{'is_valid': ..., 'message': ...}` dictionary. */
  datatype Validation = Validation(isValid: bool, message: string)

  const LowResolution := "Image resolution too low. Please upload a higher quality image."
  const WillUpscale := "Image will be upscaled for analysis. Consider using higher resolution images for better results."
  const UnusualAspect := "Unusual aspect ratio detected. Ensure the image shows a complete chest X-ray."
  const Grayscale := "Grayscale X-ray image detected - suitable for analysis."
  const Color := "Color image detected - will be processed for analysis."
  const Suitable := "Image appears suitable for medical analysis."

  /** `width / height < 0.5 or width / height > 2.0`, stated without the
      division; only reached once the height is at least 100. */
  predicate UnusualAspectRatio(width: nat, height: nat)
    requires height > 0
  {
    2 * width < height || width > 2 * height
  }

  /** `validate_image`. */
  function ValidateImage(img: ImageInfo): (r: Validation)
    ensures !r.isValid <==> img.width < 100 || img.height < 100
    ensures !r.isValid ==> r.message == LowResolution
    ensures r.message == WillUpscale <==>
      r.isValid && img.width < 224 && img.height < 224
    ensures r.message == UnusualAspect <==>
      r.isValid && !(img.width < 224 && img.height < 224)
      && (2 * img.width < img.height || img.width > 2 * img.height)
    ensures r.message in {Grayscale, Color, Suitable} <==>
      r.isValid && !(img.width < 224 && img.height < 224)
      && !(2 * img.width < img.height || img.width > 2 * img.height)
    ensures r.message == Grayscale ==> img.mode == "L"
    ensures r.message == Color ==> img.mode == "RGB"
  {
    if img.width < 100 || img.height < 100 then Validation(false, LowResolution)
    else if img.width < 224 && img.height < 224 then Validation(true, WillUpscale)
    else if UnusualAspectRatio(img.width, img.height) then Validation(true, UnusualAspect)
    else if img.mode == "L" then Validation(true, Grayscale)
    else if img.mode == "RGB" then Validation(true, Color)
    else Validation(true, Suitable)
  }

  /** Once size and aspect pass, the mode alone picks the message: "L"
      and "RGB" have their own, every other mode the generic one. */
  lemma ModeMessages(img: ImageInfo)
    requires img.width >= 100 && img.height >= 100
    requires !(img.width < 224 && img.height < 224)
    requires !UnusualAspectRatio(img.width, img.height)
    ensures ValidateImage(img).message ==
      (if img.mode == "L" then Grayscale else if img.mode == "RGB" then Color else Suitable)
  {
  }

  /** The integer form of the aspect test agrees with the division the
      source performs, on exact rationals. */
  lemma AspectRatioAsDivision(width: nat, height: nat)
    requires height > 0
    ensures UnusualAspectRatio(width, height) <==>
      (width as real) / (height as real) < 0.5 || (width as real) / (height as real) > 2.0
  {
    var w, h := width as real, height as real;
    DivisionOrder(w, h, 0.5);
    DivisionOrder(w, h, 2.0);
    assert (2 * width < height) <==> w < 0.5 * h;
    assert (width > 2 * height) <==> w > 2.0 * h;
  }

  /** Comparing a quotient with a constant is comparing the dividend with
      the constant times the (positive) divisor. */
  lemma DivisionOrder(w: real, h: real, c: real)
    requires h > 0.0
    ensures w / h < c <==> w < c * h
    ensures w / h > c <==> w > c * h
  {
    var q := w / h;
    assert w == q * h;
    if q < c {
      assert (c - q) * h > 0.0;
    } else {
      assert (q - c) * h >= 0.0;
    }
    if q > c {
      assert (q - c) * h > 0.0;
    } else {
      assert (c - q) * h >= 0.0;
    }
  }

  /** Enlarging an accepted image never makes it rejected: acceptance
      depends only on both sides reaching 100 pixels. */
  lemma ValidityMonotone(img: ImageInfo, bigger: ImageInfo)
    requires ValidateImage(img).isValid
    requires bigger.width >= img.width && bigger.height >= img.height
    ensures ValidateImage(bigger).isValid
  {
  }

  /** The first matching test wins: a 150 by 150 grayscale image is told it
      will be upscaled, not that it is a grayscale X-ray, and a 1000 by 300
      grayscale image is flagged for its aspect ratio. */
  lemma FirstMatchWins()
    ensures ValidateImage(ImageInfo(150, 150, "L")) == Validation(true, WillUpscale)
    ensures ValidateImage(ImageInfo(1000, 300, "L")) == Validation(true, UnusualAspect)
    ensures ValidateImage(ImageInfo(224, 224, "L")) == Validation(true, Grayscale)
    ensures ValidateImage(ImageInfo(99, 4000, "RGB")) == Validation(false, LowResolution)
  {
  }
}
