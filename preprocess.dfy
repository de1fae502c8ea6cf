/** `OCRThread.preprocess_image`: a memory guard on the number of samples,
    then a reduction of a three-dimensional (colour) image to one channel.
    The colour-to-gray conversion itself belongs to the image library and
    is a parameter here; it may raise, and its error then propagates. */
module Preprocess {
  import opened Results

  /** A decoded image as the numpy array holding it: its shape
      (height, width[, channels]) and its samples in row-major order. */
  datatype Image = Image(shape: seq<nat>, samples: seq<int>)

  /** numpy's `ndarray.size`: the product of the dimensions. */
  function ElementCount(shape: seq<nat>): nat {
    if shape == [] then 1 else shape[0] * ElementCount(shape[1..])
  }

  /** The guard's bound, `1e8` samples. */
  const MaxElements: nat := 100_000_000

  const TooLarge: string := "Image too large to process"

  /** A conversion that succeeds maps a three-dimensional image to a
      two-dimensional one of the same height and width. */
  ghost predicate ConvertsToGray(toGray: Image -> Result<Image>) {
    forall img: Image :: |img.shape| == 3 && toGray(img).Ok? ==> toGray(img).value.shape == img.shape[..2]
  }

  /** Fails when the image is too large or when the conversion of a colour
      image raises (the error is logged and re-raised unchanged); otherwise
      a colour image is converted and any other is returned as it is. */
  function PreprocessImage(image: Image, toGray: Image -> Result<Image>): (r: Result<Image>)
    ensures r.Err? <==> ElementCount(image.shape) > MaxElements || (|image.shape| == 3 && toGray(image).Err?)
    ensures ElementCount(image.shape) > MaxElements ==> r.message == TooLarge
    ensures r.Ok? && |image.shape| != 3 ==> r.value == image
    ensures |image.shape| == 3 && ElementCount(image.shape) <= MaxElements ==> r == toGray(image)
  {
    if ElementCount(image.shape) > MaxElements then Err(TooLarge)
    else if |image.shape| == 3 then toGray(image)
    else Ok(image)
  }

  /** The guard comes before any conversion: for an image over the bound
      the outcome does not depend on the conversion, not even on whether it
      would raise. */
  lemma SizeGuard(image: Image, toGray: Image -> Result<Image>, other: Image -> Result<Image>)
    requires ElementCount(image.shape) > MaxElements
    ensures PreprocessImage(image, toGray) == PreprocessImage(image, other)
  {
  }

  /** The bound itself is accepted; one sample more is not. */
  lemma SizeGuardBoundary(toGray: Image -> Result<Image>, samples: seq<int>)
    ensures PreprocessImage(Image([10000, 10000], samples), toGray).Ok?
    ensures PreprocessImage(Image([MaxElements + 1], samples), toGray) == Err(TooLarge)
    ensures PreprocessImage(Image([10000, 10000, 3], samples), toGray) == Err(TooLarge)
  {
    assert [MaxElements + 1][1..] == [];
  }

  /** For a two- or three-dimensional input the output is two-dimensional,
      with the input's height and width. */
  lemma OutputIsTwoDimensional(image: Image, toGray: Image -> Result<Image>)
    requires ConvertsToGray(toGray)
    requires |image.shape| == 2 || |image.shape| == 3
    ensures PreprocessImage(image, toGray).Ok? ==>
      PreprocessImage(image, toGray).value.shape == image.shape[..2]
  {
  }
}
