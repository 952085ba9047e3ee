/** Client-side down-scaling of the user's photo (utils/image.ts): the target
    canvas size, and how the re-encoded file is assembled or rejected. Pixel
    drawing and the image codecs belong to the browser and appear here only
    as inputs. */
module ImageUtil {
  import opened Js

  type Bytes = seq<bv8>

  /** `r` is `Math.round(p / q)` for q > 0: the integer nearest to p / q,
      with halves rounded up (r - 1/2 <= p/q < r + 1/2). */
  predicate IsRoundOf(r: int, p: int, q: int) {
    q > 0 && 2 * r * q - q <= 2 * p < 2 * r * q + q
  }

  /** A multiple of a positive q that stays below q is a multiple by less than one. */
  lemma FactorBelowOne(x: int, q: int)
    requires q > 0 && x * q < q
    ensures x < 1
  {
  }

  /** Multiplying by a non-negative factor keeps an inequality. */
  lemma MulMonotone(a: int, b: int, c: nat)
    requires a <= b
    ensures a * c <= b * c
  {
  }

  /** At most one integer is the rounding of p / q. */
  lemma RoundOfUnique(a: int, b: int, p: int, q: int)
    requires IsRoundOf(a, p, q) && IsRoundOf(b, p, q)
    ensures a == b
  {
    assert 2 * (a - b) * q < 2 * q;
    assert 2 * (b - a) * q < 2 * q;
    FactorBelowOne(2 * (a - b), q);
    FactorBelowOne(2 * (b - a), q);
  }

  /** `Math.round(p / q)` for non-negative p and positive q, in integers. */
  function RoundDiv(p: nat, q: nat): (r: nat)
    requires q > 0
    ensures IsRoundOf(r, p, q)
  {
    var r := (2 * p + q) / (2 * q);
    assert 2 * q * r <= 2 * p + q < 2 * q * r + 2 * q;
    r
  }

  /** Rounding p / q cannot exceed k when p <= k * q. */
  lemma RoundDivAtMost(p: nat, q: nat, k: nat)
    requires q > 0 && p <= k * q
    ensures RoundDiv(p, q) <= k
  {
    var r := RoundDiv(p, q);
    assert 2 * r * q - q <= 2 * p <= 2 * (k * q);
    assert 2 * ((r - k) * q) <= q;
    FactorBelowOne(r - k, q);
  }

  datatype Size = Size(width: nat, height: nat)

  /** The canvas size `resizeImage` picks for an image of `width` x `height`
      (utils/image.ts lines 16-28). The strictly longer side (the height for a
      square image) is brought down to its own bound and the other side is
      scaled by the same factor and rounded; nothing is ever scaled up. The
      other side is never compared with its own bound. */
  function TargetSize(width: nat, height: nat, maxWidth: nat, maxHeight: nat): (r: Size)
    ensures width > height && width > maxWidth ==>
              r.width == maxWidth && IsRoundOf(r.height, height * maxWidth, width)
    ensures width <= height && height > maxHeight ==>
              r.height == maxHeight && IsRoundOf(r.width, width * maxHeight, height)
    ensures (width > height && width <= maxWidth) || (width <= height && height <= maxHeight) ==>
              r == Size(width, height)
    ensures r.width <= width && r.height <= height
  {
    if width > height then
      if width > maxWidth then
        RoundDivAtMost(height * maxWidth, width, height);
        Size(maxWidth, RoundDiv(height * maxWidth, width))
      else Size(width, height)
    else
      if height > maxHeight then
        RoundDivAtMost(width * maxHeight, height, width);
        Size(RoundDiv(width * maxHeight, height), maxHeight)
      else Size(width, height)
  }

  /** With a square bound, as the upload handler uses (1024 x 1024), both
      sides of the result fit the bound, and the longer side keeps its role. */
  lemma SquareBoundFits(width: nat, height: nat, bound: nat)
    ensures TargetSize(width, height, bound, bound).width <= bound
    ensures TargetSize(width, height, bound, bound).height <= bound
    ensures width > height ==>
              TargetSize(width, height, bound, bound).height <= TargetSize(width, height, bound, bound).width
  {
    if width > height && width > bound {
      MulMonotone(height, width, bound);
      RoundDivAtMost(height * bound, width, bound);
    } else if width <= height && height > bound {
      MulMonotone(width, height, bound);
      RoundDivAtMost(width * bound, height, bound);
    }
  }

  /** A 2000 x 1000 photo bounded by 1024 x 1024 becomes 1024 x 512. */
  lemma LandscapeExample()
    ensures TargetSize(2000, 1000, 1024, 1024) == Size(1024, 512)
  {
  }

  /** With unequal bounds the shorter side can stay above its own bound:
      a 300 x 200 image bounded by 1000 x 100 is left at 300 x 200. */
  lemma UnequalBoundExample()
    ensures TargetSize(300, 200, 1000, 100) == Size(300, 200)
  {
  }

  /** A browser `File`. */
  datatype File = File(name: string, mimeType: string, lastModified: int, contents: Bytes)

  /** How loading the file into an `<img>` ended: its size, or `onerror`. */
  datatype ImageLoad = Loaded(width: nat, height: nat) | LoadFailed

  /** The arguments of `canvas.toBlob`: the canvas size, the type and the quality. */
  datatype EncodeRequest = EncodeRequest(size: Size, mimeType: string, quality: real)

  const EncodeQuality: real := 0.9
  const NoContextMessage := "Could not get canvas context"
  const BlobFailedMessage := "Canvas to Blob conversion failed"

  /** `resizeImage(file, maxWidth, maxHeight)`. The browser is supplied as
      inputs: `image` is how loading the file ended, `hasContext` whether the
      canvas hands out a 2D context, `toBlob` the blob the canvas produces for
      a request (None for a null blob) and `now` the value of `Date.now()`. */
  function ResizeImage(file: File, maxWidth: nat, maxHeight: nat, image: ImageLoad,
                       hasContext: bool, toBlob: EncodeRequest -> Option<Bytes>, now: int): (r: Outcome<File>)
    // a failed load rejects with the DOM event, which is not an Error
    ensures image.LoadFailed? ==> r == Rejected(NonError)
    ensures image.Loaded? && !hasContext ==> r == Rejected(ErrorObject(NoContextMessage))
    ensures image.Loaded? && hasContext ==>
              var request := EncodeRequest(TargetSize(image.width, image.height, maxWidth, maxHeight),
                                           file.mimeType, EncodeQuality);
              && (r.Resolved? <==> toBlob(request).Some?)
              && (r.Rejected? ==> r.reason == ErrorObject(BlobFailedMessage))
              && (r.Resolved? ==> r.value.contents == toBlob(request).value)
    // the new file keeps the name and the type, and is stamped with the current time
    ensures r.Resolved? ==> r.value.name == file.name && r.value.mimeType == file.mimeType
                            && r.value.lastModified == now
  {
    match image
    case LoadFailed => Rejected(NonError)
    case Loaded(width, height) =>
      var size := TargetSize(width, height, maxWidth, maxHeight);
      if !hasContext then Rejected(ErrorObject(NoContextMessage))
      else
        match toBlob(EncodeRequest(size, file.mimeType, EncodeQuality))
        case None => Rejected(ErrorObject(BlobFailedMessage))
        case Some(blob) => Resolved(File(file.name, file.mimeType, now, blob))
  }

  /** With a square bound, a resized file is always the canvas's answer to a
      request that fits the bound, in the input's type at quality 0.9, and only
      a loaded image with a 2D context gets that far. */
  lemma ResizeWithinSquareBound(file: File, bound: nat, image: ImageLoad, hasContext: bool,
                                toBlob: EncodeRequest -> Option<Bytes>, now: int)
    ensures var r := ResizeImage(file, bound, bound, image, hasContext, toBlob, now);
            r.Resolved? ==>
              && image.Loaded? && hasContext
              && var request := EncodeRequest(TargetSize(image.width, image.height, bound, bound),
                                              file.mimeType, EncodeQuality);
                 && request.size.width <= bound && request.size.height <= bound
                 && toBlob(request) == Some(r.value.contents)
  {
    if image.Loaded? {
      SquareBoundFits(image.width, image.height, bound);
    }
  }
}
