/** Image-fit geometry of the meme generator: how a loaded image is scaled
    and placed on the canvas before the captions are drawn over it.
    All quantities are exact reals; the browser's binary floating point is
    not modelled. */
module Fit {

  /** Where and how large the image is drawn: the size after scaling and
      the canvas coordinates of the image's top-left corner. */
  datatype Placement = Placement(width: real, height: real, startX: real, startY: real)

  /** Every side length is a positive number. The script does no check. On a
      zero or negative side it still returns a rectangle, which may have
      zero, negative or NaN sizes or lie outside the canvas; this model
      describes none of these inputs. */
  predicate PositiveSizes(canvasWidth: real, canvasHeight: real, imageWidth: real, imageHeight: real)
  {
    canvasWidth > 0.0 && canvasHeight > 0.0 && imageWidth > 0.0 && imageHeight > 0.0
  }

  /** The drawn rectangle lies within the canvas. */
  predicate InsideCanvas(p: Placement, canvasWidth: real, canvasHeight: real)
  {
    0.0 <= p.startX && 0.0 <= p.startY &&
    p.startX + p.width <= canvasWidth && p.startY + p.height <= canvasHeight
  }

  /** The drawn rectangle has the proportions of the image. */
  predicate KeepsAspectRatio(p: Placement, imageWidth: real, imageHeight: real)
  {
    p.width * imageHeight == p.height * imageWidth
  }

  /** The centre of the drawn rectangle is the centre of the canvas. */
  predicate Centred(p: Placement, canvasWidth: real, canvasHeight: real)
  {
    p.startX + p.width / 2.0 == canvasWidth / 2.0 &&
    p.startY + p.height / 2.0 == canvasHeight / 2.0
  }

  /** Multiplying by a positive number keeps the sign. */
  lemma SignOfProduct(x: real, y: real)
    requires y > 0.0
    ensures x < 0.0 <==> x * y < 0.0
  {
    if x < 0.0 {
      assert -x * y > 0.0;
    } else {
      assert x * y >= 0.0;
    }
  }

  /** The script's portrait test, width over height below 1, holds exactly
      when the image is narrower than it is tall. */
  lemma RatioBelowOneIffTaller(imageWidth: real, imageHeight: real)
    requires imageWidth > 0.0 && imageHeight > 0.0
    ensures imageWidth / imageHeight < 1.0 <==> imageWidth < imageHeight
  {
    var quotient := imageWidth / imageHeight;
    assert imageWidth - imageHeight == (quotient - 1.0) * imageHeight;
    SignOfProduct(quotient - 1.0, imageHeight);
  }

  /** The script's getDimmensions (name kept with its spelling). A portrait
      image (ratio below 1) fills the canvas height and is centred
      horizontally; any other image, a square one included, fills the
      canvas width and is centred vertically. */
  function GetDimmensions(canvasWidth: real, canvasHeight: real, imageWidth: real, imageHeight: real): (p: Placement)
    requires PositiveSizes(canvasWidth, canvasHeight, imageWidth, imageHeight)
    ensures p.width > 0.0 && p.height > 0.0
    ensures KeepsAspectRatio(p, imageWidth, imageHeight)
    ensures Centred(p, canvasWidth, canvasHeight)
    ensures p.width == canvasWidth || p.height == canvasHeight
  {
    var aspectRatio := imageWidth / imageHeight;
    if aspectRatio < 1.0 then
      var width := canvasHeight * aspectRatio;
      Placement(width, canvasHeight, (canvasWidth - width) / 2.0, 0.0)
    else
      var height := canvasWidth / aspectRatio;
      Placement(canvasWidth, height, 0.0, (canvasHeight - height) / 2.0)
  }

  /** A portrait image spans the full canvas height from the top edge, and its
      width is the canvas height scaled by the image's proportions. */
  lemma PortraitFillsHeight(canvasWidth: real, canvasHeight: real, imageWidth: real, imageHeight: real)
    requires PositiveSizes(canvasWidth, canvasHeight, imageWidth, imageHeight)
    requires imageWidth < imageHeight
    ensures var p := GetDimmensions(canvasWidth, canvasHeight, imageWidth, imageHeight);
      p.height == canvasHeight && p.startY == 0.0 &&
      p.width == canvasHeight * imageWidth / imageHeight &&
      p.width < canvasHeight
  {
    RatioBelowOneIffTaller(imageWidth, imageHeight);
  }

  /** A landscape or square image spans the full canvas width from the left
      edge, and its height is the canvas width scaled by the image's
      proportions. */
  lemma LandscapeFillsWidth(canvasWidth: real, canvasHeight: real, imageWidth: real, imageHeight: real)
    requires PositiveSizes(canvasWidth, canvasHeight, imageWidth, imageHeight)
    requires imageWidth >= imageHeight
    ensures var p := GetDimmensions(canvasWidth, canvasHeight, imageWidth, imageHeight);
      p.width == canvasWidth && p.startX == 0.0 &&
      p.height == canvasWidth * imageHeight / imageWidth &&
      p.height <= canvasWidth
  {
    RatioBelowOneIffTaller(imageWidth, imageHeight);
    var ratio := imageWidth / imageHeight;
    assert ratio * imageHeight == imageWidth;
    assert ratio >= 1.0;
    var h := canvasWidth / ratio;
    assert h * ratio == canvasWidth;
    assert h * imageWidth == canvasWidth * imageHeight by {
      calc {
        h * imageWidth;
        h * (ratio * imageHeight);
        (h * ratio) * imageHeight;
        canvasWidth * imageHeight;
      }
    }
    assert h > 0.0;
    assert h * ratio - h == h * (ratio - 1.0) >= 0.0;
  }

  /** The tie: a square image goes through the landscape branch, so it is
      drawn as a canvasWidth-by-canvasWidth square at the left edge. */
  lemma SquareImageTakesLandscapeBranch(canvasWidth: real, canvasHeight: real, side: real)
    requires PositiveSizes(canvasWidth, canvasHeight, side, side)
    ensures GetDimmensions(canvasWidth, canvasHeight, side, side)
         == Placement(canvasWidth, canvasWidth, 0.0, (canvasHeight - canvasWidth) / 2.0)
  {
  }

  /** A square image on a square canvas covers the whole canvas. */
  lemma SquareOnSquareCoversCanvas(side: real, imageSide: real)
    requires PositiveSizes(side, side, imageSide, imageSide)
    ensures GetDimmensions(side, side, imageSide, imageSide) == Placement(side, side, 0.0, 0.0)
  {
  }

  /** An image with the canvas's proportions covers the whole canvas from
      the corner, spanning both axes, whichever branch it takes. */
  lemma SameProportionsCoversCanvas(canvasWidth: real, canvasHeight: real, imageWidth: real, imageHeight: real)
    requires PositiveSizes(canvasWidth, canvasHeight, imageWidth, imageHeight)
    requires imageWidth * canvasHeight == imageHeight * canvasWidth
    ensures GetDimmensions(canvasWidth, canvasHeight, imageWidth, imageHeight)
         == Placement(canvasWidth, canvasHeight, 0.0, 0.0)
  {
    if imageWidth < imageHeight {
      PortraitFillsHeight(canvasWidth, canvasHeight, imageWidth, imageHeight);
      assert canvasHeight * imageWidth / imageHeight == canvasWidth;
    } else {
      LandscapeFillsWidth(canvasWidth, canvasHeight, imageWidth, imageHeight);
      assert canvasWidth * imageHeight / imageWidth == canvasHeight;
    }
  }

  /** On a square canvas the drawn image stays inside the canvas: the claim
      of the script's doc comment, which holds for this canvas shape. */
  lemma InsideSquareCanvas(side: real, imageWidth: real, imageHeight: real)
    requires PositiveSizes(side, side, imageWidth, imageHeight)
    ensures InsideCanvas(GetDimmensions(side, side, imageWidth, imageHeight), side, side)
  {
    if imageWidth < imageHeight {
      PortraitFillsHeight(side, side, imageWidth, imageHeight);
    } else {
      LandscapeFillsWidth(side, side, imageWidth, imageHeight);
    }
  }

  /** On a wide canvas a landscape image that is less wide than the canvas
      overflows it: a 500-by-100 canvas and a 3:2 image give a drawn height
      of 1000/3, more than the canvas height of 100. */
  lemma OverflowsWideCanvas()
    ensures var p := GetDimmensions(500.0, 100.0, 3.0, 2.0);
      p.height == 1000.0 / 3.0 && !InsideCanvas(p, 500.0, 100.0)
  {
  }

  /** On a tall canvas a portrait image that is less tall than the canvas
      overflows it sideways: a 100-by-500 canvas and a 2:3 image give a
      drawn width of 1000/3, more than the canvas width of 100. */
  lemma OverflowsTallCanvas()
    ensures var p := GetDimmensions(100.0, 500.0, 2.0, 3.0);
      p.width == 1000.0 / 3.0 && !InsideCanvas(p, 100.0, 500.0)
  {
  }

  /** Every canvas that is not square has some image that overflows it. On
      a wide canvas a square image does, since it is drawn as tall as the
      canvas is wide. On a tall canvas an image of (width + height) by
      2 * height does, since it is drawn half as wide as the canvas's width
      plus height. */
  lemma NonSquareOverflows(canvasWidth: real, canvasHeight: real)
    requires canvasWidth > 0.0 && canvasHeight > 0.0 && canvasWidth != canvasHeight
    ensures exists imageWidth: real, imageHeight: real ::
      imageWidth > 0.0 && imageHeight > 0.0 &&
      !InsideCanvas(GetDimmensions(canvasWidth, canvasHeight, imageWidth, imageHeight), canvasWidth, canvasHeight)
  {
    if canvasWidth > canvasHeight {
      SquareImageTakesLandscapeBranch(canvasWidth, canvasHeight, 1.0);
      assert !InsideCanvas(GetDimmensions(canvasWidth, canvasHeight, 1.0, 1.0), canvasWidth, canvasHeight);
    } else {
      var imageWidth, imageHeight := canvasWidth + canvasHeight, 2.0 * canvasHeight;
      PortraitFillsHeight(canvasWidth, canvasHeight, imageWidth, imageHeight);
      assert canvasHeight * imageWidth / imageHeight == imageWidth / 2.0;
      assert !InsideCanvas(GetDimmensions(canvasWidth, canvasHeight, imageWidth, imageHeight), canvasWidth, canvasHeight);
    }
  }

  /** The branch the doc comment evidently intends: compare the image's
      proportions with the canvas's, not with 1. The image fills the canvas
      height exactly when it is relatively taller than the canvas. */
  function FitInside(canvasWidth: real, canvasHeight: real, imageWidth: real, imageHeight: real): (p: Placement)
    requires PositiveSizes(canvasWidth, canvasHeight, imageWidth, imageHeight)
    ensures p.width > 0.0 && p.height > 0.0
    ensures KeepsAspectRatio(p, imageWidth, imageHeight)
    ensures Centred(p, canvasWidth, canvasHeight)
    ensures InsideCanvas(p, canvasWidth, canvasHeight)
    ensures p.width == canvasWidth || p.height == canvasHeight
  {
    if imageWidth * canvasHeight < imageHeight * canvasWidth then
      var width := canvasHeight * imageWidth / imageHeight;
      assert (width - canvasWidth) * imageHeight == imageWidth * canvasHeight - imageHeight * canvasWidth;
      SignOfProduct(width - canvasWidth, imageHeight);
      Placement(width, canvasHeight, (canvasWidth - width) / 2.0, 0.0)
    else
      var height := canvasWidth * imageHeight / imageWidth;
      assert (canvasHeight - height) * imageWidth == imageWidth * canvasHeight - imageHeight * canvasWidth;
      SignOfProduct(canvasHeight - height, imageWidth);
      Placement(canvasWidth, height, 0.0, (canvasHeight - height) / 2.0)
  }

  /** No larger copy of the image fits: every scale factor that keeps the
      scaled image inside the canvas gives a width no larger than FitInside's
      width (and, the proportions being equal, a height no larger either). */
  lemma FitInsideIsLargest(canvasWidth: real, canvasHeight: real, imageWidth: real, imageHeight: real, scale: real)
    requires PositiveSizes(canvasWidth, canvasHeight, imageWidth, imageHeight)
    requires scale > 0.0
    requires scale * imageWidth <= canvasWidth && scale * imageHeight <= canvasHeight
    ensures var p := FitInside(canvasWidth, canvasHeight, imageWidth, imageHeight);
      scale * imageWidth <= p.width && scale * imageHeight <= p.height
  {
  }

  /** On a square canvas the corrected function draws exactly what the
      script draws, so the fault is invisible for that canvas shape. */
  lemma FitInsideAgreesOnSquareCanvas(side: real, imageWidth: real, imageHeight: real)
    requires PositiveSizes(side, side, imageWidth, imageHeight)
    ensures FitInside(side, side, imageWidth, imageHeight) == GetDimmensions(side, side, imageWidth, imageHeight)
  {
    assert imageWidth * side - imageHeight * side == (imageWidth - imageHeight) * side;
    SignOfProduct(imageWidth - imageHeight, side);
    if imageWidth < imageHeight {
      PortraitFillsHeight(side, side, imageWidth, imageHeight);
    } else {
      LandscapeFillsWidth(side, side, imageWidth, imageHeight);
    }
  }
}
