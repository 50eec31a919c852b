/**
 * The logo shaper of the home page: the uploaded logo is cropped to the
 * largest centred square, masked to a square, circle or rounded square, and
 * drawn at the chosen opacity onto a canvas of exactly that square's size.
 *
 * `LogoTrace` is the sequence of canvas calls the page issues for one image;
 * the lemmas state what that sequence establishes on the canvas
 * (`Canvas2D.Run`) and what the resulting mask and alpha are at every point.
 */
module LogoShaper {
  import opened Canvas2D

  /** The mask chosen in the page's shape picker. */
  datatype Shape = Square | Circle | Rounded

  /** The decoded logo image: only its natural size matters to the geometry. */
  datatype Bitmap = Bitmap(width: nat, height: nat)

  /** Corner radius of the rounded mask, as a fraction of the side. */
  const RoundedRadiusRatio: real := 0.2

  /** The side of the square crop: the largest square that fits in the image. */
  function CropSide(b: Bitmap): (side: nat)
    ensures side <= b.width && side <= b.height
    ensures side == b.width || side == b.height
  {
    if b.width <= b.height then b.width else b.height
  }

  /** The part of the image that is drawn: a side-by-side square centred in the image. */
  function CropRect(b: Bitmap): (r: Rect)
    ensures r.w == CropSide(b) as real && r.h == CropSide(b) as real
    ensures 2.0 * r.x == b.width as real - r.w && 2.0 * r.y == b.height as real - r.h
    ensures 0.0 <= r.x && 0.0 <= r.y && (r.x == 0.0 || r.y == 0.0)
    ensures r.x + r.w <= b.width as real && r.y + r.h <= b.height as real
  {
    var side := CropSide(b) as real;
    Rect((b.width as real - side) / 2.0, (b.height as real - side) / 2.0, side, side)
  }

  /** The whole canvas of the given side. */
  function FullSquare(side: nat): Rect
  {
    Rect(0.0, 0.0, side as real, side as real)
  }

  /**
   * The path and clip calls made for a shape, after `beginPath`: nothing for
   * the square; otherwise one sub-path followed by a single `clip()`. They
   * neither resize, change the alpha nor draw.
   */
  function ClipCommands(shape: Shape, side: nat): (cs: seq<Command>)
    ensures shape == Square <==> cs == []
    ensures shape != Square ==> |cs| == 2 && cs[1] == Clip
    ensures forall i :: 0 <= i < |cs| ==> cs[i].Arc? || cs[i].RoundRect? || cs[i] == Clip
    ensures shape == Circle ==> cs[0].Arc? && cs[0].radius == side as real / 2.0
    ensures shape == Rounded ==> cs[0] == RoundRect(FullSquare(side), side as real * RoundedRadiusRatio)
  {
    var s := side as real;
    match shape
    case Circle => [Arc(s / 2.0, s / 2.0, s / 2.0), Clip]
    case Rounded => [RoundRect(FullSquare(side), s * RoundedRadiusRatio), Clip]
    case Square => []
  }

  /** The clip region each shape is meant to leave: none for the square. */
  function Mask(shape: Shape, side: nat): seq<seq<Region>>
  {
    var s := side as real;
    match shape
    case Circle => [[Disc(s / 2.0, s / 2.0, s / 2.0)]]
    case Rounded => [[RoundedBox(FullSquare(side), RoundedRadiusRatio * s)]]
    case Square => []
  }

  /** Every call the logo effect makes on its canvas, in order. */
  function LogoTrace(b: Bitmap, shape: Shape, opacity: real): seq<Command>
  {
    var side := CropSide(b);
    [SetWidth(side), SetHeight(side), SetGlobalAlpha(opacity), BeginPath]
    + ClipCommands(shape, side)
    + [DrawImage(CropRect(b), FullSquare(side))]
  }

  /**
   * The order of the effect's calls: the canvas is sized to the crop first
   * and never resized afterwards, the opacity is set once, a clip is applied
   * only for the circle and the rounded shape, and the single `drawImage` of
   * the centred crop onto the whole canvas comes last.
   */
  lemma LogoTraceOrder(b: Bitmap, shape: Shape, opacity: real)
    ensures |LogoTrace(b, shape, opacity)| >= 5
    ensures LogoTrace(b, shape, opacity)[0] == SetWidth(CropSide(b))
    ensures LogoTrace(b, shape, opacity)[1] == SetHeight(CropSide(b))
    ensures LogoTrace(b, shape, opacity)[2] == SetGlobalAlpha(opacity)
    ensures forall i :: 2 <= i < |LogoTrace(b, shape, opacity)| ==>
              !LogoTrace(b, shape, opacity)[i].SetWidth? && !LogoTrace(b, shape, opacity)[i].SetHeight?
    ensures forall i :: 3 <= i < |LogoTrace(b, shape, opacity)| ==> !LogoTrace(b, shape, opacity)[i].SetGlobalAlpha?
    ensures (exists i :: 0 <= i < |LogoTrace(b, shape, opacity)| && LogoTrace(b, shape, opacity)[i] == Clip)
            <==> shape != Square
    ensures forall i :: 0 <= i < |LogoTrace(b, shape, opacity)| - 1 ==> !LogoTrace(b, shape, opacity)[i].DrawImage?
    ensures LogoTrace(b, shape, opacity)[|LogoTrace(b, shape, opacity)| - 1]
            == DrawImage(CropRect(b), FullSquare(CropSide(b)))
  {
    var t := LogoTrace(b, shape, opacity);
    if shape != Square {
      assert t[5] == Clip;
    }
  }

  /**
   * The calls leave a side-by-side canvas holding exactly one draw: the
   * centred crop onto the whole canvas, at the opacity (when it is a valid
   * alpha; the canvas ignores any other value and keeps 1), inside the
   * shape's mask. An image with a zero dimension gives an empty crop, and
   * then nothing is drawn.
   */
  lemma LogoTraceEffect(b: Bitmap, shape: Shape, opacity: real)
    ensures Run(Fresh(), LogoTrace(b, shape, opacity)).width == CropSide(b)
    ensures Run(Fresh(), LogoTrace(b, shape, opacity)).height == CropSide(b)
    ensures Run(Fresh(), LogoTrace(b, shape, opacity)).draws
            == if CropSide(b) == 0 then []
               else [Draw(CropRect(b), FullSquare(CropSide(b)), AlphaAfter(1.0, opacity), Mask(shape, CropSide(b)))]
  {
    var side := CropSide(b);
    var s := side as real;
    var prefix := [SetWidth(side), SetHeight(side), SetGlobalAlpha(opacity), BeginPath];
    var draw := [DrawImage(CropRect(b), FullSquare(side))];
    RunConcat(Fresh(), prefix + ClipCommands(shape, side), draw);
    RunConcat(Fresh(), prefix, ClipCommands(shape, side));
    var afterPrefix := Run(Fresh(), prefix);
    var s1 := Step(Fresh(), SetWidth(side));
    var s2 := Step(s1, SetHeight(side));
    var s3 := Step(s2, SetGlobalAlpha(opacity));
    var s4 := Step(s3, BeginPath);
    assert prefix[1..] == [SetHeight(side), SetGlobalAlpha(opacity), BeginPath];
    assert prefix[1..][1..] == [SetGlobalAlpha(opacity), BeginPath];
    assert prefix[1..][1..][1..] == [BeginPath];
    assert afterPrefix == Run(s1, prefix[1..]);
    assert Run(s1, prefix[1..]) == Run(s2, prefix[1..][1..]);
    assert Run(s2, prefix[1..][1..]) == Run(s3, [BeginPath]);
    assert Run(s3, [BeginPath]) == Run(s4, []) == s4;
    assert afterPrefix == State(side, side, AlphaAfter(1.0, opacity), [], [], []);
    ClipCommandsEffect(afterPrefix, shape, side);
    var afterClip := Run(afterPrefix, ClipCommands(shape, side));
    assert afterClip.clip == Mask(shape, side);
    assert Run(afterClip, draw) == Step(afterClip, draw[0]);
    assert LogoTrace(b, shape, opacity) == prefix + ClipCommands(shape, side) + draw;
    if side != 0 {
      assert Step(afterClip, draw[0]).draws
             == [Draw(CropRect(b), FullSquare(side), AlphaAfter(1.0, opacity), Mask(shape, side))];
    }
  }

  /** From an empty path, a shape's clip calls add exactly its mask to the clip stack. */
  lemma ClipCommandsEffect(st: State, shape: Shape, side: nat)
    requires st.path == []
    ensures Run(st, ClipCommands(shape, side)).clip == st.clip + Mask(shape, side)
    ensures Run(st, ClipCommands(shape, side)).width == st.width
    ensures Run(st, ClipCommands(shape, side)).height == st.height
    ensures Run(st, ClipCommands(shape, side)).alpha == st.alpha
    ensures Run(st, ClipCommands(shape, side)).draws == st.draws
  {
    var s := side as real;
    match shape
    case Circle =>
      var c := ClipCommands(shape, side);
      assert c[1..] == [Clip] && [Clip][1..] == [];
      assert st.path + [Disc(s / 2.0, s / 2.0, s / 2.0)] == [Disc(s / 2.0, s / 2.0, s / 2.0)];
      assert Run(st, c) == Run(Step(st, c[0]), [Clip]) == Step(Step(st, c[0]), Clip);
    case Rounded =>
      var c := ClipCommands(shape, side);
      assert c[1..] == [Clip] && [Clip][1..] == [];
      assert RoundedRadiusRatio * s == s * RoundedRadiusRatio;
      assert st.path + [RoundedBox(FullSquare(side), s * RoundedRadiusRatio)]
             == [RoundedBox(FullSquare(side), s * RoundedRadiusRatio)];
      assert Run(st, c) == Run(Step(st, c[0]), [Clip]) == Step(Step(st, c[0]), Clip);
    case Square =>
      assert st.clip + [] == st.clip;
  }

  /**
   * The circle mask is the disc inscribed in the canvas. `InRegion` of a disc
   * is itself the distance inequality, so this only unfolds `Mask`, `InClip`
   * and `InPath`; the geometry is in `MaskWithinCanvas` and
   * `MaskExcludesCorners`.
   */
  lemma CircleMaskIsInscribedDisc(side: nat, px: real, py: real)
    ensures InClip(Mask(Circle, side), px, py)
            <==> Sq(px - side as real / 2.0) + Sq(py - side as real / 2.0) <= Sq(side as real / 2.0)
  {
    var m := Mask(Circle, side);
    if InRegion(m[0][0], px, py) {
      assert InPath(m[0], px, py);
    }
  }

  /** The square shape leaves every point unclipped. */
  lemma SquareMaskClipsNothing(side: nat, px: real, py: real)
    ensures InClip(Mask(Square, side), px, py)
  {
  }

  lemma MulPositive(x: real, y: real)
    requires x > 0.0 && y > 0.0
    ensures x * y > 0.0
  {
  }

  lemma SqNonNegative(v: real)
    ensures Sq(v) >= 0.0
  {
    if v < 0.0 {
      MulPositive(-v, -v);
    } else if v > 0.0 {
      MulPositive(v, v);
    }
  }

  lemma DifferenceOfSquares(a: real, c: real)
    ensures (a - c) * (a + c) == a * a - c * c
  {
  }

  lemma SqAtMost(a: real, c: real)
    requires 0.0 <= c && Sq(a) <= Sq(c)
    ensures -c <= a <= c
  {
    if a > c {
      MulPositive(a - c, a + c);
      DifferenceOfSquares(a, c);
    } else if a < -c {
      var b := -a;
      assert b * b == a * a;
      MulPositive(b - c, b + c);
      DifferenceOfSquares(b, c);
    }
  }

  /** Whatever the mask lets through lies on the side-by-side canvas. */
  lemma MaskWithinCanvas(shape: Shape, side: nat, px: real, py: real)
    requires shape != Square
    requires InClip(Mask(shape, side), px, py)
    ensures 0.0 <= px <= side as real && 0.0 <= py <= side as real
  {
    var m := Mask(shape, side);
    assert InPath(m[0], px, py);
    var h := side as real / 2.0;
    if shape == Circle {
      assert InRegion(Disc(h, h, h), px, py);
      SqNonNegative(px - h);
      SqNonNegative(py - h);
      SqAtMost(px - h, h);
      SqAtMost(py - h, h);
    }
  }

  /** The centre of the canvas is inside every mask. */
  lemma MaskContainsCentre(shape: Shape, side: nat)
    ensures InClip(Mask(shape, side), side as real / 2.0, side as real / 2.0)
  {
    var m := Mask(shape, side);
    var h := side as real / 2.0;
    if shape != Square {
      assert InRegion(m[0][0], h, h);
      assert InPath(m[0], h, h);
    }
  }

  /** The circle and the rounded mask cut off all four corners of a non-empty canvas. */
  lemma MaskExcludesCorners(shape: Shape, side: nat)
    requires shape != Square && side > 0
    ensures !InClip(Mask(shape, side), 0.0, 0.0)
    ensures !InClip(Mask(shape, side), side as real, 0.0)
    ensures !InClip(Mask(shape, side), 0.0, side as real)
    ensures !InClip(Mask(shape, side), side as real, side as real)
  {
    var m := Mask(shape, side);
    var s := side as real;
    var h := s / 2.0;
    var g := m[0][0];
    assert |m[0]| == 1;
    assert Sq(h) > 0.0;
    if shape == Rounded {
      assert CornerDepth(0.0, s, RoundedRadiusRatio * s, 0.0) == RoundedRadiusRatio * s;
      assert CornerDepth(0.0, s, RoundedRadiusRatio * s, s) == RoundedRadiusRatio * s;
      assert Sq(RoundedRadiusRatio * s) > 0.0;
    }
    assert !InRegion(g, 0.0, 0.0) && !InRegion(g, s, 0.0) && !InRegion(g, 0.0, s) && !InRegion(g, s, s);
  }

  /**
   * At every point of the shaped canvas, the alpha is the opacity inside the
   * mask and 0 outside it (for opaque source pixels); an empty crop leaves
   * the canvas transparent.
   */
  lemma LogoAlpha(b: Bitmap, shape: Shape, opacity: real, px: real, py: real)
    requires 0.0 <= px <= CropSide(b) as real && 0.0 <= py <= CropSide(b) as real
    ensures Coverage(Run(Fresh(), LogoTrace(b, shape, opacity)).draws, px, py)
            == if CropSide(b) > 0 && InClip(Mask(shape, CropSide(b)), px, py) then AlphaAfter(1.0, opacity) else 0.0
  {
    LogoTraceEffect(b, shape, opacity);
    var draws := Run(Fresh(), LogoTrace(b, shape, opacity)).draws;
    assert draws[..0] == [];
  }

  /** The shaped logo's alpha scales linearly with the opacity, against opacity 1. */
  lemma AlphaScalesWithOpacity(b: Bitmap, shape: Shape, opacity: real, px: real, py: real)
    requires 0.0 <= opacity <= 1.0
    requires 0.0 <= px <= CropSide(b) as real && 0.0 <= py <= CropSide(b) as real
    ensures Coverage(Run(Fresh(), LogoTrace(b, shape, opacity)).draws, px, py)
            == opacity * Coverage(Run(Fresh(), LogoTrace(b, shape, 1.0)).draws, px, py)
  {
    LogoAlpha(b, shape, opacity, px, py);
    LogoAlpha(b, shape, 1.0, px, py);
  }

  /**
   * A 200 by 100 logo with the circle mask at half opacity becomes 100 by
   * 100, cropped from x = 50; it is transparent at the corners and at most
   * half opaque everywhere.
   */
  lemma CircleHalfOpacityWideLogo(px: real, py: real)
    requires 0.0 <= px <= 100.0 && 0.0 <= py <= 100.0
    ensures Run(Fresh(), LogoTrace(Bitmap(200, 100), Circle, 0.5)).width == 100
    ensures Run(Fresh(), LogoTrace(Bitmap(200, 100), Circle, 0.5)).height == 100
    ensures CropRect(Bitmap(200, 100)) == Rect(50.0, 0.0, 100.0, 100.0)
    ensures Coverage(Run(Fresh(), LogoTrace(Bitmap(200, 100), Circle, 0.5)).draws, px, py) <= 0.5
    ensures Coverage(Run(Fresh(), LogoTrace(Bitmap(200, 100), Circle, 0.5)).draws, 0.0, 0.0) == 0.0
    ensures Coverage(Run(Fresh(), LogoTrace(Bitmap(200, 100), Circle, 0.5)).draws, 50.0, 50.0) == 0.5
  {
    var b := Bitmap(200, 100);
    LogoTraceEffect(b, Circle, 0.5);
    LogoAlpha(b, Circle, 0.5, px, py);
    LogoAlpha(b, Circle, 0.5, 0.0, 0.0);
    LogoAlpha(b, Circle, 0.5, 50.0, 50.0);
    MaskExcludesCorners(Circle, 100);
    MaskContainsCentre(Circle, 100);
  }
}
