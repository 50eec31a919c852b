/**
 * The QR generator component: it turns its properties into the options
 * record of the QR styling library, keeps one library instance that it
 * creates once and afterwards only updates, downloads through that
 * instance, and lays the corner images over the symbol with CSS insets.
 *
 * The styling library itself is not modelled: its instance (`Styling`) only
 * remembers the options it was last given, and every call the component
 * makes into it is recorded (`Call`).
 */
module QRGenerator {
  import opened Wrappers

  datatype DotType = Dots | Rounded | Classy | ClassyRounded | Square | ExtraRounded
  datatype CornerSquareType = Dot | Square | ExtraRounded
  datatype CornerDotType = Dot | Square

  /** The three finder-pattern corners that can carry an image. */
  datatype Corner = TopLeft | TopRight | BottomLeft

  datatype Extension = Png | Svg

  /**
   * The component's properties. An optional property the caller leaves out
   * is `None`; an image given as null or left out is `None` as well.
   */
  datatype Props = Props(
    data: string,
    dotColor: string,
    backgroundColor: string,
    dotType: DotType,
    cornerSquareType: CornerSquareType,
    cornerDotType: CornerDotType,
    logoImage: Option<string>,
    size: int,
    imageSize: Option<real>,
    imageMargin: Option<int>,
    cornerImageTopLeft: Option<string>,
    cornerImageTopRight: Option<string>,
    cornerImageBottomLeft: Option<string>,
    cornerItemSize: Option<int>)

  const DefaultImageSize: real := 0.4
  const DefaultImageMargin: int := 10
  const DefaultCornerItemSize: int := 40

  /** Space between the container's edge and the symbol, in CSS pixels. */
  const Padding: int := 20

  /** The payload encoded when the data is empty. */
  const FallbackData: string := "https://example.com"

  const Transparent: string := "transparent"
  const DownloadName: string := "qr-code"

  /** JavaScript truthiness of a string that may be null: null and "" are false. */
  predicate Truthy(s: Option<string>)
  {
    s.Some? && s.value != ""
  }

  function ImageSizeOf(p: Props): real { GetOr(p.imageSize, DefaultImageSize) }
  function ImageMarginOf(p: Props): int { GetOr(p.imageMargin, DefaultImageMargin) }
  function CornerItemSizeOf(p: Props): int { GetOr(p.cornerItemSize, DefaultCornerItemSize) }

  function CornerImage(p: Props, c: Corner): Option<string>
  {
    match c
    case TopLeft => p.cornerImageTopLeft
    case TopRight => p.cornerImageTopRight
    case BottomLeft => p.cornerImageBottomLeft
  }

  predicate HasAnyCornerImage(p: Props)
  {
    Truthy(p.cornerImageTopLeft) || Truthy(p.cornerImageTopRight) || Truthy(p.cornerImageBottomLeft)
  }

  datatype DotsOptions = DotsOptions(color: string, dotType: DotType)
  datatype CornersSquareOptions = CornersSquareOptions(squareType: CornerSquareType, color: string)
  datatype CornersDotOptions = CornersDotOptions(dotType: CornerDotType, color: string)
  datatype ImageOptions = ImageOptions(crossOrigin: string, margin: int, imageSize: real, hideBackgroundDots: bool)

  /** The options record handed to the styling library. */
  datatype Options = Options(
    width: int,
    height: int,
    drawType: string,
    data: string,
    dotsOptions: DotsOptions,
    backgroundColor: string,
    cornersSquareOptions: CornersSquareOptions,
    cornersDotOptions: CornersDotOptions,
    imageOptions: ImageOptions,
    image: Option<string>)

  function BuildOptions(p: Props): (o: Options)
    ensures o.data != ""
    ensures p.data != "" ==> o.data == p.data
    ensures p.data == "" ==> o.data == FallbackData
    ensures o.width == p.size && o.height == p.size && o.drawType == "svg"
    ensures o.dotsOptions == DotsOptions(p.dotColor, p.dotType)
    ensures o.backgroundColor == p.backgroundColor
    ensures o.cornersSquareOptions.squareType == p.cornerSquareType
    ensures o.cornersDotOptions.dotType == p.cornerDotType
    ensures HasAnyCornerImage(p) ==> o.cornersSquareOptions.color == Transparent && o.cornersDotOptions.color == Transparent
    ensures !HasAnyCornerImage(p) ==> o.cornersSquareOptions.color == p.dotColor && o.cornersDotOptions.color == p.dotColor
    ensures o.imageOptions.hideBackgroundDots
    ensures o.imageOptions.margin == ImageMarginOf(p) && o.imageOptions.imageSize == ImageSizeOf(p)
    ensures o.image.None? <==> !Truthy(p.logoImage)
    ensures o.image.Some? ==> o.image == p.logoImage
  {
    var cornerColor := if HasAnyCornerImage(p) then Transparent else p.dotColor;
    Options(
      p.size,
      p.size,
      "svg",
      if p.data != "" then p.data else FallbackData,
      DotsOptions(p.dotColor, p.dotType),
      p.backgroundColor,
      CornersSquareOptions(p.cornerSquareType, cornerColor),
      CornersDotOptions(p.cornerDotType, cornerColor),
      ImageOptions("anonymous", ImageMarginOf(p), ImageSizeOf(p), true),
      if Truthy(p.logoImage) then p.logoImage else None)
  }

  /**
   * Unless the dot colour is itself "transparent", the finder patterns are
   * drawn transparent exactly when some corner image is present.
   */
  lemma CornerColorsTransparentIff(p: Props)
    requires p.dotColor != Transparent
    ensures BuildOptions(p).cornersSquareOptions.color == Transparent <==> HasAnyCornerImage(p)
    ensures BuildOptions(p).cornersDotOptions.color == Transparent <==> HasAnyCornerImage(p)
  {
  }

  /** Leaving out the optional properties gives a 0.4 logo with a 10 pixel margin and 40 pixel corner images. */
  lemma DefaultsApply(p: Props)
    requires p.imageSize.None? && p.imageMargin.None? && p.cornerItemSize.None?
    ensures BuildOptions(p).imageOptions.imageSize == 0.4
    ensures BuildOptions(p).imageOptions.margin == 10
    ensures forall i :: 0 <= i < |Overlays(p)| ==> Overlays(p)[i].width == 40 && Overlays(p)[i].height == 40
  {
  }

  /** CSS insets of an absolutely positioned element; `None` leaves a side unset. */
  datatype Insets = Insets(top: Option<int>, right: Option<int>, bottom: Option<int>, left: Option<int>)

  /** One corner image laid over the symbol. */
  datatype Overlay = Overlay(corner: Corner, src: string, insets: Insets, width: int, height: int)

  /** The insets used for a corner: `Padding` from its two adjacent edges. */
  function CornerInsets(c: Corner): Insets
  {
    match c
    case TopLeft => Insets(Some(Padding), None, None, Some(Padding))
    case TopRight => Insets(Some(Padding), Some(Padding), None, None)
    case BottomLeft => Insets(None, None, Some(Padding), Some(Padding))
  }

  function OverlayFor(p: Props, c: Corner): seq<Overlay>
  {
    var img := CornerImage(p, c);
    if Truthy(img) then [Overlay(c, img.value, CornerInsets(c), CornerItemSizeOf(p), CornerItemSizeOf(p))] else []
  }

  /** The corner images rendered, top-left, top-right, bottom-left, each only when present. */
  function Overlays(p: Props): (os: seq<Overlay>)
    ensures forall i :: 0 <= i < |os| ==>
              Truthy(CornerImage(p, os[i].corner)) && os[i].src == CornerImage(p, os[i].corner).value
    ensures forall i :: 0 <= i < |os| ==>
              os[i].width == CornerItemSizeOf(p) && os[i].height == CornerItemSizeOf(p)
              && os[i].insets == CornerInsets(os[i].corner)
    ensures forall c :: Truthy(CornerImage(p, c)) <==> exists i :: 0 <= i < |os| && os[i].corner == c
    ensures forall i, j :: 0 <= i < j < |os| ==> os[i].corner != os[j].corner
  {
    var tl := OverlayFor(p, TopLeft);
    var tr := OverlayFor(p, TopRight);
    var bl := OverlayFor(p, BottomLeft);
    OverlayForShape(p, TopLeft);
    OverlayForShape(p, TopRight);
    OverlayForShape(p, BottomLeft);
    var os := tl + tr + bl;
    assert forall i :: 0 <= i < |os| ==>
             os[i] == if i < |tl| then tl[0] else if i < |tl| + |tr| then tr[0] else bl[0];
    assert forall c :: Truthy(CornerImage(p, c)) ==> exists i :: 0 <= i < |os| && os[i].corner == c by {
      forall c | Truthy(CornerImage(p, c))
        ensures exists i :: 0 <= i < |os| && os[i].corner == c
      {
        var i := match c case TopLeft => 0 case TopRight => |tl| case BottomLeft => |tl| + |tr|;
        assert os[i].corner == c;
      }
    }
    os
  }

  lemma OverlayForShape(p: Props, c: Corner)
    ensures |OverlayFor(p, c)| == if Truthy(CornerImage(p, c)) then 1 else 0
    ensures |OverlayFor(p, c)| == 1 ==>
              var o := OverlayFor(p, c)[0];
              && o.corner == c && o.src == CornerImage(p, c).value
              && o.width == CornerItemSizeOf(p) && o.height == CornerItemSizeOf(p)
              && o.insets == CornerInsets(c)
  {
  }

  /** An integer box in CSS pixels, relative to the container's top-left corner. */
  datatype Box = Box(x: int, y: int, w: int, h: int)

  /**
   * Where an overlay ends up inside a container of side `outer`: a set
   * `left`/`top` inset is measured from the left/top edge, otherwise the
   * `right`/`bottom` inset from the opposite edge.
   */
  function Placement(o: Overlay, outer: int): Box
  {
    var x := if o.insets.left.Some? then o.insets.left.value
             else if o.insets.right.Some? then outer - o.insets.right.value - o.width
             else 0;
    var y := if o.insets.top.Some? then o.insets.top.value
             else if o.insets.bottom.Some? then outer - o.insets.bottom.value - o.height
             else 0;
    Box(x, y, o.width, o.height)
  }

  /** The container is the symbol plus `Padding` on every side. */
  function ContainerSide(p: Props): int
  {
    p.size + 2 * Padding
  }

  /**
   * Each overlay's outer corner sits on the matching corner of the symbol
   * (the symbol occupies [Padding, Padding + size] on both axes).
   */
  lemma OverlaysSitOnSymbolCorners(p: Props, i: int)
    requires 0 <= i < |Overlays(p)|
    ensures var o := Overlays(p)[i];
            var b := Placement(o, ContainerSide(p));
            && b.w == CornerItemSizeOf(p) && b.h == CornerItemSizeOf(p)
            && (o.corner == TopLeft ==> b.x == Padding && b.y == Padding)
            && (o.corner == TopRight ==> b.x + b.w == Padding + p.size && b.y == Padding)
            && (o.corner == BottomLeft ==> b.x == Padding && b.y + b.h == Padding + p.size)
  {
  }

  /** An instance of the QR styling library, reduced to the options it holds. */
  class Styling {
    var options: Options

    constructor (o: Options)
      ensures options == o
    {
      options := o;
    }

    method Update(o: Options)
      modifies this
      ensures options == o
    {
      options := o;
    }
  }

  /** A call the component makes: into the library, or on its container element. */
  datatype Call =
    | Construct(options: Options)          // new QRCodeStyling(options)
    | ClearContainer                       // container.innerHTML = ""
    | Append                               // instance.append(container)
    | Update(options: Options)             // instance.update(options)
    | Download(name: string, ext: Extension)  // instance.download({ name, extension })

  function Constructions(calls: seq<Call>): nat
  {
    if calls == [] then 0
    else Constructions(calls[..|calls| - 1]) + (if calls[|calls| - 1].Construct? then 1 else 0)
  }

  /** The options most recently passed to the library, if any. */
  function LastOptions(calls: seq<Call>): Option<Options>
  {
    if calls == [] then None
    else
      var c := calls[|calls| - 1];
      if c.Construct? || c.Update? then Some(c.options) else LastOptions(calls[..|calls| - 1])
  }

  lemma {:induction false} ConstructionsConcat(a: seq<Call>, b: seq<Call>)
    ensures Constructions(a + b) == Constructions(a) + Constructions(b)
    decreases |b|
  {
    if b == [] {
      assert a + b == a;
    } else {
      var b' := b[..|b| - 1];
      assert (a + b)[..|a + b| - 1] == a + b';
      ConstructionsConcat(a, b');
    }
  }

  /** The component's reference to its library instance and its container. */
  class Generator {
    /** `qrCode.current`: null until the first configuration is applied. */
    var qrCode: Styling?
    /** Whether the container element was mounted (`ref.current` not null). */
    const containerMounted: bool
    /** The library instances appended to the container. */
    var shown: seq<Styling>
    /** Every call made so far, in order. */
    var calls: seq<Call>

    /**
     * The instance exists exactly when a call was made; it was constructed
     * once, by the first call, and holds the last options it was given.
     */
    ghost predicate Valid()
      reads this, qrCode
    {
      && (qrCode == null ==> calls == [] && shown == [])
      && (qrCode != null ==>
            && |calls| > 0 && calls[0].Construct?
            && Constructions(calls) == 1
            && LastOptions(calls) == Some(qrCode.options)
            && shown == (if containerMounted then [qrCode] else []))
    }

    constructor (mounted: bool)
      ensures Valid()
      ensures qrCode == null && containerMounted == mounted && calls == [] && shown == []
    {
      qrCode := null;
      containerMounted := mounted;
      shown := [];
      calls := [];
    }

    /** `initQR`: construct and append the instance the first time, update it afterwards. */
    method Configure(p: Props)
      requires Valid()
      modifies this, qrCode
      ensures Valid()
      ensures qrCode != null && qrCode.options == BuildOptions(p)
      ensures old(qrCode) == null ==>
                && fresh(qrCode)
                && calls == [Construct(BuildOptions(p))] + (if containerMounted then [ClearContainer, Append] else [])
                && shown == (if containerMounted then [qrCode] else [])
      ensures old(qrCode) != null ==>
                && qrCode == old(qrCode)
                && calls == old(calls) + [Update(BuildOptions(p))]
                && shown == old(shown)
    {
      var options := BuildOptions(p);
      if qrCode == null {
        qrCode := new Styling(options);
        calls := [Construct(options)];
        if containerMounted {
          calls := calls + [ClearContainer];
          shown := [qrCode];
          calls := calls + [Append];
          assert calls[..2] == [Construct(options), ClearContainer] && calls[..2][..1] == [Construct(options)];
          assert [Construct(options)][..0] == [];
          assert LastOptions(calls) == LastOptions(calls[..2]) == LastOptions(calls[..1]);
          assert Constructions(calls) == Constructions(calls[..2]) == Constructions(calls[..1]);
        } else {
          assert calls[..0] == [];
        }
      } else {
        qrCode.Update(options);
        ConstructionsConcat(calls, [Update(options)]);
        calls := calls + [Update(options)];
        assert calls[..|calls| - 1] == old(calls);
      }
    }

    /** `downloadQR`: nothing happens until the instance exists. */
    method DownloadQR(ext: Extension)
      requires Valid()
      modifies this
      ensures Valid()
      ensures qrCode == old(qrCode) && shown == old(shown)
      ensures old(qrCode) == null ==> calls == old(calls)
      ensures old(qrCode) != null ==> calls == old(calls) + [Download(DownloadName, ext)]
    {
      if qrCode != null {
        ConstructionsConcat(calls, [Download(DownloadName, ext)]);
        calls := calls + [Download(DownloadName, ext)];
        assert calls[..|calls| - 1] == old(calls);
      }
    }
  }

  /**
   * A session: a download before the first configuration does nothing; the
   * first configuration constructs and appends the instance, later ones only
   * update that same instance.
   */
  method RendererSession(first: Props, second: Props)
  {
    var g := new Generator(true);
    g.DownloadQR(Png);
    assert g.calls == [] && g.qrCode == null;
    g.Configure(first);
    assert g.calls == [Construct(BuildOptions(first)), ClearContainer, Append];
    var instance := g.qrCode;
    g.Configure(second);
    assert g.qrCode == instance && g.shown == [instance];
    assert g.qrCode.options == BuildOptions(second);
    g.DownloadQR(Svg);
    assert g.calls[|g.calls| - 1] == Download("qr-code", Svg);
  }
}
