/**
 * The home page's state that the core logic touches: the uploaded logo and
 * its file name, the logo's shape and opacity, the processed logo, and the
 * three corner-image slots; with the handlers that write them and the effect
 * that shapes the logo.
 *
 * Reading a file and decoding an image happen asynchronously in the
 * browser; here each handler receives what the read or the decode produced.
 * The processed logo's data URL is represented by the canvas state it
 * encodes.
 */
module HomePage {
  import opened Wrappers
  import opened Canvas2D
  import opened LogoShaper
  import QRGenerator

  /** A file picked in a file input: its name and the data URL it reads as. */
  datatype File = File(name: string, dataUrl: string)

  class Home {
    var logoImage: Option<string>
    var logoFileName: string
    var logoOpacity: real
    var logoShape: Shape
    var processedLogo: Option<State>
    var cornerImageTopLeft: Option<string>
    var cornerImageTopRight: Option<string>
    var cornerImageBottomLeft: Option<string>
    /** The value of the logo's file input, or `None` while it is not mounted. */
    var logoInput: Option<string>

    constructor (inputMounted: bool)
      ensures logoImage == None && logoFileName == "" && logoOpacity == 1.0 && logoShape == Square
      ensures processedLogo == None
      ensures cornerImageTopLeft == None && cornerImageTopRight == None && cornerImageBottomLeft == None
      ensures logoInput == if inputMounted then Some("") else None
    {
      logoImage := None;
      logoFileName := "";
      logoOpacity := 1.0;
      logoShape := Square;
      processedLogo := None;
      cornerImageTopLeft := None;
      cornerImageTopRight := None;
      cornerImageBottomLeft := None;
      logoInput := if inputMounted then Some("") else None;
    }

    function CornerSlot(c: QRGenerator.Corner): Option<string>
      reads this
    {
      match c
      case TopLeft => cornerImageTopLeft
      case TopRight => cornerImageTopRight
      case BottomLeft => cornerImageBottomLeft
    }

    /** None of the three corner slots changed. */
    twostate predicate CornersUnchanged()
      reads this
    {
      && cornerImageTopLeft == old(cornerImageTopLeft)
      && cornerImageTopRight == old(cornerImageTopRight)
      && cornerImageBottomLeft == old(cornerImageBottomLeft)
    }

    /**
     * Picking a file in the mounted logo input fires `change` only when it
     * gives the input a new value; the same file picked twice in a row does not.
     */
    predicate PickFiresChange(value: string)
      reads this
    {
      logoInput.Some? && logoInput.value != value
    }

    /**
     * `handleLogoUpload`: with a file, record its name and its contents.
     * `value` is what the browser wrote into the input when the file was
     * picked, just before the `change` event ran the handler.
     */
    method HandleLogoUpload(value: string, file: Option<File>)
      modifies this
      ensures file.None? ==> logoImage == old(logoImage) && logoFileName == old(logoFileName)
      ensures file.Some? ==> logoImage == Some(file.value.dataUrl) && logoFileName == file.value.name
      ensures logoInput == if old(logoInput).Some? then Some(value) else None
      ensures logoOpacity == old(logoOpacity) && logoShape == old(logoShape)
      ensures processedLogo == old(processedLogo)
      ensures CornersUnchanged()
    {
      if logoInput.Some? {
        logoInput := Some(value);
      }
      if file.Some? {
        logoFileName := file.value.name;
        logoImage := Some(file.value.dataUrl);
      }
    }

    /** `handleCornerUpload(corner)`: with a file, write that corner's slot and no other. */
    method HandleCornerUpload(corner: QRGenerator.Corner, file: Option<File>)
      modifies this
      ensures file.Some? ==> CornerSlot(corner) == Some(file.value.dataUrl)
      ensures file.None? ==> CornerSlot(corner) == old(CornerSlot(corner))
      ensures forall c :: c != corner ==> CornerSlot(c) == old(CornerSlot(c))
      ensures logoImage == old(logoImage) && logoFileName == old(logoFileName)
      ensures logoOpacity == old(logoOpacity) && logoShape == old(logoShape)
      ensures processedLogo == old(processedLogo) && logoInput == old(logoInput)
    {
      if file.Some? {
        var result := file.value.dataUrl;
        if corner == QRGenerator.TopLeft { cornerImageTopLeft := Some(result); }
        if corner == QRGenerator.TopRight { cornerImageTopRight := Some(result); }
        if corner == QRGenerator.BottomLeft { cornerImageBottomLeft := Some(result); }
      }
    }

    /**
     * `removeLogo`: forget the logo and its name, and empty the file input if
     * it is mounted, so that picking any file again, the removed one included,
     * fires `change`.
     */
    method RemoveLogo()
      modifies this
      ensures logoImage == None && logoFileName == ""
      ensures logoInput == if old(logoInput).Some? then Some("") else None
      ensures old(logoInput).Some? ==> forall v :: v != "" ==> PickFiresChange(v)
      ensures logoOpacity == old(logoOpacity) && logoShape == old(logoShape)
      ensures processedLogo == old(processedLogo)
      ensures CornersUnchanged()
    {
      logoImage := None;
      logoFileName := "";
      if logoInput.Some? {
        logoInput := Some("");
      }
    }

    /**
     * The logo effect. Without a logo the processed logo is cleared and no
     * canvas call is made. Otherwise, once the image has decoded (`decoded`;
     * `None` when it never loads) and a 2D context is available, the image is
     * shaped on a new canvas and the result becomes the processed logo.
     * `issued` is every call made on that canvas.
     */
    method ProcessLogo(decoded: Option<Bitmap>, hasContext: bool) returns (issued: seq<Command>)
      modifies this
      ensures !QRGenerator.Truthy(old(logoImage)) ==> processedLogo == None && issued == []
      ensures QRGenerator.Truthy(old(logoImage)) && decoded.Some? && hasContext ==>
                && issued == LogoTrace(decoded.value, logoShape, logoOpacity)
                && processedLogo == Some(Run(Fresh(), issued))
      ensures QRGenerator.Truthy(old(logoImage)) && (decoded.None? || !hasContext) ==>
                processedLogo == old(processedLogo) && issued == []
      ensures logoImage == old(logoImage) && logoFileName == old(logoFileName)
      ensures logoOpacity == old(logoOpacity) && logoShape == old(logoShape) && logoInput == old(logoInput)
      ensures CornersUnchanged()
    {
      issued := [];
      if !QRGenerator.Truthy(logoImage) {
        processedLogo := None;
        return;
      }
      if decoded.None? {
        return;
      }
      var img := decoded.value;
      var canvas := new Canvas();
      if !hasContext {
        return;
      }

      ShapeLogo(canvas, img, logoShape, logoOpacity);
      issued := canvas.trace;
      processedLogo := Some(canvas.Current());
    }
  }

  /**
   * The drawing part of the logo effect: size the canvas to the crop, set the
   * opacity, build and apply the shape's clip, and draw the centred crop.
   */
  method ShapeLogo(canvas: Canvas, img: Bitmap, shape: Shape, opacity: real)
    modifies canvas
    ensures canvas.trace == old(canvas.trace) + LogoTrace(img, shape, opacity)
  {
    ghost var before := canvas.trace;
    var size := CropSide(img);
    canvas.Issue(SetWidth(size));
    canvas.Issue(SetHeight(size));

    canvas.Issue(SetGlobalAlpha(opacity));

    canvas.Issue(BeginPath);
    ghost var afterPrefix := canvas.trace;
    if shape == Circle {
      var s := size as real;
      canvas.Issue(Arc(s / 2.0, s / 2.0, s / 2.0));
      canvas.Issue(Clip);
    } else if shape == Rounded {
      var r := size as real * RoundedRadiusRatio;
      canvas.Issue(RoundRect(FullSquare(size), r));
      canvas.Issue(Clip);
    }
    assert canvas.trace == afterPrefix + ClipCommands(shape, size);

    canvas.Issue(DrawImage(CropRect(img), FullSquare(size)));
  }

  /**
   * A session: shaping a 200 by 100 logo as a circle at half opacity, then
   * removing it. Removal leaves the processed logo to the next run of the
   * effect, which clears it without drawing.
   */
  method LogoSession()
  {
    var home := new Home(true);
    var picked := "C:\\fakepath\\logo.png";
    assert home.PickFiresChange(picked);
    home.HandleLogoUpload(picked, Some(File("logo.png", "data:image/png;base64,AAAA")));
    assert home.logoInput == Some(picked) && !home.PickFiresChange(picked);
    home.logoShape := Circle;
    home.logoOpacity := 0.5;
    var issued := home.ProcessLogo(Some(Bitmap(200, 100)), true);
    LogoTraceEffect(Bitmap(200, 100), Circle, 0.5);
    assert home.processedLogo.value.width == 100;
    assert home.processedLogo.value.draws[0].src == Rect(50.0, 0.0, 100.0, 100.0);
    assert home.processedLogo.value.draws[0].alpha == 0.5;

    home.HandleCornerUpload(QRGenerator.TopRight, Some(File("tr.png", "data:tr")));
    assert home.CornerSlot(QRGenerator.TopLeft) == None;
    assert home.cornerImageTopRight == Some("data:tr");

    home.RemoveLogo();
    assert home.logoImage == None && home.logoFileName == "" && home.logoInput == Some("");
    assert home.PickFiresChange(picked);
    assert home.processedLogo.Some?;
    issued := home.ProcessLogo(Some(Bitmap(200, 100)), true);
    assert home.processedLogo == None && issued == [];
    assert home.cornerImageTopRight == Some("data:tr");
  }
}
