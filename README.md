# QR code generator with logo and corner images: a Dafny model

This project models the logic in a small Next.js QR code generator. The page lets a user upload a logo and up to three corner images (top-left, top-right, bottom-left). It shapes the logo on a canvas and hands everything to a `QRGenerator` component. That component turns its properties into the options record of the `qr-code-styling` library, creates one library instance, and lays the corner images over the symbol with CSS.

The model has five modules:

- `Canvas2D` (canvas2d.dfy): the part of the browser canvas the page uses.
  - The calls are a `Command` datatype.
  - `Step`/`Run` give each call's effect on the context: size, global alpha, path, clip stack, and the draws done so far.
  - `Coverage` gives the alpha that source-over compositing leaves at a point.
  - A new canvas is 300×150. Setting its width or height resets the context. A `globalAlpha` outside [0, 1] is ignored. A `drawImage` whose source rectangle has zero width or height paints nothing.
  - The class `Canvas` records the calls made on it.
- `LogoShaper` (logo_shaper.dfy): the logo effect's geometry.
  - It covers the crop side and the centred crop rectangle.
  - It covers the calls made for each shape (`LogoTrace`).
  - Lemmas state what those calls leave on the canvas and where the result is transparent or has the chosen opacity.
- `QRGenerator` (qr_generator.dfy):
  - The options derivation (`BuildOptions`).
  - The overlay placement (`Overlays`, `Placement`).
  - The renderer lifecycle, as class `Generator` with the nullable `qrCode` reference and a log of the calls made into the library.
- `HomePage` (home_page.dfy): class `Home` with the page's logo and corner slots. It has the upload and remove handlers and the logo effect (`ProcessLogo`), which draws through a `Canvas`.
- `Wrappers` (wrappers.dfy): `Option`, standing for `null`/`undefined`.

JavaScript truthiness is modelled explicitly. A missing image and an empty string `""` both count as "no image". The same rule decides the data fallback (`data || "https://example.com"`).

## Model

| member | source | states |
|---|---|---|
| `LogoShaper.CropSide` | src/app/page.tsx:84-86 | the crop side is at most both image dimensions and equals one of them, i.e. it is `min(width, height)` |
| `LogoShaper.CropRect` | src/app/page.tsx:103-106 | the source rectangle is side×side and centred (`2·offsetX = width − side`, `2·offsetY = height − side`); both offsets are ≥ 0, one of them is 0, and the rectangle lies inside the image |
| `LogoShaper.ClipCommands` | src/app/page.tsx:92-101 | the square shape issues no path or clip call; the circle issues an `arc` of radius side/2 and the rounded shape a whole-canvas `roundRect` of radius side·0.2, each followed by a single `clip()`; no call resizes, changes the alpha or draws |
| `LogoShaper.LogoTraceOrder` | src/app/page.tsx:84-106 | the effect's calls (`LogoTrace`) size the canvas to the crop first and never resize it afterwards, set the opacity once, clip only for the circle and the rounded shape, and end with the single `drawImage` of the centred crop onto the whole canvas |
| `LogoShaper.ClipCommandsEffect` | src/app/page.tsx:91-101 | from an empty path, the shape's path-and-clip calls add exactly that shape's mask to the clip stack and change neither the size, the alpha nor the draws |
| `LogoShaper.LogoTraceEffect` | src/app/page.tsx:80-106 | the effect's calls leave a canvas of exactly side×side holding a single draw of the centred crop onto the whole canvas, with the opacity as its alpha (1 when the opacity is out of range) and the shape's mask as its clip; an image with a zero dimension gives a 0×0 canvas with nothing drawn |
| `LogoShaper.CircleMaskIsInscribedDisc` | src/app/page.tsx:93-95 | a point passes the circle mask iff its distance from (side/2, side/2) is at most side/2 (this unfolds the mask to the disc; the geometry is in the two rows below) |
| `LogoShaper.SquareMaskClipsNothing` | src/app/page.tsx:101 | the square shape clips no point |
| `LogoShaper.MaskWithinCanvas` | src/app/page.tsx:92-100 | every point the circle or rounded mask lets through lies within [0, side]² |
| `LogoShaper.MaskContainsCentre` | src/app/page.tsx:92-100 | the canvas centre passes every mask |
| `LogoShaper.MaskExcludesCorners` | src/app/page.tsx:93-99 | for a non-empty canvas, the circle and rounded (radius 0.2·side) masks exclude all four canvas corners |
| `LogoShaper.LogoAlpha` | src/app/page.tsx:88-106 | at each point of the shaped canvas the alpha is the opacity inside the mask and 0 outside; an empty crop leaves every point transparent |
| `LogoShaper.AlphaScalesWithOpacity` | src/app/page.tsx:89 | for an opacity in [0, 1], the alpha at every point is the opacity times the alpha at opacity 1 |
| `LogoShaper.CircleHalfOpacityWideLogo` | src/app/page.tsx:84-106 | a 200×100 logo, circle mask, opacity 0.5 becomes 100×100 cropped from (50, 0); it is transparent at the corner, 0.5 at the centre and ≤ 0.5 everywhere |
| `Canvas2D.RunKeepsAlphasInRange` | src/app/page.tsx:89 | whatever is assigned to `globalAlpha`, the context's alpha and every draw's alpha stay in [0, 1] |
| `Canvas2D.Coverage` | src/app/page.tsx:106 | the composited alpha stays in [0, 1] when every draw's alpha does, and it is 0 where no draw covers the point |
| `Canvas2D.Canvas.Issue` | src/app/page.tsx:85-106 | each call is appended to the canvas's record, and the canvas state advances by exactly that call's effect |
| `HomePage.ShapeLogo` | src/app/page.tsx:84-106 | the calls made on the canvas are exactly `LogoTrace` of the image, shape and opacity |
| `HomePage.Home.ProcessLogo` | src/app/page.tsx:70-110 | no logo: the processed logo becomes null and no canvas call is made; logo decoded with a context: the processed logo is the state left by `LogoTrace`; image never loads or no context: the processed logo is unchanged; no other slot changes |
| `HomePage.Home.HandleCornerUpload` | src/app/page.tsx:55-67 | with a file, the chosen corner's slot holds its data URL and the other two slots and all other state are unchanged; without a file, nothing changes |
| `HomePage.Home.HandleLogoUpload` | src/app/page.tsx:43-53 | with a file, the logo image and file name are its data URL and name; without one, they do not change; a mounted file input holds the value the browser gave it when the file was picked; the corner slots never change |
| `HomePage.Home.RemoveLogo` | src/app/page.tsx:112-118 | the logo image becomes null and the file name `""`; a mounted file input is emptied, so picking any file again, the removed one included, fires `change`; processed logo, shape, opacity and corners are unchanged |
| `HomePage.Home.constructor` | src/app/page.tsx:27-36 | initial state: no logo, empty file name, opacity 1, square shape, no processed logo, no corner images |
| `QRGenerator.BuildOptions` | src/components/QRGenerator.tsx:58-87 | the payload is never empty (empty data gives `"https://example.com"`, other data passes through); width = height = size; dot, background and corner types pass through; if any corner image is present, the corner-square and corner-dot colours are `"transparent"`, otherwise both are the dot colour; `hideBackgroundDots` is always true; margin and image size are the resolved properties; the image is absent exactly when the logo is null or empty |
| `QRGenerator.CornerColorsTransparentIff` | src/components/QRGenerator.tsx:58-79 | unless the dot colour is itself `"transparent"`, both corner colours are `"transparent"` iff some corner image is present |
| `QRGenerator.DefaultsApply` | src/components/QRGenerator.tsx:36-41 | with the optional properties left out, the image size is 0.4, the margin 10 and every corner overlay 40×40 |
| `QRGenerator.Overlays` | src/components/QRGenerator.tsx:137-179 | there is one overlay per present corner image and none for an absent one; no corner appears twice; each overlay shows that corner's image at side `cornerItemSize`, inset by the padding (20) from its two adjacent edges |
| `QRGenerator.OverlaysSitOnSymbolCorners` | src/components/QRGenerator.tsx:127-179 | inside the container (symbol plus 20 px padding per side), the top-left overlay's top-left corner is the symbol's top-left corner; the top-right one's top-right corner and the bottom-left one's bottom-left corner are the symbol's matching corners |
| `QRGenerator.Generator.constructor` | src/components/QRGenerator.tsx:43-44 | the instance reference starts null, with no call made and nothing appended |
| `QRGenerator.Generator.Configure` | src/components/QRGenerator.tsx:89-98 | when the instance is absent, it is constructed with the derived options and, if the container is mounted, the container is cleared and the instance appended; otherwise the same instance is only updated; the invariant keeps exactly one construction, which is the first call |
| `QRGenerator.Generator.DownloadQR` | src/components/QRGenerator.tsx:104-110 | without an instance nothing happens; otherwise exactly one download named `"qr-code"` with the requested extension is requested |

## Left out

- Reading files (`FileReader`), decoding images (`Image.onload`) and encoding the canvas (`canvas.toDataURL`) are asynchronous browser I/O. The handlers and `ProcessLogo` take what the read or the decode produced as parameters. The processed logo's data URL is represented by the canvas state it encodes.
- Ordering of asynchronous completions is not modelled. The source never cancels a pending `onload`. An image that finishes decoding after the logo was removed or replaced can still set the processed logo. The model runs each effect to completion in one step.
- `ProcessLogo`: the captured `logoShape`/`logoOpacity` are those of the render that started the effect. The model uses the current fields, which is the same under one-step execution.
- The `qr-code-styling` library: QR encoding, error correction, rendering, and the internals of `append`, `update` and `download` are foreign code. Its instance only remembers its last options, and the component's calls into it are recorded.
- The SSR gate (`isClient`), the dynamic import and React's effect scheduling are framework lifecycle. `Generator.Configure` stands for one completed `initQR` run.
- Canvas rasterisation and floating point: pixels, anti-aliasing and the exact curve of `arc`/`roundRect` are not modelled. Coordinates are exact reals and masks are exact point sets. `Coverage` assumes opaque source pixels.
- Canvas exceptions for negative radii, and the radius scaling of `roundRect` when radii exceed the box, are not modelled. Here every radius is non-negative and 0.2·side never exceeds half the side.
- `OverlaysSitOnSymbolCorners` takes the container as the symbol's `size` plus 20 px of padding on each side. That is how the CSS lays it out when the library renders exactly `size`×`size`.
- Corner-image removal buttons, sliders, selects, colour pickers and all other markup are UI. Slider ranges are hints, not enforced, and the model accepts any number.
- These files perform no compositing of corner images into an export raster, no raster-inside-SVG export and no export fallback. Downloads go straight to the library, and the corner images are CSS-positioned `<img>` elements. None of that is part of this model.
- Repeating the logo effect on the same inputs gives the same result because every member here is a function of its inputs. No separate idempotence lemma is stated.
