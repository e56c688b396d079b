/**
 * The backend's compositing step: shapes, text and a logo drawn onto a generated banner.
 *
 * Pixels are not modelled. An image keeps its dimensions and the log of the drawing
 * commands issued against it, so that what is verified is the geometry handed to the
 * drawing library and the decisions taken before a command is issued. The host the
 * backend runs on (its `os.name`, working directory and files) is a parameter.
 */
module Overlay {
  import opened Wrappers

  /** An RGB or RGBA colour, one integer per channel. */
  type Color = seq<int>

  /** The corners of a shape's bounding box, as the drawing library takes them. */
  datatype Box = Box(left: int, top: int, right: int, bottom: int)

  /** One drawing command issued against an image. */
  datatype DrawCommand =
    | RectangleOutline(box: Box, outline: Color, width: int)
    | EllipseOutline(box: Box, outline: Color, width: int)
      /** Text in the TrueType font at `fontPath`, stroked with `strokeWidth` in `strokeFill`. */
    | DrawText(position: (int, int), text: string, fontPath: string, fontSize: int,
               fill: Color, strokeWidth: int, strokeFill: Color)
      /** The logo file's pixels, scaled to `size`, pasted at `position` through their own alpha channel. */
    | PasteLogo(logoPath: string, position: (int, int), size: (int, int))

  /** The errors the overlay functions raise. */
  datatype Error =
      /** FileNotFoundError naming a font file name or a logo path. */
    | FileNotFound(name: string)
      /** The image library cannot decode the file at `path`. */
    | UnidentifiedImage(path: string)
      /** RuntimeError raised by an overlay function around the error that stopped it. */
    | RuntimeError(context: string, cause: Error)

  /**
   * What the backend sees of its host: `os.name`, the working directory that relative
   * paths are resolved against, the paths that exist, and the files the image library
   * can decode, with their width and height.
   */
  datatype Host = Host(os: string, cwd: string, files: set<string>, images: map<string, (int, int)>)

  /** A raster image: its dimensions and the commands drawn onto it so far. */
  class Image {
    var width: int
    var height: int
    var commands: seq<DrawCommand>

    constructor (width: int, height: int)
      ensures this.width == width && this.height == height && commands == []
    {
      this.width := width;
      this.height := height;
      commands := [];
    }
  }

  /** Outline width of every shape. */
  const ShapeStrokeWidth := 3

  // ---------------------------------------------------------------------------
  // Shapes
  // ---------------------------------------------------------------------------

  /**
   * The commands drawing a shape of kind `shapeType` issues. A rectangle spans `size`
   * from its top-left corner `position`; a circle is centred on `position` with radius
   * `size.0`; any other kind draws nothing.
   */
  function ShapeCommands(shapeType: string, position: (int, int), size: (int, int), color: Color): (r: seq<DrawCommand>)
    ensures |r| <= 1
    ensures r == [] <==> shapeType != "rectangle" && shapeType != "circle"
    ensures shapeType == "rectangle" ==>
      r[0].RectangleOutline? && r[0].outline == color && r[0].width == ShapeStrokeWidth &&
      (r[0].box.left, r[0].box.top) == position &&
      r[0].box.right - r[0].box.left == size.0 && r[0].box.bottom - r[0].box.top == size.1
    ensures shapeType == "circle" ==>
      r[0].EllipseOutline? && r[0].outline == color && r[0].width == ShapeStrokeWidth &&
      r[0].box.left + r[0].box.right == 2 * position.0 && r[0].box.top + r[0].box.bottom == 2 * position.1 &&
      r[0].box.right - r[0].box.left == 2 * size.0 && r[0].box.bottom - r[0].box.top == 2 * size.0
  {
    if shapeType == "rectangle" then
      var (x, y) := position;
      var (w, h) := size;
      [RectangleOutline(Box(x, y, x + w, y + h), color, ShapeStrokeWidth)]
    else if shapeType == "circle" then
      var (x, y) := position;
      var r := size.0;
      [EllipseOutline(Box(x - r, y - r, x + r, y + r), color, ShapeStrokeWidth)]
    else
      []
  }

  /** Draws the outline of a rectangle or a circle onto `image` and returns the same image. */
  method DrawShapeOnImage(image: Image, shapeType: string := "rectangle", position: (int, int) := (300, 100),
                          size: (int, int) := (200, 100), color: Color := [0, 255, 0])
    returns (result: Image)
    modifies image
    ensures result == image
    ensures image.width == old(image.width) && image.height == old(image.height)
    ensures image.commands == old(image.commands) + ShapeCommands(shapeType, position, size, color)
  {
    if shapeType == "rectangle" {
      var (x, y) := position;
      var (w, h) := size;
      image.commands := image.commands + [RectangleOutline(Box(x, y, x + w, y + h), color, ShapeStrokeWidth)];
    } else if shapeType == "circle" {
      var (x, y) := position;
      var r := size.0;
      image.commands := image.commands + [EllipseOutline(Box(x - r, y - r, x + r, y + r), color, ShapeStrokeWidth)];
    }
    result := image;
  }

  /** The second component of a circle's size is ignored. */
  lemma CircleIgnoresSecondSize(position: (int, int), radius: int, h1: int, h2: int, color: Color)
    ensures ShapeCommands("circle", position, (radius, h1), color) == ShapeCommands("circle", position, (radius, h2), color)
  {
  }

  /** A circle of radius r is drawn in the box a rectangle of size (2r, 2r) at (x-r, y-r) would occupy. */
  lemma CircleBoxIsSquareAroundCentre(x: int, y: int, r: int, h: int, color: Color)
    ensures ShapeCommands("circle", (x, y), (r, h), color)[0].box ==
            ShapeCommands("rectangle", (x - r, y - r), (2 * r, 2 * r), color)[0].box
  {
  }

  // ---------------------------------------------------------------------------
  // Fonts
  // ---------------------------------------------------------------------------

  /** The font file name a text overlay asks for. */
  function FontName(bold: bool): (r: string)
    ensures r == "arialbd.ttf" <==> bold
    ensures r == "arial.ttf" <==> !bold
  {
    if bold then "arialbd.ttf" else "arial.ttf"
  }

  /** The path separator `os.path.join` uses on `os`. */
  function Separator(os: string): (r: string)
    ensures |r| == 1 && (r == "\\" <==> os == "nt") && (r == "/" <==> os != "nt")
  {
    if os == "nt" then "\\" else "/"
  }

  /** The absolute path of a font in the fonts directory bundled with the backend. */
  function BundledFontPath(host: Host, font: string): (r: string)
    ensures |r| == |host.cwd| + |BundledFontsDirectory(Separator(host.os))| + |font|
    ensures r[..|host.cwd|] == host.cwd && r[|r| - |font|..] == font
    ensures r[|host.cwd|..|r| - |font|] == BundledFontsDirectory(Separator(host.os))
  {
    var directory := BundledFontsDirectory(Separator(host.os));
    var r := host.cwd + directory + font;
    assert r[|host.cwd|..|r| - |font|] == directory;
    r
  }

  /** `backend/banner_generator/static/fonts` joined with `sep`, with a separator on either side. */
  function BundledFontsDirectory(sep: string): string {
    sep + "backend" + sep + "banner_generator" + sep + "static" + sep + "fonts" + sep
  }

  const WindowsArial := "C:\\Windows\\Fonts\\arial.ttf"
  const PosixArial := "/usr/share/fonts/truetype/msttcorefonts/arial.ttf"

  /** The one system font probed when the bundled font is missing: regular Arial, whatever font was asked for. */
  function SystemFontPath(os: string): (r: Option<string>)
    ensures r.Some? <==> os == "nt" || os == "posix"
    ensures os == "nt" ==> r == Some(WindowsArial)
    ensures os == "posix" ==> r == Some(PosixArial)
    ensures r.Some? ==> |r.value| >= 9 && r.value[|r.value| - 9..] == "arial.ttf"
  {
    if os == "nt" then Some(WindowsArial)
    else if os == "posix" then Some(PosixArial)
    else None
  }

  /**
   * Resolves a font file: the bundled copy when it exists, otherwise the system font
   * of the host's OS when that exists, otherwise FileNotFoundError naming the font.
   */
  function GetFontPath(host: Host, defaultFont: string := "arial.ttf"): (r: Result<string, Error>)
    ensures BundledFontPath(host, defaultFont) in host.files ==> r == Success(BundledFontPath(host, defaultFont))
    ensures r.Success? ==> r.value in host.files
    ensures r.Success? && r.value != BundledFontPath(host, defaultFont) ==>
      BundledFontPath(host, defaultFont) !in host.files && SystemFontPath(host.os) == Some(r.value)
    ensures r.Failure? <==>
      BundledFontPath(host, defaultFont) !in host.files &&
      (SystemFontPath(host.os).None? || SystemFontPath(host.os).value !in host.files)
    ensures r.Failure? ==> r.error == FileNotFound(defaultFont)
  {
    var bundled := BundledFontPath(host, defaultFont);
    if bundled in host.files then
      Success(bundled)
    else
      var system := SystemFontPath(host.os);
      if system.Some? && system.value in host.files then
        Success(system.value)
      else
        Failure(FileNotFound(defaultFont))
  }

  /** Once neither bundled font exists, the regular and the bold request resolve to the same thing. */
  lemma SystemFallbackIgnoresFont(host: Host, font1: string, font2: string)
    requires BundledFontPath(host, font1) !in host.files && BundledFontPath(host, font2) !in host.files
    ensures GetFontPath(host, font1).Success? <==> GetFontPath(host, font2).Success?
    ensures GetFontPath(host, font1).Success? ==> GetFontPath(host, font1) == GetFontPath(host, font2)
  {
  }

  /** A bold request on a POSIX host without the bundled bold font gets the regular system Arial. */
  lemma BoldCanResolveToRegular(cwd: string)
    ensures var host := Host("posix", cwd, {PosixArial}, map[]);
            GetFontPath(host, FontName(true)) == Success(PosixArial)
  {
    var host := Host("posix", cwd, {PosixArial}, map[]);
    var bundled := BundledFontPath(host, FontName(true));
    assert bundled != PosixArial by {
      // "...arialbd.ttf" and "...arial.ttf" differ five characters from the end
      assert bundled[|bundled| - 5] == 'd' != PosixArial[|PosixArial| - 5];
    }
  }

  // ---------------------------------------------------------------------------
  // Text
  // ---------------------------------------------------------------------------

  /**
   * Draws `text` at `position` in the regular or bold font, stroked with the outline
   * colour and width. A font that cannot be resolved raises RuntimeError and leaves the
   * image as it was.
   */
  method OverlayTextOnImage(image: Image, host: Host, text: string := "Sale 50% OFF!", position: (int, int) := (50, 50),
                            fontSize: int := 42, textColor: Color := [255, 0, 0], textBold: bool := false,
                            textOutlineColor: Color := [0, 0, 0], textOutlineWidth: int := 2)
    returns (r: Result<Image, Error>)
    modifies image
    ensures image.width == old(image.width) && image.height == old(image.height)
    ensures r.Success? <==> GetFontPath(host, FontName(textBold)).Success?
    ensures r.Success? ==>
      r.value == image &&
      image.commands == old(image.commands) +
        [DrawText(position, text, GetFontPath(host, FontName(textBold)).value, fontSize,
                  textColor, textOutlineWidth, textOutlineColor)]
    ensures r.Failure? ==>
      image.commands == old(image.commands) &&
      r.error == RuntimeError("Failed to overlay text", FileNotFound(FontName(textBold)))
  {
    var fontName := FontName(textBold);
    var fontPath := GetFontPath(host, fontName);
    if fontPath.Failure? {
      return Failure(RuntimeError("Failed to overlay text", fontPath.error));
    }
    image.commands := image.commands +
      [DrawText(position, text, fontPath.value, fontSize, textColor, textOutlineWidth, textOutlineColor)];
    r := Success(image);
  }

  // ---------------------------------------------------------------------------
  // Logo
  // ---------------------------------------------------------------------------

  /**
   * The paste a logo overlay issues, or the error that stops it: a missing file, then a
   * file the image library cannot decode. A given size replaces the logo's own.
   */
  function LogoPaste(host: Host, logoPath: string, position: (int, int), resizeTo: Option<(int, int)>): (r: Result<DrawCommand, Error>)
    ensures logoPath !in host.files ==> r == Failure(FileNotFound(logoPath))
    ensures logoPath in host.files && logoPath !in host.images ==> r == Failure(UnidentifiedImage(logoPath))
    ensures r.Success? <==> logoPath in host.files && logoPath in host.images
    ensures r.Success? ==>
      r.value.PasteLogo? && r.value.logoPath == logoPath && r.value.position == position &&
      r.value.size == (if resizeTo.Some? then resizeTo.value else host.images[logoPath])
  {
    if logoPath !in host.files then
      Failure(FileNotFound(logoPath))
    else if logoPath !in host.images then
      Failure(UnidentifiedImage(logoPath))
    else
      var size := if resizeTo.Some? then resizeTo.value else host.images[logoPath];
      Success(PasteLogo(logoPath, position, size))
  }

  /** With a requested size, the pasted region has exactly that size, whatever the logo file's own. */
  lemma ResizedLogoHasRequestedSize(host: Host, logoPath: string, position: (int, int), size: (int, int))
    requires logoPath in host.files && logoPath in host.images
    ensures LogoPaste(host, logoPath, position, Some(size)).Success?
    ensures LogoPaste(host, logoPath, position, Some(size)).value.size == size
  {
  }

  /**
   * Pastes the logo at `logoPath` onto `image` through its alpha channel. Every failure
   * surfaces as RuntimeError, and a failing call leaves the image as it was.
   */
  method OverlayLogoOnImage(image: Image, host: Host, logoPath: string, position: (int, int) := (10, 10),
                            resizeTo: Option<(int, int)> := None)
    returns (r: Result<Image, Error>)
    modifies image
    ensures image.width == old(image.width) && image.height == old(image.height)
    ensures r.Success? <==> LogoPaste(host, logoPath, position, resizeTo).Success?
    ensures r.Success? ==>
      r.value == image &&
      image.commands == old(image.commands) + [LogoPaste(host, logoPath, position, resizeTo).value]
    ensures r.Failure? ==>
      image.commands == old(image.commands) &&
      r.error == RuntimeError("Failed to overlay logo", LogoPaste(host, logoPath, position, resizeTo).error)
    ensures logoPath !in host.files ==>
      r == Failure(RuntimeError("Failed to overlay logo", FileNotFound(logoPath)))
  {
    if logoPath !in host.files {
      return Failure(RuntimeError("Failed to overlay logo", FileNotFound(logoPath)));
    }
    if logoPath !in host.images {
      return Failure(RuntimeError("Failed to overlay logo", UnidentifiedImage(logoPath)));
    }
    var size := host.images[logoPath];
    if resizeTo.Some? {
      size := resizeTo.value;
    }
    image.commands := image.commands + [PasteLogo(logoPath, position, size)];
    r := Success(image);
  }
}
