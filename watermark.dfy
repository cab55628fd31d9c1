/** The watermark compositor (`addWatermark` in App.tsx): it loads the
    generated PNG, draws it at the origin of a canvas of the image's size,
    writes the caption right- and bottom-aligned, inset by a padding equal
    to the font size, and re-encodes the canvas as a PNG data URL.

    The browser's image decoding, the 2D context and `toDataURL` are
    parameters (`Graphics`); a canvas is represented by its size and the
    drawing operations applied to it, in order. */
module Watermark {
  import opened Types

  /** The caption drawn on every generated image. */
  const WatermarkText := "Hội xe đạp thể thao Biên Hòa"

  const LoadFailedMessage := "Không thể tải hình ảnh để thêm watermark."
  const NoContextMessage := "Không thể lấy context canvas."

  /** Pixel dimensions of a decoded image. */
  datatype Size = Size(width: nat, height: nat)

  /** A drawing operation: the image at a position, or the caption in bold
      at a font size, right-aligned on `x` and bottom-aligned on `y`. */
  datatype DrawOp =
    | DrawImage(src: string, x: int, y: int)
    | FillText(text: string, fontSize: nat, x: int, y: int)

  datatype Canvas = Canvas(width: nat, height: nat, ops: seq<DrawOp>)

  /** The browser facilities the compositor uses: decoding an image source
      (`None` is `img.onerror`), whether `getContext('2d')` gives a context,
      and `canvas.toDataURL('image/png')`. */
  datatype Graphics = Graphics(loadImage: string -> Option<Size>, hasContext2d: bool,
                               toPngDataUrl: Canvas -> string)

  /** `Math.max(16, Math.floor(width / 45))`: one forty-fifth of the
      width, rounded down, never below 16 pixels. */
  function FontSize(width: nat): (px: nat)
    ensures px >= 16 && px >= width / 45
    ensures px == 16 || px == width / 45
  {
    if width / 45 > 16 then width / 45 else 16
  }

  /** The `src` the base64 payload is loaded from. */
  function PngSource(base64: string): string {
    "data:image/png;base64," + base64
  }

  /** The canvas after the drawing steps, for an image of `size` loaded from `src`. */
  function WatermarkedCanvas(src: string, size: Size): Canvas {
    var padding := FontSize(size.width);
    Canvas(size.width, size.height,
           [DrawImage(src, 0, 0),
            FillText(WatermarkText, FontSize(size.width), size.width - padding, size.height - padding)])
  }

  /** The geometry of the compositor: the canvas has the image's size, the
      image is drawn once at the origin, then the caption once, at font size
      `max(16, width / 45)` and anchored at the bottom-right corner inset by
      that same size. */
  lemma WatermarkGeometry(src: string, size: Size)
    ensures var canvas := WatermarkedCanvas(src, size);
      && canvas.width == size.width && canvas.height == size.height
      && |canvas.ops| == 2
      && canvas.ops[0] == DrawImage(src, 0, 0)
      && canvas.ops[1].FillText? && canvas.ops[1].text == WatermarkText
      && canvas.ops[1].fontSize >= 16
      && (size.width >= 16 * 45 ==> canvas.ops[1].fontSize == size.width / 45)
      && (size.width < 17 * 45 ==> canvas.ops[1].fontSize == 16)
      && canvas.ops[1].x == size.width - canvas.ops[1].fontSize
      && canvas.ops[1].y == size.height - canvas.ops[1].fontSize
  {
  }

  /** What `addWatermark` resolves to (`Success`, the PNG data URL) or
      rejects with (`Failure`, the message). */
  function WatermarkOutcome(base64: string, graphics: Graphics): Result<string, string> {
    match graphics.loadImage(PngSource(base64))
    case None => Failure(LoadFailedMessage)
    case Some(size) =>
      if !graphics.hasContext2d then Failure(NoContextMessage)
      else Success(graphics.toPngDataUrl(WatermarkedCanvas(PngSource(base64), size)))
  }

  /** `addWatermark`, step by step. */
  method AddWatermark(base64Image: string, graphics: Graphics) returns (result: Result<string, string>)
    ensures result == WatermarkOutcome(base64Image, graphics)
  {
    var src := "data:image/png;base64," + base64Image;
    assert src == PngSource(base64Image);
    var loaded := graphics.loadImage(src);
    if loaded.None? {
      return Failure(LoadFailedMessage);
    }
    var img := loaded.value;
    var canvas := Canvas(img.width, img.height, []);
    if !graphics.hasContext2d {
      return Failure(NoContextMessage);
    }
    canvas := canvas.(ops := canvas.ops + [DrawImage(src, 0, 0)]);
    var fontSize := if img.width / 45 > 16 then img.width / 45 else 16;
    var padding := fontSize;
    canvas := canvas.(ops := canvas.ops + [FillText(WatermarkText, fontSize, canvas.width - padding,
                                                    canvas.height - padding)]);
    assert canvas.ops == [DrawImage(src, 0, 0), FillText(WatermarkText, fontSize, img.width - padding, img.height - padding)];
    assert canvas == WatermarkedCanvas(src, img);
    result := Success(graphics.toPngDataUrl(canvas));
  }
}
