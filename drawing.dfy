/**
 * The images the bot handles and the drawing commands applied to them.
 * Pixel rendering is abstract: drawing on an image appends the command to
 * the image's overlay list, in drawing order.
 */
module Drawing {

  datatype Point = Point(x: real, y: real)

  datatype Color = Red | White | Black

  /** A font passed to `draw.text`: PIL's built-in default, or a TrueType file at a size. */
  datatype Font = DefaultFont | TrueType(file: string, size: nat)

  datatype Overlay =
    /** `draw.rectangle([a, b], outline=color, width=width)` */
    | Outline(topLeft: Point, bottomRight: Point, color: Color, width: nat)
    /** `draw.rectangle((a, b), fill=color)` */
    | Filled(topLeft: Point, bottomRight: Point, color: Color)
    /** `draw.text(at, text, fill=color, font=font)` */
    | Caption(at: Point, text: string, color: Color, font: Font)

  /** An image: the bytes it was loaded from and what has been drawn on it since. */
  datatype Picture = Picture(pixels: seq<int>, overlays: seq<Overlay>)

  /** `ImageDraw.Draw(image)` followed by the commands `ops`, which change the image in place. */
  function Draw(image: Picture, ops: seq<Overlay>): (drawn: Picture)
    ensures drawn.pixels == image.pixels
    ensures |drawn.overlays| == |image.overlays| + |ops|
    ensures drawn.overlays[..|image.overlays|] == image.overlays
    ensures drawn.overlays[|image.overlays|..] == ops
  {
    image.(overlays := image.overlays + ops)
  }

  /** Drawing one batch of commands after another is drawing them all at once. */
  lemma DrawInSteps(image: Picture, first: seq<Overlay>, second: seq<Overlay>)
    ensures Draw(Draw(image, first), second) == Draw(image, first + second)
  {
    assert image.overlays + first + second == image.overlays + (first + second);
  }

  /** The number of rectangle outlines among the commands. */
  function OutlineCount(ops: seq<Overlay>): nat
  {
    if ops == [] then 0 else (if ops[0].Outline? then 1 else 0) + OutlineCount(ops[1..])
  }

  lemma {:induction false} OutlineCountAppend(a: seq<Overlay>, b: seq<Overlay>)
    ensures OutlineCount(a + b) == OutlineCount(a) + OutlineCount(b)
  {
    if a == [] {
      assert a + b == b;
    } else {
      assert (a + b)[1..] == a[1..] + b;
      OutlineCountAppend(a[1..], b);
    }
  }
}
