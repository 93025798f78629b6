/** The drawing surface, reduced to the commands the game issues on it. */
module Canvas {

  /** A fill colour, as the red, green and blue bytes of its `#rrggbb` string. */
  datatype Color = Rgb(red: int, green: int, blue: int)

  const RoadLight: Color := Rgb(0x70, 0x70, 0x70)  // "#707070"
  const RoadDark: Color := Rgb(0x60, 0x60, 0x60)   // "#606060"
  const Red: Color := Rgb(0xff, 0x00, 0x00)        // "#ff0000"
  const White: Color := Rgb(0xff, 0xff, 0xff)      // "#ffffff"
  const Sky: Color := Rgb(0x87, 0xce, 0xeb)        // "#87CEEB"
  const Grass: Color := Rgb(0x22, 0x8b, 0x22)      // "#228B22"

  datatype Point = Point(x: real, y: real)

  /** The three car bitmaps; which one is shown follows the steering input. */
  datatype CarImage = Straight | TurnLeft | TurnRight

  datatype Command =
    /** clearRect over the whole canvas. */
    | Clear
    /** fillRect(left, top, width, height). */
    | Rect(fill: Color, left: real, top: real, width: real, height: real)
    /** A filled path moveTo(a), lineTo(b), lineTo(c), lineTo(d), closePath, fill. */
    | Quad(color: Color, a: Point, b: Point, c: Point, d: Point)
    /** drawImage(image, left, top, width, height). */
    | Sprite(image: CarImage, left: real, top: real, width: real, height: real)
    /**
     * drawImage(treeImage, ...) for a tree whose image is centred on `centerX`, stands on `baseY`
     * and is `height` tall; its width follows the bitmap's aspect ratio.
     */
    | TreeImage(centerX: real, baseY: real, height: real)

  /**
   * A band between two horizontal lines: from `l1` to `r1` on line `y1` and from `l2` to
   * `r2` on line `y2`, traced left-top, right-top, right-bottom, left-bottom.
   */
  function Band(color: Color, y1: real, l1: real, r1: real, y2: real, l2: real, r2: real): Command {
    Quad(color, Point(l1, y1), Point(r1, y1), Point(r2, y2), Point(l2, y2))
  }
}
