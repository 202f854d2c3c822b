/**
 * What a plot is drawn against and what it draws.
 *
 * Drawing is modelled as the sequence of primitive commands a plot issues
 * to the graphics surface; pens and brushes are reduced to a colour tag.
 */
module Drawing {
  import opened Numbers

  datatype Rgb = Rgb(red: int, green: int, blue: int)

  const Black := Rgb(0, 0, 0)
  const White := Rgb(255, 255, 255)

  /** A colour gradient object.  Its colour mapping (`GetColor`) is not part
      of this model; what matters here is which gradient a plot holds. */
  class Gradient {
    const low: Rgb
    const high: Rgb

    /** `new LinearGradient(low, high)` */
    constructor (low: Rgb, high: Rgb)
      ensures this.low == low && this.high == high
    {
      this.low := low;
      this.high := high;
    }
  }

  /** A pen or brush colour: a solid colour, or the colour `Shade(g, t)`
      that gradient `g` gives to parameter `t`. */
  datatype Colour = Solid(rgb: Rgb) | Shade(gradient: Gradient, t: Num)

  datatype Font = Font(family: string, size: real)

  /** One primitive drawing call on the graphics surface. */
  datatype Command =
    | Line(pen: Colour, x1: int, y1: int, x2: int, y2: int)
    | FillRect(brush: Colour, x: int, y: int, width: int, height: int)
    | OutlineRect(pen: Colour, x: int, y: int, width: int, height: int)
    | Text(text: string, font: Font, brush: Colour, left: real, top: real)
    | Marker(x: int, y: int)

  /** `System.Drawing.Rectangle` */
  datatype Rectangle = Rectangle(left: int, top: int, width: int, height: int) {
    function Right(): int { left + width }
    function Bottom(): int { top + height }
  }

  /** The part of a physical axis the plots read: the world range of its
      axis, the pixel coordinate of its two ends along its own direction,
      and its world-to-pixel transform (`WorldToPhysical`, not part of this
      model), which yields the pixel coordinate along that direction. */
  datatype PhysicalAxis = PhysicalAxis(
    worldMin: real, worldMax: real,
    physicalMin: int, physicalMax: int,
    worldToPhysical: Num -> real)
  {
    /** `(int) WorldToPhysical(v, false)` along the axis direction. */
    function Pixel(v: Num): int { TruncToInt(worldToPhysical(v)) }
  }

  datatype AxisKind = Linear | DateTime

  /** An axis a plot suggests: `new LinearAxis(min, max)` or
      `new DateTimeAxis(min, max)`. */
  datatype Axis = Axis(kind: AxisKind, worldMin: Num, worldMax: Num)
}
