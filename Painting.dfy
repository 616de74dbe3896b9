/** The drawing surface, reduced to a recorder of abstract draw commands.
    Pens, brushes, fonts and antialiasing hints are state of the surface and
    are not recorded; each command carries the geometry and the colour that
    decide what appears. */
module Painting {
  import opened Geometry

  datatype Color = Rgba(red: int, green: int, blue: int, alpha: int)

  /** The text of a label. Numeric labels keep the value they show; how it
      is rounded and printed is not part of this model. */
  datatype Caption =
    | Literal(text: string)
    | Percent(soc: real)      // "<soc>%"
    | Kilowatts(power: real)  // "<power>kW"

  datatype DrawCommand =
    | FillRect(area: Rect, color: Color)
      /** Text whose horizontal middle is at centreX. */
    | CentredText(caption: Caption, centreX: real, baselineY: real, color: Color)
      /** Text whose right end is at rightX. */
    | RightAlignedText(caption: Caption, rightX: real, baselineY: real, color: Color)
      /** Text drawn from `origin`, turned a quarter turn counter-clockwise. */
    | RotatedText(caption: Caption, origin: Point, color: Color)
    | Line(from: Point, to: Point, color: Color)
    | Disc(centre: Point, radius: real, color: Color)
      /** A closed region filled with a vertical gradient derived from
          `color`, running from gradientTop to gradientBottom. */
    | FillGradient(outline: seq<Point>, gradientTop: real, gradientBottom: real, color: Color)
    | StrokePath(vertices: seq<Point>, color: Color, penWidth: real)

  /** A painter that remembers, in order, everything drawn on it. */
  class Recorder {
    var commands: seq<DrawCommand>

    constructor ()
      ensures commands == []
    {
      commands := [];
    }

    method Draw(c: DrawCommand)
      modifies this
      ensures commands == old(commands) + [c]
    {
      commands := commands + [c];
    }
  }
}
