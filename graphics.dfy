/** The Core Graphics value types the panel uses, with `CGFloat` read as an exact `real`. */
module Graphics {

  /** A `CGSize`: a width and a height. */
  datatype Size = Size(width: real, height: real)

  /** `CGSize.zero`. */
  const Zero: Size := Size(0.0, 0.0)
}
