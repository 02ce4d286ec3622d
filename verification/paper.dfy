/** Page geometry: the fixed table that maps a paper size and an orientation
    to the page's width and height in millimetres.

    The program accepts the paper size and orientation as free-form strings:
    only "A4" selects A4 (every other value selects A3) and only "portrait"
    selects portrait (every other value selects landscape). */
module Paper {

  /** Width and height of a page, in millimetres. */
  datatype Dims = Dims(width: real, height: real)

  predicate IsA4(paperSize: string) { paperSize == "A4" }

  predicate IsPortrait(orientation: string) { orientation == "portrait" }

  /** The page with its sides exchanged (portrait <-> landscape). */
  function Turn(d: Dims): Dims { Dims(d.height, d.width) }

  /** The table used by the grid layout. */
  function Dimensions(paperSize: string, orientation: string): (d: Dims)
    // the two supported sheets, in portrait
    ensures IsA4(paperSize) && IsPortrait(orientation) ==> d == Dims(210.0, 297.0)
    ensures !IsA4(paperSize) && IsPortrait(orientation) ==> d == Dims(297.0, 420.0)
    // portrait means the long side is vertical, landscape that it is horizontal
    ensures d.width < d.height <==> IsPortrait(orientation)
  {
    if IsA4(paperSize) then
      if IsPortrait(orientation) then Dims(210.0, 297.0) else Dims(297.0, 210.0)
    else
      if IsPortrait(orientation) then Dims(297.0, 420.0) else Dims(420.0, 297.0)
  }

  /** The second copy of the table, kept separately by the pose calculator
      (there as a conditional expression per paper size). */
  function PoseDimensions(paperSize: string, orientation: string): (d: Dims)
    // both copies of the table give the same page on every input
    ensures d == Dimensions(paperSize, orientation)
  {
    if IsA4(paperSize) then
      (if IsPortrait(orientation) then Dims(210.0, 297.0) else Dims(297.0, 210.0))
    else
      (if IsPortrait(orientation) then Dims(297.0, 420.0) else Dims(420.0, 297.0))
  }

  /** A landscape page is the portrait page of the same size turned by a
      quarter. */
  lemma LandscapeIsTurnedPortrait(paperSize: string, orientation: string)
    requires !IsPortrait(orientation)
    ensures Dimensions(paperSize, orientation) == Turn(Dimensions(paperSize, "portrait"))
  {
  }

  /** Every paper size other than "A4" is laid out as A3. */
  lemma UnknownSizeIsA3(paperSize: string, orientation: string)
    requires paperSize != "A4"
    ensures Dimensions(paperSize, orientation) == Dimensions("A3", orientation)
  {
  }

  /** Every page has positive sides. */
  lemma PositiveSides(paperSize: string, orientation: string)
    ensures Dimensions(paperSize, orientation).width > 0.0
    ensures Dimensions(paperSize, orientation).height > 0.0
  {
  }
}
