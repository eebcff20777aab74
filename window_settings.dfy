/**
 * The labels of the window settings panel that name what the two dock
 * ratios measure. Docked to the top or bottom edge, the fill ratio is a
 * height and the span ratio a width; for every other side it is the other
 * way round.
 */
module WindowSettings {
  import opened DockGeometry

  const Width: string := "Width"
  const Height: string := "Height"
  const OfScreenWidth: string := "Percentage of screen width"
  const OfScreenHeight: string := "Percentage of screen height"

  /** The label of the fill ratio. */
  function DockFillLabel(dock: DockSide): (text: string)
    ensures text == Height <==> dock == Top || dock == Bottom
    ensures text == Width <==> !(dock == Top || dock == Bottom)
  {
    if dock == Top || dock == Bottom then Height else Width
  }

  /** The description under the fill ratio. */
  function DockFillDescription(dock: DockSide): (description: string)
    ensures description == OfScreenHeight <==> DockFillLabel(dock) == Height
    ensures description == OfScreenWidth <==> DockFillLabel(dock) == Width
  {
    if dock == Top || dock == Bottom then OfScreenHeight else OfScreenWidth
  }

  /** The label of the span ratio: always the other of width and height. */
  function DockSpaceLabel(dock: DockSide): (text: string)
    ensures text == Width || text == Height
    ensures text != DockFillLabel(dock)
  {
    if dock == Top || dock == Bottom then Width else Height
  }

  /** The description under the span ratio. */
  function DockSpaceDescription(dock: DockSide): (description: string)
    ensures description == OfScreenWidth <==> dock == Top || dock == Bottom
    ensures description == OfScreenWidth <==> DockSpaceLabel(dock) == Width
    ensures description == OfScreenHeight <==> DockSpaceLabel(dock) == Height
  {
    if dock == Top || dock == Bottom then OfScreenWidth else OfScreenHeight
  }

  /** The labels describe the geometry: the dimension the fill label names is the
      one the fill ratio sizes (with the minimum-size floor), and the dimension the
      span label names is the one the span ratio sizes. */
  lemma LabelsMatchDockGeometry(side: DockSide, fill: real, space: real, wa: Bounds,
                                minWidth: int, minHeight: int)
    requires side != Off
    ensures var b := DockBounds(side, fill, space, wa, minWidth, minHeight);
            && (DockFillLabel(side) == Width ==> b.width == MaxInt(minWidth, Scaled(fill, wa.width)))
            && (DockFillLabel(side) == Height ==> b.height == MaxInt(minHeight, Scaled(fill, wa.height)))
            && (DockSpaceLabel(side) == Width ==> b.width == Scaled(space, wa.width))
            && (DockSpaceLabel(side) == Height ==>
                  b.height == if side == Center then MaxInt(minHeight, Scaled(space, wa.height))
                              else Scaled(space, wa.height))
  {
  }
}
