/** The actions applied to a newly mapped window of a configured class. */
module Actions {
  /** The directions a window can be snapped in. */
  datatype SnapDir = Left | Right | Bottom | Top

  datatype ClassAction =
    | Stick
    | Maximize
    | SetLayer(layer: int)
    | Snap(direction: SnapDir)
}
