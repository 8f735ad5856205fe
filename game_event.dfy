/** Event kinds exchanged between the render thread and the event-loop thread. */
module GameEvents {

  /** Kinds of input event the render thread sends to the event loop
      (`MouseCliked` keeps the repository's own spelling). */
  datatype GameEvent = TileClicked | WindowResized | MouseCliked

  /** Kinds of feedback event the logic thread sends back to the render thread. */
  datatype GuiEvent = BackLightTile | MoveUnit
}
