/** The contents of one board cell. */
module Tiles {

  datatype Option<T> = None | Some(value: T)

  /** What a cell is; `MyUnit` marks a cell holding a friendly unit. */
  datatype TileType = Empty | Obstacle | SpawnPoint | MyUnit

  /** A unit, identified by its id (a `usize`). */
  datatype Unit = Unit(id: nat)

  /** One cell of the board: its type, the unit standing on it, and whether
      it is highlighted. */
  datatype Tile = Tile(tileType: TileType, unit: Option<Unit>, backLight: bool)

  /** A cell of the given type with no unit and no highlight, as the tests
      build their boards. */
  function NewForTest(tileType: TileType): (t: Tile)
  {
    Tile(tileType, None, false)
  }
}
