/** The logic-side half of moving a unit: check the selected and the target
    cell, retype the target, and tell the render thread to move the unit. */
module MoveUnits {
  import opened Tiles
  import GameEvents

  /** A message on the feedback channel: its kind and the pair
      (destination index, unit id) that the payload encodes. */
  type GuiMessage = (GameEvents.GuiEvent, (nat, nat))

  /** The ways a move can fail, one per early return of the source. */
  datatype MoveError = CannotGetLastTile | CannotGetUnit | CannotGetTile | SendFailed

  datatype Result = Ok | Err(error: MoveError)

  /** The text the source reports for each failure. */
  function Message(e: MoveError): (m: string)
  {
    match e
    case CannotGetLastTile => "Can't get last tile"
    case CannotGetUnit => "Can't get unit"
    case CannotGetTile => "Can't get tile"
    case SendFailed => "Failed to send move unit"
  }

  /** The sending end of the feedback channel. `outbox` is everything sent so
      far, in order; a send fails once the receiving end is gone. */
  class GuiSender {
    var outbox: seq<GuiMessage>
    var receiverAlive: bool

    constructor ()
      ensures outbox == [] && receiverAlive
    {
      outbox := [];
      receiverAlive := true;
    }

    /** The receiving end is dropped; every later send fails. */
    method DropReceiver()
      modifies this
      ensures !receiverAlive && outbox == old(outbox)
    {
      receiverAlive := false;
    }

    method Send(m: GuiMessage) returns (ok: bool)
      modifies this
      ensures ok == old(receiverAlive) && receiverAlive == old(receiverAlive)
      ensures outbox == if ok then old(outbox) + [m] else old(outbox)
    {
      ok := receiverAlive;
      if ok {
        outbox := outbox + [m];
      }
    }
  }

  /** What one call does: the new board, the messages it sent, its result. */
  datatype MoveOutcome = MoveOutcome(tiles: seq<Tile>, sent: seq<GuiMessage>, result: Result)

  /** True when the checks before any write all pass: the selected cell exists
      and holds a unit, and the destination cell exists. */
  predicate CanMove(tiles: seq<Tile>, index: nat, lastSelectedIndex: nat)
  {
    lastSelectedIndex < |tiles| && tiles[lastSelectedIndex].unit.Some? && index < |tiles|
  }

  /** The effect of `move_unit(index, last_selected_index)` on a board `tiles`
      and a feedback channel whose receiver is alive or not. */
  function MoveUnitOutcome(tiles: seq<Tile>, index: nat, lastSelectedIndex: nat, receiverAlive: bool): (o: MoveOutcome)
    // the board never changes length, and no unit and no highlight is ever written
    ensures |o.tiles| == |tiles|
    ensures forall j :: 0 <= j < |tiles| ==> o.tiles[j].unit == tiles[j].unit && o.tiles[j].backLight == tiles[j].backLight
    // each failure, and success, happens exactly when the source takes that exit
    ensures o.result == Err(CannotGetLastTile) <==> lastSelectedIndex >= |tiles|
    ensures o.result == Err(CannotGetUnit) <==> lastSelectedIndex < |tiles| && tiles[lastSelectedIndex].unit.None?
    ensures o.result == Err(CannotGetTile) <==>
              lastSelectedIndex < |tiles| && tiles[lastSelectedIndex].unit.Some? && index >= |tiles|
    ensures o.result == Err(SendFailed) <==> CanMove(tiles, index, lastSelectedIndex) && !receiverAlive
    ensures o.result == Ok <==> CanMove(tiles, index, lastSelectedIndex) && receiverAlive
    // the three checks come before any write
    ensures !CanMove(tiles, index, lastSelectedIndex) ==> o.tiles == tiles
    // once the checks pass, the destination is retyped, even if the send then fails
    ensures CanMove(tiles, index, lastSelectedIndex) ==>
              o.tiles[index].tileType == MyUnit &&
              forall j :: 0 <= j < |tiles| && j != index ==> o.tiles[j] == tiles[j]
    // one message, naming the destination and the selected cell's unit, on success only
    ensures o.result == Ok ==> o.sent == [(GameEvents.MoveUnit, (index, tiles[lastSelectedIndex].unit.value.id))]
    ensures o.result != Ok ==> o.sent == []
  {
    if lastSelectedIndex >= |tiles| then
      MoveOutcome(tiles, [], Err(CannotGetLastTile))
    else if tiles[lastSelectedIndex].unit.None? then
      MoveOutcome(tiles, [], Err(CannotGetUnit))
    else if index >= |tiles| then
      MoveOutcome(tiles, [], Err(CannotGetTile))
    else
      var unit := tiles[lastSelectedIndex].unit.value;
      var retyped := tiles[index := tiles[index].(tileType := MyUnit)];
      if receiverAlive then
        MoveOutcome(retyped, [(GameEvents.MoveUnit, (index, unit.id))], Ok)
      else
        MoveOutcome(retyped, [], Err(SendFailed))
  }

  /** The source neither clears the selected cell nor hands its unit to the
      destination, so after a successful move the same unit can be moved again
      from the same cell, and the second message names the same unit. */
  lemma SelectedUnitStaysAfterMove(tiles: seq<Tile>, index: nat, lastSelectedIndex: nat, index2: nat)
    requires MoveUnitOutcome(tiles, index, lastSelectedIndex, true).result == Ok
    requires index2 < |tiles|
    ensures var once := MoveUnitOutcome(tiles, index, lastSelectedIndex, true);
            var twice := MoveUnitOutcome(once.tiles, index2, lastSelectedIndex, true);
            twice.result == Ok && twice.sent == [(GameEvents.MoveUnit, (index2, tiles[lastSelectedIndex].unit.value.id))]
  {
  }

  /** The object that performs moves on the shared board and reports them on
      the feedback channel. */
  class MoveUnit {
    const tiles: array<Tile>
    const tx: GuiSender

    constructor (tiles: array<Tile>, tx: GuiSender)
      ensures this.tiles == tiles && this.tx == tx
    {
      this.tiles := tiles;
      this.tx := tx;
    }

    method MoveUnit(index: nat, lastSelectedIndex: nat) returns (r: Result)
      modifies tiles, tx
      ensures var o := MoveUnitOutcome(old(tiles[..]), index, lastSelectedIndex, old(tx.receiverAlive));
              tiles[..] == o.tiles && tx.outbox == old(tx.outbox) + o.sent && r == o.result
      ensures tx.receiverAlive == old(tx.receiverAlive)
    {
      if lastSelectedIndex >= tiles.Length {
        return Err(CannotGetLastTile);
      }
      var lastTile := tiles[lastSelectedIndex];
      if lastTile.unit.None? {
        return Err(CannotGetUnit);
      }
      var unit := lastTile.unit.value;
      var encoded := (index, unit.id);
      if index >= tiles.Length {
        return Err(CannotGetTile);
      }
      tiles[index] := tiles[index].(tileType := MyUnit);
      var ok := tx.Send((GameEvents.MoveUnit, encoded));
      if !ok {
        return Err(SendFailed);
      }
      return Ok;
    }
  }

  /** A board of `gridSize * gridSize` empty cells, as the tests set one up. */
  method EmptyBoard(gridSize: nat) returns (tiles: array<Tile>)
    ensures fresh(tiles)
    ensures tiles.Length == gridSize * gridSize
    ensures forall j :: 0 <= j < tiles.Length ==> tiles[j] == NewForTest(Empty)
  {
    tiles := new Tile[gridSize * gridSize](_ => NewForTest(Empty));
  }

  /** Moving from a cell without a unit sends nothing. */
  method TestNoSelectedUnit(gridSize: nat) returns (received: seq<GuiMessage>)
    ensures received == []
  {
    var tiles := EmptyBoard(gridSize);
    var tx := new GuiSender();
    var sut := new MoveUnit(tiles, tx);
    var _ := sut.MoveUnit(0, 1);
    received := tx.outbox;
  }

  /** Moving from an existing cell without a unit reports "Can't get unit". */
  method TestNoUnitMessage(gridSize: nat) returns (message: string)
    requires gridSize >= 2
    ensures message == "Can't get unit"
  {
    var tiles := EmptyBoard(gridSize);
    assert gridSize * gridSize >= 2 * gridSize;
    var tx := new GuiSender();
    var sut := new MoveUnit(tiles, tx);
    var r := sut.MoveUnit(0, 1);
    message := if r.Err? then Message(r.error) else "";
  }

  /** Moving the unit on cell 0 to cell 1 sends exactly one message, for
      destination 1 and unit 0. */
  method TestMoveToIndexTwo(gridSize: nat) returns (received: seq<GuiMessage>)
    requires gridSize >= 2
    ensures received == [(GameEvents.MoveUnit, (1, 0))]
  {
    var tiles := EmptyBoard(gridSize);
    assert gridSize * gridSize >= 2 * gridSize;
    tiles[0] := tiles[0].(unit := Some(Unit(0)));
    var tx := new GuiSender();
    var sut := new MoveUnit(tiles, tx);
    var _ := sut.MoveUnit(1, 0);
    received := tx.outbox;
  }

  /** With the receiver gone, the destination is already retyped when the
      send fails. */
  method TestSendFailsAfterRetype(gridSize: nat) returns (r: Result, destination: TileType, received: seq<GuiMessage>)
    requires gridSize >= 2
    ensures r == Err(SendFailed) && destination == MyUnit && received == []
  {
    var tiles := EmptyBoard(gridSize);
    assert gridSize * gridSize >= 2 * gridSize;
    tiles[0] := tiles[0].(unit := Some(Unit(0)));
    var tx := new GuiSender();
    tx.DropReceiver();
    var sut := new MoveUnit(tiles, tx);
    r := sut.MoveUnit(1, 0);
    destination := tiles[1].tileType;
    received := tx.outbox;
  }
}
