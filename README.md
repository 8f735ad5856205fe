# audax game-state core, modelled in Dafny

audax is a prototype turn-based tactics game written in Rust. A render thread
sends input events over a channel to an event-loop thread, which calls the
handlers registered for each event kind. A second channel carries feedback
events (`BackLightTile`, `MoveUnit`) the other way. This project models two
pieces of the logic side:

- **Moving a unit** (`src/game/move_unit.rs`). `MoveUnit::move_unit(index,
  last_selected_index)` looks up the selected cell and fails if it is missing.
  It reads the unit on that cell and fails if there is none. It looks up the
  destination cell and fails if it is missing. It retypes the destination as
  `MyUnit`, then sends `(MoveUnit, (index, unit id))` on the feedback channel,
  and that send can fail too. The board is an `array<Tile>` that the method
  updates in place. The channel is a `GuiSender` object whose `outbox` is the
  sequence of messages sent so far. `MoveUnitOutcome` is a pure function that
  gives the new board, the messages sent and the result of one call. Its
  contract states every exit, the frame and the ordering. The method is proved
  equal to it.
- **The event loop** (`src/game/event_loop.rs`). The `EventLoop` class holds
  the registry as a `map<GameEvent, seq<HandlerId>>`. `RegisterHandler`
  appends a handler to the list for its kind. `Start` takes a finite sequence
  of received events in place of the blocking channel loop. It runs the same
  two nested loops as the source and returns the trace of handler calls it
  makes. It is proved equal to `DispatchAll`. The lemmas beside it state the
  ordering: receipt order across events, registration order within one event,
  and nothing at all for an event kind with no handlers. `Start` has no
  `modifies` clause, so the registry cannot change during dispatch.

Files: `game_event.dfy` (event kinds), `tile.dfy` (cell contents),
`move_unit.dfy`, `event_loop.dfy` (which also holds the payload type, as the
source does).

The tile shape follows what `move_unit.rs` uses, which is newer than
`src/display/tile.rs`. A cell has a `tile_type` that can also be `MyUnit`, a
`unit: Option<Unit>` field, and the `back_light` flag that `src/main.rs:76`
sets. As written, the source neither clears the selected cell nor puts the unit
on the destination (reading `get_unit` as a pure read; see "Left out"). The model does the same. `SelectedUnitStaysAfterMove`
shows one consequence: the same unit can be "moved" again from the same cell.

## Model

| member | source | states |
|---|---|---|
| `MoveUnits.MoveUnitOutcome` | src/game/move_unit.rs:19-28 | Each exit happens exactly when the source takes it (if and only if): missing selected cell, no unit on the selected cell, missing destination, failed send, or success. No write happens before the three lookups succeed, so every lookup failure leaves the board unchanged. Once the lookups succeed, the destination's type becomes `MyUnit` and every other cell (the selected one too) is unchanged. This happens even when the send then fails. No cell's unit or highlight is ever written. The board keeps its length. Success sends exactly one message, `(MoveUnit, (index, id of the selected cell's unit))`; every failure sends nothing. |
| `MoveUnits.MoveUnit.MoveUnit` | src/game/move_unit.rs:19-28 | The array after the call, the messages appended to the outbox, and the result are exactly those `MoveUnitOutcome` gives for the old board and the receiver's state. The receiver's state is unchanged. |
| `MoveUnits.MoveUnit.constructor` | src/game/move_unit.rs:15-17 | Keeps the shared board and the sender it is given. |
| `MoveUnits.GuiSender.constructor` | src/game/move_unit.rs:41 | A new channel has an empty outbox and a live receiver. |
| `MoveUnits.GuiSender.Send` | src/game/move_unit.rs:26 | A send succeeds exactly when the receiver is alive, and then appends the message to the outbox. A failed send changes nothing. |
| `MoveUnits.GuiSender.DropReceiver` | src/game/move_unit.rs:26 | After the receiving end is dropped, the receiver is gone and the outbox is kept, so every later send fails. |
| `MoveUnits.SelectedUnitStaysAfterMove` | src/game/move_unit.rs:21-25 | After a successful move, a second move from the same selected cell to any existing cell also succeeds and names the same unit id, because the selected cell keeps its unit. |
| `MoveUnits.EmptyBoard` | src/game/move_unit.rs:39-51 | The test board is a fresh array of `gridSize * gridSize` cells, each `Empty` with no unit and no highlight. |
| `MoveUnits.TestNoSelectedUnit` | src/game/move_unit.rs:52-62 | Moving from cell 1 of an empty board to cell 0 leaves the channel empty. |
| `MoveUnits.TestNoUnitMessage` | src/game/move_unit.rs:22 | Moving from cell 1 of an empty board, which exists but holds no unit, fails with the text "Can't get unit". |
| `MoveUnits.TestMoveToIndexTwo` | src/game/move_unit.rs:64-82 | With unit 0 on cell 0, moving to cell 1 puts exactly one message on the channel, `(MoveUnit, (1, 0))`. |
| `MoveUnits.TestSendFailsAfterRetype` | src/game/move_unit.rs:25-26 | With the receiver dropped, the move returns the send error. Cell 1 is already `MyUnit` and nothing was sent. |
| `EventLoops.HandlersForRegister` | src/game/event_loop.rs:29-40 | After a handler is registered for a kind, the list the loop finds for any kind is its old list (empty if it had no entry), with the handler appended for that kind alone. This holds whether or not the kind was already a key, as `or_insert_with(Vec::new).push(handler)` at line 31 followed by the lookup at line 40 promises. |
| `EventLoops.DispatchAll` | src/game/event_loop.rs:37-45 | The reference definition of the trace of `start`'s outer loop: the calls for each received event (`DispatchEvent`), concatenated in receipt order. Its contract says that a single event yields exactly that event's calls. `DispatchAllAppend` and `DispatchInReceiptOrder` state how the trace splits across events. |
| `EventLoops.Register` | src/game/event_loop.rs:29-32 | After registration, the list for the kind is the old list (empty if the kind was absent) followed by the handler. The kind becomes a key. Every other kind keeps its list. |
| `EventLoops.Invoke` | src/game/event_loop.rs:41-44 | For one event, there is one call per handler in the list, at the handler's position, with the event's kind and payload unchanged. |
| `EventLoops.DispatchEvent` | src/game/event_loop.rs:40-44 | An event of a kind with no entry produces no calls. Otherwise each handler registered for the kind is called once per registration, in registration order, with the kind and payload unchanged. |
| `EventLoops.DispatchAllAppend` | src/game/event_loop.rs:37-45 | The calls for two runs of events received one after the other are the calls for the first run followed by those for the second. |
| `EventLoops.DispatchInReceiptOrder` | src/game/event_loop.rs:37-45 | The trace for a run of events is: the calls for every event before the n-th, then the n-th event's calls, then the calls for the events after it. So all calls for event n come before any call for event n+1. |
| `EventLoops.TraceComesFromEvents` | src/game/event_loop.rs:37-45 | Every call in the trace goes to a handler registered for the kind of some received event, and carries that event's kind and payload. |
| `EventLoops.UnregisteredEventsAreDropped` | src/game/event_loop.rs:40 | A run of events whose kinds have no entry produces no calls. |
| `EventLoops.RegisterThenDispatch` | src/game/event_loop.rs:29-44 | Registering a handler for a kind adds exactly one call, as the last one, to the calls for each event of that kind. The calls for events of other kinds do not change. |
| `EventLoops.EventLoop.constructor` | src/game/event_loop.rs:22-27 | A new loop has an empty registry. The list of kinds passed in is unused, as in the source. |
| `EventLoops.EventLoop.RegisterHandler` | src/game/event_loop.rs:29-32 | The new registry is `Register` applied to the old one. |
| `EventLoops.EventLoop.Start` | src/game/event_loop.rs:34-48 | The trace of calls made for the received events is exactly `DispatchAll` of the registry and those events. The method changes no field, so dispatch does not modify the registry. |
| `EventLoops.TestRegisterHandler` | src/game/event_loop.rs:67-80 | On a fresh loop, registering one handler for `TileClicked` makes that kind a key whose list has length 1. |
| `EventLoops.TestTwoHandlersInOrder` | src/game/event_loop.rs:40-44 | Two handlers registered for `MouseCliked` are both called for one such event, first-registered first, with its payload. |
| `EventLoops.TestNoHandler` | src/game/event_loop.rs:40 | An event of a kind with no handlers produces no calls. |

## Left out

- The `Mutex` locks and their poisoning error path (`Can't lock tile for move of unit`, src/game/move_unit.rs:20). This is concurrency plumbing; the model runs one call at a time.
- The `Arc` sharing, the `mpsc` channels as real cross-thread queues, and the thread spawn in src/main.rs. Channels are sequences.
- bincode. The payload of a feedback message is the abstract pair `(index, unit id)`, not bytes. Encoding a pair of integers is taken never to fail, so the `Serialization error` exit (src/game/move_unit.rs:23) is not modelled. The `config` parameter of `move_unit` is dropped for the same reason.
- Handlers do not run in the model. A handler call is recorded as an `Invocation` in the trace. The handlers in src/game/handlers.rs only decode a payload and print.
- `EventLoop.Start` processes a finite sequence of received events and returns. The source's loop never returns: it blocks on the channel while a sender exists, and once every sender is dropped its outer `loop` spins without blocking.
- `GameState::GRID_SIZE` is not defined anywhere in this revision of the repository. The tests take the grid side as a parameter.
- `Tiles.NewForTest` models `Tile::new_for_test` by an assumed definition, because the repository does not define it: a test cell is the given type with no unit and no highlight.
- `Tile::get_unit` (src/game/move_unit.rs:22) is not defined anywhere in this revision of the repository. The model takes it to be a pure read of the cell's `unit` field that leaves the cell unchanged. The test at src/game/move_unit.rs:64-82 sets only `unit` and expects success, which fits this reading. A `&mut self` getter that takes the unit out would also fit the call at line 21-22. The frame clause of `MoveUnitOutcome` that keeps every cell's `unit`, the lemma `SelectedUnitStaysAfterMove`, and the statement above that the selected cell keeps its unit all rest on the pure-read reading.
- The render side: src/display/display.rs (drawing, textures, buttons, and the `f32` geometry of `get_tile` and `update_screen_size`) and src/main.rs (the frame loop, and applying feedback events through `Board::reset_back_light_all_tiles` and `Board::move_unit`, which are not defined anywhere in this revision of the repository).
- The `occupied` flag of `Tile` (src/display/tile.rs:11) and the texture path that `Board::new` passes to `Tile::new` (src/display/display.rs:42). `move_unit` neither reads nor writes either one, so the modelled cell leaves them out.
- Reachability highlighting and two-phase click selection. Nothing in the repository implements them.
