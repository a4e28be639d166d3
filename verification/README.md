# rlvm operand typing and object management, modelled in Dafny

This project models parts of rlvm, a clone of the RealLive visual-novel virtual machine:

- **Operand typing.** Bytecode operands arrive as a list of *expression pieces*: an integer expression, a string constant, or a *special* piece. A special piece carries an overload tag and its own operand list. A *type struct* consumes pieces by position.
  - `Argc_T<CON>` is the variable-length "argc" parameter. It decodes every piece from a start position to the end of the list with its inner type struct `CON`. Its `parseParameters` calls `CON::parseParameters` for every remaining raw operand.
  - `Special_T<A..E>` is the tagged "special" parameter. It decodes the one alternative its piece's tag selects, from index 0 of the piece's own list. It throws on a tag outside 0..4. Its `parseParameters` appends the one piece the token parser builds.
- **EventSystem state.**
  - The frame-counter table: 2 layers × 256 slots, every access range-checked.
  - The count of running realtime tasks.
  - The two generic settings kept in `EventSystemGlobals`, with their serialisation order.
- **Modules 60, 61 and 62.** These are the object-management opcodes: copy, clear, delete and set-wipe-copy, on one buffer or on a range. The three module constructors register them in opcode tables.
- **The render cache of `GraphicsTextObject`.**
- **`realLiveVolumeToSDLMixerVolume`.**

Modules:
- `Wrappers`: `Option`, `Result`.
- `Expression`: `ExpressionPiece`, `DecodeError`, the output `PieceList`.
- `ArgcT`, `SpecialT`, `Events`, `ObjManagement`, `GraphicsText`, `SDLSound`.

Some collaborators are not part of this model. They become function-typed parameters:
- the inner type structs' `getData` (a `Decoder`) and `parseParameters` (a `Parser`);
- the token parser `libReallive::get_data`;
- `TextSystem::renderText`.

Thrown `rlvm::Exception`s and `std::out_of_range` become `Failure`/`Some(error)` values. A null pointer becomes `None`.

The `Argc_T` header requires that argc be the last element of a type definition. The code never checks this. In the model, `ArgcT.Collect` decodes every index from the start position to the end of the list, so no piece is left for a later type struct.

## Model

| member | source | states |
|---|---|---|
| `ArgcT.Collect` | src/MachineBase/RLOperation/Argc_T.hpp:62-71 | Argc decoding succeeds iff `CON` decodes every piece from `position` to the end. On success it yields `max(0, \|p\| - position)` values. Value k is `CON::getData(p, position + k)`, in encounter order. A position at or past the end gives the empty vector. |
| `ArgcT.GetData` | src/MachineBase/RLOperation/Argc_T.hpp:62-71 | The push_back loop returns exactly `Collect(con, p, position)`. |
| `ArgcT.CollectFirstFailure` | src/MachineBase/RLOperation/Argc_T.hpp:67-68 | If `CON` throws at index j, and every index before j decoded, the whole decode fails with j's error. |
| `ArgcT.ParseParameters` | src/MachineBase/RLOperation/Argc_T.hpp:75-84 | The output keeps its existing prefix. It is extended by what `CON::parseParameters` appends for each index from `position` to the end, in ascending order. If an inner call throws, the pieces appended before it stay. |
| `ArgcT.ParseFromOnePieceEach` | src/MachineBase/RLOperation/Argc_T.hpp:81-82 | Suppose every inner call succeeds and appends one piece. Then the output grows by `max(0, \|input\| - position)` pieces with no error. Piece k is the one parsed for operand `position + k`, so each index is parsed exactly once, in ascending order. |
| `ArgcT.ParseFromFirstFailure` | src/MachineBase/RLOperation/Argc_T.hpp:81-82 | An inner exception at operand j, after every earlier operand parsed, is the error the loop reports. |
| `SpecialT.GetData` | src/MachineBase/RLOperation/Special_T.hpp:55-84 | The result's tag is the piece's overload tag. A tag outside 0..4 throws `IllegalOverload` and returns no `Parameter`. For a tag t in 0..4, exactly slot t is assigned. Its value is alternative t decoded from index 0 of the piece's own list. The decode fails iff that alternative fails, with that alternative's error. |
| `SpecialT.IgnoresOuterList` | src/MachineBase/RLOperation/Special_T.hpp:65-77 | The decode depends only on the special piece. The outer position and the other outer pieces play no part, because nested decoding always starts at 0. |
| `SpecialT.ParseOne` | src/MachineBase/RLOperation/Special_T.hpp:86-94 | `parseParameters` produces exactly one piece: the token parser's piece for `input[position]`. A position past the end fails, because `input.at` is bounds-checked. A token the parser rejects fails with the parser's own error. |
| `SpecialT.ParseParameters` | src/MachineBase/RLOperation/Special_T.hpp:86-94 | On success, the output becomes the old output plus that one piece, so existing elements are unchanged. On an exception, the output is unchanged. |
| `SpecialT.ArgcOfSpecialAppendsOnePerOperand` | src/MachineBase/RLOperation/Argc_T.hpp:81-82 | For `Argc_T<Special_T<...>>` with a token parser that accepts every operand, each operand from `position` on appends exactly one piece, in order, with no error. |
| `Events.CheckLayerAndCounter` | src/Systems/Base/EventSystem.cpp:98-105 | The check passes iff layer ∈ [0, 1] and counter ∈ [0, 255]. A bad layer is reported first as `IllegalLayer`. Otherwise a bad counter is reported as `CounterOutOfRange`. |
| `Events.EventSystem.SetFrameCounter` | src/Systems/Base/EventSystem.cpp:45-49 | An out-of-range slot throws and changes nothing. Otherwise only slot (layer, counter) is replaced: a counter stores it, null empties the slot. Only slots of the 2 × 256 table are ever filled. |
| `Events.EventSystem.GetFrameCounter` | src/Systems/Base/EventSystem.cpp:53-62 | An out-of-range slot throws the range error. An empty slot throws `UninitializedCounter`. Otherwise the call returns the stored counter. |
| `Events.EventSystem.FrameCounterExists` | src/Systems/Base/EventSystem.cpp:66-71 | An out-of-range slot throws. Otherwise the result is true iff the slot holds a counter. |
| `Events.SetThenQuery` | src/Systems/Base/EventSystem.cpp:45-71 | After storing a counter, `frameCounterExists` is true and `getFrameCounter` returns that counter. After storing null, `frameCounterExists` is false and `getFrameCounter` throws. Another slot answers as before. |
| `Events.EventSystem.BeginRealtimeTask` | src/Systems/Base/EventSystem.cpp:75-79 | The realtime-task count goes up by one. |
| `Events.EventSystem.EndRealtimeTask` | src/Systems/Base/EventSystem.cpp:83-87 | The realtime-task count goes down by one. |
| `Events.BeginEndRestores` | src/Systems/Base/EventSystem.cpp:75-94 | Begin followed by end restores the count and `canBeNice`, for every starting count, negative ones included. While the task runs, `canBeNice` holds iff the count was −1 before it began. So it is false whenever `canBeNice` held before. |
| `Events.EventSystem.CanBeNice` | src/Systems/Base/EventSystem.cpp:91-94 | The system may idle iff no realtime task is running (count == 0). `BeginRealtimeTask` from an idle state makes it false, and `BeginEndRestores` shows that the matching end restores it. |
| `Events.EventSystem.constructor` | src/Systems/Base/EventSystem.cpp:34-36 | A new system has no realtime tasks and no frame counters. |
| `Events.EventSystem.Generic1` | src/Systems/Base/EventSystem.hpp:202 | `generic1()` is the first value the globals serialise. |
| `Events.EventSystem.Generic2` | src/Systems/Base/EventSystem.hpp:205 | `generic2()` is the second value the globals serialise. |
| `Events.EventSystem.SetGeneric1` | src/Systems/Base/EventSystem.hpp:201-202 | `generic1` becomes v. `generic2` is unchanged. |
| `Events.EventSystem.SetGeneric2` | src/Systems/Base/EventSystem.hpp:204-205 | `generic2` becomes v. `generic1` is unchanged. |
| `Events.EventSystem.Globals` | src/Systems/Base/EventSystem.hpp:224 | `globals()` is the very struct that the generic accessors read and write. |
| `Events.GenericsRoundTrip` | src/Systems/Base/EventSystem.hpp:201-205 | After both setters, each getter returns its own value. The struct behind `globals()` serialises as `[generic1, generic2]`. |
| `Events.EventSystemGlobals.Serialize` | src/Systems/Base/EventSystem.hpp:58-61 | `serialize` writes `generic1` first and then `generic2`. |
| `Events.EventSystemGlobals.Load` | src/Systems/Base/EventSystem.hpp:58-61 | Loading reads `generic1` and then `generic2` from the front of the archive, in that order. An empty archive changes nothing. A one-element archive stores `generic1` before the `generic2` read fails. A longer one stores both and leaves the rest. |
| `Events.SerializeLoadRoundTrip` | src/Systems/Base/EventSystem.hpp:58-61 | Loading what `serialize` wrote restores both values. |
| `Events.DeclaredArrayTooSmall` | src/Systems/Base/EventSystem.hpp:242 | Slot (0, 2) passes `checkLayerAndCounter`, but it lies outside the declared `[255][2]` array when indexed `[layer][counter]`. Its flat offset, 2, is also that of slot (1, 0), which passes the check too, so the two counters share one element. |
| `Events.CheckedSlotsHaveDistinctElements` | src/Systems/Base/EventSystem.cpp:98-105 | In a 2 × 256 table indexed `[layer][counter]`, every slot that passes the check has an offset in 0..511. Two checked slots share an offset iff they are the same slot. |
| `ObjManagement.GraphicsSystem.ObjCopy` | src/Modules/Module_ObjManagement.cpp:59-67 | (toLayer, dbuf) becomes equal to the old (fromLayer, sbuf). Every other object, including a distinct source, is unchanged. |
| `ObjManagement.GraphicsSystem.ObjCopyFgToBg` | src/Modules/Module_ObjManagement.cpp:49-55 | Background buffer `buf` becomes a copy of foreground buffer `buf`. Nothing else changes. |
| `ObjManagement.GraphicsSystem.ObjClearOne` | src/Modules/Module_ObjManagement.cpp:71-79 | Exactly the one object is cleared. |
| `ObjManagement.GraphicsSystem.ObjClearRange` | src/Modules/Module_ObjManagement.cpp:83-98 | Every object of the layer in the inclusive range [min, max] is cleared, and none when max < min. Other layers and buffers are unchanged. |
| `ObjManagement.GraphicsSystem.ObjDeleteOne` | src/Modules/Module_ObjManagement.cpp:102-110 | Exactly the one object is deleted. |
| `ObjManagement.GraphicsSystem.ObjDeleteRange` | src/Modules/Module_ObjManagement.cpp:114-126 | Every object of the layer in the inclusive range [min, max] is deleted. Other objects are unchanged. |
| `ObjManagement.GraphicsSystem.SetWipeCopyOne` | src/Modules/Module_ObjManagement.cpp:130-141 | Exactly the one object gets `wipeCopy` = value. |
| `ObjManagement.GraphicsSystem.SetWipeCopyRange` | src/Modules/Module_ObjManagement.cpp:145-159 | The (min, count) operands give the half-open range [min, min + count). Every object of the layer in that range gets `wipeCopy` = value, and none when count ≤ 0. Other objects are unchanged. |
| `ObjManagement.RLModule.AddOpcode` | src/Modules/Module_ObjManagement.cpp:163-207 | After `addOpcode(k, name, op)`, `Lookup(k)` resolves to `(name, op)`, and every other key resolves as it did before. A later registration of the same key therefore replaces the earlier one. |
| `ObjManagement.RLModule.Lookup` | src/Modules/Module_ObjManagement.cpp:163-207 | The table the constructors fill, read by (opcode, overload). A key resolves iff some `addOpcode` registered it. `AddOpcode`'s contract and `DispatchCopyFgToBg`/`RangeFormsDiffer` tie the registrations to what a lookup returns. |
| `ObjManagement.NewObjCopyFgToBg` | src/Modules/Module_ObjManagement.cpp:163-169 | Module 60 registers only (2, 0), as `objCopyFgToBg`. |
| `ObjManagement.NewObjFgManagement` | src/Modules/Module_ObjManagement.cpp:173-188 | Module 61 has exactly ten keys. Opcode 2 copies FG→FG and opcode 3 copies FG→BG. Opcode 4 sets `wipeCopy` to 1 and opcode 5 sets it to 0. Opcode 10 clears and opcode 11 deletes, all on FG. Overload 0 takes one buffer and overload 1 a range. |
| `ObjManagement.NewObjBgManagement` | src/Modules/Module_ObjManagement.cpp:192-207 | Module 62 has the same keys. Opcode 2 copies BG→FG and opcode 3 copies BG→BG. Opcodes 4, 5, 10 and 11 behave as in module 61 but on the BG layer. |
| `ObjManagement.Arity` | src/Modules/Module_ObjManagement.cpp:49-159 | The single-buffer operations take one operand (`RLOp_Void_1`). Copy and the range forms take two (`RLOp_Void_2`). |
| `ObjManagement.Invoke` | src/Modules/Module_ObjManagement.cpp:49-159 | A registered operation, run on its operands, has the effect of its operation struct, for all eight kinds. The single-buffer forms change only buffer a0 of their layer, and copy-FG-to-BG sets BG a0 to the old FG a0. Clear and delete ranges use the inclusive [a0, a1]. The wipe-copy range uses the half-open [a0, a0 + a1). Copy goes from (from, a0) to (to, a1). |
| `ObjManagement.DispatchCopyFgToBg` | src/Modules/Module_ObjManagement.cpp:49-55 | Module 60's (2, 0), looked up and run on buffer `buf`, makes BG `buf` a copy of FG `buf` and changes nothing else. |
| `ObjManagement.RangeFormsDiffer` | src/Modules/Module_ObjManagement.cpp:83-159 | Take module 61 with operands (5, 7). Overload 1 of opcode 10 clears buffer 7 but leaves buffer 8's cleared flag alone. Overload 1 of opcode 4 reaches buffer 11 but not 12. |
| `GraphicsText.GraphicsTextObject.NeedsUpdate` | src/Systems/Base/GraphicsTextObject.cpp:76-79 | The cache is current iff there is a surface and it was made from the object's present text. `UpdateSurface` makes it current whenever the renderer returns a surface. `Load` makes it stale for every text. |
| `GraphicsText.GraphicsTextObject.UpdateSurface` | src/Systems/Base/GraphicsTextObject.cpp:65-72 | The cached string becomes the object's text and the surface becomes the rendered one. When the render is non-null, `needsUpdate` (no surface, or text ≠ cached string) is then false. |
| `GraphicsText.GraphicsTextObject.Render` | src/Systems/Base/GraphicsTextObject.cpp:83-90 | The call re-renders iff `needsUpdate` held. Otherwise the cache is untouched. The surface drawn is the cached one. |
| `GraphicsText.GraphicsTextObject.PixelWidth` | src/Systems/Base/GraphicsTextObject.cpp:94-100 | Same cache decision as render. |
| `GraphicsText.GraphicsTextObject.PixelHeight` | src/Systems/Base/GraphicsTextObject.cpp:104-110 | Same cache decision as render. |
| `GraphicsText.GraphicsTextObject.Load` | src/Systems/Base/GraphicsTextObject.cpp:122-129 | The cached string becomes "" and the surface is dropped, so `needsUpdate` holds for every text. |
| `GraphicsText.GraphicsTextObject.Clone` | src/Systems/Base/GraphicsTextObject.cpp:114-117 | The clone is a new object with the same cached string and surface. |
| `GraphicsText.RenderTwice` | src/Systems/Base/GraphicsTextObject.cpp:76-90 | Once a render yields a surface, a second render with the same text decides not to render again (`secondRerendered` is false) and draws that same surface. A non-null render always yields a surface. A different text would need an update. |
| `SDLSound.RealLiveVolumeToSDLMixerVolume` | src/Systems/SDL/SDLSoundChunk.hpp:120-122 | The result is `in_vol / 2` with C++ truncation toward zero: 2r ≤ v ≤ 2r + 1 for v ≥ 0, and 2r − 1 ≤ v ≤ 2r for v < 0. |
| `SDLSound.VolumeRange` | src/Systems/SDL/SDLSoundChunk.hpp:114-122 | Volumes in 0..256 map into 0..128, with 0 ↦ 0 and 256 ↦ 128. |
| `SDLSound.VolumeMonotone` | src/Systems/SDL/SDLSoundChunk.hpp:120-122 | The conversion is monotone non-decreasing. |

## Findings

| source | as written | input that shows it | evidently intended | confidence | as-written member | corrected member |
|---|---|---|---|---|---|---|
| src/Systems/Base/EventSystem.hpp:242 | The frame-counter table is declared `[255][2]`, while EventSystem.cpp:48 indexes `[layer][counter]` after checking layer ≤ 1 and counter ≤ 255. | layer 0, counter 2: the check passes, but the inner dimension has only 2 entries. | A 2 × 256 table, one slot for every checked (layer, counter). | low, not executed: the header and EventSystem.cpp come from different revisions, and their member and constructor names differ. | `Events.DeclaredArrayTooSmall` | `Events.CheckedSlotsHaveDistinctElements`, with the map-based table of `Events.EventSystem` (`Valid`) |

## Left out

- Special_T::getData reads its piece with an unchecked `operator[]` and a `static_cast`. `SpecialT.GetData` therefore requires a special piece at a valid position, because the source's behaviour otherwise is undefined.
- Composite type definitions (`RLOp_Void_1`/`RLOp_Void_2`), the leaf type structs (`IntConstant_T`, `Empty_T`) and the module dispatch code that reads an opcode from the bytecode are not part of this model. `RLModule.Lookup` stands for the dispatch's table read, and `Invoke` for the call of the operation it finds. Inner type structs and the token parser are parameters.
- The `RLMachine` that `getData` receives is not modelled. A `Decoder` closure stands for any ambient state the decoder reads.
- The objects that `getGraphicsObject`/`setGraphicsObject` return are not part of this model. Each is an abstract record per (layer, buffer) with flags `cleared` and `deleted` and the value `wipeCopy`. `clearObject` and `deleteObject` are modelled as setting their flag, because their bodies are not part of this model. Buffer numbers are unbounded, because getGraphicsObject's own range check is defined outside the modelled files.
- The numeric values of `OBJ_FG_LAYER` and `OBJ_BG_LAYER` are defined outside the modelled files, so the layers are the constructors `FgLayer` and `BgLayer`.
- ObjManagement.GraphicsSystem.ObjClearRange: does not model the 32-bit overflow of `max++` when max is INT_MAX. Integers are unbounded here. The same holds for ObjDeleteRange and for `min + numObjsToSet` in SetWipeCopyRange.
- ObjManagement.RLModule.AddOpcode: the body of `RLModule::addOpcode` is defined outside the modelled files. The model assumes that it inserts into a map keyed by (opcode, overload), so a later registration of the same key replaces the earlier one.
- Events.EventSystem.EndRealtimeTask: the count is an unbounded `int`. The source's `int` could wrap only after 2^31 unmatched calls.
- The `EventSystemGlobals` constructors read the game's configuration (`Gameexe`), which is not part of this model. The initial generic values are constructor parameters.
- `pixelWidth`/`pixelHeight` scale by a float factor. Only their cache decision is modelled, and they return the surface they would measure.
- `render` draws through `renderToScreenAsObject`, which is not part of this model. The model returns the surface that would be drawn. `None` stands for the null surface the source would dereference.
- The archive I/O of `load`/`save` and the boost serialization of the base object are not modelled. Archives are sequences of ints.
- The platform hooks of EventSystem are left out: input polling, listeners, timers, `getTicks` and `wait`.
- Left out as I/O or bindings:
  - the scroll-area widget (GCNScrollArea.cpp);
  - SerializationGlobal.cpp;
  - the console store-register module (Module_Sel.cpp);
  - the SDL_mixer/SDL_ttf bindings apart from the volume conversion;
  - the Gameexe tests.
