# game_engine_2: the hand-off and hot-reload core, in Dafny

This project models the sequential core of a small C++/SDL3 game engine. The
engine runs the game in a hot-reloadable shared library. A supervisor (`main`)
polls SDL events and rebuilds and reloads the library. A game thread drains the
event queue, runs fixed-step and per-frame updates and publishes render data
into a double buffer. A render thread reads that buffer back. The repository
holds two generations of this machinery: `engine/` and `game/src/engine/`.
It also has an earlier prototype (`game/src/main.cpp`) and the game modules
that the library exports (`game/src/game.cpp` and `game/src/dll_boundary/game.cpp`).

Each lock-guarded block of the source is one atomic method of a class that
holds the state that block touches. No threads, atomics or memory ordering are
modelled. The models are:

- the hot-reload record and its load/unload functions
  (`hot_reload.dfy`). The file system is a map from path to bytes. The
  dynamic loader is a `Platform` class: open shared objects, their symbol
  tables, and a handle counter;
- both event queues (`event_queue.dfy`, `legacy_event_queue.dfy`). Each is
  a class with a `seq` field, specified against a replay of any sequence of
  enqueue and dequeue operations;
- frame timing in `Uint64` nanoseconds (`frame_timing.dfy`,
  `machine_ints.dfy`). Wrap-around is written out explicitly;
- the double buffer of render data (`double_buffer.dfy`);
- one class per supervisor/game-thread/render-thread variant
  (`engine_main.dfy`, `game_engine_main.dfy`, `prototype_main.dfy`). Each
  keeps a log of the calls it makes into the game module (`call_log.dfy`);
- the Box2D task pool (`box2d_parallel.dfy`) and the collision pair
  matcher `coll<A, B>` (`box2d_components.dfy`);
- shader stage, format, path and entry-point selection in both `LoadShader`
  variants (`sdl_shader.dfy`, `legacy_sdl_shader.dfy`). The path is built
  by an `snprintf` into a 256-byte `char` array. C strings are modelled as
  their bytes, so the 255-byte limit counts UTF-8 bytes, not characters;
- the game rules of `game.cpp` (`game_rules.dfy`): inventory transfers,
  game-over requests, key mapping, button edges, the jump flag and the
  play-again reset. The key mapping of `dll_boundary/game.cpp`
  (`dll_boundary_game.dfy`) is shared through `key_input.dfy` and
  `sdl_events.dfy`.

The clock (`SDL_GetTicksNS`), the build script's exit code, the polled SDL
events, the mouse position, the GPU backend's format bitmask, and whether
`SDL_CreateGPUShader` succeeds all enter as parameters. The world's entity
registry enters as a sequence of entities with optional components
(`components.dfy`).

Where the code behaves in ways a reader might not expect, the model follows the code:

- A failed reload is not survived. `sdl_load_game_code` throws, nothing
  catches it, and the process ends with the old module already unloaded.
  `Rebuild` sets `terminated`; it does not keep the old module.
- The record in `game/src/engine/sdl_hot_reload_dll.hpp` names its flag
  `valid`, but the loader writes `is_valid`. `engine/src/main.cpp` also
  reads `game_code.rebuilt`, which that header does not declare. The model
  has one flag, `isValid`, and keeps `rebuilt` in the engine class.
- `game/src/engine/main.cpp` calls `dequeue_all`, but its own queue header
  only declares `dequeue`. The model uses the newer queue there.
- The engine's publish clears `ui_data.hmm`, but the copy of `ui_data` a
  few lines later overwrites that field. The published value is the game's
  `ui_data` with `game_dt` replaced.
- Both mains load the library with the loader as written
  (`LoadGameCodeAsWritten`), so a library without `game_update` runs with
  a valid record and a NULL update pointer, which the game thread calls
  (`EngineMain.NullUpdateCalled`). The corrected loader `LoadGameCode` is
  proved separately.
- The engine's sprite loop leaves the colour of an unused slot unchanged
  (a stale value). The older loop writes every field of an unused slot:
  zero position, rotation and size, the full texture, white.

## Model

| member | source | states |
|---|---|---|
| MachineInts.WrapSub | engine/src/main.cpp:80 | `now - past` in Uint64: adding `b` back gives `a` modulo 2^64, and the result is the plain difference when `a >= b` |
| MachineInts.WrapAdd | engine/src/main.cpp:155 | `accu += dt_ns` in Uint64 is the sum modulo 2^64, and the plain sum when that does not overflow |
| MachineInts.ToI32 | game/src/main.cpp:728 | the Uint64-to-int conversion keeps the value modulo 2^32, and is negative exactly when bit 31 is set |
| EventQueue.NothingLostOrDuplicated | engine/src/threadsafe_queue.hpp:11-26 | over any run of operations, the batches delivered, concatenated, followed by what is still pending, equal everything enqueued, in order, with nothing lost or repeated |
| EventQueue.DequeueReturnsSinceLast | engine/src/threadsafe_queue.hpp:15-23 | after a `dequeue_all`, the next `dequeue_all` returns exactly the concatenation of the batches enqueued in between |
| EventQueue.SecondDequeueEmpty | engine/src/threadsafe_queue.hpp:22-25 | two `dequeue_all` calls with no enqueue between them: the second returns empty |
| EventQueue.EmptyBatchIsNoOp | engine/src/threadsafe_queue.hpp:15 | enqueuing an empty batch changes neither the pending sequence nor what is delivered |
| EventQueue.EarlierResultsFixed | engine/src/threadsafe_queue.hpp:18-23 | later operations never change a batch already delivered, so an element delivered once is never delivered by a later call |
| EventQueue.EventQueue.constructor | engine/src/threadsafe_queue.hpp:28-29 | a new queue is empty |
| EventQueue.EventQueue.Enqueue | engine/src/threadsafe_queue.hpp:11-16 | appends the batch at the end of the pending data, keeping its order |
| EventQueue.EventQueue.DequeueAll | engine/src/threadsafe_queue.hpp:18-26 | returns all pending data (empty when none is pending) and leaves the queue empty |
| EventQueue.Replay | engine/src/threadsafe_queue.hpp:11-26 | running the class on any operation sequence yields the batches and remainder of the reference replay `Delivered`/`Pending` |
| LegacyEventQueue.EventQueue.constructor | game/src/engine/threadsafe_queue.hpp:27-29 | a new queue is empty |
| LegacyEventQueue.EventQueue.Enqueue | game/src/engine/threadsafe_queue.hpp:11-15 | appends the batch's elements at the end, in order |
| LegacyEventQueue.EventQueue.Dequeue | game/src/engine/threadsafe_queue.hpp:17-25 | returns everything pending (empty when nothing is) and leaves the queue empty |
| LegacyEventQueue.Replay | game/src/engine/threadsafe_queue.hpp:11-25 | the older queue follows the same reference replay, so a batch enqueued after a `dequeue` comes out of the next one |
| FrameTiming.ClampedElapsed | engine/src/main.cpp:79-84 | the frame delta never exceeds 250,000,000 ns; below the cap it is the exact wrap-around difference; the cap means the wrapped difference was at least the cap |
| FrameTiming.CalcDtNs | game/src/engine/main.cpp:149-154 | `calc_dt_ns` returns the clamped delta and sets `past := now` |
| FrameTiming.ForwardDeltaExact | engine/src/main.cpp:80-81 | a forward clock step below the cap is returned unchanged |
| FrameTiming.BackwardsClockGivesCap | engine/src/main.cpp:80-81 | a clock that runs backwards wraps to a huge delta and yields exactly the 250 ms cap |
| FrameTiming.CallsPerTick | game/src/engine/main.cpp:229-241 | over n ticks, `game_fixed_update` occurs n times when valid and never otherwise, and the world step occurs n times when the tick steps the world |
| FrameTiming.Advance | engine/src/main.cpp:151-157 | after the tick loop the accumulator is below 16,666,666 ns, and the ticks times the tick length plus the remainder equal the accumulator plus the delta |
| FrameTiming.FixedSteps | game/src/engine/main.cpp:224-241 | the tick loop ends with the accumulator and tick count of `Advance`, and emits one "fixed update then world step" block per tick |
| FrameTiming.AtMostSixteenTicks | engine/src/main.cpp:81-157 | with a reduced accumulator and a clamped delta, a frame runs at most 16 ticks, and 16 is reached |
| FrameTiming.TicksMatchElapsedTime | engine/src/main.cpp:151-157 | over any number of frames, the total ticks are the floor, and the final accumulator the remainder, of (start + sum of deltas) divided by the tick length |
| CallLog.TickLogAppend | game/src/engine/main.cpp:229-241 | the calls of two tick traces back to back are the calls of each trace, concatenated |
| CallLog.TickLogRepeat | game/src/engine/main.cpp:229-241 | the calls of n ticks are n copies of the calls of one tick |
| CallLog.RepeatSafe | game/src/engine/main.cpp:234-236 | repeating a block of calls that each land in loaded code keeps every call landing in loaded code |
| DoubleBuffer.Other | engine/src/main.cpp:58-60 | the other slot differs from the given one |
| DoubleBuffer.OtherInvolution | engine/src/main.cpp:60 | two swaps restore the read index |
| DoubleBuffer.DoubleBuffer.constructor | engine/src/main.cpp:56-57 | both buffers start with the same value and the read index is 0 |
| DoubleBuffer.DoubleBuffer.WriteIndex | engine/src/main.cpp:58 | the write index is never the read index, and the two are {0, 1} |
| DoubleBuffer.DoubleBuffer.Write | engine/src/main.cpp:181-203 | writing replaces the write buffer only; the read buffer is untouched |
| DoubleBuffer.DoubleBuffer.SwapBuffers | engine/src/main.cpp:60 | the old write buffer becomes the read buffer and vice versa |
| DoubleBuffer.DoubleBuffer.GetReadBuffer | engine/src/main.cpp:59 | returns the value at the read index |
| Box2dComponents.Coll | game/src/core/box2d/box2d_components.hpp:36-53 | (a, b) if a has A and b has B; otherwise (b, a) if a has B and b has A; otherwise no pair, exactly when neither orientation matches |
| Box2dComponents.CollRoles | game/src/core/box2d/box2d_components.hpp:36-53 | in a pair, the first entity has A and the second has B, and the pair is the two colliding entities |
| Box2dComponents.CollOrderIndependent | game/src/core/box2d/box2d_components.hpp:36-53 | the order of the two arguments does not change the result when only one orientation matches |
| Box2dComponents.CollAmbiguousPrefersFirst | game/src/core/box2d/box2d_components.hpp:41-44 | when both orientations match, the first check wins, so swapping the arguments swaps the result |
| Box2dParallel.Sample.constructor | game/src/engine/box2d_parallel.hpp:15-34 | 16 default task slots, count 0 |
| Box2dParallel.Sample.EnqueueTask | engine/src/box2d_parallel.cpp:7-26 | below 16, slot `taskCount` gets the task, item count, range and context, no other slot changes, the count rises by one, and that slot is returned; at 16, the task runs inline on (0, itemCount, 0, context), nothing is returned and the count stays; the count never exceeds 16 |
| Box2dParallel.Sample.FinishTask | engine/src/box2d_parallel.cpp:28-36 | a null task pointer does nothing; otherwise the scheduler waits for that task |
| Components.RenderablesExactlyDrawn | engine/src/main.cpp:190-197 | a renderable is published exactly when some entity has both that transform and that colour |
| Components.TransformsOnePerEntity | game/src/engine/main.cpp:270-273 | one transform is published per entity that has one, so never more than there are entities |
| Components.TransformsOfAppend | game/src/engine/main.cpp:270-273 | the transforms of two registries back to back are the two lists concatenated |
| HotReload.Unloaded | game/src/engine/sdl_hot_reload_dll.cpp:101-116 | after unload the record is invalid, its handle is null, and all five entry points are the no-op stubs |
| HotReload.UnloadIdempotent | game/src/engine/sdl_hot_reload_dll.cpp:105-109 | unloading twice gives the same record, and the second unload releases nothing |
| HotReload.Platform.CopyFile | game/src/engine/sdl_hot_reload_dll.cpp:22-39 | `copy_file` always reports success, and the destination then holds what was read from the source after the destination was truncated (nothing, for a copy onto itself) |
| HotReload.Platform.LoadObject | game/src/engine/sdl_hot_reload_dll.cpp:53-57 | a file that is a shared object opens under a fresh handle with its symbols; otherwise null and nothing changes |
| HotReload.Platform.LoadFunction | game/src/engine/sdl_hot_reload_dll.cpp:59-92 | a symbol lookup yields that object's symbol exactly when it exports the name, and null otherwise |
| HotReload.Platform.UnloadObject | game/src/engine/sdl_hot_reload_dll.cpp:107 | closes exactly that handle |
| HotReload.LoadGameCodeAsWritten | game/src/engine/sdl_hot_reload_dll.cpp:41-98 | the loader as written: copies src to dst, then succeeds exactly when dst opens and exports init, fixed_update, update_ui and refresh; the handle and pointers come from the dst copy; a missing `game_update` goes unnoticed; a valid result is safe for the four checked entry points |
| HotReload.MissingUpdateAccepted | game/src/engine/sdl_hot_reload_dll.cpp:73-78 | a library without `game_update` loads as valid with a null update pointer |
| HotReload.LoadGameCode | game/src/engine/sdl_hot_reload_dll.cpp:41-98 | the loader as intended: succeeds exactly when dst opens and exports all five entry points; the record is then valid and every pointer is its own symbol in the opened copy; a failure names a symbol the copy lacks, and the opened copy stays open |
| HotReload.SdlGameCode.constructor | game/src/engine/sdl_hot_reload_dll.hpp:24-35 | a new record is zeroed and not valid |
| HotReload.SdlGameCode.Assign | game/src/engine/main.cpp:943-947 | the record takes the value the loader returned |
| HotReload.SdlGameCode.Unload | game/src/engine/sdl_hot_reload_dll.cpp:100-116 | the record becomes `Unloaded` of its old value; only its own handle is closed, and only when it is not null; the steps run in the order clear valid, close, install stubs |
| EngineMain.CollectRenderables | engine/src/main.cpp:190-197 | the publish loop pushes exactly the renderables of the registry, in registry order |
| EngineMain.Engine.constructor | engine/src/main.cpp:866-870 | startup stages the library and loads it with the loader as written; the process survives exactly when the staged image opens and exports the four checked names, the record is then the as-written record of handle 0 (update pointer NULL when `game_update` is missing), and otherwise it stays zeroed; the frame clock `game_past` and the accumulator start at 0, and no events are pending |
| EngineMain.Engine.ValidEntryPointsSafe | engine/src/main.cpp:161-178 | while the record is valid, an entry point is safe to call (its own symbol in an open library) exactly when it is not NULL, and every entry point but `game_update` is not NULL |
| EngineMain.Engine.StartGameThread | engine/src/main.cpp:92-113 | an invalid record at start terminates the process (the exception escapes the game thread); otherwise `game_init` is called once |
| EngineMain.Engine.GameFrameTime | engine/src/main.cpp:121-123 | the frame delta is `calc_dt_ns` against the game thread's `game_past`, which becomes `now` |
| EngineMain.Engine.TakeInputs | engine/src/main.cpp:127-137 | the game data takes the UI data, every queued event (the queue is left empty) and the mouse position |
| EngineMain.Engine.CheckRebuild | engine/src/main.cpp:139-148 | after a rebuild, a valid record gets `game_refresh` then `game_init` once and `rebuilt` is cleared; otherwise nothing is called and `rebuilt` stays |
| EngineMain.Engine.FixedUpdates | engine/src/main.cpp:150-170 | the accumulator follows `Advance`, and each tick calls `game_fixed_update` once while valid; the world step is absent |
| EngineMain.Engine.Update | engine/src/main.cpp:172-178 | `game_update` is called once per frame, only while valid; the call is unsafe exactly when the valid record holds a NULL update pointer |
| EngineMain.Engine.Publish | engine/src/main.cpp:180-205 | after the swap, the read buffer holds the registry's renderables, the camera position and the UI data with `game_dt` set, and the other buffer holds what was readable before |
| EngineMain.Engine.ReadCopy | engine/src/main.cpp:592-601 | the render thread's copies equal the read buffer's fields |
| EngineMain.Engine.UpdateUi | engine/src/main.cpp:611-617 | `game_update_ui` is called only while valid |
| EngineMain.Engine.PollEvents | engine/src/main.cpp:883-916 | every polled event is queued in order; a rebuild is requested exactly when a "9" key-down was polled; the engine keeps running exactly when no quit, window-close or ESC key-down was polled; the mouse position is stored |
| EngineMain.Engine.Rebuild | engine/src/main.cpp:919-942 | a failed build changes nothing; a successful one releases the old library, restages and reloads with the loader as written; the new open objects are given exactly; when the staged image is accepted the record is its as-written record under the next handle, `rebuilt` is set and the process survives; otherwise the process terminates with the record unloaded and `rebuilt` unchanged |
| EngineMain.FillSprites | engine/src/main.cpp:641-674 | slot i gets the sprite of renderable i when i < count; every other slot is blanked except for its old colour |
| EngineMain.NullUpdateCalled | engine/src/main.cpp:172-178 | a reachable run: a staged library without `game_update` is accepted, and the game thread calls `game_init` and then the NULL update pointer, so the recorded calls are not all safe |
| GameEngineMain.CollectTransforms | game/src/engine/main.cpp:270-273 | the publish loop pushes exactly the transforms of the registry, in order |
| GameEngineMain.GameEngine.constructor | game/src/engine/main.cpp:941-947 | startup stages and loads the library with the loader as written; the flag is set, and the process survives, exactly when the staged image is accepted, and the record is then its as-written record of handle 0; otherwise it stays zeroed; `game_past` and the accumulator start at 0, and no events are pending |
| GameEngineMain.GameEngine.FlagGuardsEntryPoints | game/src/engine/main.cpp:229-262 | while `game_code_valid` holds, an entry point is safe to call exactly when it is not NULL, and every entry point but `game_update` is not NULL |
| GameEngineMain.GameEngine.StartGameThread | game/src/engine/main.cpp:162-197 | a clear flag at start terminates the process (the exception escapes the game thread); otherwise `game_init` is called once |
| GameEngineMain.GameEngine.GameFrameTime | game/src/engine/main.cpp:149-154 | the frame delta is `calc_dt_ns` against `game_past`, which becomes `now` |
| GameEngineMain.GameEngine.TakeInputs | game/src/engine/main.cpp:209-221 | the game data takes every queued event (the queue is left empty), the mouse position and the frame's dt |
| GameEngineMain.GameEngine.FixedUpdates | game/src/engine/main.cpp:223-241 | the accumulator follows `Advance`; each tick calls `game_fixed_update` once while valid and then steps the world once |
| GameEngineMain.GameEngine.RefreshOnKey9 | game/src/engine/main.cpp:245-256 | one `game_refresh` call per "9" key-down in the drained batch, and none while the flag is clear |
| GameEngineMain.GameEngine.Update | game/src/engine/main.cpp:258-262 | `game_update` is called once per frame, only while the flag is set; the call is unsafe exactly when the update pointer is NULL |
| GameEngineMain.GameEngine.Publish | game/src/engine/main.cpp:264-276 | after the swap, the read buffer holds one transform per entity that has one, and the other buffer holds what was readable before |
| GameEngineMain.GameEngine.ReadCopy | game/src/engine/main.cpp:682-689 | the render thread's copy is the read buffer's transform list |
| GameEngineMain.GameEngine.UpdateUi | game/src/engine/main.cpp:699-704 | `game_update_ui` is called only while the flag is set |
| GameEngineMain.GameEngine.PollEvents | game/src/engine/main.cpp:960-989 | every polled event is queued in order; a rebuild is requested exactly when a "9" key-down was polled; the engine keeps running exactly when no quit or window-close was polled |
| GameEngineMain.GameEngine.Rebuild | game/src/engine/main.cpp:991-1013 | a failed build changes nothing; a successful one clears the flag, releases, restages and reloads with the loader as written; the new open objects are given exactly; the flag is set again exactly when the staged image is accepted, with the as-written record under the next handle; otherwise the process terminates with the flag clear and the record unloaded |
| GameEngineMain.FillSprites | game/src/engine/main.cpp:733-768 | slot i < 8192 gets the position, rotation and size of transform i when i < count and is zeroed otherwise; transforms past 8192 are ignored |
| PrototypeMain.CounterNetPresses | game/src/main.cpp:98-203 | the counter after a batch is the old counter plus the KP_PLUS key-downs minus the KP_MINUS key-downs, modulo 2^64 |
| PrototypeMain.ModAdd | game/src/main.cpp:200-203 | reducing modulo 2^64 before an addition does not change the sum modulo 2^64 |
| PrototypeMain.ModMultiple | game/src/main.cpp:200-203 | adding a multiple of 2^64 does not change a value modulo 2^64 |
| PrototypeMain.Prototype.constructor | game/src/main.cpp:96-109 | counter 0, sampler index 0, no events, running, and the frame clock `game_past` at 0 |
| PrototypeMain.Prototype.GameFrame | game/src/main.cpp:174-209 | the frame's delta is `calc_dt_ns`; the counter takes the net key presses of the frame's events; the event list is then cleared |
| PrototypeMain.Prototype.PollEvents | game/src/main.cpp:676-683 | the polled events are kept, and the loop keeps running exactly when none is a quit |
| PrototypeMain.Prototype.Handoff | game/src/main.cpp:707-729 | the game thread receives the polled events, and the sampler index becomes the counter converted to `int` |
| PrototypeMain.SamplerSlot | game/src/main.cpp:582-584 | the slot always lies in [0, 5]; a negative index gives 5 and a non-negative n gives n mod 6 |
| PrototypeMain.MinusFromZeroIsMinusOne | game/src/main.cpp:200-203 | one KP_MINUS from 0 wraps the counter to 2^64 - 1, which the sampler index reads as -1 |
| KeyInput.StepSetsOrKeeps | game/src/game.cpp:342-397 | one event either sets an axis to the value that key gives or leaves it as it was |
| KeyInput.LastSettingEventWins | game/src/dll_boundary/game.cpp:83-118 | after a batch, each axis holds the value from its last relevant event, or its old value when no event touched it |
| KeyInput.AxisStaysDiscrete | game/src/game.cpp:342-397 | an axis that starts at -1, 0 or 1 stays at one of those values |
| DllBoundaryGame.Game.constructor | game/src/dll_boundary/game.cpp:14-15 | input starts at (0, 0), nothing refreshed or created |
| DllBoundaryGame.Game.Init | game/src/dll_boundary/game.cpp:40-47 | creates two bodies at (300, 300) and (600, 600) |
| DllBoundaryGame.Game.Refresh | game/src/dll_boundary/game.cpp:157-178 | marks the module refreshed |
| DllBoundaryGame.Game.ProcessEvent | game/src/dll_boundary/game.cpp:85-118 | W/S key-down sets y to -1/+1, A/D sets x; a key-up on an axis zeroes it; a KP_0 key-down creates one body at the mouse |
| DllBoundaryGame.Game.GameUpdate | game/src/dll_boundary/game.cpp:83-118 | each axis ends at the value of the batch run in order, and one body is created per KP_0 key-down |
| GameRules.FreshLevel | game/src/game.cpp:198-208 | the initial inventories 5/0/0 form a level: distinct roles, no negative count, total 5 |
| GameRules.CollisionConservesItems | game/src/game.cpp:124-155 | any collision in a level changes only who holds the items: the total stays 5 and no count goes negative |
| GameRules.PlayerTakesFromProvider | game/src/game.cpp:124-137 | player-provider contact moves one item from a non-empty provider to the player and changes nothing otherwise |
| GameRules.PlayerGivesToReceiver | game/src/game.cpp:139-155 | player-receiver contact moves one item from a non-empty player to the receiver and changes nothing otherwise; at most two game-over requests are added |
| GameRules.GameOverIffAllDelivered | game/src/game.cpp:92-110 | a contact reported player first creates a game-over request exactly when it is with the receiver and the receiver then holds all 5 items |
| GameRules.ProviderFirstMovesTheOtherWay | game/src/game.cpp:124-136 | a contact reported provider first moves an item from the player to the provider |
| GameRules.Edges | game/src/game.cpp:499-506 | press holds exactly when the button was up last frame and is down now; release exactly for the reverse; never both |
| GameRules.Game.constructor | game/src/game.cpp:20-33 | no inventories or roles, zero axes, no jump, pickup or spawns |
| GameRules.Game.Init | game/src/game.cpp:198-214 | provider 5, receiver 0, player 0 are added with their roles; from an empty registry this is a level |
| GameRules.Game.Refresh | game/src/game.cpp:672-690 | the registry is empty (no inventories, roles or requests) and the module is marked refreshed |
| GameRules.Game.HandleCollisionLog | game/src/game.cpp:112-156 | the log listener's effect on inventories and requests, early return included |
| GameRules.Game.CheckGameOver | game/src/game.cpp:92-110 | a request is added exactly when the pair is a player and a receiver holding at least 5 items |
| GameRules.Game.OnCollisionEnter | game/src/game.cpp:212-214 | the two listeners run in order, and the level invariant is preserved |
| GameRules.Game.ProcessEvent | game/src/game.cpp:335-423 | one event: the key mapping of both axes, SPACE sets jump, RETURN sets pickup, KP_9 adds a game-over request, a right click queues a spawn at the mouse |
| GameRules.Game.ProcessEvents | game/src/game.cpp:331-424 | a batch: each axis ends at the value of the batch run in order; jump and pickup are set exactly when their key went down; one request per KP_9 and one spawn per right click |
| GameRules.Game.ButtonEdges | game/src/game.cpp:494-510 | the press and release flags are the edges against last frame, last frame becomes now, and a press sets pickup |
| GameRules.Game.FixedJump | game/src/game.cpp:238-256 | at most one impulse, applied exactly when jump was set and a dynamic body exists, which also clears jump |
| GameRules.Game.UiStep | game/src/game.cpp:560-580 | game over is exactly "a request existed before the reset"; play again plus game over clears and re-creates the level: inventories 5/0/0 and the provider, receiver and player roles on exactly the three new entities, with no requests; otherwise nothing changes; the input, jump, pickup and button-edge state never changes; play again is cleared |
| SdlShader.ChooseStage | engine/src/sdl_shader.cpp:24-33 | ".vert" gives the vertex stage; otherwise ".frag" gives fragment; otherwise there is none |
| SdlShader.StageOrThrow | engine/src/sdl_shader.cpp:24-33 | a name with neither substring fails, any other yields the chosen stage |
| SdlShader.ChooseFormat | engine/src/sdl_shader.cpp:42-57 | SPIR-V when supported; otherwise MSL when supported; otherwise DXIL when supported; otherwise none |
| SdlShader.EntryPoint | engine/src/sdl_shader.cpp:45-53 | the entry point is "main0" exactly for MSL and "main" otherwise |
| SdlShader.Snprintf | engine/src/sdl_shader.cpp:43-51 | `snprintf` writes the text truncated to 255 bytes (possibly inside a multi-byte UTF-8 character) and a terminator, leaves the rest of the buffer alone, and returns the full length |
| SdlShader.FullPath | engine/src/sdl_shader.cpp:35-51 | the path read back from the buffer is a prefix of the formatted bytes, at most 255 bytes long |
| SdlShader.FormatPath | engine/src/sdl_shader.cpp:35-51 | formatting into a fresh 256-byte buffer gives `FullPath` |
| SdlShader.LoadAndCreate | engine/src/sdl_shader.cpp:62-91 | a missing file gives null, a failed create gives null, and the code buffer is freed on every path |
| SdlShader.LoadShader | engine/src/sdl_shader.cpp:13-92 | an unknown stage throws; no supported format gives null; otherwise the shader is created from the file at the selected path, with the chosen stage, format and entry point |
| SdlShader.ChosenFormatSupported | engine/src/sdl_shader.cpp:42-57 | the chosen format is one the backend supports, and the priority is SPIR-V over MSL over DXIL |
| SdlShader.ShortPathKeptWhole | engine/src/sdl_shader.cpp:35-51 | the file looked up is the one named exactly when the formatted path, in bytes, is shorter than the buffer; a longer one is cut to its first 255 bytes |
| LegacySdlShader.LoadShader | game/src/sdl_shader.cpp:9-82 | no stage or no format gives null; otherwise the shader is created from the file at the path built with the older assets prefix |
| LegacySdlShader.DoubledSlash | game/src/sdl_shader.cpp:34-45 | the prefix "assets/shaders_compiled/" followed by "/SPIRV/" and the like leaves "//" in the formatted text right after the prefix, and in the path looked up whenever the 255-byte cut falls after it |
| LegacySdlShader.EngineSingleSlash | engine/src/sdl_shader.cpp:40-51 | the newer prefix joins its format directory with a single slash |

## Left out

- Threads, joins, `std::atomic` memory orders and the condition-variable
  handshake: each lock-guarded block is one atomic method.
- The fixed-step loop of both game threads is one atomic method. The source
  takes the lock once per tick, so another thread could reload between two
  ticks.
- SDL_GPU and ImGui: pipelines, samplers, transfer buffers, render passes,
  and the body of `game_update_ui`. Only the calls into the module are
  recorded.
- Floating-point maths: the float `dt` is a parameter and axis values are
  `real`. Vector maths, camera maths, the controller dead zone and the
  clamp of `l_input` are not part of this model.
- Box2D and EnTT effects: the world step is a log entry; body and shape
  creation are positions in a `spawns`/`created` list. The destroy on left
  click (`game.cpp`, `dll_boundary/game.cpp`) and the transform sync from
  physics are not part of this model.
- Box2dParallel.Sample.EnqueueTask: uses the release build, where the
  `assert(false)` on a full pool is not compiled. The enki `ITaskSet` fields
  other than the ones the source writes are not part of this model. The
  `Sample` setup and the `m_taskCount = 0` reset are commented out in both
  main files. `engine/src/main.cpp` has no wiring of these callbacks into
  the world at all. The `world_def.enqueueTask`/`finishTask` lines of
  `game/src/engine/main.cpp` and `game/src/game.cpp` are commented out.
  So nothing calls these hooks.
- Joystick and controller input, including the loop that breaks after the
  first joystick, the `button_plus`/`button_minus` locals of `game.cpp`,
  and the `ui_data.hmm` entries the game module pushes.
- HotReload.Platform.CopyFile: a missing source file is assumed to leave an
  empty copy. In the source, `SDL_GetIOSize` on the NULL stream returns -1,
  and that size goes to `SDL_calloc` and `SDL_WriteIO`; what SDL then does
  is not part of this model.
- `SDL_GetBasePath` returning null and `SDL_LoadFile` reading the data are
  not modelled: the base path is a parameter, and a file is either present
  with its bytes or missing. The real loader and `std::system` are the
  `Platform` class and an exit-code parameter.
- SdlShader.FullPath: paths are the bytes of the C strings, with no UTF-8
  decoding. A cut that falls inside a multi-byte character keeps its
  leading bytes, as the C buffer does; what `SDL_LoadFile` makes of such a
  name is not part of this model.
- SdlShader.ChooseFormat: uses the SDL3 values of the format bits (SPIR-V
  0x2, DXIL 0x8, MSL 0x10), since the SDL header is not part of this model.
- SdlShader.LoadShader: a created shader is identified by its create info,
  and the engine's `throw new std::runtime_error` is a `Failure` result.
- EventQueue.EventQueue.DequeueAll: a moved-from `std::vector` is only
  "valid but unspecified" in C++. The model takes it to be empty, which is
  what the queue relies on.
- GameRules.GameOverIffAllDelivered: is stated for contacts reported with
  the player first. When Box2D reports the receiver first, `coll` swaps the
  roles and the check tests the player's inventory instead.
- GameRules.Game.UiStep: the game module's own writes to `ui_data` other
  than `play_again` and `game_over` are not part of this model.
- game/src/engine/sdl_surface.cpp (image loading) is not part of this model.

## Findings

| source | as written | input that shows it | evidently intended | confidence | as-written member | corrected member |
|---|---|---|---|---|---|---|
| game/src/engine/sdl_hot_reload_dll.cpp:73-78 | the check after loading `game_update` tests `result.game_init` again, so a missing `game_update` is never reported | a library that exports init, fixed_update, update_ui and refresh but not `game_update` | load fails unless all five entry points resolve | not executed | HotReload.MissingUpdateAccepted | HotReload.LoadGameCode |
