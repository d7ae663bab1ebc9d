/**
 * The three threads of engine/src/main.cpp, as the steps they take. Every
 * lock-guarded block is one atomic method of `Engine`; which thread runs
 * a step, and how steps of different threads interleave, is left to the
 * caller. Calls into the game module are recorded in `calls`; what the game
 * module does to the game data is not modelled, so the data it leaves for
 * publishing is a parameter of `Publish`.
 */
module EngineMain {
  import opened Wrappers
  import opened MachineInts
  import opened Components
  import opened SdlEvents
  import opened CallLog
  import FT = FrameTiming
  import HR = HotReload
  import EQ = EventQueue
  import DB = DoubleBuffer

  const SRC_DLL := "GameDLL-hot-unlocked.dll"
  const DST_DLL := "GameDLL-hot-locked.dll"
  const SPRITE_COUNT: nat := 8192

  /** `RenderData`: what the game thread hands the render thread. */
  datatype RenderData = RenderData(renderable: seq<Renderable>, cameraPos: Vec2, uiData: CommonUiData)

  const ORIGIN := Vec2(0.0, 0.0)
  const DEFAULT_UI := CommonUiData(0.0, 0, ORIGIN, ORIGIN, ORIGIN, ORIGIN, 0, 0, [])
  const DEFAULT_RENDER_DATA := RenderData([], ORIGIN, DEFAULT_UI)

  /** The copy loop of the publish step: one Renderable per Transform+Colour entity, in view order. */
  method CollectRenderables(reg: Registry) returns (out: seq<Renderable>)
    ensures out == Renderables(reg)
  {
    out := [];
    for i := 0 to |reg|
      invariant out == Renderables(reg[..i])
    {
      assert reg[..i + 1][..i] == reg[..i];
      var e := reg[i];
      if e.transform.Some? && e.colour.Some? {
        out := out + [Renderable(e.transform.value, e.colour.value)];
      }
    }
    assert reg[..|reg|] == reg;
  }

  class Engine {
    const platform: HR.Platform
    /** `game_code`; its `rebuilt` flag is the field below. */
    const gameCode: HR.SdlGameCode
    var rebuilt: bool
    const eventQueue: EQ.EventQueue<Event>
    const buffers: DB.DoubleBuffer<RenderData>
    var running: bool
    /** An exception escaped a thread, so the process is terminated. */
    var terminated: bool
    var calls: seq<Call>

    /** The game thread's statics `game_past` and `accu`, and what it copies into `game_data`. */
    var gamePast: U64
    var accu: U64
    var gameEvents: seq<Event>
    var gameMousePos: Vec2
    var gameUiData: CommonUiData

    /** `mouse_pos`, written by the main thread. */
    var mousePos: Vec2
    /** The main thread's `evts`. */
    var evts: seq<Event>

    /** `game_ui_data`, owned by the render thread. */
    var uiRenderable: seq<Renderable>
    var uiUiData: CommonUiData
    var uiCameraPos: Vec2

    ghost predicate Valid()
      reads this, platform, gameCode, eventQueue, buffers
    {
      && platform.Valid()
      && eventQueue.Valid()
      && buffers.Valid()
      && HR.Callable(gameCode.Value(), platform.objects)
      && (gameCode.gameCodeDll.Some? ==> gameCode.gameCodeDll.value in platform.objects)
    }

    /**
     * Start-up in `main`: the module is loaded from the staged copy
     * (`game_code = sdl_load_game_code(src_dll, dst_dll)`); a throwing load
     * terminates the process before any thread starts.
     */
    constructor (files: map<HR.Path, HR.Bytes>, objectFormat: HR.Bytes -> Option<HR.SymbolTable>)
      ensures Valid()
      ensures fresh(platform) && fresh(gameCode) && fresh(eventQueue) && fresh(buffers) && fresh(buffers.rendData)
      ensures running && !rebuilt && calls == [] && eventQueue.data == []
      ensures gamePast == 0 && accu == 0 && gameEvents == [] && evts == []
      ensures buffers.rendData[..] == [DEFAULT_RENDER_DATA, DEFAULT_RENDER_DATA]
      ensures platform.files == files[DST_DLL := HR.StagedImage(files, SRC_DLL, DST_DLL)]
      ensures !terminated <==> gameCode.isValid
      ensures var image := HR.StagedImage(files, SRC_DLL, DST_DLL);
        && (!terminated <==> HR.AcceptedAsWritten(objectFormat, image))
        && (!terminated ==> gameCode.Value() == HR.AsWrittenRecord(0, objectFormat(image).value))
        && (terminated ==> gameCode.Value() == HR.ZEROED)
        && platform.objects == (if objectFormat(image).Some? then map[0 := HR.LoadedObject(DST_DLL, image, objectFormat(image).value)] else map[])
    {
      platform := new HR.Platform(files, objectFormat);
      gameCode := new HR.SdlGameCode();
      eventQueue := new EQ.EventQueue();
      buffers := new DB.DoubleBuffer(DEFAULT_RENDER_DATA);
      rebuilt, running, terminated, calls := false, true, false, [];
      gamePast, accu, gameEvents, gameMousePos, gameUiData := 0, 0, [], ORIGIN, DEFAULT_UI;
      mousePos, evts := ORIGIN, [];
      uiRenderable, uiUiData, uiCameraPos := [], DEFAULT_UI, ORIGIN;
      new;
      var r := HR.LoadGameCodeAsWritten(platform, SRC_DLL, DST_DLL);
      if r.Success? {
        gameCode.Assign(r.value);
      } else {
        terminated := true;
      }
    }

    /** The record's pointer for an entry point. */
    function EntryPoint(name: string): HR.FnPtr
      reads gameCode
    {
      if name == HR.GAME_INIT then gameCode.gameInit
      else if name == HR.GAME_FIXED_UPDATE then gameCode.gameFixedUpdate
      else if name == HR.GAME_UPDATE then gameCode.gameUpdate
      else if name == HR.GAME_UPDATE_UI then gameCode.gameUpdateUi
      else gameCode.gameRefresh
    }

    /**
     * While the record is valid, an entry point it holds is safe to call
     * exactly when it is not NULL, and only `game_update` can be NULL.
     */
    lemma ValidEntryPointsSafe(name: string)
      requires Valid() && gameCode.isValid
      requires name in {HR.GAME_INIT, HR.GAME_FIXED_UPDATE, HR.GAME_UPDATE, HR.GAME_UPDATE_UI, HR.GAME_REFRESH}
      ensures Safe(Entry(name, EntryPoint(name)), platform.objects) <==> EntryPoint(name) != HR.Null
      ensures name != HR.GAME_UPDATE ==> EntryPoint(name) != HR.Null
    {
    }

    /** The start of `GameThread`: throw unless valid, then `game_init` (without the lock). */
    method StartGameThread()
      requires Valid()
      modifies this`calls, this`terminated
      ensures Valid()
      ensures old(gameCode.isValid) ==> terminated == old(terminated) && calls == old(calls) + [Entry(HR.GAME_INIT, gameCode.gameInit)]
      ensures !old(gameCode.isValid) ==> terminated && calls == old(calls)
      ensures AllSafe(calls[|old(calls)|..], platform.objects)
    {
      if !gameCode.isValid {
        terminated := true;
        return;
      }
      ValidEntryPointsSafe(HR.GAME_INIT);
      calls := calls + [Entry(HR.GAME_INIT, gameCode.gameInit)];
    }

    /** `calc_dt_ns(now, game_past)`. */
    method GameFrameTime(now: U64) returns (dtNs: U64)
      modifies this`gamePast
      ensures dtNs == FT.ClampedElapsed(now, old(gamePast)) && gamePast == now
    {
      dtNs, gamePast := FT.CalcDtNs(now, gamePast);
    }

    /**
     * The game thread's copy of the UI data out of `game_ui_data`, then its
     * drain of the event queue and read of `mouse_pos`.
     */
    method TakeInputs()
      requires Valid()
      modifies this`gameUiData, this`gameEvents, this`gameMousePos, eventQueue
      ensures Valid()
      ensures gameUiData == uiUiData
      ensures gameEvents == old(eventQueue.data) && eventQueue.data == []
      ensures gameMousePos == mousePos
    {
      gameUiData := uiUiData;
      gameEvents := eventQueue.DequeueAll();
      gameMousePos := mousePos;
    }

    /**
     * The rebuild check: when `rebuilt` is set and the record is valid,
     * `game_refresh` then `game_init`, once, and `rebuilt` is cleared;
     * when the record is not valid `rebuilt` stays set.
     */
    method CheckRebuild()
      requires Valid()
      modifies this`calls, this`rebuilt
      ensures Valid()
      ensures old(rebuilt) && gameCode.isValid ==>
        !rebuilt && calls == old(calls) + [Entry(HR.GAME_REFRESH, gameCode.gameRefresh), Entry(HR.GAME_INIT, gameCode.gameInit)]
      ensures !(old(rebuilt) && gameCode.isValid) ==> rebuilt == old(rebuilt) && calls == old(calls)
      ensures AllSafe(calls[|old(calls)|..], platform.objects)
    {
      if rebuilt {
        if gameCode.isValid {
          ValidEntryPointsSafe(HR.GAME_REFRESH);
          ValidEntryPointsSafe(HR.GAME_INIT);
          calls := calls + [Entry(HR.GAME_REFRESH, gameCode.gameRefresh)];
          calls := calls + [Entry(HR.GAME_INIT, gameCode.gameInit)];
          rebuilt := false;
        }
      }
    }

    /**
     * The fixed-step loop: `game_fixed_update` once per tick while valid;
     * `b2World_Step` is commented out in this variant.
     */
    method FixedUpdates(dtNs: U64) returns (ticks: nat)
      requires Valid()
      modifies this`accu, this`calls
      ensures Valid()
      ensures (accu, ticks) == FT.Advance(old(accu), dtNs)
      ensures calls == old(calls) + FT.Repeat(ticks, TickBlock(gameCode.isValid, false, gameCode.gameFixedUpdate))
      ensures AllSafe(calls[|old(calls)|..], platform.objects)
    {
      var tickCalls;
      accu, ticks, tickCalls := FT.FixedSteps(accu, dtNs, gameCode.isValid, false);
      TickLogRepeat(ticks, gameCode.isValid, false, gameCode.gameFixedUpdate);
      var block := TickBlock(gameCode.isValid, false, gameCode.gameFixedUpdate);
      if gameCode.isValid {
        ValidEntryPointsSafe(HR.GAME_FIXED_UPDATE);
      }
      RepeatSafe(ticks, block, platform.objects);
      calls := calls + TickLog(tickCalls, gameCode.gameFixedUpdate);
      assert calls[|old(calls)|..] == FT.Repeat(ticks, block);
    }

    /**
     * `game_update`, once, while valid. The call is unsafe exactly when the
     * load accepted a library without `game_update`: the pointer is NULL.
     */
    method Update()
      requires Valid()
      modifies this`calls
      ensures Valid()
      ensures calls == old(calls) + (if gameCode.isValid then [Entry(HR.GAME_UPDATE, gameCode.gameUpdate)] else [])
      ensures AllSafe(calls[|old(calls)|..], platform.objects) <==> !(gameCode.isValid && gameCode.gameUpdate == HR.Null)
    {
      if gameCode.isValid {
        ValidEntryPointsSafe(HR.GAME_UPDATE);
        calls := calls + [Entry(HR.GAME_UPDATE, gameCode.gameUpdate)];
        ghost var added := calls[|old(calls)|..];
        assert added == [Entry(HR.GAME_UPDATE, gameCode.gameUpdate)];
        assert AllSafe(added, platform.objects) <==> Safe(added[0], platform.objects);
      }
    }

    /**
     * The end of a game frame: the write buffer's `renderable` and
     * `ui_data.hmm` are cleared, one Renderable is pushed per Transform+Colour
     * entity, `camera_pos` and `ui_data` are copied in and `ui_data.game_dt`
     * set to `dt`; then the buffers are swapped. `registry`, `cameraPos` and
     * `uiData` are what the game module left in `game_data`.
     * The new read buffer holds exactly that frame, nothing of what the write
     * buffer held before, and the buffer that was being read is untouched.
     */
    method Publish(registry: Registry, cameraPos: Vec2, uiData: CommonUiData, dt: real)
      requires Valid()
      modifies buffers, buffers.rendData
      ensures Valid()
      ensures buffers.ReadValue() == RenderData(Renderables(registry), cameraPos, uiData.(gameDt := dt))
      ensures buffers.WriteValue() == old(buffers.ReadValue())
      ensures buffers.currentReadBuffer == old(buffers.WriteIndex())
    {
      var wb := buffers.WriteValue();
      wb := wb.(renderable := [], uiData := wb.uiData.(hmm := []));
      var pushed := CollectRenderables(registry);
      wb := wb.(renderable := wb.renderable + pushed);
      wb := wb.(cameraPos := cameraPos);
      wb := wb.(uiData := uiData);
      wb := wb.(uiData := wb.uiData.(gameDt := dt));
      buffers.Write(wb);
      buffers.SwapBuffers();
    }

    /** The render thread's copy of the read buffer into `game_ui_data`. */
    method ReadCopy()
      requires Valid()
      modifies this`uiRenderable, this`uiUiData, this`uiCameraPos
      ensures Valid()
      ensures var rd := buffers.ReadValue();
        uiRenderable == rd.renderable && uiUiData == rd.uiData && uiCameraPos == rd.cameraPos
    {
      var readBuffer := buffers.GetReadBuffer();
      uiRenderable := readBuffer.renderable;
      uiUiData := readBuffer.uiData;
      uiCameraPos := readBuffer.cameraPos;
    }

    /** `game_update_ui`, once, while valid. */
    method UpdateUi()
      requires Valid()
      modifies this`calls
      ensures Valid()
      ensures calls == old(calls) + (if gameCode.isValid then [Entry(HR.GAME_UPDATE_UI, gameCode.gameUpdateUi)] else [])
      ensures AllSafe(calls[|old(calls)|..], platform.objects)
    {
      if gameCode.isValid {
        ValidEntryPointsSafe(HR.GAME_UPDATE_UI);
        calls := calls + [Entry(HR.GAME_UPDATE_UI, gameCode.gameUpdateUi)];
      }
    }

    /**
     * The main thread's event poll: every polled event is forwarded, in
     * order, as one batch; quit, a close request for this window and ESC
     * stop the loop; a "9" key-down asks for a rebuild.
     */
    method PollEvents(polled: seq<Event>, windowId: nat, mouse: Vec2) returns (rebuildDll: bool)
      requires Valid()
      modifies this`running, this`evts, this`mousePos, eventQueue
      ensures Valid()
      ensures evts == polled && eventQueue.data == old(eventQueue.data) + polled
      ensures rebuildDll <==> exists i :: 0 <= i < |polled| && IsKeyDown(polled[i], Key9)
      ensures running <==> old(running) && forall i :: 0 <= i < |polled| ==> !StopsEngine(polled[i], windowId)
      ensures mousePos == mouse
    {
      rebuildDll := false;
      evts := [];
      for i := 0 to |polled|
        modifies this`running, this`evts
        invariant evts == polled[..i]
        invariant rebuildDll <==> exists j :: 0 <= j < i && IsKeyDown(polled[j], Key9)
        invariant running <==> old(running) && forall j :: 0 <= j < i ==> !StopsEngine(polled[j], windowId)
      {
        var e := polled[i];
        if e.Quit? {
          running := false;
        }
        if e.WindowCloseRequested? && e.windowId == windowId {
          running := false;
        }
        if e.KeyDown? {
          if e.scancode == Key9 {
            rebuildDll := true;
          }
          if e.scancode == Escape {
            running := false;
          }
        }
        evts := evts + [e];
      }
      assert polled[..|polled|] == polled;
      eventQueue.Enqueue(evts);
      mousePos := mouse;
    }

    /**
     * The rebuild block of `main`, under the reload lock, with the build
     * script's exit code: a failed build changes nothing; a successful one
     * unloads the module, loads the rebuilt one and sets `rebuilt`. A load
     * that throws is not caught, so the process terminates, the module
     * unloaded.
     */
    method Rebuild(buildResult: int)
      requires Valid()
      modifies this`rebuilt, this`terminated, gameCode, platform
      ensures Valid()
      ensures buildResult != 0 ==>
        && gameCode.Value() == old(gameCode.Value()) && rebuilt == old(rebuilt) && terminated == old(terminated)
        && platform.files == old(platform.files) && platform.objects == old(platform.objects)
      ensures buildResult == 0 ==>
        var image := HR.StagedImage(old(platform.files), SRC_DLL, DST_DLL);
        var h := old(platform.nextHandle);
        var rest := old(platform.objects) - HR.Released(old(gameCode.Value()));
        && platform.files == old(platform.files)[DST_DLL := image]
        && platform.objects == (if platform.objectFormat(image).Some? then rest[h := HR.LoadedObject(DST_DLL, image, platform.objectFormat(image).value)] else rest)
        && (gameCode.isValid <==> HR.AcceptedAsWritten(platform.objectFormat, image))
        && (gameCode.isValid ==>
              && gameCode.Value() == HR.AsWrittenRecord(h, platform.objectFormat(image).value)
              && rebuilt && terminated == old(terminated))
        && (!gameCode.isValid ==>
              && terminated && rebuilt == old(rebuilt)
              && gameCode.Value() == HR.Unloaded(old(gameCode.Value())))
    {
      if buildResult == 0 {
        var _ := gameCode.Unload(platform);
        var r := HR.LoadGameCodeAsWritten(platform, SRC_DLL, DST_DLL);
        if r.Failure? {
          terminated := true;
          return;
        }
        gameCode.Assign(r.value);
        rebuilt := true;
      }
    }
  }

  /**
   * A run that reaches a NULL `game_update` call: the staged library exports
   * every entry point but `game_update`, the load accepts it, and the game
   * thread's first frame calls `game_init` and then the NULL update pointer.
   */
  method NullUpdateCalled() returns (calls: seq<Call>, safe: bool)
    ensures calls == [Entry(HR.GAME_INIT, HR.Symbol(0, HR.GAME_INIT)), Entry(HR.GAME_UPDATE, HR.Null)]
    ensures !safe
  {
    var syms := {HR.GAME_INIT, HR.GAME_FIXED_UPDATE, HR.GAME_UPDATE_UI, HR.GAME_REFRESH};
    var image: HR.Bytes := [0x7f];
    var e := new Engine(map[SRC_DLL := image], (b: HR.Bytes) => Some(syms));
    e.StartGameThread();
    e.Update();
    calls := e.calls;
    safe := AllSafe(calls, e.platform.objects);
  }

  predicate StopsEngine(e: Event, windowId: nat)
  {
    e.Quit? || (e.WindowCloseRequested? && e.windowId == windowId) || IsKeyDown(e, Escape)
  }

  /** One slot of the mapped sprite-instance buffer. */
  datatype SpriteInstance = SpriteInstance(
    x: real, y: real, z: real, rotation: real, w: real, h: real,
    p1: real, p2: real, texU: real, texV: real, texW: real, texH: real,
    colour: Colour)

  /** The slot drawn for a Renderable: its position, rotation, size and colour over the whole texture. */
  function SpriteOf(r: Renderable): SpriteInstance
  {
    var t := r.transform;
    SpriteInstance(t.pos.x, t.pos.y, 0.0, t.rotationRadians, t.size.x, t.size.y,
                   0.0, 0.0, 0.0, 0.0, 1.0, 1.0, r.colour)
  }

  /** An unused slot: zero size at the origin; its colour is left as it was. */
  function UnusedSlot(stale: Colour): SpriteInstance
  {
    SpriteInstance(0.0, 0.0, 0.0, 0.0, 0.0, 0.0, 0.0, 0.0, 0.0, 0.0, 1.0, 1.0, stale)
  }

  /**
   * The render thread's fill of the 8192 mapped sprite slots: slot i draws
   * `renderables[i]` when there is one; the other slots get zero size and
   * keep whatever colour they held. Renderables beyond 8192 are not drawn.
   */
  method FillSprites(data: array<SpriteInstance>, renderables: seq<Renderable>)
    requires data.Length == SPRITE_COUNT
    modifies data
    ensures forall i | 0 <= i < SPRITE_COUNT && i < |renderables| :: data[i] == SpriteOf(renderables[i])
    ensures forall i | |renderables| <= i < SPRITE_COUNT :: data[i] == UnusedSlot(old(data[i].colour))
  {
    for i := 0 to SPRITE_COUNT
      invariant forall j | 0 <= j < i && j < |renderables| :: data[j] == SpriteOf(renderables[j])
      invariant forall j | |renderables| <= j < i :: data[j] == UnusedSlot(old(data[j].colour))
      invariant forall j | i <= j < SPRITE_COUNT :: data[j] == old(data[j])
    {
      var s := data[i];
      s := s.(x := 0.0, y := 0.0, z := 0.0, rotation := 0.0, w := 0.0, h := 0.0);
      if i < |renderables| {
        var t := renderables[i].transform;
        s := s.(x := t.pos.x, y := t.pos.y, z := 0.0, rotation := t.rotationRadians, w := t.size.x, h := t.size.y);
      }
      s := s.(p1 := 0.0, p2 := 0.0, texU := 0.0, texV := 0.0, texW := 1.0, texH := 1.0);
      if i < |renderables| {
        s := s.(colour := renderables[i].colour);
      }
      data[i] := s;
    }
  }
}
