/**
 * The three threads of game/src/engine/main.cpp, as the steps they take.
 * Unlike engine/src/main.cpp this variant guards the module with a separate
 * atomic flag `game_code_valid`, steps the Box2D world on every tick,
 * handles the "9" key in the game thread by calling `game_refresh`, and
 * hands the renderer only the entities' transforms. Every lock-guarded block
 * is one atomic method of `GameEngine`; calls into the game module and into
 * Box2D are recorded in `calls`.
 */
module GameEngineMain {
  import opened Wrappers
  import opened MachineInts
  import opened Components
  import opened SdlEvents
  import opened CallLog
  import FT = FrameTiming
  import HR = HotReload
  import EQ = EventQueue
  import DB = DoubleBuffer

  const SRC_DLL := "GameDLL.dll"
  const DST_DLL := "GameDLL-locked.dll"
  const SPRITE_COUNT: nat := 8192

  /** `std::ranges::copy(view.each() | transform(get_comp), back_inserter(wb.transforms))`. */
  method CollectTransforms(reg: Registry) returns (out: seq<Transform>)
    ensures out == Transforms(reg)
  {
    out := [];
    for i := 0 to |reg|
      invariant out == Transforms(reg[..i])
    {
      assert reg[..i + 1][..i] == reg[..i];
      if reg[i].transform.Some? {
        out := out + [reg[i].transform.value];
      }
    }
    assert reg[..|reg|] == reg;
  }

  class GameEngine {
    const platform: HR.Platform
    const gameCode: HR.SdlGameCode
    /** `game_code_valid` */
    var codeValid: bool
    const eventQueue: EQ.EventQueue<Event>
    /** `rend_data[2]`: each buffer's `transforms`. */
    const buffers: DB.DoubleBuffer<seq<Transform>>
    var running: bool
    var terminated: bool
    var calls: seq<Call>

    var gamePast: U64
    var accu: U64
    var gameEvents: seq<Event>
    var gameMousePos: Vec2
    var gameDt: real
    /** `game_ui_data.game_dt` */
    var uiGameDt: real
    var mousePos: Vec2
    var evts: seq<Event>

    ghost predicate Valid()
      reads this, platform, gameCode, eventQueue, buffers
    {
      && platform.Valid()
      && eventQueue.Valid()
      && buffers.Valid()
      && HR.Callable(gameCode.Value(), platform.objects)
      && (gameCode.gameCodeDll.Some? ==> gameCode.gameCodeDll.value in platform.objects)
      && (codeValid ==> gameCode.isValid)
    }

    /**
     * Start-up in `main`: under the lock, the module is loaded from the
     * staged copy and the flag set; a throwing load terminates the process.
     */
    constructor (files: map<HR.Path, HR.Bytes>, objectFormat: HR.Bytes -> Option<HR.SymbolTable>)
      ensures Valid()
      ensures fresh(platform) && fresh(gameCode) && fresh(eventQueue) && fresh(buffers) && fresh(buffers.rendData)
      ensures running && calls == [] && eventQueue.data == [] && buffers.rendData[..] == [[], []]
      ensures gamePast == 0 && accu == 0 && gameEvents == [] && evts == []
      ensures platform.files == files[DST_DLL := HR.StagedImage(files, SRC_DLL, DST_DLL)]
      ensures codeValid <==> !terminated
      ensures var image := HR.StagedImage(files, SRC_DLL, DST_DLL);
        && (codeValid <==> HR.AcceptedAsWritten(objectFormat, image))
        && (codeValid ==> gameCode.Value() == HR.AsWrittenRecord(0, objectFormat(image).value))
        && (!codeValid ==> gameCode.Value() == HR.ZEROED)
        && platform.objects == (if objectFormat(image).Some? then map[0 := HR.LoadedObject(DST_DLL, image, objectFormat(image).value)] else map[])
    {
      platform := new HR.Platform(files, objectFormat);
      gameCode := new HR.SdlGameCode();
      eventQueue := new EQ.EventQueue();
      buffers := new DB.DoubleBuffer([]);
      codeValid, running, terminated, calls := false, true, false, [];
      gamePast, accu, gameEvents, gameMousePos, gameDt, uiGameDt := 0, 0, [], Vec2(0.0, 0.0), 0.0, 0.0;
      mousePos, evts := Vec2(0.0, 0.0), [];
      new;
      var r := HR.LoadGameCodeAsWritten(platform, SRC_DLL, DST_DLL);
      if r.Failure? {
        terminated := true;
        return;
      }
      gameCode.Assign(r.value);
      codeValid := true;
    }

    function EntryPoint(name: string): HR.FnPtr
      reads gameCode
    {
      if name == HR.GAME_INIT then gameCode.gameInit
      else if name == HR.GAME_FIXED_UPDATE then gameCode.gameFixedUpdate
      else if name == HR.GAME_UPDATE then gameCode.gameUpdate
      else if name == HR.GAME_UPDATE_UI then gameCode.gameUpdateUi
      else gameCode.gameRefresh
    }

    /**
     * After reading `game_code_valid` as true, an entry point of the record
     * is safe to call exactly when it is not NULL, and only `game_update`
     * can be NULL.
     */
    lemma FlagGuardsEntryPoints(name: string)
      requires Valid() && codeValid
      requires name in {HR.GAME_INIT, HR.GAME_FIXED_UPDATE, HR.GAME_UPDATE, HR.GAME_UPDATE_UI, HR.GAME_REFRESH}
      ensures Safe(Entry(name, EntryPoint(name)), platform.objects) <==> EntryPoint(name) != HR.Null
      ensures name != HR.GAME_UPDATE ==> EntryPoint(name) != HR.Null
    {
    }

    /** The start of `GameThread`: throw unless the flag is set, then `game_init` under the lock. */
    method StartGameThread()
      requires Valid()
      modifies this`calls, this`terminated
      ensures Valid()
      ensures old(codeValid) ==> terminated == old(terminated) && calls == old(calls) + [Entry(HR.GAME_INIT, gameCode.gameInit)]
      ensures !old(codeValid) ==> terminated && calls == old(calls)
      ensures AllSafe(calls[|old(calls)|..], platform.objects)
    {
      if !codeValid {
        terminated := true;
        return;
      }
      FlagGuardsEntryPoints(HR.GAME_INIT);
      calls := calls + [Entry(HR.GAME_INIT, gameCode.gameInit)];
    }

    /** `calc_dt_ns(now, game_past)`. */
    method GameFrameTime(now: U64) returns (dtNs: U64)
      modifies this`gamePast
      ensures dtNs == FT.ClampedElapsed(now, old(gamePast)) && gamePast == now
    {
      dtNs, gamePast := FT.CalcDtNs(now, gamePast);
    }

    /**
     * Under the lock: drain the event queue into `game_data.events`, set
     * `game_data.dt` and read `mouse_pos`; then `game_ui_data.game_dt`.
     */
    method TakeInputs(dt: real)
      requires Valid()
      modifies this`gameEvents, this`gameDt, this`gameMousePos, this`uiGameDt, eventQueue
      ensures Valid()
      ensures gameEvents == old(eventQueue.data) && eventQueue.data == []
      ensures gameDt == dt && uiGameDt == dt && gameMousePos == mousePos
    {
      gameEvents := eventQueue.DequeueAll();
      gameDt := dt;
      gameMousePos := mousePos;
      uiGameDt := dt;
    }

    /** The fixed-step loop: each tick `game_fixed_update` while the flag is set, then one world step. */
    method FixedUpdates(dtNs: U64) returns (ticks: nat)
      requires Valid()
      modifies this`accu, this`calls
      ensures Valid()
      ensures (accu, ticks) == FT.Advance(old(accu), dtNs)
      ensures calls == old(calls) + FT.Repeat(ticks, TickBlock(codeValid, true, gameCode.gameFixedUpdate))
      ensures AllSafe(calls[|old(calls)|..], platform.objects)
    {
      var tickCalls;
      accu, ticks, tickCalls := FT.FixedSteps(accu, dtNs, codeValid, true);
      TickLogRepeat(ticks, codeValid, true, gameCode.gameFixedUpdate);
      var block := TickBlock(codeValid, true, gameCode.gameFixedUpdate);
      if codeValid {
        FlagGuardsEntryPoints(HR.GAME_FIXED_UPDATE);
        assert block == [Entry(HR.GAME_FIXED_UPDATE, gameCode.gameFixedUpdate), PhysicsStep];
      } else {
        assert block == [PhysicsStep];
      }
      RepeatSafe(ticks, block, platform.objects);
      calls := calls + TickLog(tickCalls, gameCode.gameFixedUpdate);
      assert calls[|old(calls)|..] == FT.Repeat(ticks, block);
    }

    /** The "9" key: one `game_refresh` per "9" key-down in the drained batch, each while the flag is set. */
    method RefreshOnKey9()
      requires Valid()
      modifies this`calls
      ensures Valid()
      ensures calls == old(calls)
        + FT.Repeat(if codeValid then CountKeyDowns(gameEvents, Key9) else 0, [Entry(HR.GAME_REFRESH, gameCode.gameRefresh)])
      ensures AllSafe(calls[|old(calls)|..], platform.objects)
    {
      var refresh := [Entry(HR.GAME_REFRESH, gameCode.gameRefresh)];
      if codeValid {
        FlagGuardsEntryPoints(HR.GAME_REFRESH);
      }
      ghost var n := 0;
      for i := 0 to |gameEvents|
        invariant n == (if codeValid then CountKeyDowns(gameEvents[..i], Key9) else 0)
        invariant calls == old(calls) + FT.Repeat(n, refresh)
        invariant codeValid ==> AllSafe(refresh, platform.objects)
      {
        assert gameEvents[..i + 1][..i] == gameEvents[..i];
        var evt := gameEvents[i];
        if evt.KeyDown? {
          if evt.scancode == Key9 {
            if codeValid {
              calls := calls + refresh;
              n := n + 1;
            }
          }
        }
      }
      assert gameEvents[..|gameEvents|] == gameEvents;
      if codeValid {
        RepeatSafe(n, refresh, platform.objects);
      }
      assert calls[|old(calls)|..] == FT.Repeat(n, refresh);
    }

    /**
     * `game_update`, once, while the flag is set. The call is unsafe exactly
     * when the load accepted a library without `game_update`.
     */
    method Update()
      requires Valid()
      modifies this`calls
      ensures Valid()
      ensures calls == old(calls) + (if codeValid then [Entry(HR.GAME_UPDATE, gameCode.gameUpdate)] else [])
      ensures AllSafe(calls[|old(calls)|..], platform.objects) <==> !(codeValid && gameCode.gameUpdate == HR.Null)
    {
      if codeValid {
        FlagGuardsEntryPoints(HR.GAME_UPDATE);
        calls := calls + [Entry(HR.GAME_UPDATE, gameCode.gameUpdate)];
        ghost var added := calls[|old(calls)|..];
        assert added == [Entry(HR.GAME_UPDATE, gameCode.gameUpdate)];
        assert AllSafe(added, platform.objects) <==> Safe(added[0], platform.objects);
      }
    }

    /**
     * The end of a game frame: the write buffer's transforms are cleared and
     * refilled with one transform per entity that has one, then the buffers
     * are swapped. `registry` is what the game module left in the registry.
     */
    method Publish(registry: Registry)
      requires Valid()
      modifies buffers, buffers.rendData
      ensures Valid()
      ensures buffers.ReadValue() == Transforms(registry)
      ensures buffers.WriteValue() == old(buffers.ReadValue())
      ensures buffers.currentReadBuffer == old(buffers.WriteIndex())
    {
      var wb := buffers.WriteValue();
      wb := [];
      var copied := CollectTransforms(registry);
      wb := wb + copied;
      buffers.Write(wb);
      buffers.SwapBuffers();
    }

    /** The render thread's copy of the read buffer's transforms. */
    method ReadCopy() returns (transforms: seq<Transform>)
      requires Valid()
      ensures transforms == buffers.ReadValue()
    {
      transforms := buffers.GetReadBuffer();
    }

    /** `game_update_ui`, once, under both locks, while the flag is set. */
    method UpdateUi()
      requires Valid()
      modifies this`calls
      ensures Valid()
      ensures calls == old(calls) + (if codeValid then [Entry(HR.GAME_UPDATE_UI, gameCode.gameUpdateUi)] else [])
      ensures AllSafe(calls[|old(calls)|..], platform.objects)
    {
      if codeValid {
        FlagGuardsEntryPoints(HR.GAME_UPDATE_UI);
        calls := calls + [Entry(HR.GAME_UPDATE_UI, gameCode.gameUpdateUi)];
      }
    }

    /**
     * The main thread's event poll: every polled event is forwarded, in
     * order, as one batch; quit and a close request for this window stop the
     * loop (ESC does not, in this variant); a "9" key-down asks for a rebuild.
     */
    method PollEvents(polled: seq<Event>, windowId: nat, mouse: Vec2) returns (rebuildDll: bool)
      requires Valid()
      modifies this`running, this`evts, this`mousePos, eventQueue
      ensures Valid()
      ensures evts == polled && eventQueue.data == old(eventQueue.data) + polled
      ensures rebuildDll <==> exists i :: 0 <= i < |polled| && IsKeyDown(polled[i], Key9)
      ensures running <==> old(running) && forall i :: 0 <= i < |polled| ==> !ClosesWindow(polled[i], windowId)
      ensures mousePos == mouse
    {
      rebuildDll := false;
      evts := [];
      for i := 0 to |polled|
        modifies this`running, this`evts
        invariant evts == polled[..i]
        invariant rebuildDll <==> exists j :: 0 <= j < i && IsKeyDown(polled[j], Key9)
        invariant running <==> old(running) && forall j :: 0 <= j < i ==> !ClosesWindow(polled[j], windowId)
      {
        var e := polled[i];
        if e.Quit? {
          running := false;
        }
        if e.WindowCloseRequested? && e.windowId == windowId {
          running := false;
        }
        if e.KeyDown? && e.scancode == Key9 {
          rebuildDll := true;
        }
        evts := evts + [e];
      }
      assert polled[..|polled|] == polled;
      eventQueue.Enqueue(evts);
      mousePos := mouse;
    }

    /**
     * The rebuild block of `main`, inside one `game_code_mtx` section: a
     * failed build changes nothing; a successful one clears the flag,
     * unloads, loads and sets the flag again. A load that throws is not
     * caught: the process terminates with the flag clear.
     */
    method Rebuild(buildResult: int)
      requires Valid()
      modifies this`codeValid, this`terminated, gameCode, platform
      ensures Valid()
      ensures buildResult != 0 ==>
        && gameCode.Value() == old(gameCode.Value()) && codeValid == old(codeValid) && terminated == old(terminated)
        && platform.files == old(platform.files) && platform.objects == old(platform.objects)
      ensures buildResult == 0 ==>
        var image := HR.StagedImage(old(platform.files), SRC_DLL, DST_DLL);
        var h := old(platform.nextHandle);
        var rest := old(platform.objects) - HR.Released(old(gameCode.Value()));
        && platform.files == old(platform.files)[DST_DLL := image]
        && platform.objects == (if platform.objectFormat(image).Some? then rest[h := HR.LoadedObject(DST_DLL, image, platform.objectFormat(image).value)] else rest)
        && (codeValid <==> HR.AcceptedAsWritten(platform.objectFormat, image))
        && (codeValid ==>
              && gameCode.Value() == HR.AsWrittenRecord(h, platform.objectFormat(image).value)
              && terminated == old(terminated))
        && (!codeValid ==> terminated && gameCode.Value() == HR.Unloaded(old(gameCode.Value())))
    {
      if buildResult == 0 {
        codeValid := false;
        var _ := gameCode.Unload(platform);
        var r := HR.LoadGameCodeAsWritten(platform, SRC_DLL, DST_DLL);
        if r.Failure? {
          terminated := true;
          return;
        }
        gameCode.Assign(r.value);
        codeValid := true;
      }
    }
  }

  predicate ClosesWindow(e: Event, windowId: nat)
  {
    e.Quit? || (e.WindowCloseRequested? && e.windowId == windowId)
  }

  /** One slot of the mapped sprite-instance buffer in this variant. */
  datatype SpriteInstance = SpriteInstance(
    x: real, y: real, z: real, rotation: real, w: real, h: real,
    paddingA: real, paddingB: real, texU: real, texV: real, texW: real, texH: real,
    r: real, g: real, b: real, a: real)

  /** The slot drawn for a transform: its position, rotation and size, white, over the whole texture. */
  function SpriteOf(t: Transform): SpriteInstance
  {
    SpriteInstance(t.pos.x, t.pos.y, 0.0, t.rotationRadians, t.size.x, t.size.y,
                   0.0, 0.0, 0.0, 0.0, 1.0, 1.0, 1.0, 1.0, 1.0, 1.0)
  }

  /** An unused slot: zero size at the origin. */
  const UNUSED_SLOT := SpriteInstance(0.0, 0.0, 0.0, 0.0, 0.0, 0.0, 0.0, 0.0, 0.0, 0.0, 1.0, 1.0, 1.0, 1.0, 1.0, 1.0)

  /**
   * The render thread's fill of the 8192 mapped sprite slots: slot i draws
   * `transforms[i]` when there is one and is zeroed otherwise; transforms
   * beyond 8192 are not drawn. Every slot is fully written.
   */
  method FillSprites(data: array<SpriteInstance>, transforms: seq<Transform>)
    requires data.Length == SPRITE_COUNT
    modifies data
    ensures forall i | 0 <= i < SPRITE_COUNT && i < |transforms| :: data[i] == SpriteOf(transforms[i])
    ensures forall i | |transforms| <= i < SPRITE_COUNT :: data[i] == UNUSED_SLOT
  {
    for i := 0 to SPRITE_COUNT
      invariant forall j | 0 <= j < i && j < |transforms| :: data[j] == SpriteOf(transforms[j])
      invariant forall j | |transforms| <= j < i :: data[j] == UNUSED_SLOT
    {
      var s := data[i];
      if i < |transforms| {
        var t := transforms[i];
        s := s.(x := t.pos.x, y := t.pos.y, z := 0.0, rotation := t.rotationRadians, w := t.size.x, h := t.size.y);
      } else {
        s := s.(x := 0.0, y := 0.0, z := 0.0, rotation := 0.0, w := 0.0, h := 0.0);
      }
      s := s.(paddingA := 0.0, paddingB := 0.0, texU := 0.0, texV := 0.0, texW := 1.0, texH := 1.0);
      s := s.(r := 1.0, g := 1.0, b := 1.0, a := 1.0);
      data[i] := s;
    }
  }
}
