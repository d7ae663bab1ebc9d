/**
 * The minimal game module game/src/dll_boundary/game.cpp: the static
 * `input` direction driven by W/A/S/D, and the bodies `create_something`
 * is asked to make. Box2D bodies are foreign; the model keeps the
 * positions bodies were requested at, in request order.
 */
module DllBoundaryGame {
  import opened Components
  import opened SdlEvents
  import opened KeyInput
  import FT = FrameTiming

  /** The positions `game_init` creates its two bodies at. */
  const INIT_POSITIONS: seq<Vec2> := [Vec2(300.0, 300.0), Vec2(600.0, 600.0)]

  class Game {
    /** The static `input` and the `refreshed` flag. */
    var input: Vec2
    var refreshed: bool
    /** Every `create_something` call, by position. */
    var created: seq<Vec2>

    constructor ()
      ensures input == Vec2(0.0, 0.0) && !refreshed && created == []
    {
      input := Vec2(0.0, 0.0);
      refreshed := false;
      created := [];
    }

    /** `game_init`: two bodies. */
    method Init()
      modifies this`created
      ensures created == old(created) + INIT_POSITIONS
    {
      created := created + [Vec2(300.0, 300.0)];
      created := created + [Vec2(600.0, 600.0)];
    }

    /** `game_refresh`: the flag is set; the world and its bodies are recreated by Box2D. */
    method Refresh()
      modifies this`refreshed
      ensures refreshed
    {
      refreshed := true;
    }

    /** One event of the `game_update` loop. */
    method ProcessEvent(evt: Event, mousePos: Vec2)
      modifies this`input, this`created
      ensures input == Vec2(AxisStep(old(input).x, evt, A, D), AxisStep(old(input).y, evt, W, S))
      ensures created == old(created) + (if IsKeyDown(evt, Kp0) then [mousePos] else [])
    {
      if evt.KeyDown? {
        var scancode := evt.scancode;
        if scancode == W { input := input.(y := -1.0); }
        if scancode == S { input := input.(y := 1.0); }
        if scancode == A { input := input.(x := -1.0); }
        if scancode == D { input := input.(x := 1.0); }
        if scancode == Kp0 { created := created + [mousePos]; }
      }
      if evt.KeyUp? {
        var scancode := evt.scancode;
        if scancode == W { input := input.(y := 0.0); }
        if scancode == S { input := input.(y := 0.0); }
        if scancode == A { input := input.(x := 0.0); }
        if scancode == D { input := input.(x := 0.0); }
      }
    }

    /**
     * The event loop of `game_update`: each axis of `input` ends at the
     * value its keys' events give it in order, and every KP_0 key-down
     * creates one body at the mouse position.
     */
    method GameUpdate(evts: seq<Event>, mousePos: Vec2)
      modifies this`input, this`created
      ensures input == Vec2(AxisAfter(old(input).x, evts, A, D), AxisAfter(old(input).y, evts, W, S))
      ensures created == old(created) + FT.Repeat(CountKeyDowns(evts, Kp0), [mousePos])
    {
      for i := 0 to |evts|
        invariant input == Vec2(AxisAfter(old(input).x, evts[..i], A, D), AxisAfter(old(input).y, evts[..i], W, S))
        invariant created == old(created) + FT.Repeat(CountKeyDowns(evts[..i], Kp0), [mousePos])
      {
        AxisAfterPrefix(old(input).x, evts, i, A, D);
        AxisAfterPrefix(old(input).y, evts, i, W, S);
        CountsOfPrefix(evts, i);
        ProcessEvent(evts[i], mousePos);
      }
      assert evts[..|evts|] == evts;
    }
  }
}
