/**
 * The early prototype game/src/main.cpp: the game thread counts keypad
 * +/- presses in a Uint64 counter, the main thread hands the counter to the
 * renderer as an `int` sampler index, and the renderer clamps it into the
 * six samplers. The condition-variable handshake that orders the three
 * threads is not modelled; each block is one step.
 */
module PrototypeMain {
  import opened MachineInts
  import opened SdlEvents
  import FT = FrameTiming

  /** `samplers`: PointClamp, PointWrap, LinearClamp, LinearWrap, AnisotropicClamp, AnisotropicWrap. */
  const SAMPLER_COUNT: nat := 6

  /** The counter after a batch of events: one Uint64 increment or decrement per keypad press, in order. */
  function CounterAfter(counter: U64, evts: seq<Event>): U64
  {
    if |evts| == 0 then counter
    else
      var c := CounterAfter(counter, evts[..|evts| - 1]);
      var e := evts[|evts| - 1];
      if IsKeyDown(e, KpPlus) then WrapAdd(c, 1)
      else if IsKeyDown(e, KpMinus) then WrapSub(c, 1)
      else c
  }

  /** The counter moves by the net number of presses, modulo 2^64: the order of the presses does not matter. */
  lemma {:induction false} CounterNetPresses(counter: U64, evts: seq<Event>)
    ensures CounterAfter(counter, evts)
         == (counter + CountKeyDowns(evts, KpPlus) - CountKeyDowns(evts, KpMinus)) % TWO_TO_THE_64
  {
    if |evts| > 0 {
      var init := evts[..|evts| - 1];
      CounterNetPresses(counter, init);
      var net := counter + CountKeyDowns(init, KpPlus) - CountKeyDowns(init, KpMinus);
      var e := evts[|evts| - 1];
      if IsKeyDown(e, KpPlus) {
        ModAdd(net, 1);
      } else if IsKeyDown(e, KpMinus) {
        ModAdd(net, -1);
      }
    }
  }

  lemma ModAdd(a: int, b: int)
    ensures (a % TWO_TO_THE_64 + b) % TWO_TO_THE_64 == (a + b) % TWO_TO_THE_64
  {
    var q := a / TWO_TO_THE_64;
    assert a == q * TWO_TO_THE_64 + a % TWO_TO_THE_64;
    ModMultiple(a % TWO_TO_THE_64 + b, q);
    assert a % TWO_TO_THE_64 + b + q * TWO_TO_THE_64 == a + b;
  }

  lemma {:induction false} ModMultiple(x: int, q: int)
    ensures (x + q * TWO_TO_THE_64) % TWO_TO_THE_64 == x % TWO_TO_THE_64
    decreases if q < 0 then -q else q
  {
    if q > 0 {
      ModMultiple(x, q - 1);
      assert x + q * TWO_TO_THE_64 == (x + (q - 1) * TWO_TO_THE_64) + TWO_TO_THE_64;
    } else if q < 0 {
      ModMultiple(x, q + 1);
      assert x + q * TWO_TO_THE_64 == (x + (q + 1) * TWO_TO_THE_64) - TWO_TO_THE_64;
    }
  }

  class Prototype {
    /** `game_data.counter` */
    var counter: U64
    /** `game_data.evts` */
    var gameEvents: seq<Event>
    var gamePast: U64
    /** The main thread's `evts`. */
    var evts: seq<Event>
    var running: bool
    /** `rend_data.cur_sampler_idx` */
    var curSamplerIdx: I32

    constructor ()
      ensures counter == 0 && gameEvents == [] && evts == [] && running && curSamplerIdx == 0
      ensures gamePast == 0
    {
      counter, gameEvents, gamePast, evts, running, curSamplerIdx := 0, [], 0, [], true, 0;
    }

    /**
     * One pass of the game thread's loop: `calc_dt_ns`, then each KP_PLUS
     * key-down increments and each KP_MINUS key-down decrements the counter
     * (wrapping as a Uint64), then the event list is cleared.
     */
    method GameFrame(now: U64) returns (dtNs: U64)
      modifies this`counter, this`gameEvents, this`gamePast
      ensures dtNs == FT.ClampedElapsed(now, old(gamePast)) && gamePast == now
      ensures counter == CounterAfter(old(counter), old(gameEvents))
      ensures counter == (old(counter) + CountKeyDowns(old(gameEvents), KpPlus)
                                       - CountKeyDowns(old(gameEvents), KpMinus)) % TWO_TO_THE_64
      ensures gameEvents == []
    {
      dtNs, gamePast := FT.CalcDtNs(now, gamePast);
      for i := 0 to |gameEvents|
        modifies this`counter
        invariant counter == CounterAfter(old(counter), gameEvents[..i])
      {
        assert gameEvents[..i + 1][..i] == gameEvents[..i];
        var evt := gameEvents[i];
        if evt.KeyDown? {
          if evt.scancode == KpPlus {
            counter := WrapAdd(counter, 1);
          }
          if evt.scancode == KpMinus {
            counter := WrapSub(counter, 1);
          }
        }
      }
      assert gameEvents[..|gameEvents|] == gameEvents;
      CounterNetPresses(old(counter), gameEvents);
      gameEvents := [];
    }

    /** The main thread's poll: the polled events are collected in order; quit stops the loop. */
    method PollEvents(polled: seq<Event>)
      modifies this`evts, this`running
      ensures evts == polled
      ensures running <==> old(running) && forall i :: 0 <= i < |polled| ==> !polled[i].Quit?
    {
      evts := [];
      for i := 0 to |polled|
        modifies this`evts, this`running
        invariant evts == polled[..i]
        invariant running <==> old(running) && forall j :: 0 <= j < i ==> !polled[j].Quit?
      {
        if polled[i].Quit? {
          running := false;
        }
        evts := evts + [polled[i]];
      }
    }

    /**
     * The main thread's hand-off once both threads have finished a frame:
     * the events go to the game thread and the counter, converted from
     * Uint64 to `int` (its low 32 bits, two's complement), to the renderer.
     */
    method Handoff()
      modifies this`gameEvents, this`curSamplerIdx
      ensures gameEvents == evts
      ensures curSamplerIdx == ToI32(counter)
    {
      gameEvents := evts;
      curSamplerIdx := ToI32(counter);
    }
  }

  /**
   * The renderer's clamp: a negative index selects the last sampler, any
   * other index is taken modulo the number of samplers.
   */
  method SamplerSlot(curSamplerIdx: I32) returns (slot: int)
    ensures 0 <= slot < SAMPLER_COUNT
    ensures curSamplerIdx < 0 ==> slot == SAMPLER_COUNT - 1
    ensures curSamplerIdx >= 0 ==> slot == curSamplerIdx % SAMPLER_COUNT
  {
    var counter := curSamplerIdx;
    counter := if counter < 0 then SAMPLER_COUNT - 1 else counter;
    counter := counter % SAMPLER_COUNT;
    slot := counter;
  }

  /**
   * One KP_MINUS from zero wraps the counter to 2^64 - 1, which reaches the
   * renderer as -1 and so selects the last sampler.
   */
  lemma MinusFromZeroIsMinusOne()
    ensures CounterAfter(0, [KeyDown(KpMinus)]) == TWO_TO_THE_64 - 1
    ensures ToI32(CounterAfter(0, [KeyDown(KpMinus)])) == -1
  {
    assert [KeyDown(KpMinus)][..0] == [];
  }
}
