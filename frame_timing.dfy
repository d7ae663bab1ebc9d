/**
 * Frame timing of the game thread, in integer nanoseconds (SDL's Uint64):
 * `calc_dt_ns` (the same lambda in engine/src/main.cpp, game/src/engine/main.cpp
 * and game/src/main.cpp) and the fixed-step accumulator loop of the two
 * engine mains.
 */
module FrameTiming {
  import opened MachineInts

  /** `Uint64(250 * 1e6)`: the largest frame delta handed on ("avoid spiral"). */
  const MAX_DT_NS: U64 := 250_000_000

  /** `(Uint64)(1e9 / 60.0)`, and `1e9 / 60.0f` converted to Uint64: both truncate to this. */
  const NS_PER_FIXED_TICK: U64 := 16_666_666

  /**
   * The delta `calc_dt_ns` returns: the wrap-around difference `now - past`,
   * capped at 250 ms.
   */
  function ClampedElapsed(now: U64, past: U64): (dt: U64)
    ensures dt <= MAX_DT_NS
    ensures dt < MAX_DT_NS ==> (past + dt) % TWO_TO_THE_64 == now
    ensures dt == MAX_DT_NS ==> WrapSub(now, past) >= MAX_DT_NS
  {
    var elapsed := WrapSub(now, past);
    if elapsed < MAX_DT_NS then elapsed else MAX_DT_NS
  }

  /** `calc_dt_ns(now, past)`: returns the capped delta and writes `now` into `past`. */
  method CalcDtNs(now: U64, past: U64) returns (dtNs: U64, pastOut: U64)
    ensures dtNs == ClampedElapsed(now, past)
    ensures pastOut == now
  {
    dtNs := WrapSub(now, past);
    if MAX_DT_NS < dtNs {
      dtNs := MAX_DT_NS;
    }
    pastOut := now;
  }

  /** A clock that went forwards by less than 250 ms gives its exact delta. */
  lemma ForwardDeltaExact(now: U64, past: U64)
    requires past <= now < past + MAX_DT_NS
    ensures ClampedElapsed(now, past) == now - past
  {
  }

  /**
   * A clock that went backwards (by less than 2^64 - 250 ms) gives the full
   * 250 ms: the wrapped difference is huge and the cap applies.
   */
  lemma BackwardsClockGivesCap(now: U64, past: U64)
    requires now < past && past - now <= TWO_TO_THE_64 - MAX_DT_NS
    ensures ClampedElapsed(now, past) == MAX_DT_NS
  {
  }

  /** What one iteration of the fixed-step loop calls. */
  datatype TickCall = GameFixedUpdate | WorldStep

  /**
   * The calls of one tick: `game_fixed_update` when the module is valid, then
   * one `b2World_Step` when the variant steps the world.
   */
  function TickCalls(valid: bool, stepsWorld: bool): seq<TickCall>
  {
    (if valid then [GameFixedUpdate] else []) + (if stepsWorld then [WorldStep] else [])
  }

  /** `n` ticks' worth of calls, tick after tick. */
  function Repeat<X>(n: nat, block: seq<X>): seq<X>
  {
    if n == 0 then [] else Repeat(n - 1, block) + block
  }

  /** Number of occurrences of `c` in `s`. */
  function Occurrences<X(==)>(s: seq<X>, c: X): nat
  {
    if s == [] then 0 else Occurrences(s[..|s| - 1], c) + (if s[|s| - 1] == c then 1 else 0)
  }

  lemma {:induction false} OccurrencesAppend<X>(s: seq<X>, t: seq<X>, c: X)
    ensures Occurrences(s + t, c) == Occurrences(s, c) + Occurrences(t, c)
  {
    if t != [] {
      var u := s + t;
      assert u[..|u| - 1] == s + t[..|t| - 1];
      OccurrencesAppend(s, t[..|t| - 1], c);
    } else {
      assert s + t == s;
    }
  }

  /**
   * Over `n` ticks, `game_fixed_update` runs once per tick while the module
   * is valid (never otherwise), and the world is stepped once per tick in the
   * variant that steps it.
   */
  lemma {:induction false} CallsPerTick(n: nat, valid: bool, stepsWorld: bool)
    ensures Occurrences(Repeat(n, TickCalls(valid, stepsWorld)), GameFixedUpdate) == (if valid then n else 0)
    ensures Occurrences(Repeat(n, TickCalls(valid, stepsWorld)), WorldStep) == (if stepsWorld then n else 0)
  {
    if n > 0 {
      CallsPerTick(n - 1, valid, stepsWorld);
      var block := TickCalls(valid, stepsWorld);
      OccurrencesAppend(Repeat(n - 1, block), block, GameFixedUpdate);
      OccurrencesAppend(Repeat(n - 1, block), block, WorldStep);
      var f: seq<TickCall> := if valid then [GameFixedUpdate] else [];
      var w: seq<TickCall> := if stepsWorld then [WorldStep] else [];
      OccurrencesAppend(f, w, GameFixedUpdate);
      OccurrencesAppend(f, w, WorldStep);
      assert Occurrences([], GameFixedUpdate) == 0;
      assert [GameFixedUpdate][..0] == [] && [WorldStep][..0] == [];
    }
  }

  /**
   * The accumulator's closed form: `accu + dt` (in Uint64) splits into whole
   * ticks and a remainder below one tick.
   */
  function Advance(accu: U64, dtNs: U64): (r: (U64, nat))
    ensures r.0 < NS_PER_FIXED_TICK
    ensures WrapAdd(accu, dtNs) == r.0 + r.1 * NS_PER_FIXED_TICK
  {
    var total := WrapAdd(accu, dtNs);
    (total % NS_PER_FIXED_TICK, total / NS_PER_FIXED_TICK)
  }

  /**
   * `accu += dt_ns; while (accu >= NS_PER_FIXED_TICK) { accu -= NS_PER_FIXED_TICK; ... }`,
   * returning the new accumulator, the number of ticks run and the calls made.
   */
  method FixedSteps(accu: U64, dtNs: U64, valid: bool, stepsWorld: bool)
    returns (accuOut: U64, ticks: nat, calls: seq<TickCall>)
    ensures (accuOut, ticks) == Advance(accu, dtNs)
    ensures calls == Repeat(ticks, TickCalls(valid, stepsWorld))
  {
    accuOut := WrapAdd(accu, dtNs);
    ticks := 0;
    calls := [];
    while accuOut >= NS_PER_FIXED_TICK
      invariant WrapAdd(accu, dtNs) == accuOut + ticks * NS_PER_FIXED_TICK
      invariant calls == Repeat(ticks, TickCalls(valid, stepsWorld))
      decreases accuOut
    {
      accuOut := accuOut - NS_PER_FIXED_TICK;
      if valid {
        calls := calls + [GameFixedUpdate];
      }
      if stepsWorld {
        calls := calls + [WorldStep];
      }
      ticks := ticks + 1;
    }
    DivModUnique(WrapAdd(accu, dtNs), ticks, accuOut);
  }

  lemma DivModUnique(x: nat, q: nat, r: nat)
    requires x == q * NS_PER_FIXED_TICK + r && r < NS_PER_FIXED_TICK
    ensures x / NS_PER_FIXED_TICK == q && x % NS_PER_FIXED_TICK == r
  {
  }

  /**
   * With the leftover of the previous frame below one tick and the delta
   * capped by `calc_dt_ns`, a frame runs at most 16 ticks (and 16 is reached).
   */
  lemma AtMostSixteenTicks(accu: U64, dtNs: U64)
    requires accu < NS_PER_FIXED_TICK && dtNs <= MAX_DT_NS
    ensures Advance(accu, dtNs).1 <= 16
    ensures Advance(NS_PER_FIXED_TICK - 1, MAX_DT_NS).1 == 16
  {
  }

  /** The leftover after each frame of a run of frames, starting from `accu`. */
  function Leftover(accu: U64, dts: seq<U64>): U64
  {
    if dts == [] then accu else Advance(Leftover(accu, dts[..|dts| - 1]), dts[|dts| - 1]).0
  }

  /** The ticks run over a run of frames. */
  function TotalTicks(accu: U64, dts: seq<U64>): nat
  {
    if dts == [] then 0
    else TotalTicks(accu, dts[..|dts| - 1]) + Advance(Leftover(accu, dts[..|dts| - 1]), dts[|dts| - 1]).1
  }

  function Sum(dts: seq<U64>): nat
  {
    if dts == [] then 0 else Sum(dts[..|dts| - 1]) + dts[|dts| - 1]
  }

  /**
   * Accumulator exactness: over any run of clamped deltas starting from an
   * accumulator below one tick, the ticks run are the whole ticks in the
   * total elapsed time and the leftover is its remainder; nothing wraps.
   */
  lemma {:induction false} TicksMatchElapsedTime(accu: U64, dts: seq<U64>)
    requires accu < NS_PER_FIXED_TICK
    requires forall i :: 0 <= i < |dts| ==> dts[i] <= MAX_DT_NS
    ensures TotalTicks(accu, dts) == (accu + Sum(dts)) / NS_PER_FIXED_TICK
    ensures Leftover(accu, dts) == (accu + Sum(dts)) % NS_PER_FIXED_TICK
  {
    if dts != [] {
      var init := dts[..|dts| - 1];
      var d := dts[|dts| - 1];
      TicksMatchElapsedTime(accu, init);
      var s := accu + Sum(init);
      var a := Leftover(accu, init);
      var n := TotalTicks(accu, init);
      assert s == n * NS_PER_FIXED_TICK + a;
      var step := Advance(a, d);
      assert WrapAdd(a, d) == a + d;
      DivModUnique(s + d, n + step.1, step.0);
    }
  }
}
