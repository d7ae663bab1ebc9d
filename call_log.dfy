/**
 * The calls the engine's threads make into the game module and into Box2D,
 * recorded in the order made. An entry-point call records the pointer used.
 */
module CallLog {
  import HR = HotReload
  import FT = FrameTiming

  datatype Call =
    | Entry(name: string, fn: HR.FnPtr)   // `game_code.<name>(...)`
    | PhysicsStep                          // `b2World_Step(...)`

  /** An entry-point call lands in code that is loaded: its own symbol in an open object. */
  predicate Safe(c: Call, objects: map<HR.Handle, HR.LoadedObject>)
  {
    c.Entry? ==> c.fn.Symbol? && c.fn.name == c.name && c.fn.lib in objects
  }

  predicate AllSafe(cs: seq<Call>, objects: map<HR.Handle, HR.LoadedObject>)
  {
    forall i | 0 <= i < |cs| :: Safe(cs[i], objects)
  }

  /** The calls one fixed tick makes. */
  function TickBlock(valid: bool, stepsWorld: bool, fixedUpdate: HR.FnPtr): seq<Call>
  {
    (if valid then [Entry(HR.GAME_FIXED_UPDATE, fixedUpdate)] else []) + (if stepsWorld then [PhysicsStep] else [])
  }

  /** The calls the fixed-step loop's trace stands for, with `fixedUpdate` as the pointer called. */
  function TickLog(tcs: seq<FT.TickCall>, fixedUpdate: HR.FnPtr): seq<Call>
  {
    if |tcs| == 0 then []
    else
      TickLog(tcs[..|tcs| - 1], fixedUpdate)
        + (match tcs[|tcs| - 1]
           case GameFixedUpdate => [Entry(HR.GAME_FIXED_UPDATE, fixedUpdate)]
           case WorldStep => [PhysicsStep])
  }

  lemma {:induction false} TickLogAppend(s: seq<FT.TickCall>, t: seq<FT.TickCall>, fixedUpdate: HR.FnPtr)
    ensures TickLog(s + t, fixedUpdate) == TickLog(s, fixedUpdate) + TickLog(t, fixedUpdate)
  {
    if |t| == 0 {
      assert s + t == s;
    } else {
      var u := s + t;
      assert u[..|u| - 1] == s + t[..|t| - 1];
      TickLogAppend(s, t[..|t| - 1], fixedUpdate);
    }
  }

  /** n ticks of the loop make n tick blocks of calls, in order. */
  lemma {:induction false} TickLogRepeat(n: nat, valid: bool, stepsWorld: bool, fixedUpdate: HR.FnPtr)
    ensures TickLog(FT.Repeat(n, FT.TickCalls(valid, stepsWorld)), fixedUpdate)
         == FT.Repeat(n, TickBlock(valid, stepsWorld, fixedUpdate))
  {
    if n > 0 {
      var block := FT.TickCalls(valid, stepsWorld);
      TickLogRepeat(n - 1, valid, stepsWorld, fixedUpdate);
      TickLogAppend(FT.Repeat(n - 1, block), block, fixedUpdate);
      var f: seq<FT.TickCall> := if valid then [FT.GameFixedUpdate] else [];
      var w: seq<FT.TickCall> := if stepsWorld then [FT.WorldStep] else [];
      TickLogAppend(f, w, fixedUpdate);
      assert f == [] || f[..0] == [];
      assert w == [] || w[..0] == [];
    }
  }

  /** A repeated block of safe calls is safe. */
  lemma {:induction false} RepeatSafe(n: nat, block: seq<Call>, objects: map<HR.Handle, HR.LoadedObject>)
    requires AllSafe(block, objects)
    ensures AllSafe(FT.Repeat(n, block), objects)
  {
    if n > 0 {
      RepeatSafe(n - 1, block, objects);
      var r := FT.Repeat(n - 1, block);
      assert FT.Repeat(n, block) == r + block;
      forall i | 0 <= i < |r + block|
        ensures Safe((r + block)[i], objects)
      {
        if i < |r| {
          assert (r + block)[i] == r[i];
        } else {
          assert (r + block)[i] == block[i - |r|];
        }
      }
    }
  }
}
