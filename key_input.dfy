/**
 * How the game modules turn key events into a movement axis: a key-down of
 * the axis's negative key sets it to -1, of its positive key to +1, and a
 * key-up of either key sets it to 0 (game/src/game.cpp:342-358 and 381-397,
 * game/src/dll_boundary/game.cpp:91-98 and 110-117).
 */
module KeyInput {
  import opened SdlEvents

  /** An event that sets the axis with keys `neg` and `pos`. */
  predicate Sets(e: Event, neg: Scancode, pos: Scancode)
  {
    (e.KeyDown? || e.KeyUp?) && (e.scancode == neg || e.scancode == pos)
  }

  /** The value a setting event gives the axis. */
  function SetValue(e: Event, neg: Scancode, pos: Scancode): real
    requires Sets(e, neg, pos)
  {
    if e.KeyUp? then 0.0 else if e.scancode == neg then -1.0 else 1.0
  }

  /** The axis after one event: the `if` chain of the key-down and key-up branches. */
  function AxisStep(v: real, e: Event, neg: Scancode, pos: Scancode): real
  {
    if e.KeyDown? then
      var v1 := if e.scancode == neg then -1.0 else v;
      if e.scancode == pos then 1.0 else v1
    else if e.KeyUp? then
      var v1 := if e.scancode == neg then 0.0 else v;
      if e.scancode == pos then 0.0 else v1
    else v
  }

  /** The axis after a batch of events, processed in order. */
  function AxisAfter(v: real, evts: seq<Event>, neg: Scancode, pos: Scancode): real
  {
    if |evts| == 0 then v
    else AxisStep(AxisAfter(v, evts[..|evts| - 1], neg, pos), evts[|evts| - 1], neg, pos)
  }

  /** One event either sets the axis to its value or leaves it alone. */
  lemma StepSetsOrKeeps(v: real, e: Event, neg: Scancode, pos: Scancode)
    requires neg != pos
    ensures AxisStep(v, e, neg, pos) == if Sets(e, neg, pos) then SetValue(e, neg, pos) else v
  {
  }

  /** The index of the last event of `evts` that sets the axis, or -1 when none does. */
  function LastSetting(evts: seq<Event>, neg: Scancode, pos: Scancode): (k: int)
    ensures -1 <= k < |evts|
    ensures k >= 0 ==> Sets(evts[k], neg, pos)
    ensures forall j | k < j < |evts| :: !Sets(evts[j], neg, pos)
  {
    if |evts| == 0 then -1
    else if Sets(evts[|evts| - 1], neg, pos) then |evts| - 1
    else
      var k := LastSetting(evts[..|evts| - 1], neg, pos);
      assert forall j | k < j < |evts| - 1 :: evts[j] == evts[..|evts| - 1][j];
      k
  }

  /**
   * The last event that sets the axis decides it; a batch with no such event
   * leaves it unchanged.
   */
  lemma {:induction false} LastSettingEventWins(v: real, evts: seq<Event>, neg: Scancode, pos: Scancode)
    requires neg != pos
    ensures var k := LastSetting(evts, neg, pos);
      AxisAfter(v, evts, neg, pos) == if k < 0 then v else SetValue(evts[k], neg, pos)
  {
    if |evts| > 0 {
      var n := |evts| - 1;
      var init := evts[..n];
      var before := AxisAfter(v, init, neg, pos);
      assert AxisAfter(v, evts, neg, pos) == AxisStep(before, evts[n], neg, pos);
      StepSetsOrKeeps(before, evts[n], neg, pos);
      if Sets(evts[n], neg, pos) {
        assert LastSetting(evts, neg, pos) == n;
      } else {
        LastSettingEventWins(v, init, neg, pos);
        var k := LastSetting(init, neg, pos);
        assert LastSetting(evts, neg, pos) == k;
        if k >= 0 {
          assert init[k] == evts[k];
        }
      }
    }
  }

  /** Every value the axis takes is -1, 0 or +1, once it started at one of them. */
  lemma AxisStaysDiscrete(v: real, evts: seq<Event>, neg: Scancode, pos: Scancode)
    requires neg != pos
    requires v == -1.0 || v == 0.0 || v == 1.0
    ensures var r := AxisAfter(v, evts, neg, pos); r == -1.0 || r == 0.0 || r == 1.0
  {
    LastSettingEventWins(v, evts, neg, pos);
  }

  /** One more event of a batch's prefix takes the axis one step further. */
  lemma AxisAfterPrefix(v: real, evts: seq<Event>, i: nat, neg: Scancode, pos: Scancode)
    requires i < |evts|
    ensures AxisAfter(v, evts[..i + 1], neg, pos) == AxisStep(AxisAfter(v, evts[..i], neg, pos), evts[i], neg, pos)
  {
    assert evts[..i + 1][..i] == evts[..i];
  }
}
