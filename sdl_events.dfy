/**
 * The part of `SDL_Event` the modelled code inspects: its type, the key's
 * scancode, the mouse button and the window id of a close request. Scancodes are named keys;
 * their SDL numbers play no role here.
 */
module SdlEvents {
  datatype Scancode =
    | W | A | S | D
    | Up | Down | Left | Right
    | Space | Return | Escape
    | Key9        // SDL_SCANCODE_9, the "9" of the top row
    | Kp0 | Kp9 | KpPlus | KpMinus
    | OtherKey

  datatype MouseButton = LeftButton | RightButton | OtherButton

  datatype Event =
    | KeyDown(scancode: Scancode)
    | KeyUp(scancode: Scancode)
    | MouseButtonDown(button: MouseButton)
    | Quit
    | WindowCloseRequested(windowId: nat)
    | OtherEvent

  predicate IsKeyDown(e: Event, k: Scancode)
  {
    e.KeyDown? && e.scancode == k
  }

  /** How many events of `evts` are key-downs of `k`. */
  function CountKeyDowns(evts: seq<Event>, k: Scancode): nat
  {
    if |evts| == 0 then 0
    else CountKeyDowns(evts[..|evts| - 1], k) + (if IsKeyDown(evts[|evts| - 1], k) then 1 else 0)
  }

  /** How many events of `evts` are presses of mouse button `b`. */
  function CountButtonDowns(evts: seq<Event>, b: MouseButton): nat
  {
    if |evts| == 0 then 0
    else CountButtonDowns(evts[..|evts| - 1], b) + (if evts[|evts| - 1] == MouseButtonDown(b) then 1 else 0)
  }

  /** One more event of a batch's prefix adds its own count. */
  lemma CountsOfPrefix(evts: seq<Event>, i: nat)
    requires i < |evts|
    ensures forall k :: CountKeyDowns(evts[..i + 1], k) == CountKeyDowns(evts[..i], k) + (if IsKeyDown(evts[i], k) then 1 else 0)
    ensures forall b :: CountButtonDowns(evts[..i + 1], b)
                     == CountButtonDowns(evts[..i], b) + (if evts[i] == MouseButtonDown(b) then 1 else 0)
  {
    assert evts[..i + 1][..i] == evts[..i];
  }
}
