/**
 * The rules of the game module game/src/game.cpp: the inventory hand-over
 * when the player touches the provider or the receiver, the game-over
 * request, the keyboard and joystick-button input, the jump flag and the
 * play-again reset. The registry's inventories are a map from entity to
 * item count; the component storages that `coll` tests are sets of
 * entities; `Request_GameOver` entities are counted. Positions, physics
 * bodies and everything Box2D computes are not modelled.
 */
module GameRules {
  import opened Components
  import opened SdlEvents
  import opened KeyInput
  import opened Box2dComponents
  import FT = FrameTiming

  type Entity = nat
  type Inventories = map<Entity, int>

  /** The items the provider holds at the start of a level, and the receiver count that ends it. */
  const PROVIDER_START_ITEMS := 5
  const GAME_OVER_ITEMS := 5

  /** One item taken from `from` and given to `to`. */
  function Transfer(items: Inventories, from: Entity, to: Entity): Inventories
    requires from in items && to in items
  {
    var m := items[from := items[from] - 1];
    m[to := m[to] + 1]
  }

  /** The inventories `handle_on_coll_enter__log` reads exist whenever its pair matches. */
  predicate HasInventories(items: Inventories, a: Entity, b: Entity,
                           players: set<Entity>, providers: set<Entity>, receivers: set<Entity>)
  {
    (Coll(a, b, players, providers).Some? || Coll(a, b, players, receivers).Some?) ==> a in items && b in items
  }

  /**
   * `handle_on_coll_enter__check_for_gameover`: for a player/receiver pair,
   * one more request when the second entity holds at least five items.
   */
  function CheckForGameOver(items: Inventories, requests: nat, a: Entity, b: Entity,
                            players: set<Entity>, receivers: set<Entity>): nat
    requires Coll(a, b, players, receivers).Some? ==> b in items
  {
    if Coll(a, b, players, receivers).None? then requests
    else if items[b] >= GAME_OVER_ITEMS then requests + 1
    else requests
  }

  /**
   * `handle_on_coll_enter__log`: a player/provider pair moves one item from
   * the second entity to the first, unless the second has none, in which
   * case the handler returns; a player/receiver pair moves one item from the
   * first to the second, unless the first has none, and then checks for game
   * over. Inventories are indexed by the event's own (a, b), whatever order
   * `coll` reported.
   */
  function AfterLog(items: Inventories, requests: nat, a: Entity, b: Entity,
                    players: set<Entity>, providers: set<Entity>, receivers: set<Entity>): (Inventories, nat)
    requires HasInventories(items, a, b, players, providers, receivers)
  {
    var withProvider := Coll(a, b, players, providers).Some?;
    if withProvider && items[b] <= 0 then (items, requests)
    else
      var items1 := if withProvider then Transfer(items, b, a) else items;
      if Coll(a, b, players, receivers).Some? && items1[a] > 0 then
        var items2 := Transfer(items1, a, b);
        (items2, CheckForGameOver(items2, requests, a, b, players, receivers))
      else (items1, requests)
  }

  /** An `OnCollisionEnter` event: its listeners in connection order, the log handler then the game-over check. */
  function AfterCollisionEnter(items: Inventories, requests: nat, a: Entity, b: Entity,
                               players: set<Entity>, providers: set<Entity>, receivers: set<Entity>): (Inventories, nat)
    requires HasInventories(items, a, b, players, providers, receivers)
  {
    var (items1, requests1) := AfterLog(items, requests, a, b, players, providers, receivers);
    (items1, CheckForGameOver(items1, requests1, a, b, players, receivers))
  }

  /** A level as `game_init` sets it up: three distinct entities sharing all five items, none negative. */
  ghost predicate Level(items: Inventories, provider: Entity, receiver: Entity, player: Entity)
  {
    && provider != receiver && receiver != player && provider != player
    && items.Keys == {provider, receiver, player}
    && items[provider] >= 0 && items[receiver] >= 0 && items[player] >= 0
    && items[provider] + items[receiver] + items[player] == PROVIDER_START_ITEMS
  }

  /** What `game_init` creates in an empty registry is a level. */
  lemma FreshLevel(provider: Entity, receiver: Entity, player: Entity)
    requires provider != receiver && receiver != player && provider != player
    ensures Level(map[][provider := PROVIDER_START_ITEMS][receiver := 0][player := 0], provider, receiver, player)
  {
    var items := map[][provider := PROVIDER_START_ITEMS][receiver := 0][player := 0];
    assert items.Keys == {provider, receiver, player};
    assert items[provider] == 5 && items[receiver] == 0 && items[player] == 0;
  }

  /** Any collision keeps the level: every transfer moves exactly one item, never from an empty inventory. */
  lemma CollisionConservesItems(items: Inventories, requests: nat, a: Entity, b: Entity,
                                provider: Entity, receiver: Entity, player: Entity)
    requires Level(items, provider, receiver, player)
    ensures HasInventories(items, a, b, {player}, {provider}, {receiver})
    ensures Level(AfterCollisionEnter(items, requests, a, b, {player}, {provider}, {receiver}).0, provider, receiver, player)
  {
  }

  /** The player touching the provider takes one item if the provider has any; nothing else changes. */
  lemma PlayerTakesFromProvider(items: Inventories, requests: nat, provider: Entity, receiver: Entity, player: Entity)
    requires Level(items, provider, receiver, player)
    ensures AfterCollisionEnter(items, requests, player, provider, {player}, {provider}, {receiver})
         == (if items[provider] > 0 then Transfer(items, provider, player) else items, requests)
  {
  }

  /**
   * The player touching the receiver hands over one item if it has any; a
   * game-over request is created when the receiver then holds five, once by
   * the log handler and once by the separate listener.
   */
  lemma PlayerGivesToReceiver(items: Inventories, requests: nat, provider: Entity, receiver: Entity, player: Entity)
    requires Level(items, provider, receiver, player)
    ensures var (items1, requests1) := AfterCollisionEnter(items, requests, player, receiver, {player}, {provider}, {receiver});
      && items1 == (if items[player] > 0 then Transfer(items, player, receiver) else items)
      && requests1 == requests
           + (if items[player] > 0 && items1[receiver] >= GAME_OVER_ITEMS then 1 else 0)
           + (if items1[receiver] >= GAME_OVER_ITEMS then 1 else 0)
  {
  }

  /**
   * Within a level, a contact reported player-first (as sensor events are)
   * creates a game-over request exactly when it is with the receiver and all
   * five items have then reached the receiver.
   */
  lemma GameOverIffAllDelivered(items: Inventories, requests: nat, b: Entity,
                                provider: Entity, receiver: Entity, player: Entity)
    requires Level(items, provider, receiver, player)
    ensures var (items1, requests1) := AfterCollisionEnter(items, requests, player, b, {player}, {provider}, {receiver});
      requests1 > requests <==> b == receiver && items1[receiver] == PROVIDER_START_ITEMS
  {
    CollisionConservesItems(items, requests, player, b, provider, receiver, player);
  }

  /**
   * Reported provider-first, a player/provider contact would move an item
   * from the player to the provider, because the handler indexes by the
   * event's order; sensor events always report the player's sensor first.
   */
  lemma ProviderFirstMovesTheOtherWay(items: Inventories, requests: nat, provider: Entity, receiver: Entity, player: Entity)
    requires Level(items, provider, receiver, player) && items[player] > 0
    ensures AfterCollisionEnter(items, requests, provider, player, {player}, {provider}, {receiver})
         == (Transfer(items, player, provider), requests)
  {
  }

  /** The south button's edges from last frame's and this frame's state: never both. */
  function Edges(heldLastFrame: bool, held: bool): (r: (bool, bool))
    ensures r.0 <==> !heldLastFrame && held
    ensures r.1 <==> heldLastFrame && !held
    ensures !(r.0 && r.1)
  {
    var press := !heldLastFrame && held;
    var release := heldLastFrame && !held;
    (press, release)
  }

  class Game {
    /** `internal_r`: inventories, the component storages `coll` reads, and the game-over requests. */
    var items: Inventories
    var players: set<Entity>
    var providers: set<Entity>
    var receivers: set<Entity>
    var gameOverRequests: nat
    /**
     * The spawn requests of right clicks, at the positions asked for, in
     * order. This is a log of calls, not part of the registry: `game_refresh`
     * does not clear it.
     */
    var spawns: seq<Vec2>
    var refreshed: bool
    /** The entities of the level `game_init` created last. */
    ghost var provider: Entity
    ghost var receiver: Entity
    ghost var player: Entity

    /** The statics of game.cpp. */
    var keyboardL: Vec2
    var keyboardR: Vec2
    var jump: bool
    var pickup: bool
    var sPress: bool
    var sRelease: bool
    var sHeld: bool
    var sHeldLastFrame: bool

    /** The registry holds exactly the level `game_init` made, in any state the collisions reached. */
    ghost predicate InLevel()
      reads this
    {
      && Level(items, provider, receiver, player)
      && players == {player} && providers == {provider} && receivers == {receiver}
    }

    constructor ()
      ensures items == map[] && players == {} && providers == {} && receivers == {} && gameOverRequests == 0
      ensures keyboardL == Vec2(0.0, 0.0) && keyboardR == Vec2(0.0, 0.0)
      ensures !jump && !pickup && !sHeldLastFrame && spawns == []
    {
      items, players, providers, receivers, gameOverRequests := map[], {}, {}, {}, 0;
      spawns, refreshed := [], false;
      keyboardL, keyboardR := Vec2(0.0, 0.0), Vec2(0.0, 0.0);
      jump, pickup, sPress, sRelease, sHeld, sHeldLastFrame := false, false, false, false, false, false;
    }

    /**
     * The entity part of `game_init`: a provider with 5 items, a receiver
     * with 0 and a player with 0, on three entities fresh from the registry.
     */
    method Init(newProvider: Entity, newReceiver: Entity, newPlayer: Entity)
      requires newProvider != newReceiver && newReceiver != newPlayer && newProvider != newPlayer
      requires newProvider !in items && newReceiver !in items && newPlayer !in items
      modifies this`items, this`providers, this`receivers, this`players, this`provider, this`receiver, this`player
      ensures items == old(items)[newProvider := 5][newReceiver := 0][newPlayer := 0]
      ensures providers == old(providers) + {newProvider} && receivers == old(receivers) + {newReceiver}
      ensures players == old(players) + {newPlayer}
      ensures old(items) == map[] && old(players) == {} && old(providers) == {} && old(receivers) == {} ==> InLevel()
    {
      items := items[newProvider := PROVIDER_START_ITEMS][newReceiver := 0][newPlayer := 0];
      providers := providers + {newProvider};
      receivers := receivers + {newReceiver};
      players := players + {newPlayer};
      provider, receiver, player := newProvider, newReceiver, newPlayer;
      if old(items) == map[] {
        FreshLevel(newProvider, newReceiver, newPlayer);
      }
    }

    /** `game_refresh`: the registry is cleared, requests included. */
    method Refresh()
      modifies this`items, this`players, this`providers, this`receivers, this`gameOverRequests, this`refreshed
      ensures items == map[] && players == {} && providers == {} && receivers == {} && gameOverRequests == 0
      ensures refreshed
    {
      refreshed := true;
      items, players, providers, receivers, gameOverRequests := map[], {}, {}, {}, 0;
    }

    /** `handle_on_coll_enter__log`, with its early returns. */
    method HandleCollisionLog(a: Entity, b: Entity)
      requires HasInventories(items, a, b, players, providers, receivers)
      modifies this`items, this`gameOverRequests
      ensures (items, gameOverRequests) == AfterLog(old(items), old(gameOverRequests), a, b, players, providers, receivers)
    {
      var withProvider := Coll(a, b, players, providers);
      if withProvider.Some? {
        if items[b] <= 0 {
          return;
        }
        items := items[b := items[b] - 1];
        items := items[a := items[a] + 1];
      }
      var withReceiver := Coll(a, b, players, receivers);
      if withReceiver.Some? {
        if items[a] <= 0 {
          return;
        }
        items := items[a := items[a] - 1];
        items := items[b := items[b] + 1];
        CheckGameOver(a, b);
      }
    }

    /** `handle_on_coll_enter__check_for_gameover`. */
    method CheckGameOver(a: Entity, b: Entity)
      requires Coll(a, b, players, receivers).Some? ==> b in items
      modifies this`gameOverRequests
      ensures gameOverRequests == CheckForGameOver(items, old(gameOverRequests), a, b, players, receivers)
    {
      var pair := Coll(a, b, players, receivers);
      if pair.None? {
        return;
      }
      if items[b] >= GAME_OVER_ITEMS {
        gameOverRequests := gameOverRequests + 1;
      }
    }

    /** The dispatcher delivering one `OnCollisionEnter` to its two listeners. */
    method OnCollisionEnter(a: Entity, b: Entity)
      requires HasInventories(items, a, b, players, providers, receivers)
      modifies this`items, this`gameOverRequests
      ensures (items, gameOverRequests)
           == AfterCollisionEnter(old(items), old(gameOverRequests), a, b, players, providers, receivers)
      ensures old(InLevel()) ==> InLevel()
    {
      if InLevel() {
        CollisionConservesItems(items, gameOverRequests, a, b, provider, receiver, player);
      }
      HandleCollisionLog(a, b);
      CheckGameOver(a, b);
    }

    /** One event of the `game_update` loop. */
    method ProcessEvent(evt: Event, mousePos: Vec2)
      modifies this`keyboardL, this`keyboardR, this`jump, this`pickup, this`gameOverRequests, this`spawns
      ensures keyboardL == Vec2(AxisStep(old(keyboardL).x, evt, A, D), AxisStep(old(keyboardL).y, evt, W, S))
      ensures keyboardR == Vec2(AxisStep(old(keyboardR).x, evt, Left, Right), AxisStep(old(keyboardR).y, evt, Up, Down))
      ensures jump <==> old(jump) || IsKeyDown(evt, Space)
      ensures pickup <==> old(pickup) || IsKeyDown(evt, Return)
      ensures gameOverRequests == old(gameOverRequests) + (if IsKeyDown(evt, Kp9) then 1 else 0)
      ensures spawns == old(spawns) + (if evt == MouseButtonDown(RightButton) then [mousePos] else [])
    {
      if evt.KeyDown? {
        var scancode := evt.scancode;
        if scancode == W { keyboardL := keyboardL.(y := -1.0); }
        if scancode == S { keyboardL := keyboardL.(y := 1.0); }
        if scancode == A { keyboardL := keyboardL.(x := -1.0); }
        if scancode == D { keyboardL := keyboardL.(x := 1.0); }
        if scancode == Up { keyboardR := keyboardR.(y := -1.0); }
        if scancode == Down { keyboardR := keyboardR.(y := 1.0); }
        if scancode == Left { keyboardR := keyboardR.(x := -1.0); }
        if scancode == Right { keyboardR := keyboardR.(x := 1.0); }
        if scancode == Space { jump := true; }
        if scancode == Return { pickup := true; }
        if scancode == Kp9 { gameOverRequests := gameOverRequests + 1; }
      }
      if evt.KeyUp? {
        var scancode := evt.scancode;
        if scancode == W { keyboardL := keyboardL.(y := 0.0); }
        if scancode == S { keyboardL := keyboardL.(y := 0.0); }
        if scancode == A { keyboardL := keyboardL.(x := 0.0); }
        if scancode == D { keyboardL := keyboardL.(x := 0.0); }
        if scancode == Up { keyboardR := keyboardR.(y := 0.0); }
        if scancode == Down { keyboardR := keyboardR.(y := 0.0); }
        if scancode == Left { keyboardR := keyboardR.(x := 0.0); }
        if scancode == Right { keyboardR := keyboardR.(x := 0.0); }
      }
      if evt == MouseButtonDown(RightButton) {
        spawns := spawns + [mousePos];
      }
    }

    /**
     * The event loop of `game_update`: W/S and A/D set the left axes, the
     * arrow keys the right axes; SPACE sets `jump` and RETURN `pickup`;
     * KP_9 creates a game-over request; a right click spawns a body at the
     * mouse position.
     */
    method ProcessEvents(evts: seq<Event>, mousePos: Vec2)
      modifies this`keyboardL, this`keyboardR, this`jump, this`pickup, this`gameOverRequests, this`spawns
      ensures keyboardL == Vec2(AxisAfter(old(keyboardL).x, evts, A, D), AxisAfter(old(keyboardL).y, evts, W, S))
      ensures keyboardR == Vec2(AxisAfter(old(keyboardR).x, evts, Left, Right), AxisAfter(old(keyboardR).y, evts, Up, Down))
      ensures jump <==> old(jump) || CountKeyDowns(evts, Space) > 0
      ensures pickup <==> old(pickup) || CountKeyDowns(evts, Return) > 0
      ensures gameOverRequests == old(gameOverRequests) + CountKeyDowns(evts, Kp9)
      ensures spawns == old(spawns) + FT.Repeat(CountButtonDowns(evts, RightButton), [mousePos])
    {
      for i := 0 to |evts|
        invariant keyboardL == Vec2(AxisAfter(old(keyboardL).x, evts[..i], A, D), AxisAfter(old(keyboardL).y, evts[..i], W, S))
        invariant keyboardR == Vec2(AxisAfter(old(keyboardR).x, evts[..i], Left, Right),
                                    AxisAfter(old(keyboardR).y, evts[..i], Up, Down))
        invariant jump <==> old(jump) || CountKeyDowns(evts[..i], Space) > 0
        invariant pickup <==> old(pickup) || CountKeyDowns(evts[..i], Return) > 0
        invariant gameOverRequests == old(gameOverRequests) + CountKeyDowns(evts[..i], Kp9)
        invariant spawns == old(spawns) + FT.Repeat(CountButtonDowns(evts[..i], RightButton), [mousePos])
      {
        AxisAfterPrefix(old(keyboardL).x, evts, i, A, D);
        AxisAfterPrefix(old(keyboardL).y, evts, i, W, S);
        AxisAfterPrefix(old(keyboardR).x, evts, i, Left, Right);
        AxisAfterPrefix(old(keyboardR).y, evts, i, Up, Down);
        CountsOfPrefix(evts, i);
        ProcessEvent(evts[i], mousePos);
      }
      assert evts[..|evts|] == evts;
    }

    /**
     * The south button of the first joystick: press and release are this
     * frame's edges, the held state is remembered, and a press sets `pickup`.
     */
    method ButtonEdges(held: bool)
      modifies this`sPress, this`sRelease, this`sHeld, this`sHeldLastFrame, this`pickup
      ensures (sPress, sRelease) == Edges(old(sHeldLastFrame), held)
      ensures sHeld == held && sHeldLastFrame == held
      ensures pickup <==> old(pickup) || sPress
    {
      sPress := false;
      sRelease := false;
      sHeld := held;
      if sHeldLastFrame && !sHeld {
        sRelease := true;
      }
      if !sHeldLastFrame && sHeld {
        sPress := true;
      }
      sHeldLastFrame := sHeld;
      pickup := pickup || sPress;
    }

    /**
     * The jump of `game_fixed_update`: with a dynamic body, one impulse when
     * `jump` is set, and `jump` is cleared; without one, nothing happens.
     */
    method FixedJump(hasDynamicBody: bool) returns (impulses: nat)
      modifies this`jump
      ensures impulses <= 1
      ensures impulses == 1 <==> hasDynamicBody && old(jump)
      ensures jump <==> !hasDynamicBody && old(jump)
    {
      impulses := 0;
      if hasDynamicBody {
        if jump {
          impulses := 1;
        }
        jump := false;
      }
    }

    /**
     * The end of `game_update`: when the UI asked to play again and a
     * game-over request exists, the requests are destroyed and the level is
     * rebuilt by `game_refresh` then `game_init`; either way the UI data
     * gets `play_again = false` and `game_over` = whether a request existed
     * before the reset.
     */
    method UiStep(playAgain: bool, newProvider: Entity, newReceiver: Entity, newPlayer: Entity)
      returns (playAgainOut: bool, gameOver: bool)
      requires newProvider != newReceiver && newReceiver != newPlayer && newProvider != newPlayer
      modifies this`items, this`players, this`providers, this`receivers, this`gameOverRequests, this`refreshed
      modifies this`provider, this`receiver, this`player
      ensures !playAgainOut
      ensures gameOver <==> old(gameOverRequests) > 0
      ensures playAgain && gameOver ==>
        && InLevel() && gameOverRequests == 0 && refreshed
        && items == map[newProvider := PROVIDER_START_ITEMS, newReceiver := 0, newPlayer := 0]
        && providers == {newProvider} && receivers == {newReceiver} && players == {newPlayer}
      ensures !(playAgain && gameOver) ==>
        && items == old(items) && gameOverRequests == old(gameOverRequests)
        && players == old(players) && providers == old(providers) && receivers == old(receivers)
        && refreshed == old(refreshed)
        && provider == old(provider) && receiver == old(receiver) && player == old(player)
      ensures keyboardL == old(keyboardL) && keyboardR == old(keyboardR) && jump == old(jump) && pickup == old(pickup)
      ensures spawns == old(spawns)
      ensures sPress == old(sPress) && sRelease == old(sRelease) && sHeld == old(sHeld) && sHeldLastFrame == old(sHeldLastFrame)
    {
      var gameover := gameOverRequests > 0;
      if playAgain && gameover {
        gameOverRequests := 0;
        Refresh();
        Init(newProvider, newReceiver, newPlayer);
      }
      playAgainOut := false;
      gameOver := gameover;
    }
  }
}
