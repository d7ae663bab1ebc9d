/**
 * The components the engine copies between threads (common/src/core/common.hpp)
 * and the registry views it iterates. Floats are only copied in the modelled
 * code, so they are `real`s here.
 *
 * An EnTT registry is modelled as the sequence of its entities in the order
 * a view visits them; a component an entity lacks is `None`.
 */
module Components {
  import opened Wrappers

  datatype Vec2 = Vec2(x: real, y: real)

  datatype Transform = Transform(pos: Vec2, size: Vec2, rotationRadians: real)

  datatype Colour = Colour(r: real, g: real, b: real, a: real)

  datatype Renderable = Renderable(transform: Transform, colour: Colour)

  datatype UiEntity = UiEntity(entity: nat, renderable: Renderable, items: int)

  /** `CommonUiData`: what the game thread shows in the UI. */
  datatype CommonUiData = CommonUiData(
    gameDt: real,
    nControllers: int,
    keyboardL: Vec2,
    keyboardR: Vec2,
    controllerL: Vec2,
    controllerR: Vec2,
    nContactEvents: int,
    nSensorEvents: int,
    hmm: seq<UiEntity>)

  /** One entity of the registry and the components the engine reads. */
  datatype Entity = Entity(id: nat, transform: Option<Transform>, colour: Option<Colour>)

  type Registry = seq<Entity>

  predicate Drawable(e: Entity)
  {
    e.transform.Some? && e.colour.Some?
  }

  /** `view<const TransformComponent, const ColourComponent>()`: one Renderable per entity with both, in view order. */
  function Renderables(reg: Registry): seq<Renderable>
  {
    if |reg| == 0 then []
    else
      var e := reg[|reg| - 1];
      Renderables(reg[..|reg| - 1])
        + (if Drawable(e) then [Renderable(e.transform.value, e.colour.value)] else [])
  }

  /** `view<TransformComponent>()`: the transform of every entity that has one, in view order. */
  function Transforms(reg: Registry): seq<Transform>
  {
    if |reg| == 0 then []
    else
      var e := reg[|reg| - 1];
      Transforms(reg[..|reg| - 1]) + (if e.transform.Some? then [e.transform.value] else [])
  }

  /** A Renderable is published exactly when some entity has that transform and that colour. */
  lemma {:induction false} RenderablesExactlyDrawn(reg: Registry, t: Transform, c: Colour)
    ensures Renderable(t, c) in Renderables(reg)
        <==> exists j :: 0 <= j < |reg| && reg[j].transform == Some(t) && reg[j].colour == Some(c)
  {
    if |reg| > 0 {
      var init := reg[..|reg| - 1];
      RenderablesExactlyDrawn(init, t, c);
      if exists j :: 0 <= j < |init| && init[j].transform == Some(t) && init[j].colour == Some(c) {
        var j :| 0 <= j < |init| && init[j].transform == Some(t) && init[j].colour == Some(c);
        assert reg[j] == init[j];
      }
      if exists j :: 0 <= j < |reg| && reg[j].transform == Some(t) && reg[j].colour == Some(c) {
        var j :| 0 <= j < |reg| && reg[j].transform == Some(t) && reg[j].colour == Some(c);
        if j < |init| {
          assert init[j] == reg[j];
        }
      }
    }
  }

  /** One transform per entity that has one, never more than there are entities. */
  lemma {:induction false} TransformsOnePerEntity(reg: Registry)
    ensures |Transforms(reg)| == |set j | 0 <= j < |reg| && reg[j].transform.Some?|
    ensures |Transforms(reg)| <= |reg|
  {
    if |reg| > 0 {
      var n := |reg| - 1;
      var init := reg[..n];
      TransformsOnePerEntity(init);
      var before := set j | 0 <= j < |init| && init[j].transform.Some?;
      var after := set j | 0 <= j < |reg| && reg[j].transform.Some?;
      assert before == set j | 0 <= j < n && reg[j].transform.Some?;
      if reg[n].transform.Some? {
        assert after == before + {n};
      } else {
        assert after == before;
      }
    }
  }

  /** The entities' transforms appear in view order: the first entity's transform comes first. */
  lemma {:induction false} TransformsOfAppend(reg: Registry, more: Registry)
    ensures Transforms(reg + more) == Transforms(reg) + Transforms(more)
    decreases |more|
  {
    if |more| == 0 {
      assert reg + more == reg;
    } else {
      var n := |more| - 1;
      assert (reg + more)[..|reg + more| - 1] == reg + more[..n];
      TransformsOfAppend(reg, more[..n]);
    }
  }
}
