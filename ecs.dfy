/** The entity/component store shared by the screens and the button builder.

    An entity handle is the index at which the entity was created. Handles
    come from an append-only sequence and are never handed out twice, which
    stands for the store's generation check: a deleted handle never becomes
    live again. */
module Ecs {

  datatype Option<T> = None | Some(value: T)

  type Entity = nat

  /** The palette of src/ui_scheme.rs and src/color_scheme.rs, as tags. */
  datatype Color = Border | TextLight | Color3 | Acting | BackgroundHighlighted | Background

  datatype Anchor =
    | TopLeft | TopMiddle | TopRight
    | MiddleLeft | Middle | MiddleRight
    | BottomLeft | BottomMiddle | BottomRight

  /** `UiTransform::new(id, anchor, pivot, x, y, z, width, height)`. */
  datatype UiTransform = UiTransform(
    id: string, anchor: Anchor, pivot: Anchor,
    x: real, y: real, z: real, width: real, height: real)

  /** An opaque font asset handle. */
  type FontHandle = nat

  /** `UiText::new(font, text, color, font_size)`. */
  datatype UiText = UiText(font: FontHandle, text: string, color: Color, fontSize: real)

  datatype UiButtonAction =
    | SetTextColor(textColor: Color) | UnsetTextColor(textColor: Color)
    | SetImage(image: Color) | UnsetImage(image: Color)

  /** `UiButtonActionRetrigger`: the actions replayed on each interaction. */
  datatype ActionRetrigger = ActionRetrigger(
    onClickStart: seq<UiButtonAction>, onClickStop: seq<UiButtonAction>,
    onHoverStart: seq<UiButtonAction>, onHoverStop: seq<UiButtonAction>)

  /** The components one entity may carry. `buttonComp` is the `ButtonComp`
      marker; `prefab` names the UI description a root was created from. */
  datatype Components = Components(
    transform: Option<UiTransform>,
    parent: Option<Entity>,
    image: Option<Color>,
    text: Option<UiText>,
    buttonComp: bool,
    retrigger: Option<ActionRetrigger>,
    prefab: Option<string>)

  const NoComponents := Components(None, None, None, None, false, None, None)

  /** The handles an optional handle stands for: none, or the one it holds. */
  function Handles(h: Option<Entity>): (s: set<Entity>)
    ensures h.None? <==> s == {}
    ensures forall e :: e in s <==> h == Some(e)
  {
    if h.Some? then {h.value} else {}
  }

  /** `UiFinder::find`: the entity whose transform id is `id`, if any. */
  function Find(finder: map<string, Entity>, id: string): (r: Option<Entity>)
    ensures r.Some? <==> id in finder
    ensures r.Some? ==> r.value == finder[id]
  {
    if id in finder then Some(finder[id]) else None
  }

  class World {
    /** Every entity ever created, in creation order, with its components. */
    var entities: seq<Components>
    /** The entities not yet deleted. */
    var live: set<Entity>

    ghost predicate Valid()
      reads this
    {
      forall e | e in live :: e < |entities|
    }

    constructor ()
      ensures Valid() && entities == [] && live == {}
    {
      entities := [];
      live := {};
    }

    /** `world.create_entity().with(..)...build()`. */
    method CreateEntity(c: Components) returns (e: Entity)
      requires Valid()
      modifies this
      ensures Valid()
      ensures e == |old(entities)| && e !in old(live)
      ensures entities == old(entities) + [c]
      ensures live == old(live) + {e}
    {
      e := |entities|;
      entities := entities + [c];
      live := live + {e};
    }

    /** `world.delete_entity(e)`: fails, changing nothing, when `e` is not live. */
    method DeleteEntity(e: Entity) returns (ok: bool)
      requires Valid()
      modifies this
      ensures Valid()
      ensures ok <==> e in old(live)
      ensures live == old(live) - {e}
      ensures entities == old(entities)
    {
      ok := e in live;
      live := live - {e};
    }

    /** `UiCreator::create(path, ())`: creates the root of the UI described by
        `path` and returns it. Loading the description is not modelled. */
    method CreateUi(path: string) returns (root: Entity)
      requires Valid()
      modifies this
      ensures Valid()
      ensures root == |old(entities)| && root !in old(live)
      ensures entities == old(entities) + [NoComponents.(prefab := Some(path))]
      ensures live == old(live) + {root}
    {
      root := CreateEntity(NoComponents.(prefab := Some(path)));
    }
  }
}
