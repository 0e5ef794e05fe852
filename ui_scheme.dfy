/** The code-built button: seven entities under one handle, with ids derived
    from the button's id, and the background tagged with the `ButtonComp`
    marker. */
module UiScheme {
  import opened Ecs

  /** `Button`; `create` consumes it. */
  datatype Button = Button(
    text: string, id: string, width: real, height: real, border: real,
    font: Option<FontHandle>)

  /** `Button::new`: the given text and id, the default size, no font. */
  function NewButton(text: string, id: string): (b: Button)
    ensures b.text == text && b.id == id && b.font == None
    ensures b.width == 800.0 && b.height == 150.0 && b.border == 5.0
    ensures 0.0 < b.border < b.height < b.width
  {
    Button(text, id, 800.0, 150.0, 5.0, None)
  }

  /** The id suffix of each part, in creation order: handle (its transform is
      the caller's), border, the two border overlays, background, text, and
      the catch region, whose id is the button's id itself. */
  const PartSuffixes: seq<string> :=
    ["", "_border", "_border_overlay_1", "_border_overlay_2", "_background", "_text", ""]

  const Handle := 0
  const BorderPart := 1
  const Overlay1 := 2
  const Overlay2 := 3
  const BackgroundPart := 4
  const TextPart := 5
  const CatchPart := 6

  /** The components of the seven entities `create` builds, the first of
      which gets handle `handle`. */
  function ButtonParts(b: Button, handle: Entity, parent: Entity, transform: UiTransform,
                       font: FontHandle): (parts: seq<Components>)
    ensures |parts| == 7
    // The handle: the caller's transform and parent, nothing else.
    ensures parts[Handle] == NoComponents.(transform := Some(transform), parent := Some(parent))
    // The tree: the overlays hang under the border, everything else under the handle.
    ensures forall k | 1 <= k < 7 ::
      parts[k].parent == Some(if k == Overlay1 || k == Overlay2 then handle + BorderPart else handle)
    // The ids, derived from the button's id.
    ensures forall k | 1 <= k < 7 ::
      parts[k].transform.Some? && parts[k].transform.value.id == b.id + PartSuffixes[k]
    // Only the background is marked, and only it retriggers, with no actions.
    ensures forall k | 0 <= k < 7 :: parts[k].buttonComp <==> k == BackgroundPart
    ensures forall k | 0 <= k < 7 :: parts[k].retrigger.Some? <==> k == BackgroundPart
    ensures parts[BackgroundPart].retrigger == Some(ActionRetrigger([], [], [], []))
    // The visuals.
    ensures forall k | BorderPart <= k <= Overlay2 :: parts[k].image == Some(Border)
    ensures parts[BackgroundPart].image == Some(Background)
    ensures parts[TextPart].text == Some(UiText(font, b.text, TextLight, 70.0))
    ensures forall k | 0 <= k < 7 :: parts[k].text.Some? <==> k == TextPart
    ensures forall k | 0 <= k < 7 :: parts[k].prefab == None
    // The catch region: a bare transform as large as the button, on top of every other part.
    ensures parts[CatchPart] == NoComponents.(transform := parts[CatchPart].transform,
                                              parent := Some(handle))
    ensures parts[CatchPart].transform.value.width == b.width
    ensures parts[CatchPart].transform.value.height == b.height
    ensures forall k | 1 <= k < CatchPart ::
      parts[k].transform.value.z < parts[CatchPart].transform.value.z
  {
    var border := handle + BorderPart;
    [ NoComponents.(transform := Some(transform), parent := Some(parent)),
      NoComponents.(image := Some(Border), parent := Some(handle),
        transform := Some(UiTransform(b.id + "_border", Middle, Middle,
                                      0.0, 0.0, 0.0, b.width, b.height))),
      NoComponents.(image := Some(Border), parent := Some(border),
        transform := Some(UiTransform(b.id + "_border_overlay_1", BottomLeft, BottomLeft,
                                      0.0, 0.0, 0.2, b.width / 5.0, b.height / 5.0))),
      NoComponents.(image := Some(Border), parent := Some(border),
        transform := Some(UiTransform(b.id + "_border_overlay_2", TopRight, TopRight,
                                      0.0, 0.0, 0.2, b.width / 5.0, b.height / 5.0))),
      NoComponents.(image := Some(Background), parent := Some(handle), buttonComp := true,
        retrigger := Some(ActionRetrigger([], [], [], [])),
        transform := Some(UiTransform(b.id + "_background", Middle, Middle,
                                      0.0, 0.0, 0.1, b.width - b.border, b.height - b.border))),
      NoComponents.(text := Some(UiText(font, b.text, TextLight, 70.0)), parent := Some(handle),
        transform := Some(UiTransform(b.id + "_text", Middle, Middle,
                                      0.0, 0.0, 0.2, b.width - b.border, b.height - b.border))),
      NoComponents.(parent := Some(handle),
        transform := Some(UiTransform(b.id, Middle, Middle, 0.0, 0.0, 10.0, b.width, b.height)))
    ]
  }

  /** The parts' ids are pairwise distinct, every one of them starts with the
      button's id, and the catch region's is exactly the button's id. */
  lemma {:induction false} PartIdsDistinct(b: Button, handle: Entity, parent: Entity,
                                           transform: UiTransform, font: FontHandle)
    ensures var parts := ButtonParts(b, handle, parent, transform, font);
      forall j, k | 1 <= j < k < 7 :: parts[j].transform.value.id != parts[k].transform.value.id
    ensures var parts := ButtonParts(b, handle, parent, transform, font);
      forall k | 1 <= k < 7 :: b.id <= parts[k].transform.value.id
    ensures ButtonParts(b, handle, parent, transform, font)[CatchPart].transform.value.id == b.id
  {
    var parts := ButtonParts(b, handle, parent, transform, font);
    var n := |b.id|;
    forall j, k | 1 <= j < k < 7
      ensures parts[j].transform.value.id != parts[k].transform.value.id
    {
      assert (b.id + PartSuffixes[j])[n..] == PartSuffixes[j];
      assert (b.id + PartSuffixes[k])[n..] == PartSuffixes[k];
    }
    forall k | 1 <= k < 7
      ensures b.id <= parts[k].transform.value.id
    {
      assert (b.id + PartSuffixes[k])[..|b.id|] == b.id;
    }
  }

  /** `Button::create`: appends the seven parts to the world, in order, and
      returns the first, the handle. Nothing that existed before changes. */
  method Create(b: Button, world: World, parent: Entity, transform: UiTransform, font: FontHandle)
    returns (handle: Entity)
    requires world.Valid()
    modifies world
    ensures world.Valid()
    ensures handle == |old(world.entities)| && handle !in old(world.live)
    ensures world.entities == old(world.entities) + ButtonParts(b, handle, parent, transform, font)
    ensures forall e :: e in world.live <==> e in old(world.live) || handle <= e < handle + 7
  {
    var parts := ButtonParts(b, |world.entities|, parent, transform, font);
    ghost var live0 := world.live;
    handle := world.CreateEntity(parts[Handle]);
    var border := world.CreateEntity(parts[BorderPart]);
    var overlay1 := world.CreateEntity(parts[Overlay1]);
    var overlay2 := world.CreateEntity(parts[Overlay2]);
    var background := world.CreateEntity(parts[BackgroundPart]);
    var text := world.CreateEntity(parts[TextPart]);
    var catch := world.CreateEntity(parts[CatchPart]);
    assert world.entities == old(world.entities) + parts[..7];
    assert world.live == live0 + {handle, border, overlay1, overlay2, background, text, catch};
  }
}
