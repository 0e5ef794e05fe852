/** The main menu: a column of four buttons described by `ui/menu.ron`,
    whose handles are looked up lazily, and the dispatch of clicks on them. */
module Menu {
  import opened Ecs
  import opened Events

  const ButtonStart := "start"
  const ButtonLoad := "load"
  const ButtonOptions := "options"
  const ButtonAbout := "about"

  /** The ids of the menu's buttons, top to bottom. */
  const ButtonIds: seq<string> := [ButtonStart, ButtonLoad, ButtonOptions, ButtonAbout]
  const ButtonTexts: seq<string> := ["Start Game", "Load Game", "Options", "About"]

  const MenuUi := "ui/menu.ron"
  const MenuFont := "font/mandrill.ttf"

  // ---------------------------------------------------------------------------
  // The widget description the menu's UI file is expanded with.

  datatype Size = Size(width: real, height: real)
  datatype Position = Position(x: real, y: real, z: real)

  /** `UiTransformData`: only what the builder sets; `None` leaves the default. */
  datatype TransformData = TransformData(
    id: Option<string>, size: Option<Size>, anchor: Option<Anchor>, position: Option<Position>)

  const DefaultTransform := TransformData(None, None, None, None)

  /** `UiButtonData`; the sound fields, all unset, are not modelled. */
  datatype ButtonData = ButtonData(
    id: Option<string>, text: string, fontSize: real,
    normalTextColor: Color, font: Option<string>,
    normalImage: Option<Color>, hoverImage: Option<Color>, hoverTextColor: Option<Color>,
    pressImage: Option<Color>, pressTextColor: Option<Color>)

  /** `UiWidget`: the shapes the menu is built from. */
  datatype UiWidget =
    | Container(transform: TransformData, background: Option<Color>, children: seq<UiWidget>)
    | ButtonWidget(transform: TransformData, button: ButtonData)

  /** The `Menu` record read from the UI file. */
  datatype MenuLayout = MenuLayout(
    buttonWidth: real, buttonHeight: real, buttonSpacing: real, buttonBorder: real)

  /** `create_button`: a bordered container holding exactly one button, whose
      transform carries the button's id. */
  function CreateButton(id: string, text: string, width: real, height: real, border: real)
    : (w: UiWidget)
    ensures w.Container? && w.background == Some(Border)
    ensures w.transform == TransformData(None, Some(Size(width, height)), Some(Middle), None)
    ensures |w.children| == 1 && w.children[0].ButtonWidget?
    ensures w.children[0].transform.id == Some(id)
    ensures w.children[0].transform.size == Some(Size(width - border, height - border))
    ensures w.children[0].button.text == text && w.children[0].button.id == None
    ensures w.children[0].button.normalImage == Some(Background)
    ensures w.children[0].button.hoverImage == Some(BackgroundHighlighted)
    ensures w.children[0].button.pressImage == Some(Acting)
  {
    Container(
      TransformData(None, Some(Size(width, height)), Some(Middle), None),
      Some(Border),
      [ButtonWidget(
        TransformData(Some(id), Some(Size(width - border, height - border)), Some(Middle), None),
        ButtonData(None, text, 90.0, TextLight, Some(MenuFont),
                   Some(Background), Some(BackgroundHighlighted), None, Some(Acting), None))])
  }

  /** The vertical position of the `i`-th of `count` buttons. */
  function SlotY(m: MenuLayout, count: nat, i: nat): real
  {
    ((count as real) / 2.0 - 0.5) * m.buttonHeight - (i as real) * (m.buttonHeight + m.buttonSpacing)
  }

  /** `to_native_widget`: the four buttons start, load, options, about, each
      wrapped in a positioned container, top to bottom. */
  function ToNativeWidget(m: MenuLayout): (w: UiWidget)
    ensures w.Container? && w.background == None && w.transform == DefaultTransform
    ensures |w.children| == |ButtonIds|
    ensures forall i | 0 <= i < |ButtonIds| ::
      w.children[i].Container? && w.children[i].background == None
      && w.children[i].transform.position == Some(Position(0.0, SlotY(m, |ButtonIds|, i), 0.0))
      && w.children[i].children == [CreateButton(ButtonIds[i], ButtonTexts[i],
                                                  m.buttonWidth, m.buttonHeight, m.buttonBorder)]
  {
    var count := |ButtonIds|;
    Container(DefaultTransform, None,
      seq(count, i requires 0 <= i < count =>
        Container(TransformData(None, None, None, Some(Position(0.0, SlotY(m, count, i), 0.0))),
                  None,
                  [CreateButton(ButtonIds[i], ButtonTexts[i],
                                m.buttonWidth, m.buttonHeight, m.buttonBorder)])))
  }

  /** The ids carried by a widget tree, in document order. */
  function WidgetIds(w: UiWidget): seq<string>
    decreases w, 1
  {
    (if w.transform.id.Some? then [w.transform.id.value] else [])
    + (if w.Container? then ChildrenIds(w.children) else [])
  }

  function ChildrenIds(ws: seq<UiWidget>): seq<string>
    decreases ws, 0
  {
    if ws == [] then [] else WidgetIds(ws[0]) + ChildrenIds(ws[1..])
  }

  /** The menu's widget tree carries exactly the four ids the menu looks its
      buttons up by, once each, in the order start, load, options, about; and
      the buttons are stacked downwards one button height plus the spacing
      apart. */
  lemma {:induction false} MenuWidgetIds(m: MenuLayout)
    ensures WidgetIds(ToNativeWidget(m)) == ButtonIds
    ensures forall i | 0 <= i < |ButtonIds| - 1 ::
      SlotY(m, |ButtonIds|, i) - SlotY(m, |ButtonIds|, i + 1) == m.buttonHeight + m.buttonSpacing
  {
    var w := ToNativeWidget(m);
    var cs := w.children;
    forall i | 0 <= i < |ButtonIds|
      ensures WidgetIds(cs[i]) == [ButtonIds[i]]
    {
      assert cs[i].children == [CreateButton(ButtonIds[i], ButtonTexts[i],
                                             m.buttonWidth, m.buttonHeight, m.buttonBorder)];
      var cb := cs[i].children[0];
      var b := cb.children[0];
      assert WidgetIds(b) == [ButtonIds[i]] + [];
      assert cb.children[1..] == [] && cs[i].children[1..] == [];
      assert ChildrenIds(cb.children) == [ButtonIds[i]] + ChildrenIds([]);
      assert WidgetIds(cb) == [] + ChildrenIds(cb.children);
      assert ChildrenIds(cs[i].children) == WidgetIds(cb) + ChildrenIds([]);
      assert WidgetIds(cs[i]) == [] + ChildrenIds(cs[i].children);
    }
    assert ChildrenIds(cs[3..]) == [ButtonIds[3]] by {
      assert cs[3..][1..] == [];
    }
    assert ChildrenIds(cs[2..]) == [ButtonIds[2], ButtonIds[3]] by {
      assert cs[2..][1..] == cs[3..];
    }
    assert ChildrenIds(cs[1..]) == [ButtonIds[1], ButtonIds[2], ButtonIds[3]] by {
      assert cs[1..][1..] == cs[2..];
    }
    assert ChildrenIds(cs) == ButtonIds;
  }

  // ---------------------------------------------------------------------------
  // The screen.

  class MainMenu {
    var uiRoot: Option<Entity>
    var buttonStart: Option<Entity>
    var buttonLoad: Option<Entity>
    var buttonOptions: Option<Entity>
    var buttonAbout: Option<Entity>

    /** `MainMenu::default()`. */
    constructor ()
      ensures uiRoot == None && buttonStart == None && buttonLoad == None
      ensures buttonOptions == None && buttonAbout == None
    {
      uiRoot, buttonStart, buttonLoad, buttonOptions, buttonAbout := None, None, None, None, None;
    }

    predicate AllResolved()
      reads this
    {
      buttonStart.Some? && buttonLoad.Some? && buttonOptions.Some? && buttonAbout.Some?
    }

    /** `on_start`: creates the menu UI and keeps its root. */
    method OnStart(world: World)
      requires world.Valid()
      modifies this, world
      ensures world.Valid()
      ensures uiRoot.Some? && uiRoot.value !in old(world.live)
      ensures world.live == old(world.live) + {uiRoot.value}
      ensures world.entities == old(world.entities) + [NoComponents.(prefab := Some(MenuUi))]
      ensures buttonStart == old(buttonStart) && buttonLoad == old(buttonLoad)
      ensures buttonOptions == old(buttonOptions) && buttonAbout == old(buttonAbout)
    {
      var root := world.CreateUi(MenuUi);
      uiRoot := Some(root);
    }

    /** `update`: while some button is unresolved, looks all four up again;
        once all are resolved it no longer queries. Never transitions. */
    method Update(finder: map<string, Entity>) returns (t: Trans)
      modifies this
      ensures t == Stay
      ensures uiRoot == old(uiRoot)
      ensures old(AllResolved()) ==>
        buttonStart == old(buttonStart) && buttonLoad == old(buttonLoad)
        && buttonOptions == old(buttonOptions) && buttonAbout == old(buttonAbout)
      ensures !old(AllResolved()) ==>
        buttonStart == Find(finder, ButtonStart) && buttonLoad == Find(finder, ButtonLoad)
        && buttonOptions == Find(finder, ButtonOptions) && buttonAbout == Find(finder, ButtonAbout)
    {
      if buttonStart.None? || buttonLoad.None? || buttonOptions.None? || buttonAbout.None? {
        buttonStart := Find(finder, ButtonStart);
        buttonLoad := Find(finder, ButtonLoad);
        buttonOptions := Find(finder, ButtonOptions);
        buttonAbout := Find(finder, ButtonAbout);
      }
      t := Stay;
    }

    /** `handle_event`: close or Escape quits, other window events are
        ignored; a click on the about button (checked first) goes to the about
        screen, one on the start button to the game, and any other click,
        including on load or options, is ignored. An unresolved handle never
        matches a click. */
    function HandleEvent(e: StateEvent): (t: Trans)
      reads this
      ensures t == Quit <==>
        e.Window? && (IsCloseRequested(e.window) || IsKeyDown(e.window, EscapeKey))
      ensures t == Switch(AboutState) <==> IsClick(e) && buttonAbout == Some(e.ui.target)
      ensures t == Switch(GameState) <==>
        IsClick(e) && buttonAbout != Some(e.ui.target) && buttonStart == Some(e.ui.target)
      ensures t != Switch(MainMenuState)
    {
      match e
      case Window(w) =>
        if IsCloseRequested(w) || IsKeyDown(w, EscapeKey) then Quit else Stay
      case Ui(UiEvent(Click, target)) =>
        if Some(target) == buttonAbout then Switch(AboutState)
        else if Some(target) == buttonStart then Switch(GameState)
        else Stay
      case _ => Stay
    }

    /** `on_stop`: deletes the root, if one was kept, and forgets all five
        handles. Deleting a root that is no longer live aborts the program
        (`aborted`), and then nothing has changed. */
    method OnStop(world: World) returns (aborted: bool)
      requires world.Valid()
      modifies this, world
      ensures world.Valid()
      ensures aborted <==> old(uiRoot).Some? && old(uiRoot).value !in old(world.live)
      ensures world.entities == old(world.entities)
      ensures aborted ==>
        world.live == old(world.live) && uiRoot == old(uiRoot)
        && buttonStart == old(buttonStart) && buttonLoad == old(buttonLoad)
        && buttonOptions == old(buttonOptions) && buttonAbout == old(buttonAbout)
      ensures !aborted ==>
        world.live == old(world.live) - Handles(old(uiRoot))
        && uiRoot == None && buttonStart == None && buttonLoad == None
        && buttonOptions == None && buttonAbout == None
    {
      aborted := false;
      if uiRoot.Some? {
        var ok := world.DeleteEntity(uiRoot.value);
        if !ok {
          aborted := true;
          return;
        }
      }
      uiRoot, buttonStart, buttonLoad, buttonOptions, buttonAbout := None, None, None, None, None;
    }
  }
}
