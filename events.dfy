/** The events a screen receives and the transitions it answers with. */
module Events {
  import opened Ecs

  datatype Key = EscapeKey | OtherKey(code: nat)

  datatype MouseButton = LeftButton | RightButton | MiddleButton | OtherButton(code: nat)

  datatype ElementState = Pressed | Released

  /** The window-level events of the windowing library that matter here. */
  datatype WindowEventKind =
    | CloseRequested
    | KeyboardInput(virtualKeycode: Option<Key>, state: ElementState)
    | MouseInput(button: MouseButton, state: ElementState)
    | OtherWindowEvent(code: nat)

  /** A raw event of the windowing library. */
  datatype WinitEvent =
    | WindowEvent(event: WindowEventKind)
    | DeviceEvent(code: nat)
    | Awakened
    | Suspended(suspended: bool)

  /** `is_close_requested`. */
  predicate IsCloseRequested(e: WinitEvent)
  {
    e.WindowEvent? && e.event.CloseRequested?
  }

  /** `is_key_down`: a key press reporting that virtual key code. */
  predicate IsKeyDown(e: WinitEvent, key: Key)
  {
    e.WindowEvent? && e.event.KeyboardInput?
    && e.event.virtualKeycode == Some(key) && e.event.state == Pressed
  }

  /** `is_mouse_button_down`. */
  predicate IsMouseButtonDown(e: WinitEvent, button: MouseButton)
  {
    e.WindowEvent? && e.event.MouseInput?
    && e.event.button == button && e.event.state == Pressed
  }

  datatype UiEventType =
    | Click | ClickStart | ClickStop | HoverStart | HoverStop
    | Dragging | Dropped | ValueChange | ValueCommit | Focus | Blur

  datatype UiEvent = UiEvent(eventType: UiEventType, target: Entity)

  /** `StateEvent`: what a screen's `handle_event` is given. */
  datatype StateEvent =
    | Window(window: WinitEvent)
    | Ui(ui: UiEvent)
    | Input(code: nat)

  predicate IsClick(e: StateEvent)
  {
    e.Ui? && e.ui.eventType == Click
  }

  /** The screens a transition may switch to, each default-constructed. */
  datatype Screen = MainMenuState | GameState | AboutState

  /** `Trans`: `Stay` is `Trans::None`. */
  datatype Trans = Stay | Switch(to: Screen) | Quit
}
