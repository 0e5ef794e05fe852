# Corylus front end and sprite-sheet converter, modelled in Dafny

This project models three parts of Corylus, a small game built on the
Amethyst engine:

* **The screen state machine.** The splash screen (`SplashScreen`), the main
  menu (`MainMenu`) and the about screen (`AboutScreen`) each keep a few
  optional entity handles. Four lifecycle hooks drive them: `on_start`,
  `update`/`fixed_update`, `handle_event` and `on_stop`. Every hook answers
  with a transition: stay (`Trans::None`, here `Stay`), switch to a screen, or
  quit. Each screen is a class whose fields are the screen's fields. The hooks
  that change them are methods, and `handle_event`, which only reads them, is
  a function.
* **The code-built button** (`Button::new`, `Button::create`). It appends
  seven entities to the world, wired into a fixed parent tree, with ids
  derived from the button's id and a `ButtonComp` marker on the background
  only.
* **The CSS-sprite to sprite-sheet converter** (`tools/json-css-to-ron`).
  `px_to_u16` and `background_to_pos` parse CSS lengths and backgrounds, the
  entries become sprites, and the texture size is the largest right and
  bottom edge. Text is handled as UTF-8 bytes, so Rust's slicing panics are
  modelled exactly. `str::parse::<u16>` is modelled as the standard library
  implements it: an optional `+`, digits read left to right, and the first
  error wins.

The modules are:

* `Ecs`: the entity store `World`. An entity handle is the index at which the
  entity was created; it is never reused. `live` is the set of entities that
  have not been deleted. The module also holds the components a part can
  carry.
* `Events`: window and UI events, the predicates `is_close_requested`,
  `is_key_down` and `is_mouse_button_down`, and `Trans`.
* `Splash`, `Menu`, `About` and `UiScheme`: one module per source file.
* `CssToRon`: the converter.

`UiCreator::create` is `World.CreateUi`, which creates a fresh root entity.
`UiFinder` is a `map<string, Entity>` parameter. A panic reached through
`.expect` in `on_stop` is the `aborted` result, and the state is then
unchanged. A panic of the converter is the `Panic` outcome.

## Model

| member | source | states |
|---|---|---|
| `Splash.SplashScreen.constructor` | src/splash.rs:11-15 | A default splash screen has no UI handle and has shown 0 frames. |
| `Splash.SplashScreen.OnStart` | src/splash.rs:19-24 | Creates the `ui/splash.ron` root, a fresh entity added to the live set, and stores it as `Some(root)`. The frame count is kept. |
| `Splash.SplashScreen.FixedUpdate` | src/splash.rs:27-36 | The frame count grows by exactly 1 and the handle is kept. The result is `Stay` exactly while the count is at most 60; otherwise it is the switch to the main menu. |
| `Splash.TicksUntilMenu` | src/splash.rs:27-36 | From a default splash screen with no input, ticks 1 to 60 stay. The first other transition comes on tick 61, and it is the switch to the main menu. |
| `Splash.SplashScreen.HandleEvent` | src/splash.rs:39-58 | Quit if and only if the event is a window close request or an Escape key press. The main menu if and only if it is neither of those and is a left mouse-button press. Every other event stays. Being a function, it changes neither field. |
| `Splash.SplashScreen.OnStop` | src/splash.rs:61-69 | Aborts exactly when the stored root is no longer live. Otherwise deletes that root and nothing else, and leaves the handle `None`. |
| `Menu.CreateButton` | src/menu.rs:35-66 | A bordered container (`Border` background) holding exactly one button. The button's transform id is the given id and its text the given text. Its size is the container's less the border. Its normal, hover and press images are background, highlighted and acting. |
| `Menu.ToNativeWidget` | src/menu.rs:79-130 | A root container with four wrapper containers. Wrapper `i` is positioned at slot `i` and holds exactly `create_button` of the `i`-th id and text, in the order start, load, options, about. |
| `Menu.MenuWidgetIds` | src/menu.rs:80-109 | The widget tree carries exactly the ids "start", "load", "options", "about", once each, in that order. These are the ids `update` looks up. Consecutive buttons sit one button height plus the spacing apart, top to bottom. |
| `Menu.MainMenu.constructor` | src/menu.rs:26-33 | All five handles of a default menu are `None`. |
| `Menu.MainMenu.OnStart` | src/menu.rs:135-140 | Creates the `ui/menu.ron` root, a fresh live entity, and stores it in `ui_root`. The button handles are kept. |
| `Menu.MainMenu.Update` | src/menu.rs:143-161 | Always `Stay`, and `ui_root` is kept. If all four button handles are resolved, nothing changes. Otherwise all four are overwritten with the finder's answers for "start", "load", "options" and "about". |
| `Menu.MainMenu.HandleEvent` | src/menu.rs:164-201 | Quit if and only if the event is a window close or an Escape press; other window events stay. A click on the about handle goes to About, and this is checked first. A click on the start handle (and not the about handle) goes to Game. Every other click stays, including load, options, unknown targets and any click while a handle is `None`. Never switches to the main menu. |
| `Menu.MainMenu.OnStop` | src/menu.rs:204-217 | Aborts exactly when the stored root is no longer live. Otherwise deletes that root and nothing else, and resets all five handles to `None`. |
| `About.AboutScreen.constructor` | src/about.rs:18-22 | A default about screen has neither a UI handle nor a link handle. |
| `About.AboutScreen.OnStart` | src/about.rs:102-108 | Creates the `ui/about.ron` root, a fresh live entity, and stores it. The link handle is kept. |
| `About.AboutScreen.Update` | src/about.rs:111-122 | Always `Stay`, and the UI handle is kept. It looks "twitter-link" up only while the link is `None`; once the link is `Some`, nothing changes. |
| `About.AboutScreen.OpensBrowser` | src/about.rs:135-140 | The browser is opened exactly on a click on the resolved link. Whatever the browser call returns, that click stays. |
| `About.AboutScreen.HandleEvent` | src/about.rs:125-161 | Quit if and only if the event is a window close request, checked before Escape. The main menu if and only if it is a click on anything but the resolved link (so every click while the link is unresolved), or an Escape press that is not a close. Every other event stays. |
| `About.AboutScreen.OnStop` | src/about.rs:164-172 | Aborts exactly when the stored root is no longer live. Otherwise deletes that root and nothing else, and leaves the UI handle `None`. The link handle is not reset. |
| `UiScheme.NewButton` | src/ui_scheme.rs:66-75 | Copies text and id verbatim. There is no font, and the size is 800 by 150 with a border of 5. |
| `UiScheme.ButtonParts` | src/ui_scheme.rs:82-197 | Seven parts. The handle has only the caller's transform and parent. The two overlays have the border entity as parent; every other part has the handle. Part ids are `<id>_border`, `<id>_border_overlay_1`, `<id>_border_overlay_2`, `<id>_background`, `<id>_text`, and `<id>` for the catch region. Only the background has `ButtonComp`, and only it has a retrigger, with four empty action lists. The border and overlays use the border colour, the background the background colour, and only the text part has a text. The catch region is a bare transform of the button's full size whose depth exceeds every other part's. |
| `UiScheme.PartIdsDistinct` | src/ui_scheme.rs:82-144 | The six part ids are pairwise distinct. Each starts with the button's id, and the catch region's id is exactly that id. |
| `UiScheme.Create` | src/ui_scheme.rs:78-200 | Appends exactly the seven parts, in order, and returns the first (the handle). The seven new entities are live, and every pre-existing entity and its components are unchanged. |
| `CssToRon.ParseU16` | tools/json-css-to-ron/src/main.rs:30 | `Empty` if and only if the text is empty. A value if and only if the text is an optional `+` and digits worth at most 65535, and the value is the number those digits denote. `InvalidDigit` only when some byte is not a digit, and `PosOverflow` for every all-digit text above 65535. |
| `CssToRon.AccumulateDigitsValue` | tools/json-css-to-ron/src/main.rs:30 | The left-to-right digit loop with overflow checks agrees with the positional value of the digits: the value when it fits in 16 bits, otherwise overflow. |
| `CssToRon.PxToU16` | tools/json-css-to-ron/src/main.rs:27-31 | Panics exactly when there are fewer than two bytes, or when the cut falls inside a character. `Empty` exactly for two bytes. Otherwise it parses the text minus its last two bytes, whatever those are. |
| `CssToRon.PxToU16RoundTrip` | tools/json-css-to-ron/src/main.rs:27-31 | A number's decimal digits followed by any two-byte unit read back as that number (for example "12px" is 12). |
| `CssToRon.Split` | tools/json-css-to-ron/src/main.rs:34 | One or more pieces, none holding the separator. Joining them with the separator gives back the input. |
| `CssToRon.SplitJoin` | tools/json-css-to-ron/src/main.rs:34 | Splitting undoes joining pieces that hold no separator. |
| `CssToRon.BackgroundToPos` | tools/json-css-to-ron/src/main.rs:33-36 | Succeeds exactly when fields 2 and 3, each without its first byte, parse; the result is those two numbers. It panics when there are fewer than two fields. It never succeeds with fewer than three. Errors and panics come from field 2 first, then field 3. |
| `CssToRon.BackgroundToPosRoundTrip` | tools/json-css-to-ron/src/main.rs:33-36 | `<image> -<x>px -<y>px`, with any sign byte and any further fields, reads back as `(x, y)`. |
| `CssToRon.UnsignedOriginIsAnError` | tools/json-css-to-ron/src/main.rs:33-36 | Because the first byte is always dropped, an unsigned `0px 0px` leaves "px" to parse, and the result is an `Empty` error. |
| `CssToRon.ToSprite` | tools/json-css-to-ron/src/main.rs:44-52 | A sprite exactly when the background, width and height all parse, and a panic otherwise. Width and height come from the entry's width and height, and x and y from its background. |
| `CssToRon.ToSprites` | tools/json-css-to-ron/src/main.rs:42-53 | Succeeds exactly when every entry maps to a sprite. Then it gives one sprite per entry, in order, each the entry's own mapping. |
| `CssToRon.MaxEdge` | tools/json-css-to-ron/src/main.rs:54-63 | At least every sprite's edge. It is 0 for no sprites, and otherwise reached by some sprite. |
| `CssToRon.PackSheet` | tools/json-css-to-ron/src/main.rs:54-68 | Panics exactly when some `x + width` or `y + height` overflows `u16`. Otherwise it keeps the sprites, every sprite fits inside the texture, the texture is 0 by 0 when there are no sprites, and otherwise some sprite reaches each bound. |
| `CssToRon.PackSheetOrderIndependent` | tools/json-css-to-ron/src/main.rs:42-63 | Any reordering of the sprites, such as another map iteration order, gives the same outcome and texture size. |
| `CssToRon.ConvertLine` | tools/json-css-to-ron/src/main.rs:42-68 | On success, one sprite per entry, each the entry's mapping, and each fits in the texture. Any entry that fails makes the line panic. |
| `CssToRon.ConvertLineOverflow` | tools/json-css-to-ron/src/main.rs:54-63 | When every entry maps, the line panics exactly when some sprite's right or bottom edge exceeds 65535. |
| `CssToRon.Run` | tools/json-css-to-ron/src/main.rs:38-73 | Prints one sheet per converted line, in order, each that line's conversion. The run stops at the first line that is not valid JSON, or at the first line that panics. Otherwise it covers every line. |

## Left out

- `main` of the game (engine bundles, renderer, logger, config paths) and
  `src/events.rs`, which only drains the UI event channel and logs each
  event. The hover and click recolouring router is not part of this code, so
  it is not modelled.
- The engine's state stack: how a `Switch` runs `on_stop`, then builds the
  next screen and runs its `on_start`. The Game, Pause and Credits screens are
  not part of this model.
- Loading a UI description (`ui/*.ron`) is left out. `World.CreateUi` only
  creates the root entity, and the prefab's children are not modelled.
  `UiFinder` is an abstract map from id to entity.
- `delete_entity` removes the one entity it is given. Removing the rest of a
  deleted root's tree is the engine's hierarchy handling, which is not
  modelled.
- `webbrowser::open` is a call into the host. `OpensBrowser` records when it
  happens, and its result is ignored, as in the source.
- Logging (`tracing` events) is not modelled.
- `load_font`, `load_image` and `load`: asset loading. `UiScheme.Create` takes
  the font handle that `load_font` would return as a parameter.
- `Button.font` is not used by `create`, and the model keeps it unused.
- Colour values and `as_solid_color` are left out; colours are tags.
- The About screen's widget tree (`About::to_native_widget`): layout and text
  formatting only. Its one id, "twitter-link", is the one `Update` looks up.
- `UiButtonData`'s sound fields, which `create_button` leaves unset, are not
  modelled.
- Splash.SplashScreen.FixedUpdate: the frame counter is unbounded. The
  source's `u32` counter would overflow after 4294967295 ticks, which is over
  two years at 60 Hz.
- Sizes, positions and depths are `real`; `f32` rounding is not modelled.
- Converter I/O is left out: reading standard input (a read failure panics),
  JSON decoding and RON printing. `Run` takes each line already decoded,
  `None` where the line is not a JSON map of CSS sprites, and returns the
  sheets it would print. The entry names are dropped, as the source drops
  them.
- `x + width` and `y + height` overflowing `u16` is modelled as a panic, as in
  a debug build. A release build would wrap around instead.
- Byte text is not checked to be valid UTF-8. The character-boundary test
  (not a continuation byte) matches Rust's only for valid UTF-8, which Rust
  strings always are.
