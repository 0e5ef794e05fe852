/** The splash screen: shows the splash UI and hands over to the main menu
    after one second of fixed updates, on a left click, or quits. */
module Splash {
  import opened Ecs
  import opened Events

  /** Fixed updates run at 60 Hz; the splash stays for this many of them. */
  const SplashFrames: nat := 60

  const SplashUi := "ui/splash.ron"

  class SplashScreen {
    var uiHandle: Option<Entity>
    var frameDisplayed: nat

    /** `SplashScreen::default()`. */
    constructor ()
      ensures uiHandle == None && frameDisplayed == 0
    {
      uiHandle := None;
      frameDisplayed := 0;
    }

    /** `on_start`: creates the splash UI and keeps its root. */
    method OnStart(world: World)
      requires world.Valid()
      modifies this, world
      ensures world.Valid()
      ensures uiHandle.Some? && uiHandle.value !in old(world.live)
      ensures world.live == old(world.live) + {uiHandle.value}
      ensures world.entities == old(world.entities) + [NoComponents.(prefab := Some(SplashUi))]
      ensures frameDisplayed == old(frameDisplayed)
    {
      var root := world.CreateUi(SplashUi);
      uiHandle := Some(root);
    }

    /** `fixed_update`: counts one more displayed frame, and asks for the
        main menu once more than `SplashFrames` frames have been shown. */
    method FixedUpdate() returns (t: Trans)
      modifies this
      ensures frameDisplayed == old(frameDisplayed) + 1
      ensures uiHandle == old(uiHandle)
      ensures t == Stay <==> frameDisplayed <= SplashFrames
      ensures t == Stay || t == Switch(MainMenuState)
    {
      frameDisplayed := frameDisplayed + 1;
      if frameDisplayed > SplashFrames {
        t := Switch(MainMenuState);
      } else {
        t := Stay;
      }
    }

    /** `handle_event`: close or Escape quits, checked before a left click,
        which goes to the main menu; everything else is ignored. */
    function HandleEvent(e: StateEvent): (t: Trans)
      ensures t == Quit <==>
        e.Window? && (IsCloseRequested(e.window) || IsKeyDown(e.window, EscapeKey))
      ensures t == Switch(MainMenuState) <==>
        e.Window? && !IsCloseRequested(e.window) && !IsKeyDown(e.window, EscapeKey)
        && IsMouseButtonDown(e.window, LeftButton)
      ensures t == Stay || t == Quit || t == Switch(MainMenuState)
    {
      match e
      case Window(w) =>
        if IsCloseRequested(w) || IsKeyDown(w, EscapeKey) then Quit
        else if IsMouseButtonDown(w, LeftButton) then Switch(MainMenuState)
        else Stay
      case _ => Stay
    }

    /** `on_stop`: deletes the root, if one was kept, and forgets it. Deleting
        a root that is no longer live aborts the program (`aborted`), and
        then nothing has changed. */
    method OnStop(world: World) returns (aborted: bool)
      requires world.Valid()
      modifies this, world
      ensures world.Valid()
      ensures aborted <==> old(uiHandle).Some? && old(uiHandle).value !in old(world.live)
      ensures world.entities == old(world.entities)
      ensures frameDisplayed == old(frameDisplayed)
      ensures aborted ==> world.live == old(world.live) && uiHandle == old(uiHandle)
      ensures !aborted ==> world.live == old(world.live) - Handles(old(uiHandle)) && uiHandle == None
    {
      aborted := false;
      if uiHandle.Some? {
        var ok := world.DeleteEntity(uiHandle.value);
        if !ok {
          aborted := true;
          return;
        }
      }
      uiHandle := None;
    }
  }

  /** The application starts on a default splash screen and calls its fixed
      update every tick. With no input, the first transition other than
      `Stay` comes on tick 61, and it is the switch to the main menu. */
  method TicksUntilMenu() returns (ticks: nat, t: Trans)
    ensures ticks == SplashFrames + 1
    ensures t == Switch(MainMenuState)
  {
    var splash := new SplashScreen();
    ticks, t := 0, Stay;
    while t == Stay
      invariant splash.frameDisplayed == ticks <= SplashFrames + 1
      invariant t == Stay <==> ticks <= SplashFrames
      invariant t == Stay || t == Switch(MainMenuState)
      decreases SplashFrames + 1 - ticks
    {
      t := splash.FixedUpdate();
      ticks := ticks + 1;
    }
  }
}
