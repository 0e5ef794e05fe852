/** The about screen: a text panel with a clickable link label. Clicking the
    link opens a web page and stays; any other click, or Escape, goes back to
    the main menu; closing the window quits. */
module About {
  import opened Ecs
  import opened Events

  const TwitterLinkId := "twitter-link"
  const AboutUi := "ui/about.ron"

  class AboutScreen {
    var uiHandle: Option<Entity>
    var twitterLink: Option<Entity>

    /** `AboutScreen::default()`. */
    constructor ()
      ensures uiHandle == None && twitterLink == None
    {
      uiHandle, twitterLink := None, None;
    }

    /** `on_start`: creates the about UI and keeps its root. */
    method OnStart(world: World)
      requires world.Valid()
      modifies this, world
      ensures world.Valid()
      ensures uiHandle.Some? && uiHandle.value !in old(world.live)
      ensures world.live == old(world.live) + {uiHandle.value}
      ensures world.entities == old(world.entities) + [NoComponents.(prefab := Some(AboutUi))]
      ensures twitterLink == old(twitterLink)
    {
      var root := world.CreateUi(AboutUi);
      uiHandle := Some(root);
    }

    /** `update`: looks the link label up while it is unresolved, and no
        longer once it is found. Never transitions. */
    method Update(finder: map<string, Entity>) returns (t: Trans)
      modifies this
      ensures t == Stay
      ensures uiHandle == old(uiHandle)
      ensures old(twitterLink).Some? ==> twitterLink == old(twitterLink)
      ensures old(twitterLink).None? ==> twitterLink == Find(finder, TwitterLinkId)
    {
      if twitterLink.None? {
        twitterLink := Find(finder, TwitterLinkId);
      }
      t := Stay;
    }

    /** Whether `handle_event` calls out to open the link in a browser: on a
        click on the resolved link label. Whatever that call returns, the
        screen stays. */
    predicate OpensBrowser(e: StateEvent)
      reads this
      ensures OpensBrowser(e) ==> HandleEvent(e) == Stay
      ensures OpensBrowser(e) ==> twitterLink.Some?
    {
      IsClick(e) && twitterLink == Some(e.ui.target)
    }

    /** `handle_event`: a click on the link stays, any other click (every
        click while the link is unresolved) goes back to the menu; close quits,
        checked before Escape, which goes back to the menu; everything else is
        ignored. */
    function HandleEvent(e: StateEvent): (t: Trans)
      reads this
      ensures t == Quit <==> e.Window? && IsCloseRequested(e.window)
      ensures t == Switch(MainMenuState) <==>
        (IsClick(e) && twitterLink != Some(e.ui.target))
        || (e.Window? && !IsCloseRequested(e.window) && IsKeyDown(e.window, EscapeKey))
      ensures t == Stay || t == Quit || t == Switch(MainMenuState)
    {
      match e
      case Ui(UiEvent(Click, target)) =>
        if Some(target) == twitterLink then Stay else Switch(MainMenuState)
      case Window(w) =>
        if IsCloseRequested(w) then Quit
        else if IsKeyDown(w, EscapeKey) then Switch(MainMenuState)
        else Stay
      case _ => Stay
    }

    /** `on_stop`: deletes the root, if one was kept, and forgets it; the link
        handle is kept. Deleting a root that is no longer live aborts the
        program (`aborted`), and then nothing has changed. */
    method OnStop(world: World) returns (aborted: bool)
      requires world.Valid()
      modifies this, world
      ensures world.Valid()
      ensures aborted <==> old(uiHandle).Some? && old(uiHandle).value !in old(world.live)
      ensures world.entities == old(world.entities)
      ensures twitterLink == old(twitterLink)
      ensures aborted ==> world.live == old(world.live) && uiHandle == old(uiHandle)
      ensures !aborted ==> world.live == old(world.live) - Handles(old(uiHandle)) && uiHandle == None
    {
      aborted := false;
      if uiHandle.Some? {
        var ok := world.DeleteEntity(uiHandle.value);
        if !ok {
          aborted := true;
          return;
        }
      }
      uiHandle := None;
    }
  }
}
