/** The Snake application: its configuration, its menu, and how it answers
    the events the shell sends it. */
module SnakeApp {
  import opened Wrappers
  import opened ApplicationModel

  const SnakeConfig: ApplicationConfig := ApplicationConfig(
    "Snake", None, "/Applications/", "Snake.app",
    AppIcon("/icons/snake-game.png", "Snake application"))

  const WindowWidth: int := 520
  const WindowHeight: int := 640
  const WindowY: int := 120

  /** The configuration's `entrypoint`: a new application bound to the shell. */
  method Entrypoint(env: Environment) returns (app: SnakeApplication)
    ensures fresh(app) && app.env == env
  {
    app := new SnakeApplication(env);
  }

  class SnakeApplication {
    const env: Environment

    constructor (env: Environment)
      ensures this.env == env
    {
      this.env := env;
    }

    function Config(): (c: ApplicationConfig)
      ensures c.displayName == "Snake" && c.dockPriority == None
      ensures c.path + c.appName == "/Applications/Snake.app"
    {
      SnakeConfig
    }

    /** One bold menu entry, named after the application, with no items. */
    function MenuEntries(): (r: seq<MenuEntry>)
      ensures |r| == 1
      ensures r[0].name == Config().displayName && r[0].boldText && r[0].items == []
    {
      [MenuEntry("Snake", true, [])]
    }

    /** The calls `on` makes into the shell: always the base handler first; for
        an open event, then exactly one centred Snake window carrying the
        event's arguments. */
    function Reaction(event: ApplicationEvent, context: Option<WindowContext>, innerWidth: int): (r: seq<Call>)
      ensures |r| == (if event.ApplicationOpen? then 2 else 1)
      ensures r[0] == BaseHandled(this, event, context)
      ensures |OpenRequests(r)| == (if event.ApplicationOpen? then 1 else 0)
      ensures forall req <- OpenRequests(r) ::
        && req.title == Config().displayName
        && req.application == this
        && req.args == event.args
        && req.width == WindowWidth && req.height == WindowHeight && req.y == WindowY
        && 2.0 * req.x + WindowWidth as real == innerWidth as real
    {
      [BaseHandled(this, event, context)]
        + if event.ApplicationOpen? then
            [Opened(WindowRequest(CenteredX(innerWidth, WindowWidth), WindowY, WindowWidth, WindowHeight,
                                  "Snake", this, event.args, "SnakeView"))]
          else []
    }

    method On(event: ApplicationEvent, context: Option<WindowContext>)
      modifies env`calls
      ensures env.calls == old(env.calls) + Reaction(event, context, env.innerWidth)
    {
      env.BaseHandler(this, event, context);
      if event.ApplicationOpen? {
        var width := WindowWidth;
        var height := WindowHeight;
        var x := CenteredX(env.innerWidth, width);
        var y := WindowY;
        env.CompositorOpen(WindowRequest(x, y, width, height, "Snake", this, event.args, "SnakeView"));
      }
    }
  }

  /** Every open event adds exactly one window to the shell, and no other event
      adds any. */
  lemma {:induction false} OneWindowPerOpen(app: SnakeApplication, before: seq<Call>, event: ApplicationEvent,
                                            context: Option<WindowContext>, innerWidth: int)
    ensures |OpenRequests(before + app.Reaction(event, context, innerWidth))|
         == |OpenRequests(before)| + (if event.ApplicationOpen? then 1 else 0)
  {
    OpenRequestsAppend(before, app.Reaction(event, context, innerWidth));
  }
}
