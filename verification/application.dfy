/** What the Memes and Snake application variants see of the desktop shell:
    their configuration record, menu entries, the events they are sent, the
    window request they hand to the compositor, and the shared base handler.
    The compositor, the application manager and the base handler are not
    part of this model: the compositor is a log of the calls it receives,
    and the base handler is recorded on the same log, in call order. */
module ApplicationModel {
  import opened Wrappers

  datatype AppIcon = AppIcon(src: string, alt: string)

  /** The static configuration of an application; its `entrypoint` factory is
      modelled by each variant's `Entrypoint` method. */
  datatype ApplicationConfig = ApplicationConfig(
    displayName: string,
    dockPriority: Option<int>,
    path: string,
    appName: string,
    appIcon: AppIcon)

  datatype MenuEntry = MenuEntry(name: string, boldText: bool, items: seq<string>)

  /** An event sent to an application: open with its launch arguments,
      close, or a kind only one application interprets. */
  datatype ApplicationEvent = ApplicationOpen(args: string) | ApplicationClose | Custom(kind: string)

  datatype WindowContext = WindowContext(id: nat)

  /** The argument of `compositor.open`. `x` is a real because
      `(innerWidth - width) / 2` may be fractional; `view` names the view the
      window's generator resolves to. */
  datatype WindowRequest = WindowRequest(
    x: real, y: int, width: int, height: int,
    title: string, application: object, args: string, view: string)

  datatype Call =
    | BaseHandled(application: object, event: ApplicationEvent, context: Option<WindowContext>)
    | Opened(request: WindowRequest)

  /** The shell around an application: the browser window's inner width and
      the log of calls the application makes into the shell. */
  class Environment {
    var innerWidth: int
    var calls: seq<Call>

    constructor (innerWidth: int)
      ensures this.innerWidth == innerWidth && calls == []
    {
      this.innerWidth := innerWidth;
      calls := [];
    }

    /** `compositor.open` */
    method CompositorOpen(request: WindowRequest)
      modifies this`calls
      ensures calls == old(calls) + [Opened(request)]
    {
      calls := calls + [Opened(request)];
    }

    /** `Application.baseHandler` */
    method BaseHandler(application: object, event: ApplicationEvent, context: Option<WindowContext>)
      modifies this`calls
      ensures calls == old(calls) + [BaseHandled(application, event, context)]
    {
      calls := calls + [BaseHandled(application, event, context)];
    }
  }

  /** The window requests among the calls, in order. */
  function OpenRequests(calls: seq<Call>): (r: seq<WindowRequest>)
    ensures |r| <= |calls|
    ensures forall i | 0 <= i < |r| :: Opened(r[i]) in calls
    ensures forall i | 0 <= i < |calls| && calls[i].Opened? :: calls[i].request in r
  {
    if calls == [] then []
    else (if calls[0].Opened? then [calls[0].request] else []) + OpenRequests(calls[1..])
  }

  lemma {:induction false} OpenRequestsAppend(a: seq<Call>, b: seq<Call>)
    ensures OpenRequests(a + b) == OpenRequests(a) + OpenRequests(b)
  {
    if a == [] {
      assert a + b == b;
    } else {
      assert (a + b)[0] == a[0];
      assert (a + b)[1..] == a[1..] + b;
      OpenRequestsAppend(a[1..], b);
    }
  }

  /** The left edge that centres a window of the given width: half of what the
      viewport has left over, with no clamping. */
  function CenteredX(innerWidth: int, width: int): (x: real)
    ensures 2.0 * x + width as real == innerWidth as real
    ensures innerWidth < width ==> x < 0.0
  {
    (innerWidth - width) as real / 2.0
  }
}
