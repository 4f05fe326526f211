/** Navigation inside the About window: which sub-view is shown, how the
    "contact" choice is handed to the application instead of being shown,
    the links that open the Contact application, and how the window follows
    the screen's mobile/desktop resolution. */
module AboutView {
  import opened Wrappers
  import opened ApplicationModel

  datatype SubView = Home | About | Experience | Projects | Contact

  /** What `RenderSubView` produces: one of the four pages, or an empty element. */
  datatype Page = HomePage | AboutPage | ExperiencePage | ProjectsPage | Empty

  const ContactAppPath: string := "/Applications/Contact.app"
  const OpenContactKind: string := "about-open-contact-event"
  const MobileStyle: string := "mobile"

  function RenderSubView(view: SubView): (r: Page)
    ensures r == Empty <==> view == Contact
    ensures view == Home ==> r == HomePage
    ensures view == About ==> r == AboutPage
    ensures view == Experience ==> r == ExperiencePage
    ensures view == Projects ==> r == ProjectsPage
  {
    match view
    case Home => HomePage
    case About => AboutPage
    case Experience => ExperiencePage
    case Projects => ProjectsPage
    case Contact => Empty
  }

  /** Distinct views that can be stored render distinct pages. */
  lemma RenderingSeparatesViews(v: SubView, w: SubView)
    requires v != Contact && w != Contact && v != w
    ensures RenderSubView(v) != RenderSubView(w) && RenderSubView(v) != Empty
  {
  }

  /** The extra style class of the home page and the navigation bar. */
  function MobileClass(needsMobileView: bool): (r: string)
    ensures r != "" <==> needsMobileView
    ensures needsMobileView ==> r == MobileStyle
  {
    if needsMobileView then MobileStyle else ""
  }

  /** The view stored after `changeParent(view)` when `current` was stored. */
  function NextSubView(current: SubView, view: SubView): (r: SubView)
    ensures r == Contact ==> current == Contact
    ensures view != Contact ==> r == view
    ensures view == Contact ==> r == current
  {
    if view == Contact then current else view
  }

  /** The stored view after a sequence of navigation choices. */
  function Replay(start: SubView, views: seq<SubView>): (r: SubView)
    ensures start != Contact ==> r != Contact
    decreases |views|
  {
    if views == [] then start else Replay(NextSubView(start, views[0]), views[1..])
  }

  /** Reference reading of a navigation history: the last choice that was not
      "contact", or the starting view when there is none. */
  function LastPage(start: SubView, views: seq<SubView>): (r: SubView)
    decreases |views|
  {
    if views == [] then start
    else if views[|views| - 1] != Contact then views[|views| - 1]
    else LastPage(start, views[..|views| - 1])
  }

  lemma {:induction false} ReplaySnoc(start: SubView, views: seq<SubView>, v: SubView)
    ensures Replay(start, views + [v]) == NextSubView(Replay(start, views), v)
    decreases |views|
  {
    if views == [] {
      assert ([] + [v])[1..] == [];
    } else {
      assert (views + [v])[1..] == views[1..] + [v];
      ReplaySnoc(NextSubView(start, views[0]), views[1..], v);
    }
  }

  /** Replaying navigation choices one by one shows the last page chosen. */
  lemma {:induction false} ReplayShowsLastPage(start: SubView, views: seq<SubView>)
    ensures Replay(start, views) == LastPage(start, views)
    decreases |views|
  {
    if views != [] {
      var init := views[..|views| - 1];
      assert views == init + [views[|views| - 1]];
      ReplaySnoc(start, init, views[|views| - 1]);
      ReplayShowsLastPage(start, init);
    }
  }

  /** A screen resolution as the screen service reports it. */
  datatype Resolution = Resolution(isMobileDevice: bool)

  /** A call into the application: `application.on(event, windowContext)`. */
  datatype Dispatch = Dispatch(event: ApplicationEvent, context: Option<WindowContext>)

  /** The About window's state and the calls it makes out of itself. */
  class AboutWindow {
    const windowContext: Option<WindowContext>
    var subView: SubView
    var needsMobileView: bool
    /** Whether `onScreenChangeListener` is registered with the screen service. */
    var subscribed: bool
    /** The resolution most recently applied, if any. */
    ghost var applied: Option<Resolution>
    /** Events handed to the application. */
    var dispatched: seq<Dispatch>
    /** Paths handed to `manager.open`. */
    var launched: seq<string>

    ghost predicate Valid()
      reads this
    {
      && subView != Contact
      && needsMobileView == (applied.Some? && applied.value.isMobileDevice)
    }

    constructor (windowContext: Option<WindowContext>)
      ensures Valid()
      ensures this.windowContext == windowContext
      ensures subView == Home && !needsMobileView && !subscribed && applied == None
      ensures dispatched == [] && launched == []
    {
      this.windowContext := windowContext;
      subView := Home;
      needsMobileView := false;
      subscribed := false;
      applied := None;
      dispatched := [];
      launched := [];
    }

    /** `changeParent`: "contact" becomes one event for the application and the
        shown view stays; any other choice becomes the shown view. */
    method ChangeParent(view: SubView)
      requires Valid()
      modifies this`subView, this`dispatched
      ensures Valid()
      ensures subView == NextSubView(old(subView), view)
      ensures view == Contact ==>
        dispatched == old(dispatched) + [Dispatch(Custom(OpenContactKind), windowContext)]
      ensures view != Contact ==> dispatched == old(dispatched)
    {
      if view == Contact {
        dispatched := dispatched + [Dispatch(Custom(OpenContactKind), windowContext)];
        return;
      }
      subView := view;
    }

    /** `openContactApp` of the contact section and of the about page. */
    method OpenContactApp()
      modifies this`launched
      ensures launched == old(launched) + [ContactAppPath]
    {
      launched := launched + [ContactAppPath];
    }

    /** `onScreenChangeListener` */
    method OnScreenChange(resolution: Resolution)
      requires Valid()
      modifies this`needsMobileView, this`applied
      ensures Valid()
      ensures applied == Some(resolution) && needsMobileView == resolution.isMobileDevice
    {
      needsMobileView := resolution.isMobileDevice;
      applied := Some(resolution);
    }

    /** The mount effect: subscribe, then apply the current resolution if the
        screen service has one. */
    method Mount(current: Option<Resolution>)
      requires Valid()
      modifies this`subscribed, this`needsMobileView, this`applied
      ensures Valid() && subscribed
      ensures current.Some? ==> applied == current && needsMobileView == current.value.isMobileDevice
      ensures current.None? ==> applied == old(applied) && needsMobileView == old(needsMobileView)
    {
      subscribed := true;
      if current.Some? {
        OnScreenChange(current.value);
      }
    }

    /** The effect's cleanup: release the subscription. */
    method Unmount()
      modifies this`subscribed
      ensures !subscribed
    {
      subscribed := false;
    }

    function StyleClass(): (r: string)
      reads this
      requires Valid()
      ensures r == MobileStyle <==> applied.Some? && applied.value.isMobileDevice
    {
      MobileClass(needsMobileView)
    }
  }
}
