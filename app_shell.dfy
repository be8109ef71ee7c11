/** The application shell (src/App.js): the retry policy of the query client and the
    sidebar's two-flag state machine, driven by the viewport width. */
module AppShell {
  import opened Util

  // ---------------------------------------------------------------------------
  // Retry policy
  // ---------------------------------------------------------------------------

  /** A client error: `status >= 400 && status < 500`. An absent status is none. */
  predicate IsClientError(status: Option<int>)
  {
    status.Some? && 400 <= status.value < 500
  }

  /** The `retry` option of the query client's queries. `status` is
      `error?.response?.status`, `None` when the error carries no response. */
  function ShouldRetry(failureCount: int, status: Option<int>): (retry: bool)
    ensures retry ==> !IsClientError(status) && failureCount < 2
    ensures !IsClientError(status) && failureCount < 2 ==> retry
  {
    if status.Some? && status.value >= 400 && status.value < 500 then false
    else failureCount < 2
  }

  /** Whether a query whose `failureCount` so far is `failures` and whose errors all
      carry `status` is tried once more; a 4xx error is never retried, any other
      error at most while fewer than two failures have been counted. */
  lemma RetryBound(failures: int, status: Option<int>)
    ensures ShouldRetry(failures, status) ==> failures <= 1
    ensures IsClientError(status) ==> !ShouldRetry(failures, status)
    ensures status.None? ==> (ShouldRetry(failures, status) <==> failures < 2)
  {
  }

  // ---------------------------------------------------------------------------
  // Sidebar state machine
  // ---------------------------------------------------------------------------

  /** The width from which the layout is the desktop one. */
  const DesktopWidth: int := 1024

  predicate IsDesktop(width: int)
  {
    width >= DesktopWidth
  }

  /** `isSidebarOpen` and `isSidebarCollapsed`. */
  datatype Sidebar = Sidebar(open: bool, collapsed: bool)

  /** `handleResize` at viewport width `width`. */
  function Resized(s: Sidebar, width: int): (t: Sidebar)
    ensures IsDesktop(width) ==> t.open && t.collapsed == s.collapsed
    ensures !IsDesktop(width) ==> !t.open && !t.collapsed
  {
    if width >= DesktopWidth then s.(open := true)
    else Sidebar(false, false)
  }

  /** `toggleSidebar`: on the desktop it flips only the collapsed flag, on mobile
      only the open flag. */
  function SidebarToggled(s: Sidebar, width: int): (t: Sidebar)
    ensures IsDesktop(width) ==> t.open == s.open && t.collapsed != s.collapsed
    ensures !IsDesktop(width) ==> t.open != s.open && t.collapsed == s.collapsed
  {
    if width >= DesktopWidth then s.(collapsed := !s.collapsed)
    else s.(open := !s.open)
  }

  /** `closeSidebar`: closes on mobile, does nothing on the desktop. */
  function SidebarClosed(s: Sidebar, width: int): (t: Sidebar)
    ensures IsDesktop(width) ==> t == s
    ensures !IsDesktop(width) ==> !t.open && t.collapsed == s.collapsed
  {
    if width < DesktopWidth then s.(open := false) else s
  }

  /** `toggleCollapse`: flips the collapsed flag at any width. */
  function CollapseToggled(s: Sidebar): (t: Sidebar)
    ensures t.open == s.open && t.collapsed != s.collapsed
  {
    s.(collapsed := !s.collapsed)
  }

  /** The margin class of the main area. */
  function MainMargin(s: Sidebar, width: int): (c: string)
    ensures c == "lg:ml-16" <==> s.open && IsDesktop(width) && s.collapsed
    ensures c == "lg:ml-64" <==> s.open && IsDesktop(width) && !s.collapsed
    ensures c == "" <==> !(s.open && IsDesktop(width))
  {
    if s.open && width >= DesktopWidth then
      if s.collapsed then "lg:ml-16" else "lg:ml-64"
    else ""
  }

  /** Toggling twice at the same width restores the state, for both toggles. */
  lemma TogglesAreInvolutions(s: Sidebar, width: int)
    ensures SidebarToggled(SidebarToggled(s, width), width) == s
    ensures CollapseToggled(CollapseToggled(s)) == s
  {
  }

  // ---------------------------------------------------------------------------
  // What is on screen
  // ---------------------------------------------------------------------------

  /** The rendered shell: the flags, and the viewport width at the last render of the
      component, which is when the margin class was computed from `window.innerWidth`. */
  datatype View = View(sidebar: Sidebar, renderedWidth: int)

  /** The margin class on screen. */
  function ShownMargin(v: View): string
  {
    MainMargin(v.sidebar, v.renderedWidth)
  }

  /** The margin on screen is the one the flags call for at `width`. */
  predicate InSync(v: View, width: int)
  {
    ShownMargin(v) == MainMargin(v.sidebar, width)
  }

  /** A handler that leaves the flags at `after` while the viewport is `width` wide:
      the component renders again, at `width`, only when a flag changed; setting a
      flag to the value it holds renders nothing. */
  function Rerender(v: View, after: Sidebar, width: int): (w: View)
    ensures w.sidebar == after
    ensures after != v.sidebar ==> w.renderedWidth == width && InSync(w, width)
    ensures after == v.sidebar ==> w == v
  {
    if after != v.sidebar then View(after, width) else v
  }

  /** Both toggles change a flag, so after either the margin matches the viewport. */
  lemma TogglesRefreshMargin(v: View, width: int)
    ensures InSync(Rerender(v, SidebarToggled(v.sidebar, width), width), width)
    ensures InSync(Rerender(v, CollapseToggled(v.sidebar), width), width)
  {
  }

  /** The resize handler as written: mobile to desktop with the sidebar already open
      (toggled open on mobile) changes no flag, so the page keeps the margin computed
      on mobile: none, while the desktop sidebar covers the main area. */
  lemma StaleMarginAfterResize()
    ensures var v0 := View(Resized(Sidebar(false, false), 800), 800);
            var v1 := Rerender(v0, SidebarToggled(v0.sidebar, 800), 800);
            var v2 := Rerender(v1, Resized(v1.sidebar, 1200), 1200);
            && v2.sidebar.open && IsDesktop(1200)
            && ShownMargin(v2) == "" && !InSync(v2, 1200)
  {
  }

  /** A shell that renders again at every resize, for instance by keeping the width in
      its state: the flags follow `handleResize` and the margin the new width. */
  function ResizedAndRendered(v: View, width: int): (w: View)
    ensures w.sidebar == Resized(v.sidebar, width) && InSync(w, width)
  {
    View(Resized(v.sidebar, width), width)
  }

  /** With a render at every resize, the main area leaves room for the sidebar exactly
      on the desktop, and a later collapse toggle switches between the two desktop
      margins. */
  lemma MarginAfterResize(v: View, width: int)
    ensures IsDesktop(width) ==> ShownMargin(ResizedAndRendered(v, width)) in {"lg:ml-16", "lg:ml-64"}
    ensures !IsDesktop(width) ==> ShownMargin(ResizedAndRendered(v, width)) == ""
    ensures var w := ResizedAndRendered(v, width);
            IsDesktop(width) ==>
              ShownMargin(Rerender(w, SidebarToggled(w.sidebar, width), width)) != ShownMargin(w)
  {
  }

  /** The resize as written agrees with the corrected one whenever it changes a flag,
      and otherwise shows what was there before. */
  lemma ResizeAsWritten(v: View, width: int)
    ensures Resized(v.sidebar, width) != v.sidebar ==>
              Rerender(v, Resized(v.sidebar, width), width) == ResizedAndRendered(v, width)
    ensures Resized(v.sidebar, width) == v.sidebar ==>
              ShownMargin(Rerender(v, Resized(v.sidebar, width), width)) == ShownMargin(v)
  {
  }

  /** The shell's sidebar state, updated in place by its handlers, and the width at
      which it was last rendered. */
  class Layout {
    var isSidebarOpen: bool
    var isSidebarCollapsed: bool
    var renderedWidth: int

    function State(): Sidebar
      reads this
    {
      Sidebar(isSidebarOpen, isSidebarCollapsed)
    }

    function Shown(): View
      reads this
    {
      View(State(), renderedWidth)
    }

    /** Both flags start false and the first render is at `width`; the mount effect
        runs `handleResize` once, which renders again at the same width if it opens
        the sidebar. */
    constructor (width: int)
      ensures State() == Resized(Sidebar(false, false), width)
      ensures isSidebarOpen == IsDesktop(width) && !isSidebarCollapsed
      ensures renderedWidth == width && InSync(Shown(), width)
    {
      isSidebarOpen, isSidebarCollapsed, renderedWidth := false, false, width;
      new;
      HandleResize(width);
    }

    method HandleResize(width: int)
      modifies this
      ensures State() == Resized(old(State()), width)
      ensures Shown() == Rerender(old(Shown()), Resized(old(State()), width), width)
    {
      var before := State();
      if width >= DesktopWidth {
        isSidebarOpen := true;
      } else {
        isSidebarOpen := false;
        isSidebarCollapsed := false;
      }
      Render(before, width);
    }

    method ToggleSidebar(width: int)
      modifies this
      ensures State() == SidebarToggled(old(State()), width)
      ensures Shown() == Rerender(old(Shown()), SidebarToggled(old(State()), width), width)
      ensures InSync(Shown(), width)
    {
      var before := State();
      if width >= DesktopWidth {
        isSidebarCollapsed := !isSidebarCollapsed;
      } else {
        isSidebarOpen := !isSidebarOpen;
      }
      Render(before, width);
    }

    method CloseSidebar(width: int)
      modifies this
      ensures State() == SidebarClosed(old(State()), width)
      ensures Shown() == Rerender(old(Shown()), SidebarClosed(old(State()), width), width)
    {
      var before := State();
      if width < DesktopWidth {
        isSidebarOpen := false;
      }
      Render(before, width);
    }

    method ToggleCollapse(width: int)
      modifies this
      ensures State() == CollapseToggled(old(State()))
      ensures Shown() == Rerender(old(Shown()), CollapseToggled(old(State())), width)
      ensures InSync(Shown(), width)
    {
      var before := State();
      isSidebarCollapsed := !isSidebarCollapsed;
      Render(before, width);
    }

    /** React's bail-out: render again at `width` only if a flag differs from `before`. */
    method Render(before: Sidebar, width: int)
      modifies this
      ensures State() == old(State())
      ensures renderedWidth == if State() != before then width else old(renderedWidth)
    {
      if State() != before {
        renderedWidth := width;
      }
    }
  }
}
