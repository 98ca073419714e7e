/** The bottom navigation bar (frontend/src/components/layout/Navigation.jsx):
    it hides while the page scrolls down and comes back when it scrolls up
    or nears the top; it is drawn only when the interface context also
    allows it; the tab of the current path is highlighted. Scroll positions
    are whole pixels, and every scroll event is taken as one processed
    frame. */
module Navigation {
  /** The hysteresis: how far the page must move before the bar reacts. */
  const Threshold := 10

  /** Above this position the bar is always shown. */
  const TopZone := 50

  /** Scrolling down by more than the hysteresis, beyond the top zone. */
  predicate Hides(lastY: int, y: int)
  {
    y > lastY + Threshold && y > TopZone
  }

  /** Scrolling up by more than the hysteresis, or being in the top zone. */
  predicate Shows(lastY: int, y: int)
  {
    y < lastY - Threshold || y < TopZone
  }

  /** The bar's scroll state: whether it is visible and the last position
      seen. */
  datatype Bar = Bar(isVisible: bool, lastScrollY: int)

  /** One processed scroll frame at position `y`. */
  function Scrolled(b: Bar, y: int): (r: Bar)
    ensures Hides(b.lastScrollY, y) ==> !r.isVisible
    ensures Shows(b.lastScrollY, y) ==> r.isVisible
    ensures !Hides(b.lastScrollY, y) && !Shows(b.lastScrollY, y) ==> r.isVisible == b.isVisible
    ensures r.lastScrollY == y
  {
    if Hides(b.lastScrollY, y) then Bar(false, y)
    else if Shows(b.lastScrollY, y) then Bar(true, y)
    else Bar(b.isVisible, y)
  }

  /** The two conditions never hold together, so the order in which they
      are tested does not matter. */
  lemma HidesShowsExclusive(lastY: int, y: int)
    ensures !(Hides(lastY, y) && Shows(lastY, y))
  {
  }

  /** The bar after the frames at `ys`, in order. */
  function ScrollRun(b: Bar, ys: seq<int>): Bar
    decreases |ys|
  {
    if ys == [] then b else ScrollRun(Scrolled(b, ys[0]), ys[1..])
  }

  /** Small moves (at most the hysteresis from the previous position) that
      stay at or below the top zone never change the visibility, so the bar
      does not flicker while reading. */
  lemma {:induction false} SmallMovesKeepVisibility(b: Bar, ys: seq<int>)
    requires forall k :: 0 <= k < |ys| ==> ys[k] >= TopZone
    requires |ys| > 0 ==> -Threshold <= ys[0] - b.lastScrollY <= Threshold
    requires forall k :: 0 < k < |ys| ==> -Threshold <= ys[k] - ys[k - 1] <= Threshold
    ensures ScrollRun(b, ys).isVisible == b.isVisible
    ensures |ys| > 0 ==> ScrollRun(b, ys).lastScrollY == ys[|ys| - 1]
    decreases |ys|
  {
    if ys != [] {
      var b' := Scrolled(b, ys[0]);
      assert b'.isVisible == b.isVisible && b'.lastScrollY == ys[0];
      var rest := ys[1..];
      assert forall k :: 0 <= k < |rest| ==> rest[k] == ys[k + 1];
      SmallMovesKeepVisibility(b', rest);
    }
  }

  /** Wherever the bar was, a frame in the top zone shows it. */
  lemma TopZoneShows(b: Bar, y: int)
    requires y < TopZone
    ensures Scrolled(b, y).isVisible
  {
  }

  /** The bar is drawn exactly when neither the scroll rule nor the
      interface context (`isNavbarVisible`) hides it. */
  function ShouldShow(isVisible: bool, isNavbarVisible: bool): (r: bool)
    ensures r <==> isVisible && isNavbarVisible
  {
    isVisible && isNavbarVisible
  }

  /** The bar's scroll state as the component holds it. */
  class NavBar {
    var isVisible: bool
    var lastScrollY: int

    function State(): Bar
      reads this
    {
      Bar(isVisible, lastScrollY)
    }

    constructor ()
      ensures State() == Bar(true, 0)
    {
      isVisible, lastScrollY := true, 0;
    }

    /** The frame callback of the scroll handler at position `currentScrollY`. */
    method HandleScroll(currentScrollY: int)
      modifies this
      ensures State() == Scrolled(old(State()), currentScrollY)
    {
      if currentScrollY > lastScrollY + Threshold && currentScrollY > TopZone {
        isVisible := false;
      } else if currentScrollY < lastScrollY - Threshold || currentScrollY < TopZone {
        isVisible := true;
      }
      lastScrollY := currentScrollY;
    }
  }

  // ---------------------------------------------------------------------
  // Tabs

  datatype Tab = Tab(path: string, caption: string)

  const Tabs: seq<Tab> := [Tab("/", "Home"), Tab("/tasks", "Conhecimentos"), Tab("/ai", "Arena"), Tab("/profile", "Perfil")]

  /** A tab is highlighted exactly when the location is its path. */
  predicate IsActive(pathname: string, tab: Tab)
  {
    pathname == tab.path
  }

  /** The tabs' paths are pairwise different. */
  lemma TabPathsDistinct()
    ensures forall i, j :: 0 <= i < j < |Tabs| ==> Tabs[i].path != Tabs[j].path
  {
    assert Tabs[0].path[..] == "/";
    assert Tabs[1].path[1] == 't' && Tabs[2].path[1] == 'a' && Tabs[3].path[1] == 'p';
  }

  /** At most one tab is highlighted, and after a click on a tab (which
      navigates to its path) exactly that tab is. */
  lemma AtMostOneActive(pathname: string)
    ensures forall i, j :: 0 <= i < |Tabs| && 0 <= j < |Tabs| && IsActive(pathname, Tabs[i]) && IsActive(pathname, Tabs[j]) ==> i == j
    ensures forall i, j :: 0 <= i < |Tabs| && 0 <= j < |Tabs| ==> (IsActive(Tabs[i].path, Tabs[j]) <==> i == j)
  {
    TabPathsDistinct();
  }
}
