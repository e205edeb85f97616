/** The mini-app phone preview (components/MiniAppPreview.tsx): one page
    shown at a time, chosen by an index into the page list that starts at
    zero and is set by the bottom navigation. */
module MiniApp {
  import opened Wrappers
  import opened Seqs
  import opened Text
  import opened Types

  /** The index the preview opens on. */
  const InitialPageIndex: nat := 0

  /** Bottom-navigation icons. */
  datatype TabIcon = House | Box | Person | Gear

  /** Component badge icons. */
  datatype Badge = Bolt | LayerGroup | Keyboard | ListUl | ChartPie

  /** One bottom-navigation button. */
  datatype NavTab = NavTab(index: nat, caption: string, icon: TabIcon, highlighted: bool)

  /** One rendered component card. */
  datatype ComponentCard = ComponentCard(caption: string, details: string, badge: Badge, buttonStyled: bool)

  /** What the preview draws. */
  datatype Screen = Screen(
    header: string,
    title: string,
    content: string,
    cards: seq<ComponentCard>,
    nav: seq<NavTab>)

  /** The icon of the tab at position `i`: three fixed icons, then gears. */
  function IconAt(i: nat): TabIcon {
    if i == 0 then House else if i == 1 then Box else if i == 2 then Person else Gear
  }

  /** The first three tabs have three different icons; every later tab
      shows the gear. */
  lemma TabIcons(i: nat)
    ensures IconAt(0) != IconAt(1) && IconAt(1) != IconAt(2) && IconAt(0) != IconAt(2)
    ensures IconAt(i) == Gear <==> i >= 3
  {
  }

  /** A tab's caption: the page title up to its first space. */
  function TabCaption(title: string): (r: string)
    ensures r <= title && ' ' !in r
    ensures ' ' !in title ==> r == title
    ensures |title| > 0 && title[0] == ' ' ==> r == ""
  {
    BeforeFirst(title, ' ')
  }

  /** The caption is the one prefix of the title that holds no space and
      is followed by a space or the end. */
  lemma TabCaptionIsFirstWord(title: string, w: string)
    ensures w == TabCaption(title) <==> (w <= title && ' ' !in w && (|w| == |title| || title[|w|] == ' '))
  {
    if w <= title && ' ' !in w && (|w| == |title| || title[|w|] == ' ') {
      BeforeFirstUnique(title, ' ', w);
    }
  }

  /** The navigation bar: one tab per page, in page order, the one at the
      active index highlighted. */
  function NavBar(pages: seq<MiniAppPage>, active: nat): (r: seq<NavTab>)
    ensures |r| == |pages|
    ensures forall i :: 0 <= i < |r| ==>
      r[i].index == i && r[i].caption == TabCaption(pages[i].title) && r[i].icon == IconAt(i)
    ensures forall i :: 0 <= i < |r| ==> (r[i].highlighted <==> i == active)
  {
    seq(|pages|, i requires 0 <= i < |pages| => NavTab(i, TabCaption(pages[i].title), IconAt(i), i == active))
  }

  /** The highlight flags of a bar, in order. */
  function Highlights(tabs: seq<NavTab>): (r: seq<bool>)
    ensures |r| == |tabs| && forall i :: 0 <= i < |r| ==> r[i] == tabs[i].highlighted
  {
    seq(|tabs|, i requires 0 <= i < |tabs| => tabs[i].highlighted)
  }

  /** Exactly one tab is highlighted when the index names a page, none
      otherwise. */
  lemma OneHighlightedTab(pages: seq<MiniAppPage>, active: nat)
    ensures Count(Highlights(NavBar(pages, active)), true) == if active < |pages| then 1 else 0
  {
    var flags := Highlights(NavBar(pages, active));
    if active < |pages| {
      CountOnlyAt(flags, true, active);
    } else {
      assert true !in flags;
    }
  }

  /** The badge of a component kind. */
  function BadgeOf(k: ComponentKind): Badge {
    match k
    case Button => Bolt
    case Card => LayerGroup
    case Input => Keyboard
    case List => ListUl
    case Chart => ChartPie
  }

  /** Different kinds get different badges. */
  lemma BadgesDistinct(a: ComponentKind, b: ComponentKind)
    ensures BadgeOf(a) == BadgeOf(b) <==> a == b
  {
  }

  /** A component card: button styling exactly for buttons. */
  function CardOf(c: PageComponent): (r: ComponentCard)
    ensures r.buttonStyled <==> c.kind == Button
    ensures r.caption == c.caption && r.details == c.details && r.badge == BadgeOf(c.kind)
  {
    ComponentCard(c.caption, c.details, BadgeOf(c.kind), c.kind == Button)
  }

  /** Rendering: the page at the active index with its cards and the bar.
      An index past the list (in particular, any index of an empty list)
      reads an undefined page and the render throws. */
  function Render(project: MiniAppProject, active: nat): (r: Option<Screen>)
    ensures r.Some? <==> active < |project.pages|
    ensures r.Some? ==>
      var page := project.pages[active];
      && r.value.header == project.name
      && r.value.title == page.title && r.value.content == page.content
      && |r.value.cards| == |page.components|
      && (forall i :: 0 <= i < |page.components| ==> r.value.cards[i] == CardOf(page.components[i]))
      && r.value.nav == NavBar(project.pages, active)
  {
    if active < |project.pages| then
      var page := project.pages[active];
      Some(Screen(project.name, page.title, page.content,
        seq(|page.components|, i requires 0 <= i < |page.components| => CardOf(page.components[i])),
        NavBar(project.pages, active)))
    else
      None
  }

  /** A tap on the k-th tab of the drawn bar makes that tab's page active. */
  function Tap(pages: seq<MiniAppPage>, active: nat, k: nat): (r: nat)
    requires k < |NavBar(pages, active)|
    ensures r == k && r < |pages|
    ensures NavBar(pages, r)[k].highlighted
  {
    NavBar(pages, active)[k].index
  }

  /** Taps on drawn tabs, in order, from the opening index. */
  function TapAll(pages: seq<MiniAppPage>, active: nat, taps: seq<nat>): nat
    requires forall j :: 0 <= j < |taps| ==> taps[j] < |pages|
    decreases |taps|
  {
    if |taps| == 0 then active else TapAll(pages, Tap(pages, active, taps[0]), taps[1..])
  }

  /** A preview of a non-empty project renders on opening and after any
      sequence of taps, and the page shown is the last one tapped. */
  lemma {:induction false} AlwaysRenders(project: MiniAppProject, active: nat, taps: seq<nat>)
    requires active < |project.pages|
    requires forall j :: 0 <= j < |taps| ==> taps[j] < |project.pages|
    ensures TapAll(project.pages, active, taps) < |project.pages|
    ensures Render(project, TapAll(project.pages, active, taps)).Some?
    ensures |taps| > 0 ==> TapAll(project.pages, active, taps) == taps[|taps| - 1]
    decreases |taps|
  {
    if |taps| > 0 {
      var next := Tap(project.pages, active, taps[0]);
      AlwaysRenders(project, next, taps[1..]);
      if |taps| > 1 {
        assert taps[1..][|taps[1..]| - 1] == taps[|taps| - 1];
      }
    }
  }

  /** The preview opens on the first page: it draws it, with its tab
      highlighted, exactly when the project has a page at all. */
  lemma OpensOnFirstPage(project: MiniAppProject)
    ensures Render(project, InitialPageIndex).Some? <==> |project.pages| > 0
    ensures |project.pages| > 0 ==>
      && Render(project, InitialPageIndex).value.title == project.pages[0].title
      && NavBar(project.pages, InitialPageIndex)[0].highlighted
  {
  }
}
