/**
 * The application shell (App.tsx): a fixed menu of six views, the active view
 * id and the sidebar's collapsed flag. The menu is not filtered by role, the
 * setter is not guarded, and the matches view is mounted without a role.
 */
module App {
  import opened Json
  import opened Js
  import Matches = MatchManagement

  /** The component each menu entry mounts, with the props it is given. */
  datatype Component =
    | DashboardOverview
    | TeamExplorer
    | MatchManagement(userRole: Option<string>)
    | TechnicalStaffManager
    | RefereeAnalytics
    | AdvancedReports

  datatype NavigationItem = NavigationItem(id: string, caption: string, component: Component)

  const NavigationItems: seq<NavigationItem> := [
    NavigationItem("dashboard", "Painel Geral", DashboardOverview),
    NavigationItem("teams", "Clubes", TeamExplorer),
    NavigationItem("matches", "Partidas", MatchManagement(None)),
    NavigationItem("staff", "Equipe Técnica", TechnicalStaffManager),
    NavigationItem("referees", "Árbitros", RefereeAnalytics),
    NavigationItem("relatorios", "Relatórios SQL", AdvancedReports)
  ]

  const MenuIds: seq<string> := ["dashboard", "teams", "matches", "staff", "referees", "relatorios"]

  predicate IsMenuId(id: string) {
    exists i :: 0 <= i < |NavigationItems| && NavigationItems[i].id == id
  }

  /** `navigationItems.find((item) => item.id === activeView)`. */
  function ActiveItem(activeView: string): Option<NavigationItem>
  {
    Find(NavigationItems, (item: NavigationItem) => item.id == activeView)
  }

  /** What the main area shows: the active item's component, or nothing. */
  function MainContent(activeView: string): Option<Component>
  {
    match ActiveItem(activeView)
    case None => None
    case Some(item) => Some(item.component)
  }

  /** One rendered menu button: its key, whether it is highlighted, its tooltip and its visible label. */
  datatype MenuButton = MenuButton(key: string, active: bool, title: Option<string>, text: Option<string>)

  function Button(item: NavigationItem, activeView: string, collapsed: bool): MenuButton
  {
    MenuButton(item.id, activeView == item.id,
               if collapsed then Some(item.caption) else None,
               if collapsed then None else Some(item.caption))
  }

  /** `navigationItems.map(item => <button …>)`: one button per item, in declared order. */
  function Menu(items: seq<NavigationItem>, activeView: string, collapsed: bool): (buttons: seq<MenuButton>)
    ensures |buttons| == |items|
    ensures forall i :: 0 <= i < |items| ==> buttons[i] == Button(items[i], activeView, collapsed)
  {
    if items == [] then [] else [Button(items[0], activeView, collapsed)] + Menu(items[1..], activeView, collapsed)
  }

  function ButtonKeys(buttons: seq<MenuButton>): (keys: seq<string>)
    ensures |keys| == |buttons| && forall i :: 0 <= i < |buttons| ==> keys[i] == buttons[i].key
  {
    if buttons == [] then [] else [buttons[0].key] + ButtonKeys(buttons[1..])
  }

  /** The whole shell as rendered from its two state slots. */
  datatype ShellView = ShellView(menu: seq<MenuButton>, main: Option<Component>)

  function Render(activeView: string, collapsed: bool): ShellView
  {
    ShellView(Menu(NavigationItems, activeView, collapsed), MainContent(activeView))
  }

  /** Every item is shown, in the declared order, whatever the state: there is no role filter. */
  lemma MenuShowsAllItemsInOrder(activeView: string, collapsed: bool)
    ensures ButtonKeys(Render(activeView, collapsed).menu) == MenuIds
  {
    var keys := ButtonKeys(Render(activeView, collapsed).menu);
    assert |keys| == 6;
    forall i | 0 <= i < 6 ensures keys[i] == MenuIds[i] {}
  }

  /** The active item is found exactly when the id is a menu id, and it is the item carrying that id. */
  lemma ActiveItemIsTheMatchingItem(activeView: string)
    ensures ActiveItem(activeView).Some? <==> IsMenuId(activeView)
    ensures ActiveItem(activeView).Some? ==> ActiveItem(activeView).value.id == activeView
    ensures !IsMenuId(activeView) ==> Render(activeView, false).main.None?
  {
  }

  /** Menu ids are pairwise distinct. */
  lemma IdsDistinct()
    ensures forall i, j :: 0 <= i < j < |NavigationItems| ==> NavigationItems[i].id != NavigationItems[j].id
  {
  }

  /** When the active id is a menu id, exactly one button is highlighted. */
  lemma ExactlyOneActiveButton(activeView: string, collapsed: bool)
    requires IsMenuId(activeView)
    ensures exists i :: 0 <= i < 6 && Render(activeView, collapsed).menu[i].active
    ensures forall i, j :: (0 <= i < 6 && 0 <= j < 6 && Render(activeView, collapsed).menu[i].active
              && Render(activeView, collapsed).menu[j].active) ==> i == j
  {
    IdsDistinct();
    var k :| 0 <= k < |NavigationItems| && NavigationItems[k].id == activeView;
    assert Render(activeView, collapsed).menu[k].active;
  }

  /** Labels are visible only when the sidebar is expanded; collapsed, the label becomes the button's title. */
  lemma LabelsFollowCollapse(activeView: string, collapsed: bool)
    ensures forall i :: 0 <= i < 6 ==>
      var b := Render(activeView, collapsed).menu[i];
      (b.text.Some? <==> !collapsed) && (b.title.Some? <==> collapsed) &&
      (if collapsed then b.title else b.text) == Some(NavigationItems[i].caption)
  {
  }

  /** The matches view is mounted without a role, so its admin-only form never appears through the shell. */
  lemma MatchesViewHasNoAdminForm()
    ensures MainContent("matches") == Some(MatchManagement(None))
    ensures !Matches.ShowsAdminForm(MainContent("matches").value.userRole)
  {
    assert NavigationItems[2].id == "matches";
    assert NavigationItems[0].id != "matches" && NavigationItems[1].id != "matches";
  }

  /** The shell's two state slots and their handlers. */
  class Shell {
    var activeView: string
    var sidebarCollapsed: bool

    /** Every id the shell ever holds is a menu id: only menu buttons call the setter. */
    ghost predicate Valid()
      reads this
    {
      IsMenuId(activeView)
    }

    constructor ()
      ensures Valid()
      ensures activeView == "dashboard" && !sidebarCollapsed
    {
      activeView := "dashboard";
      sidebarCollapsed := false;
      assert NavigationItems[0].id == "dashboard";
    }

    /** A menu button's `onClick`: `setActiveView(item.id)`, with no check on the id. */
    method ClickMenuItem(item: NavigationItem)
      requires item in NavigationItems
      modifies this
      ensures Valid()
      ensures activeView == item.id && sidebarCollapsed == old(sidebarCollapsed)
    {
      activeView := item.id;
    }

    /** The collapse button: `setSidebarCollapsed(!sidebarCollapsed)`. */
    method ToggleSidebar()
      requires Valid()
      modifies this
      ensures Valid()
      ensures sidebarCollapsed == !old(sidebarCollapsed) && activeView == old(activeView)
    {
      sidebarCollapsed := !sidebarCollapsed;
    }

    function View(): ShellView
      reads this
    {
      Render(activeView, sidebarCollapsed)
    }
  }

  /** Collapsing twice gives back the original state. */
  method ToggleTwice(shell: Shell)
    requires shell.Valid()
    modifies shell
    ensures shell.Valid()
    ensures shell.activeView == old(shell.activeView) && shell.sidebarCollapsed == old(shell.sidebarCollapsed)
  {
    shell.ToggleSidebar();
    shell.ToggleSidebar();
  }

  /** Every state the handlers reach mounts a view and highlights exactly one button. */
  lemma ValidShellShowsOneView(shell: Shell)
    requires shell.Valid()
    ensures shell.View().main.Some?
    ensures exists i :: 0 <= i < 6 && shell.View().menu[i].active
    ensures forall i, j :: (0 <= i < 6 && 0 <= j < 6 && shell.View().menu[i].active
              && shell.View().menu[j].active) ==> i == j
  {
    ActiveItemIsTheMatchingItem(shell.activeView);
    ExactlyOneActiveButton(shell.activeView, shell.sidebarCollapsed);
  }

  /** A fresh shell shows the dashboard with the sidebar expanded, and every reachable state has exactly one highlighted button. */
  method StartAndClick(k: nat) returns (initial: ShellView, after: ShellView)
    requires k < |NavigationItems|
    ensures |initial.menu| == 6 && |after.menu| == 6
    ensures initial.main == Some(DashboardOverview)
    ensures forall i :: 0 <= i < 6 ==> initial.menu[i].text.Some? && (initial.menu[i].active <==> i == 0)
    ensures after.main == Some(NavigationItems[k].component)
    ensures forall i :: 0 <= i < 6 ==> (after.menu[i].active <==> i == k)
  {
    var shell := new Shell();
    initial := shell.View();
    IdsDistinct();
    shell.ClickMenuItem(NavigationItems[k]);
    after := shell.View();
    assert ActiveItem(NavigationItems[k].id) == Some(NavigationItems[k]) by {
      var p := (item: NavigationItem) => item.id == NavigationItems[k].id;
      var idx := FirstIndex(NavigationItems, p);
      assert p(NavigationItems[k]);
      assert idx == k;
    }
  }
}
