/** The main menu of src/components/NavigationMenu.tsx: which entries are restricted and where a click leads. */
module NavigationMenu {
  const UpgradePath := "/checkout/points"
  const UpgradeMessage := "You need to upgrade your plan to access this feature"

  datatype MenuItem = MenuItem(text: string, path: string, restricted: bool)

  /** The menu entries, in display order. */
  const MenuItems: seq<MenuItem> := [
    MenuItem("Dashboard", "/dashboard", true),
    MenuItem("Projects", "/projects", true),
    MenuItem("Catalog", "/catalog", false),
    MenuItem("My Products", "/products", true),
    MenuItem("Orders", "/sample-orders", false),
    MenuItem("Profit Calculator", "/profit-calculator", false)
  ]

  /** Exactly Dashboard, Projects and My Products need full access, and no two entries share a path. */
  lemma RestrictedEntries()
    ensures forall i :: 0 <= i < |MenuItems| ==>
      (MenuItems[i].restricted <==> MenuItems[i].text in {"Dashboard", "Projects", "My Products"})
    ensures forall i, j :: 0 <= i < j < |MenuItems| ==> MenuItems[i].path != MenuItems[j].path
  {
  }

  datatype Effect = ErrorToast(message: string) | Navigate(path: string)

  /** `handleRestrictedNavigation`: without full access, the upgrade message and the points checkout instead. */
  function RestrictedNavigation(path: string, hasFullAccess: bool): (r: seq<Effect>)
    ensures hasFullAccess ==> r == [Navigate(path)]
    ensures !hasFullAccess ==> r == [ErrorToast(UpgradeMessage), Navigate(UpgradePath)]
  {
    if !hasFullAccess then [ErrorToast(UpgradeMessage), Navigate(UpgradePath)]
    else [Navigate(path)]
  }

  /** How an entry is rendered: a plain link to a path, or a dimmed button that runs the restricted navigation. */
  datatype Rendered = Link(to: string, active: bool) | RestrictedButton(path: string, active: bool)

  /** `renderMenuItem`: active iff the location is exactly the entry's path. */
  function RenderMenuItem(item: MenuItem, pathname: string, hasFullAccess: bool): (r: Rendered)
    ensures r.active <==> pathname == item.path
    ensures r.Link? <==> !item.restricted || hasFullAccess
    ensures r.Link? ==> r.to == item.path
    ensures r.RestrictedButton? ==> r.path == item.path
  {
    var isActive := pathname == item.path;
    if item.restricted && !hasFullAccess then RestrictedButton(item.path, isActive)
    else Link(item.path, isActive)
  }

  /** The effects of clicking a rendered entry; a link simply navigates. */
  function Click(r: Rendered, hasFullAccess: bool): seq<Effect> {
    match r
    case Link(to, _) => [Navigate(to)]
    case RestrictedButton(path, _) => RestrictedNavigation(path, hasFullAccess)
  }

  /**
   * A click on any entry reaches its own path, except a restricted entry without full access,
   * which reaches the points checkout after the upgrade message.
   */
  lemma ClickDestination(item: MenuItem, pathname: string, hasFullAccess: bool)
    ensures var e := Click(RenderMenuItem(item, pathname, hasFullAccess), hasFullAccess);
      if item.restricted && !hasFullAccess then e == [ErrorToast(UpgradeMessage), Navigate(UpgradePath)]
      else e == [Navigate(item.path)]
  {
  }

  /** At most one entry is active at a time. */
  lemma AtMostOneActive(pathname: string, hasFullAccess: bool)
    ensures forall i, j :: 0 <= i < j < |MenuItems| ==>
      !(RenderMenuItem(MenuItems[i], pathname, hasFullAccess).active && RenderMenuItem(MenuItems[j], pathname, hasFullAccess).active)
  {
    RestrictedEntries();
  }
}
