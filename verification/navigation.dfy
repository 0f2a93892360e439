/** The navigation controller: the `current_view` string the sidebar sets,
    and the screen the main content area currently shows. The two are
    separate pieces of state: some sidebar items change the view name
    without drawing a new screen, and the card and back buttons change the
    screen without touching the view name. */
module Navigation {
  import opened Options
  import opened Devices

  /** The sidebar items, in the order they are drawn. */
  datatype NavItem = DashboardItem | RoomsItem | ScenesItem | AutomationsItem | SettingsItem | ProfileItem | LogoutItem

  const Sidebar: seq<NavItem> :=
    [DashboardItem, RoomsItem, ScenesItem, AutomationsItem, SettingsItem, ProfileItem, LogoutItem]

  /** The `view_name` each sidebar item was created with. */
  function ViewName(i: NavItem): string {
    match i
    case DashboardItem => "dashboard"
    case RoomsItem => "rooms"
    case ScenesItem => "scenes"
    case AutomationsItem => "automations"
    case SettingsItem => "settings"
    case ProfileItem => "profile"
    case LogoutItem => "logout"
  }

  /** The sidebar item a view name belongs to, if any. */
  function ItemOf(view: string): (r: Option<NavItem>)
    ensures r.Some? ==> ViewName(r.value) == view
    ensures r.None? ==> forall i :: ViewName(i) != view
  {
    if view == "dashboard" then Some(DashboardItem)
    else if view == "rooms" then Some(RoomsItem)
    else if view == "scenes" then Some(ScenesItem)
    else if view == "automations" then Some(AutomationsItem)
    else if view == "settings" then Some(SettingsItem)
    else if view == "profile" then Some(ProfileItem)
    else if view == "logout" then Some(LogoutItem)
    else None
  }

  /** Distinct sidebar items carry distinct view names, and every item is in
      the sidebar exactly once. */
  lemma SidebarNames(i: NavItem)
    ensures ItemOf(ViewName(i)) == Some(i)
    ensures i in Sidebar
    ensures forall a, b :: 0 <= a < b < |Sidebar| ==> Sidebar[a] != Sidebar[b]
  {
  }

  /** What the main content area shows. The detail screens carry the device
      they are about, so a detail context exists exactly on a detail screen. */
  datatype Screen =
    | DashboardScreen
    | ProfileScreen
    | ScenesScreen
    | StatisticsScreen
    | LightDetail(light: LightId)
    | ThermostatDetail

  predicate IsDetail(s: Screen) {
    s.LightDetail? || s.ThermostatDetail?
  }

  datatype Nav = Nav(view: string, screen: Screen)

  /** Start-up: `current_view` is "dashboard" and the dashboard is drawn. */
  const InitialNav: Nav := Nav("dashboard", DashboardScreen)

  /** The view name is one a sidebar item can set. */
  predicate NavValid(n: Nav) {
    ItemOf(n.view).Some?
  }

  /** A click on a sidebar item. It always records the item's view name;
      four items draw their screen ("rooms" draws the statistics screen) and
      the other three leave the shown screen as it was. */
  function Click(n: Nav, i: NavItem): (r: Nav)
    ensures ItemOf(r.view) == Some(i)
    ensures r.view == "dashboard" ==> r.screen == DashboardScreen
    ensures r.view == "profile" ==> r.screen == ProfileScreen
    ensures r.view == "scenes" ==> r.screen == ScenesScreen
    ensures r.view == "rooms" ==> r.screen == StatisticsScreen
    ensures r.view in {"automations", "settings", "logout"} ==> r.screen == n.screen
    ensures !IsDetail(r.screen) || r.screen == n.screen
  {
    var view := ViewName(i);
    var screen :=
      if view == "dashboard" then DashboardScreen
      else if view == "profile" then ProfileScreen
      else if view == "scenes" then ScenesScreen
      else if view == "rooms" then StatisticsScreen
      else n.screen;
    Nav(view, screen)
  }

  /** A sidebar click as the handler runs it. The profile screen's header
      shows the first letter of the saved user name; when that name is empty
      the lookup fails after `current_view` has been set, so the view name
      changes but the screen is not redrawn. Every other click follows `Click`. */
  function ClickAsWritten(n: Nav, i: NavItem, nameEmpty: bool): (r: Nav)
    ensures ItemOf(r.view) == Some(i)
    ensures !(i == ProfileItem && nameEmpty) ==> r == Click(n, i)
    ensures i == ProfileItem && nameEmpty ==> r.screen == n.screen
  {
    if i == ProfileItem && nameEmpty then n.(view := ViewName(i)) else Click(n, i)
  }

  /** The on/off cards of the dashboard: display name, device id and the
      `device_type` string the card was built with. */
  datatype DeviceCard = DeviceCard(name: string, id: SwitchId, deviceType: string)

  const DeviceCards: seq<DeviceCard> := [
    DeviceCard("Living Room Light", LightSwitch(LivingRoom), "light"),
    DeviceCard("Bedroom Light", LightSwitch(Bedroom), "light"),
    DeviceCard("Front Door", DoorSwitch, "door")
  ]

  /** A card's type says "light" only for a light; a light detail screen
      is only ever opened for a device that has the light fields. */
  predicate CardWellFormed(c: DeviceCard) {
    c.deviceType == "light" ==> c.id.LightSwitch?
  }

  lemma DeviceCardsWellFormed()
    ensures forall k :: 0 <= k < |DeviceCards| ==> CardWellFormed(DeviceCards[k])
    ensures forall k :: 0 <= k < |DeviceCards| ==> (DeviceCards[k].deviceType == "light" <==> DeviceCards[k].id.LightSwitch?)
  {
  }

  /** The dashboard cards that have a "Details" button: the on/off cards, the
      thermostat card and the fan card (whose button has no handler). */
  datatype Card = OnOffCard(card: DeviceCard) | ThermostatCard | FanCard

  /** A "Details" button. Light cards open their light's detail screen, the
      thermostat card opens the thermostat screen; the door and fan buttons
      do nothing. The view name never changes. */
  function Details(n: Nav, c: Card): (r: Nav)
    requires c.OnOffCard? ==> CardWellFormed(c.card)
    ensures r.view == n.view
    ensures r.screen.LightDetail? && r != n ==> c.OnOffCard? && c.card.deviceType == "light" && c.card.id == LightSwitch(r.screen.light)
    ensures c.OnOffCard? && c.card.deviceType == "light" ==> r.screen == LightDetail(c.card.id.light)
    ensures c == ThermostatCard ==> r.screen == ThermostatDetail
    ensures c == FanCard || (c.OnOffCard? && c.card.deviceType != "light") ==> r == n
  {
    match c
    case OnOffCard(card) =>
      if card.deviceType == "light" then Nav(n.view, LightDetail(card.id.light)) else n
    case ThermostatCard => Nav(n.view, ThermostatDetail)
    case FanCard => n
  }

  /** The back arrow of a detail screen: the dashboard is drawn again and
      `current_view` keeps whatever the sidebar last set. */
  function Back(n: Nav): (r: Nav)
    ensures r.view == n.view
    ensures r.screen == DashboardScreen
    ensures !IsDetail(r.screen)
  {
    Nav(n.view, DashboardScreen)
  }

  /** Opening a detail screen from the dashboard and going back returns to
      the same navigation state. */
  lemma DetailsThenBack(n: Nav, c: Card)
    requires n.screen == DashboardScreen
    requires c.OnOffCard? ==> CardWellFormed(c.card)
    ensures Back(Details(n, c)) == n
  {
  }

  /** Under the intended sidebar rule, clicks are idempotent, and an item
      that draws a screen lands in the same state whatever the state before. */
  lemma ClickIdempotent(n: Nav, m: Nav, i: NavItem)
    ensures Click(Click(n, i), i) == Click(n, i)
    ensures i !in {AutomationsItem, SettingsItem, LogoutItem} ==> Click(n, i) == Click(m, i)
  {
  }

  /** As the handler runs it, a click is still idempotent. A screen-drawing
      item still lands in the same state from anywhere, except "profile" with
      an empty saved name: that click keeps whatever screen was shown. */
  lemma ClickAsWrittenIdempotent(n: Nav, m: Nav, i: NavItem, nameEmpty: bool)
    ensures ClickAsWritten(ClickAsWritten(n, i, nameEmpty), i, nameEmpty) == ClickAsWritten(n, i, nameEmpty)
    ensures i !in {AutomationsItem, SettingsItem, LogoutItem} && !(i == ProfileItem && nameEmpty) ==>
      ClickAsWritten(n, i, nameEmpty) == ClickAsWritten(m, i, nameEmpty)
    ensures i == ProfileItem && nameEmpty && n.screen != m.screen ==>
      ClickAsWritten(n, i, nameEmpty) != ClickAsWritten(m, i, nameEmpty)
  {
  }
}
